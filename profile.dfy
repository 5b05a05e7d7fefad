/** The profile form of src/components/Profile.jsx: its validation rules, its default
    values, the update payload it sends, and what a reply does to the store and the form. */
module Profile {
  import opened Entities
  import opened ClientStore

  /** The form's values; `password` is `''` when the field is left blank. */
  datatype ProfileForm = ProfileForm(email: string, fullName: string, language: string, password: string)

  /** The schema's complaints, one per failing field. */
  datatype FieldError = InvalidEmail | NameRequired | LanguageTooShort | PasswordTooShort

  function Check(ok: bool, e: FieldError): seq<FieldError>
  {
    if ok then [] else [e]
  }

  /** The schema as declared: a password of length under 6 is rejected, including `''`.
      `emailWellFormed` is the e-mail format check's verdict. */
  function SchemaErrorsAsDeclared(f: ProfileForm, emailWellFormed: bool): (errs: seq<FieldError>)
    ensures errs == [] <==> emailWellFormed && |f.fullName| >= 2 && |f.language| >= 2 && |f.password| >= 6
    ensures PasswordTooShort in errs <==> |f.password| < 6
  {
    Check(emailWellFormed, InvalidEmail) + Check(|f.fullName| >= 2, NameRequired)
    + Check(|f.language| >= 2, LanguageTooShort) + Check(|f.password| >= 6, PasswordTooShort)
  }

  /** The schema as intended: a blank password means "not supplied", and a supplied one needs 6 characters. */
  function SchemaErrors(f: ProfileForm, emailWellFormed: bool): (errs: seq<FieldError>)
    ensures errs == [] <==>
      emailWellFormed && |f.fullName| >= 2 && |f.language| >= 2 && (f.password == "" || |f.password| >= 6)
    ensures PasswordTooShort in errs <==> f.password != "" && |f.password| < 6
    ensures NameRequired in errs <==> |f.fullName| < 2
    ensures LanguageTooShort in errs <==> |f.language| < 2
    ensures InvalidEmail in errs <==> !emailWellFormed
  {
    Check(emailWellFormed, InvalidEmail) + Check(|f.fullName| >= 2, NameRequired)
    + Check(|f.language| >= 2, LanguageTooShort) + Check(f.password == "" || |f.password| >= 6, PasswordTooShort)
  }

  /** The form's defaults for the signed-in user and the current interface language. */
  function DefaultValues(user: Option<User>, currentLanguage: string): (f: ProfileForm)
    ensures f.password == ""
    ensures f.email == (if Truthy(EmailField(user)) then EmailField(user).value else "")
    ensures f.fullName == (if Truthy(FullNameField(user)) then FullNameField(user).value else "")
    ensures f.language == (if Truthy(LanguageField(user)) then LanguageField(user).value else currentLanguage)
  {
    ProfileForm(OrElse(EmailField(user), ""), OrElse(FullNameField(user), ""),
                OrElse(LanguageField(user), currentLanguage), "")
  }

  /** As declared, the untouched form is always refused for its blank password. */
  lemma DefaultsRejectedAsDeclared(user: Option<User>, currentLanguage: string, emailWellFormed: bool)
    ensures PasswordTooShort in SchemaErrorsAsDeclared(DefaultValues(user, currentLanguage), emailWellFormed)
    ensures SchemaErrorsAsDeclared(DefaultValues(user, currentLanguage), emailWellFormed) != []
  {
  }

  /** As intended, the untouched form's blank password is accepted, so a user with a valid
      name and language can save without choosing a new password. */
  lemma DefaultsAcceptedAsIntended(user: Option<User>, currentLanguage: string, emailWellFormed: bool)
    ensures PasswordTooShort !in SchemaErrors(DefaultValues(user, currentLanguage), emailWellFormed)
    ensures var f := DefaultValues(user, currentLanguage);
      emailWellFormed && |f.fullName| >= 2 && |f.language| >= 2 ==> SchemaErrors(f, emailWellFormed) == []
  {
  }

  /** The argument of `updateUser`: metadata always, e-mail and password only when given. */
  datatype UserUpdate = UserUpdate(fullName: string, language: string, email: Option<string>, password: Option<string>)

  /** The `updates` object built from the submitted values and the user's current e-mail. */
  function Updates(data: ProfileForm, currentEmail: Option<string>): (u: UserUpdate)
    ensures u.fullName == data.fullName && u.language == data.language
    ensures u.email.Some? <==> currentEmail != Some(data.email)
    ensures u.email.Some? ==> u.email.value == data.email
    ensures u.password.Some? <==> data.password != ""
    ensures u.password.Some? ==> u.password.value == data.password
  {
    UserUpdate(data.fullName, data.language,
               if currentEmail != Some(data.email) then Some(data.email) else None,
               if data.password != "" then Some(data.password) else None)
  }

  /** The backend's answer to `updateUser`: the updated user, and an error with its message. */
  datatype UpdateReply = UpdateReply(user: Option<User>, error: Option<Option<string>>)

  /** What the user is told after a submit. */
  datatype Notice = Invalid(errors: seq<FieldError>) | ProfileUpdated | UpdateFailed(message: string)

  predicate Succeeded(reply: UpdateReply)
  {
    reply.error.None? && reply.user.Some?
  }

  /** `error?.message || t('update_failed')` */
  function FailureMessage(reply: UpdateReply): string
  {
    if reply.error.Some? then OrElse(reply.error.value, "update_failed") else "update_failed"
  }

  /** The mounted profile page over the application store. */
  class ProfilePage {
    const store: Store
    var form: ProfileForm      // the values the form holds after the last reset
    var language: string       // the interface language

    constructor (store: Store, currentLanguage: string)
      ensures this.store == store
      ensures form == DefaultValues(store.user, currentLanguage) && language == currentLanguage
    {
      this.store := store;
      form := DefaultValues(store.user, currentLanguage);
      language := currentLanguage;
    }

    /** `onSubmit`: sends the update payload for validated `data` and applies the backend's `reply`.
        The page is shown only behind the route guard, so a user is signed in. */
    method OnSubmit(data: ProfileForm, reply: UpdateReply) returns (sent: UserUpdate, notice: Notice)
      requires store.user.Some?
      modifies this, store
      ensures sent == Updates(data, old(store.user).value.email)
      ensures store.appointments == old(store.appointments) && store.healthData == old(store.healthData)
      ensures Succeeded(reply) ==>
        && store.user == reply.user && form == data.(password := "") && language == data.language
        && notice == ProfileUpdated
      ensures !Succeeded(reply) ==>
        && store.user == old(store.user) && form == old(form) && language == old(language)
        && notice == UpdateFailed(FailureMessage(reply))
    {
      sent := Updates(data, store.user.value.email);
      if Succeeded(reply) {
        store.SetUser(reply.user);
        language := data.language;
        form := data.(password := "");
        notice := ProfileUpdated;
      } else {
        notice := UpdateFailed(FailureMessage(reply));
      }
    }

    /** Submitting `data` as the code is written: the declared schema, then `onSubmit`. */
    method Submit(data: ProfileForm, emailWellFormed: bool, reply: UpdateReply)
      returns (sent: Option<UserUpdate>, notice: Notice)
      requires store.user.Some?
      modifies this, store
      ensures store.appointments == old(store.appointments) && store.healthData == old(store.healthData)
      ensures SchemaErrorsAsDeclared(data, emailWellFormed) != [] ==>
        && sent.None? && notice == Invalid(SchemaErrorsAsDeclared(data, emailWellFormed))
        && store.user == old(store.user) && form == old(form) && language == old(language)
      ensures SchemaErrorsAsDeclared(data, emailWellFormed) == [] ==>
        sent == Some(Updates(data, old(store.user).value.email))
      ensures SchemaErrorsAsDeclared(data, emailWellFormed) == [] && Succeeded(reply) ==>
        && store.user == reply.user && form == data.(password := "") && language == data.language
        && notice == ProfileUpdated
      ensures SchemaErrorsAsDeclared(data, emailWellFormed) == [] && !Succeeded(reply) ==>
        && store.user == old(store.user) && form == old(form) && language == old(language)
        && notice == UpdateFailed(FailureMessage(reply))
    {
      var errs := SchemaErrorsAsDeclared(data, emailWellFormed);
      if errs != [] {
        return None, Invalid(errs);
      }
      var update;
      update, notice := OnSubmit(data, reply);
      sent := Some(update);
    }

    /** Submitting `data` with the corrected schema, under which a blank password passes. */
    method SubmitAsIntended(data: ProfileForm, emailWellFormed: bool, reply: UpdateReply)
      returns (sent: Option<UserUpdate>, notice: Notice)
      requires store.user.Some?
      modifies this, store
      ensures store.appointments == old(store.appointments) && store.healthData == old(store.healthData)
      ensures SchemaErrors(data, emailWellFormed) != [] ==>
        && sent.None? && notice == Invalid(SchemaErrors(data, emailWellFormed))
        && store.user == old(store.user) && form == old(form) && language == old(language)
      ensures SchemaErrors(data, emailWellFormed) == [] ==> sent == Some(Updates(data, old(store.user).value.email))
      ensures SchemaErrors(data, emailWellFormed) == [] && Succeeded(reply) ==>
        && store.user == reply.user && form == data.(password := "") && language == data.language
        && notice == ProfileUpdated
      ensures SchemaErrors(data, emailWellFormed) == [] && !Succeeded(reply) ==>
        && store.user == old(store.user) && form == old(form) && language == old(language)
        && notice == UpdateFailed(FailureMessage(reply))
    {
      var errs := SchemaErrors(data, emailWellFormed);
      if errs != [] {
        return None, Invalid(errs);
      }
      var update;
      update, notice := OnSubmit(data, reply);
      sent := Some(update);
    }
  }
}
