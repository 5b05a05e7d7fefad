/** The login / sign-up form of src/components/Auth.jsx. The component uses a store
    created once by its own module, separate from the application store the router reads,
    and shared by every mount of the form. A handler's
    `await` splits it in two: `Submit` runs up to the backend call and returns the call
    made; `Complete` runs the rest with the backend's answer. Error messages are
    translation keys. */
module Auth {
  import opened Entities
  import opened ClientStore

  /** The metadata every sign-up sends. */
  const SignUpMetadata: Metadata := Metadata(Some("miner"), Some("Test User"), Some("fr"))

  const FillAllFields: string := "please_fill_all_fields"
  const LoginFailed: string := "login_failed_invalid_credentials"
  const SignUpFailed: string := "signup_failed"

  /** A call to the authentication service. */
  datatype AuthCall =
    | SignIn(email: string, password: string)
    | SignUp(email: string, password: string, metadata: Metadata)

  /** The service's answer: an exception, or a response with an error flag and maybe a user. */
  datatype AuthReply = Threw | Replied(error: bool, user: Option<User>)

  predicate Succeeded(reply: AuthReply)
  {
    reply.Replied? && !reply.error && reply.user.Some?
  }

  /** The message a failed call leaves. */
  function FailureMessage(call: AuthCall): string
  {
    if call.SignIn? then LoginFailed else SignUpFailed
  }

  /** The call `handleSubmit` dispatches for the given mode and credentials, if any. */
  function Dispatch(isSignUp: bool, email: string, password: string): (c: Option<AuthCall>)
    ensures c.None? <==> email == "" || password == ""
    ensures c.Some? ==> c.value.email == email && c.value.password == password
    ensures c.Some? ==> (c.value.SignUp? <==> isSignUp)
    ensures c.Some? && c.value.SignUp? ==> c.value.metadata == SignUpMetadata
  {
    if email == "" || password == "" then None
    else if isSignUp then Some(SignUp(email, password, SignUpMetadata))
    else Some(SignIn(email, password))
  }

  class AuthForm {
    const store: Store          // the module-level store of Auth.jsx
    var email: string
    var password: string
    var isSignUp: bool
    var errorMsg: string
    var location: Option<string>   // where `navigate` last sent the router

    /** Mounting the form over `authStore`, which keeps whatever an earlier mount left in it. */
    constructor (authStore: Store)
      ensures store == authStore
      ensures email == "" && password == "" && !isSignUp && errorMsg == "" && location.None?
    {
      store := authStore;
      email, password := "", "";
      isSignUp := false;
      errorMsg := "";
      location := None;
    }

    /** Typing in the e-mail field. */
    method ChangeEmail(value: string)
      modifies this
      ensures email == value
      ensures password == old(password) && isSignUp == old(isSignUp) && errorMsg == old(errorMsg)
      ensures location == old(location)
    {
      email := value;
    }

    /** Typing in the password field. */
    method ChangePassword(value: string)
      modifies this
      ensures password == value
      ensures email == old(email) && isSignUp == old(isSignUp) && errorMsg == old(errorMsg)
      ensures location == old(location)
    {
      password := value;
    }

    /** The mode link: flips between login and sign-up and clears the message. */
    method ToggleMode()
      modifies this
      ensures isSignUp == !old(isSignUp) && errorMsg == ""
      ensures email == old(email) && password == old(password) && location == old(location)
    {
      isSignUp := !isSignUp;
      errorMsg := "";
    }

    /** `handleSubmit` up to the backend call: refuses empty fields, otherwise the chosen
        handler clears the message and makes its call. */
    method Submit() returns (call: Option<AuthCall>)
      modifies this
      ensures call == Dispatch(old(isSignUp), old(email), old(password))
      ensures call.None? ==> errorMsg == FillAllFields
      ensures call.Some? ==> errorMsg == ""
      ensures email == old(email) && password == old(password) && isSignUp == old(isSignUp)
      ensures location == old(location)
    {
      if email == "" || password == "" {
        errorMsg := FillAllFields;
        return None;
      }
      errorMsg := "";
      if isSignUp {
        call := Some(SignUp(email, password, SignUpMetadata));
      } else {
        call := Some(SignIn(email, password));
      }
    }

    /** The rest of the handler that made `call`, given the service's `reply`. */
    method Complete(call: AuthCall, reply: AuthReply)
      modifies this, store
      ensures Succeeded(reply) ==>
        store.user == reply.user && location == Some("/dashboard") && errorMsg == old(errorMsg)
      ensures !Succeeded(reply) ==>
        store.user == old(store.user) && location == old(location) && errorMsg == FailureMessage(call)
      ensures store.appointments == old(store.appointments) && store.healthData == old(store.healthData)
      ensures email == old(email) && password == old(password) && isSignUp == old(isSignUp)
    {
      if reply.Threw? || reply.error || reply.user.None? {
        errorMsg := FailureMessage(call);
        return;
      }
      store.SetUser(reply.user);
      location := Some("/dashboard");
    }
  }
}
