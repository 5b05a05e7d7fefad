# Telehealth web client: a Dafny model of its decision and data logic

This project models the client-side logic of a telehealth web front-end, a thin client over a hosted
backend for authentication and storage. It does not model the hosted services. The modelled logic is:

- the dashboard's de-duplication of fetched rows by `id`, and how a load fills the global store;
- the role-gated route guard, the route table, and the nav bar's choice of the next appointment;
- the API client: base-URL normalisation, path joining, query-parameter filtering, header merging,
  and mapping a response to a result or an error;
- the global store's initial state and its setters;
- the theme toggle: initial choice, toggle, and persistence;
- the profile form: validation, defaults, update payload, and reply handling;
- the login / sign-up form as a small state machine.

There is one Dafny module per source file:

- `dashboard.dfy` holds `Dashboard`.
- `app.dfy` holds `App`.
- `api_client.dfy` holds `ApiClient`.
- `store.dfy` holds `ClientStore`.
- `theme_toggle.dfy` holds `ThemeToggle`.
- `profile.dfy` holds `Profile`.
- `auth.dfy` holds `Auth`.
- `entities.dfy` holds the shared records (`Entities`).

In a record, an absent JavaScript value (`undefined` or `null`) is `None`. A string field counts as
truthy when it is present and non-empty. Dates are integer timestamps. Text shown to the user is kept
as its translation key.

Choice of form. The following are classes whose methods change their fields:

- the global store (`ClientStore.Store`);
- the mounted theme switch;
- the profile page;
- the login form.

The dashboard's one-pass filter with its `seen` set is a method with a loop. So is the store-filling
`forEach`. Each is proved equal to a recursive reference definition, and the properties are lemmas
about that definition. The routing and selection code in `App.jsx` is pure functions. Header
building is a method that updates a local map; its result is characterised by a predicate, and a
lemma shows that the predicate determines the map.

The login form uses a store created once by its own module (`src/components/Auth.jsx:8-15`). That
store is a separate instance from the application store that the router reads (`src/App.jsx:5`,
`src/App.jsx:32`), and every mount of the form shares it. In the model, `Auth.AuthForm` is
constructed over that store, which keeps whatever an earlier mount left in it. A successful login
changes that store only, not the one `App.RoleRoute` is given.

Each `await` in the login handlers splits the handler in two:

- `Submit` covers everything up to the backend call and returns the call made.
- `Complete` applies the backend's answer to that call.

Two consequences of the code are proved as lemmas rather than reported as defects:

- Re-running the dashboard load with the same rows duplicates `id`s in `healthData`
  (`Dashboard.ReloadRepeatsIds`).
- A user whose role is neither `admin` nor `miner` is sent from `/dashboard` back to `/dashboard`
  (`App.OtherRolesRedirectToThemselves`).

## Model

| member | source | states |
|---|---|---|
| `Dashboard.FirstOccurrences` | src/components/Dashboard.jsx:11-17 | the de-duplicated list is never longer than its input |
| `Dashboard.UniqueById` | src/components/Dashboard.jsx:11-17 | the filter pass with its `seen` set returns exactly the elements that are the first with their key, in input order |
| `Dashboard.SameIds` | src/components/Dashboard.jsx:14-16 | every key of the input occurs in the result, and no other key does |
| `Dashboard.NoDuplicateIds` | src/components/Dashboard.jsx:11-17 | no two elements of the result share an `id` |
| `Dashboard.KeptAreFirsts` | src/components/Dashboard.jsx:13-16 | an item is in the result iff some input position holds it and no earlier input has its `id` (the kept item is the first with that `id`) |
| `Dashboard.KeptPositionsEmbed` | src/components/Dashboard.jsx:13 | the kept positions are strictly increasing input indices holding the result's elements |
| `Dashboard.OrderPreserved` | src/components/Dashboard.jsx:13 | the result is a subsequence of the input, so relative order is preserved |
| `Dashboard.DistinctUnchanged` | src/components/Dashboard.jsx:11-17 | a list whose ids are already distinct is returned unchanged |
| `Dashboard.Idempotent` | src/components/Dashboard.jsx:11-17 | applying the de-duplication twice equals applying it once |
| `Dashboard.LengthKeptIffDistinct` | src/components/Dashboard.jsx:11-17 | the result has the input's length iff all ids are distinct |
| `Dashboard.NonEmptyKeeps` | src/components/Dashboard.jsx:13-16 | a non-empty input keeps its first element at the front |
| `Dashboard.ReloadRepeatsIds` | src/components/Dashboard.jsx:36 | loading the same non-empty health rows twice leaves a repeated id: rows are not de-duplicated against stored ones |
| `Dashboard.LoadDashboard` | src/components/Dashboard.jsx:20-39 | with no user, nothing is queried and nothing changes; otherwise it queries both tables by the user id; appointments become the de-duplicated rows (empty when none are returned); health data becomes the old list followed by the de-duplicated rows; the user is unchanged |
| `App.Role` | src/App.jsx:21 | the routing role is the metadata role when present and non-empty, else `miner` |
| `App.RoleRoute` | src/App.jsx:17-28 | loading gives the loading view; no user gives a redirect to `/`; the children render iff not loading, a user is present and the role is allowed; otherwise the redirect goes to `/admin` for `admin`, else to `/dashboard` |
| `App.ResolveByPath` | src/App.jsx:130-173 | the route table path by path: `/consultation` goes to `/dashboard`; `/profile`, `/dashboard` and `/consultation/:id` are guarded for `miner`; `/admin` is guarded for `admin`; `/` is the public login page; any other path matches nothing |
| `App.RoutesDisjoint` | src/App.jsx:130-173 | at most one route pattern matches any path |
| `App.SignedOutSeesOnlyLogin` | src/App.jsx:132-172 | without a user, the only page shown is the login page at `/`; every other match redirects to `/` or to `/dashboard` |
| `App.RedirectLandsOnAdmittingPage` | src/App.jsx:24 | for roles `admin` and `miner`, the redirect target of a refused route renders a page for that user |
| `App.OtherRolesRedirectToThemselves` | src/App.jsx:24 | any other role is refused by `/dashboard` and redirected to `/dashboard` |
| `App.NextAppointment` | src/App.jsx:35-41 | none iff no appointment is dated strictly after now; otherwise it is a listed appointment, dated after now, no later than any other future one |
| `App.NextAppointmentFirstOfEarliest` | src/App.jsx:38-40 | on equal dates the appointment listed first is chosen (the sort is stable) |
| `ApiClient.NormalizeBase` | src/api/client.js:7 | unset gives `''`; otherwise the configured value is the result, or the result plus one `/`, the latter exactly when it ends in `/` |
| `ApiClient.BuildUrl` | src/api/client.js:9-12 | the URL is the base, then a `/`, then the path: `base + path` when the path starts with `/`, else `base + '/' + path` |
| `ApiClient.BuildUrlLeadingSlash` | src/api/client.js:10 | a path without a leading `/` gives the same URL as the path with one |
| `ApiClient.KeptParamsAppend` | src/api/client.js:18-21 | parameter filtering distributes over concatenation, so kept parameters keep entry order |
| `ApiClient.KeptParamsMembers` | src/api/client.js:19-20 | a pair `(k, s)` is appended iff the entries hold `k` with a value other than `undefined`/`null` whose string is `s` |
| `ApiClient.AppendParams` | src/api/client.js:17-22 | the loop appends exactly the kept parameters, in order, after the existing ones; missing params append nothing |
| `ApiClient.AuthToken` | src/api/client.js:31-32 | the explicit token when truthy, else the stored token when truthy, else none |
| `ApiClient.HeadersForUnique` | src/api/client.js:24-32 | the header specification determines the header map |
| `ApiClient.BuildHeaders` | src/api/client.js:24-32 | caller headers override the `Accept: application/json` default; `Content-Type: application/json` overrides the caller's iff the body is truthy and not FormData; `Authorization: Bearer <t>` is set iff there is a token; every other caller header passes through |
| `ApiClient.HandleResponse` | src/api/client.js:41-52 | raw returns the response, and only raw does; empty text is `null`; unparseable text fails parsing; a non-ok status gives an error carrying the status, the data and `data.message` (if truthy) or else the status text; an ok status whose text is empty or parses returns the data (`null` for empty text) |
| `ApiClient.Request` | src/api/client.js:7-53 | the fetch call has the URL built over the normalised configured base, the kept params, the method, the specified headers, the body and `credentials: 'include'`; the outcome is the response handling above |
| `ClientStore.Store.constructor` | src/store.js:3-6 | initially no user and empty appointment and health lists |
| `ClientStore.Store.SetUser` | src/store.js:7 | replaces the user only |
| `ClientStore.Store.SetAppointments` | src/store.js:8 | replaces the appointments only |
| `ClientStore.Store.AddHealthData` | src/store.js:9-11 | appends one record; old prefix kept, new last element, length plus one, multiset grows by it; nothing else changes |
| `ThemeToggle.InitialTheme` | src/components/ThemeToggle.jsx:3-9 | no window gives `light`; a non-empty stored theme is returned verbatim; otherwise `dark` iff the dark preference matches, else `light` |
| `ThemeToggle.Toggled` | src/components/ThemeToggle.jsx:27 | the new theme is `dark` or `light`, and it is `dark` exactly when the old one was not |
| `ThemeToggle.ToggleTwice` | src/components/ThemeToggle.jsx:27 | two toggles from `light` or `dark` restore it |
| `ThemeToggle.ToggleTwiceNormalizes` | src/components/ThemeToggle.jsx:27 | two toggles from any other stored value give `light` |
| `ThemeToggle.ThemeSwitch.constructor` | src/components/ThemeToggle.jsx:12-17 | mounting picks the initial theme, persists it under `theme` and sets the `dark` class iff it is `dark` |
| `ThemeToggle.ThemeSwitch.ApplyTheme` | src/components/ThemeToggle.jsx:14-17 | after the effect the stored `theme` equals the current theme and the `dark` class is present iff the theme is `dark` |
| `ThemeToggle.ThemeSwitch.Click` | src/components/ThemeToggle.jsx:27 | a click toggles the theme and the effect re-applies and persists it |
| `Profile.SchemaErrorsAsDeclared` | src/components/Profile.jsx:11-16 | as declared: valid iff the e-mail is well formed, name and language have length at least 2, and the password has length at least 6 (so `''` fails) |
| `Profile.SchemaErrors` | src/components/Profile.jsx:11-16 | as intended: as above but a blank password is accepted; each error is present iff its rule fails |
| `Profile.DefaultValues` | src/components/Profile.jsx:25-30 | the e-mail defaults to the user's, else `''`; the name to the metadata name, else `''`; the language to the metadata language, else the current language; the password to `''` |
| `Profile.DefaultsRejectedAsDeclared` | src/components/Profile.jsx:15 | the declared schema always refuses the untouched form for its blank password |
| `Profile.DefaultsAcceptedAsIntended` | src/components/Profile.jsx:15 | the intended schema accepts the untouched form's blank password |
| `Profile.Updates` | src/components/Profile.jsx:35-42 | the payload always carries exactly the submitted name and language; the e-mail iff it differs from the current one; the password iff non-empty |
| `Profile.ProfilePage.constructor` | src/components/Profile.jsx:18-31 | the form starts at the defaults for the store's user and the current language |
| `Profile.ProfilePage.OnSubmit` | src/components/Profile.jsx:33-52 | it sends the update payload; on success the store user becomes the returned user, the language changes and the form resets to the submitted values with a blank password; on failure nothing changes and the error message or `update_failed` is reported |
| `Profile.ProfilePage.Submit` | src/components/Profile.jsx:11-16 | as written (declared schema): input the declared schema refuses sends nothing and changes nothing, so the untouched form is never sent; otherwise it behaves as `onSubmit` |
| `Profile.ProfilePage.SubmitAsIntended` | src/components/Profile.jsx:11-16 | corrected schema: input it refuses sends nothing and changes nothing; otherwise it behaves as `onSubmit`, so a blank password is accepted and left out of the payload |
| `Auth.Dispatch` | src/components/Auth.jsx:102-112 | no call iff e-mail or password is empty; otherwise sign-up iff in sign-up mode, with the credentials, and sign-up sends role `miner`, language `fr`, name `Test User` |
| `Auth.AuthForm.constructor` | src/components/Auth.jsx:8-24 | mounts over the module-level store it is given, with empty credentials, login mode and no message |
| `Auth.AuthForm.ChangeEmail` | src/components/Auth.jsx:133 | sets the e-mail only |
| `Auth.AuthForm.ChangePassword` | src/components/Auth.jsx:143 | sets the password only |
| `Auth.AuthForm.ToggleMode` | src/components/Auth.jsx:158-161 | flips the mode and clears the message |
| `Auth.AuthForm.Submit` | src/components/Auth.jsx:99-116 | empty fields set `please_fill_all_fields` and call nothing; otherwise the message is cleared before the dispatched call |
| `Auth.AuthForm.Complete` | src/components/Auth.jsx:27-96 | success (no error, a user) sets the user and navigates to `/dashboard`; an error, a missing user or an exception leaves the user unset and sets `login_failed_invalid_credentials` for login or `signup_failed` for sign-up |

## Left out

- Video consultation, session bootstrap, entry point, i18n set-up, language switcher, error boundary,
  admin dashboard, and the DOM test: these are not part of this model. They are media capture,
  subscriptions, library configuration and markup.
- `loading` in `App.jsx` is read from a store that never defines it, so it is an input of
  `App.RoleRoute`.
- All JSX markup and CSS classes.
- `console` logging.
- `alert`: its text is the `Notice` that `Profile.ProfilePage.Submit` returns, but showing it is
  not modelled.
- `fetch`, `JSON.parse` and the `URL` class are abstract. The response and what parsing yields are
  inputs.
- These `URL` behaviours are not modelled: path normalisation and percent-encoding, a query already
  present in the path, and the removal of the page origin. The fetch target is the built path plus
  the pair list.
- A rejected `fetch` or `res.text()` is not modelled. Neither is an exception from `updateUser`.
  Each of these propagates out of the caller unhandled.
- `ApiClient.AppendParams`: the entries are taken in the order `Object.entries` yields them. That
  function's own ordering is not modelled. It puts integer-like keys first.
- `ApiClient.AppendParams`: `String(v)` of a value is an input (`Value(text)`), not computed.
- Header names are compared exactly. HTTP case-insensitivity is not modelled, so a caller's
  `content-type` is kept beside `Content-Type`.
- `api.get`, `post`, `put`, `patch` and `delete` only pass a fixed method string to `request`, which
  `ApiClient.Request` takes as a parameter.
- Profile's e-mail format check is an input boolean; the regular expression is not modelled.
- String lengths count characters, not UTF-16 code units.
- Dates are integer timestamps. A date string that does not parse (NaN) is not modelled.
- Translation is a key lookup. Messages are kept as keys. The interface language is the `language`
  field of `Profile.ProfilePage`.
- Route matching is exact, except that `:id` matches one non-empty segment. The router's tolerance
  of trailing slashes and of letter case is not modelled.
- Async interleaving is not modelled, for example the store changing between the two awaits of the
  dashboard load. `Auth.AuthForm.Complete` takes the call that was made, so a mode flip during a
  request still reports the right handler's failure.
- `Profile.ProfilePage.Submit`, `SubmitAsIntended` and `OnSubmit` require a signed-in user. The page is only reachable behind the
  route guard, and `user.email` would throw otherwise.
- Non-string truthy values in metadata fields such as `role` are not modelled.
- The effect re-running on a change of the backend client, and React's development double run of
  effects, are not modelled as events. Their consequence for health data is `Dashboard.ReloadRepeatsIds`.

## Findings

| source | as written | input that shows it | evidently intended | confidence | as-written member | corrected member |
|---|---|---|---|---|---|---|
| src/components/Profile.jsx:15 | the password rule `z.string().min(6).optional()` accepts only a missing value, but the form always supplies a string and defaults it to `''` (line 29) | the untouched form, whose password is `''`: it is refused with `password_min_length`, so a profile cannot be saved without choosing a new password | a blank password means "keep the current one" and passes validation; it is then left out of the payload (line 42) | high; not executed | `Profile.DefaultsRejectedAsDeclared` | `Profile.DefaultsAcceptedAsIntended` |

In the model, `Profile.SchemaErrorsAsDeclared` is the schema as written, and
`Profile.ProfilePage.Submit` validates with it, so the untouched form is never sent.
`Profile.SchemaErrors` is the corrected schema; `Profile.ProfilePage.SubmitAsIntended` validates with
it and sends the untouched form of a user whose name and language are valid.
