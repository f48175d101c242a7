# Authentication form handlers of data-storytelling, modelled in Dafny

The data-storytelling web client authenticates two kinds of account, buyers
and organisations, against a hosted identity provider, records the account's
role in one of two tables (`admin`, `buyers`) and redirects the browser. The
only decision logic in the client lives in the submit handlers of four forms
and in two small pieces of routing and session plumbing:

- `SignIn.tsx` / `SignUp.tsx`: the Material-UI forms with a buyer/organisation
  tab bar, an alert dialog and, for sign-up, an organisation consent checkbox;
- `Login.jsx` / `Signup.jsx`: the older Tailwind forms with a loading flag and
  browser alerts;
- `App.jsx`: a session cell fed by `getSession()` and `onAuthStateChange`, and
  a route table; `App.tsx`: the route table of the Material-UI forms.

Each handler is a pure function from the form's state cells and the outcomes
of the external calls it awaits (provider ok or error, lookup error / row
found / no row, upsert outcome) to a `Step`: the next form state and the
ordered trace of effects it performed (provider call, `select(table, id)`,
`upsert(table, keyField, ...)`, navigation, alert, log line, loading flag).
Traces make ordering and "nothing else happens" properties statable: counts
of each kind of effect (`Effects.Count`), the list of navigations
(`Effects.Navigations`) and the final one, which decides where the router
ends up (`Effects.FinalNavigation`). The session is a fold over an arbitrary
sequence of write events; route tables are finite maps from path to page.

Modules: `Wrappers` (Option), `UserTypes` (tab value and toggle), `Provider`
(outcomes, metadata role test, alert text), `Effects` (effects, traces,
counting), `MuiSignIn`, `MuiSignUp`, `LegacyLogin`, `LegacySignup`,
`Session`, `Routes`, and `Flows` (handlers composed with the route tables).

Behaviours of the code that a reader might not expect, all kept as written:
- SignUp.tsx writes the role record whether or not the provider reported an
  error (with an absent key when it did), rather than skipping the write.
- SignIn.tsx picks one table from the metadata `user_type` instead of trying
  the organisation table and then the buyer table.
- After a found row SignIn.tsx navigates to the dashboard and then, always,
  to `/`, so a successful sign-in ends on the sign-up page.
- The SignIn.tsx dialog also opens on a provider error; the SignUp.tsx dialog
  stays hidden after a failed validation whenever the checkbox is ticked.
- App.tsx has no `/buyer-dashboard` route.

## Model

| member | source | states |
|---|---|---|
| UserTypes.Toggle | data-storytelling/src/SignIn.tsx:131 | the tab toggle always changes the tab and maps buyer to org, org to buyer |
| UserTypes.ToggleInvolution | data-storytelling/src/SignUp.tsx:99 | toggling the tab twice restores it |
| Provider.AlertText | data-storytelling/src/Login.jsx:18 | the alert shows `error_description` when it is present and non-empty, otherwise `message` |
| MuiSignIn.Filled | data-storytelling/src/SignIn.tsx:57 | the submit guard passes exactly when e-mail and password are both non-empty |
| MuiSignIn.DialogVisible | data-storytelling/src/SignIn.tsx:177 | the dialog is rendered exactly when the alert flag and the submitted flag are both set |
| MuiSignIn.LookupTable | data-storytelling/src/SignIn.tsx:73-77 | the role lookup targets `admin` exactly when metadata `user_type` is 'org', otherwise `buyers` |
| MuiSignIn.DashboardPath | data-storytelling/src/SignIn.tsx:85-91 | a found row leads to `/dashboard` exactly for org metadata, otherwise `/buyer-dashboard` |
| MuiSignIn.AfterLookup | data-storytelling/src/SignIn.tsx:79-95 | after the lookup exactly one effect follows, a navigation exactly when a row was found, to the role's dashboard |
| MuiSignIn.HandleSignIn | data-storytelling/src/SignIn.tsx:53-104 | submit sets the submitted flag and changes nothing but the two flags; alert raised exactly on validation failure or provider error; an incomplete form does nothing else; otherwise the provider call comes first; on error only a log follows; on success the lookup by returned id comes second and `/` last |
| MuiSignIn.Dismiss | data-storytelling/src/SignIn.tsx:177-184 | dismissing hides the dialog and changes only the alert flag |
| MuiSignIn.ToggleTab | data-storytelling/src/SignIn.tsx:131 | the tab bar changes the selected tab and nothing else |
| MuiSignIn.ValidationFailureIsSilent | data-storytelling/src/SignIn.tsx:55-60 | with an empty e-mail or password: no provider call, no lookup, no navigation, and the dialog is visible |
| MuiSignIn.ProviderErrorStaysOnForm | data-storytelling/src/SignIn.tsx:68-100 | on a provider error: one provider call, no lookup, no navigation, dialog visible |
| MuiSignIn.SignedInLooksUpOnce | data-storytelling/src/SignIn.tsx:63-77 | on provider success: one provider call and exactly one lookup, on the metadata-chosen table filtered by the returned id |
| MuiSignIn.SignedInNavigation | data-storytelling/src/SignIn.tsx:79-103 | on provider success the navigations are the role's dashboard (only if a row was found) followed by `/`, which is the final one |
| MuiSignIn.MissingRoleHasNoDashboard | data-storytelling/src/SignIn.tsx:79-94 | on a lookup error or missing row the only navigation is `/`, and a log line is written |
| MuiSignIn.TabIrrelevant | data-storytelling/src/SignIn.tsx:73-91 | the selected tab never changes the trace; only metadata chooses table and destination |
| MuiSignIn.InitialState | data-storytelling/src/SignIn.tsx:46-50 | the form starts on the buyer tab with no dialog |
| MuiSignUp.PassesValidation | data-storytelling/src/SignUp.tsx:46 | the submit guard passes exactly when e-mail and password are non-empty and, on the org tab, the checkbox is ticked |
| MuiSignUp.DialogVisible | data-storytelling/src/SignUp.tsx:153 | the dialog is rendered exactly when the alert and submitted flags are set and the checkbox is unticked |
| MuiSignUp.RoleWrite | data-storytelling/src/SignUp.tsx:57-70 | org writes go to `admin` keyed `org_id`, buyer writes to `buyers` keyed `id`; key and e-mail come from the returned user and are absent after a provider error |
| MuiSignUp.HandleSignUp | data-storytelling/src/SignUp.tsx:42-73 | submit sets the submitted flag and changes nothing but the two flags; alert raised exactly on validation failure, which does nothing else; otherwise provider call, role write, then `/signin` exactly when the provider succeeded, else a log |
| MuiSignUp.Dismiss | data-storytelling/src/SignUp.tsx:153-161 | dismissing hides the dialog and changes only the alert flag |
| MuiSignUp.ToggleTab | data-storytelling/src/SignUp.tsx:75-77 | the tab bar changes the selected tab and leaves the checkbox unchanged |
| MuiSignUp.SetConsent | data-storytelling/src/SignUp.tsx:133 | the checkbox records its ticked state and nothing else |
| MuiSignUp.ValidationFailureIsSilent | data-storytelling/src/SignUp.tsx:44-49 | a failed validation issues no provider call, no write, no navigation and raises the alert flag |
| MuiSignUp.BuyerNeedsNoConsent | data-storytelling/src/SignUp.tsx:46 | on the buyer tab the checkbox never changes the trace |
| MuiSignUp.ExactlyOneWrite | data-storytelling/src/SignUp.tsx:52-70 | after validation: exactly one provider call and exactly one upsert, error or not, and no lookup |
| MuiSignUp.RedirectIffProviderOk | data-storytelling/src/SignUp.tsx:72 | navigates once to `/signin` when the provider succeeded and not at all otherwise |
| MuiSignUp.WriteOutcomeIrrelevant | data-storytelling/src/SignUp.tsx:59-72 | the upsert's outcome never changes the handler's result |
| MuiSignUp.DialogAfterFailure | data-storytelling/src/SignUp.tsx:153 | after a failed validation the dialog is visible exactly when the checkbox is unticked |
| MuiSignUp.InitialState | data-storytelling/src/SignUp.tsx:34-39 | the form starts on the buyer tab with the checkbox unticked and no dialog |
| LegacyLogin.HandleSignIn | data-storytelling/src/Login.jsx:11-23 | loading on first and off last, the provider call second even for empty fields, then the alert on error or `/dashboard` on success; the form ends not loading |
| LegacyLogin.AlwaysCallsProvider | data-storytelling/src/Login.jsx:14-15 | every submit makes exactly one provider call and two loading changes |
| LegacyLogin.NavigationRule | data-storytelling/src/Login.jsx:17-21 | success navigates exactly once, to `/dashboard`, without alert; an error alerts once and does not navigate |
| LegacySignup.HandleSignUp | data-storytelling/src/Signup.jsx:12-29 | loading on, then the provider call; whatever happens loading off and `/login` last; four effects, or five with the alert third exactly when the provider resolved with an error; the promise rejects exactly when the call threw |
| LegacySignup.AlertExactlyOnError | data-storytelling/src/Signup.jsx:22-24 | exactly one alert when the provider resolved with an error, none on success or when the call threw |
| LegacySignup.TryEffects | data-storytelling/src/Signup.jsx:16-24 | the try block adds at most one effect and never a provider call, write or navigation |
| LegacySignup.EveryAttemptCallsOnce | data-storytelling/src/Signup.jsx:16-20 | every attempt calls the provider once and writes no role record |
| LegacySignup.EveryAttemptEndsAtLogin | data-storytelling/src/Signup.jsx:25-28 | every attempt, error or thrown, navigates exactly once, to `/login`, as the final navigation |
| Session.Apply | data-storytelling/src/App.jsx:13-19 | each `setSession` callback replaces the cell with the session it carries |
| Session.Replay | data-storytelling/src/App.jsx:13-19 | replaying writes leaves the last write's session, or the current one when there are none |
| Session.SessionAfter | data-storytelling/src/App.jsx:10-19 | the session starts null and is always the value of some write |
| Session.RunSession | data-storytelling/src/App.jsx:10-19 | the state cell written in arrival order holds the fold's value, the last write's session |
| Session.LastWriteWins | data-storytelling/src/App.jsx:13-19 | writes before a non-empty suffix of writes are forgotten |
| Session.LateGetSessionOverwrites | data-storytelling/src/App.jsx:13-15 | a `getSession()` result arriving after auth-state changes replaces them |
| Session.SignOutClears | data-storytelling/src/App.jsx:17-19 | a notification with a null session empties the cell |
| Routes.Resolve | data-storytelling/src/App.jsx:24-28 | a path resolves exactly when it is in the table, to its page |
| Routes.LegacyApp | data-storytelling/src/App.jsx:25-27 | `/` renders Signup, `/login` Login, `/dashboard` Dashboard, and no other path matches |
| Routes.MuiApp | data-storytelling/src/App.tsx:16-18 | `/` renders SignUp, `/signin` SignIn, `/dashboard` Dashboard, and no other path matches |
| Routes.LegacyRoutingIgnoresSession | data-storytelling/src/App.jsx:10-28 | the session never changes App.jsx's routing; `/dashboard` resolves with a null session |
| Routes.MuiUnroutedPaths | data-storytelling/src/App.tsx:14-19 | `/buyer-dashboard` and `/login` match no route of App.tsx |
| Flows.SignUpLandsOnSignIn | data-storytelling/src/App.tsx:17 | a successful MUI sign-up ends on the SignIn page |
| Flows.SignInLandsOnSignUp | data-storytelling/src/SignIn.tsx:99-103 | every successful MUI sign-in ends on the SignUp page, whatever the role or lookup outcome |
| Flows.BuyerDashboardUnrouted | data-storytelling/src/SignIn.tsx:88-91 | the buyer-dashboard navigation of a found buyer row has no route in App.tsx |
| Flows.UntypedAccountIsBuyer | data-storytelling/src/SignUp.tsx:52-55 | an account without `user_type` metadata (which is what the sign-up call creates) is looked up in `buyers` and never reaches `/dashboard`, even on the org tab |
| Flows.LoginLandsOnDashboard | data-storytelling/src/Login.jsx:19-21 | a successful Tailwind login ends on the Dashboard page of App.jsx, signed in or not |
| Flows.SignupLandsOnLogin | data-storytelling/src/Signup.jsx:25-28 | every Tailwind sign-up attempt ends on the Login page of App.jsx |

## Left out

- The identity provider and record store themselves (password checks, tokens, session refresh, the row semantics of `.single()`): each call is an input outcome.
- Exceptions thrown by provider or store calls, except the `try`/`finally` of Signup.jsx, which is modelled by the `Threw` outcome.
- Real asynchronous interleaving, double submission and updates after unmount: session writes arrive as an arbitrary sequence, and each handler runs to completion on the state it started with.
- Rendering, theming and layout, the AlertDialog component (its only logic is the `OK` button-text default) and the fixed dialog texts.
- The content of log lines: every `console.log`/`console.error` is one `Log` effect.
- The text-field `onChange` handlers, which copy the field's value into the state cell.
- The Dashboard, TabPanel and supabase client modules are not part of this model.
- Routes.Resolve, Routes.LegacyApp, Routes.MuiApp: "no other path matches" holds for exact matching only; the router's case-insensitive and trailing-slash matching (`/LOGIN`, `/login/`) is not modelled.
- The consent checkbox is rendered only on the org tab; its state cell is kept regardless, as in the source, but the model does not model the re-mounted checkbox's displayed value.
