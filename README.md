# College management portal: session router and sign-in form

This project models the part of the college management front end that has
behaviour: the session/portal router of the `Index` page and the sign-in
form of `LoginPage`. The model proves what that behaviour promises.

- **LoginPage** (`login_page.dfy`): the form state covers the selected role,
  password visibility, the loading flag and the two credential inputs. It
  also holds the pending sign-in timer, with the role its callback captured
  at submit time. Each handler is a function on the value `Form`. The class
  `LoginForm` keeps the same five fields, and its methods are proved to agree
  with those functions. The 2000 ms delay is a separate event, so the model
  has no time.
- **Index** (`index.dfy`): the router state is the current portal and the
  sign-in flag. The module models `handleLogin`, `handleLogout`, the landing
  page's `setCurrentPortal`, and the `renderPortal` dispatch to one of five
  views. The class `Router` holds the two fields.
- **App** (`app.dfy`): the page and whichever component is rendered form one
  transition system. Each user event goes only to the mounted component. The
  timer event is delivered whatever is rendered, because the timer is not
  cancelled. After a sign-out the login form mounts again in its initial
  state. `Run` folds a sequence of events. The class `Page` dispatches each
  event to the `Router` and `LoginForm` methods, and is proved to agree with
  `Step`.

What is proved:
- From a signed-out state with no sign-in pending, while a credential field
  stays empty, no one is signed in.
- Clearing a field after an accepted submit does not cancel the pending
  sign-in, because the timer callback never checks the fields again
  (`ClearingFieldKeepsPendingSignIn`).
- An accepted submit followed by the timer lands on the dashboard of the role
  selected at submit time, and calls `onLogin` exactly once.
- Any pair of filled credentials is accepted. The demo accounts shown on the
  form are never consulted.
- Sign-out always returns to the login page.
- Starting from the first load, the landing page can never be shown
  (`ReachableViews`). No reachable path sets the portal to `landing` while the
  user is signed in, so the portal cards and the `default` branch of
  `renderPortal` never take effect. This assumes the two updates of
  `handleLogin` are applied together, as React 18 batches them (see the
  batching line under "## Left out"). Without batching, the timer callback's
  `setIsAuthenticated(true)` would re-render once while the portal is still
  `login`, and that one render would show the landing page before
  `setCurrentPortal(role)` runs.

Facts about the code that the model keeps:
- A sign-out resets the portal to `login`; no role is kept.
- No reachable path leads to the landing state (`ReachableViews`).
- A submit while loading does nothing. The code gets this from the submit
  button being disabled (`LoginPage.tsx:197`), not from a check in
  `handleLogin`.

## Model

| member | source | states |
|---|---|---|
| `LoginPage.Credentials.With` | LoginPage.tsx:159-175 | editing one input sets that field to the typed text and leaves the other field unchanged |
| `LoginPage.SubmitForm` | LoginPage.tsx:37-52 | while loading a submit changes nothing and outputs nothing; otherwise submit is rejected with the error notice exactly when not loading and a field is empty, and then nothing changes; with both fields filled it starts loading and schedules the timer with the current role; it never calls `onLogin`; role, visibility and credentials are untouched; loading == timer pending is kept |
| `LoginPage.FireTimer` | LoginPage.tsx:52-59 | with no timer pending nothing changes and nothing is output; otherwise the timer calls `onLogin` exactly when one is pending, with the role captured at submit, and stops loading; afterwards no timer is pending; the invariant is kept |
| `LoginPage.TimerFiresOnce` | LoginPage.tsx:52-59 | a pending timer calls `onLogin(role)` once, and firing again calls nothing |
| `LoginPage.AnyFilledPairIsAccepted` | LoginPage.tsx:40-59 | any two filled credential pairs get the same outcome: accepted, the same role scheduled (the demo pairs of lines 216-220 are never compared) |
| `LoginPage.ToggleTwiceRestores` | LoginPage.tsx:181 | two toggles of password visibility restore the form |
| `LoginPage.LoginForm.constructor` | LoginPage.tsx:28-34 | initial form: role student, password hidden, not loading, both inputs empty, no timer |
| `LoginPage.LoginForm.SelectRole` | LoginPage.tsx:126 | a role button sets `selectedRole` and nothing else; the new state is `ChooseRole` of the old one, the handler the traces of `App.Step` use |
| `LoginPage.LoginForm.TogglePassword` | LoginPage.tsx:181 | the eye button flips `showPassword` and nothing else; the new state is `ToggleVisibility` of the old one, the handler the traces of `App.Step` use |
| `LoginPage.LoginForm.SetCredential` | LoginPage.tsx:159-175 | an input's onChange updates only its own credential field; the new state is `EditField` of the old one (through `Credentials.With`), the handler the traces of `App.Step` use |
| `LoginPage.LoginForm.HandleLogin` | LoginPage.tsx:37-52 | the in-place submit handler agrees with `SubmitForm` on the new fields and the output |
| `LoginPage.LoginForm.TimerCallback` | LoginPage.tsx:52-59 | the in-place timer callback agrees with `FireTimer` on the new fields and the output |
| `Index.Render` | Index.tsx:26-43 | the login view exactly when signed out; role r's dashboard exactly when signed in on r's portal; the landing view exactly when signed in on `landing` or (default branch) `login` |
| `Index.SignIn` | Index.tsx:16-19 | `handleLogin(r)` signs in on portal r from any state, and the rendered view is then r's dashboard |
| `Index.SignOut` | Index.tsx:21-24 | `handleLogout` returns to the initial session (portal `login`, signed out) from any state, and the login view is rendered |
| `Index.SelectPortal` | Index.tsx:39 | portal selection changes the portal only, never the sign-in flag |
| `Index.SignOutIdempotent` | Index.tsx:21-24 | signing out twice equals signing out once |
| `Index.DashboardsDistinct` | Index.tsx:31-37 | distinct roles have distinct portals and distinct dashboards |
| `Index.SelectRolePortalShowsDashboard` | Index.tsx:31-39 | while signed in, selecting a role's portal renders that role's dashboard |
| `Index.Router.constructor` | Index.tsx:13-14 | initial router state: portal `login`, not signed in |
| `Index.Router.HandleLogin` | Index.tsx:16-19 | the in-place handler agrees with `SignIn` |
| `Index.Router.HandleLogout` | Index.tsx:21-24 | the in-place handler agrees with `SignOut` |
| `Index.Router.SetCurrentPortal` | Index.tsx:39 | the in-place setter agrees with `SelectPortal` |
| `App.Step` | Index.tsx:26-45 | only the timer's `onLogin` signs in, and it signs in with the role it carries; only a sign-out from a non-login view signs out, back to the initial screen; the portal changes only through these or a landing card |
| `App.Run` | Index.tsx:12-46 | the fold of `Step` over a sequence of user events, each delivered to the component the page renders at that moment; a run of n events yields n outputs |
| `App.RunKeepsConsistent` | Index.tsx:13-41 | every run preserves the reachable-state invariant: signed out only on portal `login`, signed in only on a role portal, loading exactly while the timer is pending, and the timer pending only while signed out |
| `App.ReachableViews` | Index.tsx:26-41 | from the first load the landing view is never rendered, and the login view is shown exactly while signed out |
| `App.EmptyFieldNeverAuthenticates` | LoginPage.tsx:40-47 | from a signed-out state with no sign-in pending, while one credential field stays empty, no event signs in and no event calls `onLogin` |
| `App.EmptyUsernameRejected` | LoginPage.tsx:40-47 | from the first load, while the username is never filled in, the login view stays |
| `App.WaitingKeepsPending` | LoginPage.tsx:49-59 | while the timer is pending, other events (a role change, edits, a second submit) keep the session, the pending role and loading, and call `onLogin` nowhere |
| `App.SignInLandsOnSelectedDashboard` | LoginPage.tsx:37-59 | a filled submit, any other events, then the timer: signed in on exactly the dashboard of the role selected at submit, with `onLogin` called exactly once, on the last event |
| `App.AdminSignInScenario` | Index.tsx:16-37 | choosing admin, typing "x"/"y", submitting and letting the timer fire shows the admin dashboard |
| `App.EmptyUsernameScenario` | LoginPage.tsx:40-47 | a submit with only a password raises the error notice and changes nothing |
| `App.ClearingFieldKeepsPendingSignIn` | LoginPage.tsx:52-59 | emptying the username after an accepted submit still signs in on the timer event, with the field empty: the callback does not check the fields again |
| `App.BackReturnsToLogin` | Index.tsx:21-41 | sign-out from any dashboard or the landing page returns to the login view with a fresh form |
| `App.Page.constructor` | Index.tsx:13-14 | the page starts on the first-load screen |
| `App.Page.Dispatch` | Index.tsx:26-45 | dispatching an event to the mounted component's methods agrees with `Step` on the new state and the output |

## Left out

- The three dashboards (AdminDashboard.tsx, ProfessorDashboard.tsx, StudentDashboard.tsx) are not part of this model. Each one only selects a tab over compiled-in literal data; its one link to the router is the `onBack` sign-out, modelled as the event `Back`.
- JSX rendering, CSS classes, icons, the background logo and the `LandingPage`/`PortalCard` markup are not modelled. They are presentation only.
- The toast notices are a foreign hook. They appear only as the output tags `Rejected` (the error notice) and `LoggedIn` (the success notice plus `onLogin`).
- The 2000 ms `setTimeout` is not modelled as time. The model has an explicit event `TimerElapsed` instead.
- React's `useState` update batching and re-rendering are not modelled. State is plain fields, and the updates of one handler are applied together, as React 18 batches them. `App.ReachableViews` depends on this: without batching, the timer callback would render the landing page once, between `setIsAuthenticated(true)` and `setCurrentPortal(role)` (Index.tsx:17-18), with no user event possible in between.
- The browser's own `required` check on the two inputs (LoginPage.tsx:161, 177) is not modelled. The model follows the handler's own emptiness check. In a browser, a submit with an empty field is stopped before `handleLogin` runs, so the error notice of LoginPage.tsx:41-45 is not what a user sees. `Rejected`, and with it `App.EmptyUsernameScenario`, is the handler's early-return branch. In both cases the submit changes nothing and no one is signed in.
- `Index.Router.SetCurrentPortal` takes any portal, as `setCurrentPortal` does. At the page level the landing cards pass only the three role portals (Index.tsx:100, 114, 128), as the event `PortalCard(role)`.
