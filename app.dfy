/** The Index page together with the component it renders, as one
    event-driven transition system. `Render` decides which component is
    mounted; a user event reaches only that component:

      - the login page (role buttons, eye button, inputs, submit) while
        signed out; its `onLogin` is the router's `handleLogin`;
      - a dashboard's `onBack`, or the landing page's "Sign Out", both the
        router's `handleLogout`;
      - the landing page's portal cards, the router's `setCurrentPortal`.

    The sign-in timer is not cancelled when the login page unmounts, so
    its event is delivered whatever is rendered. The login page loses its
    state when it unmounts and starts from `InitialForm` when it mounts
    again after a sign-out. */
module App {
  import opened LoginPage
  import opened Index

  datatype Screen = Screen(session: Session, form: Form)

  /** What the page shows when it first loads. */
  const Start := Screen(InitialSession, InitialForm)

  datatype Event =
    | RoleButton(role: Role)
    | EyeButton
    | Type(field: Field, text: string)
    | SubmitButton
    | TimerElapsed
    | PortalCard(role: Role)
    | Back

  /** One event, delivered to the component that is rendered. Only the
      timer's `onLogin` signs a user in, only a sign-out signs a user out,
      and the portal changes only through those two or a landing card. */
  function Step(s: Screen, e: Event): (r: (Screen, Output))
    ensures r.1.LoggedIn? ==> e == TimerElapsed && r.0.session == SignIn(s.session, r.1.role)
    ensures !s.session.authenticated && r.0.session.authenticated ==> r.1.LoggedIn?
    ensures s.session.authenticated && !r.0.session.authenticated ==> e == Back && r.0 == Start
    ensures r.0.session.portal != s.session.portal ==> r.1.LoggedIn? || e == Back || e.PortalCard?
  {
    var onLogin := Render(s.session) == Login;
    match e
    case RoleButton(role) =>
      (if onLogin then s.(form := ChooseRole(s.form, role)) else s, Silent)
    case EyeButton =>
      (if onLogin then s.(form := ToggleVisibility(s.form)) else s, Silent)
    case Type(fld, text) =>
      (if onLogin then s.(form := EditField(s.form, fld, text)) else s, Silent)
    case SubmitButton =>
      if onLogin then
        var (f, out) := SubmitForm(s.form);
        (s.(form := f), out)
      else (s, Silent)
    case TimerElapsed =>
      var (f, out) := FireTimer(s.form);
      (Screen(if out.LoggedIn? then SignIn(s.session, out.role) else s.session, f), out)
    case PortalCard(role) =>
      (if Render(s.session) == Landing then s.(session := SelectPortal(s.session, PortalOf(role))) else s, Silent)
    case Back =>
      (if onLogin then s else Screen(SignOut(s.session), InitialForm), Silent)
  }

  /** The screen after a sequence of events, with one output per event. */
  datatype Trace = Trace(last: Screen, outputs: seq<Output>)

  function Run(s: Screen, events: seq<Event>): (t: Trace)
    ensures |t.outputs| == |events|
    decreases events
  {
    if events == [] then Trace(s, [])
    else
      var (next, out) := Step(s, events[0]);
      var rest := Run(next, events[1..]);
      Trace(rest.last, [out] + rest.outputs)
  }

  /** Running two sequences one after the other is running their
      concatenation. */
  lemma {:induction false} RunAppend(s: Screen, a: seq<Event>, b: seq<Event>)
    ensures Run(s, a + b).last == Run(Run(s, a).last, b).last
    ensures Run(s, a + b).outputs == Run(s, a).outputs + Run(Run(s, a).last, b).outputs
    decreases a
  {
    if a == [] {
      assert a + b == b;
    } else {
      assert (a + b)[0] == a[0];
      assert (a + b)[1..] == a[1..] + b;
      var next := Step(s, a[0]).0;
      RunAppend(next, a[1..], b);
      assert Run(s, a).outputs == [Step(s, a[0]).1] + Run(next, a[1..]).outputs;
    }
  }

  /** The states the page can reach: signed out exactly on the login
      portal, signed in exactly on a role's portal, the spinner on exactly
      while the timer is pending, and the timer pending only while signed
      out. */
  predicate Consistent(s: Screen)
  {
    s.form.Valid()
    && (s.session.authenticated ==> IsRolePortal(s.session.portal) && s.form.timer == Idle)
    && (!s.session.authenticated ==> s.session.portal == LoginPortal)
  }

  lemma StepKeepsConsistent(s: Screen, e: Event)
    requires Consistent(s)
    ensures Consistent(Step(s, e).0)
  {
  }

  lemma {:induction false} RunKeepsConsistent(s: Screen, events: seq<Event>)
    requires Consistent(s)
    ensures Consistent(Run(s, events).last)
    decreases events
  {
    if events != [] {
      StepKeepsConsistent(s, events[0]);
      RunKeepsConsistent(Step(s, events[0]).0, events[1..]);
    }
  }

  /** From the first load, whatever the user does, the page shows the
      login page or a dashboard: the landing page (and with it its portal
      cards) is never rendered, and the login page shows exactly while
      signed out. */
  lemma ReachableViews(events: seq<Event>)
    ensures var v := Render(Run(Start, events).last.session);
      v != Landing && (v == Login <==> !Run(Start, events).last.session.authenticated)
  {
    RunKeepsConsistent(Start, events);
  }

  /** From a signed-out state with no sign-in pending, while one credential
      field stays empty (it starts empty and every edit of it leaves it
      empty), no submit is accepted, `onLogin` is never called and the user
      stays signed out. The premise that no sign-in is pending matters: see
      `ClearingFieldKeepsPendingSignIn`. */
  lemma {:induction false} EmptyFieldNeverAuthenticates(s: Screen, fld: Field, events: seq<Event>)
    requires !s.session.authenticated && s.form.timer == Idle
    requires s.form.credentials.Get(fld) == ""
    requires forall i :: 0 <= i < |events| && events[i].Type? && events[i].field == fld ==> events[i].text == ""
    ensures !Run(s, events).last.session.authenticated
    ensures forall i :: 0 <= i < |events| ==> !Run(s, events).outputs[i].LoggedIn?
    decreases events
  {
    if events != [] {
      var (next, out) := Step(s, events[0]);
      assert !out.LoggedIn?;
      assert !next.session.authenticated && next.form.timer == Idle;
      assert next.form.credentials.Get(fld) == "";
      EmptyFieldNeverAuthenticates(next, fld, events[1..]);
      forall i | 0 <= i < |events|
        ensures !Run(s, events).outputs[i].LoggedIn?
      {
        if i > 0 {
          assert Run(s, events).outputs[i] == Run(next, events[1..]).outputs[i - 1];
        }
      }
    }
  }

  /** From the first load, as long as the username is never filled in,
      the login page stays. */
  lemma EmptyUsernameRejected(events: seq<Event>)
    requires forall i :: 0 <= i < |events| && events[i].Type? && events[i].field == Username ==> events[i].text == ""
    ensures !Run(Start, events).last.session.authenticated
    ensures Render(Run(Start, events).last.session) == Login
  {
    EmptyFieldNeverAuthenticates(Start, Username, events);
  }

  /** While the timer is pending, the other events leave the session and
      the pending role alone and call `onLogin` nowhere. */
  lemma {:induction false} WaitingKeepsPending(s: Screen, role: Role, middle: seq<Event>)
    requires !s.session.authenticated && s.form.timer == Pending(role) && s.form.isLoading
    requires TimerElapsed !in middle
    ensures Run(s, middle).last.session == s.session
    ensures Run(s, middle).last.form.timer == Pending(role)
    ensures Run(s, middle).last.form.isLoading
    ensures forall i :: 0 <= i < |middle| ==> !Run(s, middle).outputs[i].LoggedIn?
    decreases middle
  {
    if middle != [] {
      var (next, out) := Step(s, middle[0]);
      assert middle[0] != TimerElapsed;
      assert next.session == s.session && next.form.timer == Pending(role) && next.form.isLoading;
      assert TimerElapsed !in middle[1..];
      WaitingKeepsPending(next, role, middle[1..]);
      forall i | 0 <= i < |middle|
        ensures !Run(s, middle).outputs[i].LoggedIn?
      {
        if i > 0 {
          assert Run(s, middle).outputs[i] == Run(next, middle[1..]).outputs[i - 1];
        }
      }
    }
  }

  /** An accepted submit followed, after any other events, by the timer
      signs in as the role selected AT SUBMIT TIME (a role chosen while
      loading does not count), shows exactly that role's dashboard, and
      calls `onLogin` exactly once, on the timer event. Any filled pair is
      accepted. */
  lemma SignInLandsOnSelectedDashboard(s: Screen, middle: seq<Event>)
    requires Consistent(s) && !s.session.authenticated && !s.form.isLoading
    requires Filled(s.form.credentials)
    requires TimerElapsed !in middle
    ensures var t := Run(s, [SubmitButton] + middle + [TimerElapsed]);
      && t.last.session.authenticated
      && Render(t.last.session) == DashboardOf(s.form.selectedRole)
      && t.outputs[|t.outputs| - 1] == LoggedIn(s.form.selectedRole)
      && forall i :: 0 <= i < |t.outputs| - 1 ==> !t.outputs[i].LoggedIn?
  {
    var role := s.form.selectedRole;
    var s1 := Step(s, SubmitButton).0;
    assert s1.form.timer == Pending(role) && s1.form.isLoading && s1.session == s.session;
    RunAppend(s, [SubmitButton], middle);
    RunAppend(s, [SubmitButton] + middle, [TimerElapsed]);
    assert Run(s, [SubmitButton]).last == s1;
    RunAppend(s1, [], middle);
    WaitingKeepsPending(s1, role, middle);
    var s2 := Run(s1, middle).last;
    var t := Run(s, [SubmitButton] + middle + [TimerElapsed]);
    assert Run(s2, [TimerElapsed]).outputs == [LoggedIn(role)];
    assert t.outputs == [Silent] + Run(s1, middle).outputs + [LoggedIn(role)];
    forall i | 0 <= i < |t.outputs| - 1
      ensures !t.outputs[i].LoggedIn?
    {
      if i > 0 {
        assert t.outputs[i] == Run(s1, middle).outputs[i - 1];
      }
    }
  }

  /** First load, choose Administrator, type "x" and "y", submit, let the
      timer fire: the admin dashboard, with `onLogin` called on the last
      event only. */
  lemma AdminSignInScenario()
    ensures var t := Run(Start, [RoleButton(Admin), Type(Username, "x"), Type(Password, "y"), SubmitButton, TimerElapsed]);
      Render(t.last.session) == AdminDash && t.outputs == [Silent, Silent, Silent, Silent, LoggedIn(Admin)]
  {
  }

  /** First load, type only a password and submit: the error notice,
      the login page stays, and the submit changed nothing. */
  lemma EmptyUsernameScenario()
    ensures var t := Run(Start, [Type(Password, "y"), SubmitButton]);
      Render(t.last.session) == Login && t.outputs == [Silent, Rejected]
      && t.last == Run(Start, [Type(Password, "y")]).last
  {
  }

  /** Clearing a field after an accepted submit does not cancel the pending
      sign-in: the inputs stay enabled while loading, and the timer callback
      never checks the fields again. */
  lemma ClearingFieldKeepsPendingSignIn()
    ensures var t := Run(Start, [Type(Username, "x"), Type(Password, "y"), SubmitButton, Type(Username, ""), TimerElapsed]);
      t.last.form.credentials.username == "" && Render(t.last.session) == StudentDash
      && t.outputs[4] == LoggedIn(Student)
  {
  }

  /** Signing out from any screen other than the login page returns to the
      login page, signed out, with a freshly mounted form. */
  lemma BackReturnsToLogin(s: Screen)
    requires Render(s.session) != Login
    ensures Step(s, Back).0 == Start
    ensures Render(Step(s, Back).0.session) == Login
  {
  }

  /** The page and its mounted login form as objects: each event is handed
      to the method of the component that is rendered. */
  class Page {
    const router: Router
    var loginPage: LoginForm

    function State(): Screen
      reads this, router, loginPage
    {
      Screen(router.State(), loginPage.State())
    }

    constructor ()
      ensures State() == Start
    {
      router := new Router();
      loginPage := new LoginForm();
    }

    method Dispatch(e: Event) returns (out: Output)
      modifies this, router, loginPage
      ensures (State(), out) == Step(old(State()), e)
    {
      var onLogin := Render(router.State()) == Login;
      out := Silent;
      match e
      case RoleButton(role) =>
        if onLogin { loginPage.SelectRole(role); }
      case EyeButton =>
        if onLogin { loginPage.TogglePassword(); }
      case Type(fld, text) =>
        if onLogin { loginPage.SetCredential(fld, text); }
      case SubmitButton =>
        if onLogin { out := loginPage.HandleLogin(); }
      case TimerElapsed =>
        out := loginPage.TimerCallback();
        if out.LoggedIn? { router.HandleLogin(out.role); }
      case PortalCard(role) =>
        if Render(router.State()) == Landing { router.SetCurrentPortal(PortalOf(role)); }
      case Back =>
        if !onLogin {
          router.HandleLogout();
          loginPage := new LoginForm();
        }
    }
  }
}
