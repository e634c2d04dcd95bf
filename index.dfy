/** The session/portal router of Index.tsx: which portal is current,
    whether the user is signed in, the two handlers that change both, and
    the dispatch from that state to the view that is rendered.

    As in module LoginPage, the state is a value `Session` with a function
    per handler, and a class `Router` holding the two fields of the
    component, whose methods are proved to agree with those functions. */
module Index {
  import opened LoginPage

  /** `Portal`: the five portal names. */
  datatype Portal = LoginPortal | LandingPortal | StudentPortal | ProfessorPortal | AdminPortal

  /** The component `renderPortal` returns. */
  datatype View = Login | StudentDash | ProfessorDash | AdminDash | Landing

  /** Every role name is also a portal name, so `setCurrentPortal(role)`
      selects the portal of the same name. */
  function PortalOf(r: Role): Portal
  {
    match r
    case Student => StudentPortal
    case Professor => ProfessorPortal
    case Admin => AdminPortal
  }

  /** The dashboard belonging to a role. */
  function DashboardOf(r: Role): View
  {
    match r
    case Student => StudentDash
    case Professor => ProfessorDash
    case Admin => AdminDash
  }

  /** The portals that belong to a role. */
  predicate IsRolePortal(p: Portal)
  {
    p == StudentPortal || p == ProfessorPortal || p == AdminPortal
  }

  datatype Session = Session(portal: Portal, authenticated: bool)

  /** On mount: portal `login`, not signed in. */
  const InitialSession := Session(LoginPortal, false)

  /** `renderPortal`: the login page while signed out; once signed in, the
      dashboard of the current portal, and the landing page for `landing`
      and, through the switch's default branch, for `login`. */
  function Render(s: Session): (v: View)
    ensures v == Login <==> !s.authenticated
    ensures forall r: Role :: v == DashboardOf(r) <==> s.authenticated && s.portal == PortalOf(r)
    ensures v == Landing <==> s.authenticated && !IsRolePortal(s.portal)
  {
    if !s.authenticated then Login
    else
      match s.portal
      case StudentPortal => StudentDash
      case ProfessorPortal => ProfessorDash
      case AdminPortal => AdminDash
      case LandingPortal => Landing
      case _ => Landing
  }

  /** `handleLogin(role)`: signed in, on the role's own dashboard,
      whatever the state before. */
  function SignIn(s: Session, r: Role): (t: Session)
    ensures t.authenticated && t.portal == PortalOf(r)
    ensures Render(t) == DashboardOf(r)
  {
    Session(PortalOf(r), true)
  }

  /** `handleLogout`: signed out, back on the login page, whatever the
      state before. */
  function SignOut(s: Session): (t: Session)
    ensures t == InitialSession
    ensures Render(t) == Login
  {
    Session(LoginPortal, false)
  }

  /** `setCurrentPortal(p)`, the landing page's `onPortalSelect`: only the
      portal changes, never the sign-in flag. */
  function SelectPortal(s: Session, p: Portal): (t: Session)
    ensures t.authenticated == s.authenticated && t.portal == p
  {
    s.(portal := p)
  }

  /** Signing out twice is signing out once. */
  lemma SignOutIdempotent(s: Session)
    ensures SignOut(SignOut(s)) == SignOut(s)
  {
  }

  /** A dashboard identifies its role: different roles have different
      portals and different dashboards, so signing in as `r` can only
      show `r`'s dashboard. */
  lemma DashboardsDistinct(r: Role, q: Role)
    ensures DashboardOf(r) == DashboardOf(q) <==> r == q
    ensures PortalOf(r) == PortalOf(q) <==> r == q
  {
  }

  /** Landing selection from a signed-in session shows the chosen role's
      dashboard. */
  lemma SelectRolePortalShowsDashboard(s: Session, r: Role)
    requires s.authenticated
    ensures Render(SelectPortal(s, PortalOf(r))) == DashboardOf(r)
  {
  }

  /** The Index component, its state held in its two fields. */
  class Router {
    var currentPortal: Portal
    var isAuthenticated: bool

    function State(): Session
      reads this
    {
      Session(currentPortal, isAuthenticated)
    }

    constructor ()
      ensures State() == InitialSession
    {
      currentPortal := LoginPortal;
      isAuthenticated := false;
    }

    method HandleLogin(role: Role)
      modifies this
      ensures State() == SignIn(old(State()), role)
    {
      isAuthenticated := true;
      currentPortal := PortalOf(role);
    }

    method HandleLogout()
      modifies this
      ensures State() == SignOut(old(State()))
    {
      isAuthenticated := false;
      currentPortal := LoginPortal;
    }

    method SetCurrentPortal(p: Portal)
      modifies this
      ensures State() == SelectPortal(old(State()), p)
    {
      currentPortal := p;
    }
  }
}
