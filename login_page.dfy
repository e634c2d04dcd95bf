/** The sign-in form (LoginPage.tsx): the role buttons, the password
    visibility toggle, the two credential inputs, and the submit handler
    with its simulated sign-in delay.

    The form's state is given twice: as the value `Form`, on which each
    event handler is a function (used by the traces of module App), and
    as the class `LoginForm`, whose methods update the same five fields in
    place and are proved to agree with those functions. The 2000 ms timer
    is the separate event `FireTimer`; the role its callback will pass to
    `onLogin` is kept in the field `timer`. */
module LoginPage {

  /** `UserRole`: the three roles a user can sign in as. */
  datatype Role = Student | Professor | Admin

  /** The two text inputs of the form. */
  datatype Field = Username | Password

  datatype Credentials = Credentials(username: string, password: string)
  {
    function Get(f: Field): string
    {
      match f
      case Username => username
      case Password => password
    }

    /** The update `prev => ({ ...prev, <field>: text })` of an input's
        onChange handler: only the edited field changes. */
    function With(f: Field, text: string): (c: Credentials)
      ensures c.Get(f) == text
      ensures forall g: Field :: g != f ==> c.Get(g) == Get(g)
    {
      match f
      case Username => this.(username := text)
      case Password => this.(password := text)
    }
  }

  /** The presence check of the submit handler. A JavaScript string is
      falsy exactly when it is empty, so `!username || !password` fails
      exactly when one of the two is empty. */
  predicate Filled(c: Credentials)
  {
    c.username != "" && c.password != ""
  }

  /** The pending `setTimeout` callback, if any, with the role that its
      closure captured when the form was submitted. */
  datatype Timer = Idle | Pending(role: Role)

  /** What an event makes visible outside the form: nothing, the
      destructive "Error" notice, or the "Login Successful" notice followed
      by the call `onLogin(role)`. */
  datatype Output = Silent | Rejected | LoggedIn(role: Role)

  datatype Form = Form(
    selectedRole: Role,
    showPassword: bool,
    isLoading: bool,
    credentials: Credentials,
    timer: Timer)
  {
    /** The spinner is shown exactly while the sign-in timer is pending. */
    predicate Valid()
    {
      isLoading == timer.Pending?
    }
  }

  /** The form as it is mounted: role student, password hidden, not
      loading, both inputs empty. */
  const InitialForm := Form(Student, false, false, Credentials("", ""), Idle)

  /** A role button's onClick. */
  function ChooseRole(f: Form, r: Role): Form
  {
    f.(selectedRole := r)
  }

  /** The eye button's onClick. */
  function ToggleVisibility(f: Form): Form
  {
    f.(showPassword := !f.showPassword)
  }

  /** An input's onChange. */
  function EditField(f: Form, fld: Field, text: string): Form
  {
    f.(credentials := f.credentials.With(fld, text))
  }

  /** Submitting the form. The submit button is disabled while loading, so
      a submit then does nothing; that branch is the button's `disabled`
      attribute, not a check in `handleLogin`. Otherwise an empty field raises the error
      notice and returns early; two filled fields start loading and
      schedule the timer with the role selected now. The entered text is
      never compared with anything. */
  function SubmitForm(f: Form): (r: (Form, Output))
    ensures !r.1.LoggedIn?
    ensures f.isLoading ==> r == (f, Silent)
    ensures r.1 == Rejected <==> !f.isLoading && !Filled(f.credentials)
    ensures r.1 == Rejected ==> r.0 == f
    ensures r.0.isLoading <==> f.isLoading || Filled(f.credentials)
    ensures !f.isLoading && Filled(f.credentials) ==> r.0.timer == Pending(f.selectedRole)
    ensures r.0.selectedRole == f.selectedRole && r.0.showPassword == f.showPassword
    ensures r.0.credentials == f.credentials
    ensures f.Valid() ==> r.0.Valid()
  {
    if f.isLoading then (f, Silent)
    else if !Filled(f.credentials) then (f, Rejected)
    else (f.(isLoading := true, timer := Pending(f.selectedRole)), Silent)
  }

  /** The timer callback: stop loading, then call `onLogin` with the role
      captured at submit time. With no timer pending nothing happens. */
  function FireTimer(f: Form): (r: (Form, Output))
    ensures r.1.LoggedIn? <==> f.timer.Pending?
    ensures f.timer == Idle ==> r == (f, Silent)
    ensures f.timer.Pending? ==> r.1 == LoggedIn(f.timer.role) && !r.0.isLoading
    ensures r.0.timer == Idle
    ensures r.0.selectedRole == f.selectedRole && r.0.showPassword == f.showPassword
    ensures r.0.credentials == f.credentials
    ensures f.Valid() ==> r.0.Valid()
  {
    match f.timer
    case Idle => (f, Silent)
    case Pending(role) => (f.(isLoading := false, timer := Idle), LoggedIn(role))
  }

  /** The timer is one-shot: once it has fired, firing again calls
      nothing, so `onLogin` is called exactly once per accepted submit. */
  lemma TimerFiresOnce(f: Form)
    requires f.timer.Pending?
    ensures FireTimer(f).1 == LoggedIn(f.timer.role)
    ensures FireTimer(FireTimer(f).0).1 == Silent
  {
  }

  /** Any two filled credential pairs are treated alike: the demo accounts
      shown under the form are never consulted. */
  lemma AnyFilledPairIsAccepted(f: Form, c: Credentials, d: Credentials)
    requires !f.isLoading && Filled(c) && Filled(d)
    ensures SubmitForm(f.(credentials := c)).1 == SubmitForm(f.(credentials := d)).1 == Silent
    ensures SubmitForm(f.(credentials := c)).0.timer == SubmitForm(f.(credentials := d)).0.timer
  {
  }

  /** Two clicks on the eye button restore the visibility. */
  lemma ToggleTwiceRestores(f: Form)
    ensures ToggleVisibility(ToggleVisibility(f)) == f
  {
  }

  /** The form of LoginPage.tsx, its state held in mutable fields. */
  class LoginForm {
    var selectedRole: Role
    var showPassword: bool
    var isLoading: bool
    var credentials: Credentials
    var timer: Timer

    function State(): Form
      reads this
    {
      Form(selectedRole, showPassword, isLoading, credentials, timer)
    }

    constructor ()
      ensures State() == InitialForm
    {
      selectedRole := Student;
      showPassword := false;
      isLoading := false;
      credentials := Credentials("", "");
      timer := Idle;
    }

    method SelectRole(r: Role)
      modifies this
      ensures State() == ChooseRole(old(State()), r)
    {
      selectedRole := r;
    }

    method TogglePassword()
      modifies this
      ensures State() == ToggleVisibility(old(State()))
    {
      showPassword := !showPassword;
    }

    method SetCredential(fld: Field, text: string)
      modifies this
      ensures State() == EditField(old(State()), fld, text)
    {
      match fld
      case Username => credentials := credentials.(username := text);
      case Password => credentials := credentials.(password := text);
    }

    /** `handleLogin` as reached from the submit button. The first branch
        is the button's `disabled={isLoading}`, not part of the handler. */
    method HandleLogin() returns (out: Output)
      modifies this
      ensures (State(), out) == SubmitForm(old(State()))
    {
      if isLoading {
        return Silent;
      }
      if credentials.username == "" || credentials.password == "" {
        return Rejected;
      }
      isLoading := true;
      timer := Pending(selectedRole);
      out := Silent;
    }

    method TimerCallback() returns (out: Output)
      modifies this
      ensures (State(), out) == FireTimer(old(State()))
    {
      out := Silent;
      if timer.Pending? {
        isLoading := false;
        out := LoggedIn(timer.role);
        timer := Idle;
      }
    }
  }
}
