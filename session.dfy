/**
 * The view-mode machine of `App` composed with the password gate of
 * `AdminLogin`: what a visitor can reach by clicking and typing.
 */
module Session {
  import opened Routing
  import opened Text

  /** The hard-coded demo password. */
  const AdminPassword: string := "admin123"

  /**
   * `password === 'admin123'`: an exact comparison, with no trimming or case folding; an
   * accepted password holds neither white space nor capital letters.
   */
  function Accepts(password: string): (r: bool)
    ensures r ==> |password| == 8
    ensures r ==> forall i :: 0 <= i < |password| ==> !IsJsSpace(password[i]) && !('A' <= password[i] <= 'Z')
  {
    password == AdminPassword
  }

  /** Case and white-space variants of the password are refused. */
  lemma VariantsRejected()
    ensures Accepts("admin123")
    ensures !Accepts("Admin123") && !Accepts("ADMIN123") && !Accepts("admin123 ") && !Accepts(" admin123")
    ensures !Accepts("")
  {
  }

  /** The login form's own state: the typed password and whether the wrong-password notice shows. */
  datatype Form = Form(password: string, error: bool)

  const InitialForm: Form := Form("", false)

  /** The current view and the login form's state (meaningful while the login view shows). */
  datatype Screen = Screen(mode: ViewMode, form: Form)

  /** What a visitor can do that concerns the admin gate. */
  datatype Action =
    | ClickAdminEntry
    | TypePassword(text: string)
    | SubmitPassword
    | ClickBack
    | ClickLogout
    | ClickViewSite

  /** The site as first shown. */
  const Start: Screen := Screen(Public, InitialForm)

  /**
   * One visitor action. Entering the login view mounts a fresh form; the form's controls work
   * only there: typing stores the text and hides the notice, a refused submission keeps the text
   * and shows the notice.
   */
  function Step(s: Screen, a: Action): (r: Screen)
    ensures r.mode == Admin && s.mode != Admin ==>
              s.mode == Login && a == SubmitPassword && Accepts(s.form.password)
    ensures s.mode == Login && a == SubmitPassword && !Accepts(s.form.password) ==>
              r.mode == Login && r.form.error && r.form.password == s.form.password
    ensures r.mode == Login && s.mode != Login ==> r.form == InitialForm
  {
    match a
    case ClickAdminEntry =>
      if s.mode == Public then Screen(Next(s.mode, OpenLogin), InitialForm) else s
    case TypePassword(text) =>
      if s.mode == Login then s.(form := Form(text, false)) else s
    case SubmitPassword =>
      if s.mode != Login then s
      else if Accepts(s.form.password) then s.(mode := Next(s.mode, LoginAccepted))
      else s.(form := s.form.(error := true))
    case ClickBack => s.(mode := Next(s.mode, BackToSite))
    case ClickLogout => s.(mode := Next(s.mode, Logout))
    case ClickViewSite => s.(mode := Next(s.mode, ViewSite))
  }

  /** The screen after a whole sequence of actions. */
  function Run(s: Screen, t: seq<Action>): Screen
    decreases |t|
  {
    if t == [] then s else Step(Run(s, t[..|t| - 1]), t[|t| - 1])
  }

  /** Action `i` of `t` is a submission of the exact password on the login view. */
  ghost predicate AcceptedAt(s: Screen, t: seq<Action>, i: int)
  {
    0 <= i < |t| && t[i] == SubmitPassword &&
    Run(s, t[..i]).mode == Login && Accepts(Run(s, t[..i]).form.password)
  }

  /** The admin panel is reached only by submitting the exact password on the login view. */
  lemma {:induction false} AdminOnlyThroughPassword(s: Screen, t: seq<Action>)
    requires s.mode != Admin && Run(s, t).mode == Admin
    ensures exists i :: AcceptedAt(s, t, i)
    decreases |t|
  {
    var n := |t| - 1;
    var prefix := t[..n];
    if Run(s, prefix).mode == Admin {
      AdminOnlyThroughPassword(s, prefix);
      var i :| AcceptedAt(s, prefix, i);
      assert prefix[..i] == t[..i];
      assert AcceptedAt(s, t, i);
    } else {
      assert AcceptedAt(s, t, n);
    }
  }

  /** A visitor who never submits the password never sees the admin panel. */
  lemma NoPasswordNoAdmin(t: seq<Action>)
    requires forall i :: 0 <= i < |t| ==> t[i] != SubmitPassword
    ensures Run(Start, t).mode != Admin
  {
    if Run(Start, t).mode == Admin {
      AdminOnlyThroughPassword(Start, t);
    }
  }

  /** On the login view, typing a password and submitting opens the panel exactly when it is the right one. */
  lemma TypedPasswordDecides(f: Form, p: string)
    ensures Run(Screen(Login, f), [TypePassword(p), SubmitPassword]).mode == Admin <==> Accepts(p)
  {
    var s0, t := Screen(Login, f), [TypePassword(p), SubmitPassword];
    assert t[..1] == [TypePassword(p)] && t[..1][..0] == [];
    assert Run(s0, t[..1]) == Step(s0, TypePassword(p)) == Screen(Login, Form(p, false));
    assert Run(s0, t) == Step(Screen(Login, Form(p, false)), SubmitPassword);
  }

  /** The shortest way in: footer button, the password, submit. */
  lemma AdminReachable()
    ensures Run(Start, [ClickAdminEntry, TypePassword(AdminPassword), SubmitPassword]).mode == Admin
  {
    var t := [ClickAdminEntry, TypePassword(AdminPassword), SubmitPassword];
    assert t[..2] == [ClickAdminEntry, TypePassword(AdminPassword)];
    assert t[..2][..1] == [ClickAdminEntry] && t[..2][..1][..0] == [];
    assert Run(Start, t[..2][..1]) == Step(Start, ClickAdminEntry) == Screen(Login, InitialForm);
    assert Run(Start, t[..2]) == Screen(Login, Form(AdminPassword, false));
    assert Run(Start, t) == Step(Screen(Login, Form(AdminPassword, false)), SubmitPassword);
  }
}
