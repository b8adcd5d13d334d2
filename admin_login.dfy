/** The password gate in front of the admin panel (`AdminLogin`), mounted only on the login view. */
module LoginForm {
  import opened Routing
  import opened AppRoot
  import opened Session

  class AdminLogin {
    /** The root component whose `setViewMode` the callbacks call. */
    const app: App
    var password: string
    var error: bool

    function State(): Form
      reads this
    {
      Form(password, error)
    }

    /** The view and this form together, as the visitor sees them. */
    function Shown(): Screen
      reads this, app
    {
      Screen(app.viewMode, State())
    }

    constructor(app: App)
      ensures this.app == app
      ensures State() == InitialForm
    {
      this.app := app;
      password := "";
      error := false;
    }

    /** The password input's `onChange`. */
    method Change(text: string)
      requires app.viewMode == Login
      modifies this
      ensures Shown() == Step(old(Shown()), TypePassword(text))
      ensures State() == Form(text, false)
    {
      password := text;
      error := false;
    }

    /** `handleSubmit`: the exact password calls `onLogin`; anything else shows the notice. */
    method Submit() returns (accepted: bool)
      requires app.Valid() && app.viewMode == Login
      modifies this, app
      ensures app.Valid()
      ensures accepted <==> Accepts(old(password))
      ensures Shown() == Step(old(Shown()), SubmitPassword)
      ensures app.Ui() == old(app.Ui()).(viewMode := Step(old(Shown()), SubmitPassword).mode)
      ensures app.store.posts == old(app.store.posts)
    {
      if password == AdminPassword {
        accepted := true;
        app.Navigate(LoginAccepted);
      } else {
        accepted := false;
        error := true;
      }
    }

    /** The "Siteye Geri Dön" button calls only `onBack`. */
    method Back()
      requires app.Valid() && app.viewMode == Login
      modifies app
      ensures app.Valid()
      ensures Shown() == Step(old(Shown()), ClickBack)
      ensures app.Ui() == old(app.Ui()).(viewMode := Step(old(Shown()), ClickBack).mode)
      ensures app.viewMode == Public
    {
      app.Navigate(BackToSite);
    }
  }
}
