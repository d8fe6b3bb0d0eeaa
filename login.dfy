/** The admin sign-in form (Login): an email field the browser sanitises and
    validates, a password field, and a simulated check that accepts any non-empty
    pair that reaches it, then reports the sign-in through its onLogin callback,
    which the shell wires to its handleLogin. */
module SignIn {
  import opened Toasts
  import Shell
  import Html

  const BothRequired := "Please enter both email and password"
  const Welcome := "Welcome back! Logged in successfully."

  /** The validator of handleSubmit: no credential is checked, only presence. */
  predicate Accepts(email: string, password: string) {
    email != "" && password != ""
  }

  /** The toast handleSubmit raises for the given fields. */
  function SubmitToast(email: string, password: string): (t: Toast)
    ensures t == ErrorToast(BothRequired) <==> email == "" || password == ""
    ensures t == NoToast <==> Accepts(email, password)
  {
    if Accepts(email, password) then NoToast else ErrorToast(BothRequired)
  }

  class Login {
    var email: string
    var password: string
    /** True from an accepted submission until its timer fires. */
    var loading: bool

    constructor ()
      ensures email == "" && password == "" && !loading
    {
      email, password := "", "";
      loading := false;
    }

    /** The sign-in button is disabled while loading. */
    predicate SignInEnabled()
      reads this
    {
      !loading
    }

    /** Typing in the email field: the state receives the sanitised value. */
    method SetEmail(s: string)
      modifies this
      ensures email == Html.EmailValue(s) && password == old(password) && loading == old(loading)
    {
      email := Html.EmailValue(s);
    }

    method SetPassword(s: string)
      modifies this
      ensures password == s && email == old(email) && loading == old(loading)
    {
      password := s;
    }

    /** Submitting the form. The browser checks the email field first: a non-empty
        value that is not a valid address stops the submission with the browser's own
        message, so handleSubmit does not run and no toast is raised. Otherwise
        handleSubmit runs: a missing field raises the error toast and loading stays
        off; any two non-empty strings are accepted and loading starts. */
    method Submit() returns (t: Toast)
      requires SignInEnabled()
      modifies this
      ensures email == old(email) && password == old(password)
      ensures Html.TypeMismatch(old(email)) ==> t == NoToast && !loading
      ensures !Html.TypeMismatch(old(email)) ==> t == SubmitToast(old(email), old(password))
      ensures loading <==> Html.IsValidEmail(old(email)) && old(password) != ""
    {
      if Html.TypeMismatch(email) {
        return NoToast;
      }
      t := SubmitToast(email, password);
      if !Accepts(email, password) {
        return;
      }
      loading := true;
    }

    /** The sign-in timer fires: loading ends, onLogin (the shell's handleLogin) is
        called once, and the welcome toast is raised. The shell then shows the dashboard. */
    method Complete(app: Shell.App) returns (t: Toast)
      requires loading
      modifies this, app
      ensures !loading && email == old(email) && password == old(password)
      ensures app.isLoggedIn && app.currentPage == "dashboard"
      ensures app.darkMode == old(app.darkMode) && app.language == old(app.language)
      ensures app.Render() == Shell.Dashboard
      ensures t == SuccessToast(Welcome)
    {
      loading := false;
      app.HandleLogin();
      t := SuccessToast(Welcome);
    }
  }

  /** Typing a valid address and a non-empty password, submitting, and letting the
      timer fire signs the shell in. */
  method SignInFlow(form: Login, app: Shell.App, email: string, password: string)
    requires form.SignInEnabled()
    requires Html.IsValidEmail(Html.EmailValue(email)) && password != ""
    modifies form, app
    ensures app.isLoggedIn && app.Render() == Shell.Dashboard
    ensures !form.loading
  {
    form.SetEmail(email);
    form.SetPassword(password);
    var t := form.Submit();
    t := form.Complete(app);
  }

  /** An email without a domain never reaches handleSubmit: no toast, no loading,
      and the shell stays signed out. */
  method MalformedEmailStopped(app: Shell.App) returns (form: Login, t: Toast)
    requires !app.isLoggedIn
    ensures t == NoToast && !form.loading && form.email == "admin"
    ensures !app.isLoggedIn
  {
    form := new Login();
    form.SetEmail("admin");
    form.SetPassword("x");
    AdminStopped(form);
    t := form.Submit();
  }

  /** The sanitised "admin" is stored as typed and fails the browser's check. */
  lemma AdminStopped(form: Login)
    requires form.email == Html.EmailValue("admin")
    ensures form.email == "admin" && Html.TypeMismatch(form.email)
  {
    Html.AdminIsMismatch();
  }
}
