/** The application shell (App): the page router with its login gate, and the page,
    login, theme and language state. The navigation bar and footer drive the page,
    theme and language; only the sign-in form changes the login flag. handleLogout is
    handed to the navigation bar, which declares no such prop and never calls it, and
    the dashboard's Logout button has no handler, so once signed in the shell has no
    way back to signed out. */
module Shell {

  /** The component the main area shows. */
  datatype Screen = Hero | ReportForm | Dashboard | Login | About | Contact | Privacy | Terms | Sitemap | TrackIssue | Credits

  /** The page ids the router names, and the component each shows once signed in. */
  const PageIds: seq<string> := ["home", "report", "dashboard", "login", "about", "contact", "privacy", "terms", "sitemap", "track", "credits"]
  const PageScreens: seq<Screen> := [Hero, ReportForm, Dashboard, Login, About, Contact, Privacy, Terms, Sitemap, TrackIssue, Credits]

  /** renderPage: the switch over currentPage; "dashboard" is gated on the login flag
      and every id the switch does not name falls back to Hero. */
  function RenderPage(currentPage: string, isLoggedIn: bool): (s: Screen)
    ensures currentPage !in PageIds ==> s == Hero
    ensures s == Dashboard <==> currentPage == "dashboard" && isLoggedIn
    ensures s == Login <==> currentPage == "login" || (currentPage == "dashboard" && !isLoggedIn)
    ensures s == Hero <==> currentPage == "home" || currentPage !in PageIds
  {
    if currentPage == "home" then Hero
    else if currentPage == "report" then ReportForm
    else if currentPage == "dashboard" then (if isLoggedIn then Dashboard else Login)
    else if currentPage == "login" then Login
    else if currentPage == "about" then About
    else if currentPage == "contact" then Contact
    else if currentPage == "privacy" then Privacy
    else if currentPage == "terms" then Terms
    else if currentPage == "sitemap" then Sitemap
    else if currentPage == "track" then TrackIssue
    else if currentPage == "credits" then Credits
    else Hero
  }

  /** Signed in, each of the eleven named ids shows its own component, and no two ids
      share one; signed out, only "dashboard" changes, to the login form. */
  lemma RenderNamedPages(isLoggedIn: bool)
    ensures |PageIds| == |PageScreens| == 11
    ensures forall i :: 0 <= i < |PageIds| ==>
      RenderPage(PageIds[i], isLoggedIn) == if PageIds[i] == "dashboard" && !isLoggedIn then Login else PageScreens[i]
    ensures forall i, j :: 0 <= i < j < |PageScreens| ==> PageScreens[i] != PageScreens[j]
  {
  }

  /** The report menu of the navigation bar emits "report-letter" and
      "report-voice", which the router does not name: both show Hero. */
  lemma NavbarReportItemsShowHero(isLoggedIn: bool)
    ensures RenderPage("report-letter", isLoggedIn) == Hero
    ensures RenderPage("report-voice", isLoggedIn) == Hero
  {
    assert "report-letter" !in PageIds && "report-voice" !in PageIds;
  }

  class App {
    var darkMode: bool
    var language: string
    var currentPage: string
    var isLoggedIn: bool

    constructor ()
      ensures !darkMode && language == "en" && currentPage == "home" && !isLoggedIn
      ensures Render() == Hero
    {
      darkMode := false;
      language := "en";
      currentPage := "home";
      isLoggedIn := false;
    }

    /** What the main area shows now. */
    function Render(): (s: Screen)
      reads this
      ensures s == Dashboard <==> currentPage == "dashboard" && isLoggedIn
      ensures s == Login <==> currentPage == "login" || (currentPage == "dashboard" && !isLoggedIn)
    {
      RenderPage(currentPage, isLoggedIn)
    }

    /** toggleDarkMode. */
    method ToggleDarkMode()
      modifies this
      ensures darkMode == !old(darkMode)
      ensures language == old(language) && currentPage == old(currentPage) && isLoggedIn == old(isLoggedIn)
    {
      darkMode := !darkMode;
    }

    /** handleLogin: signed in and sent to the dashboard, which then renders. */
    method HandleLogin()
      modifies this
      ensures isLoggedIn && currentPage == "dashboard"
      ensures darkMode == old(darkMode) && language == old(language)
      ensures Render() == Dashboard
    {
      isLoggedIn := true;
      currentPage := "dashboard";
    }

    /** handleLogout: signed out and sent home. */
    method HandleLogout()
      modifies this
      ensures !isLoggedIn && currentPage == "home"
      ensures darkMode == old(darkMode) && language == old(language)
      ensures Render() == Hero
    {
      isLoggedIn := false;
      currentPage := "home";
    }

    /** setCurrentPage, as called by the navigation bar, Hero, Sitemap and the footer links. */
    method Navigate(page: string)
      modifies this
      ensures currentPage == page
      ensures darkMode == old(darkMode) && language == old(language) && isLoggedIn == old(isLoggedIn)
    {
      currentPage := page;
    }

    /** setLanguage, as called by the navigation bar's language switch. */
    method SetLanguage(lang: string)
      modifies this
      ensures language == lang
      ensures darkMode == old(darkMode) && currentPage == old(currentPage) && isLoggedIn == old(isLoggedIn)
    {
      language := lang;
    }
  }

  /** Toggling the theme twice leaves every field of the shell as it was. */
  method ToggleTwice(app: App)
    modifies app
    ensures app.darkMode == old(app.darkMode) && app.language == old(app.language)
    ensures app.currentPage == old(app.currentPage) && app.isLoggedIn == old(app.isLoggedIn)
  {
    app.ToggleDarkMode();
    app.ToggleDarkMode();
  }

  /** Signed out, following the footer's "Admin Portal" link shows the login form. */
  method AdminPortalSignedOut(app: App)
    requires !app.isLoggedIn
    modifies app
    ensures app.Render() == Login
  {
    app.Navigate("dashboard");
  }
}
