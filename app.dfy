/** The top-level application state: which screen is shown, the admin login
    gate, the project list with its start-up load and its write-back to
    browser storage. */
module App {
  import opened Types
  import opened Constants

  /** The fixed admin password, visible to anyone reading the client code:
      a cosmetic gate, not access control. */
  const AdminSecret: string := "yazid"

  /** What reading the storage key at start-up yields. `Unavailable` covers
      both "no window" and a read that throws. */
  datatype StorageRead = Unavailable | Missing | Stored(text: string)

  /** The three-way outcome of `renderContent`. */
  datatype Screen = LoginForm | HomePage | PortfolioPage | AdminDashboard

  /** The `projects` initializer. A stored, non-empty text that parses gives
      the parsed list (which may be empty); a missing or empty value, an
      unavailable storage or a parse failure gives the seed list. `parse`
      stands for `JSON.parse`, returning `None` where it throws. */
  function LoadProjects(read: StorageRead, parse: string -> Option<seq<Project>>): (r: seq<Project>)
    ensures r == InitialProjects || (read.Stored? && parse(read.text) == Some(r))
    ensures read.Stored? && read.text != "" && parse(read.text).Some? ==> r == parse(read.text).value
    ensures !read.Stored? || read.text == "" || parse(read.text).None? ==> r == InitialProjects
  {
    match read
    case Stored(text) =>
      if text != "" then
        match parse(text)
        case Some(ps) => ps
        case None => InitialProjects
      else InitialProjects
    case _ => InitialProjects
  }

  /** `renderContent`: the admin view shows the dashboard, the only place the
      list can be changed, exactly when the admin is logged in, and the login
      form otherwise; the other views show their page regardless of login. */
  function RenderContent(view: ViewState, isAuthenticated: bool): (r: Screen)
    ensures r == AdminDashboard <==> view == Admin && isAuthenticated
    ensures r == LoginForm <==> view == Admin && !isAuthenticated
    ensures r == HomePage <==> view == Home
    ensures r == PortfolioPage <==> view == Portfolio
  {
    if view == Admin && !isAuthenticated then LoginForm
    else match view
      case Home => HomePage
      case Portfolio => PortfolioPage
      case Admin => AdminDashboard
  }

  /** A value written with `serialize` and read back with `parse` gives the
      list back, the empty list included, whenever `parse` inverts
      `serialize` on it and the written text is non-empty. */
  lemma ReloadAfterPersist(ps: seq<Project>, serialize: seq<Project> -> string,
                           parse: string -> Option<seq<Project>>)
    requires serialize(ps) != "" && parse(serialize(ps)) == Some(ps)
    ensures LoadProjects(Stored(serialize(ps)), parse) == ps
  {
  }

  class Site {
    var currentView: ViewState
    var isAuthenticated: bool
    var loginPassword: string
    var loginError: bool
    var projects: seq<Project>
    /** What the storage key holds. */
    var stored: StorageRead

    /** A logged-in session always entered the secret, and an error is only
        shown while logged out. So only the secret opens the dashboard, and
        the dashboard never shows a login error. */
    predicate Valid()
      reads this
      ensures Valid() && RenderContent(currentView, isAuthenticated) == AdminDashboard ==>
        loginPassword == AdminSecret && !loginError
    {
      (isAuthenticated ==> loginPassword == AdminSecret) &&
      (loginError ==> !isAuthenticated)
    }

    /** The screen currently rendered. */
    function Shown(): Screen
      reads this
    {
      RenderContent(currentView, isAuthenticated)
    }

    /** Start-up: the home view, logged out, empty password, no error, and
        the list loaded from storage with the seed as fallback. */
    constructor (read: StorageRead, parse: string -> Option<seq<Project>>)
      ensures Valid()
      ensures currentView == Home && !isAuthenticated && loginPassword == "" && !loginError
      ensures projects == LoadProjects(read, parse) && stored == read
    {
      currentView := Home;
      isAuthenticated := false;
      loginPassword := "";
      loginError := false;
      projects := LoadProjects(read, parse);
      stored := read;
    }

    /** The write-back effect run after the list changes. `serialize` stands
        for `JSON.stringify` and `fits` says whether the storage accepted the
        write; a rejected write only warns and changes nothing held in
        memory. */
    method Persist(serialize: seq<Project> -> string, fits: bool) returns (warned: bool)
      requires Valid()
      modifies this`stored
      ensures Valid()
      ensures warned == !fits
      ensures stored == if fits then Stored(serialize(projects)) else old(stored)
    {
      if fits {
        stored := Stored(serialize(projects));
        warned := false;
      } else {
        warned := true;
      }
    }

    /** Typing into the password box of the login form. */
    method TypePassword(text: string)
      requires Valid() && Shown() == LoginForm
      modifies this`loginPassword
      ensures Valid() && loginPassword == text
    {
      loginPassword := text;
    }

    /** `handleAdminLogin`: the secret logs in and clears the error; any other
        text sets the error and leaves the login state as it was. */
    method SubmitLogin()
      requires Valid() && Shown() == LoginForm
      modifies this`isAuthenticated, this`loginError
      ensures Valid()
      ensures old(loginPassword) == AdminSecret ==> isAuthenticated && !loginError
      ensures old(loginPassword) != AdminSecret ==> loginError && isAuthenticated == old(isAuthenticated)
    {
      if loginPassword == AdminSecret {
        isAuthenticated := true;
        loginError := false;
      } else {
        loginError := true;
      }
    }

    /** The dashboard's logout callback: logged out, password cleared, back
        on the home view; the error flag and the list are untouched. */
    method Logout()
      requires Valid() && Shown() == AdminDashboard
      modifies this`isAuthenticated, this`loginPassword, this`currentView
      ensures Valid()
      ensures !isAuthenticated && loginPassword == "" && currentView == Home
    {
      isAuthenticated := false;
      loginPassword := "";
      currentView := Home;
    }

    /** The global key listener: Ctrl+Shift+y or Ctrl+Shift+Y opens the
        admin view from any view; every other key changes nothing. */
    method KeyDown(ctrlKey: bool, shiftKey: bool, key: string)
      requires Valid()
      modifies this`currentView
      ensures Valid()
      ensures currentView == if ctrlKey && shiftKey && (key == "y" || key == "Y") then Admin else old(currentView)
    {
      if ctrlKey && shiftKey && (key == "y" || key == "Y") {
        currentView := Admin;
      }
    }

    /** A click on the home page's footer: the third click of a burst
        (`detail == 3`) opens the admin view; any other count does nothing. */
    method FooterClick(detail: int)
      requires Valid() && Shown() == HomePage
      modifies this`currentView
      ensures Valid()
      ensures currentView == if detail == 3 then Admin else Home
    {
      if detail == 3 {
        currentView := Admin;
      }
    }

    /** The login form's "Back to Home" button. */
    method BackToHome()
      requires Valid() && Shown() == LoginForm
      modifies this`currentView
      ensures Valid() && currentView == Home
    {
      currentView := Home;
    }

    /** The landing page's call-to-action button opens the showcase. */
    method CtaClick()
      requires Valid() && Shown() == HomePage
      modifies this`currentView
      ensures Valid() && currentView == Portfolio
    {
      currentView := Portfolio;
    }

    /** The navigation bar's links, which offer only home and the showcase. */
    method Navigate(view: ViewState)
      requires Valid() && view != Admin
      modifies this`currentView
      ensures Valid() && currentView == view
    {
      currentView := view;
    }

    /** The `setProjects` property handed to the dashboard, the one way the
        list changes after start-up; it exists only while the dashboard is
        shown. */
    method SetProjects(ps: seq<Project>)
      requires Valid() && Shown() == AdminDashboard
      modifies this`projects
      ensures Valid() && projects == ps
    {
      projects := ps;
    }
  }
}
