/** The single-page front end's top level: which page is shown, who is
    signed in (a visitor and, separately, an administrator), the theme, and
    the handlers that move between pages. */
module App {
  import opened Wrappers
  import opened Strings

  /** The signed-in visitor as the sign-in dialog reports it. */
  datatype UserData = UserData(name: string, email: string)

  /** The component `renderPage` shows. */
  datatype Screen =
    | HomePage | PassBooking | EventSchedule | EventsListing | Speakers | Venue | Sponsors | Team
    | UserDashboard | AdminLogin | AdminPanel | AuthModal | PrivacyPolicy | TermsOfService | CookiePolicy

  /** The page names `renderPage` has a case for. */
  const KnownPages: set<string> := {
    "home", "booking", "schedule", "events", "speakers", "venue", "sponsors", "team", "dashboard",
    "admin", "admin-dashboard", "auth", "privacy-policy", "terms-of-service", "cookie-policy"
  }

  /** `renderPage`: the component for a page; the administrator panel only
      for a signed-in administrator, the home page for any unknown name. */
  function RenderPage(page: string, isAdminAuthenticated: bool): (r: Screen)
    ensures page == "admin-dashboard" ==> r == (if isAdminAuthenticated then AdminPanel else AdminLogin)
    ensures page !in KnownPages ==> r == HomePage
    ensures r == AdminPanel ==> page == "admin-dashboard" && isAdminAuthenticated
    ensures r == AdminLogin ==> page == "admin" || (page == "admin-dashboard" && !isAdminAuthenticated)
  {
    match page
    case "home" => HomePage
    case "booking" => PassBooking
    case "schedule" => EventSchedule
    case "events" => EventsListing
    case "speakers" => Speakers
    case "venue" => Venue
    case "sponsors" => Sponsors
    case "team" => Team
    case "dashboard" => UserDashboard
    case "admin" => AdminLogin
    case "admin-dashboard" => if isAdminAuthenticated then AdminPanel else AdminLogin
    case "auth" => AuthModal
    case "privacy-policy" => PrivacyPolicy
    case "terms-of-service" => TermsOfService
    case "cookie-policy" => CookiePolicy
    case _ => HomePage
  }

  /** `showNavAndFooter` */
  predicate ShowNavAndFooter(page: string) {
    page != "admin" && page != "admin-dashboard"
  }

  /** The navigation bar and footer are hidden exactly on the pages that
      show an administrator screen. */
  lemma ChromeHiddenExactlyForAdmin(page: string, isAdminAuthenticated: bool)
    ensures !ShowNavAndFooter(page) <==> RenderPage(page, isAdminAuthenticated) in {AdminLogin, AdminPanel}
  {
  }

  /** The page and sign-in state of the application. */
  class AppState {
    var currentPage: string
    var isDark: bool
    var isAdminAuthenticated: bool
    var adminRole: string
    var adminEmail: string
    var isUserAuthenticated: bool
    var userData: Option<UserData>
    var redirectAfterAuth: Option<string>
    /** The "user" and "theme" entries of local storage. */
    var storedUser: Option<UserData>
    var storedTheme: Option<string>

    /** A signed-in visitor has data and it is the one saved in local
        storage; a signed-out administrator has no role and no address. */
    predicate Valid()
      reads this
    {
      && (isUserAuthenticated <==> userData.Some?)
      && (userData.Some? ==> storedUser == userData)
      && (!isAdminAuthenticated ==> adminRole == "" && adminEmail == "")
    }

    /** The component currently shown. */
    function Rendered(): Screen
      reads this
    {
      RenderPage(currentPage, isAdminAuthenticated)
    }

    /** The initial state, before the mount effect, over the given local
        storage. */
    constructor (savedUser: Option<UserData>, savedTheme: Option<string>)
      ensures Valid()
      ensures currentPage == "home" && !isDark && !isAdminAuthenticated && !isUserAuthenticated
      ensures userData == None && redirectAfterAuth == None
      ensures storedUser == savedUser && storedTheme == savedTheme
    {
      currentPage := "home";
      isDark := false;
      isAdminAuthenticated := false;
      adminRole := "";
      adminEmail := "";
      isUserAuthenticated := false;
      userData := None;
      redirectAfterAuth := None;
      storedUser := savedUser;
      storedTheme := savedTheme;
    }

    /** The mount effect: a saved "dark" theme, or no saved theme and a
        system preference for dark, turns dark mode on; a saved visitor is
        signed back in. */
    method Mount(systemPrefersDark: bool)
      requires Valid()
      modifies this
      ensures Valid()
      ensures isDark == (old(isDark) || storedTheme == Some("dark") || (!Truthy(storedTheme) && systemPrefersDark))
      ensures storedUser.Some? ==> isUserAuthenticated && userData == storedUser
      ensures storedUser.None? ==> isUserAuthenticated == old(isUserAuthenticated) && userData == old(userData)
      ensures currentPage == old(currentPage) && redirectAfterAuth == old(redirectAfterAuth)
      ensures isAdminAuthenticated == old(isAdminAuthenticated) && adminRole == old(adminRole) && adminEmail == old(adminEmail)
      ensures storedUser == old(storedUser) && storedTheme == old(storedTheme)
    {
      if storedTheme == Some("dark") || (!Truthy(storedTheme) && systemPrefersDark) {
        isDark := true;
      }
      if storedUser.Some? {
        isUserAuthenticated := true;
        userData := storedUser;
      }
    }

    /** `toggleDark`: flips the theme and saves the new one. */
    method ToggleDark()
      requires Valid()
      modifies this
      ensures Valid()
      ensures isDark == !old(isDark)
      ensures storedTheme == Some(if isDark then "dark" else "light")
      ensures currentPage == old(currentPage) && userData == old(userData) && isUserAuthenticated == old(isUserAuthenticated)
      ensures isAdminAuthenticated == old(isAdminAuthenticated) && adminRole == old(adminRole) && adminEmail == old(adminEmail)
      ensures redirectAfterAuth == old(redirectAfterAuth) && storedUser == old(storedUser)
    {
      if !isDark {
        storedTheme := Some("dark");
      } else {
        storedTheme := Some("light");
      }
      isDark := !isDark;
    }

    /** `handleNavigate` */
    method Navigate(page: string)
      requires Valid()
      modifies this
      ensures Valid()
      ensures currentPage == page
      ensures isDark == old(isDark) && userData == old(userData) && isUserAuthenticated == old(isUserAuthenticated)
      ensures isAdminAuthenticated == old(isAdminAuthenticated) && adminRole == old(adminRole) && adminEmail == old(adminEmail)
      ensures redirectAfterAuth == old(redirectAfterAuth) && storedUser == old(storedUser) && storedTheme == old(storedTheme)
    {
      currentPage := page;
    }

    /** `handleAdminLogin`: signs the administrator in and opens the panel. */
    method AdminSignIn(role: string, email: string)
      requires Valid()
      modifies this
      ensures Valid()
      ensures isAdminAuthenticated && adminRole == role && adminEmail == email
      ensures currentPage == "admin-dashboard" && Rendered() == AdminPanel && !ShowNavAndFooter(currentPage)
      ensures isDark == old(isDark) && userData == old(userData) && isUserAuthenticated == old(isUserAuthenticated)
      ensures redirectAfterAuth == old(redirectAfterAuth) && storedUser == old(storedUser) && storedTheme == old(storedTheme)
    {
      isAdminAuthenticated := true;
      adminRole := role;
      adminEmail := email;
      currentPage := "admin-dashboard";
    }

    /** `handleAdminLogout`: forgets the administrator and goes home. */
    method AdminSignOut()
      requires Valid()
      modifies this
      ensures Valid()
      ensures !isAdminAuthenticated && adminRole == "" && adminEmail == ""
      ensures currentPage == "home" && Rendered() == HomePage
      ensures isDark == old(isDark) && userData == old(userData) && isUserAuthenticated == old(isUserAuthenticated)
      ensures redirectAfterAuth == old(redirectAfterAuth) && storedUser == old(storedUser) && storedTheme == old(storedTheme)
    {
      isAdminAuthenticated := false;
      adminRole := "";
      adminEmail := "";
      currentPage := "home";
    }

    /** `handleAdminCancel` */
    method AdminCancel()
      requires Valid()
      modifies this
      ensures Valid()
      ensures currentPage == "home"
      ensures isDark == old(isDark) && userData == old(userData) && isUserAuthenticated == old(isUserAuthenticated)
      ensures isAdminAuthenticated == old(isAdminAuthenticated) && adminRole == old(adminRole) && adminEmail == old(adminEmail)
      ensures redirectAfterAuth == old(redirectAfterAuth) && storedUser == old(storedUser) && storedTheme == old(storedTheme)
    {
      currentPage := "home";
    }

    /** `handleUserLogin`: signs the visitor in and saves them; returns to
        the booking page when sign-in was asked for from there (and forgets
        that request), otherwise opens the dashboard. */
    method UserSignIn(user: UserData)
      requires Valid()
      modifies this
      ensures Valid()
      ensures isUserAuthenticated && userData == Some(user) && storedUser == Some(user)
      ensures old(redirectAfterAuth) == Some("booking") ==>
                currentPage == "booking" && redirectAfterAuth == None && Rendered() == PassBooking
      ensures old(redirectAfterAuth) != Some("booking") ==>
                currentPage == "dashboard" && redirectAfterAuth == old(redirectAfterAuth) && Rendered() == UserDashboard
      ensures isDark == old(isDark) && storedTheme == old(storedTheme)
      ensures isAdminAuthenticated == old(isAdminAuthenticated) && adminRole == old(adminRole) && adminEmail == old(adminEmail)
    {
      isUserAuthenticated := true;
      userData := Some(user);
      storedUser := Some(user);
      if redirectAfterAuth == Some("booking") {
        currentPage := "booking";
        redirectAfterAuth := None;
      } else {
        currentPage := "dashboard";
      }
    }

    /** `handleUserLogout`: signs the visitor out, removes the saved copy
        and goes home. */
    method UserSignOut()
      requires Valid()
      modifies this
      ensures Valid()
      ensures !isUserAuthenticated && userData == None && storedUser == None
      ensures currentPage == "home" && Rendered() == HomePage
      ensures isDark == old(isDark) && storedTheme == old(storedTheme) && redirectAfterAuth == old(redirectAfterAuth)
      ensures isAdminAuthenticated == old(isAdminAuthenticated) && adminRole == old(adminRole) && adminEmail == old(adminEmail)
    {
      isUserAuthenticated := false;
      userData := None;
      storedUser := None;
      currentPage := "home";
    }

    /** The booking page's `onRequestAuth`: remember to come back to the
        booking page, and open the sign-in dialog. */
    method RequestAuth()
      requires Valid()
      modifies this
      ensures Valid()
      ensures redirectAfterAuth == Some("booking") && currentPage == "auth" && Rendered() == AuthModal
      ensures isDark == old(isDark) && userData == old(userData) && isUserAuthenticated == old(isUserAuthenticated)
      ensures isAdminAuthenticated == old(isAdminAuthenticated) && adminRole == old(adminRole) && adminEmail == old(adminEmail)
      ensures storedUser == old(storedUser) && storedTheme == old(storedTheme)
    {
      redirectAfterAuth := Some("booking");
      currentPage := "auth";
    }
  }
}
