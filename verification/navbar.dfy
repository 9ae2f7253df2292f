/** The navigation bar of components/layout/Navbar.tsx: its view of the
    session, the logout protocol, and the choice of the right-hand button. */
module Nav {
  import opened Api
  import opened Auth

  /** The name shown when the cached identity is missing or has no name. */
  const FallbackName := "Pengguna"

  /** The three things the right-hand section can show. */
  datatype RightSection = RegisterButton | LoginButton | UserMenu

  /** What a logout does outside the component, in order. */
  datatype LogoutEvent =
    | LogoutCall(token: string)  // api.logout(token)
    | TokensRemoved              // tokenManager.removeTokens()
    | AuthChange                 // window.dispatchEvent(new Event("authChange"))

  /** `userData?.name || "Pengguna"` */
  function DisplayName(user: Option<UserData>): (name: string)
    ensures name != ""
    ensures user.Some? && user.value.name != "" ==> name == user.value.name
    ensures user.None? || user.value.name == "" ==> name == FallbackName
  {
    if user.Some? && user.value.name != "" then user.value.name else FallbackName
  }

  /** renderRightSection: the path decides first, login state second. */
  function RenderRightSection(pathname: string, loggedIn: bool): (section: RightSection)
    ensures section == RegisterButton <==> pathname == "/login"
    ensures section == UserMenu <==> pathname != "/login" && pathname != "/register" && loggedIn
    ensures section == LoginButton <==> pathname == "/register" || (pathname != "/login" && !loggedIn)
  {
    if pathname == "/login" then RegisterButton
    else if pathname == "/register" then LoginButton
    else if loggedIn then UserMenu
    else LoginButton
  }

  /** The login page and the register page offer each other whatever the
      session, and the user menu is never shown to a logged-out visitor. */
  lemma SectionOfAuthPagesIgnoresSession(loggedIn: bool, other: bool)
    ensures RenderRightSection("/login", loggedIn) == RenderRightSection("/login", other) == RegisterButton
    ensures RenderRightSection("/register", loggedIn) == RenderRightSection("/register", other) == LoginButton
    ensures forall p :: RenderRightSection(p, false) != UserMenu
  {
  }

  /** The Navbar component's state. */
  class Navbar {
    var isLoggedIn: bool
    var userName: string
    var showDropdown: bool
    var showLogoutDialog: bool
    var isLoggingOut: bool

    constructor ()
      ensures !isLoggedIn && userName == "" && !showDropdown && !showLogoutDialog && !isLoggingOut
    {
      isLoggedIn := false;
      userName := "";
      showDropdown := false;
      showLogoutDialog := false;
      isLoggingOut := false;
    }

    /** checkLoginStatus: re-read the session from the token manager. */
    method CheckLoginStatus(store: TokenManager)
      modifies this`isLoggedIn, this`userName
      ensures isLoggedIn == LoggedIn(store.items, store.windowPresent)
      ensures isLoggedIn ==> userName == DisplayName(CachedUser(store.items, store.windowPresent))
      ensures !isLoggedIn ==> userName == old(userName)
    {
      var loggedIn := store.IsLoggedIn();
      isLoggedIn := loggedIn;
      if loggedIn {
        var userData := store.GetUserData();
        userName := DisplayName(userData);
      }
    }

    /** toggleDropdown */
    method ToggleDropdown()
      modifies this`showDropdown
      ensures showDropdown == !old(showDropdown)
    {
      showDropdown := !showDropdown;
    }

    /** handleLogoutClick: close the menu and ask for confirmation. */
    method HandleLogoutClick()
      modifies this`showDropdown, this`showLogoutDialog
      ensures !showDropdown && showLogoutDialog
    {
      showDropdown := false;
      showLogoutDialog := true;
    }

    /** cancelLogout */
    method CancelLogout()
      modifies this`showLogoutDialog
      ensures !showLogoutDialog
    {
      showLogoutDialog := false;
    }

    /** confirmLogout. `reply` is what the server answers to POST /logout, if
        asked; whatever it is, the local session is torn down. The result lists
        the calls made and the signals sent, in order. */
    method ConfirmLogout(store: TokenManager, reply: ApiResult<()>) returns (log: seq<LogoutEvent>)
      requires store.Valid()
      modifies this`isLoggingOut, this`showLogoutDialog, store
      ensures store.Valid()
      // the server is asked only when a non-empty access token is stored, and with it
      ensures var t := AccessToken(old(store.items), store.windowPresent);
        log == (if Truthy(t) then [LogoutCall(t.value)] else []) + [TokensRemoved, AuthChange]
      // the storage is cleared as by removeTokens, so the session is over
      ensures store.items == Step(old(store.items), store.windowPresent, RemoveTokens)
      ensures !LoggedIn(store.items, store.windowPresent)
      ensures !showLogoutDialog && !isLoggingOut
    {
      isLoggingOut := true;
      log := [];
      var accessToken := store.GetAccessToken();
      if Truthy(accessToken) {
        // the reply, success or failure, changes nothing below
        log := log + [LogoutCall(accessToken.value)];
      }
      store.RemoveTokens();
      log := log + [TokensRemoved];
      showLogoutDialog := false;
      isLoggingOut := false;
      log := log + [AuthChange];
    }
  }
}
