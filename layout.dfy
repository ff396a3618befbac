/** The tenant layout shell: the sidebar's width rules, the drawer toggle,
    navigation with the active-item rule, and logout. */
module Layout {
  import opened Browser

  const SidebarWidth: int := 240
  const SidebarCollapsedWidth: int := 60

  /** The left margin the page content leaves for the sidebar. */
  function ContentSidebarWidth(isMobile: bool, collapsed: bool): (w: int)
    ensures isMobile ==> w == 0
    ensures !isMobile && collapsed ==> w == SidebarCollapsedWidth
    ensures !isMobile && !collapsed ==> w == SidebarWidth
  {
    if isMobile then 0 else if collapsed then SidebarCollapsedWidth else SidebarWidth
  }

  /** The width of the sidebar content itself (also inside the mobile drawer). */
  function DrawerContentWidth(isMobile: bool, collapsed: bool): (w: int)
    ensures w == SidebarCollapsedWidth <==> collapsed && !isMobile
    ensures isMobile ==> w == SidebarWidth
  {
    if collapsed && !isMobile then SidebarCollapsedWidth else SidebarWidth
  }

  /** On desktop the content is offset by exactly the sidebar's width, so
      the two never overlap; on mobile the drawer floats above the content. */
  lemma ContentClearsSidebar(isMobile: bool, collapsed: bool)
    ensures !isMobile ==> ContentSidebarWidth(isMobile, collapsed) == DrawerContentWidth(isMobile, collapsed)
    ensures isMobile ==> ContentSidebarWidth(isMobile, collapsed) == 0 < DrawerContentWidth(isMobile, collapsed)
  {
  }

  // ---------------------------------------------------------------------
  // Navigation items
  // ---------------------------------------------------------------------

  datatype NavItem = NavItem(path: string, title: string)

  const NavItems: seq<NavItem> := [NavItem("/dashboard", "Dashboard"), NavItem("/monitoring", "Monitoring")]

  predicate DistinctPaths(items: seq<NavItem>) {
    forall i, j :: 0 <= i < j < |items| ==> items[i].path != items[j].path
  }

  predicate IsActive(pathname: string, item: NavItem) {
    pathname == item.path
  }

  /** The items highlighted for a pathname. */
  function ActiveIndices(pathname: string, items: seq<NavItem>): (r: set<int>)
    ensures forall i :: i in r <==> 0 <= i < |items| && IsActive(pathname, items[i])
  {
    set i | 0 <= i < |items| && IsActive(pathname, items[i])
  }

  /** With distinct paths at most one item is active, and one is exactly
      when the pathname is one of the paths. */
  lemma AtMostOneActive(pathname: string, items: seq<NavItem>)
    requires DistinctPaths(items)
    ensures |ActiveIndices(pathname, items)| <= 1
    ensures ActiveIndices(pathname, items) != {} <==> exists i :: 0 <= i < |items| && items[i].path == pathname
  {
    var r := ActiveIndices(pathname, items);
    if r != {} {
      var i :| i in r;
      assert r == {i} by {
        forall j | j in r ensures j == i {
        }
      }
    }
    if exists i :: 0 <= i < |items| && items[i].path == pathname {
      var i :| 0 <= i < |items| && items[i].path == pathname;
      assert i in r;
    }
  }

  lemma NavItemsDistinct()
    ensures DistinctPaths(NavItems)
  {
  }

  // ---------------------------------------------------------------------
  // Drawer state
  // ---------------------------------------------------------------------

  datatype SidebarState = SidebarState(mobileOpen: bool, collapsed: bool)

  /** `handleDrawerToggle`: mobile flips the drawer, desktop the collapse. */
  function Toggled(s: SidebarState, isMobile: bool): (t: SidebarState)
    ensures isMobile ==> t.mobileOpen == !s.mobileOpen && t.collapsed == s.collapsed
    ensures !isMobile ==> t.collapsed == !s.collapsed && t.mobileOpen == s.mobileOpen
  {
    if isMobile then s.(mobileOpen := !s.mobileOpen) else s.(collapsed := !s.collapsed)
  }

  /** `handleNavigation`: mobile closes the drawer, desktop keeps everything. */
  function Navigated(s: SidebarState, isMobile: bool): (t: SidebarState)
    ensures isMobile ==> !t.mobileOpen && t.collapsed == s.collapsed
    ensures !isMobile ==> t == s
  {
    if isMobile then s.(mobileOpen := false) else s
  }

  lemma ToggleTwiceRestores(s: SidebarState, isMobile: bool)
    ensures Toggled(Toggled(s, isMobile), isMobile) == s
  {
  }

  /** Collapsing on desktop shrinks the sidebar; toggling on mobile never
      changes the width the drawer content takes. */
  lemma ToggleEffectOnWidth(s: SidebarState, isMobile: bool)
    ensures isMobile ==> DrawerContentWidth(true, Toggled(s, true).collapsed) == SidebarWidth
    ensures !isMobile ==>
      ContentSidebarWidth(false, Toggled(s, false).collapsed) == (if s.collapsed then SidebarWidth else SidebarCollapsedWidth)
  {
  }

  // ---------------------------------------------------------------------
  // The routes of the tenant app (frontend/src/App.js), for the logout target
  // ---------------------------------------------------------------------

  datatype Screen = LoginScreen | DashboardScreen | MonitoringScreen | NoScreen

  /** What the router renders at a path: the two private routes redirect to
      "/" without a token; an unknown path matches no route at all. */
  function Rendered(path: string, storage: map<string, string>): (s: Screen)
    ensures path == "/" ==> s == LoginScreen
    ensures path !in {"/", "/dashboard", "/monitoring"} ==> s == NoScreen
    ensures path in {"/dashboard", "/monitoring"} && !("token" in storage && storage["token"] != "") ==> s == LoginScreen
    ensures path == "/dashboard" && "token" in storage && storage["token"] != "" ==> s == DashboardScreen
    ensures path == "/monitoring" && "token" in storage && storage["token"] != "" ==> s == MonitoringScreen
  {
    if path == "/" then LoginScreen
    else if path == "/dashboard" || path == "/monitoring" then
      if "token" in storage && storage["token"] != "" then
        (if path == "/dashboard" then DashboardScreen else MonitoringScreen)
      else LoginScreen
    else NoScreen
  }

  /** A private screen is shown exactly at its own path and only while a
      non-empty token is stored. */
  lemma PrivateScreensNeedToken(path: string, storage: map<string, string>)
    ensures Rendered(path, storage) == DashboardScreen <==>
      path == "/dashboard" && "token" in storage && storage["token"] != ""
    ensures Rendered(path, storage) == MonitoringScreen <==>
      path == "/monitoring" && "token" in storage && storage["token"] != ""
  {
  }

  const LogoutPathAsWritten: string := "/login"
  const LogoutPath: string := "/"

  /** As written, logout sends the user to a path the app has no route for. */
  lemma LogoutAsWrittenShowsNothing(storage: map<string, string>)
    ensures Rendered(LogoutPathAsWritten, storage - {"token", "company"}) == NoScreen
  {
  }

  /** Logging out to "/" shows the login screen, whatever remains stored. */
  lemma LogoutShowsLogin(storage: map<string, string>)
    ensures Rendered(LogoutPath, storage - {"token", "company"}) == LoginScreen
  {
  }

  // ---------------------------------------------------------------------
  // The component's state and handlers
  // ---------------------------------------------------------------------

  class MainLayout {
    var mobileOpen: bool
    var collapsed: bool

    function State(): SidebarState
      reads this
    {
      SidebarState(mobileOpen, collapsed)
    }

    constructor ()
      ensures State() == SidebarState(false, false)
    {
      mobileOpen := false;
      collapsed := false;
    }

    method HandleDrawerToggle(isMobile: bool)
      modifies this
      ensures State() == Toggled(old(State()), isMobile)
    {
      if isMobile {
        mobileOpen := !mobileOpen;
      } else {
        collapsed := !collapsed;
      }
    }

    method HandleNavigation(b: Browser, path: string, isMobile: bool)
      modifies this, b
      ensures b.history == old(b.history) + [path] && b.Path() == path
      ensures b.storage == old(b.storage) && b.requests == old(b.requests) && b.alerts == old(b.alerts)
      ensures State() == Navigated(old(State()), isMobile)
    {
      b.Navigate(path);
      if isMobile {
        mobileOpen := false;
      }
    }

    /** `handleLogout` as written: clears the session and navigates to
        "/login". */
    method HandleLogoutAsWritten(b: Browser)
      modifies b
      ensures b.storage == old(b.storage) - {"token", "company"}
      ensures b.history == old(b.history) + [LogoutPathAsWritten]
      ensures b.requests == old(b.requests) && b.alerts == old(b.alerts)
    {
      b.RemoveItem("token");
      b.RemoveItem("company");
      assert b.storage == old(b.storage) - {"token", "company"};
      b.Navigate(LogoutPathAsWritten);
    }

    /** `handleLogout` navigating to the login route "/", as the other pages'
        logout handlers do. */
    method HandleLogout(b: Browser)
      modifies b
      ensures b.storage == old(b.storage) - {"token", "company"}
      ensures b.history == old(b.history) + [LogoutPath]
      ensures Rendered(b.Path(), b.storage) == LoginScreen
      ensures b.requests == old(b.requests) && b.alerts == old(b.alerts)
    {
      b.RemoveItem("token");
      b.RemoveItem("company");
      assert b.storage == old(b.storage) - {"token", "company"};
      b.Navigate(LogoutPath);
    }
  }
}
