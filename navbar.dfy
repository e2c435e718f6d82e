/** The navigation bar: the current route, the highlighted link and the
    collapsible menu. */
module Navbar {
  import opened Text

  predicate DashboardActive(route: string)
  {
    route == "/dashboard"
  }

  /** The Stores link also covers the detail pages under "/stores/". */
  predicate StoresActive(route: string)
  {
    route == "/stores" || StartsWith(route, "/stores/")
  }

  predicate StocksActive(route: string)
  {
    route == "/stocks"
  }

  predicate ProductsActive(route: string)
  {
    route == "/products"
  }

  /** How many of the four links are highlighted for `route`. */
  function ActiveCount(route: string): nat
  {
    (if DashboardActive(route) then 1 else 0) + (if StoresActive(route) then 1 else 0)
    + (if StocksActive(route) then 1 else 0) + (if ProductsActive(route) then 1 else 0)
  }

  /** No route highlights two links. */
  lemma AtMostOneActive(route: string)
    ensures ActiveCount(route) <= 1
  {
    if StartsWith(route, "/stores/") {
      assert route[4] == "/stores/"[4] == 'r';
      assert "/dashboard"[4] == 'h' && "/products"[4] == 'd' && "/stocks"[4] == 'c';
    }
  }

  /** The Stores link is highlighted on its own page and on every store's
      detail page, but not on a route that merely begins with "/stores". */
  lemma StoresActiveRoutes(id: string)
    ensures StoresActive("/stores")
    ensures StoresActive("/stores/" + id)
    ensures !StoresActive("/storesX")
  {
    assert "/stores/" <= "/stores/" + id;
    assert "/storesX"[7] == 'X';
  }

  /** The initial empty route highlights nothing. */
  lemma EmptyRouteHasNoActiveLink()
    ensures ActiveCount("") == 0
  {
  }

  class NavbarComponent {
    var currentRoute: string
    var isMenuOpen: bool

    constructor ()
      ensures currentRoute == "" && !isMenuOpen
      ensures ActiveCount(currentRoute) == 0
    {
      currentRoute := "";
      isMenuOpen := false;
    }

    /** The router's `NavigationEnd` event: the url becomes the current route. */
    method OnNavigationEnd(url: string)
      modifies this`currentRoute
      ensures currentRoute == url
    {
      currentRoute := url;
    }

    /** `toggleMenu`. */
    method ToggleMenu()
      modifies this`isMenuOpen
      ensures isMenuOpen == !old(isMenuOpen)
    {
      isMenuOpen := !isMenuOpen;
    }

    /** `closeMenu`, which is also what a click on any of the four links does. */
    method CloseMenu()
      modifies this`isMenuOpen
      ensures !isMenuOpen
    {
      isMenuOpen := false;
    }
  }

  /** Two toggles give back the menu state they started from. */
  method ToggleTwice(navbar: NavbarComponent)
    modifies navbar
    ensures navbar.isMenuOpen == old(navbar.isMenuOpen)
    ensures navbar.currentRoute == old(navbar.currentRoute)
  {
    navbar.ToggleMenu();
    navbar.ToggleMenu();
  }

  /** Closing an already closed menu leaves it closed. */
  method CloseTwice(navbar: NavbarComponent)
    modifies navbar
    ensures !navbar.isMenuOpen
    ensures navbar.currentRoute == old(navbar.currentRoute)
  {
    navbar.CloseMenu();
    navbar.CloseMenu();
  }
}
