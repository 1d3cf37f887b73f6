/**
 * The site header (src/components/layout/Header.jsx): two flags, "page scrolled" and
 * "mobile menu open", that decide whether the bar is drawn opaque and whether the
 * mobile menu is rendered; every way of leaving through the header closes the menu.
 * The route table the header's links point into is that of src/App.jsx.
 */
module Header {

  datatype NavLink = NavLink(path: string, caption: string)

  /** The links of both the desktop bar and the mobile menu, in order. */
  const NavLinks: seq<NavLink> := [
    NavLink("/", "Home"),
    NavLink("/features", "Features"),
    NavLink("/pricing", "Pricing"),
    NavLink("/download", "Download"),
    NavLink("/about", "About"),
    NavLink("/contact", "Contact")
  ]

  /** The paths the application's router serves. */
  const RoutePaths: seq<string> := [
    "/", "/features", "/pricing", "/download", "/about", "/contact", "/blog", "/help", "/signup", "/login"
  ]

  const SignUpPath: string := "/signup"
  const LoginPath: string := "/login"

  class HeaderBar {
    var isScrolled: bool
    var isMobileMenuOpen: bool

    constructor ()
      ensures !isScrolled && !isMobileMenuOpen
    {
      isScrolled := false;
      isMobileMenuOpen := false;
    }

    /** The window's scroll listener, given the window's vertical offset. */
    method HandleScroll(scrollY: real)
      modifies this
      ensures isScrolled <==> scrollY > 0.0
      ensures isMobileMenuOpen == old(isMobileMenuOpen)
    {
      isScrolled := scrollY > 0.0;
    }

    /** The mobile menu button. */
    method ToggleMenu()
      modifies this
      ensures isMobileMenuOpen == !old(isMobileMenuOpen)
      ensures isScrolled == old(isScrolled)
      ensures isMobileMenuOpen ==> Opaque()
    {
      isMobileMenuOpen := !isMobileMenuOpen;
    }

    /** "Get Started": goes to the sign-up page and closes the menu. */
    method HandleGetStarted() returns (target: string)
      modifies this
      ensures target == SignUpPath && target in RoutePaths
      ensures !isMobileMenuOpen && isScrolled == old(isScrolled)
    {
      target := SignUpPath;
      isMobileMenuOpen := false;
    }

    /** "Login": goes to the login page and closes the menu. */
    method HandleLogin() returns (target: string)
      modifies this
      ensures target == LoginPath && target in RoutePaths
      ensures !isMobileMenuOpen && isScrolled == old(isScrolled)
    {
      target := LoginPath;
      isMobileMenuOpen := false;
    }

    /** A link of the mobile menu: goes to the link's path and closes the menu. */
    method FollowMobileLink(link: NavLink) returns (target: string)
      requires link in NavLinks
      modifies this
      ensures target == link.path && target in RoutePaths
      ensures !isMobileMenuOpen && isScrolled == old(isScrolled)
    {
      NavLinksAreRoutes();
      target := link.path;
      isMobileMenuOpen := false;
    }

    /** The bar (and its logo, link and button colours) switch to the opaque style. */
    predicate Opaque()
      reads this
    {
      isScrolled || isMobileMenuOpen
    }

    /** The mobile menu is rendered. */
    predicate MobileMenuShown()
      reads this
    {
      isMobileMenuOpen
    }
  }

  /** Every header link leads to a page the router serves. */
  lemma NavLinksAreRoutes()
    ensures forall l :: l in NavLinks ==> l.path in RoutePaths
  {
    assert forall i :: 0 <= i < |NavLinks| ==> NavLinks[i].path == RoutePaths[i];
  }

  /** The header's links lead to different pages. */
  lemma NavPathsDistinct()
    ensures forall i, j :: 0 <= i < j < |NavLinks| ==> NavLinks[i].path != NavLinks[j].path
  {
  }

  /** The bar is opaque whenever the mobile menu is shown. */
  lemma OpaqueStyle(bar: HeaderBar)
    ensures bar.MobileMenuShown() ==> bar.Opaque()
  {
  }
}
