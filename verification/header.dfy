/** The site header: which navigation link is highlighted for the current path, the theme
    switch and the mobile menu. */
module Header {

  datatype NavLink = NavLink(name: string, path: string)

  function NavLinks(): seq<NavLink> {
    [ NavLink("Home", "/"), NavLink("Study", "/study"), NavLink("Statistics", "/statistics"),
      NavLink("Community", "/community"), NavLink("About", "/about") ]
  }

  /** A link is highlighted when it is the home link on the home page, or when its path is a
      prefix of the current path (a plain character prefix, not a path-segment match). */
  function IsActive(pathname: string, path: string): (active: bool)
    ensures path == "/" ==> (active <==> pathname == "/")
    ensures path != "/" ==> (active <==> path <= pathname)
  {
    if path == "/" && pathname == "/" then true
    else if path != "/" && path <= pathname then true
    else false
  }

  /** Every navigation link is highlighted on its own page. */
  lemma LinkActiveOnOwnPath()
    ensures forall l :: l in NavLinks() ==> IsActive(l.path, l.path)
  {
  }

  /** On the home page only the Home link is highlighted. */
  lemma OnlyHomeActiveAtRoot()
    ensures forall l :: l in NavLinks() ==> (IsActive("/", l.path) <==> l.name == "Home")
  {
    var links := NavLinks();
    forall l | l in links ensures IsActive("/", l.path) <==> l.name == "Home" {
      if l.path != "/" {
        assert |l.path| > 1;
      }
    }
  }

  /** The match is not segment-aware: the Study link is highlighted on "/studyx", and on any
      path below "/study". */
  lemma PrefixNotSegmentAware(rest: string)
    ensures IsActive("/studyx", "/study")
    ensures IsActive("/study" + rest, "/study")
  {
    assert "/study" <= "/studyx";
  }

  /** The theme button: dark becomes light, anything else becomes dark. */
  function NextTheme(theme: string): (next: string)
    ensures theme == "dark" ==> next == "light"
    ensures theme != "dark" ==> next == "dark"
    ensures next != theme
  {
    if theme == "dark" then "light" else "dark"
  }

  class MobileMenu {
    var isMobileMenuOpen: bool

    constructor ()
      ensures !isMobileMenuOpen
    {
      isMobileMenuOpen := false;
    }

    /** The menu button opens a closed menu and closes an open one. */
    method Toggle()
      modifies this
      ensures isMobileMenuOpen == !old(isMobileMenuOpen)
    {
      isMobileMenuOpen := !isMobileMenuOpen;
    }

    /** Following a link in the mobile menu (or its "Get Started" button) closes the menu. */
    method FollowLink()
      modifies this
      ensures !isMobileMenuOpen
    {
      isMobileMenuOpen := false;
    }
  }
}
