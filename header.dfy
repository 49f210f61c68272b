/**
 * src/components/Header.jsx: which navigation item is highlighted for the
 * current path, and the two flags the header keeps (scrolled, mobile menu
 * open). `window.scrollY` is a parameter; the theme toggle and the markup are
 * left out.
 */
module Header {
  import opened Js

  /** One navigation entry: its label and the path it links to. */
  datatype NavItem = NavItem(name: string, path: string)

  /** The entries of src/components/Header.jsx:33-37, in order. */
  const NavItems: seq<NavItem> :=
    [NavItem("Home", "/"), NavItem("Browse", "/browse"), NavItem("Batch Download", "/batch-download")]

  /**
   * `isActive(path)` (src/components/Header.jsx:39-43): the root item only on
   * the root path itself, every other item on any path that starts with its
   * own, as a plain prefix and not a whole segment.
   */
  function IsActive(path: string, pathname: string): (r: bool)
    ensures path == "/" ==> (r <==> pathname == "/")
    ensures path != "/" ==> (r <==> |path| <= |pathname| && pathname[..|path|] == path)
  {
    if path == "/" && pathname == "/" then true
    else if path != "/" && StartsWith(pathname, path) then true
    else false
  }

  /** For any path at most one of the three entries is highlighted. */
  lemma AtMostOneActive(pathname: string)
    ensures forall i, j :: 0 <= i < j < |NavItems| && IsActive(NavItems[i].path, pathname) ==>
                            !IsActive(NavItems[j].path, pathname)
  {
    forall i, j | 0 <= i < j < |NavItems| && IsActive(NavItems[i].path, pathname)
      ensures !IsActive(NavItems[j].path, pathname)
    {
      if i == 0 {
        assert pathname == "/";
        assert |NavItems[j].path| > 1;
      } else {
        assert i == 1 && j == 2;
        assert pathname[2] == NavItems[1].path[2] == 'r';
        assert NavItems[2].path[2] == 'a';
      }
    }
  }

  /** The match is a prefix match: a path such as "/browser" highlights "Browse". */
  lemma PrefixNotSegment(rest: string)
    ensures IsActive("/browse", "/browse" + rest)
    ensures !IsActive("/", "/browse" + rest)
  {
    assert ("/browse" + rest)[..7] == "/browse";
    assert |"/browse" + rest| >= 7;
  }

  /** The header's own state (src/components/Header.jsx:11-12). */
  class HeaderState {
    var isScrolled: bool
    var isMobileMenuOpen: bool

    constructor ()
      ensures !isScrolled && !isMobileMenuOpen
    {
      isScrolled := false;
      isMobileMenuOpen := false;
    }

    /** `handleScroll` (src/components/Header.jsx:16-22): scrolled exactly past 10 pixels. */
    method HandleScroll(scrollY: int)
      modifies this
      ensures isScrolled <==> scrollY > 10
      ensures isMobileMenuOpen == old(isMobileMenuOpen)
    {
      if scrollY > 10 {
        isScrolled := true;
      } else {
        isScrolled := false;
      }
    }

    /** The effect on a location change (src/components/Header.jsx:29-31): the mobile menu closes. */
    method LocationChanged()
      modifies this
      ensures !isMobileMenuOpen && isScrolled == old(isScrolled)
    {
      isMobileMenuOpen := false;
    }

    /** The menu button (src/components/Header.jsx:134): the menu flips between open and closed. */
    method ToggleMobileMenu()
      modifies this
      ensures isMobileMenuOpen == !old(isMobileMenuOpen) && isScrolled == old(isScrolled)
    {
      isMobileMenuOpen := !isMobileMenuOpen;
    }
  }
}
