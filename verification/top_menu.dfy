/** The navigation bar (`Topmenu`): which menu item the current path
    belongs to, and the small state machine of the highlighted item and the
    mobile menu. */
module TopMenu {
  import opened Wrappers
  import opened Browser

  // ------------------------------------------------------------ strings

  /** `toLowerCase` on one character; only ASCII letters are mapped. */
  function LowerChar(ch: char): char
  {
    if 'A' <= ch <= 'Z' then (ch as int + 32) as char else ch
  }

  function UpperChar(ch: char): char
  {
    if 'a' <= ch <= 'z' then (ch as int - 32) as char else ch
  }

  function Lower(s: string): (r: string)
    ensures |r| == |s|
  {
    if s == [] then [] else [LowerChar(s[0])] + Lower(s[1..])
  }

  function Upper(s: string): (r: string)
    ensures |r| == |s|
  {
    if s == [] then [] else [UpperChar(s[0])] + Upper(s[1..])
  }

  /** `s.includes(t)`: `t` is a prefix of `s` or of one of its suffixes. */
  function Includes(s: string, t: string): bool
  {
    t <= s || (s != [] && Includes(s[1..], t))
  }

  /** `t` occurs in `s` starting at position `i`. */
  ghost predicate OccursAt(s: string, t: string, i: int)
  {
    0 <= i <= |s| - |t| && s[i..i + |t|] == t
  }

  /** `t` occurs in `s` somewhere: the reference meaning of Includes. */
  ghost predicate ContainsSegment(s: string, t: string)
  {
    exists i :: OccursAt(s, t, i)
  }

  lemma {:induction false} IncludesMeansContains(s: string, t: string)
    ensures Includes(s, t) <==> ContainsSegment(s, t)
  {
    if t <= s {
      assert OccursAt(s, t, 0);
    } else if s == [] {
      assert forall i :: !OccursAt(s, t, i);
    } else {
      IncludesMeansContains(s[1..], t);
      if ContainsSegment(s, t) {
        ContainsInTail(s, t);
      }
      if ContainsSegment(s[1..], t) {
        ContainsFromTail(s, t);
      }
    }
  }

  /** An occurrence that is not at position 0 is an occurrence in the tail. */
  lemma ContainsInTail(s: string, t: string)
    requires s != [] && !(t <= s) && ContainsSegment(s, t)
    ensures ContainsSegment(s[1..], t)
  {
    var i :| OccursAt(s, t, i);
    assert i != 0;
    assert s[1..][i - 1..i - 1 + |t|] == s[i..i + |t|];
    assert OccursAt(s[1..], t, i - 1);
  }

  /** An occurrence in the tail is an occurrence one position further on. */
  lemma ContainsFromTail(s: string, t: string)
    requires s != [] && ContainsSegment(s[1..], t)
    ensures ContainsSegment(s, t)
  {
    var i :| OccursAt(s[1..], t, i);
    assert s[i + 1..i + 1 + |t|] == s[1..][i..i + |t|];
    assert OccursAt(s, t, i + 1);
  }

  lemma {:induction false} LowerAt(s: string, i: nat)
    requires i < |s|
    ensures Lower(s)[i] == LowerChar(s[i])
  {
    if i > 0 {
      LowerAt(s[1..], i - 1);
    }
  }

  /** When the first character of `t` occurs in `s` only at position 0, `t`
      is in `s` only if it is a prefix of `s`. */
  lemma {:induction false} IncludesOnlyAtStart(s: string, t: string)
    requires t != [] && forall i :: 0 < i < |s| ==> s[i] != t[0]
    ensures Includes(s, t) <==> t <= s
  {
    if s != [] && !(t <= s) {
      var u := s[1..];
      while u != []
        invariant |u| < |s| && u == s[|s| - |u|..]
        invariant Includes(s, t) ==> Includes(u, t)
        decreases |u|
      {
        assert u[0] == s[|s| - |u|];
        u := u[1..];
      }
    }
  }

  lemma {:induction false} LowerIdempotent(s: string)
    ensures Lower(Lower(s)) == Lower(s)
  {
    if s != [] {
      LowerIdempotent(s[1..]);
      assert Lower(s)[1..] == Lower(s[1..]);
    }
  }

  lemma {:induction false} LowerOfUpper(s: string)
    ensures Lower(Upper(s)) == Lower(s)
  {
    if s != [] {
      LowerOfUpper(s[1..]);
      assert Upper(s)[1..] == Upper(s[1..]);
    }
  }

  // ------------------------------------------------------- classification

  /** `getActiveItem`: the lower-cased path is searched for "/about", then
      "/work", then "/productlist" or "/products"; the first hit wins. */
  function ActiveItem(pathname: string): (item: Option<string>)
    ensures item.Some? ==> item.value in ["about", "work", "products"]
    ensures Includes(Lower(pathname), "/about") ==> item == Some("about")
    ensures item == None <==> NoSegment(Lower(pathname))
  {
    var path := Lower(pathname);
    if Includes(path, "/about") then Some("about")
    else if Includes(path, "/work") then Some("work")
    else if Includes(path, "/productlist") || Includes(path, "/products") then Some("products")
    else None
  }

  /** The classification in terms of where the segments occur in the
      lower-cased path, in priority order, both ways. */
  lemma ActiveItemClassifies(pathname: string)
    ensures var path := Lower(pathname);
      && (ActiveItem(pathname) == Some("about") <==> ContainsSegment(path, "/about"))
      && (ActiveItem(pathname) == Some("work") <==>
            !ContainsSegment(path, "/about") && ContainsSegment(path, "/work"))
      && (ActiveItem(pathname) == Some("products") <==>
            && !ContainsSegment(path, "/about") && !ContainsSegment(path, "/work")
            && (ContainsSegment(path, "/productlist") || ContainsSegment(path, "/products")))
      && (ActiveItem(pathname) == None <==>
            && !ContainsSegment(path, "/about") && !ContainsSegment(path, "/work")
            && !ContainsSegment(path, "/productlist") && !ContainsSegment(path, "/products"))
  {
    var path := Lower(pathname);
    IncludesMeansContains(path, "/about");
    IncludesMeansContains(path, "/work");
    IncludesMeansContains(path, "/productlist");
    IncludesMeansContains(path, "/products");
  }

  /** Case does not matter: a path, its lower-cased and its upper-cased
      spelling fall in the same item. */
  lemma ActiveItemIgnoresCase(pathname: string)
    ensures ActiveItem(Lower(pathname)) == ActiveItem(pathname)
    ensures ActiveItem(Upper(pathname)) == ActiveItem(pathname)
  {
    LowerIdempotent(pathname);
    LowerOfUpper(pathname);
  }

  /** The menu's own targets classify to the item they highlight. These
      lemmas, like the ones below, are stated for a variable equal to the
      path, which keeps the solver from unfolding the literal. */
  lemma AboutPathClassifies(pathname: string)
    requires pathname == "/About"
    ensures ActiveItem(pathname) == Some("about")
  {
    LowerLiteral(pathname, "/about");
    assert "/about" <= "/about";
  }

  lemma WorkPathClassifies(pathname: string)
    requires pathname == "/Work"
    ensures ActiveItem(pathname) == Some("work")
  {
    var path := "/work";
    LowerLiteral(pathname, path);
    IncludesOnlyAtStart(path, "/about");
    assert "/work" <= path;
    ClassifiesToWork(pathname, path);
  }

  lemma ClassifiesToWork(pathname: string, path: string)
    requires Lower(pathname) == path
    requires !Includes(path, "/about") && Includes(path, "/work")
    ensures ActiveItem(pathname) == Some("work")
  {
  }

  lemma ProductListPathClassifies(pathname: string)
    requires pathname == "/ProductList"
    ensures ActiveItem(pathname) == Some("products")
  {
    var path := "/productlist";
    LowerLiteral(pathname, path);
    ProductListSegments(path);
    ClassifiesToProducts(pathname, path);
  }

  lemma ProductListSegments(path: string)
    requires path == "/productlist"
    ensures !Includes(path, "/about") && !Includes(path, "/work") && Includes(path, "/productlist")
  {
    assert SlashOnlyAtStart(path);
    AbsentWhenStartDiffers(path, "/about", 1);
    AbsentWhenStartDiffers(path, "/work", 1);
    assert "/productlist" <= path;
  }

  lemma ClassifiesToProducts(pathname: string, path: string)
    requires Lower(pathname) == path
    requires !Includes(path, "/about") && !Includes(path, "/work") && Includes(path, "/productlist")
    ensures ActiveItem(pathname) == Some("products")
  {
  }

  /** The logo's "/" belongs to no item. */
  lemma RootPathClassifiesToNone(pathname: string)
    requires pathname == "/"
    ensures ActiveItem(pathname) == None
  {
    LowerLiteral(pathname, "/");
    IncludesOnlyAtStart("/", "/about");
    IncludesOnlyAtStart("/", "/work");
    IncludesOnlyAtStart("/", "/productlist");
    IncludesOnlyAtStart("/", "/products");
  }

  /** The admin list's path contains neither "/productlist" nor "/products",
      so no item is highlighted there. */
  lemma AdminPathClassifiesToNone(pathname: string)
    requires pathname == "/productAdminlist"
    ensures ActiveItem(pathname) == None
  {
    var path := "/productadminlist";
    LowerLiteral(pathname, path);
    AdminSegmentsAbsent(path);
    ClassifiesToNone(pathname, path);
  }

  lemma AdminSegmentsAbsent(path: string)
    requires path == "/productadminlist"
    ensures NoSegment(path)
  {
    assert SlashOnlyAtStart(path);
    AbsentWhenStartDiffers(path, "/about", 1);
    AbsentWhenStartDiffers(path, "/work", 1);
    AbsentWhenStartDiffers(path, "/productlist", 8);
    AbsentWhenStartDiffers(path, "/products", 8);
  }

  /** Neither does the registration page. */
  lemma AddProductPathClassifiesToNone(pathname: string)
    requires pathname == "/addproduct"
    ensures ActiveItem(pathname) == None
  {
    var path := "/addproduct";
    LowerLiteral(pathname, path);
    AddProductSegmentsAbsent(path);
    ClassifiesToNone(pathname, path);
  }

  lemma AddProductSegmentsAbsent(path: string)
    requires path == "/addproduct"
    ensures NoSegment(path)
  {
    assert SlashOnlyAtStart(path);
    AbsentWhenStartDiffers(path, "/about", 2);
    AbsentWhenStartDiffers(path, "/work", 1);
    AbsentWhenStartDiffers(path, "/productlist", 1);
    AbsentWhenStartDiffers(path, "/products", 1);
  }

  /** None of the four menu segments occurs in `path`. */
  predicate NoSegment(path: string)
  {
    && !Includes(path, "/about") && !Includes(path, "/work")
    && !Includes(path, "/productlist") && !Includes(path, "/products")
  }

  lemma ClassifiesToNone(pathname: string, path: string)
    requires Lower(pathname) == path && NoSegment(path)
    ensures ActiveItem(pathname) == None
  {
  }

  /** No '/' follows the leading one: true of every page path of the site. */
  ghost predicate SlashOnlyAtStart(s: string)
  {
    forall i :: 0 < i < |s| ==> s[i] != '/'
  }

  /** A segment `t` starting with '/' is not in such a path `s` when `s` and
      `t` differ at position `k`. */
  lemma AbsentWhenStartDiffers(s: string, t: string, k: nat)
    requires t != [] && t[0] == '/' && SlashOnlyAtStart(s)
    requires k < |s| && k < |t| && s[k] != t[k]
    ensures !Includes(s, t)
  {
    IncludesOnlyAtStart(s, t);
  }

  lemma LowerLiteral(s: string, lowered: string)
    requires |s| == |lowered| && forall i :: 0 <= i < |s| ==> LowerChar(s[i]) == lowered[i]
    ensures Lower(s) == lowered
  {
    forall i | 0 <= i < |s| {
      LowerAt(s, i);
    }
  }

  // ------------------------------------------------------------- state

  class NavBar {
    var pathname: string
    var hoveredItem: Option<string>
    var isMobileMenuOpen: bool

    /** Mounting on `pathname`, including the first run of the pathname
        effect, which highlights the item of the path. */
    constructor (pathname: string)
      ensures this.pathname == pathname
      ensures hoveredItem == ActiveItem(pathname)
      ensures !isMobileMenuOpen
    {
      this.pathname := pathname;
      hoveredItem := ActiveItem(pathname);
      isMobileMenuOpen := false;
    }

    /** The pathname effect: it runs only when the path actually changes, and
        then re-highlights the new path's own item. Navigating to the path
        already shown runs nothing, so the highlight stays as it is. */
    method PathnameChanged(newPath: string)
      requires newPath != pathname
      modifies this`pathname, this`hoveredItem
      ensures pathname == newPath && hoveredItem == ActiveItem(newPath)
    {
      pathname := newPath;
      hoveredItem := ActiveItem(newPath);
    }

    /** `handleMenuClick`: navigate, close the mobile menu, highlight the
        clicked item. */
    method HandleMenuClick(path: string, item: string) returns (effects: seq<Effect>)
      modifies this`isMobileMenuOpen, this`hoveredItem
      ensures effects == [Navigate(path)]
      ensures !isMobileMenuOpen && hoveredItem == Some(item)
    {
      effects := [Navigate(path)];
      isMobileMenuOpen := false;
      hoveredItem := Some(item);
    }

    method MouseEnter(item: string)
      modifies this`hoveredItem
      ensures hoveredItem == Some(item)
    {
      hoveredItem := Some(item);
    }

    /** Leaving an item falls back to the item of the current path. */
    method MouseLeave()
      modifies this`hoveredItem
      ensures hoveredItem == ActiveItem(pathname)
    {
      hoveredItem := ActiveItem(pathname);
    }

    method ToggleMobileMenu()
      modifies this`isMobileMenuOpen
      ensures isMobileMenuOpen == !old(isMobileMenuOpen)
    {
      isMobileMenuOpen := !isMobileMenuOpen;
    }

    /** `isScrolled || !isHomePage`: away from "/" the bar is always drawn
        as scrolled; on "/" it follows `scrolled`, the scroll listener's flag. */
    function SolidBackground(scrolled: bool): (solid: bool)
      reads this
      ensures pathname != "/" ==> solid
      ensures pathname == "/" ==> solid == scrolled
    {
      scrolled || pathname != "/"
    }
  }

  /** Clicking the logo while on "/" navigates to the path already shown: no
      path effect runs, so the logo's "home" highlight stays. Clicking a menu
      item elsewhere highlights it, and the path effect that follows the
      navigation confirms it. */
  method LogoAndMenuClickScenario()
  {
    var bar := new NavBar("/");
    var _ := bar.HandleMenuClick("/", "home");
    assert bar.hoveredItem == Some("home");
    var _ := bar.HandleMenuClick("/About", "about");
    bar.PathnameChanged("/About");
    AboutPathClassifies(bar.pathname);
    assert bar.hoveredItem == Some("about");
  }
}
