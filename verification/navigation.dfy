/** The sidebar navigation: its five items and the test that highlights
    the item for the current path. */
module Navigation {

  /** A sidebar link; `title` is the text shown (`label` is a Dafny keyword). */
  datatype NavItem = NavItem(href: string, title: string)

  const NavItems: seq<NavItem> := [
    NavItem("/", "Dashboard"),
    NavItem("/livestock", "Livestock"),
    NavItem("/pens", "Pens"),
    NavItem("/ai-insights", "AI Insights"),
    NavItem("/settings", "Settings")
  ]

  /** An item is active on its own path and, unless it is the root, on
      every path that starts with its href (no separator is checked). */
  predicate IsActive(pathname: string, href: string) {
    pathname == href || (href != "/" && href <= pathname)
  }

  /** Five items with distinct hrefs, in this order. */
  lemma NavItemsListed()
    ensures |NavItems| == 5
    ensures NavItems[0].href == "/" && NavItems[1].href == "/livestock" && NavItems[2].href == "/pens"
    ensures NavItems[3].href == "/ai-insights" && NavItems[4].href == "/settings"
    ensures forall i, j :: 0 <= i < j < |NavItems| ==> NavItems[i].href != NavItems[j].href
  {
  }

  /** The root item is active on "/" and nowhere else. */
  lemma RootActiveOnlyAtRoot(pathname: string)
    ensures IsActive(pathname, "/") <==> pathname == "/"
  {
  }

  /** Any other item is active exactly on the paths that start with its href. */
  lemma NonRootActiveOnPrefix(pathname: string, href: string)
    requires href != "/"
    ensures IsActive(pathname, href) <==> |href| <= |pathname| && pathname[..|href|] == href
  {
  }

  /** Sub-routes activate their parent, and so does any longer path with
      the same beginning. */
  lemma PrefixExamples()
    ensures IsActive("/livestock/x", "/livestock")
    ensures IsActive("/pensX", "/pens")
    ensures !IsActive("/livestock", "/")
  {
    assert "/livestock" <= "/livestock/x";
    assert "/pens" <= "/pensX";
  }

  /** A path cannot start with two hrefs that differ in their second character. */
  lemma PrefixesAgree(a: string, b: string, p: string)
    requires a <= p && b <= p && |a| >= 2 && |b| >= 2
    ensures a[1] == b[1]
  {
    assert a[1] == p[1] && b[1] == p[1];
  }

  /** With these hrefs no path activates two items. */
  lemma AtMostOneActive(pathname: string)
    ensures forall i, j ::
              (0 <= i < |NavItems| && 0 <= j < |NavItems|
               && IsActive(pathname, NavItems[i].href) && IsActive(pathname, NavItems[j].href)) ==> i == j
  {
    forall i, j | 0 <= i < |NavItems| && 0 <= j < |NavItems|
                  && IsActive(pathname, NavItems[i].href) && IsActive(pathname, NavItems[j].href)
      ensures i == j
    {
      var a, b := NavItems[i].href, NavItems[j].href;
      if i != 0 && j != 0 && i != j {
        PrefixesAgree(a, b, pathname);
      }
    }
  }
}
