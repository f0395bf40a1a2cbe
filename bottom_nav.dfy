/** The mobile bottom navigation bar (src/components/shared/BottomNav.tsx):
    four fixed items and the rule that highlights the one for the current
    path. */
module BottomNav {
  import opened Common

  datatype NavItem = NavItem(href: string, caption: string)

  /** `navItems`, in display order. */
  const NavItems: seq<NavItem> := [
    NavItem("/", "Home"),
    NavItem("/explore", "Explore"),
    NavItem("/orders", "Orders"),
    NavItem("/profile", "Profile")
  ]

  /** `isActive`: Home only on "/" itself, any other item whenever the path
      starts with its href. */
  predicate IsActive(pathname: string, item: NavItem)
  {
    (pathname == "/" && item.href == "/") || (StartsWith(pathname, item.href) && item.href != "/")
  }

  /** Home is highlighted exactly on "/"; every other item exactly when the
      path starts with its href, so "/explore-x" also highlights Explore. */
  lemma ActiveItems(pathname: string)
    ensures IsActive(pathname, NavItems[0]) <==> pathname == "/"
    ensures forall i :: 1 <= i < |NavItems| ==> (IsActive(pathname, NavItems[i]) <==> StartsWith(pathname, NavItems[i].href))
    ensures IsActive("/explore-x", NavItems[1])
  {
    assert NavItems[1].href <= "/explore-x";
  }

  /** Two strings that differ at some position cannot both be prefixes of
      one path. */
  lemma NotBothPrefixes(a: string, b: string, s: string, k: nat)
    requires k < |a| && k < |b| && a[k] != b[k]
    ensures !(a <= s && b <= s)
  {
  }

  /** Whatever the path, at most one item is highlighted. */
  lemma AtMostOneActive(pathname: string, i: int, j: int)
    requires 0 <= i < j < |NavItems|
    ensures !(IsActive(pathname, NavItems[i]) && IsActive(pathname, NavItems[j]))
  {
    var a := NavItems[i].href;
    var b := NavItems[j].href;
    if i == 0 {
      assert |b| > 1;
    } else {
      assert a[1] != b[1];
      NotBothPrefixes(a, b, pathname, 1);
    }
  }
}
