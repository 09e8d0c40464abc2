/** The navigation of src/components/sidebar.tsx: which of its items is
    highlighted as active for the current path. */
module Sidebar {
  import opened Builtins

  datatype NavItem = NavItem(name: string, href: string)

  const Dashboard := NavItem("Dashboard", "/")
  const Products := NavItem("Products", "/products")
  const Categories := NavItem("Categories", "/categories")

  /** The navigation items, in the order they are listed. */
  const Navigation: seq<NavItem> := [Dashboard, Products, Categories]

  /** An item is active on its own path and, unless it is the root, on every
      path its `href` is a string prefix of. */
  predicate IsActive(pathname: string, href: string) {
    pathname == href || (href != "/" && StartsWith(pathname, href))
  }

  /** The highlight of each navigation item, in order. */
  function ActiveFlags(pathname: string): (r: seq<bool>)
    ensures |r| == |Navigation|
    ensures forall i :: 0 <= i < |r| ==> (r[i] <==> IsActive(pathname, Navigation[i].href))
  {
    seq(|Navigation|, i requires 0 <= i < |Navigation| => IsActive(pathname, Navigation[i].href))
  }

  /** An item is active on its own path. */
  lemma ExactMatchActive(href: string)
    ensures IsActive(href, href)
  {
  }

  /** The root item is active only on the root path. */
  lemma RootOnlyExact(pathname: string)
    ensures IsActive(pathname, Dashboard.href) <==> pathname == "/"
  {
  }

  /** Any other item is active exactly on the paths it is a string prefix of,
      with no check for a segment boundary. */
  lemma NonRootPrefix(pathname: string, href: string)
    requires href != "/"
    ensures IsActive(pathname, href) <==> StartsWith(pathname, href)
  {
    if pathname == href {
      assert pathname[..|href|] == pathname;
    }
  }

  /** So a path that merely begins with an item's name activates it. */
  lemma ProductsPrefixActivates()
    ensures ActiveFlags("/productsX") == [false, true, false]
  {
    assert StartsWith("/productsX", "/products");
    assert !StartsWith("/productsX", "/categories");
  }

  /** A path outside the navigation activates no item. */
  lemma UnknownPathActivatesNone()
    ensures ActiveFlags("/settings") == [false, false, false]
  {
    assert "/settings"[..9][1] != "/products"[1];
    assert !StartsWith("/settings", "/categories");
  }

  /** At most one item is active on any path. */
  lemma AtMostOneActive(pathname: string, i: nat, j: nat)
    requires i < |Navigation| && j < |Navigation| && i != j
    ensures !(ActiveFlags(pathname)[i] && ActiveFlags(pathname)[j])
  {
    var f := ActiveFlags(pathname);
    if f[1] {
      PrefixChar(pathname, Products.href, 1);
    }
    if f[2] {
      PrefixChar(pathname, Categories.href, 1);
    }
  }

  /** A path an `href` is a prefix of has that `href`'s characters. */
  lemma PrefixChar(pathname: string, href: string, k: nat)
    requires IsActive(pathname, href) && href != "/" && k < |href|
    ensures |pathname| > k && pathname[k] == href[k]
  {
    if pathname != href {
      assert pathname[..|href|][k] == href[k];
    }
  }
}
