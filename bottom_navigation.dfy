/**
 * The tab bar, src/components/layout/BottomNavigation.tsx: which five tabs
 * a user sees, which one is highlighted, and the item-count badge on the
 * cart tab.
 */
module BottomNavigation {
  import opened Common
  import opened Text

  /** A tab: its caption and the path it links to. */
  datatype NavItem = NavItem(caption: string, path: string)

  /** `customerNavItems`. */
  const CustomerItems: seq<NavItem> := [
    NavItem("Home", "/"), NavItem("Search", "/search"), NavItem("Cart", "/cart"),
    NavItem("Orders", "/orders"), NavItem("Profile", "/profile")
  ]

  /** `vendorNavItems`. */
  const VendorItems: seq<NavItem> := [
    NavItem("Dashboard", "/vendor"), NavItem("Products", "/vendor/products"), NavItem("Add", "/vendor/products/new"),
    NavItem("Sales", "/vendor/sales"), NavItem("Profile", "/profile")
  ]

  /** `user?.role === 'vendor' ? vendorNavItems : customerNavItems`; no user counts as a customer. */
  function NavItems(role: Option<string>): seq<NavItem>
  {
    if role == Some("vendor") then VendorItems else CustomerItems
  }

  /** `isActive`: the tab's path is the current path. */
  predicate IsActive(item: NavItem, pathname: string)
  {
    pathname == item.path
  }

  /** The badge of a tab: only on the cart tab with items; "9+" above nine, else the count. */
  function Badge(item: NavItem, itemCount: int): Option<string>
  {
    if item.path == "/cart" && itemCount > 0 then Some(if itemCount > 9 then "9+" else IntToString(itemCount))
    else None
  }

  /** The paths of a tab list are pairwise different. */
  predicate DistinctPaths(items: seq<NavItem>)
  {
    forall i, j :: 0 <= i < j < |items| ==> items[i].path != items[j].path
  }

  /**
   * Every user sees five tabs with different paths (they are the list's
   * keys), ending with the profile; so at most one tab is highlighted.
   */
  lemma TabsSpec(role: Option<string>, pathname: string)
    ensures |NavItems(role)| == 5 && DistinctPaths(NavItems(role))
    ensures NavItems(role)[4] == NavItem("Profile", "/profile")
    ensures forall i, j :: 0 <= i < j < 5 && IsActive(NavItems(role)[i], pathname) ==> !IsActive(NavItems(role)[j], pathname)
  {
    assert DistinctPaths(CustomerItems) by {
      assert CustomerItems[0].path == "/" && CustomerItems[1].path == "/search" && CustomerItems[2].path == "/cart";
      assert CustomerItems[3].path == "/orders" && CustomerItems[4].path == "/profile";
    }
    assert DistinctPaths(VendorItems) by {
      assert VendorItems[0].path == "/vendor" && VendorItems[1].path == "/vendor/products";
      assert VendorItems[2].path == "/vendor/products/new" && VendorItems[3].path == "/vendor/sales";
      assert VendorItems[4].path == "/profile";
    }
  }

  /**
   * Only customers have a cart tab, so only they can see a badge; they see
   * one exactly when the cart holds items, on the third tab.
   */
  lemma BadgeSpec(role: Option<string>, itemCount: int)
    ensures role == Some("vendor") ==> forall i :: 0 <= i < 5 ==> Badge(NavItems(role)[i], itemCount).None?
    ensures role != Some("vendor") ==>
      && (Badge(NavItems(role)[2], itemCount).Some? <==> itemCount > 0)
      && forall i :: 0 <= i < 5 && i != 2 ==> Badge(NavItems(role)[i], itemCount).None?
  {
    assert VendorItems[0].path == "/vendor" && VendorItems[1].path == "/vendor/products";
    assert VendorItems[2].path == "/vendor/products/new" && VendorItems[3].path == "/vendor/sales";
    assert VendorItems[4].path == "/profile";
    assert CustomerItems[0].path == "/" && CustomerItems[1].path == "/search" && CustomerItems[2].path == "/cart";
    assert CustomerItems[3].path == "/orders" && CustomerItems[4].path == "/profile";
  }

  /** The badge text is one digit from 1 to 9, and "9+" above. */
  lemma BadgeText(itemCount: int)
    requires itemCount > 0
    ensures itemCount > 9 ==> Badge(NavItem("Cart", "/cart"), itemCount) == Some("9+")
    ensures itemCount <= 9 ==> Badge(NavItem("Cart", "/cart"), itemCount) == Some([DigitChar(itemCount)])
  {
  }
}
