/** The dashboard sidebar: which of its two items is highlighted for the
    current `pathname`, how a highlighted item is styled, and when a click
    toggles the drawer. */
module Sidebar {
  import opened Strings

  const DashboardPath := "/dashboard"
  const EcommercePath := "/dashboard/ecommerce"

  /** The Dashboard item: exactly "/dashboard", with or without the slash. */
  predicate DashboardSelected(pathname: string) {
    pathname == "/dashboard" || pathname == "/dashboard/"
  }

  /** The E-commerce item: every path under "/dashboard/ecommerce". */
  predicate EcommerceSelected(pathname: string) {
    StartsWith(pathname, EcommercePath)
  }

  /** No path highlights both items; pages below the e-commerce path keep
      their item highlighted, and a link's own target highlights that item. */
  lemma SelectionsExclusive(pathname: string, suffix: string)
    ensures !(DashboardSelected(pathname) && EcommerceSelected(pathname))
    ensures EcommerceSelected(EcommercePath + suffix)
    ensures DashboardSelected(DashboardPath) && !EcommerceSelected(DashboardPath)
    ensures !DashboardSelected(EcommercePath)
  {
    assert (EcommercePath + suffix)[..|EcommercePath|] == EcommercePath;
    if DashboardSelected(pathname) {
      assert |pathname| < |EcommercePath|;
    }
  }

  datatype FontWeight = Bold | Normal

  /** The icon colour and the text weight of an item. */
  datatype ItemStyle = ItemStyle(iconColor: string, fontWeight: FontWeight)

  function StyleFor(selected: bool): (s: ItemStyle)
    ensures s.iconColor == "#fff" <==> selected
    ensures s.fontWeight == Bold <==> selected
    ensures !selected ==> s.iconColor == "#ccc"
  {
    if selected then ItemStyle("#fff", Bold) else ItemStyle("#ccc", Normal)
  }

  function DashboardStyle(pathname: string): (s: ItemStyle)
    ensures s.iconColor == "#fff" <==> DashboardSelected(pathname)
    ensures s.fontWeight == Bold <==> DashboardSelected(pathname)
  {
    StyleFor(DashboardSelected(pathname))
  }

  function EcommerceStyle(pathname: string): (s: ItemStyle)
    ensures s.iconColor == "#fff" <==> EcommerceSelected(pathname)
    ensures s.fontWeight == Bold <==> EcommerceSelected(pathname)
  {
    StyleFor(EcommerceSelected(pathname))
  }

  /** At most one item is drawn white and bold. */
  lemma AtMostOneHighlighted(pathname: string)
    ensures !(DashboardStyle(pathname).fontWeight == Bold && EcommerceStyle(pathname).fontWeight == Bold)
  {
    SelectionsExclusive(pathname, "");
  }

  /** `onClick={isMobile ? handleDrawerToggle : undefined}`: the drawer's new
      open state after a click on either item. */
  function DrawerAfterClick(isMobile: bool, open: bool): (r: bool)
    ensures isMobile ==> r == !open
    ensures !isMobile ==> r == open
  {
    if isMobile then !open else open
  }
}
