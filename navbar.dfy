/**
 * The navigation bar's link list, chosen by the signed-in role, and the
 * highlighting of the link of the current page.
 */
module Navbar {
  import opened Common
  import opened Types

  datatype NavLink = NavLink(name: string, path: string, id: int)

  const CommonLinks: seq<NavLink> := [NavLink("Home", "/", 1)]
  const UserLinks: seq<NavLink> := [NavLink("Menu", "/menu", 2), NavLink("My Orders", "/orders", 3), NavLink("Cart", "/cart", 4)]
  const DeliveryLinks: seq<NavLink> :=
    [NavLink("Dashboard", "/delivery/dashboard", 5), NavLink("Orders", "/delivery/orders", 5), NavLink("Map", "/delivery/map", 6)]
  const AdminLinks: seq<NavLink> :=
    [ NavLink("dashboard", "/admin/dashboard", 9), NavLink("delivery", "/admin/delivery", 9),
      NavLink("Orders", "/admin/orders", 10), NavLink("Products", "/admin/products", 11) ]

  /** `getLinksByRole`. */
  function LinksByRole(isAuthenticated: bool, user: Option<User>): (r: seq<NavLink>)
    ensures r == CommonLinks <==> !isAuthenticated || user.None?
    ensures isAuthenticated && user.Some? && user.value.role == "admin" ==> r == AdminLinks
    ensures isAuthenticated && user.Some? && user.value.role == "delivery" ==> r == DeliveryLinks
    ensures isAuthenticated && user.Some? && user.value.role != "admin" && user.value.role != "delivery" ==>
      |r| == 4 && r[..1] == CommonLinks && r[1..] == UserLinks
    ensures CommonLinks[0] in r <==> !(isAuthenticated && user.Some? && user.value.role in ["admin", "delivery"])
  {
    if !isAuthenticated || user.None? then CommonLinks
    else match user.value.role
      case "admin" => AdminLinks
      case "delivery" => DeliveryLinks
      case _ => CommonLinks + UserLinks
  }

  /** `isActive`: the link of the current page is the one whose path is the location's path. */
  predicate IsActive(pathname: string, path: string) {
    pathname == path
  }

  /** No two links of a list share a path. */
  ghost predicate DistinctPaths(links: seq<NavLink>) {
    forall i, j :: 0 <= i < j < |links| ==> links[i].path != links[j].path
  }

  /** Every list the bar can show has distinct paths. */
  lemma LinkPathsDistinct(isAuthenticated: bool, user: Option<User>)
    ensures DistinctPaths(LinksByRole(isAuthenticated, user))
  {
    var r := LinksByRole(isAuthenticated, user);
    if r != CommonLinks && r != AdminLinks && r != DeliveryLinks {
      assert r == CommonLinks + UserLinks;
    }
  }

  /** Whatever the page, at most one link is highlighted. */
  lemma AtMostOneActive(isAuthenticated: bool, user: Option<User>, pathname: string, i: nat, j: nat)
    requires i < |LinksByRole(isAuthenticated, user)| && j < |LinksByRole(isAuthenticated, user)|
    requires IsActive(pathname, LinksByRole(isAuthenticated, user)[i].path)
    requires IsActive(pathname, LinksByRole(isAuthenticated, user)[j].path)
    ensures i == j
  {
    LinkPathsDistinct(isAuthenticated, user);
  }

  /** The list items are keyed by `id + index`, which is numeric addition here. */
  function LinkKey(links: seq<NavLink>, index: nat): (k: int)
    requires index < |links|
    ensures k - index == links[index].id
  {
    links[index].id + index
  }

  /** Even though the delivery and admin lists repeat ids, the keys of every list are distinct. */
  lemma LinkKeysDistinct(isAuthenticated: bool, user: Option<User>, i: nat, j: nat)
    requires i < j < |LinksByRole(isAuthenticated, user)|
    ensures LinkKey(LinksByRole(isAuthenticated, user), i) != LinkKey(LinksByRole(isAuthenticated, user), j)
  {
    var r := LinksByRole(isAuthenticated, user);
    if r != CommonLinks && r != AdminLinks && r != DeliveryLinks {
      assert r == CommonLinks + UserLinks;
    }
  }
}
