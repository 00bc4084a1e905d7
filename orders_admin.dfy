/**
 * The administrator's order list: the search over order identifiers and
 * customer names, the four counters above the list, and the status badge.
 */
module OrdersAdmin {
  import opened Common
  import opened Types

  /** An order as the list receives it; the customer may have been deleted. */
  datatype AdminOrder = AdminOrder(id: string, status: string, user: Option<User>)

  /** `filteredOrders`: the identifier or the customer's name contains the term, ignoring case. */
  predicate Found(o: AdminOrder, term: string)
    ensures term == "" ==> Found(o, term)
  {
    MatchesEmpty(o.id);
    Matches(o.id, term) || (o.user.Some? && Matches(o.user.value.name, term))
  }

  function FilteredOrders(orders: seq<AdminOrder>, term: string): (r: seq<AdminOrder>)
    ensures forall i :: 0 <= i < |r| ==> r[i] in orders && Found(r[i], term)
    ensures forall i :: 0 <= i < |orders| && Found(orders[i], term) ==> orders[i] in r
  {
    Filter(orders, (o: AdminOrder) => Found(o, term))
  }

  /** An empty search lists every order, deleted customers included. */
  lemma EmptySearchListsAll(orders: seq<AdminOrder>)
    ensures FilteredOrders(orders, "") == orders
  {
    FilterAll(orders, (o: AdminOrder) => Found(o, ""));
  }

  /** The search keeps the list's order. */
  lemma FilteredOrdersAppend(a: seq<AdminOrder>, b: seq<AdminOrder>, term: string)
    ensures FilteredOrders(a + b, term) == FilteredOrders(a, term) + FilteredOrders(b, term)
  {
    FilterAppend(a, b, (o: AdminOrder) => Found(o, term));
  }

  predicate IsPending(o: AdminOrder) { o.status == Pending }
  predicate IsInTransit(o: AdminOrder) { o.status == OnTheWay }
  predicate IsCompleted(o: AdminOrder) { o.status == Delivered }
  predicate IsPendingOrInTransit(o: AdminOrder) { IsPending(o) || IsInTransit(o) }
  predicate IsCounted(o: AdminOrder) { IsPendingOrInTransit(o) || IsCompleted(o) }

  /** The four counters, computed over the whole list whatever the search. */
  datatype Stats = Stats(total: nat, pending: nat, inTransit: nat, completed: nat)

  function OrderStats(orders: seq<AdminOrder>): (s: Stats)
    ensures s.total == |orders|
    ensures s.pending <= s.total && s.inTransit <= s.total && s.completed <= s.total
  {
    Stats(|orders|, Count(orders, IsPending), Count(orders, IsInTransit), Count(orders, IsCompleted))
  }

  /** The three status counters never add up to more than the orders: no order is counted twice. */
  lemma StatsBounded(orders: seq<AdminOrder>)
    ensures OrderStats(orders).pending + OrderStats(orders).inTransit + OrderStats(orders).completed <= OrderStats(orders).total
  {
    CountDisjoint(orders, IsPending, IsInTransit, IsPendingOrInTransit);
    CountDisjoint(orders, IsPendingOrInTransit, IsCompleted, IsCounted);
  }

  /** Only accepted and cancelled orders fall outside the three counters, when every status is known. */
  lemma StatsGap(orders: seq<AdminOrder>)
    requires forall i :: 0 <= i < |orders| ==> KnownStatus(orders[i].status)
    ensures OrderStats(orders).total - OrderStats(orders).pending - OrderStats(orders).inTransit - OrderStats(orders).completed
      == Count(orders, (o: AdminOrder) => o.status == Accepted || o.status == Cancelled)
  {
    var rest := (o: AdminOrder) => o.status == Accepted || o.status == Cancelled;
    var all := (o: AdminOrder) => IsCounted(o) || rest(o);
    CountDisjoint(orders, IsPending, IsInTransit, IsPendingOrInTransit);
    CountDisjoint(orders, IsPendingOrInTransit, IsCompleted, IsCounted);
    CountDisjoint(orders, IsCounted, rest, all);
    FilterAll(orders, all);
  }

  /** The badge text: every underscore becomes a space. */
  function BadgeLabel(status: string): (text: string)
    ensures |text| == |status|
    ensures '_' !in text
    ensures forall i :: 0 <= i < |status| && status[i] != '_' ==> text[i] == status[i]
  {
    ReplaceAll(status, '_', ' ')
  }

  lemma OnTheWayLabel()
    ensures BadgeLabel(OnTheWay) == "on the way"
  {
  }

  const GrayStyle := "bg-gray-100 text-gray-700"

  /** The badge colours; a status outside the five gets the gray fallback. */
  function BadgeStyle(status: string): (style: string)
    ensures !KnownStatus(status) <==> style == GrayStyle
  {
    if status == Delivered then "bg-emerald-100 text-emerald-700 border-emerald-200"
    else if status == Pending then "bg-amber-100 text-amber-700 border-amber-200"
    else if status == OnTheWay then "bg-blue-100 text-blue-700 border-blue-200"
    else if status == Accepted then "bg-indigo-100 text-indigo-700 border-indigo-200"
    else if status == Cancelled then "bg-rose-100 text-rose-700 border-rose-200"
    else GrayStyle
  }

  /** The customer cell: the name, or "Deleted User" when the order has no customer or an empty name. */
  function CustomerName(user: Option<User>): (name: string)
    ensures name != ""
    ensures user.Some? && user.value.name != "" ==> name == user.value.name
    ensures user.None? || user.value.name == "" ==> name == "Deleted User"
  {
    if user.Some? && user.value.name != "" then user.value.name else "Deleted User"
  }
}
