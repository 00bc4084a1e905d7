/**
 * The customer's order history page: the Active/History tabs over the
 * fetched orders, the "past order" test that hides the progress bar, and
 * the progress bar's width and four steps.
 */
module Orders {
  import opened Common
  import opened Types

  datatype Tab = ActiveTab | HistoryTab

  /** An order as the history page receives it; only the fields its logic reads. */
  datatype OrderData = OrderData(id: string, status: string, totalAmount: real)

  /** The statuses each tab lists. */
  function TabStatuses(tab: Tab): (r: seq<string>)
    ensures tab == ActiveTab ==> |r| == 3
    ensures tab == HistoryTab ==> |r| == 2
  {
    if tab == ActiveTab then [Pending, Accepted, OnTheWay] else [Delivered, Cancelled]
  }

  predicate Shown(tab: Tab, o: OrderData) {
    o.status in TabStatuses(tab)
  }

  /** `displayedOrders`: the orders of the current tab, in the order they were fetched. */
  function DisplayedOrders(orders: seq<OrderData>, tab: Tab): (r: seq<OrderData>)
    ensures forall i :: 0 <= i < |r| ==> r[i] in orders && Shown(tab, r[i])
    ensures forall i :: 0 <= i < |orders| && Shown(tab, orders[i]) ==> orders[i] in r
  {
    Filter(orders, (o: OrderData) => Shown(tab, o))
  }

  /** Every known status is listed by exactly one tab; any other status by neither. */
  lemma StatusInExactlyOneTab(o: OrderData)
    ensures KnownStatus(o.status) ==> (Shown(ActiveTab, o) <==> !Shown(HistoryTab, o))
    ensures !KnownStatus(o.status) ==> !Shown(ActiveTab, o) && !Shown(HistoryTab, o)
  {
  }

  /** The tab view keeps the fetched order: the view of a concatenation is the concatenation of the views. */
  lemma DisplayedOrdersAppend(a: seq<OrderData>, b: seq<OrderData>, tab: Tab)
    ensures DisplayedOrders(a + b, tab) == DisplayedOrders(a, tab) + DisplayedOrders(b, tab)
  {
    FilterAppend(a, b, (o: OrderData) => Shown(tab, o));
  }

  /** When every status is known, the two tabs together show every order exactly once. */
  lemma {:induction false} TabsPartition(orders: seq<OrderData>)
    requires forall i :: 0 <= i < |orders| ==> KnownStatus(orders[i].status)
    ensures multiset(DisplayedOrders(orders, ActiveTab)) + multiset(DisplayedOrders(orders, HistoryTab)) == multiset(orders)
  {
    if orders != [] {
      var o, rest := orders[0], orders[1..];
      TabsPartition(rest);
      assert orders == [o] + rest;
      DisplayedOrdersAppend([o], rest, ActiveTab);
      DisplayedOrdersAppend([o], rest, HistoryTab);
      StatusInExactlyOneTab(o);
      assert DisplayedOrders([o], ActiveTab) == if Shown(ActiveTab, o) then [o] else [];
      assert DisplayedOrders([o], HistoryTab) == if Shown(HistoryTab, o) then [o] else [];
    }
  }

  /** `isPastOrder`: delivered and cancelled orders are finished. */
  predicate IsPastOrder(status: string)
    ensures IsPastOrder(status) ==> status !in TabStatuses(ActiveTab)
  {
    status in [Delivered, Cancelled]
  }

  /** A finished order is exactly one the History tab lists, so the progress bar shows only on Active orders. */
  lemma PastOrdersAreHistory(o: OrderData)
    ensures IsPastOrder(o.status) <==> Shown(HistoryTab, o)
    ensures KnownStatus(o.status) ==> (!IsPastOrder(o.status) <==> Shown(ActiveTab, o))
  {
  }

  /** `getWidth`, as a percentage. */
  function ProgressWidth(status: string): (w: nat)
    ensures w <= 85
    ensures w == 10 <==> status == Pending
    ensures w == 50 <==> status == Accepted
    ensures w == 85 <==> status == OnTheWay
    ensures w == 0 <==> status !in TabStatuses(ActiveTab)
  {
    if status == Pending then 10
    else if status == Accepted then 50
    else if status == OnTheWay then 85
    else 0
  }

  /** Whether step `step` (1 to 4) of the progress bar is lit. */
  function StepActive(status: string, step: nat): (b: bool)
    requires 1 <= step <= 4
    ensures step == 4 ==> !b
    ensures step == 1 ==> (b <==> status in TabStatuses(ActiveTab))
  {
    if step == 1 then status in [Pending, Accepted, OnTheWay]
    else if step == 2 then status in [Accepted, OnTheWay]
    else if step == 3 then status == OnTheWay
    else false
  }

  /** How many steps are lit. */
  function LitSteps(status: string): (n: nat)
    ensures n <= 3
  {
    (if StepActive(status, 1) then 1 else 0) + (if StepActive(status, 2) then 1 else 0)
      + (if StepActive(status, 3) then 1 else 0) + (if StepActive(status, 4) then 1 else 0)
  }

  /** The steps light up in order: a lit step has every earlier step lit. */
  lemma StepsMonotone(status: string, i: nat, j: nat)
    requires 1 <= i <= j <= 4
    ensures StepActive(status, j) ==> StepActive(status, i)
  {
  }

  /** The bar grows exactly when more steps light up, so the bar and the steps never disagree. */
  lemma WidthFollowsSteps(s: string, t: string)
    ensures ProgressWidth(s) < ProgressWidth(t) <==> LitSteps(s) < LitSteps(t)
    ensures ProgressWidth(s) == ProgressWidth(t) <==> LitSteps(s) == LitSteps(t)
  {
  }
}
