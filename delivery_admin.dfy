/**
 * The administrator's delivery-staff monitor: the search over names and
 * e-mail addresses, the three counters, the live-delivery panel and the
 * status badge of each courier.
 */
module DeliveryAdmin {
  import opened Common

  /** The order a courier is carrying, as far as the panel shows it. */
  datatype CurrentOrder = CurrentOrder(address: string, totalAmount: real, paymentMethod: string)

  /** A courier; `status` is "idle" or "delivering" when the server is well behaved. */
  datatype Courier = Courier(name: string, email: string, status: string, currentOrder: Option<CurrentOrder>)

  const Idle := "idle"
  const Delivering := "delivering"

  /** `filteredDeliveries`: the name or the e-mail contains the term, ignoring case. */
  predicate Found(c: Courier, term: string)
    ensures term == "" ==> Found(c, term)
  {
    MatchesEmpty(c.name);
    Matches(c.name, term) || Matches(c.email, term)
  }

  function FilteredCouriers(couriers: seq<Courier>, term: string): (r: seq<Courier>)
    ensures forall i :: 0 <= i < |r| ==> r[i] in couriers && Found(r[i], term)
    ensures forall i :: 0 <= i < |couriers| && Found(couriers[i], term) ==> couriers[i] in r
  {
    Filter(couriers, (c: Courier) => Found(c, term))
  }

  lemma EmptySearchListsAll(couriers: seq<Courier>)
    ensures FilteredCouriers(couriers, "") == couriers
  {
    FilterAll(couriers, (c: Courier) => Found(c, ""));
  }

  lemma FilteredCouriersAppend(a: seq<Courier>, b: seq<Courier>, term: string)
    ensures FilteredCouriers(a + b, term) == FilteredCouriers(a, term) + FilteredCouriers(b, term)
  {
    FilterAppend(a, b, (c: Courier) => Found(c, term));
  }

  predicate OnMission(c: Courier) { c.status == Delivering }
  predicate OnStandby(c: Courier) { c.status == Idle }
  predicate KnownCourierStatus(c: Courier) { OnMission(c) || OnStandby(c) }

  /** "Active Pilots", "On a Mission" and "Standby". */
  datatype Counters = Counters(activePilots: nat, onMission: nat, standby: nat)

  function CourierCounters(couriers: seq<Courier>): (k: Counters)
    ensures k.activePilots == |couriers|
    ensures k.onMission <= k.activePilots && k.standby <= k.activePilots
  {
    Counters(|couriers|, Count(couriers, OnMission), Count(couriers, OnStandby))
  }

  /** The mission and standby counters always fit in the total, and make it up exactly when every status is known. */
  lemma CountersAddUp(couriers: seq<Courier>)
    ensures CourierCounters(couriers).onMission + CourierCounters(couriers).standby <= CourierCounters(couriers).activePilots
    ensures (forall i :: 0 <= i < |couriers| ==> KnownCourierStatus(couriers[i])) ==>
      CourierCounters(couriers).onMission + CourierCounters(couriers).standby == CourierCounters(couriers).activePilots
  {
    CountDisjoint(couriers, OnMission, OnStandby, KnownCourierStatus);
    if forall i :: 0 <= i < |couriers| ==> KnownCourierStatus(couriers[i]) {
      FilterAll(couriers, KnownCourierStatus);
    }
  }

  /** The live panel shows only for a delivering courier whose current order came with the list. */
  predicate ShowsLivePanel(c: Courier)
    ensures ShowsLivePanel(c) ==> c.status != Idle && c.currentOrder.Some?
  {
    c.status == Delivering && c.currentOrder.Some?
  }

  /** The badge says "Idle" for an idle courier and "On Duty" for any other status. */
  function BadgeText(status: string): (text: string)
    ensures text == "Idle" <==> status == Idle
    ensures text == "On Duty" <==> status != Idle
  {
    if status == Idle then "Idle" else "On Duty"
  }

  /** A courier with the live panel open is always badged "On Duty". */
  lemma LivePanelMeansOnDuty(c: Courier)
    requires ShowsLivePanel(c)
    ensures BadgeText(c.status) == "On Duty"
  {
  }
}
