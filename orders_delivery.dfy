/**
 * The courier's order list: the "time ago" text of each order, the
 * endpoint each tab loads from, and what each order card offers.
 */
module OrdersDelivery {
  import opened Common
  import opened Types

  datatype TimeUnit = Years | Months | Days | Hours | Minutes | Seconds

  /** The length of each unit in seconds (a year of 365 days, a month of 30). */
  function UnitSeconds(u: TimeUnit): (n: nat)
    ensures n >= 1
  {
    match u
    case Years => 31536000
    case Months => 2592000
    case Days => 86400
    case Hours => 3600
    case Minutes => 60
    case Seconds => 1
  }

  function UnitName(u: TimeUnit): string {
    match u
    case Years => "years"
    case Months => "months"
    case Days => "days"
    case Hours => "hours"
    case Minutes => "minutes"
    case Seconds => "seconds"
  }

  /** "`count` `unit` ago". */
  datatype Ago = Ago(count: int, unit: TimeUnit)

  /**
   * `timeAgo`, given the whole seconds elapsed. Each unit is tried from the
   * largest down and the first one the elapsed time strictly exceeds is
   * reported, rounded down; anything up to a minute, including a negative
   * elapsed time, is reported in seconds.
   */
  function TimeAgo(seconds: int): (r: Ago)
    ensures r.unit == Years <==> seconds > 31536000
    ensures r.unit == Months <==> 2592000 < seconds <= 31536000
    ensures r.unit == Days <==> 86400 < seconds <= 2592000
    ensures r.unit == Hours <==> 3600 < seconds <= 86400
    ensures r.unit == Minutes <==> 60 < seconds <= 3600
    ensures r.unit == Seconds <==> seconds <= 60
    ensures r.count == seconds / UnitSeconds(r.unit)
  {
    if seconds > 31536000 then Ago(seconds / 31536000, Years)
    else if seconds > 2592000 then Ago(seconds / 2592000, Months)
    else if seconds > 86400 then Ago(seconds / 86400, Days)
    else if seconds > 3600 then Ago(seconds / 3600, Hours)
    else if seconds > 60 then Ago(seconds / 60, Minutes)
    else Ago(seconds, Seconds)
  }

  /**
   * The text shown on the card. It always ends in " ago", and it starts
   * with a minus sign exactly when the order's time lies in the future.
   */
  function TimeAgoText(seconds: int): (text: string)
    ensures |text| > 4 && text[|text| - 4..] == " ago"
    ensures text[0] == '-' <==> seconds < 0
  {
    var a := TimeAgo(seconds);
    IntToString(a.count) + " " + UnitName(a.unit) + " ago"
  }

  /** The texts at the unit boundaries; the unit word is never made singular. */
  lemma TimeAgoTextBoundaries()
    ensures TimeAgoText(60) == "60 seconds ago"
    ensures TimeAgoText(61) == "1 minutes ago"
    ensures TimeAgoText(31536000) == "12 months ago"
    ensures TimeAgoText(-5) == "-5 seconds ago"
  {
    SixtySecondsText();
    OneMinuteText();
    OneYearText();
    FutureText();
  }

  lemma SixtySecondsText()
    ensures TimeAgoText(60) == "60 seconds ago"
  {
    assert TimeAgo(60) == Ago(60, Seconds);
    assert IntToString(60) == "60" by { assert NatToString(6) == "6"; }
  }

  lemma OneMinuteText()
    ensures TimeAgoText(61) == "1 minutes ago"
  {
    assert TimeAgo(61) == Ago(1, Minutes);
    assert IntToString(1) == "1";
  }

  /** A year to the second is still reported in months. */
  lemma OneYearText()
    ensures TimeAgoText(31536000) == "12 months ago"
  {
    assert TimeAgo(31536000) == Ago(12, Months);
    assert IntToString(12) == "12" by { assert NatToString(1) == "1"; }
  }

  /** A time in the future is reported as negative seconds. */
  lemma FutureText()
    ensures TimeAgoText(-5) == "-5 seconds ago"
  {
    assert TimeAgo(-5) == Ago(-5, Seconds);
    assert IntToString(-5) == "-5" by { assert NatToString(5) == "5"; }
  }

  /**
   * Whatever unit is chosen other than seconds, at least one whole unit
   * has elapsed, and the count stays within the next larger unit: at most
   * 12 months, 30 days, 24 hours or 60 minutes.
   */
  lemma TimeAgoCountBounds(seconds: int)
    ensures TimeAgo(seconds).unit != Seconds ==>
      1 <= TimeAgo(seconds).count && TimeAgo(seconds).count * UnitSeconds(TimeAgo(seconds).unit) <= seconds
    ensures TimeAgo(seconds).unit == Months ==> TimeAgo(seconds).count <= 12
    ensures TimeAgo(seconds).unit == Days ==> TimeAgo(seconds).count <= 30
    ensures TimeAgo(seconds).unit == Hours ==> TimeAgo(seconds).count <= 24
    ensures TimeAgo(seconds).unit == Minutes ==> TimeAgo(seconds).count <= 60
  {
    var a := TimeAgo(seconds);
    match a.unit
    case Years => assert seconds / 31536000 * 31536000 <= seconds;
    case Months => assert seconds / 2592000 * 2592000 <= seconds;
    case Days => assert seconds / 86400 * 86400 <= seconds;
    case Hours => assert seconds / 3600 * 3600 <= seconds;
    case Minutes => assert seconds / 60 * 60 <= seconds;
    case Seconds =>
  }

  /** The strict tests put each unit's own length into the next smaller unit. */
  lemma TimeAgoBoundaries()
    ensures TimeAgo(60) == Ago(60, Seconds)
    ensures TimeAgo(61) == Ago(1, Minutes)
    ensures TimeAgo(3600) == Ago(60, Minutes)
    ensures TimeAgo(86400) == Ago(24, Hours)
    ensures TimeAgo(2592000) == Ago(30, Days)
    ensures TimeAgo(31536000) == Ago(12, Months)
    ensures TimeAgo(-5) == Ago(-5, Seconds)
  {
  }

  datatype Tab = Available | MyOrders

  /** The endpoint a tab's list is loaded from. */
  function Endpoint(tab: Tab): (path: string)
    ensures tab == Available <==> path == "/orders/delivery/available"
    ensures tab == MyOrders <==> path == "/delivery/my-deliveries"
  {
    match tab
    case Available => "/orders/delivery/available"
    case MyOrders => "/delivery/my-deliveries"
  }

  /** The customer as an order card receives it. */
  datatype Customer = Customer(name: string, address: string, phone: Option<string>)

  datatype CardAction = MarkDelivered | AcceptOrder

  /** What an order card offers: the call link, the action button, and the customer lines. */
  datatype CardView = CardView(showCall: bool, action: CardAction, customerName: string, customerAddress: string)

  function OrderCard(tab: Tab, customer: Option<Customer>): (c: CardView)
    ensures c.showCall <==> tab == MyOrders && customer.Some? && Truthy(customer.value.phone)
    ensures c.action == MarkDelivered <==> tab == MyOrders
    ensures c.action == AcceptOrder <==> tab == Available
    ensures c.customerName != "" && c.customerAddress != ""
    ensures customer.Some? && customer.value.name != "" ==> c.customerName == customer.value.name
    ensures customer.Some? && customer.value.address != "" ==> c.customerAddress == customer.value.address
    ensures customer.None? || customer.value.name == "" ==> c.customerName == "Unknown Customer"
    ensures customer.None? || customer.value.address == "" ==> c.customerAddress == "No address provided"
  {
    var isMyOrder := tab == MyOrders;
    CardView(
      isMyOrder && customer.Some? && customer.value.phone.Some? && customer.value.phone.value != "",
      if isMyOrder then MarkDelivered else AcceptOrder,
      if customer.Some? && customer.value.name != "" then customer.value.name else "Unknown Customer",
      if customer.Some? && customer.value.address != "" then customer.value.address else "No address provided")
  }

  /** The call link is offered only next to "Mark Delivered", never on an order still to be accepted. */
  lemma CallOnlyOnOwnOrders(tab: Tab, customer: Option<Customer>)
    ensures OrderCard(tab, customer).showCall ==> OrderCard(tab, customer).action == MarkDelivered
  {
  }

  /** The request each action sends for order `id`. */
  datatype ActionRequest = Put(path: string, status: Option<string>)

  function RequestFor(action: CardAction, id: string): (req: ActionRequest)
    ensures action == AcceptOrder ==> req.status.None? && req.path == "/orders/delivery/accept/" + id
    ensures action == MarkDelivered ==> req.status == Some(Delivered) && req.path == "/orders/delivery/status/" + id
  {
    match action
    case AcceptOrder => Put("/orders/delivery/accept/" + id, None)
    case MarkDelivered => Put("/orders/delivery/status/" + id, Some(Delivered))
  }

  /** The error shown when an action fails: the server's message for an acceptance, when it gives one. */
  function FailureMessage(action: CardAction, serverMessage: Option<string>): (msg: string)
    ensures msg != ""
    ensures action == MarkDelivered ==> msg == "Failed to update status"
    ensures action == AcceptOrder && Truthy(serverMessage) ==> msg == serverMessage.value
    ensures action == AcceptOrder && !Truthy(serverMessage) ==> msg == "Failed to accept order"
  {
    match action
    case AcceptOrder => if serverMessage.Some? && serverMessage.value != "" then serverMessage.value else "Failed to accept order"
    case MarkDelivered => "Failed to update status"
  }
}
