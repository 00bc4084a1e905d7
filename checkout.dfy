/**
 * The checkout side panel: the cart total it shows, the order payload it
 * posts (with the chosen size's name and the extras as name/price pairs,
 * no delivery fee), and the submit handler that empties the cart and
 * closes the panel only on a 200 or 201 answer. The address comes from
 * reverse geocoding and may be missing; the position and the server's
 * answer are inputs.
 */
module Checkout {
  import opened Common
  import opened Types
  import CartSlice

  datatype ExtraLine = ExtraLine(name: string, price: real)

  datatype CheckoutItem = CheckoutItem(
    product: string,
    quantity: int,
    size: Option<string>,
    extras: seq<ExtraLine>,
    totalPrice: real)

  datatype Location = Location(lat: real, lng: real)

  datatype CheckoutPayload = CheckoutPayload(
    items: seq<CheckoutItem>,
    paymentMethod: Payment,
    address: string,
    location: Location,
    subtotal: real,
    deliveryFee: real,
    totalAmount: real)

  /** The extras of a line as `{name, price}` pairs, in the line's order. */
  function ExtraLines(extras: seq<ExtraOption>): (r: seq<ExtraLine>)
    ensures |r| == |extras|
    ensures forall i :: 0 <= i < |extras| ==> r[i].name == extras[i].name && r[i].price == extras[i].price
  {
    if extras == [] then [] else [ExtraLine(extras[0].name, extras[0].price)] + ExtraLines(extras[1..])
  }

  /** `selectedSize?.name`. */
  function SizeName(size: Option<SizeOption>): (r: Option<string>)
    ensures r.Some? <==> size.Some?
    ensures r.Some? ==> r.value == size.value.name
  {
    match size
    case Some(s) => Some(s.name)
    case None => None
  }

  /** The payload's items: one per cart line, in order. */
  function CheckoutItems(lines: seq<CartLine>): (r: seq<CheckoutItem>)
    ensures |r| == |lines|
    ensures forall i :: 0 <= i < |lines| ==>
      && r[i].product == lines[i].itemId
      && r[i].quantity == lines[i].quantity
      && r[i].size == SizeName(lines[i].selectedSize)
      && r[i].extras == ExtraLines(lines[i].selectedExtras)
      && r[i].totalPrice == lines[i].totalPrice
  {
    if lines == [] then []
    else
      var l := lines[0];
      [CheckoutItem(l.itemId, l.quantity, SizeName(l.selectedSize), ExtraLines(l.selectedExtras), l.totalPrice)]
        + CheckoutItems(lines[1..])
  }

  /** The sum of the payload's line totals. */
  function ItemsTotal(items: seq<CheckoutItem>): (t: real)
    ensures (forall i :: 0 <= i < |items| ==> items[i].totalPrice >= 0.0) ==> t >= 0.0
  {
    if items == [] then 0.0 else items[0].totalPrice + ItemsTotal(items[1..])
  }

  lemma {:induction false} ItemsTotalIsCartTotal(lines: seq<CartLine>)
    ensures ItemsTotal(CheckoutItems(lines)) == CartSlice.Subtotal(lines)
  {
    if lines != [] {
      ItemsTotalIsCartTotal(lines[1..]);
      assert CheckoutItems(lines)[1..] == CheckoutItems(lines[1..]);
    }
  }

  /**
   * The payload: subtotal and total are both the cart total `cartTotal`,
   * which is what the lines add up to, and no delivery fee is charged.
   */
  function BuildPayload(lines: seq<CartLine>, payment: Payment, address: string, at: Location): (p: CheckoutPayload)
    ensures p.items == CheckoutItems(lines)
    ensures p.subtotal == p.totalAmount == ItemsTotal(p.items)
    ensures p.deliveryFee == 0.0
    ensures p.paymentMethod == payment && p.address == address && p.location == at
  {
    var cartTotal := CartSlice.Subtotal(lines);
    ItemsTotalIsCartTotal(lines);
    CheckoutPayload(CheckoutItems(lines), payment, address, at, cartTotal, 0.0, cartTotal)
  }

  /** What came back from the POST: a status code, or a failure with no usable answer. */
  datatype Response = Status(code: int) | RequestFailed

  datatype CheckoutOutcome =
    | EmptyCart
    | NoAddress
    | Posted(payload: CheckoutPayload, response: Response)

  /** Only these answers count as an accepted order. */
  predicate Accepted(response: Response) {
    response.Status? && (response.code == 200 || response.code == 201)
  }

  /**
   * `handleSubmit`: an empty cart is refused first, then a missing or
   * empty address; otherwise the order is posted, and only a 200 or 201
   * answer empties the cart and closes the panel.
   */
  method HandleSubmit(cart: CartSlice.CartStore, address: Option<string>, payment: Payment, at: Location, response: Response)
    returns (outcome: CheckoutOutcome)
    requires cart.Valid()
    modifies cart
    ensures cart.Valid()
    ensures old(cart.items) == [] ==> outcome == EmptyCart
    ensures old(cart.items) != [] && !Truthy(address) ==> outcome == NoAddress
    ensures old(cart.items) != [] && Truthy(address) ==>
      outcome == Posted(BuildPayload(old(cart.items), payment, address.value, at), response)
    ensures outcome.Posted? && Accepted(response) ==> cart.items == [] && !cart.isCheckoutOpen
    ensures !(outcome.Posted? && Accepted(response)) ==>
      cart.items == old(cart.items) && cart.isCheckoutOpen == old(cart.isCheckoutOpen)
  {
    if |cart.items| == 0 {
      return EmptyCart;
    }
    if address.None? || address.value == "" {
      return NoAddress;
    }
    var payload := BuildPayload(cart.items, payment, address.value, at);
    outcome := Posted(payload, response);
    if response.Status? && (response.code == 201 || response.code == 200) {
      cart.ClearCart();
      cart.ToggleCheckout(false);
    }
  }
}
