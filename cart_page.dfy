/**
 * The cart page: the derived subtotal, delivery fee and total, the order
 * payload built from the cart lines, and the submit handler with its
 * guards. The delivery address comes from a map picker whose text starts
 * as a fixed placeholder; the outcome of the POST is an input.
 */
module CartPage {
  import opened Common
  import opened Types
  import CartSlice

  /** The address text before a spot has been picked on the map. */
  const Placeholder := "Select your location on map"

  /** The flat delivery fee. */
  const FlatFee: real := 3.0

  /** `subtotal > 0 ? 3.00 : 0`. */
  function Fee(subtotal: real): (f: real)
    ensures f == FlatFee <==> subtotal > 0.0
    ensures f == 0.0 <==> subtotal <= 0.0
  {
    if subtotal > 0.0 then FlatFee else 0.0
  }

  /** One line of the order the page sends: the product id, the quantity and the line total. */
  datatype OrderItem = OrderItem(product: string, quantity: int, totalPrice: real)

  datatype OrderPayload = OrderPayload(
    items: seq<OrderItem>,
    paymentMethod: Payment,
    address: string,
    subtotal: real,
    deliveryFee: real,
    totalAmount: real)

  /**
   * The payload's items, one per cart line and in the same order. A line's
   * `_id` is set to the product id when the line is created, so it is the
   * line's `itemId`.
   */
  function OrderItems(lines: seq<CartLine>): (r: seq<OrderItem>)
    ensures |r| == |lines|
    ensures forall i :: 0 <= i < |lines| ==>
      r[i].product == lines[i].itemId && r[i].quantity == lines[i].quantity && r[i].totalPrice == lines[i].totalPrice
  {
    if lines == [] then []
    else [OrderItem(lines[0].itemId, lines[0].quantity, lines[0].totalPrice)] + OrderItems(lines[1..])
  }

  /** The sum of the line totals of a payload, as the server would recompute it. */
  function ItemsTotal(items: seq<OrderItem>): (t: real)
    ensures (forall i :: 0 <= i < |items| ==> items[i].totalPrice >= 0.0) ==> t >= 0.0
  {
    if items == [] then 0.0 else items[0].totalPrice + ItemsTotal(items[1..])
  }

  /** The payload's lines add up to the cart's subtotal. */
  lemma {:induction false} ItemsTotalIsSubtotal(lines: seq<CartLine>)
    ensures ItemsTotal(OrderItems(lines)) == CartSlice.Subtotal(lines)
  {
    if lines != [] {
      ItemsTotalIsSubtotal(lines[1..]);
      assert OrderItems(lines)[1..] == OrderItems(lines[1..]);
    }
  }

  /** The order built from the cart: its figures agree with its own lines and with the page's summary. */
  function BuildPayload(lines: seq<CartLine>, payment: Payment, address: string): (p: OrderPayload)
    ensures p.items == OrderItems(lines)
    ensures p.subtotal == ItemsTotal(p.items) == CartSlice.Subtotal(lines)
    ensures p.deliveryFee == Fee(p.subtotal)
    ensures p.deliveryFee == FlatFee <==> p.subtotal > 0.0
    ensures p.totalAmount - p.deliveryFee == p.subtotal
    ensures p.paymentMethod == payment && p.address == address
  {
    var subtotal := CartSlice.Subtotal(lines);
    var fee := Fee(subtotal);
    ItemsTotalIsSubtotal(lines);
    OrderPayload(OrderItems(lines), payment, address, subtotal, fee, subtotal + fee)
  }

  datatype SubmitOutcome =
    | EmptyCart                          // "Your cart is empty"
    | NoDeliverySpot                     // "Please pick a delivery spot"
    | CardNotSupported                   // "Payment method not supported yet"
    | Placed(order: OrderPayload)        // POST succeeded
    | PostFailed(order: OrderPayload)    // POST failed

  /**
   * `submitOrder`: the empty cart is refused first, then the placeholder
   * address, then card payment; only a cash order is posted, and only a
   * post that succeeds empties the cart.
   */
  method SubmitOrder(cart: CartSlice.CartStore, address: string, payment: Payment, postSucceeds: bool)
    returns (outcome: SubmitOutcome)
    requires cart.Valid()
    modifies cart
    ensures cart.Valid()
    ensures old(cart.items) == [] ==> outcome == EmptyCart
    ensures old(cart.items) != [] && address == Placeholder ==> outcome == NoDeliverySpot
    ensures old(cart.items) != [] && address != Placeholder && payment == Card ==> outcome == CardNotSupported
    ensures old(cart.items) != [] && address != Placeholder && payment == Cash ==>
      outcome == (if postSucceeds then Placed(BuildPayload(old(cart.items), Cash, address))
                  else PostFailed(BuildPayload(old(cart.items), Cash, address)))
    ensures outcome.Placed? ==> cart.items == []
    ensures !outcome.Placed? ==> cart.items == old(cart.items)
    ensures cart.isCheckoutOpen == old(cart.isCheckoutOpen)
  {
    if |cart.items| == 0 {
      return EmptyCart;
    }
    if address == Placeholder {
      return NoDeliverySpot;
    }
    var order := BuildPayload(cart.items, payment, address);
    if payment == Card {
      return CardNotSupported;
    }
    if !postSucceeds {
      return PostFailed(order);
    }
    cart.ClearCart();
    outcome := Placed(order);
  }
}
