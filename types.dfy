/**
 * The records the storefront client exchanges with its server and keeps in
 * its stores. Monetary amounts are exact reals (the client never rounds
 * them); quantities are integers.
 */
module Types {
  import opened Common

  datatype SizeOption = SizeOption(id: string, name: string, price: real)

  datatype ExtraOption = ExtraOption(id: string, name: string, price: real)

  /** A product of the catalogue, as the menu and the admin product list receive it. */
  datatype MenuItem = MenuItem(
    id: string,
    category: string,
    name: string,
    description: string,
    image: string,
    basePrice: real,
    sizes: seq<SizeOption>,
    extras: seq<ExtraOption>)

  /** A signed-in account; `role` is "user", "delivery" or "admin" when the server is well behaved. */
  datatype User = User(id: string, name: string, email: string, role: string)

  /** One line of the shopping cart: a configured product, its frozen unit price and its quantity. */
  datatype CartLine = CartLine(
    cartId: string,
    itemId: string,
    name: string,
    image: string,
    selectedSize: Option<SizeOption>,
    selectedExtras: seq<ExtraOption>,
    quantity: int,
    unitPrice: real,
    totalPrice: real)

  /** The two payment methods an order form offers. */
  datatype Payment = Card | Cash

  /** The five order statuses the server uses. */
  const Pending := "pending"
  const Accepted := "accepted"
  const OnTheWay := "on_the_way"
  const Delivered := "delivered"
  const Cancelled := "cancelled"

  predicate KnownStatus(s: string) {
    s == Pending || s == Accepted || s == OnTheWay || s == Delivered || s == Cancelled
  }
}
