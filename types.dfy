/** The record shapes the storefront passes around: products, cart entries and the order e-mail payload. */
module Types {
  import opened Wrappers

  /** A catalogue item. Prices are display strings such as "$12.99". */
  datatype Product = Product(
    id: string,
    name: string,
    price: string,
    newPrice: Option<string>,
    href: Option<string>,
    primaryImage: string,
    secondaryImage: string,
    badge: Option<string>,
    colors: Option<seq<string>>
  )

  /** One cart entry. Quantities are integers here; see README for what that leaves out. */
  datatype CartItem = CartItem(quantity: int, color: string)

  /** Product id to cart entry. */
  type CartState = map<string, CartItem>

  /** The cart invariant: an entry that exists has a positive quantity; removal is absence. */
  predicate AllPositive(cart: CartState) {
    forall k :: k in cart ==> cart[k].quantity > 0
  }

  /** One line of the order e-mail. */
  datatype OrderLine = OrderLine(name: string, color: Option<string>, quantity: int, price: string)

  datatype ShippingAddress = ShippingAddress(street: string, city: string, phone: string, email: Option<string>)

  /** The order e-mail payload, sent from the checkout to the order-email route. */
  datatype OrderConfirmationProps = OrderConfirmationProps(
    customerName: string,
    orderId: string,
    total: string,
    subtotal: string,
    shipping: string,
    lines: seq<OrderLine>,
    shippingAddress: ShippingAddress
  )
}
