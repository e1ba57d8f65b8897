/**
 * The records the cart engine stores and reads. Money is held in integer cents,
 * so the two-decimal rounding the service applies to every amount is exact.
 */
module CartSchemas {

  /** Store-generated identifiers. */
  type CartId = nat
  type ItemId = nat
  type ProductId = nat

  /** The owning user's id, as the create request carries it. */
  type UserId = string

  /** A cart: its owner (unique across carts), its stored total and the ids of the items pushed onto it. */
  datatype Cart = Cart(userId: UserId, total: int, items: seq<ItemId>)

  /** One line of a cart: a product, how many units, and what they cost. */
  datatype CartItem = CartItem(cartId: CartId, productId: ProductId, quantity: int, subtotal: int)

  /** The part of a catalogue product the cart engine reads: its name and unit price. */
  datatype Product = Product(name: string, price: int)

  /** A fresh cart, as the schema's defaults make it. */
  function NewCart(userId: UserId): Cart
  {
    Cart(userId, 0, [])
  }

  /** The amount charged for `quantity` units at `price`. */
  function Subtotal(quantity: int, price: int): (r: int)
    // no charge is negative, and a line of at least one unit costs at least one unit's price
    ensures quantity >= 0 && price >= 0 ==> r >= 0
    ensures quantity >= 1 && price >= 0 ==> r >= price
  {
    quantity * price
  }
}
