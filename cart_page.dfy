/**
 * The cart screen, src/pages/CartPage.tsx: what its plus and minus buttons
 * ask the cart for, and where its checkout button leads. The image and line
 * amount of each row are the product card's image choice and the cart's
 * `LineAmount`.
 */
module CartPage {
  import opened Common
  import opened CartContext

  /** The quantity the plus button requests: `Math.min(item.product.stock_quantity, item.quantity + 1)`. */
  function PlusQuantity(item: CartItem): int
  {
    if item.product.stock < item.quantity + 1 then item.product.stock else item.quantity + 1
  }

  /** The quantity the minus button requests: `item.quantity - 1`. */
  function MinusQuantity(item: CartItem): int
  {
    item.quantity - 1
  }

  /**
   * Minus on an item of quantity 1 takes it out of the cart; otherwise it
   * lowers the quantity by one.
   */
  lemma MinusSpec(items: seq<CartItem>, k: int)
    requires 0 <= k < |items|
    ensures items[k].quantity <= 1 ==>
      forall x :: x in Updated(items, items[k].id, MinusQuantity(items[k])) ==> x.id != items[k].id
    ensures items[k].quantity > 1 ==>
      Updated(items, items[k].id, MinusQuantity(items[k]))[k].quantity == items[k].quantity - 1
  {
    UpdatedSpec(items, items[k].id, MinusQuantity(items[k]));
  }

  /**
   * Plus never sets more than the stock: below the stock it adds one; on an
   * item whose product has sold out it removes the item.
   */
  lemma PlusSpec(items: seq<CartItem>, k: int)
    requires 0 <= k < |items|
    ensures PlusQuantity(items[k]) <= items[k].product.stock
    ensures 0 <= items[k].quantity < items[k].product.stock ==>
      Updated(items, items[k].id, PlusQuantity(items[k]))[k].quantity == items[k].quantity + 1
    ensures items[k].product.stock <= 0 && items[k].quantity >= 0 ==>
      forall x :: x in Updated(items, items[k].id, PlusQuantity(items[k])) ==> x.id != items[k].id
  {
    UpdatedSpec(items, items[k].id, PlusQuantity(items[k]));
  }

  /** A navigation: the target path and the `from` location it carries. */
  datatype Navigation = Navigation(path: string, from: Option<string>)

  /** `handleCheckout` (CartPage.tsx:15-21). */
  function CheckoutTarget(isAuthenticated: bool): (r: Navigation)
    ensures !isAuthenticated <==> r.path == "/auth"
    ensures !isAuthenticated ==> r.from == Some("/checkout")
    ensures isAuthenticated ==> r == Navigation("/checkout", None)
  {
    if !isAuthenticated then Navigation("/auth", Some("/checkout")) else Navigation("/checkout", None)
  }
}
