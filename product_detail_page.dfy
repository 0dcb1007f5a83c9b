/**
 * The product page, src/pages/ProductDetailPage.tsx: the image carousel's
 * index arithmetic, the quantity stepper's clamps, and when buying is
 * disabled. Price and discount flag are the product card's expressions.
 */
module ProductDetailPage {
  import ProductCard

  /** JavaScript's `a % n`: the remainder takes the sign of `a`. */
  function JsRem(a: int, n: int): (r: int)
    requires n > 0
    ensures a >= 0 ==> 0 <= r < n
    ensures a >= 0 ==> r == a % n
  {
    if a >= 0 then a % n else -((-a) % n)
  }

  /** `nextImage`: `(prev + 1) % images.length`. */
  function NextImage(i: int, n: int): int
    requires n > 0
  {
    JsRem(i + 1, n)
  }

  /** `prevImage`: `(prev - 1 + images.length) % images.length`. */
  function PrevImage(i: int, n: int): int
    requires n > 0
  {
    JsRem(i - 1 + n, n)
  }

  /** On a valid index, next and previous move one step, wrapping around at the ends. */
  lemma CarouselSteps(i: int, n: int)
    requires 0 <= i < n
    ensures NextImage(i, n) == (if i == n - 1 then 0 else i + 1)
    ensures PrevImage(i, n) == (if i == 0 then n - 1 else i - 1)
  {
    if i == n - 1 {
      ModSelf(n);
    } else {
      ModBelow(i + 1, n);
    }
    if i == 0 {
      ModBelow(n - 1, n);
    } else {
      ModShift(i - 1, n);
    }
  }

  /** From a valid index both buttons give a valid index, and they undo each other. */
  lemma CarouselSpec(i: int, n: int)
    requires 0 <= i < n
    ensures 0 <= NextImage(i, n) < n && 0 <= PrevImage(i, n) < n
    ensures PrevImage(NextImage(i, n), n) == i && NextImage(PrevImage(i, n), n) == i
  {
    CarouselSteps(i, n);
    CarouselSteps(NextImage(i, n), n);
    CarouselSteps(PrevImage(i, n), n);
  }

  lemma ModBelow(a: int, n: int)
    requires 0 <= a < n
    ensures a % n == a
  {
    var d := a / n;
    assert a == n * d + a % n;
    assert d >= 1 ==> n * d >= n;
    assert d < 0 ==> n * d <= -n;
  }

  lemma ModSelf(n: int)
    requires n > 0
    ensures n % n == 0
  {
  }

  lemma ModShift(a: int, n: int)
    requires 0 <= a < n
    ensures (a + n) % n == a
  {
    ModBelow(a, n);
  }

  /** The minus button: `Math.max(1, q - 1)`. */
  function Decrement(q: int): int
  {
    if q - 1 > 1 then q - 1 else 1
  }

  /** The plus button: `Math.min(product.stock_quantity, q + 1)`. */
  function Increment(q: int, stock: int): int
  {
    if q + 1 < stock then q + 1 else stock
  }

  /**
   * Minus never goes below 1, plus never above the stock (with no stock it
   * gives 0 from any quantity minus leaves), and from a quantity in
   * [1, stock] both stay there.
   */
  lemma StepperSpec(q: int, stock: int)
    ensures Decrement(q) >= 1
    ensures Increment(q, stock) <= stock
    ensures stock == 0 && q >= 1 ==> Increment(q, stock) == 0
    ensures 1 <= q <= stock ==> 1 <= Decrement(q) <= stock && 1 <= Increment(q, stock) <= stock
    ensures q < stock ==> Increment(q, stock) == q + 1
    ensures q > 1 ==> Decrement(q) == q - 1
  {
  }

  /** Add to cart and buy now are disabled: `stock_quantity === 0`. */
  predicate PurchaseDisabled(p: ProductCard.Product)
  {
    ProductCard.OutOfStock(p)
  }
}
