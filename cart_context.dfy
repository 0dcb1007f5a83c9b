/**
 * The client cart, src/contexts/CartContext.tsx: a list of items, one per
 * product, that `addToCart`, `updateQuantity`, `removeFromCart` and
 * `clearCart` replace, the item count, and the totals the cart page shows.
 * Each state update is specified by a function of the old list; the class
 * assigns its result, as `setItems(prev => ...)` does.
 */
module CartContext {
  import opened Common
  import opened Tables
  import Products
  import Orders
  import ProductCard

  type Product = Products.FormattedProduct

  /** A cart line; `id` is the `Date.now()` of the add that created it. */
  datatype CartItem = CartItem(id: int, product: Product, quantity: int)

  // ---------------------------------------------------------------------------
  // The list updates

  /** Some item holds the product. */
  predicate HasProduct(items: seq<CartItem>, productId: int)
  {
    exists i :: 0 <= i < |items| && items[i].product.id == productId
  }

  /** No two items hold the same product. */
  predicate DistinctProducts(items: seq<CartItem>)
  {
    forall i, j :: 0 <= i < j < |items| ==> items[i].product.id != items[j].product.id
  }

  /**
   * `addToCart` (CartContext.tsx:57-77): the items holding the product get
   * `quantity` more; without one, a new item `now` is appended.
   */
  function Added(items: seq<CartItem>, product: Product, quantity: int, now: int): seq<CartItem>
  {
    if HasProduct(items, product.id) then
      seq(|items|, i requires 0 <= i < |items| =>
        if items[i].product.id == product.id then items[i].(quantity := items[i].quantity + quantity) else items[i])
    else items + [CartItem(now, product, quantity)]
  }

  /** `prevItems.filter((item) => item.id !== itemId)`. */
  function Without(items: seq<CartItem>, itemId: int): (r: seq<CartItem>)
    ensures |r| <= |items|
    ensures forall x :: x in r ==> x in items && x.id != itemId
  {
    if |items| == 0 then []
    else (if items[0].id == itemId then [] else [items[0]]) + Without(items[1..], itemId)
  }

  /** `updateQuantity` (CartContext.tsx:79-89): a quantity of 0 or less removes the item, otherwise it is set. */
  function Updated(items: seq<CartItem>, itemId: int, quantity: int): seq<CartItem>
  {
    if quantity <= 0 then Without(items, itemId)
    else
      seq(|items|, i requires 0 <= i < |items| =>
        if items[i].id == itemId then items[i].(quantity := quantity) else items[i])
  }

  /** `getItemCount` (CartContext.tsx:100-102): the sum of the quantities. */
  function ItemCount(items: seq<CartItem>): int
  {
    if |items| == 0 then 0 else ItemCount(items[..|items| - 1]) + items[|items| - 1].quantity
  }

  lemma {:induction false} ItemCountAppend(items: seq<CartItem>, more: seq<CartItem>)
    ensures ItemCount(items + more) == ItemCount(items) + ItemCount(more)
    decreases |more|
  {
    if |more| == 0 {
      assert items + more == items;
    } else {
      assert (items + more)[..|items + more| - 1] == items + more[..|more| - 1];
      ItemCountAppend(items, more[..|more| - 1]);
    }
  }

  /**
   * Adding a product already in the cart raises that item's quantity and
   * keeps the length and every other item; adding a new one appends one item
   * at the end. Either way the item count grows by `quantity`, and products
   * stay distinct.
   */
  lemma AddedSpec(items: seq<CartItem>, product: Product, quantity: int, now: int)
    requires DistinctProducts(items)
    ensures var r := Added(items, product, quantity, now);
      && DistinctProducts(r)
      && ItemCount(r) == ItemCount(items) + quantity
      && (HasProduct(items, product.id) ==>
            && |r| == |items|
            && forall i :: 0 <= i < |items| ==>
                 if items[i].product.id == product.id then r[i] == items[i].(quantity := items[i].quantity + quantity)
                 else r[i] == items[i])
      && (!HasProduct(items, product.id) ==> r == items + [CartItem(now, product, quantity)])
  {
    var r := Added(items, product, quantity, now);
    if HasProduct(items, product.id) {
      var k :| 0 <= k < |items| && items[k].product.id == product.id;
      MergeCount(items, product, quantity, k);
    } else {
      ItemCountAppend(items, [CartItem(now, product, quantity)]);
      assert ItemCount([CartItem(now, product, quantity)]) == quantity;
    }
  }

  /** Replacing one item changes the count by the difference of the quantities. */
  lemma {:induction false} ItemCountUpdate(items: seq<CartItem>, k: int, x: CartItem)
    requires 0 <= k < |items|
    ensures ItemCount(items[k := x]) == ItemCount(items) - items[k].quantity + x.quantity
  {
    var n := |items| - 1;
    if k == n {
      assert items[k := x][..n] == items[..n];
    } else {
      ItemCountUpdate(items[..n], k, x);
      assert items[k := x][..n] == items[..n][k := x];
    }
  }

  /** Raising one item's quantity raises the count by as much. */
  lemma MergeCount(items: seq<CartItem>, product: Product, quantity: int, k: int)
    requires DistinctProducts(items)
    requires 0 <= k < |items| && items[k].product.id == product.id
    ensures ItemCount(Added(items, product, quantity, 0)) == ItemCount(items) + quantity
  {
    var r := Added(items, product, quantity, 0);
    var x := items[k].(quantity := items[k].quantity + quantity);
    var u := items[k := x];
    assert HasProduct(items, product.id);
    assert |r| == |u|;
    forall i | 0 <= i < |items|
      ensures r[i] == u[i]
    {
      if i < k {
        assert items[i].product.id != product.id;
      } else if i > k {
        assert items[k].product.id != items[i].product.id;
      }
    }
    assert r == u;
    ItemCountUpdate(items, k, x);
  }

  /** Filtering keeps the order: filtering a concatenation filters each part. */
  lemma {:induction false} WithoutAppend(a: seq<CartItem>, b: seq<CartItem>, itemId: int)
    ensures Without(a + b, itemId) == Without(a, itemId) + Without(b, itemId)
  {
    if |a| > 0 {
      var ab := a + b;
      assert ab[0] == a[0] && ab[1..] == a[1..] + b;
      WithoutAppend(a[1..], b, itemId);
      var head := if a[0].id == itemId then [] else [a[0]];
      assert Without(ab, itemId) == head + (Without(a[1..], itemId) + Without(b, itemId));
      assert Without(a, itemId) == head + Without(a[1..], itemId);
    } else {
      assert a + b == b;
    }
  }

  /**
   * Removing drops exactly the items with that id: none is left, every other
   * item stays, and the products stay distinct.
   */
  lemma {:induction false} WithoutSpec(items: seq<CartItem>, itemId: int)
    ensures forall x :: x in Without(items, itemId) ==> x.id != itemId
    ensures forall x :: x in items && x.id != itemId ==> x in Without(items, itemId)
    ensures DistinctProducts(items) ==> DistinctProducts(Without(items, itemId))
  {
    if |items| > 0 {
      WithoutSpec(items[1..], itemId);
      assert forall x :: x in items ==> x == items[0] || x in items[1..];
    }
    if DistinctProducts(items) {
      WithoutDistinct(items, itemId);
    }
  }

  /** The items after the first of a cart with distinct products have distinct products, all other than the first's. */
  lemma DistinctTail(items: seq<CartItem>)
    requires |items| > 0 && DistinctProducts(items)
    ensures DistinctProducts(items[1..])
    ensures forall x :: x in items[1..] ==> x.product.id != items[0].product.id
  {
    forall x | x in items[1..]
      ensures x.product.id != items[0].product.id
    {
      var j :| 0 <= j < |items[1..]| && items[1..][j] == x;
      assert items[j + 1] == x;
    }
    forall i, j | 0 <= i < j < |items[1..]|
      ensures items[1..][i].product.id != items[1..][j].product.id
    {
      assert items[1..][i] == items[i + 1] && items[1..][j] == items[j + 1];
    }
  }

  /** Removing items from a cart with distinct products leaves the products distinct. */
  lemma {:induction false} WithoutDistinct(items: seq<CartItem>, itemId: int)
    requires DistinctProducts(items)
    ensures DistinctProducts(Without(items, itemId))
  {
    if |items| > 0 {
      DistinctTail(items);
      WithoutDistinct(items[1..], itemId);
      var rest := Without(items[1..], itemId);
      var r := Without(items, itemId);
      if items[0].id != itemId {
        assert r == [items[0]] + rest;
        forall i, j | 0 <= i < j < |r|
          ensures r[i].product.id != r[j].product.id
        {
          if i == 0 {
            assert r[j] == rest[j - 1];
            assert rest[j - 1] in rest;
          } else {
            assert r[i] == rest[i - 1] && r[j] == rest[j - 1];
          }
        }
      } else {
        assert r == rest;
      }
    }
  }

  /**
   * A positive quantity changes only the quantity of the items with that id;
   * 0 or less removes them.
   */
  lemma UpdatedSpec(items: seq<CartItem>, itemId: int, quantity: int)
    ensures quantity <= 0 ==> forall x :: x in Updated(items, itemId, quantity) ==> x.id != itemId
    ensures quantity > 0 ==>
      var r := Updated(items, itemId, quantity);
      && |r| == |items|
      && forall i :: 0 <= i < |items| ==>
           r[i].id == items[i].id && r[i].product == items[i].product
           && r[i].quantity == (if items[i].id == itemId then quantity else items[i].quantity)
    ensures DistinctProducts(items) ==> DistinctProducts(Updated(items, itemId, quantity))
  {
    WithoutSpec(items, itemId);
  }

  // ---------------------------------------------------------------------------
  // Totals

  /** `(sale_price || price) * quantity`. */
  function LineAmount(item: CartItem): real
  {
    ProductCard.DisplayPrice(item.product) * item.quantity as real
  }

  /** The `reduce` of `calculateTotals` (CartContext.tsx:19-22). */
  function Subtotal(items: seq<CartItem>): real
  {
    if |items| == 0 then 0.0 else Subtotal(items[..|items| - 1]) + LineAmount(items[|items| - 1])
  }

  /** `calculateTotals` (CartContext.tsx:18-29). */
  function CalculateTotals(items: seq<CartItem>): (t: Orders.Totals)
    ensures t.subtotal == Subtotal(items)
  {
    var subtotal := Subtotal(items);
    var shipping := if subtotal > 500.0 then 0.0 else 50.0;
    var tax := subtotal * 0.15;
    Orders.Totals(subtotal, shipping, tax, subtotal + shipping + tax)
  }

  /** The client applies the server's shipping, tax and total formula to its subtotal. */
  lemma TotalsFormula(items: seq<CartItem>)
    ensures CalculateTotals(items) == Orders.OrderTotals(Subtotal(items))
  {
  }

  /** The client copy of a product is what `formatProduct` made of the row. */
  predicate Mirrors(p: Product, row: ProductRow)
  {
    p.id == row.id && p.price == row.price.value && p.salePrice == Products.DecimalOrNull(row.salePrice)
  }

  /** The row's sale price is absent, or present with a non-empty text and a non-zero value. */
  predicate SaleAbsentOrNonZero(row: ProductRow)
  {
    row.salePrice.None? || (DecimalTruthy(row.salePrice) && row.salePrice.value.value != 0.0)
  }

  /** The cart as the request's `items`: product and quantity of each line, in order. */
  function Lines(items: seq<CartItem>): (r: seq<Orders.CartLine>)
    ensures |r| == |items|
    ensures forall i :: 0 <= i < |items| ==> r[i] == Orders.CartLine(items[i].product.id, items[i].quantity)
  {
    seq(|items|, i requires 0 <= i < |items| => Orders.CartLine(items[i].product.id, items[i].quantity))
  }

  /**
   * The client's unit price (`sale_price || price`) and the server's
   * (`sale_price ?? price`) agree when the sale price is absent or non-zero.
   */
  lemma UnitPricesAgree(p: Product, row: ProductRow)
    requires Mirrors(p, row) && SaleAbsentOrNonZero(row)
    ensures ProductCard.DisplayPrice(p) == Orders.UnitPrice(row)
  {
  }

  /**
   * Whenever each product's sale price is absent or non-zero, the totals the
   * cart shows are the totals checkout charges for the same lines.
   */
  lemma {:induction false} TotalsAgreeWithCheckout(items: seq<CartItem>, products: map<int, ProductRow>)
    requires forall i :: 0 <= i < |items| ==> items[i].product.id in products
    requires forall i :: 0 <= i < |items| ==>
      Mirrors(items[i].product, products[items[i].product.id]) && SaleAbsentOrNonZero(products[items[i].product.id])
    ensures Subtotal(items) == Orders.LineAmounts(products, Lines(items))
    ensures CalculateTotals(items) == Orders.OrderTotals(Orders.LineAmounts(products, Lines(items)))
  {
    if |items| > 0 {
      var n := |items| - 1;
      TotalsAgreeWithCheckout(items[..n], products);
      assert Lines(items)[..n] == Lines(items[..n]);
      UnitPricesAgree(items[n].product, products[items[n].product.id]);
    }
  }

  /** A sale price stored as 0.00 reaches the client as 0, which `||` skips: the cart shows the list price, checkout charges 0. */
  lemma ZeroSalePriceDisagrees(p: Product, row: ProductRow)
    requires row.salePrice == Some(Decimal("0.00", 0.0)) && row.price.value == 10.0 && Mirrors(p, row)
    ensures ProductCard.DisplayPrice(p) == 10.0 && Orders.UnitPrice(row) == 0.0
  {
  }

  // ---------------------------------------------------------------------------
  // The provider's state

  /** The `items` state of `CartProvider`. */
  class Cart {
    var items: seq<CartItem>

    /** No two items hold the same product. */
    predicate Valid()
      reads this
    {
      DistinctProducts(items)
    }

    constructor ()
      ensures items == [] && Valid()
    {
      items := [];
    }

    method AddToCart(product: Product, quantity: int, now: int)
      modifies this
      ensures items == Added(old(items), product, quantity, now)
      ensures old(Valid()) ==> Valid()
    {
      if old(Valid()) {
        AddedSpec(items, product, quantity, now);
      }
      items := Added(items, product, quantity, now);
    }

    method UpdateQuantity(itemId: int, quantity: int)
      modifies this
      ensures items == Updated(old(items), itemId, quantity)
      ensures old(Valid()) ==> Valid()
    {
      UpdatedSpec(items, itemId, quantity);
      items := Updated(items, itemId, quantity);
    }

    method RemoveFromCart(itemId: int)
      modifies this
      ensures items == Without(old(items), itemId)
      ensures old(Valid()) ==> Valid()
    {
      WithoutSpec(items, itemId);
      items := Without(items, itemId);
    }

    /** `clearCart` (CartContext.tsx:95-98); the stored copy is left out. */
    method ClearCart()
      modifies this
      ensures items == [] && Valid()
    {
      items := [];
    }

    /** `getItemCount`. */
    function GetItemCount(): (n: int)
      reads this
      ensures items == [] ==> n == 0
    {
      ItemCount(items)
    }
  }
}
