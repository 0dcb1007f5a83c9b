/**
 * The order endpoints of php-api/controllers/orders.php. `checkout` checks
 * every cart line against the live product rows, prices the lines, applies the
 * shipping/tax/total formula, then inserts one order, one item per line and
 * decrements stock, all inside one transaction. `index` and `show` format the
 * stored rows.
 *
 * The stock check reads the stock as it was before checkout: decrements happen
 * only once every line has been checked. Two lines naming the same product are
 * therefore each checked against the full stock, and together can take the
 * stock below zero. `PriceLines` takes a flag: `cumulative == false` is the
 * check as written; `cumulative == true` checks each line against the stock
 * left after the earlier lines of the same cart, which keeps stock non-negative.
 */
module Orders {
  import opened Common
  import opened Text
  import opened Tables
  import Jwt
  import Products

  /** A line of the request's `items` array. */
  datatype CartLine = CartLine(productId: int, quantity: int)

  /** An entry of `$orderItems` (orders.php:159-167): a priced snapshot of one cart line. */
  datatype PricedLine = PricedLine(
    productId: int, vendorId: int, productName: string, productImage: string,
    quantity: int, price: real, total: real)

  /** What `checkout` responds with on success (orders.php:220-229). */
  datatype PlacedOrder = PlacedOrder(id: int, orderNumber: string, total: real, status: string)

  // ---------------------------------------------------------------------------
  // Checking and pricing one line

  /** `SELECT * FROM products WHERE id = ? AND is_active = 1`. */
  function ActiveProduct(products: map<int, ProductRow>, id: int): (r: Option<ProductRow>)
    ensures r.Some? <==> id in products && products[id].active
    ensures r.Some? ==> r.value == products[id]
  {
    if id in products && products[id].active then Some(products[id]) else None
  }

  /** `SELECT url FROM product_images WHERE product_id = ? AND is_primary = 1 LIMIT 1`: the first such row. */
  function PrimaryImage(images: seq<ImageRow>, productId: int): Option<string>
  {
    if |images| == 0 then None
    else if images[0].productId == productId && images[0].isPrimary then Some(images[0].url)
    else PrimaryImage(images[1..], productId)
  }

  /** The primary-image query finds the URL of the first primary row of the product, or nothing when there is none. */
  lemma {:induction false} PrimaryImageSpec(images: seq<ImageRow>, productId: int)
    ensures var r := PrimaryImage(images, productId);
      && (r.None? <==> forall i :: 0 <= i < |images| ==> !(images[i].productId == productId && images[i].isPrimary))
      && (r.Some? ==> exists i :: (0 <= i < |images| && images[i].productId == productId && images[i].isPrimary
            && images[i].url == r.value
            && forall j :: 0 <= j < i ==> !(images[j].productId == productId && images[j].isPrimary)))
  {
    if |images| > 0 && !(images[0].productId == productId && images[0].isPrimary) {
      var r := PrimaryImage(images[1..], productId);
      PrimaryImageSpec(images[1..], productId);
      assert forall i :: 1 <= i < |images| ==> images[i] == images[1..][i - 1];
      if r.Some? {
        var i :| 0 <= i < |images[1..]| && images[1..][i].productId == productId && images[1..][i].isPrimary
          && images[1..][i].url == r.value
          && forall j :: 0 <= j < i ==> !(images[1..][j].productId == productId && images[1..][j].isPrimary);
        assert images[i + 1] == images[1..][i];
      }
    }
  }

  /** The image snapshot of an item (orders.php:153-157): the primary image, else `image ?? ''`. */
  function ItemImage(images: seq<ImageRow>, productId: int, legacy: Option<string>): string
  {
    match PrimaryImage(images, productId)
    case Some(url) => url
    case None => legacy.GetOr("")
  }

  /** `$product['sale_price'] ?? $product['price']`: a sale price of 0 still wins, only null falls back. */
  function UnitPrice(p: ProductRow): (r: real)
    ensures p.salePrice.Some? ==> r == p.salePrice.value.value
    ensures p.salePrice.None? ==> r == p.price.value
  {
    match p.salePrice
    case Some(d) => d.value
    case None => p.price.value
  }

  /** Total quantity that `lines` take of product `id`. */
  function Demand(lines: seq<PricedLine>, id: int): int
  {
    if |lines| == 0 then 0
    else Demand(lines[..|lines| - 1], id) + (if lines[|lines| - 1].productId == id then lines[|lines| - 1].quantity else 0)
  }

  /**
   * The stock a line is checked against. As written (orders.php:144) it is the
   * stored stock; the cumulative check subtracts what earlier lines of the
   * same cart already take.
   */
  function Available(p: ProductRow, productId: int, earlier: seq<PricedLine>, cumulative: bool): int
  {
    if cumulative then p.stock - Demand(earlier, productId) else p.stock
  }

  function NotFound(id: int): HttpError
  {
    HttpError(404, "Product #" + IntToString(id) + " not found")
  }

  function InsufficientStock(name: string): HttpError
  {
    HttpError(400, "Insufficient stock for " + name)
  }

  /**
   * One iteration of the first checkout loop (orders.php:134-168). The row is
   * fetched by `id = ?`, so its id is the line's product id.
   */
  function CheckLine(products: map<int, ProductRow>, images: seq<ImageRow>, earlier: seq<PricedLine>,
                     line: CartLine, cumulative: bool): Result<PricedLine, HttpError>
  {
    match ActiveProduct(products, line.productId)
    case None => Err(NotFound(line.productId))
    case Some(p) =>
      if Available(p, line.productId, earlier, cumulative) < line.quantity then Err(InsufficientStock(p.name))
      else
        var price := UnitPrice(p);
        Ok(PricedLine(line.productId, p.vendorId, p.name, ItemImage(images, line.productId, p.image), line.quantity,
                      price, price * line.quantity as real))
  }

  /**
   * A line fails with 404 when its product is missing or inactive, with 400
   * when the stock it is checked against is short, and otherwise is priced at
   * the product's unit price, with its image and a total of price times quantity.
   */
  lemma CheckLineSpec(products: map<int, ProductRow>, images: seq<ImageRow>, earlier: seq<PricedLine>,
                      line: CartLine, cumulative: bool)
    ensures var r := CheckLine(products, images, earlier, line, cumulative);
      && (ActiveProduct(products, line.productId).None? ==> r == Err(NotFound(line.productId)))
      && (ActiveProduct(products, line.productId).Some?
          && Available(products[line.productId], line.productId, earlier, cumulative) < line.quantity
          ==> r == Err(InsufficientStock(products[line.productId].name)))
      && (r.Ok? <==> (ActiveProduct(products, line.productId).Some?
                       && Available(products[line.productId], line.productId, earlier, cumulative) >= line.quantity))
      && (r.Ok? ==> var p := products[line.productId];
          r.value == PricedLine(line.productId, p.vendorId, p.name, ItemImage(images, line.productId, p.image),
                                line.quantity, UnitPrice(p), UnitPrice(p) * line.quantity as real))
  {
  }

  /**
   * The outcome of the first checkout loop: the priced lines in cart order,
   * or the error of the first line that fails.
   */
  function PriceLines(products: map<int, ProductRow>, images: seq<ImageRow>, items: seq<CartLine>,
                      cumulative: bool): (r: Result<seq<PricedLine>, HttpError>)
    ensures r.Ok? ==> |r.value| == |items|
    ensures r.Ok? ==> forall i :: 0 <= i < |items| ==> r.value[i].productId == items[i].productId
    ensures r.Ok? ==> forall i :: 0 <= i < |items| ==> items[i].productId in products
  {
    if |items| == 0 then Ok([])
    else
      var n := |items| - 1;
      match PriceLines(products, images, items[..n], cumulative)
      case Err(e) => Err(e)
      case Ok(lines) =>
        match CheckLine(products, images, lines, items[n], cumulative)
        case Err(e) => Err(e)
        case Ok(line) => Ok(lines + [line])
  }

  /**
   * What an accepted line satisfies: its product is active, its price is the
   * product's unit price, its total is price times quantity and, as written,
   * its quantity fits the stored stock.
   */
  predicate PricedFrom(products: map<int, ProductRow>, item: CartLine, line: PricedLine, cumulative: bool)
  {
    && item.productId in products && products[item.productId].active
    && line.productId == item.productId
    && line.quantity == item.quantity
    && line.price == UnitPrice(products[item.productId])
    && line.total == line.price * item.quantity as real
    && (!cumulative ==> products[item.productId].stock >= item.quantity)
  }

  /** An accepted cart yields one priced line per cart line, in cart order. */
  lemma {:induction false} PriceLinesSpec(products: map<int, ProductRow>, images: seq<ImageRow>, items: seq<CartLine>,
                                          cumulative: bool)
    requires PriceLines(products, images, items, cumulative).Ok?
    ensures var lines := PriceLines(products, images, items, cumulative).value;
      forall i :: 0 <= i < |items| ==> PricedFrom(products, items[i], lines[i], cumulative)
  {
    if |items| > 0 {
      var n := |items| - 1;
      var lines := PriceLines(products, images, items[..n], cumulative).value;
      var line := CheckLine(products, images, lines, items[n], cumulative).value;
      var all := PriceLines(products, images, items, cumulative).value;
      assert all == lines + [line];
      assert PricedFrom(products, items[n], line, cumulative);
      PriceLinesSpec(products, images, items[..n], cumulative);
      forall i | 0 <= i < |items|
        ensures PricedFrom(products, items[i], all[i], cumulative)
      {
        if i < n {
          assert items[..n][i] == items[i] && all[i] == lines[i];
        }
      }
    }
  }

  /** Once a prefix of the cart fails, the whole cart fails with the same error. */
  lemma {:induction false} PriceLinesPrefixErr(products: map<int, ProductRow>, images: seq<ImageRow>,
                                               items: seq<CartLine>, k: nat, cumulative: bool)
    requires k <= |items|
    requires PriceLines(products, images, items[..k], cumulative).Err?
    ensures PriceLines(products, images, items, cumulative) == PriceLines(products, images, items[..k], cumulative)
    decreases |items|
  {
    if k < |items| {
      var n := |items| - 1;
      assert items[..n][..k] == items[..k];
      PriceLinesPrefixErr(products, images, items[..n], k, cumulative);
    } else {
      assert items[..k] == items;
    }
  }

  /**
   * Pricing one more line of the cart: it fails with that line's error, which
   * is then the whole cart's, or appends its priced line to the subtotal.
   */
  lemma PriceLinesStep(products: map<int, ProductRow>, images: seq<ImageRow>, items: seq<CartLine>, i: nat,
                       lines: seq<PricedLine>, cumulative: bool)
    requires i < |items|
    requires PriceLines(products, images, items[..i], cumulative) == Ok(lines)
    ensures var c := CheckLine(products, images, lines, items[i], cumulative);
      && (c.Err? ==> PriceLines(products, images, items, cumulative) == Err(c.error))
      && (c.Ok? ==> PriceLines(products, images, items[..i + 1], cumulative) == Ok(lines + [c.value])
                    && Subtotal(lines + [c.value]) == Subtotal(lines) + c.value.total)
  {
    var prefix := items[..i + 1];
    assert prefix[..i] == items[..i] && prefix[i] == items[i];
    var c := CheckLine(products, images, lines, items[i], cumulative);
    if c.Err? {
      PriceLinesPrefixErr(products, images, items, i + 1, cumulative);
    } else {
      SubtotalSnoc(lines, c.value);
    }
  }

  /** As written, a cart is accepted exactly when every line, checked on its own, passes. */
  lemma {:induction false} PriceLinesAsWrittenOk(products: map<int, ProductRow>, images: seq<ImageRow>, items: seq<CartLine>)
    ensures PriceLines(products, images, items, false).Ok? <==>
      forall i :: 0 <= i < |items| ==> (items[i].productId in products && products[items[i].productId].active
        && products[items[i].productId].stock >= items[i].quantity)
  {
    if |items| > 0 {
      var n := |items| - 1;
      PriceLinesAsWrittenOk(products, images, items[..n]);
      assert forall i :: 0 <= i < n ==> items[..n][i] == items[i];
    }
  }

  /** Sum of the line totals (orders.php:151). */
  function Subtotal(lines: seq<PricedLine>): real
  {
    if |lines| == 0 then 0.0 else Subtotal(lines[..|lines| - 1]) + lines[|lines| - 1].total
  }

  lemma SubtotalSnoc(lines: seq<PricedLine>, line: PricedLine)
    ensures Subtotal(lines + [line]) == Subtotal(lines) + line.total
  {
    assert (lines + [line])[..|lines|] == lines;
  }

  /** The loop-1 subtotal over a priced cart is the sum of unit price times quantity of each cart line. */
  lemma {:induction false} SubtotalOfPriced(products: map<int, ProductRow>, images: seq<ImageRow>,
                                            items: seq<CartLine>, cumulative: bool)
    requires PriceLines(products, images, items, cumulative).Ok?
    ensures Subtotal(PriceLines(products, images, items, cumulative).value)
      == LineAmounts(products, items)
  {
    if |items| > 0 {
      var n := |items| - 1;
      var lines := PriceLines(products, images, items[..n], cumulative).value;
      var line := CheckLine(products, images, lines, items[n], cumulative).value;
      var all := PriceLines(products, images, items, cumulative).value;
      assert all == lines + [line];
      CheckLineSpec(products, images, lines, items[n], cumulative);
      var amount := UnitPrice(products[items[n].productId]) * items[n].quantity as real;
      assert line.total == amount;
      SubtotalOfPriced(products, images, items[..n], cumulative);
      assert LineAmounts(products, items) == LineAmounts(products, items[..n]) + amount;
      SubtotalSnoc(lines, line);
    }
  }

  /** Sum over cart lines of unit price times quantity, with the products' current prices. */
  function LineAmounts(products: map<int, ProductRow>, items: seq<CartLine>): real
    requires forall i :: 0 <= i < |items| ==> items[i].productId in products
  {
    if |items| == 0 then 0.0
    else
      var n := |items| - 1;
      LineAmounts(products, items[..n]) + UnitPrice(products[items[n].productId]) * items[n].quantity as real
  }

  // ---------------------------------------------------------------------------
  // Totals and order number

  /** The amounts stored on an order. */
  datatype Totals = Totals(subtotal: real, shipping: real, tax: real, total: real)

  /** Shipping is free strictly above 500, else 50 (orders.php:170). */
  function Shipping(subtotal: real): (r: real)
    ensures r == 0.0 <==> subtotal > 500.0
    ensures r == 0.0 || r == 50.0
  {
    if subtotal > 500.0 then 0.0 else 50.0
  }

  /** orders.php:170-172: shipping, 15% tax and their sum with the subtotal. */
  function OrderTotals(subtotal: real): (t: Totals)
    ensures t.subtotal == subtotal && t.shipping == Shipping(subtotal)
    ensures t.tax == subtotal * 0.15
    ensures t.total == t.subtotal + t.shipping + t.tax
    ensures subtotal >= 0.0 ==> t.total >= subtotal
  {
    Totals(subtotal, Shipping(subtotal), subtotal * 0.15, subtotal + Shipping(subtotal) + subtotal * 0.15)
  }

  /** `'BP-' . date('Y') . '-' . str_pad(rand(1, 99999), 5, '0', STR_PAD_LEFT)` with the year and the random draw as inputs. */
  function OrderNumber(year: string, rand: nat): string
  {
    "BP-" + year + "-" + PadLeft(NatToString(rand), 5, '0')
  }

  /**
   * An order number splits on '-' into "BP", the year and a five-digit field
   * whose value is the random draw.
   */
  lemma OrderNumberParts(year: string, rand: nat)
    requires 1 <= rand <= 99999
    requires '-' !in year
    ensures var parts := Split(OrderNumber(year, rand), '-');
      && |parts| == 3 && parts[0] == "BP" && parts[1] == year
      && |parts[2]| == 5
      && (forall i :: 0 <= i < 5 ==> IsDigit(parts[2][i]))
      && DigitsValue(parts[2]) == rand
  {
    var field := PadLeft(NatToString(rand), 5, '0');
    RandField(rand);
    var rest := year + ['-'] + field;
    OrderNumberShape(year, field);
    SplitCons("BP", '-', rest);
    SplitCons(year, '-', field);
    SplitNoSep(field, '-');
  }

  /** The padded draw is five digits, with the draw as their value. */
  lemma RandField(rand: nat)
    requires 1 <= rand <= 99999
    ensures var field := PadLeft(NatToString(rand), 5, '0');
      && |field| == 5 && (forall i :: 0 <= i < 5 ==> IsDigit(field[i]))
      && '-' !in field && DigitsValue(field) == rand
  {
    var digits := NatToString(rand);
    var field := PadLeft(digits, 5, '0');
    assert Pow10(5) == 100000;
    NatToStringLength(rand, 5);
    ZeroPadValue(digits, 5);
    NatToStringValue(rand);
  }

  lemma OrderNumberShape(year: string, field: string)
    ensures "BP-" + year + "-" + field == "BP" + ['-'] + (year + ['-'] + field)
  {
    assert "BP-" == "BP" + ['-'] && "-" == ['-'];
  }

  // ---------------------------------------------------------------------------
  // Writing the order

  /** The `order_items` row of one line (orders.php:197-210). */
  function ItemRow(orderId: int, id: int, l: PricedLine): OrderItemRow
  {
    OrderItemRow(id, orderId, l.productId, l.vendorId, l.productName, Some(l.productImage), l.quantity, l.price, l.total)
  }

  /** Item rows of the second checkout loop (orders.php:196-211), ids allocated from `firstId`. */
  function ItemRows(orderId: int, firstId: int, lines: seq<PricedLine>): (r: seq<OrderItemRow>)
    ensures |r| == |lines|
    ensures forall i :: 0 <= i < |lines| ==> r[i] == OrderItemRow(
      firstId + i, orderId, lines[i].productId, lines[i].vendorId, lines[i].productName,
      Some(lines[i].productImage), lines[i].quantity, lines[i].price, lines[i].total)
  {
    if |lines| == 0 then []
    else
      var n := |lines| - 1;
      ItemRows(orderId, firstId, lines[..n]) + [ItemRow(orderId, firstId + n, lines[n])]
  }

  /**
   * `UPDATE products SET stock = stock - ? WHERE id = ?` (orders.php:213-214)
   * for one line; like the statement, it changes nothing when no product has
   * the id.
   */
  function Decrement(products: map<int, ProductRow>, l: PricedLine): map<int, ProductRow>
  {
    if l.productId in products then
      products[l.productId := products[l.productId].(stock := products[l.productId].stock - l.quantity)]
    else products
  }

  /** The stock updates of the second checkout loop, applied line by line. */
  function ApplyDecrements(products: map<int, ProductRow>, lines: seq<PricedLine>): (r: map<int, ProductRow>)
    ensures r.Keys == products.Keys
  {
    if |lines| == 0 then products
    else Decrement(ApplyDecrements(products, lines[..|lines| - 1]), lines[|lines| - 1])
  }

  /** The stock updates keep every product's id column. */
  lemma {:induction false} DecrementsKeepIds(products: map<int, ProductRow>, lines: seq<PricedLine>)
    ensures forall k :: k in ApplyDecrements(products, lines) ==> ApplyDecrements(products, lines)[k].id == products[k].id
  {
    if |lines| > 0 {
      DecrementsKeepIds(products, lines[..|lines| - 1]);
    }
  }

  /**
   * Each product's stock drops by exactly the quantity the lines take of it;
   * every other column of every product is unchanged.
   */
  lemma {:induction false} DecrementsSpec(products: map<int, ProductRow>, lines: seq<PricedLine>)
    ensures forall id :: id in products ==>
      ApplyDecrements(products, lines)[id] == products[id].(stock := products[id].stock - Demand(lines, id))
  {
    if |lines| > 0 {
      DecrementsSpec(products, lines[..|lines| - 1]);
    }
  }

  /** The row `checkout` inserts into `orders` (orders.php:178-191). */
  function NewOrder(id: int, number: string, customerId: int, t: Totals, address: JsonObject, notes: Option<string>, now: string): OrderRow
  {
    OrderRow(id, number, customerId, t.subtotal, t.shipping, t.tax, t.total,
             Some("pending"), Some("pending"), Some("PayFast"), None, address, notes, now, now)
  }

  /**
   * Everything `checkout` decides before it writes: authentication, the
   * required fields (orders.php:123-125, before any transaction) and the
   * priced lines.
   */
  function CheckoutLines(products: map<int, ProductRow>, images: seq<ImageRow>, auth: Option<Jwt.Claims>,
                         items: seq<CartLine>, address: JsonObject, cumulative: bool)
    : (r: Result<(Jwt.Claims, seq<PricedLine>), HttpError>)
    ensures auth.None? ==> r == Err(HttpError(401, "Unauthorized"))
    ensures auth.Some? && (|items| == 0 || |address| == 0) ==> r == Err(HttpError(422, "Items and shipping address are required"))
    ensures auth.Some? && |items| > 0 && |address| > 0 ==>
      match PriceLines(products, images, items, cumulative)
      case Ok(lines) => r == Ok((auth.value, lines))
      case Err(e) => r == Err(e)
  {
    match Jwt.RequireAuth(auth)
    case Err(e) => Err(e)
    case Ok(c) =>
      if |items| == 0 || |address| == 0 then Err(HttpError(422, "Items and shipping address are required"))
      else
        match PriceLines(products, images, items, cumulative)
        case Err(e) => Err(e)
        case Ok(lines) => Ok((c, lines))
  }

  /** The first checkout loop (orders.php:131-168): read-only, it prices the cart and accumulates the subtotal. */
  method PriceCart(products: map<int, ProductRow>, images: seq<ImageRow>, items: seq<CartLine>, cumulative: bool)
    returns (r: Result<seq<PricedLine>, HttpError>, subtotal: real)
    ensures r == PriceLines(products, images, items, cumulative)
    ensures r.Ok? ==> subtotal == Subtotal(r.value)
  {
    var lines: seq<PricedLine> := [];
    subtotal := 0.0;
    var i := 0;
    while i < |items|
      invariant 0 <= i <= |items|
      invariant PriceLines(products, images, items[..i], cumulative) == Ok(lines)
      invariant subtotal == Subtotal(lines)
    {
      var c := CheckLine(products, images, lines, items[i], cumulative);
      PriceLinesStep(products, images, items, i, lines, cumulative);
      if c.Err? {
        return Err(c.error), 0.0;
      }
      lines := lines + [c.value];
      subtotal := subtotal + c.value.total;
      i := i + 1;
    }
    assert items[..i] == items;
    r := Ok(lines);
  }

  /** The second checkout loop (orders.php:196-215): insert the item rows and decrement stock. */
  method WriteItems(db: Database, orderId: int, lines: seq<PricedLine>)
    modifies db`orderItems, db`products, db`nextItemId
    ensures db.orderItems == old(db.orderItems) + ItemRows(orderId, old(db.nextItemId), lines)
    ensures db.products == ApplyDecrements(old(db.products), lines)
    ensures db.nextItemId == old(db.nextItemId) + |lines|
  {
    var i := 0;
    while i < |lines|
      invariant 0 <= i <= |lines|
      invariant db.orderItems == old(db.orderItems) + ItemRows(orderId, old(db.nextItemId), lines[..i])
      invariant db.products == ApplyDecrements(old(db.products), lines[..i])
      invariant db.nextItemId == old(db.nextItemId) + i
    {
      WriteStep(orderId, old(db.nextItemId), old(db.products), lines, i);
      ghost var rows := db.orderItems;
      WriteLine(db, orderId, lines[i]);
      assert db.orderItems == rows + [ItemRow(orderId, old(db.nextItemId) + i, lines[i])];
      i := i + 1;
    }
    assert lines[..i] == lines;
  }

  /** One iteration of the second loop: insert the line's row under the next id, then take its quantity off the stock. */
  method WriteLine(db: Database, orderId: int, l: PricedLine)
    modifies db`orderItems, db`products, db`nextItemId
    ensures db.orderItems == old(db.orderItems) + [ItemRow(orderId, old(db.nextItemId), l)]
    ensures db.products == Decrement(old(db.products), l)
    ensures db.nextItemId == old(db.nextItemId) + 1
  {
    db.orderItems := db.orderItems + [ItemRow(orderId, db.nextItemId, l)];
    db.nextItemId := db.nextItemId + 1;
    if l.productId in db.products {
      var p := db.products[l.productId];
      db.products := db.products[l.productId := p.(stock := p.stock - l.quantity)];
    }
  }

  /** Writing one more line appends its row and applies its decrement. */
  lemma WriteStep(orderId: int, firstId: int, products: map<int, ProductRow>, lines: seq<PricedLine>, i: nat)
    requires i < |lines|
    ensures ItemRows(orderId, firstId, lines[..i + 1])
      == ItemRows(orderId, firstId, lines[..i]) + [ItemRow(orderId, firstId + i, lines[i])]
    ensures ApplyDecrements(products, lines[..i + 1]) == Decrement(ApplyDecrements(products, lines[..i]), lines[i])
  {
    assert lines[..i + 1][..i] == lines[..i];
  }

  /** The INSERT of orders.php:178-194 under the next order id (`lastInsertId`), then the item loop. */
  method InsertOrder(db: Database, order: OrderRow, lines: seq<PricedLine>)
    modifies db`orders, db`orderItems, db`products, db`nextOrderId, db`nextItemId
    requires db.Valid() && order.id == db.nextOrderId
    ensures db.Valid()
    ensures db.orders == old(db.orders) + [order] && db.nextOrderId == order.id + 1
    ensures db.orderItems == old(db.orderItems) + ItemRows(order.id, old(db.nextItemId), lines)
    ensures db.products == ApplyDecrements(old(db.products), lines)
    ensures db.nextItemId == old(db.nextItemId) + |lines|
  {
    db.orders := db.orders + [order];
    db.nextOrderId := db.nextOrderId + 1;
    WriteItems(db, order.id, lines);
    OrderIdsAppend(old(db.orders), order, order.id);
    ItemIdsAppend(old(db.orderItems), ItemRows(order.id, old(db.nextItemId), lines), old(db.nextItemId));
    DecrementsKeepIds(old(db.products), lines);
    ProductsSameIds(old(db.products), db.products, db.nextProductId);
  }

  /**
   * `checkout` (orders.php:118-235). `year`, `rand` and `now` stand for
   * `date('Y')`, `rand(1, 99999)` and MySQL's `NOW()`. On any error nothing is written (the 422 check
   * precedes the transaction; a failing line rolls it back before any write).
   */
  method Checkout(db: Database, auth: Option<Jwt.Claims>, items: seq<CartLine>, address: JsonObject,
                  notes: Option<string>, year: string, rand: nat, now: string, cumulative: bool)
    returns (r: Result<PlacedOrder, HttpError>)
    requires 1 <= rand <= 99999
    modifies db`orders, db`orderItems, db`products, db`nextOrderId, db`nextItemId
    requires db.Valid()
    ensures db.Valid()
    ensures var v := CheckoutLines(old(db.products), db.images, auth, items, address, cumulative);
      && (r.Err? <==> v.Err?)
      && (r.Err? ==>
            && r.error == v.error
            && db.orders == old(db.orders) && db.orderItems == old(db.orderItems)
            && db.products == old(db.products)
            && db.nextOrderId == old(db.nextOrderId) && db.nextItemId == old(db.nextItemId))
      && (r.Ok? ==>
            var lines := v.value.1;
            var t := OrderTotals(Subtotal(lines));
            var id := old(db.nextOrderId);
            && r.value == PlacedOrder(id, OrderNumber(year, rand), t.total, "pending")
            && db.orders == old(db.orders) + [NewOrder(id, OrderNumber(year, rand), v.value.0.userId, t, address, notes, now)]
            && db.orderItems == old(db.orderItems) + ItemRows(id, old(db.nextItemId), lines)
            && db.products == ApplyDecrements(old(db.products), lines)
            && db.nextOrderId == id + 1 && db.nextItemId == old(db.nextItemId) + |lines|)
  {
    var claims := Jwt.RequireAuth(auth);
    if claims.Err? {
      return Err(claims.error);
    }
    if |items| == 0 || |address| == 0 {
      return Err(HttpError(422, "Items and shipping address are required"));
    }
    var priced, subtotal := PriceCart(db.products, db.images, items, cumulative);
    if priced.Err? {
      return Err(priced.error);
    }
    var lines := priced.value;
    var t := OrderTotals(subtotal);
    var number := OrderNumber(year, rand);
    var id := db.nextOrderId;
    InsertOrder(db, NewOrder(id, number, claims.value.userId, t, address, notes, now), lines);
    r := Ok(PlacedOrder(id, number, t.total, "pending"));
  }

  // ---------------------------------------------------------------------------
  // Stock after checkout

  /** Demand of lines whose product ids are pairwise distinct: the one matching line's quantity, or 0. */
  lemma {:induction false} DemandDistinct(lines: seq<PricedLine>, id: int)
    requires forall i, j :: 0 <= i < j < |lines| ==> lines[i].productId != lines[j].productId
    ensures (forall i :: 0 <= i < |lines| ==> lines[i].productId != id) ==> Demand(lines, id) == 0
    ensures forall i :: 0 <= i < |lines| && lines[i].productId == id ==> Demand(lines, id) == lines[i].quantity
  {
    if |lines| > 0 {
      var n := |lines| - 1;
      DemandDistinct(lines[..n], id);
      if lines[n].productId == id {
        assert forall i :: 0 <= i < n ==> lines[..n][i].productId != id;
      }
    }
  }

  /**
   * As written, stock stays non-negative when the cart's product ids are
   * pairwise distinct: each product is then decremented by one line that was
   * checked against its stock.
   */
  lemma DistinctLinesKeepStock(products: map<int, ProductRow>, images: seq<ImageRow>, items: seq<CartLine>)
    requires forall id :: id in products ==> products[id].stock >= 0
    requires forall i, j :: 0 <= i < j < |items| ==> items[i].productId != items[j].productId
    requires PriceLines(products, images, items, false).Ok?
    ensures var lines := PriceLines(products, images, items, false).value;
      forall id :: id in products ==> ApplyDecrements(products, lines)[id].stock >= 0
  {
    var lines := PriceLines(products, images, items, false).value;
    DecrementsSpec(products, lines);
    forall id | id in products
      ensures ApplyDecrements(products, lines)[id].stock >= 0
    {
      DemandDistinct(lines, id);
    }
  }

  /** A product with one unit in stock. */
  function OneInStock(): ProductRow
  {
    ProductRow(1, 7, None, "Brake pad", None, Decimal("100.00", 100.0), None, None, None, None, None,
               None, None, 1, None, None, None, None, true, None, None, None)
  }

  /**
   * The check as written lets two lines for the same product through when
   * each fits the stock on its own: with one unit in stock, a cart of two
   * one-unit lines is accepted and the stock becomes -1.
   */
  lemma DuplicateLinesOversell()
    ensures var products := map[1 := OneInStock()];
      var items := [CartLine(1, 1), CartLine(1, 1)];
      var r := PriceLines(products, [], items, false);
      && r.Ok?
      && ApplyDecrements(products, r.value)[1].stock == -1
  {
    var products := map[1 := OneInStock()];
    var line := OneUnitLine();
    TwoOneUnitLinesPriced();
    DecrementsSpec(products, [line, line]);
    TwoLinesDemand(line);
    assert ApplyDecrements(products, [line, line])[1].stock == OneInStock().stock - 2;
  }

  /** As written, the cart of two one-unit lines of `OneInStock` is priced line by line. */
  lemma TwoOneUnitLinesPriced()
    ensures PriceLines(map[1 := OneInStock()], [], [CartLine(1, 1), CartLine(1, 1)], false)
      == Ok([OneUnitLine(), OneUnitLine()])
  {
    var products := map[1 := OneInStock()];
    var items := [CartLine(1, 1), CartLine(1, 1)];
    var line := OneUnitLine();
    assert items[..0] == [];
    OneInStockAccepts([]);
    PriceLinesStep(products, [], items, 0, [], false);
    assert [] + [line] == [line];
    OneInStockAccepts([line]);
    PriceLinesStep(products, [], items, 1, [line], false);
    assert items[..2] == items && [line] + [line] == [line, line];
  }

  /** The priced line of one unit of `OneInStock`. */
  function OneUnitLine(): PricedLine
  {
    PricedLine(1, 7, "Brake pad", "", 1, 100.0, 100.0)
  }

  /** As written, a one-unit line of `OneInStock` passes whatever lines precede it. */
  lemma OneInStockAccepts(earlier: seq<PricedLine>)
    ensures CheckLine(map[1 := OneInStock()], [], earlier, CartLine(1, 1), false) == Ok(OneUnitLine())
  {
    var p := OneInStock();
    assert ActiveProduct(map[1 := p], 1) == Some(p);
    assert Available(p, 1, earlier, false) == 1;
    assert ItemImage([], 1, p.image) == "";
    assert UnitPrice(p) == 100.0;
  }

  lemma TwoLinesDemand(line: PricedLine)
    requires line.productId == 1 && line.quantity == 1
    ensures Demand([line, line], 1) == 2
  {
    assert [line, line][..1] == [line] && [line][..0] == [];
    assert Demand([line], 1) == Demand([], 1) + 1;
    assert Demand([line, line], 1) == Demand([line], 1) + 1;
  }

  /** With the cumulative check, the lines of an accepted cart never take more than a product's stock. */
  lemma {:induction false} CumulativeDemandBounded(products: map<int, ProductRow>, images: seq<ImageRow>, items: seq<CartLine>)
    requires forall id :: id in products ==> products[id].stock >= 0
    requires PriceLines(products, images, items, true).Ok?
    ensures var lines := PriceLines(products, images, items, true).value;
      forall id :: id in products ==> Demand(lines, id) <= products[id].stock
  {
    if |items| > 0 {
      var n := |items| - 1;
      CumulativeDemandBounded(products, images, items[..n]);
      var lines := PriceLines(products, images, items[..n], true).value;
      var line := CheckLine(products, images, lines, items[n], true).value;
      var all := PriceLines(products, images, items, true).value;
      assert all == lines + [line];
      assert all[..|lines|] == lines;
      forall id | id in products
        ensures Demand(all, id) <= products[id].stock
      {
        assert Demand(all, id) == Demand(lines, id) + (if line.productId == id then line.quantity else 0);
      }
    }
  }

  /** With the cumulative check, no checkout takes a product's stock below zero. */
  lemma CumulativeCheckKeepsStock(products: map<int, ProductRow>, images: seq<ImageRow>, items: seq<CartLine>)
    requires forall id :: id in products ==> products[id].stock >= 0
    requires PriceLines(products, images, items, true).Ok?
    ensures var lines := PriceLines(products, images, items, true).value;
      forall id :: id in products ==> ApplyDecrements(products, lines)[id].stock >= 0
  {
    var lines := PriceLines(products, images, items, true).value;
    CumulativeDemandBounded(products, images, items);
    DecrementsSpec(products, lines);
  }

  // ---------------------------------------------------------------------------
  // index and show

  /** An order item as `index`/`show` return it (orders.php:22-35). */
  datatype FormattedItem = FormattedItem(
    id: int, productId: int, productName: string, productImage: string, quantity: int, price: real, total: real)

  /** An order as `index`/`show` return it (orders.php:42-58). */
  datatype FormattedOrder = FormattedOrder(
    id: int, orderNumber: string, customerId: int, items: seq<FormattedItem>,
    subtotal: real, shipping: real, tax: real, total: real,
    status: string, paymentStatus: string, paymentMethod: string,
    shippingAddress: JsonObject, notes: Option<string>, createdAt: string, updatedAt: string)

  /**
   * `product_image ?? ''`, made absolute only when PHP-truthy (orders.php:23-26):
   * "" and "0" are returned as they are.
   */
  function ItemImageUrl(stored: Option<string>): (r: string)
    ensures PhpEmpty(stored.GetOr("")) ==> r == stored.GetOr("")
    ensures !PhpEmpty(stored.GetOr("")) ==> StartsWith(r, "http")
    ensures !PhpEmpty(stored.GetOr("")) && StartsWith(stored.value, "http") ==> r == stored.value
  {
    var url := stored.GetOr("");
    if !PhpEmpty(url) then Products.AbsoluteUrl(url) else url
  }

  /** Formatting an item URL twice is the same as once. */
  lemma ItemImageUrlIdempotent(stored: Option<string>)
    ensures ItemImageUrl(Some(ItemImageUrl(stored))) == ItemImageUrl(stored)
  {
    var url := stored.GetOr("");
    if !PhpEmpty(url) {
      Products.AbsoluteUrlIdempotent(url);
    }
  }

  /** An item of the response: the row's columns, with the image made absolute (orders.php:22-35). */
  function FormatItem(row: OrderItemRow): (r: FormattedItem)
    ensures r.id == row.id && r.productId == row.productId && r.productName == row.productName
    ensures r.quantity == row.quantity && r.price == row.price && r.total == row.total
    ensures r.productImage == ItemImageUrl(row.productImage)
  {
    FormattedItem(row.id, row.productId, row.productName, ItemImageUrl(row.productImage), row.quantity, row.price, row.total)
  }

  /** `SELECT * FROM order_items WHERE order_id = ?`, in table order. */
  function ItemsOf(rows: seq<OrderItemRow>, orderId: int): (r: seq<OrderItemRow>)
    ensures forall i :: 0 <= i < |r| ==> r[i] in rows && r[i].orderId == orderId
    ensures forall row :: row in rows && row.orderId == orderId ==> row in r
  {
    if |rows| == 0 then []
    else
      var rest := ItemsOf(rows[..|rows| - 1], orderId);
      var last := rows[|rows| - 1];
      if last.orderId == orderId then rest + [last] else rest
  }

  /** The formatted order, with `pending`/`pending`/`PayFast` for null status columns (orders.php:42-58). */
  function FormatOrder(o: OrderRow, items: seq<OrderItemRow>): (r: FormattedOrder)
    ensures |r.items| == |items| && forall i :: 0 <= i < |items| ==> r.items[i] == FormatItem(items[i])
    ensures r.status == o.status.GetOr("pending") && r.paymentStatus == o.paymentStatus.GetOr("pending")
    ensures r.paymentMethod == o.paymentMethod.GetOr("PayFast")
    ensures r.id == o.id && r.orderNumber == o.orderNumber && r.customerId == o.customerId
    ensures r.subtotal == o.subtotal && r.shipping == o.shipping && r.tax == o.tax && r.total == o.total
    ensures r.shippingAddress == o.shippingAddress && r.notes == o.notes
    ensures r.createdAt == o.createdAt && r.updatedAt == o.updatedAt
  {
    FormattedOrder(o.id, o.orderNumber, o.customerId, seq(|items|, i requires 0 <= i < |items| => FormatItem(items[i])),
                   o.subtotal, o.shipping, o.tax, o.total,
                   o.status.GetOr("pending"), o.paymentStatus.GetOr("pending"), o.paymentMethod.GetOr("PayFast"),
                   o.shippingAddress, o.notes, o.createdAt, o.updatedAt)
  }

  /** `SELECT * FROM orders WHERE customer_id = ?`, in table order: each of the customer's rows as often as the table holds it, and no other. */
  function OwnOrders(orders: seq<OrderRow>, userId: int): (r: seq<OrderRow>)
    ensures forall i :: 0 <= i < |r| ==> r[i] in orders && r[i].customerId == userId
    ensures forall o :: multiset(r)[o] == if o.customerId == userId then multiset(orders)[o] else 0
  {
    if |orders| == 0 then []
    else
      var init := orders[..|orders| - 1];
      var o := orders[|orders| - 1];
      assert orders == init + [o];
      OwnOrders(init, userId) + (if o.customerId == userId then [o] else [])
  }

  /** Every order row of the customer is among the selected rows. */
  lemma OwnOrdersComplete(orders: seq<OrderRow>, userId: int)
    ensures forall o :: o in orders && o.customerId == userId ==> o in OwnOrders(orders, userId)
  {
    forall o | o in orders && o.customerId == userId
      ensures o in OwnOrders(orders, userId)
    {
      assert multiset(OwnOrders(orders, userId))[o] > 0;
    }
  }

  /**
   * `index` (orders.php:6-62): the caller's orders, each formatted with its
   * items; every one of them is listed, once per row, and nothing else is.
   * `userId` is the verified caller's: the 401 without a token is `Jwt.RequireAuth`.
   */
  function Index(orders: seq<OrderRow>, items: seq<OrderItemRow>, userId: int): (r: seq<FormattedOrder>)
    ensures |r| == |OwnOrders(orders, userId)|
    ensures forall i :: 0 <= i < |r| ==>
      r[i] == FormatOrder(OwnOrders(orders, userId)[i], ItemsOf(items, OwnOrders(orders, userId)[i].id))
    ensures forall i :: 0 <= i < |r| ==> r[i].customerId == userId
    ensures forall o :: o in orders && o.customerId == userId ==> FormatOrder(o, ItemsOf(items, o.id)) in r
  {
    var own := OwnOrders(orders, userId);
    var r := FormatOrders(own, items);
    OwnOrdersComplete(orders, userId);
    forall o | o in orders && o.customerId == userId
      ensures FormatOrder(o, ItemsOf(items, o.id)) in r
    {
      FormattedListed(own, items, o);
    }
    r
  }

  /** Each selected row formatted with its items, in order. */
  function FormatOrders(own: seq<OrderRow>, items: seq<OrderItemRow>): (r: seq<FormattedOrder>)
    ensures |r| == |own| && forall i :: 0 <= i < |own| ==> r[i] == FormatOrder(own[i], ItemsOf(items, own[i].id))
  {
    seq(|own|, i requires 0 <= i < |own| => FormatOrder(own[i], ItemsOf(items, own[i].id)))
  }

  /** A selected row appears, formatted, in the list. */
  lemma FormattedListed(own: seq<OrderRow>, items: seq<OrderItemRow>, o: OrderRow)
    requires o in own
    ensures FormatOrder(o, ItemsOf(items, o.id)) in FormatOrders(own, items)
  {
    var j :| 0 <= j < |own| && own[j] == o;
    assert FormatOrders(own, items)[j] == FormatOrder(o, ItemsOf(items, o.id));
  }

  /** The first order with this id and customer. */
  function FindOrder(orders: seq<OrderRow>, id: int, userId: int): (r: Option<OrderRow>)
    ensures r.None? <==> forall o :: o in orders ==> !(o.id == id && o.customerId == userId)
    ensures r.Some? ==> r.value in orders && r.value.id == id && r.value.customerId == userId
  {
    if |orders| == 0 then None
    else if orders[0].id == id && orders[0].customerId == userId then Some(orders[0])
    else
      var r := FindOrder(orders[1..], id, userId);
      assert forall o :: o in orders ==> o == orders[0] || o in orders[1..];
      r
  }

  /**
   * `show` (orders.php:64-116): 404 unless the order exists and belongs to the caller.
   * `userId` is the verified caller's: the 401 without a token is `Jwt.RequireAuth`.
   */
  function Show(orders: seq<OrderRow>, items: seq<OrderItemRow>, id: int, userId: int): (r: Result<FormattedOrder, HttpError>)
    ensures r.Err? <==> forall o :: o in orders ==> !(o.id == id && o.customerId == userId)
    ensures r.Err? ==> r.error == HttpError(404, "Order not found")
    ensures r.Ok? ==> r.value.id == id && r.value.customerId == userId
    ensures r.Ok? ==> r.value == FormatOrder(FindOrder(orders, id, userId).value, ItemsOf(items, id))
  {
    match FindOrder(orders, id, userId)
    case None => Err(HttpError(404, "Order not found"))
    case Some(o) => Ok(FormatOrder(o, ItemsOf(items, o.id)))
  }
}
