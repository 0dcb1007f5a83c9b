/**
 * The MySQL tables the PHP API reads and writes, as rows and as one mutable
 * store. Columns the schema fills for every row are plain values; nullable
 * columns are `Option`s. DECIMAL columns reach PHP through PDO as text, so a
 * `Decimal` keeps both the text (which decides PHP's `empty()`) and its value.
 */
module Tables {
  import opened Common
  import opened Text

  /** A DECIMAL column as PDO hands it over: its text and the number it denotes. */
  datatype Decimal = Decimal(text: string, value: real)

  /** PHP truthiness of a nullable DECIMAL column: null, "" and "0" are falsy; "0.00" is not. */
  predicate DecimalTruthy(d: Option<Decimal>)
  {
    d.Some? && !PhpEmpty(d.value.text)
  }

  /** PHP truthiness of a nullable INT column. */
  predicate IntTruthy(n: Option<int>)
  {
    n.Some? && n.value != 0
  }

  /** PHP truthiness of a nullable text column. */
  predicate TextTruthy(s: Option<string>)
  {
    s.Some? && !PhpEmpty(s.value)
  }

  /** A row of `users`; `password` holds the password hash. */
  datatype UserRow = UserRow(
    id: int, name: Option<string>, email: string, password: string, role: Option<string>,
    phone: Option<string>, avatar: Option<string>, createdAt: Option<string>, updatedAt: Option<string>)

  /** A row of `products`. `image` is the legacy single-image column. */
  datatype ProductRow = ProductRow(
    id: int, vendorId: int, categoryId: Option<int>, name: string, description: Option<string>,
    price: Decimal, salePrice: Option<Decimal>, brand: Option<string>,
    modelCompatibility: Option<string>, yearRangeStart: Option<int>, yearRangeEnd: Option<int>,
    condition: Option<string>, sku: Option<string>, stock: int, specifications: Option<string>,
    weight: Option<Decimal>, dimensions: Option<string>, warrantyMonths: Option<int>,
    active: bool, image: Option<string>, createdAt: Option<string>, updatedAt: Option<string>)

  /** A row of `product_images`. */
  datatype ImageRow = ImageRow(id: int, productId: int, url: string, isPrimary: bool)

  /** A row of `categories`. */
  datatype CategoryRow = CategoryRow(id: int, name: string, slug: Option<string>, parentId: Option<int>, image: Option<string>)

  /** A JSON object as a list of key/value pairs, in order (the shipping address of an order). */
  type JsonObject = seq<(string, string)>

  /** A row of `orders`. */
  datatype OrderRow = OrderRow(
    id: int, orderNumber: string, customerId: int,
    subtotal: real, shipping: real, tax: real, total: real,
    status: Option<string>, paymentStatus: Option<string>, paymentMethod: Option<string>,
    paymentReference: Option<string>, shippingAddress: JsonObject, notes: Option<string>,
    createdAt: string, updatedAt: string)

  /** A row of `order_items`: a snapshot of the product at checkout time. */
  datatype OrderItemRow = OrderItemRow(
    id: int, orderId: int, productId: int, vendorId: int, productName: string,
    productImage: Option<string>, quantity: int, price: real, total: real)

  /** A row of `addresses`. */
  datatype AddressRow = AddressRow(
    id: int, userId: int, name: string, phone: string, line1: string, line2: Option<string>,
    city: string, state: string, postalCode: string, country: Option<string>, isDefault: int)

  /** `SELECT * FROM users WHERE id = ?`: the first row with that id. */
  function UserById(users: seq<UserRow>, id: int): (r: Option<UserRow>)
    ensures r.None? <==> forall u :: u in users ==> u.id != id
    ensures r.Some? ==> r.value in users && r.value.id == id
  {
    if |users| == 0 then None
    else if users[0].id == id then Some(users[0])
    else
      assert forall u :: u in users ==> u == users[0] || u in users[1..];
      UserById(users[1..], id)
  }

  /** `SELECT * FROM categories WHERE id = ?`: the first row with that id. */
  function CategoryById(categories: seq<CategoryRow>, id: int): (r: Option<CategoryRow>)
    ensures r.None? <==> forall c :: c in categories ==> c.id != id
    ensures r.Some? ==> r.value in categories && r.value.id == id
  {
    if |categories| == 0 then None
    else if categories[0].id == id then Some(categories[0])
    else
      assert forall c :: c in categories ==> c == categories[0] || c in categories[1..];
      CategoryById(categories[1..], id)
  }

  /** `SELECT * FROM orders WHERE id = ?`: the first row with that id. */
  function OrderById(orders: seq<OrderRow>, id: int): (r: Option<OrderRow>)
    ensures r.Some? ==> r.value in orders && r.value.id == id
    ensures r.None? ==> forall o :: o in orders ==> o.id != id
  {
    if |orders| == 0 then None
    else if orders[0].id == id then Some(orders[0])
    else
      assert forall o :: o in orders ==> o == orders[0] || o in orders[1..];
      OrderById(orders[1..], id)
  }

  /** Every product is stored under its own id, and every id lies below the counter. */
  predicate ProductsKeyed(products: map<int, ProductRow>, next: int)
  {
    forall k :: k in products ==> products[k].id == k && k < next
  }

  predicate UserIdsBelow(users: seq<UserRow>, next: int)
  {
    forall i :: 0 <= i < |users| ==> users[i].id < next
  }

  predicate ImageIdsBelow(images: seq<ImageRow>, next: int)
  {
    forall i :: 0 <= i < |images| ==> images[i].id < next
  }

  predicate OrderIdsBelow(orders: seq<OrderRow>, next: int)
  {
    forall i :: 0 <= i < |orders| ==> orders[i].id < next
  }

  predicate ItemIdsBelow(items: seq<OrderItemRow>, next: int)
  {
    forall i :: 0 <= i < |items| ==> items[i].id < next
  }

  /** An INSERT under the counter's id, with the counter moved on, keeps the products keyed. */
  lemma ProductsInsert(products: map<int, ProductRow>, row: ProductRow, next: int)
    requires ProductsKeyed(products, next) && row.id == next
    ensures ProductsKeyed(products[next := row], next + 1)
  {
    var after := products[next := row];
    forall k | k in after
      ensures after[k].id == k && k < next + 1
    {
      if k != next {
        assert k in products;
      }
    }
  }

  /** A DELETE keeps the products keyed. */
  lemma ProductsRemove(products: map<int, ProductRow>, id: int, next: int)
    requires ProductsKeyed(products, next)
    ensures ProductsKeyed(products - {id}, next)
  {
    var after := products - {id};
    forall k | k in after
      ensures after[k].id == k && k < next
    {
      assert k in products;
    }
  }

  /** An UPDATE that keeps the keys and the id column keeps the products keyed. */
  lemma ProductsSameIds(before: map<int, ProductRow>, after: map<int, ProductRow>, next: int)
    requires ProductsKeyed(before, next)
    requires after.Keys == before.Keys && forall k :: k in after ==> after[k].id == before[k].id
    ensures ProductsKeyed(after, next)
  {
    forall k | k in after
      ensures after[k].id == k && k < next
    {
      assert k in before;
    }
  }

  lemma UserIdsAppend(users: seq<UserRow>, u: UserRow, next: int)
    requires UserIdsBelow(users, next) && u.id == next
    ensures UserIdsBelow(users + [u], next + 1)
  {
    forall i | 0 <= i < |users + [u]|
      ensures (users + [u])[i].id < next + 1
    {
      if i < |users| {
        assert (users + [u])[i] == users[i];
      }
    }
  }

  lemma OrderIdsAppend(orders: seq<OrderRow>, o: OrderRow, next: int)
    requires OrderIdsBelow(orders, next) && o.id == next
    ensures OrderIdsBelow(orders + [o], next + 1)
  {
    forall i | 0 <= i < |orders + [o]|
      ensures (orders + [o])[i].id < next + 1
    {
      if i < |orders| {
        assert (orders + [o])[i] == orders[i];
      }
    }
  }

  /** An UPDATE that keeps every row's id keeps the ids below the counter. */
  lemma OrderIdsKept(before: seq<OrderRow>, after: seq<OrderRow>, next: int)
    requires OrderIdsBelow(before, next)
    requires |after| == |before| && forall i :: 0 <= i < |after| ==> after[i].id == before[i].id
    ensures OrderIdsBelow(after, next)
  {
  }

  lemma UserIdsKept(before: seq<UserRow>, after: seq<UserRow>, next: int)
    requires UserIdsBelow(before, next)
    requires |after| == |before| && forall i :: 0 <= i < |after| ==> after[i].id == before[i].id
    ensures UserIdsBelow(after, next)
  {
  }

  lemma ItemIdsAppend(items: seq<OrderItemRow>, added: seq<OrderItemRow>, first: int)
    requires ItemIdsBelow(items, first)
    requires forall i :: 0 <= i < |added| ==> added[i].id == first + i
    ensures ItemIdsBelow(items + added, first + |added|)
  {
    forall i | 0 <= i < |items + added|
      ensures (items + added)[i].id < first + |added|
    {
      if i < |items| {
        assert (items + added)[i] == items[i];
      } else {
        assert (items + added)[i] == added[i - |items|];
      }
    }
  }

  lemma ImageIdsAppend(images: seq<ImageRow>, added: seq<ImageRow>, first: int)
    requires ImageIdsBelow(images, first)
    requires forall i :: 0 <= i < |added| ==> added[i].id == first + i
    ensures ImageIdsBelow(images + added, first + |added|)
  {
    forall i | 0 <= i < |images + added|
      ensures (images + added)[i].id < first + |added|
    {
      if i < |images| {
        assert (images + added)[i] == images[i];
      } else {
        assert (images + added)[i] == added[i - |images|];
      }
    }
  }

  /**
   * The database. Each table is a field the controllers reassign; the `next…`
   * fields are the AUTO_INCREMENT counters behind `lastInsertId()`.
   */
  class Database {
    var users: seq<UserRow>
    var products: map<int, ProductRow>
    var images: seq<ImageRow>
    var categories: seq<CategoryRow>
    var orders: seq<OrderRow>
    var orderItems: seq<OrderItemRow>
    var addresses: seq<AddressRow>
    var nextUserId: int
    var nextProductId: int
    var nextImageId: int
    var nextOrderId: int
    var nextItemId: int

    /**
     * The AUTO_INCREMENT discipline: every stored id lies below its table's
     * counter, so the next insert cannot collide, and a product is stored
     * under its own id.
     */
    predicate Valid()
      reads this
    {
      && ProductsKeyed(products, nextProductId)
      && UserIdsBelow(users, nextUserId)
      && ImageIdsBelow(images, nextImageId)
      && OrderIdsBelow(orders, nextOrderId)
      && ItemIdsBelow(orderItems, nextItemId)
    }

    constructor ()
      ensures Valid()
      ensures users == [] && products == map[] && images == [] && categories == []
      ensures orders == [] && orderItems == [] && addresses == []
      ensures nextUserId == 1 && nextProductId == 1 && nextImageId == 1 && nextOrderId == 1 && nextItemId == 1
    {
      users, products, images, categories := [], map[], [], [];
      orders, orderItems, addresses := [], [], [];
      nextUserId, nextProductId, nextImageId, nextOrderId, nextItemId := 1, 1, 1, 1, 1;
    }
  }
}
