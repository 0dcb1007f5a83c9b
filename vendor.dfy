/**
 * Vendor product maintenance, php-api/controllers/vendor.php. Every operation
 * first requires the `vendor` role. `createProduct` validates, fills defaults,
 * parses the compatibility list and stores the uploads, marking only the first
 * one primary; `updateProduct` builds an UPDATE from an allowlist of body keys;
 * `deleteProduct` removes a product the caller owns; `sales` lists the
 * caller's order items.
 *
 * The request body is form data: a map from field names to strings. JSON
 * encoding, the float/DECIMAL conversion of prices and the upload moves are
 * parameters.
 */
module Vendor {
  import opened Common
  import opened Text
  import opened Tables
  import opened Sql
  import Jwt
  import Products
  import Numeric
  import Orders

  /** `$_POST`: the submitted form fields. */
  type Body = map<string, string>

  /** `$data[key] ?? default`. */
  function ValueOr(data: Body, key: string, default: string): string
  {
    if key in data then data[key] else default
  }

  // ---------------------------------------------------------------------------
  // Compatibility lists

  /** A PHP array of strings: its entries as (key, value) pairs in order. */
  type PhpArray = seq<(int, string)>

  /** `json_encode` writes a JSON list only when the keys are 0, 1, 2, ...; otherwise an object. */
  predicate IsList(a: PhpArray)
  {
    forall j :: 0 <= j < |a| ==> a[j].0 == j
  }

  /** `array_map('trim', $parts)`. */
  function TrimAll(parts: seq<string>): (r: seq<string>)
    ensures |r| == |parts| && forall i :: 0 <= i < |parts| ==> r[i] == Trim(parts[i])
  {
    seq(|parts|, i requires 0 <= i < |parts| => Trim(parts[i]))
  }

  /**
   * `array_filter($values)` on a list: the values that are not PHP-empty,
   * each under its original index (array_filter keeps keys).
   */
  function FilterEmpty(values: seq<string>): (r: PhpArray)
    ensures forall j :: 0 <= j < |r| ==> 0 <= r[j].0 < |values| && r[j].1 == values[r[j].0] && !PhpEmpty(r[j].1)
  {
    if |values| == 0 then []
    else
      var n := |values| - 1;
      var rest := FilterEmpty(values[..n]);
      if PhpEmpty(values[n]) then rest else rest + [(n, values[n])]
  }

  /** The keys of `a` increase: its entries are in the order of their keys. */
  predicate KeysIncreasing(a: PhpArray)
  {
    forall j, l :: 0 <= j < l < |a| ==> a[j].0 < a[l].0
  }

  /** The kept entries stay in their original order. */
  lemma {:induction false} FilterEmptyOrdered(values: seq<string>)
    ensures KeysIncreasing(FilterEmpty(values))
  {
    if |values| > 0 {
      var n := |values| - 1;
      var rest := FilterEmpty(values[..n]);
      FilterEmptyOrdered(values[..n]);
      if !PhpEmpty(values[n]) {
        var r := rest + [(n, values[n])];
        assert FilterEmpty(values) == r;
        forall j, l | 0 <= j < l < |r|
          ensures r[j].0 < r[l].0
        {
          assert r[j] == rest[j];
          assert rest[j].0 < |values[..n]| == n;
          if l < |rest| {
            assert r[l] == rest[l];
            assert rest[j].0 < rest[l].0;
          } else {
            assert r[l] == (n, values[n]);
          }
        }
      } else {
        assert FilterEmpty(values) == rest;
      }
    }
  }

  /** Every value that is not PHP-empty is kept, under its own index. */
  lemma {:induction false} FilterEmptyComplete(values: seq<string>)
    ensures forall i :: 0 <= i < |values| && !PhpEmpty(values[i]) ==> (i, values[i]) in FilterEmpty(values)
  {
    if |values| > 0 {
      var n := |values| - 1;
      FilterEmptyComplete(values[..n]);
      assert forall i :: 0 <= i < n ==> values[..n][i] == values[i];
    }
  }

  /** vendor.php:96 and 189 as written: split on newline, trim, drop empty parts, keep the keys. */
  function CompatEntries(s: string): PhpArray
  {
    FilterEmpty(TrimAll(Split(s, '\n')))
  }

  lemma SplitBlankLine()
    ensures Split("a\n\nb", '\n') == ["a", "", "b"]
  {
    assert "a\n\nb" == "a" + ['\n'] + ("" + ['\n'] + "b");
    SplitCons("a", '\n', "" + ['\n'] + "b");
    SplitCons("", '\n', "b");
    SplitNoSep("b", '\n');
  }

  /** `array_map('trim', ...)` leaves parts without whitespace at their ends as they are. */
  lemma TrimAllKeeps(parts: seq<string>)
    requires forall i :: 0 <= i < |parts| ==> parts[i] == [] || (!IsPhpSpace(parts[i][0]) && !IsPhpSpace(parts[i][|parts[i]| - 1]))
    ensures TrimAll(parts) == parts
  {
    forall i | 0 <= i < |parts|
      ensures TrimAll(parts)[i] == parts[i]
    {
      TrimKeeps(parts[i]);
    }
  }

  lemma FilterBlankLine()
    ensures FilterEmpty(["a", "", "b"]) == [(0, "a"), (2, "b")]
  {
    var values: seq<string> := ["a", "", "b"];
    assert values[..2] == ["a", ""] && values[..2][..1] == ["a"] && ["a"][..0] == [];
    assert FilterEmpty(["a"]) == [(0, "a")];
    assert FilterEmpty(["a", ""]) == [(0, "a")];
  }

  /**
   * A blank line in the compatibility text leaves a gap in the keys, so the
   * stored JSON is an object, not the list of strings the client expects.
   */
  lemma BlankLineBreaksList()
    ensures CompatEntries("a\n\nb") == [(0, "a"), (2, "b")]
    ensures !IsList(CompatEntries("a\n\nb"))
  {
    var parts := Split("a\n\nb", '\n');
    SplitBlankLine();
    TrimAllKeeps(parts);
    FilterBlankLine();
    assert CompatEntries("a\n\nb") == FilterEmpty(TrimAll(parts));
    var e := FilterEmpty(parts);
    assert e[1].0 != 1;
  }

  /** The compatibility list as intended: the kept values, re-keyed 0, 1, 2, ... (`array_values`). */
  function CompatList(s: string): (r: PhpArray)
    ensures IsList(r)
    ensures |r| == |CompatEntries(s)| && forall j :: 0 <= j < |r| ==> r[j].1 == CompatEntries(s)[j].1
  {
    var e := CompatEntries(s);
    seq(|e|, j requires 0 <= j < |e| => (j, e[j].1))
  }

  /**
   * The array the controllers encode for a compatibility text: `CompatEntries`
   * as written (`corrected` false), or the re-keyed `CompatList`.
   */
  function CompatStored(s: string, corrected: bool): (r: PhpArray)
    ensures corrected ==> IsList(r)
    ensures |r| == |CompatEntries(s)| && forall j :: 0 <= j < |r| ==> r[j].1 == CompatEntries(s)[j].1
    ensures !corrected ==> forall j :: 0 <= j < |r| ==> r[j].0 == CompatEntries(s)[j].0
  {
    if corrected then CompatList(s) else CompatEntries(s)
  }

  /** For "a\n\nb" the code as written stores keys 0 and 2; the corrected code stores 0 and 1. */
  lemma StoredBlankLine()
    ensures CompatStored("a\n\nb", false) == [(0, "a"), (2, "b")]
    ensures CompatStored("a\n\nb", true) == [(0, "a"), (1, "b")]
  {
    var s := "a\n\nb";
    BlankLineBreaksList();
    assert CompatStored(s, false) == CompatEntries(s);
    assert CompatStored(s, true) == CompatList(s);
    RekeyedPair(CompatList(s), CompatEntries(s));
  }

  lemma RekeyedPair(r: PhpArray, e: PhpArray)
    requires |r| == |e| == 2 && IsList(r) && r[0].1 == e[0].1 && r[1].1 == e[1].1
    ensures r == [(0, e[0].1), (1, e[1].1)]
  {
    assert r[0].0 == 0 && r[1].0 == 1;
  }

  /** Every line of the text with something other than whitespace is in the list, trimmed, and every entry is such a line. */
  lemma CompatListKeepsLines(s: string)
    ensures var parts := Split(s, '\n'); var r := CompatList(s);
      && (forall j :: 0 <= j < |r| ==> !PhpEmpty(r[j].1) && '\n' !in r[j].1)
      && (forall i :: 0 <= i < |parts| && !PhpEmpty(Trim(parts[i])) ==> exists j :: 0 <= j < |r| && r[j].1 == Trim(parts[i]))
  {
    var parts := Split(s, '\n');
    var e := CompatEntries(s);
    var r := CompatList(s);
    CompatEntriesPlain(s);
    forall i | 0 <= i < |parts| && !PhpEmpty(Trim(parts[i]))
      ensures exists j :: 0 <= j < |r| && r[j].1 == Trim(parts[i])
    {
      var j := CompatEntryOf(s, i);
      assert r[j].1 == e[j].1;
    }
  }

  /** The kept entries are trimmed lines of the text with something in them, so none holds a newline. */
  lemma CompatEntriesPlain(s: string)
    ensures var e := CompatEntries(s); forall j :: 0 <= j < |e| ==> !PhpEmpty(e[j].1) && '\n' !in e[j].1
  {
    var parts := Split(s, '\n');
    var trimmed := TrimAll(parts);
    var e := FilterEmpty(trimmed);
    assert e == CompatEntries(s);
    forall j | 0 <= j < |e|
      ensures '\n' !in e[j].1
    {
      var k := e[j].0;
      assert e[j].1 == trimmed[k] == Trim(parts[k]);
      assert '\n' !in parts[k];
      TrimSubstring(parts[k]);
    }
  }

  /** A line with something other than whitespace has its trimmed text among the kept entries, at `j`. */
  lemma CompatEntryOf(s: string, i: nat) returns (j: nat)
    requires i < |Split(s, '\n')| && !PhpEmpty(Trim(Split(s, '\n')[i]))
    ensures j < |CompatEntries(s)| && CompatEntries(s)[j].1 == Trim(Split(s, '\n')[i])
  {
    var parts := Split(s, '\n');
    var trimmed := TrimAll(parts);
    var e := FilterEmpty(trimmed);
    assert e == CompatEntries(s);
    FilterEmptyComplete(trimmed);
    assert !PhpEmpty(trimmed[i]);
    assert (i, trimmed[i]) in e;
    j :| 0 <= j < |e| && e[j] == (i, trimmed[i]);
  }

  /** What `trim` keeps is a piece of its input. */
  lemma TrimSubstring(s: string)
    ensures forall c :: c in Trim(s) ==> c in s
  {
    var l := TrimLeft(s);
    var t := TrimRight(l);
    assert Trim(s) == t;
    forall c | c in t
      ensures c in s
    {
      var k :| 0 <= k < |t| && t[k] == c;
      assert t[k] == l[k] == s[|s| - |l| + k];
    }
  }

  // ---------------------------------------------------------------------------
  // products

  /**
   * `products` (vendor.php:63-81): behind the role gate, the caller's own
   * product rows, whatever their active flag.
   */
  function OwnProducts(products: map<int, ProductRow>, auth: Option<Jwt.Claims>): (r: Result<map<int, ProductRow>, HttpError>)
    ensures Jwt.RequireRole(auth, "vendor").Err? ==> r == Err(Jwt.RequireRole(auth, "vendor").error)
    ensures r.Ok? ==> (Jwt.RequireRole(auth, "vendor").Ok?
      && forall k :: k in r.value <==> k in products && products[k].vendorId == auth.value.userId)
    ensures r.Ok? ==> forall k :: k in r.value ==> r.value[k] == products[k]
  {
    var claims := Jwt.RequireRole(auth, "vendor");
    if claims.Err? then Err(claims.error)
    else Ok(map k | k in products && products[k].vendorId == claims.value.userId :: products[k])
  }

  // ---------------------------------------------------------------------------
  // createProduct

  /** `json_encode` of the values the controller stores, as a parameter. */
  datatype Json = Json(list: PhpArray -> string, text: string -> string)

  /** `!empty($data[key]) ? (int)$data[key] : null`. */
  function IntIfGiven(data: Body, key: string): (r: Option<int>)
    ensures r.Some? <==> Products.Given(data, key)
    ensures r.Some? ==> r.value == Products.IntCast(data[key]) && Numeric.IntMin <= r.value <= Numeric.IntMax
  {
    if Products.Given(data, key) then Some(Products.IntCast(data[key])) else None
  }

  /**
   * The row `createProduct` inserts (vendor.php:102-125) as the next id.
   * `decimal` stands for `(float)` followed by the DECIMAL column's storage;
   * `now` for `NOW()`. The compatibility text is stored as `CompatStored`.
   */
  function NewProduct(id: int, vendorId: int, data: Body, json: Json, decimal: string -> Decimal, now: string, corrected: bool): (p: ProductRow)
    requires "name" in data && "price" in data
    ensures p.id == id && p.vendorId == vendorId && p.name == data["name"] && p.active
  {
    ProductRow(
      id, vendorId,
      if "category_id" in data then Some(Products.IntCast(data["category_id"])) else None,
      data["name"],
      Some(ValueOr(data, "description", "")),
      decimal(data["price"]),
      if Products.Given(data, "sale_price") then Some(decimal(data["sale_price"])) else None,
      Some(ValueOr(data, "brand", "")),
      Some(if "model_compatibility" in data then json.list(CompatStored(data["model_compatibility"], corrected)) else "[]"),
      IntIfGiven(data, "year_range_start"),
      IntIfGiven(data, "year_range_end"),
      Some(ValueOr(data, "condition", "new")),
      Some(ValueOr(data, "sku", "")),
      Products.IntCast(ValueOr(data, "stock_quantity", "0")),
      Some(if "specifications" in data then json.text(data["specifications"]) else "[]"),
      if Products.Given(data, "weight") then Some(decimal(data["weight"])) else None,
      if Products.Given(data, "dimensions") then Some(json.text(data["dimensions"])) else None,
      IntIfGiven(data, "warranty_months"),
      true, None, Some(now), Some(now))
  }

  /**
   * The defaults of vendor.php:107-125: a missing condition is "new", a
   * missing stock is 0, missing texts are empty, and each optional number is
   * stored exactly when it is given non-empty.
   */
  lemma NewProductDefaults(id: int, vendorId: int, data: Body, json: Json, decimal: string -> Decimal, now: string, corrected: bool)
    requires "name" in data && "price" in data
    ensures var p := NewProduct(id, vendorId, data, json, decimal, now, corrected);
      && ("condition" !in data ==> p.condition == Some("new"))
      && ("stock_quantity" !in data ==> p.stock == 0)
      && ("brand" !in data ==> p.brand == Some(""))
      && ("sku" !in data ==> p.sku == Some(""))
      && ("description" !in data ==> p.description == Some(""))
      && ("model_compatibility" !in data ==> p.modelCompatibility == Some("[]"))
      && ("specifications" !in data ==> p.specifications == Some("[]"))
  {
    Products.IntCastOfNat(0);
    assert NatToString(0) == "0";
  }

  /** Each optional column of vendor.php:113-124 is set exactly when its field is given non-empty. */
  lemma NewProductOptionals(id: int, vendorId: int, data: Body, json: Json, decimal: string -> Decimal, now: string, corrected: bool)
    requires "name" in data && "price" in data
    ensures var p := NewProduct(id, vendorId, data, json, decimal, now, corrected);
      && (p.salePrice.None? <==> !Products.Given(data, "sale_price"))
      && (p.weight.None? <==> !Products.Given(data, "weight"))
      && (p.dimensions.None? <==> !Products.Given(data, "dimensions"))
      && (p.yearRangeStart.None? <==> !Products.Given(data, "year_range_start"))
      && (p.yearRangeEnd.None? <==> !Products.Given(data, "year_range_end"))
      && (p.warrantyMonths.None? <==> !Products.Given(data, "warranty_months"))
  {
  }

  /**
   * A compatibility text with a blank line is inserted as the encoding of a
   * gapped array as written, and of a list once corrected.
   */
  lemma CreateStoresBlankLine(id: int, vendorId: int, data: Body, json: Json, decimal: string -> Decimal, now: string)
    requires "name" in data && "price" in data && "model_compatibility" in data && data["model_compatibility"] == "a\n\nb"
    ensures NewProduct(id, vendorId, data, json, decimal, now, false).modelCompatibility == Some(json.list([(0, "a"), (2, "b")]))
    ensures NewProduct(id, vendorId, data, json, decimal, now, true).modelCompatibility == Some(json.list([(0, "a"), (1, "b")]))
  {
    StoredBlankLine();
  }

  /** An update with a blank line in the compatibility text binds the same encodings. */
  lemma UpdateBindsBlankLine(data: Body, json: Json)
    requires "model_compatibility" in data && data["model_compatibility"] == "a\n\nb"
    ensures JsonSets(data, json, false)[0] == ("model_compatibility", json.list([(0, "a"), (2, "b")]))
    ensures JsonSets(data, json, true)[0] == ("model_compatibility", json.list([(0, "a"), (1, "b")]))
  {
    StoredBlankLine();
    assert Products.Given(data, "model_compatibility") by {
      assert data["model_compatibility"] != "" && data["model_compatibility"] != "0";
    }
  }

  /** One entry of `$_FILES['images']`: the client's file name, whether it arrived, and whether moving it worked. */
  datatype Upload = Upload(name: string, arrived: bool, moved: bool)

  /**
   * `pathinfo($name, PATHINFO_EXTENSION)`: the text after the last '.', or "" without one.
   * `pathinfo` looks only at the part after the last '/'; a client file name holds no '/',
   * so the whole name is split here.
   */
  function Extension(name: string): string
  {
    var parts := Split(name, '.');
    if |parts| > 1 then parts[|parts| - 1] else ""
  }

  /** `'product-' . $productId . '-' . $i . '-' . time() . '.' . $ext`. */
  function FileName(productId: int, i: nat, time: int, name: string): string
  {
    "product-" + IntToString(productId) + "-" + NatToString(i) + "-" + IntToString(time) + "." + Extension(name)
  }

  /**
   * Where the upload at index `i` with client file name `name` is stored:
   * `'product-images/' . $filename`, for one product and one `time()`.
   */
  function StoredUrls(productId: int, time: int): (nat, string) -> string
  {
    (i: nat, name: string) => "product-images/" + FileName(productId, i, time, name)
  }

  /** The `product_images` rows of the upload loop (vendor.php:137-153): one per upload that arrived and was moved. */
  function UploadRows(productId: int, firstId: int, uploads: seq<Upload>, urls: (nat, string) -> string): (rows: seq<ImageRow>)
    ensures |rows| <= |uploads|
  {
    if |uploads| == 0 then []
    else
      var n := |uploads| - 1;
      var rest := UploadRows(productId, firstId, uploads[..n], urls);
      var u := uploads[n];
      if u.arrived && u.moved
      then rest + [ImageRow(firstId + |rest|, productId, urls(n, u.name), n == 0)]
      else rest
  }

  /** One more upload adds at most its own row. */
  lemma UploadRowsLast(productId: int, firstId: int, uploads: seq<Upload>, i: nat, urls: (nat, string) -> string)
    requires i < |uploads|
    ensures var rest := UploadRows(productId, firstId, uploads[..i], urls);
      UploadRows(productId, firstId, uploads[..i + 1], urls)
      == rest + (if uploads[i].arrived && uploads[i].moved
                 then [ImageRow(firstId + |rest|, productId, urls(i, uploads[i].name), i == 0)]
                 else [])
  {
    assert uploads[..i + 1][..i] == uploads[..i];
  }

  /** The rows belong to the product and take consecutive ids from `firstId`. */
  predicate NumberedFrom(rows: seq<ImageRow>, productId: int, firstId: int)
  {
    forall j :: 0 <= j < |rows| ==> rows[j].productId == productId && rows[j].id == firstId + j
  }

  /** No row but the first is primary. */
  predicate OnlyFirstPrimary(rows: seq<ImageRow>)
  {
    forall j :: 0 <= j < |rows| && rows[j].isPrimary ==> j == 0
  }

  /**
   * The stored images belong to the product and take consecutive ids from
   * `firstId`; only the upload at index 0 is stored as primary, so a product
   * gets at most one primary image, and none when its first upload failed.
   */
  lemma {:induction false} UploadRowsSpec(productId: int, firstId: int, uploads: seq<Upload>, urls: (nat, string) -> string)
    ensures NumberedFrom(UploadRows(productId, firstId, uploads, urls), productId, firstId)
    ensures OnlyFirstPrimary(UploadRows(productId, firstId, uploads, urls))
    ensures |uploads| > 0 && uploads[0].arrived && uploads[0].moved
      ==> |UploadRows(productId, firstId, uploads, urls)| > 0 && UploadRows(productId, firstId, uploads, urls)[0].isPrimary
    ensures |UploadRows(productId, firstId, uploads, urls)| > 0 && UploadRows(productId, firstId, uploads, urls)[0].isPrimary
      ==> uploads[0].arrived && uploads[0].moved
  {
    if |uploads| > 0 {
      var n := |uploads| - 1;
      var rest := UploadRows(productId, firstId, uploads[..n], urls);
      UploadRowsSpec(productId, firstId, uploads[..n], urls);
      UploadRowsLast(productId, firstId, uploads, n, urls);
      assert uploads[..n + 1] == uploads;
      if n > 0 {
        assert uploads[..n][0] == uploads[0];
      }
      var rows := UploadRows(productId, firstId, uploads, urls);
      if |rows| > |rest| {
        forall j | 0 <= j < |rows|
          ensures rows[j].productId == productId && rows[j].id == firstId + j
          ensures rows[j].isPrimary ==> j == 0
        {
          if j < |rest| {
            assert rows[j] == rest[j];
          }
        }
        if |rest| > 0 {
          assert rows[0] == rest[0];
        }
      }
    }
  }

  /** The upload loop of vendor.php:137-153. */
  method StoreUploads(db: Database, productId: int, uploads: seq<Upload>, urls: (nat, string) -> string)
    modifies db`images, db`nextImageId
    ensures db.images == old(db.images) + UploadRows(productId, old(db.nextImageId), uploads, urls)
    ensures db.nextImageId == old(db.nextImageId) + |UploadRows(productId, old(db.nextImageId), uploads, urls)|
  {
    ghost var firstId := db.nextImageId;
    var i := 0;
    while i < |uploads|
      invariant 0 <= i <= |uploads|
      invariant db.images == old(db.images) + UploadRows(productId, firstId, uploads[..i], urls)
      invariant db.nextImageId == firstId + |db.images| - |old(db.images)|
    {
      ghost var rest := UploadRows(productId, firstId, uploads[..i], urls);
      UploadRowsLast(productId, firstId, uploads, i, urls);
      var u := uploads[i];
      if u.arrived && u.moved {
        var row := ImageRow(db.nextImageId, productId, urls(i, u.name), i == 0);
        assert UploadRows(productId, firstId, uploads[..i + 1], urls) == rest + [row];
        assert (old(db.images) + rest) + [row] == old(db.images) + (rest + [row]);
        db.images := db.images + [row];
        db.nextImageId := db.nextImageId + 1;
      } else {
        assert UploadRows(productId, firstId, uploads[..i + 1], urls) == rest;
      }
      i := i + 1;
    }
    assert uploads[..i] == uploads;
  }

  /** The INSERT of vendor.php:102-133 under the next product id, then the upload loop. */
  method InsertProduct(db: Database, row: ProductRow, uploads: seq<Upload>, urls: (nat, string) -> string)
    modifies db`products, db`nextProductId, db`images, db`nextImageId
    requires db.Valid() && row.id == db.nextProductId
    ensures db.Valid()
    ensures db.products == old(db.products)[row.id := row] && db.nextProductId == row.id + 1
    ensures db.images == old(db.images) + UploadRows(row.id, old(db.nextImageId), uploads, urls)
    ensures db.nextImageId == old(db.nextImageId) + |UploadRows(row.id, old(db.nextImageId), uploads, urls)|
  {
    var id := row.id;
    db.products := db.products[id := row];
    db.nextProductId := id + 1;
    StoreUploads(db, id, uploads, urls);
    ProductsInsert(old(db.products), row, id);
    UploadRowsSpec(id, old(db.nextImageId), uploads, urls);
    ImageIdsAppend(old(db.images), UploadRows(id, old(db.nextImageId), uploads, urls), old(db.nextImageId));
  }

  /** The category name the LEFT JOIN of vendor.php:157 finds for a row, or null. */
  function CategoryName(categories: seq<CategoryRow>, row: ProductRow): (r: Option<string>)
    ensures r.Some? <==> row.categoryId.Some? && exists c :: c in categories && c.id == row.categoryId.value
  {
    if row.categoryId.None? then None
    else
      match CategoryById(categories, row.categoryId.value)
      case None => None
      case Some(c) => Some(c.name)
  }

  /**
   * `createProduct` (vendor.php:83-162): 403/401 from the role gate, 422
   * without a name or price, else the new row under the next id, its images,
   * and the re-read row as `formatProduct` shows it: its category's name, no
   * vendor name, and the images now stored for it.
   */
  method CreateProduct(db: Database, auth: Option<Jwt.Claims>, data: Body, uploads: seq<Upload>,
                       json: Json, decimal: string -> Decimal, now: string, time: int, decoders: Products.JsonDecoders,
                       corrected: bool)
    returns (r: Result<Products.FormattedProduct, HttpError>)
    modifies db`products, db`nextProductId, db`images, db`nextImageId
    requires db.Valid()
    ensures db.Valid()
    ensures Jwt.RequireRole(auth, "vendor").Err? ==> r == Err(Jwt.RequireRole(auth, "vendor").error)
    ensures Jwt.RequireRole(auth, "vendor").Ok? && !(Products.Given(data, "name") && Products.Given(data, "price"))
      ==> r == Err(HttpError(422, "Name and price are required"))
    ensures Jwt.RequireRole(auth, "vendor").Ok? && Products.Given(data, "name") && Products.Given(data, "price") ==> r.Ok?
    ensures r.Err? ==> (db.products == old(db.products) && db.images == old(db.images)
      && db.nextProductId == old(db.nextProductId) && db.nextImageId == old(db.nextImageId))
    ensures r.Ok? ==>
      var id := old(db.nextProductId);
      var row := NewProduct(id, auth.value.userId, data, json, decimal, now, corrected);
      var added := UploadRows(id, old(db.nextImageId), uploads, StoredUrls(id, time));
      && Jwt.RequireRole(auth, "vendor").Ok? && Products.Given(data, "name") && Products.Given(data, "price")
      && db.products == old(db.products)[id := row]
      && db.images == old(db.images) + added
      && db.nextProductId == id + 1 && db.nextImageId == old(db.nextImageId) + |added|
      && r.value == Products.Formatted(row, CategoryName(db.categories, row), None, r.value.images, decoders)
    ensures r.Ok? ==>
      var listed := Products.ImagesOf(db.images, old(db.nextProductId));
      && |r.value.images| == |listed|
      && forall i :: 0 <= i < |listed| ==>
           r.value.images[i] == Products.FormattedImage(listed[i].id, Products.AbsoluteUrl(listed[i].url), listed[i].isPrimary)
  {
    var claims := Jwt.RequireRole(auth, "vendor");
    if claims.Err? {
      return Err(claims.error);
    }
    if !(Products.Given(data, "name") && Products.Given(data, "price")) {
      return Err(HttpError(422, "Name and price are required"));
    }
    var id := db.nextProductId;
    var row := NewProduct(id, claims.value.userId, data, json, decimal, now, corrected);
    InsertProduct(db, row, uploads, StoredUrls(id, time));
    var formatted := Products.FormatProduct(row, CategoryName(db.categories, row), None, db.images, decoders);
    r := Ok(formatted);
  }

  /** Images stored for a product are among the images listed for it. */
  lemma NewImagesListed(before: seq<ImageRow>, added: seq<ImageRow>, id: int)
    requires forall j :: 0 <= j < |added| ==> added[j].productId == id
    ensures added != [] ==> Products.ImagesOf(before + added, id) != []
  {
    if added != [] {
      assert added[0] in before + added;
    }
  }

  // ---------------------------------------------------------------------------
  // updateProduct

  /** The body keys `updateProduct` accepts and the column each sets (vendor.php:178-185). */
  const Allowlist: seq<(string, string)> := [
    ("name", "name"), ("description", "description"), ("price", "price"), ("sale_price", "sale_price"),
    ("category_id", "category_id"), ("brand", "brand"), ("condition", "`condition`"), ("sku", "sku"),
    ("stock_quantity", "stock_quantity"), ("weight", "weight"), ("warranty_months", "warranty_months")]

  /** The keys besides the allowlist that `updateProduct` reads: the JSON columns (vendor.php:187-203). */
  const JsonKeys: seq<string> := ["model_compatibility", "specifications", "dimensions"]

  /** No allowlisted column holds a '?'. */
  lemma AllowlistPlain()
    ensures forall m :: 0 <= m < |Allowlist| ==> '?' !in Allowlist[m].1
  {
  }

  /** The allowlist loop over its first `k` entries: `$dbField` and `$data[$field]` for each key set in the body. */
  function AllowlistSets(data: Body, k: nat): seq<Assignment>
    requires k <= |Allowlist|
  {
    if k == 0 then []
    else
      var entry := Allowlist[k - 1];
      AllowlistSets(data, k - 1) + (if entry.0 in data then [(entry.1, data[entry.0])] else [])
  }

  /** The allowlist loop never names a column with a placeholder in it. */
  lemma {:induction false} AllowlistSetsPlain(data: Body, k: nat)
    requires k <= |Allowlist|
    ensures PlainColumns(AllowlistSets(data, k))
  {
    if k > 0 {
      AllowlistSetsPlain(data, k - 1);
      AllowlistPlain();
    }
  }

  /** The allowlist loop assigns nothing exactly when no allowlisted key is in the body. */
  lemma {:induction false} AllowlistSetsEmpty(data: Body, k: nat)
    requires k <= |Allowlist|
    ensures AllowlistSets(data, k) == [] <==> forall m :: 0 <= m < k ==> Allowlist[m].0 !in data
  {
    if k > 0 {
      AllowlistSetsEmpty(data, k - 1);
    }
  }

  /** Every allowlisted key in the body is assigned, to the body's value. */
  lemma {:induction false} AllowlistSetsComplete(data: Body, k: nat)
    requires k <= |Allowlist|
    ensures forall m :: 0 <= m < k && Allowlist[m].0 in data ==> (Allowlist[m].1, data[Allowlist[m].0]) in AllowlistSets(data, k)
  {
    if k > 0 {
      AllowlistSetsComplete(data, k - 1);
    }
  }

  /** Every assignment comes from an allowlisted key in the body: no other column is ever set. */
  lemma {:induction false} AllowlistSetsSound(data: Body, k: nat)
    requires k <= |Allowlist|
    ensures forall a :: a in AllowlistSets(data, k) ==>
      exists m :: 0 <= m < k && Allowlist[m].0 in data && a == (Allowlist[m].1, data[Allowlist[m].0])
  {
    if k > 0 {
      AllowlistSetsSound(data, k - 1);
    }
  }

  /** The JSON columns `updateProduct` sets when given non-empty (vendor.php:187-203). */
  function JsonSets(data: Body, json: Json, corrected: bool): (r: seq<Assignment>)
    ensures PlainColumns(r)
    ensures r == [] <==> forall key :: key in JsonKeys ==> !Products.Given(data, key)
    ensures Products.Given(data, "model_compatibility") ==>
      r[0] == ("model_compatibility", json.list(CompatStored(data["model_compatibility"], corrected)))
  {
    var compat := if Products.Given(data, "model_compatibility")
      then [("model_compatibility", json.list(CompatStored(data["model_compatibility"], corrected)))] else [];
    var specs := if Products.Given(data, "specifications") then [("specifications", json.text(data["specifications"]))] else [];
    var dims := if Products.Given(data, "dimensions") then [("dimensions", json.text(data["dimensions"]))] else [];
    NoJsonKeyGiven(data);
    JsonColumnsPlain();
    PlainColumnsAppend(compat, specs);
    PlainColumnsAppend(compat + specs, dims);
    assert compat != [] ==> (compat + specs + dims)[0] == compat[0];
    compat + specs + dims
  }

  /** The JSON columns' names hold no placeholder. */
  lemma JsonColumnsPlain()
    ensures '?' !in "model_compatibility" && '?' !in "specifications" && '?' !in "dimensions"
  {
  }

  /** The body gives no JSON column exactly when it gives none of the three. */
  lemma NoJsonKeyGiven(data: Body)
    ensures (forall key :: key in JsonKeys ==> !Products.Given(data, key)) <==>
      !Products.Given(data, "model_compatibility") && !Products.Given(data, "specifications")
      && !Products.Given(data, "dimensions")
  {
    assert JsonKeys[0] == "model_compatibility" && JsonKeys[1] == "specifications" && JsonKeys[2] == "dimensions";
  }

  /** Everything `updateProduct` assigns for a body. */
  function UpdateSets(data: Body, json: Json, corrected: bool): seq<Assignment>
  {
    AllowlistSets(data, |Allowlist|) + JsonSets(data, json, corrected)
  }

  /** The statement `updateProduct` issues for a body, as a function of the body. */
  function UpdateStatement(id: int, data: Body, json: Json, corrected: bool): Option<Update>
  {
    var sets := UpdateSets(data, json, corrected);
    Statement("products", Clauses(sets), Values(sets), IntToString(id))
  }

  /**
   * No UPDATE is issued exactly when the body sets no allowlisted key and no
   * JSON column; otherwise the SQL has one placeholder per bound value and the
   * product id is bound last.
   */
  lemma UpdateStatementShape(id: int, data: Body, json: Json, corrected: bool)
    ensures UpdateStatement(id, data, json, corrected).None? <==>
      (forall m :: 0 <= m < |Allowlist| ==> Allowlist[m].0 !in data) && (forall key :: key in JsonKeys ==> !Products.Given(data, key))
    ensures UpdateStatement(id, data, json, corrected).Some? ==>
      Placeholders(UpdateStatement(id, data, json, corrected).value.sql) == |UpdateStatement(id, data, json, corrected).value.values|
    ensures UpdateStatement(id, data, json, corrected).Some? ==>
      Last(UpdateStatement(id, data, json, corrected).value.values) == IntToString(id)
  {
    var allowed := AllowlistSets(data, |Allowlist|);
    var sets := allowed + JsonSets(data, json, corrected);
    AllowlistSetsPlain(data, |Allowlist|);
    AllowlistSetsEmpty(data, |Allowlist|);
    PlainColumnsAppend(allowed, JsonSets(data, json, corrected));
    assert |Clauses(sets)| == |sets|;
    assert sets == [] <==> allowed == [] && JsonSets(data, json, corrected) == [];
    if |sets| > 0 {
      StatementShape("products", sets, IntToString(id));
    }
  }

  /** A body key `updateProduct` does not read never changes the statement (mass-assignment guard). */
  lemma {:induction false} OtherKeysIgnored(id: int, data: Body, json: Json, corrected: bool, key: string, value: string)
    requires forall m :: 0 <= m < |Allowlist| ==> Allowlist[m].0 != key
    requires key !in JsonKeys
    ensures UpdateStatement(id, data[key := value], json, corrected) == UpdateStatement(id, data, json, corrected)
  {
    AllowlistSetsIgnore(data, key, value, |Allowlist|);
    assert JsonKeys[0] != key && JsonKeys[1] != key && JsonKeys[2] != key;
    assert JsonSets(data[key := value], json, corrected) == JsonSets(data, json, corrected);
  }

  lemma {:induction false} AllowlistSetsIgnore(data: Body, key: string, value: string, k: nat)
    requires k <= |Allowlist|
    requires forall m :: 0 <= m < |Allowlist| ==> Allowlist[m].0 != key
    ensures AllowlistSets(data[key := value], k) == AllowlistSets(data, k)
  {
    if k > 0 {
      AllowlistSetsIgnore(data, key, value, k - 1);
    }
  }

  /**
   * `updateProduct` (vendor.php:164-213): the role gate, 404 unless the caller
   * owns the product, then the allowlist loop. The result is the statement
   * issued, if any; running it against the row is not modelled.
   */
  method UpdateProduct(products: map<int, ProductRow>, auth: Option<Jwt.Claims>, id: int, data: Body, json: Json, corrected: bool)
    returns (r: Result<Option<Update>, HttpError>)
    ensures Jwt.RequireRole(auth, "vendor").Err? ==> r == Err(Jwt.RequireRole(auth, "vendor").error)
    ensures Jwt.RequireRole(auth, "vendor").Ok? ==>
      if id in products && products[id].vendorId == auth.value.userId
      then r == Ok(UpdateStatement(id, data, json, corrected))
      else r == Err(HttpError(404, "Product not found"))
  {
    var claims := Jwt.RequireRole(auth, "vendor");
    if claims.Err? {
      return Err(claims.error);
    }
    if !(id in products && products[id].vendorId == claims.value.userId) {
      return Err(HttpError(404, "Product not found"));
    }
    var fields: seq<string> := [];
    var values: seq<string> := [];
    var k := 0;
    while k < |Allowlist|
      invariant 0 <= k <= |Allowlist|
      invariant fields == Clauses(AllowlistSets(data, k))
      invariant values == Values(AllowlistSets(data, k))
    {
      var entry := Allowlist[k];
      if entry.0 in data {
        AssignmentsAppend(AllowlistSets(data, k), [(entry.1, data[entry.0])]);
        fields := fields + [entry.1 + " = ?"];
        values := values + [data[entry.0]];
      }
      k := k + 1;
    }
    var extra := JsonSets(data, json, corrected);
    AssignmentsAppend(AllowlistSets(data, |Allowlist|), extra);
    fields := fields + Clauses(extra);
    values := values + Values(extra);
    r := Ok(Statement("products", fields, values, IntToString(id)));
  }

  // ---------------------------------------------------------------------------
  // deleteProduct

  /** `deleteProduct` (vendor.php:215-225): removes the product when the caller owns it, else 404. */
  method DeleteProduct(db: Database, auth: Option<Jwt.Claims>, id: int) returns (r: Result<(), HttpError>)
    modifies db`products
    requires db.Valid()
    ensures db.Valid()
    ensures Jwt.RequireRole(auth, "vendor").Err? ==> r == Err(Jwt.RequireRole(auth, "vendor").error) && db.products == old(db.products)
    ensures Jwt.RequireRole(auth, "vendor").Ok? ==>
      var owned := id in old(db.products) && old(db.products)[id].vendorId == auth.value.userId;
      && (r.Err? <==> !owned)
      && (r.Err? ==> r.error == HttpError(404, "Product not found") && db.products == old(db.products))
      && (r.Ok? ==> db.products == old(db.products) - {id})
  {
    var claims := Jwt.RequireRole(auth, "vendor");
    if claims.Err? {
      return Err(claims.error);
    }
    if id in db.products && db.products[id].vendorId == claims.value.userId {
      db.products := db.products - {id};
      ProductsRemove(old(db.products), id, db.nextProductId);
      r := Ok(());
    } else {
      r := Err(HttpError(404, "Product not found"));
    }
  }

  // ---------------------------------------------------------------------------
  // sales

  /**
   * A row of `sales` (vendor.php:247-260). Its `created_at` is the order's:
   * `o.created_at` follows `oi.*` in the select list, so it wins the name.
   */
  datatype Sale = Sale(
    id: int, orderId: int, orderNumber: string, productId: int, productName: string, productImage: string,
    quantity: int, price: real, total: real, status: Option<string>, customerName: Option<string>, createdAt: string)

  /** The item is the vendor's and the inner joins of vendor.php:234-235 find its order and that order's customer. */
  predicate Joined(it: OrderItemRow, orders: seq<OrderRow>, users: seq<UserRow>, vendorId: int)
  {
    && it.vendorId == vendorId
    && OrderById(orders, it.orderId).Some?
    && UserById(users, OrderById(orders, it.orderId).value.customerId).Some?
  }

  /** The sale row `array_map` builds for a joined item (vendor.php:243-260). */
  function SaleOf(it: OrderItemRow, orders: seq<OrderRow>, users: seq<UserRow>, vendorId: int): (s: Sale)
    requires Joined(it, orders, users, vendorId)
    ensures s.id == it.id && s.orderId == it.orderId && s.productId == it.productId
    ensures s.productName == it.productName && s.productImage == Orders.ItemImageUrl(it.productImage)
    ensures s.quantity == it.quantity && s.price == it.price && s.total == it.total
    ensures PhpEmpty(s.productImage) || StartsWith(s.productImage, "http")
    ensures var o := OrderById(orders, it.orderId).value;
      && s.orderNumber == o.orderNumber && s.status == o.status && s.createdAt == o.createdAt
      && s.customerName == UserById(users, o.customerId).value.name
  {
    var o := OrderById(orders, it.orderId).value;
    var u := UserById(users, o.customerId).value;
    Sale(it.id, it.orderId, o.orderNumber, it.productId, it.productName, Orders.ItemImageUrl(it.productImage),
         it.quantity, it.price, it.total, o.status, u.name, o.createdAt)
  }

  /** Some order item of the vendor carries the sale's id. */
  predicate FromItem(items: seq<OrderItemRow>, vendorId: int, s: Sale)
  {
    exists k :: 0 <= k < |items| && items[k].vendorId == vendorId && items[k].id == s.id
  }

  /**
   * `sales` (vendor.php:227-264): the caller's order items joined with their
   * order and the customer; items whose order or customer is missing drop out
   * of the inner join. The image URL follows the order-item rule.
   */
  function Sales(items: seq<OrderItemRow>, orders: seq<OrderRow>, users: seq<UserRow>, vendorId: int): (r: seq<Sale>)
    ensures |r| <= |items|
    ensures forall j :: 0 <= j < |r| ==> FromItem(items, vendorId, r[j])
    ensures forall j :: 0 <= j < |r| ==> PhpEmpty(r[j].productImage) || StartsWith(r[j].productImage, "http")
  {
    if |items| == 0 then []
    else
      var n := |items| - 1;
      var init := items[..n];
      var rest := Sales(init, orders, users, vendorId);
      assert forall k :: 0 <= k < n ==> init[k] == items[k];
      assert forall s :: FromItem(init, vendorId, s) ==> FromItem(items, vendorId, s);
      var it := items[n];
      if Joined(it, orders, users, vendorId) then
        var sale := SaleOf(it, orders, users, vendorId);
        assert items[n].vendorId == vendorId && items[n].id == sale.id;
        assert FromItem(items, vendorId, sale);
        rest + [sale]
      else
        rest
  }

  /** The last item adds its sale, if it is joined, after the sales of the others. */
  lemma SalesLast(items: seq<OrderItemRow>, orders: seq<OrderRow>, users: seq<UserRow>, vendorId: int)
    requires |items| > 0
    ensures var n := |items| - 1;
      Sales(items, orders, users, vendorId) == Sales(items[..n], orders, users, vendorId)
        + (if Joined(items[n], orders, users, vendorId) then [SaleOf(items[n], orders, users, vendorId)] else [])
  {
  }

  /** Every listed sale is the sale of one of the caller's items whose order and customer exist. */
  lemma {:induction false} SalesSound(items: seq<OrderItemRow>, orders: seq<OrderRow>, users: seq<UserRow>, vendorId: int, j: int)
    requires 0 <= j < |Sales(items, orders, users, vendorId)|
    ensures exists k :: (0 <= k < |items| && Joined(items[k], orders, users, vendorId)
      && Sales(items, orders, users, vendorId)[j] == SaleOf(items[k], orders, users, vendorId))
    decreases |items|
  {
    var n := |items| - 1;
    var init := items[..n];
    var rest := Sales(init, orders, users, vendorId);
    var r := Sales(items, orders, users, vendorId);
    SalesLast(items, orders, users, vendorId);
    if j < |rest| {
      SalesSound(init, orders, users, vendorId, j);
      var k :| 0 <= k < |init| && Joined(init[k], orders, users, vendorId) && rest[j] == SaleOf(init[k], orders, users, vendorId);
      assert init[k] == items[k] && r[j] == rest[j];
    } else {
      assert Joined(items[n], orders, users, vendorId) && r[j] == SaleOf(items[n], orders, users, vendorId);
    }
  }

  /** Every item of the caller whose order and customer exist is listed, as its sale. */
  lemma {:induction false} SalesComplete(items: seq<OrderItemRow>, orders: seq<OrderRow>, users: seq<UserRow>, vendorId: int, k: int)
    requires 0 <= k < |items| && Joined(items[k], orders, users, vendorId)
    ensures SaleOf(items[k], orders, users, vendorId) in Sales(items, orders, users, vendorId)
    decreases |items|
  {
    var n := |items| - 1;
    var init := items[..n];
    var rest := Sales(init, orders, users, vendorId);
    var r := Sales(items, orders, users, vendorId);
    var sale := SaleOf(items[k], orders, users, vendorId);
    SalesLast(items, orders, users, vendorId);
    if k < n {
      assert init[k] == items[k];
      SalesComplete(init, orders, users, vendorId, k);
      var j :| 0 <= j < |rest| && rest[j] == sale;
      assert r[j] == rest[j];
    } else {
      assert r[|r| - 1] == sale;
    }
  }
}
