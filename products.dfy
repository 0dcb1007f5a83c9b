/**
 * The catalogue endpoint of php-api/controllers/products.php: the WHERE clause
 * and its bound parameters built from the query string, the sort order, the
 * pagination arithmetic and `formatProduct`, which makes image URLs absolute,
 * falls back to the legacy `image` column and substitutes defaults for
 * columns that are null or do not decode. Running the SQL is not modelled:
 * the rows a query returns are inputs.
 */
module Products {
  import opened Common
  import opened Text
  import opened Tables
  import opened Sql
  import opened Numeric

  /** The prefix that turns a stored relative path into a public URL. */
  const BaseUrl: string := "https://partsbaypro.com/backend-php/"

  /**
   * The URL rule of products.php:137-140 and 145-150 (also used for order items
   * and vendor sales): a URL that does not start with "http" becomes the base URL
   * followed by the path without its leading slashes.
   */
  function AbsoluteUrl(u: string): (r: string)
    ensures StartsWith(r, "http")
    ensures StartsWith(u, "http") ==> r == u
    ensures !StartsWith(u, "http") ==> r == BaseUrl + LTrimChar(u, '/')
  {
    if StartsWith(u, "http") then u
    else
      var r := BaseUrl + LTrimChar(u, '/');
      BaseUrlIsHttp();
      PrefixOfConcat(BaseUrl, LTrimChar(u, '/'), "http");
      r
  }

  lemma BaseUrlIsHttp()
    ensures StartsWith(BaseUrl, "http")
  {
    assert BaseUrl[..4] == "http";
  }

  lemma PrefixOfConcat(a: string, b: string, p: string)
    requires StartsWith(a, p)
    ensures StartsWith(a + b, p)
  {
    assert (a + b)[..|p|] == a[..|p|];
  }

  /** Making a URL absolute twice is the same as doing it once. */
  lemma AbsoluteUrlIdempotent(u: string)
    ensures AbsoluteUrl(AbsoluteUrl(u)) == AbsoluteUrl(u)
  {
  }

  // ---------------------------------------------------------------------------
  // The query string

  /** `$_GET`: the query-string parameters of the request. */
  type QueryString = map<string, string>

  /** `!empty($_GET[key])`. */
  predicate Given(q: QueryString, key: string)
  {
    key in q && !PhpEmpty(q[key])
  }

  /** A bound parameter of the prepared statement. */
  datatype Param = Text(s: string) | Number(x: real)

  /** One condition of the WHERE clause with the values bound to its placeholders. */
  datatype Filter = Filter(clause: string, params: seq<Param>)

  predicate WellFormed(f: Filter)
  {
    Placeholders(f.clause) == |f.params|
  }

  predicate AllWellFormed(fs: seq<Filter>)
  {
    forall i :: 0 <= i < |fs| ==> WellFormed(fs[i])
  }

  const ActiveClause: string := "p.is_active = 1"
  const SearchClause: string := "(p.name LIKE " + "?" + " OR p.description LIKE " + "?" + " OR p.brand LIKE " + "?" + ")"

  /** products.php:13-19: a search adds one clause with three identical `%term%` parameters. */
  function SearchFilter(q: QueryString): (r: seq<Filter>)
    ensures AllWellFormed(r) && |r| <= 1
    ensures |r| == 1 <==> Given(q, "search")
  {
    if Given(q, "search") then
      var t := Text("%" + q["search"] + "%");
      var a, b, c := "(p.name LIKE ", " OR p.description LIKE ", " OR p.brand LIKE ";
      OnePlaceholder(a);
      OnePlaceholder(b);
      OnePlaceholder(c);
      PlaceholdersAppend(a + "?", b + "?");
      PlaceholdersAppend(a + "?" + (b + "?"), c + "?");
      PlaceholdersAppend(a + "?" + (b + "?") + (c + "?"), ")");
      NoPlaceholders(")");
      assert SearchClause == a + "?" + (b + "?") + (c + "?") + ")";
      [Filter(SearchClause, [t, t, t])]
    else []
  }

  /** A condition `column op ?` on a query parameter, present when `on` holds. */
  function SimpleFilter(on: bool, column: string, value: Param): (r: seq<Filter>)
    requires '?' !in column
    ensures AllWellFormed(r) && |r| <= 1
    ensures |r| == 1 <==> on
    ensures on ==> r[0] == Filter(column + "?", [value])
  {
    if on then
      OnePlaceholder(column);
      [Filter(column + "?", [value])]
    else []
  }

  /** `$_GET[key]`, or "" where the key is absent (only read where `Given` holds). */
  function Get(q: QueryString, key: string): string
  {
    if key in q then q[key] else ""
  }

  /** Whether the condition filter applies: given and not "all" (products.php:34). */
  predicate ConditionFilter(q: QueryString)
  {
    Given(q, "condition") && q["condition"] != "all"
  }

  function CategoryFilter(q: QueryString): seq<Filter>
  {
    SimpleFilter(Given(q, "category"), "c.slug = ", Text(Get(q, "category")))
  }

  function BrandFilter(q: QueryString): seq<Filter>
  {
    SimpleFilter(Given(q, "brand"), "p.brand = ", Text(Get(q, "brand")))
  }

  function ConditionIs(q: QueryString): seq<Filter>
  {
    SimpleFilter(ConditionFilter(q), "p.`condition` = ", Text(Get(q, "condition")))
  }

  function MinPriceFilter(q: QueryString, toFloat: string -> real): seq<Filter>
  {
    SimpleFilter(Given(q, "min_price"), "COALESCE(p.sale_price, p.price) >= ", Number(toFloat(Get(q, "min_price"))))
  }

  function MaxPriceFilter(q: QueryString, toFloat: string -> real): seq<Filter>
  {
    SimpleFilter(Given(q, "max_price"), "COALESCE(p.sale_price, p.price) <= ", Number(toFloat(Get(q, "max_price"))))
  }

  function LocationFilter(q: QueryString): seq<Filter>
  {
    SimpleFilter(Given(q, "location"), "p.location = ", Text(Get(q, "location")))
  }

  /**
   * The conditions of products.php:9-53 in the order they are appended:
   * `is_active` first, then each optional one whose parameter is given.
   * `toFloat` is PHP's `(float)` cast of the price bounds.
   */
  function Filters(q: QueryString, toFloat: string -> real): seq<Filter>
  {
    [Filter(ActiveClause, [])] + SearchFilter(q) + CategoryFilter(q) + BrandFilter(q) + ConditionIs(q)
      + MinPriceFilter(q, toFloat) + MaxPriceFilter(q, toFloat) + LocationFilter(q)
  }

  function ClausesOf(fs: seq<Filter>): seq<string>
  {
    if |fs| == 0 then [] else ClausesOf(fs[..|fs| - 1]) + [fs[|fs| - 1].clause]
  }

  function ParamsOf(fs: seq<Filter>): seq<Param>
  {
    if |fs| == 0 then [] else ParamsOf(fs[..|fs| - 1]) + fs[|fs| - 1].params
  }

  lemma {:induction false} ClausesOfAppend(fs: seq<Filter>, gs: seq<Filter>)
    ensures ClausesOf(fs + gs) == ClausesOf(fs) + ClausesOf(gs)
    ensures ParamsOf(fs + gs) == ParamsOf(fs) + ParamsOf(gs)
    decreases |gs|
  {
    if |gs| == 0 {
      assert fs + gs == fs;
    } else {
      var init := gs[..|gs| - 1];
      var last := gs[|gs| - 1];
      var all := fs + gs;
      assert all[..|all| - 1] == fs + init && all[|all| - 1] == last;
      ClausesOfAppend(fs, init);
      assert ClausesOf(all) == (ClausesOf(fs) + ClausesOf(init)) + [last.clause];
      assert ParamsOf(all) == (ParamsOf(fs) + ParamsOf(init)) + last.params;
    }
  }

  /** Joining the clauses of well-formed filters with " AND " leaves one placeholder per parameter. */
  lemma {:induction false} JoinPlaceholders(fs: seq<Filter>)
    requires AllWellFormed(fs)
    ensures Placeholders(Join(ClausesOf(fs), " AND ")) == |ParamsOf(fs)|
    decreases |fs|
  {
    if |fs| == 1 {
      assert fs[..0] == [];
    } else if |fs| > 1 {
      var rest := fs[1..];
      assert AllWellFormed(rest);
      JoinPlaceholders(rest);
      ClausesOfAppend([fs[0]], rest);
      assert [fs[0]] + rest == fs;
      assert [fs[0]][..0] == [];
      var cs := ClausesOf(fs);
      assert cs[0] == fs[0].clause && cs[1..] == ClausesOf(rest);
      assert Join(cs, " AND ") == fs[0].clause + " AND " + Join(ClausesOf(rest), " AND ");
      PlaceholdersAppend(fs[0].clause + " AND ", Join(ClausesOf(rest), " AND "));
      PlaceholdersAppend(fs[0].clause, " AND ");
      NoPlaceholders(" AND ");
    }
  }

  lemma AllWellFormedAppend(fs: seq<Filter>, gs: seq<Filter>)
    requires AllWellFormed(fs) && AllWellFormed(gs)
    ensures AllWellFormed(fs + gs)
  {
  }

  /**
   * products.php:9-55: the WHERE clause starts with the `is_active` condition and
   * has exactly as many '?' as there are bound parameters, whatever the query.
   */
  lemma FiltersAligned(q: QueryString, toFloat: string -> real)
    ensures var fs := Filters(q, toFloat);
      && ClausesOf(fs)[0] == ActiveClause
      && Placeholders(Join(ClausesOf(fs), " AND ")) == |ParamsOf(fs)|
  {
    var fs := Filters(q, toFloat);
    FiltersWellFormed(q, toFloat);
    JoinPlaceholders(fs);
    ClausesOfHead(fs);
  }

  /** Every filter of a query is well formed, and the `is_active` one comes first. */
  lemma FiltersWellFormed(q: QueryString, toFloat: string -> real)
    ensures AllWellFormed(Filters(q, toFloat)) && Filters(q, toFloat)[0] == Filter(ActiveClause, [])
  {
    var active := [Filter(ActiveClause, [])];
    NoPlaceholders(ActiveClause);
    var fs := active + SearchFilter(q);
    AllWellFormedAppend(active, SearchFilter(q));
    AllWellFormedAppend(fs, CategoryFilter(q));
    fs := fs + CategoryFilter(q);
    AllWellFormedAppend(fs, BrandFilter(q));
    fs := fs + BrandFilter(q);
    AllWellFormedAppend(fs, ConditionIs(q));
    fs := fs + ConditionIs(q);
    AllWellFormedAppend(fs, MinPriceFilter(q, toFloat));
    fs := fs + MinPriceFilter(q, toFloat);
    AllWellFormedAppend(fs, MaxPriceFilter(q, toFloat));
    fs := fs + MaxPriceFilter(q, toFloat);
    AllWellFormedAppend(fs, LocationFilter(q));
    fs := fs + LocationFilter(q);
    assert fs == Filters(q, toFloat);
  }

  /** The first clause is the first filter's. */
  lemma {:induction false} ClausesOfHead(fs: seq<Filter>)
    requires |fs| > 0
    ensures |ClausesOf(fs)| == |fs| && ClausesOf(fs)[0] == fs[0].clause
  {
    if |fs| > 1 {
      var init := fs[..|fs| - 1];
      ClausesOfHead(init);
    }
  }

  /** Appending filters keeps the parameters and clauses already there, in front. */
  lemma PrefixKept(fs: seq<Filter>, gs: seq<Filter>, k: nat)
    requires k <= |ParamsOf(fs)|
    ensures k <= |ParamsOf(fs + gs)| && ParamsOf(fs + gs)[..k] == ParamsOf(fs)[..k]
    ensures forall c :: c in ClausesOf(fs) ==> c in ClausesOf(fs + gs)
  {
    ClausesOfAppend(fs, gs);
    assert ParamsOf(fs + gs)[..k] == (ParamsOf(fs) + ParamsOf(gs))[..k];
  }

  /** A search contributes the first three parameters, all equal to `%term%` (products.php:13-19). */
  lemma SearchParams(q: QueryString, toFloat: string -> real)
    requires Given(q, "search")
    ensures var ps := ParamsOf(Filters(q, toFloat)); var t := Text("%" + q["search"] + "%");
      |ps| >= 3 && ps[..3] == [t, t, t]
    ensures SearchClause in ClausesOf(Filters(q, toFloat))
  {
    var t := Text("%" + q["search"] + "%");
    var fs := [Filter(ActiveClause, []), Filter(SearchClause, [t, t, t])];
    assert fs == [Filter(ActiveClause, [])] + SearchFilter(q);
    var first := [Filter(ActiveClause, [])];
    assert first[..0] == [];
    assert ParamsOf(first) == ParamsOf(first[..0]) + [];
    assert ClausesOf(first) == ClausesOf(first[..0]) + [ActiveClause];
    assert fs[..|fs| - 1] == first && fs[|fs| - 1].params == [t, t, t];
    assert ParamsOf(fs) == ParamsOf(first) + [t, t, t];
    assert ClausesOf(fs) == ClausesOf(first) + [SearchClause];
    assert ParamsOf(fs) == [t, t, t];
    assert ParamsOf(fs)[..3] == [t, t, t];
    assert ClausesOf(fs) == [ActiveClause, SearchClause];
    PrefixKept(fs, CategoryFilter(q), 3);
    fs := fs + CategoryFilter(q);
    PrefixKept(fs, BrandFilter(q), 3);
    fs := fs + BrandFilter(q);
    PrefixKept(fs, ConditionIs(q), 3);
    fs := fs + ConditionIs(q);
    PrefixKept(fs, MinPriceFilter(q, toFloat), 3);
    fs := fs + MinPriceFilter(q, toFloat);
    PrefixKept(fs, MaxPriceFilter(q, toFloat), 3);
    fs := fs + MaxPriceFilter(q, toFloat);
    PrefixKept(fs, LocationFilter(q), 3);
    fs := fs + LocationFilter(q);
    assert ParamsOf(fs)[..3] == [t, t, t];
    assert fs == Filters(q, toFloat);
  }

  /** With no optional parameter given, the query filters on `is_active` alone. */
  lemma NoFilters(q: QueryString, toFloat: string -> real)
    requires !Given(q, "search") && !Given(q, "category") && !Given(q, "brand") && !ConditionFilter(q)
    requires !Given(q, "min_price") && !Given(q, "max_price") && !Given(q, "location")
    ensures ClausesOf(Filters(q, toFloat)) == [ActiveClause] && ParamsOf(Filters(q, toFloat)) == []
  {
    var fs := Filters(q, toFloat);
    assert fs == [Filter(ActiveClause, [])];
    assert fs[..0] == [];
  }

  /**
   * The `$where`/`$params` arrays of products.php:9-55, grown by successive
   * appends as the controller does.
   */
  method BuildFilters(q: QueryString, toFloat: string -> real) returns (clauses: seq<string>, params: seq<Param>)
    ensures clauses == ClausesOf(Filters(q, toFloat)) && params == ParamsOf(Filters(q, toFloat))
  {
    clauses := [ActiveClause];
    params := [];
    ghost var fs: seq<Filter> := [Filter(ActiveClause, [])];
    assert fs[..0] == [];
    clauses, params, fs := Append(clauses, params, fs, SearchFilter(q));
    clauses, params, fs := Append(clauses, params, fs, CategoryFilter(q));
    clauses, params, fs := Append(clauses, params, fs, BrandFilter(q));
    clauses, params, fs := Append(clauses, params, fs, ConditionIs(q));
    clauses, params, fs := Append(clauses, params, fs, MinPriceFilter(q, toFloat));
    clauses, params, fs := Append(clauses, params, fs, MaxPriceFilter(q, toFloat));
    clauses, params, fs := Append(clauses, params, fs, LocationFilter(q));
  }

  /** `$where[] = …; $params[] = …;` for the condition in `step`, if there is one. */
  method Append(clauses: seq<string>, params: seq<Param>, ghost fs: seq<Filter>, step: seq<Filter>)
    returns (clauses': seq<string>, params': seq<Param>, ghost fs': seq<Filter>)
    requires |step| <= 1
    requires clauses == ClausesOf(fs) && params == ParamsOf(fs)
    ensures fs' == fs + step
    ensures clauses' == ClausesOf(fs') && params' == ParamsOf(fs')
  {
    fs' := fs + step;
    if |step| == 1 {
      clauses' := clauses + [step[0].clause];
      params' := params + step[0].params;
      assert fs'[..|fs'| - 1] == fs;
    } else {
      clauses', params' := clauses, params;
      assert fs' == fs;
    }
  }

  const DefaultOrder: string := "p.created_at DESC"

  /** The ORDER BY of products.php:58-65: only `price_asc` and `price_desc` change the default. */
  function OrderBy(q: QueryString): (r: string)
    ensures r != DefaultOrder <==> Given(q, "sort") && (q["sort"] == "price_asc" || q["sort"] == "price_desc")
    ensures Given(q, "sort") && q["sort"] == "price_asc" ==> r == "COALESCE(p.sale_price, p.price) ASC"
    ensures Given(q, "sort") && q["sort"] == "price_desc" ==> r == "COALESCE(p.sale_price, p.price) DESC"
  {
    if !Given(q, "sort") then DefaultOrder
    else match q["sort"]
      case "price_asc" => "COALESCE(p.sale_price, p.price) ASC"
      case "price_desc" => "COALESCE(p.sale_price, p.price) DESC"
      case "newest" => DefaultOrder
      case _ => DefaultOrder
  }

  // ---------------------------------------------------------------------------
  // Pagination

  /**
   * PHP's `(int)` cast of a string (PHP 7.1 and later): the numeric prefix,
   * truncated toward zero and capped at the 64-bit range; 0 when there is no
   * numeric prefix or it overflows a double.
   */
  function IntCast(s: string): (r: int)
    ensures IntMin <= r <= IntMax
    ensures var n := NumericPrefix(s);
      Magnitude(n) < Overflow && IntMin <= Truncate(n) <= IntMax ==> r == Truncate(n)
  {
    CapToInt(NumericPrefix(s))
  }

  /** The cast reads the decimal text of a natural number in the 64-bit range back as that number. */
  lemma IntCastOfNat(n: nat)
    requires n <= IntMax
    ensures IntCast(NatToString(n)) == n
  {
    NumericPrefixOfNat(n);
  }

  /** An exponent is read in full: "1e3" casts to 1000, where reading only the digits would give 1. */
  lemma IntCastExponent()
    ensures IntCast("1e3") == 1000
  {
    ExponentNumeral();
  }

  /** A fraction is truncated toward zero: "1.5" casts to 1. */
  lemma IntCastFraction()
    ensures IntCast("1.5") == 1
  {
    FractionNumeral();
  }

  datatype Page = Page(page: int, perPage: int, offset: int)

  /**
   * products.php:68-70: `max(1, (int)page)`, `min(50, max(1, (int)per_page))`,
   * with 1 and 20 when the parameters are absent.
   */
  function Paginate(q: QueryString): (r: Page)
    ensures r.page >= 1 && 1 <= r.perPage <= 50
    ensures r.offset == (r.page - 1) * r.perPage && r.offset >= 0
    ensures "page" !in q ==> r.page == 1
    ensures "per_page" !in q ==> r.perPage == 20
    ensures "page" in q && IntCast(q["page"]) >= 1 ==> r.page == IntCast(q["page"])
    ensures "page" in q && IntCast(q["page"]) < 1 ==> r.page == 1
    ensures "per_page" in q && 1 <= IntCast(q["per_page"]) <= 50 ==> r.perPage == IntCast(q["per_page"])
    ensures "per_page" in q && IntCast(q["per_page"]) < 1 ==> r.perPage == 1
    ensures "per_page" in q && IntCast(q["per_page"]) > 50 ==> r.perPage == 50
  {
    var page := if "page" in q then IntCast(q["page"]) else 1;
    var page := if page < 1 then 1 else page;
    var perPage := if "per_page" in q then IntCast(q["per_page"]) else 20;
    var perPage := if perPage < 1 then 1 else if perPage > 50 then 50 else perPage;
    OffsetNonNegative(page - 1, perPage);
    Page(page, perPage, (page - 1) * perPage)
  }

  /** `per_page=1e3` asks for 1000 rows and is capped at 50. */
  lemma PerPageExponentCapped(q: QueryString)
    requires "per_page" in q && q["per_page"] == "1e3"
    ensures Paginate(q).perPage == 50
  {
    IntCastExponent();
  }

  lemma OffsetNonNegative(skipped: nat, perPage: nat)
    ensures skipped * perPage >= 0
  {
  }

  /** `ceil($total / $perPage)`: the fewest pages of `perPage` rows that hold `total` rows. */
  function LastPage(total: nat, perPage: int): (r: nat)
    requires perPage >= 1
    ensures (r - 1) * perPage < total <= r * perPage || (total == 0 && r == 0)
  {
    (total + perPage - 1) / perPage
  }

  /** The `meta` object of products.php:101-106. */
  datatype Meta = Meta(currentPage: int, lastPage: int, perPage: int, total: int)

  function IndexMeta(q: QueryString, total: nat): (m: Meta)
    ensures m.currentPage >= 1 && 1 <= m.perPage <= 50 && m.total == total
    ensures m.lastPage == LastPage(total, m.perPage)
  {
    var p := Paginate(q);
    Meta(p.page, LastPage(total, p.perPage), p.perPage, total)
  }

  // ---------------------------------------------------------------------------
  // formatProduct

  datatype FormattedImage = FormattedImage(id: int, url: string, isPrimary: bool)

  /** The decoders for the JSON text columns; each answers None where `json_decode` gives null. */
  datatype JsonDecoders = JsonDecoders(
    list: string -> Option<seq<string>>,
    specs: string -> Option<seq<(string, string)>>,
    dims: string -> Option<JsonObject>)

  datatype FormattedProduct = FormattedProduct(
    id: int, vendorId: int, vendorName: string, name: string, description: string,
    price: real, salePrice: Option<real>, categoryId: int, categoryName: string, brand: string,
    modelCompatibility: seq<string>, yearRangeStart: Option<int>, yearRangeEnd: Option<int>,
    condition: string, sku: string, stock: int, images: seq<FormattedImage>,
    specifications: seq<(string, string)>, weight: Option<real>, dimensions: Option<JsonObject>,
    warrantyMonths: Option<int>, isActive: bool, createdAt: string, updatedAt: string)

  /** The `product_images` rows of one product, in table order. */
  function ImagesOf(images: seq<ImageRow>, productId: int): (r: seq<ImageRow>)
    ensures |r| <= |images|
    ensures forall i :: 0 <= i < |r| ==> r[i] in images && r[i].productId == productId
    ensures forall img :: img in images && img.productId == productId ==> img in r
  {
    if |images| == 0 then []
    else
      var rest := ImagesOf(images[..|images| - 1], productId);
      var last := images[|images| - 1];
      if last.productId == productId then rest + [last] else rest
  }

  /** The image list before the URL pass: the rows, or the legacy image as entry 0 (products.php:135-142). */
  function ImageList(rows: seq<ImageRow>, legacy: Option<string>): seq<FormattedImage>
  {
    if |rows| == 0 && TextTruthy(legacy) then [FormattedImage(0, AbsoluteUrl(legacy.value), true)]
    else seq(|rows|, i requires 0 <= i < |rows| => FormattedImage(rows[i].id, rows[i].url, rows[i].isPrimary))
  }

  /** An image entry with its URL made absolute. */
  function WithAbsoluteUrl(img: FormattedImage): FormattedImage
  {
    img.(url := AbsoluteUrl(img.url))
  }

  /** Every entry of an image list with its URL made absolute. */
  function Absolutized(images: seq<FormattedImage>): (r: seq<FormattedImage>)
    ensures |r| == |images|
  {
    seq(|images|, i requires 0 <= i < |images| => WithAbsoluteUrl(images[i]))
  }

  /** The by-reference loop of products.php:145-150, in place: every URL is made absolute. */
  method AbsolutizeUrls(a: array<FormattedImage>)
    modifies a
    ensures a[..] == Absolutized(old(a[..]))
  {
    ghost var before := a[..];
    var i := 0;
    while i < a.Length
      invariant 0 <= i <= a.Length
      invariant a[..i] == Absolutized(before)[..i]
      invariant a[i..] == before[i..]
    {
      assert a[i] == before[i];
      a[i] := WithAbsoluteUrl(a[i]);
      assert a[..i + 1] == a[..i] + [a[i]];
      i := i + 1;
    }
    assert a[..] == a[..i];
  }

  /**
   * The `images` list of `formatProduct` (products.php:130-150): the product's
   * image rows, or the legacy image as entry 0 when there are none, with every
   * URL made absolute.
   */
  method FormatImages(rows: seq<ImageRow>, legacy: Option<string>) returns (r: seq<FormattedImage>)
    ensures |rows| > 0 ==> (|r| == |rows| &&
      forall i :: 0 <= i < |r| ==> r[i] == FormattedImage(rows[i].id, AbsoluteUrl(rows[i].url), rows[i].isPrimary))
    ensures |rows| == 0 && TextTruthy(legacy) ==> r == [FormattedImage(0, AbsoluteUrl(legacy.value), true)]
    ensures |rows| == 0 && !TextTruthy(legacy) ==> r == []
    ensures forall i :: 0 <= i < |r| ==> StartsWith(r[i].url, "http")
  {
    var list := ImageList(rows, legacy);
    var a := new FormattedImage[|list|](i requires 0 <= i < |list| => list[i]);
    assert a[..] == list;
    AbsolutizeUrls(a);
    r := a[..];
    ImagesSpec(rows, legacy);
  }

  /** The image list with its URLs made absolute, entry by entry. */
  lemma ImagesSpec(rows: seq<ImageRow>, legacy: Option<string>)
    ensures var r := Absolutized(ImageList(rows, legacy));
      && (|rows| > 0 ==> (|r| == |rows| &&
        forall i :: 0 <= i < |r| ==> r[i] == FormattedImage(rows[i].id, AbsoluteUrl(rows[i].url), rows[i].isPrimary)))
      && (|rows| == 0 && TextTruthy(legacy) ==> r == [FormattedImage(0, AbsoluteUrl(legacy.value), true)])
      && (|rows| == 0 && !TextTruthy(legacy) ==> r == [])
      && (forall i :: 0 <= i < |r| ==> StartsWith(r[i].url, "http"))
  {
    var list := ImageList(rows, legacy);
    var r := Absolutized(list);
    if |rows| == 0 && TextTruthy(legacy) {
      AbsoluteUrlIdempotent(legacy.value);
      assert r[0] == WithAbsoluteUrl(list[0]) == list[0];
    }
  }

  /** `!empty($d) ? (float)$d : null` and `$d ? (float)$d : null` on a DECIMAL column (products.php:172, 184). */
  function DecimalOrNull(d: Option<Decimal>): (r: Option<real>)
    ensures r.Some? <==> DecimalTruthy(d)
    ensures r.Some? ==> r.value == d.value.value
  {
    if DecimalTruthy(d) then Some(d.value.value) else None
  }

  /** `$n ? (int)$n : null` on an INT column (products.php:177-178, 186): 0 becomes null. */
  function IntOrNull(n: Option<int>): (r: Option<int>)
    ensures r.Some? <==> IntTruthy(n)
    ensures r.Some? ==> r == n && r.value != 0
  {
    if IntTruthy(n) then n else None
  }

  /**
   * `is_string($c) ? json_decode($c, true) ?? $default : ($c ?? $default)` on a
   * JSON text column (products.php:153-159): the default when the column is null
   * or does not decode.
   */
  function DecodeOr<T>(column: Option<string>, decode: string -> Option<T>, default: T): (r: T)
    ensures column.None? ==> r == default
    ensures column.Some? ==> r == decode(column.value).GetOr(default)
  {
    match column
    case None => default
    case Some(text) => decode(text).GetOr(default)
  }

  /** The fields of `formatProduct` other than `images`, with their defaults (products.php:165-190). */
  function Formatted(p: ProductRow, categoryName: Option<string>, vendorName: Option<string>,
                     images: seq<FormattedImage>, json: JsonDecoders): (r: FormattedProduct)
    ensures r.images == images && r.id == p.id && r.stock == p.stock
    ensures r.condition == p.condition.GetOr("new")
    ensures r.salePrice.Some? <==> DecimalTruthy(p.salePrice)
    ensures r.salePrice.Some? ==> r.salePrice.value == p.salePrice.value.value
    ensures r.modelCompatibility == DecodeOr(p.modelCompatibility, json.list, [])
    ensures r.specifications == DecodeOr(p.specifications, json.specs, [])
    ensures r.vendorId == p.vendorId && r.name == p.name && r.price == p.price.value && r.isActive == p.active
    ensures r.vendorName == vendorName.GetOr("") && r.categoryName == categoryName.GetOr("")
    ensures r.categoryId == p.categoryId.GetOr(0)
    ensures r.description == p.description.GetOr("") && r.brand == p.brand.GetOr("") && r.sku == p.sku.GetOr("")
    ensures r.createdAt == p.createdAt.GetOr("") && r.updatedAt == p.updatedAt.GetOr("")
    ensures (r.yearRangeStart.Some? <==> IntTruthy(p.yearRangeStart)) && (r.yearRangeStart.Some? ==> r.yearRangeStart == p.yearRangeStart)
    ensures (r.yearRangeEnd.Some? <==> IntTruthy(p.yearRangeEnd)) && (r.yearRangeEnd.Some? ==> r.yearRangeEnd == p.yearRangeEnd)
    ensures (r.warrantyMonths.Some? <==> IntTruthy(p.warrantyMonths)) && (r.warrantyMonths.Some? ==> r.warrantyMonths == p.warrantyMonths)
    ensures (r.weight.Some? <==> DecimalTruthy(p.weight)) && (r.weight.Some? ==> r.weight.value == p.weight.value.value)
    ensures p.dimensions.None? ==> r.dimensions.None?
    ensures p.dimensions.Some? ==> r.dimensions == json.dims(p.dimensions.value)
  {
    FormattedProduct(
      p.id, p.vendorId, vendorName.GetOr(""), p.name, p.description.GetOr(""),
      p.price.value, DecimalOrNull(p.salePrice),
      p.categoryId.GetOr(0), categoryName.GetOr(""), p.brand.GetOr(""),
      DecodeOr(p.modelCompatibility, json.list, []),
      IntOrNull(p.yearRangeStart), IntOrNull(p.yearRangeEnd),
      p.condition.GetOr("new"), p.sku.GetOr(""), p.stock, images,
      DecodeOr(p.specifications, json.specs, []),
      DecimalOrNull(p.weight),
      if p.dimensions.Some? then json.dims(p.dimensions.value) else None,
      IntOrNull(p.warrantyMonths),
      p.active, p.createdAt.GetOr(""), p.updatedAt.GetOr(""))
  }

  /**
   * `formatProduct` (products.php:128-191) of a product row joined with its
   * category and vendor names: the image list of `FormatImages` and the other
   * fields of `Formatted`.
   */
  method FormatProduct(p: ProductRow, categoryName: Option<string>, vendorName: Option<string>,
                       images: seq<ImageRow>, json: JsonDecoders) returns (r: FormattedProduct)
    ensures var rows := ImagesOf(images, p.id);
      && (|rows| > 0 ==> (|r.images| == |rows| &&
           forall i :: 0 <= i < |rows| ==> r.images[i] == FormattedImage(rows[i].id, AbsoluteUrl(rows[i].url), rows[i].isPrimary)))
      && (|rows| == 0 && TextTruthy(p.image) ==> r.images == [FormattedImage(0, AbsoluteUrl(p.image.value), true)])
      && (|rows| == 0 && !TextTruthy(p.image) ==> r.images == [])
    ensures forall i :: 0 <= i < |r.images| ==> StartsWith(r.images[i].url, "http")
    ensures r == Formatted(p, categoryName, vendorName, r.images, json)
  {
    var formatted := FormatImages(ImagesOf(images, p.id), p.image);
    r := Formatted(p, categoryName, vendorName, formatted, json);
  }
}
