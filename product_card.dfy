/**
 * The product tile of the client, src/components/products/ProductCard.tsx:
 * which image it shows, whether it flags a discount and by how much, the
 * out-of-stock badge and the price it displays. The product is the object
 * `formatProduct` sends.
 */
module ProductCard {
  import opened Common
  import opened Text
  import opened Tables
  import Products

  type Product = Products.FormattedProduct
  type Image = Products.FormattedImage

  /** `images.find((img) => img.is_primary)`: the first image marked primary. */
  function FirstPrimary(images: seq<Image>): (r: Option<Image>)
    ensures r.None? <==> forall i :: 0 <= i < |images| ==> !images[i].isPrimary
    ensures r.Some? ==> exists i :: 0 <= i < |images| && images[i] == r.value && r.value.isPrimary
                                  && forall j :: 0 <= j < i ==> !images[j].isPrimary
  {
    if |images| == 0 then None
    else if images[0].isPrimary then Some(images[0])
    else
      var r := FirstPrimary(images[1..]);
      assert forall i :: 1 <= i < |images| ==> images[i] == images[1..][i - 1];
      if r.Some? then
        var i :| 0 <= i < |images[1..]| && images[1..][i] == r.value && r.value.isPrimary
                 && forall j :: 0 <= j < i ==> !images[1..][j].isPrimary;
        assert images[i + 1] == r.value;
        r
      else r
  }

  /**
   * `images.find(is_primary)?.url || images[0]?.url`: the first primary
   * image's URL unless that is empty, else the first image's URL; nothing
   * (`undefined`) for a product without images.
   */
  function PrimaryImageUrl(images: seq<Image>): (r: Option<string>)
    ensures r.None? <==> |images| == 0
    ensures FirstPrimary(images).Some? && FirstPrimary(images).value.url != "" ==> r == Some(FirstPrimary(images).value.url)
    ensures (FirstPrimary(images).None? || FirstPrimary(images).value.url == "") && |images| > 0 ==> r == Some(images[0].url)
  {
    match FirstPrimary(images)
    case Some(img) =>
      if img.url != "" then Some(img.url) else Some(images[0].url)
    case None =>
      if |images| == 0 then None else Some(images[0].url)
  }

  /** A product stored with no image rows but a legacy `image` shows that image, made absolute. */
  lemma LegacyImageShown(legacy: string)
    requires legacy != ""
    ensures PrimaryImageUrl([Products.FormattedImage(0, Products.AbsoluteUrl(legacy), true)])
      == Some(Products.AbsoluteUrl(legacy))
  {
  }

  /** `product.sale_price` as a JavaScript condition: present and not 0. */
  predicate SaleTruthy(p: Product)
  {
    p.salePrice.Some? && p.salePrice.value != 0.0
  }

  /** `product.sale_price || product.price`: the price every client view shows and charges. */
  function DisplayPrice(p: Product): (r: real)
    ensures SaleTruthy(p) ==> r == p.salePrice.value
    ensures !SaleTruthy(p) ==> r == p.price
  {
    if SaleTruthy(p) then p.salePrice.value else p.price
  }

  /** `product.sale_price && product.sale_price < product.price`. */
  predicate HasDiscount(p: Product)
  {
    SaleTruthy(p) && p.salePrice.value < p.price
  }

  /** `Math.round(x)`: the nearest integer, halves rounded up. */
  function Round(x: real): int
  {
    (x + 0.5).Floor
  }

  /**
   * `Math.round(((price - sale_price) / price) * 100)` with a discount, else
   * 0. None stands for JavaScript's `Infinity`, which the division gives
   * when the price is 0 (a discount then needs a negative sale price).
   */
  function DiscountPercent(p: Product): Option<int>
  {
    if !HasDiscount(p) then Some(0)
    else if p.price == 0.0 then None
    else Some(Round((p.price - p.salePrice.value) / p.price * 100.0))
  }

  /**
   * Without a discount the percent is 0; with one, and a positive sale
   * price, it lies in [0, 100], and the displayed price is the sale price,
   * below the struck-through list price.
   */
  lemma DiscountPercentBounds(p: Product)
    ensures !HasDiscount(p) ==> DiscountPercent(p) == Some(0)
    ensures HasDiscount(p) && p.salePrice.value > 0.0 ==>
      && DiscountPercent(p).Some? && 0 <= DiscountPercent(p).value <= 100
      && DisplayPrice(p) < p.price
  {
    if HasDiscount(p) && p.salePrice.value > 0.0 {
      RatioBelowOne(p.price - p.salePrice.value, p.price);
    }
  }

  lemma RatioBelowOne(d: real, q: real)
    requires 0.0 < d < q
    ensures 0.0 < d / q < 1.0
  {
    var r := d / q;
    assert r * q == d;
    assert r >= 1.0 ==> r * q >= 1.0 * q;
  }

  /** A negative sale price is truthy and below the price, so the badge can exceed 100%. */
  lemma NegativeSaleOver100(p: Product)
    requires p.price == 100.0 && p.salePrice == Some(-100.0)
    ensures HasDiscount(p) && DiscountPercent(p) == Some(200)
  {
    assert (p.price - p.salePrice.value) / p.price * 100.0 == 200.0;
  }

  /** The out-of-stock badge: `stock_quantity === 0`. */
  predicate OutOfStock(p: Product)
  {
    p.stock == 0
  }
}
