/**
 * The category list, php-api/controllers/categories.php: every category with
 * a slug (stored, or derived from the name), its parent when it has one, and
 * the number of active products filed under it.
 */
module Categories {
  import opened Common
  import opened Text
  import opened Tables

  /** A category as `index` returns it (categories.php:19-26). */
  datatype FormattedCategory = FormattedCategory(
    id: int, name: string, slug: string, parentId: Option<int>, image: Option<string>, productCount: nat)

  /** `strtolower(str_replace(' ', '-', $name))`. */
  function DerivedSlug(name: string): (slug: string)
  {
    Lower(ReplaceChar(name, ' ', '-'))
  }

  /**
   * A derived slug keeps the name's length, has no space and no upper-case
   * ASCII letter, and each of its characters is the name's, lower-cased, or
   * a hyphen where the name has a space.
   */
  lemma DerivedSlugShape(name: string)
    ensures |DerivedSlug(name)| == |name|
    ensures forall i :: 0 <= i < |name| ==>
      var c := DerivedSlug(name)[i];
      && c != ' ' && !('A' <= c <= 'Z')
      && (name[i] == ' ' ==> c == '-')
      && (name[i] != ' ' ==> c == LowerChar(name[i]))
  {
  }

  /** Deriving a slug from a slug changes nothing. */
  lemma DerivedSlugIdempotent(name: string)
    ensures DerivedSlug(DerivedSlug(name)) == DerivedSlug(name)
  {
    var s := DerivedSlug(name);
    assert forall i :: 0 <= i < |s| ==> s[i] != ' ' && LowerChar(s[i]) == s[i];
  }

  /** The ids of the active products in category `id`: `LEFT JOIN products p ON c.id = p.category_id AND p.is_active = 1`. */
  function ActiveIn(products: map<int, ProductRow>, id: int): set<int>
  {
    set k | k in products && products[k].active && products[k].categoryId == Some(id)
  }

  /** `COUNT(p.id)` of the join: the number of active products filed under the category. */
  function ProductCount(products: map<int, ProductRow>, id: int): (n: nat)
    ensures n <= |products|
  {
    assert ActiveIn(products, id) <= products.Keys;
    SubsetCard(ActiveIn(products, id), products.Keys);
    |ActiveIn(products, id)|
  }

  lemma SubsetCard(a: set<int>, b: set<int>)
    requires a <= b
    ensures |a| <= |b|
  {
    assert b == a + (b - a);
  }

  /**
   * Inserting a product adds one to its category's count when it is active,
   * and leaves every count alone otherwise.
   */
  lemma ProductCountInsert(products: map<int, ProductRow>, p: ProductRow, id: int)
    requires p.id !in products
    ensures ProductCount(products[p.id := p], id)
      == ProductCount(products, id) + (if p.active && p.categoryId == Some(id) then 1 else 0)
  {
    var after := ActiveIn(products[p.id := p], id);
    if p.active && p.categoryId == Some(id) {
      assert after == ActiveIn(products, id) + {p.id};
    } else {
      assert after == ActiveIn(products, id);
    }
  }

  /** Deleting a product takes it out of its category's count when it was active there. */
  lemma ProductCountRemove(products: map<int, ProductRow>, k: int, id: int)
    requires k in products
    ensures ProductCount(products - {k}, id)
      == ProductCount(products, id) - (if products[k].active && products[k].categoryId == Some(id) then 1 else 0)
  {
    var after := ActiveIn(products - {k}, id);
    if products[k].active && products[k].categoryId == Some(id) {
      assert after == ActiveIn(products, id) - {k};
    } else {
      assert after == ActiveIn(products, id);
    }
  }

  /**
   * One row of `index`: the stored slug, else the derived one; the parent
   * only when `parent_id` is truthy (null and 0 both mean none).
   */
  function FormatCategory(c: CategoryRow, products: map<int, ProductRow>): (r: FormattedCategory)
    ensures r.id == c.id && r.name == c.name && r.image == c.image
    ensures c.slug.Some? ==> r.slug == c.slug.value
    ensures c.slug.None? ==> r.slug == DerivedSlug(c.name)
    ensures r.parentId.Some? <==> IntTruthy(c.parentId)
    ensures r.parentId.Some? ==> r.parentId == c.parentId
    ensures r.productCount == ProductCount(products, c.id)
  {
    FormattedCategory(c.id, c.name, c.slug.GetOr(DerivedSlug(c.name)),
                      if IntTruthy(c.parentId) then c.parentId else None,
                      c.image, ProductCount(products, c.id))
  }

  /** `index` (categories.php:6-30): every category, with its count, in table order. */
  function Index(categories: seq<CategoryRow>, products: map<int, ProductRow>): (r: seq<FormattedCategory>)
    ensures |r| == |categories|
    ensures forall i :: 0 <= i < |r| ==> r[i] == FormatCategory(categories[i], products)
  {
    seq(|categories|, i requires 0 <= i < |categories| => FormatCategory(categories[i], products))
  }

  /**
   * A category without active products is still listed, with a count of
   * zero (the LEFT JOIN).
   */
  lemma IndexListsEmptyCategories(categories: seq<CategoryRow>, products: map<int, ProductRow>, i: int)
    requires 0 <= i < |categories|
    requires forall k :: k in products ==> products[k].categoryId != Some(categories[i].id) || !products[k].active
    ensures Index(categories, products)[i].productCount == 0
  {
    assert forall k :: k !in ActiveIn(products, categories[i].id);
  }
}
