/**
 * The search screen, src/pages/SearchPage.tsx: which products the live
 * filter keeps (text, price range and condition), the chips that "Apply"
 * shows, and what "Clear" resets. The sort selection is held but never read
 * by the filter, so no sort is modelled.
 */
module SearchPage {
  import opened Text
  import ProductCard

  type Product = ProductCard.Product

  /** The filter inputs: search text, the slider's `[min, max]` and the condition choice. */
  datatype Filter = Filter(query: string, lo: int, hi: int, condition: string)

  /** The slider's bounds, which are also the initial range. */
  const PriceMin := 0
  const PriceMax := 5000

  /** `matchesSearch`: the lower-cased query occurs in the lower-cased name, brand or category name. */
  predicate MatchesSearch(p: Product, query: string)
  {
    || Contains(Lower(p.name), Lower(query))
    || Contains(Lower(p.brand), Lower(query))
    || Contains(Lower(p.categoryName), Lower(query))
  }

  /** `matchesPrice`: the shown price (`sale_price || price`) lies in the closed range. */
  predicate MatchesPrice(p: Product, lo: int, hi: int)
  {
    lo as real <= ProductCard.DisplayPrice(p) <= hi as real
  }

  /** `matchesCondition`: "all", or exactly the product's condition. */
  predicate MatchesCondition(p: Product, condition: string)
  {
    condition == "all" || p.condition == condition
  }

  predicate Matches(p: Product, f: Filter)
  {
    MatchesSearch(p, f.query) && MatchesPrice(p, f.lo, f.hi) && MatchesCondition(p, f.condition)
  }

  /** `filteredProducts`: `products.filter(...)`. */
  function Filtered(products: seq<Product>, f: Filter): (r: seq<Product>)
    ensures |r| <= |products|
  {
    if |products| == 0 then []
    else
      var last := products[|products| - 1];
      Filtered(products[..|products| - 1], f) + (if Matches(last, f) then [last] else [])
  }

  /** A product is listed exactly when it is in the catalog and passes all three tests. */
  lemma {:induction false} FilteredMembers(products: seq<Product>, f: Filter)
    ensures forall p :: p in Filtered(products, f) <==> p in products && Matches(p, f)
  {
    if |products| > 0 {
      var init := products[..|products| - 1];
      FilteredMembers(init, f);
      assert products == init + [products[|products| - 1]];
    }
  }

  /** Filtering keeps catalog order: the kept products of two parts, in order. */
  lemma {:induction false} FilteredAppend(a: seq<Product>, b: seq<Product>, f: Filter)
    ensures Filtered(a + b, f) == Filtered(a, f) + Filtered(b, f)
    decreases |b|
  {
    if |b| == 0 {
      assert a + b == a;
    } else {
      var init := b[..|b| - 1];
      assert (a + b)[..|a + b| - 1] == a + init;
      FilteredAppend(a, init, f);
    }
  }

  /** With an empty query and condition "all", only the price range decides. */
  lemma EmptyQueryAllConditions(p: Product, lo: int, hi: int)
    ensures Matches(p, Filter("", lo, hi, "all")) <==> MatchesPrice(p, lo, hi)
  {
    assert OccursAt(Lower(p.name), Lower(""), 0);
  }

  /** The search ignores ASCII letter case: a query and its lower-cased form find the same products. */
  lemma QueryCaseInsensitive(p: Product, f: Filter)
    ensures Matches(p, f) <==> Matches(p, f.(query := Lower(f.query)))
  {
    LowerIdempotent(f.query);
  }

  lemma LowerIdempotent(s: string)
    ensures Lower(Lower(s)) == Lower(s)
  {
    assert forall i :: 0 <= i < |s| ==> LowerChar(LowerChar(s[i])) == LowerChar(s[i]);
  }

  /**
   * The initial and cleared range hides what costs more than R5000: a
   * product shown at a higher price never appears until the slider moves.
   */
  lemma DefaultRangeHidesDearProducts(p: Product, query: string, condition: string)
    requires ProductCard.DisplayPrice(p) > PriceMax as real
    ensures !Matches(p, Filter(query, PriceMin, PriceMax, condition))
  {
  }

  /** The chip of a price range: `` `R${min} - R${max}` ``. */
  function PriceLabel(lo: int, hi: int): string
  {
    "R" + IntToString(lo) + " - R" + IntToString(hi)
  }

  /** Whether the range differs from the full slider: `min > 0 || max < 5000`. */
  predicate PriceNarrowed(lo: int, hi: int)
  {
    lo > PriceMin || hi < PriceMax
  }

  /** The chips `handleApplyFilters` builds, price first, then the capitalised condition. */
  function FilterLabels(lo: int, hi: int, condition: string): seq<string>
  {
    (if PriceNarrowed(lo, hi) then [PriceLabel(lo, hi)] else [])
      + (if condition != "all" then [Capitalize(condition)] else [])
  }

  /**
   * One chip per narrowed input: the price chip, starting with "R", comes
   * first when the range is narrowed; the condition chip, upper-cased
   * first letter, comes last when a condition is chosen; the cleared
   * filter shows none.
   */
  lemma LabelsSpec(lo: int, hi: int, condition: string)
    ensures |FilterLabels(lo, hi, condition)| == (if PriceNarrowed(lo, hi) then 1 else 0) + (if condition != "all" then 1 else 0)
    ensures PriceNarrowed(lo, hi) ==> FilterLabels(lo, hi, condition)[0] == PriceLabel(lo, hi) && PriceLabel(lo, hi)[0] == 'R'
    ensures condition != "all" ==>
      var l := FilterLabels(lo, hi, condition);
      l[|l| - 1] == Capitalize(condition) && |l[|l| - 1]| == |condition|
    ensures FilterLabels(PriceMin, PriceMax, "all") == []
  {
  }

  /** The page's state: the filter inputs, the sort choice and the applied chips. */
  class SearchState {
    var query: string
    var lo: int
    var hi: int
    var condition: string
    var sortBy: string
    var activeFilters: seq<string>

    /** The initial state (SearchPage.tsx:119-123). */
    constructor ()
      ensures query == "" && lo == PriceMin && hi == PriceMax && condition == "all"
      ensures sortBy == "relevance" && activeFilters == []
    {
      query := "";
      lo := PriceMin;
      hi := PriceMax;
      condition := "all";
      sortBy := "relevance";
      activeFilters := [];
    }

    function Current(): Filter
      reads this
    {
      Filter(query, lo, hi, condition)
    }

    /** The products listed for the current inputs; the chips and the sort play no part. */
    function Results(catalog: seq<Product>): seq<Product>
      reads this
    {
      Filtered(catalog, Current())
    }

    /** `handleApplyFilters`: the chips now describe the current range and condition. */
    method ApplyFilters()
      modifies this`activeFilters
      ensures activeFilters == FilterLabels(lo, hi, condition)
    {
      var filters: seq<string> := [];
      if lo > PriceMin || hi < PriceMax {
        filters := filters + [PriceLabel(lo, hi)];
      }
      if condition != "all" {
        filters := filters + [Capitalize(condition)];
      }
      activeFilters := filters;
    }

    /** `clearFilters`: full range, every condition, no chips; the search text and sort stay. */
    method ClearFilters()
      modifies this`lo, this`hi, this`condition, this`activeFilters
      ensures lo == PriceMin && hi == PriceMax && condition == "all" && activeFilters == []
      ensures activeFilters == FilterLabels(lo, hi, condition)
    {
      lo := PriceMin;
      hi := PriceMax;
      condition := "all";
      activeFilters := [];
    }
  }
}
