/**
 * Query objects of the application layer (products/application/queries.py):
 * the paging clamps of `ListProductsQuery`, `SearchProductsQuery` and
 * `GetRelatedProductsQuery`, and the filter dictionary and cache key a search
 * query builds. A dictionary the source iterates in insertion order is a
 * sequence of (key, value) items here.
 */
module Queries {
  import opened Prelude

  // ---------------------------------------------------------------- ListProductsQuery

  datatype ListProductsQuery = ListProductsQuery(
    page: int, pageSize: int, activeOnly: bool, sortBy: string, sortDirection: string, categoryId: Option<string>)

  /** `ListProductsQuery(...)`: the page is at least 1 and the page size lies in [1, 100]. */
  function NewListProductsQuery(page: int, pageSize: int, activeOnly: bool, sortBy: string, sortDirection: string,
                                categoryId: Option<string>): (q: ListProductsQuery)
    ensures 1 <= q.page && (1 <= page ==> q.page == page) && (page < 1 ==> q.page == 1)
    ensures 1 <= q.pageSize <= 100 && q.pageSize == Clamp(1, 100, pageSize)
    ensures q.activeOnly == activeOnly && q.sortBy == sortBy && q.sortDirection == sortDirection
    ensures q.categoryId == categoryId
  {
    ListProductsQuery(Max(1, page), Clamp(1, 100, pageSize), activeOnly, sortBy, sortDirection, categoryId)
  }

  // ---------------------------------------------------------------- GetRelatedProductsQuery

  datatype GetRelatedProductsQuery = GetRelatedProductsQuery(productId: string, limit: int)

  /** `GetRelatedProductsQuery(product_id, limit)`: the limit lies in [1, 20]. */
  function NewGetRelatedProductsQuery(productId: string, limit: int): (q: GetRelatedProductsQuery)
    ensures q.productId == productId
    ensures 1 <= q.limit <= 20 && q.limit == Clamp(1, 20, limit)
  {
    GetRelatedProductsQuery(productId, Clamp(1, 20, limit))
  }

  // ---------------------------------------------------------------- SearchProductsQuery

  const DefaultFacetFields: seq<string> := ["category_id", "price", "rating_value"]

  datatype SearchProductsQuery = SearchProductsQuery(
    keyword: string,
    categoryId: Option<string>,
    minPrice: Option<Decimal>,
    maxPrice: Option<Decimal>,
    page: int,
    pageSize: int,
    sortBy: string,
    sortDirection: string,
    includeFacets: bool,
    facetFields: seq<string>,
    selectedFacets: seq<(string, seq<string>)>)

  /** `SearchProductsQuery(...)`: the same paging clamps; no (or an empty) list of
      facet fields means the default three; no selected facets means none. */
  function NewSearchProductsQuery(keyword: string, categoryId: Option<string>, minPrice: Option<Decimal>,
                                  maxPrice: Option<Decimal>, page: int, pageSize: int, sortBy: string,
                                  sortDirection: string, includeFacets: bool, facetFields: Option<seq<string>>,
                                  selectedFacets: Option<seq<(string, seq<string>)>>): (q: SearchProductsQuery)
    ensures 1 <= q.page && (1 <= page ==> q.page == page) && (page < 1 ==> q.page == 1)
    ensures 1 <= q.pageSize <= 100 && q.pageSize == Clamp(1, 100, pageSize)
    ensures q.facetFields == if facetFields.Some? && facetFields.value != [] then facetFields.value else DefaultFacetFields
    ensures q.facetFields != []
    ensures q.selectedFacets == if selectedFacets.Some? then selectedFacets.value else []
    ensures q.keyword == keyword && q.categoryId == categoryId && q.minPrice == minPrice && q.maxPrice == maxPrice
  {
    SearchProductsQuery(keyword, categoryId, minPrice, maxPrice, Max(1, page), Clamp(1, 100, pageSize), sortBy,
                        sortDirection, includeFacets,
                        if facetFields.Some? && facetFields.value != [] then facetFields.value else DefaultFacetFields,
                        if selectedFacets.Some? then selectedFacets.value else [])
  }

  /** A value of the filter dictionary. */
  datatype FilterValue = FText(s: string) | FPrice(d: Decimal) | FValues(vs: seq<string>)

  function FacetKey(field: string): string
  {
    "facet_" + field
  }

  lemma FacetKeyInjective(a: string, b: string)
    ensures FacetKey(a) == FacetKey(b) ==> a == b
  {
    if FacetKey(a) == FacetKey(b) {
      assert a == FacetKey(a)[6..] && b == FacetKey(b)[6..];
    }
  }

  /** The fixed part of `get_filters`. */
  function BaseFilters(q: SearchProductsQuery): map<string, FilterValue>
  {
    var m1 := if Truthy(q.categoryId) then map["category_id" := FText(q.categoryId.value)] else map[];
    var m2 := if q.minPrice.Some? then m1["min_price" := FPrice(q.minPrice.value)] else m1;
    if q.maxPrice.Some? then m2["max_price" := FPrice(q.maxPrice.value)] else m2
  }

  /** The facet part of `get_filters`, built item by item; a later item wins. */
  function FacetFilters(sel: seq<(string, seq<string>)>): map<string, FilterValue>
    decreases |sel|
  {
    if sel == [] then map[]
    else
      var m := FacetFilters(sel[..|sel| - 1]);
      var last := sel[|sel| - 1];
      if last.1 != [] then m[FacetKey(last.0) := FValues(last.1)] else m
  }

  /** `get_filters`: the fixed filters and the facet filters; nothing else is filtered. */
  function Filters(q: SearchProductsQuery): (r: map<string, FilterValue>)
    ensures forall k :: k in r ==> k == "category_id" || k == "min_price" || k == "max_price" || (|k| >= 6 && k[..6] == "facet_")
  {
    FacetKeysArePrefixed(q.selectedFacets);
    BaseFilters(q) + FacetFilters(q.selectedFacets)
  }

  /** Updating the facet part of a union updates the union. */
  lemma UnionUpdate(base: map<string, FilterValue>, facets: map<string, FilterValue>, k: string, v: FilterValue)
    ensures (base + facets)[k := v] == base + facets[k := v]
  {
  }

  /** `get_filters`: the fixed filters, then a loop over the selected facets. */
  method GetFilters(q: SearchProductsQuery) returns (filters: map<string, FilterValue>)
    ensures filters == Filters(q)
  {
    filters := map[];
    if Truthy(q.categoryId) {
      filters := filters["category_id" := FText(q.categoryId.value)];
    }
    if q.minPrice.Some? {
      filters := filters["min_price" := FPrice(q.minPrice.value)];
    }
    if q.maxPrice.Some? {
      filters := filters["max_price" := FPrice(q.maxPrice.value)];
    }
    var sel := q.selectedFacets;
    assert sel[..0] == [];
    assert filters == BaseFilters(q) + FacetFilters(sel[..0]);
    var i := 0;
    while i < |sel|
      invariant 0 <= i <= |sel|
      invariant filters == BaseFilters(q) + FacetFilters(sel[..i])
    {
      assert sel[..i + 1][..i] == sel[..i];
      var field := sel[i].0;
      var values := sel[i].1;
      if values != [] {
        UnionUpdate(BaseFilters(q), FacetFilters(sel[..i]), FacetKey(field), FValues(values));
        filters := filters[FacetKey(field) := FValues(values)];
      }
      i := i + 1;
    }
    assert sel[..|sel|] == sel;
  }

  /** Every facet filter key starts with "facet_". */
  lemma {:induction false} FacetKeysArePrefixed(sel: seq<(string, seq<string>)>)
    ensures forall k :: k in FacetFilters(sel) ==> |k| >= 6 && k[..6] == "facet_" && k[0] == 'f'
    decreases |sel|
  {
    if sel != [] {
      FacetKeysArePrefixed(sel[..|sel| - 1]);
      assert FacetKey(sel[|sel| - 1].0)[..6] == "facet_";
    }
  }

  /** `category_id` is filtered only when truthy, the price bounds whenever given,
      zero included; the facet filters never clash with them. */
  lemma BaseFiltersExact(q: SearchProductsQuery)
    ensures "category_id" in Filters(q) <==> Truthy(q.categoryId)
    ensures Truthy(q.categoryId) ==> Filters(q)["category_id"] == FText(q.categoryId.value)
    ensures "min_price" in Filters(q) <==> q.minPrice.Some?
    ensures q.minPrice.Some? ==> Filters(q)["min_price"] == FPrice(q.minPrice.value)
    ensures "max_price" in Filters(q) <==> q.maxPrice.Some?
    ensures q.maxPrice.Some? ==> Filters(q)["max_price"] == FPrice(q.maxPrice.value)
  {
    FacetKeysArePrefixed(q.selectedFacets);
    assert "category_id"[0] == 'c' && "min_price"[0] == 'm' && "max_price"[0] == 'm';
  }

  /** Every facet filter comes from a selected field with a non-empty selection. */
  lemma {:induction false} FacetFilterKeysFromItems(sel: seq<(string, seq<string>)>)
    ensures forall k :: k in FacetFilters(sel) ==> exists i :: 0 <= i < |sel| && k == FacetKey(sel[i].0) && sel[i].1 != []
    decreases |sel|
  {
    if sel != [] {
      var n := |sel| - 1;
      var init := sel[..n];
      FacetFilterKeysFromItems(init);
      forall k | k in FacetFilters(sel)
        ensures exists i :: 0 <= i < |sel| && k == FacetKey(sel[i].0) && sel[i].1 != []
      {
        if sel[n].1 != [] && k == FacetKey(sel[n].0) {
          assert 0 <= n < |sel|;
        } else {
          assert k in FacetFilters(init);
          var i :| 0 <= i < n && k == FacetKey(init[i].0) && init[i].1 != [];
          assert sel[i] == init[i];
        }
      }
    }
  }

  /** With distinct facet fields, a field is filtered exactly when its selection is
      non-empty, and then with that selection. */
  lemma {:induction false} FacetFilterOfItem(sel: seq<(string, seq<string>)>, i: nat)
    requires DistinctKeys(sel) && i < |sel|
    ensures FacetKey(sel[i].0) in FacetFilters(sel) <==> sel[i].1 != []
    ensures sel[i].1 != [] ==> FacetFilters(sel)[FacetKey(sel[i].0)] == FValues(sel[i].1)
    decreases |sel|
  {
    var n := |sel| - 1;
    var init := sel[..n];
    var last := sel[n];
    assert DistinctKeys(init);
    if i == n {
      if last.1 == [] && FacetKey(last.0) in FacetFilters(init) {
        FacetFilterKeysFromItems(init);
        var j :| 0 <= j < n && FacetKey(last.0) == FacetKey(init[j].0) && init[j].1 != [];
        FacetKeyInjective(last.0, init[j].0);
        assert false;
      }
    } else {
      FacetFilterOfItem(init, i);
      FacetKeyInjective(sel[i].0, last.0);
      assert init[i] == sel[i];
    }
  }

  /** The facet filters are exactly `facet_<field>` for the fields with a non-empty
      selection, each with its selection. */
  lemma FacetFiltersExact(sel: seq<(string, seq<string>)>)
    requires DistinctKeys(sel)
    ensures forall i :: 0 <= i < |sel| ==> (FacetKey(sel[i].0) in FacetFilters(sel) <==> sel[i].1 != [])
    ensures forall i :: 0 <= i < |sel| && sel[i].1 != [] ==> FacetFilters(sel)[FacetKey(sel[i].0)] == FValues(sel[i].1)
    ensures forall k :: k in FacetFilters(sel) ==> exists i :: 0 <= i < |sel| && k == FacetKey(sel[i].0) && sel[i].1 != []
  {
    forall i | 0 <= i < |sel|
      ensures FacetKey(sel[i].0) in FacetFilters(sel) <==> sel[i].1 != []
      ensures sel[i].1 != [] ==> FacetFilters(sel)[FacetKey(sel[i].0)] == FValues(sel[i].1)
    {
      FacetFilterOfItem(sel, i);
    }
    FacetFilterKeysFromItems(sel);
  }

  // ---------------------------------------------------------------- get_cache_key

  /** Python truthiness of a Decimal. */
  predicate NonZero(d: Option<Decimal>)
  {
    d.Some? && d.value.value != 0.0
  }

  /** `f"price:{min_price or 0}-{max_price or 'max'}"`, as written. */
  function PriceSegment(minPrice: Option<Decimal>, maxPrice: Option<Decimal>): string
  {
    "price:" + (if NonZero(minPrice) then minPrice.value.text else "0") + "-"
      + (if NonZero(maxPrice) then maxPrice.value.text else "max")
  }

  /** The price segment with "max" only for a missing upper bound. */
  function CorrectedPriceSegment(minPrice: Option<Decimal>, maxPrice: Option<Decimal>): string
  {
    "price:" + (if NonZero(minPrice) then minPrice.value.text else "0") + "-"
      + (if maxPrice.Some? then maxPrice.value.text else "max")
  }

  /** The five fixed segments, around a given price segment. */
  function BaseKeyParts(q: SearchProductsQuery, price: string): seq<string>
  {
    ["search:" + q.keyword,
     "cat:" + (if Truthy(q.categoryId) then q.categoryId.value else "all"),
     price,
     "page:" + IntToString(q.page) + ":" + IntToString(q.pageSize),
     "sort:" + q.sortBy + ":" + q.sortDirection]
  }

  /** One segment per selected facet with a non-empty selection, in item order. */
  function FacetKeyParts(sel: seq<(string, seq<string>)>): seq<string>
    decreases |sel|
  {
    if sel == [] then []
    else
      var parts := FacetKeyParts(sel[..|sel| - 1]);
      var last := sel[|sel| - 1];
      if last.1 != [] then parts + [FacetKey(last.0) + ":" + Join(last.1, "-")] else parts
  }

  /** The key `get_cache_key` builds: it opens with the keyword, then the category. */
  function CacheKey(q: SearchProductsQuery): (key: string)
    ensures "search:" + q.keyword + ":cat:" <= key
  {
    var parts := BaseKeyParts(q, PriceSegment(q.minPrice, q.maxPrice)) + FacetKeyParts(q.selectedFacets);
    JoinOpensWith(parts, ":");
    Join(parts, ":")
  }

  /** The key with the corrected price segment; it opens the same way. */
  function CorrectedCacheKey(q: SearchProductsQuery): (key: string)
    ensures "search:" + q.keyword + ":cat:" <= key
  {
    var parts := BaseKeyParts(q, CorrectedPriceSegment(q.minPrice, q.maxPrice)) + FacetKeyParts(q.selectedFacets);
    JoinOpensWith(parts, ":");
    Join(parts, ":")
  }

  /** `get_cache_key`, with the corrected price segment: the fixed segments, then a
      loop over the selected facets. */
  method GetCacheKey(q: SearchProductsQuery) returns (key: string)
    ensures key == CorrectedCacheKey(q)
  {
    var parts := BaseKeyParts(q, CorrectedPriceSegment(q.minPrice, q.maxPrice));
    var sel := q.selectedFacets;
    var i := 0;
    assert sel[..0] == [];
    while i < |sel|
      invariant 0 <= i <= |sel|
      invariant parts == BaseKeyParts(q, CorrectedPriceSegment(q.minPrice, q.maxPrice)) + FacetKeyParts(sel[..i])
    {
      assert sel[..i + 1][..i] == sel[..i];
      var (field, values) := sel[i];
      if values != [] {
        parts := parts + [FacetKey(field) + ":" + Join(values, "-")];
      }
      i := i + 1;
    }
    assert sel[..|sel|] == sel;
    key := Join(parts, ":");
  }

  /** As written, a zero upper price bound shares its cache key with no upper bound,
      although only the former filters on `max_price`. */
  lemma MaxPriceZeroCollides(q: SearchProductsQuery, zero: Decimal)
    requires q.maxPrice.None? && zero.value == 0.0
    ensures var q0 := q.(maxPrice := Some(zero));
            CacheKey(q0) == CacheKey(q) && "max_price" in Filters(q0) && "max_price" !in Filters(q)
  {
    BaseFiltersExact(q);
    BaseFiltersExact(q.(maxPrice := Some(zero)));
  }

  /** `a + x + b == a + y + b` only when `x == y`. */
  lemma MiddleCancels(a: string, x: string, y: string, b: string)
    requires a + x + b == a + y + b
    ensures x == y
  {
    var s := a + x + b;
    assert |x| == |y|;
    assert x == s[|a|..|a| + |x|];
    assert y == (a + y + b)[|a|..|a| + |y|];
  }

  /** Joined keys that differ only in the third segment differ. */
  lemma JoinThirdDiffers(p: seq<string>, x: string, y: string, sep: string)
    requires |p| >= 4 && x != y
    ensures Join(p[2 := x], sep) != Join(p[2 := y], sep)
  {
    var px := p[2 := x];
    var py := p[2 := y];
    assert px[1..][1..] == [x] + p[3..] && py[1..][1..] == [y] + p[3..];
    var tail := sep + Join(p[3..], sep);
    assert Join([x] + p[3..], sep) == x + tail by {
      assert ([x] + p[3..])[1..] == p[3..];
    }
    assert Join([y] + p[3..], sep) == y + tail by {
      assert ([y] + p[3..])[1..] == p[3..];
    }
    var head := p[0] + sep + p[1] + sep;
    assert Join(px, sep) == head + x + tail;
    assert Join(py, sep) == head + y + tail;
    if Join(px, sep) == Join(py, sep) {
      MiddleCancels(head, x, y, tail);
    }
  }

  /** The corrected key tells a missing upper bound from any given one. */
  lemma CorrectedKeySeparatesMaxPrice(q: SearchProductsQuery, d: Decimal)
    requires q.maxPrice.None? && d.text != "max"
    ensures CorrectedCacheKey(q) != CorrectedCacheKey(q.(maxPrice := Some(d)))
  {
    var lo := if NonZero(q.minPrice) then q.minPrice.value.text else "0";
    var x := CorrectedPriceSegment(q.minPrice, None);
    var y := CorrectedPriceSegment(q.minPrice, Some(d));
    assert x == "price:" + lo + "-" + "max" && y == "price:" + lo + "-" + d.text;
    if x == y {
      MiddleCancels("price:" + lo + "-", "max", d.text, "");
    }
    var p := BaseKeyParts(q, x) + FacetKeyParts(q.selectedFacets);
    assert BaseKeyParts(q.(maxPrice := Some(d)), y) + FacetKeyParts(q.selectedFacets) == p[2 := y];
    assert p == p[2 := x];
    JoinThirdDiffers(p, x, y, ":");
  }

  /** The correction changes nothing unless the upper bound is a zero. */
  lemma CorrectedKeyAgreesOtherwise(q: SearchProductsQuery)
    requires !(q.maxPrice.Some? && q.maxPrice.value.value == 0.0)
    ensures CorrectedCacheKey(q) == CacheKey(q)
  {
  }
}
