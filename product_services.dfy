/**
 * `ProductService` (products/domain/services.py): validation and orchestration
 * over the product repository, which is modelled as an in-memory map from id to
 * aggregate (`save` of an existing aggregate leaves the map as it is). The
 * related-products rule is a function of the pages the repository returns.
 */
module ProductServices {
  import opened Prelude
  import opened CoreValueObjects
  import opened ProductEntities
  import opened ProductValueObjects
  import opened ProductAggregates

  /** The `ValueError`s the service raises, and the domain errors it lets through. */
  datatype ServiceError =
    | NegativeStock
    | NegativeReserved
    | ProductNotFound(id: string)
    | CategoryNotFound(id: string)
    | RatingOutOfRange
    | StateRefused(stateError: StateError)
    | RatingRefused(ratingError: RatingError)

  // ---------------------------------------------------------------- related products

  /** Python's `s[:n]`: a negative bound counts from the end. */
  function PyPrefix<T>(s: seq<T>, n: int): (r: seq<T>)
    ensures 0 <= n ==> r == s[..Min(n, |s|)]
    ensures n < 0 ==> r == s[..Max(0, |s| + n)]
    ensures |r| <= |s| && r == s[..|r|]
  {
    if 0 <= n then s[..Min(n, |s|)] else s[..Max(0, |s| + n)]
  }

  predicate Distinct<T(==)>(s: seq<T>)
  {
    forall i, j :: 0 <= i < j < |s| ==> s[i] != s[j]
  }

  /** The comprehension `[p for p in s if p not in excluded]`, order kept. */
  function Excluding(s: seq<string>, excluded: set<string>): (r: seq<string>)
    ensures forall x :: x in r <==> x in s && x !in excluded
    ensures |r| <= |s|
    ensures Distinct(s) ==> Distinct(r)
  {
    if s == [] then []
    else
      var rest := Excluding(s[1..], excluded);
      assert forall x :: x in s[1..] ==> x in s;
      if s[0] in excluded then rest
      else
        assert Distinct(s) ==> s[0] !in s[1..];
        [s[0]] + rest
  }

  /** `idx` lists, in strictly increasing order, positions of `s` holding the
      elements of `r` one by one: `r` is `s` with some elements left out, order kept. */
  predicate OrderedIndices(r: seq<string>, s: seq<string>, idx: seq<nat>)
  {
    |idx| == |r| &&
    (forall i :: 0 <= i < |idx| ==> idx[i] < |s| && r[i] == s[idx[i]]) &&
    (forall i, j :: 0 <= i < j < |idx| ==> idx[i] < idx[j])
  }

  /** Positions in `s[1..]` moved up by one, to positions in `s`. */
  lemma ShiftIndices(r: seq<string>, s: seq<string>, tail: seq<nat>) returns (shifted: seq<nat>)
    requires |s| > 0 && OrderedIndices(r, s[1..], tail)
    ensures OrderedIndices(r, s, shifted)
    ensures forall i :: 0 <= i < |shifted| ==> 0 < shifted[i]
  {
    shifted := seq(|tail|, i requires 0 <= i < |tail| => tail[i] + 1);
  }

  /** The first element of `s` kept in front of positions that all lie after it. */
  lemma PrependIndex(r: seq<string>, s: seq<string>, idx: seq<nat>)
    requires |s| > 0 && OrderedIndices(r, s, idx)
    requires forall i :: 0 <= i < |idx| ==> 0 < idx[i]
    ensures OrderedIndices([s[0]] + r, s, [0] + idx)
  {
    var full := [0] + idx;
    assert forall i :: 1 <= i < |full| ==> full[i] == idx[i - 1];
  }

  /** The comprehension keeps the order of the list it filters. */
  lemma {:induction false} ExcludingKeepsOrder(s: seq<string>, excluded: set<string>)
    ensures exists idx :: OrderedIndices(Excluding(s, excluded), s, idx)
  {
    if s == [] {
      assert Excluding(s, excluded) == [];
      assert OrderedIndices(Excluding(s, excluded), s, []);
    } else {
      var rest := Excluding(s[1..], excluded);
      ExcludingKeepsOrder(s[1..], excluded);
      var tail :| OrderedIndices(rest, s[1..], tail);
      var shifted := ShiftIndices(rest, s, tail);
      if s[0] in excluded {
        assert OrderedIndices(Excluding(s, excluded), s, shifted);
      } else {
        assert Excluding(s, excluded) == [s[0]] + rest;
        PrependIndex(rest, s, shifted);
        assert OrderedIndices(Excluding(s, excluded), s, [0] + shifted);
      }
    }
  }

  /** `get_related_products` once the product is found: up to `limit` products of the
      same category other than `pid`; if fewer, filled up with keyword matches that
      are neither `pid` nor already chosen. `categoryPage` and `keywordPage` are the
      pages of `limit + 1` ids the repository returns. */
  function RelatedProducts(pid: string, hasCategory: bool, hasKeywords: bool, limit: int,
                           categoryPage: seq<string>, keywordPage: seq<string>): (r: seq<string>)
    ensures pid !in r
    ensures forall x :: x in r ==> x in categoryPage || x in keywordPage
  {
    var fromCategory := if hasCategory then PyPrefix(Excluding(categoryPage, {pid}), limit) else [];
    if hasCategory && |fromCategory| >= limit then fromCategory
    else if hasKeywords && |fromCategory| < limit then
      fromCategory + PyPrefix(Excluding(keywordPage, {pid} + set x | x in fromCategory), limit - |fromCategory|)
    else fromCategory
  }

  /** The category part that leads the result. */
  function CategoryPart(pid: string, hasCategory: bool, limit: int, categoryPage: seq<string>): seq<string>
  {
    if hasCategory then PyPrefix(Excluding(categoryPage, {pid}), limit) else []
  }

  lemma PrefixKeepsDistinct<T>(s: seq<T>, n: nat)
    requires n <= |s| && Distinct(s)
    ensures Distinct(s[..n])
  {
  }

  /** The keyword matches that fill up the result after the category part. */
  function KeywordPart(pid: string, hasCategory: bool, hasKeywords: bool, limit: int,
                       categoryPage: seq<string>, keywordPage: seq<string>): seq<string>
  {
    var c := CategoryPart(pid, hasCategory, limit, categoryPage);
    if !(hasCategory && |c| >= limit) && hasKeywords && |c| < limit then
      PyPrefix(Excluding(keywordPage, {pid} + set x | x in c), limit - |c|)
    else []
  }

  lemma RelatedIsCategoryThenKeywords(pid: string, hasCategory: bool, hasKeywords: bool, limit: int,
                                      categoryPage: seq<string>, keywordPage: seq<string>)
    ensures RelatedProducts(pid, hasCategory, hasKeywords, limit, categoryPage, keywordPage) ==
              CategoryPart(pid, hasCategory, limit, categoryPage) +
              KeywordPart(pid, hasCategory, hasKeywords, limit, categoryPage, keywordPage)
  {
  }

  lemma CategoryPartFacts(pid: string, hasCategory: bool, limit: int, categoryPage: seq<string>)
    ensures var c := CategoryPart(pid, hasCategory, limit, categoryPage);
            pid !in c && (forall x :: x in c ==> x in categoryPage) &&
            (0 <= limit ==> |c| <= limit) && (Distinct(categoryPage) ==> Distinct(c)) &&
            (0 <= limit && hasCategory ==> |c| == Min(limit, |Excluding(categoryPage, {pid})|))
  {
    var c := CategoryPart(pid, hasCategory, limit, categoryPage);
    if hasCategory && Distinct(categoryPage) {
      PrefixKeepsDistinct(Excluding(categoryPage, {pid}), |c|);
    }
  }

  lemma KeywordPartFacts(pid: string, hasCategory: bool, hasKeywords: bool, limit: int,
                         categoryPage: seq<string>, keywordPage: seq<string>)
    ensures var c := CategoryPart(pid, hasCategory, limit, categoryPage);
            var k := KeywordPart(pid, hasCategory, hasKeywords, limit, categoryPage, keywordPage);
            pid !in k && (forall x :: x in k ==> x in keywordPage && x !in c) &&
            (0 <= limit ==> |c| + |k| <= limit) && (Distinct(keywordPage) ==> Distinct(k)) &&
            (0 <= limit && hasKeywords && |c| < limit ==>
               |k| == Min(limit - |c|, |Excluding(keywordPage, {pid} + set x | x in c)|))
  {
    var c := CategoryPart(pid, hasCategory, limit, categoryPage);
    var k := KeywordPart(pid, hasCategory, hasKeywords, limit, categoryPage, keywordPage);
    if k != [] {
      var kw := Excluding(keywordPage, {pid} + set x | x in c);
      assert forall x :: x in k ==> x in kw;
      if Distinct(keywordPage) {
        PrefixKeepsDistinct(kw, |k|);
      }
    }
  }

  lemma AppendDistinct(a: seq<string>, b: seq<string>)
    requires Distinct(a) && Distinct(b) && forall x :: x in b ==> x !in a
    ensures Distinct(a + b)
  {
    forall i, j | 0 <= i < j < |a + b|
      ensures (a + b)[i] != (a + b)[j]
    {
      if i < |a| <= j {
        assert (a + b)[j] in b && (a + b)[i] in a;
      }
    }
  }

  /** The related products never include the product itself, never exceed a
      non-negative limit, start with the category matches, come only from the two
      pages, and repeat no id when the pages do not. */
  lemma {:induction false} RelatedProductsProperties(pid: string, hasCategory: bool, hasKeywords: bool, limit: int,
                                                     categoryPage: seq<string>, keywordPage: seq<string>)
    ensures var r := RelatedProducts(pid, hasCategory, hasKeywords, limit, categoryPage, keywordPage);
            pid !in r &&
            (0 <= limit ==> |r| <= limit) &&
            (forall x :: x in r ==> x in categoryPage || x in keywordPage) &&
            var c := CategoryPart(pid, hasCategory, limit, categoryPage);
            |c| <= |r| && r[..|c|] == c &&
            (forall x :: x in r[|c|..] ==> x !in c && x in keywordPage) &&
            (0 <= limit && hasCategory ==> |c| == Min(limit, |Excluding(categoryPage, {pid})|)) &&
            (0 <= limit && hasKeywords && |c| < limit ==>
               |r| - |c| == Min(limit - |c|, |Excluding(keywordPage, {pid} + set x | x in c)|)) &&
            (Distinct(categoryPage) && Distinct(keywordPage) ==> Distinct(r))
  {
    var c := CategoryPart(pid, hasCategory, limit, categoryPage);
    var k := KeywordPart(pid, hasCategory, hasKeywords, limit, categoryPage, keywordPage);
    RelatedIsCategoryThenKeywords(pid, hasCategory, hasKeywords, limit, categoryPage, keywordPage);
    CategoryPartFacts(pid, hasCategory, limit, categoryPage);
    KeywordPartFacts(pid, hasCategory, hasKeywords, limit, categoryPage, keywordPage);
    assert (c + k)[..|c|] == c && (c + k)[|c|..] == k;
    if Distinct(categoryPage) && Distinct(keywordPage) {
      AppendDistinct(c, k);
    }
  }

  // ---------------------------------------------------------------- the service

  class ProductService {
    var products: map<string, ProductAggregate>
    var categories: set<string>

    constructor (products: map<string, ProductAggregate>, categories: set<string>)
      ensures this.products == products && this.categories == categories
    {
      this.products := products;
      this.categories := categories;
    }

    /** The objects a stock or rating update on `pid` may change. */
    function StockFrame(pid: string): set<object>
      reads this
    {
      if pid in products then {products[pid], products[pid].root} else {}
    }

    /** The objects a state change on `pid` may change. */
    function StateFrame(pid: string): set<object>
      reads this
    {
      if pid in products then {products[pid].product, products[pid].root} else {}
    }

    /** `update_stock`: negative quantities are refused before the product is looked
        up; then the available count is set and, only when given, the reserved count. */
    method UpdateStock(pid: string, newStock: int, reservedStock: Option<int>)
      returns (r: Result<ProductAggregate, ServiceError>)
      modifies StockFrame(pid)
      ensures products == old(products) && categories == old(categories)
      ensures newStock < 0 ==> r == Err(NegativeStock)
      ensures 0 <= newStock && reservedStock.Some? && reservedStock.value < 0 ==> r == Err(NegativeReserved)
      ensures 0 <= newStock && (reservedStock.None? || reservedStock.value >= 0) && pid !in products ==>
                r == Err(ProductNotFound(pid))
      ensures r.Err? ==> unchanged(StockFrame(pid))
      ensures r.Ok? ==>
                pid in products && r.value == products[pid] &&
                var a := products[pid];
                a.stockAvailable == newStock &&
                a.stockReserved == (if reservedStock.Some? then reservedStock.value else old(a.stockReserved)) &&
                a.rating == old(a.rating) && a.specification == old(a.specification) &&
                a.root.version == old(a.root.version) + (if reservedStock.Some? then 2 else 1) &&
                a.root.events == old(a.root.events) + [StockChanged(a.root.id, old(a.stockAvailable), newStock)] +
                  (if reservedStock.Some? then [ReservedStockChanged(a.root.id, old(a.stockReserved), reservedStock.value)] else [])
      ensures r.Ok? <==> 0 <= newStock && (reservedStock.None? || reservedStock.value >= 0) && pid in products
    {
      if newStock < 0 {
        return Err(NegativeStock);
      }
      if reservedStock.Some? && reservedStock.value < 0 {
        return Err(NegativeReserved);
      }
      if pid !in products {
        return Err(ProductNotFound(pid));
      }
      var a := products[pid];
      a.UpdateStock(newStock);
      if reservedStock.Some? {
        a.UpdateReservedStock(reservedStock.value);
      }
      r := Ok(a);
    }

    /** `add_rating`: a value outside [1, 5] is refused before the lookup; the
        aggregate's new rating is announced in an event. */
    method AddRating(pid: string, value: real) returns (r: Result<ProductAggregate, ServiceError>)
      modifies StockFrame(pid)
      ensures products == old(products) && categories == old(categories)
      ensures !(1.0 <= value <= 5.0) ==> r == Err(RatingOutOfRange)
      ensures 1.0 <= value <= 5.0 && pid !in products ==> r == Err(ProductNotFound(pid))
      ensures r.Err? && (r.error.RatingOutOfRange? || r.error.ProductNotFound?) ==> unchanged(StockFrame(pid))
      ensures 1.0 <= value <= 5.0 && pid in products ==>
                var a := products[pid];
                var next := ProductValueObjects.AddRating(old(a.rating), value);
                a.stockAvailable == old(a.stockAvailable) && a.stockReserved == old(a.stockReserved) &&
                a.specification == old(a.specification) &&
                (next.Err? ==> r == Err(RatingRefused(next.error)) && a.rating == old(a.rating) &&
                               a.root.version == old(a.root.version) && a.root.events == old(a.root.events)) &&
                (next.Ok? ==> r == Ok(a) && a.rating == next.value && a.root.version == old(a.root.version) + 1 &&
                              a.root.events == old(a.root.events) + [RatingAdded(pid, value, next.value.value, next.value.count)])
    {
      if !(1.0 <= value <= 5.0) {
        return Err(RatingOutOfRange);
      }
      if pid !in products {
        return Err(ProductNotFound(pid));
      }
      var a := products[pid];
      var err := a.AddRating(value);
      if err.Some? {
        return Err(RatingRefused(err.value));
      }
      a.root.AddDomainEvent(RatingAdded(pid, value, a.rating.value, a.rating.count));
      r := Ok(a);
    }

    /** `change_product_state`: `activate` or `deactivate`, then one event with the
        old and the new state; a refused transition raises before the event. */
    method ChangeProductState(pid: string, activate: bool, now: nat) returns (r: Result<ProductAggregate, ServiceError>)
      modifies StateFrame(pid)
      ensures products == old(products) && categories == old(categories)
      ensures pid !in products ==> r == Err(ProductNotFound(pid))
      ensures pid in products ==>
                var a := products[pid];
                var t := Transition(old(a.product.state), if activate then Activate else Deactivate);
                a.product.InfoUnchanged() &&
                (t.Err? ==> r == Err(StateRefused(t.error)) && a.product.state == old(a.product.state) &&
                            a.product.version == old(a.product.version) && a.product.updatedAt == old(a.product.updatedAt) &&
                            a.root.events == old(a.root.events)) &&
                (t.Ok? ==> r == Ok(a) && a.product.state == t.value && a.product.version == old(a.product.version) + 1 &&
                           a.product.updatedAt == now &&
                           a.root.events == old(a.root.events) + [StateChanged(pid, old(a.product.state), t.value)])
      ensures pid in products ==> products[pid].root.version == old(products[pid].root.version)
    {
      if pid !in products {
        return Err(ProductNotFound(pid));
      }
      var a := products[pid];
      var oldState := a.product.state;
      var err;
      if activate {
        err := a.product.ActivateProduct(now);
      } else {
        err := a.product.DeactivateProduct(now);
      }
      if err.Some? {
        return Err(StateRefused(err.value));
      }
      a.root.AddDomainEvent(StateChanged(pid, oldState, a.product.state));
      r := Ok(a);
    }

    /** `create_product`: a truthy category id must name an existing category; the
        new aggregate is a draft product at version 0 with `initialStock` available,
        nothing reserved and exactly one creation event, saved under its fresh id. */
    method CreateProduct(name: string, description: string, price: Money, keywords: string,
                         categoryId: Option<string>, specification: Option<map<string, Json>>,
                         initialStock: int, freshId: string, now: nat)
      returns (r: Result<ProductAggregate, ServiceError>)
      modifies this
      ensures categories == old(categories)
      ensures Truthy(categoryId) && categoryId.value !in categories ==>
                r == Err(CategoryNotFound(categoryId.value)) && products == old(products)
      ensures r.Ok? <==> !(Truthy(categoryId) && categoryId.value !in categories)
      ensures r.Ok? ==>
                var a := r.value;
                fresh(a) && fresh(a.product) && fresh(a.root) && a.root.id == a.product.id &&
                products == old(products)[freshId := a] &&
                a.product.id == freshId && a.product.name == name && a.product.price == price &&
                a.product.description == description && a.product.keywords == keywords &&
                a.product.createdAt == now && a.product.updatedAt == now &&
                a.product.categoryId == categoryId && a.product.state == Draft && a.product.version == 0 &&
                a.stockAvailable == initialStock && a.stockReserved == 0 && a.rating == ZeroRating() &&
                a.specification == ProductSpecification(if specification.Some? then specification.value else map[]) &&
                a.root.version == 0 && a.root.events == [ProductCreated(freshId, name, price, categoryId)]
    {
      if Truthy(categoryId) && categoryId.value !in categories {
        return Err(CategoryNotFound(categoryId.value));
      }
      var product := new Product(None, freshId, name, description, Some(price), keywords, categoryId, now);
      var spec := ProductSpecification(if specification.Some? then specification.value else map[]);
      var a := new ProductAggregate(product, None, Some(spec), initialStock, 0);
      a.root.AddDomainEvent(ProductCreated(product.id, name, price, categoryId));
      products := products[freshId := a];
      r := Ok(a);
    }

    /** `get_related_products`: an unknown product is refused; otherwise the rule above
        over its category and keywords. */
    method GetRelatedProducts(pid: string, limit: int, categoryPage: seq<string>, keywordPage: seq<string>)
      returns (r: Result<seq<string>, ServiceError>)
      ensures pid !in products ==> r == Err(ProductNotFound(pid))
      ensures pid in products ==>
                var p := products[pid].product;
                r == Ok(RelatedProducts(pid, Truthy(p.categoryId), p.keywords != "", limit, categoryPage, keywordPage))
    {
      if pid !in products {
        return Err(ProductNotFound(pid));
      }
      var p := products[pid].product;
      r := Ok(RelatedProducts(pid, Truthy(p.categoryId), p.keywords != "", limit, categoryPage, keywordPage));
    }
  }
}
