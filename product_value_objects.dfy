/**
 * Value objects of the product domain (products/domain/value_objects.py):
 * `ProductCategory.to_dict`, `ProductSpecification`, `Rating` and `SearchQuery`.
 * Decimals are modelled as reals (no rounding); a dictionary whose insertion
 * order matters is a sequence of (key, value) items.
 */
module ProductValueObjects {
  import opened Prelude

  // ---------------------------------------------------------------- ProductCategory

  /** A category as the repository fills it in; timestamps are logical. */
  datatype ProductCategory = ProductCategory(
    id: Option<string>,
    name: string,
    description: string,
    parentId: Option<string>,
    createdAt: Option<nat>,
    updatedAt: Option<nat>,
    productCount: int)

  /** `ProductCategory(id, name, description, parent_id)`: no timestamps, no products yet. */
  function NewCategory(id: Option<string>, name: string, description: string, parentId: Option<string>): (c: ProductCategory)
    ensures c.createdAt.None? && c.updatedAt.None? && c.productCount == 0
    ensures c.id == id && c.name == name && c.description == description && c.parentId == parentId
  {
    ProductCategory(id, name, description, parentId, None, None, 0)
  }

  /** `str(x) if x else None` for an optional id. */
  function IdText(x: Option<string>): (j: Json)
    ensures j == JNull <==> !Truthy(x)
    ensures Truthy(x) ==> j == JStr(x.value)
  {
    if Truthy(x) then JStr(x.value) else JNull
  }

  /** `ProductCategory.to_dict`. */
  function CategoryToDict(c: ProductCategory): (d: Json)
    ensures d.JObj?
    ensures {"id", "name", "description", "parent_id", "product_count"} <= d.fields.Keys
    ensures d.fields["product_count"] == JInt(c.productCount)
    ensures "created_at" in d.fields <==> c.createdAt.Some?
    ensures "updated_at" in d.fields <==> c.updatedAt.Some?
    ensures c.createdAt.Some? ==> d.fields["created_at"] == JTime(c.createdAt.value)
    ensures c.updatedAt.Some? ==> d.fields["updated_at"] == JTime(c.updatedAt.value)
    ensures d.fields.Keys <= {"id", "name", "description", "parent_id", "created_at", "updated_at", "product_count"}
  {
    var base := map["id" := IdText(c.id), "name" := JStr(c.name), "description" := JStr(c.description),
                    "parent_id" := IdText(c.parentId)];
    var withCreated := if c.createdAt.Some? then base["created_at" := JTime(c.createdAt.value)] else base;
    var withUpdated := if c.updatedAt.Some? then withCreated["updated_at" := JTime(c.updatedAt.value)] else withCreated;
    JObj(withUpdated["product_count" := JInt(c.productCount)])
  }

  // ---------------------------------------------------------------- ProductSpecification

  datatype ProductSpecification = ProductSpecification(attributes: map<string, Json>)

  /** `has_attribute`. */
  predicate HasAttribute(spec: ProductSpecification, key: string)
  {
    key in spec.attributes
  }

  /** `get_attribute(key, default)`: the stored value when present, the default otherwise. */
  function GetAttribute(spec: ProductSpecification, key: string, default: Json): (v: Json)
    ensures HasAttribute(spec, key) ==> v == spec.attributes[key]
    ensures !HasAttribute(spec, key) ==> v == default
  {
    if key in spec.attributes then spec.attributes[key] else default
  }

  /** `to_dict`: a copy of the attributes, so the caller cannot alter the value object. */
  function SpecificationToDict(spec: ProductSpecification): (d: map<string, Json>)
    ensures d.Keys == spec.attributes.Keys
    ensures forall k :: k in d ==> d[k] == GetAttribute(spec, k, JNull)
  {
    spec.attributes
  }

  // ---------------------------------------------------------------- Rating

  datatype Rating = Rating(value: real, count: int)

  datatype RatingError = ValueOutOfRange | DivisionByZero

  /** `Rating(value, count)`: the value must lie in [0, 5]; the count is not checked. */
  function NewRating(value: real, count: int): (r: Result<Rating, RatingError>)
    ensures r.Ok? <==> 0.0 <= value <= 5.0
    ensures r.Ok? ==> r.value == Rating(value, count)
    ensures r.Err? ==> r.error == ValueOutOfRange
  {
    if 0.0 <= value <= 5.0 then Ok(Rating(value, count)) else Err(ValueOutOfRange)
  }

  /** `Rating.zero()`. */
  function ZeroRating(): (r: Rating)
    ensures NewRating(0.0, 0) == Ok(r)
  {
    Rating(0.0, 0)
  }

  /** `add_rating`: a new rating whose value is the running mean. A rating outside
      [1, 5] is refused; a count of -1 would make Python divide by zero. */
  function AddRating(self: Rating, newRating: real): (r: Result<Rating, RatingError>)
    ensures !(1.0 <= newRating <= 5.0) ==> r == Err(ValueOutOfRange)
    ensures r.Ok? ==> r.value.count == self.count + 1
    ensures r.Ok? ==> r.value.value * (self.count + 1) as real == self.value * self.count as real + newRating
  {
    if !(1.0 <= newRating <= 5.0) then Err(ValueOutOfRange)
    else if self.count + 1 == 0 then Err(DivisionByZero)
    else NewRating((self.value * self.count as real + newRating) / (self.count + 1) as real, self.count + 1)
  }

  lemma MulMonotone(a: real, b: real, n: real)
    requires a <= b && 0.0 <= n
    ensures a * n <= b * n
  {
  }

  /** A valid rating stays valid: the new mean lies in (0, 5] and the count grows by one. */
  lemma AddRatingStaysInRange(self: Rating, newRating: real)
    requires 0.0 <= self.value <= 5.0 && 0 <= self.count
    requires 1.0 <= newRating <= 5.0
    ensures AddRating(self, newRating).Ok?
    ensures 0.0 < AddRating(self, newRating).value.value <= 5.0
    ensures AddRating(self, newRating).value.count == self.count + 1
  {
    var n := self.count as real;
    MulMonotone(0.0, self.value, n);
    MulMonotone(self.value, 5.0, n);
    var total := self.value * n + newRating;
    assert 1.0 <= total <= 5.0 * (n + 1.0);
    var mean := total / (n + 1.0);
    assert mean * (n + 1.0) == total;
    if mean > 5.0 {
      MulMonotone(5.0, mean, n + 1.0);
      assert false;
    }
    if mean <= 0.0 {
      MulMonotone(mean, 0.0, n + 1.0);
      assert false;
    }
  }

  // ---------------------------------------------------------------- SearchQuery

  /** A search query; `filters` is the filter dictionary as its items, each value
      already rendered with `str()`. */
  datatype SearchQuery = SearchQuery(keyword: string, filters: seq<(string, string)>, page: int, pageSize: int)

  /** `SearchQuery(...)`: no filters means an empty dictionary; the page is at least 1
      and the page size is clamped to [1, 100]. */
  function NewSearchQuery(keyword: string, filters: Option<seq<(string, string)>>, page: int, pageSize: int): (q: SearchQuery)
    ensures q.keyword == keyword
    ensures q.filters == if filters.Some? then filters.value else []
    ensures 1 <= q.page && (1 <= page ==> q.page == page) && (page < 1 ==> q.page == 1)
    ensures 1 <= q.pageSize <= 100
    ensures 1 <= pageSize <= 100 ==> q.pageSize == pageSize
    ensures pageSize < 1 ==> q.pageSize == 1
    ensures 100 < pageSize ==> q.pageSize == 100
  {
    SearchQuery(keyword, if filters.Some? then filters.value else [], Max(1, page), Min(100, Max(1, pageSize)))
  }

  /** Building a query from the fields of a built one gives it back: clamping is idempotent. */
  lemma NewSearchQueryIdempotent(keyword: string, filters: Option<seq<(string, string)>>, page: int, pageSize: int)
    ensures var q := NewSearchQuery(keyword, filters, page, pageSize);
            NewSearchQuery(q.keyword, Some(q.filters), q.page, q.pageSize) == q
  {
  }

  /** One `key:value` segment per filter item, in the order given. */
  function FilterSegments(items: seq<(string, string)>): (r: seq<string>)
    ensures |r| == |items|
    ensures forall i :: 0 <= i < |items| ==> r[i] == items[i].0 + ":" + items[i].1
  {
    if items == [] then []
    else FilterSegments(items[..|items| - 1]) + [items[|items| - 1].0 + ":" + items[|items| - 1].1]
  }

  /** The segments of `get_cache_key`: keyword, paging, then one per filter in key order. */
  function SearchKeyParts(q: SearchQuery): (r: seq<string>)
    ensures |r| == 2 + |q.filters|
    ensures r[0] == "search:" + q.keyword
    ensures r[1] == "page:" + IntToString(q.page) + ":" + IntToString(q.pageSize)
  {
    ["search:" + q.keyword, "page:" + IntToString(q.page) + ":" + IntToString(q.pageSize)]
      + FilterSegments(SortByKey(q.filters))
  }

  /** A string opening with the keyword segment and a paging segment opens with `search:<keyword>:page:`. */
  lemma SearchKeyLead(keyword: string, page: string, pageSize: string, key: string)
    requires ("search:" + keyword) + ":" + ("page:" + page + ":" + pageSize) <= key
    ensures "search:" + keyword + ":page:" <= key
  {
    assert ("search:" + keyword) + ":" + ("page:" + page + ":" + pageSize)
        == ("search:" + keyword + ":page:") + (page + ":" + pageSize);
  }

  /** The cache key opens with the keyword segment, then the paging segment. */
  function SearchCacheKey(q: SearchQuery): (key: string)
    ensures "search:" + q.keyword + ":page:" <= key
  {
    var parts := SearchKeyParts(q);
    JoinOpensWith(parts, ":");
    SearchKeyLead(q.keyword, IntToString(q.page), IntToString(q.pageSize), Join(parts, ":"));
    Join(parts, ":")
  }

  /** `get_cache_key`: collects the segments in a loop over the sorted filter items. */
  method GetCacheKey(q: SearchQuery) returns (key: string)
    ensures key == SearchCacheKey(q)
  {
    var items := SortByKey(q.filters);
    var header := ["search:" + q.keyword, "page:" + IntToString(q.page) + ":" + IntToString(q.pageSize)];
    var parts := header;
    var i := 0;
    while i < |items|
      invariant 0 <= i <= |items|
      invariant parts == header + FilterSegments(items[..i])
    {
      assert items[..i + 1][..i] == items[..i];
      parts := parts + [items[i].0 + ":" + items[i].1];
      i := i + 1;
    }
    assert items[..|items|] == items;
    key := Join(parts, ":");
  }

  /** The key does not depend on the order in which the filters were inserted. */
  lemma SearchCacheKeyIgnoresInsertionOrder(q1: SearchQuery, q2: SearchQuery)
    requires q1.keyword == q2.keyword && q1.page == q2.page && q1.pageSize == q2.pageSize
    requires DistinctKeys(q1.filters) && DistinctKeys(q2.filters)
    requires multiset(q1.filters) == multiset(q2.filters)
    ensures SearchCacheKey(q1) == SearchCacheKey(q2)
  {
    SortByKeyCanonical(q1.filters, q2.filters);
  }
}
