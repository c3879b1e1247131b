/**
 * Data transfer objects of the application layer (products/application/dtos.py):
 * the derived fields of `ProductDTO` and its `to_dict` stock block, the
 * pagination fields of `ProductListDTO`, and `CategoryDTO.from_value_object`
 * and `to_dict`. Timestamps are logical; `JTime(t)` stands for their ISO text.
 */
module Dtos {
  import opened Prelude
  import opened CoreValueObjects
  import opened ProductEntities
  import opened ProductValueObjects
  import opened ProductAggregates

  /** `x if x is not None else 0`, and equally `x or 0`, for an optional count. */
  function OrZero(x: Option<int>): int
  {
    if x.Some? then x.value else 0
  }

  /** An optional string as a dictionary value: `None` becomes null. */
  function OptText(x: Option<string>): (j: Json)
    ensures x.None? <==> j == JNull
    ensures x.Some? ==> j == JStr(x.value)
  {
    if x.Some? then JStr(x.value) else JNull
  }

  /** `str(x) if x else None`. */
  function TruthyOrNone(x: Option<string>): (r: Option<string>)
    ensures r.Some? <==> Truthy(x)
    ensures r.Some? ==> r == x
  {
    if Truthy(x) then x else None
  }

  // ---------------------------------------------------------------- ProductDTO

  /** A `ProductDTO`. Attributes that `to_dict` tests for `None` are optional. */
  datatype ProductDto = ProductDto(
    id: Option<string>,
    name: string,
    description: string,
    price: Option<Money>,
    keywords: string,
    categoryId: Option<string>,
    categoryName: Option<string>,
    state: string,
    ratingValue: Option<real>,
    ratingCount: Option<int>,
    specification: map<string, Json>,
    stockAvailable: Option<int>,
    stockReserved: Option<int>,
    totalStock: int,
    createdAt: Option<nat>,
    updatedAt: Option<nat>,
    isAvailable: bool)

  /** `ProductDTO(...)`: the total is the sum of the two counts; the product is
      available when active with at least one unit available. */
  function NewProductDto(id: Option<string>, name: string, description: string, price: Money, keywords: string,
                         categoryId: Option<string>, categoryName: Option<string>, state: string,
                         ratingValue: real, ratingCount: int, specification: map<string, Json>,
                         stockAvailable: int, stockReserved: int, createdAt: nat, updatedAt: nat): (d: ProductDto)
    ensures d.totalStock == stockAvailable + stockReserved
    ensures d.isAvailable <==> state == "active" && stockAvailable > 0
    ensures d.stockAvailable == Some(stockAvailable) && d.stockReserved == Some(stockReserved)
    ensures d.id == id && d.categoryId == categoryId && d.state == state && d.price == Some(price)
  {
    ProductDto(id, name, description, Some(price), keywords, categoryId, categoryName, state, Some(ratingValue),
               Some(ratingCount), specification, Some(stockAvailable), Some(stockReserved),
               stockAvailable + stockReserved, Some(createdAt), Some(updatedAt),
               state == "active" && stockAvailable > 0)
  }

  /** `ProductDTO.from_aggregate`: availability agrees with the aggregate's
      `is_available_for_purchase(1)` and the total with its `total_stock`. */
  function FromAggregate(a: ProductAggregate, categoryName: Option<string>): (d: ProductDto)
    reads a, a.product, a.root
    ensures d.isAvailable == a.IsAvailableForPurchase(1)
    ensures d.totalStock == a.TotalStock()
    ensures d.id.Some? <==> a.product.id != ""
    ensures d.categoryId == TruthyOrNone(a.product.categoryId)
    ensures d.state == StateName(a.product.state)
    ensures d.specification == SpecificationToDict(a.specification)
  {
    var p := a.product;
    NewProductDto(if p.id != "" then Some(p.id) else None, p.name, p.description, p.price, p.keywords,
                  TruthyOrNone(p.categoryId), categoryName, StateName(p.state), a.rating.value, a.rating.count,
                  SpecificationToDict(a.specification), a.stockAvailable, a.stockReserved, p.createdAt, p.updatedAt)
  }

  /** The "stock" block of `ProductDTO.to_dict`: a missing count shows as 0. */
  function StockBlock(d: ProductDto): (j: Json)
    ensures j.JObj? && j.fields.Keys == {"available", "reserved", "total"}
    ensures j.fields["available"] == JInt(OrZero(d.stockAvailable))
    ensures j.fields["reserved"] == JInt(OrZero(d.stockReserved))
    ensures j.fields["total"] == JInt(j.fields["available"].i + j.fields["reserved"].i)
  {
    JObj(map["available" := JInt(OrZero(d.stockAvailable)), "reserved" := JInt(OrZero(d.stockReserved)),
             "total" := JInt(OrZero(d.stockAvailable) + OrZero(d.stockReserved))])
  }

  /** `ProductDTO.to_dict`; `amountText` is `str()` of the Decimal amount. */
  function ProductDtoToDict(d: ProductDto, amountText: real -> string): (j: Json)
    ensures j.JObj?
    ensures "stock" in j.fields && j.fields["stock"] == StockBlock(d)
    ensures "category" in j.fields && (j.fields["category"] == JNull <==> !Truthy(d.categoryId))
    ensures Truthy(d.categoryId) ==>
              "category" in j.fields &&
              j.fields["category"] == JObj(map["id" := JStr(d.categoryId.value), "name" := OptText(d.categoryName)])
    ensures "is_available" in j.fields && j.fields["is_available"] == JBool(d.isAvailable)
    ensures "created_at" in j.fields && (j.fields["created_at"] == JNull <==> d.createdAt.None?)
  {
    var price := if d.price.Some? then MoneyToDict(d.price.value, amountText)
                 else JObj(map["amount" := JNull, "currency" := JNull]);
    var category := if Truthy(d.categoryId)
                    then JObj(map["id" := JStr(d.categoryId.value), "name" := OptText(d.categoryName)])
                    else JNull;
    var rating := JObj(map["value" := JNum(if d.ratingValue.Some? then d.ratingValue.value else 0.0),
                           "count" := JInt(OrZero(d.ratingCount))]);
    JObj(map[
      "id" := OptText(d.id),
      "name" := JStr(d.name),
      "description" := JStr(d.description),
      "price" := price,
      "keywords" := JStr(d.keywords),
      "state" := JStr(d.state),
      "rating" := rating,
      "specification" := JObj(d.specification),
      "updated_at" := if d.updatedAt.Some? then JTime(d.updatedAt.value) else JNull,
      "category" := category,
      "created_at" := if d.createdAt.Some? then JTime(d.createdAt.value) else JNull,
      "stock" := StockBlock(d),
      "is_available" := JBool(d.isAvailable)])
  }

  /** `ProductDTO.to_dict` always produces the same thirteen keys. */
  lemma ProductDictKeys(d: ProductDto, amountText: real -> string)
    ensures ProductDtoToDict(d, amountText).fields.Keys ==
              {"id", "name", "description", "price", "keywords", "category", "state", "rating",
               "specification", "stock", "created_at", "updated_at", "is_available"}
  {
  }

  /** The dictionary of an aggregate's DTO reports the aggregate's own stock figures. */
  lemma AggregateDictReportsStock(a: ProductAggregate, categoryName: Option<string>, amountText: real -> string)
    ensures var j := ProductDtoToDict(FromAggregate(a, categoryName), amountText);
            j.fields["stock"].fields["available"] == JInt(a.stockAvailable) &&
            j.fields["stock"].fields["reserved"] == JInt(a.stockReserved) &&
            j.fields["stock"].fields["total"] == JInt(a.TotalStock()) &&
            j.fields["is_available"] == JBool(a.IsAvailableForPurchase(1))
  {
  }

  // ---------------------------------------------------------------- ProductListDTO

  datatype ProductListDto = ProductListDto(
    items: seq<ProductDto>, total: int, page: int, pageSize: int, totalPages: int, hasNext: bool, hasPrevious: bool)

  /** `(total + page_size - 1) // page_size` lies between the two neighbouring multiples. */
  lemma CeilDivBounds(total: int, pageSize: int)
    requires pageSize > 0
    ensures var pages := (total + pageSize - 1) / pageSize;
            (pages - 1) * pageSize < total <= pages * pageSize
  {
    var pages := (total + pageSize - 1) / pageSize;
    var rem := (total + pageSize - 1) % pageSize;
    assert total + pageSize - 1 == pages * pageSize + rem;
    assert (pages - 1) * pageSize == pages * pageSize - pageSize;
  }

  /** `ProductListDTO(items, total, page, page_size)`: the page count is the ceiling of
      total / page_size (0 for a non-positive page size). */
  function NewProductListDto(items: seq<ProductDto>, total: int, page: int, pageSize: int): (l: ProductListDto)
    ensures pageSize > 0 ==> (l.totalPages - 1) * pageSize < total <= l.totalPages * pageSize
    ensures pageSize <= 0 ==> l.totalPages == 0
    ensures l.hasNext <==> page < l.totalPages
    ensures l.hasPrevious <==> page > 1
    ensures l.items == items && l.total == total && l.page == page && l.pageSize == pageSize
  {
    var pages := if pageSize > 0 then (total + pageSize - 1) / pageSize else 0;
    if pageSize > 0 then CeilDivBounds(total, pageSize); ProductListDto(items, total, page, pageSize, pages, page < pages, page > 1)
    else ProductListDto(items, total, page, pageSize, pages, page < pages, page > 1)
  }

  /** The page count is the least number of pages that holds every item, and the
      last page has no next page. */
  lemma PageCountIsLeast(total: int, pageSize: int, n: int)
    requires pageSize > 0 && n * pageSize >= total
    ensures NewProductListDto([], total, 1, pageSize).totalPages <= n
    ensures !NewProductListDto([], total, NewProductListDto([], total, 1, pageSize).totalPages, pageSize).hasNext
  {
  }

  // ---------------------------------------------------------------- CategoryDTO

  datatype CategoryDto = CategoryDto(
    id: Option<string>,
    name: string,
    description: string,
    parentId: Option<string>,
    parentName: Option<string>,
    children: seq<CategoryDto>,
    createdAt: Option<nat>,
    updatedAt: Option<nat>,
    productCount: int)

  /** `CategoryDTO.from_value_object`: the category's own product count is used only
      when no count is passed; missing children are an empty list. */
  function FromValueObject(c: ProductCategory, parentName: Option<string>, children: Option<seq<CategoryDto>>,
                           productCount: Option<int>): (d: CategoryDto)
    ensures d.productCount == if productCount.Some? then productCount.value else c.productCount
    ensures d.children == if children.Some? then children.value else []
    ensures d.id == TruthyOrNone(c.id) && d.parentId == TruthyOrNone(c.parentId)
    ensures d.name == c.name && d.parentName == parentName
    ensures d.createdAt == c.createdAt && d.updatedAt == c.updatedAt
  {
    CategoryDto(TruthyOrNone(c.id), c.name, c.description, TruthyOrNone(c.parentId), parentName,
                if children.Some? then children.value else [], c.createdAt, c.updatedAt,
                if productCount.Some? then productCount.value else c.productCount)
  }

  /** One breadcrumb entry. */
  function Crumb(id: Option<string>, name: Option<string>): Json
  {
    JObj(map["id" := OptText(id), "name" := OptText(name)])
  }

  /** `CategoryDTO.to_dict(include_children)`: the path holds the parent before the
      category exactly when both the parent's id and name are set; children appear
      only when asked for and present, each rendered without its own children. */
  function CategoryDtoToDict(d: CategoryDto, includeChildren: bool): (j: Json)
    ensures j.JObj?
    ensures "product_count" in j.fields && j.fields["product_count"] == JInt(d.productCount)
    ensures "children_count" in j.fields && j.fields["children_count"] == JInt(|d.children|)
    ensures "parent" in j.fields && (j.fields["parent"] == JNull <==> !Truthy(d.parentId))
    ensures "path" in j.fields && j.fields["path"].JList?
    ensures |j.fields["path"].items| == 2 <==> Truthy(d.parentId) && Truthy(d.parentName)
    ensures |j.fields["path"].items| in {1, 2}
    ensures Last(j.fields["path"].items) == Crumb(d.id, Some(d.name))
    ensures |j.fields["path"].items| == 2 ==> j.fields["path"].items[0] == Crumb(d.parentId, d.parentName)
    ensures "children" in j.fields <==> includeChildren && d.children != []
    ensures "children" in j.fields ==>
              j.fields["children"].JList? && |j.fields["children"].items| == |d.children| &&
              forall i :: 0 <= i < |d.children| ==>
                j.fields["children"].items[i].JObj? && "children" !in j.fields["children"].items[i].fields &&
                "children_count" in j.fields["children"].items[i].fields &&
                j.fields["children"].items[i].fields["children_count"] == JInt(|d.children[i].children|)
    decreases d
  {
    var self := Crumb(d.id, Some(d.name));
    var path := if Truthy(d.parentId) && Truthy(d.parentName) then [Crumb(d.parentId, d.parentName), self] else [self];
    var result := map[
      "id" := OptText(d.id),
      "name" := JStr(d.name),
      "description" := JStr(d.description),
      "created_at" := if d.createdAt.Some? then JTime(d.createdAt.value) else JNull,
      "updated_at" := if d.updatedAt.Some? then JTime(d.updatedAt.value) else JNull,
      "parent" := if Truthy(d.parentId) then Crumb(d.parentId, d.parentName) else JNull,
      "product_count" := JInt(d.productCount),
      "children_count" := JInt(|d.children|),
      "path" := JList(path)];
    if includeChildren && d.children != [] then
      JObj(result["children" := JList(seq(|d.children|, i requires 0 <= i < |d.children| =>
                                          CategoryDtoToDict(d.children[i], false)))])
    else JObj(result)
  }

  /** `CategoryDTO.to_dict` always carries these nine keys. */
  lemma CategoryDictKeys(d: CategoryDto, includeChildren: bool)
    ensures {"id", "name", "description", "parent", "created_at", "updated_at", "product_count",
             "children_count", "path"} <= CategoryDtoToDict(d, includeChildren).fields.Keys
  {
  }

  function Last<T>(s: seq<T>): T
    requires s != []
  {
    s[|s| - 1]
  }
}
