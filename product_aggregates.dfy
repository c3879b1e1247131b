/**
 * `ProductAggregate` (products/domain/aggregates.py): a product together with
 * its rating, specification and the two stock counters. The stock arithmetic is
 * first stated on values (`StockLevels` and the functions `Reserve`, `Release`,
 * `Confirm`); the aggregate's methods are proved against those functions. The
 * aggregate root's version and event queue are held in `root`.
 */
module ProductAggregates {
  import opened Prelude
  import opened CoreValueObjects
  import opened CoreAggregates
  import opened ProductEntities
  import opened ProductValueObjects

  /** The domain events raised by the product side (core/domain/events.py and
      products/domain/events.py). */
  datatype ProductEvent =
    | ProductCreated(productId: string, name: string, price: Money, categoryId: Option<string>)
    | PriceChanged(productId: string, oldPrice: Money, newPrice: Money)
    | StockChanged(productId: string, oldStock: int, newStock: int)
    | ReservedStockChanged(productId: string, oldReserved: int, newReserved: int)
    | StateChanged(productId: string, oldState: ProductState, newState: ProductState)
    | RatingAdded(productId: string, ratingValue: real, newAverage: real, newCount: int)

  // ---------------------------------------------------------------- stock arithmetic on values

  /** The stock counters of an aggregate and its version. */
  datatype StockLevels = StockLevels(available: int, reserved: int, version: int)

  /** `total_stock`. */
  function Total(s: StockLevels): int
  {
    s.available + s.reserved
  }

  /** The `ValueError` raised when fewer units are reserved than asked for. */
  datatype StockError = InsufficientReserved(current: int, requested: int)

  /** `reserve_stock`: `None` is the `False` answer when too little is available. */
  function Reserve(s: StockLevels, q: int): (r: Option<StockLevels>)
    ensures r.None? <==> s.available < q
    ensures r.Some? ==> Total(r.value) == Total(s) && r.value.reserved == s.reserved + q
    ensures r.Some? ==> r.value.version == s.version + 1
  {
    if s.available < q then None
    else Some(StockLevels(s.available - q, s.reserved + q, s.version + 1))
  }

  /** `release_reserved_stock`. */
  function Release(s: StockLevels, q: int): (r: Result<StockLevels, StockError>)
    ensures r.Err? <==> s.reserved < q
    ensures r.Err? ==> r.error == InsufficientReserved(s.reserved, q)
    ensures r.Ok? ==> Total(r.value) == Total(s) && r.value.available == s.available + q
    ensures r.Ok? ==> r.value.version == s.version + 1
  {
    if s.reserved < q then Err(InsufficientReserved(s.reserved, q))
    else Ok(StockLevels(s.available + q, s.reserved - q, s.version + 1))
  }

  /** `confirm_reserved_stock`: the confirmed units leave the stock altogether. */
  function Confirm(s: StockLevels, q: int): (r: Result<StockLevels, StockError>)
    ensures r.Err? <==> s.reserved < q
    ensures r.Err? ==> r.error == InsufficientReserved(s.reserved, q)
    ensures r.Ok? ==> Total(r.value) == Total(s) - q && r.value.available == s.available
    ensures r.Ok? ==> r.value.version == s.version + 1
  {
    if s.reserved < q then Err(InsufficientReserved(s.reserved, q))
    else Ok(StockLevels(s.available, s.reserved - q, s.version + 1))
  }

  predicate NonNegative(s: StockLevels)
  {
    s.available >= 0 && s.reserved >= 0
  }

  /** With a non-negative quantity, no operation drives a counter below zero. */
  lemma StockStaysNonNegative(s: StockLevels, q: int)
    requires NonNegative(s) && q >= 0
    ensures Reserve(s, q).Some? ==> NonNegative(Reserve(s, q).value)
    ensures Release(s, q).Ok? ==> NonNegative(Release(s, q).value)
    ensures Confirm(s, q).Ok? ==> NonNegative(Confirm(s, q).value)
  {
  }

  /** A successful reservation undone by a release of the same quantity restores
      both counters, two versions later (a negative reserved count would make the
      release refuse). */
  lemma ReserveThenReleaseRestores(s: StockLevels, q: int)
    requires s.reserved >= 0
    requires Reserve(s, q).Some?
    ensures Release(Reserve(s, q).value, q) == Ok(s.(version := s.version + 2))
  {
  }

  /** Release followed by confirm of the whole reservation is refused: nothing is
      left reserved. */
  lemma ReleaseAllThenConfirmRefused(s: StockLevels, q: int)
    requires s.reserved == q && q > 0
    ensures Release(s, q).Ok? && Confirm(Release(s, q).value, q).Err?
  {
  }

  // ---------------------------------------------------------------- the aggregate

  class ProductAggregate {
    const product: Product
    const root: AggregateRoot<ProductEvent>
    var rating: Rating
    var specification: ProductSpecification
    var stockAvailable: int
    var stockReserved: int

    /** `ProductAggregate(product, rating, specification, stock_available, stock_reserved)`:
        the aggregate shares the product's id; a missing rating is `Rating.zero()`, a
        missing specification is empty. */
    constructor (product: Product, rating: Option<Rating>, specification: Option<ProductSpecification>,
                 stockAvailable: int, stockReserved: int)
      ensures root.id == product.id && fresh(root)
      ensures this.product == product && root.version == 0 && root.events == []
      ensures this.rating == (if rating.Some? then rating.value else ZeroRating())
      ensures this.specification == (if specification.Some? then specification.value else ProductSpecification(map[]))
      ensures this.stockAvailable == stockAvailable && this.stockReserved == stockReserved
    {
      this.product := product;
      root := new AggregateRoot(product.id);
      this.rating := if rating.Some? then rating.value else ZeroRating();
      this.specification := if specification.Some? then specification.value else ProductSpecification(map[]);
      this.stockAvailable := stockAvailable;
      this.stockReserved := stockReserved;
    }

    function Levels(): StockLevels
      reads this, root
    {
      StockLevels(stockAvailable, stockReserved, root.version)
    }

    /** `total_stock`. */
    function TotalStock(): (t: int)
      reads this, root
      ensures t == Total(Levels())
    {
      stockAvailable + stockReserved
    }

    /** `reserve_stock`: proved against `Reserve`; no event is raised. */
    method ReserveStock(q: int) returns (ok: bool)
      modifies this, root
      ensures ok <==> Reserve(old(Levels()), q).Some?
      ensures Levels() == (if ok then Reserve(old(Levels()), q).value else old(Levels()))
      ensures root.events == old(root.events) && unchanged(product)
      ensures rating == old(rating) && specification == old(specification)
    {
      if stockAvailable < q {
        return false;
      }
      stockAvailable := stockAvailable - q;
      stockReserved := stockReserved + q;
      root.IncrementVersion();
      ok := true;
    }

    /** `release_reserved_stock`: proved against `Release`; no event is raised. */
    method ReleaseReservedStock(q: int) returns (err: Option<StockError>)
      modifies this, root
      ensures Release(old(Levels()), q).Err? ==> err == Some(Release(old(Levels()), q).error) && Levels() == old(Levels())
      ensures Release(old(Levels()), q).Ok? ==> err == None && Levels() == Release(old(Levels()), q).value
      ensures root.events == old(root.events) && unchanged(product)
      ensures rating == old(rating) && specification == old(specification)
    {
      if stockReserved < q {
        return Some(InsufficientReserved(stockReserved, q));
      }
      stockReserved := stockReserved - q;
      stockAvailable := stockAvailable + q;
      root.IncrementVersion();
      err := None;
    }

    /** `confirm_reserved_stock`: proved against `Confirm`; no event is raised. */
    method ConfirmReservedStock(q: int) returns (err: Option<StockError>)
      modifies this, root
      ensures Confirm(old(Levels()), q).Err? ==> err == Some(Confirm(old(Levels()), q).error) && Levels() == old(Levels())
      ensures Confirm(old(Levels()), q).Ok? ==> err == None && Levels() == Confirm(old(Levels()), q).value
      ensures root.events == old(root.events) && unchanged(product)
      ensures rating == old(rating) && specification == old(specification)
    {
      if stockReserved < q {
        return Some(InsufficientReserved(stockReserved, q));
      }
      stockReserved := stockReserved - q;
      root.IncrementVersion();
      err := None;
    }

    /** `update_stock`: sets the available count and records the change. */
    method UpdateStock(newStock: int)
      modifies this, root
      ensures stockAvailable == newStock && stockReserved == old(stockReserved)
      ensures root.events == old(root.events) + [StockChanged(root.id, old(stockAvailable), newStock)]
      ensures root.version == old(root.version) + 1 && unchanged(product)
      ensures rating == old(rating) && specification == old(specification)
    {
      var oldStock := stockAvailable;
      stockAvailable := newStock;
      root.AddDomainEvent(StockChanged(root.id, oldStock, newStock));
      root.IncrementVersion();
    }

    /** `update_reserved_stock`: sets the reserved count and records the change. */
    method UpdateReservedStock(newReserved: int)
      modifies this, root
      ensures stockReserved == newReserved && stockAvailable == old(stockAvailable)
      ensures root.events == old(root.events) + [ReservedStockChanged(root.id, old(stockReserved), newReserved)]
      ensures root.version == old(root.version) + 1 && unchanged(product)
      ensures rating == old(rating) && specification == old(specification)
    {
      var oldReserved := stockReserved;
      stockReserved := newReserved;
      root.AddDomainEvent(ReservedStockChanged(root.id, oldReserved, newReserved));
      root.IncrementVersion();
    }

    /** `update_price`: both the product's own version and the aggregate's go up by one. */
    method UpdatePrice(newPrice: Money, now: nat)
      modifies this, root, product
      ensures product.price == newPrice && product.version == old(product.version) + 1
      ensures product.state == old(product.state) && product.updatedAt == now
      ensures product.name == old(product.name) && product.description == old(product.description)
      ensures product.keywords == old(product.keywords) && product.categoryId == old(product.categoryId)
      ensures product.createdAt == old(product.createdAt)
      ensures root.events == old(root.events) + [PriceChanged(root.id, old(product.price), newPrice)]
      ensures root.version == old(root.version) + 1
      ensures stockAvailable == old(stockAvailable) && stockReserved == old(stockReserved)
      ensures rating == old(rating) && specification == old(specification)
    {
      var oldPrice := product.price;
      product.UpdatePrice(newPrice, now);
      root.AddDomainEvent(PriceChanged(root.id, oldPrice, newPrice));
      root.IncrementVersion();
    }

    /** `add_rating`: a refused rating propagates before the version is raised. */
    method AddRating(value: real) returns (err: Option<RatingError>)
      modifies this, root
      ensures var r := ProductValueObjects.AddRating(old(rating), value);
              if r.Ok? then err == None && rating == r.value && root.version == old(root.version) + 1
              else err == Some(r.error) && rating == old(rating) && root.version == old(root.version)
      ensures root.events == old(root.events) && unchanged(product)
      ensures stockAvailable == old(stockAvailable) && stockReserved == old(stockReserved)
      ensures specification == old(specification)
    {
      var r := ProductValueObjects.AddRating(rating, value);
      if r.Err? {
        return Some(r.error);
      }
      rating := r.value;
      root.IncrementVersion();
      err := None;
    }

    /** `update_specification`. */
    method UpdateSpecification(spec: ProductSpecification)
      modifies this, root
      ensures specification == spec && root.version == old(root.version) + 1
      ensures root.events == old(root.events) && unchanged(product)
      ensures stockAvailable == old(stockAvailable) && stockReserved == old(stockReserved)
      ensures rating == old(rating)
    {
      specification := spec;
      root.IncrementVersion();
    }

    /** `is_available_for_purchase(quantity)`. */
    predicate IsAvailableForPurchase(q: int)
      reads this, product
    {
      product.IsAvailable() && stockAvailable >= q
    }
  }

  /** A product can be bought in quantity `q` exactly when it is for sale and a
      reservation of `q` would be accepted. */
  lemma PurchasableIffReservable(a: ProductAggregate, q: int)
    ensures a.IsAvailableForPurchase(q) <==> a.product.IsAvailable() && Reserve(a.Levels(), q).Some?
  {
  }

  /** Reserving then releasing the same quantity on an aggregate restores its
      counters and raises its version by two. */
  method ReserveThenRelease(a: ProductAggregate, q: int) returns (ok: bool)
    requires a.stockReserved >= 0
    modifies a, a.root
    ensures ok <==> old(a.stockAvailable) >= q
    ensures ok ==> a.stockAvailable == old(a.stockAvailable) && a.stockReserved == old(a.stockReserved)
    ensures ok ==> a.root.version == old(a.root.version) + 2
    ensures !ok ==> a.Levels() == old(a.Levels())
  {
    ok := a.ReserveStock(q);
    if ok {
      ReserveThenReleaseRestores(old(a.Levels()), q);
      var err := a.ReleaseReservedStock(q);
    }
  }
}
