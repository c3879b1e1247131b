# HaiShop stock reservation and product domain, in Dafny

This project models the stock-reservation engine of the HaiShop product service
(`MySQLInventoryLockService`) and the in-memory product domain whose stock rules
that engine mirrors. It proves properties of both.

The **inventory lock service** (`inventory_lock.dfy`) is a class over everything
the service reads and writes:
- the inventory rows: quantities, version and the lock stamp `is_locked` / `lock_expiry` / `lock_key`;
- the set of existing products;
- the distributed key/value store, where each key has a value and an expiry time;
- a logical clock.

Its methods are proved equal to functions over a `Store` value:
- `Acquire`: `set_nx`, then the reaper and a single retry, then the row lock, which stamps the row or creates it;
- `Body`: the read, the "insufficient" answer and the version-checked conditional update;
- `Exit`: the transaction rollback, the token-checked row release and `delete_if_equals`.

What the surroundings do during one call is an `Env` parameter:
- the row is held by another transaction;
- the reaper fails;
- the other key holder goes away before the retry;
- another writer commits between the read and the update;
- the database fails inside the body;
- the row release fails.

The lemmas about `Operation` and `BatchSpec` then state what the service promises.
- Under every environment: other rows and the lock fields stay consistent, a key taken by `set_nx` is deleted again, and the answer decides the row's quantities.
- In the undisturbed environment only: the exact row and store an operation leaves.
- With one racing writer: the conflict and what the other writer leaves.

The **product domain** is modelled file by file:
- `Entity` identity (`core_base.dfy`);
- `ValueObject` equality and `Money` (`core_value_objects.dfy`);
- the `AggregateRoot` version and event queue (`core_aggregates.dfy`);
- the `DomainEvents` registry (`core_events.dfy`);
- the `Product` state machine (`product_entities.dfy`);
- `ProductCategory`, `ProductSpecification`, `Rating` and `SearchQuery` (`product_value_objects.dfy`);
- the `ProductAggregate` stock arithmetic (`product_aggregates.dfy`);
- the domain `ProductService` over an in-memory repository (`product_services.dfy`);
- the query objects (`queries.dfy`);
- the DTOs (`dtos.dfy`).

Objects whose fields the source updates in place are classes with `modifies` clauses. Each stock rule is first stated as a function on values (`Reserve`, `Release`, `Confirm`, `Transition`), and the methods are proved against those functions. `prelude.dfy` holds the shared vocabulary:
- `Option` and `Result`;
- a JSON value type;
- integer rendering;
- Python's string order and `sorted` over dictionary items.

## Model

| member | source | states |
|---|---|---|
| CoreBase.NewEntity | core/domain/base.py:15-22 | a supplied id is kept unchanged; only a missing id is replaced by the fresh one |
| CoreBase.Equals | core/domain/base.py:24-36 | equality needs an entity with the same id; an entity equals itself |
| CoreBase.Hash | core/domain/base.py:38-45 | the hash of the id alone; `EqualEntitiesHashAlike` is its partner |
| CoreBase.EqualsIffSameId | core/domain/base.py:24-36 | two entities are equal exactly when their ids are equal, whatever their other fields |
| CoreBase.NeverEqualsNonEntity | core/domain/base.py:34-35 | an entity never equals an object that is not an entity |
| CoreBase.EqualsIsEquivalence | core/domain/base.py:24-36 | entity equality is reflexive, symmetric and transitive |
| CoreBase.EqualEntitiesHashAlike | core/domain/base.py:38-45 | equal entities have equal hashes |
| CoreValueObjects.SameClassEqualIffSameAttributes | core/domain/value_objects.py:16-28 | objects of the same class are equal iff their attribute dictionaries are equal, and that is symmetric |
| CoreValueObjects.UnrelatedClassNeverEqual | core/domain/value_objects.py:16-28 | an object is never equal to one that is not an instance of its class |
| CoreValueObjects.ValueEquals | core/domain/value_objects.py:16-28 | equality needs an instance of the receiver's class with the same attributes; an object equals itself |
| CoreValueObjects.SubclassEqualityIsOneSided | core/domain/value_objects.py:16-28 | for any base object and any instance of a subclass with the same attributes, the base equals the subclass instance but not the other way round |
| CoreValueObjects.MoneyOf | core/domain/value_objects.py:47-56 | the default currency is "CNY" and the amount is kept |
| CoreValueObjects.Add | core/domain/value_objects.py:58-73 | succeeds iff the currencies match; the sum keeps the currency; a mismatch reports both currencies |
| CoreValueObjects.Sub | core/domain/value_objects.py:75-90 | the same currency rule; the result is the difference |
| CoreValueObjects.Mul | core/domain/value_objects.py:92-102 | keeps the currency and scales the amount |
| CoreValueObjects.AddThenSubRoundTrip | core/domain/value_objects.py:58-90 | for matching currencies a + b − b = a |
| CoreValueObjects.AddCommutes | core/domain/value_objects.py:58-73 | addition succeeds in one order iff in the other, with the same result |
| CoreValueObjects.MoneyToDict | core/domain/value_objects.py:113-123 | exactly the keys "amount" (the amount as text) and "currency" |
| CoreAggregates.AggregateRoot.constructor | core/domain/aggregates.py:18-27 | a new root has version 0 and no pending events |
| CoreAggregates.AggregateRoot.IncrementVersion | core/domain/aggregates.py:39-43 | version goes up by exactly one; events unchanged |
| CoreAggregates.AggregateRoot.AddDomainEvent | core/domain/aggregates.py:45-52 | the event is appended at the end; version unchanged |
| CoreAggregates.AggregateRoot.ClearDomainEvents | core/domain/aggregates.py:54-63 | returns the pending events in order and leaves the queue empty |
| CoreAggregates.AggregateRoot.CheckInvariants | core/domain/aggregates.py:65-73 | the default invariant check holds |
| CoreAggregates.ClearTwice | core/domain/aggregates.py:54-63 | a second clear returns nothing |
| CoreEvents.RemoveFirst | core/domain/events.py:60-63 | `list.remove` drops exactly the first occurrence: the result is the list before it followed by the list after it, in order |
| CoreEvents.DomainEvents.constructor | core/domain/events.py:36 | the registry starts empty |
| CoreEvents.DomainEvents.Register | core/domain/events.py:39-49 | appends the handler to its type's list, creating the list when absent; duplicates are kept |
| CoreEvents.DomainEvents.Unregister | core/domain/events.py:52-63 | an unknown type is ignored; a handler missing from a known type's list is an error; otherwise one occurrence is removed and an emptied type is dropped |
| CoreEvents.DomainEvents.Publish | core/domain/events.py:66-77 | the handlers called are exactly those of the event's type, in registration order, and none for an unknown type |
| CoreEvents.DomainEvents.ClearHandlers | core/domain/events.py:80-85 | the registry is empty afterwards |
| CoreEvents.RegisterThenUnregisterRestores | core/domain/events.py:39-63 | registering a new handler and then unregistering it gives back the registry |
| ProductValueObjects.NewCategory | products/domain/value_objects.py:17-41 | a category keeps its fields and starts with no timestamps and a product count of 0 |
| ProductValueObjects.CategoryToDict | products/domain/value_objects.py:43-78 | always has `product_count`; has `created_at` and `updated_at` exactly when they are set; no other keys |
| ProductValueObjects.HasAttribute | products/domain/value_objects.py:108-118 | the key is among the attributes; `GetAttribute` returns the stored value exactly then |
| ProductValueObjects.GetAttribute | products/domain/value_objects.py:95-106 | the stored value when the key is present, the default otherwise |
| ProductValueObjects.SpecificationToDict | products/domain/value_objects.py:120-128 | a copy with the same keys and the values `get_attribute` gives |
| ProductValueObjects.NewRating | products/domain/value_objects.py:136-149 | a rating is built iff the value is within [0, 5]; otherwise it is refused |
| ProductValueObjects.ZeroRating | products/domain/value_objects.py:150-158 | the zero rating is the valid rating with value 0 and count 0 |
| ProductValueObjects.AddRating | products/domain/value_objects.py:160-178 | a new rating outside [1, 5] is refused; otherwise count + 1 and the running mean (value × count + r) / (count + 1) |
| ProductValueObjects.AddRatingStaysInRange | products/domain/value_objects.py:160-178 | adding a valid rating to a valid rating succeeds and stays within (0, 5] |
| ProductValueObjects.NewSearchQuery | products/domain/value_objects.py:228-247 | page is at least 1 (a page below 1 becomes 1), page size is clamped to [1, 100], and missing filters become empty |
| ProductValueObjects.NewSearchQueryIdempotent | products/domain/value_objects.py:228-247 | for any constructor inputs, rebuilding the built query from its own fields gives it back |
| ProductValueObjects.FilterSegments | products/domain/value_objects.py:262-263 | segment `i` is `key:value` of item `i` |
| ProductValueObjects.SearchKeyParts | products/domain/value_objects.py:256-263 | the keyword segment, the paging segment, then one segment per filter |
| ProductValueObjects.SearchCacheKey | products/domain/value_objects.py:249-265 | the key opens with the keyword segment and then the paging segment |
| ProductValueObjects.GetCacheKey | products/domain/value_objects.py:249-265 | the loop builds the key from the header segments and the filter segments in sorted key order |
| ProductValueObjects.SearchCacheKeyIgnoresInsertionOrder | products/domain/value_objects.py:256-264 | two queries with the same filters, in any insertion order, get the same cache key |
| Prelude.SortByKeySorted | products/domain/value_objects.py:261 | `sorted(items())` of a dictionary yields keys in strictly increasing string order |
| Prelude.SortByKeyCanonical | products/domain/value_objects.py:261 | sorting depends only on the dictionary's contents, not on the order of its items |
| ProductEntities.StateName | products/domain/entities.py:13-19 | every state has one of the four names |
| ProductEntities.StateNameInjective | products/domain/entities.py:13-19 | distinct states have distinct names |
| ProductEntities.Transition | products/domain/entities.py:67-109 | activate is refused only from DELETED; deactivate succeeds only from ACTIVE or DRAFT; delete is refused only from DELETED; a refusal names the current and the target state |
| ProductEntities.DeletedIsAbsorbing | products/domain/entities.py:67-109 | from DELETED every sequence of state changes stays DELETED and none succeeds |
| ProductEntities.DeletedStaysDeleted | products/domain/entities.py:67-109 | once a run reaches DELETED, it ends in DELETED |
| ProductEntities.Product.constructor | products/domain/entities.py:36-65 | a new product is a DRAFT at version 0 with the given fields, the fresh id only for a missing id, and a zero price by default |
| ProductEntities.Product.ChangeState | products/domain/entities.py:67-109 | a successful change sets the target state, bumps the version and stamps the time; a refused one changes nothing |
| ProductEntities.Product.ActivateProduct | products/domain/entities.py:67-80 | from any state but DELETED: ACTIVE with version + 1; from DELETED: an error and no change |
| ProductEntities.Product.DeactivateProduct | products/domain/entities.py:82-95 | from ACTIVE or DRAFT: INACTIVE with version + 1; otherwise an error and no change |
| ProductEntities.Product.DeleteProduct | products/domain/entities.py:97-109 | from any state but DELETED: DELETED with version + 1; otherwise an error and no change |
| ProductEntities.Product.UpdatePrice | products/domain/entities.py:111-120 | sets the price and the time, version + 1, nothing else changes |
| ProductEntities.Product.UpdateBasicInfo | products/domain/entities.py:122-148 | changes exactly the fields passed, and always bumps the version |
| ProductEntities.Product.IsAvailable | products/domain/entities.py:150-157 | for sale exactly in state ACTIVE; `PurchasableIffReservable` and the DTO rows use it |
| ProductEntities.Product.IncrementVersion | products/domain/entities.py:159-163 | version + 1, every other field unchanged |
| ProductEntities.RunCalls | products/domain/entities.py:67-109 | a sequence of calls ends in the state the transition function gives, with one version per success |
| ProductAggregates.Reserve | products/domain/aggregates.py:118-137 | refused iff available < quantity; otherwise reserved grows by the quantity, the total is unchanged, version + 1 |
| ProductAggregates.Release | products/domain/aggregates.py:139-153 | an error iff reserved < quantity; otherwise available grows by the quantity, the total is unchanged, version + 1 |
| ProductAggregates.Confirm | products/domain/aggregates.py:155-168 | an error iff reserved < quantity; otherwise available is unchanged, the total falls by the quantity, version + 1 |
| ProductAggregates.StockStaysNonNegative | products/domain/aggregates.py:118-168 | the three stock changes keep both quantities non-negative |
| ProductAggregates.ReserveThenReleaseRestores | products/domain/aggregates.py:118-153 | reserving and then releasing the same quantity restores both quantities, with version + 2 |
| ProductAggregates.ReleaseAllThenConfirmRefused | products/domain/aggregates.py:139-168 | once all reserved stock is released, confirming it again is refused |
| ProductAggregates.ProductAggregate.constructor | products/domain/aggregates.py:19-43 | the aggregate shares the product's id; a zero rating and an empty specification by default, the given stock, version 0, no events |
| ProductAggregates.ProductAggregate.TotalStock | products/domain/aggregates.py:70-72 | the total is available + reserved |
| ProductAggregates.ProductAggregate.ReserveStock | products/domain/aggregates.py:118-137 | returns whether the reservation applies and leaves exactly `Reserve`'s new levels, or the old ones |
| ProductAggregates.ProductAggregate.ReleaseReservedStock | products/domain/aggregates.py:139-153 | `Release`'s error with no change, or its new levels |
| ProductAggregates.ProductAggregate.ConfirmReservedStock | products/domain/aggregates.py:155-168 | `Confirm`'s error with no change, or its new levels |
| ProductAggregates.ProductAggregate.UpdateStock | products/domain/aggregates.py:96-116 | sets available exactly, appends one event with the old and new values, version + 1 |
| ProductAggregates.ProductAggregate.UpdateReservedStock | products/domain/aggregates.py:234-254 | sets reserved exactly, appends one event with the old and new values, version + 1 |
| ProductAggregates.ProductAggregate.UpdatePrice | products/domain/aggregates.py:74-94 | bumps both the product's and the aggregate's version, appends one price event with the old and new price; the name, description, keywords, category and creation time stay |
| ProductAggregates.ProductAggregate.AddRating | products/domain/aggregates.py:170-180 | the rating becomes `add_rating`'s result with version + 1, or an error with no change |
| ProductAggregates.ProductAggregate.UpdateSpecification | products/domain/aggregates.py:182-192 | replaces the specification, version + 1 |
| ProductAggregates.ProductAggregate.IsAvailableForPurchase | products/domain/aggregates.py:194-207 | for sale and at least `quantity` units available; `PurchasableIffReservable` ties it to `Reserve` |
| ProductAggregates.PurchasableIffReservable | products/domain/aggregates.py:194-207 | a quantity can be bought exactly when the product is for sale and a reservation of it would be accepted |
| ProductAggregates.ReserveThenRelease | products/domain/aggregates.py:118-153 | on an aggregate, reserve then release restores the counters with version + 2, or changes nothing when the reservation is refused |
| ProductServices.PyPrefix | products/domain/services.py:348 | Python slicing `s[:n]`, including a negative `n` |
| ProductServices.Excluding | products/domain/services.py:364-367 | the comprehension keeps exactly the elements not excluded, without adding duplicates |
| ProductServices.ExcludingKeepsOrder | products/domain/services.py:364-367 | the comprehension keeps the original order: the kept elements sit at strictly increasing positions of the input |
| ProductServices.RelatedIsCategoryThenKeywords | products/domain/services.py:339-373 | the result is the category part followed by the keyword part |
| ProductServices.CategoryPartFacts | products/domain/services.py:339-354 | the category part never holds the product itself, stays within the limit, comes from the category page, and holds exactly min(limit, number of page entries other than the product) items for a non-negative limit |
| ProductServices.KeywordPartFacts | products/domain/services.py:357-371 | the keyword part holds neither the product nor a category match, fills only the remaining slots, and holds exactly min(remaining slots, number of page entries that are neither) items for a non-negative limit |
| ProductServices.RelatedProducts | products/domain/services.py:310-373 | never the product itself, and only ids from the category page or the keyword page |
| ProductServices.RelatedProductsProperties | products/domain/services.py:310-373 | never the product itself; at most `limit` items; category matches first; no duplicates when the pages have none; each part holds exactly as many items as the slots and the filtered page allow |
| ProductServices.ProductService.constructor | products/domain/services.py:27-40 | the service starts over the given repository contents |
| ProductServices.ProductService.UpdateStock | products/domain/services.py:224-264 | negative stock or reserved stock is refused before the lookup; an unknown product is an error; otherwise available, and reserved when given, are set with one event each, and the rating and specification stay |
| ProductServices.ProductService.AddRating | products/domain/services.py:266-308 | a value outside [1, 5] is refused before the lookup; an unknown product is an error; otherwise the new rating is recorded with one event, and stock and specification stay |
| ProductServices.ProductService.ChangeProductState | products/domain/services.py:180-222 | activates or deactivates as asked; the product's information never changes; a refused transition changes no field and no event; otherwise the state, version + 1, the time `now` and one event with the old and new state |
| ProductServices.ProductService.CreateProduct | products/domain/services.py:42-103 | an unknown category is refused; otherwise a saved DRAFT aggregate with the initial stock, nothing reserved and exactly one creation event, with the given description and keywords and both times set to `now` |
| ProductServices.ProductService.GetRelatedProducts | products/domain/services.py:310-373 | an unknown product is an error; otherwise the related-products rule over its category and keywords |
| Queries.NewListProductsQuery | products/application/queries.py:25-51 | page is at least 1 (a page below 1 becomes 1) and page size is clamped to [1, 100] |
| Queries.NewSearchProductsQuery | products/application/queries.py:56-97 | the same clamping, a page below 1 becoming 1; facet fields default to category, price and rating |
| Queries.NewGetRelatedProductsQuery | products/application/queries.py:162-172 | the limit is clamped to [1, 20] |
| Queries.FacetKeyInjective | products/application/queries.py:118 | distinct facet fields give distinct `facet_` keys |
| Queries.Filters | products/application/queries.py:99-120 | no key other than `category_id`, `min_price`, `max_price` and the `facet_` keys |
| Queries.GetFilters | products/application/queries.py:99-120 | the loop builds exactly the filter dictionary `Filters` describes |
| Queries.BaseFiltersExact | products/application/queries.py:106-112 | `category_id` is present iff it is truthy; `min_price` and `max_price` are present whenever given, 0 included |
| Queries.FacetKeysArePrefixed | products/application/queries.py:115-118 | every facet filter key starts with "facet_" |
| Queries.FacetFilterKeysFromItems | products/application/queries.py:115-118 | every facet filter comes from a selected facet with a non-empty selection |
| Queries.FacetFilterOfItem | products/application/queries.py:115-118 | a selected facet has a filter iff its selection is non-empty, and the filter holds its values |
| Queries.FacetFiltersExact | products/application/queries.py:115-118 | facet filters are exactly the non-empty selections, with their values |
| Queries.CacheKey | products/application/queries.py:122-144 | the key as written opens with the keyword segment and then the category segment |
| Queries.CorrectedCacheKey | products/application/queries.py:122-144 | the corrected key opens the same way |
| Queries.GetCacheKey | products/application/queries.py:122-144 | the loop builds the corrected key: the five fixed segments, then one segment per non-empty facet selection, values joined by "-" |
| Queries.MaxPriceZeroCollides | products/application/queries.py:132 | as written, a zero `max_price` gets the same key as no `max_price`, although only the first filters on price |
| Queries.CorrectedKeySeparatesMaxPrice | products/application/queries.py:132 | with "max" only for a missing bound, giving any upper bound changes the key |
| Queries.CorrectedKeyAgreesOtherwise | products/application/queries.py:122-144 | the corrected key equals the written one whenever `max_price` is not zero |
| Dtos.NewProductDto | products/application/dtos.py:112-167 | total stock is available + reserved; `is_available` iff "active" with stock available |
| Dtos.FromAggregate | products/application/dtos.py:169-217 | the DTO reports the aggregate's total stock, its purchasability for one item, its state name and its specification |
| Dtos.StockBlock | products/application/dtos.py:271-275 | a missing quantity counts as 0, and "total" is the sum of the two shown |
| Dtos.ProductDtoToDict | products/application/dtos.py:219-280 | the stock block; a null category iff there is no category id; `is_available`; a null `created_at` iff unset |
| Dtos.ProductDictKeys | products/application/dtos.py:219-280 | the dictionary has exactly its thirteen keys |
| Dtos.AggregateDictReportsStock | products/application/dtos.py:169-280 | an aggregate's dictionary shows its own available, reserved and total stock |
| Dtos.NewProductListDto | products/application/dtos.py:354-379 | the page count is the ceiling of total / page size (0 for a non-positive size); `has_next` iff page < pages; `has_previous` iff page > 1 |
| Dtos.PageCountIsLeast | products/application/dtos.py:376-377 | no smaller page count covers the total, and the last page has no next page |
| Dtos.FromValueObject | products/application/dtos.py:440-489 | the category's own product count is used only when none is given; missing children become empty |
| Dtos.CategoryDtoToDict | products/application/dtos.py:491-533 | `children_count` is the number of children; the path is (parent, self) iff both parent fields are set, else (self); "children" appears iff asked for and non-empty |
| Dtos.CategoryDictKeys | products/application/dtos.py:491-533 | the dictionary holds all nine fixed keys |
| InventoryLock.LockKeyInjective | products/infrastructure/services/inventory_lock_service.py:64 | distinct products never share a lock key |
| InventoryLock.Applied | products/infrastructure/services/inventory_lock_service.py:169-178 | a conditional update bumps the version by one and keeps the lock stamp; reserve and release keep the total; confirm lowers it by the quantity |
| InventoryLock.Unlocked | products/infrastructure/services/inventory_lock_service.py:131-134 | clearing keeps quantities and version and empties all three lock fields |
| InventoryLock.Stamp | products/infrastructure/services/inventory_lock_service.py:90-93 | stamping keeps quantities and version and records the token and `now + timeout` |
| InventoryLock.NewLockedRecord | products/infrastructure/services/inventory_lock_service.py:104-111 | a created record is empty, at version 0, locked by this token |
| InventoryLock.ClearIfOwned | products/infrastructure/services/inventory_lock_service.py:126-134 | the stamp is cleared iff the stored key is this token; otherwise the row is untouched |
| InventoryLock.RestoreLock | products/infrastructure/services/inventory_lock_service.py:82-96 | the rollback puts back the lock fields the row had, with its current quantities |
| InventoryLock.Reap | products/infrastructure/services/inventory_lock_service.py:309-322 | exactly the locked rows whose expiry is past are cleared; no row is added or removed, and no quantity changes |
| InventoryLock.ReapIdempotent | products/infrastructure/services/inventory_lock_service.py:309-322 | a second reap changes nothing, and no expired lock survives one |
| InventoryLock.DeleteIfEquals | products/infrastructure/services/inventory_lock_service.py:140 | the key is deleted iff it holds this token |
| InventoryLock.ExitOutcome | products/infrastructure/services/inventory_lock_service.py:116-118 | the body's answer passes through; a database error becomes a lock-acquisition error only on the existing-row path |
| InventoryLock.Acquire | products/infrastructure/services/inventory_lock_service.py:64-113 | products and clock stay; a refusal is a lock failure or a missing product; once held, the row carries our token and the store key holds our token until `now + timeout` |
| InventoryLock.Body | products/infrastructure/services/inventory_lock_service.py:142-187 | the store keys, the products and every other row stay; no row is added or removed |
| InventoryLock.Exit | products/infrastructure/services/inventory_lock_service.py:116-140 | the store key is deleted iff it still holds our token; no row is added and every other row stays |
| InventoryLock.Operation | products/infrastructure/services/inventory_lock_service.py:47-187 | products and clock stay; whenever the answer is `True` or `False`, the row exists afterwards |
| InventoryLock.AcquireFailsIffKeyLive | products/infrastructure/services/inventory_lock_service.py:70-79 | with a live key and a holder that stays, the lock is refused after one reap and one retry, and nothing is released; otherwise the row lock decides |
| InventoryLock.AcquireRowStamps | products/infrastructure/services/inventory_lock_service.py:82-114 | an existing row is stamped; a missing row of an existing product is created empty and stamped; a missing product is refused and the key released |
| InventoryLock.KeyAlwaysReleased | products/infrastructure/services/inventory_lock_service.py:69-140 | once `set_nx` succeeds, on the first try or on the retry after the holder left, every path deletes the key again |
| InventoryLock.OperationAnswerDecidesQuantities | products/infrastructure/services/inventory_lock_service.py:142-187 | under every environment, `True` means exactly our change was applied to the starting row, and `False` means the row could not afford it and is unchanged |
| InventoryLock.OperationFailureKeepsQuantities | products/infrastructure/services/inventory_lock_service.py:142-187 | under every environment, a conflict leaves only the other writer's change, and every other error leaves the quantities unchanged |
| InventoryLock.QuietOperationRecord | products/infrastructure/services/inventory_lock_service.py:142-187 | undisturbed, the answer is whether the row can afford the change, and the row ends changed exactly when so, and unlocked |
| InventoryLock.QuietOperation | products/infrastructure/services/inventory_lock_service.py:142-187 | undisturbed, in addition: no other row changes, the key is deleted, products and clock are the same |
| InventoryLock.RacingWriterCausesConflict | products/infrastructure/services/inventory_lock_service.py:167-182 | a write committed between the read and the update makes the update hit no row: a concurrency error, the other write kept, our stamp rolled back, the key released |
| InventoryLock.BodyDatabaseErrorConversion | products/infrastructure/services/inventory_lock_service.py:116-118 | a database error in the body reaches the caller as a lock-acquisition error when the row existed, and as itself (with the created row rolled back) otherwise |
| InventoryLock.OperationTouchesOnlyItsRecord | products/infrastructure/services/inventory_lock_service.py:47-140 | in every environment no other product's quantities or version and no other store key change |
| InventoryLock.OperationKeepsRecordsOfProducts | products/infrastructure/services/inventory_lock_service.py:98-114 | rows exist only for existing products, before and after |
| InventoryLock.OperationKeepsLockFieldsConsistent | products/infrastructure/services/inventory_lock_service.py:82-134 | in every environment a row is locked exactly when it has a key and an expiry |
| InventoryLock.ReserveThenReleaseRestores | products/infrastructure/services/inventory_lock_service.py:142-231 | an undisturbed reserve and release of the same quantity both succeed and restore both quantities, with version + 2 |
| InventoryLock.BatchEntry | products/infrastructure/services/inventory_lock_service.py:296-305 | success only for `True`; "" on success, the insufficient-stock text on `False`, a fixed text per error kind |
| InventoryLock.BatchMessagesDistinguishOutcomes | products/infrastructure/services/inventory_lock_service.py:296-305 | apart from database errors, an entry determines the outcome it reports |
| InventoryLock.BatchSpec | products/infrastructure/services/inventory_lock_service.py:282-307 | one entry per item, in input order, and the set of products is unchanged |
| InventoryLock.BatchSpecStep | products/infrastructure/services/inventory_lock_service.py:293-305 | each item is reserved on the state the earlier items left |
| InventoryLock.BatchPrefixStable | products/infrastructure/services/inventory_lock_service.py:293-305 | earlier entries depend on earlier items only: a later failure never rewrites them |
| InventoryLock.AsWrittenBatchLosesErrorKinds | products/infrastructure/services/inventory_lock_service.py:304-305 | as written, a missing record and a conflict are reported with Python's `TypeError` text instead of their own messages |
| InventoryLock.InventoryLockService.constructor | products/infrastructure/services/inventory_lock_service.py:35-45 | the service starts over the given rows, products, store and clock, with the lock timeout |
| InventoryLock.InventoryLockService.SetNx | products/infrastructure/services/inventory_lock_service.py:71 | sets the key iff no live entry holds it |
| InventoryLock.InventoryLockService.DeleteKeyIfEquals | products/infrastructure/services/inventory_lock_service.py:140 | deletes the key only if it still holds this token |
| InventoryLock.InventoryLockService.CleanExpiredLocks | products/infrastructure/services/inventory_lock_service.py:309-322 | reaps expired row stamps, or changes nothing when the update fails; never raises |
| InventoryLock.InventoryLockService.EnterLock | products/infrastructure/services/inventory_lock_service.py:64-118 | the acquisition steps leave exactly the state and entry `Acquire` gives |
| InventoryLock.InventoryLockService.ConditionalUpdate | products/infrastructure/services/inventory_lock_service.py:169-178 | one row is updated iff the row exists, its version is the one read, and it can afford the change |
| InventoryLock.InventoryLockService.StockBody | products/infrastructure/services/inventory_lock_service.py:160-187 | the body leaves exactly the outcome and state `Body` gives |
| InventoryLock.InventoryLockService.ExitLock | products/infrastructure/services/inventory_lock_service.py:120-140 | the exit leaves exactly the result and state `Exit` gives |
| InventoryLock.InventoryLockService.LockedStockOperation | products/infrastructure/services/inventory_lock_service.py:47-140 | one locked stock change gives exactly `Operation`'s result and state, and keeps rows confined to existing products |
| InventoryLock.InventoryLockService.ReserveStock | products/infrastructure/services/inventory_lock_service.py:142-187 | `reserve_stock` is `Operation` with a reservation |
| InventoryLock.InventoryLockService.ReleaseStock | products/infrastructure/services/inventory_lock_service.py:189-234 | `release_stock` is `Operation` with a release |
| InventoryLock.InventoryLockService.ConfirmStock | products/infrastructure/services/inventory_lock_service.py:236-280 | `confirm_stock` is `Operation` with a confirmation |
| InventoryLock.InventoryLockService.BatchReserveStock | products/infrastructure/services/inventory_lock_service.py:282-307 | the loop yields exactly `BatchSpec`'s entries and final state |

## Left out

- The HTTP layer, the ORM, the cache wrappers, the search service and the application-level product service are not part of this model. The distributed lock is an abstract set-if-absent / delete-if-equals store. A key's TTL is a logical expiry time on a `nat` clock.
- Real concurrency is not modelled: the atomicity of `SELECT … FOR UPDATE NOWAIT` and of `SET NX`. Other processes appear only through `Env`: a busy row, a failing reaper, a key holder that goes away, one racing committed write, a database error in the body, a failing release.
- `timezone.now()`, `uuid4()` and the lock name are parameters. The clock is a `nat`, and the token of a call is an argument.
- InventoryLock.InventoryLockService.ReserveStock: quantities are `nat`. The source never checks the sign of `quantity`, and a negative quantity is outside the model. The same holds for `ReleaseStock`, `ConfirmStock` and `BatchReserveStock`.
- InventoryLock.Body: `updated_at` is not modelled. The row keeps no modification time.
- InventoryLock.ExitOutcome: exceptions other than `DatabaseError` raised by the body are modelled only for the kinds the service itself raises.
- The exception message texts are not modelled, except the four fixed batch messages and the `TypeError` text of the finding below.
- `Decimal` is modelled as a real with its rendered text supplied. Rounding in `Rating.add_rating`, float and ISO rendering in the DTOs, and `str(Decimal)` are not modelled.
- `ProductService.update_product` is not modelled. Its `updated_fields` list comes from a comprehension over `locals()`, which depends on the Python version.
- `ProductAggregate.to_dict`, `FacetDTO`, `FacetValueDTO` and `ProductListDTO.to_dict` are not modelled. They are rendering only; the pagination fields they print are.
- The other query classes (`GetProductQuery`, `GetProductsByIdsQuery`, `GetCategoryQuery`, `ListCategoriesQuery`) are not modelled. They only store their arguments.
- The IntegrityError path of the ORM `create()` in `lock_inventory` is not modelled. Two processes creating the same row is a concurrency the sequential model does not have.
- The handler bodies called by `DomainEvents.publish` are foreign callbacks. `Publish` returns the ordered list of handlers it calls. A handler that raises stops the loop in the source; the model does not capture that, because the handlers have no bodies here.
- `ValueObject.__hash__` and `__str__` methods are not modelled. They are not used by the stock rules.
- `Entity.__hash__` takes the hash function on ids as a parameter.
- ProductServices.CategoryPartFacts: the exact item counts are stated for a non-negative `limit` only, the case callers use. The same holds for `KeywordPartFacts` and `RelatedProductsProperties`.
- The repository of `ProductService` is an in-memory map. The category and keyword searches of `get_related_products` are the pages they return, passed as arguments.

## Findings

| source | as written | input that shows it | evidently intended | confidence | as-written member | corrected member |
|---|---|---|---|---|---|---|
| products/infrastructure/services/inventory_lock_service.py:182 | `EntityNotFoundException(...)` and `ConcurrencyException(...)` are built with one argument (also at lines 101, 187, 229, 234, 275, 280), but both constructors take two (core/domain/exceptions.py:51,90), so Python raises `TypeError` | `batch_reserve_stock([(p, 1)])` for a product `p` with no inventory row and no product record | each failure reported with its fixed batch message ("商品不存在", "并发冲突，请重试") | not executed | InventoryLock.AsWrittenBatchLosesErrorKinds | InventoryLock.BatchMessagesDistinguishOutcomes |
| products/application/queries.py:132 | `max_price or 'max'` renders a zero upper bound as "max" | a search with `max_price = Decimal(0)`, compared with the same search without `max_price` | distinct cache keys, since `get_filters` filters on `max_price = 0` and not on a missing one | not executed | Queries.MaxPriceZeroCollides | Queries.CorrectedKeySeparatesMaxPrice |
