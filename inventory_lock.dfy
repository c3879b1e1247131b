/**
 * The stock-reservation engine (products/infrastructure/services/inventory_lock_service.py).
 *
 * `lock_inventory` takes a distributed set-if-absent lock on
 * "inventory_lock:<product id>", then a non-blocking row lock on the product's
 * inventory record, which it stamps with the lock token and an expiry (or
 * creates, already stamped, when the product has no record yet). On every exit
 * it clears the row stamp if the row still carries its token and deletes the
 * distributed key if the key still holds its token. The stock operations run
 * inside that scope and apply a version-checked conditional update.
 *
 * The distributed store is an abstract collaborator with two atomic primitives,
 * `set_nx` and `delete_if_equals`; its TTL is a logical expiry time. The clock
 * is the logical `now`. Whatever other processes and the database do during one
 * call is an `Env` value: whether the row is locked by another transaction,
 * whether the reaper or the release step fails, whether another writer commits
 * a change between our read and our conditional update, and whether the body's
 * database access fails.
 *
 * The behaviour is first stated as functions over a `Store` value (`Acquire`,
 * `Body`, `Exit`, `Operation`, `BatchSpec`); the class `InventoryLockService`
 * performs the same steps on its fields and is proved to agree with them.
 */
module InventoryLock {
  import opened Prelude

  type ProductId = string
  type Token = string

  const DefaultLockTimeout: nat := 30

  /** A row of the inventory table: non-negative quantities and version, and the
      lock stamp (`is_locked`, `lock_expiry`, `lock_key`). */
  datatype InventoryRecord = InventoryRecord(
    available: nat,
    reserved: nat,
    version: nat,
    isLocked: bool,
    lockExpiry: Option<nat>,
    lockKey: Option<Token>)

  /** A key of the distributed store: the value and the time it expires at. */
  datatype CacheEntry = CacheEntry(value: Token, expiresAt: nat)

  /** The exception kinds the service is meant to raise. */
  datatype LockError =
    | EntityNotFound
    | ConcurrencyConflict
    | LockAcquisitionFailed
    | DatabaseFailure(message: string)

  /** The three stock changes, by a quantity. */
  datatype Mutation = ReserveOp(q: nat) | ReleaseOp(q: nat) | ConfirmOp(q: nat)

  /** What the surroundings do during one call. */
  datatype Env = Env(
    rowBusy: bool,
    reaperFails: bool,
    holderLeft: bool,
    race: Option<Mutation>,
    bodyDbError: Option<string>,
    releaseFails: bool)

  /** No other process and no database failure. */
  const Quiet: Env := Env(false, false, false, None, None, false)

  /** Everything the service reads and writes. */
  datatype Store = Store(
    records: map<ProductId, InventoryRecord>,
    products: set<ProductId>,
    cache: map<string, CacheEntry>,
    now: nat)

  // ---------------------------------------------------------------- records

  function LockKeyFor(pid: ProductId): string
  {
    "inventory_lock:" + pid
  }

  /** Distinct products never share a lock key. */
  lemma LockKeyInjective(a: ProductId, b: ProductId)
    ensures LockKeyFor(a) == LockKeyFor(b) ==> a == b
  {
    if LockKeyFor(a) == LockKeyFor(b) {
      assert a == LockKeyFor(a)[15..] && b == LockKeyFor(b)[15..];
    }
  }

  function Total(r: InventoryRecord): nat
  {
    r.available + r.reserved
  }

  /** The three lock fields agree: locked exactly when a key and an expiry are set. */
  predicate LockFieldsConsistent(r: InventoryRecord)
  {
    r.isLocked == r.lockKey.Some? && r.isLocked == r.lockExpiry.Some?
  }

  predicate SameQuantities(a: InventoryRecord, b: InventoryRecord)
  {
    a.available == b.available && a.reserved == b.reserved && a.version == b.version
  }

  predicate SameLock(a: InventoryRecord, b: InventoryRecord)
  {
    a.isLocked == b.isLocked && a.lockExpiry == b.lockExpiry && a.lockKey == b.lockKey
  }

  /** The sufficiency test of a stock change, both the early `False` check and the
      `__gte` filter of the conditional update. */
  predicate Guard(r: InventoryRecord, m: Mutation)
  {
    match m
    case ReserveOp(q) => r.available >= q
    case ReleaseOp(q) => r.reserved >= q
    case ConfirmOp(q) => r.reserved >= q
  }

  /** The `update(...)` of a stock change: the quantities move, the version goes up
      by one, the lock stamp stays. */
  function Applied(r: InventoryRecord, m: Mutation): (r': InventoryRecord)
    requires Guard(r, m)
    ensures r'.version == r.version + 1 && SameLock(r', r)
    ensures m.ReserveOp? ==> Total(r') == Total(r) && r'.reserved == r.reserved + m.q
    ensures m.ReleaseOp? ==> Total(r') == Total(r) && r'.available == r.available + m.q
    ensures m.ConfirmOp? ==> Total(r') + m.q == Total(r) && r'.available == r.available
  {
    match m
    case ReserveOp(q) => r.(available := r.available - q, reserved := r.reserved + q, version := r.version + 1)
    case ReleaseOp(q) => r.(available := r.available + q, reserved := r.reserved - q, version := r.version + 1)
    case ConfirmOp(q) => r.(reserved := r.reserved - q, version := r.version + 1)
  }

  /** A write another process commits, when its own filter lets it through. */
  function RaceApplied(r: InventoryRecord, race: Option<Mutation>): InventoryRecord
  {
    if race.Some? && Guard(r, race.value) then Applied(r, race.value) else r
  }

  function Unlocked(r: InventoryRecord): (r': InventoryRecord)
    ensures SameQuantities(r', r) && !r'.isLocked && r'.lockKey.None? && r'.lockExpiry.None?
  {
    r.(isLocked := false, lockExpiry := None, lockKey := None)
  }

  /** The row stamp of `lock_inventory`. */
  function Stamp(r: InventoryRecord, token: Token, now: nat, timeout: nat): (r': InventoryRecord)
    ensures SameQuantities(r', r) && r'.isLocked && r'.lockKey == Some(token) && r'.lockExpiry == Some(now + timeout)
  {
    r.(isLocked := true, lockExpiry := Some(now + timeout), lockKey := Some(token))
  }

  /** The record created for a product that has none: empty, already stamped. */
  function NewLockedRecord(token: Token, now: nat, timeout: nat): (r: InventoryRecord)
    ensures r.available == 0 && r.reserved == 0 && r.version == 0
    ensures r.isLocked && r.lockKey == Some(token) && r.lockExpiry == Some(now + timeout)
  {
    InventoryRecord(0, 0, 0, true, Some(now + timeout), Some(token))
  }

  /** The release step: clears the stamp only when the row still carries `token`. */
  function ClearIfOwned(r: InventoryRecord, token: Token): (r': InventoryRecord)
    ensures SameQuantities(r', r)
    ensures r.lockKey == Some(token) ==> !r'.isLocked && r'.lockKey.None? && r'.lockExpiry.None?
    ensures r.lockKey != Some(token) ==> r' == r
  {
    if r.lockKey == Some(token) then Unlocked(r) else r
  }

  /** Undoing our own stamp on rollback: the row keeps what others committed but
      gets back the lock fields it had before we stamped it. */
  function RestoreLock(current: InventoryRecord, snapshot: InventoryRecord): (r: InventoryRecord)
    ensures SameQuantities(r, current) && SameLock(r, snapshot)
  {
    current.(isLocked := snapshot.isLocked, lockExpiry := snapshot.lockExpiry, lockKey := snapshot.lockKey)
  }

  /** The reaper's filter: locked with an expiry strictly before `now` (a null
      expiry never matches). */
  predicate Expired(r: InventoryRecord, now: nat)
  {
    r.isLocked && r.lockExpiry.Some? && r.lockExpiry.value < now
  }

  /** `_clean_expired_locks`: clears the stamp of exactly the expired records. */
  function Reap(records: map<ProductId, InventoryRecord>, now: nat): (r: map<ProductId, InventoryRecord>)
    ensures r.Keys == records.Keys
    ensures forall p :: p in records ==> SameQuantities(r[p], records[p])
    ensures forall p :: p in records && Expired(records[p], now) ==> r[p] == Unlocked(records[p])
    ensures forall p :: p in records && !Expired(records[p], now) ==> r[p] == records[p]
  {
    map p | p in records :: if Expired(records[p], now) then Unlocked(records[p]) else records[p]
  }

  /** Reaping twice is reaping once, and leaves nothing expired. */
  lemma ReapIdempotent(records: map<ProductId, InventoryRecord>, now: nat)
    ensures Reap(Reap(records, now), now) == Reap(records, now)
    ensures forall p :: p in Reap(records, now) ==> !Expired(Reap(records, now)[p], now)
  {
  }

  // ---------------------------------------------------------------- the distributed store

  predicate Live(cache: map<string, CacheEntry>, key: string, now: nat)
  {
    key in cache && now < cache[key].expiresAt
  }

  /** `delete_if_equals`: removes the key only while it holds `value`; no other key moves. */
  function DeleteIfEquals(cache: map<string, CacheEntry>, key: string, value: Token): (c: map<string, CacheEntry>)
    ensures key in cache && cache[key].value == value ==> c == cache - {key}
    ensures !(key in cache && cache[key].value == value) ==> c == cache
  {
    if key in cache && cache[key].value == value then cache - {key} else cache
  }

  // ---------------------------------------------------------------- lock_inventory, reserve/release/confirm

  /** Which way the row was locked. */
  datatype RowPath = Existing(snapshot: InventoryRecord) | Created

  /** The result of entering `lock_inventory`: the body may run, or the exception raised. */
  datatype LockEntry = Held(path: RowPath) | Refused(error: LockError)

  /** What the body inside the lock did. */
  datatype BodyOutcome = Returned(ok: bool) | Raised(error: LockError)

  /** Taking the row lock once the distributed key is ours. */
  function AcquireRow(s: Store, pid: ProductId, token: Token, timeout: nat, env: Env): (LockEntry, Store)
  {
    var key := LockKeyFor(pid);
    if pid in s.records then
      if env.rowBusy then (Refused(LockAcquisitionFailed), s.(cache := DeleteIfEquals(s.cache, key, token)))
      else (Held(Existing(s.records[pid])), s.(records := s.records[pid := Stamp(s.records[pid], token, s.now, timeout)]))
    else if pid !in s.products then (Refused(EntityNotFound), s.(cache := DeleteIfEquals(s.cache, key, token)))
    else (Held(Created), s.(records := s.records[pid := NewLockedRecord(token, s.now, timeout)]))
  }

  /** Entering `lock_inventory`: `set_nx`; on failure the reaper and one retry. The
      reaper clears database stamps only, so the retry succeeds only when the key's
      holder let it go in the meantime. */
  function Acquire(s: Store, pid: ProductId, token: Token, timeout: nat, env: Env): (r: (LockEntry, Store))
    ensures r.1.products == s.products && r.1.now == s.now
    ensures r.0.Refused? ==> r.0.error == LockAcquisitionFailed || r.0.error == EntityNotFound
    ensures r.0.Held? ==> pid in r.1.records && r.1.records[pid].isLocked && r.1.records[pid].lockKey == Some(token)
    ensures r.0.Held? ==> LockKeyFor(pid) in r.1.cache && r.1.cache[LockKeyFor(pid)] == CacheEntry(token, s.now + timeout)
  {
    var key := LockKeyFor(pid);
    if !Live(s.cache, key, s.now) then
      AcquireRow(s.(cache := s.cache[key := CacheEntry(token, s.now + timeout)]), pid, token, timeout, env)
    else
      var reaped := if env.reaperFails then s else s.(records := Reap(s.records, s.now));
      if env.holderLeft then
        AcquireRow(reaped.(cache := (reaped.cache - {key})[key := CacheEntry(token, reaped.now + timeout)]), pid, token, timeout, env)
      else (Refused(LockAcquisitionFailed), reaped)
  }

  /** The body of `reserve_stock`, `release_stock` or `confirm_stock`: read the record,
      answer `False` when it cannot afford the change, else update it provided its
      version is still the one read. */
  function Body(s: Store, pid: ProductId, m: Mutation, env: Env): (r: (BodyOutcome, Store))
    ensures r.1.cache == s.cache && r.1.products == s.products && r.1.now == s.now
    ensures r.1.records.Keys == s.records.Keys
    ensures forall p :: p in s.records && p != pid ==> r.1.records[p] == s.records[p]
  {
    if env.bodyDbError.Some? then (Raised(DatabaseFailure(env.bodyDbError.value)), s)
    else if pid !in s.records then (Raised(EntityNotFound), s)
    else
      var read := s.records[pid];
      if !Guard(read, m) then (Returned(false), s)
      else
        var raced := RaceApplied(read, env.race);
        var s1 := s.(records := s.records[pid := raced]);
        if raced.version == read.version && Guard(raced, m) then
          (Returned(true), s1.(records := s1.records[pid := Applied(raced, m)]))
        else (Raised(ConcurrencyConflict), s1)
  }

  /** The transaction's rollback when the body raised: our stamp is undone, a record we
      created is gone. */
  function Rollback(s: Store, pid: ProductId, path: RowPath): Store
  {
    match path
    case Existing(snapshot) =>
      if pid in s.records then s.(records := s.records[pid := RestoreLock(s.records[pid], snapshot)]) else s
    case Created => s.(records := s.records - {pid})
  }

  /** What the caller of `lock_inventory` sees: a `DatabaseError` from the body becomes
      a lock-acquisition error, but only on the existing-record path, whose `yield`
      sits in the `try` with that handler. */
  function ExitOutcome(path: RowPath, body: BodyOutcome): (r: Result<bool, LockError>)
    ensures body.Returned? ==> r == Ok(body.ok)
    ensures body.Raised? && body.error.DatabaseFailure? && path.Existing? ==> r == Err(LockAcquisitionFailed)
    ensures body.Raised? && !(body.error.DatabaseFailure? && path.Existing?) ==> r == Err(body.error)
    ensures r == Ok(true) <==> body == Returned(true)
    ensures r == Ok(false) <==> body == Returned(false)
    ensures r == Err(ConcurrencyConflict) <==> body == Raised(ConcurrencyConflict)
  {
    if body.Returned? then Ok(body.ok)
    else if body.error.DatabaseFailure? && path.Existing? then Err(LockAcquisitionFailed)
    else Err(body.error)
  }

  /** Leaving `lock_inventory`: commit or rollback, then the `finally` block. */
  function Exit(s: Store, pid: ProductId, token: Token, path: RowPath, body: BodyOutcome, env: Env): (r: (Result<bool, LockError>, Store))
    ensures r.1.cache == DeleteIfEquals(s.cache, LockKeyFor(pid), token)
    ensures r.1.products == s.products && r.1.now == s.now
    ensures r.1.records.Keys <= s.records.Keys
    ensures forall p :: p in s.records && p != pid ==> p in r.1.records && r.1.records[p] == s.records[p]
  {
    var rolled := if body.Raised? then Rollback(s, pid, path) else s;
    var released := if env.releaseFails || pid !in rolled.records then rolled
                    else rolled.(records := rolled.records[pid := ClearIfOwned(rolled.records[pid], token)]);
    (ExitOutcome(path, body), released.(cache := DeleteIfEquals(released.cache, LockKeyFor(pid), token)))
  }

  /** One stock operation from start to end. */
  function Operation(s: Store, pid: ProductId, token: Token, timeout: nat, m: Mutation, env: Env): (r: (Result<bool, LockError>, Store))
    ensures r.1.products == s.products && r.1.now == s.now
    ensures r.0.Ok? ==> pid in r.1.records
  {
    var acq := Acquire(s, pid, token, timeout, env);
    match acq.0
    case Refused(e) => (Err(e), acq.1)
    case Held(path) =>
      var body := Body(acq.1, pid, m, env);
      Exit(body.1, pid, token, path, body.0, env)
  }

  // ---------------------------------------------------------------- batch_reserve_stock

  datatype BatchResult = BatchResult(productId: ProductId, success: bool, message: string)

  const InsufficientStockText: string := "库存不足"
  const NotFoundText: string := "商品不存在"
  const ConflictText: string := "并发冲突，请重试"
  const LockFailedText: string := "库存锁定失败，请重试"

  /** One entry of `batch_reserve_stock`: success, the `False` answer, or the message
      of the exception kind caught; any other exception reports its own text. */
  function BatchEntry(pid: ProductId, res: Result<bool, LockError>): (b: BatchResult)
    ensures b.productId == pid
    ensures b.success <==> res == Ok(true)
    ensures b.success ==> b.message == ""
    ensures res == Ok(false) ==> b.message == InsufficientStockText
    ensures res == Err(EntityNotFound) ==> b.message == NotFoundText
    ensures res == Err(ConcurrencyConflict) ==> b.message == ConflictText
    ensures res == Err(LockAcquisitionFailed) ==> b.message == LockFailedText
    ensures res.Err? && res.error.DatabaseFailure? ==> b.message == res.error.message
  {
    match res
    case Ok(ok) => BatchResult(pid, ok, if ok then "" else InsufficientStockText)
    case Err(e) =>
      match e
      case EntityNotFound => BatchResult(pid, false, NotFoundText)
      case ConcurrencyConflict => BatchResult(pid, false, ConflictText)
      case LockAcquisitionFailed => BatchResult(pid, false, LockFailedText)
      case DatabaseFailure(message) => BatchResult(pid, false, message)
  }

  /** The fixed messages tell every outcome kind apart. */
  lemma BatchMessagesDistinguishOutcomes(pid: ProductId, a: Result<bool, LockError>, b: Result<bool, LockError>)
    requires !(a.Err? && a.error.DatabaseFailure?) && !(b.Err? && b.error.DatabaseFailure?)
    requires BatchEntry(pid, a) == BatchEntry(pid, b)
    ensures a == b
  {
  }

  /** The batch as items are reserved one after the other, each on the state the
      previous one left. */
  function BatchSpec(s: Store, items: seq<(ProductId, nat)>, tokens: seq<Token>, envs: seq<Env>, timeout: nat): (r: (seq<BatchResult>, Store))
    requires |tokens| == |items| && |envs| == |items|
    ensures |r.0| == |items|
    ensures forall i :: 0 <= i < |items| ==> r.0[i].productId == items[i].0
    ensures r.1.products == s.products
    decreases |items|
  {
    if items == [] then ([], s)
    else
      var n := |items| - 1;
      var prev := BatchSpec(s, items[..n], tokens[..n], envs[..n], timeout);
      var op := Operation(prev.1, items[n].0, tokens[n], timeout, ReserveOp(items[n].1), envs[n]);
      (prev.0 + [BatchEntry(items[n].0, op.0)], op.1)
  }

  /** One more item extends the batch by that item's entry, computed on the state
      the earlier items left. */
  lemma BatchSpecStep(s: Store, items: seq<(ProductId, nat)>, tokens: seq<Token>, envs: seq<Env>, timeout: nat, i: nat)
    requires |tokens| == |items| && |envs| == |items| && i < |items|
    ensures var prev := BatchSpec(s, items[..i], tokens[..i], envs[..i], timeout);
            var op := Operation(prev.1, items[i].0, tokens[i], timeout, ReserveOp(items[i].1), envs[i]);
            BatchSpec(s, items[..i + 1], tokens[..i + 1], envs[..i + 1], timeout) == (prev.0 + [BatchEntry(items[i].0, op.0)], op.1)
  {
    assert items[..i + 1][..i] == items[..i] && tokens[..i + 1][..i] == tokens[..i] && envs[..i + 1][..i] == envs[..i];
  }

  /** Earlier entries are settled by earlier items alone: a later failure never
      rewrites them. */
  lemma {:induction false} BatchPrefixStable(s: Store, items: seq<(ProductId, nat)>, tokens: seq<Token>, envs: seq<Env>,
                                             timeout: nat, i: nat)
    requires |tokens| == |items| && |envs| == |items| && i <= |items|
    ensures BatchSpec(s, items, tokens, envs, timeout).0[..i] == BatchSpec(s, items[..i], tokens[..i], envs[..i], timeout).0
    decreases |items|
  {
    if i < |items| {
      var n := |items| - 1;
      assert items[..n][..i] == items[..i] && tokens[..n][..i] == tokens[..i] && envs[..n][..i] == envs[..i];
      BatchPrefixStable(s, items[..n], tokens[..n], envs[..n], timeout, i);
      assert BatchSpec(s, items, tokens, envs, timeout).0[..n] == BatchSpec(s, items[..n], tokens[..n], envs[..n], timeout).0;
    } else {
      assert items[..i] == items && tokens[..i] == tokens && envs[..i] == envs;
    }
  }

  // ---------------------------------------------------------------- properties of one operation

  /** The distributed lock is refused exactly when its key is held by a live entry
      that stays through the retry: the reaper only clears database stamps. Nothing
      is released then, and the store keeps the other holder's key. Otherwise the
      row lock decides. */
  lemma AcquireFailsIffKeyLive(s: Store, pid: ProductId, token: Token, timeout: nat, env: Env)
    ensures Live(s.cache, LockKeyFor(pid), s.now) && !env.holderLeft ==>
              Acquire(s, pid, token, timeout, env) ==
                (Refused(LockAcquisitionFailed), if env.reaperFails then s else s.(records := Reap(s.records, s.now)))
    ensures !Live(s.cache, LockKeyFor(pid), s.now) || env.holderLeft ==>
              var acq := Acquire(s, pid, token, timeout, env);
              acq.0.Held? <==> (pid in s.records && !env.rowBusy) || (pid !in s.records && pid in s.products)
  {
  }

  /** Row locking: an existing record is stamped with quantities and version
      untouched; a missing record of an existing product is created empty and
      stamped; a missing product is refused and the key released. */
  lemma AcquireRowStamps(s: Store, pid: ProductId, token: Token, timeout: nat, env: Env)
    requires !Live(s.cache, LockKeyFor(pid), s.now) && !env.rowBusy
    ensures var acq := Acquire(s, pid, token, timeout, env);
            (pid in s.records ==>
               acq.0 == Held(Existing(s.records[pid])) &&
               acq.1.records == s.records[pid := Stamp(s.records[pid], token, s.now, timeout)]) &&
            (pid !in s.records && pid in s.products ==>
               acq.0 == Held(Created) && acq.1.records == s.records[pid := NewLockedRecord(token, s.now, timeout)]) &&
            (pid !in s.records && pid !in s.products ==>
               acq.0 == Refused(EntityNotFound) && acq.1.records == s.records && acq.1.cache == s.cache - {LockKeyFor(pid)})
  {
  }

  lemma UpdateThenRemove<K, V>(m: map<K, V>, k: K, v: V)
    ensures m[k := v] - {k} == m - {k}
  {
  }

  lemma UpdateTwice<K, V>(m: map<K, V>, k: K, v: V, w: V)
    ensures m[k := v][k := w] == m[k := w]
  {
  }

  lemma AppliedKeepsSameQuantities(a: InventoryRecord, b: InventoryRecord, m: Mutation)
    requires SameQuantities(a, b) && Guard(a, m)
    ensures Guard(b, m) && SameQuantities(Applied(a, m), Applied(b, m))
  {
  }

  lemma UnlockedIgnoresStamp(a: InventoryRecord, b: InventoryRecord)
    requires SameQuantities(a, b)
    ensures Unlocked(a) == Unlocked(b)
  {
  }

  /** The record an undisturbed operation starts from. */
  function Initial(s: Store, pid: ProductId): InventoryRecord
  {
    if pid in s.records then s.records[pid] else InventoryRecord(0, 0, 0, false, None, None)
  }

  /** The stamped record the body of an uncontended call works on. */
  function StampedStart(s: Store, pid: ProductId, token: Token, timeout: nat): (r: InventoryRecord)
    ensures SameQuantities(r, Initial(s, pid)) && r.lockKey == Some(token)
  {
    if pid in s.records then Stamp(s.records[pid], token, s.now, timeout) else NewLockedRecord(token, s.now, timeout)
  }

  /** The state right after an uncontended acquisition. */
  function Locked(s: Store, pid: ProductId, token: Token, timeout: nat): Store
  {
    s.(records := s.records[pid := StampedStart(s, pid, token, timeout)],
       cache := s.cache[LockKeyFor(pid) := CacheEntry(token, s.now + timeout)])
  }

  function PathOf(s: Store, pid: ProductId): RowPath
  {
    if pid in s.records then Existing(s.records[pid]) else Created
  }

  lemma AcquireUncontended(s: Store, pid: ProductId, token: Token, timeout: nat, env: Env)
    requires !Live(s.cache, LockKeyFor(pid), s.now) && !env.rowBusy
    requires pid in s.records || pid in s.products
    ensures Acquire(s, pid, token, timeout, env) == (Held(PathOf(s, pid)), Locked(s, pid, token, timeout))
  {
  }

  lemma BodyUndisturbed(s: Store, pid: ProductId, m: Mutation, env: Env)
    requires pid in s.records && env.bodyDbError.None? && env.race.None?
    ensures Body(s, pid, m, env) ==
              if Guard(s.records[pid], m) then (Returned(true), s.(records := s.records[pid := Applied(s.records[pid], m)]))
              else (Returned(false), s)
  {
    assert s.records[pid := s.records[pid]] == s.records;
  }

  /** The record after the body of an uncontended call. */
  function AfterQuietBody(s: Store, pid: ProductId, token: Token, timeout: nat, m: Mutation): InventoryRecord
  {
    var stamped := StampedStart(s, pid, token, timeout);
    if Guard(Initial(s, pid), m) then Applied(stamped, m) else stamped
  }

  lemma QuietBody(s: Store, pid: ProductId, token: Token, timeout: nat, m: Mutation)
    ensures var l := Locked(s, pid, token, timeout);
            Body(l, pid, m, Quiet) ==
              (Returned(Guard(Initial(s, pid), m)), l.(records := s.records[pid := AfterQuietBody(s, pid, token, timeout, m)]))
  {
    var l := Locked(s, pid, token, timeout);
    var stamped := StampedStart(s, pid, token, timeout);
    BodyUndisturbed(l, pid, m, Quiet);
    assert Guard(stamped, m) == Guard(Initial(s, pid), m);
    UpdateTwice(s.records, pid, stamped, AfterQuietBody(s, pid, token, timeout, m));
  }

  lemma ExitAfterReturn(s: Store, pid: ProductId, token: Token, path: RowPath, ok: bool, env: Env)
    requires pid in s.records && !env.releaseFails
    ensures Exit(s, pid, token, path, Returned(ok), env) ==
              (Ok(ok), s.(records := s.records[pid := ClearIfOwned(s.records[pid], token)],
                          cache := DeleteIfEquals(s.cache, LockKeyFor(pid), token)))
  {
  }

  lemma QuietExit(s: Store, pid: ProductId, token: Token, timeout: nat, m: Mutation)
    ensures var l := Locked(s, pid, token, timeout);
            var r0 := Initial(s, pid);
            var exit := Exit(l.(records := s.records[pid := AfterQuietBody(s, pid, token, timeout, m)]),
                             pid, token, PathOf(s, pid), Returned(Guard(r0, m)), Quiet);
            exit.0 == Ok(Guard(r0, m)) &&
            exit.1.records == s.records[pid := Unlocked(if Guard(r0, m) then Applied(r0, m) else r0)]
  {
    var l := Locked(s, pid, token, timeout);
    var r0 := Initial(s, pid);
    var g := Guard(r0, m);
    var stamped := StampedStart(s, pid, token, timeout);
    var after := AfterQuietBody(s, pid, token, timeout, m);
    var final := Unlocked(if g then Applied(r0, m) else r0);
    ExitAfterReturn(l.(records := s.records[pid := after]), pid, token, PathOf(s, pid), g, Quiet);
    assert ClearIfOwned(after, token) == final by {
      if g {
        AppliedKeepsSameQuantities(stamped, r0, m);
      }
      UnlockedIgnoresStamp(after, if g then Applied(r0, m) else r0);
    }
    UpdateTwice(s.records, pid, after, final);
  }

  /** The distributed store a successful `set_nx` writes into: as it was, or without
      the key its holder let go. */
  function Taken(s: Store, pid: ProductId): map<string, CacheEntry>
  {
    if !Live(s.cache, LockKeyFor(pid), s.now) then s.cache else s.cache - {LockKeyFor(pid)}
  }

  lemma AcquireTakesKey(s: Store, pid: ProductId, token: Token, timeout: nat, env: Env)
    requires !Live(s.cache, LockKeyFor(pid), s.now) || env.holderLeft
    ensures var acq := Acquire(s, pid, token, timeout, env);
            var taken := Taken(s, pid)[LockKeyFor(pid) := CacheEntry(token, s.now + timeout)];
            acq.1.cache == if acq.0.Held? then taken else taken - {LockKeyFor(pid)}
  {
  }

  /** Once `set_nx` succeeds, on the first try or on the retry after the holder let
      the key go, the call deletes the key again on every path: the distributed store
      ends as it was, without that key. */
  lemma {:induction false} KeyAlwaysReleased(s: Store, pid: ProductId, token: Token, timeout: nat, m: Mutation, env: Env)
    requires !Live(s.cache, LockKeyFor(pid), s.now) || env.holderLeft
    ensures Operation(s, pid, token, timeout, m, env).1.cache == s.cache - {LockKeyFor(pid)}
  {
    var key := LockKeyFor(pid);
    var entry := CacheEntry(token, s.now + timeout);
    UpdateThenRemove(Taken(s, pid), key, entry);
    RemoveTwice(s.cache, key);
    assert Taken(s, pid)[key := entry] - {key} == s.cache - {key};
    var acq := Acquire(s, pid, token, timeout, env);
    AcquireTakesKey(s, pid, token, timeout, env);
    if acq.0.Held? {
      var body := Body(acq.1, pid, m, env);
    }
  }

  /** Entering the lock never changes a quantity and never raises a conflict. */
  lemma AcquireKeepsQuantities(s: Store, pid: ProductId, token: Token, timeout: nat, env: Env)
    ensures var acq := Acquire(s, pid, token, timeout, env);
            (acq.0.Refused? ==> acq.0.error != ConcurrencyConflict &&
                                (pid in acq.1.records ==> SameQuantities(acq.1.records[pid], Initial(s, pid)))) &&
            (acq.0.Held? ==> pid in acq.1.records && SameQuantities(acq.1.records[pid], Initial(s, pid)))
  {
  }

  /** The body's own update lands exactly when it answers `True`; a conflict leaves
      the other writer's commit; every other outcome leaves the quantities alone. */
  lemma BodyDecidesQuantities(s: Store, pid: ProductId, m: Mutation, env: Env, r0: InventoryRecord)
    requires pid in s.records && SameQuantities(s.records[pid], r0)
    ensures var body := Body(s, pid, m, env);
            pid in body.1.records &&
            (body.0 == Returned(true) ==> Guard(r0, m) && SameQuantities(body.1.records[pid], Applied(r0, m))) &&
            (body.0 == Returned(false) ==> !Guard(r0, m) && SameQuantities(body.1.records[pid], r0)) &&
            (body.0 == Raised(ConcurrencyConflict) ==>
               env.race.Some? && SameQuantities(body.1.records[pid], RaceApplied(r0, env.race))) &&
            (body.0.Raised? && body.0.error != ConcurrencyConflict ==> SameQuantities(body.1.records[pid], r0))
  {
    var read := s.records[pid];
    if env.bodyDbError.None? && Guard(read, m) {
      if env.race.Some? && Guard(read, env.race.value) {
        AppliedKeepsSameQuantities(read, r0, env.race.value);
      }
      var raced := RaceApplied(read, env.race);
      if raced.version == read.version && Guard(raced, m) {
        AppliedKeepsSameQuantities(raced, r0, m);
      }
    }
  }

  /** Leaving the lock never changes a quantity; it may only drop a record we created. */
  lemma ExitKeepsQuantities(s: Store, pid: ProductId, token: Token, path: RowPath, body: BodyOutcome, env: Env)
    requires pid in s.records
    ensures var exit := Exit(s, pid, token, path, body, env);
            exit.0 == ExitOutcome(path, body) &&
            (body.Returned? ==> pid in exit.1.records) &&
            (pid in exit.1.records ==> SameQuantities(exit.1.records[pid], s.records[pid]))
  {
  }

  /** Under every environment an answer decides the record's quantities: `True` means
      our change was applied to the record we started from and nothing else; `False`
      means the record could not afford it. */
  lemma {:induction false} OperationAnswerDecidesQuantities(s: Store, pid: ProductId, token: Token, timeout: nat, m: Mutation, env: Env)
    ensures var op := Operation(s, pid, token, timeout, m, env);
            var r0 := Initial(s, pid);
            (op.0 == Ok(true) ==> Guard(r0, m) && pid in op.1.records && SameQuantities(op.1.records[pid], Applied(r0, m))) &&
            (op.0 == Ok(false) ==> !Guard(r0, m) && pid in op.1.records && SameQuantities(op.1.records[pid], r0))
  {
    var r0 := Initial(s, pid);
    var acq := Acquire(s, pid, token, timeout, env);
    AcquireKeepsQuantities(s, pid, token, timeout, env);
    if acq.0.Held? {
      var body := Body(acq.1, pid, m, env);
      BodyDecidesQuantities(acq.1, pid, m, env, r0);
      ExitKeepsQuantities(body.1, pid, token, acq.0.path, body.0, env);
    }
  }

  /** Under every environment an operation that fails leaves its own change out: a
      conflict leaves only the other writer's change, every other error leaves the
      quantities as they were. */
  lemma {:induction false} OperationFailureKeepsQuantities(s: Store, pid: ProductId, token: Token, timeout: nat, m: Mutation, env: Env)
    ensures var op := Operation(s, pid, token, timeout, m, env);
            var r0 := Initial(s, pid);
            (op.0 == Err(ConcurrencyConflict) ==>
               env.race.Some? && (pid in op.1.records ==> SameQuantities(op.1.records[pid], RaceApplied(r0, env.race)))) &&
            (op.0.Err? && op.0 != Err(ConcurrencyConflict) && pid in op.1.records ==> SameQuantities(op.1.records[pid], r0))
  {
    var r0 := Initial(s, pid);
    var acq := Acquire(s, pid, token, timeout, env);
    AcquireKeepsQuantities(s, pid, token, timeout, env);
    if acq.0.Held? {
      var body := Body(acq.1, pid, m, env);
      BodyDecidesQuantities(acq.1, pid, m, env, r0);
      ExitKeepsQuantities(body.1, pid, token, acq.0.path, body.0, env);
    }
  }

  /** The answer and the record of an operation that meets no other process. */
  lemma QuietOperationRecord(s: Store, pid: ProductId, token: Token, timeout: nat, m: Mutation)
    requires !Live(s.cache, LockKeyFor(pid), s.now)
    requires pid in s.records || pid in s.products
    ensures var op := Operation(s, pid, token, timeout, m, Quiet);
            var r0 := Initial(s, pid);
            op.0 == Ok(Guard(r0, m)) &&
            op.1.records == s.records[pid := Unlocked(if Guard(r0, m) then Applied(r0, m) else r0)]
  {
    AcquireUncontended(s, pid, token, timeout, Quiet);
    QuietBody(s, pid, token, timeout, m);
    QuietExit(s, pid, token, timeout, m);
  }

  /** An operation that meets no other process: it answers whether the record could
      afford the change, applies it when so, leaves the row unlocked and the
      distributed key deleted, and touches no other record. */
  lemma QuietOperation(s: Store, pid: ProductId, token: Token, timeout: nat, m: Mutation)
    requires !Live(s.cache, LockKeyFor(pid), s.now)
    requires pid in s.records || pid in s.products
    ensures var op := Operation(s, pid, token, timeout, m, Quiet);
            var r0 := Initial(s, pid);
            op.0 == Ok(Guard(r0, m)) &&
            pid in op.1.records &&
            op.1.records[pid] == Unlocked(if Guard(r0, m) then Applied(r0, m) else r0) &&
            op.1.records - {pid} == s.records - {pid} &&
            op.1.cache == s.cache - {LockKeyFor(pid)} &&
            op.1.products == s.products && op.1.now == s.now
  {
    var r0 := Initial(s, pid);
    QuietOperationRecord(s, pid, token, timeout, m);
    KeyAlwaysReleased(s, pid, token, timeout, m, Quiet);
    OperationTouchesOnlyItsRecord(s, pid, token, timeout, m, Quiet);
    UpdateThenRemove(s.records, pid, Unlocked(if Guard(r0, m) then Applied(r0, m) else r0));
  }


  lemma RemoveTwice<K, V>(m: map<K, V>, k: K)
    ensures (m - {k}) - {k} == m - {k}
  {
  }

  lemma RacedBody(s: Store, pid: ProductId, token: Token, timeout: nat, m: Mutation, other: Mutation)
    requires Guard(Initial(s, pid), m) && Guard(Initial(s, pid), other)
    ensures var l := Locked(s, pid, token, timeout);
            Body(l, pid, m, Quiet.(race := Some(other))) ==
              (Raised(ConcurrencyConflict), l.(records := s.records[pid := Applied(StampedStart(s, pid, token, timeout), other)]))
  {
    var stamped := StampedStart(s, pid, token, timeout);
    assert Guard(stamped, m) && Guard(stamped, other);
    UpdateTwice(s.records, pid, stamped, Applied(stamped, other));
  }

  lemma RacedExit(s: Store, pid: ProductId, token: Token, timeout: nat, other: Mutation)
    requires Guard(Initial(s, pid), other)
    requires Initial(s, pid).lockKey != Some(token)
    ensures var l := Locked(s, pid, token, timeout);
            var raced := Applied(StampedStart(s, pid, token, timeout), other);
            var exit := Exit(l.(records := s.records[pid := raced]), pid, token, PathOf(s, pid),
                             Raised(ConcurrencyConflict), Quiet.(race := Some(other)));
            exit.0 == Err(ConcurrencyConflict) &&
            (pid in s.records ==> exit.1.records == s.records[pid := Applied(s.records[pid], other)]) &&
            (pid !in s.records ==> exit.1.records == s.records - {pid})
  {
    var stamped := StampedStart(s, pid, token, timeout);
    assert Guard(stamped, other);
    var raced := Applied(stamped, other);
    if pid in s.records {
      var r0 := s.records[pid];
      assert RestoreLock(raced, r0) == Applied(r0, other);
      UpdateTwice(s.records, pid, raced, Applied(r0, other));
    } else {
      UpdateThenRemove(s.records, pid, raced);
    }
  }

  /** A write committed by another process between our read and our update makes
      the update miss: the operation reports a conflict, the other write stays,
      and the row gets back the lock fields it had (an existing record) or
      disappears again (a record this call created). */
  lemma RacingWriterCausesConflict(s: Store, pid: ProductId, token: Token, timeout: nat, m: Mutation, other: Mutation)
    requires !Live(s.cache, LockKeyFor(pid), s.now)
    requires pid in s.records || pid in s.products
    requires Guard(Initial(s, pid), m) && Guard(Initial(s, pid), other)
    requires Initial(s, pid).lockKey != Some(token)
    ensures var op := Operation(s, pid, token, timeout, m, Quiet.(race := Some(other)));
            op.0 == Err(ConcurrencyConflict) &&
            (pid in s.records ==> pid in op.1.records && op.1.records[pid] == Applied(s.records[pid], other)) &&
            (pid !in s.records ==> pid !in op.1.records) &&
            op.1.records - {pid} == s.records - {pid} &&
            op.1.cache == s.cache - {LockKeyFor(pid)}
  {
    var env := Quiet.(race := Some(other));
    AcquireUncontended(s, pid, token, timeout, env);
    RacedBody(s, pid, token, timeout, m, other);
    RacedExit(s, pid, token, timeout, other);
    KeyAlwaysReleased(s, pid, token, timeout, m, env);
    if pid in s.records {
      UpdateThenRemove(s.records, pid, Applied(s.records[pid], other));
    } else {
      RemoveTwice(s.records, pid);
    }
  }

  /** A database error raised by the body reaches the caller as a lock-acquisition
      error when the record existed, and as itself when the call created it. */
  lemma BodyDatabaseErrorConversion(s: Store, pid: ProductId, token: Token, timeout: nat, m: Mutation, message: string)
    requires !Live(s.cache, LockKeyFor(pid), s.now)
    requires pid in s.records || pid in s.products
    ensures var op := Operation(s, pid, token, timeout, m, Quiet.(bodyDbError := Some(message)));
            (pid in s.records ==> op.0 == Err(LockAcquisitionFailed)) &&
            (pid !in s.records ==> op.0 == Err(DatabaseFailure(message)) && pid !in op.1.records)
  {
  }

  /** `b` differs from `a` only in the record and the distributed key of `pid` and in
      the lock stamps of other records. */
  ghost predicate Confined(a: Store, b: Store, pid: ProductId)
  {
    b.products == a.products && b.now == a.now &&
    (forall p :: p != pid ==> (p in b.records <==> p in a.records)) &&
    (forall p :: p != pid && p in a.records && p in b.records ==> SameQuantities(b.records[p], a.records[p])) &&
    (forall k :: k != LockKeyFor(pid) ==> (k in b.cache <==> k in a.cache)) &&
    (forall k :: k != LockKeyFor(pid) && k in a.cache && k in b.cache ==> b.cache[k] == a.cache[k])
  }

  lemma ConfinedTransitive(a: Store, b: Store, c: Store, pid: ProductId)
    requires Confined(a, b, pid) && Confined(b, c, pid)
    ensures Confined(a, c, pid)
  {
  }

  lemma AcquireConfined(s: Store, pid: ProductId, token: Token, timeout: nat, env: Env)
    ensures Confined(s, Acquire(s, pid, token, timeout, env).1, pid)
  {
  }

  lemma BodyConfined(s: Store, pid: ProductId, m: Mutation, env: Env)
    ensures Confined(s, Body(s, pid, m, env).1, pid)
  {
  }

  lemma ExitConfined(s: Store, pid: ProductId, token: Token, path: RowPath, body: BodyOutcome, env: Env)
    ensures Confined(s, Exit(s, pid, token, path, body, env).1, pid)
  {
  }

  /** Whatever happens around it, an operation changes the quantities and version of
      no other product and no other key of the distributed store. */
  lemma {:induction false} OperationTouchesOnlyItsRecord(s: Store, pid: ProductId, token: Token, timeout: nat, m: Mutation, env: Env)
    ensures var op := Operation(s, pid, token, timeout, m, env);
            op.1.products == s.products && op.1.now == s.now &&
            (forall p :: p != pid ==> (p in op.1.records <==> p in s.records)) &&
            (forall p :: p != pid && p in s.records ==> SameQuantities(op.1.records[p], s.records[p])) &&
            (forall k :: k != LockKeyFor(pid) ==> (k in op.1.cache <==> k in s.cache)) &&
            (forall k :: k != LockKeyFor(pid) && k in s.cache ==> op.1.cache[k] == s.cache[k])
  {
    var acq := Acquire(s, pid, token, timeout, env);
    AcquireConfined(s, pid, token, timeout, env);
    if acq.0.Held? {
      var body := Body(acq.1, pid, m, env);
      BodyConfined(acq.1, pid, m, env);
      ExitConfined(body.1, pid, token, acq.0.path, body.0, env);
      ConfinedTransitive(s, acq.1, body.1, pid);
      ConfinedTransitive(s, body.1, Exit(body.1, pid, token, acq.0.path, body.0, env).1, pid);
    }
  }

  /** Records that exist only for existing products stay that way. */
  lemma {:induction false} OperationKeepsRecordsOfProducts(s: Store, pid: ProductId, token: Token, timeout: nat, m: Mutation, env: Env)
    requires s.records.Keys <= s.products
    ensures var op := Operation(s, pid, token, timeout, m, env);
            op.1.records.Keys <= op.1.products
  {
    var acq := Acquire(s, pid, token, timeout, env);
    assert acq.1.records.Keys <= acq.1.products by {
      assert Reap(s.records, s.now).Keys == s.records.Keys;
    }
    if acq.0.Held? {
      var body := Body(acq.1, pid, m, env);
      assert body.1.records.Keys <= body.1.products;
      var exit := Exit(body.1, pid, token, acq.0.path, body.0, env);
      assert exit.1.records.Keys <= exit.1.products;
    }
  }

  predicate AllConsistent(records: map<ProductId, InventoryRecord>)
  {
    forall p :: p in records ==> LockFieldsConsistent(records[p])
  }

  lemma AcquireKeepsConsistent(s: Store, pid: ProductId, token: Token, timeout: nat, env: Env)
    requires AllConsistent(s.records)
    ensures var acq := Acquire(s, pid, token, timeout, env);
            AllConsistent(acq.1.records) &&
            (acq.0.Held? && acq.0.path.Existing? ==> LockFieldsConsistent(acq.0.path.snapshot))
  {
    assert AllConsistent(Reap(s.records, s.now));
  }

  lemma BodyKeepsConsistent(s: Store, pid: ProductId, m: Mutation, env: Env)
    requires AllConsistent(s.records)
    ensures AllConsistent(Body(s, pid, m, env).1.records)
  {
  }

  lemma ExitKeepsConsistent(s: Store, pid: ProductId, token: Token, path: RowPath, body: BodyOutcome, env: Env)
    requires AllConsistent(s.records)
    requires path.Existing? ==> LockFieldsConsistent(path.snapshot)
    ensures AllConsistent(Exit(s, pid, token, path, body, env).1.records)
  {
    var rolled := if body.Raised? then Rollback(s, pid, path) else s;
    assert AllConsistent(rolled.records);
  }

  /** The three lock fields stay in agreement on every record. */
  lemma {:induction false} OperationKeepsLockFieldsConsistent(s: Store, pid: ProductId, token: Token, timeout: nat, m: Mutation, env: Env)
    requires AllConsistent(s.records)
    ensures AllConsistent(Operation(s, pid, token, timeout, m, env).1.records)
  {
    var acq := Acquire(s, pid, token, timeout, env);
    AcquireKeepsConsistent(s, pid, token, timeout, env);
    if acq.0.Held? {
      var body := Body(acq.1, pid, m, env);
      BodyKeepsConsistent(acq.1, pid, m, env);
      ExitKeepsConsistent(body.1, pid, token, acq.0.path, body.0, env);
    }
  }

  /** A reservation followed by a release of the same quantity, neither disturbed,
      restores both quantities and raises the version by two. */
  lemma ReserveThenReleaseRestores(s: Store, pid: ProductId, t1: Token, t2: Token, timeout: nat, q: nat)
    requires !Live(s.cache, LockKeyFor(pid), s.now)
    requires pid in s.records && s.records[pid].available >= q
    ensures var first := Operation(s, pid, t1, timeout, ReserveOp(q), Quiet);
            var second := Operation(first.1, pid, t2, timeout, ReleaseOp(q), Quiet);
            first.0 == Ok(true) && second.0 == Ok(true) &&
            second.1.records[pid].available == s.records[pid].available &&
            second.1.records[pid].reserved == s.records[pid].reserved &&
            second.1.records[pid].version == s.records[pid].version + 2
  {
    var first := Operation(s, pid, t1, timeout, ReserveOp(q), Quiet);
    QuietOperation(s, pid, t1, timeout, ReserveOp(q));
    assert !Live(first.1.cache, LockKeyFor(pid), first.1.now);
    QuietOperation(first.1, pid, t2, timeout, ReleaseOp(q));
  }

  // ---------------------------------------------------------------- the as-written error kinds

  /** What Python raises in place of an intended exception: the two domain
      exceptions whose constructors take two arguments are built with one, which
      raises a `TypeError` instead. */
  datatype PyException = Domain(kind: LockError) | TypeError(text: string)

  const NotFoundTypeErrorText: string := "EntityNotFoundException.__init__() missing 1 required positional argument: 'entity_id'"
  const ConflictTypeErrorText: string := "ConcurrencyException.__init__() missing 1 required positional argument: 'entity_id'"

  function RaisedAsWritten(e: LockError): PyException
  {
    match e
    case EntityNotFound => TypeError(NotFoundTypeErrorText)
    case ConcurrencyConflict => TypeError(ConflictTypeErrorText)
    case _ => Domain(e)
  }

  /** The batch entry as the source produces it: a `TypeError` falls through to the
      catch-all and reports its own text. */
  function BatchEntryAsWritten(pid: ProductId, res: Result<bool, LockError>): BatchResult
  {
    if res.Ok? then BatchEntry(pid, res)
    else
      match RaisedAsWritten(res.error)
      case Domain(e) => BatchEntry(pid, Err(e))
      case TypeError(text) => BatchResult(pid, false, text)
  }

  /** As written, a missing product and a conflict are reported with Python's
      `TypeError` text rather than their fixed messages. */
  lemma AsWrittenBatchLosesErrorKinds(pid: ProductId)
    ensures BatchEntryAsWritten(pid, Err(EntityNotFound)).message == NotFoundTypeErrorText != NotFoundText
    ensures BatchEntryAsWritten(pid, Err(ConcurrencyConflict)).message == ConflictTypeErrorText != ConflictText
    ensures BatchEntry(pid, Err(EntityNotFound)).message == NotFoundText
    ensures BatchEntry(pid, Err(ConcurrencyConflict)).message == ConflictText
  {
  }

  // ---------------------------------------------------------------- the service object

  class InventoryLockService {
    var records: map<ProductId, InventoryRecord>
    var products: set<ProductId>
    var cache: map<string, CacheEntry>
    var now: nat
    const lockTimeout: nat

    function State(): Store
      reads this
    {
      Store(records, products, cache, now)
    }

    /** Inventory records exist only for existing products. */
    ghost predicate Valid()
      reads this
    {
      records.Keys <= products
    }

    constructor (records: map<ProductId, InventoryRecord>, products: set<ProductId>, cache: map<string, CacheEntry>,
                 now: nat, lockTimeout: nat)
      requires records.Keys <= products
      ensures Valid() && State() == Store(records, products, cache, now) && this.lockTimeout == lockTimeout
    {
      this.records := records;
      this.products := products;
      this.cache := cache;
      this.now := now;
      this.lockTimeout := lockTimeout;
    }

    /** Time passes. */
    method AdvanceClock(dt: nat)
      modifies this
      ensures State() == old(State()).(now := old(now) + dt)
    {
      now := now + dt;
    }

    /** `set_nx(key, value, ttl)`: succeeds exactly when the key is not live. */
    method SetNx(key: string, value: Token, ttl: nat) returns (ok: bool)
      modifies this
      ensures ok <==> !Live(old(cache), key, now)
      ensures cache == if ok then old(cache)[key := CacheEntry(value, now + ttl)] else old(cache)
      ensures records == old(records) && products == old(products) && now == old(now)
    {
      ok := !Live(cache, key, now);
      if ok {
        cache := cache[key := CacheEntry(value, now + ttl)];
      }
    }

    /** `delete_if_equals(key, value)`. */
    method DeleteKeyIfEquals(key: string, value: Token)
      modifies this
      ensures State() == old(State()).(cache := DeleteIfEquals(old(cache), key, value))
    {
      if key in cache && cache[key].value == value {
        cache := cache - {key};
      }
    }

    /** `_clean_expired_locks`: a failing update is swallowed and changes nothing. */
    method CleanExpiredLocks(fails: bool)
      modifies this
      ensures State() == old(State()).(records := if fails then old(records) else Reap(old(records), now))
    {
      if !fails {
        records := Reap(records, now);
      }
    }

    /** `lock_inventory` up to its `yield`, or to the exception it raises instead. */
    method EnterLock(pid: ProductId, token: Token, env: Env) returns (entry: LockEntry)
      modifies this
      ensures (entry, State()) == Acquire(old(State()), pid, token, lockTimeout, env)
    {
      var key := LockKeyFor(pid);
      var ok := SetNx(key, token, lockTimeout);
      if !ok {
        CleanExpiredLocks(env.reaperFails);
        if env.holderLeft {
          KeyVanishes(key);
        }
        ok := SetNx(key, token, lockTimeout);
        if !ok {
          return Refused(LockAcquisitionFailed);
        }
      }
      if pid in records {
        if env.rowBusy {
          DeleteKeyIfEquals(key, token);
          return Refused(LockAcquisitionFailed);
        }
        var snapshot := records[pid];
        records := records[pid := Stamp(snapshot, token, now, lockTimeout)];
        return Held(Existing(snapshot));
      }
      if pid !in products {
        DeleteKeyIfEquals(key, token);
        return Refused(EntityNotFound);
      }
      records := records[pid := NewLockedRecord(token, now, lockTimeout)];
      entry := Held(Created);
    }

    /** The key's holder deletes it, or it expires. */
    method KeyVanishes(key: string)
      modifies this
      ensures State() == old(State()).(cache := old(cache) - {key})
    {
      cache := cache - {key};
    }

    /** Another process commits its own change to the record. */
    method RacingWrite(pid: ProductId, race: Option<Mutation>)
      modifies this
      ensures State() == old(State()).(records := if pid in old(records) then old(records)[pid := RaceApplied(old(records)[pid], race)] else old(records))
    {
      if pid in records {
        records := records[pid := RaceApplied(records[pid], race)];
      }
    }

    /** The version-checked `filter(...).update(...)`: one row when the record still has
        the version read and can afford the change, none otherwise. */
    method ConditionalUpdate(pid: ProductId, readVersion: nat, m: Mutation) returns (rows: nat)
      modifies this
      ensures var hit := pid in old(records) && old(records)[pid].version == readVersion && Guard(old(records)[pid], m);
              rows == (if hit then 1 else 0) &&
              State() == old(State()).(records := if hit then old(records)[pid := Applied(old(records)[pid], m)] else old(records))
    {
      if pid in records && records[pid].version == readVersion && Guard(records[pid], m) {
        records := records[pid := Applied(records[pid], m)];
        rows := 1;
      } else {
        rows := 0;
      }
    }

    /** The body run inside the lock by the three stock operations. */
    method StockBody(pid: ProductId, m: Mutation, env: Env) returns (outcome: BodyOutcome)
      modifies this
      ensures (outcome, State()) == Body(old(State()), pid, m, env)
    {
      if env.bodyDbError.Some? {
        return Raised(DatabaseFailure(env.bodyDbError.value));
      }
      if pid !in records {
        return Raised(EntityNotFound);
      }
      var inventory := records[pid];
      if !Guard(inventory, m) {
        return Returned(false);
      }
      RacingWrite(pid, env.race);
      var rows := ConditionalUpdate(pid, inventory.version, m);
      if rows == 0 {
        return Raised(ConcurrencyConflict);
      }
      outcome := Returned(true);
    }

    /** `lock_inventory` after its `yield`: commit or rollback, then the `finally` block. */
    method ExitLock(pid: ProductId, token: Token, path: RowPath, body: BodyOutcome, env: Env)
      returns (result: Result<bool, LockError>)
      modifies this
      ensures (result, State()) == Exit(old(State()), pid, token, path, body, env)
    {
      if body.Raised? {
        match path
        case Existing(snapshot) =>
          if pid in records {
            records := records[pid := RestoreLock(records[pid], snapshot)];
          }
        case Created =>
          records := records - {pid};
      }
      if !env.releaseFails && pid in records {
        records := records[pid := ClearIfOwned(records[pid], token)];
      }
      DeleteKeyIfEquals(LockKeyFor(pid), token);
      result := ExitOutcome(path, body);
    }

    /** One stock operation inside `lock_inventory`. */
    method LockedStockOperation(pid: ProductId, m: Mutation, token: Token, env: Env) returns (result: Result<bool, LockError>)
      requires Valid()
      modifies this
      ensures Valid()
      ensures (result, State()) == Operation(old(State()), pid, token, lockTimeout, m, env)
    {
      OperationKeepsRecordsOfProducts(State(), pid, token, lockTimeout, m, env);
      var entry := EnterLock(pid, token, env);
      if entry.Refused? {
        return Err(entry.error);
      }
      var outcome := StockBody(pid, m, env);
      result := ExitLock(pid, token, entry.path, outcome, env);
    }

    /** `reserve_stock(product_id, quantity)`. */
    method ReserveStock(pid: ProductId, q: nat, token: Token, env: Env) returns (result: Result<bool, LockError>)
      requires Valid()
      modifies this
      ensures Valid()
      ensures (result, State()) == Operation(old(State()), pid, token, lockTimeout, ReserveOp(q), env)
    {
      result := LockedStockOperation(pid, ReserveOp(q), token, env);
    }

    /** `release_stock(product_id, quantity)`. */
    method ReleaseStock(pid: ProductId, q: nat, token: Token, env: Env) returns (result: Result<bool, LockError>)
      requires Valid()
      modifies this
      ensures Valid()
      ensures (result, State()) == Operation(old(State()), pid, token, lockTimeout, ReleaseOp(q), env)
    {
      result := LockedStockOperation(pid, ReleaseOp(q), token, env);
    }

    /** `confirm_stock(product_id, quantity)`. */
    method ConfirmStock(pid: ProductId, q: nat, token: Token, env: Env) returns (result: Result<bool, LockError>)
      requires Valid()
      modifies this
      ensures Valid()
      ensures (result, State()) == Operation(old(State()), pid, token, lockTimeout, ConfirmOp(q), env)
    {
      result := LockedStockOperation(pid, ConfirmOp(q), token, env);
    }

    /** `batch_reserve_stock(items)`: one entry per item, in order, each reservation
        on the state the previous ones left. */
    method BatchReserveStock(items: seq<(ProductId, nat)>, tokens: seq<Token>, envs: seq<Env>)
      returns (results: seq<BatchResult>)
      requires Valid()
      requires |tokens| == |items| && |envs| == |items|
      modifies this
      ensures Valid()
      ensures (results, State()) == BatchSpec(old(State()), items, tokens, envs, lockTimeout)
    {
      results := [];
      var i := 0;
      assert items[..0] == [] && tokens[..0] == [] && envs[..0] == [];
      while i < |items|
        invariant 0 <= i <= |items|
        invariant Valid()
        invariant (results, State()) == BatchSpec(old(State()), items[..i], tokens[..i], envs[..i], lockTimeout)
      {
        BatchSpecStep(old(State()), items, tokens, envs, lockTimeout, i);
        var pid := items[i].0;
        var res := ReserveStock(pid, items[i].1, tokens[i], envs[i]);
        results := results + [BatchEntry(pid, res)];
        i := i + 1;
      }
      assert items[..|items|] == items && tokens[..|items|] == tokens && envs[..|items|] == envs;
    }
  }
}
