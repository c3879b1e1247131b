/**
 * `Product` (products/domain/entities.py): a product entity with a lifecycle
 * state machine (draft, active, inactive, deleted) and an optimistic-lock
 * version that every successful change raises by one. `datetime.now()` is
 * passed in as the logical time `now`.
 */
module ProductEntities {
  import opened Prelude
  import opened CoreValueObjects

  datatype ProductState = Draft | Active | Inactive | Deleted

  /** The string stored in `Product.state`. */
  function StateName(s: ProductState): (n: string)
    ensures n in {"draft", "active", "inactive", "deleted"}
  {
    match s
    case Draft => "draft"
    case Active => "active"
    case Inactive => "inactive"
    case Deleted => "deleted"
  }

  /** Distinct states are stored as distinct strings. */
  lemma StateNameInjective(a: ProductState, b: ProductState)
    ensures StateName(a) == StateName(b) <==> a == b
  {
  }

  /** `ProductStateException(current_state, target_state)`. */
  datatype StateError = StateError(current: ProductState, target: ProductState)

  /** The three state-changing calls. */
  datatype StateChange = Activate | Deactivate | Delete

  function TargetOf(c: StateChange): ProductState
  {
    match c
    case Activate => Active
    case Deactivate => Inactive
    case Delete => Deleted
  }

  /** The transition rule of `activate`, `deactivate` and `delete`. */
  function Transition(s: ProductState, c: StateChange): (r: Result<ProductState, StateError>)
    ensures r.Ok? ==> r.value == TargetOf(c)
    ensures r.Err? ==> r.error == StateError(s, TargetOf(c))
    ensures c == Activate ==> (r.Ok? <==> s != Deleted)
    ensures c == Deactivate ==> (r.Ok? <==> s == Active || s == Draft)
    ensures c == Delete ==> (r.Ok? <==> s != Deleted)
  {
    match c
    case Activate => if s == Deleted then Err(StateError(s, Active)) else Ok(Active)
    case Deactivate => if s != Active && s != Draft then Err(StateError(s, Inactive)) else Ok(Inactive)
    case Delete => if s == Deleted then Err(StateError(s, Deleted)) else Ok(Deleted)
  }

  /** The state after a series of calls, each refused call leaving the state as it was. */
  function Run(s: ProductState, cs: seq<StateChange>): ProductState
    decreases |cs|
  {
    if cs == [] then s
    else
      var r := Transition(s, cs[0]);
      Run(if r.Ok? then r.value else s, cs[1..])
  }

  /** The number of calls in a series that succeed: the version increase. */
  function Successes(s: ProductState, cs: seq<StateChange>): nat
    decreases |cs|
  {
    if cs == [] then 0
    else
      var r := Transition(s, cs[0]);
      (if r.Ok? then 1 else 0) + Successes(if r.Ok? then r.value else s, cs[1..])
  }

  /** Deleted is absorbing: no series of calls leaves it, and every call is refused. */
  lemma {:induction false} DeletedIsAbsorbing(cs: seq<StateChange>)
    ensures Run(Deleted, cs) == Deleted
    ensures Successes(Deleted, cs) == 0
  {
    if cs != [] {
      assert Transition(Deleted, cs[0]).Err?;
      DeletedIsAbsorbing(cs[1..]);
    }
  }

  /** Once deleted, a product stays deleted whatever comes after. */
  lemma {:induction false} DeletedStaysDeleted(s: ProductState, cs: seq<StateChange>, i: nat)
    requires i <= |cs|
    requires Run(s, cs[..i]) == Deleted
    ensures Run(s, cs) == Deleted
    decreases i
  {
    if i == 0 {
      assert cs[..0] == [];
      DeletedIsAbsorbing(cs);
    } else {
      var r := Transition(s, cs[0]);
      var next := if r.Ok? then r.value else s;
      assert cs[..i][1..] == cs[1..][..i - 1];
      DeletedStaysDeleted(next, cs[1..], i - 1);
    }
  }

  class Product {
    const id: string
    var name: string
    var description: string
    var price: Money
    var keywords: string
    var categoryId: Option<string>
    var state: ProductState
    var createdAt: nat
    var updatedAt: nat
    var version: int

    /** `Product(...)`: a missing price is zero in the default currency; a new product
        is a draft at version 0. */
    constructor (id: Option<string>, freshId: string, name: string, description: string,
                 price: Option<Money>, keywords: string, categoryId: Option<string>, now: nat)
      ensures this.id == (if id.Some? then id.value else freshId)
      ensures this.name == name && this.description == description && this.keywords == keywords
      ensures this.price == (if price.Some? then price.value else MoneyOf(0.0))
      ensures this.categoryId == categoryId
      ensures state == Draft && version == 0
      ensures createdAt == now && updatedAt == now
    {
      this.id := if id.Some? then id.value else freshId;
      this.name := name;
      this.description := description;
      this.price := if price.Some? then price.value else MoneyOf(0.0);
      this.keywords := keywords;
      this.categoryId := categoryId;
      state := Draft;
      createdAt := now;
      updatedAt := now;
      version := 0;
    }

    /** Nothing but the state, the update time and the version differ from `old`. */
    twostate predicate InfoUnchanged()
      reads this
    {
      name == old(name) && description == old(description) && price == old(price) &&
      keywords == old(keywords) && categoryId == old(categoryId) && createdAt == old(createdAt)
    }

    /** One state-changing call: on success the target state, a new update time and
        version + 1; on refusal the error and nothing changed. */
    method ChangeState(c: StateChange, now: nat) returns (err: Option<StateError>)
      modifies this
      ensures InfoUnchanged()
      ensures Transition(old(state), c).Ok? ==>
                err == None && state == TargetOf(c) && version == old(version) + 1 && updatedAt == now
      ensures Transition(old(state), c).Err? ==>
                err == Some(StateError(old(state), TargetOf(c))) &&
                state == old(state) && version == old(version) && updatedAt == old(updatedAt)
    {
      var r := Transition(state, c);
      if r.Err? {
        return Some(r.error);
      }
      state := r.value;
      updatedAt := now;
      IncrementVersion();
      err := None;
    }

    /** `activate`: refused only from Deleted. */
    method ActivateProduct(now: nat) returns (err: Option<StateError>)
      modifies this
      ensures InfoUnchanged()
      ensures old(state) != Deleted ==> err == None && state == Active && version == old(version) + 1 && updatedAt == now
      ensures old(state) == Deleted ==> err == Some(StateError(Deleted, Active)) && state == Deleted &&
                                        version == old(version) && updatedAt == old(updatedAt)
    {
      err := ChangeState(Activate, now);
    }

    /** `deactivate`: allowed only from Active or Draft. */
    method DeactivateProduct(now: nat) returns (err: Option<StateError>)
      modifies this
      ensures InfoUnchanged()
      ensures old(state) in {Active, Draft} ==>
                err == None && state == Inactive && version == old(version) + 1 && updatedAt == now
      ensures old(state) in {Inactive, Deleted} ==>
                err == Some(StateError(old(state), Inactive)) && state == old(state) &&
                version == old(version) && updatedAt == old(updatedAt)
    {
      err := ChangeState(Deactivate, now);
    }

    /** `delete`: refused only from Deleted. */
    method DeleteProduct(now: nat) returns (err: Option<StateError>)
      modifies this
      ensures InfoUnchanged()
      ensures old(state) != Deleted ==> err == None && state == Deleted && version == old(version) + 1 && updatedAt == now
      ensures old(state) == Deleted ==> err == Some(StateError(Deleted, Deleted)) && state == Deleted &&
                                        version == old(version) && updatedAt == old(updatedAt)
    {
      err := ChangeState(Delete, now);
    }

    /** `update_price`. */
    method UpdatePrice(newPrice: Money, now: nat)
      modifies this
      ensures price == newPrice && updatedAt == now && version == old(version) + 1
      ensures name == old(name) && description == old(description) && keywords == old(keywords)
      ensures categoryId == old(categoryId) && state == old(state) && createdAt == old(createdAt)
    {
      price := newPrice;
      updatedAt := now;
      IncrementVersion();
    }

    /** `update_basic_info`: only the fields passed as non-None change, but the
        version is raised even when none is passed. */
    method UpdateBasicInfo(name: Option<string>, description: Option<string>, keywords: Option<string>,
                           categoryId: Option<string>, now: nat)
      modifies this
      ensures this.name == (if name.Some? then name.value else old(this.name))
      ensures this.description == (if description.Some? then description.value else old(this.description))
      ensures this.keywords == (if keywords.Some? then keywords.value else old(this.keywords))
      ensures this.categoryId == (if categoryId.Some? then categoryId else old(this.categoryId))
      ensures price == old(price) && state == old(state) && createdAt == old(createdAt)
      ensures updatedAt == now && version == old(version) + 1
    {
      if name.Some? {
        this.name := name.value;
      }
      if description.Some? {
        this.description := description.value;
      }
      if keywords.Some? {
        this.keywords := keywords.value;
      }
      if categoryId.Some? {
        this.categoryId := categoryId;
      }
      updatedAt := now;
      IncrementVersion();
    }

    /** `is_available`. */
    predicate IsAvailable()
      reads this
    {
      state == Active
    }

    /** `increment_version`. */
    method IncrementVersion()
      modifies this
      ensures version == old(version) + 1
      ensures name == old(name) && description == old(description) && price == old(price)
      ensures keywords == old(keywords) && categoryId == old(categoryId)
      ensures state == old(state) && createdAt == old(createdAt) && updatedAt == old(updatedAt)
    {
      version := version + 1;
    }
  }

  /** Running a series of calls on a product object moves it along `Run` and raises
      its version by `Successes`. */
  method RunCalls(p: Product, cs: seq<StateChange>, now: nat)
    modifies p
    ensures p.state == Run(old(p.state), cs)
    ensures p.version == old(p.version) + Successes(old(p.state), cs)
  {
    var i := 0;
    while i < |cs|
      invariant 0 <= i <= |cs|
      invariant Run(p.state, cs[i..]) == Run(old(p.state), cs)
      invariant p.version + Successes(p.state, cs[i..]) == old(p.version) + Successes(old(p.state), cs)
    {
      assert cs[i..][1..] == cs[i + 1..];
      var _ := p.ChangeState(cs[i], now);
      i := i + 1;
    }
  }
}
