/**
 * `Entity` (core/domain/base.py): a domain object whose identity is its id.
 * Equality and hashing look at the id only; the other attributes, here the
 * type parameter `F`, never take part.
 */
module CoreBase {
  import opened Prelude

  type EntityId = string

  datatype Entity<F> = Entity(id: EntityId, fields: F)

  /** What `Entity.__eq__` may be handed: an entity (of any subclass) or any other object. */
  datatype Other<F> = AnEntity(e: Entity<F>) | NotAnEntity

  /** `Entity(id)`: a supplied id is kept; only a missing one is replaced by the fresh id. */
  function NewEntity<F>(id: Option<EntityId>, freshId: EntityId, fields: F): (e: Entity<F>)
    ensures id.Some? ==> e.id == id.value
    ensures id.None? ==> e.id == freshId
    ensures e.fields == fields
  {
    Entity(if id.Some? then id.value else freshId, fields)
  }

  /** `Entity.__eq__`. */
  function Equals<F>(self: Entity<F>, other: Other<F>): (r: bool)
    ensures r ==> other.AnEntity? && other.e.id == self.id
    ensures other == AnEntity(self) ==> r
  {
    other.AnEntity? && self.id == other.e.id
  }

  /** `Entity.__hash__`, for a given hash function on ids (Python's `hash`). */
  function Hash<F>(self: Entity<F>, hashId: EntityId -> int): int
  {
    hashId(self.id)
  }

  /** Equality is decided by the ids alone, whatever the other fields hold. */
  lemma EqualsIffSameId<F>(a: Entity<F>, b: Entity<F>)
    ensures Equals(a, AnEntity(b)) <==> a.id == b.id
    ensures Equals(a, AnEntity(b)) <==> Equals(a.(fields := b.fields), AnEntity(b))
  {
  }

  /** An entity never equals an object that is not an entity. */
  lemma NeverEqualsNonEntity<F>(a: Entity<F>)
    ensures !Equals(a, NotAnEntity)
  {
  }

  /** Entity equality is an equivalence relation. */
  lemma EqualsIsEquivalence<F>(a: Entity<F>, b: Entity<F>, c: Entity<F>)
    ensures Equals(a, AnEntity(a))
    ensures Equals(a, AnEntity(b)) ==> Equals(b, AnEntity(a))
    ensures Equals(a, AnEntity(b)) && Equals(b, AnEntity(c)) ==> Equals(a, AnEntity(c))
  {
  }

  /** Equal entities hash alike, since the hash is taken from the id. */
  lemma EqualEntitiesHashAlike<F>(a: Entity<F>, b: Entity<F>, hashId: EntityId -> int)
    requires Equals(a, AnEntity(b))
    ensures Hash(a, hashId) == Hash(b, hashId)
  {
  }
}
