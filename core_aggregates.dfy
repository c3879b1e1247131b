/**
 * `AggregateRoot` (core/domain/aggregates.py): an entity with an optimistic-lock
 * version counter and a queue of domain events waiting to be published.
 * Subclasses in the source inherit it; in this model an aggregate holds one.
 */
module CoreAggregates {

  class AggregateRoot<E> {
    const id: string
    var version: int
    var events: seq<E>

    constructor (id: string)
      ensures this.id == id && version == 0 && events == []
    {
      this.id := id;
      version := 0;
      events := [];
    }

    /** `increment_version`: exactly one more. */
    method IncrementVersion()
      modifies this
      ensures version == old(version) + 1 && events == old(events)
    {
      version := version + 1;
    }

    /** `add_domain_event`: appended last, earlier events kept in order. */
    method AddDomainEvent(e: E)
      modifies this
      ensures events == old(events) + [e] && version == old(version)
    {
      events := events + [e];
    }

    /** `clear_domain_events`: hands back the pending events in order and empties the queue. */
    method ClearDomainEvents() returns (pending: seq<E>)
      modifies this
      ensures pending == old(events) && events == [] && version == old(version)
    {
      pending := events;
      events := [];
    }

    /** `check_invariants`: the base class imposes no rule. */
    function CheckInvariants(): (ok: bool)
      ensures ok
    {
      true
    }
  }

  /** Clearing twice: the second call finds nothing pending. */
  method ClearTwice<E>(root: AggregateRoot<E>) returns (first: seq<E>, second: seq<E>)
    modifies root
    ensures first == old(root.events) && second == [] && root.events == []
  {
    first := root.ClearDomainEvents();
    second := root.ClearDomainEvents();
  }
}
