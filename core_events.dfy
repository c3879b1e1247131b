/**
 * `DomainEvents` (core/domain/events.py): the registry of event handlers, a
 * dictionary from event type to the list of handlers registered for it. The
 * source keeps it in a class attribute; here it is one registry object.
 * Handlers are opaque values: `publish` returns the handlers it would call, in
 * the order it calls them, instead of running their bodies.
 */
module CoreEvents {
  import opened Prelude

  datatype UnregisterError = HandlerNotRegistered

  /** The position of the first occurrence of `h`. */
  function FirstIndex<H(==)>(s: seq<H>, h: H): (i: nat)
    requires h in s
    ensures i < |s| && s[i] == h && h !in s[..i]
  {
    if s[0] == h then 0
    else
      var j := FirstIndex(s[1..], h);
      assert s[..j + 1] == [s[0]] + s[1..][..j];
      j + 1
  }

  /** `list.remove(h)`: drops the first occurrence of `h` and keeps the rest in order. */
  function RemoveFirst<H(==)>(s: seq<H>, h: H): (r: seq<H>)
    requires h in s
    ensures |r| == |s| - 1
    ensures multiset(r) == multiset(s) - multiset{h}
    ensures exists i :: 0 <= i < |s| && s[i] == h && h !in s[..i] && r == s[..i] + s[i + 1..]
  {
    var i := FirstIndex(s, h);
    assert s == s[..i] + [s[i]] + s[i + 1..];
    s[..i] + s[i + 1..]
  }

  class DomainEvents<T(==), H(==)> {
    var handlers: map<T, seq<H>>

    /** No event type is kept with an empty handler list. */
    ghost predicate Valid()
      reads this
    {
      forall t :: t in handlers ==> handlers[t] != []
    }

    constructor ()
      ensures Valid() && handlers == map[]
    {
      handlers := map[];
    }

    /** `register`: appends, creating the list when the type is new; duplicates are kept. */
    method Register(t: T, h: H)
      requires Valid()
      modifies this
      ensures Valid()
      ensures t in handlers
      ensures handlers == old(handlers)[t := (if t in old(handlers) then old(handlers)[t] else []) + [h]]
    {
      var current := if t in handlers then handlers[t] else [];
      handlers := handlers[t := current + [h]];
    }

    /** `unregister`: removes one occurrence and drops the type once its list is empty;
        an unknown type is ignored; a handler missing from a known type's list raises. */
    method Unregister(t: T, h: H) returns (r: Option<UnregisterError>)
      requires Valid()
      modifies this
      ensures Valid()
      ensures t !in old(handlers) ==> r == None && handlers == old(handlers)
      ensures t in old(handlers) && h !in old(handlers)[t] ==> r == Some(HandlerNotRegistered) && handlers == old(handlers)
      ensures t in old(handlers) && h in old(handlers)[t] ==>
                r == None &&
                var rest := RemoveFirst(old(handlers)[t], h);
                handlers == if rest == [] then old(handlers) - {t} else old(handlers)[t := rest]
    {
      if t in handlers {
        if h !in handlers[t] {
          return Some(HandlerNotRegistered);
        }
        var rest := RemoveFirst(handlers[t], h);
        if rest == [] {
          handlers := handlers - {t};
        } else {
          handlers := handlers[t := rest];
        }
      }
      r := None;
    }

    /** `publish`: calls the handlers registered for the event's exact type, in
        registration order; returns that call sequence. */
    method Publish(eventType: T) returns (called: seq<H>)
      ensures eventType !in handlers ==> called == []
      ensures eventType in handlers ==> called == handlers[eventType]
    {
      called := [];
      if eventType in handlers {
        var list := handlers[eventType];
        var i := 0;
        while i < |list|
          invariant 0 <= i <= |list|
          invariant called == list[..i]
        {
          called := called + [list[i]];
          i := i + 1;
        }
        assert list[..|list|] == list;
      }
    }

    /** `clear_handlers`. */
    method ClearHandlers()
      modifies this
      ensures Valid() && handlers == map[]
    {
      handlers := map[];
    }
  }

  /** Removing a handler just appended, and present nowhere before, gives back the
      list as it was. */
  lemma RemoveAppended<H>(before: seq<H>, h: H)
    requires h !in before
    ensures RemoveFirst(before + [h], h) == before
  {
    var list := before + [h];
    var i := FirstIndex(list, h);
    assert i == |before| by {
      if i < |before| {
        assert false;
      }
    }
    assert list[..i] == before && list[i + 1..] == [];
  }

  /** Registering then unregistering the same handler restores the registry. */
  lemma RegisterThenUnregisterRestores<T, H>(handlers: map<T, seq<H>>, t: T, h: H)
    requires forall u :: u in handlers ==> handlers[u] != []
    requires t in handlers ==> h !in handlers[t]
    ensures var after := handlers[t := (if t in handlers then handlers[t] else []) + [h]];
            var rest := RemoveFirst(after[t], h);
            (if rest == [] then after - {t} else after[t := rest]) == handlers
  {
    var before := if t in handlers then handlers[t] else [];
    RemoveAppended(before, h);
    if t in handlers {
      PutBack(handlers, t, before + [h]);
    } else {
      AddThenDrop(handlers, t, before + [h]);
    }
  }

  lemma PutBack<K, V>(m: map<K, V>, k: K, v: V)
    requires k in m
    ensures m[k := v][k := m[k]] == m
  {
  }

  lemma AddThenDrop<K, V>(m: map<K, V>, k: K, v: V)
    requires k !in m
    ensures m[k := v] - {k} == m
  {
  }
}
