/** The event bus: waiters for the end of a transaction (src/events/in-memory.event-bus.ts). */
module EventBus {
  import opened Records
  import opened Cache
  import PoolProtocol

  datatype EventRecord = EventRecord(key: Key, orderingKey: Option<OrderingKey>, event: Event)

  datatype Settlement = Waiting | Resolved(rec: EventRecord) | Rejected(rec: EventRecord) | TimedOut

  /** A promise handed to a caller. Only a waiter that still waits may be settled. */
  class Waiter {
    const key: Key
    var state: Settlement

    constructor (key: Key)
      ensures this.key == key && state == Waiting
    {
      this.key, state := key, Waiting;
    }

    method Settle(s: Settlement)
      requires state.Waiting? && !s.Waiting?
      modifies this
      ensures state == s
    {
      state := s;
    }
  }

  ghost predicate Distinct<T>(s: seq<T>) {
    forall i, j | 0 <= i < j < |s| :: s[i] != s[j]
  }

  function RemoveAt<T>(s: seq<T>, i: nat): seq<T>
    requires i < |s|
  {
    s[..i] + s[i + 1..]
  }

  lemma RemovesOne<T>(s: seq<T>, i: nat)
    requires i < |s| && Distinct(s)
    ensures Distinct(RemoveAt(s, i)) && forall x :: x in RemoveAt(s, i) <==> x in s && x != s[i]
  {
    var left := RemoveAt(s, i);
    forall j | 0 <= j < |left| ensures left[j] == s[if j < i then j else j + 1] {
    }
    forall x | x in s && x != s[i] ensures x in left {
      var j :| 0 <= j < |s| && s[j] == x;
      assert left[if j < i then j else j - 1] == x;
    }
  }

  /** How an event settles the waiters of its key. */
  function SettlementOf(rec: EventRecord): Settlement
    requires IsEnd(rec.event)
  {
    if rec.event.EvConfirmed? then Resolved(rec) else Rejected(rec)
  }

  class InMemoryEventBus {
    const cache: InMemoryCache
    var waiters: map<Key, seq<Waiter>>
    /** Every waiter ever handed out. */
    ghost var issued: set<Waiter>

    ghost predicate Valid()
      reads this, issued
    {
      && (forall k | k in waiters :: waiters[k] != [] && Distinct(waiters[k]))
      && (forall k, i | k in waiters && 0 <= i < |waiters[k]| :: waiters[k][i] in issued && waiters[k][i].key == k)
      && (forall w | w in issued :: w.state.Waiting? <==> w.key in waiters && w in waiters[w.key])
    }

    constructor (cache: InMemoryCache)
      ensures Valid() && issued == {} && waiters == map[] && this.cache == cache
    {
      this.cache, waiters, issued := cache, map[], {};
    }

    /** A new promise; it hears of future events only. */
    method WaitForConfirmation(key: Key) returns (waiter: Waiter)
      requires Valid()
      modifies this
      ensures Valid() && fresh(waiter) && waiter.key == key && waiter.state.Waiting?
      ensures issued == old(issued) + {waiter}
      ensures forall k | k != key :: (k in waiters <==> k in old(waiters)) && (k in waiters ==> waiters[k] == old(waiters)[k])
      ensures key in waiters && waiters[key] == (if key in old(waiters) then old(waiters)[key] else []) + [waiter]
    {
      waiter := new Waiter(key);
      if key in waiters {
        waiters := waiters[key := waiters[key] + [waiter]];
      } else {
        waiters := waiters[key := [waiter]];
      }
      issued := issued + {waiter};
    }

    /** The callback of a waiter's timer. A waiter that was settled meanwhile is left alone. */
    method OnTimeout(waiter: Waiter)
      requires Valid() && waiter in issued
      modifies this`waiters, waiter
      ensures Valid()
      ensures waiter.state == if old(waiter.state.Waiting?) then TimedOut else old(waiter.state)
    {
      if waiter.key !in waiters || waiter !in waiters[waiter.key] {
        return;
      }
      var list := waiters[waiter.key];
      var i: nat :| i < |list| && list[i] == waiter;
      RemovesOne(list, i);
      var left := RemoveAt(list, i);
      if left == [] {
        waiters := waiters - {waiter.key};
      } else {
        waiters := waiters[waiter.key := left];
      }
      waiter.Settle(TimedOut);
    }

    /** The sink of every event: a terminal one releases the sticky ref of its transaction and
        settles exactly the waiters of its key, which are resolved only by a confirmation. */
    method Handle(rec: EventRecord)
      requires Valid()
      modifies this`waiters, issued, cache`ordering
      ensures Valid()
      ensures !IsEnd(rec.event) ==> waiters == old(waiters) && cache.ordering == old(cache.ordering)
      ensures !IsEnd(rec.event) ==> forall w | w in issued :: w.state == old(w.state)
      ensures IsEnd(rec.event) ==> waiters == old(waiters) - {rec.key}
      ensures IsEnd(rec.event) ==> cache.ordering == PoolProtocol.ReleaseSome(old(cache.ordering), rec.orderingKey)
      ensures IsEnd(rec.event) ==> forall w | w in issued ::
                w.state == if w.key == rec.key && old(w.state.Waiting?) then SettlementOf(rec) else old(w.state)
    {
      if !IsEnd(rec.event) {
        return;
      }
      if rec.orderingKey.Some? {
        cache.ReleaseOrdering(rec.orderingKey.value);
      }
      if rec.key !in waiters {
        return;
      }
      var list := waiters[rec.key];
      waiters := waiters - {rec.key};
      for i := 0 to |list|
        invariant forall j | 0 <= j < i :: list[j].state == SettlementOf(rec)
        invariant forall j | i <= j < |list| :: list[j].state.Waiting?
        invariant forall w | w in issued && w !in list :: w.state == old(w.state)
        modifies list
      {
        list[i].Settle(SettlementOf(rec));
      }
    }
  }
}
