/** The per-hart time event queue of kern/traps/timer.c: a list kept in order of due time. */
module TimerQueue {

  type Pid = nat
  type CtxId = nat

  /** The object a process can block on decides which timeout event it owns. */
  datatype Kind = BufferKind | BoardKind | PortKind

  datatype What =
    | PartitionActivate
    | SuspendTimeout(proc: Pid)
    | DelayedStart(proc: Pid)
    | TimedWaitTimeout(proc: Pid)
    | BlockTimeout(kind: Kind, ctx: CtxId)

  datatype Event = Event(id: nat, time: int, what: What)

  function Ids(q: seq<Event>): set<nat> {
    if q == [] then {} else {q[0].id} + Ids(q[1..])
  }

  /** In order of due time, with pairwise distinct identities below the next free one. */
  ghost predicate QueueOk(q: seq<Event>, next: nat) {
    q == [] ||
    (&& q[0].id < next && q[0].id !in Ids(q[1..])
     && (q[1..] != [] ==> q[0].time <= q[1].time)
     && QueueOk(q[1..], next))
  }

  /** The insertion of time_event_alloc: before the first strictly later entry. */
  function Insert(q: seq<Event>, e: Event): seq<Event> {
    if q == [] || q[0].time > e.time then [e] + q else [q[0]] + Insert(q[1..], e)
  }

  /** The unlinking of time_event_free: the entry with the given identity, if it is queued. */
  function Remove(q: seq<Event>, id: nat): seq<Event> {
    if q == [] then [] else if q[0].id == id then q[1..] else [q[0]] + Remove(q[1..], id)
  }

  /** The events an interrupt at t consumes. */
  function Due(q: seq<Event>, t: int): seq<Event> {
    if q == [] || q[0].time > t then [] else [q[0]] + Due(q[1..], t)
  }

  // ----- what the queue shape means, entry by entry -----

  lemma {:induction false} IdsOf(q: seq<Event>, x: Event)
    requires x in q
    ensures x.id in Ids(q)
  {
    assert q == [q[0]] + q[1..];
    if x != q[0] {
      IdsOf(q[1..], x);
    }
  }

  lemma {:induction false} SortedAt(q: seq<Event>, next: nat, i: nat, j: nat)
    requires QueueOk(q, next) && i < j < |q|
    ensures q[i].time <= q[j].time && q[i].id != q[j].id && q[j].id < next
  {
    if i > 0 {
      SortedAt(q[1..], next, i - 1, j - 1);
    } else {
      if j > 1 { SortedAt(q[1..], next, 0, j - 1); }
      IdsOf(q[1..], q[j]);
    }
  }

  /** The queue is sorted by due time and no identity occurs twice. */
  lemma QueueSorted(q: seq<Event>, next: nat)
    requires QueueOk(q, next)
    ensures forall i, j :: 0 <= i < j < |q| ==> q[i].time <= q[j].time && q[i].id != q[j].id
    ensures forall x :: x in q ==> x.id < next
  {
    forall i, j | 0 <= i < j < |q| ensures q[i].time <= q[j].time && q[i].id != q[j].id {
      SortedAt(q, next, i, j);
    }
    forall x | x in q ensures x.id < next {
      BelowNext(q, next, x);
    }
  }

  lemma {:induction false} BelowNext(q: seq<Event>, next: nat, x: Event)
    requires QueueOk(q, next) && x in q
    ensures x.id < next
  {
    assert q == [q[0]] + q[1..];
    if x != q[0] {
      BelowNext(q[1..], next, x);
    }
  }

  lemma SameId(q: seq<Event>, next: nat, e: Event, f: Event)
    requires QueueOk(q, next) && e in q && f in q && e.id == f.id
    ensures e == f
  {
    QueueSorted(q, next);
  }

  // ----- insertion -----

  lemma {:induction false} InsertMembers(q: seq<Event>, e: Event)
    ensures forall x :: x in Insert(q, e) <==> x in q || x == e
    ensures Ids(Insert(q, e)) == Ids(q) + {e.id}
  {
    if q != [] {
      assert q == [q[0]] + q[1..];
      if q[0].time <= e.time {
        InsertMembers(q[1..], e);
        assert Insert(q, e)[1..] == Insert(q[1..], e);
      } else {
        assert Insert(q, e)[1..] == q;
      }
    }
  }

  lemma {:induction false} IdsBelow(q: seq<Event>, next: nat)
    requires QueueOk(q, next)
    ensures forall i :: i in Ids(q) ==> i < next
    ensures QueueOk(q, next + 1)
  {
    if q != [] {
      IdsBelow(q[1..], next);
    }
  }

  /** Insertion under a fresh identity keeps the queue well-formed. */
  lemma {:induction false} InsertOk(q: seq<Event>, next: nat, e: Event)
    requires QueueOk(q, next) && e.id == next
    ensures QueueOk(Insert(q, e), next + 1)
  {
    IdsBelow(q, next);
    if q != [] && q[0].time <= e.time {
      InsertOk(q[1..], next, e);
      InsertMembers(q[1..], e);
      assert Insert(q, e)[1..] == Insert(q[1..], e);
    } else {
      assert Insert(q, e)[1..] == q;
    }
  }

  /** Where insertion puts the new entry. */
  function Slot(q: seq<Event>, time: int): (k: nat)
    ensures k <= |q|
    ensures forall j :: 0 <= j < k ==> q[j].time <= time
    ensures k < |q| ==> q[k].time > time
  {
    if q == [] || q[0].time > time then 0 else 1 + Slot(q[1..], time)
  }

  /** Insertion is stable: the new entry stands behind all entries due no later, and before all others. */
  lemma {:induction false} InsertIsStable(q: seq<Event>, e: Event)
    ensures var k := Slot(q, e.time); Insert(q, e) == q[..k] + [e] + q[k..]
  {
    if q != [] && q[0].time <= e.time {
      InsertIsStable(q[1..], e);
      var k := Slot(q[1..], e.time);
      assert q[..k + 1] == [q[0]] + q[1..][..k];
      assert q[k + 1..] == q[1..][k..];
    }
  }

  // ----- removal -----

  lemma {:induction false} RemoveMembers(q: seq<Event>, next: nat, id: nat)
    requires QueueOk(q, next)
    ensures forall x :: x in Remove(q, id) <==> x in q && x.id != id
    ensures Ids(Remove(q, id)) <= Ids(q)
    ensures |Remove(q, id)| <= |q|
  {
    if q != [] {
      assert q == [q[0]] + q[1..];
      if q[0].id != id {
        RemoveMembers(q[1..], next, id);
        assert Remove(q, id)[1..] == Remove(q[1..], id);
      } else {
        forall x | x in q[1..] ensures x.id != id { IdsOf(q[1..], x); }
      }
    }
  }

  lemma {:induction false} RemoveOk(q: seq<Event>, next: nat, id: nat)
    requires QueueOk(q, next)
    ensures QueueOk(Remove(q, id), next)
    ensures q != [] && Remove(q, id) != [] ==> q[0].time <= Remove(q, id)[0].time
  {
    if q != [] && q[0].id != id {
      RemoveOk(q[1..], next, id);
      RemoveMembers(q[1..], next, id);
      assert Remove(q, id)[1..] == Remove(q[1..], id);
    }
  }

  class Queue {
    var entries: seq<Event>

    constructor (entries: seq<Event>)
      ensures this.entries == entries
    {
      this.entries := entries;
    }

    /** The insertion loop of time_event_alloc. */
    method Enqueue(e: Event)
      modifies this
      ensures entries == Insert(old(entries), e)
    {
      var k := 0;
      while k < |entries| && entries[k].time <= e.time
        invariant 0 <= k <= |entries|
        invariant Slot(entries, e.time) == k + Slot(entries[k..], e.time)
      {
        assert entries[k..][1..] == entries[k + 1..];
        k := k + 1;
      }
      InsertIsStable(entries, e);
      entries := entries[..k] + [e] + entries[k..];
    }

    /** The unlinking loop of time_event_free. */
    method Unlink(id: nat)
      modifies this
      ensures entries == Remove(old(entries), id)
    {
      var k := 0;
      while k < |entries|
        invariant 0 <= k <= |entries|
        invariant entries == old(entries)
        invariant Remove(entries, id) == entries[..k] + Remove(entries[k..], id)
      {
        assert entries[k..][1..] == entries[k + 1..];
        if entries[k].id == id {
          entries := entries[..k] + entries[k + 1..];
          return;
        }
        k := k + 1;
      }
    }
  }
}
