/** What every step of the kernel keeps: wait lists, waiting reasons, timers and timer contexts agree. */
module KernelInv {
  import opened Common
  import opened TimerQueue
  import opened Election
  import opened KernelSpec

  predicate OnList(q: Proc) {
    q.state == Waiting && (q.reason.Blocked? || q.reason.BlockedTimed?)
  }

  /** The receive loop of a queuing port, which sets its timer afresh in each round. */
  predicate SetsAfresh(k: Kernel, x: Xfer) {
    x.obj in k.objs && k.objs[x.obj].KindOf() == PortKind && x.op.Recv?
  }

  /** A continuation inside a blocking loop names a live object and, for a bounded wait, its own context; its timer
      is set to the deadline fixed on entry, but for the receive loop of a queuing port. */
  predicate PcOk(k: Kernel, p: Pid, pc: Pc) {
    pc.Retry? ==>
      && pc.x.obj in k.objs && Suits(k.objs[pc.x.obj], pc.x.op)
      && (pc.x.timeout != INFINITE <==> pc.ctx.Some?) && (pc.inner == pc.outer || SetsAfresh(k, pc.x))
      && (pc.ctx.Some? ==> pc.ctx.value in k.ctxs && k.ctxs[pc.ctx.value] == Ctx(p, pc.x.obj))
  }

  ghost predicate HasEvent(k: Kernel, id: nat, p: Pid) {
    exists e :: e in k.queue && e.id == id && Target(k, e.what) == Some(p)
  }

  /** A process owns a timer exactly when its waiting reason carries a timeout; the timer is queued and points
      back; and it is on the wait list its continuation names exactly when it is blocked. */
  ghost predicate ProcOk(k: Kernel, p: Pid)
    requires p in k.procs
  {
    var q := k.procs[p];
    && (q.timer.Some? <==> q.state == Waiting && Timed(q))
    && (q.timer.Some? ==> HasEvent(k, q.timer.value, p))
    && PcOk(k, p, q.pc)
    && (OnList(q) ==>
          && q.pc.Retry? && k.objs[q.pc.x.obj].KindOf() == q.reason.kind && p in k.objs[q.pc.x.obj].waiting
          && (q.reason.BlockedTimed? <==> q.pc.ctx.Some?))
  }

  /** The process waits for the event's reason, and will compare the clock with the event's time. */
  predicate Matches(w: What, time: int, q: Proc) {
    match w
    case PartitionActivate => true
    case SuspendTimeout(_) => q.reason == SuspendedTimed && q.pc == SuspendCheck(time)
    case DelayedStart(_) => q.reason == DelayedStarted
    case TimedWaitTimeout(_) => q.reason == TimedWait
    case BlockTimeout(kind, c) => q.reason == BlockedTimed(kind) && q.pc.Retry? && q.pc.ctx == Some(c) && q.pc.inner == time
  }

  /** A queued event belongs to a process that points at it; a blocking event's context is not yet freed. */
  predicate EventOk(k: Kernel, e: Event) {
    e.what != PartitionActivate ==>
      var t := Target(k, e.what);
      && t.Some? && t.value in k.procs
      && k.procs[t.value].timer == Some(e.id) && Matches(e.what, e.time, k.procs[t.value])
  }

  /** Every process on a wait list is blocked on that very object, and listed once. */
  ghost predicate ObjOk(k: Kernel, o: ObjId)
    requires o in k.objs
  {
    var b := k.objs[o];
    && Distinct(b.waiting)
    && (b.Ring? ==> b.kind != BoardKind && |b.msgs| <= b.cap && forall m :: m in b.msgs ==> 0 < |m| <= b.maxSize)
    && (forall p :: p in b.waiting ==>
          && p in k.procs && OnList(k.procs[p]) && k.procs[p].reason.kind == b.KindOf()
          && k.procs[p].pc.Retry? && k.procs[p].pc.x.obj == o)
  }

  ghost predicate Base(k: Kernel) {
    && k.cur in k.procs
    && QueueOk(k.queue, k.nextEvent)
    && (forall c :: c in k.ctxs ==> c < k.nextCtx && k.ctxs[c].proc in k.procs)
  }

  /** The invariant, with one process possibly in transit: off every list and without a timer. */
  ghost predicate InvBut(k: Kernel, x: Option<Pid>) {
    && Base(k)
    && (forall p :: p in k.procs && x != Some(p) ==> ProcOk(k, p))
    && (x.Some? ==> x.value in k.procs && k.procs[x.value].timer.None? && PcOk(k, x.value, k.procs[x.value].pc))
    && (forall e :: e in k.queue ==> EventOk(k, e) && (x.Some? ==> Target(k, e.what) != x))
    && (forall o :: o in k.objs ==> ObjOk(k, o) && (x.Some? ==> x.value !in k.objs[o].waiting))
  }

  ghost predicate Inv(k: Kernel) {
    InvBut(k, None)
  }

  // ----- taking a process out of the lists and the queue -----

  lemma Exempt(k: Kernel, p: Pid)
    requires Inv(k) && p in k.procs && k.procs[p].timer.None? && !OnList(k.procs[p])
    ensures InvBut(k, Some(p))
  {
    forall e | e in k.queue ensures Target(k, e.what) != Some(p) {
      assert EventOk(k, e);
    }
    forall o | o in k.objs ensures p !in k.objs[o].waiting {
      assert ObjOk(k, o);
    }
  }

  /** r is k with the timer of p gone from the process and from the queue. */
  ghost predicate Untimed(k: Kernel, r: Kernel, p: Pid) {
    && p in k.procs && Base(r)
    && r == k.(procs := r.procs, queue := r.queue)
    && r.procs == k.procs[p := k.procs[p].(timer := None)]
    && (forall x :: x in r.queue ==> EventOk(r, x) && Target(r, x.what) != Some(p))
    && (forall x :: x in k.queue && Target(k, x.what) != Some(p) ==> x in r.queue)
  }

  lemma FreeFrame(k: Kernel, p: Pid)
    requires p in k.procs
    ensures var r := EventFree(k, p);
            && r == k.(procs := r.procs, queue := r.queue)
            && r.procs == k.procs[p := k.procs[p].(timer := None)]
            && r.queue == if k.procs[p].timer.None? then k.queue else Remove(k.queue, k.procs[p].timer.value)
  {
  }

  /** time_event_free finds its event queued, and afterwards nothing queued points at the process. */
  lemma Freed(k: Kernel, p: Pid)
    requires Inv(k) && p in k.procs
    ensures Untimed(k, EventFree(k, p), p)
  {
    var r := EventFree(k, p);
    FreeFrame(k, p);
    if k.procs[p].timer.Some? {
      RemoveMembers(k.queue, k.nextEvent, k.procs[p].timer.value);
      RemoveOk(k.queue, k.nextEvent, k.procs[p].timer.value);
    }
    assert ProcOk(k, p);
    FreedEvents(k, r, p);
  }

  lemma FreedEvents(k: Kernel, r: Kernel, p: Pid)
    requires p in k.procs && QueueOk(k.queue, k.nextEvent) && r.ctxs == k.ctxs
    requires r.procs == k.procs[p := k.procs[p].(timer := None)]
    requires forall x :: x in r.queue <==> x in k.queue && k.procs[p].timer != Some(x.id)
    requires forall x :: x in k.queue ==> EventOk(k, x)
    requires k.procs[p].timer.Some? ==> HasEvent(k, k.procs[p].timer.value, p)
    ensures forall x :: x in r.queue ==> EventOk(r, x) && Target(r, x.what) != Some(p)
    ensures forall x :: x in k.queue && Target(k, x.what) != Some(p) ==> x in r.queue
  {
    forall x | x in r.queue ensures EventOk(r, x) && Target(r, x.what) != Some(p) {
      assert EventOk(k, x);
    }
    forall x | x in k.queue && Target(k, x.what) != Some(p) ensures x in r.queue {
      if k.procs[p].timer == Some(x.id) {
        var e :| e in k.queue && e.id == x.id && Target(k, e.what) == Some(p);
        SameId(k.queue, k.nextEvent, e, x);
      }
    }
  }

  lemma Detach(k: Kernel, r: Kernel, p: Pid)
    requires Inv(k) && Untimed(k, r, p) && !OnList(k.procs[p])
    ensures InvBut(r, Some(p))
  {
    ProcsKept(k, r, p);
    DetachObjs(k, r, p);
    assert ProcOk(k, p);
  }

  lemma DetachObjs(k: Kernel, r: Kernel, p: Pid)
    requires p in k.procs && !OnList(k.procs[p]) && r.objs == k.objs
    requires forall x :: x in k.procs && x != p ==> x in r.procs && r.procs[x] == k.procs[x]
    requires forall o :: o in k.objs ==> ObjOk(k, o)
    ensures forall o :: o in r.objs ==> ObjOk(r, o) && p !in r.objs[o].waiting
  {
    forall o | o in r.objs ensures ObjOk(r, o) && p !in r.objs[o].waiting {
      assert ObjOk(k, o);
      ObjSame(k, r, o, p);
    }
  }

  /** Freeing the timer of p leaves every other process consistent. */
  lemma ProcsKept(k: Kernel, r: Kernel, p: Pid)
    requires (forall x :: x in k.procs && x != p ==> ProcOk(k, x)) && r.objs == k.objs && r.ctxs == k.ctxs
    requires r.procs.Keys == k.procs.Keys && forall x :: x in k.procs && x != p ==> r.procs[x] == k.procs[x]
    requires forall e :: e in k.queue && Target(k, e.what) != Some(p) ==> e in r.queue
    ensures forall x :: x in r.procs && x != p ==> ProcOk(r, x)
  {
    forall x | x in r.procs && x != p ensures ProcOk(r, x) {
      assert ProcOk(k, x);
      KeepEvent(k, r, x);
    }
  }

  lemma KeepEvent(k: Kernel, r: Kernel, x: Pid)
    requires x in k.procs && x in r.procs && k.procs[x] == r.procs[x] && ProcOk(k, x)
    requires forall e :: e in k.queue && Target(k, e.what) == Some(x) ==> e in r.queue && Target(r, e.what) == Some(x)
    ensures r.procs[x].timer.Some? ==> HasEvent(r, r.procs[x].timer.value, x)
  {
    if r.procs[x].timer.Some? {
      assert HasEvent(k, k.procs[x].timer.value, x);
      var e :| e in k.queue && e.id == k.procs[x].timer.value && Target(k, e.what) == Some(x);
      assert e in r.queue && e.id == r.procs[x].timer.value && Target(r, e.what) == Some(x);
    }
  }

  lemma {:induction false} WithoutMembers(ps: seq<Pid>, p: Pid)
    requires Distinct(ps)
    ensures Distinct(Without(ps, p)) && p !in Without(ps, p) && |Without(ps, p)| <= |ps|
    ensures p in ps ==> |Without(ps, p)| < |ps|
    ensures forall x :: x in Without(ps, p) <==> x in ps && x != p
  {
    if ps != [] {
      assert ps == [ps[0]] + ps[1..];
      WithoutMembers(ps[1..], p);
      assert ps[0] != p ==> Without(ps, p)[1..] == Without(ps[1..], p);
    }
  }

  /** Taking a blocked process off its list and freeing its timer leaves it in transit. */
  lemma DetachWaiter(k: Kernel, f: Kernel, o: ObjId, p: Pid)
    requires Inv(k) && o in k.objs && p in k.objs[o].waiting && Untimed(k, f, p)
    ensures InvBut(WithObj(f, o, k.objs[o].Awaited(Without(k.objs[o].waiting, p))), Some(p))
  {
    assert ObjOk(k, o);
    ProcsKept(k, f, p);
    WithoutMembers(k.objs[o].waiting, p);
    Relist(k, f, WithObj(f, o, k.objs[o].Awaited(Without(k.objs[o].waiting, p))), o, p, Without(k.objs[o].waiting, p));
  }

  /** Replacing a wait list by one that differs in p alone. */
  lemma Relist(k: Kernel, f: Kernel, r: Kernel, o: ObjId, p: Pid, ps: seq<Pid>)
    requires Inv(k) && o in k.objs && p in k.objs[o].waiting && p in f.procs && f.procs[p].timer.None?
    requires Untimed(k, f, p) && (forall x :: x in k.procs && x != p ==> ProcOk(f, x)) && r == WithObj(f, o, k.objs[o].Awaited(ps))
    requires Distinct(ps) && p !in ps && forall x :: x in ps <==> x in k.objs[o].waiting && x != p
    ensures InvBut(r, Some(p))
  {
    EventsSame(f, r);
    RelistProcs(f, r, o, p, ps);
    RelistObjs(k, r, o, p, ps);
    assert ProcOk(k, p);
  }

  lemma EventsSame(f: Kernel, r: Kernel)
    requires f.procs == r.procs && f.ctxs == r.ctxs && f.queue == r.queue
    requires forall e :: e in f.queue ==> EventOk(f, e)
    ensures forall e :: e in r.queue ==> EventOk(r, e) && Target(r, e.what) == Target(f, e.what)
  {
    forall e | e in r.queue ensures EventOk(r, e) && Target(r, e.what) == Target(f, e.what) {
      EventSame(f, r, e);
    }
  }

  lemma RelistProcs(f: Kernel, r: Kernel, o: ObjId, p: Pid, ps: seq<Pid>)
    requires o in f.objs && r == WithObj(f, o, f.objs[o].Awaited(ps))
    requires forall x :: x in f.objs[o].waiting && x != p ==> x in ps
    requires forall x :: x in f.procs && x != p ==> ProcOk(f, x)
    ensures forall x :: x in r.procs && x != p ==> ProcOk(r, x)
  {
    forall x | x in r.procs && x != p ensures ProcOk(r, x) {
      ProcSame(f, r, x);
    }
  }

  lemma RelistObjs(k: Kernel, r: Kernel, o: ObjId, p: Pid, ps: seq<Pid>)
    requires Inv(k) && o in k.objs && p in k.objs[o].waiting
    requires r.objs == k.objs[o := k.objs[o].Awaited(ps)]
    requires forall x :: x in k.procs && x != p ==> x in r.procs && r.procs[x] == k.procs[x]
    requires Distinct(ps) && p !in ps && forall x :: x in ps ==> x in k.objs[o].waiting
    ensures forall a :: a in r.objs ==> ObjOk(r, a) && p !in r.objs[a].waiting
  {
    assert ObjOk(k, o);
    forall a | a in r.objs ensures ObjOk(r, a) && p !in r.objs[a].waiting {
      assert ObjOk(k, a);
      if a != o { ObjSame(k, r, a, p); }
    }
  }

  lemma EventSame(f: Kernel, r: Kernel, e: Event)
    requires f.procs == r.procs && f.ctxs == r.ctxs && EventOk(f, e)
    ensures EventOk(r, e) && Target(r, e.what) == Target(f, e.what)
  {
  }

  lemma ProcSame(f: Kernel, r: Kernel, x: Pid)
    requires x in f.procs && x in r.procs && r.procs[x] == f.procs[x] && ProcOk(f, x)
    requires r.queue == f.queue && r.ctxs == f.ctxs
    requires forall o :: o in f.objs ==>
               && o in r.objs && r.objs[o].KindOf() == f.objs[o].KindOf() && r.objs[o].Ring? == f.objs[o].Ring?
               && r.objs[o].maxSize == f.objs[o].maxSize && (x in f.objs[o].waiting ==> x in r.objs[o].waiting)
    ensures ProcOk(r, x)
  {
    AdjustEvent(f, r, x);
  }

  lemma ObjSame(k: Kernel, r: Kernel, o: ObjId, p: Pid)
    requires o in k.objs && o in r.objs && r.objs[o] == k.objs[o] && ObjOk(k, o) && p !in k.objs[o].waiting
    requires forall x :: x in k.procs && x != p ==> x in r.procs && r.procs[x] == k.procs[x]
    ensures ObjOk(r, o)
  {
  }

  // ----- putting it back -----

  /** A process in transit may take any state that needs neither list nor timer. */
  lemma Settle(k: Kernel, p: Pid, q: Proc)
    requires InvBut(k, Some(p)) && q.timer.None? && !OnList(q) && !(q.state == Waiting && Timed(q)) && PcOk(k, p, q.pc)
    ensures Inv(WithProc(k, p, q))
  {
    var r := WithProc(k, p, q);
    forall e | e in r.queue ensures EventOk(r, e) {
      assert EventOk(k, e);
    }
    ProcsKept(k, r, p);
    TransitObjs(k, r, p);
  }

  lemma TransitObjs(k: Kernel, r: Kernel, p: Pid)
    requires r.objs == k.objs && forall o :: o in k.objs ==> ObjOk(k, o) && p !in k.objs[o].waiting
    requires forall x :: x in k.procs && x != p ==> x in r.procs && r.procs[x] == k.procs[x]
    ensures forall o :: o in r.objs ==> ObjOk(r, o) && p !in r.objs[o].waiting
  {
    forall o | o in r.objs ensures ObjOk(r, o) && p !in r.objs[o].waiting {
      ObjSame(k, r, o, p);
    }
  }

  /** m is k with process p as q and a new event queued for it. */
  ghost predicate Armed(k: Kernel, m: Kernel, p: Pid, q: Proc) {
    && p in k.procs && Base(m)
    && m == k.(queue := m.queue, nextEvent := m.nextEvent, procs := m.procs)
    && m.procs == k.procs[p := q.(timer := Some(k.nextEvent))]
    && HasEvent(m, k.nextEvent, p)
    && (forall e :: e in m.queue ==> EventOk(m, e))
    && (forall e :: e in k.queue ==> e in m.queue)
  }

  /** Queueing a new event for a process in transit. */
  lemma InsertedQueue(q: seq<Event>, next: nat, e: Event, r: seq<Event>)
    requires QueueOk(q, next) && e.id == next && r == Insert(q, e)
    ensures QueueOk(r, next + 1) && e in r
    ensures forall x :: x in r <==> x in q || x == e
  {
    InsertMembers(q, e);
    InsertOk(q, next, e);
  }

  lemma AllocFrame(k: Kernel, m: Kernel, p: Pid, q: Proc, time: int, w: What)
    requires p in k.procs && Target(k, w) == Some(p) && m == EventAlloc(WithProc(k, p, q), time, w)
    ensures m == k.(queue := m.queue, nextEvent := k.nextEvent + 1, procs := m.procs)
    ensures m.procs == k.procs[p := q.(timer := Some(k.nextEvent))]
    ensures m.queue == Insert(k.queue, Event(k.nextEvent, time, w))
  {
  }

  lemma AllocArms(k: Kernel, m: Kernel, p: Pid, q: Proc, time: int, w: What)
    requires InvBut(k, Some(p)) && q.timer.None? && PcOk(k, p, q.pc)
    requires w != PartitionActivate && Target(k, w) == Some(p) && Matches(w, time, q)
    requires m == EventAlloc(WithProc(k, p, q), time, w)
    ensures Armed(k, m, p, q)
  {
    var e0 := Event(k.nextEvent, time, w);
    AllocFrame(k, m, p, q, time, w);
    InsertedQueue(k.queue, k.nextEvent, e0, m.queue);
    QueuedArms(k, m, p, q, e0);
  }

  lemma QueuedArms(k: Kernel, m: Kernel, p: Pid, q: Proc, e0: Event)
    requires Base(k) && p in k.procs && e0.id == k.nextEvent
    requires e0.what != PartitionActivate && Target(k, e0.what) == Some(p) && Matches(e0.what, e0.time, q)
    requires m == k.(queue := m.queue, nextEvent := k.nextEvent + 1, procs := m.procs)
    requires m.procs == k.procs[p := q.(timer := Some(k.nextEvent))]
    requires QueueOk(m.queue, m.nextEvent) && forall x :: x in m.queue <==> x in k.queue || x == e0
    requires forall e :: e in k.queue ==> EventOk(k, e) && Target(k, e.what) != Some(p)
    ensures Armed(k, m, p, q)
  {
    NewEventFound(m, e0, p);
    ArmedEvents(k, m, p, q, e0);
  }

  lemma NewEventFound(m: Kernel, e0: Event, p: Pid)
    requires e0 in m.queue && Target(m, e0.what) == Some(p)
    ensures HasEvent(m, e0.id, p)
  {
  }

  lemma ArmedEvents(k: Kernel, m: Kernel, p: Pid, q: Proc, e0: Event)
    requires m.procs == k.procs[p := q.(timer := Some(e0.id))] && m.ctxs == k.ctxs
    requires Target(k, e0.what) == Some(p) && Matches(e0.what, e0.time, q)
    requires forall e :: e in m.queue ==> e == e0 || (EventOk(k, e) && Target(k, e.what) != Some(p))
    ensures forall e :: e in m.queue ==> EventOk(m, e)
  {
    forall e | e in m.queue ensures EventOk(m, e) {
      if e != e0 { assert EventOk(k, e); }
    }
  }

  lemma Arm(k: Kernel, m: Kernel, p: Pid, q: Proc)
    requires InvBut(k, Some(p)) && Armed(k, m, p, q) && PcOk(k, p, q.pc)
    requires q.state == Waiting && Timed(q) && !OnList(q)
    ensures Inv(m)
  {
    ProcsKept(k, m, p);
    TransitObjs(k, m, p);
  }

  /** Joining the wait list of o: everything but the timer. */
  lemma Listed(k: Kernel, m: Kernel, p: Pid, o: ObjId)
    requires InvBut(k, Some(p)) && o in k.objs && p in m.procs && Base(m)
    requires m == k.(procs := m.procs, queue := m.queue, nextEvent := m.nextEvent) && m.procs.Keys == k.procs.Keys
    requires forall x :: x in k.procs && x != p ==> m.procs[x] == k.procs[x] && ProcOk(m, x)
    requires forall e :: e in m.queue ==> EventOk(m, e)
    requires var q := m.procs[p];
             && OnList(q) && q.reason.kind == k.objs[o].KindOf() && q.pc.Retry? && q.pc.x.obj == o && PcOk(m, p, q.pc)
             && (q.reason.BlockedTimed? <==> q.pc.ctx.Some?)
             && (q.timer.Some? <==> Timed(q)) && (q.timer.Some? ==> HasEvent(m, q.timer.value, p))
    ensures Inv(WithObj(m, o, k.objs[o].Awaited(k.objs[o].waiting + [p])))
  {
    var ps := k.objs[o].waiting + [p];
    var r := WithObj(m, o, k.objs[o].Awaited(ps));
    EventsSame(m, r);
    RelistProcs(m, r, o, p, ps);
    ListedObjs(k, r, p, o);
    assert ProcOk(r, p) by { AdjustEvent(m, r, p); }
  }

  lemma ListedObjs(k: Kernel, r: Kernel, p: Pid, o: ObjId)
    requires o in k.objs && (forall a :: a in k.objs ==> ObjOk(k, a) && p !in k.objs[a].waiting)
    requires r.objs == k.objs[o := k.objs[o].Awaited(k.objs[o].waiting + [p])] && p in r.procs
    requires forall x :: x in k.procs && x != p ==> x in r.procs && r.procs[x] == k.procs[x]
    requires var q := r.procs[p]; OnList(q) && q.reason.kind == k.objs[o].KindOf() && q.pc.Retry? && q.pc.x.obj == o
    ensures forall a :: a in r.objs ==> ObjOk(r, a)
  {
    assert ObjOk(k, o);
    DistinctAppend(k.objs[o].waiting, p);
    forall a | a in r.objs ensures ObjOk(r, a) {
      assert ObjOk(k, a);
      if a != o { ObjSame(k, r, a, p); }
    }
  }

  /** Joining the wait list of o without a timer. */
  lemma Join(k: Kernel, m: Kernel, p: Pid, o: ObjId, q: Proc)
    requires InvBut(k, Some(p)) && o in k.objs && q.timer.None? && PcOk(k, p, q.pc) && m == WithProc(k, p, q)
    requires q.state == Waiting && q.reason == Blocked(k.objs[o].KindOf()) && q.pc.Retry? && q.pc.x.obj == o && q.pc.ctx.None?
    ensures Inv(WithObj(m, o, k.objs[o].Awaited(k.objs[o].waiting + [p])))
  {
    forall e | e in m.queue ensures EventOk(m, e) {
      assert EventOk(k, e);
    }
    ProcsKept(k, m, p);
    Listed(k, m, p, o);
  }

  /** Joining the wait list of o with a timer. */
  lemma JoinTimed(k: Kernel, m: Kernel, p: Pid, o: ObjId, q: Proc)
    requires InvBut(k, Some(p)) && o in k.objs && PcOk(k, p, q.pc) && Armed(k, m, p, q)
    requires q.state == Waiting && q.reason == BlockedTimed(k.objs[o].KindOf()) && q.pc.Retry? && q.pc.x.obj == o && q.pc.ctx.Some?
    ensures Inv(WithObj(m, o, k.objs[o].Awaited(k.objs[o].waiting + [p])))
  {
    ProcsKept(k, m, p);
    Listed(k, m, p, o);
  }

  // ----- changes that touch none of this -----

  /** Changes of scheduling fields and of the history. */
  lemma Unrelated(k: Kernel, r: Kernel)
    requires Inv(k) && r.procs == k.procs && r.objs == k.objs && r.queue == k.queue && r.ctxs == k.ctxs
    requires r.nextEvent == k.nextEvent && r.nextCtx == k.nextCtx && r.cur in r.procs
    ensures Inv(r)
  {
    forall e | e in r.queue ensures EventOk(r, e) { assert EventOk(k, e); }
    forall x | x in r.procs ensures ProcOk(r, x) {
      assert ProcOk(k, x);
      KeepEvent(k, r, x);
    }
    forall o | o in r.objs ensures ObjOk(r, o) { assert ObjOk(k, o); }
  }

  /** Changing what an object holds, not who waits for it. */
  lemma Contents(k: Kernel, o: ObjId, b: Obj)
    requires Inv(k) && o in k.objs && b.waiting == k.objs[o].waiting && b.Ring? == k.objs[o].Ring?
    requires b.KindOf() == k.objs[o].KindOf() && b.maxSize == k.objs[o].maxSize
    requires b.Ring? ==> |b.msgs| <= b.cap && forall m :: m in b.msgs ==> 0 < |m| <= b.maxSize
    ensures Inv(WithObj(k, o, b))
  {
    var r := WithObj(k, o, b);
    EventsSame(k, r);
    forall x | x in r.procs ensures ProcOk(r, x) {
      ProcSame(k, r, x);
    }
    ContentsObjs(k, r, o);
  }

  lemma ContentsObjs(k: Kernel, r: Kernel, o: ObjId)
    requires o in k.objs && o in r.objs && r.procs == k.procs && r.objs == k.objs[o := r.objs[o]]
    requires r.objs[o].waiting == k.objs[o].waiting && r.objs[o].KindOf() == k.objs[o].KindOf() && r.objs[o].Ring? == k.objs[o].Ring?
    requires r.objs[o].Ring? ==> |r.objs[o].msgs| <= r.objs[o].cap && forall m :: m in r.objs[o].msgs ==> 0 < |m| <= r.objs[o].maxSize
    requires forall a :: a in k.objs ==> ObjOk(k, a)
    ensures forall a :: a in r.objs ==> ObjOk(r, a)
  {
    forall a | a in r.objs ensures ObjOk(r, a) { assert ObjOk(k, a) && ObjOk(k, o); }
  }

  /** Changing only where a process gives up, its priority, or its continuation while it is not blocked. */
  lemma Adjust(k: Kernel, p: Pid, q: Proc)
    requires Inv(k) && p in k.procs
    requires q == k.procs[p].(giving := q.giving, pri := q.pri, pc := q.pc) && PcOk(k, p, q.pc)
    requires q.pc == k.procs[p].pc || (!OnList(k.procs[p]) && k.procs[p].timer.None?)
    ensures Inv(WithProc(k, p, q))
  {
    var r := WithProc(k, p, q);
    assert ProcOk(k, p);
    AdjustEvents(k, r, p);
    ProcsKept(k, r, p);
    AdjustProc(k, r, p);
    AdjustObjs(k, r, p);
  }

  lemma AdjustEvents(k: Kernel, r: Kernel, p: Pid)
    requires p in k.procs && p in r.procs && r.procs == k.procs[p := r.procs[p]] && r.ctxs == k.ctxs && r.queue == k.queue
    requires r.procs[p].timer == k.procs[p].timer && r.procs[p].reason == k.procs[p].reason
    requires r.procs[p].pc == k.procs[p].pc || r.procs[p].timer.None?
    requires forall e :: e in k.queue ==> EventOk(k, e)
    ensures forall e :: e in r.queue ==> EventOk(r, e)
  {
    forall e | e in r.queue ensures EventOk(r, e) {
      assert EventOk(k, e);
    }
  }

  lemma AdjustProc(k: Kernel, r: Kernel, p: Pid)
    requires p in k.procs && p in r.procs && ProcOk(k, p) && r.ctxs == k.ctxs && r.queue == k.queue && r.objs == k.objs
    requires var q := r.procs[p];
             && q == k.procs[p].(giving := q.giving, pri := q.pri, pc := q.pc) && PcOk(k, p, q.pc)
             && (q.pc == k.procs[p].pc || !OnList(k.procs[p]))
    ensures ProcOk(r, p)
  {
    AdjustEvent(k, r, p);
  }

  lemma AdjustObjs(k: Kernel, r: Kernel, p: Pid)
    requires p in k.procs && r.objs == k.objs && r.procs.Keys == k.procs.Keys
    requires forall x :: x in k.procs && x != p ==> r.procs[x] == k.procs[x]
    requires OnList(k.procs[p]) ==> OnList(r.procs[p]) && r.procs[p].reason == k.procs[p].reason && r.procs[p].pc == k.procs[p].pc
    requires forall o :: o in k.objs ==> ObjOk(k, o)
    ensures forall o :: o in r.objs ==> ObjOk(r, o)
  {
    forall o | o in r.objs ensures ObjOk(r, o) { assert ObjOk(k, o); }
  }

  lemma AdjustEvent(k: Kernel, r: Kernel, x: Pid)
    requires x in k.procs && x in r.procs && k.procs[x].timer == r.procs[x].timer
    requires k.procs[x].timer.Some? ==> HasEvent(k, k.procs[x].timer.value, x)
    requires k.queue == r.queue && k.ctxs == r.ctxs
    ensures r.procs[x].timer.Some? ==> HasEvent(r, r.procs[x].timer.value, x)
  {
    if r.procs[x].timer.Some? {
      var e :| e in k.queue && e.id == k.procs[x].timer.value && Target(k, e.what) == Some(x);
      assert e in r.queue && e.id == r.procs[x].timer.value && Target(r, e.what) == Some(x);
    }
  }
}
