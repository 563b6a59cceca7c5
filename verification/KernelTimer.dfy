/** The timer interrupt and the invariant over all runs of the kernel. */
module KernelTimer {
  import opened Common
  import opened TimerQueue
  import opened Election
  import opened KernelSpec
  import opened KernelInv
  import opened KernelSteps
  import opened KernelCalls

  /** An event that belongs to no process leaves the queue. */
  lemma DropActivation(k: Kernel, r: Kernel)
    requires Inv(k) && k.queue != [] && k.queue[0].what == PartitionActivate && r == k.(queue := k.queue[1..])
    ensures Inv(r)
  {
    assert k.queue == [k.queue[0]] + k.queue[1..];
    forall e | e in r.queue ensures EventOk(r, e) { assert EventOk(k, e); }
    forall x | x in r.procs ensures ProcOk(r, x) {
      assert ProcOk(k, x);
      KeepEvent(k, r, x);
    }
    forall o | o in r.objs ensures ObjOk(r, o) { assert ObjOk(k, o); }
  }

  lemma RemoveHead(q: seq<Event>)
    requires q != []
    ensures Remove(q, q[0].id) == q[1..]
  {
  }

  /** Firing the first event of a process is freeing its timer and readying it. */
  lemma FireProc(k: Kernel, r: Kernel, p: Pid)
    requires Inv(k) && k.queue != [] && r == Fire(k)
    requires Target(k, k.queue[0].what) == Some(p) && !k.queue[0].what.BlockTimeout?
    ensures Inv(r) && p in k.procs && k.procs[p].state == Waiting
    ensures r.procs == k.procs[p := Put(k.procs[p].(timer := None), Ready, k.procs[p].reason)]
  {
    assert EventOk(k, k.queue[0]) && ProcOk(k, p);
    var f := EventFree(k, p);
    RemoveHead(k.queue);
    Freed(k, p);
    Detach(k, f, p);
    Settle(f, p, Put(f.procs[p], Ready, k.procs[p].reason));
    FireProcIs(k, r, f, p);
  }

  lemma FireProcIs(k: Kernel, r: Kernel, f: Kernel, p: Pid)
    requires k.queue != [] && r == Fire(k) && !k.queue[0].what.BlockTimeout? && p in k.procs
    requires Target(k, k.queue[0].what) == Some(p) && f == EventFree(k, p) && f.queue == k.queue[1..]
    ensures r == WithProc(f, p, Put(f.procs[p], Ready, k.procs[p].reason))
  {
  }

  /** Firing a blocking timeout also takes the process off its wait list. */
  lemma FireBlocked(k: Kernel, r: Kernel, p: Pid)
    requires Inv(k) && k.queue != [] && r == Fire(k)
    requires Target(k, k.queue[0].what) == Some(p) && k.queue[0].what.BlockTimeout?
    ensures Inv(r) && p in k.procs && k.procs[p].state == Waiting
    ensures r.procs == k.procs[p := Put(k.procs[p].(timer := None), Ready, k.procs[p].reason)]
  {
    assert EventOk(k, k.queue[0]) && ProcOk(k, p);
    var o := k.procs[p].pc.x.obj;
    var f := EventFree(k, p);
    RemoveHead(k.queue);
    Freed(k, p);
    DetachWaiter(k, f, o, p);
    var m := WithObj(f, o, k.objs[o].Awaited(Without(k.objs[o].waiting, p)));
    Settle(m, p, Put(m.procs[p], Ready, k.procs[p].reason));
    FireBlockedIs(k, r, f, p, o);
  }

  lemma FireBlockedIs(k: Kernel, r: Kernel, f: Kernel, p: Pid, o: ObjId)
    requires k.queue != [] && r == Fire(k) && k.queue[0].what.BlockTimeout? && p in k.procs && o in k.objs
    requires k.queue[0].what.ctx in k.ctxs && k.ctxs[k.queue[0].what.ctx] == Ctx(p, o)
    requires f == EventFree(k, p) && f.queue == k.queue[1..]
    ensures r == WithProc(WithObj(f, o, k.objs[o].Awaited(Without(k.objs[o].waiting, p))), p, Put(f.procs[p], Ready, k.procs[p].reason))
  {
  }

  /** What firing events may do to processes: ready some that were waiting, never one of an untouched partition. */
  ghost predicate OnlyReadied(k: Kernel, r: Kernel, local: bool) {
    && r.cur == k.cur && r.part == k.part && r.mode == k.mode && r.procs.Keys == k.procs.Keys && r.ctxs == k.ctxs
    && r.order == k.order && r.log == k.log && r.held == k.held
    && (forall p :: p in k.procs && r.procs[p] != k.procs[p] ==>
          && k.procs[p].state == Waiting && r.procs[p].state == Ready
          && r.procs[p].part == k.procs[p].part && (local || k.procs[p].part != k.part))
  }

  lemma FireKeeps(k: Kernel, r: Kernel)
    requires Inv(k) && k.queue != [] && r == Fire(k)
    ensures Inv(r) && OnlyReadied(k, r, OfPart(k, k.queue[0])) && r.queue == k.queue[1..]
    ensures k.queue[0].what != PartitionActivate ==>
              exists p :: Target(k, k.queue[0].what) == Some(p) && p in k.procs && Awoken(k, r, p)
  {
    var e := k.queue[0];
    assert EventOk(k, e);
    if e.what == PartitionActivate {
      DropActivation(k, r);
    } else {
      FireOwned(k, r, Target(k, e.what).value);
    }
  }

  lemma FireOwned(k: Kernel, r: Kernel, p: Pid)
    requires Inv(k) && k.queue != [] && r == Fire(k) && Target(k, k.queue[0].what) == Some(p)
    ensures Inv(r) && OnlyReadied(k, r, OfPart(k, k.queue[0])) && p in k.procs && Awoken(k, r, p)
  {
    if k.queue[0].what.BlockTimeout? {
      FireBlocked(k, r, p);
    } else {
      FireProc(k, r, p);
    }
    ReadiedOne(k, r, p);
    Exempt(r, p);
  }

  /** p was waiting, and is READY, without timer and off all wait lists. */
  ghost predicate Awoken(k: Kernel, r: Kernel, p: Pid)
    requires p in k.procs
  {
    && k.procs[p].state == Waiting && r.procs == k.procs[p := k.procs[p].(state := Ready, timer := None)]
    && forall o :: o in r.objs ==> p !in r.objs[o].waiting
  }

  lemma ReadiedOne(k: Kernel, r: Kernel, p: Pid)
    requires p in k.procs && k.procs[p].state == Waiting && k.queue != [] && Target(k, k.queue[0].what) == Some(p)
    requires r == k.(procs := r.procs, queue := r.queue, objs := r.objs)
    requires r.procs == k.procs[p := Put(k.procs[p].(timer := None), Ready, k.procs[p].reason)]
    ensures OnlyReadied(k, r, OfPart(k, k.queue[0]))
  {
  }

  lemma ReadiedThenReadied(k: Kernel, m: Kernel, r: Kernel, a: bool, b: bool)
    requires OnlyReadied(k, m, a) && OnlyReadied(m, r, b)
    ensures OnlyReadied(k, r, a || b)
  {
  }

  lemma {:induction false} FireDueKeeps(k: Kernel, t: int)
    requires Inv(k)
    ensures Inv(FireDue(k, t)) && OnlyReadied(k, FireDue(k, t), HasLocal(k, Due(k.queue, t)))
    decreases |k.queue|
  {
    if k.queue != [] && k.queue[0].time <= t {
      var m := Fire(k);
      var due, rest := Due(k.queue, t), Due(k.queue[1..], t);
      FireKeeps(k, m);
      FireDueKeeps(m, t);
      ReadiedThenReadied(k, m, FireDue(m, t), OfPart(k, k.queue[0]), HasLocal(m, rest));
      assert due == [k.queue[0]] + rest;
      assert OfPart(k, k.queue[0]) ==> HasLocal(k, due) by { assert k.queue[0] in due; }
      LocalLater(k, m, due, rest);
    }
  }

  lemma LocalLater(k: Kernel, m: Kernel, due: seq<Event>, rest: seq<Event>)
    requires OnlyReadied(k, m, true) && (forall e :: e in rest ==> e in due)
    ensures HasLocal(m, rest) ==> HasLocal(k, due)
  {
    if HasLocal(m, rest) {
      var e :| e in rest && OfPart(m, e);
      assert e in due && OfPart(k, e);
    }
  }

  /** Nothing due is left behind. */
  lemma {:induction false} FireDueComplete(k: Kernel, t: int)
    requires QueueOk(k.queue, k.nextEvent)
    ensures forall e :: e in FireDue(k, t).queue <==> e in k.queue && e.time > t
    decreases |k.queue|
  {
    if k.queue != [] {
      assert k.queue == [k.queue[0]] + k.queue[1..];
      if k.queue[0].time <= t {
        FireDueComplete(Fire(k), t);
        assert FireDue(k, t).queue == FireDue(Fire(k), t).queue;
      } else {
        QueueSorted(k.queue, k.nextEvent);
      }
    }
  }

  lemma ActivationEvents(k: Kernel, r: Kernel, e0: Event)
    requires QueueOk(k.queue, k.nextEvent) && (forall e :: e in k.queue ==> EventOk(k, e))
    requires e0.id == k.nextEvent && e0.what == PartitionActivate
    requires r == k.(queue := Insert(k.queue, e0), nextEvent := k.nextEvent + 1)
    ensures QueueOk(r.queue, r.nextEvent) && (forall e :: e in r.queue ==> EventOk(r, e)) && forall e :: e in k.queue ==> e in r.queue
  {
    InsertMembers(k.queue, e0);
    InsertOk(k.queue, k.nextEvent, e0);
    forall e | e in r.queue ensures EventOk(r, e) {
      if e in k.queue { assert EventOk(k, e); }
    }
  }

  lemma ActivationQueued(k: Kernel, time: int)
    requires Inv(k)
    ensures Inv(EventAlloc(k, time, PartitionActivate))
  {
    var r := EventAlloc(k, time, PartitionActivate);
    ActivationEvents(k, r, Event(k.nextEvent, time, PartitionActivate));
    forall x | x in r.procs ensures ProcOk(r, x) {
      assert ProcOk(k, x);
      KeepEvent(k, r, x);
    }
    forall o | o in r.objs ensures ObjOk(r, o) { assert ObjOk(k, o); }
  }

  lemma TickGood(k: Kernel, t: int, nextPart: Part, nextTime: int)
    requires Good(k)
    ensures Good(Tick(k, t, nextPart, nextTime))
  {
    var due := Due(k.queue, t);
    var k1 := FireDue(k, t);
    FireDueKeeps(k, t);
    if HasActivation(due) {
      SwitchGood(k1, nextPart, nextTime);
    } else if HasLocal(k, due) {
      PreemptGood(k1, false);
    } else {
      UntouchedRuns(k, k1);
    }
  }

  lemma SwitchGood(k: Kernel, nextPart: Part, nextTime: int)
    requires Inv(k) && forall p :: p in k.procs && k.procs[p].state == Running ==> p == k.cur
    ensures Good(Preempt(EventAlloc(k, nextTime, PartitionActivate).(part := nextPart), false))
  {
    ActivationQueued(k, nextTime);
    var k1 := EventAlloc(k, nextTime, PartitionActivate);
    Unrelated(k1, k1.(part := nextPart));
    PreemptGood(k1.(part := nextPart), false);
  }

  lemma UntouchedRuns(k: Kernel, r: Kernel)
    requires Good(k) && Inv(r) && OnlyReadied(k, r, false)
    ensures Good(r)
  {
  }

  // ----- all runs -----

  /** The condition on a dispatch is that the process found fits, the condition on STOP that its process is on no
      wait list. */
  ghost predicate Fitting(k: Kernel, s: Step) {
    && (s.Dispatch? && Enabled(k, s) ==> Fits(k, k.mode.search.best.value))
    && (s.Enter? ==> StopsNoWaiter(k, s.call))
  }

  /** A step keeps the invariant exactly when it meets its condition. */
  lemma StepGood(k: Kernel, s: Step)
    requires Good(k) && Enabled(k, s)
    ensures Good(Next(k, s)) <==> Fitting(k, s)
  {
    match s
    case Enter(c, t0, t1, t2) => SyscallExactly(k, c, t0, t1, t2, Next(k, s));
    case Continue(t, t1, t2) =>
      assert ProcOk(k, k.cur);
      if k.procs[k.cur].pc.SuspendCheck? {
        ReturnGood(k, Not, User);
      } else {
        ResumeGood(k, t, t1, t2);
      }
    case Scan => ScanGood(k, Next(k, s));
    case GiveUp => GiveUpGood(k, Next(k, s));
    case Dispatch => DispatchExactly(k, Next(k, s));
    case Interrupt(t, nextPart, nextTime) => TickGood(k, t, nextPart, nextTime);
  }
}
