/** The kernel machine under the partition schedule: fed by the cursor of the schedule, its runs switch partitions in
    cyclic order for as long as no interrupt finds two activations due. */
module KernelSchedule {
  import opened Common
  import opened TimerQueue
  import opened Election
  import opened KernelSpec
  import opened KernelInv
  import opened KernelSteps
  import opened KernelTimer
  import opened KernelFifo
  import opened KernelRuns
  import opened KernelWakeups
  import opened Schedule
  import L = Scheduler

  // ----- activations stay where they are -----

  /** The queue is well-formed, and no process's timer is an activation. */
  ghost predicate TimersOnly(k: Kernel) {
    && QueueOk(k.queue, k.nextEvent)
    && forall p, e :: p in k.procs && e in k.queue && k.procs[p].timer == Some(e.id) ==> e.what != PartitionActivate
  }

  /** The partition and the queued activations are the same. */
  ghost predicate KeepsActs(k: Kernel, m: Kernel) {
    m.part == k.part && (TimersOnly(k) ==> TimersOnly(m) && Activations(m.queue) == Activations(k.queue))
  }

  lemma KeepsThen(k: Kernel, m: Kernel, r: Kernel)
    requires KeepsActs(k, m) && KeepsActs(m, r)
    ensures KeepsActs(k, r)
  {
  }

  /** Timers are lost at most. */
  ghost predicate SameTimers(k: Kernel, m: Kernel) {
    forall p :: p in m.procs ==> m.procs[p].timer.None? || (p in k.procs && m.procs[p].timer == k.procs[p].timer)
  }

  lemma SameQueueKeeps(k: Kernel, m: Kernel)
    requires m.part == k.part && m.queue == k.queue && m.nextEvent == k.nextEvent && SameTimers(k, m)
    ensures KeepsActs(k, m)
  {
  }

  lemma AllocKeeps(k: Kernel, time: int, w: What)
    requires w != PartitionActivate
    ensures KeepsActs(k, EventAlloc(k, time, w))
  {
    if TimersOnly(k) {
      var e := Event(k.nextEvent, time, w);
      InsertOk(k.queue, k.nextEvent, e);
      ActivationsInsert(k.queue, k.nextEvent, e);
      AllocTimers(k, time, w);
    }
  }

  lemma AllocTimers(k: Kernel, time: int, w: What)
    requires TimersOnly(k) && w != PartitionActivate && QueueOk(EventAlloc(k, time, w).queue, k.nextEvent + 1)
    ensures TimersOnly(EventAlloc(k, time, w))
  {
    var m := EventAlloc(k, time, w);
    InsertMembers(k.queue, Event(k.nextEvent, time, w));
    QueueSorted(k.queue, k.nextEvent);
    forall p, e | p in m.procs && e in m.queue && m.procs[p].timer == Some(e.id) ensures e.what != PartitionActivate {
      if e in k.queue { assert m.procs[p].timer == k.procs[p].timer; }
    }
  }

  /** Unlinking an event that is no activation. */
  lemma {:induction false} RemoveActs(q: seq<Event>, id: nat)
    requires forall e :: e in q && e.id == id ==> e.what != PartitionActivate
    ensures Activations(Remove(q, id)) == Activations(q) && forall e :: e in Remove(q, id) ==> e in q
  {
    if q != [] {
      assert q == [q[0]] + q[1..];
      if q[0].id != id {
        RemoveActs(q[1..], id);
        assert Remove(q, id)[1..] == Remove(q[1..], id);
      }
    }
  }

  /** Unlinking the timer of p. */
  lemma UnlinkKeeps(k: Kernel, m: Kernel, p: Pid)
    requires p in k.procs && k.procs[p].timer.Some? && m.part == k.part && m.nextEvent == k.nextEvent && SameTimers(k, m)
    requires m.queue == Remove(k.queue, k.procs[p].timer.value)
    ensures KeepsActs(k, m)
  {
    if TimersOnly(k) {
      RemoveOk(k.queue, k.nextEvent, k.procs[p].timer.value);
      RemoveActs(k.queue, k.procs[p].timer.value);
    }
  }

  lemma FreeKeeps(k: Kernel, p: Pid)
    requires p in k.procs
    ensures KeepsActs(k, EventFree(k, p))
  {
    if k.procs[p].timer.Some? { UnlinkKeeps(k, EventFree(k, p), p); } else { SameQueueKeeps(k, EventFree(k, p)); }
  }

  lemma WakeActs(k: Kernel, o: ObjId, p: Pid)
    requires o in k.objs && p in k.procs
    ensures KeepsActs(k, Wake(k, o, p))
  {
    var q := k.procs[p];
    if q.reason.BlockedTimed? && q.timer.Some? { UnlinkKeeps(k, Wake(k, o, p), p); } else { SameQueueKeeps(k, Wake(k, o, p)); }
  }

  lemma WakeOneActs(k: Kernel, o: ObjId, disc: Disc)
    requires o in k.objs
    ensures KeepsActs(k, WakeOne(k, o, disc))
  {
    var w := Woken(k, k.objs[o].waiting, disc);
    if w.Some? && w.value in k.procs { WakeActs(k, o, w.value); }
  }

  lemma {:induction false} WakeAllActs(k: Kernel, o: ObjId)
    requires o in k.objs
    ensures KeepsActs(k, WakeAll(k, o))
    decreases |k.objs[o].waiting|
  {
    var ps := k.objs[o].waiting;
    if ps != [] && ps[0] in k.procs {
      WakeActs(k, o, ps[0]);
      WakeAllActs(Wake(k, o, ps[0]), o);
      KeepsThen(k, Wake(k, o, ps[0]), WakeAll(k, o));
    }
  }

  // ----- calls -----

  lemma ProcKeeps(k: Kernel, p: Pid, q: Proc)
    requires p in k.procs && (q.timer.None? || q.timer == k.procs[p].timer)
    ensures KeepsActs(k, WithProc(k, p, q))
  {
    SameQueueKeeps(k, WithProc(k, p, q));
  }

  lemma CurKeeps(k: Kernel, giving: Giving, pc: Pc)
    requires k.cur in k.procs
    ensures KeepsActs(k, SetCur(k, giving, pc))
  {
    ProcKeeps(k, k.cur, k.procs[k.cur].(giving := giving, pc := pc));
  }

  /** Going to sleep with a timer. */
  lemma ArmedKeeps(k: Kernel, p: Pid, q: Proc, time: int, w: What)
    requires p in k.procs && q.timer == k.procs[p].timer && w != PartitionActivate
    ensures KeepsActs(k, EventAlloc(WithProc(k, p, q), time, w))
  {
    ProcKeeps(k, p, q);
    AllocKeeps(WithProc(k, p, q), time, w);
    KeepsThen(k, WithProc(k, p, q), EventAlloc(WithProc(k, p, q), time, w));
  }

  lemma AfterKeeps(k: Kernel, k1: Kernel, x: Xfer)
    requires k.cur in k.procs && k1.cur == k.cur && k1.procs == k.procs && x.obj in k1.objs
    requires k1.queue == k.queue && k1.nextEvent == k.nextEvent && k1.part == k.part
    ensures KeepsActs(k, AfterTransfer(k1, x))
  {
    var k2 := WakeOne(k1, x.obj, x.disc);
    SameQueueKeeps(k, k1);
    WakeOneActs(k1, x.obj, x.disc);
    var giving := if k1.objs[x.obj].waiting != [] && k1.objs[x.obj].KindOf() == BufferKind then Yes(Fresh(false)) else Not;
    CurKeeps(k2, giving, User);
    KeepsThen(k, k1, k2);
    KeepsThen(k, k2, AfterTransfer(k1, x));
  }

  lemma CompleteKeeps(k: Kernel, x: Xfer)
    requires k.cur in k.procs && x.obj in k.objs && Suits(k.objs[x.obj], x.op) && !Obstructed(k.objs[x.obj], x.op)
    ensures KeepsActs(k, Complete(k, x))
  {
    var b := k.objs[x.obj];
    match x.op
    case Send(m) => AfterKeeps(k, Logged(WithObj(k, x.obj, b.(msgs := b.msgs + [m])), Sent(x.obj, m)), x);
    case Recv => AfterKeeps(k, Logged(WithObj(k, x.obj, b.(msgs := b.msgs[1..])), Received(x.obj, b.msgs[0])), x);
    case Read => SameQueueKeeps(k, Complete(k, x));
  }

  lemma BlockTimedKeeps(k: Kernel, k1: Kernel, o: ObjId, b: Obj, q: Proc, time: int, w: What)
    requires k.cur in k.procs && q.timer == k.procs[k.cur].timer && w != PartitionActivate && o in k.objs
    requires k1 == WithProc(NewContext(k, o), k.cur, q)
    ensures KeepsActs(k, WithObj(EventAlloc(k1, time, w), o, b))
  {
    SameQueueKeeps(k, k1);
    AllocKeeps(k1, time, w);
    KeepsThen(k, k1, EventAlloc(k1, time, w));
    SameQueueKeeps(EventAlloc(k1, time, w), WithObj(EventAlloc(k1, time, w), o, b));
    KeepsThen(k, EventAlloc(k1, time, w), WithObj(EventAlloc(k1, time, w), o, b));
  }

  lemma BlockKeeps(k: Kernel, x: Xfer, outer: int, t1: int, t2: int)
    requires k.cur in k.procs && x.obj in k.objs
    ensures KeepsActs(k, Block(k, x, outer, t1, t2))
  {
    if x.timeout != INFINITE && outer > t1 {
      var kind := k.objs[x.obj].KindOf();
      var inner := InnerDeadline(kind, x, outer, t2);
      var q := BlockedProc(k.procs[k.cur], kind, x, outer, inner, Some(k.nextCtx));
      BlockTimedKeeps(k, WithProc(NewContext(k, x.obj), k.cur, q), x.obj, Listing(k, x.obj), q, inner, BlockTimeout(kind, k.nextCtx));
    } else {
      SameQueueKeeps(k, Block(k, x, outer, t1, t2));
    }
  }

  lemma LoopKeeps(k: Kernel, x: Xfer, outer: int, t1: int, t2: int)
    requires k.cur in k.procs && x.obj in k.objs && Suits(k.objs[x.obj], x.op)
    ensures KeepsActs(k, LoopOn(k, x, outer, t1, t2))
  {
    if Obstructed(k.objs[x.obj], x.op) { BlockKeeps(k, x, outer, t1, t2); } else { CompleteKeeps(k, x); }
  }

  lemma LoggedKeeps(k: Kernel, e: Entry)
    ensures KeepsActs(k, Logged(k, e))
  {
    SameQueueKeeps(k, Logged(k, e));
  }

  lemma StartKeeps(k: Kernel, x: Xfer, outer: int, t0: int, t1: int, t2: int, r: Kernel)
    requires k.cur in k.procs && x.obj in k.objs && Suits(k.objs[x.obj], x.op)
    requires outer == t0 + x.timeout && r == StartXfer(k, x, t0, t1, t2)
    ensures KeepsActs(k, r)
  {
    if Obstructed(k.objs[x.obj], x.op) && x.timeout == 0 {
      LoggedKeeps(k, Failed(x.obj, NotAvailable));
    } else {
      LoopKeeps(k, x, outer, t1, t2);
    }
  }

  lemma ResumeKeeps(k: Kernel, t: int, t1: int, t2: int)
    requires Enabled(k, Continue(t, t1, t2)) && k.procs[k.cur].pc.Retry?
    ensures KeepsActs(k, Resume(k, t, t1, t2))
  {
    var pc := k.procs[k.cur].pc;
    var k1 := SetCur(ContextFreed(k, pc), Not, User);
    SameQueueKeeps(k, k1);
    if pc.x.timeout == INFINITE || t < pc.inner {
      LoopKeeps(k1, pc.x, pc.outer, t1, t2);
      KeepsThen(k, k1, LoopOn(k1, pc.x, pc.outer, t1, t2));
    } else {
      SameQueueKeeps(k, Resume(k, t, t1, t2));
    }
  }

  /** The last thing many calls do. */
  lemma GivesUpKeeps(k: Kernel, m: Kernel, roundRobin: bool)
    requires KeepsActs(k, m) && m.cur in m.procs
    ensures KeepsActs(k, GiveUpAfter(m, roundRobin))
  {
    CurKeeps(m, Yes(Fresh(roundRobin)), m.procs[m.cur].pc);
    KeepsThen(k, m, GiveUpAfter(m, roundRobin));
  }

  lemma SuspendSelfKeeps(k: Kernel, timeout: int, t: int)
    requires k.cur in k.procs
    ensures KeepsActs(k, DoSuspendSelf(k, timeout, t))
  {
    var q := k.procs[k.cur];
    if !q.Periodic() && timeout != 0 && timeout < INFINITE {
      ArmedKeeps(k, k.cur, Asleep(q, Waiting, SuspendedTimed, SuspendCheck(t + timeout)), t + timeout, SuspendTimeout(k.cur));
    } else {
      SameQueueKeeps(k, DoSuspendSelf(k, timeout, t));
    }
  }

  lemma SuspendKeeps(k: Kernel, p: Pid)
    requires k.cur in k.procs
    ensures KeepsActs(k, DoSuspend(k, p))
  {
    SameQueueKeeps(k, k);
    if Local(k, p) {
      var m := WithProc(k, p, Put(k.procs[p], Waiting, Suspended));
      ProcKeeps(k, p, Put(k.procs[p], Waiting, Suspended));
      GivesUpKeeps(k, m, false);
    }
  }

  /** Freeing the timer of p, and putting p into another state. */
  lemma FreedKeeps(k: Kernel, k1: Kernel, p: Pid, state: PState, reason: Reason)
    requires k.cur in k.procs && p in k.procs && (k1 == k || k1 == EventFree(k, p))
    ensures p in k1.procs && k1.cur in k1.procs && KeepsActs(k, GiveUpAfter(WithProc(k1, p, Put(k1.procs[p], state, reason)), false))
  {
    FreeKeeps(k, p);
    SameQueueKeeps(k, k);
    ProcKeeps(k1, p, Put(k1.procs[p], state, reason));
    KeepsThen(k, k1, WithProc(k1, p, Put(k1.procs[p], state, reason)));
    GivesUpKeeps(k, WithProc(k1, p, Put(k1.procs[p], state, reason)), false);
  }

  lemma ResumeProcKeeps(k: Kernel, p: Pid)
    requires k.cur in k.procs
    ensures KeepsActs(k, DoResume(k, p))
  {
    SameQueueKeeps(k, k);
    if Local(k, p) {
      var q := k.procs[p];
      FreedKeeps(k, if q.state == Waiting && q.reason == SuspendedTimed then EventFree(k, p) else k, p, Ready, q.reason);
    }
  }

  lemma StopKeeps(k: Kernel, p: Pid)
    requires k.cur in k.procs
    ensures KeepsActs(k, DoStop(k, p))
  {
    SameQueueKeeps(k, k);
    if Local(k, p) { FreedKeeps(k, EventFree(k, p), p, Dormant, k.procs[p].reason); }
  }

  lemma DelayedKeeps(k: Kernel, p: Pid, delay: int, t: int)
    requires p in k.procs && k.cur in k.procs
    ensures KeepsActs(k, StartAperiodic(k, p, delay, t))
  {
    var q := k.procs[p];
    if delay == 0 {
      ProcKeeps(k, p, Reset(q, Ready, q.reason));
      GivesUpKeeps(k, WithProc(k, p, Reset(q, Ready, q.reason)), false);
    } else {
      ArmedKeeps(k, p, Reset(q, Waiting, DelayedStarted), t + delay, DelayedStart(p));
      GivesUpKeeps(k, EventAlloc(WithProc(k, p, Reset(q, Waiting, DelayedStarted)), t + delay, DelayedStart(p)), false);
    }
  }

  lemma StartProcKeeps(k: Kernel, p: Pid, delay: int, t: int)
    requires k.cur in k.procs
    ensures KeepsActs(k, DoStart(k, p, delay, t))
  {
    SameQueueKeeps(k, k);
    if Local(k, p) {
      var k1 := k.(held := k.held - {p});
      SameQueueKeeps(k, k1);
      DormantKeeps(k1, p, delay, t);
      KeepsThen(k, k1, StartDormant(k1, p, delay, t));
    }
  }

  lemma DormantKeeps(k: Kernel, p: Pid, delay: int, t: int)
    requires p in k.procs && k.cur in k.procs
    ensures KeepsActs(k, StartDormant(k, p, delay, t))
  {
    if InNormalMode(k) && !k.procs[p].Periodic() {
      DelayedKeeps(k, p, delay, t);
    } else {
      SameQueueKeeps(k, StartDormant(k, p, delay, t));
    }
  }

  lemma WaitKeeps(k: Kernel, delay: int, t: int)
    requires k.cur in k.procs
    ensures KeepsActs(k, DoWait(k, delay, t))
  {
    if delay != INFINITE && delay != 0 {
      ArmedKeeps(k, k.cur, Asleep(k.procs[k.cur], Waiting, TimedWait, k.procs[k.cur].pc), t + delay, TimedWaitTimeout(k.cur));
    } else {
      SameQueueKeeps(k, DoWait(k, delay, t));
    }
  }

  lemma DisplayKeeps(k: Kernel, id: nat, msg: Msg)
    requires k.cur in k.procs
    ensures KeepsActs(k, DoDisplay(k, id, msg))
  {
    SameQueueKeeps(k, k);
    if HasBoard(k, id) && 0 < |msg| <= k.objs[k.handles[(BoardKind, id)].obj].maxSize {
      var o := k.handles[(BoardKind, id)].obj;
      var b := k.objs[o];
      var k1 := Logged(WithObj(k, o, Board(b.maxSize, msg, true, b.waiting)), Shown(o, msg));
      var k2 := WakeAll(k1, o);
      SameQueueKeeps(k, k1);
      WakeAllActs(k1, o);
      KeepsThen(k, k1, k2);
      if k2.cur in k2.procs {
        CurKeeps(k2, Yes(Fresh(false)), User);
        KeepsThen(k, k2, SetCur(k2, Yes(Fresh(false)), User));
      }
    }
  }

  lemma ClearKeeps(k: Kernel, h: Handle)
    requires h.obj in k.objs && k.objs[h.obj].Ring?
    ensures KeepsActs(k, Clear(k, h))
  {
    var k1 := if |k.objs[h.obj].msgs| == k.objs[h.obj].cap then WakeOne(k, h.obj, h.disc) else k;
    SameQueueKeeps(k, k);
    WakeOneActs(k, h.obj, h.disc);
    WakeOneKeeps(k, h.obj, h.disc);
    SameQueueKeeps(k1, Clear(k, h));
    KeepsThen(k, k1, Clear(k, h));
  }

  lemma SetModeKeeps(k: Kernel, op: OpMode)
    requires k.cur in k.procs
    ensures KeepsActs(k, DoSetMode(k, op))
  {
    SameQueueKeeps(k, DoSetMode(k, op));
  }

  /** A send, receive or read. */
  lemma AskedKeeps(k: Kernel, c: Call, t0: int, t1: int, t2: int, r: Kernel)
    requires k.cur in k.procs && (c.SendTo? || c.ReceiveFrom? || c.ReadBoard?) && KindsOk(k) && r == Syscall(k, c, t0, t1, t2)
    ensures KeepsActs(k, r)
  {
    var a := Asked(k, c);
    if a.Some? {
      StartKeeps(k, a.value, t0 + a.value.timeout, t0, t1, t2, r);
    } else {
      SameQueueKeeps(k, r);
    }
  }

  lemma CommKeeps(k: Kernel, c: Call, t0: int, t1: int, t2: int, r: Kernel)
    requires k.cur in k.procs && KindsOk(k) && Communicates(c) && r == Syscall(k, c, t0, t1, t2)
    ensures KeepsActs(k, r)
  {
    match c
    case Display(id, msg) => DisplayKeeps(k, id, msg);
    case ClearBoard(id) => ClearBoardKeeps(k, id);
    case ClearPort(id) =>
      SameQueueKeeps(k, k);
      if ReceiveCheck(k, PortKind, id) == NoError && k.objs[k.handles[(PortKind, id)].obj].Ring? { ClearKeeps(k, k.handles[(PortKind, id)]); }
    case _ => AskedKeeps(k, c, t0, t1, t2, r);
  }

  lemma ClearBoardKeeps(k: Kernel, id: nat)
    ensures KeepsActs(k, DoClearBoard(k, id))
  {
    SameQueueKeeps(k, DoClearBoard(k, id));
  }

  lemma PriorityKeeps(k: Kernel, p: Pid, pri: nat)
    requires k.cur in k.procs
    ensures KeepsActs(k, DoSetPriority(k, p, pri))
  {
    SameQueueKeeps(k, k);
    if Local(k, p) {
      var m := WithProc(k, p, k.procs[p].(pri := pri));
      ProcKeeps(k, p, k.procs[p].(pri := pri));
      GivesUpKeeps(k, m, false);
    }
  }

  lemma ProcessKeeps(k: Kernel, c: Call, t0: int, t1: int, t2: int, r: Kernel)
    requires k.cur in k.procs && !Communicates(c) && r == Syscall(k, c, t0, t1, t2)
    ensures KeepsActs(k, r)
  {
    match c
    case SuspendSelf(timeout) => SuspendSelfKeeps(k, timeout, t0);
    case Suspend(p) => SuspendKeeps(k, p);
    case ResumeProc(p) => ResumeProcKeeps(k, p);
    case StopSelf => ProcKeeps(k, k.cur, Asleep(k.procs[k.cur], Dormant, k.procs[k.cur].reason, k.procs[k.cur].pc));
    case Stop(p) => StopKeeps(k, p);
    case Start(p, delay) => StartProcKeeps(k, p, delay, t0);
    case Wait(delay) => WaitKeeps(k, delay, t0);
    case SetPriority(p, pri) => PriorityKeeps(k, p, pri);
    case SetMode(op) => SetModeKeeps(k, op);
  }

  lemma ScanKeeps(k: Kernel, s: Search)
    requires Searching(k)
    ensures KeepsActs(k, WithSearch(k, s))
  {
    SameQueueKeeps(k, WithSearch(k, s));
  }

  lemma PreemptKeeps(k: Kernel, roundRobin: bool)
    ensures KeepsActs(k, Preempt(k, roundRobin)) && Preempt(k, roundRobin).queue == k.queue
  {
    SameQueueKeeps(k, Preempt(k, roundRobin));
  }

  lemma RunKeeps(k: Kernel, p: Pid)
    requires p in k.procs
    ensures KeepsActs(k, Run(k, p))
  {
    SameQueueKeeps(k, Run(k, p));
  }

  lemma ElectionKeeps(k: Kernel, s: Step, r: Kernel)
    requires Enabled(k, s) && (s.Scan? || s.GiveUp? || s.Dispatch?) && r == Next(k, s)
    ensures KeepsActs(k, r)
  {
    if s.Scan? {
      ScanKeeps(k, Scanned(k, SearchOf(k)));
    } else if s.Dispatch? {
      RunKeeps(k, k.mode.search.best.value);
    } else {
      var k1 := SetCur(k, Not, k.procs[k.cur].pc);
      CurKeeps(k, Not, k.procs[k.cur].pc);
      PreemptKeeps(k1, SearchOf(k).above.Some?);
      KeepsThen(k, k1, Preempt(k1, SearchOf(k).above.Some?));
    }
  }

  /** Every step but an interrupt keeps partition and activations. */
  lemma StepKeepsActs(k: Kernel, s: Step, r: Kernel)
    requires Inv(k) && Enabled(k, s) && !s.Interrupt? && r == Next(k, s)
    ensures KeepsActs(k, r)
  {
    match s
    case Enter(c, t0, t1, t2) =>
      KindsSound(k);
      if Communicates(c) { CommKeeps(k, c, t0, t1, t2, r); } else { ProcessKeeps(k, c, t0, t1, t2, r); }
    case Continue(t, t1, t2) =>
      if k.procs[k.cur].pc.SuspendCheck? { CurKeeps(k, Not, User); } else { ResumeKeeps(k, t, t1, t2); }
    case _ => ElectionKeeps(k, s, r);
  }

  lemma SoundTimers(k: Kernel)
    requires Inv(k)
    ensures TimersOnly(k)
  {
    forall p, e | p in k.procs && e in k.queue && k.procs[p].timer == Some(e.id) ensures e.what != PartitionActivate {
      assert ProcOk(k, p);
      var f :| f in k.queue && f.id == e.id && Target(k, f.what) == Some(p);
      SameId(k.queue, k.nextEvent, e, f);
    }
  }

  // ----- the timer interrupt, fed by the schedule -----

  /** The kernel holds the activations of the schedule, and runs its partition. */
  ghost predicate Coupled(k: Kernel, s: Sched) {
    s.mods != [] && Activations(k.queue) == s.times && s.part == Some(k.part)
  }

  /** The partition and the next activation that an interrupt brings are those of sched_global. */
  ghost predicate FedBy(s: Sched, step: Step) {
    step.Interrupt? && s.mods != [] ==>
      var g := Global(s); g.part == Some(step.nextPart) && step.nextTime == s.mods[g.cursor.value].prevAct + s.major
  }

  lemma {:induction false} FireDueQueue(k: Kernel, t: int)
    ensures var m := FireDue(k, t);
            && |Due(k.queue, t)| <= |k.queue| && m.queue == k.queue[|Due(k.queue, t)|..]
            && m.part == k.part && m.nextEvent == k.nextEvent
    decreases |k.queue|
  {
    if k.queue != [] && k.queue[0].time <= t {
      FireDueQueue(Fire(k), t);
      assert Due(k.queue, t) == [k.queue[0]] + Due(k.queue[1..], t);
    }
  }

  lemma {:induction false} ActivationIn(q: seq<Event>)
    ensures HasActivation(q) <==> Activations(q) != []
  {
    if q != [] {
      assert q == [q[0]] + q[1..];
      ActivationIn(q[1..]);
      if q[0].what == PartitionActivate { assert q[0] in q; }
      if HasActivation(q[1..]) {
        var e :| e in q[1..] && e.what == PartitionActivate;
        assert e in q;
      }
    }
  }

  /** The queue behind the loop over due events. */
  lemma FiredActs(k: Kernel, s: Sched, t: int, k1: Kernel)
    requires Inv(k) && Coupled(k, s) && k1 == FireDue(k, t)
    ensures k1.part == k.part && QueueOk(k1.queue, k1.nextEvent)
    ensures var d := DueTimes(s.times, t);
            Activations(k1.queue) == s.times[|d|..] && (HasActivation(Due(k.queue, t)) <==> d != [])
  {
    FireDueQueue(k, t);
    ActivationsDue(k.queue, k.nextEvent, t);
    ActivationIn(Due(k.queue, t));
    SuffixOk(k.queue, k.nextEvent, |Due(k.queue, t)|);
  }

  lemma {:induction false} SuffixOk(q: seq<Event>, next: nat, n: nat)
    requires QueueOk(q, next) && n <= |q|
    ensures QueueOk(q[n..], next)
  {
    if n > 0 {
      SuffixOk(q[1..], next, n - 1);
      assert q[n..] == q[1..][n - 1..];
    }
  }

  /** sched_global. */
  lemma SwitchCouples(k1: Kernel, s: Sched, g: Sched, k2: Kernel, nextPart: Part, nextTime: int)
    requires QueueOk(k1.queue, k1.nextEvent) && s.mods != [] && Activations(k1.queue) == s.times && g == Global(s)
    requires g.part == Some(nextPart) && nextTime == s.mods[g.cursor.value].prevAct + s.major
    requires k2 == EventAlloc(k1, nextTime, PartitionActivate).(part := nextPart)
    ensures Coupled(k2, g)
  {
    ActivationsInsert(k1.queue, k1.nextEvent, Event(k1.nextEvent, nextTime, PartitionActivate));
  }

  lemma TickCouples(k: Kernel, s: Sched, step: Step, r: Kernel)
    requires Inv(k) && Coupled(k, s) && step.Interrupt? && FedBy(s, step) && r == Tick(k, step.t, step.nextPart, step.nextTime)
    ensures Coupled(r, Schedule.Interrupt(s, step.t))
  {
    var due, d := Due(k.queue, step.t), DueTimes(s.times, step.t);
    var k1 := FireDue(k, step.t);
    FiredActs(k, s, step.t, k1);
    if d != [] {
      var rest := s.(times := s.times[|d|..]);
      var k2 := EventAlloc(k1, step.nextTime, PartitionActivate).(part := step.nextPart);
      SwitchCouples(k1, rest, Global(rest), k2, step.nextPart, step.nextTime);
      PreemptKeeps(k2, false);
    } else {
      PreemptKeeps(k1, false);
    }
  }

  // ----- runs -----

  /** The times of the interrupts of a run. */
  function Ticks(steps: seq<Step>): seq<int>
    decreases |steps|
  {
    if steps == [] then []
    else Ticks(steps[..|steps| - 1]) + if steps[|steps| - 1].Interrupt? then [steps[|steps| - 1].t] else []
  }

  /** Every interrupt of the run is fed by the schedule as it stands then. */
  ghost predicate AllFed(s: Sched, steps: seq<Step>)
    requires s.mods != []
    decreases |steps|
  {
    steps == [] || (AllFed(s, steps[..|steps| - 1]) && FedBy(Interrupts(s, Ticks(steps[..|steps| - 1])), steps[|steps| - 1]))
  }

  lemma MoreTicks(s: Sched, ts: seq<int>, t: int)
    requires s.mods != [] && Interrupts(s, ts).mods != []
    ensures Interrupts(s, ts + [t]) == Schedule.Interrupt(Interrupts(s, ts), t)
  {
    assert (ts + [t])[..|ts + [t]| - 1] == ts;
  }

  /** Over every run the kernel and the schedule stay together. */
  lemma {:induction false} RunCouples(k: Kernel, s: Sched, steps: seq<Step>)
    requires Boot(k) && Runs(k, steps) && AlwaysFitting(k, steps) && Coupled(k, s) && AllFed(s, steps)
    ensures Coupled(Final(k, steps), Interrupts(s, Ticks(steps)))
    decreases |steps|
  {
    if steps != [] {
      var before, step := steps[..|steps| - 1], steps[|steps| - 1];
      RunSound(k, before);
      RunCouples(k, s, before);
      StepCouples(Final(k, before), s, Ticks(before), step, Final(k, steps));
    }
  }

  lemma StepCouples(b: Kernel, s: Sched, ts: seq<int>, step: Step, r: Kernel)
    requires s.mods != [] && Inv(b) && Enabled(b, step) && r == Next(b, step)
    requires Coupled(b, Interrupts(s, ts)) && FedBy(Interrupts(s, ts), step)
    ensures Coupled(r, Interrupts(s, ts + if step.Interrupt? then [step.t] else []))
  {
    if step.Interrupt? {
      MoreTicks(s, ts, step.t);
      TickCouples(b, Interrupts(s, ts), step, r);
    } else {
      assert ts + [] == ts;
      SoundTimers(b);
      StepKeepsActs(b, step, r);
    }
  }

  /** The kernel when the schedule has come to its j-th activation. */
  ghost predicate InTurn(r: Kernel, s: Sched, now: int, j: nat)
    requires s.mods != []
  {
    var n, next := |s.mods|, Cycled(|s.mods|, j + 1);
    r.part == s.mods[Cycled(n, j).0].part && Activations(r.queue) == Upcoming(s.mods, now, s.major, next.0, next.1, n)
  }

  lemma TurnedIn(r: Kernel, s: Sched, m: Sched, now: int, j: nat)
    requires s.mods != [] && Turned(s, m, now, j) && Coupled(r, m) && m.major == s.major
    ensures InTurn(r, s, now, j)
  {
    SameUpcoming(s, m, now, j);
  }

  lemma RunsOwnPart(k: Kernel, steps: seq<Step>, r: Kernel)
    requires Boot(k) && Runs(k, steps) && AlwaysFitting(k, steps) && r == Final(k, steps)
    ensures r.mode == Executing ==> r.cur in r.procs && r.procs[r.cur].part == r.part
  {
    RunSound(k, steps);
    if r.mode == Executing { OneRunning(k, steps, r.cur); }
  }

  /** Partitions take turns: in a run fed by a schedule in phase, in which no interrupt finds two activations due, the
      current partition is that of the module the cycle has come to, the process that executes belongs to it, and the
      activations queued are those of the next round. */
  lemma PartitionsCycle(k: Kernel, s: Sched, now: int, steps: seq<Step>)
    requires Boot(k) && Runs(k, steps) && AlwaysFitting(k, steps) && Coupled(k, s) && AllFed(s, steps)
    requires Turned(s, s, now, 0) && Punctual(s, Ticks(steps))
    ensures var r, j := Final(k, steps), Fired(s, Ticks(steps));
            && InTurn(r, s, now, j)
            && (r.mode == Executing ==> r.cur in r.procs && r.procs[r.cur].part == s.mods[Cycled(|s.mods|, j).0].part)
  {
    var ts, r := Ticks(steps), Final(k, steps);
    RunCouples(k, s, steps);
    PhaseForever(s, now, ts);
    SameMajor(s, ts);
    TurnedIn(r, s, Interrupts(s, ts), now, Fired(s, ts));
    RunsOwnPart(k, steps, r);
  }

  /** And only then: if an interrupt has found two activations due, the kernel holds fewer activations than there are
      modules, and is out of turn. */
  lemma CycleExactly(k: Kernel, s: Sched, now: int, steps: seq<Step>)
    requires Boot(k) && Runs(k, steps) && AlwaysFitting(k, steps) && Coupled(k, s) && AllFed(s, steps) && Turned(s, s, now, 0)
    ensures var r, ts := Final(k, steps), Ticks(steps);
            && (InTurn(r, s, now, Fired(s, ts)) <==> Punctual(s, ts))
            && (|Activations(r.queue)| == |s.mods| <==> Punctual(s, ts))
  {
    RunCouples(k, s, steps);
    RunLeaves(s, Ticks(steps));
    if Punctual(s, Ticks(steps)) { PartitionsCycle(k, s, now, steps); }
  }

  lemma {:induction false} SameMajor(s: Sched, ts: seq<int>)
    requires s.mods != []
    ensures Interrupts(s, ts).major == s.major
    decreases |ts|
  {
    if ts != [] { SameMajor(s, ts[..|ts| - 1]); }
  }

  lemma SameUpcoming(s: Sched, r: Sched, now: int, j: nat)
    requires s.mods != [] && Turned(s, r, now, j) && r.major == s.major
    ensures var next := Cycled(|s.mods|, j + 1); r.times == Upcoming(s.mods, now, s.major, next.0, next.1, |s.mods|)
  {
    var next := Cycled(|s.mods|, j + 1);
    SameOffsets(s.mods, r.mods, now, s.major, next.0, next.1, |s.mods|);
  }

  /** The system behind sched_launch and the first switch is coupled to its schedule, in phase: the queue holds the
      activations of the launch and the one of that switch. */
  lemma LaunchCouples(c: Kernel, s: Sched, l: Sched, now: int)
    requires s.mods != [] && Ordered(s.mods, s.major) && s.cursor.None? && s.times == []
    requires l == s.(mods := L.Launched(s.mods, now), times := L.LaunchTimes(s.mods, now, [], |s.mods|))
    requires Configured(c) && Activations(c.queue) == Global(l).times && c.part == s.mods[0].part
    ensures Boot(Launched(c)) && Coupled(Launched(c), Global(l)) && Turned(Global(l), Global(l), now, 0)
  {
    L.LaunchInPhase(s, now);
    var r := Launched(c);
    assert r.queue == c.queue && r.part == c.part;
  }
}
