/** The kernel on one hart as its code keeps it, with fields, loops and list updates; each method does what the
    corresponding step of KernelSpec says. */
module KernelHart {
  import opened Common
  import opened TimerQueue
  import opened Election
  import opened KernelSpec
  import opened KernelInv
  import opened KernelFifo
  import opened KernelRuns
  import opened KernelSearch
  import opened KernelSteps
  import opened KernelServing
  import opened KernelServices
  import opened KernelTicks

  /** What a round of a blocking loop returns, or nothing if the caller is put to sleep. */
  function RoundOutcome(b: Obj, x: Xfer, outer: int, t1: int): Option<Ret> {
    if !Obstructed(b, x.op) then Some(NoError)
    else if x.timeout != INFINITE && outer <= t1 then Some(TimedOut)
    else None
  }

  /** What a transfer returns when it begins. */
  function Outcome(b: Obj, x: Xfer, outer: int, t1: int): Option<Ret> {
    if Obstructed(b, x.op) && x.timeout == 0 then Some(NotAvailable) else RoundOutcome(b, x, outer, t1)
  }

  class Hart {
    var procs: map<Pid, Proc>
    const order: map<Part, seq<Pid>>
    var opMode: map<Part, OpMode>
    var objs: map<ObjId, Obj>
    const handles: map<(Kind, nat), Handle>
    const events: Queue
    var nextEvent: nat
    var ctxs: map<CtxId, Ctx>
    var nextCtx: CtxId
    var cur: Pid
    var part: Part
    var mode: Mode
    var held: map<Pid, seq<Search>>
    ghost var log: seq<Entry>

    ghost function Snapshot(): Kernel
      reads this, events
    {
      Kernel(procs, order, opMode, objs, handles, events.entries, nextEvent, ctxs, nextCtx, cur, part, mode, held, log)
    }

    /** The system from its configuration on, through the first dispatch. */
    constructor (procs: map<Pid, Proc>, order: map<Part, seq<Pid>>, opMode: map<Part, OpMode>, objs: map<ObjId, Obj>,
                 handles: map<(Kind, nat), Handle>, activations: seq<Event>, next: nat, part: Part)
      requires var c := Kernel(procs, order, opMode, objs, handles, activations, next, map[], 0, 0, part, Electing(Fresh(false)), map[], []);
               Elected(c, false).Some? && Elected(c, false).value in procs
      ensures fresh(events)
      ensures Snapshot() == Launched(Kernel(procs, order, opMode, objs, handles, activations, next, map[], 0, 0, part,
                                            Electing(Fresh(false)), map[], []))
    {
      var ps := if part in order then order[part] else [];
      var first := ElectBest(Candidates(procs, ps));
      var p := ps[first.value];
      this.procs, this.order, this.opMode, this.objs, this.handles := procs[p := procs[p].(state := Running)], order, opMode, objs, handles;
      this.nextEvent, this.ctxs, this.nextCtx := next, map[], 0;
      this.cur, this.part, this.mode, this.held, this.log := p, part, Executing, map[], [];
      this.events := new Queue(activations);
    }

    // ----- time events -----

    method TargetOf(w: What) returns (p: Option<Pid>)
      ensures p == Target(Snapshot(), w)
    {
      match w
      case PartitionActivate => p := None;
      case SuspendTimeout(q) => p := Some(q);
      case DelayedStart(q) => p := Some(q);
      case TimedWaitTimeout(q) => p := Some(q);
      case BlockTimeout(_, c) => p := if c in ctxs then Some(ctxs[c].proc) else None;
    }

    method TimeEventAlloc(time: int, w: What)
      modifies this, events
      ensures Snapshot() == EventAlloc(old(Snapshot()), time, w)
    {
      var p := TargetOf(w);
      events.Enqueue(Event(nextEvent, time, w));
      if p.Some? && p.value in procs {
        procs := procs[p.value := procs[p.value].(timer := Some(nextEvent))];
      }
      nextEvent := nextEvent + 1;
    }

    method TimeEventFree(p: Pid)
      requires p in procs && procs[p].timer.Some?
      modifies this, events
      ensures Snapshot() == EventFree(old(Snapshot()), p)
    {
      events.Unlink(procs[p].timer.value);
      procs := procs[p := procs[p].(timer := None)];
    }

    // ----- wait lists -----

    /** The head of the list, or its first process of maximal priority. */
    method WakeUpWaiting(o: ObjId, disc: Disc) returns (w: Option<Pid>)
      requires o in objs && forall p :: p in objs[o].waiting ==> p in procs
      ensures w == Woken(Snapshot(), objs[o].waiting, disc)
      ensures objs[o].waiting == [] ==> w == None
      ensures objs[o].waiting != [] ==> exists i :: Foremost(procs, objs[o].waiting, disc, i) && w == Some(objs[o].waiting[i])
    {
      var ps := objs[o].waiting;
      WokenExactly(Snapshot(), ps, disc);
      if ps == [] { return None; }
      if disc == Fifo { return Some(ps[0]); }
      var cs := WaitingCandidates(procs, ps);
      var best := ElectBest(cs);
      BestIsFirstMaximal(cs, |cs|);
      assert cs[0].mayRun;
      w := Some(ps[best.value]);
    }

    method WakeUp(o: ObjId, p: Pid)
      requires o in objs && p in procs
      modifies this, events
      ensures Snapshot() == Wake(old(Snapshot()), o, p)
    {
      objs := objs[o := objs[o].Awaited(Without(objs[o].waiting, p))];
      if procs[p].reason.BlockedTimed? && procs[p].timer.Some? {
        TimeEventFree(p);
      }
      procs := procs[p := procs[p].(state := Ready)];
    }

    method WakeUpOne(o: ObjId, disc: Disc) returns (woke: bool)
      requires o in objs && forall p :: p in objs[o].waiting ==> p in procs
      modifies this, events
      ensures Snapshot() == WakeOne(old(Snapshot()), o, disc) && woke == (old(objs)[o].waiting != [])
    {
      var w := WakeUpWaiting(o, disc);
      woke := w.Some?;
      if woke {
        WakeUp(o, w.value);
      }
    }

    /** The wake-up loop of DISPLAY_BLACKBOARD. */
    method WakeUpAll(o: ObjId)
      requires o in objs && Distinct(objs[o].waiting) && forall p :: p in objs[o].waiting ==> p in procs
      modifies this, events
      ensures Snapshot() == WakeAll(old(Snapshot()), o)
    {
      while objs[o].waiting != []
        invariant o in objs && Distinct(objs[o].waiting) && forall p :: p in objs[o].waiting ==> p in procs
        invariant WakeAll(Snapshot(), o) == WakeAll(old(Snapshot()), o)
        decreases |objs[o].waiting|
      {
        WithoutMembers(objs[o].waiting, objs[o].waiting[0]);
        WakeUp(o, objs[o].waiting[0]);
      }
    }

    // ----- transfers -----

    method SetCurrent(giving: Giving, pc: Pc)
      requires cur in procs
      modifies this
      ensures Snapshot() == SetCur(old(Snapshot()), giving, pc)
    {
      procs := procs[cur := procs[cur].(giving := giving, pc := pc)];
    }

    ghost predicate Waiters(o: ObjId)
      reads this
    {
      cur in procs && o in objs && forall p :: p in objs[o].waiting ==> p in procs
    }

    /** The transfer itself, and the wake-up behind it. */
    method Perform(x: Xfer) returns (got: Msg)
      requires Waiters(x.obj) && Suits(objs[x.obj], x.op) && !Obstructed(objs[x.obj], x.op)
      modifies this, events
      ensures Snapshot() == Complete(old(Snapshot()), x)
      ensures x.op.Recv? ==> got == old(objs)[x.obj].msgs[0]
      ensures x.op.Read? ==> got == old(objs)[x.obj].shown
    {
      var b := objs[x.obj];
      match x.op
      case Send(m) =>
        got := [];
        objs := objs[x.obj := b.(msgs := b.msgs + [m])];
        log := log + [Sent(x.obj, m)];
        WakeAfter(x);
      case Recv =>
        got := b.msgs[0];
        objs := objs[x.obj := b.(msgs := b.msgs[1..])];
        log := log + [Received(x.obj, got)];
        WakeAfter(x);
      case Read =>
        got := b.shown;
        log := log + [Seen(x.obj, got)];
        SetCurrent(Not, User);
    }

    method WakeAfter(x: Xfer)
      requires Waiters(x.obj)
      modifies this, events
      ensures Snapshot() == AfterTransfer(old(Snapshot()), x)
    {
      var woke := WakeUpOne(x.obj, x.disc);
      SetCurrent(if woke && objs[x.obj].KindOf() == BufferKind then Yes(Fresh(false)) else Not, User);
    }

    /** One round of a blocking loop. */
    method BlockOn(x: Xfer, outer: int, t1: int, t2: int)
      requires cur in procs && x.obj in objs && (x.timeout == INFINITE || outer > t1)
      modifies this, events
      ensures Snapshot() == Block(old(Snapshot()), x, outer, t1, t2)
    {
      var kind := objs[x.obj].KindOf();
      var listing := objs[x.obj].Awaited(objs[x.obj].waiting + [cur]);
      if x.timeout == INFINITE {
        procs := procs[cur := BlockedProc(procs[cur], kind, x, outer, outer, None)];
      } else {
        var inner := InnerDeadline(kind, x, outer, t2);
        var c := nextCtx;
        ctxs, nextCtx := ctxs[c := Ctx(cur, x.obj)], c + 1;
        procs := procs[cur := BlockedProc(procs[cur], kind, x, outer, inner, Some(c))];
        TimeEventAlloc(inner, BlockTimeout(kind, c));
      }
      objs := objs[x.obj := listing];
    }

    method TimeOut(o: ObjId)
      requires cur in procs
      modifies this
      ensures Snapshot() == SetCur(Logged(old(Snapshot()), Failed(o, TimedOut)), Not, User)
    {
      log := log + [Failed(o, TimedOut)];
      SetCurrent(Not, User);
    }

    method Round(x: Xfer, outer: int, t1: int, t2: int) returns (ret: Option<Ret>)
      requires Waiters(x.obj) && Suits(objs[x.obj], x.op)
      modifies this, events
      ensures Snapshot() == LoopOn(old(Snapshot()), x, outer, t1, t2)
      ensures ret == RoundOutcome(old(objs)[x.obj], x, outer, t1)
    {
      if !Obstructed(objs[x.obj], x.op) {
        var _ := Perform(x);
        return Some(NoError);
      } else if x.timeout != INFINITE && outer <= t1 {
        TimeOut(x.obj);
        return Some(TimedOut);
      }
      BlockOn(x, outer, t1, t2);
      return None;
    }

    method Start(x: Xfer, t0: int, t1: int, t2: int) returns (ret: Option<Ret>)
      requires Waiters(x.obj) && Suits(objs[x.obj], x.op)
      modifies this, events
      ensures Snapshot() == StartXfer(old(Snapshot()), x, t0, t1, t2)
      ensures ret == Outcome(old(objs)[x.obj], x, t0 + x.timeout, t1)
    {
      if Obstructed(objs[x.obj], x.op) && x.timeout == 0 {
        log := log + [Failed(x.obj, NotAvailable)];
        return Some(NotAvailable);
      }
      ret := Round(x, t0 + x.timeout, t1, t2);
    }

    /** Behind the give-up of a blocking loop. */
    method Retried(t: int, t1: int, t2: int) returns (ret: Option<Ret>)
      requires cur in procs && procs[cur].pc.Retry? && Waiters(procs[cur].pc.x.obj)
      requires Suits(objs[procs[cur].pc.x.obj], procs[cur].pc.x.op)
      modifies this, events
      ensures Snapshot() == Resume(old(Snapshot()), t, t1, t2)
      ensures var pc := old(procs)[old(cur)].pc;
              ret == if pc.x.timeout != INFINITE && t >= pc.inner then Some(TimedOut)
                     else RoundOutcome(old(objs)[pc.x.obj], pc.x, pc.outer, t1)
    {
      var pc := procs[cur].pc;
      if pc.x.timeout != INFINITE {
        if pc.ctx.Some? { ctxs := ctxs - {pc.ctx.value}; }
        if t >= pc.inner {
          TimeOut(pc.x.obj);
          return Some(TimedOut);
        }
      }
      SetCurrent(Not, User);
      ret := Round(pc.x, pc.outer, t1, t2);
    }

    // ----- communication services -----

    method ResolvesTo(kind: Kind, id: nat) returns (found: bool)
      ensures found == Resolves(Snapshot(), kind, id)
    {
      found := (kind, id) in handles && handles[(kind, id)].part == part && handles[(kind, id)].obj in objs
        && objs[handles[(kind, id)].obj].KindOf() == kind;
    }

    method SendMessage(kind: Kind, id: nat, msg: Msg, timeout: int, t0: int, t1: int, t2: int) returns (ret: Option<Ret>)
      requires kind != BoardKind && Inv(Snapshot())
      modifies this, events
      ensures Snapshot() == DoSend(old(Snapshot()), kind, id, msg, timeout, t0, t1, t2)
      ensures ret == if (kind, id) !in handles || handles[(kind, id)].part != old(part) || handles[(kind, id)].obj !in old(objs)
                        || old(objs)[handles[(kind, id)].obj].KindOf() != kind then Some(InvalidParam)
                     else var h := handles[(kind, id)];
                          if |msg| > old(objs)[h.obj].maxSize then Some(if kind == PortKind then InvalidConfig else InvalidParam)
                          else if |msg| == 0 then Some(InvalidParam)
                          else if kind == PortKind && h.dir != Source then Some(InvalidMode)
                          else Outcome(old(objs)[h.obj], Xfer(h.obj, Send(msg), h.disc, timeout), t0 + timeout, t1)
    {
      var found := ResolvesTo(kind, id);
      if !found { return Some(InvalidParam); }
      var h := handles[(kind, id)];
      if |msg| > objs[h.obj].maxSize { return Some(if kind == PortKind then InvalidConfig else InvalidParam); }
      if |msg| == 0 { return Some(InvalidParam); }
      if kind == PortKind && h.dir != Source { return Some(InvalidMode); }
      assert ObjOk(Snapshot(), h.obj);
      ret := Start(Xfer(h.obj, Send(msg), h.disc, timeout), t0, t1, t2);
    }

    method ReceiveMessage(kind: Kind, id: nat, timeout: int, t0: int, t1: int, t2: int) returns (ret: Option<Ret>)
      requires kind != BoardKind && Inv(Snapshot())
      modifies this, events
      ensures Snapshot() == DoReceive(old(Snapshot()), kind, id, timeout, t0, t1, t2)
      ensures ret == if (kind, id) !in handles || handles[(kind, id)].part != old(part) || handles[(kind, id)].obj !in old(objs)
                        || old(objs)[handles[(kind, id)].obj].KindOf() != kind then Some(InvalidParam)
                     else var h := handles[(kind, id)];
                          if kind == PortKind && h.dir != Destination then Some(InvalidMode)
                          else Outcome(old(objs)[h.obj], Xfer(h.obj, Recv, h.disc, timeout), t0 + timeout, t1)
    {
      var found := ResolvesTo(kind, id);
      if !found { return Some(InvalidParam); }
      var h := handles[(kind, id)];
      if kind == PortKind && h.dir != Destination { return Some(InvalidMode); }
      assert ObjOk(Snapshot(), h.obj);
      ret := Start(Xfer(h.obj, Recv, h.disc, timeout), t0, t1, t2);
    }

    method ClearQueuingPort(id: nat) returns (ret: Ret)
      requires Inv(Snapshot())
      modifies this, events
      ensures Snapshot() == Syscall(old(Snapshot()), ClearPort(id), 0, 0, 0)
      ensures ret == ReceiveCheck(old(Snapshot()), PortKind, id)
    {
      var found := ResolvesTo(PortKind, id);
      if !found { return InvalidParam; }
      var h := handles[(PortKind, id)];
      if h.dir != Destination { return InvalidMode; }
      assert ObjOk(Snapshot(), h.obj);
      ClearRing(h);
      return NoError;
    }

    method ClearRing(h: Handle)
      requires Waiters(h.obj) && objs[h.obj].Ring?
      modifies this, events
      ensures Snapshot() == Clear(old(Snapshot()), h)
    {
      WakeOneKeeps(Snapshot(), h.obj, h.disc);
      if |objs[h.obj].msgs| == objs[h.obj].cap {
        var _ := WakeUpOne(h.obj, h.disc);
      }
      objs := objs[h.obj := objs[h.obj].(msgs := [])];
      log := log + [Cleared(h.obj)];
    }

    method DisplayBlackboard(id: nat, msg: Msg) returns (ret: Ret)
      requires Inv(Snapshot())
      modifies this, events
      ensures Snapshot() == DoDisplay(old(Snapshot()), id, msg)
      ensures ret == if HasBoard(old(Snapshot()), id) && 0 < |msg| <= old(objs)[handles[(BoardKind, id)].obj].maxSize then NoError
                     else InvalidParam
    {
      var found := ResolvesTo(BoardKind, id);
      if !found || !objs[handles[(BoardKind, id)].obj].Board? { return InvalidParam; }
      var o := handles[(BoardKind, id)].obj;
      var b := objs[o];
      if |msg| > b.maxSize || |msg| == 0 { return InvalidParam; }
      assert ObjOk(Snapshot(), o);
      objs := objs[o := Board(b.maxSize, msg, true, b.waiting)];
      log := log + [Shown(o, msg)];
      ghost var before := Snapshot();
      WakeUpAll(o);
      WakeAllKeepsCur(before, o);
      SetCurrent(Yes(Fresh(false)), User);
      return NoError;
    }

    method ReadBlackboard(id: nat, timeout: int, t0: int, t1: int, t2: int) returns (ret: Option<Ret>)
      requires Inv(Snapshot())
      modifies this, events
      ensures Snapshot() == DoRead(old(Snapshot()), id, timeout, t0, t1, t2)
      ensures ret == if !HasBoard(old(Snapshot()), id) then Some(InvalidParam)
                     else var h := handles[(BoardKind, id)];
                          Outcome(old(objs)[h.obj], Xfer(h.obj, Read, h.disc, timeout), t0 + timeout, t1)
    {
      var found := ResolvesTo(BoardKind, id);
      if !found || !objs[handles[(BoardKind, id)].obj].Board? { return Some(InvalidParam); }
      var h := handles[(BoardKind, id)];
      assert ObjOk(Snapshot(), h.obj);
      ret := Start(Xfer(h.obj, Read, h.disc, timeout), t0, t1, t2);
    }

    method ClearBlackboard(id: nat) returns (ret: Ret)
      modifies this
      ensures Snapshot() == DoClearBoard(old(Snapshot()), id)
      ensures ret == if HasBoard(old(Snapshot()), id) then NoError else InvalidParam
    {
      var found := ResolvesTo(BoardKind, id);
      if !found || !objs[handles[(BoardKind, id)].obj].Board? { return InvalidParam; }
      var o := handles[(BoardKind, id)].obj;
      var b := objs[o];
      objs := objs[o := Board(b.maxSize, b.shown, false, b.waiting)];
      log := log + [Cleared(o)];
      return NoError;
    }

    // ----- process services -----

    method SuspendSelf(timeout: int, t: int) returns (ret: Ret)
      requires cur in procs
      modifies this, events
      ensures Snapshot() == DoSuspendSelf(old(Snapshot()), timeout, t)
      ensures ret == if old(procs)[old(cur)].Periodic() then InvalidMode else NoError
      ensures ret == NoError && timeout != 0 && timeout < INFINITE ==>
                && cur in procs && procs[cur].state == Waiting && procs[cur].reason == SuspendedTimed && procs[cur].timer == Some(old(nextEvent))
                && Event(old(nextEvent), t + timeout, SuspendTimeout(cur)) in events.entries && procs[cur].pc == SuspendCheck(t + timeout)
      ensures ret == NoError && timeout >= INFINITE ==> cur in procs && procs[cur].state == Waiting && procs[cur].reason == Suspended
    {
      if !procs[cur].Periodic() && timeout != 0 && timeout < INFINITE {
        SuspendTimedIs(Snapshot(), timeout, t, t + timeout, DoSuspendSelf(Snapshot(), timeout, t));
      }
      var q := procs[cur];
      if q.Periodic() { return InvalidMode; }
      if timeout == 0 { return NoError; }
      if timeout < INFINITE {
        procs := procs[cur := Asleep(q, Waiting, SuspendedTimed, SuspendCheck(t + timeout))];
        TimeEventAlloc(t + timeout, SuspendTimeout(cur));
      } else {
        procs := procs[cur := Asleep(q, Waiting, Suspended, q.pc)];
      }
      return NoError;
    }

    /** SUSPEND_SELF behind its give-up. */
    method SuspendEnds(t: int) returns (ret: Ret)
      requires cur in procs && procs[cur].pc.SuspendCheck?
      modifies this
      ensures Snapshot() == SetCur(old(Snapshot()), Not, User)
      ensures ret == SuspendResult(old(procs)[old(cur)].pc, t)
      ensures ret == TimedOut <==> t >= old(procs)[old(cur)].pc.wakeup
    {
      ret := if t >= procs[cur].pc.wakeup then TimedOut else NoError;
      SetCurrent(Not, User);
    }

    method LocalProc(p: Pid) returns (found: bool)
      ensures found == Local(Snapshot(), p)
    {
      found := p in procs && procs[p].part == part;
    }

    method GivesUp(roundRobin: bool)
      requires cur in procs
      modifies this
      ensures Snapshot() == GiveUpAfter(old(Snapshot()), roundRobin)
    {
      SetCurrent(Yes(Fresh(roundRobin)), procs[cur].pc);
    }

    method SuspendProcess(p: Pid) returns (ret: Ret)
      requires cur in procs
      modifies this
      ensures Snapshot() == DoSuspend(old(Snapshot()), p)
      ensures ret == if !Local(old(Snapshot()), p) then InvalidParam
                     else if old(procs)[p].state in {Dormant, Faulted} || old(procs)[p].Periodic() then InvalidMode
                     else if old(procs)[p].state == Waiting then NoAction else NoError
      ensures ret == NoError ==> p in procs && procs[p].state == Waiting && procs[p].reason == Suspended
      ensures ret != NoError ==> Snapshot() == old(Snapshot())
    {
      var found := LocalProc(p);
      if !found { return InvalidParam; }
      var q := procs[p];
      if q.state == Dormant || q.state == Faulted || q.Periodic() { return InvalidMode; }
      if q.state == Waiting { return NoAction; }
      procs := procs[p := Put(q, Waiting, Suspended)];
      GivesUp(false);
      return NoError;
    }

    method ResumeProcess(p: Pid) returns (ret: Ret)
      requires Inv(Snapshot())
      modifies this, events
      ensures Snapshot() == DoResume(old(Snapshot()), p)
      ensures ret == if !Local(old(Snapshot()), p) then InvalidParam
                     else if old(procs)[p].state == Faulted then NoError
                     else if old(procs)[p].state == Dormant || old(procs)[p].Periodic() then InvalidMode
                     else if old(procs)[p].state == Waiting && old(procs)[p].reason in {Suspended, SuspendedTimed} then NoError else NoAction
      ensures ret == NoError ==> p in procs && procs[p].state == Ready && procs[p].timer.None?
      ensures ret != NoError ==> Snapshot() == old(Snapshot())
    {
      var found := LocalProc(p);
      if !found { return InvalidParam; }
      var q := procs[p];
      if q.state == Dormant || (q.Periodic() && q.state != Faulted) { return InvalidMode; }
      if !(q.state == Waiting && (q.reason == Suspended || q.reason == SuspendedTimed)) && q.state != Faulted { return NoAction; }
      assert ProcOk(Snapshot(), p);
      if q.state == Waiting && q.reason == SuspendedTimed {
        TimeEventFree(p);
      }
      procs := procs[p := Put(procs[p], Ready, q.reason)];
      GivesUp(false);
      return NoError;
    }

    method StopProcess(p: Pid) returns (ret: Ret)
      requires cur in procs
      modifies this, events
      ensures Snapshot() == DoStop(old(Snapshot()), p)
      ensures ret == if !Local(old(Snapshot()), p) then InvalidParam else if old(procs)[p].state == Dormant then NoAction else NoError
      ensures ret == NoError ==> p in procs && procs[p].state == Dormant && procs[p].timer.None?
      ensures ret != NoError ==> Snapshot() == old(Snapshot())
    {
      var found := LocalProc(p);
      if !found { return InvalidParam; }
      if procs[p].state == Dormant { return NoAction; }
      if procs[p].timer.Some? {
        TimeEventFree(p);
      } else {
        assert procs[p := procs[p].(timer := None)] == procs;
      }
      procs := procs[p := Put(procs[p], Dormant, procs[p].reason)];
      GivesUp(false);
      return NoError;
    }

    method DelayedStart(p: Pid, delay: int, t: int) returns (ret: Ret)
      requires cur in procs
      modifies this, events
      ensures Snapshot() == DoStart(old(Snapshot()), p, delay, t)
      ensures ret == if !Local(old(Snapshot()), p) then InvalidParam else if old(procs)[p].state != Dormant then NoAction
                     else if delay == INFINITE || (old(procs)[p].Periodic() && delay >= old(procs)[p].period) then InvalidParam else NoError
      ensures ret == NoError ==> p in procs && (procs[p].state == Ready
                                  || (procs[p].state == Waiting && (procs[p].reason.DelayedStarted? || procs[p].reason.PreviousStarted?)))
      ensures ret == NoError ==> p in procs && procs[p].pri == procs[p].basePri == old(procs)[p].basePri
      ensures ret == NoError && delay != 0 && !old(procs)[p].Periodic() && part in opMode && opMode[part] == Normal ==>
                p in procs && procs[p].timer == Some(old(nextEvent)) && Event(old(nextEvent), t + delay, TimerQueue.DelayedStart(p)) in events.entries
      ensures ret != NoError ==> Snapshot() == old(Snapshot())
    {
      var found := LocalProc(p);
      if !found { return InvalidParam; }
      var q := procs[p];
      if q.state != Dormant { return NoAction; }
      if delay == INFINITE || (q.Periodic() && delay >= q.period) { return InvalidParam; }
      held := held - {p};
      ResetForStart(p, delay, t);
      return NoError;
    }

    /** The start itself, of a dormant process. */
    method ResetForStart(p: Pid, delay: int, t: int)
      requires cur in procs && p in procs
      modifies this, events
      ensures Snapshot() == StartDormant(old(Snapshot()), p, delay, t)
      ensures p in procs && (procs[p].state == Ready
                || (procs[p].state == Waiting && (procs[p].reason.DelayedStarted? || procs[p].reason.PreviousStarted?)))
      ensures procs[p].pri == procs[p].basePri == old(procs)[p].basePri
      ensures delay != 0 && !old(procs)[p].Periodic() && part in opMode && opMode[part] == Normal ==>
                procs[p].timer == Some(old(nextEvent)) && Event(old(nextEvent), t + delay, TimerQueue.DelayedStart(p)) in events.entries
    {
      var q := procs[p];
      var normal := part in opMode && opMode[part] == Normal;
      if !normal || q.Periodic() {
        procs := procs[p := Reset(q, Waiting, if normal then DelayedStarted else PreviousStarted)];
      } else {
        if delay == 0 {
          procs := procs[p := Reset(q, Ready, q.reason)];
        } else {
          procs := procs[p := Reset(q, Waiting, KernelSpec.DelayedStarted)];
          InsertMembers(events.entries, Event(nextEvent, t + delay, TimerQueue.DelayedStart(p)));
          TimeEventAlloc(t + delay, TimerQueue.DelayedStart(p));
        }
        GivesUp(false);
      }
    }

    method TimedWait(delay: int, t: int) returns (ret: Ret)
      requires cur in procs
      modifies this, events
      ensures Snapshot() == DoWait(old(Snapshot()), delay, t)
      ensures ret == if delay == INFINITE then InvalidParam else NoError
      ensures ret == NoError && delay != 0 ==>
                && cur in procs && procs[cur].state == Waiting && procs[cur].reason == KernelSpec.TimedWait && procs[cur].timer == Some(old(nextEvent))
                && Event(old(nextEvent), t + delay, TimedWaitTimeout(cur)) in events.entries
    {
      WaitIs(Snapshot(), delay, t, t + delay, DoWait(Snapshot(), delay, t));
      if delay == INFINITE { return InvalidParam; }
      if delay == 0 {
        GivesUp(true);
      } else {
        procs := procs[cur := Asleep(procs[cur], Waiting, KernelSpec.TimedWait, procs[cur].pc)];
        TimeEventAlloc(t + delay, TimedWaitTimeout(cur));
      }
      return NoError;
    }

    method StopSelf()
      requires cur in procs
      modifies this
      ensures Snapshot() == Syscall(old(Snapshot()), Call.StopSelf, 0, 0, 0)
    {
      var q := procs[cur];
      procs := procs[cur := Asleep(q, Dormant, q.reason, q.pc)];
    }

    method SetPriority(p: Pid, pri: nat) returns (ret: Ret)
      requires cur in procs
      modifies this
      ensures Snapshot() == DoSetPriority(old(Snapshot()), p, pri)
      ensures ret == if !Local(old(Snapshot()), p) then InvalidParam else if old(procs)[p].state == Dormant then InvalidMode else NoError
      ensures ret == NoError ==> p in procs && procs[p].pri == pri && procs[p].state == old(procs)[p].state
      ensures ret != NoError ==> Snapshot() == old(Snapshot())
    {
      var found := LocalProc(p);
      if !found { return InvalidParam; }
      if procs[p].state == Dormant { return InvalidMode; }
      procs := procs[p := procs[p].(pri := pri)];
      GivesUp(false);
      return NoError;
    }

    /** The loop of SET_PARTITION_MODE(NORMAL) over the partition's processes. */
    method ReleaseStarted()
      modifies this`procs
      ensures Snapshot() == Released(old(Snapshot()))
    {
      var ps := if part in order then order[part] else [];
      ghost var k := Snapshot();
      for i := 0 to |ps|
        invariant procs.Keys == k.procs.Keys
        invariant forall p :: p in procs ==> procs[p] == if p in ps[..i] && Releasing(k, p) then k.procs[p].(state := Ready) else k.procs[p]
      {
        var p := ps[i];
        assert p in ps;
        if p in procs && procs[p].state == Waiting && procs[p].reason == PreviousStarted {
          procs := procs[p := procs[p].(state := Ready)];
        }
        assert ps[..i + 1] == ps[..i] + [p];
      }
      assert ps[..|ps|] == ps;
      assert procs == Released(k).procs;
    }

    /** A number that is no mode is refused only after it has become the mode of the partition. */
    method SetPartitionMode(op: OpMode) returns (ret: Ret)
      requires cur in procs
      modifies this
      ensures Snapshot() == DoSetMode(old(Snapshot()), op)
      ensures var was := if part in old(opMode) then old(opMode)[part] else ColdStart;
              ret == if op == Normal && was == Normal then NoAction else if op == WarmStart && was == ColdStart then InvalidMode
                     else if op.Unknown? then InvalidParam else NoError
      ensures ret == NoAction || ret == InvalidMode ==> Snapshot() == old(Snapshot())
      ensures ret == InvalidParam ==> Snapshot() == old(Snapshot()).(opMode := old(opMode)[part := op]) && opMode[part].Unknown?
      ensures ret == NoError && op != Normal ==> Snapshot() == old(Snapshot()).(opMode := old(opMode)[part := op])
      ensures ret == NoError && op == Normal && !StartedBefore(old(Snapshot()), cur) ==> WentNormal(old(Snapshot()), Snapshot())
    {
      if op == Normal && Settable(Snapshot(), op) && !StartedBefore(Snapshot(), cur) { SetNormalIs(Snapshot(), DoSetMode(Snapshot(), op)); }
      var was := if part in opMode then opMode[part] else ColdStart;
      if op == Normal && was == Normal { return NoAction; }
      if op == WarmStart && was == ColdStart { return InvalidMode; }
      opMode := opMode[part := op];
      match op {
        case Normal =>
          ReleaseStarted();
          StopSelf();
        case Unknown(_) => return InvalidParam;
        case _ =>
      }
      return NoError;
    }

    // ----- scheduling -----

    /** One turn of the loops of sched_elect_next_proc. */
    method SearchOn(s: Search) returns (r: Search)
      ensures r == Scanned(Snapshot(), s)
    {
      if s.Fresh? {
        if s.roundRobin && cur in procs {
          var q := procs[cur];
          return Looking(Some(q.pri), if q.part in order then Behind(order[q.part], cur) else [], true, None);
        }
        return Looking(None, if part in order then order[part] else [], false, None);
      } else if s.todo != [] {
        var c := CandidateOf(procs, s.todo[0]);
        if s.above.Some? {
          if c.mayRun && c.pri >= s.above.value {
            return Looking(s.above, [], false, Some(s.todo[0]));
          }
        } else if c.mayRun && (s.best.None? || c.pri > CandidateOf(procs, s.best.value).pri) {
          return Looking(s.above, s.todo[1..], s.again, Some(s.todo[0]));
        }
        return Looking(s.above, s.todo[1..], s.again, s.best);
      } else if s.again {
        return Looking(s.above, if part in order then order[part] else [], false, s.best);
      }
      r := if s.best.None? then Fresh(s.above.Some?) else s;
    }

    method Scan()
      requires Enabled(Snapshot(), Step.Scan)
      modifies this
      ensures Snapshot() == Next(old(Snapshot()), Step.Scan)
    {
      if mode.Electing? {
        var s := SearchOn(mode.search);
        mode := Electing(s);
      } else {
        var s := SearchOn(procs[cur].giving.search);
        SetCurrent(Yes(s), procs[cur].pc);
      }
    }

    /** The search that began in k and has got as far as s goes on by one turn. */
    method Turn(ghost k: Kernel, s: Search) returns (r: Search)
      requires Searching(k) && Snapshot() == WithSearch(k, s) && !s.Done()
      modifies this
      ensures r == Scanned(k, s) && Snapshot() == WithSearch(k, r)
    {
      ScanOn(k, Snapshot(), s);
      Scan();
      r := UnderWay();
    }

    method UnderWay() returns (s: Search)
      requires Searching(Snapshot())
      ensures s == SearchOf(Snapshot())
    {
      s := if mode.Electing? then mode.search else procs[cur].giving.search;
    }

    /** sched_elect_next_proc from its beginning to its end, when nothing interrupts it. */
    method ElectNextProc(roundRobin: bool) returns (p: Option<Pid>)
      requires Searching(Snapshot()) && SearchOf(Snapshot()) == Fresh(roundRobin)
      requires roundRobin ==> cur in procs && procs[cur].part == part && cur in Members(Snapshot())
      modifies this
      ensures Snapshot() == Searched(old(Snapshot())) && p == Elected(old(Snapshot()), roundRobin)
    {
      ghost var k := Snapshot();
      SweepElects(k, roundRobin);
      SearchSame(k);
      var s := Fresh(roundRobin);
      while !s.Done()
        invariant Snapshot() == WithSearch(k, s) && Sweep(k, s) == Sweep(k, Fresh(roundRobin))
        decreases Rounds(s), Ahead(s)
      {
        ScanNears(k, s);
        s := Turn(k, s);
      }
      p := s.best;
    }

    /** sched_proc up to its search. */
    method Reschedule(roundRobin: bool)
      modifies this
      ensures Snapshot() == Preempt(old(Snapshot()), roundRobin)
    {
      if mode.Electing? {
        held := held[cur := [mode.search] + if cur in held then held[cur] else []];
      }
      if cur in procs && procs[cur].state == Running {
        procs := procs[cur := procs[cur].(state := Ready)];
      }
      mode := Electing(Fresh(roundRobin));
    }

    /** The end of sched_proc, and proc_run: the top of the process's stack goes on. */
    method Dispatch()
      requires Enabled(Snapshot(), Step.Dispatch)
      modifies this
      ensures Snapshot() == Next(old(Snapshot()), Step.Dispatch)
    {
      var p := mode.search.best.value;
      cur := p;
      procs := procs[p := procs[p].(state := Running)];
      if p !in held || held[p] == [] {
        mode := Executing;
      } else {
        mode, held := Electing(held[p][0]), held[p := held[p][1..]];
      }
    }

    /** sched_proc_give_up behind its search. */
    method GiveUp()
      requires Enabled(Snapshot(), Step.GiveUp)
      modifies this
      ensures Snapshot() == Next(old(Snapshot()), Step.GiveUp)
    {
      var s := procs[cur].giving.search;
      SetCurrent(Not, procs[cur].pc);
      if s.best != Some(cur) {
        Reschedule(s.above.Some?);
      }
    }

    // ----- the timer interrupt -----

    method FireFirst() returns (p: Option<Pid>)
      requires events.entries != []
      modifies this, events
      ensures Snapshot() == Fire(old(Snapshot())) && p == Target(old(Snapshot()), old(events.entries)[0].what)
    {
      var e := events.entries[0];
      p := TargetOf(e.what);
      if p.Some? && p.value in procs {
        procs := procs[p.value := procs[p.value].(state := Ready, timer := None)];
      }
      if e.what.BlockTimeout? && e.what.ctx in ctxs && ctxs[e.what.ctx].obj in objs {
        var c := ctxs[e.what.ctx];
        objs := objs[c.obj := objs[c.obj].Awaited(Without(objs[c.obj].waiting, c.proc))];
      }
      events.entries := events.entries[1..];
    }

    /** The loop over due events. */
    method FireAllDue(t: int) returns (switchPart: bool, local: bool)
      modifies this, events
      ensures Snapshot() == FireDue(old(Snapshot()), t)
      ensures switchPart == HasActivation(Due(old(events.entries), t))
      ensures local == HasLocal(old(Snapshot()), Due(old(events.entries), t))
    {
      switchPart, local := false, false;
      ghost var k0, past := Snapshot(), [];
      while events.entries != [] && events.entries[0].time <= t
        invariant Fired(k0, Snapshot(), t, past, switchPart, local)
        decreases |events.entries|
      {
        ghost var k := Snapshot();
        var activation := events.entries[0].what == PartitionActivate;
        var p := FireFirst();
        FireOne(k0, k, Snapshot(), t, past, switchPart, local);
        switchPart := switchPart || activation;
        local := local || (p.Some? && p.value in procs && procs[p.value].part == part);
        past := past + [k.queue[0]];
      }
      assert past == Due(k0.queue, t);
    }

    /** The timer interrupt: fire what is due, and reschedule as the fired events ask for. */
    method TimeEventAction(t: int, nextPart: Part, nextTime: int)
      modifies this, events
      ensures Snapshot() == Tick(old(Snapshot()), t, nextPart, nextTime)
      ensures Good(old(Snapshot())) ==> Ticked(old(Snapshot()), t, nextPart, Snapshot())
    {
      if Good(Snapshot()) { TickExactly(Snapshot(), t, nextPart, nextTime, Tick(Snapshot(), t, nextPart, nextTime)); }
      var switchPart, local := FireAllDue(t);
      if switchPart {
        TimeEventAlloc(nextTime, PartitionActivate);
        part := nextPart;
        Reschedule(false);
      } else if local {
        Reschedule(false);
      }
    }
  }

  /** The same processes, in the same partitions, behind the same events. */
  ghost predicate SameOwners(k: Kernel, m: Kernel) {
    && m.ctxs == k.ctxs && m.part == k.part && m.procs.Keys == k.procs.Keys
    && forall p :: p in k.procs ==> m.procs[p].part == k.procs[p].part
  }

  /** The loop over due events has fired those of past. */
  ghost predicate Fired(k0: Kernel, k: Kernel, t: int, past: seq<Event>, switchPart: bool, local: bool) {
    && FireDue(k0, t) == FireDue(k, t) && Due(k0.queue, t) == past + Due(k.queue, t)
    && SameOwners(k0, k)
    && switchPart == HasActivation(past) && local == HasLocal(k0, past)
  }

  lemma FireOne(k0: Kernel, k: Kernel, m: Kernel, t: int, past: seq<Event>, switchPart: bool, local: bool)
    requires Fired(k0, k, t, past, switchPart, local) && k.queue != [] && k.queue[0].time <= t && m == Fire(k)
    ensures var e := k.queue[0];
            var p := Target(k, e.what);
            Fired(k0, m, t, past + [e], switchPart || e.what == PartitionActivate,
                  local || (p.Some? && p.value in m.procs && m.procs[p.value].part == m.part))
  {
    var e := k.queue[0];
    FireOwners(k0, k, e);
    MoreDue(k0, past, e);
    assert past + Due(k.queue, t) == past + [e] + Due(m.queue, t);
  }

  lemma FireOwners(k0: Kernel, k: Kernel, e: Event)
    requires SameOwners(k0, k) && k.queue != []
    ensures SameOwners(k0, Fire(k)) && OfPart(k, e) == OfPart(k0, e) && Target(k, e.what) == Target(k0, e.what)
  {
  }

  lemma MoreDue(k: Kernel, past: seq<Event>, e: Event)
    ensures HasActivation(past + [e]) == (HasActivation(past) || e.what == PartitionActivate)
    ensures HasLocal(k, past + [e]) == (HasLocal(k, past) || OfPart(k, e))
  {
    assert e in past + [e];
    if HasActivation(past) {
      var f :| f in past && f.what == PartitionActivate;
      assert f in past + [e];
    }
    if HasLocal(k, past) {
      var f :| f in past && OfPart(k, f);
      assert f in past + [e];
    }
  }
}
