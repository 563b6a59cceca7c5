/** Every system call, election and timer interrupt keeps the kernel invariant. */
module KernelCalls {
  import opened Common
  import opened TimerQueue
  import opened Election
  import opened KernelSpec
  import opened KernelInv
  import opened KernelSteps

  // ----- process services -----

  /** The state in which a call starts. */
  ghost predicate Calling(k: Kernel) {
    Good(k) && k.mode == Executing && k.procs[k.cur].giving == Not && k.procs[k.cur].pc == User
  }

  /** A process other than the current one settles in a state without list or timer. */
  lemma OtherSettles(k: Kernel, p: Pid, q: Proc)
    requires Calling(k) && p in k.procs && p != k.cur && k.procs[p].timer.None? && !OnList(k.procs[p])
    requires q.timer.None? && !OnList(q) && !(q.state == Waiting && Timed(q)) && PcOk(k, p, q.pc)
    requires q.state != Running && q.part == k.procs[p].part
    ensures Calling(WithProc(k, p, q))
  {
    Exempt(k, p);
    Settle(k, p, q);
  }

  lemma GiveUpNext(k: Kernel, roundRobin: bool, r: Kernel)
    requires Calling(k) && r == GiveUpAfter(k, roundRobin)
    ensures Good(r)
  {
    ReturnGood(k, Yes(Fresh(roundRobin)), k.procs[k.cur].pc);
  }

  /** The current process stops running and gives up, without a timer. */
  lemma CurSettles(k: Kernel, q: Proc)
    requires Calling(k) && q.timer.None? && !OnList(q) && !(q.state == Waiting && Timed(q)) && PcOk(k, k.cur, q.pc)
    requires (q.state == Waiting || q.state == Dormant) && GivesUp(q.giving) && q.part == k.procs[k.cur].part
    ensures Good(WithProc(k, k.cur, q))
  {
    CurIdle(k);
    Settle(k, k.cur, q);
  }

  /** The current process waits on its own timer. */
  lemma CurArms(k: Kernel, q: Proc, time: int, w: What, r: Kernel)
    requires Calling(k) && q.timer.None? && PcOk(k, k.cur, q.pc) && q.part == k.procs[k.cur].part
    requires w != PartitionActivate && Target(k, w) == Some(k.cur) && Matches(w, time, q)
    requires q.state == Waiting && Timed(q) && !OnList(q) && GivesUp(q.giving)
    requires r == EventAlloc(WithProc(k, k.cur, q), time, w)
    ensures Good(r)
  {
    CurIdle(k);
    AllocArms(k, r, k.cur, q, time, w);
    Arm(k, r, k.cur, q);
    BlockedGood(k, r);
  }

  lemma SuspendTimedGood(k: Kernel, timeout: int, t: int)
    requires Calling(k) && !k.procs[k.cur].Periodic() && timeout != 0 && timeout < INFINITE
    ensures Good(DoSuspendSelf(k, timeout, t))
  {
    assert ProcOk(k, k.cur);
    CurArms(k, Asleep(k.procs[k.cur], Waiting, SuspendedTimed, SuspendCheck(t + timeout)), t + timeout, SuspendTimeout(k.cur),
            DoSuspendSelf(k, timeout, t));
  }

  lemma SuspendSelfGood(k: Kernel, timeout: int, t: int)
    requires Calling(k)
    ensures Good(DoSuspendSelf(k, timeout, t))
  {
    var q := k.procs[k.cur];
    if !(q.Periodic() || timeout == 0) {
      if timeout < INFINITE {
        SuspendTimedGood(k, timeout, t);
      } else {
        assert ProcOk(k, k.cur);
        CurSettles(k, Asleep(q, Waiting, Suspended, q.pc));
      }
    }
  }

  lemma YieldGood(k: Kernel, t: int)
    requires Calling(k)
    ensures Good(DoWait(k, 0, t))
  {
    GiveUpNext(k, true, DoWait(k, 0, t));
  }

  lemma TimedWaitGood(k: Kernel, delay: int, t: int)
    requires Calling(k) && delay != 0 && delay != INFINITE
    ensures Good(DoWait(k, delay, t))
  {
    assert ProcOk(k, k.cur);
    CurArms(k, Asleep(k.procs[k.cur], Waiting, TimedWait, k.procs[k.cur].pc), t + delay, TimedWaitTimeout(k.cur), DoWait(k, delay, t));
  }

  lemma WaitGood(k: Kernel, delay: int, t: int)
    requires Calling(k)
    ensures Good(DoWait(k, delay, t))
  {
    if delay == 0 {
      YieldGood(k, t);
    } else if delay != INFINITE {
      TimedWaitGood(k, delay, t);
    }
  }

  lemma StopSelfGood(k: Kernel)
    requires Calling(k)
    ensures Good(WithProc(k, k.cur, Asleep(k.procs[k.cur], Dormant, k.procs[k.cur].reason, k.procs[k.cur].pc)))
  {
    assert ProcOk(k, k.cur);
    CurSettles(k, Asleep(k.procs[k.cur], Dormant, k.procs[k.cur].reason, k.procs[k.cur].pc));
  }

  lemma SuspendGood(k: Kernel, p: Pid)
    requires Calling(k)
    ensures Good(DoSuspend(k, p))
  {
    if Local(k, p) {
      var q := k.procs[p];
      assert ProcOk(k, p);
      if !(q.state == Dormant || q.state == Faulted || q.Periodic() || q.state == Waiting) {
        if p == k.cur {
          CurSettles(k, Asleep(q, Waiting, Suspended, q.pc));
          assert DoSuspend(k, p) == WithProc(k, p, Asleep(q, Waiting, Suspended, q.pc));
        } else {
          OtherSettles(k, p, Put(q, Waiting, Suspended));
          GiveUpNext(WithProc(k, p, Put(q, Waiting, Suspended)), false, DoSuspend(k, p));
        }
      }
    }
  }

  /** Freeing the timer of another process that is on no wait list, and settling it. */
  lemma OtherFrees(k: Kernel, p: Pid, state: PState)
    requires Calling(k) && p in k.procs && p != k.cur && !OnList(k.procs[p]) && (state == Ready || state == Dormant)
    ensures var k1 := EventFree(k, p); Calling(WithProc(k1, p, Put(k1.procs[p], state, k1.procs[p].reason)))
  {
    var k1 := EventFree(k, p);
    Freed(k, p);
    Detach(k, k1, p);
    assert ProcOk(k, p);
    Settle(k1, p, Put(k1.procs[p], state, k1.procs[p].reason));
    OtherFreesRun(k, k1, p, state);
  }

  lemma OtherFreesRun(k: Kernel, k1: Kernel, p: Pid, state: PState)
    requires Calling(k) && Untimed(k, k1, p) && p != k.cur && (state == Ready || state == Dormant)
    requires Inv(WithProc(k1, p, Put(k1.procs[p], state, k1.procs[p].reason)))
    ensures Calling(WithProc(k1, p, Put(k1.procs[p], state, k1.procs[p].reason)))
  {
  }

  lemma ResumeProcGood(k: Kernel, p: Pid)
    requires Calling(k)
    ensures Good(DoResume(k, p))
  {
    if Local(k, p) {
      var q := k.procs[p];
      assert ProcOk(k, p);
      var suspended := q.state == Waiting && (q.reason == Suspended || q.reason == SuspendedTimed);
      if !(q.state == Dormant || (q.Periodic() && q.state != Faulted) || (!suspended && q.state != Faulted)) {
        if q.timer.Some? {
          OtherFrees(k, p, Ready);
          var k1 := EventFree(k, p);
          GiveUpNext(WithProc(k1, p, Put(k1.procs[p], Ready, q.reason)), false, DoResume(k, p));
        } else {
          OtherSettles(k, p, Put(q, Ready, q.reason));
          GiveUpNext(WithProc(k, p, Put(q, Ready, q.reason)), false, DoResume(k, p));
        }
      }
    }
  }

  /** STOP leaves its process dormant for good. */
  lemma StopGood(k: Kernel, p: Pid)
    requires Calling(k) && StopsNoWaiter(k, Stop(p))
    ensures Good(DoStop(k, p))
    ensures Local(k, p) ==> Stopped(DoStop(k, p), p)
  {
    if Local(k, p) && k.procs[p].state != Dormant {
      assert ProcOk(k, p);
      if p == k.cur {
        StopOfCur(k);
      } else {
        StopOfOther(k, p);
      }
    }
    if Local(k, p) {
      MadeDormant(k, p);
      NothingPending(DoStop(k, p), p);
    }
  }

  /** STOP of a process on a wait list leaves it there; a later wake-up makes it ready though nobody started it. */
  lemma StopLeavesListed(k: Kernel, p: Pid)
    requires Calling(k) && Local(k, p) && OnList(k.procs[p])
    ensures var r, o := DoStop(k, p), k.procs[p].pc.x.obj;
            && p in r.procs && r.procs[p].state == Dormant && o in r.objs && p in r.objs[o].waiting
            && MayRun(Wake(r, o, p), p) && !Good(r)
  {
    assert ProcOk(k, p);
    var r, o := DoStop(k, p), k.procs[p].pc.x.obj;
    MadeDormant(k, p);
    StopKeepsLists(k, p);
    assert !ObjOk(r, o);
  }

  lemma StopKeepsLists(k: Kernel, p: Pid)
    requires k.cur in k.procs
    ensures DoStop(k, p).objs == k.objs
  {
  }

  /** So STOP keeps the invariant exactly if it hits no such process. */
  lemma StopExactly(k: Kernel, p: Pid)
    requires Calling(k)
    ensures Good(DoStop(k, p)) <==> StopsNoWaiter(k, Stop(p))
  {
    if StopsNoWaiter(k, Stop(p)) {
      StopGood(k, p);
    } else {
      StopLeavesListed(k, p);
    }
  }

  lemma MadeDormant(k: Kernel, p: Pid)
    requires Local(k, p) && k.cur in k.procs
    ensures p in DoStop(k, p).procs && DoStop(k, p).procs[p].state == Dormant
  {
  }

  lemma StopOfOther(k: Kernel, p: Pid)
    requires Calling(k) && Local(k, p) && k.procs[p].state != Dormant && p != k.cur && !OnList(k.procs[p])
    ensures Good(DoStop(k, p))
  {
    var k1 := EventFree(k, p);
    OtherFrees(k, p, Dormant);
    GiveUpNext(WithProc(k1, p, Put(k1.procs[p], Dormant, k1.procs[p].reason)), false, DoStop(k, p));
  }

  /** Dormant for good: nothing is queued or listed that could ready the process. */
  ghost predicate Stopped(k: Kernel, p: Pid) {
    && p in k.procs && k.procs[p].state == Dormant && k.procs[p].timer.None?
    && (forall e :: e in k.queue ==> Target(k, e.what) != Some(p))
    && (forall o :: o in k.objs ==> p !in k.objs[o].waiting)
  }

  lemma NothingPending(k: Kernel, p: Pid)
    requires Inv(k) && p in k.procs && k.procs[p].state == Dormant
    ensures Stopped(k, p)
  {
    assert ProcOk(k, p);
    Exempt(k, p);
  }

  lemma StopOfCur(k: Kernel)
    requires Calling(k) && k.procs[k.cur].part == k.part
    ensures Good(DoStop(k, k.cur))
  {
    assert ProcOk(k, k.cur);
    var q := k.procs[k.cur];
    CurSettles(k, Asleep(q, Dormant, q.reason, q.pc));
    assert q.timer.None?;
    assert EventFree(k, k.cur) == k by { assert k.procs[k.cur := q.(timer := None)] == k.procs; }
    assert DoStop(k, k.cur) == WithProc(k, k.cur, Asleep(q, Dormant, q.reason, q.pc));
  }

  lemma StartNow(k: Kernel, p: Pid, state: PState, reason: Reason)
    requires Calling(k) && p in k.procs && k.procs[p].state == Dormant
    requires state == Ready || (state == Waiting && (reason == PreviousStarted || (reason == DelayedStarted && k.procs[p].Periodic())))
    ensures Calling(WithProc(k, p, Reset(k.procs[p], state, reason)))
  {
    assert ProcOk(k, p);
    OtherSettles(k, p, Reset(k.procs[p], state, reason));
  }

  lemma StartLater(k: Kernel, p: Pid, time: int, m: Kernel)
    requires Calling(k) && p in k.procs && k.procs[p].state == Dormant && !k.procs[p].Periodic()
    requires m == EventAlloc(WithProc(k, p, Reset(k.procs[p], Waiting, DelayedStarted)), time, DelayedStart(p))
    ensures Calling(m)
  {
    assert ProcOk(k, p);
    OtherArms(k, p, Reset(k.procs[p], Waiting, DelayedStarted), time, DelayedStart(p), m);
  }

  lemma StartReadyGood(k: Kernel, p: Pid, t: int)
    requires Calling(k) && p in k.procs && k.procs[p].state == Dormant
    ensures Good(StartAperiodic(k, p, 0, t))
  {
    StartNow(k, p, Ready, k.procs[p].reason);
    GiveUpNext(WithProc(k, p, Reset(k.procs[p], Ready, k.procs[p].reason)), false, StartAperiodic(k, p, 0, t));
  }

  lemma StartLaterGood(k: Kernel, p: Pid, delay: int, t: int)
    requires Calling(k) && p in k.procs && k.procs[p].state == Dormant && !k.procs[p].Periodic() && delay != 0
    ensures Good(StartAperiodic(k, p, delay, t))
  {
    var m := EventAlloc(WithProc(k, p, Reset(k.procs[p], Waiting, DelayedStarted)), t + delay, DelayedStart(p));
    StartLater(k, p, t + delay, m);
    GiveUpNext(m, false, StartAperiodic(k, p, delay, t));
  }

  lemma StartGood(k: Kernel, p: Pid, delay: int, t: int)
    requires Calling(k)
    ensures Good(DoStart(k, p, delay, t))
  {
    if Local(k, p) && k.procs[p].state == Dormant && delay != INFINITE
       && !(k.procs[p].Periodic() && delay >= k.procs[p].period) {
      var k0 := k.(held := k.held - {p});
      Unrelated(k, k0);
      if !InNormalMode(k0) || k0.procs[p].Periodic() {
        StartNow(k0, p, Waiting, if InNormalMode(k0) then DelayedStarted else PreviousStarted);
      } else {
        StartAperiodicGood(k0, p, delay, t);
      }
    }
  }

  lemma StartAperiodicGood(k: Kernel, p: Pid, delay: int, t: int)
    requires Calling(k) && p in k.procs && k.procs[p].state == Dormant && !k.procs[p].Periodic()
    ensures Good(StartAperiodic(k, p, delay, t))
  {
    if delay == 0 {
      StartReadyGood(k, p, t);
    } else {
      StartLaterGood(k, p, delay, t);
    }
  }

  lemma OtherArms(k: Kernel, p: Pid, q: Proc, time: int, w: What, m: Kernel)
    requires Calling(k) && p in k.procs && p != k.cur && k.procs[p].timer.None? && !OnList(k.procs[p])
    requires q.timer.None? && PcOk(k, p, q.pc) && q.part == k.procs[p].part
    requires w != PartitionActivate && Target(k, w) == Some(p) && Matches(w, time, q)
    requires q.state == Waiting && Timed(q) && !OnList(q) && m == EventAlloc(WithProc(k, p, q), time, w)
    ensures Calling(m)
  {
    Exempt(k, p);
    AllocArms(k, m, p, q, time, w);
    Arm(k, m, p, q);
    OtherArmsRun(k, m, p, q);
  }

  lemma OtherArmsRun(k: Kernel, m: Kernel, p: Pid, q: Proc)
    requires Calling(k) && Inv(m) && Armed(k, m, p, q) && p != k.cur && q.state == Waiting
    ensures Calling(m)
  {
  }

  lemma SetPriorityGood(k: Kernel, p: Pid, pri: nat)
    requires Calling(k)
    ensures Good(DoSetPriority(k, p, pri))
  {
    if Local(k, p) && k.procs[p].state != Dormant {
      assert ProcOk(k, p);
      Adjust(k, p, k.procs[p].(pri := pri));
      GiveUpNext(WithProc(k, p, k.procs[p].(pri := pri)), false, DoSetPriority(k, p, pri));
    }
  }

  // ----- partition mode -----

  lemma ReleasedGood(k: Kernel)
    requires Calling(k)
    ensures Calling(Released(k))
    ensures var r := Released(k);
            && r.procs.Keys == k.procs.Keys
            && (forall p :: p in k.procs ==> r.procs[p] == k.procs[p].(state := r.procs[p].state))
            && (forall p :: p in k.procs && r.procs[p].state != k.procs[p].state <==> Releasing(k, p))
            && (forall p :: Releasing(k, p) ==> r.procs[p].state == Ready)
  {
    var r := Released(k);
    assert ProcOk(k, k.cur);
    forall e | e in r.queue ensures EventOk(r, e) { assert EventOk(k, e); }
    ReleasedProcs(k, r);
    ReleasedObjs(k, r);
  }

  lemma ReleasedProcs(k: Kernel, r: Kernel)
    requires Inv(k) && r == Released(k)
    ensures forall x :: x in r.procs ==> ProcOk(r, x)
  {
    forall x | x in r.procs ensures ProcOk(r, x) {
      assert ProcOk(k, x);
      if !Releasing(k, x) { KeepEvent(k, r, x); }
    }
  }

  lemma ReleasedObjs(k: Kernel, r: Kernel)
    requires Inv(k) && r == Released(k)
    ensures forall o :: o in r.objs ==> ObjOk(r, o)
  {
    forall o | o in r.objs ensures ObjOk(r, o) { assert ObjOk(k, o); }
  }

  lemma SetModeGood(k: Kernel, op: OpMode)
    requires Calling(k)
    ensures Good(DoSetMode(k, op))
  {
    var k1 := k.(opMode := k.opMode[k.part := op]);
    Unrelated(k, k1);
    var was := if k.part in k.opMode then k.opMode[k.part] else ColdStart;
    if op == Normal && was != Normal {
      ReleasedGood(k1);
      var k2 := Released(k1);
      StopSelfGood(k2);
    }
  }

  // ----- communication services -----

  lemma UnavailableGood(k: Kernel, x: Xfer, t0: int, t1: int, t2: int, r: Kernel)
    requires Calling(k) && x.obj in k.objs && Suits(k.objs[x.obj], x.op) && Obstructed(k.objs[x.obj], x.op) && x.timeout == 0
    requires r == StartXfer(k, x, t0, t1, t2)
    ensures Good(r)
  {
    LogGood(k, Failed(x.obj, NotAvailable));
  }

  lemma EntersLoop(k: Kernel, x: Xfer, outer: int, t0: int, t1: int, t2: int, r: Kernel)
    requires k.cur in k.procs && x.obj in k.objs && Suits(k.objs[x.obj], x.op) && !(Obstructed(k.objs[x.obj], x.op) && x.timeout == 0)
    requires outer == t0 + x.timeout && r == StartXfer(k, x, t0, t1, t2)
    ensures r == LoopOn(k, x, outer, t1, t2)
  {
  }

  lemma EnterLoopGood(k: Kernel, x: Xfer, outer: int, t0: int, t1: int, t2: int, r: Kernel)
    requires Calling(k) && x.obj in k.objs && Suits(k.objs[x.obj], x.op) && !(Obstructed(k.objs[x.obj], x.op) && x.timeout == 0)
    requires outer == t0 + x.timeout && r == StartXfer(k, x, t0, t1, t2)
    ensures Good(r)
  {
    EntersLoop(k, x, outer, t0, t1, t2, r);
    LoopOnGood(k, x, outer, t1, t2, r);
  }

  lemma StartXferGood(k: Kernel, x: Xfer, t0: int, t1: int, t2: int, r: Kernel)
    requires Calling(k) && x.obj in k.objs && Suits(k.objs[x.obj], x.op) && r == StartXfer(k, x, t0, t1, t2)
    ensures Good(r)
  {
    if Obstructed(k.objs[x.obj], x.op) && x.timeout == 0 {
      UnavailableGood(k, x, t0, t1, t2, r);
    } else {
      EnterLoopGood(k, x, t0 + x.timeout, t0, t1, t2, r);
    }
  }

  lemma SendGood(k: Kernel, kind: Kind, id: nat, msg: Msg, timeout: int, t0: int, t1: int, t2: int, r: Kernel)
    requires Calling(k) && r == DoSend(k, kind, id, msg, timeout, t0, t1, t2)
    ensures Good(r)
  {
    if SendCheck(k, kind, id, |msg|) == NoError {
      var h := k.handles[(kind, id)];
      StartXferGood(k, Xfer(h.obj, Send(msg), h.disc, timeout), t0, t1, t2, r);
    }
  }

  lemma ReceiveGood(k: Kernel, kind: Kind, id: nat, timeout: int, t0: int, t1: int, t2: int, r: Kernel)
    requires Calling(k) && r == DoReceive(k, kind, id, timeout, t0, t1, t2)
    ensures Good(r)
  {
    if ReceiveCheck(k, kind, id) == NoError {
      var h := k.handles[(kind, id)];
      StartXferGood(k, Xfer(h.obj, Recv, h.disc, timeout), t0, t1, t2, r);
    }
  }

  lemma ReadGood(k: Kernel, id: nat, timeout: int, t0: int, t1: int, t2: int, r: Kernel)
    requires Calling(k) && r == DoRead(k, id, timeout, t0, t1, t2)
    ensures Good(r)
  {
    if HasBoard(k, id) {
      var h := k.handles[(BoardKind, id)];
      StartXferGood(k, Xfer(h.obj, Read, h.disc, timeout), t0, t1, t2, r);
    }
  }

  lemma WakeAllGood(k: Kernel, o: ObjId)
    requires Calling(k) && o in k.objs
    ensures Calling(WakeAll(k, o))
  {
    assert ObjOk(k, o);
    WakeAllInv(k, o);
    WakeAllFrame(k, o);
    WakeAllRun(k, WakeAll(k, o), o);
  }

  lemma WakeAllRun(k: Kernel, r: Kernel, o: ObjId)
    requires Calling(k) && o in k.objs && ObjOk(k, o) && Inv(r) && AllWoken(k, r, o)
    ensures Calling(r)
  {
  }

  lemma DisplayGood(k: Kernel, id: nat, msg: Msg)
    requires Calling(k)
    ensures Good(DoDisplay(k, id, msg))
  {
    if HasBoard(k, id) && 0 < |msg| <= k.objs[k.handles[(BoardKind, id)].obj].maxSize {
      var o := k.handles[(BoardKind, id)].obj;
      var b := k.objs[o];
      var b1 := Board(b.maxSize, msg, true, b.waiting);
      SetContents(k, o, b1, Shown(o, msg));
      var k1 := Logged(WithObj(k, o, b1), Shown(o, msg));
      WakeAllGood(k1, o);
      GiveUpNext(WakeAll(k1, o), false, DoDisplay(k, id, msg));
    }
  }

  lemma ClearBoardGood(k: Kernel, id: nat)
    requires Calling(k)
    ensures Good(DoClearBoard(k, id))
  {
    if HasBoard(k, id) {
      var o := k.handles[(BoardKind, id)].obj;
      var b := k.objs[o];
      SetContents(k, o, Board(b.maxSize, b.shown, false, b.waiting), Cleared(o));
    }
  }

  lemma ClearGood(k: Kernel, h: Handle)
    requires Calling(k) && h.obj in k.objs && k.objs[h.obj].Ring?
    ensures Good(Clear(k, h))
  {
    var b := k.objs[h.obj];
    var k1 := if |b.msgs| == b.cap then WakeOne(k, h.obj, h.disc) else k;
    WakeOneGood(k, h.obj, h.disc);
    WakeOneKeeps(k, h.obj, h.disc);
    assert ObjOk(k, h.obj);
    SetContents(k1, h.obj, k1.objs[h.obj].(msgs := []), Cleared(h.obj));
  }

  lemma TransferGood(k: Kernel, c: Call, t0: int, t1: int, t2: int, r: Kernel)
    requires Calling(k) && Communicates(c) && r == Syscall(k, c, t0, t1, t2)
    ensures Good(r)
  {
    match c
    case SendTo(kind, id, msg, timeout) => SendGood(k, kind, id, msg, timeout, t0, t1, t2, r);
    case ReceiveFrom(kind, id, timeout) => ReceiveGood(k, kind, id, timeout, t0, t1, t2, r);
    case ReadBoard(id, timeout) => ReadGood(k, id, timeout, t0, t1, t2, r);
    case Display(id, msg) => DisplayGood(k, id, msg);
    case ClearBoard(id) => ClearBoardGood(k, id);
    case ClearPort(id) =>
      if ReceiveCheck(k, PortKind, id) == NoError && k.objs[k.handles[(PortKind, id)].obj].Ring? {
        ClearGood(k, k.handles[(PortKind, id)]);
      }
  }

  lemma ProcessGood(k: Kernel, c: Call, t0: int, t1: int, t2: int, r: Kernel)
    requires Calling(k) && !Communicates(c) && !c.Stop? && r == Syscall(k, c, t0, t1, t2)
    ensures Good(r)
  {
    match c
    case SuspendSelf(timeout) => SuspendSelfGood(k, timeout, t0);
    case Suspend(p) => SuspendGood(k, p);
    case ResumeProc(p) => ResumeProcGood(k, p);
    case StopSelf => StopSelfGood(k);
    case Start(p, delay) => StartGood(k, p, delay, t0);
    case Wait(delay) => WaitGood(k, delay, t0);
    case SetPriority(p, pri) => SetPriorityGood(k, p, pri);
    case SetMode(op) => SetModeGood(k, op);
  }

  /** Every system call keeps the invariant, but for the STOP of a process on a wait list. */
  lemma SyscallExactly(k: Kernel, c: Call, t0: int, t1: int, t2: int, r: Kernel)
    requires Calling(k) && r == Syscall(k, c, t0, t1, t2)
    ensures Good(r) <==> StopsNoWaiter(k, c)
  {
    if Communicates(c) {
      TransferGood(k, c, t0, t1, t2, r);
    } else if c.Stop? {
      StopExactly(k, c.target);
    } else {
      ProcessGood(k, c, t0, t1, t2, r);
    }
  }

  // ----- elections -----

  /** Each partition's process list holds processes of that partition. */
  ghost predicate OrderOk(k: Kernel) {
    forall a, p :: a in k.order && p in k.order[a] ==> p in k.procs && k.procs[p].part == a
  }

  /** Changing only the state of a process that has neither list nor timer. */
  lemma Restate(k: Kernel, p: Pid, state: PState)
    requires Inv(k) && p in k.procs && k.procs[p].timer.None? && !OnList(k.procs[p]) && (state == Ready || state == Running)
    ensures Inv(WithProc(k, p, k.procs[p].(state := state)))
  {
    assert ProcOk(k, p);
    Exempt(k, p);
    Settle(k, p, k.procs[p].(state := state));
  }

  lemma PreemptGood(k: Kernel, roundRobin: bool)
    requires Inv(k) && k.cur in k.procs
    requires forall p :: p in k.procs && k.procs[p].state == Running ==> p == k.cur
    ensures Good(Preempt(k, roundRobin)) && forall p :: p in k.procs ==> Preempt(k, roundRobin).procs[p].state != Running
  {
    var r := Preempt(k, roundRobin);
    if k.procs[k.cur].state == Running {
      assert ProcOk(k, k.cur);
      Restate(k, k.cur, Ready);
      Unrelated(WithProc(k, k.cur, k.procs[k.cur].(state := Ready)), r);
    } else {
      Unrelated(k, r);
    }
  }

  /** A search of the current process that comes upon it finds it RUNNING. */
  lemma ScanGood(k: Kernel, r: Kernel)
    requires Good(k) && Enabled(k, Scan) && r == Next(k, Scan)
    ensures Good(r)
  {
    var s := Scanned(k, SearchOf(k));
    if k.mode.Electing? {
      Unrelated(k, r);
    } else {
      Return(k, Yes(s), k.procs[k.cur].pc);
      ScanRuns(k, r, s);
    }
  }

  lemma ScanRuns(k: Kernel, r: Kernel, s: Search)
    requires Good(k) && k.mode == Executing && Searching(k) && s == Scanned(k, SearchOf(k))
    requires Inv(r) && r == SetCur(k, Yes(s), k.procs[k.cur].pc)
    ensures Good(r)
  {
  }

  lemma GiveUpGood(k: Kernel, r: Kernel)
    requires Good(k) && Enabled(k, GiveUp) && r == Next(k, GiveUp)
    ensures Good(r)
    ensures k.procs[k.cur].giving.search.best == Some(k.cur) ==> r.mode == Executing && r.procs[r.cur].state == Running
    ensures k.procs[k.cur].giving.search.best != Some(k.cur) ==>
              r.mode.Electing? && forall p :: p in r.procs ==> r.procs[p].state != Running
  {
    var k1 := SetCur(k, Not, k.procs[k.cur].pc);
    assert ProcOk(k, k.cur);
    Return(k, Not, k.procs[k.cur].pc);
    if SearchOf(k).best != Some(k.cur) {
      PreemptGood(k1, SearchOf(k).above.Some?);
    }
  }

  // ----- dispatch -----

  /** Nobody is RUNNING but p, if p is. */
  ghost predicate Alone(k: Kernel, p: Pid) {
    forall x :: x in k.procs && k.procs[x].state == Running ==> x == p
  }

  /** The process found has neither a timer nor a place on a wait list, nobody else is RUNNING, and if the process
      itself goes on, and not a search held on its stack, it belongs to the current partition. */
  ghost predicate Fits(k: Kernel, p: Pid) {
    && p in k.procs && k.procs[p].timer.None? && !OnList(k.procs[p]) && Alone(k, p)
    && (Held(k, p) == [] ==> k.procs[p].part == k.part)
  }

  /** The process found may still run: it is READY or RUNNING, and so has neither timer nor list. */
  ghost predicate MayStillRun(k: Kernel, p: Pid) {
    MayRun(k, p) && Alone(k, p) && (Held(k, p) == [] ==> k.procs[p].part == k.part)
  }

  /** Whoever is RUNNING in r could have been elected in k. */
  ghost predicate RunsOnlyReady(k: Kernel, r: Kernel) {
    forall p :: p in r.procs && r.procs[p].state == Running ==> MayRun(k, p)
  }

  lemma FitDispatch(k: Kernel, r: Kernel, p: Pid)
    requires Good(k) && Fits(k, p) && r == Run(k, p)
    ensures Good(r)
  {
    var m := WithProc(k, p, k.procs[p].(state := Running));
    Restate(k, p, Running);
    Unrelated(m, r);
    FitRuns(k, m, r, p);
  }

  lemma FitRuns(k: Kernel, m: Kernel, r: Kernel, p: Pid)
    requires Fits(k, p) && r == Run(k, p) && m == WithProc(k, p, k.procs[p].(state := Running)) && Inv(r)
    ensures Good(r)
  {
  }

  /** Without a place on a wait list in r, p has none in k, whose wait lists are the same. */
  lemma StaysOff(k: Kernel, r: Kernel, p: Pid)
    requires Inv(r) && r.objs == k.objs && p in k.procs && ProcOk(k, p)
    requires p in r.procs && r.procs[p].timer.None? && !OnList(r.procs[p])
    ensures !OnList(k.procs[p])
  {
    Exempt(r, p);
  }

  lemma RunFrame(k: Kernel, r: Kernel, p: Pid)
    requires p in k.procs && r == Run(k, p)
    ensures r.objs == k.objs && r.procs == k.procs[p := k.procs[p].(state := Running)] && r.cur == p && r.part == k.part
    ensures Held(k, p) == [] ==> r.mode == Executing
  {
    var m := WithProc(k.(cur := p), p, k.procs[p].(state := Running));
    PlacedFrame(k, m, p);
    if Held(k, p) == [] {
      assert r == m.(mode := Executing);
    } else {
      assert r == m.(mode := r.mode, held := r.held);
    }
  }

  lemma PlacedFrame(k: Kernel, m: Kernel, p: Pid)
    requires p in k.procs && m == WithProc(k.(cur := p), p, k.procs[p].(state := Running))
    ensures m.objs == k.objs && m.procs == k.procs[p := k.procs[p].(state := Running)] && m.cur == p && m.part == k.part
  {
  }

  lemma UnfitOwn(k: Kernel, r: Kernel, p: Pid)
    requires p in k.procs && ProcOk(k, p) && Inv(r) && r.objs == k.objs
    requires r.procs == k.procs[p := k.procs[p].(state := Running)]
    ensures k.procs[p].timer.None? && !OnList(k.procs[p])
  {
    assert ProcOk(r, p);
    StaysOff(k, r, p);
  }

  lemma UnfitDispatch(k: Kernel, r: Kernel, p: Pid)
    requires p in k.procs && ProcOk(k, p) && r == Run(k, p) && Good(r)
    ensures Fits(k, p)
  {
    RunFrame(k, r, p);
    UnfitOwn(k, r, p);
    UnfitRuns(k, r, p);
  }

  lemma UnfitRuns(k: Kernel, r: Kernel, p: Pid)
    requires p in k.procs && RunOk(r)
    requires r.procs == k.procs[p := k.procs[p].(state := Running)] && r.cur == p && r.part == k.part
    requires Held(k, p) == [] ==> r.mode == Executing
    ensures Alone(k, p) && (Held(k, p) == [] ==> k.procs[p].part == k.part)
  {
    assert forall x :: x in k.procs && x != p ==> r.procs[x] == k.procs[x];
  }

  /** A dispatch keeps the invariant if and only if the process found fits; and it also runs nobody but a process
      that was READY or RUNNING if and only if the process found may still run. */
  lemma DispatchExactly(k: Kernel, r: Kernel)
    requires Good(k) && Enabled(k, Step.Dispatch) && r == Next(k, Step.Dispatch)
    ensures Good(r) <==> Fits(k, k.mode.search.best.value)
    ensures Good(r) && RunsOnlyReady(k, r) <==> MayStillRun(k, k.mode.search.best.value)
  {
    var p := k.mode.search.best.value;
    RunFrame(k, r, p);
    DispatchFits(k, r, p);
    MayRunFits(k, p);
    RunsReadyExactly(k, r, p);
  }

  lemma DispatchFits(k: Kernel, r: Kernel, p: Pid)
    requires Good(k) && p in k.procs && r == Run(k, p)
    ensures Good(r) <==> Fits(k, p)
  {
    assert ProcOk(k, p);
    if Fits(k, p) { FitDispatch(k, r, p); }
    if Good(r) { UnfitDispatch(k, r, p); }
  }

  lemma MayRunFits(k: Kernel, p: Pid)
    requires Inv(k) && p in k.procs
    ensures MayStillRun(k, p) <==> Fits(k, p) && MayRun(k, p)
  {
    assert ProcOk(k, p);
  }

  lemma RunsReadyExactly(k: Kernel, r: Kernel, p: Pid)
    requires p in k.procs && r.procs == k.procs[p := k.procs[p].(state := Running)]
    ensures RunsOnlyReady(k, r) <==> MayRun(k, p)
  {
    assert r.procs[p].state == Running;
  }
}
