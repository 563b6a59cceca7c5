/** The timer contexts of bounded waits, over every run: each is its process's own, and freed when the wait ends, exactly
    as long as no process is started that was stopped inside a bounded wait. */
module KernelLeaks {
  import opened Common
  import opened TimerQueue
  import opened KernelSpec
  import opened KernelInv
  import opened KernelSteps
  import opened KernelCalls
  import opened KernelTimer
  import opened KernelFifo
  import opened KernelRuns
  import opened KernelWakeups
  import opened KernelDeadlines
  import opened KernelServing
  import opened KernelServices
  import opened KernelTicks

  // ----- what a step keeps -----

  /** The contexts are the same. */
  ghost predicate SameCtxs(k: Kernel, r: Kernel) {
    r.ctxs == k.ctxs && r.nextCtx == k.nextCtx
  }

  /** Every process but the current one and p continues where it did. */
  ghost predicate SamePcs(k: Kernel, r: Kernel, p: Option<Pid>) {
    r.procs.Keys == k.procs.Keys && forall x :: x in k.procs && x != k.cur && Some(x) != p ==> r.procs[x].pc == k.procs[x].pc
  }

  lemma WriteCtxs(k: Kernel, k1: Kernel, x: Xfer, r: Kernel)
    requires k1.cur in k1.procs && x.obj in k1.objs && SameCtxs(k, k1) && r == AfterTransfer(k1, x)
    ensures SameCtxs(k, r)
  {
  }

  lemma ReadCtxs(k: Kernel, x: Xfer, r: Kernel)
    requires k.cur in k.procs && x.obj in k.objs && Suits(k.objs[x.obj], x.op) && !Obstructed(k.objs[x.obj], x.op) && x.op.Read?
    requires r == Complete(k, x)
    ensures SameCtxs(k, r)
  {
  }

  lemma CompleteCtxs(k: Kernel, x: Xfer, r: Kernel)
    requires k.cur in k.procs && x.obj in k.objs && Suits(k.objs[x.obj], x.op) && !Obstructed(k.objs[x.obj], x.op) && r == Complete(k, x)
    ensures SameCtxs(k, r)
  {
    var b := k.objs[x.obj];
    match x.op
    case Send(m) => WriteCtxs(k, Logged(WithObj(k, x.obj, b.(msgs := b.msgs + [m])), Sent(x.obj, m)), x, r);
    case Recv => WriteCtxs(k, Logged(WithObj(k, x.obj, b.(msgs := b.msgs[1..])), Received(x.obj, b.msgs[0])), x, r);
    case Read => ReadCtxs(k, x, r);
  }

  /** The current process has a new context, and its continuation names it. */
  ghost predicate OneMoreCtx(k: Kernel, r: Kernel) {
    && r.ctxs.Keys == k.ctxs.Keys + {k.nextCtx} && (forall c :: c in k.ctxs && c != k.nextCtx ==> r.ctxs[c] == k.ctxs[c])
    && r.ctxs[k.nextCtx].proc == k.cur && k.cur in r.procs && r.procs[k.cur].pc.Retry? && r.procs[k.cur].pc.ctx == Some(k.nextCtx)
  }

  lemma BlockTimedCtxs(k: Kernel, x: Xfer, outer: int, t1: int, t2: int, r: Kernel)
    requires k.cur in k.procs && x.obj in k.objs && x.timeout != INFINITE && outer > t1 && r == Block(k, x, outer, t1, t2)
    ensures OneMoreCtx(k, r)
  {
    var kind := k.objs[x.obj].KindOf();
    var inner := InnerDeadline(kind, x, outer, t2);
    var q := BlockedProc(k.procs[k.cur], kind, x, outer, inner, Some(k.nextCtx));
    var k1 := WithProc(NewContext(k, x.obj), k.cur, q);
    var k2 := EventAlloc(k1, inner, BlockTimeout(kind, k.nextCtx));
    AllocIs(k1, inner, BlockTimeout(kind, k.nextCtx), k.cur, k2);
    assert r.ctxs == k2.ctxs == k1.ctxs && r.procs == k2.procs;
  }

  lemma BlockCtxs(k: Kernel, x: Xfer, outer: int, t1: int, t2: int, r: Kernel)
    requires k.cur in k.procs && x.obj in k.objs && r == Block(k, x, outer, t1, t2)
    ensures if x.timeout == INFINITE || outer <= t1 then SameCtxs(k, r) else OneMoreCtx(k, r)
  {
    if x.timeout != INFINITE && outer > t1 { BlockTimedCtxs(k, x, outer, t1, t2, r); }
  }

  /** A round of a loop. */
  ghost predicate Rounded(k: Kernel, r: Kernel) {
    SameCtxs(k, r) || OneMoreCtx(k, r)
  }

  lemma LoopCtxs(k: Kernel, x: Xfer, outer: int, t1: int, t2: int, r: Kernel)
    requires k.cur in k.procs && x.obj in k.objs && Suits(k.objs[x.obj], x.op) && r == LoopOn(k, x, outer, t1, t2)
    ensures Rounded(k, r)
  {
    if Obstructed(k.objs[x.obj], x.op) { BlockCtxs(k, x, outer, t1, t2, r); } else { CompleteCtxs(k, x, r); }
  }

  lemma {:induction false} WakeAllCtxs(k: Kernel, o: ObjId)
    requires o in k.objs
    ensures SameCtxs(k, WakeAll(k, o))
    decreases |k.objs[o].waiting|
  {
    var ps := k.objs[o].waiting;
    if ps != [] && ps[0] in k.procs { WakeAllCtxs(Wake(k, o, ps[0]), o); }
  }

  lemma DisplayCtxs(k: Kernel, id: nat, msg: Msg, r: Kernel)
    requires k.cur in k.procs && r == DoDisplay(k, id, msg)
    ensures SameCtxs(k, r)
  {
    if HasBoard(k, id) && 0 < |msg| <= k.objs[k.handles[(BoardKind, id)].obj].maxSize {
      var o := k.handles[(BoardKind, id)].obj;
      WakeAllCtxs(Logged(WithObj(k, o, Board(k.objs[o].maxSize, msg, true, k.objs[o].waiting)), Shown(o, msg)), o);
    }
  }

  lemma ClearCtxs(k: Kernel, h: Handle)
    requires h.obj in k.objs && k.objs[h.obj].Ring?
    ensures SameCtxs(k, Clear(k, h))
  {
  }

  lemma TalkCtxs(k: Kernel, c: Call, t0: int, t1: int, t2: int, r: Kernel)
    requires k.cur in k.procs && Communicates(c) && Asked(k, c).None? && r == Syscall(k, c, t0, t1, t2)
    ensures SameCtxs(k, r)
  {
    match c
    case Display(id, msg) => DisplayCtxs(k, id, msg, r);
    case ClearPort(id) =>
      if ReceiveCheck(k, PortKind, id) == NoError && k.objs[k.handles[(PortKind, id)].obj].Ring? { ClearCtxs(k, k.handles[(PortKind, id)]); }
    case _ =>
  }

  lemma {:induction false} FireDueCtxs(k: Kernel, t: int)
    ensures SameCtxs(k, FireDue(k, t))
    decreases |k.queue|
  {
    if k.queue != [] && k.queue[0].time <= t { FireDueCtxs(Fire(k), t); }
  }

  lemma TickCtxs(k: Kernel, t: int, nextPart: Part, nextTime: int, r: Kernel)
    requires r == Tick(k, t, nextPart, nextTime)
    ensures SameCtxs(k, r)
  {
    var m := FireDue(k, t);
    FireDueCtxs(k, t);
    TickBegins(k, t, nextPart, nextTime, m, r);
  }

  // ----- services -----

  lemma StartKeeps(k: Kernel, p: Pid, delay: int, t: int, due: int, r: Kernel)
    requires Calling(k) && due == t + delay && r == DoStart(k, p, delay, t)
    ensures SameCtxs(k, r) && SamePcs(k, r, Some(p)) && r.procs[k.cur].pc == User
    ensures if Startable(k, p, delay) then p in r.procs && r.procs[p].pc == User else Keeps(k, r)
  {
    assert ProcOk(k, k.cur);
    if !Startable(k, p, delay) {
      StartNot(k, p, delay, t, r);
    } else if !NormalPart(k) || k.procs[p].Periodic() {
      StartNotedIs(k, p, delay, t, r);
    } else if delay == 0 {
      StartReadyIs(k, p, t, r);
    } else {
      StartLaterIs(k, p, delay, t, due, r);
    }
  }

  /** No context is allocated or freed, every process continues where it did, and the current one is in no loop. */
  ghost predicate Keeps(k: Kernel, r: Kernel) {
    SameCtxs(k, r) && SamePcs(k, r, None) && k.cur in r.procs && !r.procs[k.cur].pc.Retry?
  }

  lemma SameKeeps(k: Kernel)
    requires k.cur in k.procs && k.procs[k.cur].pc == User
    ensures Keeps(k, k)
  {
  }

  lemma CurKeeps(k: Kernel, r: Kernel)
    requires SameCtxs(k, r) && k.cur in r.procs && k.cur in k.procs && r.procs == k.procs[k.cur := r.procs[k.cur]] && !r.procs[k.cur].pc.Retry?
    ensures Keeps(k, r)
  {
  }

  lemma ChangesKeep(k: Kernel, r: Kernel, p: Pid, q: Proc)
    requires Changes(k, r, p, q) && SameCtxs(k, r) && q.pc == k.procs[p].pc && k.procs[k.cur].pc == User
    ensures Keeps(k, r)
  {
  }

  lemma SuspendSelfKeepsPcs(k: Kernel, timeout: int, t: int, due: int, r: Kernel)
    requires Calling(k) && due == t + timeout && r == DoSuspendSelf(k, timeout, t)
    ensures Keeps(k, r)
  {
    if k.procs[k.cur].Periodic() || timeout == 0 {
      SuspendSelfNot(k, timeout, t, r);
      SameKeeps(k);
    } else if timeout < INFINITE {
      SuspendTimedIs(k, timeout, t, due, r);
      CurKeeps(k, r);
    } else {
      SuspendForEverIs(k, timeout, t, r);
      CurKeeps(k, r);
    }
  }

  lemma ResumeKeepsPcs(k: Kernel, p: Pid, r: Kernel)
    requires Calling(k) && r == DoResume(k, p)
    ensures Keeps(k, r)
  {
    if Resumable(k, p) {
      assert ProcOk(k, p);
      ResumeIs(k, p, r);
      ChangesKeep(k, r, p, k.procs[p].(state := Ready, timer := None));
    } else {
      ResumeNot(k, p, r);
      SameKeeps(k);
    }
  }

  lemma SuspendKeepsPcs(k: Kernel, p: Pid, r: Kernel)
    requires Calling(k) && r == DoSuspend(k, p)
    ensures Keeps(k, r)
  {
    if Suspendable(k, p) {
      SuspendIs(k, p, r);
      ChangesKeep(k, r, p, k.procs[p].(state := Waiting, reason := Suspended));
    } else {
      SuspendNot(k, p, r);
      SameKeeps(k);
    }
  }

  lemma StopKeepsPcs(k: Kernel, p: Pid, r: Kernel)
    requires Calling(k) && r == DoStop(k, p)
    ensures Keeps(k, r)
  {
    if Alive(k, p) {
      StopIs(k, p, r);
      ChangesKeep(k, r, p, k.procs[p].(state := Dormant, timer := None));
    } else {
      StopNot(k, p, r);
      SameKeeps(k);
    }
  }

  lemma SetPriorityKeepsPcs(k: Kernel, p: Pid, pri: nat, r: Kernel)
    requires Calling(k) && r == DoSetPriority(k, p, pri)
    ensures Keeps(k, r)
  {
    if Alive(k, p) {
      SetPriorityIs(k, p, pri, r);
      ChangesKeep(k, r, p, k.procs[p].(pri := pri));
    } else {
      SetPriorityNot(k, p, pri, r);
      SameKeeps(k);
    }
  }

  lemma ModeKeepsPcs(k: Kernel, op: OpMode, r: Kernel)
    requires Calling(k) && r == DoSetMode(k, op)
    ensures Keeps(k, r)
  {
    assert ProcOk(k, k.cur);
    if !Settable(k, op) {
      SetModeNot(k, op, r);
    } else if op == Normal {
      SetNormalIs(k, r);
    } else {
      SetOtherModeIs(k, op, r);
    }
  }

  lemma WaitKeepsPcs(k: Kernel, delay: int, t: int, due: int, r: Kernel)
    requires Calling(k) && due == t + delay && r == DoWait(k, delay, t)
    ensures Keeps(k, r)
  {
    WaitIs(k, delay, t, due, r);
    if delay == INFINITE { SameKeeps(k); } else { CurKeeps(k, r); }
  }

  lemma ServiceKeepsPcs(k: Kernel, c: Call, t0: int, t1: int, t2: int, r: Kernel)
    requires Calling(k) && !Communicates(c) && !c.Start? && r == Syscall(k, c, t0, t1, t2)
    ensures Keeps(k, r)
  {
    match c
    case SuspendSelf(timeout) => SuspendSelfKeepsPcs(k, timeout, t0, t0 + timeout, r);
    case StopSelf => StopSelfIs(k, r);
    case Wait(delay) => WaitKeepsPcs(k, delay, t0, t0 + delay, r);
    case SetMode(op) => ModeKeepsPcs(k, op, r);
    case Suspend(p) => SuspendKeepsPcs(k, p, r);
    case ResumeProc(p) => ResumeKeepsPcs(k, p, r);
    case Stop(p) => StopKeepsPcs(k, p, r);
    case SetPriority(p, pri) => SetPriorityKeepsPcs(k, p, pri, r);
  }

  // ----- transfers -----

  lemma ServedKeepPcs(k: Kernel, r: Kernel, o: ObjId, disc: Disc)
    requires ServesOne(k, r, o, disc)
    ensures SamePcs(k, r, None)
  {
  }

  lemma DoneKeepPcs(k: Kernel, s: Step, x: Xfer, r: Kernel)
    requires Good(k) && Enabled(k, s) && r == Next(k, s) && Done(k, r, x) && Suits(k.objs[x.obj], x.op)
    ensures SamePcs(k, r, None) && !r.procs[k.cur].pc.Retry?
  {
    if !x.op.Read? {
      StepServes(k, s, x.obj, r);
      ServedKeepPcs(k, r, x.obj, DiscOf(k, s));
    }
  }

  lemma RefusedKeepPcs(k: Kernel, x: Xfer, ret: Ret, r: Kernel)
    requires Refused(k, r, x, ret)
    ensures SamePcs(k, r, None) && !r.procs[k.cur].pc.Retry?
  {
  }

  lemma JoinKeepPcs(k: Kernel, x: Xfer, r: Kernel)
    requires JoinsLast(k, r, x)
    ensures SamePcs(k, r, None)
  {
  }

  lemma AttemptKeepPcs(k: Kernel, s: Step, x: Xfer, outer: int, r: Kernel)
    requires Good(k) && Enabled(k, s) && Attempts(k, s) == Some(x) && outer == Deadline(k, s, x) && r == Next(k, s)
    ensures SamePcs(k, r, None)
  {
    AttemptLeads(k, s, x, outer, r);
    if Done(k, r, x) {
      DoneKeepPcs(k, s, x, r);
    } else if Refused(k, r, x, NotAvailable) {
      RefusedKeepPcs(k, x, NotAvailable, r);
    } else if Refused(k, r, x, TimedOut) {
      RefusedKeepPcs(k, x, TimedOut, r);
    } else {
      JoinKeepPcs(k, x, r);
    }
  }

  lemma AttemptCtxs(k: Kernel, s: Step, x: Xfer, outer: int, r: Kernel)
    requires Good(k) && Enabled(k, s) && Attempts(k, s) == Some(x) && outer == Deadline(k, s, x) && r == Next(k, s)
    ensures Rounded(Begun(k, s), r)
  {
    AttemptIs(k, s, x, outer, r);
    if !(s.Enter? && Obstructed(k.objs[x.obj], x.op) && x.timeout == 0) { LoopCtxs(Begun(k, s), x, outer, s.t1, s.t2, r); }
  }

  lemma DisplayKeepsPcs(k: Kernel, id: nat, msg: Msg, r: Kernel)
    requires Calling(k) && r == DoDisplay(k, id, msg)
    ensures Keeps(k, r)
  {
    DisplayCtxs(k, id, msg, r);
    if HasBoard(k, id) && 0 < |msg| <= k.objs[k.handles[(BoardKind, id)].obj].maxSize {
      DisplayServes(k, id, msg, k.handles[(BoardKind, id)].obj, r);
    }
  }

  lemma ClearKeepsPcs(k: Kernel, id: nat, r: Kernel)
    requires Calling(k) && r == Syscall(k, ClearPort(id), 0, 0, 0)
    ensures SamePcs(k, r, None) && k.cur in r.procs && r.procs[k.cur].pc == User
  {
    if ReceiveCheck(k, PortKind, id) == NoError && k.objs[k.handles[(PortKind, id)].obj].Ring? {
      var h := k.handles[(PortKind, id)];
      SoundAwaiting(k, h.obj);
      ClearServes(k, h, r);
      if |k.objs[h.obj].msgs| == k.objs[h.obj].cap { ServedKeepPcs(k, r, h.obj, h.disc); }
    }
  }

  lemma TalkKeeps(k: Kernel, c: Call, t0: int, t1: int, t2: int, r: Kernel)
    requires Calling(k) && Communicates(c) && Asked(k, c).None? && r == Syscall(k, c, t0, t1, t2)
    ensures Keeps(k, r)
  {
    TalkCtxs(k, c, t0, t1, t2, r);
    match c
    case Display(id, msg) => DisplayKeepsPcs(k, id, msg, r);
    case ClearPort(id) => ClearKeepsPcs(k, id, r);
    case _ =>
  }

  // ----- whose a context is -----

  /** The continuation of p names the context. */
  predicate Names(k: Kernel, p: Pid, c: CtxId) {
    p in k.procs && k.procs[p].pc.Retry? && k.procs[p].pc.ctx == Some(c)
  }

  /** Every context is named by the continuation of its process, which will free it. */
  ghost predicate Owned(k: Kernel) {
    forall c :: c in k.ctxs ==> Names(k, k.ctxs[c].proc, c)
  }

  /** The current process is in another round, or in none, and its context is free; others continue where they did. */
  ghost predicate NextRound(k: Kernel, r: Kernel) {
    && SamePcs(k, r, None)
    && (forall c :: c in k.ctxs && !Names(k, k.cur, c) ==> c in r.ctxs && r.ctxs[c] == k.ctxs[c])
    && (forall c :: c in r.ctxs ==>
          (c in k.ctxs && !Names(k, k.cur, c)) || (c == k.nextCtx && r.ctxs[c].proc == k.cur && Names(r, k.cur, c)))
    && (forall c :: Names(r, k.cur, c) ==> c == k.nextCtx)
  }

  lemma NextRoundOwned(k: Kernel, r: Kernel)
    requires Inv(k) && NextRound(k, r)
    ensures Owned(r) <==> Owned(k)
  {
    if Owned(r) {
      forall c | c in k.ctxs ensures Names(k, k.ctxs[c].proc, c) {
        if Names(k, k.cur, c) { assert ProcOk(k, k.cur); }
      }
    }
  }

  lemma KeepsRound(k: Kernel, r: Kernel)
    requires Keeps(k, r) && k.cur in k.procs && !k.procs[k.cur].pc.Retry?
    ensures NextRound(k, r)
  {
  }

  /** Exactly the context that the current process names is freed behind its give-up. */
  lemma FreesOwn(k: Kernel, m: Kernel)
    requires Inv(k) && k.cur in k.procs && k.procs[k.cur].pc.Retry? && m == ContextFreed(k, k.procs[k.cur].pc)
    ensures forall c :: c in m.ctxs <==> c in k.ctxs && !Names(k, k.cur, c)
    ensures forall c :: c in m.ctxs ==> m.ctxs[c] == k.ctxs[c]
    ensures m.nextCtx == k.nextCtx
  {
    assert ProcOk(k, k.cur);
  }

  /** From where the transfer begins, behind the freeing. */
  lemma BegunRound(k: Kernel, s: Step, b: Kernel, r: Kernel)
    requires Inv(k) && Enabled(k, s) && (s.Enter? || (s.Continue? && k.procs[k.cur].pc.Retry?)) && b == Begun(k, s)
    requires Rounded(b, r) && SamePcs(k, r, None) && k.cur in r.procs && forall c :: Names(r, k.cur, c) ==> c == k.nextCtx
    ensures NextRound(k, r)
  {
    if s.Continue? { FreesOwn(k, ContextFreed(k, k.procs[k.cur].pc)); }
    FromBegun(k, b, r);
  }

  lemma FromBegun(k: Kernel, b: Kernel, r: Kernel)
    requires b.nextCtx == k.nextCtx && b.cur == k.cur && Rounded(b, r) && SamePcs(k, r, None) && k.cur in r.procs
    requires forall c :: c in b.ctxs <==> c in k.ctxs && !Names(k, k.cur, c)
    requires forall c :: c in b.ctxs ==> b.ctxs[c] == k.ctxs[c] && c != k.nextCtx
    requires forall c :: Names(r, k.cur, c) ==> c == k.nextCtx
    ensures NextRound(k, r)
  {
  }

  /** The context a round names is the one it allocates. */
  lemma AttemptNames(k: Kernel, s: Step, x: Xfer, outer: int, r: Kernel)
    requires Good(k) && Enabled(k, s) && Attempts(k, s) == Some(x) && outer == Deadline(k, s, x) && r == Next(k, s)
    ensures k.cur in r.procs && forall c :: Names(r, k.cur, c) ==> c == k.nextCtx
  {
    AttemptIs(k, s, x, outer, r);
    var b := Begun(k, s);
    assert b.nextCtx == k.nextCtx && b.cur == k.cur && b.procs[k.cur].pc == User;
    if !(s.Enter? && Obstructed(k.objs[x.obj], x.op) && x.timeout == 0) { LoopNames(b, x, outer, s.t1, s.t2, r); }
  }

  lemma LoopNames(k: Kernel, x: Xfer, outer: int, t1: int, t2: int, r: Kernel)
    requires Calling(k) && x.obj in k.objs && Suits(k.objs[x.obj], x.op) && r == LoopOn(k, x, outer, t1, t2)
    ensures k.cur in r.procs && forall c :: Names(r, k.cur, c) ==> c == k.nextCtx
  {
    LoopEnds(k, x, outer, t1, t2, r);
    if Obstructed(k.objs[x.obj], x.op) { BlockNames(k, x, outer, t1, t2, r); } else { BarredObstructed(k.objs[x.obj], x.op); }
  }

  lemma BlockNames(k: Kernel, x: Xfer, outer: int, t1: int, t2: int, r: Kernel)
    requires k.cur in k.procs && x.obj in k.objs && r == Block(k, x, outer, t1, t2)
    ensures k.cur in r.procs && forall c :: Names(r, k.cur, c) ==> c == k.nextCtx
  {
    if x.timeout != INFINITE && outer > t1 { BlockTimedCtxs(k, x, outer, t1, t2, r); }
  }

  lemma LateCtxs(k: Kernel, t: int, t1: int, t2: int, r: Kernel)
    requires Enabled(k, Continue(t, t1, t2)) && Attempts(k, Continue(t, t1, t2)).None? && r == Next(k, Continue(t, t1, t2))
    ensures r.ctxs == (if k.procs[k.cur].pc.Retry? then ContextFreed(k, k.procs[k.cur].pc) else k).ctxs
  {
  }

  lemma LeftRound(k: Kernel, m: Kernel, r: Kernel)
    requires Leaves(k, r) && r.ctxs == m.ctxs && forall c :: c in m.ctxs <==> c in k.ctxs && !Names(k, k.cur, c)
    requires forall c :: c in m.ctxs ==> m.ctxs[c] == k.ctxs[c]
    ensures NextRound(k, r)
  {
  }

  lemma LateRound(k: Kernel, t: int, t1: int, t2: int, r: Kernel)
    requires Inv(k) && Enabled(k, Continue(t, t1, t2)) && Attempts(k, Continue(t, t1, t2)).None? && r == Next(k, Continue(t, t1, t2))
    ensures NextRound(k, r)
  {
    LateCtxs(k, t, t1, t2, r);
    if k.procs[k.cur].pc.SuspendCheck? {
      SuspensionEnds(k, t, t1, t2, r);
      LeftRound(k, k, r);
    } else {
      var m := ContextFreed(k, k.procs[k.cur].pc);
      LoopTimesOut(k, t, t1, t2, r);
      FreesOwn(k, m);
      LeftRound(k, m, r);
    }
  }

  // ----- every step -----

  /** The step starts a process that was stopped inside a bounded wait: its reset forgets the continuation that would have
      freed the timer context. */
  predicate Leaks(k: Kernel, s: Step) {
    && s.Enter? && s.call.Start? && Startable(k, s.call.target, s.call.delay)
    && k.procs[s.call.target].pc.Retry? && k.procs[s.call.target].pc.ctx.Some?
  }

  lemma StartOwned(k: Kernel, p: Pid, delay: int, t: int, r: Kernel)
    requires Calling(k) && r == DoStart(k, p, delay, t)
    ensures Owned(r) <==> Owned(k) && !(Startable(k, p, delay) && k.procs[p].pc.Retry? && k.procs[p].pc.ctx.Some?)
  {
    StartKeeps(k, p, delay, t, t + delay, r);
    if Startable(k, p, delay) {
      assert ProcOk(k, p);
      Forgotten(k, r, p);
    } else {
      KeepsRound(k, r);
      NextRoundOwned(k, r);
    }
  }

  lemma Forgotten(k: Kernel, r: Kernel, p: Pid)
    requires p in k.procs && PcOk(k, p, k.procs[p].pc) && SameCtxs(k, r) && SamePcs(k, r, Some(p)) && r.procs[p].pc == User
    requires k.cur in k.procs && k.procs[k.cur].pc == User && r.procs[k.cur].pc == User
    ensures Owned(r) <==> Owned(k) && !(k.procs[p].pc.Retry? && k.procs[p].pc.ctx.Some?)
  {
    forall x, c | x != p ensures Names(r, x, c) <==> Names(k, x, c) {
    }
    if k.procs[p].pc.Retry? && k.procs[p].pc.ctx.Some? {
      assert !Names(r, p, k.procs[p].pc.ctx.value);
    }
  }

  lemma AttemptOwned(k: Kernel, s: Step, x: Xfer, outer: int, r: Kernel)
    requires Good(k) && Enabled(k, s) && Attempts(k, s) == Some(x) && outer == Deadline(k, s, x) && r == Next(k, s)
    ensures Owned(r) <==> Owned(k)
  {
    AttemptCtxs(k, s, x, outer, r);
    AttemptKeepPcs(k, s, x, outer, r);
    AttemptNames(k, s, x, outer, r);
    BegunRound(k, s, Begun(k, s), r);
    NextRoundOwned(k, r);
  }

  lemma EnterOwned(k: Kernel, s: Step, r: Kernel)
    requires Good(k) && Enabled(k, s) && s.Enter? && r == Next(k, s)
    ensures Owned(r) <==> Owned(k) && !Leaks(k, s)
  {
    if s.call.Start? {
      StartOwned(k, s.call.target, s.call.delay, s.t0, r);
    } else if !Communicates(s.call) {
      ServiceKeepsPcs(k, s.call, s.t0, s.t1, s.t2, r);
      KeepsRound(k, r);
      NextRoundOwned(k, r);
    } else {
      var a := Attempts(k, s);
      if a.Some? {
        AttemptOwned(k, s, a.value, Deadline(k, s, a.value), r);
      } else {
        TalkKeeps(k, s.call, s.t0, s.t1, s.t2, r);
        KeepsRound(k, r);
        NextRoundOwned(k, r);
      }
    }
  }

  lemma ContinueOwned(k: Kernel, s: Step, r: Kernel)
    requires Good(k) && Enabled(k, s) && s.Continue? && r == Next(k, s)
    ensures Owned(r) <==> Owned(k)
  {
    var a := Attempts(k, s);
    if a.Some? {
      AttemptOwned(k, s, a.value, Deadline(k, s, a.value), r);
    } else {
      LateRound(k, s.t, s.t1, s.t2, r);
      NextRoundOwned(k, r);
    }
  }

  lemma AllPcsOwned(k: Kernel, r: Kernel)
    requires SameCtxs(k, r) && r.procs.Keys == k.procs.Keys && forall p :: p in k.procs ==> r.procs[p].pc == k.procs[p].pc
    ensures Owned(r) <==> Owned(k)
  {
    forall x, c ensures Names(r, x, c) <==> Names(k, x, c) {
    }
  }

  lemma ElectionOwned(k: Kernel, s: Step, r: Kernel)
    requires Enabled(k, s) && (s.Scan? || s.GiveUp? || s.Dispatch?) && r == Next(k, s)
    ensures Owned(r) <==> Owned(k)
  {
    match s
    case Scan => ScanIs(k, r); AllPcsOwned(k, r);
    case GiveUp => GiveUpIs(k, r); AllPcsOwned(k, r);
    case Dispatch => DispatchIs(k, r); AllPcsOwned(k, r);
  }

  lemma TickOwned(k: Kernel, s: Step, r: Kernel)
    requires Good(k) && s.Interrupt? && r == Next(k, s)
    ensures Owned(r) <==> Owned(k)
  {
    TickExactly(k, s.t, s.nextPart, s.nextTime, r);
    TickCtxs(k, s.t, s.nextPart, s.nextTime, r);
    AllPcsOwned(k, r);
  }

  lemma StepOwned(k: Kernel, s: Step, r: Kernel)
    requires Good(k) && Enabled(k, s) && r == Next(k, s)
    ensures Owned(r) <==> Owned(k) && !Leaks(k, s)
  {
    match s
    case Enter(_, _, _, _) => EnterOwned(k, s, r);
    case Continue(_, _, _) => ContinueOwned(k, s, r);
    case Interrupt(_, _, _) => TickOwned(k, s, r);
    case _ => ElectionOwned(k, s, r);
  }

  // ----- over runs -----

  /** No step of the run starts a process that was stopped inside a bounded wait. */
  ghost predicate NeverLeaks(k: Kernel, steps: seq<Step>)
    requires Runs(k, steps)
    decreases |steps|
  {
    steps == [] || (NeverLeaks(k, steps[..|steps| - 1]) && !Leaks(Final(k, steps[..|steps| - 1]), steps[|steps| - 1]))
  }

  /** Over every fitting run: each timer context belongs to the bounded wait of a process, which names it and frees it,
      if and only if no process was started that had been stopped inside a bounded wait. After such a start a context
      is lost for good. */
  lemma {:induction false} ContextsExactly(k: Kernel, steps: seq<Step>)
    requires Boot(k) && Runs(k, steps) && AlwaysFitting(k, steps)
    ensures Owned(Final(k, steps)) <==> NeverLeaks(k, steps)
    decreases |steps|
  {
    if steps == [] {
      var c :| Configured(c) && k == Launched(c);
      assert k.ctxs == map[];
    } else {
      var before := steps[..|steps| - 1];
      RunSound(k, before);
      ContextsExactly(k, before);
      StepOwned(Final(k, before), steps[|steps| - 1], Final(k, steps));
    }
  }
}
