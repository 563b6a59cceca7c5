/** The byte rings refine bounded FIFO queues, and blackboards refine registers, over every run: the log of
    completed transfers replays to exactly what the objects hold. */
module KernelFifo {
  import opened Common
  import opened TimerQueue
  import opened Election
  import opened KernelSpec

  // ----- replaying a history -----

  /** The queue of ring o after a history of transfers. */
  function Queued(log: seq<Entry>, o: ObjId): seq<Msg>
    decreases |log|
  {
    if log == [] then []
    else
      var q := Queued(log[..|log| - 1], o);
      match log[|log| - 1]
      case Sent(a, m) => if a == o then q + [m] else q
      case Received(a, _) => if a == o && q != [] then q[1..] else q
      case Cleared(a) => if a == o then [] else q
      case _ => q
  }

  /** What blackboard o displays after a history. */
  function Displayed(log: seq<Entry>, o: ObjId): Option<Msg>
    decreases |log|
  {
    if log == [] then None
    else
      match log[|log| - 1]
      case Shown(a, m) => if a == o then Some(m) else Displayed(log[..|log| - 1], o)
      case Cleared(a) => if a == o then None else Displayed(log[..|log| - 1], o)
      case _ => Displayed(log[..|log| - 1], o)
  }

  /** A transfer that a bounded FIFO queue, respectively a register, with the given past allows. */
  predicate Allowed(log: seq<Entry>, e: Entry, b: Obj, o: ObjId) {
    match e
    case Sent(a, m) => a == o ==> b.Ring? && |Queued(log, o)| < b.cap && 0 < |m| <= b.maxSize
    case Received(a, m) => a == o ==> b.Ring? && Queued(log, o) != [] && Queued(log, o)[0] == m
    case Shown(a, m) => a == o ==> b.Board? && 0 < |m| <= b.maxSize
    case Seen(a, m) => a == o ==> b.Board? && Displayed(log, o) == Some(m)
    case _ => true
  }

  ghost predicate Legal(log: seq<Entry>, b: Obj, o: ObjId) {
    forall n :: 0 <= n < |log| ==> Allowed(log[..n], log[n], b, o)
  }

  // ----- what a step may do to objects and history -----

  predicate SameShape(b: Obj, c: Obj) {
    && b.Ring? == c.Ring? && b.maxSize == c.maxSize
    && (b.Ring? ==> b.kind == c.kind && b.cap == c.cap)
  }

  predicate SameContents(b: Obj, c: Obj) {
    && SameShape(b, c)
    && (b.Ring? ==> b.msgs == c.msgs)
    && (b.Board? ==> b.shown == c.shown && b.occupied == c.occupied)
  }

  ghost predicate Static(k: Kernel, r: Kernel) {
    && r.order == k.order && r.handles == k.handles
    && r.procs.Keys == k.procs.Keys && (forall p :: p in k.procs ==> r.procs[p].part == k.procs[p].part)
    && r.objs.Keys == k.objs.Keys && (forall o :: o in k.objs ==> SameShape(k.objs[o], r.objs[o]))
  }

  /** Nothing is transferred, nobody joins a wait list, and no continuation inside a loop appears. */
  ghost predicate Quiet(k: Kernel, r: Kernel) {
    && Static(k, r)
    && r.log == k.log
    && (forall o :: o in k.objs ==>
          SameContents(k.objs[o], r.objs[o]) && forall p :: p in r.objs[o].waiting ==> p in k.objs[o].waiting)
    && (forall p :: p in k.procs && r.procs[p].pc.Retry? ==> r.procs[p].pc == k.procs[p].pc)
  }

  lemma QuietTransitive(k: Kernel, m: Kernel, r: Kernel)
    requires Quiet(k, m) && Quiet(m, r)
    ensures Quiet(k, r)
  {
  }

  lemma QuietProc(k: Kernel, p: Pid, q: Proc)
    requires p in k.procs && q.part == k.procs[p].part && (q.pc.Retry? ==> q.pc == k.procs[p].pc)
    ensures Quiet(k, WithProc(k, p, q))
  {
  }

  lemma QuietAlloc(k: Kernel, time: int, w: What)
    ensures Quiet(k, EventAlloc(k, time, w))
  {
  }

  lemma QuietFree(k: Kernel, p: Pid)
    requires p in k.procs
    ensures Quiet(k, EventFree(k, p))
  {
  }

  lemma {:induction false} WithoutSubset(ps: seq<Pid>, p: Pid)
    ensures forall x :: x in Without(ps, p) ==> x in ps
  {
    if ps != [] {
      assert ps == [ps[0]] + ps[1..];
      WithoutSubset(ps[1..], p);
    }
  }

  lemma QuietWake(k: Kernel, o: ObjId, p: Pid)
    requires o in k.objs && p in k.procs
    ensures Quiet(k, Wake(k, o, p))
  {
    WithoutSubset(k.objs[o].waiting, p);
  }

  lemma QuietWakeOne(k: Kernel, o: ObjId, disc: Disc)
    requires o in k.objs
    ensures Quiet(k, WakeOne(k, o, disc))
  {
    var w := Woken(k, k.objs[o].waiting, disc);
    if w.Some? && w.value in k.procs { QuietWake(k, o, w.value); }
  }

  lemma {:induction false} QuietWakeAll(k: Kernel, o: ObjId)
    requires o in k.objs
    ensures Quiet(k, WakeAll(k, o))
    decreases |k.objs[o].waiting|
  {
    var ps := k.objs[o].waiting;
    if ps != [] && ps[0] in k.procs {
      QuietWake(k, o, ps[0]);
      QuietWakeAll(Wake(k, o, ps[0]), o);
      QuietTransitive(k, Wake(k, o, ps[0]), WakeAll(Wake(k, o, ps[0]), o));
    }
  }

  lemma {:induction false} WakeAllKeepsCur(k: Kernel, o: ObjId)
    requires o in k.objs
    ensures WakeAll(k, o).cur == k.cur && WakeAll(k, o).procs.Keys == k.procs.Keys
    decreases |k.objs[o].waiting|
  {
    var ps := k.objs[o].waiting;
    if ps != [] && ps[0] in k.procs { WakeAllKeepsCur(Wake(k, o, ps[0]), o); }
  }

  // ----- the effect of a step on contents and history -----

  /** Contents and history are as before; wait lists and processes may change. */
  ghost predicate Still(k: Kernel, r: Kernel) {
    Static(k, r) && r.log == k.log && forall o :: o in k.objs ==> SameContents(k.objs[o], r.objs[o])
  }

  predicate Applies(b: Obj, c: Obj, e: Entry) {
    match e
    case Sent(_, m) => b.Ring? && c.Ring? && |b.msgs| < b.cap && 0 < |m| <= b.maxSize && c.msgs == b.msgs + [m]
    case Received(_, m) => b.Ring? && c.Ring? && b.msgs != [] && m == b.msgs[0] && c.msgs == b.msgs[1..]
    case Shown(_, m) => b.Board? && c.Board? && 0 < |m| <= b.maxSize && c.occupied && c.shown == m
    case Seen(_, m) => b.Board? && b.occupied && m == b.shown && SameContents(b, c)
    case Cleared(_) => (c.Ring? ==> c.msgs == []) && (c.Board? ==> !c.occupied)
    case Failed(_, _) => SameContents(b, c)
  }

  /** Exactly one entry is logged, and exactly its object changes accordingly. */
  ghost predicate Transfers(k: Kernel, r: Kernel, e: Entry) {
    && Static(k, r) && r.log == k.log + [e] && e.obj in k.objs
    && (forall o :: o in k.objs && o != e.obj ==> SameContents(k.objs[o], r.objs[o]))
    && Applies(k.objs[e.obj], r.objs[e.obj], e)
  }

  ghost predicate Moves(k: Kernel, r: Kernel) {
    Still(k, r) || (r.log != [] && Transfers(k, r, r.log[|r.log| - 1]))
  }

  lemma StillThen(k: Kernel, m: Kernel, r: Kernel)
    requires Still(k, m) && Moves(m, r)
    ensures Moves(k, r)
  {
    if Still(m, r) {
      assert Still(k, r);
    } else {
      StillThenTransfer(k, m, r, r.log[|r.log| - 1]);
    }
  }

  lemma ThenStill(k: Kernel, m: Kernel, r: Kernel, e: Entry)
    requires Transfers(k, m, e) && Still(m, r)
    ensures Transfers(k, r, e)
  {
  }

  lemma MovesThenStill(k: Kernel, m: Kernel, r: Kernel)
    requires Moves(k, m) && Still(m, r)
    ensures Moves(k, r)
  {
    if !Still(k, m) {
      ThenStill(k, m, r, m.log[|m.log| - 1]);
    }
  }

  lemma StillCur(k: Kernel, giving: Giving, pc: Pc)
    requires k.cur in k.procs
    ensures Still(k, SetCur(k, giving, pc))
  {
  }

  lemma FailedMoves(k: Kernel, o: ObjId, ret: Ret)
    requires o in k.objs
    ensures Transfers(k, Logged(k, Failed(o, ret)), Failed(o, ret))
  {
  }

  lemma BlockMoves(k: Kernel, x: Xfer, outer: int, t1: int, t2: int)
    requires k.cur in k.procs && x.obj in k.objs
    ensures Moves(k, Block(k, x, outer, t1, t2))
  {
    if x.timeout != INFINITE && outer <= t1 {
      FailedMoves(k, x.obj, TimedOut);
      StillCur(Logged(k, Failed(x.obj, TimedOut)), Not, User);
      MovesThenStill(k, Logged(k, Failed(x.obj, TimedOut)), Block(k, x, outer, t1, t2));
    } else {
      BlockStill(k, x, outer, t1, t2);
    }
  }

  lemma StillTransitive(k: Kernel, m: Kernel, r: Kernel)
    requires Still(k, m) && Still(m, r)
    ensures Still(k, r)
  {
  }

  lemma StillProc(k: Kernel, p: Pid, q: Proc)
    requires p in k.procs && q.part == k.procs[p].part
    ensures Still(k, WithProc(k, p, q))
  {
  }

  lemma StillListing(k: Kernel, m: Kernel, o: ObjId)
    requires o in k.objs && Still(k, m) && m.objs == k.objs
    ensures Still(k, WithObj(m, o, Listing(k, o)))
  {
  }

  lemma BlockStill(k: Kernel, x: Xfer, outer: int, t1: int, t2: int)
    requires k.cur in k.procs && x.obj in k.objs && !(x.timeout != INFINITE && outer <= t1)
    ensures Still(k, Block(k, x, outer, t1, t2))
  {
    var kind := k.objs[x.obj].KindOf();
    if x.timeout == INFINITE {
      StillProc(k, k.cur, BlockedProc(k.procs[k.cur], kind, x, outer, outer, None));
      StillListing(k, WithProc(k, k.cur, BlockedProc(k.procs[k.cur], kind, x, outer, outer, None)), x.obj);
    } else {
      var inner := InnerDeadline(kind, x, outer, t2);
      var n := NewContext(k, x.obj);
      assert Still(k, n);
      var k1 := WithProc(n, k.cur, BlockedProc(k.procs[k.cur], kind, x, outer, inner, Some(k.nextCtx)));
      StillProc(n, k.cur, BlockedProc(k.procs[k.cur], kind, x, outer, inner, Some(k.nextCtx)));
      var k2 := EventAlloc(k1, inner, BlockTimeout(kind, k.nextCtx));
      QuietAlloc(k1, inner, BlockTimeout(kind, k.nextCtx));
      StillTransitive(k, n, k1);
      StillTransitive(k, k1, k2);
      StillListing(k, k2, x.obj);
    }
  }

  lemma AfterTransferStill(k: Kernel, x: Xfer)
    requires k.cur in k.procs && x.obj in k.objs
    ensures Quiet(k, AfterTransfer(k, x))
  {
    QuietWakeOne(k, x.obj, x.disc);
    var k1 := WakeOne(k, x.obj, x.disc);
    var giving := if k.objs[x.obj].waiting != [] && k.objs[x.obj].KindOf() == BufferKind then Yes(Fresh(false)) else Not;
    QuietProc(k1, k1.cur, k1.procs[k1.cur].(giving := giving, pc := User));
    QuietTransitive(k, k1, AfterTransfer(k, x));
  }

  lemma WriteTransfers(k: Kernel, o: ObjId, c: Obj, e: Entry)
    requires o in k.objs && e.obj == o && SameShape(k.objs[o], c) && Applies(k.objs[o], c, e)
    ensures Transfers(k, Logged(WithObj(k, o, c), e), e)
  {
  }

  /** The entry a completed transfer logs. */
  function EntryOf(b: Obj, x: Xfer): Entry
    requires Suits(b, x.op) && !Obstructed(b, x.op)
  {
    match x.op
    case Send(m) => Sent(x.obj, m)
    case Recv => Received(x.obj, b.msgs[0])
    case Read => Seen(x.obj, b.shown)
  }

  lemma WriteThenWakes(k: Kernel, x: Xfer, c: Obj, e: Entry)
    requires k.cur in k.procs && x.obj in k.objs && e.obj == x.obj && SameShape(k.objs[x.obj], c) && Applies(k.objs[x.obj], c, e)
    ensures Transfers(k, AfterTransfer(Logged(WithObj(k, x.obj, c), e), x), e)
  {
    var k1 := Logged(WithObj(k, x.obj, c), e);
    WriteTransfers(k, x.obj, c, e);
    AfterTransferStill(k1, x);
    ThenStill(k, k1, AfterTransfer(k1, x), e);
  }

  lemma CompleteTransfers(k: Kernel, x: Xfer)
    requires k.cur in k.procs && x.obj in k.objs && Suits(k.objs[x.obj], x.op) && !Obstructed(k.objs[x.obj], x.op)
    requires k.objs[x.obj].Ring? ==> |k.objs[x.obj].msgs| <= k.objs[x.obj].cap
    ensures Transfers(k, Complete(k, x), EntryOf(k.objs[x.obj], x))
  {
    var b := k.objs[x.obj];
    var e := EntryOf(b, x);
    match x.op
    case Send(m) => WriteThenWakes(k, x, b.(msgs := b.msgs + [m]), e);
    case Recv => WriteThenWakes(k, x, b.(msgs := b.msgs[1..]), e);
    case Read =>
      assert Transfers(k, Logged(k, e), e);
      StillCur(Logged(k, e), Not, User);
      ThenStill(k, Logged(k, e), Complete(k, x), e);
  }

  lemma LoopOnMoves(k: Kernel, x: Xfer, outer: int, t1: int, t2: int)
    requires k.cur in k.procs && x.obj in k.objs && Suits(k.objs[x.obj], x.op)
    requires k.objs[x.obj].Ring? ==> |k.objs[x.obj].msgs| <= k.objs[x.obj].cap
    ensures Moves(k, LoopOn(k, x, outer, t1, t2))
  {
    if Obstructed(k.objs[x.obj], x.op) {
      BlockMoves(k, x, outer, t1, t2);
    } else {
      CompleteTransfers(k, x);
    }
  }

  ghost predicate WithinCapacity(k: Kernel) {
    forall o :: o in k.objs && k.objs[o].Ring? ==> |k.objs[o].msgs| <= k.objs[o].cap
  }

  lemma StartXferMoves(k: Kernel, x: Xfer, t0: int, t1: int, t2: int, r: Kernel)
    requires k.cur in k.procs && x.obj in k.objs && Suits(k.objs[x.obj], x.op) && WithinCapacity(k)
    requires r == StartXfer(k, x, t0, t1, t2)
    ensures Moves(k, r)
  {
    if Obstructed(k.objs[x.obj], x.op) && x.timeout == 0 {
      FailedMoves(k, x.obj, NotAvailable);
    } else {
      EnterMoves(k, x, t0, t1, t2, r);
    }
  }

  lemma EnterMoves(k: Kernel, x: Xfer, t0: int, t1: int, t2: int, r: Kernel)
    requires k.cur in k.procs && x.obj in k.objs && Suits(k.objs[x.obj], x.op) && WithinCapacity(k)
    requires r == LoopOn(k, x, t0 + x.timeout, t1, t2)
    ensures Moves(k, r)
  {
    LoopOnMoves(k, x, t0 + x.timeout, t1, t2);
  }

  lemma TimeOutMoves(k: Kernel, k1: Kernel, o: ObjId)
    requires Still(k, k1) && k1.cur in k1.procs && o in k1.objs
    ensures Moves(k, SetCur(Logged(k1, Failed(o, TimedOut)), Not, User))
  {
    var r := SetCur(Logged(k1, Failed(o, TimedOut)), Not, User);
    FailedMoves(k1, o, TimedOut);
    StillCur(Logged(k1, Failed(o, TimedOut)), Not, User);
    MovesThenStill(k1, Logged(k1, Failed(o, TimedOut)), r);
    StillThen(k, k1, r);
  }

  lemma ResumeMoves(k: Kernel, t: int, t1: int, t2: int, r: Kernel)
    requires Enabled(k, Continue(t, t1, t2)) && k.procs[k.cur].pc.Retry? && WithinCapacity(k)
    requires r == Resume(k, t, t1, t2)
    ensures Moves(k, r)
  {
    var pc := k.procs[k.cur].pc;
    var k1 := ContextFreed(k, pc);
    FreedStill(k, k1, pc);
    if pc.x.timeout != INFINITE && t >= pc.inner {
      TimeOutMoves(k, k1, pc.x.obj);
    } else {
      RetryMoves(k, k1, pc.x, pc.outer, t1, t2, r);
    }
  }

  lemma FreedStill(k: Kernel, k1: Kernel, pc: Pc)
    requires pc.Retry? && k1 == ContextFreed(k, pc)
    ensures Still(k, k1) && k1.objs == k.objs && k1.procs == k.procs && k1.cur == k.cur
  {
  }

  lemma RetryMoves(k: Kernel, k1: Kernel, x: Xfer, outer: int, t1: int, t2: int, r: Kernel)
    requires Still(k, k1) && WithinCapacity(k) && k1.cur in k1.procs && x.obj in k1.objs && Suits(k1.objs[x.obj], x.op)
    requires r == LoopOn(SetCur(k1, Not, User), x, outer, t1, t2)
    ensures Moves(k, r)
  {
    var k2 := SetCur(k1, Not, User);
    StillCur(k1, Not, User);
    StillTransitive(k, k1, k2);
    LoopOnMoves(k2, x, outer, t1, t2);
    StillThen(k, k2, r);
  }

  lemma DisplayMoves(k: Kernel, id: nat, msg: Msg)
    requires k.cur in k.procs
    ensures Moves(k, DoDisplay(k, id, msg))
  {
    if HasBoard(k, id) && 0 < |msg| <= k.objs[k.handles[(BoardKind, id)].obj].maxSize {
      var o := k.handles[(BoardKind, id)].obj;
      var b1 := Board(k.objs[o].maxSize, msg, true, k.objs[o].waiting);
      WriteTransfers(k, o, b1, Shown(o, msg));
      var k1 := Logged(WithObj(k, o, b1), Shown(o, msg));
      QuietWakeAll(k1, o);
      ThenStill(k, k1, WakeAll(k1, o), Shown(o, msg));
      if WakeAll(k1, o).cur in WakeAll(k1, o).procs { StillCur(WakeAll(k1, o), Yes(Fresh(false)), User); }
      ThenStill(k, WakeAll(k1, o), DoDisplay(k, id, msg), Shown(o, msg));
    }
  }

  lemma ClearBoardMoves(k: Kernel, id: nat)
    ensures Moves(k, DoClearBoard(k, id))
  {
    if HasBoard(k, id) {
      var o := k.handles[(BoardKind, id)].obj;
      var b := k.objs[o];
      WriteTransfers(k, o, Board(b.maxSize, b.shown, false, b.waiting), Cleared(o));
    }
  }

  lemma ClearTransfers(k: Kernel, h: Handle)
    requires h.obj in k.objs && k.objs[h.obj].Ring?
    ensures Transfers(k, Clear(k, h), Cleared(h.obj))
  {
    var o := h.obj;
    var k1 := if |k.objs[o].msgs| == k.objs[o].cap then WakeOne(k, o, h.disc) else k;
    QuietWakeOne(k, o, h.disc);
    assert Still(k, k1);
    WakeOneKeeps(k, o, h.disc);
    WriteTransfers(k1, o, k1.objs[o].(msgs := []), Cleared(o));
    StillThenTransfer(k, k1, Clear(k, h), Cleared(o));
  }

  lemma StillThenTransfer(k: Kernel, m: Kernel, r: Kernel, e: Entry)
    requires Still(k, m) && Transfers(m, r, e)
    ensures Transfers(k, r, e)
  {
  }

  // ----- the services that move nothing -----

  lemma QuietGiveUp(k: Kernel, m: Kernel, roundRobin: bool)
    requires Quiet(k, m) && m.cur in m.procs
    ensures Quiet(k, GiveUpAfter(m, roundRobin))
  {
    QuietProc(m, m.cur, m.procs[m.cur].(giving := Yes(Fresh(roundRobin)), pc := m.procs[m.cur].pc));
    QuietTransitive(k, m, GiveUpAfter(m, roundRobin));
  }

  lemma QuietArmed(k: Kernel, p: Pid, q: Proc, time: int, w: What)
    requires p in k.procs && q.part == k.procs[p].part && (q.pc.Retry? ==> q.pc == k.procs[p].pc)
    ensures Quiet(k, EventAlloc(WithProc(k, p, q), time, w))
  {
    QuietProc(k, p, q);
    QuietAlloc(WithProc(k, p, q), time, w);
    QuietTransitive(k, WithProc(k, p, q), EventAlloc(WithProc(k, p, q), time, w));
  }

  lemma QuietSame(k: Kernel)
    ensures Quiet(k, k)
  {
  }

  lemma QuietSuspendSelf(k: Kernel, timeout: int, t: int)
    requires k.cur in k.procs
    ensures Quiet(k, DoSuspendSelf(k, timeout, t))
  {
    var q := k.procs[k.cur];
    QuietSame(k);
    QuietArmed(k, k.cur, Asleep(q, Waiting, SuspendedTimed, SuspendCheck(t + timeout)), t + timeout, SuspendTimeout(k.cur));
    QuietProc(k, k.cur, Asleep(q, Waiting, Suspended, q.pc));
  }

  lemma QuietSuspend(k: Kernel, p: Pid)
    requires k.cur in k.procs
    ensures Quiet(k, DoSuspend(k, p))
  {
    QuietSame(k);
    if Local(k, p) {
      QuietProc(k, p, Put(k.procs[p], Waiting, Suspended));
      QuietGiveUp(k, WithProc(k, p, Put(k.procs[p], Waiting, Suspended)), false);
    }
  }

  lemma QuietPut(k: Kernel, k1: Kernel, p: Pid, state: PState, reason: Reason)
    requires Quiet(k, k1) && p in k1.procs && k1.cur in k1.procs
    ensures Quiet(k, GiveUpAfter(WithProc(k1, p, Put(k1.procs[p], state, reason)), false))
  {
    var k2 := WithProc(k1, p, Put(k1.procs[p], state, reason));
    QuietProc(k1, p, Put(k1.procs[p], state, reason));
    QuietTransitive(k, k1, k2);
    QuietGiveUp(k, k2, false);
  }

  lemma QuietResume(k: Kernel, p: Pid)
    requires k.cur in k.procs
    ensures Quiet(k, DoResume(k, p))
  {
    QuietSame(k);
    if Local(k, p) {
      var q := k.procs[p];
      QuietFree(k, p);
      QuietPut(k, if q.state == Waiting && q.reason == SuspendedTimed then EventFree(k, p) else k, p, Ready, q.reason);
    }
  }

  lemma QuietStop(k: Kernel, p: Pid)
    requires k.cur in k.procs
    ensures Quiet(k, DoStop(k, p))
  {
    QuietSame(k);
    if Local(k, p) {
      QuietFree(k, p);
      QuietPut(k, EventFree(k, p), p, Dormant, EventFree(k, p).procs[p].reason);
    }
  }

  lemma QuietAperiodic(k: Kernel, p: Pid, delay: int, t: int)
    requires k.cur in k.procs && p in k.procs
    ensures Quiet(k, StartAperiodic(k, p, delay, t))
  {
    var q := k.procs[p];
    if delay == 0 {
      QuietProc(k, p, Reset(q, Ready, q.reason));
      QuietGiveUp(k, WithProc(k, p, Reset(q, Ready, q.reason)), false);
    } else {
      QuietArmed(k, p, Reset(q, Waiting, DelayedStarted), t + delay, DelayedStart(p));
      QuietGiveUp(k, EventAlloc(WithProc(k, p, Reset(q, Waiting, DelayedStarted)), t + delay, DelayedStart(p)), false);
    }
  }

  lemma QuietStart(k: Kernel, p: Pid, delay: int, t: int)
    requires k.cur in k.procs
    ensures Quiet(k, DoStart(k, p, delay, t))
  {
    QuietSame(k);
    if Local(k, p) {
      var k0 := k.(held := k.held - {p});
      QuietProc(k0, p, Reset(k0.procs[p], Waiting, if InNormalMode(k0) then DelayedStarted else PreviousStarted));
      QuietAperiodic(k0, p, delay, t);
      QuietTransitive(k, k0, StartDormant(k0, p, delay, t));
    }
  }

  lemma QuietWait(k: Kernel, delay: int, t: int)
    requires k.cur in k.procs
    ensures Quiet(k, DoWait(k, delay, t))
  {
    QuietSame(k);
    QuietGiveUp(k, k, true);
    QuietArmed(k, k.cur, Asleep(k.procs[k.cur], Waiting, TimedWait, k.procs[k.cur].pc), t + delay, TimedWaitTimeout(k.cur));
  }

  lemma QuietSetPriority(k: Kernel, p: Pid, pri: nat)
    requires k.cur in k.procs
    ensures Quiet(k, DoSetPriority(k, p, pri))
  {
    QuietSame(k);
    if Local(k, p) {
      QuietProc(k, p, k.procs[p].(pri := pri));
      QuietGiveUp(k, WithProc(k, p, k.procs[p].(pri := pri)), false);
    }
  }

  lemma QuietSetMode(k: Kernel, op: OpMode)
    requires k.cur in k.procs
    ensures Quiet(k, DoSetMode(k, op))
  {
    var k1 := k.(opMode := k.opMode[k.part := op]);
    assert Quiet(k, k1);
    var k2 := Released(k1);
    assert Quiet(k, k2);
    var q := k2.procs[k2.cur];
    QuietProc(k2, k2.cur, Asleep(q, Dormant, q.reason, q.pc));
    QuietTransitive(k, k2, WithProc(k2, k2.cur, Asleep(q, Dormant, q.reason, q.pc)));
  }

  lemma QuietFire(k: Kernel)
    requires k.queue != []
    ensures Quiet(k, Fire(k))
  {
    var w, m := k.queue[0].what, k.(queue := k.queue[1..], procs := Fire(k).procs);
    if w.BlockTimeout? && w.ctx in k.ctxs && k.ctxs[w.ctx].obj in k.objs {
      var c := k.ctxs[w.ctx];
      QuietUnlist(m, Fire(k), c.obj, c.proc);
    }
    QuietTransitive(k, m, Fire(k));
  }

  lemma QuietUnlist(k: Kernel, r: Kernel, o: ObjId, p: Pid)
    requires o in k.objs && r == k.(objs := k.objs[o := k.objs[o].Awaited(Without(k.objs[o].waiting, p))])
    ensures Quiet(k, r)
  {
    WithoutSubset(k.objs[o].waiting, p);
  }

  lemma {:induction false} QuietFireDue(k: Kernel, t: int)
    ensures Quiet(k, FireDue(k, t))
    decreases |k.queue|
  {
    QuietSame(k);
    if k.queue != [] && k.queue[0].time <= t {
      QuietFire(k);
      QuietFireDue(Fire(k), t);
      QuietTransitive(k, Fire(k), FireDue(Fire(k), t));
    }
  }

  lemma QuietPreempt(k: Kernel, m: Kernel, roundRobin: bool)
    requires Quiet(k, m)
    ensures Quiet(k, Preempt(m, roundRobin))
  {
    assert Quiet(m, Preempt(m, roundRobin));
    QuietTransitive(k, m, Preempt(m, roundRobin));
  }

  lemma QuietTick(k: Kernel, t: int, nextPart: Part, nextTime: int)
    ensures Quiet(k, Tick(k, t, nextPart, nextTime))
  {
    var k1 := FireDue(k, t);
    QuietFireDue(k, t);
    QuietAlloc(k1, nextTime, PartitionActivate);
    var k2 := EventAlloc(k1, nextTime, PartitionActivate);
    QuietTransitive(k, k1, k2);
    assert Quiet(k, k2.(part := nextPart));
    QuietPreempt(k, k2.(part := nextPart), false);
    QuietPreempt(k, k1, false);
  }

  lemma QuietElections(k: Kernel, s: Step)
    requires Enabled(k, s) && (s.Scan? || s.GiveUp? || s.Dispatch?)
    ensures Quiet(k, Next(k, s))
  {
    QuietSame(k);
    if s.Scan? {
      QuietScan(k, Scanned(k, SearchOf(k)));
    } else if s.GiveUp? {
      QuietProc(k, k.cur, k.procs[k.cur].(giving := Not, pc := k.procs[k.cur].pc));
      QuietPreempt(k, SetCur(k, Not, k.procs[k.cur].pc), SearchOf(k).above.Some?);
    } else {
      QuietRun(k, k.mode.search.best.value);
    }
  }

  lemma QuietScan(k: Kernel, s: Search)
    requires Searching(k)
    ensures Quiet(k, WithSearch(k, s))
  {
    if k.mode == Executing { QuietProc(k, k.cur, k.procs[k.cur].(giving := Yes(s), pc := k.procs[k.cur].pc)); }
  }

  lemma QuietRun(k: Kernel, p: Pid)
    requires p in k.procs
    ensures Quiet(k, Run(k, p))
  {
    QuietProc(k, p, k.procs[p].(state := Running));
  }

  lemma QuietCall(k: Kernel, c: Call, t0: int, t1: int, t2: int)
    requires k.cur in k.procs && !Communicates(c)
    ensures Quiet(k, Syscall(k, c, t0, t1, t2))
  {
    match c
    case SuspendSelf(timeout) => QuietSuspendSelf(k, timeout, t0);
    case Suspend(p) => QuietSuspend(k, p);
    case ResumeProc(p) => QuietResume(k, p);
    case StopSelf => QuietProc(k, k.cur, Asleep(k.procs[k.cur], Dormant, k.procs[k.cur].reason, k.procs[k.cur].pc));
    case Stop(p) => QuietStop(k, p);
    case Start(p, delay) => QuietStart(k, p, delay, t0);
    case Wait(delay) => QuietWait(k, delay, t0);
    case SetPriority(p, pri) => QuietSetPriority(k, p, pri);
    case SetMode(op) => QuietSetMode(k, op);
  }

  lemma CommMoves(k: Kernel, c: Call, t0: int, t1: int, t2: int)
    requires k.cur in k.procs && Communicates(c) && WithinCapacity(k)
    ensures Moves(k, Syscall(k, c, t0, t1, t2))
  {
    QuietSame(k);
    match c
    case SendTo(kind, id, msg, timeout) =>
      if SendCheck(k, kind, id, |msg|) == NoError {
        var h := k.handles[(kind, id)];
        StartXferMoves(k, Xfer(h.obj, Send(msg), h.disc, timeout), t0, t1, t2, Syscall(k, c, t0, t1, t2));
      }
    case ReceiveFrom(kind, id, timeout) =>
      if ReceiveCheck(k, kind, id) == NoError {
        var h := k.handles[(kind, id)];
        StartXferMoves(k, Xfer(h.obj, Recv, h.disc, timeout), t0, t1, t2, Syscall(k, c, t0, t1, t2));
      }
    case ReadBoard(id, timeout) =>
      if HasBoard(k, id) {
        var h := k.handles[(BoardKind, id)];
        StartXferMoves(k, Xfer(h.obj, Read, h.disc, timeout), t0, t1, t2, Syscall(k, c, t0, t1, t2));
      }
    case Display(id, msg) => DisplayMoves(k, id, msg);
    case ClearBoard(id) => ClearBoardMoves(k, id);
    case ClearPort(id) =>
      if ReceiveCheck(k, PortKind, id) == NoError && k.objs[k.handles[(PortKind, id)].obj].Ring? {
        ClearTransfers(k, k.handles[(PortKind, id)]);
      }
  }

  /** Every step either moves nothing or performs exactly one logged transfer. */
  lemma StepMoves(k: Kernel, s: Step)
    requires Enabled(k, s) && WithinCapacity(k)
    ensures Moves(k, Next(k, s))
  {
    match s
    case Enter(c, t0, t1, t2) =>
      if Communicates(c) {
        CommMoves(k, c, t0, t1, t2);
      } else {
        QuietCall(k, c, t0, t1, t2);
      }
    case Continue(t, t1, t2) =>
      if k.procs[k.cur].pc.SuspendCheck? {
        StillCur(k, Not, User);
      } else {
        ResumeMoves(k, t, t1, t2, Next(k, s));
      }
    case Scan => QuietElections(k, s);
    case GiveUp => QuietElections(k, s);
    case Dispatch => QuietElections(k, s);
    case Interrupt(t, nextPart, nextTime) => QuietTick(k, t, nextPart, nextTime);
  }

  // ----- refinement -----

  /** Every object holds what its history replays to, and the history is one a FIFO queue or register allows. */
  ghost predicate Faithful(k: Kernel) {
    forall o :: o in k.objs ==>
      && Legal(k.log, k.objs[o], o)
      && (k.objs[o].Ring? ==> k.objs[o].msgs == Queued(k.log, o) && |k.objs[o].msgs| <= k.objs[o].cap)
      && (k.objs[o].Board? ==> Displayed(k.log, o) == if k.objs[o].occupied then Some(k.objs[o].shown) else None)
  }

  lemma LegalExtends(log: seq<Entry>, e: Entry, b: Obj, c: Obj, o: ObjId)
    requires Legal(log, b, o) && SameShape(b, c) && Allowed(log, e, b, o)
    ensures Legal(log + [e], c, o)
  {
    var l := log + [e];
    forall n | 0 <= n < |l| ensures Allowed(l[..n], l[n], c, o) {
      if n < |log| {
        assert l[..n] == log[..n];
        assert Allowed(log[..n], log[n], b, o);
      } else {
        assert l[..n] == log;
      }
    }
  }

  /** Replaying one more entry. */
  lemma ReplayStep(log: seq<Entry>, e: Entry, o: ObjId)
    ensures (log + [e])[..|log|] == log && (log + [e])[|log|] == e
    ensures e.obj != o ==> Queued(log + [e], o) == Queued(log, o) && Displayed(log + [e], o) == Displayed(log, o)
  {
  }

  lemma ReplayApplied(log: seq<Entry>, e: Entry, b: Obj, c: Obj, o: ObjId)
    requires e.obj == o && Applies(b, c, e) && SameShape(b, c)
    requires b.Ring? ==> b.msgs == Queued(log, o)
    requires b.Board? ==> Displayed(log, o) == if b.occupied then Some(b.shown) else None
    ensures Allowed(log, e, b, o)
    ensures c.Ring? ==> c.msgs == Queued(log + [e], o)
    ensures c.Board? ==> Displayed(log + [e], o) == if c.occupied then Some(c.shown) else None
  {
    ReplayStep(log, e, o);
  }

  /** Every step keeps objects and history in agreement. */
  lemma StepFaithful(k: Kernel, s: Step)
    requires Enabled(k, s) && Faithful(k)
    ensures Faithful(Next(k, s)) && Static(k, Next(k, s))
  {
    StepMoves(k, s);
    var r := Next(k, s);
    if Still(k, r) {
      StillFaithful(k, r);
    } else {
      TransferFaithful(k, r, r.log[|r.log| - 1]);
    }
  }

  lemma StillFaithful(k: Kernel, r: Kernel)
    requires Faithful(k) && Still(k, r)
    ensures Faithful(r)
  {
    forall o | o in r.objs ensures Legal(r.log, r.objs[o], o) {
      assert Legal(k.log, k.objs[o], o);
      forall n | 0 <= n < |r.log| ensures Allowed(r.log[..n], r.log[n], r.objs[o], o) {
        assert Allowed(k.log[..n], k.log[n], k.objs[o], o);
      }
    }
  }

  lemma TransferFaithful(k: Kernel, r: Kernel, e: Entry)
    requires Faithful(k) && Transfers(k, r, e)
    ensures Faithful(r)
  {
    forall o | o in r.objs
      ensures Legal(r.log, r.objs[o], o)
      ensures r.objs[o].Ring? ==> r.objs[o].msgs == Queued(r.log, o) && |r.objs[o].msgs| <= r.objs[o].cap
      ensures r.objs[o].Board? ==> Displayed(r.log, o) == if r.objs[o].occupied then Some(r.objs[o].shown) else None
    {
      if e.obj == o {
        ReplayApplied(k.log, e, k.objs[o], r.objs[o], o);
      } else {
        ReplayStep(k.log, e, o);
      }
      LegalExtends(k.log, e, k.objs[o], r.objs[o], o);
    }
  }

  // ----- what a legal history means for the messages -----

  /** The messages sent to ring o, in order. */
  function Sends(log: seq<Entry>, o: ObjId): seq<Msg>
    decreases |log|
  {
    if log == [] then []
    else
      var s := Sends(log[..|log| - 1], o);
      match log[|log| - 1]
      case Sent(a, m) => if a == o then s + [m] else s
      case _ => s
  }

  /** The messages received from ring o, in order. */
  function Receives(log: seq<Entry>, o: ObjId): seq<Msg>
    decreases |log|
  {
    if log == [] then []
    else
      var s := Receives(log[..|log| - 1], o);
      match log[|log| - 1]
      case Received(a, m) => if a == o then s + [m] else s
      case _ => s
  }

  /** The messages that left ring o, each with whether it was received rather than cleared. */
  function Gone(log: seq<Entry>, o: ObjId): seq<(Msg, bool)>
    decreases |log|
  {
    if log == [] then []
    else
      var g := Gone(log[..|log| - 1], o);
      match log[|log| - 1]
      case Received(a, m) => if a == o then g + [(m, true)] else g
      case Cleared(a) => if a == o then g + Marked(Queued(log[..|log| - 1], o)) else g
      case _ => g
  }

  function Marked(ms: seq<Msg>): seq<(Msg, bool)> {
    seq(|ms|, i requires 0 <= i < |ms| => (ms[i], false))
  }

  function Messages(g: seq<(Msg, bool)>): seq<Msg> {
    seq(|g|, i requires 0 <= i < |g| => g[i].0)
  }

  function Kept(g: seq<(Msg, bool)>): seq<Msg>
    decreases |g|
  {
    if g == [] then [] else Kept(g[..|g| - 1]) + if g[|g| - 1].1 then [g[|g| - 1].0] else []
  }

  lemma {:induction false} KeptAppend(g: seq<(Msg, bool)>, h: seq<(Msg, bool)>)
    ensures Kept(g + h) == Kept(g) + Kept(h)
    decreases |h|
  {
    if h == [] {
      assert g + h == g;
    } else {
      KeptAppend(g, h[..|h| - 1]);
      assert (g + h)[..|g + h| - 1] == g + h[..|h| - 1];
    }
  }

  lemma {:induction false} KeptMarked(ms: seq<Msg>)
    ensures Kept(Marked(ms)) == []
    decreases |ms|
  {
    if ms != [] {
      KeptMarked(ms[..|ms| - 1]);
      assert Marked(ms)[..|ms| - 1] == Marked(ms[..|ms| - 1]);
    }
  }

  /** Messages sent are the messages gone followed by the messages held, in order; and the messages received
      are those gone that were not cleared, in order. */
  lemma {:induction false} SentAreGoneOrHeld(log: seq<Entry>, b: Obj, o: ObjId)
    requires Legal(log, b, o)
    ensures Sends(log, o) == Messages(Gone(log, o)) + Queued(log, o)
    ensures Receives(log, o) == Kept(Gone(log, o))
    decreases |log|
  {
    if log != [] {
      var l, e := log[..|log| - 1], log[|log| - 1];
      assert Legal(l, b, o) by {
        forall n | 0 <= n < |l| ensures Allowed(l[..n], l[n], b, o) {
          assert l[..n] == log[..n];
          assert Allowed(log[..n], log[n], b, o);
        }
      }
      assert Allowed(l, e, b, o) by { assert log[..|log| - 1] == l; }
      SentAreGoneOrHeld(l, b, o);
      GoneStep(log, b, o);
    }
  }

  lemma GoneStep(log: seq<Entry>, b: Obj, o: ObjId)
    requires log != [] && Allowed(log[..|log| - 1], log[|log| - 1], b, o)
    requires var l := log[..|log| - 1];
             Sends(l, o) == Messages(Gone(l, o)) + Queued(l, o) && Receives(l, o) == Kept(Gone(l, o))
    ensures Sends(log, o) == Messages(Gone(log, o)) + Queued(log, o)
    ensures Receives(log, o) == Kept(Gone(log, o))
  {
    var l, e := log[..|log| - 1], log[|log| - 1];
    var g, q := Gone(l, o), Queued(l, o);
    if e == Cleared(o) {
      ClearedGone(g, q);
    } else if e.Received? && e.obj == o {
      ReceivedGone(g, q, e.msg);
    }
  }

  lemma ReceivedGone(g: seq<(Msg, bool)>, q: seq<Msg>, m: Msg)
    requires q != [] && q[0] == m
    ensures Messages(g + [(m, true)]) + q[1..] == Messages(g) + q
    ensures Kept(g + [(m, true)]) == Kept(g) + [m]
  {
    assert Messages(g + [(m, true)]) == Messages(g) + [m];
    assert (g + [(m, true)])[..|g|] == g;
  }

  lemma ClearedGone(g: seq<(Msg, bool)>, q: seq<Msg>)
    ensures Messages(g + Marked(q)) == Messages(g) + q
    ensures Kept(g + Marked(q)) == Kept(g)
  {
    KeptAppend(g, Marked(q));
    KeptMarked(q);
  }
}
