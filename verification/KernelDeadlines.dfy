/** Timeouts against the clock: when the timer of a bounded wait is due, that a process it wakes returns TIMED_OUT,
    and which waits can outlast their timeout. */
module KernelDeadlines {
  import opened Common
  import opened TimerQueue
  import opened Election
  import opened KernelSpec
  import opened KernelInv
  import opened KernelSteps
  import opened KernelCalls
  import opened KernelTimer
  import opened KernelFifo
  import opened KernelRuns
  import opened KernelWakeups

  // ----- the clock -----

  /** The clock readings of a step are in order, and none is before the time given. */
  predicate InOrder(s: Step, from: int) {
    match s
    case Enter(_, t0, t1, t2) => from <= t0 <= t1 <= t2
    case Continue(t, t1, t2) => from <= t <= t1 <= t2
    case Interrupt(t, _, _) => from <= t
    case _ => true
  }

  /** The last reading so far. */
  function Reading(s: Step, before: int): int {
    match s
    case Enter(_, _, _, t2) => t2
    case Continue(_, _, t2) => t2
    case Interrupt(t, _, _) => t
    case _ => before
  }

  function Clock(steps: seq<Step>): int
    decreases |steps|
  {
    if steps == [] then 0 else Reading(steps[|steps| - 1], Clock(steps[..|steps| - 1]))
  }

  /** The clock never goes back. */
  predicate Timely(steps: seq<Step>)
    decreases |steps|
  {
    steps == [] || (Timely(steps[..|steps| - 1]) && InOrder(steps[|steps| - 1], Clock(steps[..|steps| - 1])))
  }

  /** The kernel of a run before step i. */
  ghost function StateAt(k: Kernel, steps: seq<Step>, i: nat): Kernel
    requires Runs(k, steps) && i <= |steps|
    decreases |steps|
  {
    if i == |steps| then Final(k, steps) else StateAt(k, steps[..|steps| - 1], i)
  }

  lemma {:induction false} StateSound(k: Kernel, steps: seq<Step>, i: nat)
    requires Boot(k) && Runs(k, steps) && AlwaysFitting(k, steps) && i <= |steps|
    ensures Sound(StateAt(k, steps, i))
    decreases |steps|
  {
    if i == |steps| { RunSound(k, steps); } else { StateSound(k, steps[..|steps| - 1], i); }
  }

  lemma {:induction false} StateNext(k: Kernel, steps: seq<Step>, i: nat)
    requires Runs(k, steps) && i < |steps|
    ensures Enabled(StateAt(k, steps, i), steps[i]) && StateAt(k, steps, i + 1) == Next(StateAt(k, steps, i), steps[i])
    decreases |steps|
  {
    if i + 1 < |steps| { StateNext(k, steps[..|steps| - 1], i); }
  }

  lemma {:induction false} ClockRises(steps: seq<Step>, i: nat)
    requires Timely(steps) && i <= |steps|
    ensures Clock(steps[..i]) <= Clock(steps) && Timely(steps[..i])
    decreases |steps|
  {
    if i == |steps| {
      assert steps[..i] == steps;
    } else {
      ClockRises(steps[..|steps| - 1], i);
      assert steps[..|steps| - 1][..i] == steps[..i];
    }
  }

  /** A later step reads the clock no earlier. */
  lemma ReadsLater(steps: seq<Step>, i: nat, n: nat)
    requires Timely(steps) && i < n < |steps| && steps[i].Interrupt? && steps[n].Continue?
    ensures steps[i].t <= steps[n].t
  {
    var front := steps[..n];
    ClockRises(steps, n + 1);
    assert steps[..n + 1][..n] == front;
    ClockRises(steps, n);
    ClockRises(front, i + 1);
    assert front[..i + 1][..i] == front[..i] && front[..i + 1][i] == steps[i];
  }

  // ----- who changes a continuation -----

  /** The process makes a call or goes on behind a give-up. */
  predicate Acts(k: Kernel, s: Step, p: Pid) {
    k.cur == p && (s.Enter? || s.Continue?)
  }

  /** The continuations inside a loop of all processes but the current one are as before. */
  ghost predicate OthersStay(k: Kernel, r: Kernel) {
    r.procs.Keys == k.procs.Keys
    && forall p :: p in k.procs && p != k.cur && r.procs[p].pc.Retry? ==> r.procs[p].pc == k.procs[p].pc
  }

  lemma WriteStays(k: Kernel, k1: Kernel, x: Xfer)
    requires k.cur in k.procs && k1.procs == k.procs && k1.cur == k.cur && x.obj in k1.objs
    ensures OthersStay(k, AfterTransfer(k1, x))
  {
    AfterTransferStill(k1, x);
  }

  lemma LoopStays(k: Kernel, x: Xfer, outer: int, t1: int, t2: int, r: Kernel)
    requires k.cur in k.procs && x.obj in k.objs && Suits(k.objs[x.obj], x.op) && r == LoopOn(k, x, outer, t1, t2)
    ensures OthersStay(k, r)
  {
    if Obstructed(k.objs[x.obj], x.op) {
      BlockEffect(k, x, outer, t1, t2, r);
    } else {
      CompleteStays(k, x);
    }
  }

  lemma CompleteStays(k: Kernel, x: Xfer)
    requires k.cur in k.procs && x.obj in k.objs && Suits(k.objs[x.obj], x.op) && !Obstructed(k.objs[x.obj], x.op)
    ensures OthersStay(k, Complete(k, x))
  {
    var b := k.objs[x.obj];
    match x.op
    case Send(m) => WriteStays(k, Logged(WithObj(k, x.obj, b.(msgs := b.msgs + [m])), Sent(x.obj, m)), x);
    case Recv => WriteStays(k, Logged(WithObj(k, x.obj, b.(msgs := b.msgs[1..])), Received(x.obj, b.msgs[0])), x);
    case Read =>
  }

  lemma StartStays(k: Kernel, x: Xfer, t0: int, t1: int, t2: int, r: Kernel)
    requires k.cur in k.procs && x.obj in k.objs && Suits(k.objs[x.obj], x.op) && r == StartXfer(k, x, t0, t1, t2)
    ensures OthersStay(k, r)
  {
    if Obstructed(k.objs[x.obj], x.op) && x.timeout == 0 {
      assert r.procs == k.procs;
    } else {
      LoopStays(k, x, t0 + x.timeout, t1, t2, r);
    }
  }

  lemma ResumeStays(k: Kernel, t: int, t1: int, t2: int, r: Kernel)
    requires Enabled(k, Continue(t, t1, t2)) && k.procs[k.cur].pc.Retry? && r == Resume(k, t, t1, t2)
    ensures OthersStay(k, r)
  {
    var pc := k.procs[k.cur].pc;
    var k1 := ContextFreed(k, pc);
    FreedStill(k, k1, pc);
    if pc.x.timeout == INFINITE || t < pc.inner {
      RoundStays(k, k1, pc.x, pc.outer, t1, t2, r);
    } else {
      assert OthersStay(k, SetCur(Logged(k1, Failed(pc.x.obj, TimedOut)), Not, User));
    }
  }

  lemma RoundStays(k: Kernel, k1: Kernel, x: Xfer, outer: int, t1: int, t2: int, r: Kernel)
    requires k.cur in k.procs && k1.cur == k.cur && k1.procs == k.procs
    requires x.obj in k1.objs && Suits(k1.objs[x.obj], x.op) && r == LoopOn(SetCur(k1, Not, User), x, outer, t1, t2)
    ensures OthersStay(k, r)
  {
    LoopStays(SetCur(k1, Not, User), x, outer, t1, t2, r);
  }

  lemma DisplayStays(k: Kernel, id: nat, msg: Msg)
    requires k.cur in k.procs
    ensures OthersStay(k, DoDisplay(k, id, msg))
  {
    if HasBoard(k, id) && 0 < |msg| <= k.objs[k.handles[(BoardKind, id)].obj].maxSize {
      var o := k.handles[(BoardKind, id)].obj;
      QuietWakeAll(Logged(WithObj(k, o, Board(k.objs[o].maxSize, msg, true, k.objs[o].waiting)), Shown(o, msg)), o);
    }
  }

  lemma ClearStays(k: Kernel, h: Handle)
    requires h.obj in k.objs && k.objs[h.obj].Ring?
    ensures OthersStay(k, Clear(k, h))
  {
    QuietWakeOne(k, h.obj, h.disc);
  }

  lemma CommStays(k: Kernel, c: Call, t0: int, t1: int, t2: int)
    requires k.cur in k.procs && Communicates(c)
    ensures OthersStay(k, Syscall(k, c, t0, t1, t2))
  {
    match c
    case SendTo(kind, id, msg, timeout) =>
      if SendCheck(k, kind, id, |msg|) == NoError {
        var h := k.handles[(kind, id)];
        StartStays(k, Xfer(h.obj, Send(msg), h.disc, timeout), t0, t1, t2, Syscall(k, c, t0, t1, t2));
      }
    case ReceiveFrom(kind, id, timeout) =>
      if ReceiveCheck(k, kind, id) == NoError {
        var h := k.handles[(kind, id)];
        StartStays(k, Xfer(h.obj, Recv, h.disc, timeout), t0, t1, t2, Syscall(k, c, t0, t1, t2));
      }
    case ReadBoard(id, timeout) =>
      if HasBoard(k, id) {
        var h := k.handles[(BoardKind, id)];
        StartStays(k, Xfer(h.obj, Read, h.disc, timeout), t0, t1, t2, Syscall(k, c, t0, t1, t2));
      }
    case Display(id, msg) => DisplayStays(k, id, msg);
    case ClearBoard(_) =>
    case ClearPort(id) =>
      if ReceiveCheck(k, PortKind, id) == NoError && k.objs[k.handles[(PortKind, id)].obj].Ring? {
        ClearStays(k, k.handles[(PortKind, id)]);
      }
  }

  /** Only the process itself enters another loop, or another round of its loop. */
  lemma PcStays(k: Kernel, s: Step, p: Pid)
    requires Enabled(k, s) && !Acts(k, s, p) && p in k.procs
    ensures p in Next(k, s).procs && (Next(k, s).procs[p].pc.Retry? ==> Next(k, s).procs[p].pc == k.procs[p].pc)
  {
    match s
    case Enter(c, t0, t1, t2) =>
      if Communicates(c) { CommStays(k, c, t0, t1, t2); } else { QuietCall(k, c, t0, t1, t2); }
    case Continue(t, t1, t2) =>
      if k.procs[k.cur].pc.Retry? { ResumeStays(k, t, t1, t2, Next(k, s)); }
    case Scan => QuietElections(k, s);
    case GiveUp => QuietElections(k, s);
    case Dispatch => QuietElections(k, s);
    case Interrupt(t, nextPart, nextTime) => QuietTick(k, t, nextPart, nextTime);
  }

  lemma {:induction false} PcSince(k: Kernel, steps: seq<Step>, i: nat, n: nat, p: Pid)
    requires Runs(k, steps) && i <= n <= |steps| && p in StateAt(k, steps, i).procs
    requires forall j :: i <= j < n ==> !Acts(StateAt(k, steps, j), steps[j], p)
    ensures p in StateAt(k, steps, n).procs
    ensures StateAt(k, steps, n).procs[p].pc.Retry? ==> StateAt(k, steps, n).procs[p].pc == StateAt(k, steps, i).procs[p].pc
    decreases n
  {
    if i < n {
      PcSince(k, steps, i, n - 1, p);
      StateNext(k, steps, n - 1);
      PcStays(StateAt(k, steps, n - 1), steps[n - 1], p);
    }
  }

  // ----- a fired timeout -----

  /** The timer of a bounded wait of p is among the events due at t. */
  ghost predicate TimesOut(k: Kernel, t: int, p: Pid) {
    exists e :: e in Due(k.queue, t) && e.what.BlockTimeout? && Target(k, e.what) == Some(p)
  }

  lemma {:induction false} DueBy(q: seq<Event>, t: int)
    ensures forall e :: e in Due(q, t) ==> e in q && e.time <= t
  {
    if q != [] && q[0].time <= t {
      DueBy(q[1..], t);
      assert q == [q[0]] + q[1..];
    }
  }

  lemma FiredReached(k: Kernel, t: int, p: Pid)
    requires Inv(k) && TimesOut(k, t, p)
    ensures p in k.procs && k.procs[p].pc.Retry? && k.procs[p].pc.ctx.Some? && k.procs[p].pc.inner <= t
  {
    var e :| e in Due(k.queue, t) && e.what.BlockTimeout? && Target(k, e.what) == Some(p);
    DueBy(k.queue, t);
    assert EventOk(k, e);
  }

  /** In a run with a clock that never goes back, a process whose bounded wait an interrupt has timed out returns
      TIMED_OUT when it goes on, however much later, and whatever has happened to the object. */
  lemma FiredTimesOut(k: Kernel, steps: seq<Step>, i: nat, n: nat, p: Pid)
    requires Boot(k) && Runs(k, steps) && AlwaysFitting(k, steps) && Timely(steps) && i < n < |steps|
    requires steps[i].Interrupt? && TimesOut(StateAt(k, steps, i), steps[i].t, p)
    requires forall j :: i < j < n ==> !Acts(StateAt(k, steps, j), steps[j], p)
    requires steps[n].Continue? && StateAt(k, steps, n).cur == p
    requires p in StateAt(k, steps, n).procs && StateAt(k, steps, n).procs[p].pc.Retry?
    ensures p in StateAt(k, steps, i).procs && StateAt(k, steps, i).procs[p].pc.Retry?
    ensures var a, b, c := StateAt(k, steps, i), StateAt(k, steps, n), StateAt(k, steps, n + 1);
            c.log == b.log + [Failed(a.procs[p].pc.x.obj, TimedOut)] && p in c.procs && c.procs[p].pc == User
  {
    var a, b := StateAt(k, steps, i), StateAt(k, steps, n);
    StateSound(k, steps, i);
    FiredReached(a, steps[i].t, p);
    SameWait(k, steps, i, n, p);
    ReadsLater(steps, i, n);
    StateNext(k, steps, n);
    FiredReturns(a, b, steps[i].t, steps[n], p);
  }

  /** From an interrupt until the process acts, its continuation inside a loop is the same. */
  lemma SameWait(k: Kernel, steps: seq<Step>, i: nat, n: nat, p: Pid)
    requires Runs(k, steps) && i < n < |steps| && steps[i].Interrupt? && p in StateAt(k, steps, i).procs
    requires forall j :: i < j < n ==> !Acts(StateAt(k, steps, j), steps[j], p)
    requires p in StateAt(k, steps, n).procs && StateAt(k, steps, n).procs[p].pc.Retry?
    ensures StateAt(k, steps, n).procs[p].pc == StateAt(k, steps, i).procs[p].pc
  {
    StateNext(k, steps, i);
    PcStays(StateAt(k, steps, i), steps[i], p);
    PcSince(k, steps, i + 1, n, p);
  }

  lemma FiredReturns(a: Kernel, b: Kernel, t: int, s: Step, p: Pid)
    requires Inv(a) && TimesOut(a, t, p) && p in a.procs && p in b.procs && b.cur == p && b.procs[p].pc == a.procs[p].pc
    requires s.Continue? && Enabled(b, s) && t <= s.t && a.procs[p].pc.Retry?
    ensures var c := Next(b, s); c.log == b.log + [Failed(a.procs[p].pc.x.obj, TimedOut)] && p in c.procs && c.procs[p].pc == User
  {
    FiredReached(a, t, p);
    assert ProcOk(a, p);
    TimedOutResume(b, s.t, s.t1, s.t2);
  }

  lemma TimedOutResume(k: Kernel, t: int, t1: int, t2: int)
    requires Enabled(k, Continue(t, t1, t2)) && k.procs[k.cur].pc.Retry?
    requires k.procs[k.cur].pc.x.timeout != INFINITE && t >= k.procs[k.cur].pc.inner
    ensures var r := Next(k, Continue(t, t1, t2));
            r.log == k.log + [Failed(k.procs[k.cur].pc.x.obj, TimedOut)] && k.cur in r.procs && r.procs[k.cur].pc == User
  {
  }

  // ----- when the timer is due -----

  /** A bounded wait arms a timer due at the deadline fixed on entry, but for the receive loop of a queuing port,
      whose timer is due a whole timeout after the clock reading of the round. So the timer is later than the
      deadline if and only if such a loop blocks at a reading later than the one the deadline was computed from. */
  lemma OutlastsExactly(k: Kernel, x: Xfer, outer: int, t1: int, t2: int, r: Kernel)
    requires Good(k) && k.mode == Executing && k.procs[k.cur].giving == Not
    requires x.obj in k.objs && Suits(k.objs[x.obj], x.op) && x.timeout != INFINITE && outer > t1
    requires r == Block(k, x, outer, t1, t2)
    ensures exists e :: e in r.queue && e.what == BlockTimeout(k.objs[x.obj].KindOf(), k.nextCtx)
                     && Target(r, e.what) == Some(k.cur)
                     && e.time == (if SetsAfresh(k, x) then t2 + x.timeout else outer)
                     && (e.time > outer <==> SetsAfresh(k, x) && t2 > outer - x.timeout)
  {
    var e := Event(k.nextEvent, InnerDeadline(k.objs[x.obj].KindOf(), x, outer, t2), BlockTimeout(k.objs[x.obj].KindOf(), k.nextCtx));
    InsertMembers(k.queue, e);
    BlockQueues(k, x, outer, t1, t2, r, e);
    assert e in r.queue;
  }

  lemma BlockQueues(k: Kernel, x: Xfer, outer: int, t1: int, t2: int, r: Kernel, e: Event)
    requires k.cur in k.procs && x.obj in k.objs && x.timeout != INFINITE && outer > t1 && r == Block(k, x, outer, t1, t2)
    requires e == Event(k.nextEvent, InnerDeadline(k.objs[x.obj].KindOf(), x, outer, t2), BlockTimeout(k.objs[x.obj].KindOf(), k.nextCtx))
    ensures r.queue == Insert(k.queue, e) && Target(r, e.what) == Some(k.cur)
  {
  }

  /** The timer of a process in a bounded wait is due exactly when its wait is to time out, and that is the deadline
      fixed on entry unless the process receives from a queuing port. */
  lemma WaitDue(k: Kernel, steps: seq<Step>, p: Pid)
    requires Boot(k) && Runs(k, steps) && AlwaysFitting(k, steps) && p in Final(k, steps).procs
    requires OnList(Final(k, steps).procs[p]) && Final(k, steps).procs[p].reason.BlockedTimed?
    ensures var r := Final(k, steps);
            var pc := r.procs[p].pc;
            && pc.Retry? && (exists i :: TimerAt(r, p, i) && r.queue[i].time == pc.inner)
            && (pc.inner == pc.outer || SetsAfresh(r, pc.x))
  {
    RunSound(k, steps);
    WaitDueIn(Final(k, steps), p);
  }

  lemma WaitDueIn(r: Kernel, p: Pid)
    requires Inv(r) && p in r.procs && OnList(r.procs[p]) && r.procs[p].reason.BlockedTimed?
    ensures var pc := r.procs[p].pc;
            && pc.Retry? && (exists i :: TimerAt(r, p, i) && r.queue[i].time == pc.inner)
            && (pc.inner == pc.outer || SetsAfresh(r, pc.x))
  {
    assert ProcOk(r, p);
    var i := TimerFound(r, p);
  }

  /** Behind a timer interrupt nobody is left in a bounded wait whose timer the interrupt found due; and a wait past
      the deadline fixed on entry is a receive from a queuing port whose timer was set later than that. */
  lemma WaitsPastDeadline(k: Kernel, t: int, nextPart: Part, nextTime: int, p: Pid)
    requires Good(k) && p in Tick(k, t, nextPart, nextTime).procs
    requires var q := Tick(k, t, nextPart, nextTime).procs[p]; OnList(q) && q.reason.BlockedTimed?
    ensures var r := Tick(k, t, nextPart, nextTime);
            var pc := r.procs[p].pc;
            && pc.Retry? && pc.inner > t
            && (pc.outer <= t ==> SetsAfresh(r, pc.x) && pc.inner > pc.outer)
  {
    var r := Tick(k, t, nextPart, nextTime);
    TickGood(k, t, nextPart, nextTime);
    assert ProcOk(r, p);
    var i := TimerFound(r, p);
    TickLeavesLater(k, t, nextPart, nextTime, r, r.queue[i]);
  }

  lemma TickLeavesLater(k: Kernel, t: int, nextPart: Part, nextTime: int, r: Kernel, e: Event)
    requires Good(k) && r == Tick(k, t, nextPart, nextTime) && e in r.queue && e.what != PartitionActivate
    ensures e.time > t
  {
    var k1 := FireDue(k, t);
    FireDueComplete(k, t);
    InsertMembers(k1.queue, Event(k1.nextEvent, nextTime, PartitionActivate));
  }

  // ----- a receive that outlasts its timeout -----

  const RECEIVER: Pid := 0
  const PORT: ObjId := 0

  /** One process, and one queuing port it may receive from, which holds nothing. */
  function System(q: Proc, waiting: seq<Pid>, queue: seq<Event>, next: nat, ctxs: map<CtxId, Ctx>, nextCtx: CtxId): Kernel {
    Kernel(map[RECEIVER := q], map[0 := [RECEIVER]], map[0 := Normal],
           map[PORT := Ring(PortKind, 8, 1, [], waiting)], map[(PortKind, 1) := Handle(0, Destination, Fifo, PORT)],
           queue, next, ctxs, nextCtx, RECEIVER, 0, Executing, map[], [])
  }

  function Runnable(state: PState): Proc { Proc(state, PreviousStarted, None, 0, 0, INFINITE, 0, Not, User) }

  function Receive(): Xfer { Xfer(PORT, Recv, Fifo, 5) }

  function Receiving(): Kernel {
    System(Proc(Waiting, BlockedTimed(PortKind), Some(0), 0, 0, INFINITE, 0, Yes(Fresh(false)), Retry(Receive(), 5, 6, Some(0))),
           [RECEIVER], [Event(0, 6, BlockTimeout(PortKind, 0))], 1, map[0 := Ctx(RECEIVER, PORT)], 1)
  }

  lemma Boots()
    ensures Boot(System(Runnable(Running), [], [], 0, map[], 0))
  {
    var c := System(Runnable(Ready), [], [], 0, map[], 0);
    assert Candidates(c.procs, Members(c)) == [Candidate(true, 0)];
    assert Elected(c, false) == Some(RECEIVER);
    assert Run(c, RECEIVER).procs == map[RECEIVER := Runnable(Running)];
    assert Configured(c) && Launched(c) == System(Runnable(Running), [], [], 0, map[], 0);
  }

  lemma Receives()
    ensures var k, s := System(Runnable(Running), [], [], 0, map[], 0), Enter(ReceiveFrom(PortKind, 1, 5), 0, 0, 1);
            Enabled(k, s) && Next(k, s) == Receiving()
  {
    var k := System(Runnable(Running), [], [], 0, map[], 0);
    var r := Next(k, Enter(ReceiveFrom(PortKind, 1, 5), 0, 0, 1));
    assert r == StartXfer(k, Receive(), 0, 0, 1) == Block(k, Receive(), 5, 0, 1);
    assert r.procs == Receiving().procs;
    assert k.objs[PORT].waiting + [RECEIVER] == [RECEIVER];
    assert r.objs == Receiving().objs;
    assert r.queue == Receiving().queue;
    assert r.ctxs == Receiving().ctxs;
  }

  function Starting(): Kernel { System(Runnable(Running), [], [], 0, map[], 0) }
  function Entering(): Step { Enter(ReceiveFrom(PortKind, 1, 5), 0, 0, 1) }

  lemma TwoSteps(k: Kernel, a: Step, m: Kernel, b: Step, r: Kernel)
    requires Enabled(k, a) && Fitting(k, a) && m == Next(k, a) && Enabled(m, b) && Fitting(m, b) && r == Next(m, b)
    ensures Runs(k, [a, b]) && AlwaysFitting(k, [a, b]) && Final(k, [a, b]) == r
  {
    OneMore(k, [], k, a, m);
    OneMore(k, [] + [a], m, b, r);
    assert [] + [a] + [b] == [a, b];
  }

  /** A receive with a timeout of 5, whose clock readings are 0, 0 and 1, has a timer due at 6: the timer interrupt
      at 5 leaves it waiting. */
  lemma OutlastsTimeout() returns (k: Kernel, steps: seq<Step>)
    ensures Boot(k) && steps == [Enter(ReceiveFrom(PortKind, 1, 5), 0, 0, 1), Interrupt(5, 0, 0)] && Timely(steps)
    ensures Runs(k, steps) && AlwaysFitting(k, steps)
    ensures var q := Final(k, steps).procs; RECEIVER in q && OnList(q[RECEIVER]) && q[RECEIVER].pc.Retry? && q[RECEIVER].pc.outer == 5
  {
    k, steps := Starting(), [Entering(), Interrupt(5, 0, 0)];
    Boots();
    Receives();
    StillReceives();
    TwoSteps(k, Entering(), Receiving(), Interrupt(5, 0, 0), Receiving());
    TwoTimely(Entering(), Interrupt(5, 0, 0));
    ReceiverListed();
  }

  lemma StillReceives()
    ensures Next(Receiving(), Interrupt(5, 0, 0)) == Receiving()
  {
    assert FireDue(Receiving(), 5) == Receiving() && Due(Receiving().queue, 5) == [];
  }

  lemma ReceiverListed()
    ensures var q := Receiving().procs; RECEIVER in q && OnList(q[RECEIVER]) && q[RECEIVER].pc.Retry? && q[RECEIVER].pc.outer == 5
  {
  }

  lemma TwoTimely(a: Step, b: Step)
    requires InOrder(a, 0) && InOrder(b, Reading(a, 0))
    ensures Timely([a, b])
  {
    var one := [a];
    assert one[..|one| - 1] == [];
    assert Timely(one) && Clock(one) == Reading(a, 0);
    assert [a, b][..1] == one;
  }
}
