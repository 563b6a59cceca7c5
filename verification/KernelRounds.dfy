/** Bounded waits over runs: the call a waiting process is in, its last round, and exactly when it waits past the
    deadline that was computed when the call began. */
module KernelRounds {
  import opened Common
  import opened TimerQueue
  import opened Election
  import opened KernelSpec
  import opened KernelInv
  import opened KernelSteps
  import opened KernelCalls
  import opened KernelTimer
  import opened KernelFifo
  import opened KernelRuns
  import opened KernelWakeups
  import opened KernelDeadlines

  // ----- the rounds of a call -----

  /** What a round sets: the deadline of the call, and a timer due then, or for a receive from a queuing port a whole
      timeout after the last clock reading of the round. */
  predicate SetIn(k: Kernel, x: Xfer, outer: int, t2: int, pc: Pc) {
    && pc.Retry? && pc.x == x && pc.outer == outer
    && (x.timeout != INFINITE ==> pc.inner == if SetsAfresh(k, x) then t2 + x.timeout else outer)
  }

  lemma LoopSets(k: Kernel, x: Xfer, outer: int, t1: int, t2: int, r: Kernel)
    requires k.cur in k.procs && k.procs[k.cur].pc == User && x.obj in k.objs && Suits(k.objs[x.obj], x.op)
    requires r == LoopOn(k, x, outer, t1, t2) && k.cur in r.procs && r.procs[k.cur].pc.Retry?
    ensures SetIn(k, x, outer, t2, r.procs[k.cur].pc)
  {
    if Obstructed(k.objs[x.obj], x.op) {
      BlockSets(k, x, outer, t1, t2, r);
    } else {
      CompletePc(k, x);
    }
  }

  lemma BlockSets(k: Kernel, x: Xfer, outer: int, t1: int, t2: int, r: Kernel)
    requires k.cur in k.procs && x.obj in k.objs && r == Block(k, x, outer, t1, t2) && k.cur in r.procs && r.procs[k.cur].pc.Retry?
    ensures SetIn(k, x, outer, t2, r.procs[k.cur].pc)
  {
    if x.timeout != INFINITE && outer > t1 {
      var kind := k.objs[x.obj].KindOf();
      var inner := InnerDeadline(kind, x, outer, t2);
      var q := BlockedProc(k.procs[k.cur], kind, x, outer, inner, Some(k.nextCtx));
      var k1 := WithProc(NewContext(k, x.obj), k.cur, q);
      var k2 := EventAlloc(k1, inner, BlockTimeout(kind, k.nextCtx));
      AllocPcs(k1, inner, BlockTimeout(kind, k.nextCtx));
      TimedBlockIs(k, x, outer, t1, t2, r, k2);
    }
  }

  lemma TimedBlockIs(k: Kernel, x: Xfer, outer: int, t1: int, t2: int, r: Kernel, k2: Kernel)
    requires k.cur in k.procs && x.obj in k.objs && r == Block(k, x, outer, t1, t2) && x.timeout != INFINITE && outer > t1
    requires var kind := k.objs[x.obj].KindOf();
             var inner := InnerDeadline(kind, x, outer, t2);
             k2 == EventAlloc(WithProc(NewContext(k, x.obj), k.cur, BlockedProc(k.procs[k.cur], kind, x, outer, inner, Some(k.nextCtx))),
                              inner, BlockTimeout(kind, k.nextCtx))
    ensures r.procs == k2.procs
  {
  }

  lemma AfterPc(k: Kernel, x: Xfer)
    requires k.cur in k.procs && x.obj in k.objs
    ensures k.cur in AfterTransfer(k, x).procs && AfterTransfer(k, x).procs[k.cur].pc == User
  {
    QuietWakeOne(k, x.obj, x.disc);
  }

  lemma CompletePc(k: Kernel, x: Xfer)
    requires k.cur in k.procs && x.obj in k.objs && Suits(k.objs[x.obj], x.op) && !Obstructed(k.objs[x.obj], x.op)
    ensures k.cur in Complete(k, x).procs && Complete(k, x).procs[k.cur].pc == User
  {
    var b := k.objs[x.obj];
    match x.op
    case Send(m) => AfterPc(Logged(WithObj(k, x.obj, b.(msgs := b.msgs + [m])), Sent(x.obj, m)), x);
    case Recv => AfterPc(Logged(WithObj(k, x.obj, b.(msgs := b.msgs[1..])), Received(x.obj, b.msgs[0])), x);
    case Read =>
  }

  lemma StartSets(k: Kernel, x: Xfer, outer: int, t0: int, t1: int, t2: int, r: Kernel)
    requires k.cur in k.procs && k.procs[k.cur].pc == User && x.obj in k.objs && Suits(k.objs[x.obj], x.op)
    requires outer == t0 + x.timeout && r == StartXfer(k, x, t0, t1, t2) && k.cur in r.procs && r.procs[k.cur].pc.Retry?
    ensures SetIn(k, x, outer, t2, r.procs[k.cur].pc)
  {
    if !(Obstructed(k.objs[x.obj], x.op) && x.timeout == 0) { LoopSets(k, x, outer, t1, t2, r); }
  }

  ghost predicate BeginsIn(k: Kernel, c: Call, t0: int, t2: int, pc: Pc) {
    Asked(k, c).Some? && var x := Asked(k, c).value; SetIn(k, x, t0 + x.timeout, t2, pc)
  }

  lemma AskedSets(k: Kernel, c: Call, t0: int, t1: int, t2: int, r: Kernel)
    requires k.cur in k.procs && k.procs[k.cur].pc == User && (c.SendTo? || c.ReceiveFrom? || c.ReadBoard?) && KindsOk(k)
    requires r == Syscall(k, c, t0, t1, t2) && k.cur in r.procs && r.procs[k.cur].pc.Retry?
    ensures BeginsIn(k, c, t0, t2, r.procs[k.cur].pc)
  {
    var a := Asked(k, c);
    if a.Some? { StartSets(k, a.value, t0 + a.value.timeout, t0, t1, t2, r); }
  }

  lemma DisplayPc(k: Kernel, id: nat, msg: Msg, r: Kernel)
    requires k.cur in k.procs && k.procs[k.cur].pc == User && r == DoDisplay(k, id, msg)
    ensures k.cur in r.procs ==> !r.procs[k.cur].pc.Retry?
  {
    if HasBoard(k, id) && 0 < |msg| <= k.objs[k.handles[(BoardKind, id)].obj].maxSize {
      var o := k.handles[(BoardKind, id)].obj;
      var k1 := Logged(WithObj(k, o, Board(k.objs[o].maxSize, msg, true, k.objs[o].waiting)), Shown(o, msg));
      WakeAllPc(k1, WakeAll(k1, o), o);
    }
  }

  lemma WakeAllPc(k: Kernel, m: Kernel, o: ObjId)
    requires k.cur in k.procs && k.procs[k.cur].pc == User && o in k.objs && m == WakeAll(k, o)
    ensures k.cur in m.procs && !m.procs[k.cur].pc.Retry? && m.cur == k.cur
  {
    QuietWakeAll(k, o);
    WakeAllKeepsCur(k, o);
  }

  lemma EnterSets(k: Kernel, c: Call, t0: int, t1: int, t2: int, r: Kernel)
    requires k.cur in k.procs && k.procs[k.cur].pc == User && KindsOk(k)
    requires r == Syscall(k, c, t0, t1, t2) && k.cur in r.procs && r.procs[k.cur].pc.Retry?
    ensures BeginsIn(k, c, t0, t2, r.procs[k.cur].pc)
  {
    if !Communicates(c) {
      QuietCall(k, c, t0, t1, t2);
    } else {
      match c
      case Display(id, msg) => DisplayPc(k, id, msg, r);
      case ClearBoard(id) =>
      case ClearPort(id) =>
        if ReceiveCheck(k, PortKind, id) == NoError && k.objs[k.handles[(PortKind, id)].obj].Ring? {
          ClearStays(k, k.handles[(PortKind, id)]);
          QuietWakeOne(k, k.handles[(PortKind, id)].obj, k.handles[(PortKind, id)].disc);
        }
      case _ => AskedSets(k, c, t0, t1, t2, r);
    }
  }

  lemma ResumeSets(k: Kernel, t: int, t1: int, t2: int, r: Kernel)
    requires Enabled(k, Continue(t, t1, t2)) && k.procs[k.cur].pc.Retry? && r == Resume(k, t, t1, t2)
    requires k.cur in r.procs && r.procs[k.cur].pc.Retry?
    ensures var pc := k.procs[k.cur].pc; SetIn(k, pc.x, pc.outer, t2, r.procs[k.cur].pc)
  {
    var pc := k.procs[k.cur].pc;
    var k1 := SetCur(ContextFreed(k, pc), Not, User);
    assert k1.objs == k.objs && k1.cur == k.cur && k1.procs[k.cur].pc == User;
    if pc.x.timeout == INFINITE || t < pc.inner {
      LoopSets(k1, pc.x, pc.outer, t1, t2, r);
    }
  }

  // ----- over runs -----

  /** The last step of the run in which p made a call or went on. */
  ghost function LastAct(k: Kernel, steps: seq<Step>, p: Pid): Option<nat>
    requires Runs(k, steps)
    decreases |steps|
  {
    if steps == [] then None
    else
      var before, s := steps[..|steps| - 1], steps[|steps| - 1];
      if Acts(Final(k, before), s, p) then Some(|steps| - 1) else LastAct(k, before, p)
  }

  /** The last step of the run in which p made a call. */
  ghost function LastCall(k: Kernel, steps: seq<Step>, p: Pid): Option<nat>
    requires Runs(k, steps)
    decreases |steps|
  {
    if steps == [] then None
    else
      var before, s := steps[..|steps| - 1], steps[|steps| - 1];
      if s.Enter? && Final(k, before).cur == p then Some(|steps| - 1) else LastCall(k, before, p)
  }

  /** The last clock reading of a call or a continuation. */
  function LastReading(s: Step): int { Reading(s, 0) }

  /** The process is in the call it made at step m, and entered the round it is in at step n. */
  ghost predicate InRound(k: Kernel, steps: seq<Step>, m: nat, n: nat, pc: Pc) {
    && m <= n < |steps| && steps[m].Enter? && (steps[n].Enter? || steps[n].Continue?) && pc.Retry?
    && pc.outer == steps[m].t0 + pc.x.timeout
    && (pc.x.timeout != INFINITE ==> pc.inner == if SetsAfresh(k, pc.x) then LastReading(steps[n]) + pc.x.timeout else pc.outer)
  }

  lemma SameKinds(k: Kernel, r: Kernel, x: Xfer)
    requires Static(k, r)
    ensures SetsAfresh(r, x) == SetsAfresh(k, x)
  {
  }

  /** What the round entered by step s sets. */
  predicate Entered(k: Kernel, s: Step, pc: Pc) {
    pc.Retry? && (pc.x.timeout != INFINITE ==> pc.inner == if SetsAfresh(k, pc.x) then LastReading(s) + pc.x.timeout else pc.outer)
  }

  lemma EnterRound(k: Kernel, b: Kernel, s: Step, r: Kernel)
    requires Inv(b) && Static(k, b) && s.Enter? && Enabled(b, s) && r == Next(b, s) && b.cur in r.procs && r.procs[b.cur].pc.Retry?
    ensures var pc := r.procs[b.cur].pc; Entered(k, s, pc) && pc.outer == s.t0 + pc.x.timeout
  {
    KindsSound(b);
    EnterSets(b, s.call, s.t0, s.t1, s.t2, r);
    SameKinds(k, b, r.procs[b.cur].pc.x);
  }

  lemma ContinueRound(k: Kernel, b: Kernel, s: Step, r: Kernel)
    requires Static(k, b) && s.Continue? && Enabled(b, s) && r == Next(b, s) && b.cur in r.procs && r.procs[b.cur].pc.Retry?
    ensures b.procs[b.cur].pc.Retry?
    ensures var pc, was := r.procs[b.cur].pc, b.procs[b.cur].pc; Entered(k, s, pc) && pc.x == was.x && pc.outer == was.outer
  {
    if b.procs[b.cur].pc.Retry? {
      ResumeSets(b, s.t, s.t1, s.t2, r);
      SameKinds(k, b, r.procs[b.cur].pc.x);
    }
  }

  /** A process inside a loop is in its last call, and in the round of its last step. */
  ghost predicate InLastRound(k: Kernel, steps: seq<Step>, p: Pid, pc: Pc)
    requires Runs(k, steps)
  {
    var m, n := LastCall(k, steps, p), LastAct(k, steps, p);
    m.Some? && n.Some? && InRound(k, steps, m.value, n.value, pc)
  }

  lemma FirstRound(k: Kernel, steps: seq<Step>, p: Pid, pc: Pc)
    requires Runs(k, steps) && steps != [] && steps[|steps| - 1].Enter? && Final(k, steps[..|steps| - 1]).cur == p
    requires Entered(k, steps[|steps| - 1], pc) && pc.outer == steps[|steps| - 1].t0 + pc.x.timeout
    ensures InLastRound(k, steps, p, pc)
  {
  }

  lemma NextRound(k: Kernel, steps: seq<Step>, p: Pid, was: Pc, pc: Pc)
    requires Runs(k, steps) && steps != [] && steps[|steps| - 1].Continue? && Final(k, steps[..|steps| - 1]).cur == p
    requires InLastRound(k, steps[..|steps| - 1], p, was) && Entered(k, steps[|steps| - 1], pc)
    requires pc.x == was.x && pc.outer == was.outer
    ensures InLastRound(k, steps, p, pc)
  {
  }

  lemma SameRound(k: Kernel, steps: seq<Step>, p: Pid, pc: Pc)
    requires Runs(k, steps) && steps != [] && !Acts(Final(k, steps[..|steps| - 1]), steps[|steps| - 1], p)
    requires InLastRound(k, steps[..|steps| - 1], p, pc)
    ensures InLastRound(k, steps, p, pc)
  {
  }

  lemma RoundStep(k: Kernel, steps: seq<Step>, p: Pid, b: Kernel, s: Step, r: Kernel)
    requires Runs(k, steps) && steps != [] && b == Final(k, steps[..|steps| - 1]) && s == steps[|steps| - 1]
    requires Inv(b) && Static(k, b) && Enabled(b, s) && r == Next(b, s) && p in b.procs && p in r.procs && r.procs[p].pc.Retry?
    requires b.procs[p].pc.Retry? ==> InLastRound(k, steps[..|steps| - 1], p, b.procs[p].pc)
    ensures InLastRound(k, steps, p, r.procs[p].pc)
  {
    if !Acts(b, s, p) {
      ActedBefore(b, s, p);
      SameRound(k, steps, p, r.procs[p].pc);
    } else if s.Enter? {
      EnterRound(k, b, s, r);
      FirstRound(k, steps, p, r.procs[p].pc);
    } else {
      ContinueRound(k, b, s, r);
      NextRound(k, steps, p, b.procs[p].pc, r.procs[p].pc);
    }
  }

  lemma {:induction false} RoundFound(k: Kernel, steps: seq<Step>, p: Pid)
    requires Boot(k) && Runs(k, steps) && AlwaysFitting(k, steps)
    requires p in Final(k, steps).procs && Final(k, steps).procs[p].pc.Retry?
    ensures InLastRound(k, steps, p, Final(k, steps).procs[p].pc)
    decreases |steps|
  {
    RunSound(k, steps);
    if steps == [] {
      NoLoopYet(k, p);
    } else {
      var before := steps[..|steps| - 1];
      var b := Final(k, before);
      RunSound(k, before);
      if b.procs[p].pc.Retry? { RoundFound(k, before, p); }
      RoundStep(k, steps, p, b, steps[|steps| - 1], Final(k, steps));
    }
  }

  lemma NoLoopYet(k: Kernel, p: Pid)
    requires Boot(k) && p in k.procs
    ensures !k.procs[p].pc.Retry?
  {
    var c :| Configured(c) && k == Launched(c);
    assert FreshProc(c.procs[p]);
  }

  lemma ActedBefore(b: Kernel, s: Step, p: Pid)
    requires Enabled(b, s) && !Acts(b, s, p) && p in Next(b, s).procs && Next(b, s).procs[p].pc.Retry? && p in b.procs
    ensures Next(b, s).procs[p].pc == b.procs[p].pc
  {
    PcStays(b, s, p);
  }

  // ----- the interrupt at the deadline -----

  /** The process is blocked with a timeout. */
  predicate BoundedWait(k: Kernel, p: Pid) {
    p in k.procs && OnList(k.procs[p]) && k.procs[p].reason.BlockedTimed?
  }

  lemma WaitPc(k: Kernel, p: Pid)
    requires Inv(k) && BoundedWait(k, p)
    ensures k.procs[p].pc.Retry? && k.procs[p].pc.x.timeout != INFINITE
  {
    assert ProcOk(k, p);
  }

  /** An event due before its timer is not for the process. */
  lemma NotForIt(k: Kernel, e: Event, p: Pid)
    requires Inv(k) && BoundedWait(k, p) && k.procs[p].pc.Retry? && e in k.queue && e.time < k.procs[p].pc.inner
    ensures Target(k, e.what) != Some(p)
  {
    assert EventOk(k, e);
  }

  lemma FireSpares(k: Kernel, p: Pid)
    requires k.queue != [] && p in k.procs && Target(k, k.queue[0].what) != Some(p)
    ensures p in Fire(k).procs && Fire(k).procs[p] == k.procs[p]
  {
  }

  lemma {:induction false} DueSpares(k: Kernel, t: int, p: Pid)
    requires Inv(k) && BoundedWait(k, p) && k.procs[p].pc.Retry? && k.procs[p].pc.inner > t
    ensures p in FireDue(k, t).procs && FireDue(k, t).procs[p] == k.procs[p]
    decreases |k.queue|
  {
    if k.queue != [] && k.queue[0].time <= t {
      NotForIt(k, k.queue[0], p);
      FireSpares(k, p);
      FireKeeps(k, Fire(k));
      DueSpares(Fire(k), t, p);
    }
  }

  lemma PreemptSpares(k: Kernel, p: Pid)
    requires p in k.procs && k.procs[p].state == Waiting
    ensures p in Preempt(k, false).procs && Preempt(k, false).procs[p] == k.procs[p]
  {
  }

  lemma ActivationSpares(k: Kernel, nextPart: Part, nextTime: int)
    ensures EventAlloc(k, nextTime, PartitionActivate).(part := nextPart).procs == k.procs
  {
  }

  lemma TickSpares(k: Kernel, k1: Kernel, t: int, nextPart: Part, nextTime: int, p: Pid, r: Kernel)
    requires k1 == FireDue(k, t) && r == Tick(k, t, nextPart, nextTime) && p in k1.procs && k1.procs[p].state == Waiting
    ensures p in r.procs && r.procs[p] == k1.procs[p]
  {
    var k2 := EventAlloc(k1, nextTime, PartitionActivate).(part := nextPart);
    ActivationSpares(k1, nextPart, nextTime);
    PreemptSpares(k2, p);
    PreemptSpares(k1, p);
    var due := Due(k.queue, t);
    assert r == if HasActivation(due) then Preempt(k2, false) else if HasLocal(k, due) then Preempt(k1, false) else k1;
  }

  /** A timer interrupt leaves a process in its bounded wait if and only if its timer is due later. */
  lemma WaitsOnExactly(k: Kernel, t: int, nextPart: Part, nextTime: int, p: Pid)
    requires Good(k) && BoundedWait(k, p)
    ensures k.procs[p].pc.Retry? && (BoundedWait(Tick(k, t, nextPart, nextTime), p) <==> k.procs[p].pc.inner > t)
  {
    WaitPc(k, p);
    var r := Tick(k, t, nextPart, nextTime);
    if k.procs[p].pc.inner > t {
      DueSpares(k, t, p);
      TickSpares(k, FireDue(k, t), t, nextPart, nextTime, p, r);
    } else if BoundedWait(r, p) {
      WaitsPastDeadline(k, t, nextPart, nextTime, p);
      QuietTick(k, t, nextPart, nextTime);
    }
  }

  // ----- late rounds -----

  lemma ActReading(steps: seq<Step>, n: nat)
    requires Timely(steps) && n < |steps| && (steps[n].Enter? || steps[n].Continue?)
    ensures Clock(steps[..n + 1]) == LastReading(steps[n]) && (steps[n].Enter? ==> steps[n].t0 <= LastReading(steps[n]))
  {
    ClockRises(steps, n + 1);
    assert steps[..n + 1][..n] == steps[..n] && steps[..n + 1][n] == steps[n];
  }

  lemma ReadingsRise(steps: seq<Step>, j: nat, n: nat)
    requires Timely(steps) && j <= n < |steps|
    requires (steps[j].Enter? || steps[j].Continue?) && (steps[n].Enter? || steps[n].Continue?)
    ensures LastReading(steps[j]) <= LastReading(steps[n])
  {
    ActReading(steps, j);
    ActReading(steps, n);
    ClockRises(steps, n + 1);
    ClockRises(steps[..n + 1], j + 1);
    assert steps[..n + 1][..j + 1] == steps[..j + 1];
  }

  lemma {:induction false} LastActActs(k: Kernel, steps: seq<Step>, p: Pid)
    requires Runs(k, steps) && LastAct(k, steps, p).Some?
    ensures var n := LastAct(k, steps, p).value; n < |steps| && Acts(StateAt(k, steps, n), steps[n], p)
    decreases |steps|
  {
    var before := steps[..|steps| - 1];
    if Acts(Final(k, before), steps[|steps| - 1], p) {
      assert StateAt(k, steps, |steps| - 1) == StateAt(k, before, |before|);
    } else {
      LastActActs(k, before, p);
    }
  }

  /** In some round of the call the process made at step m, the clock read later than at its beginning. */
  ghost predicate ReadsLate(k: Kernel, steps: seq<Step>, m: nat, p: Pid)
    requires Runs(k, steps) && m < |steps| && steps[m].Enter?
  {
    exists j :: m <= j < |steps| && Acts(StateAt(k, steps, j), steps[j], p) && LastReading(steps[j]) > steps[m].t0
  }

  /** Some interrupt at or past the first deadline would leave the process waiting. */
  ghost predicate Outlasts(k: Kernel, p: Pid, nextPart: Part, nextTime: int)
    requires p in k.procs && k.procs[p].pc.Retry?
  {
    exists t :: t >= k.procs[p].pc.outer && BoundedWait(Tick(k, t, nextPart, nextTime), p)
  }

  lemma OutlastsTimer(k: Kernel, p: Pid, nextPart: Part, nextTime: int)
    requires Good(k) && BoundedWait(k, p) && k.procs[p].pc.Retry?
    ensures Outlasts(k, p, nextPart, nextTime) <==> k.procs[p].pc.inner > k.procs[p].pc.outer
  {
    var pc := k.procs[p].pc;
    forall t ensures BoundedWait(Tick(k, t, nextPart, nextTime), p) <==> pc.inner > t {
      WaitsOnExactly(k, t, nextPart, nextTime, p);
    }
    if pc.inner > pc.outer { assert BoundedWait(Tick(k, pc.outer, nextPart, nextTime), p); }
  }

  lemma LateExactly(k: Kernel, steps: seq<Step>, p: Pid, pc: Pc)
    requires Runs(k, steps) && Timely(steps) && InLastRound(k, steps, p, pc)
    ensures var m, n := LastCall(k, steps, p).value, LastAct(k, steps, p).value;
            ReadsLate(k, steps, m, p) <==> LastReading(steps[n]) > steps[m].t0
  {
    var m, n := LastCall(k, steps, p).value, LastAct(k, steps, p).value;
    LastActActs(k, steps, p);
    if ReadsLate(k, steps, m, p) {
      var j :| m <= j < |steps| && Acts(StateAt(k, steps, j), steps[j], p) && LastReading(steps[j]) > steps[m].t0;
      NoLaterAct(k, steps, p, j);
      ReadingsRise(steps, j, n);
    }
  }

  lemma {:induction false} NoLaterAct(k: Kernel, steps: seq<Step>, p: Pid, j: nat)
    requires Runs(k, steps) && j < |steps| && Acts(StateAt(k, steps, j), steps[j], p)
    ensures LastAct(k, steps, p).Some? && j <= LastAct(k, steps, p).value
    decreases |steps|
  {
    var before := steps[..|steps| - 1];
    if j < |before| {
      NoLaterAct(k, before, p, j);
    } else {
      assert StateAt(k, steps, j) == StateAt(k, before, j) == Final(k, before);
    }
  }

  /** Over all runs with a clock that never goes back: a process that is blocked with a timeout can still be waiting
      at or past the deadline fixed by its call if and only if it receives from a queuing port, and in some round of
      that call the clock was read later than when the call began. */
  lemma OutlastsOverRuns(k: Kernel, steps: seq<Step>, p: Pid, nextPart: Part, nextTime: int)
    requires Boot(k) && Runs(k, steps) && AlwaysFitting(k, steps) && Timely(steps) && BoundedWait(Final(k, steps), p)
    ensures var r, m := Final(k, steps), LastCall(k, steps, p);
            && r.procs[p].pc.Retry? && m.Some? && m.value < |steps| && steps[m.value].Enter?
            && r.procs[p].pc.outer == steps[m.value].t0 + r.procs[p].pc.x.timeout
            && (Outlasts(r, p, nextPart, nextTime) <==> SetsAfresh(k, r.procs[p].pc.x) && ReadsLate(k, steps, m.value, p))
  {
    var r := Final(k, steps);
    RunSound(k, steps);
    WaitPc(r, p);
    RoundFound(k, steps, p);
    LateExactly(k, steps, p, r.procs[p].pc);
    OutlastsTimer(r, p, nextPart, nextTime);
  }
}
