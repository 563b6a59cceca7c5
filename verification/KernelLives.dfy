/** What the history of calls tells of a process, over every run: its priority, whether it is dormant, and when its
    suspension ends; and who is started when a partition goes to NORMAL. */
module KernelLives {
  import opened Common
  import opened TimerQueue
  import opened KernelSpec
  import opened KernelInv
  import opened KernelSteps
  import opened KernelCalls
  import opened KernelTimer
  import opened KernelFifo
  import opened KernelRuns
  import opened KernelSearch
  import opened KernelWakeups
  import opened KernelDeadlines
  import opened KernelServing
  import opened KernelServices
  import opened KernelTicks
  import opened KernelTimes

  // ----- what a step carries over -----

  /** Started before its partition was in NORMAL mode, and waiting for that. */
  predicate Noted(q: Proc) {
    q.state == Waiting && q.reason == PreviousStarted
  }

  /** Neither priority nor dormancy has changed, nor begins a suspension or a wait for NORMAL mode. */
  predicate Carries(q: Proc, r: Proc) {
    && r.pri == q.pri && r.basePri == q.basePri && r.period == q.period && (r.state == Dormant <==> q.state == Dormant)
    && (r.pc.SuspendCheck? ==> r.pc == q.pc) && (Noted(r) ==> Noted(q))
  }

  ghost predicate Carried(k: Kernel, r: Kernel, p: Option<Pid>) {
    r.procs.Keys == k.procs.Keys && forall x :: x in k.procs && Some(x) != p ==> Carries(k.procs[x], r.procs[x])
  }

  lemma CarriedSame(k: Kernel, r: Kernel)
    requires r.procs == k.procs
    ensures Carried(k, r, None)
  {
  }

  // ----- transfers -----

  lemma CarriedServed(k: Kernel, r: Kernel, o: ObjId, disc: Disc)
    requires ServesOne(k, r, o, disc) && k.procs[k.cur].state == Running && !r.procs[k.cur].pc.SuspendCheck?
    ensures Carried(k, r, None)
  {
  }

  lemma CarriedRead(k: Kernel, x: Xfer, r: Kernel)
    requires Done(k, r, x) && x.op.Read? && k.procs[k.cur].state == Running
    ensures Carried(k, r, None)
  {
  }

  lemma CarriedDone(k: Kernel, s: Step, x: Xfer, r: Kernel)
    requires Good(k) && Enabled(k, s) && r == Next(k, s) && Done(k, r, x) && Suits(k.objs[x.obj], x.op) && k.procs[k.cur].state == Running
    ensures Carried(k, r, None)
  {
    if x.op.Read? {
      CarriedRead(k, x, r);
    } else {
      StepServes(k, s, x.obj, r);
      CarriedServed(k, r, x.obj, DiscOf(k, s));
    }
  }

  lemma CarriedRefused(k: Kernel, x: Xfer, ret: Ret, r: Kernel)
    requires Refused(k, r, x, ret)
    ensures Carried(k, r, None)
  {
  }

  lemma CarriedJoin(k: Kernel, x: Xfer, r: Kernel)
    requires JoinsLast(k, r, x) && k.procs[k.cur].state == Running
    ensures Carried(k, r, None)
  {
  }

  lemma CarriedAttempt(k: Kernel, s: Step, x: Xfer, outer: int, r: Kernel)
    requires Good(k) && Enabled(k, s) && Attempts(k, s) == Some(x) && outer == Deadline(k, s, x) && r == Next(k, s)
    requires k.procs[k.cur].state == Running
    ensures Carried(k, r, None)
  {
    AttemptLeads(k, s, x, outer, r);
    if Done(k, r, x) {
      CarriedDone(k, s, x, r);
    } else if Refused(k, r, x, NotAvailable) {
      CarriedRefused(k, x, NotAvailable, r);
    } else if Refused(k, r, x, TimedOut) {
      CarriedRefused(k, x, TimedOut, r);
    } else {
      CarriedJoin(k, x, r);
    }
  }

  lemma CarriedAll(k: Kernel, r: Kernel, o: ObjId)
    requires ServesAll(k, r, o) && k.procs[k.cur].state == Running && !r.procs[k.cur].pc.SuspendCheck?
    ensures Carried(k, r, None)
  {
  }

  lemma CarriedDisplay(k: Kernel, id: nat, msg: Msg, r: Kernel)
    requires Calling(k) && r == DoDisplay(k, id, msg)
    ensures Carried(k, r, None)
  {
    if HasBoard(k, id) && 0 < |msg| <= k.objs[k.handles[(BoardKind, id)].obj].maxSize {
      DisplayServes(k, id, msg, k.handles[(BoardKind, id)].obj, r);
      CarriedAll(k, r, k.handles[(BoardKind, id)].obj);
    } else {
      CarriedSame(k, r);
    }
  }

  lemma CarriedClear(k: Kernel, id: nat, r: Kernel)
    requires Calling(k) && r == Syscall(k, ClearPort(id), 0, 0, 0)
    ensures Carried(k, r, None)
  {
    if ReceiveCheck(k, PortKind, id) == NoError && k.objs[k.handles[(PortKind, id)].obj].Ring? {
      var h := k.handles[(PortKind, id)];
      SoundAwaiting(k, h.obj);
      ClearServes(k, h, r);
      if |k.objs[h.obj].msgs| == k.objs[h.obj].cap { CarriedServed(k, r, h.obj, h.disc); } else { CarriedSame(k, r); }
    } else {
      CarriedSame(k, r);
    }
  }

  lemma CarriedTalk(k: Kernel, c: Call, t0: int, t1: int, t2: int, r: Kernel)
    requires Calling(k) && Communicates(c) && Asked(k, c).None? && r == Syscall(k, c, t0, t1, t2)
    ensures Carried(k, r, None)
  {
    match c
    case Display(id, msg) => CarriedDisplay(k, id, msg, r);
    case ClearPort(id) => CarriedClear(k, id, r);
    case _ => CarriedSame(k, r);
  }

  lemma CarriedContinue(k: Kernel, s: Step, r: Kernel)
    requires Good(k) && Enabled(k, s) && s.Continue? && r == Next(k, s)
    ensures Carried(k, r, None) && !r.procs[k.cur].pc.SuspendCheck?
  {
    var a := Attempts(k, s);
    if a.Some? {
      CarriedAttempt(k, s, a.value, Deadline(k, s, a.value), r);
    } else if k.procs[k.cur].pc.SuspendCheck? {
      SuspensionEnds(k, s.t, s.t1, s.t2, r);
    } else {
      LoopTimesOut(k, s.t, s.t1, s.t2, r);
    }
  }

  // ----- services -----

  /** The priority that a call gives to p. */
  function GivenBy(k: Kernel, c: Call, p: Pid): Option<nat> {
    match c
    case SetPriority(q, pri) => if q == p && Alive(k, q) then Some(pri) else None
    case Start(q, delay) => if q == p && Startable(k, q, delay) then Some(k.procs[q].basePri) else None
    case _ => None
  }

  /** The call makes p dormant: STOP_SELF and SET_PARTITION_MODE(NORMAL) their caller, STOP another process. */
  predicate Ends(k: Kernel, c: Call, p: Pid) {
    match c
    case StopSelf => p == k.cur
    case Stop(q) => q == p && Alive(k, q)
    case SetMode(op) => p == k.cur && op == Normal && Settable(k, op)
    case _ => false
  }

  /** The call starts p. */
  predicate Starts(k: Kernel, c: Call, p: Pid) {
    c.Start? && c.target == p && Startable(k, p, c.delay)
  }

  /** When the suspension ends that a call begins. */
  function EndSetBy(k: Kernel, c: Call, t: int, p: Pid): Option<int> {
    if c.SuspendSelf? && SetBy(k, c, t, p).Some? then Some(t + c.timeout) else None
  }

  /** p is given a priority or keeps its own, is suspended until a time or goes on as it would, and is noted to wait for
      NORMAL mode only by a start in another mode. */
  ghost predicate Told(k: Kernel, r: Kernel, p: Pid, pri: Option<nat>, starts: bool, end: Option<int>) {
    && p in k.procs && p in r.procs && r.procs[p].basePri == k.procs[p].basePri && r.procs[p].period == k.procs[p].period
    && r.procs[p].pri == (if pri.Some? then pri.value else k.procs[p].pri)
    && (r.procs[p].pc.SuspendCheck? ==> r.procs[p].pc == if end.Some? then SuspendCheck(end.value) else k.procs[p].pc)
    && (Noted(r.procs[p]) ==> Noted(k.procs[p]) || (starts && !NormalPart(k)))
  }

  /** And it ends, is started, or lasts. */
  ghost predicate Lived(k: Kernel, r: Kernel, p: Pid, pri: Option<nat>, ends: bool, starts: bool, end: Option<int>) {
    Told(k, r, p, pri, starts, end) && (r.procs[p].state == Dormant <==> ends || (k.procs[p].state == Dormant && !starts))
  }

  lemma LivesOn(k: Kernel, r: Kernel, x: Option<Pid>, p: Pid)
    requires Carried(k, r, x) && p in k.procs && x != Some(p)
    ensures Lived(k, r, p, None, false, false, None)
  {
  }

  lemma SuspendSelfLives(k: Kernel, timeout: int, t: int, due: int, r: Kernel, p: Pid)
    requires Calling(k) && r == DoSuspendSelf(k, timeout, t) && due == t + timeout && p in k.procs
    ensures Lived(k, r, p, None, false, false, if SetBy(k, SuspendSelf(timeout), t, p).Some? then Some(due) else None)
  {
    if k.procs[k.cur].Periodic() || timeout == 0 {
      SuspendSelfNot(k, timeout, t, r);
    } else if timeout < INFINITE {
      SuspendTimedIs(k, timeout, t, due, r);
    } else {
      SuspendForEverIs(k, timeout, t, r);
    }
  }

  lemma WaitLives(k: Kernel, delay: int, t: int, due: int, r: Kernel, p: Pid)
    requires Calling(k) && r == DoWait(k, delay, t) && due == t + delay && p in k.procs
    ensures Lived(k, r, p, None, false, false, None)
  {
    WaitIs(k, delay, t, due, r);
  }

  lemma StartLives(k: Kernel, q: Pid, delay: int, t: int, due: int, r: Kernel, p: Pid)
    requires Calling(k) && r == DoStart(k, q, delay, t) && due == t + delay && p in k.procs
    ensures Lived(k, r, p, GivenBy(k, Start(q, delay), p), false, Starts(k, Start(q, delay), p), None)
  {
    assert ProcOk(k, k.cur);
    if !Startable(k, q, delay) {
      StartNot(k, q, delay, t, r);
    } else if !NormalPart(k) || k.procs[q].Periodic() {
      StartNotedIs(k, q, delay, t, r);
    } else if delay == 0 {
      StartReadyIs(k, q, t, r);
    } else {
      StartLaterIs(k, q, delay, t, due, r);
    }
  }

  lemma StopLives(k: Kernel, q: Pid, r: Kernel, p: Pid)
    requires Calling(k) && r == DoStop(k, q) && p in k.procs
    ensures Lived(k, r, p, None, Ends(k, Stop(q), p), false, None)
  {
    if Alive(k, q) { StopIs(k, q, r); } else { StopNot(k, q, r); }
  }

  lemma SetPriorityLives(k: Kernel, q: Pid, pri: nat, r: Kernel, p: Pid)
    requires Calling(k) && r == DoSetPriority(k, q, pri) && p in k.procs
    ensures Lived(k, r, p, GivenBy(k, SetPriority(q, pri), p), false, false, None)
  {
    if Alive(k, q) { SetPriorityIs(k, q, pri, r); } else { SetPriorityNot(k, q, pri, r); }
  }

  lemma SuspendLives(k: Kernel, q: Pid, r: Kernel, p: Pid)
    requires Calling(k) && r == DoSuspend(k, q) && p in k.procs
    ensures Lived(k, r, p, None, false, false, None)
  {
    if Suspendable(k, q) { SuspendIs(k, q, r); } else { SuspendNot(k, q, r); }
  }

  lemma ResumeLives(k: Kernel, q: Pid, r: Kernel, p: Pid)
    requires Calling(k) && r == DoResume(k, q) && p in k.procs
    ensures Lived(k, r, p, None, false, false, None)
  {
    if Resumable(k, q) { assert ProcOk(k, q); ResumeIs(k, q, r); } else { ResumeNot(k, q, r); }
  }

  lemma StopSelfLives(k: Kernel, r: Kernel, p: Pid)
    requires Calling(k) && r == Syscall(k, StopSelf, 0, 0, 0) && p in k.procs
    ensures Lived(k, r, p, None, p == k.cur, false, None)
  {
    StopSelfIs(k, r);
  }

  lemma NormalLives(k: Kernel, r: Kernel, p: Pid)
    requires Calling(k) && r == DoSetMode(k, Normal) && Settable(k, Normal) && p in k.procs
    ensures Lived(k, r, p, None, p == k.cur, false, None)
  {
    assert ProcOk(k, k.cur);
    SetNormalIs(k, r);
  }

  lemma ModeLives(k: Kernel, op: OpMode, r: Kernel, p: Pid)
    requires Calling(k) && r == DoSetMode(k, op) && p in k.procs
    ensures Lived(k, r, p, None, Ends(k, SetMode(op), p), false, None)
  {
    if !Settable(k, op) {
      SetModeNot(k, op, r);
    } else if op == Normal {
      NormalLives(k, r, p);
    } else {
      SetOtherModeIs(k, op, r);
    }
  }

  lemma ServiceLives(k: Kernel, c: Call, t0: int, t1: int, t2: int, r: Kernel, p: Pid)
    requires Calling(k) && !Communicates(c) && r == Syscall(k, c, t0, t1, t2) && p in k.procs
    ensures Lived(k, r, p, GivenBy(k, c, p), Ends(k, c, p), Starts(k, c, p), EndSetBy(k, c, t0, p))
  {
    match c
    case SuspendSelf(timeout) => SuspendSelfLives(k, timeout, t0, t0 + timeout, r, p);
    case Suspend(q) => SuspendLives(k, q, r, p);
    case ResumeProc(q) => ResumeLives(k, q, r, p);
    case StopSelf => StopSelfLives(k, r, p);
    case Stop(q) => StopLives(k, q, r, p);
    case Start(q, delay) => StartLives(k, q, delay, t0, t0 + delay, r, p);
    case Wait(delay) => WaitLives(k, delay, t0, t0 + delay, r, p);
    case SetPriority(q, pri) => SetPriorityLives(k, q, pri, r, p);
    case SetMode(op) => ModeLives(k, op, r, p);
  }

  // ----- every step -----

  lemma TalkLives(k: Kernel, s: Step, r: Kernel, p: Pid)
    requires Good(k) && Enabled(k, s) && s.Enter? && Communicates(s.call) && r == Next(k, s) && p in k.procs
    ensures Lived(k, r, p, None, false, false, None)
  {
    var a := Attempts(k, s);
    if a.Some? {
      CarriedAttempt(k, s, a.value, Deadline(k, s, a.value), r);
    } else {
      CarriedTalk(k, s.call, s.t0, s.t1, s.t2, r);
    }
    LivesOn(k, r, None, p);
  }

  lemma ScheduledLives(k: Kernel, r: Kernel, p: Pid)
    requires OnlyScheduling(k, r) && p in k.procs && (r.procs[p].state == Waiting ==> k.procs[p].state == Waiting)
    ensures Told(k, r, p, None, false, None)
  {
  }

  lemma ElectionLives(k: Kernel, s: Step, r: Kernel, p: Pid)
    requires Enabled(k, s) && (s.Scan? || s.GiveUp? || s.Dispatch?) && r == Next(k, s) && p in k.procs
    ensures Told(k, r, p, None, false, None)
    ensures (s.Dispatch? ==> MayRun(k, k.mode.search.best.value)) ==> Lived(k, r, p, None, false, false, None)
  {
    match s
    case Scan => ScanIs(k, r); ScheduledLives(k, r, p);
    case GiveUp => GiveUpIs(k, r); ScheduledLives(k, r, p);
    case Dispatch => DispatchIs(k, r); ScheduledLives(k, r, p);
  }

  lemma TickedLives(k: Kernel, t: int, nextPart: Part, r: Kernel, p: Pid)
    requires Ticked(k, t, nextPart, r) && p in k.procs && (DueFor(k, t, p) ==> k.procs[p].state == Waiting)
    ensures Lived(k, r, p, None, false, false, None)
  {
  }

  lemma TickLives(k: Kernel, s: Step, r: Kernel, p: Pid)
    requires Good(k) && s.Interrupt? && r == Next(k, s) && p in k.procs
    ensures Lived(k, r, p, None, false, false, None)
  {
    TickExactly(k, s.t, s.nextPart, s.nextTime, r);
    if DueFor(k, s.t, p) { DueWaits(k, s.t, p); }
    TickedLives(k, s.t, s.nextPart, r, p);
  }

  lemma DueWaits(k: Kernel, t: int, p: Pid)
    requires Inv(k) && p in k.procs && DueFor(k, t, p)
    ensures k.procs[p].state == Waiting
  {
    var e :| e in k.queue && e.time <= t && Target(k, e.what) == Some(p);
    assert EventOk(k, e) && ProcOk(k, p);
  }

  /** What a call in the step gives p. */
  function PriAt(k: Kernel, s: Step, p: Pid): Option<nat> { if s.Enter? then GivenBy(k, s.call, p) else None }

  function EndAt(k: Kernel, s: Step, p: Pid): Option<int> { if s.Enter? then EndSetBy(k, s.call, s.t0, p) else None }

  predicate EndsAt(k: Kernel, s: Step, p: Pid) { s.Enter? && Ends(k, s.call, p) }

  predicate StartsAt(k: Kernel, s: Step, p: Pid) { s.Enter? && Starts(k, s.call, p) }

  lemma EnterLives(k: Kernel, s: Step, r: Kernel, p: Pid)
    requires Good(k) && Enabled(k, s) && s.Enter? && r == Next(k, s) && p in k.procs
    ensures Lived(k, r, p, PriAt(k, s, p), EndsAt(k, s, p), StartsAt(k, s, p), EndAt(k, s, p))
  {
    if Communicates(s.call) {
      TalkLives(k, s, r, p);
    } else {
      ServiceLives(k, s.call, s.t0, s.t1, s.t2, r, p);
    }
  }

  /** The process found by a dispatch may run. */
  ghost predicate DispatchesReady(k: Kernel, s: Step) {
    s.Dispatch? && Enabled(k, s) ==> MayRun(k, k.mode.search.best.value)
  }

  lemma StepLives(k: Kernel, s: Step, r: Kernel, p: Pid)
    requires Good(k) && Enabled(k, s) && r == Next(k, s) && p in k.procs
    ensures Told(k, r, p, PriAt(k, s, p), StartsAt(k, s, p), EndAt(k, s, p))
    ensures DispatchesReady(k, s) ==> Lived(k, r, p, PriAt(k, s, p), EndsAt(k, s, p), StartsAt(k, s, p), EndAt(k, s, p))
  {
    match s
    case Enter(_, _, _, _) => EnterLives(k, s, r, p);
    case Continue(_, _, _) => CarriedContinue(k, s, r); LivesOn(k, r, None, p);
    case Interrupt(_, _, _) => TickLives(k, s, r, p);
    case _ => ElectionLives(k, s, r, p);
  }

  // ----- over runs -----

  /** The priority a step gives p, whose base priority is base: what a SET_PRIORITY that finds it says, and its base
      priority if it is started. */
  function Gives(m: Kernel, s: Step, p: Pid, base: nat): Option<nat> {
    if !s.Enter? then None
    else
      match s.call
      case SetPriority(q, pri) => if q == p && Alive(m, q) then Some(pri) else None
      case Start(q, delay) => if q == p && Startable(m, q, delay) then Some(base) else None
      case _ => None
  }

  lemma GivesIs(m: Kernel, s: Step, p: Pid)
    requires p in m.procs
    ensures PriAt(m, s, p) == Gives(m, s, p, m.procs[p].basePri)
  {
  }

  /** The priority of p by the history of calls: the one it was given last. */
  ghost function PriorityOf(k: Kernel, steps: seq<Step>, p: Pid): nat
    requires Runs(k, steps) && p in k.procs
    decreases |steps|
  {
    if steps == [] then k.procs[p].pri
    else
      var before := steps[..|steps| - 1];
      var g := Gives(Final(k, before), steps[|steps| - 1], p, k.procs[p].basePri);
      if g.Some? then g.value else PriorityOf(k, before, p)
  }

  lemma PriorityStep(m: Kernel, s: Step, r: Kernel, p: Pid, base: nat, was: nat)
    requires Good(m) && Enabled(m, s) && r == Next(m, s) && p in m.procs && m.procs[p].basePri == base && m.procs[p].pri == was
    ensures var g := Gives(m, s, p, base);
            p in r.procs && r.procs[p].basePri == base && r.procs[p].pri == if g.Some? then g.value else was
  {
    GivesIs(m, s, p);
    StepLives(m, s, r, p);
  }

  /** Over every fitting run a process has the priority that it was given last, by a call that found it, or by its start:
      its base priority, which never changes. */
  lemma {:induction false} PriorityExactly(k: Kernel, steps: seq<Step>, p: Pid)
    requires Boot(k) && Runs(k, steps) && AlwaysFitting(k, steps) && p in k.procs
    ensures var r := Final(k, steps);
            p in r.procs && r.procs[p].pri == PriorityOf(k, steps, p) && r.procs[p].basePri == k.procs[p].basePri
    decreases |steps|
  {
    if steps != [] {
      var before := steps[..|steps| - 1];
      RunSound(k, before);
      PriorityExactly(k, before, p);
      PriorityStep(Final(k, before), steps[|steps| - 1], Final(k, steps), p, k.procs[p].basePri, PriorityOf(k, before, p));
    }
  }

  /** When the suspension ends that p begins in the step. */
  function SuspendsTo(m: Kernel, s: Step, p: Pid): Option<int> {
    if s.Enter? && s.call.SuspendSelf? && m.cur == p && SetBy(m, s.call, s.t0, p).Some? then Some(s.t0 + s.call.timeout) else None
  }

  /** When the suspension ends that p began last. */
  ghost function SuspendedTo(k: Kernel, steps: seq<Step>, p: Pid): Option<int>
    requires Runs(k, steps)
    decreases |steps|
  {
    if steps == [] then None
    else
      var before := steps[..|steps| - 1];
      var e := SuspendsTo(Final(k, before), steps[|steps| - 1], p);
      if e.Some? then e else SuspendedTo(k, before, p)
  }

  lemma SuspensionStep(m: Kernel, s: Step, r: Kernel, p: Pid)
    requires Good(m) && Enabled(m, s) && r == Next(m, s) && p in m.procs && p in r.procs && r.procs[p].pc.SuspendCheck?
    ensures var e := SuspendsTo(m, s, p); r.procs[p].pc == if e.Some? then SuspendCheck(e.value) else m.procs[p].pc
  {
    StepLives(m, s, r, p);
    assert EndAt(m, s, p) == SuspendsTo(m, s, p);
  }

  lemma {:induction false} SuspensionEnd(k: Kernel, steps: seq<Step>, p: Pid)
    requires Boot(k) && Runs(k, steps) && AlwaysFitting(k, steps) && p in k.procs
    requires p in Final(k, steps).procs && Final(k, steps).procs[p].pc.SuspendCheck?
    ensures SuspendedTo(k, steps, p) == Some(Final(k, steps).procs[p].pc.wakeup)
    decreases |steps|
  {
    if steps == [] {
      NoLoopYet(k, p);
    } else {
      var before := steps[..|steps| - 1];
      RunSound(k, before);
      SuspensionStep(Final(k, before), steps[|steps| - 1], Final(k, steps), p);
      if SuspendsTo(Final(k, before), steps[|steps| - 1], p).None? { SuspensionEnd(k, before, p); }
    }
  }

  /** SUSPEND_SELF returns TIMED_OUT exactly if its process goes on at the clock reading of the call plus the timeout, or
      later. */
  lemma SuspensionReturns(k: Kernel, steps: seq<Step>, p: Pid, t: int)
    requires Boot(k) && Runs(k, steps) && AlwaysFitting(k, steps) && p in k.procs
    requires p in Final(k, steps).procs && Final(k, steps).procs[p].pc.SuspendCheck?
    ensures var e := SuspendedTo(k, steps, p);
            e.Some? && (SuspendResult(Final(k, steps).procs[p].pc, t) == TimedOut <==> t >= e.value)
  {
    SuspensionEnd(k, steps, p);
  }

  // ----- dormancy, in calm runs -----

  /** p is dormant by the history of calls: it ended last, or was never started. */
  ghost predicate DormantBy(k: Kernel, steps: seq<Step>, p: Pid)
    requires Runs(k, steps) && p in k.procs
    decreases |steps|
  {
    if steps == [] then k.procs[p].state == Dormant
    else
      var before, s := steps[..|steps| - 1], steps[|steps| - 1];
      var m := Final(k, before);
      EndsAt(m, s, p) || (DormantBy(k, before, p) && !StartsAt(m, s, p))
  }

  lemma CalmDispatches(k: Kernel, s: Step)
    requires Good(k) && OrderOk(k) && Settled(k)
    ensures DispatchesReady(k, s)
  {
    if s.Dispatch? && Enabled(k, s) { UpToDateFits(k); }
  }

  lemma DormantStep(m: Kernel, s: Step, r: Kernel, p: Pid)
    requires Good(m) && Enabled(m, s) && DispatchesReady(m, s) && r == Next(m, s) && p in m.procs
    ensures p in r.procs && (r.procs[p].state == Dormant <==> EndsAt(m, s, p) || (m.procs[p].state == Dormant && !StartsAt(m, s, p)))
  {
    StepLives(m, s, r, p);
  }

  /** In a calm run a process is dormant exactly if it has ended since it was started last: by STOP_SELF, by a STOP that
      found it, or as the caller of SET_PARTITION_MODE(NORMAL). Nothing else ends it, and only START gets it out. */
  lemma {:induction false} DormantExactly(k: Kernel, steps: seq<Step>, p: Pid)
    requires Boot(k) && Runs(k, steps) && AlwaysCalm(k, steps) && p in k.procs
    ensures p in Final(k, steps).procs && (Final(k, steps).procs[p].state == Dormant <==> DormantBy(k, steps, p))
    decreases |steps|
  {
    if steps != [] {
      var before := steps[..|steps| - 1];
      CalmFits(k, before);
      RunSound(k, before);
      DormantExactly(k, before, p);
      CalmDispatches(Final(k, before), steps[|steps| - 1]);
      DormantStep(Final(k, before), steps[|steps| - 1], Final(k, steps), p);
    }
  }

  lemma NoLoopYet(k: Kernel, p: Pid)
    requires Boot(k) && p in k.procs
    ensures k.procs[p].pc == User
  {
    var c :| Configured(c) && k == Launched(c);
    assert FreshProc(c.procs[p]);
  }

  // ----- the modes of the partitions -----

  ghost predicate SameModes(k: Kernel, r: Kernel) {
    r.opMode == k.opMode
  }

  lemma {:induction false} WakeAllModes(k: Kernel, o: ObjId)
    requires o in k.objs
    ensures SameModes(k, WakeAll(k, o))
    decreases |k.objs[o].waiting|
  {
    var ps := k.objs[o].waiting;
    if ps != [] && ps[0] in k.procs { WakeAllModes(Wake(k, o, ps[0]), o); }
  }

  lemma DisplayModes(k: Kernel, id: nat, msg: Msg, r: Kernel)
    requires k.cur in k.procs && r == DoDisplay(k, id, msg)
    ensures SameModes(k, r)
  {
    if HasBoard(k, id) && 0 < |msg| <= k.objs[k.handles[(BoardKind, id)].obj].maxSize {
      var o := k.handles[(BoardKind, id)].obj;
      WakeAllModes(Logged(WithObj(k, o, Board(k.objs[o].maxSize, msg, true, k.objs[o].waiting)), Shown(o, msg)), o);
    }
  }

  lemma WriteModes(k: Kernel, k1: Kernel, x: Xfer, r: Kernel)
    requires k1.cur in k1.procs && x.obj in k1.objs && k1.opMode == k.opMode && r == AfterTransfer(k1, x)
    ensures SameModes(k, r)
  {
  }

  lemma CompleteModes(k: Kernel, x: Xfer, r: Kernel)
    requires k.cur in k.procs && x.obj in k.objs && Suits(k.objs[x.obj], x.op) && !Obstructed(k.objs[x.obj], x.op) && r == Complete(k, x)
    ensures SameModes(k, r)
  {
    var b := k.objs[x.obj];
    match x.op
    case Send(m) => WriteModes(k, Logged(WithObj(k, x.obj, b.(msgs := b.msgs + [m])), Sent(x.obj, m)), x, r);
    case Recv => WriteModes(k, Logged(WithObj(k, x.obj, b.(msgs := b.msgs[1..])), Received(x.obj, b.msgs[0])), x, r);
    case Read => ReadModes(k, x, r);
  }

  lemma ReadModes(k: Kernel, x: Xfer, r: Kernel)
    requires k.cur in k.procs && x.obj in k.objs && Suits(k.objs[x.obj], x.op) && !Obstructed(k.objs[x.obj], x.op) && r == Complete(k, x)
    requires x.op.Read?
    ensures SameModes(k, r)
  {
  }

  lemma BlockModes(k: Kernel, x: Xfer, outer: int, t1: int, t2: int)
    requires k.cur in k.procs && x.obj in k.objs
    ensures SameModes(k, Block(k, x, outer, t1, t2))
  {
  }

  lemma LoopModes(k: Kernel, x: Xfer, outer: int, t1: int, t2: int, r: Kernel)
    requires k.cur in k.procs && x.obj in k.objs && Suits(k.objs[x.obj], x.op) && r == LoopOn(k, x, outer, t1, t2)
    ensures SameModes(k, r)
  {
    if Obstructed(k.objs[x.obj], x.op) { BlockModes(k, x, outer, t1, t2); } else { CompleteModes(k, x, r); }
  }

  lemma BegunModes(k: Kernel, s: Step)
    requires Enabled(k, s) && (s.Continue? ==> k.procs[k.cur].pc.Retry?)
    ensures SameModes(k, Begun(k, s))
  {
  }

  lemma AttemptModes(k: Kernel, s: Step, x: Xfer, outer: int, r: Kernel)
    requires Good(k) && Enabled(k, s) && Attempts(k, s) == Some(x) && outer == Deadline(k, s, x) && r == Next(k, s)
    ensures SameModes(k, r)
  {
    AttemptIs(k, s, x, outer, r);
    BegunModes(k, s);
    if !(s.Enter? && Obstructed(k.objs[x.obj], x.op) && x.timeout == 0) { LoopModes(Begun(k, s), x, outer, s.t1, s.t2, r); }
  }

  lemma ClearModes(k: Kernel, h: Handle)
    requires h.obj in k.objs && k.objs[h.obj].Ring?
    ensures SameModes(k, Clear(k, h))
  {
  }

  lemma TalkModes(k: Kernel, c: Call, t0: int, t1: int, t2: int, r: Kernel)
    requires k.cur in k.procs && Communicates(c) && Asked(k, c).None? && r == Syscall(k, c, t0, t1, t2)
    ensures SameModes(k, r)
  {
    match c
    case Display(id, msg) => DisplayModes(k, id, msg, r);
    case ClearPort(id) =>
      if ReceiveCheck(k, PortKind, id) == NoError && k.objs[k.handles[(PortKind, id)].obj].Ring? { ClearModes(k, k.handles[(PortKind, id)]); }
    case _ =>
  }

  lemma {:induction false} FireDueModes(k: Kernel, t: int)
    ensures SameModes(k, FireDue(k, t))
    decreases |k.queue|
  {
    if k.queue != [] && k.queue[0].time <= t { FireDueModes(Fire(k), t); }
  }

  lemma TickModes(k: Kernel, t: int, nextPart: Part, nextTime: int, r: Kernel)
    requires r == Tick(k, t, nextPart, nextTime)
    ensures SameModes(k, r)
  {
    var m := FireDue(k, t);
    FireDueModes(k, t);
    TickBegins(k, t, nextPart, nextTime, m, r);
  }

  /** The mode that a call sets. */
  function ModeBy(k: Kernel, c: Call): Option<OpMode> {
    if c.SetMode? && Settable(k, c.op) then Some(c.op) else None
  }

  ghost predicate Modes(k: Kernel, r: Kernel, op: Option<OpMode>) {
    r.opMode == if op.Some? then k.opMode[k.part := op.value] else k.opMode
  }

  lemma ResumeModes(k: Kernel, p: Pid, r: Kernel)
    requires Calling(k) && r == DoResume(k, p)
    ensures SameModes(k, r)
  {
    if Resumable(k, p) { assert ProcOk(k, p); ResumeIs(k, p, r); } else { ResumeNot(k, p, r); }
  }

  lemma OtherModes(k: Kernel, c: Call, t0: int, t1: int, t2: int, r: Kernel)
    requires Calling(k) && (c.Suspend? || c.ResumeProc? || c.Stop? || c.SetPriority?) && r == Syscall(k, c, t0, t1, t2)
    ensures SameModes(k, r)
  {
    match c
    case Suspend(p) => if Suspendable(k, p) { SuspendIs(k, p, r); } else { SuspendNot(k, p, r); }
    case ResumeProc(p) => ResumeModes(k, p, r);
    case Stop(p) => if Alive(k, p) { StopIs(k, p, r); } else { StopNot(k, p, r); }
    case SetPriority(p, pri) => if Alive(k, p) { SetPriorityIs(k, p, pri, r); } else { SetPriorityNot(k, p, pri, r); }
  }

  lemma StartModes(k: Kernel, p: Pid, delay: int, t: int, due: int, r: Kernel)
    requires Calling(k) && due == t + delay && r == DoStart(k, p, delay, t)
    ensures SameModes(k, r)
  {
    assert ProcOk(k, k.cur);
    if !Startable(k, p, delay) {
      StartNot(k, p, delay, t, r);
    } else if !NormalPart(k) || k.procs[p].Periodic() {
      StartNotedIs(k, p, delay, t, r);
    } else if delay == 0 {
      StartReadyIs(k, p, t, r);
    } else {
      StartLaterIs(k, p, delay, t, due, r);
    }
  }

  lemma SuspendSelfModes(k: Kernel, timeout: int, t: int, due: int, r: Kernel)
    requires k.cur in k.procs && due == t + timeout && r == DoSuspendSelf(k, timeout, t)
    ensures SameModes(k, r)
  {
    if k.procs[k.cur].Periodic() || timeout == 0 {
      SuspendSelfNot(k, timeout, t, r);
    } else if timeout < INFINITE {
      SuspendTimedIs(k, timeout, t, due, r);
    } else {
      SuspendForEverIs(k, timeout, t, r);
    }
  }

  lemma SetModeModes(k: Kernel, op: OpMode, r: Kernel)
    requires k.cur in k.procs && r == DoSetMode(k, op)
    ensures Modes(k, r, ModeBy(k, SetMode(op)))
  {
  }

  lemma ServiceModes(k: Kernel, c: Call, t0: int, t1: int, t2: int, r: Kernel)
    requires Calling(k) && !Communicates(c) && r == Syscall(k, c, t0, t1, t2)
    ensures Modes(k, r, ModeBy(k, c))
  {
    match c
    case SuspendSelf(timeout) => SuspendSelfModes(k, timeout, t0, t0 + timeout, r);
    case StopSelf => StopSelfIs(k, r);
    case Start(p, delay) => StartModes(k, p, delay, t0, t0 + delay, r);
    case Wait(delay) => WaitIs(k, delay, t0, t0 + delay, r);
    case SetMode(op) => SetModeModes(k, op, r);
    case _ => OtherModes(k, c, t0, t1, t2, r);
  }

  function ModeAt(k: Kernel, s: Step): Option<OpMode> { if s.Enter? then ModeBy(k, s.call) else None }

  lemma EnterModes(k: Kernel, s: Step, r: Kernel)
    requires Good(k) && Enabled(k, s) && s.Enter? && r == Next(k, s)
    ensures Modes(k, r, ModeAt(k, s))
  {
    if !Communicates(s.call) {
      ServiceModes(k, s.call, s.t0, s.t1, s.t2, r);
    } else {
      var a := Attempts(k, s);
      if a.Some? { AttemptModes(k, s, a.value, Deadline(k, s, a.value), r); } else { TalkModes(k, s.call, s.t0, s.t1, s.t2, r); }
    }
  }

  lemma LateModes(k: Kernel, s: Step, r: Kernel)
    requires Enabled(k, s) && s.Continue? && Attempts(k, s).None? && r == Next(k, s)
    ensures SameModes(k, r)
  {
    if k.procs[k.cur].pc.SuspendCheck? { SuspensionEnds(k, s.t, s.t1, s.t2, r); } else { LoopTimesOut(k, s.t, s.t1, s.t2, r); }
  }

  lemma ElectionModes(k: Kernel, s: Step, r: Kernel)
    requires Enabled(k, s) && (s.Scan? || s.GiveUp? || s.Dispatch?) && r == Next(k, s)
    ensures SameModes(k, r)
  {
    match s
    case Scan => ScanIs(k, r);
    case GiveUp => GiveUpIs(k, r);
    case Dispatch => DispatchIs(k, r);
  }

  /** Only SET_PARTITION_MODE sets a mode, that of the current partition. */
  lemma StepModes(k: Kernel, s: Step, r: Kernel)
    requires Good(k) && Enabled(k, s) && r == Next(k, s)
    ensures Modes(k, r, ModeAt(k, s))
  {
    match s
    case Enter(_, _, _, _) => EnterModes(k, s, r);
    case Continue(_, _, _) =>
      var a := Attempts(k, s);
      if a.Some? { AttemptModes(k, s, a.value, Deadline(k, s, a.value), r); } else { LateModes(k, s, r); }
    case Interrupt(t, nextPart, nextTime) => TickModes(k, t, nextPart, nextTime, r);
    case _ => ElectionModes(k, s, r);
  }

  // ----- nobody is left waiting for NORMAL mode -----

  /** No process on the list of a partition in NORMAL mode waits for that mode. */
  ghost predicate NobodyLeft(k: Kernel) {
    forall a, p :: a in k.opMode && k.opMode[a] == Normal && a in k.order && p in k.order[a] && p in k.procs ==> !Noted(k.procs[p])
  }

  lemma NormalLeaves(k: Kernel, r: Kernel)
    requires Calling(k) && OrderOk(k) && NobodyLeft(k) && Settable(k, Normal) && r == DoSetMode(k, Normal)
    ensures NobodyLeft(r)
  {
    assert ProcOk(k, k.cur);
    SetNormalIs(k, r);
    forall a, p | a in r.opMode && r.opMode[a] == Normal && a in r.order && p in r.order[a] && p in r.procs ensures !Noted(r.procs[p]) {
      if a == k.part { assert p in Members(k); }
    }
  }

  lemma OtherLeaves(k: Kernel, s: Step, r: Kernel)
    requires Good(k) && OrderOk(k) && NobodyLeft(k) && Enabled(k, s) && r == Next(k, s) && Static(k, r)
    requires ModeAt(k, s) != Some(Normal)
    ensures NobodyLeft(r)
  {
    StepModes(k, s, r);
    forall a, p | a in r.opMode && r.opMode[a] == Normal && a in r.order && p in r.order[a] && p in r.procs ensures !Noted(r.procs[p]) {
      StepLives(k, s, r, p);
    }
  }

  lemma StepLeaves(k: Kernel, s: Step, r: Kernel)
    requires Sound(k) && NobodyLeft(k) && Enabled(k, s) && r == Next(k, s)
    ensures NobodyLeft(r)
  {
    if ModeAt(k, s) == Some(Normal) {
      NormalLeaves(k, r);
    } else {
      StepFaithful(k, s);
      OtherLeaves(k, s, r);
    }
  }

  lemma NobodyLeftYet(k: Kernel)
    requires Boot(k)
    ensures NobodyLeft(k)
  {
    var c :| Configured(c) && k == Launched(c);
    forall p | p in k.procs ensures !Noted(k.procs[p]) { assert FreshProc(c.procs[p]); }
  }

  /** Over every fitting run, in a partition that has gone to NORMAL mode no process of its list is left WAITING for that:
      SET_PARTITION_MODE(NORMAL) releases all that were started before, and later starts do not wait. */
  lemma {:induction false} NobodyLeftBehind(k: Kernel, steps: seq<Step>)
    requires Boot(k) && Runs(k, steps) && AlwaysFitting(k, steps)
    ensures NobodyLeft(Final(k, steps))
    decreases |steps|
  {
    if steps == [] {
      NobodyLeftYet(k);
    } else {
      var before := steps[..|steps| - 1];
      RunSound(k, before);
      NobodyLeftBehind(k, before);
      StepLeaves(Final(k, before), steps[|steps| - 1], Final(k, steps));
    }
  }
}
