/** The searches of sched_elect_next_proc: what one elects that nothing interrupts, when every dispatch of a run
    fits, and a run in which one does not. */
module KernelSearch {
  import opened Common
  import opened TimerQueue
  import opened Election
  import opened KernelSpec
  import opened KernelInv
  import opened KernelSteps
  import opened KernelCalls
  import opened KernelTimer
  import opened KernelFifo
  import opened KernelRuns

  // ----- without interruption -----

  /** How far a search is from the end of its lists. */
  function Rounds(s: Search): nat { if s.Fresh? then 2 else if s.again then 1 else 0 }
  function Ahead(s: Search): nat { if s.Fresh? then 0 else |s.todo| }

  /** A search going through its lists while nothing else happens. */
  function Sweep(k: Kernel, s: Search): Search
    decreases Rounds(s), Ahead(s)
  {
    if s.Done() then s else Sweep(k, Scanned(k, s))
  }

  function PidAt(ps: seq<Pid>, i: Option<nat>): Option<Pid>
    requires i.Some? ==> i.value < |ps|
  {
    if i.None? then None else Some(ps[i.value])
  }

  lemma {:induction false} SweepBest(k: Kernel, ps: seq<Pid>, i: nat)
    requires i <= |ps|
    ensures var cs := Candidates(k.procs, ps);
            Sweep(k, Looking(None, ps[i..], false, PidAt(ps, Best(cs, i)))) == Looking(None, [], false, PidAt(ps, Best(cs, |cs|)))
    decreases |ps| - i
  {
    var cs := Candidates(k.procs, ps);
    var s := Looking(None, ps[i..], false, PidAt(ps, Best(cs, i)));
    if i < |ps| {
      assert cs[i] == CandidateOf(k.procs, ps[i]);
      assert Scanned(k, s) == Looking(None, ps[i + 1..], false, PidAt(ps, Best(cs, i + 1)));
      SweepBest(k, ps, i + 1);
    }
  }

  lemma {:induction false} SweepNext(k: Kernel, ps: seq<Pid>, i: nat, pri: nat, again: bool)
    requires i <= |ps|
    ensures var n := NextFrom(Candidates(k.procs, ps), i, pri);
            Sweep(k, Looking(Some(pri), ps[i..], again, None))
            == if n.Some? then Looking(Some(pri), [], false, Some(ps[n.value]))
               else Sweep(k, Looking(Some(pri), [], again, None))
    decreases |ps| - i
  {
    var cs := Candidates(k.procs, ps);
    if i < |ps| {
      assert cs[i] == CandidateOf(k.procs, ps[i]);
      var s := Looking(Some(pri), ps[i..], again, None);
      if !Takes(cs[i], pri) {
        assert Scanned(k, s) == Looking(Some(pri), ps[i + 1..], again, None);
        SweepNext(k, ps, i + 1, pri, again);
      }
    }
  }

  lemma RoundRobinElects(k: Kernel)
    requires k.cur in k.procs && k.procs[k.cur].part == k.part && k.cur in Members(k)
    ensures Sweep(k, Fresh(true)) == Looking(Some(k.procs[k.cur].pri), [], false, Elected(k, true))
  {
    var ps, pri := Members(k), k.procs[k.cur].pri;
    var at := PositionOf(ps, k.cur).value;
    assert Candidates(k.procs, ps)[at] == CandidateOf(k.procs, k.cur);
    SweepNext(k, ps, at + 1, pri, true);
    SweepNext(k, ps, 0, pri, false);
    assert ps[0..] == ps;
    assert Scanned(k, Fresh(true)) == Looking(Some(pri), ps[at + 1..], true, None);
    assert Scanned(k, Looking(Some(pri), [], true, None)) == Looking(Some(pri), ps, false, None);
  }

  /** A search that nothing interrupts ends with the process the election is defined to choose. */
  lemma SweepElects(k: Kernel, roundRobin: bool)
    requires roundRobin ==> k.cur in k.procs && k.procs[k.cur].part == k.part && k.cur in Members(k)
    ensures var s := Sweep(k, Fresh(roundRobin)); s.Done() && s.best == Elected(k, roundRobin) && s.above.Some? == roundRobin
  {
    if roundRobin {
      RoundRobinElects(k);
    } else {
      SweepBest(k, Members(k), 0);
      assert Members(k)[0..] == Members(k);
      assert Scanned(k, Fresh(false)) == Looking(None, Members(k), false, None);
    }
  }

  /** r is what n steps of the search under way in k lead to. */
  ghost predicate Scans(k: Kernel, r: Kernel, n: nat)
    decreases n
  {
    if n == 0 then k == r else Enabled(k, Scan) && Scans(Next(k, Scan), r, n - 1)
  }

  /** The kernel in which the search under way has been through its lists. */
  function Searched(k: Kernel): Kernel
    requires Searching(k)
  {
    WithSearch(k, Sweep(k, SearchOf(k)))
  }

  /** Whatever a search looks at is the same. */
  ghost predicate Agree(a: Kernel, b: Kernel) {
    && a.cur == b.cur && a.part == b.part && a.order == b.order && a.procs.Keys == b.procs.Keys
    && forall p :: p in a.procs ==>
         a.procs[p].state == b.procs[p].state && a.procs[p].pri == b.procs[p].pri && a.procs[p].part == b.procs[p].part
  }

  lemma ScansAgree(a: Kernel, b: Kernel, s: Search)
    requires Agree(a, b)
    ensures Scanned(a, s) == Scanned(b, s)
  {
    if s.Looking? {
      if s.todo != [] { assert CandidateOf(a.procs, s.todo[0]) == CandidateOf(b.procs, s.todo[0]); }
      if s.best.Some? { assert CandidateOf(a.procs, s.best.value) == CandidateOf(b.procs, s.best.value); }
    }
  }

  lemma {:induction false} SweepsAgree(a: Kernel, b: Kernel, s: Search)
    requires Agree(a, b)
    ensures Sweep(a, s) == Sweep(b, s)
    decreases Rounds(s), Ahead(s)
  {
    ScansAgree(a, b, s);
    if !s.Done() { SweepsAgree(a, b, Scanned(b, s)); }
  }

  lemma SearchAgrees(k: Kernel, m: Kernel, s: Search)
    requires Searching(k) && m == WithSearch(k, s)
    ensures Agree(m, k) && Searching(m) && SearchOf(m) == s
  {
    if k.mode == Executing {
      ProcAgrees(k, m, k.cur, k.procs[k.cur].(giving := Yes(s), pc := k.procs[k.cur].pc));
    }
  }

  lemma ProcAgrees(k: Kernel, m: Kernel, p: Pid, q: Proc)
    requires p in k.procs && m == WithProc(k, p, q)
    requires q.state == k.procs[p].state && q.pri == k.procs[p].pri && q.part == k.procs[p].part
    ensures Agree(m, k)
  {
  }

  lemma SearchTwice(k: Kernel, m: Kernel, s: Search, t: Search)
    requires Searching(k) && m == WithSearch(k, s) && Searching(m)
    ensures WithSearch(m, t) == WithSearch(k, t)
  {
    if k.mode == Executing {
      assert WithSearch(m, t).procs == WithSearch(k, t).procs;
    }
  }

  lemma SearchSame(k: Kernel)
    requires Searching(k)
    ensures WithSearch(k, SearchOf(k)) == k
  {
    if k.mode == Executing { assert k.procs[k.cur := k.procs[k.cur]] == k.procs; }
  }

  /** One step of a search that has got as far as s. */
  lemma ScanOn(k: Kernel, m: Kernel, s: Search)
    requires Searching(k) && m == WithSearch(k, s) && !s.Done()
    ensures Enabled(m, Scan) && Next(m, Scan) == WithSearch(k, Scanned(k, s))
    ensures Searching(Next(m, Scan)) && SearchOf(Next(m, Scan)) == Scanned(k, s)
  {
    SearchAgrees(k, m, s);
    ScansAgree(m, k, s);
    SearchTwice(k, m, s, Scanned(k, s));
    SearchAgrees(k, Next(m, Scan), Scanned(k, s));
  }

  lemma ScanNears(k: Kernel, s: Search)
    requires !s.Done()
    ensures var t := Scanned(k, s); Rounds(t) < Rounds(s) || (Rounds(t) == Rounds(s) && Ahead(t) < Ahead(s))
  {
  }

  /** An uninterrupted search is a run of the machine's own steps. */
  lemma {:induction false} SearchedByScans(k: Kernel) returns (n: nat)
    requires Searching(k)
    ensures Scans(k, Searched(k), n)
    decreases Rounds(SearchOf(k)), Ahead(SearchOf(k))
  {
    var s := SearchOf(k);
    if s.Done() {
      n := 0;
      SearchSame(k);
    } else {
      var m := Next(k, Scan);
      SearchAgrees(k, m, Scanned(k, s));
      SweepsAgree(m, k, Scanned(k, s));
      SearchTwice(k, m, Scanned(k, s), Sweep(k, s));
      n := SearchedByScans(m);
      n := n + 1;
    }
  }

  /** So it extends any run. */
  lemma {:induction false} ScansRun(k0: Kernel, steps: seq<Step>, k: Kernel, r: Kernel, n: nat) returns (more: seq<Step>)
    requires Runs(k0, steps) && AlwaysFitting(k0, steps) && Final(k0, steps) == k && Scans(k, r, n)
    ensures Runs(k0, more) && AlwaysFitting(k0, more) && Final(k0, more) == r
    ensures forall s :: s in more ==> s in steps || s == Scan
    decreases n
  {
    if n == 0 {
      more := steps;
    } else {
      var k1, longer := Next(k, Scan), steps + [Scan];
      OneMore(k0, steps, k, Scan, k1);
      more := ScansRun(k0, longer, k1, r, n - 1);
    }
  }

  // ----- runs in which every dispatch fits -----

  /** While sched_proc searches, no interrupt finds an event due that makes it start over: neither a partition
      activation nor an event of a process of the current partition. */
  ghost predicate Calm(k: Kernel, s: Step) {
    && (s.Interrupt? && k.mode.Electing? ==> !HasActivation(Due(k.queue, s.t)) && !HasLocal(k, Due(k.queue, s.t)))
    && (s.Enter? ==> StopsNoWaiter(k, s.call))
  }

  ghost predicate AlwaysCalm(k: Kernel, steps: seq<Step>)
    requires Runs(k, steps)
    decreases |steps|
  {
    steps == [] || (AlwaysCalm(k, steps[..|steps| - 1]) && Calm(Final(k, steps[..|steps| - 1]), steps[|steps| - 1]))
  }

  /** What the search of sched_proc has in hand is up to date. */
  ghost predicate UpToDate(k: Kernel, s: Search) {
    && ((if s.Fresh? then s.roundRobin else s.above.Some?) ==> k.cur in k.procs && k.procs[k.cur].part == k.part)
    && (s.Looking? ==>
          && (forall p :: p in s.todo ==> p in Members(k))
          && (s.best.Some? ==> s.best.value in Members(k) && MayRun(k, s.best.value)))
  }

  /** No search is held, and the one under way is up to date. */
  ghost predicate Settled(k: Kernel) {
    && k.held == map[]
    && (k.mode.Electing? ==> (forall p :: p in k.procs ==> k.procs[p].state != Running) && UpToDate(k, k.mode.search))
  }

  /** The call leaves the mode alone and holds no search. */
  ghost predicate Undisturbed(k: Kernel, r: Kernel) {
    r.mode == k.mode && (k.held == map[] ==> r.held == map[])
  }

  lemma {:induction false} WakeAllUndisturbed(k: Kernel, o: ObjId)
    requires o in k.objs
    ensures Undisturbed(k, WakeAll(k, o))
    decreases |k.objs[o].waiting|
  {
    var ps := k.objs[o].waiting;
    if ps != [] && ps[0] in k.procs { WakeAllUndisturbed(Wake(k, o, ps[0]), o); }
  }

  lemma TransferUndisturbed(k: Kernel, x: Xfer, outer: int, t1: int, t2: int)
    requires k.cur in k.procs && x.obj in k.objs && Suits(k.objs[x.obj], x.op)
    ensures Undisturbed(k, LoopOn(k, x, outer, t1, t2))
  {
    if Obstructed(k.objs[x.obj], x.op) { BlockUndisturbed(k, x, outer, t1, t2); } else { CompleteUndisturbed(k, x); }
  }

  lemma BlockUndisturbed(k: Kernel, x: Xfer, outer: int, t1: int, t2: int)
    requires k.cur in k.procs && x.obj in k.objs
    ensures Undisturbed(k, Block(k, x, outer, t1, t2))
  {
  }

  lemma CompleteUndisturbed(k: Kernel, x: Xfer)
    requires k.cur in k.procs && x.obj in k.objs && Suits(k.objs[x.obj], x.op) && !Obstructed(k.objs[x.obj], x.op)
    ensures Undisturbed(k, Complete(k, x))
  {
  }

  lemma DisplayUndisturbed(k: Kernel, id: nat, msg: Msg)
    requires k.cur in k.procs
    ensures Undisturbed(k, DoDisplay(k, id, msg))
  {
    if HasBoard(k, id) && 0 < |msg| <= k.objs[k.handles[(BoardKind, id)].obj].maxSize {
      var o := k.handles[(BoardKind, id)].obj;
      WakeAllUndisturbed(Logged(WithObj(k, o, Board(k.objs[o].maxSize, msg, true, k.objs[o].waiting)), Shown(o, msg)), o);
    }
  }

  lemma StartUndisturbed(k: Kernel, p: Pid, delay: int, t: int)
    requires k.cur in k.procs
    ensures Undisturbed(k, DoStart(k, p, delay, t))
  {
  }

  lemma CommUndisturbed(k: Kernel, c: Call, t0: int, t1: int, t2: int)
    requires k.cur in k.procs && (c.SendTo? || c.ReceiveFrom? || c.ReadBoard?)
    ensures Undisturbed(k, Syscall(k, c, t0, t1, t2))
  {
    match c
    case SendTo(kind, id, msg, timeout) =>
      if SendCheck(k, kind, id, |msg|) == NoError {
        var h := k.handles[(kind, id)];
        StartXferUndisturbed(k, Xfer(h.obj, Send(msg), h.disc, timeout), t0, t1, t2);
      }
    case ReceiveFrom(kind, id, timeout) =>
      if ReceiveCheck(k, kind, id) == NoError {
        var h := k.handles[(kind, id)];
        StartXferUndisturbed(k, Xfer(h.obj, Recv, h.disc, timeout), t0, t1, t2);
      }
    case ReadBoard(id, timeout) =>
      if HasBoard(k, id) {
        var h := k.handles[(BoardKind, id)];
        StartXferUndisturbed(k, Xfer(h.obj, Read, h.disc, timeout), t0, t1, t2);
      }
  }

  lemma StartXferUndisturbed(k: Kernel, x: Xfer, t0: int, t1: int, t2: int)
    requires k.cur in k.procs && x.obj in k.objs && Suits(k.objs[x.obj], x.op)
    ensures Undisturbed(k, StartXfer(k, x, t0, t1, t2))
  {
    TransferUndisturbed(k, x, t0 + x.timeout, t1, t2);
  }

  lemma SyscallUndisturbed(k: Kernel, c: Call, t0: int, t1: int, t2: int)
    requires k.cur in k.procs
    ensures Undisturbed(k, Syscall(k, c, t0, t1, t2))
  {
    match c
    case SendTo(_, _, _, _) => CommUndisturbed(k, c, t0, t1, t2);
    case ReceiveFrom(_, _, _) => CommUndisturbed(k, c, t0, t1, t2);
    case ReadBoard(_, _) => CommUndisturbed(k, c, t0, t1, t2);
    case Display(id, msg) => DisplayUndisturbed(k, id, msg);
    case Start(p, delay) => StartUndisturbed(k, p, delay, t0);
    case ClearBoard(_) => BoardsUndisturbed(k, c, t0, t1, t2);
    case ClearPort(_) => BoardsUndisturbed(k, c, t0, t1, t2);
    case SuspendSelf(_) => SelfUndisturbed(k, c, t0, t1, t2);
    case StopSelf => SelfUndisturbed(k, c, t0, t1, t2);
    case Wait(_) => SelfUndisturbed(k, c, t0, t1, t2);
    case SetMode(_) => SelfUndisturbed(k, c, t0, t1, t2);
    case _ => ProcessUndisturbed(k, c, t0, t1, t2);
  }

  /** The services on the caller and its partition. */
  lemma SelfUndisturbed(k: Kernel, c: Call, t0: int, t1: int, t2: int)
    requires k.cur in k.procs && (c.SuspendSelf? || c.StopSelf? || c.Wait? || c.SetMode?)
    ensures Undisturbed(k, Syscall(k, c, t0, t1, t2))
  {
    match c
    case SuspendSelf(timeout) => SuspendUndisturbed(k, timeout, t0);
    case StopSelf =>
    case Wait(delay) => WaitUndisturbed(k, delay, t0);
    case SetMode(op) => ModeUndisturbed(k, op);
  }

  lemma SuspendUndisturbed(k: Kernel, timeout: int, t: int)
    requires k.cur in k.procs
    ensures Undisturbed(k, DoSuspendSelf(k, timeout, t))
  {
  }

  lemma WaitUndisturbed(k: Kernel, delay: int, t: int)
    requires k.cur in k.procs
    ensures Undisturbed(k, DoWait(k, delay, t))
  {
  }

  lemma ModeUndisturbed(k: Kernel, op: OpMode)
    requires k.cur in k.procs
    ensures Undisturbed(k, DoSetMode(k, op))
  {
  }

  lemma BoardsUndisturbed(k: Kernel, c: Call, t0: int, t1: int, t2: int)
    requires k.cur in k.procs && (c.ClearBoard? || c.ClearPort?)
    ensures Undisturbed(k, Syscall(k, c, t0, t1, t2))
  {
  }

  /** The services on another process but START. */
  lemma ProcessUndisturbed(k: Kernel, c: Call, t0: int, t1: int, t2: int)
    requires k.cur in k.procs && (c.Suspend? || c.ResumeProc? || c.Stop? || c.SetPriority?)
    ensures Undisturbed(k, Syscall(k, c, t0, t1, t2))
  {
  }

  lemma ContinueUndisturbed(k: Kernel, t: int, t1: int, t2: int, r: Kernel)
    requires Enabled(k, Continue(t, t1, t2)) && k.procs[k.cur].pc.Retry? && r == Resume(k, t, t1, t2)
    ensures Undisturbed(k, r)
  {
    var pc := k.procs[k.cur].pc;
    var k1 := ContextFreed(k, pc);
    if pc.x.timeout == INFINITE || t < pc.inner {
      TransferUndisturbed(SetCur(k1, Not, User), pc.x, pc.outer, t1, t2);
    }
  }

  lemma BehindListed(ps: seq<Pid>, p: Pid)
    ensures forall x :: x in Behind(ps, p) ==> x in ps
  {
  }

  lemma ScanSettled(k: Kernel, s: Search)
    requires UpToDate(k, s)
    ensures UpToDate(k, Scanned(k, s))
  {
    if s.Fresh? {
      BehindListed(Members(k), k.cur);
    } else if s.todo != [] {
      assert s.todo[0] in s.todo;
      assert forall p :: p in s.todo[1..] ==> p in s.todo;
    }
  }

  /** sched_proc called by the current process, or by an interrupt of it. */
  lemma PreemptSettled(k: Kernel, roundRobin: bool)
    requires Inv(k) && k.mode == Executing && k.held == map[]
    requires forall p :: p in k.procs && k.procs[p].state == Running ==> p == k.cur
    requires roundRobin ==> k.procs[k.cur].part == k.part
    ensures Settled(Preempt(k, roundRobin))
  {
    PreemptGood(k, roundRobin);
  }

  lemma ExecutingInterrupted(k: Kernel, t: int, nextPart: Part, nextTime: int)
    requires Good(k) && k.mode == Executing && k.held == map[]
    ensures Settled(Tick(k, t, nextPart, nextTime))
  {
    var due, k1 := Due(k.queue, t), FireDue(k, t);
    FireDueKeeps(k, t);
    if HasActivation(due) {
      ActivationQueued(k1, nextTime);
      var k2 := EventAlloc(k1, nextTime, PartitionActivate);
      Unrelated(k2, k2.(part := nextPart));
      PreemptSettled(k2.(part := nextPart), false);
    } else if HasLocal(k, due) {
      PreemptSettled(k1, false);
    }
  }

  lemma SearchInterrupted(k: Kernel, r: Kernel)
    requires OrderOk(k) && Settled(k) && k.mode.Electing? && OnlyReadied(k, r, false)
    ensures Settled(r)
  {
    if k.mode.search.Looking? && k.mode.search.best.Some? {
      assert r.procs[k.mode.search.best.value] == k.procs[k.mode.search.best.value];
    }
  }

  lemma InterruptSettled(k: Kernel, t: int, nextPart: Part, nextTime: int)
    requires Good(k) && OrderOk(k) && Settled(k) && Calm(k, Interrupt(t, nextPart, nextTime))
    ensures Settled(Tick(k, t, nextPart, nextTime))
  {
    if k.mode == Executing {
      ExecutingInterrupted(k, t, nextPart, nextTime);
    } else {
      FireDueKeeps(k, t);
      SearchInterrupted(k, FireDue(k, t));
    }
  }

  /** A process found by a search that is up to date fits. */
  lemma UpToDateFits(k: Kernel)
    requires Good(k) && OrderOk(k) && Settled(k) && Enabled(k, Step.Dispatch)
    ensures MayStillRun(k, k.mode.search.best.value) && Fits(k, k.mode.search.best.value)
  {
    assert ProcOk(k, k.mode.search.best.value);
  }

  lemma GiveUpSettled(k: Kernel, r: Kernel)
    requires Good(k) && Settled(k) && Enabled(k, GiveUp) && r == Next(k, GiveUp)
    ensures Settled(r)
  {
    var k1 := SetCur(k, Not, k.procs[k.cur].pc);
    if SearchOf(k).best != Some(k.cur) {
      assert ProcOk(k, k.cur);
      Return(k, Not, k.procs[k.cur].pc);
      PreemptSettled(k1, SearchOf(k).above.Some?);
    }
  }

  lemma UndisturbedSettled(k: Kernel, r: Kernel)
    requires Settled(k) && k.mode == Executing && Undisturbed(k, r)
    ensures Settled(r)
  {
  }

  lemma EnterSettled(k: Kernel, s: Step, r: Kernel)
    requires Settled(k) && Enabled(k, s) && s.Enter? && r == Next(k, s)
    ensures Settled(r)
  {
    SyscallUndisturbed(k, s.call, s.t0, s.t1, s.t2);
    UndisturbedSettled(k, r);
  }

  lemma ContinueSettled(k: Kernel, s: Step, r: Kernel)
    requires Settled(k) && Enabled(k, s) && s.Continue? && r == Next(k, s)
    ensures Settled(r)
  {
    if k.procs[k.cur].pc.Retry? { ContinueUndisturbed(k, s.t, s.t1, s.t2, r); }
    UndisturbedSettled(k, r);
  }

  lemma ScanStepSettled(k: Kernel, r: Kernel)
    requires Settled(k) && Enabled(k, Scan) && r == Next(k, Scan)
    ensures Settled(r)
  {
    if k.mode.Electing? { ScanSettled(k, k.mode.search); } else { UndisturbedSettled(k, r); }
  }

  lemma DispatchSettled(k: Kernel, r: Kernel)
    requires Good(k) && OrderOk(k) && Settled(k) && Enabled(k, Step.Dispatch) && r == Next(k, Step.Dispatch)
    ensures Settled(r) && Fitting(k, Step.Dispatch)
  {
    UpToDateFits(k);
  }

  lemma StepSettled(k: Kernel, s: Step, r: Kernel)
    requires Good(k) && OrderOk(k) && Settled(k) && Enabled(k, s) && Calm(k, s) && r == Next(k, s)
    ensures Settled(r) && Fitting(k, s)
  {
    match s
    case Enter(_, _, _, _) => EnterSettled(k, s, r);
    case Continue(_, _, _) => ContinueSettled(k, s, r);
    case Scan => ScanStepSettled(k, r);
    case GiveUp => GiveUpSettled(k, r);
    case Dispatch => DispatchSettled(k, r);
    case Interrupt(t, nextPart, nextTime) => InterruptSettled(k, t, nextPart, nextTime);
  }

  /** If no interrupt of a run starts the search of sched_proc over, every dispatch of the run fits. (STOP is not to
      hit a listed process either.) */
  lemma {:induction false} CalmFits(k: Kernel, steps: seq<Step>)
    requires Boot(k) && Runs(k, steps) && AlwaysCalm(k, steps)
    ensures AlwaysFitting(k, steps) && Settled(Final(k, steps))
    decreases |steps|
  {
    if steps == [] {
      var c :| Configured(c) && k == Launched(c);
    } else {
      var before := steps[..|steps| - 1];
      CalmFits(k, before);
      RunSound(k, before);
      StepSettled(Final(k, before), steps[|steps| - 1], Final(k, steps));
    }
  }
}
