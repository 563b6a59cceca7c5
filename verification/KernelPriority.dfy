/** Priorities over runs: who executes is of the highest priority among the ready processes of its partition, exactly as
    long as no queuing port wakes a process of higher priority. */
module KernelPriority {
  import opened Common
  import opened TimerQueue
  import opened Election
  import opened KernelSpec
  import opened KernelInv
  import opened KernelSteps
  import opened KernelCalls
  import opened KernelTimer
  import opened KernelFifo
  import opened KernelRuns
  import opened KernelSearch
  import opened KernelWakeups
  import opened KernelDeadlines
  import opened KernelSchedule
  import opened KernelServing
  import opened KernelServices
  import opened KernelTicks

  // ----- what is kept -----

  /** No process of the partition's list that is READY has a higher priority than the current one. */
  ghost predicate Highest(k: Kernel) {
    k.cur in k.procs
    && forall p :: p in Members(k) && p in k.procs && k.procs[p].state == Ready ==> k.procs[p].pri <= k.procs[k.cur].pri
  }

  /** The current process is RUNNING, and highest. */
  ghost predicate OnTop(k: Kernel) {
    Highest(k) && k.procs[k.cur].state == Running
  }

  predicate ByTurns(s: Search) {
    if s.Fresh? then s.roundRobin else s.above.Some?
  }

  /** A search by priority has in hand the first of maximal priority of those it has looked at. */
  ghost predicate Sifted(k: Kernel, s: Search) {
    !ByTurns(s) && (s.Looking? ==> !s.again && exists n :: SiftedTo(k, s, n))
  }

  ghost predicate SiftedTo(k: Kernel, s: Search, n: nat)
    requires s.Looking?
  {
    var ps := Members(k);
    n <= |ps| && s.todo == ps[n..] && s.best == PidAt(ps, Best(Candidates(k.procs, ps), n))
  }

  /** A search by turns begun by a process that nobody ready is above. */
  ghost predicate Level(k: Kernel, s: Search) {
    && Highest(k)
    && (s.Looking? ==>
          && s.above == Some(k.procs[k.cur].pri)
          && (s.best.Some? ==> s.best.value in k.procs && k.procs[s.best.value].pri >= k.procs[k.cur].pri))
  }

  /** Whoever executes, or is about to be found, is highest. */
  ghost predicate Ranked(k: Kernel) {
    && k.cur in k.procs
    && (k.mode == Executing ==>
          OnTop(k) || (k.procs[k.cur].giving.Yes? && Sifted(k, k.procs[k.cur].giving.search)))
    && (k.mode.Electing? ==> if ByTurns(k.mode.search) then Level(k, k.mode.search) else Sifted(k, k.mode.search))
  }

  // ----- searches -----

  /** The processes on the list are as ready, and of the same priorities. */
  ghost predicate SameRanks(k: Kernel, r: Kernel) {
    && Members(r) == Members(k) && r.procs.Keys == k.procs.Keys
    && forall p :: p in Members(k) && p in k.procs ==>
         MayRun(r, p) == MayRun(k, p) && r.procs[p].pri == k.procs[p].pri
  }

  lemma SameCandidatesOf(k: Kernel, r: Kernel)
    requires SameRanks(k, r)
    ensures Candidates(r.procs, Members(r)) == Candidates(k.procs, Members(k))
  {
    var ps := Members(k);
    forall i | 0 <= i < |ps| ensures CandidateOf(r.procs, ps[i]) == CandidateOf(k.procs, ps[i]) {
      assert ps[i] in ps;
    }
    assert Candidates(r.procs, ps) == Candidates(k.procs, ps);
  }

  lemma SiftedSame(k: Kernel, r: Kernel, s: Search)
    requires SameRanks(k, r) && Sifted(k, s)
    ensures Sifted(r, s)
  {
    SameCandidatesOf(k, r);
    if s.Looking? {
      var n :| SiftedTo(k, s, n);
      assert SiftedTo(r, s, n);
    }
  }

  lemma SiftsOn(k: Kernel, s: Search, n: nat)
    requires s.Looking? && s.above.None? && !s.again && SiftedTo(k, s, n) && s.todo != []
    ensures SiftedTo(k, Scanned(k, s), n + 1) && Scanned(k, s).above.None? && !Scanned(k, s).again
  {
    var ps := Members(k);
    var cs := Candidates(k.procs, ps);
    assert cs[n] == CandidateOf(k.procs, ps[n]);
    assert ps[n..][1..] == ps[n + 1..];
  }

  lemma ScanSifts(k: Kernel, s: Search)
    requires Sifted(k, s) && !s.Found()
    ensures Sifted(k, Scanned(k, s))
  {
    if s.Fresh? {
      var ps := Members(k);
      assert ps[0..] == ps;
      assert SiftedTo(k, Scanned(k, s), 0);
    } else if s.todo != [] {
      var n :| SiftedTo(k, s, n);
      SiftsOn(k, s, n);
    }
  }

  /** Whom a search by priority has found when it is through. */
  lemma SiftedFinds(k: Kernel, s: Search)
    requires Sifted(k, s) && s.Found()
    ensures var p := s.best.value;
            && p in Members(k) && MayRun(k, p)
            && forall q :: q in Members(k) && MayRun(k, q) ==> k.procs[q].pri <= k.procs[p].pri
  {
    var n :| SiftedTo(k, s, n);
    var ps := Members(k);
    var cs := Candidates(k.procs, ps);
    assert n == |ps|;
    BestIsFirstMaximal(cs, |cs|);
    var b := Best(cs, |cs|).value;
    forall q | q in ps && MayRun(k, q) ensures k.procs[q].pri <= k.procs[ps[b]].pri {
      var j :| 0 <= j < |ps| && ps[j] == q;
      assert cs[j].mayRun && cs[j].pri == k.procs[q].pri;
    }
  }

  lemma ScanLevel(k: Kernel, s: Search)
    requires Level(k, s) && ByTurns(s) && !s.Found()
    ensures Level(k, Scanned(k, s)) && ByTurns(Scanned(k, s))
  {
  }

  lemma GivingSame(k: Kernel, giving: Giving, r: Kernel)
    requires k.cur in k.procs && r == SetCur(k, giving, k.procs[k.cur].pc)
    ensures SameRanks(k, r) && r.mode == k.mode && r.cur == k.cur && r.procs[k.cur].giving == giving && (OnTop(k) ==> OnTop(r))
  {
    CurGives(k, giving, r);
  }

  lemma GivingRanked(k: Kernel, s: Search, t: Search, r: Kernel)
    requires Ranked(k) && k.mode == Executing && k.procs[k.cur].giving == Yes(s) && !s.Found() && t == Scanned(k, s)
    requires r == SetCur(k, Yes(t), k.procs[k.cur].pc)
    ensures Ranked(r)
  {
    GivingSame(k, Yes(t), r);
    if !OnTop(k) {
      ScanSifts(k, s);
      SiftedSame(k, r, t);
    }
  }

  lemma ElectingRanked(k: Kernel, s: Search, t: Search, r: Kernel)
    requires Ranked(k) && k.mode == Electing(s) && !s.Found() && t == Scanned(k, s) && r == k.(mode := Electing(t))
    ensures Ranked(r)
  {
    if ByTurns(s) {
      ScanLevel(k, s);
    } else {
      ScanSifts(k, s);
      assert SameRanks(k, r);
      SiftedSame(k, r, t);
    }
  }

  lemma ScanRanked(k: Kernel, r: Kernel)
    requires Ranked(k) && Enabled(k, Scan) && r == Next(k, Scan)
    ensures Ranked(r)
  {
    var s := SearchOf(k);
    if k.mode == Executing { GivingRanked(k, s, Scanned(k, s), r); } else { ElectingRanked(k, s, Scanned(k, s), r); }
  }

  /** The current process has found somebody: itself, which goes on, or another process. */
  lemma GiveUpRanked(k: Kernel, r: Kernel)
    requires Good(k) && Ranked(k) && Enabled(k, GiveUp) && r == Next(k, GiveUp)
    ensures Ranked(r)
  {
    var s := SearchOf(k);
    if s.best == Some(k.cur) {
      FoundAgain(k, s, r);
    } else {
      GivenUp(k, s, r);
    }
  }

  lemma FoundAgain(k: Kernel, s: Search, r: Kernel)
    requires Good(k) && Ranked(k) && k.mode == Executing && k.procs[k.cur].giving == Yes(s) && s.Found() && s.best == Some(k.cur)
    requires r == SetCur(k, Not, k.procs[k.cur].pc)
    ensures OnTop(r) && r.mode == Executing
  {
    if !OnTop(k) { SiftedFinds(k, s); }
  }

  lemma GivenUp(k: Kernel, s: Search, r: Kernel)
    requires Good(k) && Ranked(k) && k.mode == Executing && k.procs[k.cur].giving == Yes(s)
    requires s.Looking? && r == Preempt(SetCur(k, Not, k.procs[k.cur].pc), s.above.Some?)
    ensures Ranked(r)
  {
    if ByTurns(s) { assert OnTop(k); }
  }

  lemma DispatchRanked(k: Kernel, r: Kernel)
    requires Good(k) && Ranked(k) && Settled(k) && Enabled(k, Step.Dispatch) && r == Next(k, Step.Dispatch)
    ensures OnTop(r) && r.mode == Executing
  {
    var p := k.mode.search.best.value;
    RunFrame(k, r, p);
    assert Held(k, p) == [];
    if !ByTurns(k.mode.search) { SiftedFinds(k, k.mode.search); }
    RanksKept(k, r, p);
  }

  lemma RanksKept(k: Kernel, r: Kernel, p: Pid)
    requires p in k.procs && r == Run(k, p)
    ensures Members(r) == Members(k) && forall q :: q in k.procs ==> q in r.procs && r.procs[q].pri == k.procs[q].pri
    ensures forall q :: q in k.procs && q in r.procs && r.procs[q].state == Ready ==> k.procs[q].state == Ready
    ensures p in r.procs && r.procs[p].state == Running
  {
  }

  // ----- interrupts -----

  /** An interrupt that does not reschedule readies nobody of the partition. */
  lemma TickSpares(k: Kernel, t: int, nextPart: Part, r: Kernel)
    requires OrderOk(k) && Ticked(k, t, nextPart, r) && !Reschedules(k, t) && r.order == k.order
    ensures SameRanks(k, r) && forall p :: p in k.procs && k.procs[p].part == k.part ==> r.procs[p] == k.procs[p]
    ensures forall p :: p in k.procs ==> r.procs[p].pri == k.procs[p].pri
  {
  }

  lemma TickRanked(k: Kernel, t: int, nextPart: Part, r: Kernel)
    requires Good(k) && OrderOk(k) && Ranked(k) && Ticked(k, t, nextPart, r) && r.order == k.order
    requires k.mode.Electing? ==> !Reschedules(k, t)
    ensures Ranked(r)
  {
    if !Reschedules(k, t) {
      TickSpares(k, t, nextPart, r);
      if k.mode.Electing? && !ByTurns(k.mode.search) {
        SiftedSame(k, r, k.mode.search);
      } else if k.mode == Executing && !OnTop(k) {
        SiftedSame(k, r, k.procs[k.cur].giving.search);
      }
    }
  }

  lemma InterruptRanked(k: Kernel, s: Step, r: Kernel)
    requires Good(k) && OrderOk(k) && Ranked(k) && s.Interrupt? && Calm(k, s) && r == Next(k, s)
    ensures Ranked(r)
  {
    TickExactly(k, s.t, s.nextPart, s.nextTime, r);
    QuietTick(k, s.t, s.nextPart, s.nextTime);
    ActivationDue(k, s.t);
    LocalDue(k, s.t);
    TickRanked(k, s.t, s.nextPart, r);
  }

  // ----- calls -----

  /** The current process executes, or has begun to give up by priority. */
  ghost predicate Prompt(k: Kernel, r: Kernel) {
    && r.mode == Executing && r.cur == k.cur && r.cur in r.procs
    && (r.procs[r.cur].giving == Yes(Fresh(false)) || NoneUp(k, r))
  }

  /** Nobody on the list is readied, nor raised, and the current process runs on. */
  ghost predicate NoneUp(k: Kernel, r: Kernel) {
    && r.cur == k.cur && k.cur in k.procs && Members(r) == Members(k) && r.procs.Keys == k.procs.Keys
    && r.procs[k.cur].state == k.procs[k.cur].state && r.procs[k.cur].pri == k.procs[k.cur].pri
    && forall p :: p in Members(k) && p in k.procs && r.procs[p].state == Ready ==>
         k.procs[p].state == Ready && r.procs[p].pri == k.procs[p].pri
  }

  lemma PromptRanked(k: Kernel, r: Kernel)
    requires OnTop(k) && Prompt(k, r)
    ensures Ranked(r) && (r.procs[r.cur].giving == Not ==> OnTop(r))
  {
  }

  lemma SameNoneUp(k: Kernel, r: Kernel)
    requires k.cur in k.procs && r.cur == k.cur && r.part == k.part && r.order == k.order && r.procs == k.procs
    ensures NoneUp(k, r)
  {
  }

  lemma StartPrompt(k: Kernel, p: Pid, delay: int, t: int, due: int, r: Kernel)
    requires Calling(k) && r == DoStart(k, p, delay, t) && due == t + delay
    ensures Prompt(k, r)
  {
    assert ProcOk(k, k.cur);
    if !Startable(k, p, delay) {
      StartNot(k, p, delay, t, r);
    } else if !NormalPart(k) || k.procs[p].Periodic() {
      StartNotedIs(k, p, delay, t, r);
    } else if delay == 0 {
      StartReadyIs(k, p, t, r);
    } else {
      StartLaterIs(k, p, delay, t, due, r);
    }
  }

  lemma SuspendSelfPrompt(k: Kernel, timeout: int, t: int, due: int, r: Kernel)
    requires Calling(k) && r == DoSuspendSelf(k, timeout, t) && due == t + timeout
    ensures Prompt(k, r)
  {
    if k.procs[k.cur].Periodic() || timeout == 0 {
      SuspendSelfNot(k, timeout, t, r);
    } else if timeout < INFINITE {
      SuspendTimedIs(k, timeout, t, due, r);
    } else {
      SuspendForEverIs(k, timeout, t, r);
    }
  }

  lemma WaitPrompt(k: Kernel, delay: int, t: int, due: int, r: Kernel)
    requires Calling(k) && r == DoWait(k, delay, t) && due == t + delay
    ensures Prompt(k, r)
  {
    WaitIs(k, delay, t, due, r);
  }

  lemma ResumePrompt(k: Kernel, p: Pid, r: Kernel)
    requires Calling(k) && r == DoResume(k, p)
    ensures Prompt(k, r)
  {
    if Resumable(k, p) {
      assert ProcOk(k, p);
      ResumeIs(k, p, r);
    } else {
      ResumeNot(k, p, r);
    }
  }

  lemma ModePrompt(k: Kernel, op: OpMode, r: Kernel)
    requires Calling(k) && r == DoSetMode(k, op)
    ensures Prompt(k, r)
  {
    assert ProcOk(k, k.cur);
    if !Settable(k, op) {
      SetModeNot(k, op, r);
    } else if op == Normal {
      SetNormalIs(k, r);
    } else {
      SetOtherModeIs(k, op, r);
    }
  }

  lemma SuspendPrompt(k: Kernel, p: Pid, r: Kernel)
    requires Calling(k) && r == DoSuspend(k, p)
    ensures Prompt(k, r)
  {
    if Suspendable(k, p) { SuspendIs(k, p, r); } else { SuspendNot(k, p, r); }
  }

  lemma StopPrompt(k: Kernel, p: Pid, r: Kernel)
    requires Calling(k) && r == DoStop(k, p)
    ensures Prompt(k, r)
  {
    if Alive(k, p) { StopIs(k, p, r); } else { StopNot(k, p, r); }
  }

  lemma SetPriorityPrompt(k: Kernel, p: Pid, pri: nat, r: Kernel)
    requires Calling(k) && r == DoSetPriority(k, p, pri)
    ensures Prompt(k, r)
  {
    if Alive(k, p) { SetPriorityIs(k, p, pri, r); } else { SetPriorityNot(k, p, pri, r); }
  }

  lemma StopSelfPrompt(k: Kernel, r: Kernel)
    requires Calling(k) && r == Syscall(k, StopSelf, 0, 0, 0)
    ensures Prompt(k, r)
  {
    StopSelfIs(k, r);
  }

  /** Every process service that readies or raises somebody gives up. */
  lemma ServicePrompt(k: Kernel, c: Call, t0: int, t1: int, t2: int, r: Kernel)
    requires Calling(k) && !Communicates(c) && r == Syscall(k, c, t0, t1, t2)
    ensures Prompt(k, r)
  {
    match c
    case SuspendSelf(timeout) => SuspendSelfPrompt(k, timeout, t0, t0 + timeout, r);
    case Suspend(p) => SuspendPrompt(k, p, r);
    case ResumeProc(p) => ResumePrompt(k, p, r);
    case StopSelf => StopSelfPrompt(k, r);
    case Stop(p) => StopPrompt(k, p, r);
    case Start(p, delay) => StartPrompt(k, p, delay, t0, t0 + delay, r);
    case Wait(delay) => WaitPrompt(k, delay, t0, t0 + delay, r);
    case SetPriority(p, pri) => SetPriorityPrompt(k, p, pri, r);
    case SetMode(op) => ModePrompt(k, op, r);
  }

  // ----- communication -----

  /** Where the machine is does not change. */
  ghost predicate Stays(k: Kernel, r: Kernel) {
    r.mode == k.mode && r.part == k.part && r.order == k.order && r.procs.Keys == k.procs.Keys
  }

  lemma StepStays(k: Kernel, s: Step, r: Kernel)
    requires Good(k) && Faithful(k) && Enabled(k, s) && (s.Enter? || s.Continue?) && r == Next(k, s)
    ensures Stays(k, r)
  {
    StepFaithful(k, s);
    StepKeepsActs(k, s, r);
    if s.Enter? {
      SyscallUndisturbed(k, s.call, s.t0, s.t1, s.t2);
    } else if k.procs[k.cur].pc.Retry? {
      ContinueUndisturbed(k, s.t, s.t1, s.t2, r);
    }
  }

  lemma ApartNoneUp(k: Kernel, r: Kernel)
    requires Apart(k, r, None) && Stays(k, r)
    ensures NoneUp(k, r)
  {
  }

  lemma RefusedNoneUp(k: Kernel, r: Kernel, x: Xfer, ret: Ret)
    requires Refused(k, r, x, ret) && Stays(k, r)
    ensures NoneUp(k, r)
  {
  }

  /** A send or receive that takes place goes through its ring. */
  lemma DoneThrough(k: Kernel, r: Kernel, x: Xfer)
    requires Done(k, r, x) && !x.op.Read? && Suits(k.objs[x.obj], x.op)
    ensures Through(k, r, x.obj)
  {
  }

  lemma AttemptPrompt(k: Kernel, s: Step, x: Xfer, outer: int, r: Kernel)
    requires Good(k) && Enabled(k, s) && Attempts(k, s) == Some(x) && outer == Deadline(k, s, x) && r == Next(k, s)
    requires k.mode == Executing && Stays(k, r) && forall o :: !Through(k, r, o)
    ensures Prompt(k, r)
  {
    AttemptLeads(k, s, x, outer, r);
    if Done(k, r, x) {
      if !x.op.Read? { DoneThrough(k, r, x); }
      ApartNoneUp(k, r);
    } else if Refused(k, r, x, NotAvailable) {
      RefusedNoneUp(k, r, x, NotAvailable);
    } else if Refused(k, r, x, TimedOut) {
      RefusedNoneUp(k, r, x, TimedOut);
    }
  }

  lemma DisplayPrompt(k: Kernel, id: nat, msg: Msg, r: Kernel)
    requires Calling(k) && r == DoDisplay(k, id, msg) && Stays(k, r)
    ensures Prompt(k, r)
  {
    if HasBoard(k, id) && 0 < |msg| <= k.objs[k.handles[(BoardKind, id)].obj].maxSize {
      DisplayServes(k, id, msg, k.handles[(BoardKind, id)].obj, r);
    } else {
      SameNoneUp(k, r);
    }
  }

  lemma ClearPrompt(k: Kernel, id: nat, r: Kernel)
    requires Calling(k) && r == Syscall(k, ClearPort(id), 0, 0, 0) && Stays(k, r) && forall o :: !Through(k, r, o)
    ensures Prompt(k, r)
  {
    if ReceiveCheck(k, PortKind, id) == NoError && k.objs[k.handles[(PortKind, id)].obj].Ring? {
      var h := k.handles[(PortKind, id)];
      SoundAwaiting(k, h.obj);
      ClearServes(k, h, r);
      EntryAppended(k.log, Cleared(h.obj));
      assert |k.objs[h.obj].msgs| == k.objs[h.obj].cap ==> Through(k, r, h.obj);
      ClearKeepsCur(k, h, r);
    }
    SameNoneUp(k, r);
  }

  lemma ClearKeepsCur(k: Kernel, h: Handle, r: Kernel)
    requires h.obj in k.objs && k.objs[h.obj].Ring? && r == Clear(k, h)
    ensures r.cur == k.cur
  {
  }

  lemma TalkPrompt(k: Kernel, c: Call, t0: int, t1: int, t2: int, r: Kernel)
    requires Calling(k) && Communicates(c) && Asked(k, c).None? && r == Syscall(k, c, t0, t1, t2)
    requires Stays(k, r) && forall o :: !Through(k, r, o)
    ensures Prompt(k, r)
  {
    match c
    case Display(id, msg) => DisplayPrompt(k, id, msg, r);
    case ClearPort(id) => ClearPrompt(k, id, r);
    case _ => SameNoneUp(k, r);
  }

  /** A call without a transfer to try. */
  lemma OtherPrompt(k: Kernel, s: Step, r: Kernel)
    requires Good(k) && Enabled(k, s) && s.Enter? && Attempts(k, s).None? && r == Next(k, s)
    requires Stays(k, r) && forall o :: !Through(k, r, o)
    ensures Prompt(k, r)
  {
    if Communicates(s.call) {
      TalkPrompt(k, s.call, s.t0, s.t1, s.t2, r);
    } else {
      ServicePrompt(k, s.call, s.t0, s.t1, s.t2, r);
    }
  }

  lemma LeavesNoneUp(k: Kernel, r: Kernel)
    requires Leaves(k, r) && Stays(k, r)
    ensures NoneUp(k, r)
  {
  }

  lemma LatePrompt(k: Kernel, t: int, t1: int, t2: int, r: Kernel)
    requires Enabled(k, Continue(t, t1, t2)) && Attempts(k, Continue(t, t1, t2)).None? && r == Next(k, Continue(t, t1, t2)) && Stays(k, r)
    ensures Prompt(k, r)
  {
    if k.procs[k.cur].pc.SuspendCheck? { SuspensionEnds(k, t, t1, t2, r); } else { LoopTimesOut(k, t, t1, t2, r); }
    LeavesNoneUp(k, r);
  }

  /** A step that lets no message through readies nobody without giving up. */
  lemma QuietPrompt(k: Kernel, s: Step, r: Kernel)
    requires Good(k) && Enabled(k, s) && (s.Enter? || s.Continue?) && r == Next(k, s)
    requires Stays(k, r) && forall o :: !Through(k, r, o)
    ensures Prompt(k, r)
  {
    var a := Attempts(k, s);
    if a.Some? {
      AttemptPrompt(k, s, a.value, Deadline(k, s, a.value), r);
    } else if s.Enter? {
      OtherPrompt(k, s, r);
    } else {
      LatePrompt(k, s.t, s.t1, s.t2, r);
    }
  }

  // ----- a process of higher priority woken by a queuing port -----

  /** A message goes through a queuing port, or a full one is cleared, and whoever is served there is of the partition and
      of a higher priority than the current process. Queuing ports, unlike buffers, do not make it give up. */
  ghost predicate Overtakes(k: Kernel, s: Step, r: Kernel)
    requires Enabled(k, s)
  {
    exists o, i :: Through(k, r, o) && k.objs[o].KindOf() == PortKind && HigherServed(k, o, DiscOf(k, s), i)
  }

  ghost predicate HigherServed(k: Kernel, o: ObjId, disc: Disc, i: int) {
    && o in k.objs && k.cur in k.procs && Foremost(k.procs, k.objs[o].waiting, disc, i)
    && k.objs[o].waiting[i] in Members(k) && k.procs[k.objs[o].waiting[i]].pri > k.procs[k.cur].pri
  }

  lemma ClearGiving(k: Kernel, id: nat, o: ObjId, r: Kernel)
    requires Calling(k) && ReceiveCheck(k, PortKind, id) == NoError && k.objs[k.handles[(PortKind, id)].obj].Ring?
    requires r == Clear(k, k.handles[(PortKind, id)]) && Through(k, r, o)
    ensures r.cur == k.cur && k.cur in r.procs && r.procs[k.cur].giving == GoesOn(k, o)
  {
    var h := k.handles[(PortKind, id)];
    SoundAwaiting(k, h.obj);
    ClearServes(k, h, r);
    EntryAppended(k.log, Cleared(h.obj));
    ClearKeepsCur(k, h, r);
  }

  lemma AttemptGiving(k: Kernel, s: Step, x: Xfer, outer: int, o: ObjId, r: Kernel)
    requires Good(k) && Enabled(k, s) && Attempts(k, s) == Some(x) && outer == Deadline(k, s, x) && r == Next(k, s) && Through(k, r, o)
    ensures r.cur == k.cur && k.cur in r.procs && r.procs[k.cur].giving == GoesOn(k, o)
  {
    AttemptThrough(k, s, x, outer, o, r);
    AttemptLeads(k, s, x, outer, r);
  }

  lemma ClearStepGiving(k: Kernel, s: Step, o: ObjId, r: Kernel)
    requires Good(k) && Enabled(k, s) && s.Enter? && Attempts(k, s).None? && r == Next(k, s) && Through(k, r, o)
    ensures r.cur == k.cur && k.cur in r.procs && r.procs[k.cur].giving == GoesOn(k, o)
  {
    EnterThrough(k, s, o, r);
    ClearGiving(k, s.call.id, o, r);
  }

  /** Behind a transfer the current process gives up exactly if somebody waited, at a buffer. */
  lemma ThroughGiving(k: Kernel, s: Step, o: ObjId, r: Kernel)
    requires Good(k) && Enabled(k, s) && r == Next(k, s) && Through(k, r, o)
    ensures r.cur == k.cur && k.cur in r.procs && r.procs[k.cur].giving == GoesOn(k, o)
  {
    var a := Attempts(k, s);
    if a.Some? {
      AttemptGiving(k, s, a.value, Deadline(k, s, a.value), o, r);
    } else if s.Enter? {
      ClearStepGiving(k, s, o, r);
    } else {
      OtherThrough(k, s, o, r);
    }
  }

  lemma ServedRanked(k: Kernel, r: Kernel, o: ObjId, disc: Disc, i: int)
    requires OnTop(k) && k.mode == Executing && Stays(k, r) && r.cur == k.cur && k.cur in r.procs
    requires Serves(k, r, o, disc, i) && k.objs[o].KindOf() != BufferKind && r.procs[k.cur].giving == Not
    ensures if HigherServed(k, o, disc, i) then !Highest(r) else Ranked(r)
  {
    var p := k.objs[o].waiting[i];
    if HigherServed(k, o, disc, i) { assert r.procs[p].state == Ready && p in Members(r); }
  }

  lemma ThroughOnce(k: Kernel, s: Step, r: Kernel, o: ObjId, i: int)
    requires Enabled(k, s) && Through(k, r, o) && Foremost(k.procs, k.objs[o].waiting, DiscOf(k, s), i)
    ensures Overtakes(k, s, r) <==> k.objs[o].KindOf() == PortKind && HigherServed(k, o, DiscOf(k, s), i)
  {
    if Overtakes(k, s, r) {
      var a, j :| Through(k, r, a) && k.objs[a].KindOf() == PortKind && HigherServed(k, a, DiscOf(k, s), j);
      ForemostOnce(k.procs, k.objs[o].waiting, DiscOf(k, s), i, j);
    }
  }

  lemma NobodyServed(k: Kernel, s: Step, r: Kernel, o: ObjId)
    requires Enabled(k, s) && Through(k, r, o) && k.objs[o].waiting == []
    ensures !Overtakes(k, s, r)
  {
  }

  /** The current process executes on, below a process that is READY. */
  ghost predicate Overtaken(r: Kernel) {
    r.mode == Executing && r.cur in r.procs && r.procs[r.cur].giving == Not && !Highest(r)
  }

  lemma ThroughRanked(k: Kernel, s: Step, o: ObjId, r: Kernel)
    requires Good(k) && OnTop(k) && Enabled(k, s) && k.mode == Executing && r == Next(k, s) && Through(k, r, o) && Stays(k, r)
    ensures if Overtakes(k, s, r) then Overtaken(r) else Ranked(r)
  {
    StepServes(k, s, o, r);
    ThroughGiving(k, s, o, r);
    if ServesNobody(k, r, o) {
      NobodyServed(k, s, r, o);
      ApartNoneUp(k, r);
      PromptRanked(k, r);
    } else {
      var i :| Serves(k, r, o, DiscOf(k, s), i);
      ThroughOnce(k, s, r, o, i);
      if k.objs[o].KindOf() == BufferKind {
        PromptRanked(k, r);
      } else {
        assert ObjOk(k, o);
        ServedRanked(k, r, o, DiscOf(k, s), i);
      }
    }
  }

  lemma NotOvertaken(r: Kernel)
    requires Ranked(r)
    ensures !Overtaken(r)
  {
  }

  lemma CallRanked(k: Kernel, s: Step, r: Kernel)
    requires Good(k) && Faithful(k) && Ranked(k) && Enabled(k, s) && (s.Enter? || s.Continue?) && r == Next(k, s)
    ensures if Overtakes(k, s, r) then Overtaken(r) else Ranked(r)
  {
    StepStays(k, s, r);
    if exists o :: Through(k, r, o) {
      var o :| Through(k, r, o);
      ThroughRanked(k, s, o, r);
    } else {
      QuietPrompt(k, s, r);
      PromptRanked(k, r);
    }
  }

  lemma ElsewhereRanked(k: Kernel, s: Step, r: Kernel)
    requires Good(k) && OrderOk(k) && Settled(k) && Ranked(k) && Enabled(k, s) && Calm(k, s) && !s.Enter? && !s.Continue? && r == Next(k, s)
    ensures Ranked(r)
  {
    match s
    case Scan => ScanRanked(k, r);
    case GiveUp => GiveUpRanked(k, r);
    case Dispatch => DispatchRanked(k, r);
    case Interrupt(_, _, _) => InterruptRanked(k, s, r);
  }

  lemma NothingThrough(k: Kernel, s: Step, r: Kernel)
    requires Enabled(k, s) && !s.Enter? && !s.Continue? && r == Next(k, s)
    ensures !Overtakes(k, s, r)
  {
    forall o ensures !Through(k, r, o) { OtherThrough(k, s, o, r); }
  }

  /** Whoever executes stays highest at a step of a calm run, unless the step overtakes it. */
  lemma StepRanked(k: Kernel, s: Step, r: Kernel)
    requires Sound(k) && Settled(k) && Ranked(k) && Enabled(k, s) && Calm(k, s) && r == Next(k, s)
    ensures if Overtakes(k, s, r) then Overtaken(r) else Ranked(r)
  {
    if s.Enter? || s.Continue? {
      CallRanked(k, s, r);
    } else {
      ElsewhereRanked(k, s, r);
      NothingThrough(k, s, r);
    }
  }

  // ----- over runs -----

  /** At no point of the run does a process execute below one of its partition that is READY. */
  ghost predicate AlwaysHighest(k: Kernel, steps: seq<Step>)
    requires Runs(k, steps)
    decreases |steps|
  {
    !Overtaken(Final(k, steps)) && (steps == [] || AlwaysHighest(k, steps[..|steps| - 1]))
  }

  /** No step of the run wakes a process of higher priority at a queuing port. */
  ghost predicate NeverOvertakes(k: Kernel, steps: seq<Step>)
    requires Runs(k, steps)
    decreases |steps|
  {
    steps == [] ||
    (NeverOvertakes(k, steps[..|steps| - 1]) && !Overtakes(Final(k, steps[..|steps| - 1]), steps[|steps| - 1], Final(k, steps)))
  }

  lemma LaunchedRanked(k: Kernel)
    requires Boot(k)
    ensures Ranked(k)
  {
    var c :| Configured(c) && k == Launched(c);
    ElectsFirstMaximal(c);
    var i :| FirstMaximal(c, i) && Members(c)[i] == Elected(c, false).value;
    FirstOnTop(c, k, i);
  }

  lemma FirstOnTop(c: Kernel, k: Kernel, i: int)
    requires FirstMaximal(c, i) && c.held == map[] && Members(c)[i] in c.procs && k == Run(c, Members(c)[i])
    ensures OnTop(k) && k.mode == Executing
  {
    var p := Members(c)[i];
    RanksKept(c, k, p);
    forall q | q in Members(k) && q in k.procs && k.procs[q].state == Ready ensures k.procs[q].pri <= k.procs[p].pri {
      var j :| 0 <= j < |Members(c)| && Members(c)[j] == q;
      assert RunsAt(c, Members(c)[j], 0);
    }
  }

  /** A process of a higher priority than that of the current one is never READY while it executes outside a give-up, in
      any calm run, exactly as long as no step of the run wakes one at a queuing port. */
  lemma {:induction false} HighestExactly(k: Kernel, steps: seq<Step>)
    requires Boot(k) && Runs(k, steps) && AlwaysCalm(k, steps)
    ensures NeverOvertakes(k, steps) ==> Ranked(Final(k, steps))
    ensures AlwaysHighest(k, steps) <==> NeverOvertakes(k, steps)
    decreases |steps|
  {
    if steps == [] {
      LaunchedRanked(k);
      NotOvertaken(k);
    } else {
      var before := steps[..|steps| - 1];
      HighestExactly(k, before);
      CalmFits(k, before);
      RunSound(k, before);
      if NeverOvertakes(k, before) {
        StepRanked(Final(k, before), steps[|steps| - 1], Final(k, steps));
        if Ranked(Final(k, steps)) { NotOvertaken(Final(k, steps)); }
      }
    }
  }

  // ----- the process that an interrupt readies -----

  /** A search of sched_proc by priority is sifted. */
  ghost predicate Sifting(k: Kernel) {
    k.mode.Electing? && !ByTurns(k.mode.search) ==> Sifted(k, k.mode.search)
  }

  lemma TickSifting(k: Kernel, s: Step, r: Kernel)
    requires Good(k) && OrderOk(k) && Sifting(k) && s.Interrupt? && Calm(k, s) && r == Next(k, s)
    ensures Sifting(r)
  {
    TickExactly(k, s.t, s.nextPart, s.nextTime, r);
    QuietTick(k, s.t, s.nextPart, s.nextTime);
    ActivationDue(k, s.t);
    LocalDue(k, s.t);
    if !Reschedules(k, s.t) {
      TickSpares(k, s.t, s.nextPart, r);
      if k.mode.Electing? && !ByTurns(k.mode.search) { SiftedSame(k, r, k.mode.search); }
    }
  }

  lemma TurnsStay(k: Kernel, s: Search)
    requires k.cur in k.procs
    ensures ByTurns(Scanned(k, s)) == ByTurns(s)
  {
  }

  lemma ScanSifting(k: Kernel, s: Search, t: Search, r: Kernel)
    requires k.cur in k.procs && Sifting(k) && k.mode == Electing(s) && !s.Found() && t == Scanned(k, s) && r == k.(mode := Electing(t))
    ensures Sifting(r)
  {
    TurnsStay(k, s);
    if !ByTurns(s) {
      ScanSifts(k, s);
      assert SameRanks(k, r);
      SiftedSame(k, r, t);
    }
  }

  lemma StepSifting(k: Kernel, s: Step, r: Kernel)
    requires Sound(k) && Settled(k) && Sifting(k) && Enabled(k, s) && Calm(k, s) && r == Next(k, s)
    ensures Sifting(r)
  {
    match s
    case Scan =>
      if k.mode.Electing? { ScanSifting(k, k.mode.search, Scanned(k, k.mode.search), r); }
    case GiveUp =>
    case Dispatch => RunFrame(k, r, k.mode.search.best.value); assert Held(k, k.mode.search.best.value) == [];
    case Interrupt(_, _, _) => TickSifting(k, s, r);
    case _ => StepStays(k, s, r);
  }

  lemma {:induction false} RunSifting(k: Kernel, steps: seq<Step>)
    requires Boot(k) && Runs(k, steps) && AlwaysCalm(k, steps)
    ensures Sifting(Final(k, steps))
    decreases |steps|
  {
    if steps == [] {
      var c :| Configured(c) && k == Launched(c);
    } else {
      var before := steps[..|steps| - 1];
      RunSifting(k, before);
      CalmFits(k, before);
      RunSound(k, before);
      StepSifting(Final(k, before), steps[|steps| - 1], Final(k, steps));
    }
  }

  /** An interrupt of the run had an activation due, or an event of a process of the partition current then, and no
      dispatch has come since. */
  ghost predicate TakenAway(k: Kernel, steps: seq<Step>)
    requires Runs(k, steps)
    decreases |steps|
  {
    steps != [] &&
    var before, s := steps[..|steps| - 1], steps[|steps| - 1];
    (s.Interrupt? && Reschedules(Final(k, before), s.t)) || (!s.Dispatch? && TakenAway(k, before))
  }

  lemma ByPriorityStill(k: Kernel, s: Step, r: Kernel)
    requires Good(k) && k.mode.Electing? && !ByTurns(k.mode.search) && Enabled(k, s) && !s.Dispatch? && r == Next(k, s)
    ensures r.mode.Electing? && !ByTurns(r.mode.search)
  {
    if s.Interrupt? { TickExactly(k, s.t, s.nextPart, s.nextTime, r); }
  }

  lemma {:induction false} ByPrioritySince(k: Kernel, steps: seq<Step>)
    requires Boot(k) && Runs(k, steps) && AlwaysCalm(k, steps) && TakenAway(k, steps)
    ensures Final(k, steps).mode.Electing? && !ByTurns(Final(k, steps).mode.search)
    decreases |steps|
  {
    var before, s := steps[..|steps| - 1], steps[|steps| - 1];
    var m := Final(k, before);
    CalmFits(k, before);
    RunSound(k, before);
    if s.Interrupt? && Reschedules(m, s.t) {
      TickExactly(m, s.t, s.nextPart, s.nextTime, Final(k, steps));
    } else {
      ByPrioritySince(k, before);
      ByPriorityStill(m, s, Final(k, steps));
    }
  }

  /** In a calm run, the first dispatch behind an interrupt at which an event of a process of the current partition was due
      runs a process of maximal priority: no READY process of the partition is of a higher one. So a process that its
      timer readied is running then, or one of at least its priority is. */
  lemma RunsHighestNext(k: Kernel, steps: seq<Step>)
    requires Boot(k) && Runs(k, steps) && AlwaysCalm(k, steps) && TakenAway(k, steps)
    requires Enabled(Final(k, steps), Step.Dispatch)
    ensures var r := Next(Final(k, steps), Step.Dispatch); r.mode == Executing && OnTop(r)
  {
    var m := Final(k, steps);
    CalmFits(k, steps);
    RunSound(k, steps);
    RunSifting(k, steps);
    ByPrioritySince(k, steps);
    assert Ranked(m);
    DispatchRanked(m, Next(m, Step.Dispatch));
  }
}
