/** A timer context that is lost: its process is stopped inside a bounded wait, behind the wake-up, and started again. */
module KernelLost {
  import opened Common
  import opened TimerQueue
  import opened Election
  import opened KernelSpec
  import opened KernelTimer
  import opened KernelRuns
  import opened KernelSearch
  import opened KernelLeaks
  import opened KernelOvertaken
  import D = KernelDeadlock

  const TIMEOUT: int := 5
  const CONTEXT: CtxId := 0

  function Bounded(): Pc { Retry(Xfer(0, Recv, Fifo, TIMEOUT), TIMEOUT, TIMEOUT, Some(CONTEXT)) }
  function ReceivesBounded(): Step { Enter(ReceiveFrom(PortKind, 1, TIMEOUT), 0, 0, 0) }
  function Stops(): Step { Enter(Stop(HIGH), 0, 0, 0) }
  function Starts(): Step { Enter(Start(HIGH, 0), 0, 0, 0) }

  /** The receiver in its bounded wait. */
  function Inside(state: PState, timer: Option<nat>, giving: Giving): Proc {
    Proc(state, BlockedTimed(PortKind), timer, 2, 2, INFINITE, 0, giving, Bounded())
  }

  function Executes(giving: Giving): Proc { Task(Running, PreviousStarted, 1, giving, User) }

  function WithContext(k: Kernel, queue: seq<Event>): Kernel {
    k.(queue := queue, nextEvent := 1, ctxs := map[CONTEXT := Ctx(HIGH, 0)], nextCtx := 1)
  }

  // ----- the states of the run -----

  function Queued(): seq<Event> { [Event(0, TIMEOUT, BlockTimeout(PortKind, CONTEXT))] }

  function WaitsBounded(): Kernel {
    WithContext(System(Inside(Waiting, Some(0), Yes(Fresh(false))), Sender(Ready), [HIGH], [], HIGH, Executing, []), Queued())
  }

  function LowExecutes(): Kernel {
    WithContext(System(Inside(Waiting, Some(0), Not), Executes(Not), [HIGH], [], LOW, Executing, []), Queued())
  }

  /** The send has woken the receiver, and its timer is gone. */
  function Awake(state: PState, giving: Giving): Kernel {
    WithContext(System(Inside(state, None, Not), Executes(giving), [], [MESSAGE], LOW, Executing, [Sent(0, MESSAGE)]), [])
  }

  function Restarted(): Kernel {
    var high := Proc(Ready, BlockedTimed(PortKind), None, 2, 2, INFINITE, 0, Not, User);
    WithContext(System(high, Executes(Yes(Fresh(false))), [], [MESSAGE], LOW, Executing, [Sent(0, MESSAGE)]), [])
  }

  // ----- its steps -----

  /** The blocking round: a context, an event, the wait list. */
  lemma Blocks(k: Kernel, x: Xfer, r: Kernel)
    requires k == Booted() && x == Bounded().x && r == Block(k, x, TIMEOUT, 0, 0)
    ensures r == WaitsBounded()
  {
    var q := Inside(Waiting, None, Yes(Fresh(false)));
    assert BlockedProc(k.procs[HIGH], PortKind, x, TIMEOUT, TIMEOUT, Some(CONTEXT)) == q;
    var k1 := WithProc(NewContext(k, 0), HIGH, q);
    assert Target(k1, BlockTimeout(PortKind, CONTEXT)) == Some(HIGH);
    assert Insert([], Queued()[0]) == Queued();
    assert [] + [HIGH] == [HIGH];
    assert r.procs == WaitsBounded().procs && r.objs == WaitsBounded().objs && r.ctxs == WaitsBounded().ctxs;
  }

  lemma HighWaitsBounded()
    ensures Enabled(Booted(), ReceivesBounded()) && Next(Booted(), ReceivesBounded()) == WaitsBounded()
  {
    var k, x := Booted(), Bounded().x;
    assert ReceiveCheck(k, PortKind, 1) == NoError;
    assert Next(k, ReceivesBounded()) == LoopOn(k, x, TIMEOUT, 0, 0) == Block(k, x, TIMEOUT, 0, 0);
    Blocks(k, x, Block(k, x, TIMEOUT, 0, 0));
  }

  lemma LowIsNext()
    ensures D.HandsTo(WaitsBounded(), LOW) && D.Handed(WaitsBounded(), LOW) == LowExecutes()
  {
    var cs := Candidates(WaitsBounded().procs, Members(WaitsBounded()));
    assert cs == [Candidate(false, 2), Candidate(true, 1)];
    assert Best(cs, 1) == None;
    assert D.Handed(WaitsBounded(), LOW).procs == LowExecutes().procs;
  }

  /** The wake-up, which frees the timer but not the context. */
  lemma WakesHigh(k: Kernel, r: Kernel)
    requires k == LowExecutes().(objs := map[0 := Ring(PortKind, 1, 1, [MESSAGE], [HIGH])], log := [Sent(0, MESSAGE)])
    requires r == Wake(k, 0, HIGH)
    ensures r == Awake(Ready, Not)
  {
    assert Remove(Queued(), 0) == [] && Without([HIGH], HIGH) == [];
    assert r.procs == Awake(Ready, Not).procs && r.objs == Awake(Ready, Not).objs;
  }

  lemma LowWakes()
    ensures Enabled(LowExecutes(), Sends()) && Next(LowExecutes(), Sends()) == Awake(Ready, Not)
  {
    var k, x := LowExecutes(), Xfer(0, Send(MESSAGE), Fifo, INFINITE);
    assert SendCheck(k, PortKind, 0, 1) == NoError;
    var k1 := k.(objs := map[0 := Ring(PortKind, 1, 1, [MESSAGE], [HIGH])], log := [Sent(0, MESSAGE)]);
    assert [] + [MESSAGE] == [MESSAGE];
    assert Next(k, Sends()) == Complete(k, x) == AfterTransfer(k1, x);
    WakesHigh(k1, Wake(k1, 0, HIGH));
    assert Next(k, Sends()).procs == Awake(Ready, Not).procs;
  }

  lemma LowStops()
    ensures Enabled(Awake(Ready, Not), Stops()) && Next(Awake(Ready, Not), Stops()) == Awake(Dormant, Yes(Fresh(false)))
  {
    assert Next(Awake(Ready, Not), Stops()).procs == Awake(Dormant, Yes(Fresh(false))).procs;
  }

  lemma LowElectsItself(k: Kernel)
    requires k == Awake(Dormant, Yes(Fresh(false)))
    ensures Sweep(k, Fresh(false)).Found() && Sweep(k, Fresh(false)).best == Some(LOW) && Sweep(k, Fresh(false)).above.None?
  {
    var cs := Candidates(k.procs, Members(k));
    assert cs == [Candidate(false, 2), Candidate(true, 1)];
    assert Best(cs, 1) == None;
    SweepElects(k, false);
  }

  lemma LowGoesOn(m: Kernel, s: Search)
    requires s.Found() && s.best == Some(LOW) && m == Awake(Dormant, Yes(s))
    ensures Enabled(m, GiveUp) && Next(m, GiveUp) == Awake(Dormant, Not)
  {
    assert Next(m, GiveUp).procs == Awake(Dormant, Not).procs;
  }

  /** With nobody else READY the give-up finds its own process. */
  lemma FindsItself(k0: Kernel, steps: seq<Step>) returns (more: seq<Step>)
    requires Runs(k0, steps) && AlwaysFitting(k0, steps) && Final(k0, steps) == Awake(Dormant, Yes(Fresh(false)))
    ensures Runs(k0, more) && AlwaysFitting(k0, more) && Final(k0, more) == Awake(Dormant, Not)
  {
    var k := Awake(Dormant, Yes(Fresh(false)));
    LowElectsItself(k);
    var s := Sweep(k, Fresh(false));
    var m := Searched(k);
    assert m.procs == Awake(Dormant, Yes(s)).procs;
    more := D.SearchesOn(k0, steps, k);
    LowGoesOn(m, s);
    more := D.Then(k0, more, m, GiveUp, Awake(Dormant, Not));
  }

  lemma LowStarts()
    ensures Enabled(Awake(Dormant, Not), Starts()) && Next(Awake(Dormant, Not), Starts()) == Restarted()
  {
    var r := Next(Awake(Dormant, Not), Starts());
    assert r.held == map[] && r.procs == Restarted().procs;
  }

  /** The run up to the wake-up. */
  lemma Wakes() returns (k: Kernel, steps: seq<Step>)
    ensures Boot(k) && Runs(k, steps) && AlwaysFitting(k, steps) && Final(k, steps) == Awake(Ready, Not)
  {
    k, steps := Booted(), [];
    Boots();
    HighWaitsBounded();
    steps := D.Then(k, steps, k, ReceivesBounded(), WaitsBounded());
    LowIsNext();
    steps := D.HandsOver(k, steps, WaitsBounded(), LOW);
    LowWakes();
    steps := D.Then(k, steps, LowExecutes(), Sends(), Awake(Ready, Not));
  }

  /** From boot, a bounded receive, the send that ends its wait, STOP and START of the receiver lead to a kernel with a
      timer context that no process will ever free. */
  lemma ContextLost() returns (k: Kernel, steps: seq<Step>)
    ensures Boot(k) && Runs(k, steps) && AlwaysFitting(k, steps)
    ensures var r := Final(k, steps);
            CONTEXT in r.ctxs && !Owned(r) && forall p :: p in r.procs ==> r.procs[p].pc == User
  {
    k, steps := Wakes();
    LowStops();
    steps := D.Then(k, steps, Awake(Ready, Not), Stops(), Awake(Dormant, Yes(Fresh(false))));
    steps := FindsItself(k, steps);
    LowStarts();
    steps := D.Then(k, steps, Awake(Dormant, Not), Starts(), Restarted());
    NobodyFrees(Restarted());
  }

  lemma NobodyFrees(r: Kernel)
    requires r == Restarted()
    ensures CONTEXT in r.ctxs && !Owned(r) && forall p :: p in r.procs ==> r.procs[p].pc == User
  {
    assert !Names(r, HIGH, CONTEXT);
  }
}
