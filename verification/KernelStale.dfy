/** A run in which an interrupt overtakes the search of sched_proc: the process that was current is dispatched anew,
    takes up the interrupted search on its stack, and the process that search had found is set RUNNING beside it. */
module KernelStale {
  import opened Common
  import opened TimerQueue
  import opened Election
  import opened KernelSpec
  import opened KernelInv
  import opened KernelSteps
  import opened KernelCalls
  import opened KernelTimer
  import opened KernelRuns

  const HIGH: Pid := 0
  const LOW: Pid := 1

  /** Two processes of one partition, the first of higher priority. */
  function Task(state: PState, reason: Reason, timer: Option<nat>, pri: nat, giving: Giving): Proc {
    Proc(state, reason, timer, pri, pri, INFINITE, 0, giving, User)
  }

  function Two(high: Proc, low: Proc): map<Pid, Proc> { map[HIGH := high, LOW := low] }

  function System(high: Proc, low: Proc, queue: seq<Event>, next: nat, cur: Pid, mode: Mode, held: map<Pid, seq<Search>>): Kernel {
    Kernel(Two(high, low), map[0 := [HIGH, LOW]], map[0 := Normal], map[], map[], queue, next, map[], 0, cur, 0, mode, held, [])
  }

  function Idle(): Proc { Task(Ready, PreviousStarted, None, 1, Not) }
  function Asleep(giving: Giving): Proc { Task(Waiting, TimedWait, Some(0), 2, giving) }
  function Timer(): seq<Event> { [Event(0, 10, TimedWaitTimeout(HIGH))] }

  /** A search for the highest priority, with the list still ahead and the process found so far. */
  function At(todo: seq<Pid>, best: Option<Pid>): Search { Looking(None, todo, false, best) }

  // ----- the states of the run -----

  function Before(): Kernel { System(Task(Ready, PreviousStarted, None, 2, Not), Idle(), [], 0, HIGH, Electing(Fresh(false)), map[]) }
  function Start(): Kernel { System(Task(Running, PreviousStarted, None, 2, Not), Idle(), [], 0, HIGH, Executing, map[]) }

  /** Behind TIMED_WAIT(10), giving up. */
  function Waits(s: Search): Kernel { System(Asleep(Yes(s)), Idle(), Timer(), 1, HIGH, Executing, map[]) }

  /** sched_proc searches. */
  function Searches(s: Search): Kernel { System(Asleep(Not), Idle(), Timer(), 1, HIGH, Electing(s), map[]) }

  /** The timer has fired during that search, and sched_proc searches again. */
  function Woken(s: Search): Kernel {
    System(Task(Ready, TimedWait, None, 2, Not), Idle(), [], 1, HIGH, Electing(s), map[HIGH := [At([], Some(LOW))]])
  }

  function Resumed(): Kernel {
    System(Task(Running, TimedWait, None, 2, Not), Idle(), [], 1, HIGH, Electing(At([], Some(LOW))), map[HIGH := []])
  }

  function Both(): Kernel {
    System(Task(Running, TimedWait, None, 2, Not), Task(Running, PreviousStarted, None, 1, Not), [], 1, LOW, Executing, map[HIGH := []])
  }

  // ----- its steps -----

  lemma Boots()
    ensures Boot(Start())
  {
    var c := Before();
    var cs := Candidates(c.procs, Members(c));
    assert cs == [Candidate(true, 2), Candidate(true, 1)];
    assert Best(cs, 1) == Some(0);
    assert Elected(c, false) == Some(HIGH);
    assert Run(c, HIGH).procs == Start().procs;
    assert Configured(c) && Start() == Launched(c);
  }

  lemma CallsWait()
    ensures var s := Enter(Wait(10), 0, 0, 0); Enabled(Start(), s) && Next(Start(), s) == Waits(Fresh(false))
  {
    assert Next(Start(), Enter(Wait(10), 0, 0, 0)).procs == Two(Asleep(Yes(Fresh(false))), Idle());
  }

  /** The three steps of a search past the waiting process. */
  lemma Passes(k: Kernel)
    requires k.order == map[0 := [HIGH, LOW]] && k.part == 0 && k.procs.Keys == {HIGH, LOW} && k.procs[LOW] == Idle()
    requires k.procs[HIGH].state == Waiting
    ensures Scanned(k, Fresh(false)) == At([HIGH, LOW], None)
    ensures Scanned(k, At([HIGH, LOW], None)) == At([LOW], None)
    ensures Scanned(k, At([LOW], None)) == At([], Some(LOW))
  {
  }

  lemma Finds(k: Kernel)
    requires k.order == map[0 := [HIGH, LOW]] && k.part == 0 && k.procs.Keys == {HIGH, LOW} && k.procs[LOW] == Idle()
    requires k.procs[HIGH].state == Ready && k.procs[HIGH].pri == 2
    ensures Scanned(k, Fresh(false)) == At([HIGH, LOW], None)
    ensures Scanned(k, At([HIGH, LOW], None)) == At([LOW], Some(HIGH))
    ensures Scanned(k, At([LOW], Some(HIGH))) == At([], Some(HIGH))
  {
  }

  lemma GivesUp()
    ensures Enabled(Waits(At([], Some(LOW))), GiveUp) && Next(Waits(At([], Some(LOW))), GiveUp) == Searches(Fresh(false))
  {
    assert Next(Waits(At([], Some(LOW))), GiveUp).procs == Two(Asleep(Not), Idle());
  }

  lemma Interrupts()
    ensures var s := Interrupt(10, 0, 0); Next(Searches(At([], Some(LOW))), s) == Woken(Fresh(false))
  {
    var k := Searches(At([], Some(LOW)));
    var m := Fire(k);
    assert m.procs == Two(Task(Ready, TimedWait, None, 2, Not), Idle());
    assert FireDue(k, 10) == m;
    var due := Due(k.queue, 10);
    assert Due(k.queue[1..], 10) == [];
    assert due == [k.queue[0]];
    assert OfPart(k, due[0]) && due[0] in due;
    assert HasLocal(k, due) && !HasActivation(due);
    assert [At([], Some(LOW))] + Held(m, HIGH) == [At([], Some(LOW))];
    assert Preempt(m, false).held == map[HIGH := [At([], Some(LOW))]];
  }

  lemma RunsHigh()
    ensures var k := Woken(At([], Some(HIGH))); Enabled(k, Step.Dispatch) && Next(k, Step.Dispatch) == Resumed()
  {
    var k := Woken(At([], Some(HIGH)));
    assert Run(k, HIGH).procs == Resumed().procs;
    assert Run(k, HIGH).held == Resumed().held;
  }

  lemma HighFits()
    ensures Fits(Woken(At([], Some(HIGH))), HIGH)
  {
  }

  lemma LowUnfit()
    ensures !Fits(Resumed(), LOW)
  {
    assert Resumed().procs[HIGH].state == Running;
  }

  lemma RunsLow()
    ensures Enabled(Resumed(), Step.Dispatch) && Next(Resumed(), Step.Dispatch) == Both()
  {
    assert Run(Resumed(), LOW).procs == Both().procs;
  }

  // ----- the run -----

  /** Three steps of the search under way. */
  lemma ThreeScans(k: Kernel, steps: seq<Step>, a: Kernel, b: Kernel, c: Kernel, d: Kernel)
    requires Runs(k, steps) && AlwaysFitting(k, steps) && Final(k, steps) == a
    requires Enabled(a, Scan) && b == Next(a, Scan) && Enabled(b, Scan) && c == Next(b, Scan) && Enabled(c, Scan) && d == Next(c, Scan)
    ensures Runs(k, steps + Through()) && AlwaysFitting(k, steps + Through()) && Final(k, steps + Through()) == d
  {
    OneMore(k, steps, a, Scan, b);
    OneMore(k, steps + [Scan], b, Scan, c);
    OneMore(k, steps + [Scan] + [Scan], c, Scan, d);
    assert steps + [Scan] + [Scan] + [Scan] == steps + Through();
  }

  function Through(): seq<Step> { [Scan, Scan, Scan] }
  function Waited(): seq<Step> { [] + [Enter(Wait(10), 0, 0, 0)] + Through() }
  function First(): seq<Step> { Waited() + [GiveUp] }
  function Overtaken(): seq<Step> { First() + Through() + [Interrupt(10, 0, 0)] + Through() + [Step.Dispatch] }

  lemma RunsWaited()
    ensures Runs(Start(), Waited()) && AlwaysFitting(Start(), Waited()) && Final(Start(), Waited()) == Waits(At([], Some(LOW)))
  {
    var k := Start();
    CallsWait();
    OneMore(k, [], k, Enter(Wait(10), 0, 0, 0), Waits(Fresh(false)));
    var a, b, c, d := Waits(Fresh(false)), Waits(At([HIGH, LOW], None)), Waits(At([LOW], None)), Waits(At([], Some(LOW)));
    Passes(a); Passes(b); Passes(c);
    assert Next(a, Scan).procs == b.procs && Next(b, Scan).procs == c.procs && Next(c, Scan).procs == d.procs;
    ThreeScans(k, [] + [Enter(Wait(10), 0, 0, 0)], a, b, c, d);
  }

  lemma RunsFirst()
    ensures Runs(Start(), First()) && AlwaysFitting(Start(), First()) && Final(Start(), First()) == Searches(Fresh(false))
  {
    RunsWaited();
    GivesUp();
    OneMore(Start(), Waited(), Waits(At([], Some(LOW))), GiveUp, Searches(Fresh(false)));
  }

  lemma RunsOvertaken()
    ensures Runs(Start(), Overtaken()) && AlwaysFitting(Start(), Overtaken()) && Final(Start(), Overtaken()) == Resumed()
  {
    var k := Start();
    RunsFirst();
    var a, b, c, d := Searches(Fresh(false)), Searches(At([HIGH, LOW], None)), Searches(At([LOW], None)), Searches(At([], Some(LOW)));
    Passes(a); Passes(b); Passes(c);
    ThreeScans(k, First(), a, b, c, d);
    Interrupts();
    OneMore(k, First() + Through(), d, Interrupt(10, 0, 0), Woken(Fresh(false)));
    SearchesAgain(k, First() + Through() + [Interrupt(10, 0, 0)]);
    RunsHigh();
    HighFits();
    OneMore(k, First() + Through() + [Interrupt(10, 0, 0)] + Through(), Woken(At([], Some(HIGH))), Step.Dispatch, Resumed());
  }

  lemma SearchesAgain(k: Kernel, steps: seq<Step>)
    requires Runs(k, steps) && AlwaysFitting(k, steps) && Final(k, steps) == Woken(Fresh(false))
    ensures Runs(k, steps + Through()) && AlwaysFitting(k, steps + Through()) && Final(k, steps + Through()) == Woken(At([], Some(HIGH)))
  {
    var a, b, c, d := Woken(Fresh(false)), Woken(At([HIGH, LOW], None)), Woken(At([LOW], Some(HIGH))), Woken(At([], Some(HIGH)));
    Finds(a); Finds(b); Finds(c);
    ThreeScans(k, steps, a, b, c, d);
  }

  /** From boot, one timer interrupt in the course of one search leads to two processes RUNNING, of which the one of
      higher priority is not current. The last dispatch is the first of the run that does not fit. */
  lemma TwoRunning() returns (k: Kernel, steps: seq<Step>)
    ensures Boot(k) && Runs(k, steps) && Runs(k, steps + [Step.Dispatch])
    ensures var r := Final(k, steps + [Step.Dispatch]);
            && HIGH in r.procs && LOW in r.procs && r.cur == LOW && r.mode == Executing
            && r.procs[HIGH].state == Running && r.procs[LOW].state == Running && r.procs[HIGH].pri > r.procs[LOW].pri
    ensures AlwaysFitting(k, steps) && !Fitting(Final(k, steps), Step.Dispatch)
  {
    k, steps := Start(), Overtaken();
    Boots();
    RunsOvertaken();
    RunsLow();
    OneMore(k, steps, Resumed(), Step.Dispatch, Both());
    LowUnfit();
  }
}
