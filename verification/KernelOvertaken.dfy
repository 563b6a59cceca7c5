/** A process of low priority that executes on while one of high priority is READY: it has woken it by a send through a
    queuing port, behind which nobody gives up. */
module KernelOvertaken {
  import opened Common
  import opened TimerQueue
  import opened Election
  import opened KernelSpec
  import opened KernelSteps
  import opened KernelTimer
  import opened KernelRuns
  import opened KernelSearch
  import opened KernelPriority
  import D = KernelDeadlock

  const HIGH: Pid := 0
  const LOW: Pid := 1
  const MESSAGE: Msg := [7]

  function Task(state: PState, reason: Reason, pri: nat, giving: Giving, pc: Pc): Proc {
    Proc(state, reason, None, pri, pri, INFINITE, 0, giving, pc)
  }

  /** Two processes of one partition, and a channel between two ports of it. */
  function System(high: Proc, low: Proc, waiting: seq<Pid>, msgs: seq<Msg>, cur: Pid, mode: Mode, log: seq<Entry>): Kernel {
    Kernel(map[HIGH := high, LOW := low], map[0 := [HIGH, LOW]], map[0 := Normal], map[0 := Ring(PortKind, 1, 1, msgs, waiting)],
           map[(PortKind, 0) := Handle(0, Source, Fifo, 0), (PortKind, 1) := Handle(0, Destination, Fifo, 0)],
           [], 0, map[], 0, cur, 0, mode, map[], log)
  }

  function Receiving(): Pc { Retry(Xfer(0, Recv, Fifo, INFINITE), INFINITE, INFINITE, None) }
  function Receives(): Step { Enter(ReceiveFrom(PortKind, 1, INFINITE), 0, 0, 0) }
  function Sends(): Step { Enter(SendTo(PortKind, 0, MESSAGE, INFINITE), 0, 0, 0) }

  function Sender(state: PState): Proc { Task(state, PreviousStarted, 1, Not, User) }
  function Blocks(giving: Giving): Proc { Task(Waiting, Blocked(PortKind), 2, giving, Receiving()) }

  // ----- the states of the run -----

  function Before(): Kernel {
    System(Task(Ready, PreviousStarted, 2, Not, User), Sender(Ready), [], [], 0, Electing(Fresh(false)), [])
  }
  function Booted(): Kernel { System(Task(Running, PreviousStarted, 2, Not, User), Sender(Ready), [], [], HIGH, Executing, []) }
  function Waits(): Kernel { System(Blocks(Yes(Fresh(false))), Sender(Ready), [HIGH], [], HIGH, Executing, []) }
  function LowRuns(): Kernel { System(Blocks(Not), Sender(Running), [HIGH], [], LOW, Executing, []) }
  function HighWoken(): Kernel {
    System(Task(Ready, Blocked(PortKind), 2, Not, Receiving()), Sender(Running), [], [MESSAGE], LOW, Executing, [Sent(0, MESSAGE)])
  }

  // ----- its steps -----

  lemma Boots()
    ensures Boot(Booted())
  {
    var c := Before();
    var cs := Candidates(c.procs, Members(c));
    assert cs == [Candidate(true, 2), Candidate(true, 1)];
    assert Best(cs, 1) == Some(0);
    assert Elected(c, false) == Some(HIGH);
    assert Run(c, HIGH).procs == Booted().procs;
    assert Configured(c) && Booted() == Launched(c);
  }

  lemma HighWaits()
    ensures Enabled(Booted(), Receives()) && Next(Booted(), Receives()) == Waits()
  {
    assert [] + [HIGH] == [HIGH];
    assert Next(Booted(), Receives()).procs == Waits().procs && Next(Booted(), Receives()).objs == Waits().objs;
  }

  lemma LowElected()
    ensures D.HandsTo(Waits(), LOW) && D.Handed(Waits(), LOW) == LowRuns()
  {
    var cs := Candidates(Waits().procs, Members(Waits()));
    assert cs == [Candidate(false, 2), Candidate(true, 1)];
    assert Best(cs, 1) == None;
    assert D.Handed(Waits(), LOW).procs == LowRuns().procs;
  }

  lemma LowSends()
    ensures Enabled(LowRuns(), Sends()) && Next(LowRuns(), Sends()) == HighWoken()
  {
    assert [] + [MESSAGE] == [MESSAGE] && [HIGH][1..] == [];
    assert Next(LowRuns(), Sends()).procs == HighWoken().procs && Next(LowRuns(), Sends()).objs == HighWoken().objs;
  }

  lemma {:induction false} PlainCalm(k: Kernel, steps: seq<Step>)
    requires Runs(k, steps) && D.AllPlain(steps)
    ensures AlwaysCalm(k, steps)
    decreases |steps|
  {
    if steps != [] {
      assert steps[|steps| - 1] in steps;
      PlainCalm(k, steps[..|steps| - 1]);
    }
  }

  /** From boot, a receive and a send lead to a kernel in which the sender executes on in user code, while the receiver,
      of the same partition and of a higher priority, is READY. */
  lemma PortOvertakes() returns (k: Kernel, steps: seq<Step>)
    ensures Boot(k) && Runs(k, steps) && AlwaysCalm(k, steps) && Overtaken(Final(k, steps))
    ensures var r := Final(k, steps);
            && LOW in r.procs && r.cur == LOW && r.procs[LOW].state == Running && r.procs[LOW].pc == User
            && HIGH in r.procs && r.procs[HIGH].state == Ready && r.procs[HIGH].pri > r.procs[LOW].pri
  {
    k, steps := Booted(), [];
    Boots();
    HighWaits();
    steps := D.Then(k, steps, Booted(), Receives(), Waits());
    LowElected();
    steps := D.HandsOver(k, steps, Waits(), LOW);
    LowSends();
    steps := D.Then(k, steps, LowRuns(), Sends(), HighWoken());
    PlainCalm(k, steps);
    BelowHigh();
  }

  lemma BelowHigh()
    ensures Overtaken(HighWoken())
  {
    assert HIGH in Members(HighWoken());
  }
}
