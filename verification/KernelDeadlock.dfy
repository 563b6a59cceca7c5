/** Two senders and a receiver on one queuing channel that all wait for ever, the receiver on a full ring: each
    transfer wakes the longest waiting process, and that may be one it cannot help. */
module KernelDeadlock {
  import opened Common
  import opened TimerQueue
  import opened Election
  import opened KernelSpec
  import opened KernelInv
  import opened KernelSteps
  import opened KernelCalls
  import opened KernelTimer
  import opened KernelRuns
  import opened KernelSearch
  import opened KernelWakeups

  /** No interrupt, and no call but sends and receives without a timeout. */
  predicate Plain(s: Step) {
    && !s.Interrupt?
    && (s.Enter? ==> (s.call.SendTo? || s.call.ReceiveFrom?) && s.call.timeout == INFINITE)
  }

  predicate AllPlain(steps: seq<Step>) {
    forall s :: s in steps ==> Plain(s)
  }

  lemma OnePlain(steps: seq<Step>, s: Step)
    requires AllPlain(steps) && Plain(s)
    ensures AllPlain(steps + [s])
  {
  }

  /** A search that nothing interrupts extends the run. */
  lemma SearchesOn(k0: Kernel, steps: seq<Step>, k: Kernel) returns (more: seq<Step>)
    requires Runs(k0, steps) && AlwaysFitting(k0, steps) && Final(k0, steps) == k && Searching(k)
    ensures Runs(k0, more) && AlwaysFitting(k0, more) && Final(k0, more) == Searched(k)
    ensures AllPlain(steps) ==> AllPlain(more)
  {
    var n := SearchedByScans(k);
    more := ScansRun(k0, steps, k, Searched(k), n);
  }

  lemma Then(k0: Kernel, steps: seq<Step>, k: Kernel, s: Step, m: Kernel) returns (more: seq<Step>)
    requires Runs(k0, steps) && AlwaysFitting(k0, steps) && Final(k0, steps) == k
    requires Enabled(k, s) && Fitting(k, s) && Next(k, s) == m
    ensures Runs(k0, more) && AlwaysFitting(k0, more) && Final(k0, more) == m
    ensures AllPlain(steps) && Plain(s) ==> AllPlain(more)
  {
    OneMore(k0, steps, k, s, m);
    more := steps + [s];
    if AllPlain(steps) && Plain(s) { OnePlain(steps, s); }
  }

  // ----- handing over -----

  /** The current process has gone to sleep and gives up; p is the one to run next. */
  ghost predicate HandsTo(k: Kernel, p: Pid) {
    && k.mode == Executing && k.cur in k.procs && k.procs[k.cur].state == Waiting
    && k.procs[k.cur].giving == Yes(Fresh(false)) && k.held == map[]
    && Elected(k, false) == Some(p) && p in k.procs && k.procs[p].state == Ready && k.procs[p].part == k.part
    && k.procs[p].timer.None? && forall q :: q in k.procs ==> k.procs[q].state != Running
  }

  function Searches(k: Kernel): Kernel
    requires k.cur in k.procs
  {
    SetCur(k, Not, k.procs[k.cur].pc).(mode := Electing(Fresh(false)))
  }

  /** The search of the give-up, and its end. */
  lemma GivesUp(k0: Kernel, steps: seq<Step>, k: Kernel, p: Pid) returns (more: seq<Step>)
    requires Runs(k0, steps) && AlwaysFitting(k0, steps) && Final(k0, steps) == k && HandsTo(k, p)
    ensures Runs(k0, more) && AlwaysFitting(k0, more) && Final(k0, more) == Searches(k)
    ensures AllPlain(steps) ==> AllPlain(more)
  {
    SweepElects(k, false);
    var s := Sweep(k, Fresh(false));
    var m := Searched(k);
    SearchAgrees(k, m, s);
    more := SearchesOn(k0, steps, k);
    EndsGiveUp(k, m, s, p);
    more := Then(k0, more, m, GiveUp, Searches(k));
  }

  lemma EndsGiveUp(k: Kernel, m: Kernel, s: Search, p: Pid)
    requires HandsTo(k, p) && s.Found() && s.best == Some(p) && s.above.None? && m == SetCur(k, Yes(s), k.procs[k.cur].pc)
    ensures Enabled(m, GiveUp) && Next(m, GiveUp) == Searches(k)
  {
    assert Next(m, GiveUp).procs == Searches(k).procs;
  }

  /** The search of sched_proc, and the dispatch. */
  lemma Dispatches(k0: Kernel, steps: seq<Step>, k: Kernel, p: Pid) returns (more: seq<Step>)
    requires Runs(k0, steps) && AlwaysFitting(k0, steps) && HandsTo(k, p) && Final(k0, steps) == Searches(k)
    ensures Runs(k0, more) && AlwaysFitting(k0, more) && Final(k0, more) == Handed(k, p)
    ensures AllPlain(steps) ==> AllPlain(more)
  {
    var c := Searches(k);
    ProcAgrees(k, SetCur(k, Not, k.procs[k.cur].pc), k.cur, k.procs[k.cur].(giving := Not, pc := k.procs[k.cur].pc));
    SweepElects(k, false);
    SweepsAgree(c, k, Fresh(false));
    var m := Searched(c);
    more := SearchesOn(k0, steps, c);
    EndsDispatch(k, m, Sweep(k, Fresh(false)), p);
    more := Then(k0, more, m, Step.Dispatch, Handed(k, p));
  }

  lemma EndsDispatch(k: Kernel, m: Kernel, s: Search, p: Pid)
    requires HandsTo(k, p) && s.Found() && s.best == Some(p) && m == Searches(k).(mode := Electing(s))
    ensures Enabled(m, Step.Dispatch) && Fitting(m, Step.Dispatch) && Next(m, Step.Dispatch) == Handed(k, p)
  {
  }

  function Handed(k: Kernel, p: Pid): Kernel
    requires k.cur in k.procs && p in k.procs
  {
    var r := SetCur(k, Not, k.procs[k.cur].pc);
    WithProc(r.(cur := p), p, r.procs[p].(state := Running))
  }

  lemma HandsOver(k0: Kernel, steps: seq<Step>, k: Kernel, p: Pid) returns (more: seq<Step>)
    requires Runs(k0, steps) && AlwaysFitting(k0, steps) && Final(k0, steps) == k && HandsTo(k, p)
    ensures Runs(k0, more) && AlwaysFitting(k0, more) && Final(k0, more) == Handed(k, p)
    ensures AllPlain(steps) ==> AllPlain(more)
  {
    var before := GivesUp(k0, steps, k, p);
    more := Dispatches(k0, before, k, p);
  }

  // ----- the system -----

  const FIRST: Pid := 0
  const SECOND: Pid := 1
  const RECEIVER: Pid := 2
  const MESSAGE: Msg := [7]

  /** The three processes of one partition, of the same priority, and the channel with a source and a destination
      port. It holds one message. */
  function Task(state: PState, reason: Reason, giving: Giving, pc: Pc): Proc {
    Proc(state, reason, None, 1, 1, INFINITE, 0, giving, pc)
  }

  function Three(a: Proc, b: Proc, c: Proc): map<Pid, Proc> { map[FIRST := a, SECOND := b, RECEIVER := c] }
  function Ports(): map<(Kind, nat), Handle> {
    map[(PortKind, 0) := Handle(0, Source, Fifo, 0), (PortKind, 1) := Handle(0, Destination, Fifo, 0)]
  }
  function Channel(msgs: seq<Msg>, waiting: seq<Pid>): map<ObjId, Obj> { map[0 := Ring(PortKind, 1, 1, msgs, waiting)] }

  function System(a: Proc, b: Proc, c: Proc, msgs: seq<Msg>, waiting: seq<Pid>, cur: Pid, mode: Mode, log: seq<Entry>): Kernel {
    Kernel(Three(a, b, c), map[0 := [FIRST, SECOND, RECEIVER]], map[0 := Normal], Channel(msgs, waiting), Ports(),
           [], 0, map[], 0, cur, 0, mode, map[], log)
  }

  function Sending(): Xfer { Xfer(0, Send(MESSAGE), Fifo, INFINITE) }
  function Receiving(): Xfer { Xfer(0, Recv, Fifo, INFINITE) }
  function Loop(x: Xfer): Pc { Retry(x, INFINITE, INFINITE, None) }

  function Idle(): Proc { Task(Ready, PreviousStarted, Not, User) }
  function Active(): Proc { Task(Running, PreviousStarted, Not, User) }
  function Blocks(x: Xfer, giving: Giving): Proc { Task(Waiting, Blocked(PortKind), giving, Loop(x)) }
  function Woken(x: Xfer, state: PState): Proc { Task(state, Blocked(PortKind), Not, Loop(x)) }
  function Free(): Proc { Task(Running, Blocked(PortKind), Not, User) }
  function Giving(): Giving { Yes(Fresh(false)) }

  function Sends(): Step { Enter(SendTo(PortKind, 0, MESSAGE, INFINITE), 0, 0, 0) }
  function Receives(): Step { Enter(ReceiveFrom(PortKind, 1, INFINITE), 0, 0, 0) }
  function Again(): Step { Continue(0, 0, 0) }

  function Log(n: nat): seq<Entry> {
    if n == 0 then [] else if n == 1 then [Sent(0, MESSAGE)] else if n == 2 then [Sent(0, MESSAGE), Received(0, MESSAGE)]
    else [Sent(0, MESSAGE), Received(0, MESSAGE), Sent(0, MESSAGE)]
  }

  // ----- the states of the run -----

  function Before(): Kernel { System(Idle(), Idle(), Idle(), [], [], 0, Electing(Fresh(false)), []) }
  function Start(): Kernel { System(Active(), Idle(), Idle(), [], [], FIRST, Executing, []) }
  function Full(): Kernel { System(Active(), Idle(), Idle(), [MESSAGE], [], FIRST, Executing, Log(1)) }
  function FirstBlocks(g: Giving, b: Proc, cur: Pid): Kernel {
    System(Blocks(Sending(), g), b, Idle(), [MESSAGE], [FIRST], cur, Executing, Log(1))
  }
  function SecondBlocks(g: Giving, c: Proc, cur: Pid): Kernel {
    System(Blocks(Sending(), Not), Blocks(Sending(), g), c, [MESSAGE], [FIRST, SECOND], cur, Executing, Log(1))
  }
  function Taken(): Kernel {
    System(Woken(Sending(), Ready), Blocks(Sending(), Not), Active(), [], [SECOND], RECEIVER, Executing, Log(2))
  }
  function ReceiverBlocks(a: Proc, g: Giving, cur: Pid): Kernel {
    System(a, Blocks(Sending(), Not), Blocks(Receiving(), g), [], [SECOND, RECEIVER], cur, Executing, Log(2))
  }
  function SecondWoken(): Kernel {
    System(Free(), Woken(Sending(), Ready), Blocks(Receiving(), Not), [MESSAGE], [RECEIVER], FIRST, Executing, Log(3))
  }
  function FirstAgain(g: Giving, b: Proc, cur: Pid): Kernel {
    System(Blocks(Sending(), g), b, Blocks(Receiving(), Not), [MESSAGE], [RECEIVER, FIRST], cur, Executing, Log(3))
  }
  function Locked(): Kernel {
    System(Blocks(Sending(), Not), Blocks(Sending(), Giving()), Blocks(Receiving(), Not), [MESSAGE], [RECEIVER, FIRST, SECOND],
           SECOND, Executing, Log(3))
  }

  // ----- its steps -----

  lemma Boots()
    ensures Boot(Start())
  {
    var c := Before();
    Chooses(c, FIRST);
    assert Run(c, FIRST).procs == Start().procs;
    assert Configured(c) && Start() == Launched(c);
  }

  /** Of the processes that may run the first one is elected. */
  lemma Chooses(k: Kernel, p: Pid)
    requires k.order == map[0 := [FIRST, SECOND, RECEIVER]] && k.part == 0 && k.procs.Keys == {FIRST, SECOND, RECEIVER}
    requires (forall q :: q in k.procs ==> k.procs[q].pri == 1) && MayRun(k, p) && forall q :: q in k.procs && MayRun(k, q) ==> p <= q
    ensures Elected(k, false) == Some(p)
  {
    var cs := Candidates(k.procs, Members(k));
    assert cs == [CandidateOf(k.procs, FIRST), CandidateOf(k.procs, SECOND), CandidateOf(k.procs, RECEIVER)];
    assert Best(cs, 1) == if MayRun(k, FIRST) then Some(0) else None;
    assert Best(cs, 2) == if MayRun(k, FIRST) then Some(0) else if MayRun(k, SECOND) then Some(1) else None;
  }

  lemma FirstSends()
    ensures var k, r := Start(), Full(); Enabled(k, Sends()) && Next(k, Sends()) == r
  {
    var k, r := Start(), Full();
    assert [] + [MESSAGE] == [MESSAGE];
    assert Next(k, Sends()).procs == r.procs && Next(k, Sends()).objs == r.objs;
  }

  lemma FirstWaits()
    ensures var k, r := Full(), FirstBlocks(Giving(), Idle(), FIRST); Enabled(k, Sends()) && Next(k, Sends()) == r
  {
    var k, r := Full(), FirstBlocks(Giving(), Idle(), FIRST);
    assert [] + [FIRST] == [FIRST];
    assert Next(k, Sends()).procs == r.procs && Next(k, Sends()).objs == r.objs;
  }

  lemma SecondWaits()
    ensures var k, r := FirstBlocks(Not, Active(), SECOND), SecondBlocks(Giving(), Idle(), SECOND);
            Enabled(k, Sends()) && Next(k, Sends()) == r
  {
    var k, r := FirstBlocks(Not, Active(), SECOND), SecondBlocks(Giving(), Idle(), SECOND);
    assert [FIRST] + [SECOND] == [FIRST, SECOND];
    assert Next(k, Sends()).procs == r.procs && Next(k, Sends()).objs == r.objs;
  }

  /** The receiver takes the message and wakes the first sender. */
  lemma ReceiverTakes()
    ensures var k, r := SecondBlocks(Not, Active(), RECEIVER), Taken();
            Enabled(k, Receives()) && Next(k, Receives()) == r
  {
    var k, r := SecondBlocks(Not, Active(), RECEIVER), Taken();
    assert [MESSAGE][1..] == [] && [FIRST, SECOND][1..] == [SECOND];
    assert Next(k, Receives()).procs == r.procs && Next(k, Receives()).objs == r.objs;
  }

  lemma ReceiverWaits()
    ensures var k, r := Taken(), ReceiverBlocks(Woken(Sending(), Ready), Giving(), RECEIVER);
            Enabled(k, Receives()) && Next(k, Receives()) == r
  {
    var k, r := Taken(), ReceiverBlocks(Woken(Sending(), Ready), Giving(), RECEIVER);
    assert [SECOND] + [RECEIVER] == [SECOND, RECEIVER];
    assert Next(k, Receives()).procs == r.procs && Next(k, Receives()).objs == r.objs;
  }

  /** The first sender fills the ring, and wakes the second one. */
  lemma FirstFills()
    ensures var k, r := ReceiverBlocks(Woken(Sending(), Running), Not, FIRST), SecondWoken();
            Enabled(k, Again()) && Next(k, Again()) == r
  {
    var k, r := ReceiverBlocks(Woken(Sending(), Running), Not, FIRST), SecondWoken();
    assert [] + [MESSAGE] == [MESSAGE] && [SECOND, RECEIVER][1..] == [RECEIVER];
    assert Next(k, Again()).procs == r.procs && Next(k, Again()).objs == r.objs;
  }

  lemma FirstWaitsAgain()
    ensures var k, r := SecondWoken(), FirstAgain(Giving(), Woken(Sending(), Ready), FIRST);
            Enabled(k, Sends()) && Next(k, Sends()) == r
  {
    var k, r := SecondWoken(), FirstAgain(Giving(), Woken(Sending(), Ready), FIRST);
    assert [RECEIVER] + [FIRST] == [RECEIVER, FIRST];
    assert Next(k, Sends()).procs == r.procs && Next(k, Sends()).objs == r.objs;
  }

  lemma SecondWaitsAgain()
    ensures var k, r := FirstAgain(Not, Woken(Sending(), Running), SECOND), Locked();
            Enabled(k, Again()) && Next(k, Again()) == r
  {
    var k, r := FirstAgain(Not, Woken(Sending(), Running), SECOND), Locked();
    assert [RECEIVER, FIRST] + [SECOND] == [RECEIVER, FIRST, SECOND];
    assert Next(k, Again()).procs == r.procs && Next(k, Again()).objs == r.objs;
  }

  lemma ToSecond()
    ensures var k, r := FirstBlocks(Giving(), Idle(), FIRST), FirstBlocks(Not, Active(), SECOND);
            HandsTo(k, SECOND) && Handed(k, SECOND) == r
  {
    var k, r := FirstBlocks(Giving(), Idle(), FIRST), FirstBlocks(Not, Active(), SECOND);
    Chooses(k, SECOND);
    assert Handed(k, SECOND).procs == r.procs;
  }

  lemma ToReceiver()
    ensures var k, r := SecondBlocks(Giving(), Idle(), SECOND), SecondBlocks(Not, Active(), RECEIVER);
            HandsTo(k, RECEIVER) && Handed(k, RECEIVER) == r
  {
    var k, r := SecondBlocks(Giving(), Idle(), SECOND), SecondBlocks(Not, Active(), RECEIVER);
    Chooses(k, RECEIVER);
    assert Handed(k, RECEIVER).procs == r.procs;
  }

  lemma ToFirst()
    ensures var k, r := ReceiverBlocks(Woken(Sending(), Ready), Giving(), RECEIVER), ReceiverBlocks(Woken(Sending(), Running), Not, FIRST);
            HandsTo(k, FIRST) && Handed(k, FIRST) == r
  {
    var k, r := ReceiverBlocks(Woken(Sending(), Ready), Giving(), RECEIVER), ReceiverBlocks(Woken(Sending(), Running), Not, FIRST);
    Chooses(k, FIRST);
    assert Handed(k, FIRST).procs == r.procs;
  }

  lemma BackToSecond()
    ensures var k, r := FirstAgain(Giving(), Woken(Sending(), Ready), FIRST), FirstAgain(Not, Woken(Sending(), Running), SECOND);
            HandsTo(k, SECOND) && Handed(k, SECOND) == r
  {
    var k, r := FirstAgain(Giving(), Woken(Sending(), Ready), FIRST), FirstAgain(Not, Woken(Sending(), Running), SECOND);
    Chooses(k, SECOND);
    assert Handed(k, SECOND).procs == r.procs;
  }

  // ----- the run -----

  lemma RunsToReceiver() returns (steps: seq<Step>)
    ensures AllPlain(steps) && Runs(Start(), steps) && AlwaysFitting(Start(), steps) && Final(Start(), steps) == SecondBlocks(Not, Active(), RECEIVER)
  {
    var k := Start();
    FirstSends(); FirstWaits(); ToSecond(); SecondWaits(); ToReceiver();
    steps := Then(k, [], k, Sends(), Full());
    steps := Then(k, steps, Full(), Sends(), FirstBlocks(Giving(), Idle(), FIRST));
    steps := HandsOver(k, steps, FirstBlocks(Giving(), Idle(), FIRST), SECOND);
    steps := Then(k, steps, FirstBlocks(Not, Active(), SECOND), Sends(), SecondBlocks(Giving(), Idle(), SECOND));
    steps := HandsOver(k, steps, SecondBlocks(Giving(), Idle(), SECOND), RECEIVER);
  }

  lemma RunsToFirst(was: seq<Step>) returns (steps: seq<Step>)
    requires AllPlain(was) && Runs(Start(), was) && AlwaysFitting(Start(), was) && Final(Start(), was) == SecondBlocks(Not, Active(), RECEIVER)
    ensures AllPlain(steps) && Runs(Start(), steps) && AlwaysFitting(Start(), steps)
    ensures Final(Start(), steps) == ReceiverBlocks(Woken(Sending(), Running), Not, FIRST)
  {
    var k := Start();
    ReceiverTakes(); ReceiverWaits(); ToFirst();
    steps := Then(k, was, SecondBlocks(Not, Active(), RECEIVER), Receives(), Taken());
    steps := Then(k, steps, Taken(), Receives(), ReceiverBlocks(Woken(Sending(), Ready), Giving(), RECEIVER));
    steps := HandsOver(k, steps, ReceiverBlocks(Woken(Sending(), Ready), Giving(), RECEIVER), FIRST);
  }

  lemma RunsToLocked(was: seq<Step>) returns (steps: seq<Step>)
    requires AllPlain(was) && Runs(Start(), was) && AlwaysFitting(Start(), was)
    requires Final(Start(), was) == ReceiverBlocks(Woken(Sending(), Running), Not, FIRST)
    ensures AllPlain(steps) && Runs(Start(), steps) && AlwaysFitting(Start(), steps) && Final(Start(), steps) == Locked()
  {
    var k := Start();
    FirstFills(); FirstWaitsAgain(); BackToSecond(); SecondWaitsAgain();
    steps := Then(k, was, ReceiverBlocks(Woken(Sending(), Running), Not, FIRST), Again(), SecondWoken());
    steps := Then(k, steps, SecondWoken(), Sends(), FirstAgain(Giving(), Woken(Sending(), Ready), FIRST));
    steps := HandsOver(k, steps, FirstAgain(Giving(), Woken(Sending(), Ready), FIRST), SECOND);
    steps := Then(k, steps, FirstAgain(Not, Woken(Sending(), Running), SECOND), Again(), Locked());
  }

  // ----- for ever -----

  /** Everybody waits for a transfer through o, no timer is queued, and the search under way finds nobody. */
  ghost predicate Dead(k: Kernel, o: ObjId) {
    && (forall p :: p in k.procs ==> BlockedOn(k, p, o))
    && k.queue == [] && Searching(k) && (SearchOf(k).Looking? ==> SearchOf(k).best.None?)
  }

  /** Who waits is as before, and waits for the same. */
  ghost predicate SameWaits(k: Kernel, m: Kernel) {
    m.objs == k.objs && m.procs.Keys == k.procs.Keys && forall p :: p in k.procs ==> m.procs[p].pc == k.procs[p].pc
  }

  lemma FindsNobody(k: Kernel, s: Search)
    requires (forall p :: p in k.procs ==> !MayRun(k, p)) && (s.Looking? ==> s.best.None?)
    ensures Scanned(k, s).Looking? ==> Scanned(k, s).best.None?
  {
    if s.Looking? && s.todo != [] {
      assert !CandidateOf(k.procs, s.todo[0]).mayRun;
    }
  }

  ghost predicate SameStates(k: Kernel, m: Kernel) {
    && m.procs.Keys == k.procs.Keys && m.objs == k.objs && m.queue == k.queue
    && forall p :: p in k.procs ==>
         m.procs[p].state == k.procs[p].state && m.procs[p].reason == k.procs[p].reason && m.procs[p].pc == k.procs[p].pc
  }

  lemma GivingFrame(k: Kernel, q: Proc, m: Kernel)
    requires k.cur in k.procs && m == WithProc(k, k.cur, q)
    requires q.state == k.procs[k.cur].state && q.reason == k.procs[k.cur].reason && q.pc == k.procs[k.cur].pc
    ensures SameStates(k, m)
  {
  }

  lemma ModeFrame(k: Kernel, mode: Mode, m: Kernel)
    requires m == k.(mode := mode)
    ensures SameStates(k, m)
  {
  }

  lemma SearchFrame(k: Kernel, s: Search, m: Kernel)
    requires Searching(k) && m == WithSearch(k, s)
    ensures SameStates(k, m)
  {
    if k.mode.Electing? {
      ModeFrame(k, Electing(s), m);
    } else {
      GivingFrame(k, k.procs[k.cur].(giving := Yes(s), pc := k.procs[k.cur].pc), m);
    }
  }

  lemma DeadScans(k: Kernel, s: Search, m: Kernel, o: ObjId)
    requires Dead(k, o) && s == Scanned(k, SearchOf(k)) && m == WithSearch(k, s)
    ensures Dead(m, o) && SameWaits(k, m)
  {
    forall p | p in k.procs ensures !MayRun(k, p) { assert BlockedOn(k, p, o); }
    FindsNobody(k, SearchOf(k));
    SearchFrame(k, s, m);
    SearchAgrees(k, m, s);
    forall p | p in m.procs ensures BlockedOn(m, p, o) { assert BlockedOn(k, p, o); }
  }

  lemma DeadStays(k: Kernel, s: Step, m: Kernel, o: ObjId)
    requires Dead(k, o) && Enabled(k, s) && m == Next(k, s)
    ensures Dead(m, o) && SameWaits(k, m)
  {
    if s.Scan? {
      DeadScans(k, Scanned(k, SearchOf(k)), m, o);
    } else {
      assert s.Interrupt? && m == k;
    }
  }

  lemma {:induction false} DeadForEver(k: Kernel, more: seq<Step>, o: ObjId)
    requires Dead(k, o) && Runs(k, more)
    ensures Dead(Final(k, more), o) && SameWaits(k, Final(k, more))
    decreases |more|
  {
    if more != [] {
      DeadForEver(k, more[..|more| - 1], o);
      DeadStays(Final(k, more[..|more| - 1]), more[|more| - 1], Final(k, more), o);
    }
  }

  /** The receiver waits on a full ring, and so do both senders. */
  ghost predicate Deadlocked(m: Kernel) {
    && 0 in m.objs && m.objs[0].Ring? && m.objs[0].msgs == [MESSAGE] && m.objs[0].cap == 1
    && BlockedOn(m, RECEIVER, 0) && m.procs[RECEIVER].pc.x.op == Recv
    && BlockedOn(m, FIRST, 0) && m.procs[FIRST].pc.x.op.Send? && BlockedOn(m, SECOND, 0) && m.procs[SECOND].pc.x.op.Send?
  }

  lemma LockedStays(more: seq<Step>)
    requires Runs(Locked(), more)
    ensures Deadlocked(Final(Locked(), more))
  {
    assert Dead(Locked(), 0);
    DeadForEver(Locked(), more, 0);
  }

  /** From boot, with calls without timeouts and no interrupt, three processes come to wait for ever on a channel
      that holds a message for one of them. */
  lemma Deadlock() returns (k: Kernel, steps: seq<Step>)
    ensures Boot(k) && Runs(k, steps) && AlwaysFitting(k, steps) && AllPlain(steps)
    ensures forall more :: Runs(Final(k, steps), more) ==> Deadlocked(Final(Final(k, steps), more))
  {
    Boots();
    k := Start();
    steps := RunsToReceiver();
    steps := RunsToFirst(steps);
    steps := RunsToLocked(steps);
    forall more | Runs(Locked(), more) ensures Deadlocked(Final(Locked(), more)) {
      LockedStays(more);
    }
  }
}
