/** Who may transfer through an object: over every run a message enters or leaves an object, and what it shows changes,
    only while a partition is current that holds an identifier for it, of the right kind and direction. */
module KernelAccess {
  import opened Common
  import opened TimerQueue
  import opened KernelSpec
  import opened KernelInv
  import opened KernelSteps
  import opened KernelCalls
  import opened KernelTimer
  import opened KernelFifo
  import opened KernelRuns
  import opened KernelWakeups
  import opened KernelDeadlines
  import opened KernelRounds
  import opened KernelServing

  // ----- identifiers -----

  /** Partition a holds an identifier of this kind for object o. */
  ghost predicate Holds(k: Kernel, a: Part, kind: Kind, o: ObjId, dir: Option<Dir>) {
    exists id :: HeldAs(k, a, kind, id, o, dir)
  }

  ghost predicate HeldAs(k: Kernel, a: Part, kind: Kind, id: nat, o: ObjId, dir: Option<Dir>) {
    && (kind, id) in k.handles && k.handles[(kind, id)].part == a && k.handles[(kind, id)].obj == o
    && o in k.objs && k.objs[o].KindOf() == kind
    && (dir.Some? ==> k.handles[(kind, id)].dir == dir.value)
  }

  /** The direction an identifier of this kind is to have. */
  function PortDir(kind: Kind, dir: Dir): Option<Dir> { if kind == PortKind then Some(dir) else None }

  /** Partition a may put this message into ring o: it holds the buffer, or the port as its source, and the message is
      neither empty nor too long. */
  ghost predicate MaySend(k: Kernel, a: Part, o: ObjId, m: Msg) {
    && o in k.objs && 0 < |m| <= k.objs[o].maxSize
    && (Holds(k, a, BufferKind, o, None) || Holds(k, a, PortKind, o, Some(Source)))
  }

  /** Partition a may take messages out of ring o: it holds the buffer, or the port as its destination. */
  ghost predicate MayReceive(k: Kernel, a: Part, o: ObjId) {
    Holds(k, a, BufferKind, o, None) || Holds(k, a, PortKind, o, Some(Destination))
  }

  ghost predicate MayTransfer(k: Kernel, a: Part, x: Xfer) {
    match x.op
    case Send(m) => MaySend(k, a, x.obj, m)
    case Recv => MayReceive(k, a, x.obj)
    case Read => Holds(k, a, BoardKind, x.obj, None)
  }

  /** What partition a may do at an object. */
  ghost predicate MayDo(k: Kernel, a: Part, e: Entry) {
    match e
    case Sent(o, m) => MaySend(k, a, o, m)
    case Received(o, _) => MayReceive(k, a, o)
    case Shown(o, m) => Holds(k, a, BoardKind, o, None) && 0 < |m| <= k.objs[o].maxSize
    case Seen(o, _) => Holds(k, a, BoardKind, o, None)
    case Cleared(o) => Holds(k, a, BoardKind, o, None) || Holds(k, a, PortKind, o, Some(Destination))
    case Failed(_, _) => true
  }

  // ----- calls -----

  lemma AskedMay(k: Kernel, c: Call, x: Xfer)
    requires Asked(k, c) == Some(x)
    ensures MayTransfer(k, k.part, x)
  {
    match c
    case SendTo(kind, id, msg, _) =>
      assert HeldAs(k, k.part, kind, id, x.obj, PortDir(kind, Source));
    case ReceiveFrom(kind, id, _) =>
      assert HeldAs(k, k.part, kind, id, x.obj, PortDir(kind, Destination));
    case ReadBoard(id, _) => assert HeldAs(k, k.part, BoardKind, id, x.obj, None);
  }

  /** A send is tried exactly if the caller's partition holds the identifier, a port as its source, and the message is
      neither empty nor too long. */
  lemma SendTriedExactly(k: Kernel, kind: Kind, id: nat, msg: Msg, timeout: int)
    ensures Asked(k, SendTo(kind, id, msg, timeout)).Some? <==>
              kind != BoardKind && exists o :: HeldAs(k, k.part, kind, id, o, PortDir(kind, Source))
                                            && 0 < |msg| <= k.objs[o].maxSize
  {
    if Asked(k, SendTo(kind, id, msg, timeout)).Some? {
      assert HeldAs(k, k.part, kind, id, k.handles[(kind, id)].obj, PortDir(kind, Source));
    }
  }

  lemma ReceiveTriedExactly(k: Kernel, kind: Kind, id: nat, timeout: int)
    ensures Asked(k, ReceiveFrom(kind, id, timeout)).Some? <==>
              kind != BoardKind && exists o :: HeldAs(k, k.part, kind, id, o, PortDir(kind, Destination))
  {
    if Asked(k, ReceiveFrom(kind, id, timeout)).Some? {
      assert HeldAs(k, k.part, kind, id, k.handles[(kind, id)].obj, PortDir(kind, Destination));
    }
  }

  lemma ReadTriedExactly(k: Kernel, id: nat, timeout: int)
    requires KindsOk(k)
    ensures Asked(k, ReadBoard(id, timeout)).Some? <==> exists o :: HeldAs(k, k.part, BoardKind, id, o, None)
  {
    if Asked(k, ReadBoard(id, timeout)).Some? {
      assert HeldAs(k, k.part, BoardKind, id, k.handles[(BoardKind, id)].obj, None);
    }
  }

  /** A call that is not tried changes nothing. */
  lemma UntriedChangesNothing(k: Kernel, c: Call, t0: int, t1: int, t2: int)
    requires k.cur in k.procs && (c.SendTo? || c.ReceiveFrom? || c.ReadBoard?) && Asked(k, c).None?
    ensures Syscall(k, c, t0, t1, t2) == k
  {
  }

  /** Every loop is in a transfer that the partition of its process may do. */
  ghost predicate LoopsMay(k: Kernel) {
    forall p :: p in k.procs && k.procs[p].pc.Retry? ==> MayTransfer(k, k.procs[p].part, k.procs[p].pc.x)
  }

  lemma HoldsStill(k: Kernel, r: Kernel, a: Part, kind: Kind, o: ObjId, dir: Option<Dir>)
    requires Static(k, r)
    ensures Holds(k, a, kind, o, dir) <==> Holds(r, a, kind, o, dir)
  {
    forall id ensures HeldAs(k, a, kind, id, o, dir) <==> HeldAs(r, a, kind, id, o, dir) {
    }
  }

  lemma MayStill(k: Kernel, r: Kernel, a: Part, x: Xfer)
    requires Static(k, r)
    ensures MayTransfer(k, a, x) <==> MayTransfer(r, a, x)
  {
    HoldsStill(k, r, a, BufferKind, x.obj, None);
    HoldsStill(k, r, a, PortKind, x.obj, Some(Source));
    HoldsStill(k, r, a, PortKind, x.obj, Some(Destination));
    HoldsStill(k, r, a, BoardKind, x.obj, None);
  }

  /** The transfer a loop of r is in was asked for in this step, or was in hand before. */
  lemma LoopFrom(k: Kernel, s: Step, r: Kernel, p: Pid)
    requires Good(k) && Enabled(k, s) && r == Next(k, s) && p in k.procs && p in r.procs && r.procs[p].pc.Retry?
    ensures (k.procs[p].pc.Retry? && r.procs[p].pc.x == k.procs[p].pc.x)
         || (k.cur == p && s.Enter? && Asked(k, s.call) == Some(r.procs[p].pc.x))
  {
    if !Acts(k, s, p) {
      PcStays(k, s, p);
    } else if s.Enter? {
      KindsSound(k);
      EnterSets(k, s.call, s.t0, s.t1, s.t2, r);
    } else if k.procs[p].pc.Retry? {
      ResumeSets(k, s.t, s.t1, s.t2, r);
    }
  }

  lemma StepLoopsMay(k: Kernel, s: Step, r: Kernel)
    requires Good(k) && LoopsMay(k) && Enabled(k, s) && r == Next(k, s) && Static(k, r)
    ensures LoopsMay(r)
  {
    forall p | p in r.procs && r.procs[p].pc.Retry? ensures MayTransfer(r, r.procs[p].part, r.procs[p].pc.x) {
      LoopFrom(k, s, r, p);
      if k.cur == p && s.Enter? && Asked(k, s.call) == Some(r.procs[p].pc.x) { AskedMay(k, s.call, r.procs[p].pc.x); }
      MayStill(k, r, k.procs[p].part, r.procs[p].pc.x);
    }
  }

  // ----- what a step logs -----

  /** The step adds this entry to the history. */
  ghost predicate Logs(k: Kernel, r: Kernel, e: Entry) {
    r.log == k.log + [e]
  }

  lemma OneEntry(k: Kernel, r: Kernel, e: Entry, f: Entry)
    requires Logs(k, r, e) && Logs(k, r, f)
    ensures e == f
  {
    EntryAppended(k.log, e);
    EntryAppended(k.log, f);
  }

  lemma AttemptMay(k: Kernel, s: Step, x: Xfer, outer: int, r: Kernel, e: Entry)
    requires Good(k) && Enabled(k, s) && Attempts(k, s) == Some(x) && outer == Deadline(k, s, x) && r == Next(k, s)
    requires MayTransfer(k, k.part, x) && Logs(k, r, e)
    ensures MayDo(k, k.part, e)
  {
    AttemptLeads(k, s, x, outer, r);
    EntryAppended(k.log, e);
    if Refused(k, r, x, NotAvailable) {
      OneEntry(k, r, e, Failed(x.obj, NotAvailable));
    } else if Refused(k, r, x, TimedOut) {
      OneEntry(k, r, e, Failed(x.obj, TimedOut));
    }
  }

  lemma DisplayMay(k: Kernel, id: nat, msg: Msg, r: Kernel, e: Entry)
    requires k.cur in k.procs && r == DoDisplay(k, id, msg) && Logs(k, r, e)
    ensures MayDo(k, k.part, e)
  {
    if HasBoard(k, id) && 0 < |msg| <= k.objs[k.handles[(BoardKind, id)].obj].maxSize {
      var o := k.handles[(BoardKind, id)].obj;
      QuietWakeAll(Logged(WithObj(k, o, Board(k.objs[o].maxSize, msg, true, k.objs[o].waiting)), Shown(o, msg)), o);
      OneEntry(k, r, e, Shown(o, msg));
      assert HeldAs(k, k.part, BoardKind, id, o, None);
    }
  }

  lemma ClearBoardMay(k: Kernel, id: nat, r: Kernel, e: Entry)
    requires r == DoClearBoard(k, id) && Logs(k, r, e)
    ensures MayDo(k, k.part, e)
  {
    if HasBoard(k, id) {
      var o := k.handles[(BoardKind, id)].obj;
      OneEntry(k, r, e, Cleared(o));
      assert HeldAs(k, k.part, BoardKind, id, o, None);
    }
  }

  lemma ClearPortMay(k: Kernel, id: nat, r: Kernel, e: Entry)
    requires k.cur in k.procs && r == Syscall(k, ClearPort(id), 0, 0, 0) && Logs(k, r, e)
    ensures MayDo(k, k.part, e)
  {
    if ReceiveCheck(k, PortKind, id) == NoError && k.objs[k.handles[(PortKind, id)].obj].Ring? {
      var h := k.handles[(PortKind, id)];
      ClearIs(k, h, WakeOne(k, h.obj, h.disc), r);
      OneEntry(k, r, e, Cleared(h.obj));
      assert HeldAs(k, k.part, PortKind, id, h.obj, Some(Destination));
    }
  }

  lemma CallMay(k: Kernel, s: Step, r: Kernel, e: Entry)
    requires Good(k) && Enabled(k, s) && s.Enter? && Attempts(k, s).None? && r == Next(k, s) && Logs(k, r, e)
    ensures MayDo(k, k.part, e)
  {
    if !Communicates(s.call) {
      QuietCall(k, s.call, s.t0, s.t1, s.t2);
    } else {
      match s.call
      case Display(id, msg) => DisplayMay(k, id, msg, r, e);
      case ClearBoard(id) => ClearBoardMay(k, id, r, e);
      case ClearPort(id) => ClearPortMay(k, id, r, e);
      case _ =>
    }
  }

  lemma OtherMay(k: Kernel, s: Step, r: Kernel, e: Entry)
    requires Enabled(k, s) && !s.Enter? && Attempts(k, s).None? && r == Next(k, s) && Logs(k, r, e)
    ensures MayDo(k, k.part, e)
  {
    match s
    case Continue(t, t1, t2) =>
      if k.procs[k.cur].pc.Retry? {
        LoopTimesOut(k, t, t1, t2, r);
        OneEntry(k, r, e, Failed(k.procs[k.cur].pc.x.obj, TimedOut));
      }
    case Interrupt(t, nextPart, nextTime) => QuietTick(k, t, nextPart, nextTime);
    case _ => QuietElections(k, s);
  }

  /** Whatever a step logs the current partition may do. */
  lemma StepMay(k: Kernel, s: Step, r: Kernel, e: Entry)
    requires Good(k) && LoopsMay(k) && Enabled(k, s) && r == Next(k, s) && Logs(k, r, e)
    ensures MayDo(k, k.part, e)
  {
    var a := Attempts(k, s);
    if a.Some? {
      if s.Enter? { AskedMay(k, s.call, a.value); }
      AttemptMay(k, s, a.value, Deadline(k, s, a.value), r, e);
    } else if s.Enter? {
      CallMay(k, s, r, e);
    } else {
      OtherMay(k, s, r, e);
    }
  }

  // ----- over runs -----

  lemma {:induction false} RunLoopsMay(k: Kernel, steps: seq<Step>)
    requires Boot(k) && Runs(k, steps) && AlwaysFitting(k, steps)
    ensures LoopsMay(Final(k, steps))
    decreases |steps|
  {
    if steps == [] {
      forall p | p in k.procs ensures !k.procs[p].pc.Retry? { NoLoopYet(k, p); }
    } else {
      var before := steps[..|steps| - 1];
      RunSound(k, before);
      RunLoopsMay(k, before);
      StepFaithful(Final(k, before), steps[|steps| - 1]);
      StepLoopsMay(Final(k, before), steps[|steps| - 1], Final(k, steps));
    }
  }

  /** Partitions are kept apart: over every fitting run, when a message is sent or received, or a board shown, read or
      cleared, or a port cleared, the partition then current holds an identifier for that object, of its kind, and of the
      direction for a port. */
  lemma OnlyOwnObjects(k: Kernel, steps: seq<Step>, s: Step, e: Entry)
    requires Boot(k) && Runs(k, steps) && AlwaysFitting(k, steps) && Enabled(Final(k, steps), s)
    requires Logs(Final(k, steps), Next(Final(k, steps), s), e)
    ensures MayDo(Final(k, steps), Final(k, steps).part, e)
  {
    RunSound(k, steps);
    RunLoopsMay(k, steps);
    StepMay(Final(k, steps), s, Next(Final(k, steps), s), e);
  }

  /** And the contents of an object change only so. */
  lemma OnlyOwnContents(k: Kernel, steps: seq<Step>, s: Step, o: ObjId)
    requires Boot(k) && Runs(k, steps) && AlwaysFitting(k, steps) && Enabled(Final(k, steps), s)
    requires o in Final(k, steps).objs && o in Next(Final(k, steps), s).objs
    requires !SameContents(Final(k, steps).objs[o], Next(Final(k, steps), s).objs[o])
    ensures exists e: Entry :: e.obj == o && Logs(Final(k, steps), Next(Final(k, steps), s), e) && MayDo(Final(k, steps), Final(k, steps).part, e)
  {
    var m := Final(k, steps);
    var r := Next(m, s);
    RunSound(k, steps);
    StepMoves(m, s);
    var e := r.log[|r.log| - 1];
    OnlyOwnObjects(k, steps, s, e);
    assert e.obj == o && Logs(m, r, e);
  }
}
