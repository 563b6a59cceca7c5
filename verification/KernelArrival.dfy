/** The order on a wait list is the order of arrival, over every run: whoever came first and still waits stands first,
    and under FIFO is served first. */
module KernelArrival {
  import opened Common
  import opened TimerQueue
  import opened KernelSpec
  import opened KernelInv
  import opened KernelSteps
  import opened KernelCalls
  import opened KernelTimer
  import opened KernelFifo
  import opened KernelRuns
  import opened KernelWakeups
  import opened KernelDeadlines
  import opened KernelServing
  import opened KernelServices
  import opened KernelTicks

  // ----- how a list changes -----

  /** p stands on the list before q. */
  predicate Before(ps: seq<Pid>, p: Pid, q: Pid) {
    ps != [] && ((ps[0] == p && q in ps[1..]) || Before(ps[1..], p, q))
  }

  lemma {:induction false} BeforeListed(ps: seq<Pid>, p: Pid, q: Pid)
    requires Before(ps, p, q)
    ensures p in ps && q in ps && q in ps[1..]
  {
    if !(ps[0] == p && q in ps[1..]) { BeforeListed(ps[1..], p, q); }
  }

  lemma {:induction false} BeforeLast(ps: seq<Pid>, p: Pid, q: Pid)
    requires p in ps
    ensures Before(ps + [q], p, q)
  {
    assert (ps + [q])[1..] == ps[1..] + [q];
    if ps[0] != p { BeforeLast(ps[1..], p, q); } else { assert q in (ps + [q])[1..]; }
  }

  lemma {:induction false} BeforeAppended(ps: seq<Pid>, p: Pid, q: Pid, x: Pid)
    requires Before(ps, p, q)
    ensures Before(ps + [x], p, q)
  {
    assert (ps + [x])[1..] == ps[1..] + [x];
    if ps[0] == p && q in ps[1..] { assert q in (ps + [x])[1..]; } else { BeforeAppended(ps[1..], p, q, x); }
  }

  lemma {:induction false} BeforeWithout(ps: seq<Pid>, p: Pid, q: Pid, x: Pid)
    requires Before(ps, p, q) && x != p && x != q
    ensures Before(Without(ps, x), p, q)
  {
    if ps[0] != x {
      var rest := Without(ps[1..], x);
      assert Without(ps, x)[1..] == rest;
      if ps[0] == p && q in ps[1..] { StaysIn(ps[1..], q, x); } else { BeforeWithout(ps[1..], p, q, x); }
    }
  }

  lemma {:induction false} StaysIn(ps: seq<Pid>, q: Pid, x: Pid)
    requires q in ps && q != x
    ensures q in Without(ps, x)
  {
    if ps[0] != x && ps[0] != q { StaysIn(ps[1..], q, x); }
  }

  /** Some have left the list; the others stand as they stood. */
  ghost predicate Thinned(ps: seq<Pid>, qs: seq<Pid>) {
    && (forall p :: p in qs ==> p in ps)
    && forall p, q :: Before(ps, p, q) && p in qs && q in qs ==> Before(qs, p, q)
  }

  /** Or one has come, last. */
  ghost predicate Evolves(ps: seq<Pid>, qs: seq<Pid>) {
    Thinned(ps, qs) || exists x :: qs == ps + [x]
  }

  lemma ThinnedThen(ps: seq<Pid>, ms: seq<Pid>, qs: seq<Pid>)
    requires Thinned(ps, ms) && Thinned(ms, qs)
    ensures Thinned(ps, qs)
  {
  }

  lemma WithoutThinned(ps: seq<Pid>, x: Pid)
    requires Distinct(ps)
    ensures Thinned(ps, Without(ps, x))
  {
    WithoutMembers(ps, x);
    forall p, q | Before(ps, p, q) && p in Without(ps, x) && q in Without(ps, x) ensures Before(Without(ps, x), p, q) {
      BeforeWithout(ps, p, q, x);
    }
  }

  /** No list has anybody new. */
  ghost predicate ListsThin(k: Kernel, r: Kernel) {
    r.objs.Keys == k.objs.Keys && forall o :: o in k.objs ==> Thinned(k.objs[o].waiting, r.objs[o].waiting)
  }

  lemma SameThin(k: Kernel, r: Kernel)
    requires r.objs.Keys == k.objs.Keys && forall o :: o in k.objs ==> r.objs[o].waiting == k.objs[o].waiting
    ensures ListsThin(k, r)
  {
  }

  lemma OneThinned(k: Kernel, r: Kernel, o: ObjId)
    requires AtRing(k, r, o) && o in k.objs && o in r.objs && Thinned(k.objs[o].waiting, r.objs[o].waiting)
    ensures ListsThin(k, r)
  {
  }

  lemma ServedThin(k: Kernel, r: Kernel, o: ObjId, disc: Disc)
    requires ServesOne(k, r, o, disc) && AtRing(k, r, o) && Distinct(k.objs[o].waiting)
    ensures ListsThin(k, r)
  {
    if !ServesNobody(k, r, o) {
      var i :| Serves(k, r, o, disc, i);
      WithoutAt(k.objs[o].waiting, i);
      WithoutThinned(k.objs[o].waiting, k.objs[o].waiting[i]);
    }
    OneThinned(k, r, o);
  }

  // ----- calls -----

  lemma SameObjs(k: Kernel, r: Kernel)
    requires r.objs == k.objs
    ensures ListsThin(k, r)
  {
    SameThin(k, r);
  }

  lemma StartObjs(k: Kernel, p: Pid, delay: int, t: int, due: int, r: Kernel)
    requires k.cur in k.procs && k.procs[k.cur].state == Running && due == t + delay && r == DoStart(k, p, delay, t)
    ensures r.objs == k.objs
  {
    if !Startable(k, p, delay) {
      StartNot(k, p, delay, t, r);
    } else if !NormalPart(k) || k.procs[p].Periodic() {
      StartNotedIs(k, p, delay, t, r);
    } else if delay == 0 {
      StartReadyIs(k, p, t, r);
    } else {
      StartLaterIs(k, p, delay, t, due, r);
    }
  }

  lemma SuspendSelfObjs(k: Kernel, timeout: int, t: int, due: int, r: Kernel)
    requires k.cur in k.procs && due == t + timeout && r == DoSuspendSelf(k, timeout, t)
    ensures r.objs == k.objs
  {
    if k.procs[k.cur].Periodic() || timeout == 0 {
      SuspendSelfNot(k, timeout, t, r);
    } else if timeout < INFINITE {
      SuspendTimedIs(k, timeout, t, due, r);
    } else {
      SuspendForEverIs(k, timeout, t, r);
    }
  }

  lemma ResumeObjs(k: Kernel, p: Pid, r: Kernel)
    requires Calling(k) && r == DoResume(k, p)
    ensures r.objs == k.objs
  {
    if Resumable(k, p) { assert ProcOk(k, p); ResumeIs(k, p, r); } else { ResumeNot(k, p, r); }
  }

  lemma OtherObjs(k: Kernel, c: Call, t0: int, t1: int, t2: int, r: Kernel)
    requires Calling(k) && (c.Suspend? || c.ResumeProc? || c.Stop? || c.SetPriority?) && r == Syscall(k, c, t0, t1, t2)
    ensures r.objs == k.objs
  {
    match c
    case Suspend(p) => if Suspendable(k, p) { SuspendIs(k, p, r); } else { SuspendNot(k, p, r); }
    case ResumeProc(p) => ResumeObjs(k, p, r);
    case Stop(p) => if Alive(k, p) { StopIs(k, p, r); } else { StopNot(k, p, r); }
    case SetPriority(p, pri) => if Alive(k, p) { SetPriorityIs(k, p, pri, r); } else { SetPriorityNot(k, p, pri, r); }
  }

  lemma ModeObjs(k: Kernel, op: OpMode)
    requires k.cur in k.procs
    ensures DoSetMode(k, op).objs == k.objs
  {
  }

  /** The process services leave every list alone. */
  lemma ServiceObjs(k: Kernel, c: Call, t0: int, t1: int, t2: int, r: Kernel)
    requires Calling(k) && !Communicates(c) && r == Syscall(k, c, t0, t1, t2)
    ensures r.objs == k.objs
  {
    match c
    case SuspendSelf(timeout) => SuspendSelfObjs(k, timeout, t0, t0 + timeout, r);
    case StopSelf => StopSelfIs(k, r);
    case Start(p, delay) => assert ProcOk(k, k.cur); StartObjs(k, p, delay, t0, t0 + delay, r);
    case Wait(delay) => WaitIs(k, delay, t0, t0 + delay, r);
    case SetMode(op) => ModeObjs(k, op);
    case _ => OtherObjs(k, c, t0, t1, t2, r);
  }

  lemma DisplayThin(k: Kernel, id: nat, msg: Msg, r: Kernel)
    requires Calling(k) && r == DoDisplay(k, id, msg)
    ensures ListsThin(k, r)
  {
    if HasBoard(k, id) && 0 < |msg| <= k.objs[k.handles[(BoardKind, id)].obj].maxSize {
      var o := k.handles[(BoardKind, id)].obj;
      DisplayServes(k, id, msg, o, r);
      OneThinned(k, r, o);
    } else {
      SameThin(k, r);
    }
  }

  lemma ClearThin(k: Kernel, id: nat, r: Kernel)
    requires Calling(k) && r == Syscall(k, ClearPort(id), 0, 0, 0)
    ensures ListsThin(k, r)
  {
    if ReceiveCheck(k, PortKind, id) == NoError && k.objs[k.handles[(PortKind, id)].obj].Ring? {
      var h := k.handles[(PortKind, id)];
      SoundAwaiting(k, h.obj);
      ClearServes(k, h, r);
      if |k.objs[h.obj].msgs| == k.objs[h.obj].cap { ServedThin(k, r, h.obj, h.disc); } else { SameThin(k, r); }
    } else {
      SameThin(k, r);
    }
  }

  lemma TalkThin(k: Kernel, c: Call, t0: int, t1: int, t2: int, r: Kernel)
    requires Calling(k) && Communicates(c) && Asked(k, c).None? && r == Syscall(k, c, t0, t1, t2)
    ensures ListsThin(k, r)
  {
    match c
    case Display(id, msg) => DisplayThin(k, id, msg, r);
    case ClearPort(id) => ClearThin(k, id, r);
    case _ => SameThin(k, r);
  }

  lemma OtherThin(k: Kernel, s: Step, r: Kernel)
    requires Good(k) && Enabled(k, s) && s.Enter? && Attempts(k, s).None? && r == Next(k, s)
    ensures ListsThin(k, r)
  {
    if Communicates(s.call) {
      TalkThin(k, s.call, s.t0, s.t1, s.t2, r);
    } else {
      ServiceObjs(k, s.call, s.t0, s.t1, s.t2, r);
      SameObjs(k, r);
    }
  }

  // ----- steps -----

  /** No list has anybody new, but for the current process last on the list of o. */
  ghost predicate ListsEvolve(k: Kernel, r: Kernel) {
    r.objs.Keys == k.objs.Keys && forall o :: o in k.objs ==> Evolves(k.objs[o].waiting, r.objs[o].waiting)
  }

  lemma ThinEvolves(k: Kernel, r: Kernel)
    requires ListsThin(k, r)
    ensures ListsEvolve(k, r)
  {
  }

  lemma JoinEvolves(k: Kernel, r: Kernel, x: Xfer)
    requires JoinsLast(k, r, x)
    ensures ListsEvolve(k, r)
  {
    forall o | o in k.objs ensures Evolves(k.objs[o].waiting, r.objs[o].waiting) {
      if o == x.obj { assert r.objs[o].waiting == k.objs[o].waiting + [k.cur]; }
    }
  }

  lemma DoneThin(k: Kernel, s: Step, x: Xfer, r: Kernel)
    requires Good(k) && Enabled(k, s) && r == Next(k, s) && Done(k, r, x) && Suits(k.objs[x.obj], x.op)
    ensures ListsThin(k, r)
  {
    if x.op.Read? {
      SameObjs(k, r);
    } else {
      StepServes(k, s, x.obj, r);
      assert ObjOk(k, x.obj);
      ServedThin(k, r, x.obj, DiscOf(k, s));
    }
  }

  lemma AttemptEvolves(k: Kernel, s: Step, x: Xfer, outer: int, r: Kernel)
    requires Good(k) && Enabled(k, s) && Attempts(k, s) == Some(x) && outer == Deadline(k, s, x) && r == Next(k, s)
    ensures ListsEvolve(k, r)
  {
    AttemptLeads(k, s, x, outer, r);
    if Done(k, r, x) {
      DoneThin(k, s, x, r);
      ThinEvolves(k, r);
    } else if JoinsLast(k, r, x) {
      JoinEvolves(k, r, x);
    } else {
      SameObjs(k, r);
      ThinEvolves(k, r);
    }
  }

  lemma FireThin(k: Kernel, r: Kernel)
    requires Inv(k) && k.queue != [] && r == Fire(k)
    ensures ListsThin(k, r)
  {
    var w := k.queue[0].what;
    if w.BlockTimeout? && w.ctx in k.ctxs && k.ctxs[w.ctx].obj in k.objs {
      var c := k.ctxs[w.ctx];
      assert ObjOk(k, c.obj);
      WithoutThinned(k.objs[c.obj].waiting, c.proc);
    }
  }

  lemma ThinThen(k: Kernel, m: Kernel, r: Kernel)
    requires ListsThin(k, m) && ListsThin(m, r)
    ensures ListsThin(k, r)
  {
    forall o | o in k.objs ensures Thinned(k.objs[o].waiting, r.objs[o].waiting) {
      ThinnedThen(k.objs[o].waiting, m.objs[o].waiting, r.objs[o].waiting);
    }
  }

  lemma {:induction false} FireDueThin(k: Kernel, t: int)
    requires Inv(k)
    ensures ListsThin(k, FireDue(k, t))
    decreases |k.queue|
  {
    if k.queue == [] || k.queue[0].time > t {
      SameThin(k, k);
    } else {
      FireKeeps(k, Fire(k));
      FireThin(k, Fire(k));
      FireDueThin(Fire(k), t);
      ThinThen(k, Fire(k), FireDue(Fire(k), t));
    }
  }

  lemma TickObjs(k: Kernel, t: int, nextPart: Part, nextTime: int, r: Kernel)
    requires r == Tick(k, t, nextPart, nextTime)
    ensures r.objs == FireDue(k, t).objs
  {
    TickBegins(k, t, nextPart, nextTime, FireDue(k, t), r);
  }

  lemma SearchObjs(k: Kernel, s: Search, r: Kernel)
    requires Searching(k) && r == WithSearch(k, s)
    ensures r.objs == k.objs
  {
    if k.mode == Executing { CurObjs(k, Yes(s), k.procs[k.cur].pc, r); }
  }

  lemma CurObjs(k: Kernel, giving: Giving, pc: Pc, r: Kernel)
    requires k.cur in k.procs && r == SetCur(k, giving, pc)
    ensures r.objs == k.objs
  {
  }

  lemma PreemptObjs(k: Kernel, giving: Giving, pc: Pc, roundRobin: bool)
    requires k.cur in k.procs
    ensures Preempt(SetCur(k, giving, pc), roundRobin).objs == SetCur(k, giving, pc).objs == k.objs
  {
  }

  lemma ElectionObjs(k: Kernel, s: Step, r: Kernel)
    requires Enabled(k, s) && (s.Scan? || s.GiveUp? || s.Dispatch?) && r == Next(k, s)
    ensures r.objs == k.objs
  {
    match s
    case Scan => SearchObjs(k, Scanned(k, SearchOf(k)), r);
    case GiveUp => PreemptObjs(k, Not, k.procs[k.cur].pc, SearchOf(k).above.Some?);
    case Dispatch => RunFrame(k, r, k.mode.search.best.value);
  }

  lemma ContinueEvolves(k: Kernel, s: Step, r: Kernel)
    requires Good(k) && Enabled(k, s) && s.Continue? && r == Next(k, s)
    ensures ListsEvolve(k, r)
  {
    var a := Attempts(k, s);
    if a.Some? {
      AttemptEvolves(k, s, a.value, Deadline(k, s, a.value), r);
    } else {
      if k.procs[k.cur].pc.SuspendCheck? { SuspensionEnds(k, s.t, s.t1, s.t2, r); } else { LoopTimesOut(k, s.t, s.t1, s.t2, r); }
      SameObjs(k, r);
      ThinEvolves(k, r);
    }
  }

  lemma EnterEvolves(k: Kernel, s: Step, r: Kernel)
    requires Good(k) && Enabled(k, s) && s.Enter? && r == Next(k, s)
    ensures ListsEvolve(k, r)
  {
    var a := Attempts(k, s);
    if a.Some? {
      AttemptEvolves(k, s, a.value, Deadline(k, s, a.value), r);
    } else {
      OtherThin(k, s, r);
      ThinEvolves(k, r);
    }
  }

  /** Every step leaves those who wait in their order, and whoever comes to a list comes last. */
  lemma StepEvolves(k: Kernel, s: Step, r: Kernel)
    requires Good(k) && Enabled(k, s) && r == Next(k, s)
    ensures ListsEvolve(k, r)
  {
    match s
    case Enter(_, _, _, _) => EnterEvolves(k, s, r);
    case Continue(_, _, _) => ContinueEvolves(k, s, r);
    case Interrupt(t, nextPart, nextTime) =>
      FireDueThin(k, t);
      TickObjs(k, t, nextPart, nextTime, r);
      SameObjs(FireDue(k, t), r);
      ThinThen(k, FireDue(k, t), r);
      ThinEvolves(k, r);
    case _ => ElectionObjs(k, s, r); SameObjs(k, r); ThinEvolves(k, r);
  }

  // ----- over runs -----

  /** Both stand on the list of o, p before q. */
  ghost predicate Queue(k: Kernel, o: ObjId, p: Pid, q: Pid) {
    o in k.objs && Before(k.objs[o].waiting, p, q)
  }

  predicate Stands(k: Kernel, o: ObjId, p: Pid) {
    o in k.objs && p in k.objs[o].waiting
  }

  /** Neither leaves the list of o at any step but the last. */
  ghost predicate BothStand(k: Kernel, steps: seq<Step>, i: nat, o: ObjId, p: Pid, q: Pid)
    requires Runs(k, steps) && i <= |steps|
    decreases |steps|
  {
    var r := Final(k, steps);
    Stands(r, o, p) && Stands(r, o, q) && (i == |steps| || BothStand(k, steps[..|steps| - 1], i, o, p, q))
  }

  lemma EvolvesBefore(ps: seq<Pid>, qs: seq<Pid>, p: Pid, q: Pid)
    requires Evolves(ps, qs) && Before(ps, p, q) && p in qs && q in qs
    ensures Before(qs, p, q)
  {
    if !Thinned(ps, qs) {
      var x :| qs == ps + [x];
      BeforeAppended(ps, p, q, x);
    }
  }

  /** Whoever comes to a list comes behind everybody who stands there. */
  lemma ComesBehind(ps: seq<Pid>, qs: seq<Pid>, p: Pid, q: Pid)
    requires Evolves(ps, qs) && p in ps && q !in ps && q in qs
    ensures Before(qs, p, q)
  {
    if !Thinned(ps, qs) {
      var x :| qs == ps + [x];
      BeforeLast(ps, p, x);
    }
  }

  /** q came to the list of o at step i, when p stood there. */
  ghost predicate Came(k: Kernel, steps: seq<Step>, i: nat, o: ObjId, p: Pid, q: Pid)
    requires Runs(k, steps) && i < |steps|
    decreases |steps|
  {
    if i == |steps| - 1 then
      var m, r := Final(k, steps[..i]), Final(k, steps);
      Stands(m, o, p) && !Stands(m, o, q) && Stands(r, o, q)
    else Came(k, steps[..|steps| - 1], i, o, p, q)
  }

  lemma {:induction false} StillBehind(k: Kernel, steps: seq<Step>, i: nat, o: ObjId, p: Pid, q: Pid)
    requires Boot(k) && Runs(k, steps) && AlwaysFitting(k, steps) && i < |steps| && o in k.objs
    requires Came(k, steps, i, o, p, q) && BothStand(k, steps, i + 1, o, p, q)
    ensures Queue(Final(k, steps), o, p, q)
    decreases |steps|
  {
    var before := steps[..|steps| - 1];
    var m, r := Final(k, before), Final(k, steps);
    RunSound(k, before);
    StepEvolves(m, steps[|steps| - 1], r);
    if i == |before| {
      ComesBehind(m.objs[o].waiting, r.objs[o].waiting, p, q);
    } else {
      StillBehind(k, before, i, o, p, q);
      EvolvesBefore(m.objs[o].waiting, r.objs[o].waiting, p, q);
    }
  }

  /** The head of a list is behind nobody. */
  lemma HeadFirst(ps: seq<Pid>, p: Pid, q: Pid)
    requires Distinct(ps) && Before(ps, p, q)
    ensures ps[0] != q
  {
    BeforeListed(ps, p, q);
  }

  /** First come, first served: while a process that came later waits at a ring behind one that came before it, no transfer
      by a FIFO identifier takes it; it is still on the list behind the transfer. */
  lemma FirstComeFirstServed(k: Kernel, steps: seq<Step>, i: nat, s: Step, o: ObjId, p: Pid, q: Pid)
    requires Boot(k) && Runs(k, steps) && AlwaysFitting(k, steps) && i < |steps| && o in k.objs
    requires Came(k, steps, i, o, p, q) && BothStand(k, steps, i + 1, o, p, q)
    requires Enabled(Final(k, steps), s) && Through(Final(k, steps), Next(Final(k, steps), s), o) && DiscOf(Final(k, steps), s) == Fifo
    ensures Stands(Next(Final(k, steps), s), o, q)
  {
    var m := Final(k, steps);
    var r := Next(m, s);
    RunSound(k, steps);
    StillBehind(k, steps, i, o, p, q);
    assert ObjOk(m, o);
    HeadFirst(m.objs[o].waiting, p, q);
    StepServes(m, s, o, r);
    OnlyHeadLeaves(m, r, o, q);
  }

  lemma OnlyHeadLeaves(m: Kernel, r: Kernel, o: ObjId, q: Pid)
    requires ServesOne(m, r, o, Fifo) && q in m.objs[o].waiting && m.objs[o].waiting[0] != q
    ensures Stands(r, o, q)
  {
    var ps := m.objs[o].waiting;
    var i :| Serves(m, r, o, Fifo, i);
    assert ps == [ps[0]] + ps[1..] && r.objs[o].waiting == ps[..0] + ps[1..];
  }
}
