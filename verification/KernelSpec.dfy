/** The ARINC 653 process and communication services on one scheduling hart, as a transition system.
    A step is the code of one call between two scheduling points, one list element looked at by a search for the
    next process, what follows such a search, or one timer interrupt; an interrupt may come between any two. */
module KernelSpec {
  import opened Common
  import opened TimerQueue
  import opened Election

  type Part = nat
  type ObjId = nat
  type Msg = seq<nat>
  const INFINITE: int := 0x7fff_ffff_ffff_ffff

  datatype PState = Dormant | Ready | Running | Waiting | Faulted

  datatype Reason =
    | PreviousStarted
    | DelayedStarted
    | Suspended
    | SuspendedTimed
    | Blocked(kind: Kind)
    | BlockedTimed(kind: Kind)
    | TimedWait

  datatype Ret = NoError | NoAction | NotAvailable | InvalidParam | InvalidConfig | InvalidMode | TimedOut

  datatype Disc = Fifo | Priority
  datatype Dir = Source | Destination

  /** The four operating modes, and any other number a caller may ask for. */
  datatype OpMode = Idle | ColdStart | WarmStart | Normal | Unknown(mode: nat)

  /** A possibly blocking transfer. */
  datatype Op = Send(msg: Msg) | Recv | Read
  datatype Xfer = Xfer(obj: ObjId, op: Op, disc: Disc, timeout: int)

  /** Where a process continues in the kernel when it runs again. Retry is the point behind the give-up in
      the blocking loops: outer is the deadline fixed on entry, inner the one its timer was set to. */
  datatype Pc =
    | User
    | Retry(x: Xfer, outer: int, inner: int, ctx: Option<CtxId>)
    | SuspendCheck(wakeup: int)

  /** A search of sched_elect_next_proc: about to begin, or under way. A round-robin search looks for a process of
      at least the priority above, first behind the current process and then again from the front of the list. */
  datatype Search =
    | Fresh(roundRobin: bool)
    | Looking(above: Option<nat>, todo: seq<Pid>, again: bool, best: Option<Pid>)
  {
    /** It has been through the list. */
    predicate Done() { Looking? && todo == [] && !again }

    predicate Found() { Done() && best.Some? }
  }

  /** Whether the process stands inside sched_proc_give_up, searching. */
  datatype Giving = Not | Yes(search: Search)

  datatype Proc = Proc(state: PState, reason: Reason, timer: Option<nat>, pri: nat, basePri: nat,
                       period: int, part: Part, giving: Giving, pc: Pc)
  {
    predicate Periodic() { period != INFINITE }
  }

  /** A byte ring as its queue of messages, or a blackboard. */
  datatype Obj =
    | Ring(kind: Kind, maxSize: nat, cap: nat, msgs: seq<Msg>, waiting: seq<Pid>)
    | Board(maxSize: nat, shown: Msg, occupied: bool, waiting: seq<Pid>)
  {
    function KindOf(): Kind { if Ring? then kind else BoardKind }

    /** The same object with another wait list. */
    function Awaited(ps: seq<Pid>): Obj {
      match this
      case Ring(kind, maxSize, cap, msgs, _) => Ring(kind, maxSize, cap, msgs, ps)
      case Board(maxSize, shown, occupied, _) => Board(maxSize, shown, occupied, ps)
    }
  }

  /** What a buffer, blackboard or port identifier resolves to. */
  datatype Handle = Handle(part: Part, dir: Dir, disc: Disc, obj: ObjId)

  datatype Ctx = Ctx(proc: Pid, obj: ObjId)

  /** The current process executes, or sched_proc searches on its stack. */
  datatype Mode = Executing | Electing(search: Search)

  /** One completed transfer, in the order in which the transfers took effect. */
  datatype Entry =
    | Sent(obj: ObjId, msg: Msg)
    | Received(obj: ObjId, msg: Msg)
    | Shown(obj: ObjId, msg: Msg)
    | Seen(obj: ObjId, msg: Msg)
    | Cleared(obj: ObjId)
    | Failed(obj: ObjId, ret: Ret)

  /** The system on one hart. For each process, held are the searches of sched_proc that were interrupted while the
      process was current, the last one first: their contexts lie on its stack above its own. */
  datatype Kernel = Kernel(
    procs: map<Pid, Proc>, order: map<Part, seq<Pid>>, opMode: map<Part, OpMode>,
    objs: map<ObjId, Obj>, handles: map<(Kind, nat), Handle>,
    queue: seq<Event>, nextEvent: nat, ctxs: map<CtxId, Ctx>, nextCtx: CtxId,
    cur: Pid, part: Part, mode: Mode, held: map<Pid, seq<Search>>, log: seq<Entry>)

  // ----- field updates -----

  function WithProc(k: Kernel, p: Pid, q: Proc): Kernel {
    k.(procs := k.procs[p := q])
  }

  function WithObj(k: Kernel, o: ObjId, b: Obj): Kernel {
    k.(objs := k.objs[o := b])
  }

  function Logged(k: Kernel, e: Entry): Kernel {
    k.(log := k.log + [e])
  }

  // ----- time events -----

  /** The process a queued event belongs to. */
  function Target(k: Kernel, w: What): Option<Pid> {
    match w
    case PartitionActivate => None
    case SuspendTimeout(p) => Some(p)
    case DelayedStart(p) => Some(p)
    case TimedWaitTimeout(p) => Some(p)
    case BlockTimeout(_, c) => if c in k.ctxs then Some(k.ctxs[c].proc) else None
  }

  /** time_event_alloc: queue the event and point its process at it. */
  function EventAlloc(k: Kernel, time: int, w: What): Kernel {
    var t := Target(k, w);
    k.(queue := Insert(k.queue, Event(k.nextEvent, time, w)),
       nextEvent := k.nextEvent + 1,
       procs := if t.Some? && t.value in k.procs
                then k.procs[t.value := k.procs[t.value].(timer := Some(k.nextEvent))] else k.procs)
  }

  /** time_event_free for the event a process points at, if it points at one. */
  function EventFree(k: Kernel, p: Pid): Kernel
    requires p in k.procs
  {
    var t := k.procs[p].timer;
    k.(queue := if t.Some? then Remove(k.queue, t.value) else k.queue,
       procs := k.procs[p := k.procs[p].(timer := None)])
  }

  predicate Timed(q: Proc) {
    q.reason == SuspendedTimed || q.reason == TimedWait || q.reason.BlockedTimed?
      || (q.reason == DelayedStarted && !q.Periodic())
  }

  // ----- wait lists -----

  function Without(ps: seq<Pid>, p: Pid): seq<Pid> {
    if ps == [] then [] else if ps[0] == p then ps[1..] else [ps[0]] + Without(ps[1..], p)
  }

  function WaitingCandidates(procs: map<Pid, Proc>, ps: seq<Pid>): seq<Candidate> {
    seq(|ps|, i requires 0 <= i < |ps| => Candidate(true, if ps[i] in procs then procs[ps[i]].pri else 0))
  }

  /** The waiting process a completed transfer wakes: the head, or the first of maximal priority. */
  function Woken(k: Kernel, ps: seq<Pid>, disc: Disc): (r: Option<Pid>)
    ensures r.Some? ==> r.value in ps
    ensures ps != [] ==> r.Some?
  {
    if ps == [] then None
    else if disc == Fifo then Some(ps[0])
    else
      var cs := WaitingCandidates(k.procs, ps);
      BestIsFirstMaximal(cs, |cs|);
      assert cs[0].mayRun;
      Some(ps[Best(cs, |cs|).value])
  }

  /** Take p off the wait list of o and make it ready. */
  function Wake(k: Kernel, o: ObjId, p: Pid): Kernel
    requires o in k.objs && p in k.procs
  {
    var q := k.procs[p];
    var free := q.reason.BlockedTimed? && q.timer.Some?;
    k.(objs := k.objs[o := k.objs[o].Awaited(Without(k.objs[o].waiting, p))],
       queue := if free then Remove(k.queue, q.timer.value) else k.queue,
       procs := k.procs[p := q.(state := Ready, timer := if free then None else q.timer)])
  }

  function WakeOne(k: Kernel, o: ObjId, disc: Disc): Kernel
    requires o in k.objs
  {
    var w := Woken(k, k.objs[o].waiting, disc);
    if w.Some? && w.value in k.procs then Wake(k, o, w.value) else k
  }

  function WakeAll(k: Kernel, o: ObjId): Kernel
    requires o in k.objs
    decreases |k.objs[o].waiting|
  {
    var ps := k.objs[o].waiting;
    if ps == [] || ps[0] !in k.procs then k
    else WakeAll(Wake(k, o, ps[0]), o)
  }

  // ----- blocking transfers -----

  predicate Obstructed(b: Obj, op: Op) {
    match op
    case Send(_) => b.Ring? && |b.msgs| == b.cap
    case Recv => b.Ring? && b.msgs == []
    case Read => b.Board? && !b.occupied
  }

  predicate Suits(b: Obj, op: Op) {
    match op
    case Send(m) => b.Ring? && 0 < |m| <= b.maxSize
    case Recv => b.Ring?
    case Read => b.Board?
  }

  function SetCur(k: Kernel, giving: Giving, pc: Pc): Kernel
    requires k.cur in k.procs
  {
    WithProc(k, k.cur, k.procs[k.cur].(giving := giving, pc := pc))
  }

  /** The transfer itself, the wake-up it causes, and whether the caller gives up afterwards. */
  function Complete(k: Kernel, x: Xfer): Kernel
    requires k.cur in k.procs && x.obj in k.objs && Suits(k.objs[x.obj], x.op) && !Obstructed(k.objs[x.obj], x.op)
  {
    var b := k.objs[x.obj];
    match x.op
    case Send(m) =>
      var k1 := Logged(WithObj(k, x.obj, b.(msgs := b.msgs + [m])), Sent(x.obj, m));
      AfterTransfer(k1, x)
    case Recv =>
      var k1 := Logged(WithObj(k, x.obj, b.(msgs := b.msgs[1..])), Received(x.obj, b.msgs[0]));
      AfterTransfer(k1, x)
    case Read =>
      SetCur(Logged(k, Seen(x.obj, b.shown)), Not, User)
  }

  /** Buffers give up after waking somebody; queuing ports never do. */
  function AfterTransfer(k: Kernel, x: Xfer): Kernel
    requires k.cur in k.procs && x.obj in k.objs
  {
    var woke := k.objs[x.obj].waiting != [];
    var k1 := WakeOne(k, x.obj, x.disc);
    SetCur(k1, if woke && k.objs[x.obj].KindOf() == BufferKind then Yes(Fresh(false)) else Not, User)
  }

  /** The process as a blocking round leaves it, about to give up. */
  function BlockedProc(q: Proc, kind: Kind, x: Xfer, outer: int, inner: int, ctx: Option<CtxId>): Proc {
    Proc(Waiting, if ctx.Some? then BlockedTimed(kind) else Blocked(kind), q.timer, q.pri, q.basePri, q.period, q.part,
         Yes(Fresh(false)), Retry(x, outer, inner, ctx))
  }

  /** The timer context of a bounded wait. */
  function NewContext(k: Kernel, o: ObjId): Kernel {
    k.(ctxs := k.ctxs[k.nextCtx := Ctx(k.cur, o)], nextCtx := k.nextCtx + 1)
  }

  /** The queuing receive loop computes its timer afresh in every round; the others keep the first deadline. */
  function InnerDeadline(kind: Kind, x: Xfer, outer: int, t2: int): int {
    if kind == PortKind && x.op.Recv? then t2 + x.timeout else outer
  }

  /** Appending the current process to the wait list of o. */
  function Listing(k: Kernel, o: ObjId): Obj
    requires o in k.objs
  {
    k.objs[o].Awaited(k.objs[o].waiting + [k.cur])
  }

  /** One round of a blocking loop: time out, or join the wait list (with a timer if the wait is bounded) and
      give up. */
  function Block(k: Kernel, x: Xfer, outer: int, t1: int, t2: int): Kernel
    requires k.cur in k.procs && x.obj in k.objs
  {
    var kind := k.objs[x.obj].KindOf();
    if x.timeout == INFINITE then
      WithObj(WithProc(k, k.cur, BlockedProc(k.procs[k.cur], kind, x, outer, outer, None)), x.obj, Listing(k, x.obj))
    else if outer <= t1 then
      SetCur(Logged(k, Failed(x.obj, TimedOut)), Not, User)
    else
      var inner := InnerDeadline(kind, x, outer, t2);
      var k1 := WithProc(NewContext(k, x.obj), k.cur, BlockedProc(k.procs[k.cur], kind, x, outer, inner, Some(k.nextCtx)));
      WithObj(EventAlloc(k1, inner, BlockTimeout(kind, k.nextCtx)), x.obj, Listing(k, x.obj))
  }

  /** The loop condition. */
  function LoopOn(k: Kernel, x: Xfer, outer: int, t1: int, t2: int): Kernel
    requires k.cur in k.procs && x.obj in k.objs && Suits(k.objs[x.obj], x.op)
  {
    if Obstructed(k.objs[x.obj], x.op) then Block(k, x, outer, t1, t2) else Complete(k, x)
  }

  function StartXfer(k: Kernel, x: Xfer, t0: int, t1: int, t2: int): Kernel
    requires k.cur in k.procs && x.obj in k.objs && Suits(k.objs[x.obj], x.op)
  {
    if Obstructed(k.objs[x.obj], x.op) && x.timeout == 0 then Logged(k, Failed(x.obj, NotAvailable))
    else LoopOn(k, x, t0 + x.timeout, t1, t2)
  }

  /** The timer context of the current process's bounded wait is freed. */
  function ContextFreed(k: Kernel, pc: Pc): Kernel
    requires pc.Retry?
  {
    if pc.x.timeout != INFINITE && pc.ctx.Some? then k.(ctxs := k.ctxs - {pc.ctx.value}) else k
  }

  /** Behind the give-up of a blocking loop: free the timer context, test the clock, loop. */
  function Resume(k: Kernel, t: int, t1: int, t2: int): Kernel
    requires k.cur in k.procs && k.procs[k.cur].pc.Retry?
    requires k.procs[k.cur].pc.x.obj in k.objs && Suits(k.objs[k.procs[k.cur].pc.x.obj], k.procs[k.cur].pc.x.op)
  {
    var pc := k.procs[k.cur].pc;
    var k1 := ContextFreed(k, pc);
    if pc.x.timeout != INFINITE && t >= pc.inner then SetCur(Logged(k1, Failed(pc.x.obj, TimedOut)), Not, User)
    else LoopOn(SetCur(k1, Not, User), pc.x, pc.outer, t1, t2)
  }

  // ----- system calls -----

  datatype Call =
    | SendTo(kind: Kind, id: nat, msg: Msg, timeout: int)
    | ReceiveFrom(kind: Kind, id: nat, timeout: int)
    | ReadBoard(id: nat, timeout: int)
    | Display(id: nat, msg: Msg)
    | ClearBoard(id: nat)
    | ClearPort(id: nat)
    | SuspendSelf(timeout: int)
    | Suspend(target: Pid)
    | ResumeProc(target: Pid)
    | StopSelf
    | Stop(target: Pid)
    | Start(target: Pid, delay: int)
    | Wait(delay: int)
    | SetPriority(target: Pid, pri: nat)
    | SetMode(op: OpMode)

  /** Calls that transfer messages. */
  predicate Communicates(c: Call) {
    c.SendTo? || c.ReceiveFrom? || c.ReadBoard? || c.Display? || c.ClearBoard? || c.ClearPort?
  }

  /** The identifier resolves, in the caller's partition, to an object of the kind asked for. */
  predicate Resolves(k: Kernel, kind: Kind, id: nat) {
    && (kind, id) in k.handles
    && k.handles[(kind, id)].part == k.part
    && k.handles[(kind, id)].obj in k.objs
    && k.objs[k.handles[(kind, id)].obj].KindOf() == kind
  }

  predicate Local(k: Kernel, p: Pid) {
    p in k.procs && k.procs[p].part == k.part
  }

  function SendCheck(k: Kernel, kind: Kind, id: nat, len: nat): Ret {
    if kind == BoardKind || !Resolves(k, kind, id) then InvalidParam
    else
      var h := k.handles[(kind, id)];
      if len > k.objs[h.obj].maxSize then (if kind == PortKind then InvalidConfig else InvalidParam)
      else if len == 0 then InvalidParam
      else if kind == PortKind && h.dir != Source then InvalidMode
      else NoError
  }

  function ReceiveCheck(k: Kernel, kind: Kind, id: nat): Ret {
    if kind == BoardKind || !Resolves(k, kind, id) then InvalidParam
    else if kind == PortKind && k.handles[(kind, id)].dir != Destination then InvalidMode
    else NoError
  }

  /** do_clear_queuing_port: a full ring first wakes one waiting process. */
  function Clear(k: Kernel, h: Handle): Kernel
    requires h.obj in k.objs && k.objs[h.obj].Ring?
  {
    var b := k.objs[h.obj];
    var k1 := if |b.msgs| == b.cap then WakeOne(k, h.obj, h.disc) else k;
    WakeOneKeeps(k, h.obj, h.disc);
    Logged(WithObj(k1, h.obj, k1.objs[h.obj].(msgs := [])), Cleared(h.obj))
  }

  lemma WakeOneKeeps(k: Kernel, o: ObjId, disc: Disc)
    requires o in k.objs
    ensures o in WakeOne(k, o, disc).objs
    ensures WakeOne(k, o, disc).objs[o] == k.objs[o].Awaited(WakeOne(k, o, disc).objs[o].waiting)
    ensures WakeOne(k, o, disc).log == k.log
  {
  }

  /** The current process going to sleep, about to give up. */
  function Asleep(q: Proc, state: PState, reason: Reason, pc: Pc): Proc {
    Proc(state, reason, q.timer, q.pri, q.basePri, q.period, q.part, Yes(Fresh(false)), pc)
  }

  /** A process put into another state by somebody else. */
  function Put(q: Proc, state: PState, reason: Reason): Proc {
    Proc(state, reason, q.timer, q.pri, q.basePri, q.period, q.part, q.giving, q.pc)
  }

  /** A dormant process reset for its start. */
  function Reset(q: Proc, state: PState, reason: Reason): Proc {
    Proc(state, reason, q.timer, q.basePri, q.basePri, q.period, q.part, Not, User)
  }

  function GiveUpAfter(k: Kernel, roundRobin: bool): Kernel
    requires k.cur in k.procs
  {
    SetCur(k, Yes(Fresh(roundRobin)), k.procs[k.cur].pc)
  }

  function DoSuspendSelf(k: Kernel, timeout: int, t: int): Kernel
    requires k.cur in k.procs
  {
    var q := k.procs[k.cur];
    if q.Periodic() || timeout == 0 then k
    else if timeout < INFINITE then
      EventAlloc(WithProc(k, k.cur, Asleep(q, Waiting, SuspendedTimed, SuspendCheck(t + timeout))), t + timeout, SuspendTimeout(k.cur))
    else WithProc(k, k.cur, Asleep(q, Waiting, Suspended, q.pc))
  }

  /** What SUSPEND_SELF returns behind its give-up, when it goes on at t. */
  function SuspendResult(pc: Pc, t: int): Ret
    requires pc.SuspendCheck?
  {
    if t >= pc.wakeup then TimedOut else NoError
  }

  function DoSuspend(k: Kernel, p: Pid): Kernel
    requires k.cur in k.procs
  {
    if !Local(k, p) then k
    else
      var q := k.procs[p];
      if q.state == Dormant || q.state == Faulted || q.Periodic() || q.state == Waiting then k
      else GiveUpAfter(WithProc(k, p, Put(q, Waiting, Suspended)), false)
  }

  function DoResume(k: Kernel, p: Pid): Kernel
    requires k.cur in k.procs
  {
    if !Local(k, p) then k
    else
      var q := k.procs[p];
      var suspended := q.state == Waiting && (q.reason == Suspended || q.reason == SuspendedTimed);
      if q.state == Dormant || (q.Periodic() && q.state != Faulted) || (!suspended && q.state != Faulted) then k
      else
        var k1 := if q.state == Waiting && q.reason == SuspendedTimed then EventFree(k, p) else k;
        GiveUpAfter(WithProc(k1, p, Put(k1.procs[p], Ready, q.reason)), false)
  }

  function DoStop(k: Kernel, p: Pid): Kernel
    requires k.cur in k.procs
  {
    if !Local(k, p) || k.procs[p].state == Dormant then k
    else
      var k1 := EventFree(k, p);
      GiveUpAfter(WithProc(k1, p, Put(k1.procs[p], Dormant, k1.procs[p].reason)), false)
  }

  /** Start of a dormant process: reset it, which drops all its contexts, then make it ready, delay it, or note it
      for later. */
  function DoStart(k: Kernel, p: Pid, delay: int, t: int): Kernel
    requires k.cur in k.procs
  {
    if !Local(k, p) || k.procs[p].state != Dormant || delay == INFINITE
       || (k.procs[p].Periodic() && delay >= k.procs[p].period) then k
    else StartDormant(k.(held := k.held - {p}), p, delay, t)
  }

  function StartDormant(k: Kernel, p: Pid, delay: int, t: int): Kernel
    requires p in k.procs && k.cur in k.procs
  {
    if InNormalMode(k) && !k.procs[p].Periodic() then StartAperiodic(k, p, delay, t)
    else WithProc(k, p, Reset(k.procs[p], Waiting, if InNormalMode(k) then DelayedStarted else PreviousStarted))
  }

  predicate InNormalMode(k: Kernel) {
    k.part in k.opMode && k.opMode[k.part] == Normal
  }

  function StartAperiodic(k: Kernel, p: Pid, delay: int, t: int): Kernel
    requires p in k.procs && k.cur in k.procs
  {
    var q := k.procs[p];
    if delay == 0 then GiveUpAfter(WithProc(k, p, Reset(q, Ready, q.reason)), false)
    else GiveUpAfter(EventAlloc(WithProc(k, p, Reset(q, Waiting, DelayedStarted)), t + delay, DelayedStart(p)), false)
  }

  function DoWait(k: Kernel, delay: int, t: int): Kernel
    requires k.cur in k.procs
  {
    if delay == INFINITE then k
    else if delay == 0 then GiveUpAfter(k, true)
    else EventAlloc(WithProc(k, k.cur, Asleep(k.procs[k.cur], Waiting, TimedWait, k.procs[k.cur].pc)), t + delay, TimedWaitTimeout(k.cur))
  }

  function DoSetPriority(k: Kernel, p: Pid, pri: nat): Kernel
    requires k.cur in k.procs
  {
    if !Local(k, p) || k.procs[p].state == Dormant then k
    else GiveUpAfter(WithProc(k, p, k.procs[p].(pri := pri)), false)
  }

  /** A board the caller may use. */
  predicate HasBoard(k: Kernel, id: nat) {
    Resolves(k, BoardKind, id) && k.objs[k.handles[(BoardKind, id)].obj].Board?
  }

  function DoDisplay(k: Kernel, id: nat, msg: Msg): Kernel
    requires k.cur in k.procs
  {
    if !HasBoard(k, id) || |msg| > k.objs[k.handles[(BoardKind, id)].obj].maxSize || |msg| == 0 then k
    else
      var o := k.handles[(BoardKind, id)].obj;
      var b := k.objs[o];
      var k1 := WakeAll(Logged(WithObj(k, o, Board(b.maxSize, msg, true, b.waiting)), Shown(o, msg)), o);
      if k1.cur in k1.procs then SetCur(k1, Yes(Fresh(false)), User) else k1
  }

  function DoClearBoard(k: Kernel, id: nat): Kernel {
    if !HasBoard(k, id) then k
    else
      var o := k.handles[(BoardKind, id)].obj;
      var b := k.objs[o];
      Logged(WithObj(k, o, Board(b.maxSize, b.shown, false, b.waiting)), Cleared(o))
  }

  function DoSend(k: Kernel, kind: Kind, id: nat, msg: Msg, timeout: int, t0: int, t1: int, t2: int): Kernel
    requires k.cur in k.procs
  {
    if SendCheck(k, kind, id, |msg|) != NoError then k
    else
      var h := k.handles[(kind, id)];
      StartXfer(k, Xfer(h.obj, Send(msg), h.disc, timeout), t0, t1, t2)
  }

  function DoReceive(k: Kernel, kind: Kind, id: nat, timeout: int, t0: int, t1: int, t2: int): Kernel
    requires k.cur in k.procs
  {
    if ReceiveCheck(k, kind, id) != NoError then k
    else
      var h := k.handles[(kind, id)];
      StartXfer(k, Xfer(h.obj, Recv, h.disc, timeout), t0, t1, t2)
  }

  function DoRead(k: Kernel, id: nat, timeout: int, t0: int, t1: int, t2: int): Kernel
    requires k.cur in k.procs
  {
    if !HasBoard(k, id) then k
    else
      var h := k.handles[(BoardKind, id)];
      StartXfer(k, Xfer(h.obj, Read, h.disc, timeout), t0, t1, t2)
  }

  /** SET_PARTITION_MODE(NORMAL): the processes on the list of the partition that were started before become ready. */
  predicate Releasing(k: Kernel, p: Pid) {
    p in Members(k) && p in k.procs && k.procs[p].state == Waiting && k.procs[p].reason == PreviousStarted
  }

  function Released(k: Kernel): Kernel {
    k.(procs := map p | p in k.procs :: if Releasing(k, p) then k.procs[p].(state := Ready) else k.procs[p])
  }

  function DoSetMode(k: Kernel, op: OpMode): Kernel
    requires k.cur in k.procs
  {
    var was := if k.part in k.opMode then k.opMode[k.part] else ColdStart;
    if (op == Normal && was == Normal) || (op == WarmStart && was == ColdStart) then k
    else
      var k1 := k.(opMode := k.opMode[k.part := op]);
      if op != Normal then k1
      else
        var k2 := Released(k1);
        var q := k2.procs[k2.cur];
        WithProc(k2, k2.cur, Asleep(q, Dormant, q.reason, q.pc))
  }

  /** The effect of a call by the current process, up to its return or its next scheduling point. */
  function Syscall(k: Kernel, c: Call, t0: int, t1: int, t2: int): Kernel
    requires k.cur in k.procs
  {
    match c
    case SendTo(kind, id, msg, timeout) => DoSend(k, kind, id, msg, timeout, t0, t1, t2)
    case ReceiveFrom(kind, id, timeout) => DoReceive(k, kind, id, timeout, t0, t1, t2)
    case ReadBoard(id, timeout) => DoRead(k, id, timeout, t0, t1, t2)
    case Display(id, msg) => DoDisplay(k, id, msg)
    case ClearBoard(id) => DoClearBoard(k, id)
    case ClearPort(id) =>
      if ReceiveCheck(k, PortKind, id) != NoError || !k.objs[k.handles[(PortKind, id)].obj].Ring? then k
      else Clear(k, k.handles[(PortKind, id)])
    case SuspendSelf(timeout) => DoSuspendSelf(k, timeout, t0)
    case Suspend(p) => DoSuspend(k, p)
    case ResumeProc(p) => DoResume(k, p)
    case StopSelf =>
      var q := k.procs[k.cur];
      WithProc(k, k.cur, Asleep(q, Dormant, q.reason, q.pc))
    case Stop(p) => DoStop(k, p)
    case Start(p, delay) => DoStart(k, p, delay, t0)
    case Wait(delay) => DoWait(k, delay, t0)
    case SetPriority(p, pri) => DoSetPriority(k, p, pri)
    case SetMode(op) => DoSetMode(k, op)
  }

  // ----- elections -----

  predicate MayRun(k: Kernel, p: Pid) {
    p in k.procs && (k.procs[p].state == Ready || k.procs[p].state == Running)
  }

  function CandidateOf(procs: map<Pid, Proc>, p: Pid): Candidate {
    if p in procs then Candidate(procs[p].state == Ready || procs[p].state == Running, procs[p].pri) else Candidate(false, 0)
  }

  function Candidates(procs: map<Pid, Proc>, ps: seq<Pid>): seq<Candidate> {
    seq(|ps|, i requires 0 <= i < |ps| => CandidateOf(procs, ps[i]))
  }

  function PositionOf(ps: seq<Pid>, p: Pid): (r: Option<nat>)
    ensures r.Some? ==> r.value < |ps| && ps[r.value] == p
    ensures r.None? ==> p !in ps
  {
    if ps == [] then None
    else if ps[0] == p then Some(0)
    else
      var r := PositionOf(ps[1..], p);
      if r.None? then None else Some(r.value + 1)
  }

  /** The process list of the current partition. */
  function Members(k: Kernel): seq<Pid> {
    if k.part in k.order then k.order[k.part] else []
  }

  /** The list behind process p. */
  function Behind(ps: seq<Pid>, p: Pid): seq<Pid> {
    var at := PositionOf(ps, p);
    if at.None? then [] else ps[at.value + 1..]
  }

  /** One step of a search: it begins, looks at one process, turns to the front of the list, or starts anew after
      finding nobody. */
  function Scanned(k: Kernel, s: Search): Search {
    match s
    case Fresh(roundRobin) =>
      if roundRobin && k.cur in k.procs then
        var q := k.procs[k.cur];
        Looking(Some(q.pri), if q.part in k.order then Behind(k.order[q.part], k.cur) else [], true, None)
      else Looking(None, Members(k), false, None)
    case Looking(above, todo, again, best) =>
      if todo != [] then LookAt(k, above, todo, again, best)
      else if again then Looking(above, Members(k), false, best)
      else if best.None? then Fresh(above.Some?)
      else s
  }

  /** A round-robin search stops at the first process it accepts; the other one keeps the first of maximal
      priority so far. */
  function LookAt(k: Kernel, above: Option<nat>, todo: seq<Pid>, again: bool, best: Option<Pid>): Search
    requires todo != []
  {
    var c := CandidateOf(k.procs, todo[0]);
    if above.Some? then
      if Takes(c, above.value) then Looking(above, [], false, Some(todo[0])) else Looking(above, todo[1..], again, best)
    else if c.mayRun && (best.None? || c.pri > CandidateOf(k.procs, best.value).pri) then
      Looking(above, todo[1..], again, Some(todo[0]))
    else Looking(above, todo[1..], again, best)
  }

  /** Whom a search elects that nothing interrupts. */
  function Elected(k: Kernel, roundRobin: bool): (r: Option<Pid>) {
    var ps := Members(k);
    var cs := Candidates(k.procs, ps);
    var at := PositionOf(ps, k.cur);
    var i := if roundRobin && at.Some? then RoundRobin(cs, at.value) else Best(cs, |cs|);
    if i.None? then None else Some(ps[i.value])
  }

  function Held(k: Kernel, p: Pid): seq<Search> {
    if p in k.held then k.held[p] else []
  }

  /** sched_proc begins: the current process loses the processor. If sched_proc was searching already, and this is
      an interrupt, that search stays behind on the process's stack. */
  function Preempt(k: Kernel, roundRobin: bool): Kernel {
    k.(mode := Electing(Fresh(roundRobin)),
       held := if k.mode.Electing? then k.held[k.cur := [k.mode.search] + Held(k, k.cur)] else k.held,
       procs := if k.cur in k.procs && k.procs[k.cur].state == Running
                then k.procs[k.cur := k.procs[k.cur].(state := Ready)] else k.procs)
  }

  // ----- the timer interrupt -----

  /** The first event: ready its process, take it off its wait list, unlink the event. */
  function Fire(k: Kernel): Kernel
    requires k.queue != []
  {
    var e := k.queue[0];
    var t := Target(k, e.what);
    var listed := e.what.BlockTimeout? && e.what.ctx in k.ctxs && k.ctxs[e.what.ctx].obj in k.objs;
    k.(queue := k.queue[1..],
       procs := if t.Some? && t.value in k.procs
                then k.procs[t.value := k.procs[t.value].(state := Ready, timer := None)] else k.procs,
       objs := if listed
               then var c := k.ctxs[e.what.ctx]; k.objs[c.obj := k.objs[c.obj].Awaited(Without(k.objs[c.obj].waiting, c.proc))]
               else k.objs)
  }

  /** The loop of time_event_action over the events due at t. */
  function FireDue(k: Kernel, t: int): Kernel
    decreases |k.queue|
  {
    if k.queue == [] || k.queue[0].time > t then k
    else
      FireDue(Fire(k), t)
  }

  predicate HasActivation(es: seq<Event>) {
    exists e :: e in es && e.what == PartitionActivate
  }

  /** Some consumed event belongs to a process of the current partition. */
  predicate HasLocal(k: Kernel, es: seq<Event>) {
    exists e :: e in es && OfPart(k, e)
  }

  predicate OfPart(k: Kernel, e: Event) {
    var p := Target(k, e.what);
    p.Some? && p.value in k.procs && k.procs[p.value].part == k.part
  }

  /** time_event_action: fire what is due, then switch partition or reschedule. The partition and the due time
      of the next activation come from the module schedule. */
  function Tick(k: Kernel, t: int, nextPart: Part, nextTime: int): Kernel {
    var due := Due(k.queue, t);
    var k1 := FireDue(k, t);
    if HasActivation(due) then Preempt(EventAlloc(k1, nextTime, PartitionActivate).(part := nextPart), false)
    else if HasLocal(k, due) then Preempt(k1, false)
    else k1
  }

  // ----- steps -----

  datatype Step =
    | Enter(call: Call, t0: int, t1: int, t2: int)   // the current process makes a call
    | Continue(t: int, t1: int, t2: int)             // it continues behind a give-up
    | Scan                                           // the search under way goes on by one step
    | GiveUp                                         // sched_proc_give_up has found a process
    | Dispatch                                       // sched_proc has found a process, and runs it
    | Interrupt(t: int, nextPart: Part, nextTime: int)

  /** STOP does not hit a process that stands on a wait list. */
  predicate StopsNoWaiter(k: Kernel, c: Call) {
    c.Stop? && Local(k, c.target) && k.procs[c.target].state == Waiting ==>
      !k.procs[c.target].reason.Blocked? && !k.procs[c.target].reason.BlockedTimed?
  }

  predicate Enabled(k: Kernel, s: Step) {
    match s
    case Enter(_, _, _, _) => k.mode == Executing && k.cur in k.procs && k.procs[k.cur].giving == Not && k.procs[k.cur].pc == User
    case Continue(_, _, _) =>
      && k.mode == Executing && k.cur in k.procs && k.procs[k.cur].giving == Not && k.procs[k.cur].pc != User
      && (k.procs[k.cur].pc.Retry? ==>
            k.procs[k.cur].pc.x.obj in k.objs && Suits(k.objs[k.procs[k.cur].pc.x.obj], k.procs[k.cur].pc.x.op))
    case Scan => Searching(k) && !SearchOf(k).Found()
    case GiveUp => k.mode == Executing && Searching(k) && SearchOf(k).Found()
    case Dispatch => k.mode.Electing? && k.mode.search.Found() && k.mode.search.best.value in k.procs
    case Interrupt(_, _, _) => true
  }

  /** A search is under way, by sched_proc or by the give-up of the current process. */
  predicate Searching(k: Kernel) {
    k.mode.Electing? || (k.cur in k.procs && k.procs[k.cur].giving.Yes?)
  }

  function SearchOf(k: Kernel): Search
    requires Searching(k)
  {
    if k.mode.Electing? then k.mode.search else k.procs[k.cur].giving.search
  }

  function WithSearch(k: Kernel, s: Search): Kernel
    requires Searching(k)
  {
    if k.mode.Electing? then k.(mode := Electing(s)) else SetCur(k, Yes(s), k.procs[k.cur].pc)
  }

  /** proc_run: p becomes RUNNING and what lies on top of its stack goes on, an interrupted search of sched_proc or
      the process itself. */
  function Run(k: Kernel, p: Pid): Kernel
    requires p in k.procs
  {
    var r := WithProc(k.(cur := p), p, k.procs[p].(state := Running));
    if Held(k, p) == [] then r.(mode := Executing)
    else r.(mode := Electing(Held(k, p)[0]), held := k.held[p := Held(k, p)[1..]])
  }

  function Next(k: Kernel, s: Step): Kernel
    requires Enabled(k, s)
  {
    match s
    case Enter(c, t0, t1, t2) => Syscall(k, c, t0, t1, t2)
    case Continue(t, t1, t2) =>
      if k.procs[k.cur].pc.SuspendCheck? then SetCur(k, Not, User) else Resume(k, t, t1, t2)
    case Scan => WithSearch(k, Scanned(k, SearchOf(k)))
    case GiveUp =>
      var k1 := SetCur(k, Not, k.procs[k.cur].pc);
      if SearchOf(k).best == Some(k.cur) then k1 else Preempt(k1, SearchOf(k).above.Some?)
    case Dispatch => Run(k, k.mode.search.best.value)
    case Interrupt(t, nextPart, nextTime) => Tick(k, t, nextPart, nextTime)
  }
}
