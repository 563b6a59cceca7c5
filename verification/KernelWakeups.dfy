/** Wake-ups at rings: nobody waits for what is there already, exactly as long as no transfer goes past two waiting
    processes. With one sending and one receiving process none ever does. */
module KernelWakeups {
  import opened Common
  import opened TimerQueue
  import opened Election
  import opened KernelSpec
  import opened KernelInv
  import opened KernelSteps
  import opened KernelCalls
  import opened KernelTimer
  import opened KernelFifo
  import opened KernelRuns

  /** Whoever waits at ring o is obstructed: a sender because it is full, a receiver because it is empty. */
  ghost predicate Justified(k: Kernel, o: ObjId) {
    && o in k.objs && k.objs[o].Ring?
    && forall p :: p in k.objs[o].waiting && p in k.procs && k.procs[p].pc.Retry? && k.procs[p].pc.x.obj == o ==>
         Obstructed(k.objs[o], k.procs[p].pc.x.op)
  }

  /** The transfer that a step tries. */
  function Attempts(k: Kernel, step: Step): Option<Xfer>
    requires Enabled(k, step)
  {
    match step
    case Enter(c, _, _, _) => Asked(k, c)
    case Continue(t, _, _) =>
      var pc := k.procs[k.cur].pc;
      if pc.Retry? && (pc.x.timeout == INFINITE || t < pc.inner) then Some(pc.x) else None
    case _ => None
  }

  /** The transfer that a call asks for, once it has passed its checks. */
  function Asked(k: Kernel, c: Call): Option<Xfer> {
    match c
    case SendTo(kind, id, msg, timeout) =>
      if SendCheck(k, kind, id, |msg|) != NoError then None
      else var h := k.handles[(kind, id)]; Some(Xfer(h.obj, Send(msg), h.disc, timeout))
    case ReceiveFrom(kind, id, timeout) =>
      if ReceiveCheck(k, kind, id) != NoError then None
      else var h := k.handles[(kind, id)]; Some(Xfer(h.obj, Recv, h.disc, timeout))
    case ReadBoard(id, timeout) =>
      if !HasBoard(k, id) then None
      else var h := k.handles[(BoardKind, id)]; Some(Xfer(h.obj, Read, h.disc, timeout))
    case _ => None
  }

  /** CLEAR_QUEUING_PORT at ring o while it is full. */
  predicate ClearsFull(k: Kernel, step: Step, o: ObjId)
    requires o in k.objs && k.objs[o].Ring?
  {
    && step.Enter? && step.call.ClearPort? && ReceiveCheck(k, PortKind, step.call.id) == NoError
    && k.handles[(PortKind, step.call.id)].obj == o && |k.objs[o].msgs| == k.objs[o].cap
  }

  /** The step puts a message into ring o, takes one out, or clears it while it is full; it then wakes one process. */
  predicate Passes(k: Kernel, step: Step, o: ObjId)
    requires Enabled(k, step) && o in k.objs && k.objs[o].Ring?
  {
    var a := Attempts(k, step);
    (a.Some? && a.value.obj == o && !Obstructed(k.objs[o], a.value.op)) || ClearsFull(k, step, o)
  }

  /** It does so past two processes that wait. */
  predicate Strands(k: Kernel, step: Step, o: ObjId)
    requires Enabled(k, step) && o in k.objs && k.objs[o].Ring?
  {
    Passes(k, step, o) && |k.objs[o].waiting| >= 2 && k.objs[o].cap > 0
  }

  // ----- what a step can do at a ring -----

  /** Nothing is transferred through o, nobody joins its wait list, and no loop on it begins. */
  ghost predicate Aside(k: Kernel, m: Kernel, o: ObjId) {
    && m.procs.Keys == k.procs.Keys && o in k.objs && o in m.objs && SameContents(k.objs[o], m.objs[o])
    && (forall p :: p in m.objs[o].waiting ==> p in k.objs[o].waiting)
    && SameLoops(k, m, o)
  }

  ghost predicate SameLoops(k: Kernel, m: Kernel, o: ObjId) {
    forall p :: p in k.procs && p in m.procs && m.procs[p].pc.Retry? && m.procs[p].pc.x.obj == o ==> m.procs[p].pc == k.procs[p].pc
  }

  /** The current process, obstructed, joins the list. */
  ghost predicate Joined(k: Kernel, m: Kernel, x: Xfer) {
    && k.cur in k.procs && x.obj in k.objs && Obstructed(k.objs[x.obj], x.op)
    && m.procs.Keys == k.procs.Keys && m.objs == k.objs[x.obj := Listing(k, x.obj)]
    && m.procs[k.cur].pc.Retry? && m.procs[k.cur].pc.x == x
    && forall p :: p in k.procs && p != k.cur ==> m.procs[p].pc == k.procs[p].pc
  }

  /** One message more, one less, or none behind a clear of a full ring. */
  predicate Exchanged(b: Obj, c: Obj) {
    && b.Ring? && SameShape(b, c)
    && ((|b.msgs| < b.cap && |c.msgs| == |b.msgs| + 1) || |b.msgs| == |c.msgs| + 1 || (|b.msgs| == b.cap && c.msgs == []))
  }

  /** How many wait after one has been woken. */
  function OneLess(n: nat): nat { if n == 0 then 0 else n - 1 }

  ghost predicate Passed(k: Kernel, m: Kernel, o: ObjId) {
    && m.procs.Keys == k.procs.Keys && o in k.objs && o in m.objs && Exchanged(k.objs[o], m.objs[o])
    && |m.objs[o].waiting| == OneLess(|k.objs[o].waiting|)
    && (forall p :: p in m.objs[o].waiting ==> p in k.objs[o].waiting)
    && SameLoops(k, m, o)
  }

  /** A ring that is not full is cleared; nobody is woken. */
  ghost predicate Emptied(k: Kernel, m: Kernel, o: ObjId) {
    && m.procs == k.procs && o in k.objs && o in m.objs && k.objs[o].Ring? && SameShape(k.objs[o], m.objs[o])
    && |k.objs[o].msgs| != k.objs[o].cap && m.objs[o].msgs == [] && m.objs[o].waiting == k.objs[o].waiting
  }

  ghost predicate Effect(k: Kernel, m: Kernel, o: ObjId, a: Option<Xfer>, passes: bool) {
    if passes then Passed(k, m, o) else Aside(k, m, o) || (a.Some? && a.value.obj == o && Joined(k, m, a.value))
  }

  lemma AsideThen(k: Kernel, m: Kernel, n: Kernel, o: ObjId)
    requires Aside(k, m, o) && Aside(m, n, o)
    ensures Aside(k, n, o)
  {
  }

  lemma QuietAside(k: Kernel, m: Kernel, o: ObjId)
    requires Quiet(k, m) && o in k.objs
    ensures Aside(k, m, o)
  {
  }

  /** Changing another object, and waking after it. */
  lemma WrittenAside(k: Kernel, k1: Kernel, x: Xfer, o: ObjId)
    requires k.cur in k.procs && x.obj in k1.objs && o in k.objs && o != x.obj
    requires k1 == k.(objs := k.objs[x.obj := k1.objs[x.obj]], log := k1.log)
    ensures Aside(k, AfterTransfer(k1, x), o)
  {
    assert Aside(k, k1, o);
    AfterTransferStill(k1, x);
    QuietAside(k1, AfterTransfer(k1, x), o);
    AsideThen(k, k1, AfterTransfer(k1, x), o);
  }

  lemma CompleteAside(k: Kernel, x: Xfer, o: ObjId)
    requires k.cur in k.procs && x.obj in k.objs && Suits(k.objs[x.obj], x.op) && !Obstructed(k.objs[x.obj], x.op)
    requires o in k.objs && o != x.obj
    ensures Aside(k, Complete(k, x), o)
  {
    var b := k.objs[x.obj];
    match x.op
    case Send(m) => WrittenAside(k, Logged(WithObj(k, x.obj, b.(msgs := b.msgs + [m])), Sent(x.obj, m)), x, o);
    case Recv => WrittenAside(k, Logged(WithObj(k, x.obj, b.(msgs := b.msgs[1..])), Received(x.obj, b.msgs[0])), x, o);
    case Read =>
  }

  // ----- passing -----

  lemma {:induction false} WithoutLength(ps: seq<Pid>, p: Pid)
    requires p in ps
    ensures |Without(ps, p)| == |ps| - 1
  {
    if ps[0] != p {
      assert ps == [ps[0]] + ps[1..];
      WithoutLength(ps[1..], p);
    }
  }

  lemma WakesOne(k: Kernel, o: ObjId, disc: Disc)
    requires o in k.objs && forall p :: p in k.objs[o].waiting ==> p in k.procs
    ensures var m := WakeOne(k, o, disc);
            Quiet(k, m) && o in m.objs && |m.objs[o].waiting| == OneLess(|k.objs[o].waiting|)
  {
    QuietWakeOne(k, o, disc);
    var w := Woken(k, k.objs[o].waiting, disc);
    if w.Some? { WithoutLength(k.objs[o].waiting, w.value); }
  }

  /** A transfer through ring o, and the wake-up behind it. */
  lemma TransferPasses(k: Kernel, k1: Kernel, x: Xfer, m: Kernel)
    requires k.cur in k.procs && x.obj in k.objs && x.obj in k1.objs && forall p :: p in k.objs[x.obj].waiting ==> p in k.procs
    requires k1.procs == k.procs && k1.cur == k.cur && k1.objs[x.obj].waiting == k.objs[x.obj].waiting
    requires Exchanged(k.objs[x.obj], k1.objs[x.obj]) && m == AfterTransfer(k1, x)
    ensures Passed(k, m, x.obj)
  {
    AfterTransferStill(k1, x);
    WakesOne(k1, x.obj, x.disc);
    assert m.objs == WakeOne(k1, x.obj, x.disc).objs;
  }

  lemma CompletePasses(k: Kernel, x: Xfer, m: Kernel)
    requires k.cur in k.procs && x.obj in k.objs && Suits(k.objs[x.obj], x.op) && !Obstructed(k.objs[x.obj], x.op)
    requires k.objs[x.obj].Ring? && |k.objs[x.obj].msgs| <= k.objs[x.obj].cap
    requires (forall p :: p in k.objs[x.obj].waiting ==> p in k.procs) && m == Complete(k, x)
    ensures Passed(k, m, x.obj)
  {
    var b := k.objs[x.obj];
    match x.op
    case Send(msg) => TransferPasses(k, Logged(WithObj(k, x.obj, b.(msgs := b.msgs + [msg])), Sent(x.obj, msg)), x, m);
    case Recv => TransferPasses(k, Logged(WithObj(k, x.obj, b.(msgs := b.msgs[1..])), Received(x.obj, b.msgs[0])), x, m);
  }

  lemma ClearEffect(k: Kernel, h: Handle, m: Kernel)
    requires h.obj in k.objs && k.objs[h.obj].Ring? && m == Clear(k, h)
    requires forall p :: p in k.objs[h.obj].waiting ==> p in k.procs
    ensures if |k.objs[h.obj].msgs| == k.objs[h.obj].cap then Passed(k, m, h.obj) else Emptied(k, m, h.obj)
  {
    WakeOneKeeps(k, h.obj, h.disc);
    if |k.objs[h.obj].msgs| == k.objs[h.obj].cap { WakesOne(k, h.obj, h.disc); }
  }

  lemma ClearAside(k: Kernel, h: Handle, o: ObjId)
    requires h.obj in k.objs && k.objs[h.obj].Ring? && o in k.objs && o != h.obj
    ensures Aside(k, Clear(k, h), o)
  {
    QuietWakeOne(k, h.obj, h.disc);
    QuietAside(k, WakeOne(k, h.obj, h.disc), o);
  }

  // ----- joining -----

  /** What a blocking round does to objects and continuations. */
  ghost predicate JoinsAtMost(k: Kernel, m: Kernel, x: Xfer)
    requires k.cur in k.procs && x.obj in k.objs
  {
    && m.procs.Keys == k.procs.Keys && (forall p :: p in k.procs && p != k.cur ==> m.procs[p].pc == k.procs[p].pc)
    && if m.procs[k.cur].pc == User then m.objs == k.objs
       else m.procs[k.cur].pc.Retry? && m.procs[k.cur].pc.x == x && m.objs == k.objs[x.obj := Listing(k, x.obj)]
  }

  lemma AllocPcs(k: Kernel, time: int, w: What)
    ensures var m := EventAlloc(k, time, w);
            && m.procs.Keys == k.procs.Keys && m.objs == k.objs
            && (forall p :: p in k.procs ==> m.procs[p].pc == k.procs[p].pc)
  {
  }

  lemma BlockEffect(k: Kernel, x: Xfer, outer: int, t1: int, t2: int, m: Kernel)
    requires k.cur in k.procs && x.obj in k.objs && m == Block(k, x, outer, t1, t2)
    ensures JoinsAtMost(k, m, x)
  {
    if x.timeout != INFINITE && outer > t1 {
      BlockTimedEffect(k, x, outer, t1, t2, m);
    }
  }

  lemma BlockTimedEffect(k: Kernel, x: Xfer, outer: int, t1: int, t2: int, m: Kernel)
    requires k.cur in k.procs && x.obj in k.objs && m == Block(k, x, outer, t1, t2) && x.timeout != INFINITE && outer > t1
    ensures JoinsAtMost(k, m, x)
  {
    var kind := k.objs[x.obj].KindOf();
    var inner := InnerDeadline(kind, x, outer, t2);
    var q := BlockedProc(k.procs[k.cur], kind, x, outer, inner, Some(k.nextCtx));
    AllocPcs(WithProc(NewContext(k, x.obj), k.cur, q), inner, BlockTimeout(kind, k.nextCtx));
  }

  // ----- every step -----

  ghost predicate RingOk(k: Kernel, o: ObjId) {
    && o in k.objs && k.objs[o].Ring? && |k.objs[o].msgs| <= k.objs[o].cap
    && forall p :: p in k.objs[o].waiting ==> p in k.procs
  }

  predicate GoesThrough(k: Kernel, x: Xfer, o: ObjId)
    requires o in k.objs
  {
    x.obj == o && !Obstructed(k.objs[o], x.op)
  }

  lemma LoopOnEffect(k: Kernel, x: Xfer, outer: int, t1: int, t2: int, m: Kernel, o: ObjId)
    requires k.cur in k.procs && x.obj in k.objs && Suits(k.objs[x.obj], x.op) && RingOk(k, o)
    requires m == LoopOn(k, x, outer, t1, t2)
    ensures Effect(k, m, o, Some(x), GoesThrough(k, x, o))
  {
    if Obstructed(k.objs[x.obj], x.op) {
      BlockEffect(k, x, outer, t1, t2, m);
    } else if x.obj == o {
      CompletePasses(k, x, m);
    } else {
      CompleteAside(k, x, o);
    }
  }

  lemma StartXferEffect(k: Kernel, x: Xfer, t0: int, t1: int, t2: int, m: Kernel, o: ObjId)
    requires k.cur in k.procs && x.obj in k.objs && Suits(k.objs[x.obj], x.op) && RingOk(k, o)
    requires m == StartXfer(k, x, t0, t1, t2)
    ensures Effect(k, m, o, Some(x), GoesThrough(k, x, o))
  {
    if Obstructed(k.objs[x.obj], x.op) && x.timeout == 0 {
      assert m.procs == k.procs && m.objs == k.objs;
    } else {
      LoopOnEffect(k, x, t0 + x.timeout, t1, t2, m, o);
    }
  }

  /** Only the current process has left its loop. */
  ghost predicate LeftLoop(k: Kernel, m: Kernel) {
    && k.cur in k.procs && m.cur == k.cur && m.objs == k.objs
    && m.procs == k.procs[k.cur := k.procs[k.cur].(giving := Not, pc := User)]
  }

  lemma LeftThen(k: Kernel, k1: Kernel, m: Kernel, o: ObjId, a: Option<Xfer>, passes: bool)
    requires LeftLoop(k, k1) && o in k.objs && Effect(k1, m, o, a, passes)
    ensures Effect(k, m, o, a, passes)
  {
    if !passes && !Aside(k1, m, o) { assert Listing(k1, o) == Listing(k, o); }
  }

  lemma ResumeOn(k: Kernel, k1: Kernel, x: Xfer, outer: int, t1: int, t2: int, m: Kernel, o: ObjId)
    requires LeftLoop(k, k1) && RingOk(k, o) && x.obj in k.objs && Suits(k.objs[x.obj], x.op) && m == LoopOn(k1, x, outer, t1, t2)
    ensures Effect(k, m, o, Some(x), GoesThrough(k, x, o))
  {
    LoopOnEffect(k1, x, outer, t1, t2, m, o);
    LeftThen(k, k1, m, o, Some(x), GoesThrough(k, x, o));
  }

  lemma ResumeEffect(k: Kernel, t: int, t1: int, t2: int, m: Kernel, o: ObjId)
    requires k.cur in k.procs && Enabled(k, Continue(t, t1, t2)) && k.procs[k.cur].pc.Retry? && RingOk(k, o)
    requires m == Resume(k, t, t1, t2)
    ensures var a := Attempts(k, Continue(t, t1, t2)); Effect(k, m, o, a, a.Some? && GoesThrough(k, a.value, o))
  {
    var pc := k.procs[k.cur].pc;
    var k1 := SetCur(ContextFreed(k, pc), Not, User);
    assert LeftLoop(k, k1);
    if pc.x.timeout == INFINITE || t < pc.inner {
      ResumeOn(k, k1, pc.x, pc.outer, t1, t2, m, o);
    } else {
      LeftAside(k, m, o);
    }
  }

  lemma LeftAside(k: Kernel, m: Kernel, o: ObjId)
    requires LeftLoop(k, m) && o in k.objs
    ensures Aside(k, m, o)
  {
  }

  lemma DisplayAside(k: Kernel, id: nat, msg: Msg, o: ObjId)
    requires k.cur in k.procs && o in k.objs && k.objs[o].Ring?
    ensures Aside(k, DoDisplay(k, id, msg), o)
  {
    if HasBoard(k, id) && 0 < |msg| <= k.objs[k.handles[(BoardKind, id)].obj].maxSize {
      var a := k.handles[(BoardKind, id)].obj;
      var k1 := Logged(WithObj(k, a, Board(k.objs[a].maxSize, msg, true, k.objs[a].waiting)), Shown(a, msg));
      QuietWakeAll(k1, a);
      QuietAside(k1, WakeAll(k1, a), o);
      AsideThen(k, k1, WakeAll(k1, a), o);
      if WakeAll(k1, a).cur in WakeAll(k1, a).procs { CurAside(WakeAll(k1, a), Yes(Fresh(false)), o); }
      AsideThen(k, WakeAll(k1, a), DoDisplay(k, id, msg), o);
    }
  }

  lemma CurAside(k: Kernel, giving: Giving, o: ObjId)
    requires k.cur in k.procs && o in k.objs
    ensures Aside(k, SetCur(k, giving, User), o)
  {
  }

  /** A call that asks for a transfer, or fails its checks. */
  lemma AskedEffect(k: Kernel, c: Call, t0: int, t1: int, t2: int, m: Kernel, o: ObjId)
    requires k.cur in k.procs && (c.SendTo? || c.ReceiveFrom? || c.ReadBoard?) && RingOk(k, o)
    requires KindsOk(k) && m == Syscall(k, c, t0, t1, t2)
    ensures var a := Asked(k, c); Effect(k, m, o, a, a.Some? && GoesThrough(k, a.value, o))
  {
    var a := Asked(k, c);
    if a.Some? {
      StartXferEffect(k, a.value, t0, t1, t2, m, o);
    } else {
      assert m == k;
    }
  }

  lemma ClearPortEffect(k: Kernel, id: nat, m: Kernel, o: ObjId)
    requires RingOk(k, o) && ReceiveCheck(k, PortKind, id) == NoError && k.objs[k.handles[(PortKind, id)].obj].Ring?
    requires m == Clear(k, k.handles[(PortKind, id)])
    ensures if k.handles[(PortKind, id)].obj != o then Aside(k, m, o)
            else if |k.objs[o].msgs| == k.objs[o].cap then Passed(k, m, o) else Emptied(k, m, o)
  {
    var h := k.handles[(PortKind, id)];
    if h.obj == o { ClearEffect(k, h, m); } else { ClearAside(k, h, o); }
  }

  ghost predicate KindsOk(k: Kernel) {
    forall a :: a in k.objs && k.objs[a].Ring? ==> k.objs[a].kind != BoardKind
  }

  lemma EnterEffect(k: Kernel, c: Call, t0: int, t1: int, t2: int, m: Kernel, o: ObjId)
    requires Enabled(k, Enter(c, t0, t1, t2)) && RingOk(k, o) && KindsOk(k) && m == Syscall(k, c, t0, t1, t2)
    ensures var passes := Passes(k, Enter(c, t0, t1, t2), o); Effect(k, m, o, Asked(k, c), passes) || (!passes && Emptied(k, m, o))
  {
    if !Communicates(c) {
      QuietCall(k, c, t0, t1, t2);
      QuietAside(k, m, o);
    } else {
      match c
      case Display(id, msg) => DisplayAside(k, id, msg, o);
      case ClearBoard(id) =>
      case ClearPort(id) =>
        if ReceiveCheck(k, PortKind, id) == NoError && k.objs[k.handles[(PortKind, id)].obj].Ring? { ClearPortEffect(k, id, m, o); }
      case _ => AskedEffect(k, c, t0, t1, t2, m, o);
    }
  }

  lemma KindsSound(k: Kernel)
    requires Inv(k)
    ensures KindsOk(k)
  {
    forall a | a in k.objs && k.objs[a].Ring? ensures k.objs[a].kind != BoardKind { assert ObjOk(k, a); }
  }

  lemma SoundRings(k: Kernel, o: ObjId)
    requires Inv(k) && o in k.objs && k.objs[o].Ring?
    ensures RingOk(k, o) && KindsOk(k)
  {
    assert ObjOk(k, o);
    KindsSound(k);
  }

  /** A step lets a message pass through ring o, or joins its list, or empties it while it is not full, or leaves it
      aside. */
  lemma StepEffect(k: Kernel, step: Step, m: Kernel, o: ObjId)
    requires Good(k) && Enabled(k, step) && o in k.objs && k.objs[o].Ring? && m == Next(k, step)
    ensures Effect(k, m, o, Attempts(k, step), Passes(k, step, o)) || (!Passes(k, step, o) && Emptied(k, m, o))
  {
    SoundRings(k, o);
    match step
    case Enter(c, t0, t1, t2) => EnterEffect(k, c, t0, t1, t2, m, o);
    case Continue(t, t1, t2) =>
      if k.procs[k.cur].pc.SuspendCheck? {
        CurAside(k, Not, o);
      } else {
        ResumeEffect(k, t, t1, t2, m, o);
      }
    case Interrupt(t, nextPart, nextTime) => QuietTick(k, t, nextPart, nextTime); QuietAside(k, m, o);
    case _ => QuietElections(k, step); QuietAside(k, m, o);
  }

  // ----- when waiting stays justified -----

  lemma AsideJustified(k: Kernel, m: Kernel, o: ObjId)
    requires Justified(k, o) && Aside(k, m, o)
    ensures Justified(m, o)
  {
  }

  lemma JoinedJustified(k: Kernel, m: Kernel, x: Xfer)
    requires Justified(k, x.obj) && Joined(k, m, x)
    ensures Justified(m, x.obj)
  {
  }

  lemma EmptiedJustified(k: Kernel, m: Kernel, o: ObjId)
    requires Justified(k, o) && Emptied(k, m, o)
    ensures Justified(m, o)
  {
  }

  /** Whoever is left on the list waits for nothing. */
  lemma PassedExactly(k: Kernel, m: Kernel, o: ObjId)
    requires Justified(k, o) && Passed(k, m, o) && ObjOk(m, o)
    ensures Justified(m, o) <==> |k.objs[o].waiting| <= 1 || k.objs[o].cap == 0
  {
    var b, c := k.objs[o], m.objs[o];
    if |b.waiting| > 1 {
      var p := c.waiting[0];
      assert p in c.waiting && p in b.waiting;
      assert m.procs[p].pc == k.procs[p].pc;
      assert Obstructed(b, k.procs[p].pc.x.op);
    }
  }

  lemma EffectExactly(k: Kernel, m: Kernel, o: ObjId, a: Option<Xfer>, passes: bool)
    requires Justified(k, o) && (Effect(k, m, o, a, passes) || (!passes && Emptied(k, m, o))) && (passes ==> o in m.objs && ObjOk(m, o))
    ensures Justified(m, o) <==> !(passes && |k.objs[o].waiting| >= 2 && k.objs[o].cap > 0)
  {
    if passes {
      PassedExactly(k, m, o);
    } else if Emptied(k, m, o) {
      EmptiedJustified(k, m, o);
    } else if Aside(k, m, o) {
      AsideJustified(k, m, o);
    } else {
      JoinedJustified(k, m, a.value);
    }
  }

  /** A step that lets a message pass is fitting. */
  lemma PassedSound(k: Kernel, step: Step, m: Kernel, o: ObjId)
    requires Good(k) && Enabled(k, step) && m == Next(k, step) && o in k.objs && k.objs[o].Ring? && Passes(k, step, o)
    ensures Inv(m)
  {
    StepGood(k, step);
  }

  lemma ObjSound(m: Kernel, o: ObjId)
    requires Inv(m) && o in m.objs
    ensures ObjOk(m, o)
  {
  }

  /** A step keeps every wait at ring o justified if and only if it does not strand one: it does not transfer past
      two waiting processes. */
  lemma JustifiedExactly(k: Kernel, step: Step, m: Kernel, o: ObjId)
    requires Good(k) && Enabled(k, step) && m == Next(k, step) && Justified(k, o)
    ensures Justified(m, o) <==> !Strands(k, step, o)
  {
    var a, passes := Attempts(k, step), Passes(k, step, o);
    StepEffect(k, step, m, o);
    if passes {
      PassedSound(k, step, m, o);
      ObjSound(m, o);
    }
    EffectExactly(k, m, o, a, passes);
  }

  // ----- over runs -----

  ghost predicate AlwaysJustified(k: Kernel, steps: seq<Step>, o: ObjId)
    requires Runs(k, steps)
    decreases |steps|
  {
    Justified(Final(k, steps), o) && (steps == [] || AlwaysJustified(k, steps[..|steps| - 1], o))
  }

  /** No step of a run strands a process that waits at ring o. */
  ghost predicate NeverStrands(k: Kernel, steps: seq<Step>, o: ObjId)
    requires Runs(k, steps)
    decreases |steps|
  {
    steps == [] ||
    (var before := steps[..|steps| - 1];
     var m := Final(k, before);
     NeverStrands(k, before, o) && !(o in m.objs && m.objs[o].Ring? && Strands(m, steps[|steps| - 1], o)))
  }

  lemma NobodyYet(k: Kernel, o: ObjId)
    requires Boot(k) && o in k.objs && k.objs[o].Ring?
    ensures Justified(k, o)
  {
    assert FreshObj(k.objs[o]);
  }

  /** Throughout a run everybody who waits at ring o waits for good reason, if and only if no step of the run
      transfers past two waiting processes. */
  lemma {:induction false} JustifiedThroughout(k: Kernel, steps: seq<Step>, o: ObjId)
    requires Boot(k) && Runs(k, steps) && AlwaysFitting(k, steps) && o in k.objs && k.objs[o].Ring?
    ensures AlwaysJustified(k, steps, o) <==> NeverStrands(k, steps, o)
    decreases |steps|
  {
    if steps == [] {
      NobodyYet(k, o);
    } else {
      var before := steps[..|steps| - 1];
      JustifiedThroughout(k, before, o);
      RunSound(k, before);
      if AlwaysJustified(k, before, o) {
        JustifiedExactly(Final(k, before), steps[|steps| - 1], Final(k, steps), o);
      }
    }
  }

  // ----- one sender and one receiver -----

  /** A continuation of p inside a loop on ring o is the sender's send or the receiver's receive. */
  predicate Role(pc: Pc, p: Pid, o: ObjId, s: Pid, r: Pid) {
    pc.Retry? && pc.x.obj == o ==> Fills(pc.x.op, p, s, r)
  }

  predicate Fills(op: Op, p: Pid, s: Pid, r: Pid) {
    (op.Send? && p == s) || (op.Recv? && p == r)
  }

  ghost predicate Roles(k: Kernel, o: ObjId, s: Pid, r: Pid) {
    forall p :: p in k.procs ==> Role(k.procs[p].pc, p, o, s, r)
  }

  ghost predicate Pair(k: Kernel, o: ObjId, s: Pid, r: Pid) {
    s != r && Justified(k, o) && k.objs[o].cap > 0 && Roles(k, o, s, r)
  }

  /** Only s calls to send to o, and only r to receive from it. */
  predicate Entitled(k: Kernel, step: Step, o: ObjId, s: Pid, r: Pid) {
    step.Enter? ==> var a := Asked(k, step.call); a.Some? && a.value.obj == o ==> Fills(a.value.op, k.cur, s, r)
  }

  lemma RolesKept(k: Kernel, m: Kernel, o: ObjId, a: Option<Xfer>, passes: bool, s: Pid, r: Pid)
    requires Roles(k, o, s, r) && (Effect(k, m, o, a, passes) || Emptied(k, m, o))
    requires a.Some? && a.value.obj == o ==> Fills(a.value.op, k.cur, s, r)
    ensures Roles(m, o, s, r)
  {
  }

  lemma ShapeKept(k: Kernel, m: Kernel, o: ObjId, a: Option<Xfer>, passes: bool)
    requires o in k.objs && k.objs[o].Ring? && (Effect(k, m, o, a, passes) || Emptied(k, m, o))
    ensures o in m.objs && m.objs[o].Ring? && m.objs[o].cap == k.objs[o].cap
  {
  }

  lemma AllSame(ps: seq<Pid>, x: Pid)
    requires Distinct(ps) && forall p :: p in ps ==> p == x
    ensures |ps| <= 1
  {
    if ps != [] {
      var tail := ps[1..];
      assert ps == [ps[0]] + tail;
      HeadListed(ps);
      HeadListed(tail);
      assert forall p :: p in tail ==> p in ps;
      assert tail == [];
    }
  }

  lemma HeadListed(ps: seq<Pid>)
    ensures ps == [] || ps[0] in ps
  {
  }

  /** The two are never on the list together. */
  lemma OneWaits(k: Kernel, o: ObjId, s: Pid, r: Pid)
    requires Inv(k) && Pair(k, o, s, r)
    ensures |k.objs[o].waiting| <= 1
  {
    var b := k.objs[o];
    assert ObjOk(k, o);
    forall p | p in b.waiting ensures p == if b.msgs == [] then r else s {
      assert Role(k.procs[p].pc, p, o, s, r);
    }
    AllSame(b.waiting, if b.msgs == [] then r else s);
  }

  lemma StepPair(k: Kernel, step: Step, m: Kernel, o: ObjId, s: Pid, r: Pid)
    requires Good(k) && Enabled(k, step) && m == Next(k, step) && Pair(k, o, s, r) && Entitled(k, step, o, s, r)
    ensures Pair(m, o, s, r)
  {
    OneWaits(k, o, s, r);
    JustifiedExactly(k, step, m, o);
    StepEffect(k, step, m, o);
    var a, passes := Attempts(k, step), Passes(k, step, o);
    if step.Continue? { assert Role(k.procs[k.cur].pc, k.cur, o, s, r); }
    RolesKept(k, m, o, a, passes, s, r);
    ShapeKept(k, m, o, a, passes);
  }

  /** Every step of a run respects the roles of sender and receiver. */
  ghost predicate AlwaysEntitled(k: Kernel, steps: seq<Step>, o: ObjId, s: Pid, r: Pid)
    requires Runs(k, steps)
    decreases |steps|
  {
    steps == [] ||
    (var before := steps[..|steps| - 1];
     AlwaysEntitled(k, before, o, s, r) && Entitled(Final(k, before), steps[|steps| - 1], o, s, r))
  }

  lemma {:induction false} RunPair(k: Kernel, steps: seq<Step>, o: ObjId, s: Pid, r: Pid)
    requires Boot(k) && Runs(k, steps) && AlwaysFitting(k, steps)
    requires s != r && o in k.objs && k.objs[o].Ring? && k.objs[o].cap > 0
    requires AlwaysEntitled(k, steps, o, s, r)
    ensures Pair(Final(k, steps), o, s, r)
    decreases |steps|
  {
    if steps != [] {
      var before := steps[..|steps| - 1];
      RunPair(k, before, o, s, r);
      RunSound(k, before);
      StepPair(Final(k, before), steps[|steps| - 1], Final(k, steps), o, s, r);
    } else {
      assert FreshObj(k.objs[o]);
    }
  }

  /** Blocked in a transfer through o. */
  predicate BlockedOn(k: Kernel, p: Pid, o: ObjId) {
    p in k.procs && OnList(k.procs[p]) && k.procs[p].pc.Retry? && k.procs[p].pc.x.obj == o
  }

  /** No wake-up is lost between one sender and one receiver: a blocked sender finds the ring full, a blocked
      receiver finds it empty, and the two are never blocked together. */
  lemma NoLostWakeup(k: Kernel, steps: seq<Step>, o: ObjId, s: Pid, r: Pid)
    requires Boot(k) && Runs(k, steps) && AlwaysFitting(k, steps)
    requires s != r && o in k.objs && k.objs[o].Ring? && k.objs[o].cap > 0
    requires AlwaysEntitled(k, steps, o, s, r)
    ensures var f := Final(k, steps);
            && o in f.objs && f.objs[o].Ring?
            && (BlockedOn(f, s, o) ==> |f.objs[o].msgs| == f.objs[o].cap)
            && (BlockedOn(f, r, o) ==> f.objs[o].msgs == [])
            && !(BlockedOn(f, s, o) && BlockedOn(f, r, o))
  {
    RunPair(k, steps, o, s, r);
    var f := Final(k, steps);
    RunSound(k, steps);
    if BlockedOn(f, s, o) { assert ProcOk(f, s) && Role(f.procs[s].pc, s, o, s, r); }
    if BlockedOn(f, r, o) { assert ProcOk(f, r) && Role(f.procs[r].pc, r, o, s, r); }
  }
}
