/** Who is served at an object: which of the waiting processes a transfer, a clear or a display readies, where on the
    list a process waits, and what else these calls do to processes. */
module KernelServing {
  import opened Common
  import opened TimerQueue
  import opened Election
  import opened KernelSpec
  import opened KernelInv
  import opened KernelSteps
  import opened KernelCalls
  import opened KernelTimer
  import opened KernelFifo
  import opened KernelRuns
  import opened KernelWakeups

  // ----- one waiting process -----

  /** Position i of a wait list holds whoever is served first: by FIFO the head, by PRIORITY the first in list order of
      those of maximal current priority. */
  ghost predicate Foremost(procs: map<Pid, Proc>, ps: seq<Pid>, disc: Disc, i: int) {
    && 0 <= i < |ps| && (forall p :: p in ps ==> p in procs)
    && (disc == Fifo ==> i == 0)
    && (disc == Priority ==>
          forall j :: 0 <= j < |ps| ==>
            procs[ps[j]].pri <= procs[ps[i]].pri && (j < i ==> procs[ps[j]].pri < procs[ps[i]].pri))
  }

  lemma ForemostOnce(procs: map<Pid, Proc>, ps: seq<Pid>, disc: Disc, i: int, j: int)
    requires Foremost(procs, ps, disc, i) && Foremost(procs, ps, disc, j)
    ensures i == j
  {
    assert procs[ps[i]].pri <= procs[ps[j]].pri <= procs[ps[i]].pri || disc == Fifo;
  }

  /** The process was blocked, and is READY without a timer, otherwise as it was. */
  predicate Readied(q: Proc, r: Proc) {
    OnList(q) && r == q.(state := Ready, timer := None)
  }

  /** The process runs on, up to where it continues and whether it gives up. */
  predicate RunsOn(q: Proc, r: Proc) {
    r == q.(giving := r.giving, pc := r.pc)
  }

  /** All processes but p and the current one are as they were. */
  ghost predicate Apart(k: Kernel, r: Kernel, p: Option<Pid>) {
    && r.cur == k.cur && k.cur in k.procs && r.procs.Keys == k.procs.Keys && RunsOn(k.procs[k.cur], r.procs[k.cur])
    && forall x :: x in k.procs && x != k.cur && Some(x) != p ==> r.procs[x] == k.procs[x]
  }

  /** Of those waiting at o exactly the foremost is readied, and off the list; nothing else happens to any process but
      the current one, which runs on. */
  ghost predicate Serves(k: Kernel, r: Kernel, o: ObjId, disc: Disc, i: int) {
    && o in k.objs && o in r.objs && Foremost(k.procs, k.objs[o].waiting, disc, i)
    && (var ps := k.objs[o].waiting;
        && r.objs[o].waiting == ps[..i] + ps[i + 1..]
        && ps[i] != k.cur && Apart(k, r, Some(ps[i])) && Readied(k.procs[ps[i]], r.procs[ps[i]]))
  }

  ghost predicate ServesNobody(k: Kernel, r: Kernel, o: ObjId) {
    o in k.objs && o in r.objs && k.objs[o].waiting == [] && r.objs[o].waiting == [] && Apart(k, r, None)
  }

  /** The foremost, if anybody waits. */
  ghost predicate ServesOne(k: Kernel, r: Kernel, o: ObjId, disc: Disc) {
    ServesNobody(k, r, o) || exists i :: Serves(k, r, o, disc, i)
  }

  /** No event has come to the queue. */
  ghost predicate Fewer(q: seq<Event>, r: seq<Event>) {
    forall e :: e in r ==> e in q
  }

  lemma {:induction false} RemoveFewer(q: seq<Event>, id: nat)
    ensures Fewer(q, Remove(q, id))
  {
    if q != [] {
      assert q == [q[0]] + q[1..];
      RemoveFewer(q[1..], id);
    }
  }

  lemma {:induction false} WithoutAt(ps: seq<Pid>, i: nat)
    requires Distinct(ps) && i < |ps|
    ensures Without(ps, ps[i]) == ps[..i] + ps[i + 1..]
  {
    if i > 0 {
      WithoutAt(ps[1..], i - 1);
      assert ps[0] != ps[i];
      assert ps[..i] == [ps[0]] + ps[1..][..i - 1] && ps[i + 1..] == ps[1..][i..];
    }
  }

  lemma WokenForemost(k: Kernel, ps: seq<Pid>, disc: Disc) returns (i: nat)
    requires ps != [] && forall p :: p in ps ==> p in k.procs
    ensures Foremost(k.procs, ps, disc, i) && Woken(k, ps, disc) == Some(ps[i])
  {
    var cs := WaitingCandidates(k.procs, ps);
    BestIsFirstMaximal(cs, |cs|);
    assert cs[0].mayRun;
    i := if disc == Fifo then 0 else Best(cs, |cs|).value;
    assert forall j :: 0 <= j < |ps| ==> ps[j] in ps && cs[j] == Candidate(true, k.procs[ps[j]].pri);
  }

  lemma ReadiedByWake(k: Kernel, o: ObjId, p: Pid, r: Kernel)
    requires o in k.objs && p in k.procs && p != k.cur && k.cur in k.procs && r == Wake(k, o, p)
    requires OnList(k.procs[p]) && (k.procs[p].timer.Some? ==> k.procs[p].reason.BlockedTimed?)
    ensures Apart(k, r, Some(p)) && Readied(k.procs[p], r.procs[p]) && Fewer(k.queue, r.queue) && r.nextEvent == k.nextEvent
    ensures r.procs[k.cur] == k.procs[k.cur]
    ensures r.objs == k.objs[o := k.objs[o].Awaited(Without(k.objs[o].waiting, p))]
  {
    if k.procs[p].timer.Some? { RemoveFewer(k.queue, k.procs[p].timer.value); }
    assert r.procs == k.procs[p := k.procs[p].(state := Ready, timer := None)];
  }

  lemma WokenExactly(k: Kernel, ps: seq<Pid>, disc: Disc)
    requires forall p :: p in ps ==> p in k.procs
    ensures ps == [] ==> Woken(k, ps, disc) == None
    ensures ps != [] ==> exists i :: Foremost(k.procs, ps, disc, i) && Woken(k, ps, disc) == Some(ps[i])
  {
    if ps != [] { var i := WokenForemost(k, ps, disc); }
  }

  /** Everybody on the list of o is blocked, listed once, and not the current process. */
  ghost predicate Awaiting(k: Kernel, o: ObjId) {
    && o in k.objs && k.cur in k.procs && k.cur !in k.objs[o].waiting && Distinct(k.objs[o].waiting)
    && forall p :: p in k.objs[o].waiting ==>
         p in k.procs && OnList(k.procs[p]) && (k.procs[p].timer.Some? ==> k.procs[p].reason.BlockedTimed?)
  }

  lemma SoundAwaiting(k: Kernel, o: ObjId)
    requires Good(k) && k.mode == Executing && k.procs[k.cur].giving == Not && o in k.objs
    ensures Awaiting(k, o)
  {
    CurIdle(k);
    assert ObjOk(k, o);
    forall p | p in k.objs[o].waiting ensures k.procs[p].timer.Some? ==> k.procs[p].reason.BlockedTimed? { assert ProcOk(k, p); }
  }

  lemma WakesForemost(k: Kernel, o: ObjId, disc: Disc, i: nat, r: Kernel)
    requires Awaiting(k, o) && Foremost(k.procs, k.objs[o].waiting, disc, i) && r == Wake(k, o, k.objs[o].waiting[i])
    ensures Serves(k, r, o, disc, i) && Fewer(k.queue, r.queue) && r.nextEvent == k.nextEvent && r.procs[k.cur] == k.procs[k.cur]
    ensures r.objs == k.objs[o := k.objs[o].Awaited(r.objs[o].waiting)] && r.log == k.log
  {
    var ps := k.objs[o].waiting;
    WithoutAt(ps, i);
    ReadiedByWake(k, o, ps[i], r);
  }

  lemma WakeServes(k: Kernel, o: ObjId, disc: Disc, r: Kernel)
    requires Awaiting(k, o) && r == WakeOne(k, o, disc)
    ensures ServesOne(k, r, o, disc) && Fewer(k.queue, r.queue) && r.nextEvent == k.nextEvent && r.procs[k.cur] == k.procs[k.cur]
    ensures r.objs == k.objs[o := k.objs[o].Awaited(r.objs[o].waiting)] && r.log == k.log
  {
    if k.objs[o].waiting == [] {
      assert k.objs[o := k.objs[o].Awaited([])] == k.objs;
    } else {
      var i := WokenForemost(k, k.objs[o].waiting, disc);
      WakesForemost(k, o, disc, i, r);
    }
  }

  /** Before and behind the wake-up, the lists and all processes but the current one are as there. */
  lemma ServedFrom(k: Kernel, k1: Kernel, m: Kernel, r: Kernel, o: ObjId, disc: Disc)
    requires ServesOne(k1, m, o, disc) && k1.procs == k.procs && k1.cur == k.cur == r.cur && k.cur in r.procs
    requires o in k.objs && o in r.objs && k1.objs[o].waiting == k.objs[o].waiting && r.objs[o].waiting == m.objs[o].waiting
    requires r.procs == m.procs[k.cur := m.procs[k.cur].(giving := r.procs[k.cur].giving, pc := r.procs[k.cur].pc)]
    ensures ServesOne(k, r, o, disc)
  {
    if !ServesNobody(k1, m, o) {
      var i :| Serves(k1, m, o, disc, i);
      assert Serves(k, r, o, disc, i);
    }
  }

  // ----- transfers -----

  /** How the current process goes on behind a transfer: a buffer makes it give up if somebody was waiting. */
  function GoesOn(k: Kernel, o: ObjId): Giving
    requires o in k.objs
  {
    if k.objs[o].waiting != [] && k.objs[o].KindOf() == BufferKind then Yes(Fresh(false)) else Not
  }

  /** What a transfer through o leaves as it was. */
  ghost predicate AtRing(k: Kernel, r: Kernel, o: ObjId) {
    && Fewer(k.queue, r.queue) && r.nextEvent == k.nextEvent
    && r.objs.Keys == k.objs.Keys && forall a :: a in k.objs && a != o ==> r.objs[a] == k.objs[a]
  }

  lemma AfterServes(k: Kernel, k1: Kernel, x: Xfer, r: Kernel)
    requires Awaiting(k, x.obj) && x.obj in k1.objs && k1.cur in k1.procs && r == AfterTransfer(k1, x)
    requires k1 == k.(objs := k.objs[x.obj := k1.objs[x.obj]], log := k1.log)
    requires k1.objs[x.obj].waiting == k.objs[x.obj].waiting && k1.objs[x.obj].KindOf() == k.objs[x.obj].KindOf()
    ensures ServesOne(k, r, x.obj, x.disc) && AtRing(k, r, x.obj) && r.log == k1.log
    ensures r.procs[k.cur] == k.procs[k.cur].(giving := GoesOn(k, x.obj), pc := User)
  {
    var m := WakeOne(k1, x.obj, x.disc);
    WakeServes(k1, x.obj, x.disc, m);
    AfterIs(k1, x, m, r);
    ServedFrom(k, k1, m, r, x.obj, x.disc);
  }

  lemma AfterIs(k: Kernel, x: Xfer, m: Kernel, r: Kernel)
    requires k.cur in k.procs && x.obj in k.objs && r == AfterTransfer(k, x) && m == WakeOne(k, x.obj, x.disc)
    ensures m.cur == k.cur && k.cur in m.procs && r == SetCur(m, GoesOn(k, x.obj), User)
  {
  }

  /** A completed send or receive. */
  lemma CompleteServes(k: Kernel, x: Xfer, r: Kernel)
    requires Awaiting(k, x.obj) && Suits(k.objs[x.obj], x.op) && !Obstructed(k.objs[x.obj], x.op) && !x.op.Read? && r == Complete(k, x)
    ensures ServesOne(k, r, x.obj, x.disc) && AtRing(k, r, x.obj)
    ensures r.procs[k.cur] == k.procs[k.cur].(giving := GoesOn(k, x.obj), pc := User)
    ensures r.log == k.log + [EntryOf(k.objs[x.obj], x)]
  {
    var b := k.objs[x.obj];
    match x.op
    case Send(m) => AfterServes(k, Logged(WithObj(k, x.obj, b.(msgs := b.msgs + [m])), Sent(x.obj, m)), x, r);
    case Recv => AfterServes(k, Logged(WithObj(k, x.obj, b.(msgs := b.msgs[1..])), Received(x.obj, b.msgs[0])), x, r);
  }

  lemma ClearServes(k: Kernel, h: Handle, r: Kernel)
    requires Awaiting(k, h.obj) && k.objs[h.obj].Ring? && r == Clear(k, h)
    ensures |k.objs[h.obj].msgs| == k.objs[h.obj].cap ==> ServesOne(k, r, h.obj, h.disc)
    ensures |k.objs[h.obj].msgs| != k.objs[h.obj].cap ==> r.procs == k.procs && r.objs[h.obj].waiting == k.objs[h.obj].waiting
    ensures AtRing(k, r, h.obj) && r.log == k.log + [Cleared(h.obj)] && r.procs[k.cur] == k.procs[k.cur]
  {
    var o := h.obj;
    var m := WakeOne(k, o, h.disc);
    WakeServes(k, o, h.disc, m);
    ClearIs(k, h, m, r);
    if |k.objs[o].msgs| == k.objs[o].cap {
      assert r.procs == m.procs[k.cur := m.procs[k.cur]];
      ServedFrom(k, k, m, r, o, h.disc);
    }
  }

  lemma ClearIs(k: Kernel, h: Handle, m: Kernel, r: Kernel)
    requires h.obj in k.objs && k.objs[h.obj].Ring? && r == Clear(k, h) && m == WakeOne(k, h.obj, h.disc)
    ensures h.obj in m.objs && m.objs[h.obj].Ring?
    ensures var b := if |k.objs[h.obj].msgs| == k.objs[h.obj].cap then m else k;
            r == b.(objs := b.objs[h.obj := b.objs[h.obj].(msgs := [])], log := k.log + [Cleared(h.obj)])
  {
    WakeOneKeeps(k, h.obj, h.disc);
  }

  // ----- steps -----

  /** The kernel in which the transfer that a step tries begins: behind a give-up the caller has left its loop and
      freed its timer context. */
  function Begun(k: Kernel, s: Step): Kernel
    requires Enabled(k, s) && (s.Continue? ==> k.procs[k.cur].pc.Retry?)
  {
    if s.Continue? then SetCur(ContextFreed(k, k.procs[k.cur].pc), Not, User) else k
  }

  lemma BegunCalling(k: Kernel, s: Step)
    requires Good(k) && Enabled(k, s) && (s.Enter? || s.Continue?) && (s.Continue? ==> k.procs[k.cur].pc.Retry?)
    ensures Calling(Begun(k, s))
  {
    if s.Continue? {
      assert ProcOk(k, k.cur);
      if k.procs[k.cur].pc.x.timeout != INFINITE { FreeCtx(k); } else { CurIdle(k); ReturnGood(k, Not, User); }
    }
  }

  /** The deadline of the transfer a step tries. */
  function Deadline(k: Kernel, s: Step, x: Xfer): int
    requires Enabled(k, s) && (s.Enter? || (s.Continue? && k.procs[k.cur].pc.Retry?))
  {
    if s.Enter? then s.t0 + x.timeout else k.procs[k.cur].pc.outer
  }

  lemma AskedSuits(k: Kernel, c: Call, x: Xfer)
    requires KindsOk(k) && Asked(k, c) == Some(x)
    ensures x.obj in k.objs && Suits(k.objs[x.obj], x.op)
  {
  }

  lemma AskedIs(k: Kernel, s: Step, x: Xfer, outer: int, r: Kernel)
    requires Enabled(k, s) && s.Enter? && KindsOk(k) && Asked(k, s.call) == Some(x) && r == Next(k, s) && outer == s.t0 + x.timeout
    requires x.obj in k.objs && Suits(k.objs[x.obj], x.op)
    ensures r == if Obstructed(k.objs[x.obj], x.op) && x.timeout == 0 then Logged(k, Failed(x.obj, NotAvailable))
                 else LoopOn(k, x, outer, s.t1, s.t2)
  {
    assert r == StartXfer(k, x, s.t0, s.t1, s.t2);
  }

  /** The transfer that a step tries is refused at once, or goes into its loop. */
  lemma AttemptIs(k: Kernel, s: Step, x: Xfer, outer: int, r: Kernel)
    requires Good(k) && Enabled(k, s) && Attempts(k, s) == Some(x) && outer == Deadline(k, s, x) && r == Next(k, s)
    ensures Calling(Begun(k, s)) && Begun(k, s).objs == k.objs && x.obj in k.objs && Suits(k.objs[x.obj], x.op)
    ensures r == if s.Enter? && Obstructed(k.objs[x.obj], x.op) && x.timeout == 0 then Logged(k, Failed(x.obj, NotAvailable))
                 else LoopOn(Begun(k, s), x, outer, s.t1, s.t2)
  {
    BegunCalling(k, s);
    KindsSound(k);
    if s.Enter? { AskedSuits(k, s.call, x); AskedIs(k, s, x, outer, r); }
  }

  // ----- blocking -----

  /** The only new event has the identity that was the next one. */
  ghost predicate OneNew(k: Kernel, r: Kernel) {
    forall e :: e in r.queue ==> e in k.queue || e.id == k.nextEvent
  }

  /** The process goes to sleep in a blocking loop, about to give up, and otherwise as it was. */
  predicate Blocks(k: Kernel, q: Proc, r: Proc, x: Xfer) {
    && OnList(r) && r.giving == Yes(Fresh(false)) && r.pc.Retry? && r.pc.x == x
    && r == q.(state := Waiting, reason := r.reason, giving := r.giving, pc := r.pc, timer := r.timer)
    && r.timer == if x.timeout == INFINITE then q.timer else Some(k.nextEvent)
  }

  /** The current process joins the list of x.obj at its end, and nothing else happens to processes, lists or history. */
  ghost predicate JoinsLast(k: Kernel, r: Kernel, x: Xfer) {
    && k.cur in k.procs && x.obj in k.objs && r.objs == k.objs[x.obj := k.objs[x.obj].Awaited(k.objs[x.obj].waiting + [k.cur])]
    && r.log == k.log && r.cur == k.cur && k.cur in r.procs
    && r.procs == k.procs[k.cur := r.procs[k.cur]] && Blocks(k, k.procs[k.cur], r.procs[k.cur], x)
  }

  lemma AllocIs(k: Kernel, time: int, w: What, p: Pid, r: Kernel)
    requires Target(k, w) == Some(p) && p in k.procs && r == EventAlloc(k, time, w)
    ensures r.procs == k.procs[p := k.procs[p].(timer := Some(k.nextEvent))] && OneNew(k, r)
    ensures r.objs == k.objs && r.log == k.log && r.cur == k.cur
    ensures exists e :: e in r.queue && e.id == k.nextEvent && e.time == time && e.what == w
  {
    InsertMembers(k.queue, Event(k.nextEvent, time, w));
    assert Event(k.nextEvent, time, w) in r.queue;
  }

  lemma BlockJoins(k: Kernel, x: Xfer, outer: int, t1: int, t2: int, r: Kernel)
    requires k.cur in k.procs && x.obj in k.objs && (x.timeout == INFINITE || outer > t1) && r == Block(k, x, outer, t1, t2)
    ensures JoinsLast(k, r, x) && OneNew(k, r)
  {
    if x.timeout != INFINITE {
      var kind := k.objs[x.obj].KindOf();
      var inner := InnerDeadline(kind, x, outer, t2);
      var q := BlockedProc(k.procs[k.cur], kind, x, outer, inner, Some(k.nextCtx));
      var k1 := WithProc(NewContext(k, x.obj), k.cur, q);
      AllocIs(k1, inner, BlockTimeout(kind, k.nextCtx), k.cur, EventAlloc(k1, inner, BlockTimeout(kind, k.nextCtx)));
    }
  }

  /** Nothing happens but that the current process runs on, and the history may grow. */
  ghost predicate OnlyRunsOn(k: Kernel, r: Kernel) {
    Apart(k, r, None) && r.objs == k.objs && r.queue == k.queue && r.nextEvent == k.nextEvent
  }

  lemma BlockTimesOut(k: Kernel, x: Xfer, outer: int, t1: int, t2: int, r: Kernel)
    requires k.cur in k.procs && x.obj in k.objs && x.timeout != INFINITE && outer <= t1 && r == Block(k, x, outer, t1, t2)
    ensures OnlyRunsOn(k, r) && r.log == k.log + [Failed(x.obj, TimedOut)]
    ensures r.procs[k.cur].giving == Not && r.procs[k.cur].pc == User
  {
  }

  lemma ReadCompletesIs(k: Kernel, x: Xfer, r: Kernel)
    requires k.cur in k.procs && x.obj in k.objs && Suits(k.objs[x.obj], x.op) && !Obstructed(k.objs[x.obj], x.op) && x.op.Read?
    requires r == Complete(k, x)
    ensures OnlyRunsOn(k, r) && r.log == k.log + [Seen(x.obj, k.objs[x.obj].shown)]
    ensures r.procs[k.cur].giving == Not && r.procs[k.cur].pc == User
  {
  }

  // ----- how a transfer ends -----

  lemma EntryAppended(l: seq<Entry>, e: Entry)
    ensures (l + [e])[|l + [e]| - 1] == e
  {
  }

  /** A ring is full for a sender or empty for a receiver, or a blackboard shows nothing. */
  predicate Barred(b: Obj, op: Op) {
    if b.Board? then op.Read? && !b.occupied
    else (op.Send? && |b.msgs| == b.cap) || (op.Recv? && |b.msgs| == 0)
  }

  lemma BarredObstructed(b: Obj, op: Op)
    requires Suits(b, op)
    ensures Barred(b, op) == Obstructed(b, op)
  {
  }

  /** The step refuses a transfer that will not wait. */
  predicate WillNotWait(s: Step, x: Xfer) {
    s.Enter? && x.timeout == 0
  }

  /** The message goes to the object, or is the first one it holds, or the one it shows. */
  predicate Records(e: Entry, b: Obj, x: Xfer) {
    match x.op
    case Send(m) => e == Sent(x.obj, m)
    case Recv => b.Ring? && |b.msgs| > 0 && e == Received(x.obj, b.msgs[0])
    case Read => b.Board? && e == Seen(x.obj, b.shown)
  }

  /** The transfer has taken place, and the current process is past it. */
  ghost predicate Done(k: Kernel, r: Kernel, x: Xfer) {
    && x.obj in k.objs && |r.log| > 0 && r.log == k.log + [r.log[|r.log| - 1]] && Records(r.log[|r.log| - 1], k.objs[x.obj], x)
    && r.cur == k.cur && k.cur in k.procs && k.cur in r.procs
    && r.procs[k.cur] == k.procs[k.cur].(giving := if x.op.Read? then Not else GoesOn(k, x.obj), pc := User)
    && AtRing(k, r, x.obj) && (x.op.Read? ==> r.objs == k.objs && Apart(k, r, None))
  }

  /** It has not, the current process returns, and nothing else has happened. */
  ghost predicate Refused(k: Kernel, r: Kernel, x: Xfer, ret: Ret) {
    && r.log == k.log + [Failed(x.obj, ret)] && r.objs == k.objs && r.queue == k.queue && r.cur == k.cur && k.cur in k.procs
    && r.procs == k.procs[k.cur := k.procs[k.cur].(giving := Not, pc := User)]
  }

  lemma CompleteEnds(k: Kernel, x: Xfer, r: Kernel)
    requires Awaiting(k, x.obj) && Suits(k.objs[x.obj], x.op) && !Obstructed(k.objs[x.obj], x.op) && r == Complete(k, x)
    ensures Done(k, r, x)
  {
    EntryAppended(k.log, EntryOf(k.objs[x.obj], x));
    if x.op.Read? { ReadCompletesIs(k, x, r); } else { CompleteServes(k, x, r); CurServes(k, x, r); }
  }

  lemma CurServes(k: Kernel, x: Xfer, r: Kernel)
    requires ServesOne(k, r, x.obj, x.disc)
    ensures r.cur == k.cur && k.cur in k.procs && k.cur in r.procs
  {
  }

  lemma LoopEnds(k: Kernel, x: Xfer, outer: int, t1: int, t2: int, r: Kernel)
    requires Calling(k) && x.obj in k.objs && Suits(k.objs[x.obj], x.op) && r == LoopOn(k, x, outer, t1, t2)
    ensures !Barred(k.objs[x.obj], x.op) ==> Done(k, r, x)
    ensures Barred(k.objs[x.obj], x.op) && x.timeout != INFINITE && outer <= t1 ==> Refused(k, r, x, TimedOut)
    ensures Barred(k.objs[x.obj], x.op) && (x.timeout == INFINITE || outer > t1) ==> JoinsLast(k, r, x) && OneNew(k, r)
  {
    BarredObstructed(k.objs[x.obj], x.op);
    if !Barred(k.objs[x.obj], x.op) {
      SoundAwaiting(k, x.obj);
      CompleteEnds(k, x, r);
    } else if x.timeout != INFINITE && outer <= t1 {
      BlockTimesOut(k, x, outer, t1, t2, r);
    } else {
      BlockJoins(k, x, outer, t1, t2, r);
    }
  }

  /** From behind the give-up, where only the current process and its context are different. */
  lemma BegunIs(k: Kernel, s: Step, b: Kernel)
    requires Enabled(k, s) && (s.Enter? || s.Continue?) && (s.Continue? ==> k.procs[k.cur].pc.Retry?) && b == Begun(k, s)
    ensures b.procs == k.procs[k.cur := b.procs[k.cur]] && k.cur in b.procs
    ensures b.procs[k.cur] == k.procs[k.cur].(giving := Not, pc := User)
    ensures b.objs == k.objs && b.queue == k.queue && b.nextEvent == k.nextEvent && b.log == k.log && b.cur == k.cur
  {
    if s.Enter? { assert k.procs[k.cur := k.procs[k.cur]] == k.procs; }
  }

  lemma LaterEnds(k: Kernel, s: Step, b: Kernel, x: Xfer, r: Kernel)
    requires Enabled(k, s) && (s.Enter? || s.Continue?) && (s.Continue? ==> k.procs[k.cur].pc.Retry?) && b == Begun(k, s)
    ensures Done(b, r, x) ==> Done(k, r, x)
    ensures forall ret :: Refused(b, r, x, ret) ==> Refused(k, r, x, ret)
    ensures JoinsLast(b, r, x) ==> JoinsLast(k, r, x)
  {
    BegunIs(k, s, b);
  }

  lemma EndsDiffer(k: Kernel, r: Kernel, x: Xfer, ret: Ret)
    ensures !(Done(k, r, x) && Refused(k, r, x, ret)) && !(Done(k, r, x) && JoinsLast(k, r, x)) && !(Refused(k, r, x, ret) && JoinsLast(k, r, x))
    ensures ret != TimedOut ==> !(Refused(k, r, x, ret) && Refused(k, r, x, TimedOut))
  {
    EntryAppended(k.log, Failed(x.obj, ret));
    EntryAppended(k.log, Failed(x.obj, TimedOut));
  }

  /** How the transfer that a step tries ends: it takes place if and only if nothing bars it; otherwise a call that will
      not wait returns NOT_AVAILABLE, one whose deadline has come TIMED_OUT, and any other waits, last on the list. */
  lemma AttemptEnds(k: Kernel, s: Step, x: Xfer, outer: int, r: Kernel)
    requires Good(k) && Enabled(k, s) && Attempts(k, s) == Some(x) && outer == Deadline(k, s, x) && r == Next(k, s)
    ensures x.obj in k.objs && Suits(k.objs[x.obj], x.op)
    ensures var barred, late := Barred(k.objs[x.obj], x.op), x.timeout != INFINITE && outer <= s.t1;
            && (Done(k, r, x) <==> !barred)
            && (Refused(k, r, x, NotAvailable) <==> barred && WillNotWait(s, x))
            && (Refused(k, r, x, TimedOut) <==> barred && !WillNotWait(s, x) && late)
            && (JoinsLast(k, r, x) <==> barred && !WillNotWait(s, x) && !late)
  {
    AttemptLeads(k, s, x, outer, r);
    EndsDiffer(k, r, x, NotAvailable);
    EndsDiffer(k, r, x, TimedOut);
  }

  lemma AttemptLeads(k: Kernel, s: Step, x: Xfer, outer: int, r: Kernel)
    requires Good(k) && Enabled(k, s) && Attempts(k, s) == Some(x) && outer == Deadline(k, s, x) && r == Next(k, s)
    ensures x.obj in k.objs && Suits(k.objs[x.obj], x.op)
    ensures var barred, late := Barred(k.objs[x.obj], x.op), x.timeout != INFINITE && outer <= s.t1;
            && (!barred ==> Done(k, r, x))
            && (barred && WillNotWait(s, x) ==> Refused(k, r, x, NotAvailable))
            && (barred && !WillNotWait(s, x) && late ==> Refused(k, r, x, TimedOut))
            && (barred && !WillNotWait(s, x) && !late ==> JoinsLast(k, r, x) && OneNew(k, r))
  {
    var b := Begun(k, s);
    AttemptIs(k, s, x, outer, r);
    BarredObstructed(k.objs[x.obj], x.op);
    if Barred(k.objs[x.obj], x.op) && WillNotWait(s, x) {
      UnavailableIs(k, x, r);
    } else {
      LoopEnds(b, x, outer, s.t1, s.t2, r);
      LaterEnds(k, s, b, x, r);
      BegunIs(k, s, b);
    }
  }

  lemma UnavailableIs(k: Kernel, x: Xfer, r: Kernel)
    requires k.cur in k.procs && k.procs[k.cur].giving == Not && k.procs[k.cur].pc == User && r == Logged(k, Failed(x.obj, NotAvailable))
    ensures Refused(k, r, x, NotAvailable)
  {
    assert k.procs[k.cur := k.procs[k.cur].(giving := Not, pc := User)] == k.procs;
  }

  /** The current process leaves its loop, and nothing else happens to processes, lists or timers. */
  ghost predicate Leaves(k: Kernel, r: Kernel) {
    && r.objs == k.objs && r.queue == k.queue && r.nextEvent == k.nextEvent && r.cur == k.cur && k.cur in k.procs && r.opMode == k.opMode
    && r.procs == k.procs[k.cur := k.procs[k.cur].(giving := Not, pc := User)]
  }

  lemma SuspensionEnds(k: Kernel, t: int, t1: int, t2: int, r: Kernel)
    requires Enabled(k, Continue(t, t1, t2)) && k.procs[k.cur].pc.SuspendCheck? && r == Next(k, Continue(t, t1, t2))
    ensures Leaves(k, r) && r.log == k.log
  {
  }

  /** A process that finds its timer come returns TIMED_OUT, whatever has become of the object. */
  lemma LoopTimesOut(k: Kernel, t: int, t1: int, t2: int, r: Kernel)
    requires Enabled(k, Continue(t, t1, t2)) && k.procs[k.cur].pc.Retry? && r == Next(k, Continue(t, t1, t2))
    requires k.procs[k.cur].pc.x.timeout != INFINITE && t >= k.procs[k.cur].pc.inner
    ensures Leaves(k, r) && r.log == k.log + [Failed(k.procs[k.cur].pc.x.obj, TimedOut)]
  {
  }

  // ----- whom a step serves -----

  /** The identifier a communication call names, resolved. */
  function HandleOf(k: Kernel, c: Call): Option<Handle> {
    match c
    case SendTo(kind, id, _, _) => At(k, kind, id)
    case ReceiveFrom(kind, id, _) => At(k, kind, id)
    case ReadBoard(id, _) => At(k, BoardKind, id)
    case Display(id, _) => At(k, BoardKind, id)
    case ClearBoard(id) => At(k, BoardKind, id)
    case ClearPort(id) => At(k, PortKind, id)
    case _ => None
  }

  function At(k: Kernel, kind: Kind, id: nat): Option<Handle> {
    if (kind, id) in k.handles then Some(k.handles[(kind, id)]) else None
  }

  /** The discipline a step serves by: that of the identifier named by the call. */
  function DiscOf(k: Kernel, s: Step): Disc
    requires Enabled(k, s)
  {
    if s.Continue? && k.procs[k.cur].pc.Retry? then k.procs[k.cur].pc.x.disc
    else if s.Enter? && HandleOf(k, s.call).Some? then HandleOf(k, s.call).value.disc
    else Fifo
  }

  /** The step adds a message to ring o, takes one, or clears it while it is full: that is what the history says. */
  ghost predicate Through(k: Kernel, r: Kernel, o: ObjId) {
    && o in k.objs && k.objs[o].Ring? && |r.log| > 0 && r.log == k.log + [r.log[|r.log| - 1]]
    && var e := r.log[|r.log| - 1];
       e.obj == o && (e.Sent? || e.Received? || (e.Cleared? && |k.objs[o].msgs| == k.objs[o].cap))
  }

  lemma SameLogs(k: Kernel, r: Kernel)
    requires r.log == k.log
    ensures forall o :: !Through(k, r, o)
  {
  }

  lemma LogsOther(k: Kernel, r: Kernel, e: Entry)
    requires r.log == k.log + [e] && !e.Sent? && !e.Received?
    ensures forall o :: Through(k, r, o) ==> e == Cleared(o)
  {
    EntryAppended(k.log, e);
  }

  lemma DisplayLogs(k: Kernel, id: nat, msg: Msg, r: Kernel)
    requires k.cur in k.procs && r == DoDisplay(k, id, msg)
    ensures forall o :: !Through(k, r, o)
  {
    if HasBoard(k, id) && 0 < |msg| <= k.objs[k.handles[(BoardKind, id)].obj].maxSize {
      var o := k.handles[(BoardKind, id)].obj;
      QuietWakeAll(Logged(WithObj(k, o, Board(k.objs[o].maxSize, msg, true, k.objs[o].waiting)), Shown(o, msg)), o);
      LogsOther(k, r, Shown(o, msg));
    } else {
      SameLogs(k, r);
    }
  }

  lemma BoardCleared(k: Kernel, id: nat, r: Kernel)
    requires r == DoClearBoard(k, id)
    ensures forall o :: !Through(k, r, o)
  {
    if HasBoard(k, id) { LogsOther(k, r, Cleared(k.handles[(BoardKind, id)].obj)); } else { SameLogs(k, r); }
  }

  /** A step without a transfer to try goes through a ring only by clearing it. */
  lemma EnterThrough(k: Kernel, s: Step, o: ObjId, r: Kernel)
    requires Enabled(k, s) && s.Enter? && Attempts(k, s).None? && r == Next(k, s) && Through(k, r, o)
    ensures s.call.ClearPort? && ReceiveCheck(k, PortKind, s.call.id) == NoError && k.objs[k.handles[(PortKind, s.call.id)].obj].Ring?
  {
    if !Communicates(s.call) {
      QuietCall(k, s.call, s.t0, s.t1, s.t2);
      SameLogs(k, r);
    } else {
      match s.call
      case Display(id, msg) => DisplayLogs(k, id, msg, r);
      case ClearBoard(id) => BoardCleared(k, id, r);
      case _ => if r == k { SameLogs(k, r); }
    }
  }

  lemma LateThrough(k: Kernel, t: int, t1: int, t2: int, r: Kernel)
    requires Enabled(k, Continue(t, t1, t2)) && Attempts(k, Continue(t, t1, t2)).None? && r == Next(k, Continue(t, t1, t2))
    ensures forall o :: !Through(k, r, o)
  {
    if k.procs[k.cur].pc.SuspendCheck? { SameLogs(k, r); } else { LogsOther(k, r, Failed(k.procs[k.cur].pc.x.obj, TimedOut)); }
  }

  lemma OtherThrough(k: Kernel, s: Step, o: ObjId, r: Kernel)
    requires Enabled(k, s) && !s.Enter? && Attempts(k, s).None? && r == Next(k, s)
    ensures !Through(k, r, o)
  {
    match s
    case Continue(t, t1, t2) => LateThrough(k, t, t1, t2, r);
    case Interrupt(t, nextPart, nextTime) => QuietTick(k, t, nextPart, nextTime); SameLogs(k, r);
    case _ => QuietElections(k, s); SameLogs(k, r);
  }

  lemma ClearThrough(k: Kernel, id: nat, o: ObjId, r: Kernel)
    requires Calling(k) && ReceiveCheck(k, PortKind, id) == NoError && k.objs[k.handles[(PortKind, id)].obj].Ring?
    requires r == Clear(k, k.handles[(PortKind, id)]) && Through(k, r, o)
    ensures ServesOne(k, r, o, k.handles[(PortKind, id)].disc)
  {
    var h := k.handles[(PortKind, id)];
    SoundAwaiting(k, h.obj);
    ClearServes(k, h, r);
    EntryAppended(k.log, Cleared(h.obj));
  }

  /** Before the give-up the same processes wait, and only the current one is different. */
  lemma ServedLater(k: Kernel, b: Kernel, r: Kernel, o: ObjId, disc: Disc)
    requires ServesOne(b, r, o, disc) && k.cur in k.procs && b.cur == k.cur && b.objs == k.objs && k.cur !in b.objs[o].waiting
    requires k.cur in b.procs && b.procs == k.procs[k.cur := k.procs[k.cur].(giving := b.procs[k.cur].giving, pc := b.procs[k.cur].pc)]
    ensures ServesOne(k, r, o, disc)
  {
    if !ServesNobody(b, r, o) {
      var i :| Serves(b, r, o, disc, i);
      assert Serves(k, r, o, disc, i);
    }
  }

  lemma AttemptThrough(k: Kernel, s: Step, x: Xfer, outer: int, o: ObjId, r: Kernel)
    requires Good(k) && Enabled(k, s) && Attempts(k, s) == Some(x) && outer == Deadline(k, s, x) && r == Next(k, s) && Through(k, r, o)
    ensures x.obj == o && !Barred(k.objs[o], x.op) && !x.op.Read?
  {
    AttemptLeads(k, s, x, outer, r);
  }

  lemma AttemptServes(k: Kernel, s: Step, x: Xfer, outer: int, o: ObjId, r: Kernel)
    requires Good(k) && Enabled(k, s) && Attempts(k, s) == Some(x) && outer == Deadline(k, s, x) && r == Next(k, s) && Through(k, r, o)
    ensures ServesOne(k, r, o, x.disc)
  {
    var b := Begun(k, s);
    AttemptThrough(k, s, x, outer, o, r);
    AttemptIs(k, s, x, outer, r);
    BarredObstructed(k.objs[o], x.op);
    SoundAwaiting(b, o);
    CompleteServes(b, x, r);
    BegunIs(k, s, b);
    ServedLater(k, b, r, o, x.disc);
  }

  lemma AttemptDisc(k: Kernel, s: Step, x: Xfer)
    requires Enabled(k, s) && Attempts(k, s) == Some(x)
    ensures DiscOf(k, s) == x.disc
  {
  }

  lemma ClearStepServes(k: Kernel, s: Step, o: ObjId, r: Kernel)
    requires Good(k) && Enabled(k, s) && s.Enter? && Attempts(k, s).None? && r == Next(k, s) && Through(k, r, o)
    ensures ServesOne(k, r, o, DiscOf(k, s))
  {
    EnterThrough(k, s, o, r);
    ClearThrough(k, s.call.id, o, r);
  }

  /** A step that lets a message through ring o readies exactly one of those waiting there, if anybody waits: the first
      of the list where the identifier has discipline FIFO, and the first in list order of those of maximal current
      priority where it has PRIORITY. */
  lemma StepServes(k: Kernel, s: Step, o: ObjId, r: Kernel)
    requires Good(k) && Enabled(k, s) && r == Next(k, s) && Through(k, r, o)
    ensures ServesOne(k, r, o, DiscOf(k, s))
  {
    var a := Attempts(k, s);
    if a.Some? {
      AttemptServes(k, s, a.value, Deadline(k, s, a.value), o, r);
      AttemptDisc(k, s, a.value);
    } else if s.Enter? {
      ClearStepServes(k, s, o, r);
    } else {
      OtherThrough(k, s, o, r);
    }
  }

  // ----- whom a display serves -----

  /** Everybody waiting at o is readied, the list is empty, and nothing else happens to any process but the current. */
  ghost predicate ServesAll(k: Kernel, r: Kernel, o: ObjId) {
    && AtRing(k, r, o) && o in k.objs && r.objs[o].waiting == [] && r.cur == k.cur && k.cur in k.procs
    && r.procs.Keys == k.procs.Keys && RunsOn(k.procs[k.cur], r.procs[k.cur])
    && forall p :: p in k.procs && p != k.cur ==>
         if p in k.objs[o].waiting then Readied(k.procs[p], r.procs[p]) else r.procs[p] == k.procs[p]
  }

  lemma AwaitingRest(k: Kernel, o: ObjId, m: Kernel)
    requires Awaiting(k, o) && k.objs[o].waiting != [] && m == Wake(k, o, k.objs[o].waiting[0])
    ensures Awaiting(m, o) && m.objs[o].waiting == k.objs[o].waiting[1..] && Fewer(k.queue, m.queue) && m.nextEvent == k.nextEvent
    ensures m.objs == k.objs[o := k.objs[o].Awaited(k.objs[o].waiting[1..])] && m.cur == k.cur && m.procs.Keys == k.procs.Keys
    ensures forall p :: p in k.procs ==>
              if p == k.objs[o].waiting[0] then Readied(k.procs[p], m.procs[p]) else m.procs[p] == k.procs[p]
  {
    var ps := k.objs[o].waiting;
    assert ps[0] in ps && forall p :: p in ps[1..] ==> p in ps;
    ReadiedByWake(k, o, ps[0], m);
  }

  lemma {:induction false} WakeAllServes(k: Kernel, o: ObjId, r: Kernel)
    requires Awaiting(k, o) && r == WakeAll(k, o)
    ensures ServesAll(k, r, o) && r.procs[k.cur] == k.procs[k.cur] && r.objs[o] == k.objs[o].Awaited([])
    decreases |k.objs[o].waiting|
  {
    var ps := k.objs[o].waiting;
    if ps != [] {
      var m := Wake(k, o, ps[0]);
      AwaitingRest(k, o, m);
      WakeAllServes(m, o, r);
      AllServed(k, m, r, o);
    }
  }

  lemma AllServed(k: Kernel, m: Kernel, r: Kernel, o: ObjId)
    requires Awaiting(k, o) && k.objs[o].waiting != [] && ServesAll(m, r, o) && m.cur == k.cur && m.procs.Keys == k.procs.Keys
    requires m.objs == k.objs[o := k.objs[o].Awaited(k.objs[o].waiting[1..])] && Fewer(k.queue, m.queue) && m.nextEvent == k.nextEvent
    requires forall p :: p in k.procs ==>
               if p == k.objs[o].waiting[0] then Readied(k.procs[p], m.procs[p]) else m.procs[p] == k.procs[p]
    ensures ServesAll(k, r, o)
  {
    var ps := k.objs[o].waiting;
    assert forall p :: p in ps <==> p == ps[0] || p in ps[1..];
  }

  lemma AllServedFrom(k: Kernel, m: Kernel, w: Kernel, r: Kernel, o: ObjId)
    requires ServesAll(m, w, o) && m.procs == k.procs && m.cur == k.cur == r.cur && m.queue == k.queue && m.nextEvent == k.nextEvent
    requires o in k.objs && m.objs.Keys == k.objs.Keys && m.objs[o].waiting == k.objs[o].waiting
    requires forall a :: a in k.objs && a != o ==> m.objs[a] == k.objs[a]
    requires r.objs == w.objs && r.queue == w.queue && r.nextEvent == w.nextEvent && k.cur in r.procs
    requires r.procs == w.procs[k.cur := w.procs[k.cur].(giving := r.procs[k.cur].giving, pc := r.procs[k.cur].pc)]
    ensures ServesAll(k, r, o)
  {
  }

  lemma DisplayIs(k: Kernel, id: nat, msg: Msg, o: ObjId, m: Kernel, r: Kernel)
    requires k.cur in k.procs && HasBoard(k, id) && o == k.handles[(BoardKind, id)].obj && 0 < |msg| <= k.objs[o].maxSize
    requires m == Logged(WithObj(k, o, Board(k.objs[o].maxSize, msg, true, k.objs[o].waiting)), Shown(o, msg)) && r == DoDisplay(k, id, msg)
    ensures o in m.objs && var w := WakeAll(m, o); w.cur == k.cur && k.cur in w.procs && r == SetCur(w, Yes(Fresh(false)), User)
  {
    WakeAllKeepsCur(m, o);
  }

  lemma ShownAwaiting(k: Kernel, o: ObjId, m: Kernel)
    requires Awaiting(k, o) && m.procs == k.procs && m.cur == k.cur && o in m.objs && m.objs[o].waiting == k.objs[o].waiting
    ensures Awaiting(m, o)
  {
  }

  lemma ShownServes(k: Kernel, o: ObjId, b: Obj, m: Kernel, w: Kernel, r: Kernel)
    requires Awaiting(k, o) && b.waiting == k.objs[o].waiting && m == k.(objs := k.objs[o := b], log := m.log)
    requires w == WakeAll(m, o) && k.cur in w.procs && w.cur == k.cur && r == SetCur(w, Yes(Fresh(false)), User)
    ensures ServesAll(k, r, o) && r.objs[o] == b.Awaited([])
    ensures r.procs[k.cur] == k.procs[k.cur].(giving := Yes(Fresh(false)), pc := User)
  {
    ShownAwaiting(k, o, m);
    WakeAllServes(m, o, w);
    AllServedFrom(k, m, w, r, o);
  }

  /** DISPLAY_BLACKBOARD readies everybody waiting at the board, and then gives up. */
  lemma DisplayServes(k: Kernel, id: nat, msg: Msg, o: ObjId, r: Kernel)
    requires Calling(k) && HasBoard(k, id) && o == k.handles[(BoardKind, id)].obj && 0 < |msg| <= k.objs[o].maxSize
    requires r == DoDisplay(k, id, msg)
    ensures ServesAll(k, r, o) && r.objs[o] == Board(k.objs[o].maxSize, msg, true, [])
    ensures r.procs[k.cur] == k.procs[k.cur].(giving := Yes(Fresh(false)), pc := User)
  {
    var b := Board(k.objs[o].maxSize, msg, true, k.objs[o].waiting);
    var m := Logged(WithObj(k, o, b), Shown(o, msg));
    SoundAwaiting(k, o);
    DisplayIs(k, id, msg, o, m, r);
    ShownServes(k, o, b, m, WakeAll(m, o), r);
  }
}
