/** Every step keeps the kernel invariant, and at most the current process is RUNNING. */
module KernelSteps {
  import opened Common
  import opened TimerQueue
  import opened Election
  import opened KernelSpec
  import opened KernelInv

  /** The give-up of the current process has come upon the process itself. */
  predicate FoundItself(k: Kernel)
    requires k.cur in k.procs
  {
    var g := k.procs[k.cur].giving;
    g.Yes? && g.search.Looking? && g.search.best == Some(k.cur)
  }

  /** At most one process is RUNNING, and it is the current one; a process executing outside a give-up is. */
  ghost predicate RunOk(k: Kernel) {
    && k.cur in k.procs
    && (forall p :: p in k.procs && k.procs[p].state == Running ==> p == k.cur)
    && (k.mode == Executing ==>
          && k.procs[k.cur].part == k.part && k.procs[k.cur].state != Ready
          && (k.procs[k.cur].giving == Not || FoundItself(k) ==> k.procs[k.cur].state == Running))
  }

  ghost predicate Good(k: Kernel) {
    Inv(k) && RunOk(k)
  }

  /** Nothing about who runs changes, and the processes outside ps keep every field. */
  ghost predicate SameBut(k: Kernel, r: Kernel, ps: set<Pid>) {
    && r.cur == k.cur && r.part == k.part && r.mode == k.mode
    && r.procs.Keys == k.procs.Keys
    && (forall x :: x in k.procs ==> r.procs[x].part == k.procs[x].part)
    && (forall x :: x in k.procs && x !in ps ==> r.procs[x] == k.procs[x])
  }

  // ----- waking -----

  lemma WakeFrame(k: Kernel, o: ObjId, p: Pid)
    requires o in k.objs && p in k.procs
    ensures var r := Wake(k, o, p);
            && SameBut(k, r, {p}) && r.procs[p].state == Ready && r.log == k.log
            && r.objs == k.objs[o := k.objs[o].Awaited(Without(k.objs[o].waiting, p))]
  {
  }

  lemma WakeKeeps(k: Kernel, o: ObjId, p: Pid)
    requires Inv(k) && o in k.objs && p in k.objs[o].waiting
    ensures p in k.procs && OnList(k.procs[p]) && Inv(Wake(k, o, p))
  {
    assert ObjOk(k, o) && ProcOk(k, p);
    Freed(k, p);
    var f := EventFree(k, p);
    DetachWaiter(k, f, o, p);
    var m := WithObj(f, o, k.objs[o].Awaited(Without(k.objs[o].waiting, p)));
    Settle(m, p, m.procs[p].(state := Ready));
    WakeByFree(k, o, p);
  }

  /** Freeing the timer only of a bounded wait frees the timer of every wait that has one. */
  lemma WakeByFree(k: Kernel, o: ObjId, p: Pid)
    requires o in k.objs && p in k.procs && (k.procs[p].timer.Some? ==> k.procs[p].reason.BlockedTimed?)
    ensures var m := WithObj(EventFree(k, p), o, k.objs[o].Awaited(Without(k.objs[o].waiting, p)));
            Wake(k, o, p) == WithProc(m, p, m.procs[p].(state := Ready))
  {
  }

  lemma WokenListed(k: Kernel, o: ObjId, disc: Disc)
    requires Inv(k) && o in k.objs && k.objs[o].waiting != []
    ensures var w := Woken(k, k.objs[o].waiting, disc);
            && w.Some? && w.value in k.objs[o].waiting && w.value in k.procs && OnList(k.procs[w.value])
            && WakeOne(k, o, disc) == Wake(k, o, w.value)
  {
    assert ObjOk(k, o);
  }

  /** What waking everybody on a list comes to. */
  ghost predicate AllWoken(k: Kernel, r: Kernel, o: ObjId)
    requires o in k.objs
  {
    && r.objs == k.objs[o := k.objs[o].Awaited([])] && r.log == k.log
    && SameBut(k, r, set p | p in k.objs[o].waiting)
    && (forall p :: p in k.objs[o].waiting ==> p in r.procs && r.procs[p].state == Ready)
  }

  lemma AllWokenStep(k: Kernel, m: Kernel, r: Kernel, o: ObjId, p: Pid)
    requires o in k.objs && Distinct(k.objs[o].waiting) && p in k.objs[o].waiting && p in k.procs
    requires SameBut(k, m, {p}) && m.procs[p].state == Ready && m.log == k.log
    requires m.objs == k.objs[o := k.objs[o].Awaited(Without(k.objs[o].waiting, p))]
    requires AllWoken(m, r, o)
    ensures AllWoken(k, r, o)
  {
    WithoutMembers(k.objs[o].waiting, p);
  }

  lemma {:induction false} WakeAllFrame(k: Kernel, o: ObjId)
    requires o in k.objs && Distinct(k.objs[o].waiting) && forall p :: p in k.objs[o].waiting ==> p in k.procs
    ensures AllWoken(k, WakeAll(k, o), o)
    decreases |k.objs[o].waiting|
  {
    var ps := k.objs[o].waiting;
    if ps == [] {
      assert k.objs[o := k.objs[o].Awaited([])] == k.objs;
    } else {
      var m := Wake(k, o, ps[0]);
      WakeFrame(k, o, ps[0]);
      WithoutMembers(ps, ps[0]);
      WakeAllFrame(m, o);
      AllWokenStep(k, m, WakeAll(m, o), o, ps[0]);
    }
  }

  /** DISPLAY_BLACKBOARD wakes every waiting process and empties the wait list. */
  lemma {:induction false} WakeAllInv(k: Kernel, o: ObjId)
    requires Inv(k) && o in k.objs
    ensures Inv(WakeAll(k, o))
    decreases |k.objs[o].waiting|
  {
    var ps := k.objs[o].waiting;
    assert ObjOk(k, o);
    if ps != [] {
      WakeKeeps(k, o, ps[0]);
      WakeFrame(k, o, ps[0]);
      WithoutMembers(ps, ps[0]);
      WakeAllInv(Wake(k, o, ps[0]), o);
    }
  }

  // ----- transfers -----

  /** A give-up whose search has yet to begin. */
  predicate GivesUp(g: Giving) {
    g.Yes? && g.search.Fresh?
  }

  lemma CurIdle(k: Kernel)
    requires Good(k) && k.mode == Executing && k.procs[k.cur].giving == Not
    ensures k.procs[k.cur].timer.None? && !OnList(k.procs[k.cur]) && InvBut(k, Some(k.cur))
  {
    assert ProcOk(k, k.cur);
    Exempt(k, k.cur);
  }

  /** Returning to the user, or giving up first, from a state where the current process is not blocked. */
  lemma Return(k: Kernel, giving: Giving, pc: Pc)
    requires Inv(k) && k.cur in k.procs && PcOk(k, k.cur, pc)
    requires pc == k.procs[k.cur].pc || (!OnList(k.procs[k.cur]) && k.procs[k.cur].timer.None?)
    ensures Inv(SetCur(k, giving, pc)) && SameBut(k, SetCur(k, giving, pc), {k.cur})
  {
    Adjust(k, k.cur, k.procs[k.cur].(giving := giving, pc := pc));
  }

  lemma ReturnGood(k: Kernel, giving: Giving, pc: Pc)
    requires Good(k) && k.mode == Executing && k.procs[k.cur].state == Running && PcOk(k, k.cur, pc)
    ensures Good(SetCur(k, giving, pc))
  {
    assert ProcOk(k, k.cur);
    Return(k, giving, pc);
  }

  /** The running process is never the one woken. */
  lemma WakeGood(k: Kernel, o: ObjId, p: Pid)
    requires Good(k) && k.mode == Executing && k.procs[k.cur].state == Running && o in k.objs && p in k.objs[o].waiting
    ensures p in k.procs
    ensures var r := Wake(k, o, p);
            Good(r) && r.cur == k.cur && r.mode == k.mode && r.procs[r.cur] == k.procs[k.cur]
  {
    WakeKeeps(k, o, p);
    WakeFrame(k, o, p);
    OtherReadied(k, Wake(k, o, p), p);
  }

  lemma OtherReadied(k: Kernel, r: Kernel, p: Pid)
    requires Good(k) && Inv(r) && SameBut(k, r, {p}) && p in k.procs && p != k.cur && r.procs[p].state == Ready
    ensures Good(r) && r.procs[r.cur] == k.procs[k.cur]
  {
  }

  lemma WakeOneGood(k: Kernel, o: ObjId, disc: Disc)
    requires Good(k) && k.mode == Executing && k.procs[k.cur].state == Running && o in k.objs
    ensures var r := WakeOne(k, o, disc);
            Good(r) && r.cur == k.cur && r.mode == k.mode && r.procs[r.cur] == k.procs[k.cur]
  {
    if k.objs[o].waiting != [] {
      WokenListed(k, o, disc);
      WakeGood(k, o, Woken(k, k.objs[o].waiting, disc).value);
    }
  }

  lemma AfterTransferGood(k: Kernel, x: Xfer)
    requires Good(k) && k.mode == Executing && k.procs[k.cur].giving == Not && x.obj in k.objs
    ensures Good(AfterTransfer(k, x)) && AfterTransfer(k, x).cur == k.cur && AfterTransfer(k, x).procs[k.cur].state == Running
  {
    WakeOneGood(k, x.obj, x.disc);
    ReturnGood(WakeOne(k, x.obj, x.disc),
               if k.objs[x.obj].waiting != [] && k.objs[x.obj].KindOf() == BufferKind then Yes(Fresh(false)) else Not, User);
  }

  lemma SetContents(k: Kernel, o: ObjId, b: Obj, e: Entry)
    requires Good(k) && o in k.objs && b.waiting == k.objs[o].waiting && b.Ring? == k.objs[o].Ring?
    requires b.KindOf() == k.objs[o].KindOf() && b.maxSize == k.objs[o].maxSize
    requires b.Ring? ==> |b.msgs| <= b.cap && forall m :: m in b.msgs ==> 0 < |m| <= b.maxSize
    ensures Good(Logged(WithObj(k, o, b), e))
  {
    Contents(k, o, b);
    Unrelated(WithObj(k, o, b), Logged(WithObj(k, o, b), e));
  }

  lemma LogGood(k: Kernel, e: Entry)
    requires Good(k)
    ensures Good(Logged(k, e))
  {
    Unrelated(k, Logged(k, e));
  }

  lemma SendCompletes(k: Kernel, x: Xfer, r: Kernel)
    requires Good(k) && k.mode == Executing && k.procs[k.cur].giving == Not && x.op.Send?
    requires x.obj in k.objs && Suits(k.objs[x.obj], x.op) && !Obstructed(k.objs[x.obj], x.op) && r == Complete(k, x)
    ensures Good(r) && r.cur == k.cur && r.procs[k.cur].state == Running
  {
    var b := k.objs[x.obj];
    var m := x.op.msg;
    assert ObjOk(k, x.obj);
    SetContents(k, x.obj, b.(msgs := b.msgs + [m]), Sent(x.obj, m));
    AfterTransferGood(Logged(WithObj(k, x.obj, b.(msgs := b.msgs + [m])), Sent(x.obj, m)), x);
  }

  lemma RecvCompletes(k: Kernel, x: Xfer, r: Kernel)
    requires Good(k) && k.mode == Executing && k.procs[k.cur].giving == Not && x.op.Recv?
    requires x.obj in k.objs && Suits(k.objs[x.obj], x.op) && !Obstructed(k.objs[x.obj], x.op) && r == Complete(k, x)
    ensures Good(r) && r.cur == k.cur && r.procs[k.cur].state == Running
  {
    var b := k.objs[x.obj];
    assert ObjOk(k, x.obj);
    SetContents(k, x.obj, b.(msgs := b.msgs[1..]), Received(x.obj, b.msgs[0]));
    AfterTransferGood(Logged(WithObj(k, x.obj, b.(msgs := b.msgs[1..])), Received(x.obj, b.msgs[0])), x);
  }

  lemma ReadCompletes(k: Kernel, x: Xfer, r: Kernel)
    requires Good(k) && k.mode == Executing && k.procs[k.cur].giving == Not && x.op.Read?
    requires x.obj in k.objs && Suits(k.objs[x.obj], x.op) && !Obstructed(k.objs[x.obj], x.op) && r == Complete(k, x)
    ensures Good(r) && r.cur == k.cur && r.procs[k.cur].state == Running
  {
    LogGood(k, Seen(x.obj, k.objs[x.obj].shown));
    ReturnGood(Logged(k, Seen(x.obj, k.objs[x.obj].shown)), Not, User);
  }

  /** A completed transfer keeps the invariant and wakes somebody else if anybody: the running process is on no wait
      list and goes on running. */
  lemma CompleteGood(k: Kernel, x: Xfer)
    requires Good(k) && k.mode == Executing && k.procs[k.cur].giving == Not
    requires x.obj in k.objs && Suits(k.objs[x.obj], x.op) && !Obstructed(k.objs[x.obj], x.op)
    ensures Good(Complete(k, x)) && Complete(k, x).cur == k.cur && Complete(k, x).procs[k.cur].state == Running
    ensures k.cur !in k.objs[x.obj].waiting
  {
    CurIdle(k);
    match x.op
    case Send(_) => SendCompletes(k, x, Complete(k, x));
    case Recv => RecvCompletes(k, x, Complete(k, x));
    case Read => ReadCompletes(k, x, Complete(k, x));
  }

  /** Allocating a timer context touches nothing else. */
  lemma NewCtx(k: Kernel, o: ObjId)
    requires InvBut(k, Some(k.cur))
    ensures InvBut(NewContext(k, o), Some(k.cur))
  {
    var r := NewContext(k, o);
    forall e | e in r.queue ensures EventOk(r, e) && Target(r, e.what) == Target(k, e.what) {
      assert EventOk(k, e);
    }
    forall x | x in r.procs && x != k.cur ensures ProcOk(r, x) {
      assert ProcOk(k, x);
      KeepEvent(k, r, x);
    }
    TransitObjs(k, r, k.cur);
  }

  lemma TimedOutGood(k: Kernel, o: ObjId)
    requires Good(k) && k.mode == Executing && k.procs[k.cur].giving == Not
    ensures Good(SetCur(Logged(k, Failed(o, TimedOut)), Not, User))
  {
    LogGood(k, Failed(o, TimedOut));
    ReturnGood(Logged(k, Failed(o, TimedOut)), Not, User);
  }

  lemma BlockPlainGood(k: Kernel, x: Xfer, outer: int, t1: int, t2: int)
    requires Good(k) && k.mode == Executing && k.procs[k.cur].giving == Not
    requires x.obj in k.objs && Suits(k.objs[x.obj], x.op) && x.timeout == INFINITE
    ensures Good(Block(k, x, outer, t1, t2))
  {
    CurIdle(k);
    BlockPlainInv(k, x, outer, t1, t2);
    BlockFrame(k, x, outer, t1, t2);
    BlockedGood(k, Block(k, x, outer, t1, t2));
  }

  lemma BlockPlainInv(k: Kernel, x: Xfer, outer: int, t1: int, t2: int)
    requires InvBut(k, Some(k.cur)) && k.cur in k.procs
    requires x.obj in k.objs && Suits(k.objs[x.obj], x.op) && x.timeout == INFINITE
    ensures Inv(Block(k, x, outer, t1, t2))
  {
    var q := BlockedProc(k.procs[k.cur], k.objs[x.obj].KindOf(), x, outer, outer, None);
    Join(k, WithProc(k, k.cur, q), k.cur, x.obj, q);
  }

  lemma TimedJoin(k: Kernel, n: Kernel, p: Pid, o: ObjId, q: Proc, time: int, w: What)
    requires InvBut(k, Some(p)) && o in k.objs && PcOk(k, p, q.pc) && q.timer.None? && n == WithProc(k, p, q)
    requires q.state == Waiting && q.reason == BlockedTimed(k.objs[o].KindOf()) && q.pc.Retry? && q.pc.x.obj == o && q.pc.ctx.Some?
    requires w == BlockTimeout(k.objs[o].KindOf(), q.pc.ctx.value) && q.pc.inner == time
    ensures Inv(WithObj(EventAlloc(n, time, w), o, k.objs[o].Awaited(k.objs[o].waiting + [p])))
  {
    AllocArms(k, EventAlloc(n, time, w), p, q, time, w);
    JoinTimed(k, EventAlloc(n, time, w), p, o, q);
  }

  lemma BlockTimedInv(k: Kernel, x: Xfer, outer: int, t1: int, t2: int)
    requires InvBut(k, Some(k.cur)) && k.cur in k.procs
    requires x.obj in k.objs && Suits(k.objs[x.obj], x.op) && x.timeout != INFINITE && outer > t1
    ensures Inv(Block(k, x, outer, t1, t2))
  {
    var kind := k.objs[x.obj].KindOf();
    var inner := InnerDeadline(kind, x, outer, t2);
    NewCtx(k, x.obj);
    var k2 := NewContext(k, x.obj);
    var q := BlockedProc(k.procs[k.cur], kind, x, outer, inner, Some(k.nextCtx));
    TimedJoin(k2, WithProc(k2, k.cur, q), k.cur, x.obj, q, inner, BlockTimeout(kind, k.nextCtx));
  }

  lemma BlockTimedGood(k: Kernel, x: Xfer, outer: int, t1: int, t2: int)
    requires Good(k) && k.mode == Executing && k.procs[k.cur].giving == Not
    requires x.obj in k.objs && Suits(k.objs[x.obj], x.op) && x.timeout != INFINITE && outer > t1
    ensures Good(Block(k, x, outer, t1, t2))
  {
    CurIdle(k);
    BlockTimedInv(k, x, outer, t1, t2);
    BlockFrame(k, x, outer, t1, t2);
    BlockedGood(k, Block(k, x, outer, t1, t2));
  }

  lemma BlockGood(k: Kernel, x: Xfer, outer: int, t1: int, t2: int)
    requires Good(k) && k.mode == Executing && k.procs[k.cur].giving == Not
    requires x.obj in k.objs && Suits(k.objs[x.obj], x.op)
    ensures Good(Block(k, x, outer, t1, t2))
  {
    if x.timeout == INFINITE {
      BlockPlainGood(k, x, outer, t1, t2);
    } else if outer <= t1 {
      TimedOutGood(k, x.obj);
    } else {
      BlockTimedGood(k, x, outer, t1, t2);
    }
  }

  /** Once the current process waits, nobody runs until the next election. */
  lemma BlockedGood(k: Kernel, r: Kernel)
    requires Good(k) && k.mode == Executing && Inv(r)
    requires SameBut(k, r, {k.cur}) && r.procs[k.cur].state == Waiting && GivesUp(r.procs[k.cur].giving)
    ensures Good(r)
  {
  }

  lemma BlockFrame(k: Kernel, x: Xfer, outer: int, t1: int, t2: int)
    requires k.cur in k.procs && x.obj in k.objs && (x.timeout == INFINITE || outer > t1)
    ensures var r := Block(k, x, outer, t1, t2);
            SameBut(k, r, {k.cur}) && r.procs[k.cur].state == Waiting && r.procs[k.cur].giving == Yes(Fresh(false))
  {
    if x.timeout != INFINITE {
      var kind := k.objs[x.obj].KindOf();
      var inner := InnerDeadline(kind, x, outer, t2);
      var q := BlockedProc(k.procs[k.cur], kind, x, outer, inner, Some(k.nextCtx));
      ArmedFrame(k, WithProc(NewContext(k, x.obj), k.cur, q), q, inner, BlockTimeout(kind, k.nextCtx));
    }
  }

  /** A process armed with a timer of its own. */
  lemma ArmedFrame(k: Kernel, k1: Kernel, q: Proc, time: int, w: What)
    requires k.cur in k.procs && k1.procs == k.procs[k.cur := q] && q.part == k.procs[k.cur].part
    requires k1.cur == k.cur && k1.part == k.part && k1.mode == k.mode && Target(k1, w) == Some(k.cur)
    ensures var r := EventAlloc(k1, time, w);
            SameBut(k, r, {k.cur}) && r.procs[k.cur].state == q.state && r.procs[k.cur].giving == q.giving
  {
  }

  lemma LoopOnGood(k: Kernel, x: Xfer, outer: int, t1: int, t2: int, r: Kernel)
    requires Good(k) && k.mode == Executing && k.procs[k.cur].giving == Not
    requires x.obj in k.objs && Suits(k.objs[x.obj], x.op) && r == LoopOn(k, x, outer, t1, t2)
    ensures Good(r)
  {
    if Obstructed(k.objs[x.obj], x.op) {
      BlockGood(k, x, outer, t1, t2);
    } else {
      CompleteGood(k, x);
    }
  }

  /** The context is the current process's own, and no queued event refers to it. */
  ghost predicate Unreferenced(k: Kernel, c: CtxId) {
    && c in k.ctxs && k.ctxs[c].proc == k.cur
    && forall e :: e in k.queue && e.what.BlockTimeout? ==> e.what.ctx != c
  }

  /** The context freed behind a bounded wait can be freed. */
  lemma FreeCtx(k: Kernel)
    requires Good(k) && k.mode == Executing && k.procs[k.cur].giving == Not
    requires k.procs[k.cur].pc.Retry? && k.procs[k.cur].pc.ctx.Some?
    ensures Good(SetCur(k.(ctxs := k.ctxs - {k.procs[k.cur].pc.ctx.value}), Not, User))
    ensures Unreferenced(k, k.procs[k.cur].pc.ctx.value)
  {
    CurIdle(k);
    var p, c := k.cur, k.procs[k.cur].pc.ctx.value;
    assert ProcOk(k, p);
    NotReferenced(k, c);
    FreedGood(k, SetCur(k.(ctxs := k.ctxs - {c}), Not, User), p, c);
  }

  lemma NotReferenced(k: Kernel, c: CtxId)
    requires InvBut(k, Some(k.cur)) && c in k.ctxs && k.ctxs[c].proc == k.cur
    ensures Unreferenced(k, c)
  {
    forall e | e in k.queue && e.what.BlockTimeout? ensures e.what.ctx != c {
      assert Target(k, e.what) != Some(k.cur);
    }
  }

  lemma FreedGood(k: Kernel, r: Kernel, p: Pid, c: CtxId)
    requires Good(k) && InvBut(k, Some(p)) && p == k.cur && k.procs[p].state == Running && c in k.ctxs && k.ctxs[c].proc == p
    requires r == k.(ctxs := k.ctxs - {c}, procs := k.procs[p := k.procs[p].(giving := Not, pc := User)])
    ensures Good(r)
  {
    assert ProcOk(k, p);
    FreeCtxRest(k, r, p, c);
    TransitObjs(k, r, p);
  }

  lemma FreeCtxRest(k: Kernel, r: Kernel, p: Pid, c: CtxId)
    requires InvBut(k, Some(p)) && ProcOk(k, p) && c in k.ctxs && k.ctxs[c].proc == p
    requires r == k.(ctxs := k.ctxs - {c}, procs := k.procs[p := k.procs[p].(giving := Not, pc := User)])
    ensures forall e :: e in r.queue ==> EventOk(r, e)
    ensures forall x :: x in r.procs ==> ProcOk(r, x)
  {
    forall e | e in r.queue ensures EventOk(r, e) && Target(r, e.what) == Target(k, e.what) {
      assert EventOk(k, e);
    }
    forall x | x in r.procs ensures ProcOk(r, x) {
      assert ProcOk(k, x);
      if x != p { KeepEvent(k, r, x); }
    }
  }

  lemma ResumeGood(k: Kernel, t: int, t1: int, t2: int)
    requires Good(k) && Enabled(k, Continue(t, t1, t2)) && k.procs[k.cur].pc.Retry?
    ensures Good(Resume(k, t, t1, t2))
    ensures k.procs[k.cur].pc.ctx.Some? ==> Unreferenced(k, k.procs[k.cur].pc.ctx.value)
  {
    assert ProcOk(k, k.cur);
    if k.procs[k.cur].pc.x.timeout != INFINITE {
      FreeCtx(k);
      ResumeTimed(k, t, t1, t2);
    } else {
      CurIdle(k);
      ReturnGood(k, Not, User);
      LoopOnGood(SetCur(k, Not, User), k.procs[k.cur].pc.x, k.procs[k.cur].pc.outer, t1, t2, Resume(k, t, t1, t2));
    }
  }

  lemma ResumeTimed(k: Kernel, t: int, t1: int, t2: int)
    requires Good(k) && Enabled(k, Continue(t, t1, t2))
    requires k.procs[k.cur].pc.Retry? && k.procs[k.cur].pc.x.timeout != INFINITE && k.procs[k.cur].pc.ctx.Some?
    requires Good(SetCur(k.(ctxs := k.ctxs - {k.procs[k.cur].pc.ctx.value}), Not, User))
    ensures Good(Resume(k, t, t1, t2))
  {
    var pc := k.procs[k.cur].pc;
    var k1 := SetCur(k.(ctxs := k.ctxs - {pc.ctx.value}), Not, User);
    if t >= pc.inner {
      LogGood(k1, Failed(pc.x.obj, TimedOut));
      assert Resume(k, t, t1, t2) == Logged(k1, Failed(pc.x.obj, TimedOut));
    } else {
      LoopOnGood(k1, pc.x, pc.outer, t1, t2, Resume(k, t, t1, t2));
    }
  }
}
