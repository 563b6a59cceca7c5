/** The timer interrupt, process by process: whom it readies, and exactly when it takes the processor away. */
module KernelTicks {
  import opened Common
  import opened TimerQueue
  import opened KernelSpec
  import opened KernelInv
  import opened KernelSteps
  import opened KernelCalls
  import opened KernelTimer

  /** An event of process p is due at t. */
  ghost predicate DueFor(k: Kernel, t: int, p: Pid) {
    exists e :: e in k.queue && e.time <= t && Target(k, e.what) == Some(p)
  }

  /** A partition activation is due at t. */
  ghost predicate Switches(k: Kernel, t: int) {
    exists e :: e in k.queue && e.time <= t && e.what == PartitionActivate
  }

  /** An event of some process of the current partition is due at t. */
  ghost predicate WakesLocal(k: Kernel, t: int) {
    exists p :: p in k.procs && k.procs[p].part == k.part && DueFor(k, t, p)
  }

  // ----- the loop over due events -----

  lemma {:induction false} DueMembers(q: seq<Event>, next: nat, t: int)
    requires QueueOk(q, next)
    ensures forall e :: e in Due(q, t) <==> e in q && e.time <= t
  {
    if q != [] {
      assert q == [q[0]] + q[1..];
      if q[0].time <= t {
        DueMembers(q[1..], next, t);
        assert Due(q, t) == [q[0]] + Due(q[1..], t);
      } else {
        QueueSorted(q, next);
      }
    }
  }

  lemma RestMembers(k: Kernel, m: Kernel)
    requires k.queue != [] && m == Fire(k)
    ensures m.ctxs == k.ctxs && m.procs.Keys == k.procs.Keys && forall e :: e in k.queue <==> e == k.queue[0] || e in m.queue
  {
    assert k.queue == [k.queue[0]] + m.queue;
  }

  lemma NotDue(k: Kernel, m: Kernel, t: int, p: Pid)
    requires k.queue != [] && m == Fire(k) && k.queue[0].time <= t
    ensures DueFor(k, t, p) <==> Target(k, k.queue[0].what) == Some(p) || DueFor(m, t, p)
  {
    RestMembers(k, m);
    if DueFor(m, t, p) {
      var e :| e in m.queue && e.time <= t && Target(m, e.what) == Some(p);
      assert e in k.queue && Target(k, e.what) == Some(p);
    }
    if DueFor(k, t, p) && Target(k, k.queue[0].what) != Some(p) {
      var e :| e in k.queue && e.time <= t && Target(k, e.what) == Some(p);
      assert e in m.queue && Target(m, e.what) == Some(p);
    }
  }

  lemma NoneDue(k: Kernel, t: int, p: Pid)
    requires QueueOk(k.queue, k.nextEvent) && (k.queue == [] || k.queue[0].time > t)
    ensures !DueFor(k, t, p)
  {
    QueueSorted(k.queue, k.nextEvent);
  }

  /** Whoever has been fired has no event any more. */
  lemma FiredOnce(k: Kernel, t: int, p: Pid)
    requires Inv(k) && p in k.procs && k.procs[p].timer.None?
    ensures !DueFor(k, t, p)
  {
    forall e | e in k.queue ensures Target(k, e.what) != Some(p) {
      assert EventOk(k, e);
    }
  }

  /** The process as the loop over due events leaves it. */
  ghost function AsFired(k: Kernel, t: int, p: Pid): Proc
    requires p in k.procs
  {
    if DueFor(k, t, p) then k.procs[p].(state := Ready, timer := None) else k.procs[p]
  }

  lemma FiresOne(k: Kernel, m: Kernel, p: Pid)
    requires Inv(k) && k.queue != [] && m == Fire(k) && p in k.procs
    ensures Inv(m) && p in m.procs
    ensures m.procs[p] == if Target(k, k.queue[0].what) == Some(p) then k.procs[p].(state := Ready, timer := None) else k.procs[p]
  {
    FireKeeps(k, m);
    if k.queue[0].what != PartitionActivate {
      var q :| Target(k, k.queue[0].what) == Some(q) && q in k.procs && Awoken(k, m, q);
    }
  }

  lemma {:induction false} FireDueExactly(k: Kernel, t: int, p: Pid)
    requires Inv(k) && p in k.procs
    ensures p in FireDue(k, t).procs && FireDue(k, t).procs[p] == AsFired(k, t, p)
    decreases |k.queue|
  {
    if k.queue == [] || k.queue[0].time > t {
      NoneDue(k, t, p);
    } else {
      var m := Fire(k);
      FiresOne(k, m, p);
      FireDueExactly(m, t, p);
      NotDue(k, m, t, p);
      if Target(k, k.queue[0].what) == Some(p) { FiredOnce(m, t, p); }
    }
  }

  // ----- the interrupt -----

  /** The interrupt takes the processor away. */
  ghost predicate Reschedules(k: Kernel, t: int) {
    Switches(k, t) || WakesLocal(k, t)
  }

  /** What the interrupt at t makes of every process, of the search under way, and of the partition. */
  ghost predicate Ticked(k: Kernel, t: int, nextPart: Part, r: Kernel) {
    && r.cur == k.cur && r.part == (if Switches(k, t) then nextPart else k.part) && r.procs.Keys == k.procs.Keys
    && (if Reschedules(k, t) then
          && r.mode == Electing(Fresh(false)) && (forall p :: p in r.procs ==> r.procs[p].state != Running)
          && r.held == if k.mode.Electing? then k.held[k.cur := [k.mode.search] + Held(k, k.cur)] else k.held
        else r.mode == k.mode && r.held == k.held)
    && (forall p :: p in k.procs ==>
          r.procs[p] == if DueFor(k, t, p) then k.procs[p].(state := Ready, timer := None)
                        else if Reschedules(k, t) && k.procs[p].state == Running then k.procs[p].(state := Ready)
                        else k.procs[p])
  }

  lemma ActivationDue(k: Kernel, t: int)
    requires QueueOk(k.queue, k.nextEvent)
    ensures HasActivation(Due(k.queue, t)) <==> Switches(k, t)
  {
    DueMembers(k.queue, k.nextEvent, t);
    if HasActivation(Due(k.queue, t)) {
      var e :| e in Due(k.queue, t) && e.what == PartitionActivate;
      assert e in k.queue && e.time <= t;
    }
    if Switches(k, t) {
      var e :| e in k.queue && e.time <= t && e.what == PartitionActivate;
      assert e in Due(k.queue, t);
    }
  }

  lemma LocalDue(k: Kernel, t: int)
    requires QueueOk(k.queue, k.nextEvent)
    ensures HasLocal(k, Due(k.queue, t)) <==> WakesLocal(k, t)
  {
    DueMembers(k.queue, k.nextEvent, t);
    if HasLocal(k, Due(k.queue, t)) {
      var e :| e in Due(k.queue, t) && OfPart(k, e);
      assert DueFor(k, t, Target(k, e.what).value);
    }
    if WakesLocal(k, t) {
      var p :| p in k.procs && k.procs[p].part == k.part && DueFor(k, t, p);
      var e :| e in k.queue && e.time <= t && Target(k, e.what) == Some(p);
      assert e in Due(k.queue, t) && OfPart(k, e);
    }
  }

  /** sched_proc begins, after the due events were fired. */
  lemma PreemptIs(k: Kernel, r: Kernel)
    requires k.cur in k.procs && (forall p :: p in k.procs && k.procs[p].state == Running ==> p == k.cur) && r == Preempt(k, false)
    ensures r.mode == Electing(Fresh(false)) && r.cur == k.cur && r.part == k.part && r.procs.Keys == k.procs.Keys
    ensures r.held == if k.mode.Electing? then k.held[k.cur := [k.mode.search] + Held(k, k.cur)] else k.held
    ensures forall p :: p in k.procs ==> r.procs[p] == if k.procs[p].state == Running then k.procs[p].(state := Ready) else k.procs[p]
  {
  }

  lemma TickBegins(k: Kernel, t: int, nextPart: Part, nextTime: int, m: Kernel, r: Kernel)
    requires m == FireDue(k, t) && r == Tick(k, t, nextPart, nextTime)
    ensures HasActivation(Due(k.queue, t)) ==> r == Preempt(EventAlloc(m, nextTime, PartitionActivate).(part := nextPart), false)
    ensures !HasActivation(Due(k.queue, t)) && HasLocal(k, Due(k.queue, t)) ==> r == Preempt(m, false)
    ensures !HasActivation(Due(k.queue, t)) && !HasLocal(k, Due(k.queue, t)) ==> r == m
  {
  }

  lemma FireDueFrame(k: Kernel, t: int, m: Kernel)
    requires Good(k) && m == FireDue(k, t)
    ensures m.cur == k.cur && m.part == k.part && m.mode == k.mode && m.held == k.held && m.procs.Keys == k.procs.Keys && m.ctxs == k.ctxs
    ensures forall p :: p in k.procs ==> m.procs[p] == AsFired(k, t, p)
    ensures forall p :: p in m.procs && m.procs[p].state == Running ==> p == m.cur
  {
    FireDueKeeps(k, t);
    forall p | p in k.procs ensures m.procs[p] == AsFired(k, t, p) { FireDueExactly(k, t, p); }
  }

  /** What the loop over due events leaves to sched_proc. */
  ghost predicate FiredAll(k: Kernel, t: int, m: Kernel) {
    && m.cur == k.cur && m.mode == k.mode && m.held == k.held && m.procs.Keys == k.procs.Keys
    && (forall p :: p in k.procs ==> m.procs[p] == AsFired(k, t, p))
    && (forall p :: p in m.procs && m.procs[p].state == Running ==> p == m.cur)
  }

  lemma TakesAway(k: Kernel, t: int, nextPart: Part, m: Kernel, r: Kernel)
    requires k.cur in k.procs && FiredAll(k, t, m) && Reschedules(k, t) && m.part == (if Switches(k, t) then nextPart else k.part)
    requires r == Preempt(m, false)
    ensures Ticked(k, t, nextPart, r)
  {
    PreemptIs(m, r);
    assert Held(m, m.cur) == Held(k, k.cur);
  }

  lemma LeavesAlone(k: Kernel, t: int, nextPart: Part, m: Kernel)
    requires FiredAll(k, t, m) && !Reschedules(k, t) && m.part == k.part
    ensures Ticked(k, t, nextPart, m)
  {
  }

  /** For every kernel, after an interrupt at which an activation or an event of a process of the current partition is
      due, nobody is RUNNING and a fresh search by priority is under way, with the search it overtook behind on the
      stack of the current process; otherwise the RUNNING process and the search go on as they were. Exactly the
      processes with an event due become READY. */
  lemma TickExactly(k: Kernel, t: int, nextPart: Part, nextTime: int, r: Kernel)
    requires Good(k) && r == Tick(k, t, nextPart, nextTime)
    ensures Ticked(k, t, nextPart, r)
  {
    var m := FireDue(k, t);
    FireDueFrame(k, t, m);
    ActivationDue(k, t);
    LocalDue(k, t);
    TickBegins(k, t, nextPart, nextTime, m, r);
    var m2 := EventAlloc(m, nextTime, PartitionActivate).(part := nextPart);
    if Switches(k, t) {
      TakesAway(k, t, nextPart, m2, r);
    } else if WakesLocal(k, t) {
      TakesAway(k, t, nextPart, m, r);
    } else {
      LeavesAlone(k, t, nextPart, m);
    }
  }

  // ----- the other steps of the scheduler -----

  /** Only states, give-ups and searches have changed. */
  ghost predicate OnlyScheduling(k: Kernel, r: Kernel) {
    && r == k.(procs := r.procs, cur := r.cur, mode := r.mode, held := r.held) && r.procs.Keys == k.procs.Keys
    && forall p :: p in k.procs ==> r.procs[p] == k.procs[p].(state := r.procs[p].state, giving := r.procs[p].giving)
  }

  lemma CurGives(k: Kernel, giving: Giving, r: Kernel)
    requires k.cur in k.procs && r == SetCur(k, giving, k.procs[k.cur].pc)
    ensures OnlyScheduling(k, r) && r.cur == k.cur && r.mode == k.mode && r.held == k.held
    ensures r.procs == k.procs[k.cur := k.procs[k.cur].(giving := giving)]
  {
  }

  lemma SearchGoesOn(k: Kernel, s: Search, r: Kernel)
    requires k.mode.Electing? && r == k.(mode := Electing(s))
    ensures OnlyScheduling(k, r) && r.cur == k.cur && r.procs == k.procs
  {
  }

  lemma ScanLeads(k: Kernel, s: Search, r: Kernel)
    requires Enabled(k, Scan) && s == Scanned(k, SearchOf(k)) && r == Next(k, Scan)
    ensures k.mode == Executing ==> r == SetCur(k, Yes(s), k.procs[k.cur].pc)
    ensures k.mode.Electing? ==> r == k.(mode := Electing(s))
  {
  }

  /** A turn of a search loop changes no state. */
  lemma ScanIs(k: Kernel, r: Kernel)
    requires Enabled(k, Scan) && r == Next(k, Scan)
    ensures OnlyScheduling(k, r) && r.cur == k.cur && forall p :: p in k.procs ==> r.procs[p].state == k.procs[p].state
  {
    var s := Scanned(k, SearchOf(k));
    ScanLeads(k, s, r);
    if k.mode == Executing { CurGives(k, Yes(s), r); } else { SearchGoesOn(k, s, r); }
  }

  lemma ReadiesCur(k: Kernel, roundRobin: bool, r: Kernel)
    requires k.cur in k.procs && r == Preempt(k, roundRobin)
    ensures OnlyScheduling(k, r) && r.cur == k.cur && r.mode == Electing(Fresh(roundRobin))
    ensures r.procs == k.procs[k.cur := k.procs[k.cur].(state := if k.procs[k.cur].state == Running then Ready else k.procs[k.cur].state)]
  {
    if k.procs[k.cur].state != Running { assert k.procs[k.cur := k.procs[k.cur]] == k.procs; }
  }

  /** A give-up that finds its process again leaves it RUNNING; any other hands over to sched_proc, and a RUNNING process
      is READY from then on. */
  lemma GiveUpIs(k: Kernel, r: Kernel)
    requires Enabled(k, GiveUp) && r == Next(k, GiveUp)
    ensures OnlyScheduling(k, r) && r.cur == k.cur
    ensures var q, again := k.procs[k.cur], SearchOf(k).best == Some(k.cur);
            && (r.mode == if again then Executing else Electing(Fresh(SearchOf(k).above.Some?)))
            && r.procs == k.procs[k.cur := q.(giving := Not, state := if !again && q.state == Running then Ready else q.state)]
  {
    var m := SetCur(k, Not, k.procs[k.cur].pc);
    CurGives(k, Not, m);
    if SearchOf(k).best != Some(k.cur) { ReadiesCur(m, SearchOf(k).above.Some?, r); }
  }

  /** What lies on top of the stack of the process found goes on: an interrupted search, or the process itself. */
  lemma RunIs(k: Kernel, p: Pid, m: Kernel, r: Kernel)
    requires p in k.procs && m == WithProc(k.(cur := p), p, k.procs[p].(state := Running)) && r == Run(k, p)
    ensures Held(k, p) == [] ==> r == m.(mode := Executing)
    ensures Held(k, p) != [] ==> r == m.(mode := Electing(Held(k, p)[0]), held := k.held[p := Held(k, p)[1..]])
  {
  }

  lemma Placed(k: Kernel, p: Pid, m: Kernel)
    requires p in k.procs && m == WithProc(k.(cur := p), p, k.procs[p].(state := Running))
    ensures m == k.(procs := m.procs, cur := p) && m.procs == k.procs[p := k.procs[p].(state := Running)]
  {
  }

  lemma PlacedOnly(k: Kernel, p: Pid, m: Kernel, mode: Mode, held: map<Pid, seq<Search>>, r: Kernel)
    requires p in k.procs && m == k.(procs := m.procs, cur := p) && m.procs == k.procs[p := k.procs[p].(state := Running)]
    requires r == m.(mode := mode, held := held)
    ensures OnlyScheduling(k, r) && r.cur == p && r.procs == k.procs[p := k.procs[p].(state := Running)] && r.mode == mode && r.held == held
  {
  }

  lemma DispatchIs(k: Kernel, r: Kernel)
    requires Enabled(k, Step.Dispatch) && r == Next(k, Step.Dispatch)
    ensures var p := k.mode.search.best.value;
            && OnlyScheduling(k, r) && r.cur == p && r.procs == k.procs[p := k.procs[p].(state := Running)]
            && r.mode == (if Held(k, p) == [] then Executing else Electing(Held(k, p)[0]))
            && r.held == (if Held(k, p) == [] then k.held else k.held[p := Held(k, p)[1..]])
  {
    var p := k.mode.search.best.value;
    var m := WithProc(k.(cur := p), p, k.procs[p].(state := Running));
    Placed(k, p, m);
    RunIs(k, p, m, r);
    if Held(k, p) == [] {
      PlacedOnly(k, p, m, Executing, k.held, r);
    } else {
      PlacedOnly(k, p, m, Electing(Held(k, p)[0]), k.held[p := Held(k, p)[1..]], r);
    }
  }
}
