/** What holds in every kernel reachable from boot: wait lists, timers, the running process and the message
    queues. */
module KernelRuns {
  import opened Common
  import opened TimerQueue
  import opened Election
  import opened KernelSpec
  import opened KernelInv
  import opened KernelSteps
  import opened KernelCalls
  import opened KernelTimer
  import opened KernelFifo

  // ----- boot -----

  /** A process as it is created: dormant, or ready if it is the first one of its partition. */
  predicate FreshProc(q: Proc) {
    (q.state == Dormant || q.state == Ready) && q.timer.None? && q.giving == Not && q.pc == User
  }

  /** Before its first election the system holds a process of the current partition that may run, and nobody has run
      yet: only partition activations are queued. */
  ghost predicate Configured(k: Kernel) {
    && (forall p :: p in k.procs ==> FreshProc(k.procs[p]))
    && (forall o :: o in k.objs ==> FreshObj(k.objs[o]))
    && QueueOk(k.queue, k.nextEvent) && (forall e :: e in k.queue ==> e.what == PartitionActivate)
    && k.held == map[] && k.ctxs == map[] && k.log == [] && OrderOk(k) && Elected(k, false).Some?
  }

  predicate FreshObj(b: Obj) {
    && b.waiting == []
    && (b.Ring? ==> b.kind != BoardKind && b.msgs == [])
    && (b.Board? ==> !b.occupied)
  }

  /** The system when its first process has been dispatched. */
  ghost predicate Boot(k: Kernel) {
    exists c :: Configured(c) && k == Launched(c)
  }

  /** The first dispatch, by sched_global with no process current. */
  function Launched(c: Kernel): Kernel
    requires Elected(c, false).Some?
  {
    if Elected(c, false).value in c.procs then Run(c, Elected(c, false).value) else c
  }

  // ----- runs -----

  ghost predicate Runs(k: Kernel, steps: seq<Step>)
    decreases |steps|, 0
  {
    steps == [] || (Runs(k, steps[..|steps| - 1]) && Enabled(Final(k, steps[..|steps| - 1]), steps[|steps| - 1]))
  }

  /** The kernel a run ends in. */
  ghost function Final(k: Kernel, steps: seq<Step>): Kernel
    requires Runs(k, steps)
    decreases |steps|, 1
  {
    if steps == [] then k else Next(Final(k, steps[..|steps| - 1]), steps[|steps| - 1])
  }

  lemma OneMore(k: Kernel, steps: seq<Step>, m: Kernel, s: Step, r: Kernel)
    requires Runs(k, steps) && Final(k, steps) == m && Enabled(m, s) && r == Next(m, s)
    ensures Runs(k, steps + [s]) && Final(k, steps + [s]) == r
    ensures AlwaysFitting(k, steps) && Fitting(m, s) ==> AlwaysFitting(k, steps + [s])
  {
    assert (steps + [s])[..|steps + [s]| - 1] == steps;
  }

  /** Everything known of a reachable kernel. */
  ghost predicate Sound(k: Kernel) {
    Good(k) && OrderOk(k) && Faithful(k)
  }

  lemma ElectedMayRun(k: Kernel)
    requires Elected(k, false).Some?
    ensures MayRun(k, Elected(k, false).value) && k.part in k.order && Elected(k, false).value in k.order[k.part]
  {
    BestIsFirstMaximal(Candidates(k.procs, Members(k)), |Members(k)|);
  }

  /** Before the first dispatch, too, everything agrees. */
  lemma ConfiguredInv(c: Kernel)
    requires Configured(c) && c.cur in c.procs
    ensures Inv(c) && Faithful(c)
  {
    forall o | o in c.objs ensures ObjOk(c, o) && Legal(c.log, c.objs[o], o) {
      assert FreshObj(c.objs[o]);
    }
  }

  lemma LaunchedSound(c: Kernel, k: Kernel)
    requires Configured(c) && k == Launched(c)
    ensures Sound(k)
  {
    ElectedMayRun(c);
    var p := Elected(c, false).value;
    var c1 := c.(cur := p);
    ConfiguredInv(c1);
    assert FreshProc(c.procs[p]);
    Restate(c1, p, Running);
    var m := WithProc(c1, p, c.procs[p].(state := Running));
    Unrelated(m, k);
    LaunchedRuns(c, k, p);
    QuietRun(c1, p);
    StillFaithful(c1, k);
  }

  lemma LaunchedRuns(c: Kernel, k: Kernel, p: Pid)
    requires Configured(c) && p in c.procs && c.procs[p].part == c.part && k == Run(c, p)
    ensures RunOk(k) && OrderOk(k)
  {
  }

  lemma BootSound(k: Kernel)
    requires Boot(k)
    ensures Sound(k)
  {
    var c :| Configured(c) && k == Launched(c);
    LaunchedSound(c, k);
  }

  // ----- all runs -----

  /** What holds of objects and history in every run. */
  lemma {:induction false} RunFaithful(k: Kernel, steps: seq<Step>)
    requires Boot(k) && Runs(k, steps)
    ensures Faithful(Final(k, steps)) && Static(k, Final(k, steps))
    decreases |steps|
  {
    if steps == [] {
      BootSound(k);
    } else {
      var before := steps[..|steps| - 1];
      RunFaithful(k, before);
      StepFaithful(Final(k, before), steps[|steps| - 1]);
      StaticTransitive(k, Final(k, before), Final(k, steps));
    }
  }

  // ----- runs in which every process dispatched fits -----

  /** The condition on a run: each dispatch finds a process that fits at that moment, and no STOP hits a process on a
      wait list. */
  ghost predicate AlwaysFitting(k: Kernel, steps: seq<Step>)
    requires Runs(k, steps)
    decreases |steps|
  {
    steps == [] ||
    (AlwaysFitting(k, steps[..|steps| - 1]) && Fitting(Final(k, steps[..|steps| - 1]), steps[|steps| - 1]))
  }

  lemma StepSound(k: Kernel, s: Step)
    requires Sound(k) && Enabled(k, s) && Fitting(k, s)
    ensures Sound(Next(k, s)) && Static(k, Next(k, s))
  {
    StepGood(k, s);
    StepFaithful(k, s);
    OrderKept(k, Next(k, s));
  }

  lemma OrderKept(k: Kernel, r: Kernel)
    requires OrderOk(k) && Static(k, r)
    ensures OrderOk(r)
  {
  }

  lemma {:induction false} RunSound(k: Kernel, steps: seq<Step>)
    requires Boot(k) && Runs(k, steps) && AlwaysFitting(k, steps)
    ensures Sound(Final(k, steps)) && Static(k, Final(k, steps))
    decreases |steps|
  {
    if steps == [] {
      BootSound(k);
    } else {
      var before := steps[..|steps| - 1];
      RunSound(k, before);
      StepSound(Final(k, before), steps[|steps| - 1]);
      StaticTransitive(k, Final(k, before), Final(k, steps));
    }
  }

  lemma StaticTransitive(k: Kernel, m: Kernel, r: Kernel)
    requires Static(k, m) && Static(m, r)
    ensures Static(k, r)
  {
  }

  // ----- wait lists -----

  /** How often a process stands on a wait list. */
  function Occurrences(ps: seq<Pid>, p: Pid): nat {
    if ps == [] then 0 else (if ps[0] == p then 1 else 0) + Occurrences(ps[1..], p)
  }

  lemma {:induction false} ListedOnce(ps: seq<Pid>, p: Pid)
    requires Distinct(ps)
    ensures Occurrences(ps, p) == if p in ps then 1 else 0
  {
    if ps != [] {
      assert ps == [ps[0]] + ps[1..];
      ListedOnce(ps[1..], p);
    }
  }

  predicate Listed(k: Kernel, o: ObjId, p: Pid) {
    o in k.objs && p in k.objs[o].waiting
  }

  /** In such a run a process stands on the wait list of an object exactly when it waits for a
      reason of the object's kind, blocked in a transfer on that object; so it stands on one list at most, and
      there just once. */
  lemma WaitListsExact(k: Kernel, steps: seq<Step>, p: Pid, o: ObjId)
    requires Boot(k) && Runs(k, steps) && AlwaysFitting(k, steps)
    requires p in Final(k, steps).procs && o in Final(k, steps).objs
    ensures var r := Final(k, steps);
            var q := r.procs[p];
            && (Listed(r, o, p) <==> OnList(q) && q.pc.Retry? && q.pc.x.obj == o)
            && (Listed(r, o, p) ==> q.reason.kind == r.objs[o].KindOf() && Occurrences(r.objs[o].waiting, p) == 1)
            && (OnList(q) ==> q.pc.Retry? && Listed(r, q.pc.x.obj, p))
            && (forall a :: Listed(r, o, p) && Listed(r, a, p) ==> a == o)
  {
    RunSound(k, steps);
    var r := Final(k, steps);
    assert ProcOk(r, p) && ObjOk(r, o);
    ListedOnce(r.objs[o].waiting, p);
    forall a | Listed(r, o, p) && Listed(r, a, p) ensures a == o {
      assert ObjOk(r, a);
    }
  }

  // ----- timers -----

  /** In such a run a process has a timer exactly when it waits for a reason that carries a timeout. The timer is
      then queued exactly once, points back to the process, and is due at the time the process will compare the
      clock with; a communication timer's context is not freed and names the object the process is listed on. */
  lemma TimersExact(k: Kernel, steps: seq<Step>, p: Pid)
    requires Boot(k) && Runs(k, steps) && AlwaysFitting(k, steps) && p in Final(k, steps).procs
    ensures var r := Final(k, steps);
            var q := r.procs[p];
            && (q.timer.Some? <==> q.state == Waiting && Timed(q))
            && (q.timer.Some? ==>
                  exists i :: TimerAt(r, p, i) && (forall j :: TimerAt(r, p, j) ==> j == i)
                           && (forall j :: 0 <= j < |r.queue| && Target(r, r.queue[j].what) == Some(p) ==> j == i))
  {
    RunSound(k, steps);
    var r := Final(k, steps);
    assert ProcOk(r, p);
    if r.procs[p].timer.Some? {
      var i := TimerFound(r, p);
    }
  }

  lemma TimerFound(r: Kernel, p: Pid) returns (i: int)
    requires Inv(r) && p in r.procs && r.procs[p].timer.Some?
    ensures TimerAt(r, p, i) && (forall j :: TimerAt(r, p, j) ==> j == i)
    ensures forall j :: 0 <= j < |r.queue| && Target(r, r.queue[j].what) == Some(p) ==> j == i
  {
    assert ProcOk(r, p);
    var e :| e in r.queue && e.id == r.procs[p].timer.value && Target(r, e.what) == Some(p);
    i :| 0 <= i < |r.queue| && r.queue[i] == e;
    TimerIsOnly(r, p, i);
  }

  /** Position i of the queue holds the timer of p, in the form its waiting reason calls for. */
  predicate TimerAt(k: Kernel, p: Pid, i: int) {
    && p in k.procs && 0 <= i < |k.queue|
    && k.procs[p].timer == Some(k.queue[i].id)
    && Target(k, k.queue[i].what) == Some(p) && Matches(k.queue[i].what, k.queue[i].time, k.procs[p])
    && (k.queue[i].what.BlockTimeout? ==>
          k.queue[i].what.ctx in k.ctxs && Listed(k, k.ctxs[k.queue[i].what.ctx].obj, p))
  }

  lemma TimerIsOnly(r: Kernel, p: Pid, i: int)
    requires Inv(r) && p in r.procs && 0 <= i < |r.queue|
    requires r.procs[p].timer == Some(r.queue[i].id) && Target(r, r.queue[i].what) == Some(p)
    ensures TimerAt(r, p, i) && (forall j :: TimerAt(r, p, j) ==> j == i)
    ensures forall j :: 0 <= j < |r.queue| && Target(r, r.queue[j].what) == Some(p) ==> j == i
  {
    QueueSorted(r.queue, r.nextEvent);
    assert EventOk(r, r.queue[i]) && ProcOk(r, p);
    forall j | 0 <= j < |r.queue| && Target(r, r.queue[j].what) == Some(p) ensures j == i {
      assert EventOk(r, r.queue[j]);
    }
  }

  /** Nothing dangles in the event queue: it is in order of due time, and each event but a partition activation
      belongs to a process that points at it. */
  lemma EventsOwned(k: Kernel, steps: seq<Step>)
    requires Boot(k) && Runs(k, steps) && AlwaysFitting(k, steps)
    ensures var r := Final(k, steps);
            && (forall i, j :: 0 <= i < j < |r.queue| ==> r.queue[i].time <= r.queue[j].time)
            && (forall e :: e in r.queue && e.what != PartitionActivate ==>
                  var t := Target(r, e.what);
                  t.Some? && t.value in r.procs && r.procs[t.value].timer == Some(e.id) && r.procs[t.value].state == Waiting)
  {
    RunSound(k, steps);
    var r := Final(k, steps);
    QueueSorted(r.queue, r.nextEvent);
    forall e | e in r.queue && e.what != PartitionActivate
      ensures var t := Target(r, e.what);
              t.Some? && t.value in r.procs && r.procs[t.value].timer == Some(e.id) && r.procs[t.value].state == Waiting
    {
      assert EventOk(r, e) && ProcOk(r, Target(r, e.what).value);
    }
  }

  // ----- who runs -----

  /** At most one process is RUNNING, and it is the current process; when a process executes outside a give-up, it is
      RUNNING and of the current partition. */
  lemma OneRunning(k: Kernel, steps: seq<Step>, p: Pid)
    requires Boot(k) && Runs(k, steps) && AlwaysFitting(k, steps) && p in Final(k, steps).procs
    ensures var r := Final(k, steps);
            && (r.procs[p].state == Running ==> p == r.cur)
            && (p == r.cur && r.mode == Executing ==> r.procs[p].part == r.part)
            && (p == r.cur && r.mode == Executing && r.procs[p].giving == Not ==> r.procs[p].state == Running)
  {
    RunSound(k, steps);
  }

  /** The process is READY or RUNNING, and of the given priority or a higher one. */
  predicate RunsAt(k: Kernel, p: Pid, pri: nat) {
    p in k.procs && (k.procs[p].state == Ready || k.procs[p].state == Running) && k.procs[p].pri >= pri
  }

  lemma CandidateRuns(k: Kernel, ps: seq<Pid>, j: nat, pri: nat)
    requires j < |ps|
    ensures var c := Candidates(k.procs, ps)[j];
            (c.mayRun && c.pri >= pri <==> RunsAt(k, ps[j], pri)) && (ps[j] in k.procs ==> c.pri == k.procs[ps[j]].pri)
  {
  }

  /** Position i of the list holds the first process of maximal priority among those that may run. */
  ghost predicate FirstMaximal(k: Kernel, i: int) {
    var ps := Members(k);
    && 0 <= i < |ps| && RunsAt(k, ps[i], 0)
    && forall j :: 0 <= j < |ps| && RunsAt(k, ps[j], 0) ==>
         k.procs[ps[j]].pri <= k.procs[ps[i]].pri && (j < i ==> k.procs[ps[j]].pri < k.procs[ps[i]].pri)
  }

  /** Position i holds the process that comes next behind position at, going round the list, of those that may run at
      the given priority or a higher one. */
  ghost predicate NextInTurn(k: Kernel, at: nat, i: int, pri: nat)
    requires at < |Members(k)|
  {
    var ps := Members(k);
    && 0 <= i < |ps| && RunsAt(k, ps[i], pri)
    && forall j :: 0 <= j < |ps| && RunsAt(k, ps[j], pri) ==> Lag(at, i, |ps|) <= Lag(at, j, |ps|)
  }

  /** An election without round robin dispatches, of the ready processes of the current partition, the first in
      list order among those of maximal priority; it finds nobody exactly if none is ready. */
  lemma ElectsFirstMaximal(k: Kernel)
    ensures var e, ps := Elected(k, false), Members(k);
            && (e.None? <==> forall j :: 0 <= j < |ps| ==> !RunsAt(k, ps[j], 0))
            && (e.Some? ==> exists i :: FirstMaximal(k, i) && ps[i] == e.value)
  {
    var ps := Members(k);
    var cs := Candidates(k.procs, ps);
    BestIsFirstMaximal(cs, |cs|);
    forall j | 0 <= j < |ps| ensures cs[j].mayRun <==> RunsAt(k, ps[j], 0) { CandidateRuns(k, ps, j, 0); }
    var b := Best(cs, |cs|);
    if b.Some? { assert FirstMaximal(k, b.value); }
  }

  /** A round-robin election dispatches the process that comes next behind the current one, going round the list, of
      those ready at its priority or a higher one; the current process comes last. It finds nobody exactly if there is
      none. */
  lemma ElectsNextInTurn(k: Kernel, at: nat)
    requires at < |Members(k)| && Members(k)[at] == k.cur && k.cur in k.procs
    requires forall j :: 0 <= j < at ==> Members(k)[j] != k.cur
    ensures var e, ps, pri := Elected(k, true), Members(k), k.procs[k.cur].pri;
            && (e.None? <==> forall j :: 0 <= j < |ps| ==> !RunsAt(k, ps[j], pri))
            && (e.Some? ==> exists i :: NextInTurn(k, at, i, pri) && ps[i] == e.value)
  {
    var ps, pri := Members(k), k.procs[k.cur].pri;
    var cs := Candidates(k.procs, ps);
    FirstPosition(ps, at);
    RoundRobinExactly(cs, at);
    forall j | 0 <= j < |ps| ensures cs[j].mayRun && cs[j].pri >= pri <==> RunsAt(k, ps[j], pri) { CandidateRuns(k, ps, j, pri); }
    CandidateRuns(k, ps, at, pri);
    var r := RoundRobin(cs, at);
    if r.Some? { assert NextInTurn(k, at, r.value, pri); }
  }

  lemma {:induction false} FirstPosition(ps: seq<Pid>, i: nat)
    requires i < |ps| && forall j :: 0 <= j < i ==> ps[j] != ps[i]
    ensures PositionOf(ps, ps[i]) == Some(i)
  {
    if i > 0 {
      assert ps[0] != ps[i];
      FirstPosition(ps[1..], i - 1);
    }
  }

  // ----- messages -----

  /** Every ring of every reachable kernel is a bounded FIFO queue: what was sent to it, in order, is what left
      it followed by what it holds, and what was received is what left it and was not cleared, in order. */
  lemma MessagesExact(k: Kernel, steps: seq<Step>, o: ObjId)
    requires Boot(k) && Runs(k, steps) && o in Final(k, steps).objs && Final(k, steps).objs[o].Ring?
    ensures var r := Final(k, steps);
            && |r.objs[o].msgs| <= r.objs[o].cap
            && Sends(r.log, o) == Messages(Gone(r.log, o)) + r.objs[o].msgs
            && Receives(r.log, o) == Kept(Gone(r.log, o))
  {
    RunFaithful(k, steps);
    var r := Final(k, steps);
    SentAreGoneOrHeld(r.log, r.objs[o], o);
  }

  /** A blackboard read returns the message displayed last, with no clear in between. */
  lemma ReadsLastDisplayed(k: Kernel, steps: seq<Step>, o: ObjId, n: nat, m: Msg)
    requires Boot(k) && Runs(k, steps) && o in Final(k, steps).objs
    requires n < |Final(k, steps).log| && Final(k, steps).log[n] == Seen(o, m)
    ensures var log := Final(k, steps).log;
            exists d :: 0 <= d < n && log[d] == Shown(o, m)
                     && forall j :: d < j < n ==> log[j] != Cleared(o) && !(log[j].Shown? && log[j].obj == o)
  {
    RunFaithful(k, steps);
    var r := Final(k, steps);
    assert Legal(r.log, r.objs[o], o);
    assert Allowed(r.log[..n], r.log[n], r.objs[o], o);
    ShownBefore(r.log, o, n, m);
  }

  lemma ShownBefore(log: seq<Entry>, o: ObjId, n: nat, m: Msg)
    requires n < |log| && Displayed(log[..n], o) == Some(m)
    ensures exists d :: 0 <= d < n && log[d] == Shown(o, m)
                     && forall j :: d < j < n ==> log[j] != Cleared(o) && !(log[j].Shown? && log[j].obj == o)
  {
    var l := log[..n];
    LastShown(l, o);
    var d :| 0 <= d < |l| && l[d] == Shown(o, m) && forall j :: d < j < |l| ==> l[j] != Cleared(o) && !(l[j].Shown? && l[j].obj == o);
    assert log[d] == Shown(o, m);
    assert forall j :: d < j < n ==> log[j] == l[j];
  }

  lemma {:induction false} LastShown(l: seq<Entry>, o: ObjId)
    requires Displayed(l, o).Some?
    ensures exists d :: 0 <= d < |l| && l[d] == Shown(o, Displayed(l, o).value)
                     && forall j :: d < j < |l| ==> l[j] != Cleared(o) && !(l[j].Shown? && l[j].obj == o)
    decreases |l|
  {
    var n := |l| - 1;
    if l[n] == Shown(o, Displayed(l, o).value) {
    } else {
      LastShown(l[..n], o);
      var d :| 0 <= d < n && l[..n][d] == Shown(o, Displayed(l, o).value)
               && forall j :: d < j < n ==> l[..n][j] != Cleared(o) && !(l[..n][j].Shown? && l[..n][j].obj == o);
      assert l[d] == l[..n][d];
      assert forall j :: d < j < n ==> l[j] == l[..n][j];
    }
  }
}
