/** Fairness of TIMED_WAIT(0): yielding in turn visits every ready process of the top priority once. */
module KernelTurns {
  import opened Common
  import opened TimerQueue
  import opened Election
  import opened KernelSpec
  import opened KernelInv
  import opened KernelSearch

  /** The current process runs in user code, and so will every other ready process of its partition. */
  ghost predicate Sharing(k: Kernel) {
    && k.mode == Executing && k.cur in k.procs && k.procs[k.cur].state == Running && k.procs[k.cur].part == k.part
    && k.cur in Members(k) && Distinct(Members(k))
    && (forall p :: p in Members(k) && MayRun(k, p) ==>
          && k.procs[p].part == k.part && k.procs[p].giving == Not && k.procs[p].pc == User && Held(k, p) == [])
  }

  /** The steps of one yield that nothing interrupts: the call, the search of the give-up, and unless that finds the
      caller itself, the search of sched_proc and the dispatch. */
  function Turn(k: Kernel): Kernel
    requires k.cur in k.procs
  {
    var k1 := Searched(Syscall(k, Wait(0), 0, 0, 0));
    if !Enabled(k1, GiveUp) then k1
    else
      var k2 := Next(k1, GiveUp);
      if k2.mode == Executing then k2
      else
        var k3 := Searched(k2);
        if Enabled(k3, Step.Dispatch) then Next(k3, Step.Dispatch) else k3
  }

  /** A run in which the current process of each kernel yields to reach the next. */
  ghost predicate Yields(ks: seq<Kernel>) {
    forall i :: 0 < i < |ks| ==> YieldsTo(ks[i - 1], ks[i])
  }

  ghost predicate YieldsTo(k: Kernel, r: Kernel) {
    k.cur in k.procs && r == Turn(k)
  }

  lemma {:induction false} PositionUnique(ps: seq<Pid>, i: nat)
    requires Distinct(ps) && i < |ps|
    ensures PositionOf(ps, ps[i]) == Some(i)
  {
    if i > 0 {
      PositionUnique(ps[1..], i - 1);
    }
  }

  /** A and b offer the same choice. */
  ghost predicate SameChoice(a: Kernel, b: Kernel) {
    && a.part == b.part && a.order == b.order && a.procs.Keys == b.procs.Keys
    && forall p :: p in a.procs ==> MayRun(a, p) == MayRun(b, p) && a.procs[p].pri == b.procs[p].pri
  }

  lemma SameCandidates(a: Kernel, b: Kernel, roundRobin: bool)
    requires SameChoice(a, b)
    ensures Candidates(a.procs, Members(a)) == Candidates(b.procs, Members(b))
    ensures a.cur == b.cur ==> Elected(a, roundRobin) == Elected(b, roundRobin)
  {
    assert Candidates(a.procs, Members(a)) == Candidates(b.procs, Members(b));
  }

  lemma YieldCall(k: Kernel)
    requires Sharing(k)
    ensures var k1 := Syscall(k, Wait(0), 0, 0, 0);
            k1 == SetCur(k, Yes(Fresh(true)), User) && SameChoice(k, k1)
  {
  }

  /** The search of the give-up finds whom round robin elects. */
  lemma YieldSearch(k: Kernel, k1: Kernel) returns (s: Search)
    requires Sharing(k) && k1 == Searched(SetCur(k, Yes(Fresh(true)), User))
    ensures s.Done() && s.best == Elected(k, true) && s.above.Some? && k1 == SetCur(k, Yes(s), User)
  {
    var k0 := SetCur(k, Yes(Fresh(true)), User);
    assert SameChoice(k, k0);
    SameCandidates(k, k0, true);
    SweepElects(k0, true);
    s := Sweep(k0, Fresh(true));
    assert k1.procs == SetCur(k, Yes(s), User).procs;
  }

  /** A yield that elects the caller again. */
  lemma KeepsTurn(k: Kernel, k1: Kernel, s: Search)
    requires Sharing(k) && s.Done() && s.best == Some(k.cur) && k1 == SetCur(k, Yes(s), User)
    ensures Enabled(k1, GiveUp) && Next(k1, GiveUp) == k
  {
    assert Next(k1, GiveUp).procs == k.procs;
  }

  /** A yield that elects another process: the give-up, behind which sched_proc searches. */
  lemma LeavesTurn(k: Kernel, k1: Kernel, s: Search, k2: Kernel)
    requires Sharing(k) && s.Found() && s.above.Some? && s.best != Some(k.cur) && k1 == SetCur(k, Yes(s), User)
    requires k2 == k.(mode := Electing(Fresh(true)), procs := k.procs[k.cur := k.procs[k.cur].(state := Ready)])
    ensures Enabled(k1, GiveUp) && Next(k1, GiveUp) == k2 && SameChoice(k, k2)
  {
    assert Next(k1, GiveUp).procs == k2.procs;
  }

  lemma Dispatched(k: Kernel, k2: Kernel, p: Pid)
    requires Sharing(k) && p in Members(k) && MayRun(k, p) && p != k.cur
    requires k2 == k.(mode := Electing(Fresh(true)), procs := k.procs[k.cur := k.procs[k.cur].(state := Ready)])
    requires Elected(k2, true) == Some(p)
    ensures var k3 := Searched(k2);
            && Enabled(k3, Step.Dispatch)
            && (var r := Next(k3, Step.Dispatch); SameChoice(k, r) && Sharing(r) && r.cur == p)
  {
    SweepElects(k2, true);
    var k3 := Searched(k2);
    assert k3 == k2.(mode := Electing(Sweep(k2, Fresh(true))));
    RunsNext(k, k2, k3, p, Next(k3, Step.Dispatch));
  }

  lemma RunsNext(k: Kernel, k2: Kernel, k3: Kernel, p: Pid, r: Kernel)
    requires Sharing(k) && p in Members(k) && MayRun(k, p) && p != k.cur
    requires k2 == k.(mode := k2.mode, procs := k.procs[k.cur := k.procs[k.cur].(state := Ready)])
    requires k3 == k2.(mode := k3.mode) && r == Run(k3, p)
    ensures SameChoice(k, r) && Sharing(r) && r.cur == p
  {
    assert Held(k3, p) == [];
  }

  /** Giving up and electing hands the processor to the elected process. */
  lemma HandsOver(k: Kernel, p: Pid)
    requires Sharing(k) && Elected(k, true) == Some(p) && p in Members(k) && MayRun(k, p)
    ensures SameChoice(k, Turn(k)) && Sharing(Turn(k)) && Turn(k).cur == p
  {
    YieldCall(k);
    var k1 := Searched(Syscall(k, Wait(0), 0, 0, 0));
    var s := YieldSearch(k, k1);
    if p == k.cur {
      KeepsTurn(k, k1, s);
    } else {
      var k2 := k.(mode := Electing(Fresh(true)), procs := k.procs[k.cur := k.procs[k.cur].(state := Ready)]);
      LeavesTurn(k, k1, s, k2);
      SameCandidates(k, k2, true);
      Dispatched(k, k2, p);
    }
  }

  lemma TurnAdvances(k: Kernel, at: nat)
    requires Sharing(k) && at < |Members(k)| && Members(k)[at] == k.cur
    ensures var cs := Candidates(k.procs, Members(k));
            var r := RoundRobin(cs, at);
            && r.Some? && Sharing(Turn(k)) && SameChoice(k, Turn(k)) && Turn(k).cur == Members(k)[r.value]
  {
    var ps := Members(k);
    var cs := Candidates(k.procs, ps);
    PositionUnique(ps, at);
    assert Takes(cs[at], cs[at].pri);
    var p := ps[RoundRobin(cs, at).value];
    assert Elected(k, true) == Some(p);
    assert MayRun(k, p);
    HandsOver(k, p);
  }

  /** m offers the choice that k offered, and its current process stands at position a. */
  ghost predicate At(k: Kernel, m: Kernel, a: nat) {
    Sharing(m) && SameChoice(k, m) && a < |Members(k)| && m.cur == Members(k)[a]
  }

  lemma NextTurn(k: Kernel, m: Kernel, a: nat)
    requires At(k, m, a)
    ensures var r := RoundRobin(Candidates(k.procs, Members(k)), a); r.Some? && At(k, Turn(m), r.value)
  {
    SameCandidates(k, m, true);
    TurnAdvances(m, a);
  }

  ghost predicate AtAfter(k: Kernel, m: Kernel, at: nat, n: nat)
    requires at < |Members(k)|
  {
    var a := After(Candidates(k.procs, Members(k)), at, n);
    a.Some? && At(k, m, a.value)
  }

  lemma AfterTurn(k: Kernel, m: Kernel, r: Kernel, at: nat, n: nat)
    requires at < |Members(k)| && AtAfter(k, m, at, n) && YieldsTo(m, r)
    ensures AtAfter(k, r, at, n + 1)
  {
    NextTurn(k, m, After(Candidates(k.procs, Members(k)), at, n).value);
  }

  lemma {:induction false} TurnsFollow(ks: seq<Kernel>, at: nat, n: nat)
    requires n < |ks| && Yields(ks) && At(ks[0], ks[0], at)
    ensures AtAfter(ks[0], ks[n], at, n)
  {
    if n > 0 {
      TurnsFollow(ks, at, n - 1);
      assert YieldsTo(ks[n - 1], ks[n]);
      AfterTurn(ks[0], ks[n - 1], ks[n], at, n - 1);
    }
  }

  /** Among the ready processes at the top priority, each is current exactly once in as many consecutive yields. */
  lemma YieldingIsFair(ks: seq<Kernel>, at: nat, x: nat) returns (n: nat)
    requires ks != [] && Yields(ks) && At(ks[0], ks[0], at) && x < |Members(ks[0])| && MayRun(ks[0], Members(ks[0])[x])
    requires var k := ks[0];
             && (forall p :: p in Members(k) && MayRun(k, p) ==> k.procs[p].pri <= k.procs[k.cur].pri)
             && k.procs[Members(k)[x]].pri == k.procs[k.cur].pri
             && |ks| == |Peers(Candidates(k.procs, Members(k)), k.procs[k.cur].pri, |Members(k)|)| + 1
    ensures 1 <= n < |ks| && ks[n].cur == Members(ks[0])[x]
    ensures forall m :: 1 <= m < |ks| && ks[m].cur == Members(ks[0])[x] ==> m == n
  {
    var ps := Members(ks[0]);
    var cs := Candidates(ks[0].procs, ps);
    n := RoundRobinVisitsEachOnce(cs, at, x);
    TurnsFollow(ks, at, n);
    forall m | 1 <= m < |ks| && ks[m].cur == ps[x] ensures m == n {
      TurnsFollow(ks, at, m);
      PositionUnique(ps, x);
      PositionUnique(ps, After(cs, at, m).value);
    }
  }
}
