/** sched_elect_next_proc: which position of a partition's process list runs next. A process may run when
    it is READY or RUNNING; higher numbers are higher priorities. */
module Election {
  import opened Common

  datatype Candidate = Candidate(mayRun: bool, pri: nat)

  // ----- priority election -----

  /** The choice among the first n candidates. */
  function Best(cs: seq<Candidate>, n: nat): (b: Option<nat>)
    requires n <= |cs|
    ensures b.Some? ==> b.value < n
  {
    if n == 0 then None
    else
      var b := Best(cs, n - 1);
      if cs[n - 1].mayRun && (b.None? || cs[n - 1].pri > cs[b.value].pri) then Some(n - 1) else b
  }

  /** The election takes the first candidate in list order among those of maximal priority. */
  lemma {:induction false} BestIsFirstMaximal(cs: seq<Candidate>, n: nat)
    requires n <= |cs|
    ensures Best(cs, n).None? <==> forall j :: 0 <= j < n ==> !cs[j].mayRun
    ensures Best(cs, n).Some? ==>
              var b := Best(cs, n).value;
              && cs[b].mayRun
              && (forall j :: 0 <= j < n && cs[j].mayRun ==> cs[j].pri <= cs[b].pri)
              && (forall j :: 0 <= j < b && cs[j].mayRun ==> cs[j].pri < cs[b].pri)
  {
    if n > 0 {
      BestIsFirstMaximal(cs, n - 1);
    }
  }

  /** The loop keeps the first maximal one so far. */
  method ElectBest(cs: seq<Candidate>) returns (b: Option<nat>)
    ensures b == Best(cs, |cs|)
    ensures b.None? <==> forall j :: 0 <= j < |cs| ==> !cs[j].mayRun
    ensures b.Some? ==> b.value < |cs| && cs[b.value].mayRun
    ensures b.Some? ==> forall j :: 0 <= j < |cs| && cs[j].mayRun ==> cs[j].pri <= cs[b.value].pri && (j < b.value ==> cs[j].pri < cs[b.value].pri)
  {
    b := None;
    for n := 0 to |cs|
      invariant b == Best(cs, n)
    {
      if cs[n].mayRun && (b.None? || cs[n].pri > cs[b.value].pri) {
        b := Some(n);
      }
    }
    BestIsFirstMaximal(cs, |cs|);
  }

  // ----- round robin -----

  predicate Takes(c: Candidate, pri: nat) {
    c.mayRun && c.pri >= pri
  }

  /** The first acceptable position at or after i. */
  function NextFrom(cs: seq<Candidate>, i: nat, pri: nat): (r: Option<nat>)
    requires i <= |cs|
    ensures r.Some? ==> i <= r.value < |cs| && Takes(cs[r.value], pri)
    ensures r.Some? ==> forall j :: i <= j < r.value ==> !Takes(cs[j], pri)
    ensures r.None? ==> forall j :: i <= j < |cs| ==> !Takes(cs[j], pri)
    decreases |cs| - i
  {
    if i == |cs| then None else if Takes(cs[i], pri) then Some(i) else NextFrom(cs, i + 1, pri)
  }

  /** From behind the current position to the end, then from the front. */
  function RoundRobin(cs: seq<Candidate>, cur: nat): (r: Option<nat>)
    requires cur < |cs|
    ensures r.Some? ==> r.value < |cs|
  {
    var r := NextFrom(cs, cur + 1, cs[cur].pri);
    if r.Some? then r else NextFrom(cs, 0, cs[cur].pri)
  }

  /** How many positions j comes behind cur, going round a list of n; cur itself comes last. */
  function Lag(cur: nat, j: nat, n: nat): nat
    requires cur < n && j < n
  {
    if j > cur then j - cur else j + n - cur
  }

  /** Round robin elects the first candidate behind the current one, going round, that may run at the current priority
      or a higher one; the current one comes last. It elects nobody exactly if there is none. */
  lemma RoundRobinExactly(cs: seq<Candidate>, cur: nat)
    requires cur < |cs|
    ensures var r := RoundRobin(cs, cur);
            && (r.None? <==> forall j :: 0 <= j < |cs| && cs[j].mayRun ==> cs[j].pri < cs[cur].pri)
            && (r.Some? ==> cs[r.value].mayRun && cs[r.value].pri >= cs[cur].pri)
            && (r.Some? ==> forall j :: 0 <= j < |cs| && cs[j].mayRun && cs[j].pri >= cs[cur].pri ==>
                              Lag(cur, r.value, |cs|) <= Lag(cur, j, |cs|))
  {
    var pri := cs[cur].pri;
    var a, b := NextFrom(cs, cur + 1, pri), NextFrom(cs, 0, pri);
    forall j | 0 <= j < |cs| && cs[j].mayRun && pri <= cs[j].pri
      ensures a.Some? || (b.Some? && b.value <= j <= cur)
      ensures a.Some? ==> Lag(cur, a.value, |cs|) <= Lag(cur, j, |cs|)
    {
      assert Takes(cs[j], pri);
    }
    if b.Some? { assert Takes(cs[b.value], pri); }
  }

  method ElectRoundRobin(cs: seq<Candidate>, cur: nat) returns (r: Option<nat>)
    requires cur < |cs|
    ensures r == RoundRobin(cs, cur)
    ensures r.None? <==> forall j :: 0 <= j < |cs| && cs[j].mayRun ==> cs[j].pri < cs[cur].pri
    ensures r.Some? ==> r.value < |cs| && cs[r.value].mayRun && cs[r.value].pri >= cs[cur].pri
    ensures r.Some? ==> forall j :: 0 <= j < |cs| && cs[j].mayRun && cs[j].pri >= cs[cur].pri ==> Lag(cur, r.value, |cs|) <= Lag(cur, j, |cs|)
  {
    RoundRobinExactly(cs, cur);
    var pri := cs[cur].pri;
    var i := cur + 1;
    while i < |cs|
      invariant cur + 1 <= i <= |cs|
      invariant NextFrom(cs, cur + 1, pri) == NextFrom(cs, i, pri)
    {
      if cs[i].mayRun && cs[i].pri >= pri {
        return Some(i);
      }
      i := i + 1;
    }
    i := 0;
    while i < |cs|
      invariant 0 <= i <= |cs|
      invariant NextFrom(cs, 0, pri) == NextFrom(cs, i, pri)
    {
      if cs[i].mayRun && cs[i].pri >= pri {
        return Some(i);
      }
      i := i + 1;
    }
    return None;
  }

  // ----- fairness of round robin -----

  /** Positions of the runnable candidates of priority at least pri, in list order, below n. */
  function Peers(cs: seq<Candidate>, pri: nat, n: nat): (ps: seq<nat>)
    requires n <= |cs|
    ensures forall k :: 0 <= k < |ps| ==> ps[k] < n && Takes(cs[ps[k]], pri)
  {
    if n == 0 then []
    else if Takes(cs[n - 1], pri) then Peers(cs, pri, n - 1) + [n - 1]
    else Peers(cs, pri, n - 1)
  }

  lemma {:induction false} PeersComplete(cs: seq<Candidate>, pri: nat, n: nat)
    requires n <= |cs|
    ensures forall i, j :: 0 <= i < j < |Peers(cs, pri, n)| ==> Peers(cs, pri, n)[i] < Peers(cs, pri, n)[j]
    ensures forall x :: 0 <= x < n && Takes(cs[x], pri) ==> x in Peers(cs, pri, n)
  {
    if n > 0 {
      PeersComplete(cs, pri, n - 1);
    }
  }

  ghost predicate AllAtTop(cs: seq<Candidate>, pri: nat) {
    forall j :: 0 <= j < |cs| && cs[j].mayRun ==> cs[j].pri <= pri
  }

  function Wrap(i: nat, k: nat, n: nat): nat
    requires i < n && k <= n
  {
    if i + k < n then i + k else i + k - n
  }

  /** The search from x finds the least peer at or above x. */
  lemma NextFromPeer(cs: seq<Candidate>, pri: nat, x: nat, i: nat)
    requires i < |Peers(cs, pri, |cs|)| && x <= Peers(cs, pri, |cs|)[i]
    requires i > 0 ==> Peers(cs, pri, |cs|)[i - 1] < x
    ensures NextFrom(cs, x, pri) == Some(Peers(cs, pri, |cs|)[i])
  {
    var ps := Peers(cs, pri, |cs|);
    PeersComplete(cs, pri, |cs|);
    var a := NextFrom(cs, x, pri);
    assert Takes(cs[ps[i]], pri);
    var k := PeerPosition(cs, pri, a.value);
    assert i > 0 ==> forall j :: 0 <= j < i ==> ps[j] <= ps[i - 1];
    assert k >= i;
  }

  /** The current process's successor in round robin is the next peer, cyclically. */
  lemma RoundRobinAdvances(cs: seq<Candidate>, pri: nat, i: nat)
    requires AllAtTop(cs, pri)
    requires i < |Peers(cs, pri, |cs|)|
    ensures var ps := Peers(cs, pri, |cs|); RoundRobin(cs, ps[i]) == Some(ps[Wrap(i, 1, |ps|)])
  {
    var ps := Peers(cs, pri, |cs|);
    PeersComplete(cs, pri, |cs|);
    assert cs[ps[i]].pri == pri;
    if i + 1 < |ps| {
      NextFromPeer(cs, pri, ps[i] + 1, i + 1);
    } else {
      var a := NextFrom(cs, ps[i] + 1, pri);
      if a.Some? { var k := PeerPosition(cs, pri, a.value); }
      NextFromPeer(cs, pri, 0, 0);
    }
  }

  lemma PeerPosition(cs: seq<Candidate>, pri: nat, x: nat) returns (k: nat)
    requires x < |cs| && Takes(cs[x], pri)
    ensures k < |Peers(cs, pri, |cs|)| && Peers(cs, pri, |cs|)[k] == x
  {
    PeersComplete(cs, pri, |cs|);
    k :| 0 <= k < |Peers(cs, pri, |cs|)| && Peers(cs, pri, |cs|)[k] == x;
  }

  /** The position running after k round-robin elections. */
  ghost function After(cs: seq<Candidate>, cur: nat, k: nat): Option<nat>
    requires cur < |cs|
    ensures After(cs, cur, k).Some? ==> After(cs, cur, k).value < |cs|
  {
    if k == 0 then Some(cur)
    else
      var r := After(cs, cur, k - 1);
      if r.None? then None else RoundRobin(cs, r.value)
  }

  lemma {:induction false} AfterCycles(cs: seq<Candidate>, pri: nat, i: nat, k: nat)
    requires AllAtTop(cs, pri)
    requires i < |Peers(cs, pri, |cs|)| && k <= |Peers(cs, pri, |cs|)|
    ensures var ps := Peers(cs, pri, |cs|); After(cs, ps[i], k) == Some(ps[Wrap(i, k, |ps|)])
  {
    if k > 0 {
      AfterCycles(cs, pri, i, k - 1);
      RoundRobinAdvances(cs, pri, Wrap(i, k - 1, |Peers(cs, pri, |cs|)|));
    }
  }

  lemma WrapInjective(i: nat, k: nat, m: nat, n: nat)
    requires i < n && 1 <= k <= n && 1 <= m <= n && Wrap(i, k, n) == Wrap(i, m, n)
    ensures k == m
  {
  }

  /** With a fixed set of n runnable processes at the top priority, n consecutive round-robin elections
      visit each of them exactly once. */
  lemma RoundRobinVisitsEachOnce(cs: seq<Candidate>, cur: nat, x: nat) returns (k: nat)
    requires cur < |cs| && cs[cur].mayRun && AllAtTop(cs, cs[cur].pri)
    requires x < |cs| && cs[x].mayRun && cs[x].pri == cs[cur].pri
    ensures var n := |Peers(cs, cs[cur].pri, |cs|)|;
            && 1 <= k <= n && After(cs, cur, k) == Some(x)
            && forall m :: 1 <= m <= n && After(cs, cur, m) == Some(x) ==> m == k
  {
    var pri := cs[cur].pri;
    var ps := Peers(cs, pri, |cs|);
    var n := |ps|;
    var i := PeerPosition(cs, pri, cur);
    var j := PeerPosition(cs, pri, x);
    k := if j > i then j - i else j + n - i;
    AfterCycles(cs, pri, i, k);
    forall m | 1 <= m <= n && After(cs, cur, m) == Some(x) ensures m == k {
      AfterCycles(cs, pri, i, m);
      SamePeer(cs, pri, Wrap(i, m, n), j);
      WrapInjective(i, k, m, n);
    }
  }

  lemma SamePeer(cs: seq<Candidate>, pri: nat, i: nat, j: nat)
    requires i < |Peers(cs, pri, |cs|)| && j < |Peers(cs, pri, |cs|)|
    requires Peers(cs, pri, |cs|)[i] == Peers(cs, pri, |cs|)[j]
    ensures i == j
  {
    PeersComplete(cs, pri, |cs|);
  }
}
