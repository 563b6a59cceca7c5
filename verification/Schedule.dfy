/** The cyclic partition schedule of kern/multitask/sched.c: modules in a major frame, one queued activation for
    each, and a cursor that has to follow them. */
module Schedule {
  import opened Common
  import opened TimerQueue
  import opened Election
  import opened Arithmetic

  datatype Module = Module(part: nat, offset: int, duration: int, prevAct: int)

  /** Modules, major frame, cursor, due times of the queued activations, and the current partition. */
  datatype Sched = Sched(mods: seq<Module>, major: int, cursor: Option<nat>, times: seq<int>, part: Option<nat>)

  // ----- activations in the event queue -----

  /** The due times of the queued activations, in queue order. */
  function Activations(q: seq<Event>): seq<int> {
    if q == [] then []
    else if q[0].what == PartitionActivate then [q[0].time] + Activations(q[1..])
    else Activations(q[1..])
  }

  function InsertTime(ts: seq<int>, t: int): seq<int> {
    if ts == [] || ts[0] > t then [t] + ts else [ts[0]] + InsertTime(ts[1..], t)
  }

  function DueTimes(ts: seq<int>, t: int): (d: seq<int>)
    ensures |d| <= |ts| && d == ts[..|d|]
  {
    if ts == [] || ts[0] > t then [] else [ts[0]] + DueTimes(ts[1..], t)
  }

  lemma {:induction false} AllLater(q: seq<Event>, next: nat, t: int)
    requires QueueOk(q, next) && q != [] && q[0].time > t
    ensures Activations(q) == [] || Activations(q)[0] > t
  {
    if q[0].what != PartitionActivate && q[1..] != [] { AllLater(q[1..], next, t); }
  }

  /** Queueing an activation among all other events is inserting its time among the activations. */
  lemma {:induction false} ActivationsInsert(q: seq<Event>, next: nat, e: Event)
    requires QueueOk(q, next)
    ensures Activations(Insert(q, e)) ==
            if e.what == PartitionActivate then InsertTime(Activations(q), e.time) else Activations(q)
  {
    if q == [] || q[0].time > e.time {
      if q != [] { AllLater(q, next, e.time); }
      assert Insert(q, e)[1..] == q;
    } else {
      ActivationsInsert(q[1..], next, e);
      assert Insert(q, e)[1..] == Insert(q[1..], e);
    }
  }

  /** The activations among the events due at t. */
  lemma {:induction false} ActivationsDue(q: seq<Event>, next: nat, t: int)
    requires QueueOk(q, next)
    ensures Activations(Due(q, t)) == DueTimes(Activations(q), t)
    ensures |Due(q, t)| <= |q|
    ensures Activations(q[|Due(q, t)|..]) == Activations(q)[|DueTimes(Activations(q), t)|..]
  {
    if q == [] {
    } else if q[0].time > t {
      AllLater(q, next, t);
    } else {
      ActivationsDue(q[1..], next, t);
      assert Due(q, t)[1..] == Due(q[1..], t);
      assert q[|Due(q, t)|..] == q[1..][|Due(q[1..], t)|..];
    }
  }

  // ----- the transitions on values -----

  /** sched_global: the cursor moves on, the next activation of its module is queued, its partition runs. */
  function Global(s: Sched): Sched
    requires s.mods != []
  {
    var c := if s.cursor.None? || s.cursor.value + 1 >= |s.mods| then 0 else s.cursor.value + 1;
    var t := s.mods[c].prevAct + s.major;
    Sched(s.mods[c := s.mods[c].(prevAct := t)], s.major, Some(c), InsertTime(s.times, t), Some(s.mods[c].part))
  }

  /** A timer interrupt at t: all due activations are consumed, and sched_global runs once if there were any. */
  function Interrupt(s: Sched, t: int): Sched
    requires s.mods != []
  {
    var d := DueTimes(s.times, t);
    if d == [] then s else Global(s.(times := s.times[|d|..]))
  }

  /** Modules in order of their offsets, without overlap, within the major frame. */
  ghost predicate Ordered(ms: seq<Module>, major: int) {
    && (forall i :: 0 <= i < |ms| ==> ms[i].offset >= 0 && ms[i].duration > 0 && ms[i].offset + ms[i].duration <= major)
    && (forall i, j :: 0 <= i < j < |ms| ==> ms[i].offset + ms[i].duration <= ms[j].offset)
  }

  // ----- phase -----

  /** When module m is to be activated for the k-th time. */
  function ActTime(ms: seq<Module>, now: int, major: int, m: nat, k: nat): int
    requires m < |ms|
  {
    now + ms[m].offset + k * major
  }

  function NextModule(m: nat, n: nat): nat { if m + 1 < n then m + 1 else 0 }
  function NextRound(m: nat, k: nat, n: nat): nat { if m + 1 < n then k else k + 1 }

  /** The times of count activations from the k-th of module m on, in schedule order. */
  function Upcoming(ms: seq<Module>, now: int, major: int, m: nat, k: nat, count: nat): (ts: seq<int>)
    requires m < |ms|
    ensures |ts| == count
    decreases count
  {
    if count == 0 then []
    else [ActTime(ms, now, major, m, k)] + Upcoming(ms, now, major, NextModule(m, |ms|), NextRound(m, k, |ms|), count - 1)
  }

  /** The k-th activation of module m is the next one: all modules' next activations are queued, in order, and the
      cursor stands on the module before m. */
  ghost predicate InPhase(s: Sched, now: int, m: nat, k: nat) {
    && m < |s.mods| && Ordered(s.mods, s.major)
    && s.cursor == Some(if m == 0 then |s.mods| - 1 else m - 1)
    && s.times == Upcoming(s.mods, now, s.major, m, k, |s.mods|)
    && forall i :: 0 <= i < |s.mods| ==> s.mods[i].prevAct == ActTime(s.mods, now, s.major, i, if i >= m then k else k + 1)
  }

  /** Only the offsets of the modules matter for activation times. */
  lemma {:induction false} SameOffsets(a: seq<Module>, b: seq<Module>, now: int, major: int, m: nat, k: nat, count: nat)
    requires |a| == |b| && m < |a| && forall i :: 0 <= i < |a| ==> a[i].offset == b[i].offset
    ensures Upcoming(a, now, major, m, k, count) == Upcoming(b, now, major, m, k, count)
    decreases count
  {
    if count > 0 { SameOffsets(a, b, now, major, NextModule(m, |a|), NextRound(m, k, |a|), count - 1); }
  }

  /** Where schedule order leads in count steps. */
  function Ahead(m: nat, k: nat, n: nat, count: nat): (r: (nat, nat))
    requires m < n && count <= n
    ensures r.0 < n
  {
    if m + count < n then (m + count, k) else (m + count - n, k + 1)
  }

  lemma {:induction false} UpcomingAppend(ms: seq<Module>, now: int, major: int, m: nat, k: nat, count: nat)
    requires m < |ms| && count < |ms|
    ensures var last := Ahead(m, k, |ms|, count);
            Upcoming(ms, now, major, m, k, count + 1)
            == Upcoming(ms, now, major, m, k, count) + [ActTime(ms, now, major, last.0, last.1)]
    decreases count
  {
    if count > 0 {
      var m2, k2 := NextModule(m, |ms|), NextRound(m, k, |ms|);
      UpcomingAppend(ms, now, major, m2, k2, count - 1);
      assert Ahead(m2, k2, |ms|, count - 1) == Ahead(m, k, |ms|, count);
      var head := [ActTime(ms, now, major, m, k)];
      assert Upcoming(ms, now, major, m, k, count + 1) == head + Upcoming(ms, now, major, m2, k2, count);
    }
  }

  lemma {:induction false} UpcomingAt(ms: seq<Module>, now: int, major: int, m: nat, k: nat, count: nat, i: nat)
    requires m < |ms| && i < count <= |ms|
    ensures var a := Ahead(m, k, |ms|, i); Upcoming(ms, now, major, m, k, count)[i] == ActTime(ms, now, major, a.0, a.1)
    decreases count
  {
    if i > 0 { UpcomingAt(ms, now, major, NextModule(m, |ms|), NextRound(m, k, |ms|), count - 1, i - 1); }
  }

  /** No activation comes later than the one a full round behind it. */
  lemma WithinRound(ms: seq<Module>, now: int, major: int, m: nat, k: nat, i: nat)
    requires Ordered(ms, major) && m < |ms| && i <= |ms|
    ensures var a := Ahead(m, k, |ms|, i); ActTime(ms, now, major, a.0, a.1) <= ActTime(ms, now, major, m, k + 1)
  {
    var a := Ahead(m, k, |ms|, i);
    assert (k + 1) * major == k * major + major;
  }

  lemma {:induction false} InsertLast(ts: seq<int>, t: int)
    requires forall i :: 0 <= i < |ts| ==> ts[i] <= t
    ensures InsertTime(ts, t) == ts + [t]
  {
    if ts != [] {
      InsertLast(ts[1..], t);
      assert ts == [ts[0]] + ts[1..];
    }
  }

  lemma ActLater(ms: seq<Module>, now: int, major: int, m: nat, k: nat)
    requires m < |ms|
    ensures ActTime(ms, now, major, m, k) + major == ActTime(ms, now, major, m, k + 1)
  {
    assert (k + 1) * major == k * major + major;
  }

  /** The new activation goes behind all that are queued. */
  lemma QueuedLast(ms: seq<Module>, now: int, major: int, m: nat, k: nat)
    requires Ordered(ms, major) && m < |ms|
    ensures var m2, k2 := NextModule(m, |ms|), NextRound(m, k, |ms|);
            InsertTime(Upcoming(ms, now, major, m2, k2, |ms| - 1), ActTime(ms, now, major, m, k + 1))
            == Upcoming(ms, now, major, m2, k2, |ms|)
  {
    var n := |ms|;
    var m2, k2 := NextModule(m, n), NextRound(m, k, n);
    var rest, next := Upcoming(ms, now, major, m2, k2, n - 1), ActTime(ms, now, major, m, k + 1);
    forall i | 0 <= i < |rest| ensures rest[i] <= next {
      UpcomingAt(ms, now, major, m2, k2, n - 1, i);
      WithinRound(ms, now, major, m, k, i + 1);
      assert Ahead(m2, k2, n, i) == Ahead(m, k, n, i + 1);
    }
    InsertLast(rest, next);
    UpcomingAppend(ms, now, major, m2, k2, n - 1);
    assert Ahead(m2, k2, n, n - 1) == (m, k + 1);
  }

  /** In phase, one due activation makes its own module current, and the schedule stays in phase. */
  lemma OneDueKeepsPhase(s: Sched, now: int, m: nat, k: nat, t: int)
    requires InPhase(s, now, m, k) && |DueTimes(s.times, t)| == 1
    ensures var r := Interrupt(s, t);
            && DueTimes(s.times, t) == [ActTime(s.mods, now, s.major, m, k)]
            && r.cursor == Some(m) && r.part == Some(s.mods[m].part) && SameParts(s.mods, r.mods)
            && InPhase(r, now, NextModule(m, |s.mods|), NextRound(m, k, |s.mods|))
  {
    var n := |s.mods|;
    var m2, k2 := NextModule(m, n), NextRound(m, k, n);
    assert s.times[1..] == Upcoming(s.mods, now, s.major, m2, k2, n - 1);
    ActLater(s.mods, now, s.major, m, k);
    QueuedLast(s.mods, now, s.major, m, k);
    Advanced(s, Interrupt(s, t), now, m, k);
  }

  lemma Advanced(s: Sched, r: Sched, now: int, m: nat, k: nat)
    requires InPhase(s, now, m, k)
    requires r.mods == s.mods[m := s.mods[m].(prevAct := ActTime(s.mods, now, s.major, m, k + 1))]
    requires r.major == s.major && r.cursor == Some(m)
    requires r.times == Upcoming(s.mods, now, s.major, NextModule(m, |s.mods|), NextRound(m, k, |s.mods|), |s.mods|)
    ensures InPhase(r, now, NextModule(m, |s.mods|), NextRound(m, k, |s.mods|)) && SameParts(s.mods, r.mods)
  {
    SameOffsets(s.mods, r.mods, now, s.major, NextModule(m, |s.mods|), NextRound(m, k, |s.mods|), |s.mods|);
    SameOrder(s.mods, r.mods, s.major);
  }

  lemma SameOrder(a: seq<Module>, b: seq<Module>, major: int)
    requires Ordered(a, major) && |a| == |b|
    requires forall i :: 0 <= i < |a| ==> a[i].offset == b[i].offset && a[i].duration == b[i].duration
    ensures Ordered(b, major)
  {
  }

  /** In phase, an interrupt leaves the cursor on the module of the last activation it consumed if and only if it
      consumed just one: several due activations collapse into one sched_global. */
  lemma PhaseExactly(s: Sched, now: int, m: nat, k: nat, t: int)
    requires InPhase(s, now, m, k) && DueTimes(s.times, t) != []
    ensures var d := |DueTimes(s.times, t)|;
            var last := Ahead(m, k, |s.mods|, d - 1);
            && 1 <= d <= |s.mods|
            && DueTimes(s.times, t)[d - 1] == ActTime(s.mods, now, s.major, last.0, last.1)
            && (Interrupt(s, t).cursor == Some(last.0) <==> d == 1)
  {
    UpcomingAt(s.mods, now, s.major, m, k, |s.mods|, |DueTimes(s.times, t)| - 1);
  }

  // ----- forever -----

  function Interrupts(s: Sched, ts: seq<int>): Sched
    requires s.mods != []
    decreases |ts|
  {
    if ts == [] then s
    else
      var m := Interrupts(s, ts[..|ts| - 1]);
      if m.mods == [] then m else Interrupt(m, ts[|ts| - 1])
  }

  /** The hypothesis: no interrupt of the run finds more than one activation due. */
  ghost predicate Punctual(s: Sched, ts: seq<int>)
    requires s.mods != []
    decreases |ts|
  {
    ts == [] || (Punctual(s, ts[..|ts| - 1]) && |DueTimes(Interrupts(s, ts[..|ts| - 1]).times, ts[|ts| - 1])| <= 1)
  }

  /** How many interrupts of a run fired an activation. */
  function Fired(s: Sched, ts: seq<int>): nat
    requires s.mods != []
    decreases |ts|
  {
    if ts == [] then 0
    else Fired(s, ts[..|ts| - 1]) + if DueTimes(Interrupts(s, ts[..|ts| - 1]).times, ts[|ts| - 1]) == [] then 0 else 1
  }

  /** Schedule order from the first module on, any number of steps. */
  function Cycled(n: nat, j: nat): (r: (nat, nat))
    requires n > 0
    ensures r.0 < n
  {
    if j == 0 then (0, 0)
    else
      var a := Cycled(n, j - 1);
      (NextModule(a.0, n), NextRound(a.0, a.1, n))
  }

  lemma {:induction false} CycledCounts(n: nat, j: nat)
    requires n > 0
    ensures Cycled(n, j).1 * n + Cycled(n, j).0 == j
  {
    if j > 0 {
      CycledCounts(n, j - 1);
      var a := Cycled(n, j - 1);
      if a.0 + 1 == n { assert (a.1 + 1) * n == a.1 * n + n; }
    }
  }

  /** In phase forever: after any punctual run, the activations fired so far were those of the modules in cyclic
      order, each at its offset in its major frame; the current partition is that of the last one, and the next
      n activations of the cycle are queued. */
  lemma {:induction false} PhaseForever(s: Sched, now: int, ts: seq<int>)
    requires s.mods != [] && Turned(s, s, now, 0) && Punctual(s, ts)
    ensures Turned(s, Interrupts(s, ts), now, Fired(s, ts))
    decreases |ts|
  {
    if ts != [] {
      var front, t := ts[..|ts| - 1], ts[|ts| - 1];
      PhaseForever(s, now, front);
      var m, j := Interrupts(s, front), Fired(s, front);
      NextTurn(s, m, now, j, t);
      RunStep(s, ts, m, t);
    }
  }

  lemma RunStep(s: Sched, ts: seq<int>, m: Sched, t: int)
    requires s.mods != [] && ts != [] && t == ts[|ts| - 1] && m == Interrupts(s, ts[..|ts| - 1]) && m.mods != []
    ensures Interrupts(s, ts) == Interrupt(m, t)
    ensures Fired(s, ts) == Fired(s, ts[..|ts| - 1]) + if DueTimes(m.times, t) == [] then 0 else 1
  {
  }

  /** r is s after j activations: module and round of the j-th activation are current, the cycle goes on from
      the next one. */
  ghost predicate Turned(s: Sched, r: Sched, now: int, j: nat) {
    && s.mods != [] && SameParts(s.mods, r.mods)
    && (var a, b := Cycled(|s.mods|, j), Cycled(|s.mods|, j + 1);
        InPhase(r, now, b.0, b.1) && r.cursor == Some(a.0) && r.part == Some(s.mods[a.0].part))
  }

  lemma NextTurn(s: Sched, m: Sched, now: int, j: nat, t: int)
    requires Turned(s, m, now, j) && |DueTimes(m.times, t)| <= 1
    ensures Turned(s, Interrupt(m, t), now, j + if DueTimes(m.times, t) == [] then 0 else 1)
  {
    var b := Cycled(|s.mods|, j + 1);
    if DueTimes(m.times, t) != [] { OneDueKeepsPhase(m, now, b.0, b.1, t); }
  }

  predicate SameParts(a: seq<Module>, b: seq<Module>) {
    |a| == |b| && forall i :: 0 <= i < |a| ==> a[i].part == b[i].part && a[i].offset == b[i].offset
  }

  // ----- and only then -----

  lemma {:induction false} InsertGrows(ts: seq<int>, t: int)
    ensures |InsertTime(ts, t)| == |ts| + 1
  {
    if ts != [] && ts[0] <= t { InsertGrows(ts[1..], t); }
  }

  /** Every activation consumed is gone, and one is queued in return for all of them. */
  lemma InterruptLeaves(s: Sched, t: int)
    requires s.mods != []
    ensures var d, r := |DueTimes(s.times, t)|, Interrupt(s, t);
            |r.mods| == |s.mods| && |r.times| == |s.times| - d + if d == 0 then 0 else 1
  {
    var d := DueTimes(s.times, t);
    if d != [] {
      var g := s.(times := s.times[|d|..]);
      var c := if s.cursor.None? || s.cursor.value + 1 >= |s.mods| then 0 else s.cursor.value + 1;
      InsertGrows(g.times, s.mods[c].prevAct + s.major);
    }
  }

  lemma {:induction false} RunLeaves(s: Sched, ts: seq<int>)
    requires s.mods != []
    ensures var r := Interrupts(s, ts);
            && |r.mods| == |s.mods| && |r.times| <= |s.times|
            && (|r.times| == |s.times| <==> Punctual(s, ts))
    decreases |ts|
  {
    if ts != [] {
      RunLeaves(s, ts[..|ts| - 1]);
      InterruptLeaves(Interrupts(s, ts[..|ts| - 1]), ts[|ts| - 1]);
    }
  }

  /** A run from a schedule in phase is in phase at its end, at the activation its interrupts count, if and only if
      it was punctual throughout. Once an interrupt collapses two activations, fewer than one activation a module
      is queued, and no later interrupt ever brings the schedule back in phase, at any module and round. */
  lemma PhaseIffPunctual(s: Sched, now: int, ts: seq<int>)
    requires s.mods != [] && Turned(s, s, now, 0)
    ensures var r := Interrupts(s, ts);
            && (Turned(s, r, now, Fired(s, ts)) <==> Punctual(s, ts))
            && (Punctual(s, ts) <==> |r.times| == |r.mods|)
            && ((exists m: nat, k: nat :: InPhase(r, now, m, k)) <==> Punctual(s, ts))
  {
    RunLeaves(s, ts);
    if Punctual(s, ts) {
      PhaseForever(s, now, ts);
      var b := Cycled(|s.mods|, Fired(s, ts) + 1);
      assert InPhase(Interrupts(s, ts), now, b.0, b.1);
    }
  }
}
