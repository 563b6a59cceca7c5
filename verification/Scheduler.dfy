/** The scheduler's state and methods: adding modules, launching, and the switch to the next partition. */
module Scheduler {
  import opened Common
  import opened TimerQueue
  import opened Election
  import opened Arithmetic
  import opened Schedule

  /** Modules the source accepts one after another. */
  predicate Chained(ms: seq<Module>) {
    forall i :: 0 < i < |ms| ==> ms[i - 1].offset + ms[i - 1].duration <= ms[i].offset
  }

  /** With non-negative offsets and positive durations the pairwise checks order all modules, and the check
      against the major frame at launch makes them fit it. */
  lemma ChainedOrdered(ms: seq<Module>, major: int)
    requires Chained(ms) && forall i :: 0 <= i < |ms| ==> ms[i].offset >= 0 && ms[i].duration > 0
    ensures Ordered(ms, major) <==> forall i :: 0 <= i < |ms| ==> ms[i].offset + ms[i].duration <= major
  {
    forall i, j | 0 <= i < j < |ms| ensures ms[i].offset + ms[i].duration <= ms[j].offset { ChainedFar(ms, i, j); }
  }

  lemma {:induction false} ChainedFar(ms: seq<Module>, i: nat, j: nat)
    requires Chained(ms) && i < j < |ms| && forall k :: 0 <= k < |ms| ==> ms[k].duration > 0
    ensures ms[i].offset + ms[i].duration <= ms[j].offset
    decreases j
  {
    if i + 1 < j { ChainedFar(ms, i, j - 1); }
  }

  /** The module list after launch: each module's first activation time is its offset from now. */
  function Launched(ms: seq<Module>, now: int): (r: seq<Module>)
    ensures |r| == |ms|
  {
    seq(|ms|, i requires 0 <= i < |ms| => ms[i].(prevAct := now + ms[i].offset))
  }

  lemma LaunchedChained(ms: seq<Module>, now: int)
    requires Chained(ms)
    ensures Chained(Launched(ms, now))
  {
  }

  /** The activations after launch: one for each module but the first, among those queued before. */
  function LaunchTimes(ms: seq<Module>, now: int, ts: seq<int>, n: nat): seq<int>
    requires n <= |ms|
  {
    if n <= 1 then ts else InsertTime(LaunchTimes(ms, now, ts, n - 1), now + ms[n - 1].offset)
  }

  lemma {:induction false} LaunchedUpcoming(ms: seq<Module>, now: int, major: int, n: nat)
    requires Ordered(ms, major) && 1 <= n <= |ms|
    ensures LaunchTimes(ms, now, [], n) == Upcoming(ms, now, major, NextModule(0, |ms|), NextRound(0, 0, |ms|), n - 1)
  {
    if n > 1 {
      LaunchedUpcoming(ms, now, major, n - 1);
      var m2, k2 := NextModule(0, |ms|), NextRound(0, 0, |ms|);
      var before := Upcoming(ms, now, major, m2, k2, n - 2);
      forall i | 0 <= i < |before| ensures before[i] <= now + ms[n - 1].offset {
        UpcomingAt(ms, now, major, m2, k2, n - 2, i);
      }
      InsertLast(before, now + ms[n - 1].offset);
      UpcomingAppend(ms, now, major, m2, k2, n - 2);
    }
  }

  /** The first switch after launch puts the schedule in phase: the first module runs at once, whatever its
      offset, and its next activation is a major frame after the offset. So its first activation comes when it
      is due, at its offset from now, if and only if the offset is zero. */
  lemma LaunchInPhase(s: Sched, now: int)
    requires s.mods != [] && Ordered(s.mods, s.major) && s.cursor.None? && s.times == []
    ensures var l := s.(mods := Launched(s.mods, now), times := LaunchTimes(s.mods, now, [], |s.mods|));
            && Turned(Global(l), Global(l), now, 0)
            && Global(l).part == Some(s.mods[0].part) && ActTime(s.mods, now, s.major, 0, 0) == now + s.mods[0].offset
            && (ActTime(s.mods, now, s.major, 0, 0) == now <==> s.mods[0].offset == 0)
  {
    var l := s.(mods := Launched(s.mods, now), times := LaunchTimes(s.mods, now, [], |s.mods|));
    LaunchedUpcoming(s.mods, now, s.major, |s.mods|);
    QueuedLast(s.mods, now, s.major, 0, 0);
    ActLater(s.mods, now, s.major, 0, 0);
    assert ActTime(s.mods, now, s.major, 0, 0) == now + s.mods[0].offset;
    FirstTurn(s, Launched(s.mods, now), Global(l), now);
  }

  lemma FirstTurn(s: Sched, ms: seq<Module>, g: Sched, now: int)
    requires s.mods != [] && Ordered(s.mods, s.major) && ms == Launched(s.mods, now)
    requires g.mods == ms[0 := ms[0].(prevAct := ActTime(s.mods, now, s.major, 0, 1))]
    requires g.major == s.major && g.cursor == Some(0) && g.part == Some(ms[0].part)
    requires g.times == Upcoming(s.mods, now, s.major, NextModule(0, |s.mods|), NextRound(0, 0, |s.mods|), |s.mods|)
    ensures Turned(g, g, now, 0)
  {
    var n := |s.mods|;
    SameOffsets(s.mods, g.mods, now, s.major, NextModule(0, n), NextRound(0, 0, n), n);
    SameOrder(s.mods, g.mods, s.major);
    assert Cycled(n, 0) == (0, 0);
    assert Cycled(n, 1) == (NextModule(0, n), NextRound(0, 0, n));
    forall i | 0 <= i < n
      ensures g.mods[i].prevAct == ActTime(g.mods, now, g.major, i, if i >= NextModule(0, n) then NextRound(0, 0, n) else NextRound(0, 0, n) + 1)
    {
    }
  }

  class Scheduler {
    var mods: seq<Module>
    var periods: seq<nat>
    /** The partition of each period, in the order in which partitions were added. */
    var parts: seq<nat>
    var major: int
    var cursor: Option<nat>
    var part: Option<nat>
    const events: Queue
    var nextEvent: nat

    ghost predicate Valid()
      reads this, events
    {
      && QueueOk(events.entries, nextEvent) && |parts| == |periods| && Positive(periods) && Chained(mods)
      && (cursor.Some? ==> cursor.value < |mods|)
    }

    ghost function Snapshot(): Sched
      reads this, events
    {
      Sched(mods, major, cursor, Activations(events.entries), part)
    }

    constructor ()
      ensures Valid() && fresh(events)
      ensures Snapshot() == Sched([], 0, None, [], None) && parts == [] && events.entries == []
    {
      mods, periods, parts, major, cursor, part, nextEvent := [], [], [], 0, None, None, 0;
      events := new Queue([]);
    }

    method AddPart(p: nat, period: nat)
      requires Valid() && period > 0
      modifies this
      ensures Valid() && Snapshot() == old(Snapshot())
      ensures parts == old(parts) + [p] && periods == old(periods) + [period]
    {
      parts, periods := parts + [p], periods + [period];
    }

    /** sched_module_add refuses a module that begins before the last one ends. */
    method ModuleAdd(p: nat, offset: int, duration: int) returns (ok: bool)
      requires Valid()
      modifies this
      ensures Valid()
      ensures ok <==> old(mods) == [] || old(mods)[|old(mods)| - 1].offset + old(mods)[|old(mods)| - 1].duration <= offset
      ensures Snapshot() == if ok then old(Snapshot()).(mods := old(mods) + [Module(p, offset, duration, 0)]) else old(Snapshot())
    {
      if mods != [] && mods[|mods| - 1].offset + mods[|mods| - 1].duration > offset { return false; }
      mods := mods + [Module(p, offset, duration, 0)];
      return true;
    }

    /** The fold of lcm over the partitions. */
    method MajorFrame() returns (l: nat)
      requires Positive(periods) && Fits(periods)
      ensures l == LcmAll(periods) && l > 0
    {
      l := 1;
      var i := 0;
      FitsPrefix(periods, |periods|);
      while i < |periods|
        invariant 0 <= i <= |periods| && l == LcmAll(periods[..i])
      {
        FitsPrefix(periods, i + 1);
        assert periods[..i + 1][..i] == periods[..i];
        l := ComputeLcm(l, periods[i]);
        i := i + 1;
      }
      assert periods[..i] == periods;
    }

    /** sched_launch fails without partitions, or when a module does not fit the major frame. */
    method Launch(now: int) returns (ok: bool)
      requires Valid() && Fits(periods)
      modifies this, events
      ensures Valid()
      ensures parts != [] ==> major == LcmAll(periods)
      ensures ok <==> parts != [] && forall i :: 0 <= i < |mods| ==> mods[i].offset + mods[i].duration <= major
      ensures ok ==> Snapshot() == old(Snapshot()).(mods := Launched(old(mods), now), major := LcmAll(periods),
                                                    times := LaunchTimes(old(mods), now, Activations(old(events.entries)), |old(mods)|))
      ensures !ok ==> mods == old(mods) && events.entries == old(events.entries)
      ensures parts == old(parts) && periods == old(periods)
    {
      if parts == [] { return false; }
      major := MajorFrame();
      for i := 0 to |mods|
        invariant forall j :: 0 <= j < i ==> mods[j].offset + mods[j].duration <= major
      {
        if mods[i].offset + mods[i].duration > major { return false; }
      }
      LaunchModules(now);
      return true;
    }

    method LaunchModules(now: int)
      requires Valid()
      modifies this`mods, this`nextEvent, events
      ensures Valid() && mods == Launched(old(mods), now)
      ensures Activations(events.entries) == LaunchTimes(old(mods), now, Activations(old(events.entries)), |old(mods)|)
    {
      ghost var ms, ts := mods, Activations(events.entries);
      var i := 0;
      while i < |mods|
        invariant 0 <= i <= |mods| == |ms| && QueueOk(events.entries, nextEvent)
        invariant forall j :: 0 <= j < |ms| ==> mods[j] == if j < i then ms[j].(prevAct := now + ms[j].offset) else ms[j]
        invariant Activations(events.entries) == LaunchTimes(ms, now, ts, i)
      {
        if i > 0 {
          QueueActivation(now + mods[i].offset);
        }
        mods := mods[i := mods[i].(prevAct := now + mods[i].offset)];
        i := i + 1;
      }
      LaunchedChained(ms, now);
    }

    method QueueActivation(time: int)
      requires QueueOk(events.entries, nextEvent)
      modifies this`nextEvent, events
      ensures QueueOk(events.entries, nextEvent)
      ensures Activations(events.entries) == InsertTime(Activations(old(events.entries)), time)
    {
      var e := Event(nextEvent, time, PartitionActivate);
      ActivationsInsert(events.entries, nextEvent, e);
      InsertOk(events.entries, nextEvent, e);
      events.Enqueue(e);
      nextEvent := nextEvent + 1;
    }

    /** sched_global: without modules the first partition runs for ever. */
    method SwitchPartition()
      requires Valid() && (mods == [] ==> parts != [])
      modifies this, events
      ensures Valid() && parts == old(parts) && periods == old(periods)
      ensures Snapshot() == if old(mods) == [] then old(Snapshot()).(part := Some(parts[0])) else Global(old(Snapshot()))
    {
      if mods == [] {
        part := Some(parts[0]);
        return;
      }
      if cursor.None? || cursor.value + 1 == |mods| {
        cursor := Some(0);
      } else {
        cursor := Some(cursor.value + 1);
      }
      var c := cursor.value;
      part := Some(mods[c].part);
      QueueActivation(mods[c].prevAct + major);
      mods := mods[c := mods[c].(prevAct := mods[c].prevAct + major)];
    }
  }

  lemma {:induction false} FitsPrefix(ps: seq<nat>, n: nat)
    requires Positive(ps) && Fits(ps) && n <= |ps|
    ensures Fits(ps[..n]) && (n > 0 ==> LcmAll(ps[..n - 1]) * ps[n - 1] <= MAXINT)
    ensures n > 0 ==> LcmAll(ps[..n]) == Lcm(LcmAll(ps[..n - 1]), ps[n - 1])
    decreases |ps|
  {
    if n < |ps| {
      FitsPrefix(ps[..|ps| - 1], n);
      assert ps[..|ps| - 1][..n] == ps[..n];
      if n > 0 { assert ps[..|ps| - 1][..n - 1] == ps[..n - 1]; }
    } else {
      assert ps[..n] == ps;
    }
  }
}
