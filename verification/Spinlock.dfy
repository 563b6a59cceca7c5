/** Locks taken and released by any number of harts, one memory access or CSR instruction a step: lk_acquire and
    lk_release around the atomic swap, and the nested interrupt masking of intp_push and intp_pop. */
module Spinlock {
  import opened Common

  type HartId = nat
  type LockId = nat

  /** The lock word and the recorded owner; None stands for HARTID_MAX. */
  datatype Lock = Lock(locked: bool, owner: Option<HartId>)

  datatype Pc =
    | Idle
    // lk_acquire
    | ReadState(l: LockId)              // lk_state == LK_LOCKED?
    | ReadOwner(l: LockId)              // lk_hartid == this hart?
    | Mask(l: LockId)                   // intp_push: clear sstatus.sie, keeping its value
    | Push(l: LockId, sie: bool)        // intp_push: count the layer
    | Swap(l: LockId)                   // amoswap until the old value was unlocked
    | Claim(l: LockId)                  // record the owner
    // lk_release
    | TestState(l: LockId)
    | TestOwner(l: LockId)
    | Disown(l: LockId)                 // clear the owner
    | Unlock(l: LockId)                 // amoswap to unlocked
    | Pop(l: LockId)                    // intp_pop: uncount the layer
    | Restore(l: LockId)                // intp_pop: enable again behind the outermost layer

  datatype Outcome = Pending | Success | Refused

  /** A hart: where it stands, sstatus.sie, the masking layers and the retained flag. History: the locks between
      a recorded claim and its disowning, the interrupt state at the last outermost push, the last outcome. */
  datatype Hart = Hart(pc: Pc, sie: bool, layer: nat, retained: bool, held: set<LockId>, saw: bool, outcome: Outcome)

  datatype State = State(locks: map<LockId, Lock>, harts: map<HartId, Hart>)

  datatype Action =
    | Acquire(l: LockId)
    | Release(l: LockId)
    | Toggle(on: bool)                  // code outside the locks enables or disables interrupts
    | Continue                          // the next instruction of a call

  // ----- steps -----

  predicate Enabled(s: State, h: HartId, a: Action) {
    && h in s.harts
    && match a
       case Acquire(l) => s.harts[h].pc.Idle? && l in s.locks
       case Release(l) => s.harts[h].pc.Idle? && l in s.locks
       case Toggle(_) => s.harts[h].pc.Idle? && s.harts[h].layer == 0
       case Continue => !s.harts[h].pc.Idle? && s.harts[h].pc.l in s.locks
  }

  function WithHart(s: State, h: HartId, q: Hart): State {
    s.(harts := s.harts[h := q])
  }

  function Next(s: State, h: HartId, a: Action): State
    requires Enabled(s, h, a)
  {
    var q := s.harts[h];
    match a
    case Acquire(l) => WithHart(s, h, q.(pc := ReadState(l), outcome := Pending))
    case Release(l) => WithHart(s, h, q.(pc := TestState(l), outcome := Pending))
    case Toggle(on) => WithHart(s, h, q.(sie := on))
    case Continue => Advance(s, h)
  }

  /** The hart after its next instruction, which sees lock k. */
  function Moved(q: Hart, k: Lock, h: HartId): Hart
    requires !q.pc.Idle?
  {
    var l := q.pc.l;
    match q.pc
    case ReadState(_) => q.(pc := if k.locked then ReadOwner(l) else Mask(l))
    case ReadOwner(_) => if k.owner == Some(h) then q.(pc := Idle, outcome := Refused) else q.(pc := Mask(l))
    case Mask(_) => q.(pc := Push(l, q.sie), sie := false, saw := if q.layer == 0 then q.sie else q.saw)
    case Push(_, sie) => q.(pc := Swap(l), layer := q.layer + 1, retained := if q.layer == 0 then sie else q.retained)
    case Swap(_) => if k.locked then q else q.(pc := Claim(l))
    case Claim(_) => q.(pc := Idle, held := q.held + {l}, outcome := Success)
    case TestState(_) => if k.locked then q.(pc := TestOwner(l)) else q.(pc := Idle, outcome := Refused)
    case TestOwner(_) => if k.owner == Some(h) then q.(pc := Disown(l)) else q.(pc := Idle, outcome := Refused)
    case Disown(_) => q.(pc := Unlock(l), held := q.held - {l})
    case Unlock(_) => q.(pc := Pop(l))
    case Pop(_) => q.(pc := Restore(l), layer := if q.layer > 0 then q.layer - 1 else 0)
    case Restore(_) => q.(pc := Idle, sie := if q.layer == 0 && q.retained then true else q.sie, outcome := Success)
  }

  /** What the instruction leaves in the lock. */
  function Written(q: Hart, k: Lock, h: HartId): Lock {
    match q.pc
    case Swap(_) => k.(locked := true)
    case Claim(_) => k.(owner := Some(h))
    case Disown(_) => k.(owner := None)
    case Unlock(_) => k.(locked := false)
    case _ => k
  }

  function Advance(s: State, h: HartId): State
    requires h in s.harts && !s.harts[h].pc.Idle? && s.harts[h].pc.l in s.locks
  {
    var q := s.harts[h];
    var l := q.pc.l;
    State(s.locks[l := Written(q, s.locks[l], h)], s.harts[h := Moved(q, s.locks[l], h)])
  }

  // ----- invariant -----

  /** The hart has won the swap for l and not yet undone it. */
  predicate Has(q: Hart, l: LockId) {
    l in q.held || q.pc == Claim(l) || q.pc == Unlock(l)
  }

  /** The layer that belongs to a call in progress. */
  function Extra(pc: Pc): nat {
    if pc.Swap? || pc.Claim? || pc.Unlock? || pc.Pop? then 1 else 0
  }

  predicate HartOk(q: Hart) {
    && q.layer == |q.held| + Extra(q.pc)
    && (q.layer > 0 || q.pc.Push? || q.pc.Restore? ==> !q.sie)
    && (q.layer > 0 || q.pc.Restore? ==> q.retained == q.saw)
    && (q.pc.Push? && q.layer == 0 ==> q.pc.sie == q.saw)
    && (q.pc.Mask? || q.pc.Push? || q.pc.Swap? || q.pc.Claim? || q.pc.Unlock? ==> q.pc.l !in q.held)
    && (q.pc.Disown? ==> q.pc.l in q.held)
  }

  ghost predicate Exclusive(s: State, l: LockId)
    requires l in s.locks
  {
    && (forall h :: h in s.harts && Has(s.harts[h], l) ==> s.locks[l].locked)
    && (s.locks[l].locked ==> exists h :: h in s.harts && Has(s.harts[h], l))
    && (forall g, h :: g in s.harts && h in s.harts && Has(s.harts[g], l) && Has(s.harts[h], l) ==> g == h)
    && (forall h :: s.locks[l].owner == Some(h) <==> h in s.harts && l in s.harts[h].held)
  }

  ghost predicate Inv(s: State) {
    && (forall h :: h in s.harts ==> HartOk(s.harts[h]))
    && (forall h, l :: h in s.harts && l in s.harts[h].held ==> l in s.locks)
    && (forall l :: l in s.locks ==> Exclusive(s, l))
  }

  ghost predicate Init(s: State) {
    && (forall h :: h in s.harts ==>
          s.harts[h].pc.Idle? && s.harts[h].layer == 0 && s.harts[h].held == {})
    && (forall l :: l in s.locks ==> s.locks[l] == Lock(false, None))
  }

  lemma InitInv(s: State)
    requires Init(s)
    ensures Inv(s)
  {
  }

  /** A step that changes neither the locks nor which locks the hart has. */
  lemma LocalStep(s: State, h: HartId, q: Hart)
    requires Inv(s) && h in s.harts && HartOk(q) && q.held == s.harts[h].held
    requires forall l :: Has(q, l) <==> Has(s.harts[h], l)
    ensures Inv(WithHart(s, h, q))
  {
    var r := WithHart(s, h, q);
    forall l | l in r.locks ensures Exclusive(r, l) {
      assert Exclusive(s, l);
      OtherLock(s, r, h, l);
    }
  }

  /** Other locks do not notice a step on lock l. */
  lemma OtherLock(s: State, r: State, h: HartId, m: LockId)
    requires h in s.harts && m in s.locks && m in r.locks && r.locks[m] == s.locks[m] && Exclusive(s, m)
    requires r.harts.Keys == s.harts.Keys && forall g :: g in s.harts && g != h ==> r.harts[g] == s.harts[g]
    requires Has(r.harts[h], m) == Has(s.harts[h], m) && (m in r.harts[h].held) == (m in s.harts[h].held)
    ensures Exclusive(r, m)
  {
    if r.locks[m].locked {
      var g :| g in s.harts && Has(s.harts[g], m);
      assert g in r.harts && Has(r.harts[g], m);
    }
  }

  /** The instruction keeps the hart consistent, and its standing with all other locks. */
  lemma MovedOk(q: Hart, k: Lock, h: HartId)
    requires HartOk(q) && !q.pc.Idle?
    requires (q.pc.l in q.held ==> k.locked) && (k.owner == Some(h) <==> q.pc.l in q.held)
    ensures HartOk(Moved(q, k, h))
    ensures forall m :: m != q.pc.l ==>
              Has(Moved(q, k, h), m) == Has(q, m) && (m in Moved(q, k, h).held) == (m in q.held)
  {
    MovedWell(q, k, h);
    MovedElsewhere(q, k, h);
  }

  lemma MovedWell(q: Hart, k: Lock, h: HartId)
    requires HartOk(q) && !q.pc.Idle?
    requires (q.pc.l in q.held ==> k.locked) && (k.owner == Some(h) <==> q.pc.l in q.held)
    ensures HartOk(Moved(q, k, h))
  {
  }

  lemma MovedElsewhere(q: Hart, k: Lock, h: HartId)
    requires !q.pc.Idle?
    ensures forall m :: m != q.pc.l ==>
              Has(Moved(q, k, h), m) == Has(q, m) && (m in Moved(q, k, h).held) == (m in q.held)
  {
  }

  /** It keeps its own lock exclusive. */
  lemma WrittenOk(s: State, h: HartId)
    requires Inv(s) && Enabled(s, h, Continue)
    ensures Exclusive(Advance(s, h), s.harts[h].pc.l)
  {
    var q := s.harts[h];
    var l := q.pc.l;
    assert Exclusive(s, l) && HartOk(q);
    LockStep(q, s.locks[l], h);
    OwnLock(s, Advance(s, h), h, l, q, Moved(q, s.locks[l], h));
  }

  lemma OwnLock(s: State, r: State, h: HartId, l: LockId, q: Hart, q2: Hart)
    requires h in s.harts && l in s.locks && Exclusive(s, l) && q == s.harts[h] && l in r.locks
    requires r.harts == s.harts[h := q2]
    requires r.locks[l].locked <==> (s.locks[l].locked && !q.pc.Unlock?) || q.pc.Swap?
    requires Has(q2, l) <==> (Has(q, l) && !q.pc.Unlock?) || (q.pc.Swap? && !s.locks[l].locked)
    requires l in q2.held <==> (l in q.held && !q.pc.Disown?) || q.pc.Claim?
    requires r.locks[l].owner == if q.pc.Claim? then Some(h) else if q.pc.Disown? then None else s.locks[l].owner
    requires (q.pc.Claim? || q.pc.Unlock? ==> q.pc.l == l && l !in q.held) && (q.pc.Disown? ==> l in q.held)
    ensures Exclusive(r, l)
  {
    if Has(q2, l) {
      assert h in r.harts && Has(r.harts[h], l);
    } else if r.locks[l].locked {
      var g :| g in s.harts && Has(s.harts[g], l);
      assert g in r.harts && Has(r.harts[g], l);
    }
  }

  /** How the instruction changes the lock and the hart's standing with it. */
  lemma LockStep(q: Hart, k: Lock, h: HartId)
    requires HartOk(q) && !q.pc.Idle? && (Has(q, q.pc.l) ==> k.locked)
    ensures var l, q2, k2 := q.pc.l, Moved(q, k, h), Written(q, k, h);
            && (k2.locked <==> (k.locked && !q.pc.Unlock?) || q.pc.Swap?)
            && (Has(q2, l) <==> (Has(q, l) && !q.pc.Unlock?) || (q.pc.Swap? && !k.locked))
            && (l in q2.held <==> (l in q.held && !q.pc.Disown?) || q.pc.Claim?)
            && k2.owner == if q.pc.Claim? then Some(h) else if q.pc.Disown? then None else k.owner
  {
  }

  lemma AdvanceKeeps(s: State, h: HartId)
    requires Inv(s) && Enabled(s, h, Continue)
    ensures Inv(Advance(s, h))
  {
    var q := s.harts[h];
    var l := q.pc.l;
    var r := Advance(s, h);
    assert Exclusive(s, l);
    MovedOk(q, s.locks[l], h);
    WrittenOk(s, h);
    forall m | m in r.locks ensures Exclusive(r, m) {
      if m != l { OtherLock(s, r, h, m); }
    }
    HeldKnown(s, r, h, l);
  }

  lemma HeldKnown(s: State, r: State, h: HartId, l: LockId)
    requires Inv(s) && Enabled(s, h, Continue) && r == Advance(s, h) && l == s.harts[h].pc.l
    ensures forall g, m :: g in r.harts && m in r.harts[g].held ==> m in r.locks
  {
    HeldBy(s.harts[h], s.locks[l], h);
  }

  lemma HeldBy(q: Hart, k: Lock, h: HartId)
    requires !q.pc.Idle?
    ensures Moved(q, k, h).held <= q.held + {q.pc.l}
  {
  }

  lemma StepKeeps(s: State, h: HartId, a: Action)
    requires Inv(s) && Enabled(s, h, a)
    ensures Inv(Next(s, h, a))
  {
    if a.Continue? {
      AdvanceKeeps(s, h);
    } else {
      LocalStep(s, h, Next(s, h, a).harts[h]);
    }
  }

  // ----- what holds in every reachable state -----

  datatype Move = Move(hart: HartId, action: Action)

  ghost predicate Runs(s: State, ms: seq<Move>)
    decreases |ms|, 0
  {
    ms == [] || (Runs(s, ms[..|ms| - 1]) && Enabled(Final(s, ms[..|ms| - 1]), ms[|ms| - 1].hart, ms[|ms| - 1].action))
  }

  ghost function Final(s: State, ms: seq<Move>): State
    requires Runs(s, ms)
    decreases |ms|, 1
  {
    if ms == [] then s else Next(Final(s, ms[..|ms| - 1]), ms[|ms| - 1].hart, ms[|ms| - 1].action)
  }

  lemma {:induction false} RunInv(s: State, ms: seq<Move>)
    requires Init(s) && Runs(s, ms)
    ensures Inv(Final(s, ms))
    decreases |ms|
  {
    if ms == [] {
      InitInv(s);
    } else {
      RunInv(s, ms[..|ms| - 1]);
      StepKeeps(Final(s, ms[..|ms| - 1]), ms[|ms| - 1].hart, ms[|ms| - 1].action);
    }
  }

  /** No two harts have a lock at the same time, a lock is marked locked exactly while some hart has it, and the
      recorded owner is the hart that claimed it and has not disowned it. */
  lemma MutualExclusion(s: State, ms: seq<Move>, g: HartId, h: HartId, l: LockId)
    requires Init(s) && Runs(s, ms)
    requires g in Final(s, ms).harts && h in Final(s, ms).harts && l in Final(s, ms).locks
    ensures var r := Final(s, ms);
            && (Has(r.harts[g], l) && Has(r.harts[h], l) ==> g == h)
            && (r.locks[l].locked <==> exists x :: x in r.harts && Has(r.harts[x], l))
            && (r.locks[l].owner == Some(h) <==> l in r.harts[h].held)
  {
    RunInv(s, ms);
    assert Exclusive(Final(s, ms), l);
  }

  lemma HoldsSome(ls: set<LockId>, l: LockId)
    requires l in ls
    ensures |ls| > 0
  {
    assert ls == (ls - {l}) + {l};
  }

  /** A hart runs with interrupts off as long as it has any lock. */
  lemma MaskedWhileHolding(s: State, ms: seq<Move>, h: HartId, l: LockId)
    requires Init(s) && Runs(s, ms) && h in Final(s, ms).harts && Has(Final(s, ms).harts[h], l)
    ensures !Final(s, ms).harts[h].sie
  {
    RunInv(s, ms);
    var q := Final(s, ms).harts[h];
    assert HartOk(q);
    if l in q.held { HoldsSome(q.held, l); }
  }

  /** The re-entry check never misfires: at its last read, lk_acquire refuses exactly a hart that already holds
      the lock; and lk_release refuses exactly a hart that does not. */
  lemma ChecksExact(s: State, ms: seq<Move>, h: HartId)
    requires Init(s) && Runs(s, ms) && Enabled(Final(s, ms), h, Continue)
    ensures var q := Final(s, ms).harts[h];
            var after := Advance(Final(s, ms), h).harts[h];
            && (q.pc.ReadState? && after.pc.Mask? ==> q.pc.l !in q.held)
            && (q.pc.ReadOwner? ==> (after.outcome == Refused && after.pc.Idle? <==> q.pc.l in q.held))
            && (q.pc.TestState? && after.pc.Idle? ==> q.pc.l !in q.held)
            && (q.pc.TestOwner? ==> (after.outcome == Refused && after.pc.Idle? <==> q.pc.l !in q.held))
  {
    RunInv(s, ms);
    var q := Final(s, ms).harts[h];
    assert Exclusive(Final(s, ms), q.pc.l);
    if q.pc.l in q.held { assert Has(q, q.pc.l); }
  }

  /** The outermost pop leaves interrupts as the outermost push found them; an inner pop leaves them off. */
  lemma PopRestores(s: State, ms: seq<Move>, h: HartId)
    requires Init(s) && Runs(s, ms) && Enabled(Final(s, ms), h, Continue) && Final(s, ms).harts[h].pc.Restore?
    ensures var q := Final(s, ms).harts[h];
            Advance(Final(s, ms), h).harts[h].sie == (q.held == {} && q.saw)
  {
    RunInv(s, ms);
    var q := Final(s, ms).harts[h];
    assert HartOk(q);
    if |q.held| == 0 { assert q.held == {}; }
  }
}
