/** The fixed pool of trap contexts: every context is on the free list, on a hart, or on the stack of one process,
    through creations, nested traps, returns, give-ups, preemptions, dispatches and resets, while a process executes
    and while its hart searches for the next one. */
module Contexts {
  import opened Common

  type Ctx = nat
  type HartId = nat
  type Pid = nat

  const NCTX: nat := 512

  /** A hart's context, the process that is current on it (none before the first dispatch), and whether that process
      executes or sched_proc searches. An interrupt handler active during a search will return to nested. */
  datatype Hart = Hart(slot: Ctx, cur: Option<Pid>, runs: bool, nested: Option<Ctx>)

  /** A process: its stack of saved contexts, innermost first. Of these, its active trap handlers will return to
      frames; before them pend are the contexts that a dispatch will take up, the process's own behind those of
      interrupted searches. On is the hart on which it is current. */
  datatype Proc = Proc(stack: seq<Ctx>, pend: seq<Ctx>, frames: seq<Ctx>, on: Option<HartId>)

  /** Where a context is linked. */
  datatype Place = Pool | Slot(hart: HartId) | Stack(proc: Pid)

  /** The last component is history: the place of each context. */
  datatype State = State(pool: seq<Ctx>, harts: map<HartId, Hart>, procs: map<Pid, Proc>, at: map<Ctx, Place>)

  /** The list holds, once each, exactly the contexts of a place. */
  ghost predicate Holds(cs: seq<Ctx>, at: map<Ctx, Place>, a: Place) {
    Distinct(cs) && forall c :: c in cs <==> c in at && at[c] == a
  }

  ghost predicate SlotHolds(c: Ctx, at: map<Ctx, Place>, a: Place) {
    forall x :: x == c <==> x in at && at[x] == a
  }

  predicate Exists(s: State, a: Place) {
    match a
    case Pool => true
    case Slot(h) => h in s.harts
    case Stack(p) => p in s.procs
  }

  /** Each of the contexts is linked at its one place, and nothing else is linked anywhere. */
  ghost predicate Partitioned(s: State) {
    && (forall c: Ctx :: c in s.at <==> c < NCTX)
    && (forall c :: c in s.at ==> Exists(s, s.at[c]))
    && Holds(s.pool, s.at, Pool)
    && (forall h :: h in s.harts ==> SlotHolds(s.harts[h].slot, s.at, Slot(h)))
    && (forall p :: p in s.procs ==> Holds(s.procs[p].stack, s.at, Stack(p)))
  }

  function Listed(c: Option<Ctx>): seq<Ctx> {
    if c.None? then [] else [c.value]
  }

  /** The stack of an executing process is what its handlers will return to. That of a process that does not
      execute has on top what a dispatch will take up, and above that the context of a search that is interrupted
      at the moment. */
  predicate Saved(q: Proc, t: Option<Hart>) {
    if t.Some? && t.value.runs then q.pend == [] && q.stack == q.frames
    else q.pend != [] && q.stack == (if t.Some? then Listed(t.value.nested) else []) + q.pend + q.frames
  }

  function HartOf(s: State, q: Proc): Option<Hart> {
    if q.on.Some? && q.on.value in s.harts then Some(s.harts[q.on.value]) else None
  }

  predicate HartOk(t: Hart) {
    && (t.runs ==> t.cur.Some? && t.nested.None?)
    && (t.nested.Some? ==> t.cur.Some?)
  }

  /** A process is current on the one hart it knows of. */
  ghost predicate Linked(s: State) {
    && (forall h :: h in s.harts && s.harts[h].cur.Some? ==>
          s.harts[h].cur.value in s.procs && s.procs[s.harts[h].cur.value].on == Some(h))
    && (forall p :: p in s.procs && s.procs[p].on.Some? ==>
          s.procs[p].on.value in s.harts && s.harts[s.procs[p].on.value].cur == Some(p))
  }

  ghost predicate Inv(s: State) {
    && Partitioned(s) && Linked(s)
    && (forall h :: h in s.harts ==> HartOk(s.harts[h]))
    && (forall p :: p in s.procs ==> Saved(s.procs[p], HartOf(s, s.procs[p])))
  }

  // ----- moving contexts -----

  lemma Push(cs: seq<Ctx>, at: map<Ctx, Place>, a: Place, c: Ctx)
    requires Holds(cs, at, a) && c in at && at[c] != a
    ensures Holds([c] + cs, at[c := a], a)
  {
    assert ([c] + cs)[1..] == cs;
  }

  lemma Pop(cs: seq<Ctx>, at: map<Ctx, Place>, a: Place, b: Place)
    requires Holds(cs, at, a) && cs != [] && a != b
    ensures cs[0] in at && at[cs[0]] == a && Holds(cs[1..], at[cs[0] := b], a)
  {
    assert cs == [cs[0]] + cs[1..];
  }

  /** Lists of other places do not notice. */
  lemma Unmoved(cs: seq<Ctx>, at: map<Ctx, Place>, a: Place, c: Ctx, b: Place)
    requires Holds(cs, at, a) && c in at && at[c] != a && b != a
    ensures Holds(cs, at[c := b], a)
  {
  }

  /** list_remove_node: unlink a context wherever it is in its list. */
  function Unlinked(cs: seq<Ctx>, c: Ctx): seq<Ctx> {
    if cs == [] then [] else if cs[0] == c then cs[1..] else [cs[0]] + Unlinked(cs[1..], c)
  }

  // ----- steps -----

  datatype Step =
    | Create(p: Pid)              // proc_alloc
    | Trap(h: HartId)             // prepare_nested_trap
    | Return(h: HartId)           // the end of a handler
    | GiveUp(h: HartId)           // sched_proc_give_up saves the process
    | Preempt(h: HartId)          // an interrupt handler calls sched_proc, which never returns
    | Run(h: HartId, p: Pid)      // proc_run
    | Reset(p: Pid)               // proc_reset

  /** A process is current on hart h. */
  predicate Busy(s: State, h: HartId) {
    h in s.harts && s.harts[h].cur.Some? && s.harts[h].cur.value in s.procs
  }

  /** A handler is active on hart h, on top of the current process or of the search. */
  predicate Handling(s: State, h: HartId) {
    Busy(s, h) && if s.harts[h].runs then s.procs[s.harts[h].cur.value].frames != [] else s.harts[h].nested.Some?
  }

  /** The context that handler will return to. */
  function Target(s: State, h: HartId): Ctx
    requires Handling(s, h)
  {
    if s.harts[h].runs then s.procs[s.harts[h].cur.value].frames[0] else s.harts[h].nested.value
  }

  /** The step can happen; running out of contexts is a panic. A process executes with interrupts on in its handlers,
      sched_proc searches with interrupts on, and the handler of an interrupt of that search has them off. */
  predicate Enabled(s: State, x: Step) {
    match x
    case Create(p) => p !in s.procs && s.pool != []
    case Trap(h) => Busy(s, h) && (s.harts[h].runs || s.harts[h].nested.None?) && s.pool != []
    case Return(h) => Handling(s, h)
    case GiveUp(h) => Busy(s, h) && s.harts[h].runs && s.pool != []
    case Preempt(h) => Handling(s, h)
    case Run(h, p) =>
      && h in s.harts && !s.harts[h].runs && s.harts[h].nested.None?
      && p in s.procs && (s.procs[p].on.None? || s.procs[p].on == Some(h)) && s.procs[p].stack != [] && s.procs[p].pend != []
    case Reset(p) => p in s.procs && s.procs[p].on.None? && s.procs[p].stack != []
  }

  /** A new process has one fresh context. */
  function CreateStep(s: State, p: Pid): State
    requires s.pool != []
  {
    State(s.pool[1..], s.harts, s.procs[p := Proc([s.pool[0]], [s.pool[0]], [], None)], s.at[s.pool[0] := Stack(p)])
  }

  /** prepare_nested_trap: the hart's context goes to the process, a fresh one to the hart. */
  function TrapStep(s: State, h: HartId): State
    requires Busy(s, h) && s.pool != []
  {
    var t, f := s.harts[h], s.pool[0];
    var p, c := t.cur.value, t.slot;
    var q := s.procs[p];
    State(s.pool[1..], s.harts[h := Hart(f, t.cur, t.runs, if t.runs then None else Some(c))],
          s.procs[p := Proc([c] + q.stack, q.pend, if t.runs then [c] + q.frames else q.frames, q.on)],
          s.at[c := Stack(p)][f := Slot(h)])
  }

  /** The handler frees the hart's context, unlinks its own from the process and installs it on the hart. */
  function ReturnStep(s: State, h: HartId): State
    requires Handling(s, h)
  {
    var t, c := s.harts[h], Target(s, h);
    var p, f := t.cur.value, t.slot;
    var q := s.procs[p];
    State([f] + s.pool, s.harts[h := Hart(c, t.cur, t.runs, None)],
          s.procs[p := Proc(Unlinked(q.stack, c), q.pend, if t.runs then q.frames[1..] else q.frames, q.on)],
          s.at[f := Pool][c := Slot(h)])
  }

  function GiveUpStep(s: State, h: HartId): State
    requires Busy(s, h) && s.pool != []
  {
    var t, f := s.harts[h], s.pool[0];
    var p := t.cur.value;
    var q := s.procs[p];
    State(s.pool[1..], s.harts[h := Hart(t.slot, t.cur, false, None)], s.procs[p := Proc([f] + q.stack, [f], q.frames, q.on)],
          s.at[f := Stack(p)])
  }

  /** What the handler would have returned to is left for a dispatch. */
  function PreemptStep(s: State, h: HartId): State
    requires Handling(s, h)
  {
    var t := s.harts[h];
    var p := t.cur.value;
    var q := s.procs[p];
    State(s.pool, s.harts[h := Hart(t.slot, t.cur, false, None)],
          s.procs[p := Proc(q.stack, [Target(s, h)] + q.pend, if t.runs then q.frames[1..] else q.frames, q.on)], s.at)
  }

  /** No process is current on the hart. */
  function Left(s: State, h: HartId): State
    requires h in s.harts
  {
    var t := s.harts[h];
    s.(harts := s.harts[h := Hart(t.slot, None, false, None)],
       procs := if t.cur.Some? && t.cur.value in s.procs
                then s.procs[t.cur.value := s.procs[t.cur.value].(on := None)] else s.procs)
  }

  /** proc_run: the hart's context is freed, the top of the process's stack takes its place. That is the process's
      own context, or the one of an interrupted search, which then goes on. */
  function RunStep(s: State, h: HartId, p: Pid): State
    requires h in s.harts && p in s.procs && s.procs[p].stack != [] && s.procs[p].pend != []
  {
    var l := Left(s, h);
    var q, c, f := l.procs[p], l.procs[p].stack[0], l.harts[h].slot;
    State([f] + l.pool, s.harts[h := Hart(c, Some(p), |q.pend| == 1, None)],
          l.procs[p := Proc(q.stack[1..], q.pend[1..], q.frames, Some(h))], l.at[f := Pool][c := Slot(h)])
  }

  /** The freeing loop of proc_reset. */
  function Drained(s: State, p: Pid): State
    requires p in s.procs
    decreases |s.procs[p].stack|
  {
    var q := s.procs[p];
    if q.stack == [] then s
    else Drained(State([q.stack[0]] + s.pool, s.harts, s.procs[p := q.(stack := q.stack[1..])], s.at[q.stack[0] := Pool]), p)
  }

  // ----- every step keeps the invariant -----

  /** A change of hart h and of the process current on it. */
  lemma Changed(s: State, r: State, h: HartId, p: Pid)
    requires Inv(s) && h in s.harts && p in s.procs && h in r.harts && p in r.procs
    requires r.harts == s.harts[h := r.harts[h]] && r.procs == s.procs[p := r.procs[p]]
    requires s.harts[h].cur == Some(p) && r.harts[h].cur == Some(p) && r.procs[p].on == Some(h)
    requires HartOk(r.harts[h]) && Saved(r.procs[p], Some(r.harts[h])) && Partitioned(r)
    ensures Inv(r)
  {
    ChangedLinked(s, r, h, p);
    forall x | x in r.procs ensures Saved(r.procs[x], HartOf(r, r.procs[x])) {
      if x != p { ChangedOther(s, r, h, p, x); }
    }
  }

  lemma ChangedLinked(s: State, r: State, h: HartId, p: Pid)
    requires Linked(s) && h in s.harts && p in s.procs && h in r.harts && p in r.procs
    requires r.harts == s.harts[h := r.harts[h]] && r.procs == s.procs[p := r.procs[p]]
    requires s.harts[h].cur == Some(p) && r.harts[h].cur == Some(p) && r.procs[p].on == Some(h)
    ensures Linked(r)
  {
  }

  lemma ChangedOther(s: State, r: State, h: HartId, p: Pid, x: Pid)
    requires Linked(s) && h in s.harts && s.harts[h].cur == Some(p) && x != p && x in s.procs && Saved(s.procs[x], HartOf(s, s.procs[x]))
    requires h in r.harts && r.harts == s.harts[h := r.harts[h]] && x in r.procs && r.procs[x] == s.procs[x]
    ensures Saved(r.procs[x], HartOf(r, r.procs[x]))
  {
    assert HartOf(r, r.procs[x]) == HartOf(s, s.procs[x]);
  }

  /** Two contexts of the pool, hart h and process p moved between those three places. */
  lemma TwoMoved(s: State, r: State, h: HartId, p: Pid, c: Ctx, a: Place, f: Ctx, b: Place)
    requires Partitioned(s) && h in s.harts && p in s.procs && h in r.harts && p in r.procs
    requires r.harts == s.harts[h := r.harts[h]] && r.procs == s.procs[p := r.procs[p]]
    requires c in s.at && f in s.at && r.at == s.at[c := a][f := b]
    requires Near(a, h, p) && Near(b, h, p) && Near(s.at[c], h, p) && Near(s.at[f], h, p)
    requires Holds(r.pool, r.at, Pool) && SlotHolds(r.harts[h].slot, r.at, Slot(h)) && Holds(r.procs[p].stack, r.at, Stack(p))
    ensures Partitioned(r)
  {
    SlotsStay(s, r, h, c, a, f, b);
    StacksStay(s, r, p, c, a, f, b);
    StillThere(s, r, c, a, f, b);
  }

  lemma SlotsStay(s: State, r: State, h: HartId, c: Ctx, a: Place, f: Ctx, b: Place)
    requires (forall g :: g in s.harts ==> SlotHolds(s.harts[g].slot, s.at, Slot(g))) && h in s.harts && h in r.harts
    requires r.harts == s.harts[h := r.harts[h]] && SlotHolds(r.harts[h].slot, r.at, Slot(h))
    requires c in s.at && f in s.at && r.at == s.at[c := a][f := b]
    requires forall g :: g != h ==> a != Slot(g) && b != Slot(g) && s.at[c] != Slot(g) && s.at[f] != Slot(g)
    ensures forall g :: g in r.harts ==> SlotHolds(r.harts[g].slot, r.at, Slot(g))
  {
    forall g | g in r.harts ensures SlotHolds(r.harts[g].slot, r.at, Slot(g)) {
      if g != h { SameElsewhere(s.at, c, a, f, b, Slot(g)); assert SlotHolds(s.harts[g].slot, s.at, Slot(g)); }
    }
  }

  lemma StacksStay(s: State, r: State, p: Pid, c: Ctx, a: Place, f: Ctx, b: Place)
    requires (forall q :: q in s.procs ==> Holds(s.procs[q].stack, s.at, Stack(q))) && p in s.procs && p in r.procs
    requires r.procs == s.procs[p := r.procs[p]] && Holds(r.procs[p].stack, r.at, Stack(p))
    requires c in s.at && f in s.at && r.at == s.at[c := a][f := b]
    requires forall q :: q != p ==> a != Stack(q) && b != Stack(q) && s.at[c] != Stack(q) && s.at[f] != Stack(q)
    ensures forall q :: q in r.procs ==> Holds(r.procs[q].stack, r.at, Stack(q))
  {
    forall q | q in r.procs ensures Holds(r.procs[q].stack, r.at, Stack(q)) {
      if q != p { SameElsewhere(s.at, c, a, f, b, Stack(q)); assert Holds(s.procs[q].stack, s.at, Stack(q)); }
    }
  }

  /** A context moves between the pool and a stack: no slot changes, and no other stack. */
  lemma OneMoved(s: State, r: State, p: Pid, c: Ctx, a: Place)
    requires Partitioned(s) && p in s.procs && p in r.procs && r.harts == s.harts && r.procs == s.procs[p := r.procs[p]]
    requires c in s.at && r.at == s.at[c := a] && (a == Pool || a == Stack(p)) && (s.at[c] == Pool || s.at[c] == Stack(p))
    requires Holds(r.pool, r.at, Pool) && Holds(r.procs[p].stack, r.at, Stack(p))
    ensures Partitioned(r)
  {
    assert s.at[c := a][c := a] == s.at[c := a];
    StacksStay(s, r, p, c, a, c, a);
    forall h | h in r.harts ensures SlotHolds(r.harts[h].slot, r.at, Slot(h)) {
      assert SlotHolds(s.harts[h].slot, s.at, Slot(h));
    }
    StillThere(s, r, c, a, c, a);
  }

  lemma SameElsewhere(at: map<Ctx, Place>, c: Ctx, a: Place, f: Ctx, b: Place, o: Place)
    requires c in at && f in at && at[c] != o && at[f] != o && a != o && b != o
    ensures forall x :: (x in at[c := a][f := b] && at[c := a][f := b][x] == o) <==> (x in at && at[x] == o)
  {
  }

  lemma StillThere(s: State, r: State, c: Ctx, a: Place, f: Ctx, b: Place)
    requires (forall x :: x in s.at ==> Exists(s, s.at[x])) && c in s.at && f in s.at && r.at == s.at[c := a][f := b]
    requires Exists(s, a) && Exists(s, b) && r.harts.Keys == s.harts.Keys && r.procs.Keys == s.procs.Keys
    ensures forall x :: x in r.at ==> Exists(r, r.at[x])
    ensures r.at.Keys == s.at.Keys
  {
  }

  predicate Near(a: Place, h: HartId, p: Pid) {
    a == Pool || a == Slot(h) || a == Stack(p)
  }

  lemma TrapMoves(s: State, r: State, h: HartId, p: Pid, c: Ctx, f: Ctx)
    requires Partitioned(s) && h in s.harts && p in s.procs && h in r.harts && p in r.procs && s.pool != []
    requires c == s.harts[h].slot && f == s.pool[0]
    requires r.pool == s.pool[1..] && r.harts == s.harts[h := r.harts[h]] && r.harts[h].slot == f
    requires r.procs == s.procs[p := r.procs[p]] && r.procs[p].stack == [c] + s.procs[p].stack
    requires r.at == s.at[c := Stack(p)][f := Slot(h)]
    ensures Partitioned(r)
  {
    assert SlotHolds(c, s.at, Slot(h)) && Holds(s.procs[p].stack, s.at, Stack(p));
    var mid := s.at[c := Stack(p)];
    Push(s.procs[p].stack, s.at, Stack(p), c);
    Unmoved(s.pool, s.at, Pool, c, Stack(p));
    Pop(s.pool, mid, Pool, Slot(h));
    Unmoved([c] + s.procs[p].stack, mid, Stack(p), f, Slot(h));
    TwoMoved(s, r, h, p, c, Stack(p), f, Slot(h));
  }

  lemma TrapKeeps(s: State, h: HartId)
    requires Inv(s) && Enabled(s, Trap(h))
    ensures Inv(TrapStep(s, h))
  {
    var r, p := TrapStep(s, h), s.harts[h].cur.value;
    assert Saved(s.procs[p], HartOf(s, s.procs[p]));
    TrapMoves(s, r, h, p, s.harts[h].slot, s.pool[0]);
    TrapSaved(s.procs[p], r.procs[p], s.harts[h], r.harts[h]);
    Changed(s, r, h, p);
  }

  lemma TrapSaved(q: Proc, q2: Proc, t: Hart, t2: Hart)
    requires Saved(q, Some(t)) && HartOk(t) && (t.runs || t.nested.None?)
    requires q2 == Proc([t.slot] + q.stack, q.pend, if t.runs then [t.slot] + q.frames else q.frames, q.on)
    requires t2 == Hart(t2.slot, t.cur, t.runs, if t.runs then None else Some(t.slot))
    ensures Saved(q2, Some(t2))
  {
    if !t.runs { assert [t.slot] + (q.pend + q.frames) == [t.slot] + q.pend + q.frames; }
  }

  /** The context a returning handler unlinks is always the head of the current process's stack, whether the handler
      interrupted the process or the search of sched_proc; so the return undoes the trap. */
  lemma ReturnsToHead(s: State, h: HartId)
    requires Inv(s) && Enabled(s, Return(h))
    ensures var q := s.procs[s.harts[h].cur.value];
            && q.stack != [] && q.stack[0] == Target(s, h)
            && ReturnStep(s, h).procs[s.harts[h].cur.value].stack == q.stack[1..] && ReturnStep(s, h).harts[h].slot == q.stack[0]
  {
    var q := s.procs[s.harts[h].cur.value];
    assert Saved(q, HartOf(s, q));
  }

  lemma HeadToSlot(s: State, r: State, h: HartId, p: Pid)
    requires Partitioned(s) && h in s.harts && p in s.procs && s.procs[p].stack != [] && h in r.harts && p in r.procs
    requires r.harts == s.harts[h := r.harts[h]] && r.procs == s.procs[p := r.procs[p]]
    requires r.pool == [s.harts[h].slot] + s.pool && r.harts[h].slot == s.procs[p].stack[0]
    requires r.procs[p].stack == s.procs[p].stack[1..]
    requires r.at == s.at[s.harts[h].slot := Pool][s.procs[p].stack[0] := Slot(h)]
    ensures Partitioned(r)
  {
    var c, f := s.procs[p].stack[0], s.harts[h].slot;
    assert SlotHolds(f, s.at, Slot(h)) && Holds(s.procs[p].stack, s.at, Stack(p));
    var mid := s.at[f := Pool];
    Push(s.pool, s.at, Pool, f);
    Unmoved(s.procs[p].stack, s.at, Stack(p), f, Pool);
    Pop(s.procs[p].stack, mid, Stack(p), Slot(h));
    Unmoved([f] + s.pool, mid, Pool, c, Slot(h));
    TwoMoved(s, r, h, p, f, Pool, c, Slot(h));
  }

  lemma ReturnSaved(q: Proc, q2: Proc, t: Hart, t2: Hart)
    requires Saved(q, Some(t)) && HartOk(t) && q.stack != [] && q2.stack == q.stack[1..]
    requires if t.runs then q.frames != [] else t.nested.Some?
    requires q2 == Proc(q2.stack, q.pend, if t.runs then q.frames[1..] else q.frames, q.on)
    requires t2 == Hart(t2.slot, t.cur, t.runs, None)
    ensures Saved(q2, Some(t2))
  {
    if !t.runs {
      assert q.stack == [t.nested.value] + (q.pend + q.frames);
    }
  }

  lemma ReturnKeeps(s: State, h: HartId)
    requires Inv(s) && Enabled(s, Return(h))
    ensures Inv(ReturnStep(s, h))
  {
    var r, p := ReturnStep(s, h), s.harts[h].cur.value;
    ReturnsToHead(s, h);
    assert Saved(s.procs[p], HartOf(s, s.procs[p]));
    HeadToSlot(s, r, h, p);
    ReturnSaved(s.procs[p], r.procs[p], s.harts[h], r.harts[h]);
    Changed(s, r, h, p);
  }

  /** The head of the pool goes to the stack of p. */
  lemma PoolToStack(s: State, r: State, h: HartId, p: Pid)
    requires Partitioned(s) && s.pool != [] && p in s.procs && p in r.procs && h in s.harts && h in r.harts
    requires r.pool == s.pool[1..] && r.harts == s.harts[h := r.harts[h]] && r.harts[h].slot == s.harts[h].slot
    requires r.procs == s.procs[p := r.procs[p]] && r.procs[p].stack == [s.pool[0]] + s.procs[p].stack
    requires r.at == s.at[s.pool[0] := Stack(p)]
    ensures Partitioned(r)
  {
    var f := s.pool[0];
    assert SlotHolds(s.harts[h].slot, s.at, Slot(h)) && Holds(s.procs[p].stack, s.at, Stack(p));
    Pop(s.pool, s.at, Pool, Stack(p));
    Push(s.procs[p].stack, s.at, Stack(p), f);
    TwoMoved(s, r, h, p, f, Stack(p), f, Stack(p));
  }

  lemma GiveUpKeeps(s: State, h: HartId)
    requires Inv(s) && Enabled(s, GiveUp(h))
    ensures Inv(GiveUpStep(s, h))
  {
    var r, p := GiveUpStep(s, h), s.harts[h].cur.value;
    assert Saved(s.procs[p], HartOf(s, s.procs[p]));
    PoolToStack(s, r, h, p);
    GiveUpSaved(s.procs[p], r.procs[p], s.harts[h], r.harts[h], s.pool[0]);
    Changed(s, r, h, p);
  }

  lemma GiveUpSaved(q: Proc, q2: Proc, t: Hart, t2: Hart, f: Ctx)
    requires Saved(q, Some(t)) && t.runs && q2 == Proc([f] + q.stack, [f], q.frames, q.on) && t2 == Hart(t.slot, t.cur, false, None)
    ensures Saved(q2, Some(t2))
  {
  }

  lemma StacksSame(s: State, r: State)
    requires Partitioned(s) && r.pool == s.pool && r.at == s.at && r.harts.Keys == s.harts.Keys && r.procs.Keys == s.procs.Keys
    requires forall h :: h in s.harts ==> r.harts[h].slot == s.harts[h].slot
    requires forall p :: p in s.procs ==> r.procs[p].stack == s.procs[p].stack
    ensures Partitioned(r)
  {
    forall c | c in r.at ensures Exists(r, r.at[c]) {
      assert Exists(s, s.at[c]);
    }
    forall h | h in r.harts ensures SlotHolds(r.harts[h].slot, r.at, Slot(h)) {
      assert SlotHolds(s.harts[h].slot, s.at, Slot(h));
    }
    forall p | p in r.procs ensures Holds(r.procs[p].stack, r.at, Stack(p)) {
      assert Holds(s.procs[p].stack, s.at, Stack(p));
    }
  }

  lemma PreemptSaved(q: Proc, q2: Proc, t: Hart, c: Ctx)
    requires Saved(q, Some(t)) && HartOk(t) && (if t.runs then q.frames != [] && c == q.frames[0] else t.nested == Some(c))
    requires q2 == Proc(q.stack, [c] + q.pend, if t.runs then q.frames[1..] else q.frames, q.on)
    ensures Saved(q2, Some(Hart(t.slot, t.cur, false, None)))
  {
    if t.runs {
      assert q2.pend == [c];
      assert q.frames == [c] + q.frames[1..];
    }
  }

  lemma PreemptKeeps(s: State, h: HartId)
    requires Inv(s) && Enabled(s, Preempt(h))
    ensures Inv(PreemptStep(s, h))
  {
    var r, p := PreemptStep(s, h), s.harts[h].cur.value;
    assert Saved(s.procs[p], HartOf(s, s.procs[p]));
    StacksSame(s, r);
    PreemptSaved(s.procs[p], r.procs[p], s.harts[h], Target(s, h));
    Changed(s, r, h, p);
  }

  /** Between two processes. */
  lemma LeftKeeps(s: State, h: HartId)
    requires Inv(s) && h in s.harts && !s.harts[h].runs && s.harts[h].nested.None?
    ensures Inv(Left(s, h))
  {
    var l := Left(s, h);
    LeftPartitioned(s, l, h);
    if s.harts[h].cur.Some? {
      LeftSaved(s, l, h, s.harts[h].cur.value);
    }
  }

  lemma LeftPartitioned(s: State, l: State, h: HartId)
    requires Partitioned(s) && h in s.harts && l == Left(s, h)
    ensures Partitioned(l)
  {
    StacksSame(s, l);
  }

  lemma LeftSaved(s: State, l: State, h: HartId, p: Pid)
    requires Inv(s) && h in s.harts && !s.harts[h].runs && s.harts[h].nested.None? && s.harts[h].cur == Some(p) && l == Left(s, h)
    ensures Linked(l) && forall q :: q in l.procs ==> Saved(l.procs[q], HartOf(l, l.procs[q]))
  {
    var q := s.procs[p];
    assert Saved(q, HartOf(s, q));
    assert [] + q.pend + q.frames == q.pend + q.frames;
  }

  /** A process that is not current anywhere becomes current on a hart that has no process. */
  lemma Joined(s: State, r: State, h: HartId, p: Pid)
    requires Inv(s) && h in s.harts && p in s.procs && h in r.harts && p in r.procs
    requires r.harts == s.harts[h := r.harts[h]] && r.procs == s.procs[p := r.procs[p]]
    requires s.harts[h].cur.None? && s.procs[p].on.None? && r.harts[h].cur == Some(p) && r.procs[p].on == Some(h)
    requires HartOk(r.harts[h]) && Saved(r.procs[p], Some(r.harts[h])) && Partitioned(r)
    ensures Inv(r)
  {
    JoinedLinked(s, r, h, p);
    forall x | x in r.procs ensures Saved(r.procs[x], HartOf(r, r.procs[x])) {
      if x != p { JoinedOther(s, r, h, x); }
    }
  }

  lemma JoinedLinked(s: State, r: State, h: HartId, p: Pid)
    requires Linked(s) && h in s.harts && p in s.procs && h in r.harts && p in r.procs
    requires r.harts == s.harts[h := r.harts[h]] && r.procs == s.procs[p := r.procs[p]]
    requires s.harts[h].cur.None? && s.procs[p].on.None? && r.harts[h].cur == Some(p) && r.procs[p].on == Some(h)
    ensures Linked(r)
  {
  }

  lemma JoinedOther(s: State, r: State, h: HartId, x: Pid)
    requires Linked(s) && h in s.harts && s.harts[h].cur.None? && x in s.procs && Saved(s.procs[x], HartOf(s, s.procs[x]))
    requires h in r.harts && r.harts == s.harts[h := r.harts[h]] && x in r.procs && r.procs[x] == s.procs[x]
    ensures Saved(r.procs[x], HartOf(r, r.procs[x]))
  {
    assert HartOf(r, r.procs[x]) == HartOf(s, s.procs[x]);
  }

  lemma RunSaved(q: Proc, q2: Proc, t: Hart)
    requires q.pend != [] && q.stack == q.pend + q.frames && q2 == Proc(q.stack[1..], q.pend[1..], q.frames, q2.on)
    requires t.runs == (|q.pend| == 1) && t.nested.None?
    ensures Saved(q2, Some(t))
  {
    assert q.stack[1..] == q.pend[1..] + q.frames;
    if t.runs { assert q.pend[1..] == []; }
  }

  lemma RunKeeps(s: State, h: HartId, p: Pid)
    requires Inv(s) && Enabled(s, Run(h, p))
    ensures Inv(RunStep(s, h, p))
  {
    var l, r := Left(s, h), RunStep(s, h, p);
    LeftKeeps(s, h);
    RunFields(s, h, p);
    SavedIdle(l, p);
    HeadToSlot(l, r, h, p);
    RunSaved(l.procs[p], r.procs[p], r.harts[h]);
    Joined(l, r, h, p);
  }

  lemma SavedIdle(s: State, p: Pid)
    requires Inv(s) && p in s.procs && s.procs[p].on.None?
    ensures s.procs[p].pend != [] && s.procs[p].stack == s.procs[p].pend + s.procs[p].frames
  {
    var q := s.procs[p];
    assert Saved(q, HartOf(s, q));
    assert [] + q.pend + q.frames == q.pend + q.frames;
  }

  lemma RunFields(s: State, h: HartId, p: Pid)
    requires Enabled(s, Run(h, p))
    ensures var l, r := Left(s, h), RunStep(s, h, p);
            && h in l.harts && p in l.procs && l.harts[h].cur.None? && (s.procs[p].on == Some(h) ==> s.harts[h].cur == Some(p) ==> l.procs[p].on.None?)
            && (s.procs[p].on.None? ==> l.procs[p].on.None?) && l.procs[p].stack != []
            && h in r.harts && p in r.procs && r.harts == l.harts[h := r.harts[h]] && r.procs == l.procs[p := r.procs[p]]
            && r.pool == [l.harts[h].slot] + l.pool && r.at == l.at[l.harts[h].slot := Pool][l.procs[p].stack[0] := Slot(h)]
            && r.harts[h] == Hart(l.procs[p].stack[0], Some(p), |l.procs[p].pend| == 1, None)
            && r.procs[p] == Proc(l.procs[p].stack[1..], l.procs[p].pend[1..], l.procs[p].frames, Some(h))
  {
  }

  lemma StackToPool(s: State, r: State, p: Pid)
    requires Partitioned(s) && p in s.procs && p in r.procs && s.procs[p].stack != [] && r.harts == s.harts
    requires r.pool == [s.procs[p].stack[0]] + s.pool && r.procs == s.procs[p := r.procs[p]]
    requires r.procs[p].stack == s.procs[p].stack[1..] && r.at == s.at[s.procs[p].stack[0] := Pool]
    ensures Partitioned(r)
  {
    var c := s.procs[p].stack[0];
    assert Holds(s.procs[p].stack, s.at, Stack(p));
    Pop(s.procs[p].stack, s.at, Stack(p), Pool);
    Push(s.pool, s.at, Pool, c);
    OneMoved(s, r, p, c, Pool);
  }

  lemma {:induction false} DrainedKeeps(s: State, p: Pid)
    requires Partitioned(s) && p in s.procs
    ensures var r := Drained(s, p);
            && Partitioned(r) && r.harts == s.harts && p in r.procs && r.procs == s.procs[p := s.procs[p].(stack := [])]
            && |r.pool| == |s.pool| + |s.procs[p].stack|
    decreases |s.procs[p].stack|
  {
    var q := s.procs[p];
    if q.stack == [] {
      assert s.procs[p := q.(stack := [])] == s.procs;
    } else {
      var m := State([q.stack[0]] + s.pool, s.harts, s.procs[p := q.(stack := q.stack[1..])], s.at[q.stack[0] := Pool]);
      StackToPool(s, m, p);
      DrainedKeeps(m, p);
      SetTwice(s.procs, p, q.(stack := q.stack[1..]), q.(stack := []));
    }
  }

  lemma SetTwice(m: map<Pid, Proc>, p: Pid, a: Proc, b: Proc)
    ensures m[p := a][p := b] == m[p := b]
  {
  }

  lemma FilledPartitioned(s: State, p: Pid)
    requires Partitioned(s) && s.pool != [] && (p in s.procs ==> s.procs[p].stack == [])
    ensures Partitioned(CreateStep(s, p))
  {
    var e := s.(procs := s.procs[p := Proc([], [], [], None)]);
    EmptyStack(s, e, p);
    assert CreateStep(s, p).procs == e.procs[p := CreateStep(s, p).procs[p]];
    FirstContext(e, CreateStep(s, p), p, s.pool[0]);
  }

  /** The head of the pool becomes the only context of a process without any. */
  lemma FirstContext(e: State, r: State, p: Pid, f: Ctx)
    requires Partitioned(e) && e.pool != [] && f == e.pool[0] && p in e.procs && Holds([], e.at, Stack(p))
    requires p in r.procs && r.harts == e.harts && r.procs == e.procs[p := r.procs[p]] && r.procs[p].stack == [f]
    requires r.pool == e.pool[1..] && r.at == e.at[f := Stack(p)]
    ensures Partitioned(r)
  {
    Pop(e.pool, e.at, Pool, Stack(p));
    Push([], e.at, Stack(p), f);
    assert [f] + [] == [f];
    OneMoved(e, r, p, f, Stack(p));
  }

  /** A process without contexts takes part like any other. */
  lemma EmptyStack(s: State, e: State, p: Pid)
    requires Partitioned(s) && (p in s.procs ==> s.procs[p].stack == [])
    requires e == s.(procs := s.procs[p := Proc([], [], [], None)])
    ensures Partitioned(e) && Holds([], e.at, Stack(p))
  {
    forall h | h in e.harts ensures SlotHolds(e.harts[h].slot, e.at, Slot(h)) {
      assert SlotHolds(s.harts[h].slot, s.at, Slot(h));
    }
    forall q | q in e.procs ensures Holds(e.procs[q].stack, e.at, Stack(q)) {
      if q in s.procs { assert Holds(s.procs[q].stack, s.at, Stack(q)); }
    }
  }

  /** A process that is not current anywhere is new, or starts anew. */
  lemma Fresh(s: State, r: State, p: Pid, f: Ctx)
    requires Inv(s) && (p in s.procs ==> s.procs[p].on.None?) && r.harts == s.harts
    requires r.procs == s.procs[p := Proc([f], [f], [], None)] && Partitioned(r)
    ensures Inv(r)
  {
    var q := r.procs[p];
    assert [] + q.pend + q.frames == q.stack;
    FreshLinked(s, r, p, q);
  }

  lemma FreshLinked(s: State, r: State, p: Pid, q: Proc)
    requires Inv(s) && (p in s.procs ==> s.procs[p].on.None?) && r.harts == s.harts
    requires r.procs == s.procs[p := q] && q.on.None? && Saved(q, None)
    ensures Linked(r) && forall x :: x in r.procs ==> Saved(r.procs[x], HartOf(r, r.procs[x]))
  {
    forall x | x in r.procs ensures Saved(r.procs[x], HartOf(r, r.procs[x])) {
      if x != p { assert Saved(s.procs[x], HartOf(s, s.procs[x])); }
    }
  }

  /** A creation lacks a context exactly when the pool is empty. */
  lemma CreateKeeps(s: State, p: Pid)
    requires Inv(s) && p !in s.procs && s.pool != []
    ensures Inv(CreateStep(s, p))
  {
    FilledPartitioned(s, p);
    Fresh(s, CreateStep(s, p), p, s.pool[0]);
  }

  lemma ResetFills(s: State, m: State, p: Pid, r: State)
    requires Inv(s) && p in s.procs && s.procs[p].on.None? && m.pool != []
    requires m.harts == s.harts && m.procs == s.procs[p := s.procs[p].(stack := [])]
    requires r == CreateStep(m, p) && Partitioned(r)
    ensures Inv(r)
  {
    assert r.procs == s.procs[p := Proc([m.pool[0]], [m.pool[0]], [], None)];
    Fresh(s, r, p, m.pool[0]);
  }

  /** A reset never lacks a context: it first frees at least the one the process was saved in. */
  lemma ResetKeeps(s: State, p: Pid)
    requires Inv(s) && p in s.procs && s.procs[p].on.None?
    ensures Enabled(s, Reset(p)) && Drained(s, p).pool != [] && p in Drained(s, p).procs
    ensures Inv(CreateStep(Drained(s, p), p))
  {
    assert Saved(s.procs[p], HartOf(s, s.procs[p]));
    DrainedKeeps(s, p);
    FilledPartitioned(Drained(s, p), p);
    ResetFills(s, Drained(s, p), p, CreateStep(Drained(s, p), p));
  }

  function Next(s: State, x: Step): State
    requires Enabled(s, x)
  {
    match x
    case Create(p) => CreateStep(s, p)
    case Trap(h) => TrapStep(s, h)
    case Return(h) => ReturnStep(s, h)
    case GiveUp(h) => GiveUpStep(s, h)
    case Preempt(h) => PreemptStep(s, h)
    case Run(h, p) => RunStep(s, h, p)
    case Reset(p) => if Drained(s, p).pool != [] then CreateStep(Drained(s, p), p) else Drained(s, p)
  }

  /** Every step keeps the contexts partitioned and the stacks as the handlers and the dispatches expect them. */
  lemma StepKeeps(s: State, x: Step)
    requires Inv(s) && Enabled(s, x)
    ensures Inv(Next(s, x))
  {
    match x
    case Create(p) => CreateKeeps(s, p);
    case Trap(h) => TrapKeeps(s, h);
    case Return(h) => ReturnKeeps(s, h);
    case GiveUp(h) => GiveUpKeeps(s, h);
    case Preempt(h) => PreemptKeeps(s, h);
    case Run(h, p) => RunKeeps(s, h, p);
    case Reset(p) => ResetKeeps(s, p);
  }

  // ----- all runs -----

  /** After initialisation: no process yet, and one context on each hart. */
  ghost predicate Init(s: State) {
    Partitioned(s) && s.procs == map[] && forall h :: h in s.harts ==> s.harts[h] == Hart(s.harts[h].slot, None, false, None)
  }

  ghost predicate Runs(s: State, xs: seq<Step>)
    decreases |xs|, 0
  {
    xs == [] || (Runs(s, xs[..|xs| - 1]) && Enabled(Final(s, xs[..|xs| - 1]), xs[|xs| - 1]))
  }

  ghost function Final(s: State, xs: seq<Step>): State
    requires Runs(s, xs)
    decreases |xs|, 1
  {
    if xs == [] then s else Next(Final(s, xs[..|xs| - 1]), xs[|xs| - 1])
  }

  lemma {:induction false} RunInv(s: State, xs: seq<Step>)
    requires Init(s) && Runs(s, xs)
    ensures Inv(Final(s, xs))
    decreases |xs|
  {
    if xs != [] {
      RunInv(s, xs[..|xs| - 1]);
      StepKeeps(Final(s, xs[..|xs| - 1]), xs[|xs| - 1]);
    }
  }

  lemma Somewhere(s: State, c: Ctx)
    requires Partitioned(s) && c < NCTX
    ensures c in s.pool || (exists g :: g in s.harts && s.harts[g].slot == c) || (exists q :: q in s.procs && c in s.procs[q].stack)
  {
    assert c in s.at && Exists(s, s.at[c]);
    match s.at[c] {
      case Pool =>
      case Slot(g) => assert SlotHolds(s.harts[g].slot, s.at, Slot(g));
      case Stack(q) => assert Holds(s.procs[q].stack, s.at, Stack(q));
    }
  }

  lemma OfSlot(s: State, h: HartId)
    requires Partitioned(s) && h in s.harts
    ensures s.harts[h].slot in s.at && s.at[s.harts[h].slot] == Slot(h)
  {
    assert SlotHolds(s.harts[h].slot, s.at, Slot(h));
  }

  lemma OfStack(s: State, p: Pid, c: Ctx)
    requires Partitioned(s) && p in s.procs && c in s.procs[p].stack
    ensures c in s.at && s.at[c] == Stack(p)
  {
    assert Holds(s.procs[p].stack, s.at, Stack(p));
  }

  /** Every context is linked, and nowhere twice: in the pool once, in the slot of one hart, or in the stack of one
      process once. */
  lemma LinkedOnce(s: State, xs: seq<Step>, c: Ctx, h: HartId, p: Pid, g: HartId, q: Pid)
    requires Init(s) && Runs(s, xs) && c < NCTX
    requires h in Final(s, xs).harts && g in Final(s, xs).harts && p in Final(s, xs).procs && q in Final(s, xs).procs
    ensures var r := Final(s, xs);
            && (c in r.pool || (exists x :: x in r.harts && r.harts[x].slot == c) || (exists x :: x in r.procs && c in r.procs[x].stack))
            && Distinct(r.pool) && Distinct(r.procs[p].stack)
            && !(c in r.pool && r.harts[h].slot == c) && !(c in r.pool && c in r.procs[p].stack)
            && !(r.harts[h].slot == c && c in r.procs[p].stack)
            && (r.harts[g].slot == r.harts[h].slot ==> g == h)
            && (c in r.procs[q].stack && c in r.procs[p].stack ==> q == p)
  {
    RunInv(s, xs);
    var r := Final(s, xs);
    Somewhere(r, c);
    OfSlot(r, h);
    OfSlot(r, g);
    if c in r.procs[p].stack { OfStack(r, p, c); }
    if c in r.procs[q].stack { OfStack(r, q, c); }
    assert Holds(r.procs[p].stack, r.at, Stack(p));
  }

  /** In every run each handler returns to what it interrupted, the head of the stack; a process not current on any
      hart has a context to be dispatched with, and its reset never lacks one. */
  lemma RunReturns(s: State, xs: seq<Step>, h: HartId, p: Pid)
    requires Init(s) && Runs(s, xs)
    ensures var r := Final(s, xs);
            && (Enabled(r, Return(h)) ==>
                  var q := r.procs[r.harts[h].cur.value]; q.stack != [] && q.stack[0] == Target(r, h))
            && (p in r.procs && r.procs[p].on.None? ==> r.procs[p].stack != [] && Drained(r, p).pool != [])
  {
    RunInv(s, xs);
    var r := Final(s, xs);
    if Enabled(r, Return(h)) { ReturnsToHead(r, h); }
    if p in r.procs && r.procs[p].on.None? { ResetKeeps(r, p); }
  }

  /** The first n harts have their context and nothing else. */
  ghost predicate Idle(harts: map<HartId, Hart>, n: nat) {
    && (forall g: HartId :: g in harts <==> g < n)
    && (forall g :: g in harts ==> harts[g] == Hart(harts[g].slot, None, false, None))
  }

  // ----- the code -----

  /** The lists and pointers of the code. Frames and nested are the local variables of the active handlers; which
      contexts are pending, and where each context is, is history. */
  class Traps {
    var pool: seq<Ctx>
    var harts: map<HartId, Hart>
    var procs: map<Pid, Proc>
    ghost var at: map<Ctx, Place>

    ghost function Snapshot(): State
      reads this
    {
      State(pool, harts, procs, at)
    }

    /** traps_init: all contexts into the pool, then one for each hart. */
    constructor (cpus: nat)
      requires cpus < NCTX
      ensures Init(Snapshot()) && |pool| == NCTX - cpus
      ensures forall h: HartId :: h in harts <==> h < cpus
    {
      pool, harts, procs, at := [], map[], map[], map[];
      new;
      FillPool();
      for h := 0 to cpus
        invariant |pool| == NCTX - h && Partitioned(Snapshot()) && procs == map[] && Idle(harts, h)
      {
        GiveHart(h);
      }
    }

    method FillPool()
      requires pool == [] && at == map[] && harts == map[] && procs == map[]
      modifies this`pool, this`at
      ensures |pool| == NCTX && Partitioned(Snapshot())
    {
      for i := 0 to NCTX
        invariant |pool| == i && Holds(pool, at, Pool)
        invariant forall c: Ctx :: c in at <==> c < i
        invariant forall c :: c in at ==> at[c] == Pool
      {
        at := at[i := Pool];
        pool := [i] + pool;
      }
    }

    method GiveHart(h: HartId)
      requires Partitioned(Snapshot()) && pool != [] && h !in harts
      modifies this
      ensures Partitioned(Snapshot()) && pool == old(pool)[1..] && procs == old(procs)
      ensures Idle(old(harts), h) ==> Idle(harts, h + 1)
    {
      NewSlot(Snapshot(), h);
      var c := Alloc(Slot(h));
      harts := harts[h := Hart(c.value, None, false, None)];
    }

    /** ctx_alloc: the head of the free list, to be linked at a place of the caller's. */
    method Alloc(ghost a: Place) returns (c: Option<Ctx>)
      modifies this`pool, this`at
      ensures c.None? <==> old(pool) == []
      ensures c.None? ==> pool == old(pool) && at == old(at)
      ensures c.Some? ==> c.value == old(pool)[0] && pool == old(pool)[1..] && at == old(at)[c.value := a]
    {
      if pool == [] { return None; }
      c := Some(pool[0]);
      at := at[pool[0] := a];
      pool := pool[1..];
    }

    method Free(c: Ctx)
      modifies this`pool, this`at
      ensures pool == [c] + old(pool) && at == old(at)[c := Pool]
    {
      pool := [c] + pool;
      at := at[c := Pool];
    }

    method PrepareNestedTrap(h: HartId)
      requires Enabled(Snapshot(), Trap(h))
      modifies this
      ensures Snapshot() == TrapStep(old(Snapshot()), h)
    {
      var t := harts[h];
      var p, c := t.cur.value, t.slot;
      procs := procs[p := Proc([c] + procs[p].stack, procs[p].pend, if t.runs then [c] + procs[p].frames else procs[p].frames, procs[p].on)];
      at := at[c := Stack(p)];
      var f := Alloc(Slot(h));
      harts := harts[h := Hart(f.value, t.cur, t.runs, if t.runs then None else Some(c))];
    }

    /** The end of handle_exception and of the interrupt handlers. */
    method ReturnFromTrap(h: HartId)
      requires Inv(Snapshot()) && Enabled(Snapshot(), Return(h))
      modifies this
      ensures Snapshot() == ReturnStep(old(Snapshot()), h)
      ensures var p := old(harts)[h].cur.value;
              p in procs && harts[h].slot == old(procs)[p].stack[0] && procs[p].stack == old(procs)[p].stack[1..]
    {
      ReturnsToHead(Snapshot(), h);
      var t := harts[h];
      var p := t.cur.value;
      var q := procs[p];
      var c := if t.runs then q.frames[0] else t.nested.value;
      Free(t.slot);
      procs := procs[p := Proc(Unlinked(q.stack, c), q.pend, if t.runs then q.frames[1..] else q.frames, q.on)];
      harts := harts[h := Hart(c, t.cur, t.runs, None)];
      at := at[c := Slot(h)];
    }

    method GiveUpProcessor(h: HartId)
      requires Enabled(Snapshot(), GiveUp(h))
      modifies this
      ensures Snapshot() == GiveUpStep(old(Snapshot()), h)
    {
      var t := harts[h];
      var p := t.cur.value;
      var c := Alloc(Stack(p));
      procs := procs[p := Proc([c.value] + procs[p].stack, [c.value], procs[p].frames, procs[p].on)];
      harts := harts[h := Hart(t.slot, t.cur, false, None)];
    }

    /** The handler of an interrupt leaves for sched_proc; no list changes. */
    method LeaveHandler(h: HartId)
      requires Enabled(Snapshot(), Preempt(h))
      modifies this
      ensures Snapshot() == PreemptStep(old(Snapshot()), h)
      ensures forall p :: p in procs ==> p in old(procs) && procs[p].stack == old(procs)[p].stack
    {
      var t := harts[h];
      var p := t.cur.value;
      var q := procs[p];
      var c := if t.runs then q.frames[0] else t.nested.value;
      procs := procs[p := Proc(q.stack, [c] + q.pend, if t.runs then q.frames[1..] else q.frames, q.on)];
      harts := harts[h := Hart(t.slot, t.cur, false, None)];
    }

    method ProcRun(h: HartId, p: Pid)
      requires Enabled(Snapshot(), Run(h, p))
      modifies this
      ensures Snapshot() == RunStep(old(Snapshot()), h, p)
    {
      var t := harts[h];
      if t.cur.Some? && t.cur.value in procs {
        procs := procs[t.cur.value := procs[t.cur.value].(on := None)];
      }
      var q := procs[p];
      Free(t.slot);
      harts := harts[h := Hart(q.stack[0], Some(p), |q.pend| == 1, None)];
      procs := procs[p := Proc(q.stack[1..], q.pend[1..], q.frames, Some(h))];
      at := at[q.stack[0] := Slot(h)];
    }

    /** proc_reset, which panics without a context to allocate. */
    method ProcReset(p: Pid) returns (ok: bool)
      requires p in procs
      modifies this
      ensures ok <==> Drained(old(Snapshot()), p).pool != []
      ensures ok ==> Snapshot() == CreateStep(Drained(old(Snapshot()), p), p)
    {
      Drain(p);
      var c := Alloc(Stack(p));
      ok := c.Some?;
      if ok {
        procs := procs[p := Proc([c.value], [c.value], [], None)];
      }
    }

    /** The reset of a process that is not current always succeeds. */
    method Restart(p: Pid)
      requires Inv(Snapshot()) && p in procs && procs[p].on.None?
      modifies this
      ensures Enabled(old(Snapshot()), Reset(p)) && Snapshot() == Next(old(Snapshot()), Reset(p)) && Inv(Snapshot())
    {
      ResetKeeps(Snapshot(), p);
      var ok := ProcReset(p);
    }

    /** proc_alloc: a new process, with an empty list, is reset. */
    method ProcAlloc(p: Pid) returns (ok: bool)
      requires p !in procs
      modifies this
      ensures ok <==> Enabled(old(Snapshot()), Create(p))
      ensures ok ==> Snapshot() == Next(old(Snapshot()), Create(p))
    {
      ghost var was := procs;
      procs := procs[p := Proc([], [], [], None)];
      ok := ProcReset(p);
      assert ok ==> procs == was[p := procs[p]];
    }

    method Drain(p: Pid)
      requires p in procs
      modifies this`pool, this`procs, this`at
      ensures Snapshot() == Drained(old(Snapshot()), p) && p in procs
    {
      ghost var s := Snapshot();
      while procs[p].stack != []
        invariant p in procs && Drained(Snapshot(), p) == Drained(s, p)
        decreases |procs[p].stack|
      {
        var c := procs[p].stack[0];
        procs := procs[p := procs[p].(stack := procs[p].stack[1..])];
        Free(c);
      }
    }
  }

  lemma NewSlot(s: State, h: HartId)
    requires Partitioned(s) && s.pool != [] && h !in s.harts
    ensures Partitioned(State(s.pool[1..], s.harts[h := Hart(s.pool[0], None, false, None)], s.procs, s.at[s.pool[0] := Slot(h)]))
  {
    var c := s.pool[0];
    var r := State(s.pool[1..], s.harts[h := Hart(c, None, false, None)], s.procs, s.at[c := Slot(h)]);
    Pop(s.pool, s.at, Pool, Slot(h));
    assert forall x :: x in s.at ==> s.at[x] != Slot(h);
    forall g | g in r.harts ensures SlotHolds(r.harts[g].slot, r.at, Slot(g)) {
      if g != h { assert SlotHolds(s.harts[g].slot, s.at, Slot(g)); }
    }
    forall q | q in r.procs ensures Holds(r.procs[q].stack, r.at, Stack(q)) {
      assert Holds(s.procs[q].stack, s.at, Stack(q));
    }
  }
}
