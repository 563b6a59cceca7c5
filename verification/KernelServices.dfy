/** What each process service does to processes and timers, and that it touches nothing else. */
module KernelServices {
  import opened Common
  import opened TimerQueue
  import opened KernelSpec
  import opened KernelInv
  import opened KernelSteps
  import opened KernelCalls
  import opened KernelServing

  /** Only processes, events and interrupted searches may have changed. */
  ghost predicate Frame(k: Kernel, r: Kernel) {
    && r == k.(procs := r.procs, queue := r.queue, nextEvent := r.nextEvent, opMode := r.opMode, held := r.held)
    && r.procs.Keys == k.procs.Keys && OneNew(k, r)
  }

  /** Process p has a new timer, due then. */
  ghost predicate Armed(k: Kernel, r: Kernel, p: Pid, w: What, due: int) {
    && Frame(k, r) && p in r.procs && r.procs[p].timer == Some(k.nextEvent)
    && Event(k.nextEvent, due, w) in r.queue
  }

  /** What p has become, and that the current process gives up, if that is another one. */
  ghost predicate Changes(k: Kernel, r: Kernel, p: Pid, q: Proc) {
    && p in k.procs && k.cur in k.procs && p in r.procs && k.cur in r.procs
    && r.procs == k.procs[p := q][k.cur := (if p == k.cur then q else k.procs[k.cur]).(giving := Yes(Fresh(false)))]
  }

  lemma ArmIs(k: Kernel, p: Pid, q: Proc, time: int, w: What, r: Kernel)
    requires p in k.procs && Target(k, w) == Some(p) && r == EventAlloc(WithProc(k, p, q), time, w)
    ensures Armed(k, r, p, w, time) && r.procs == k.procs[p := q.(timer := Some(k.nextEvent))] && r.held == k.held && r.opMode == k.opMode
  {
    InsertMembers(k.queue, Event(k.nextEvent, time, w));
  }

  lemma FreeIs(k: Kernel, p: Pid, r: Kernel)
    requires p in k.procs && r == EventFree(k, p)
    ensures r == k.(procs := r.procs, queue := r.queue) && Fewer(k.queue, r.queue)
    ensures r.procs == k.procs[p := k.procs[p].(timer := None)]
  {
    if k.procs[p].timer.Some? { RemoveFewer(k.queue, k.procs[p].timer.value); }
  }

  // ----- the caller itself -----

  lemma WaitIs(k: Kernel, delay: int, t: int, due: int, r: Kernel)
    requires k.cur in k.procs && due == t + delay && r == DoWait(k, delay, t)
    ensures Frame(k, r) && r.held == k.held && r.opMode == k.opMode
    ensures delay == INFINITE ==> r == k
    ensures delay == 0 ==> r.procs == k.procs[k.cur := k.procs[k.cur].(giving := Yes(Fresh(true)))] && r.queue == k.queue
    ensures delay != INFINITE && delay != 0 ==>
              && Armed(k, r, k.cur, TimedWaitTimeout(k.cur), due)
              && r.procs == k.procs[k.cur := k.procs[k.cur].(state := Waiting, reason := TimedWait, giving := Yes(Fresh(false)),
                                                             timer := Some(k.nextEvent))]
  {
    if delay != INFINITE && delay != 0 {
      ArmIs(k, k.cur, Asleep(k.procs[k.cur], Waiting, TimedWait, k.procs[k.cur].pc), due, TimedWaitTimeout(k.cur), r);
    }
  }

  lemma SuspendSelfNot(k: Kernel, timeout: int, t: int, r: Kernel)
    requires k.cur in k.procs && (k.procs[k.cur].Periodic() || timeout == 0) && r == DoSuspendSelf(k, timeout, t)
    ensures r == k
  {
  }

  lemma SuspendForEverIs(k: Kernel, timeout: int, t: int, r: Kernel)
    requires k.cur in k.procs && !k.procs[k.cur].Periodic() && timeout >= INFINITE && r == DoSuspendSelf(k, timeout, t)
    ensures r == k.(procs := r.procs)
    ensures r.procs == k.procs[k.cur := k.procs[k.cur].(state := Waiting, reason := Suspended, giving := Yes(Fresh(false)))]
  {
  }

  lemma SuspendTimedIs(k: Kernel, timeout: int, t: int, due: int, r: Kernel)
    requires k.cur in k.procs && !k.procs[k.cur].Periodic() && timeout != 0 && timeout < INFINITE
    requires due == t + timeout && r == DoSuspendSelf(k, timeout, t)
    ensures Armed(k, r, k.cur, SuspendTimeout(k.cur), due) && r.held == k.held && r.opMode == k.opMode
    ensures r.procs == k.procs[k.cur := k.procs[k.cur].(state := Waiting, reason := SuspendedTimed, giving := Yes(Fresh(false)),
                                                        timer := Some(k.nextEvent), pc := SuspendCheck(due))]
  {
    var q := k.procs[k.cur];
    ArmIs(k, k.cur, Asleep(q, Waiting, SuspendedTimed, SuspendCheck(due)), due, SuspendTimeout(k.cur), r);
  }

  lemma StopSelfIs(k: Kernel, r: Kernel)
    requires k.cur in k.procs && r == Syscall(k, StopSelf, 0, 0, 0)
    ensures Frame(k, r) && r == k.(procs := r.procs)
    ensures r.procs == k.procs[k.cur := k.procs[k.cur].(state := Dormant, giving := Yes(Fresh(false)))]
  {
  }

  // ----- another process -----

  /** The kernel in which p has changed, behind the give-up. */
  lemma GaveUp(k: Kernel, k1: Kernel, p: Pid, q: Proc, r: Kernel)
    requires k.cur in k.procs && p in k.procs && k1 == k.(procs := k1.procs, queue := k1.queue) && p in k1.procs
    requires k1.procs == k.procs[p := k1.procs[p]] && Fewer(k.queue, k1.queue) && k.cur in k1.procs && r == GiveUpAfter(WithProc(k1, p, q), false)
    ensures r == k.(procs := r.procs, queue := k1.queue) && Changes(k, r, p, q)
  {
  }

  lemma Same(k: Kernel)
    requires k.cur in k.procs
    ensures forall p :: p in k.procs ==> k.procs[p := k.procs[p]] == k.procs
    ensures Fewer(k.queue, k.queue)
  {
  }

  /** SUSPEND finds its process: of the partition, neither dormant nor faulted nor periodic, and not waiting already. */
  predicate Suspendable(k: Kernel, p: Pid) {
    p in k.procs && k.procs[p].part == k.part && (k.procs[p].state == Ready || k.procs[p].state == Running) && !k.procs[p].Periodic()
  }

  lemma SuspendNot(k: Kernel, p: Pid, r: Kernel)
    requires k.cur in k.procs && r == DoSuspend(k, p) && !Suspendable(k, p)
    ensures r == k
  {
  }

  lemma SuspendIs(k: Kernel, p: Pid, r: Kernel)
    requires k.cur in k.procs && r == DoSuspend(k, p) && Suspendable(k, p)
    ensures r == k.(procs := r.procs) && Changes(k, r, p, k.procs[p].(state := Waiting, reason := Suspended))
  {
    Same(k);
    GaveUp(k, k, p, Put(k.procs[p], Waiting, Suspended), r);
  }

  /** RESUME finds its process: of the partition, and faulted, or suspended and not periodic. */
  predicate Resumable(k: Kernel, p: Pid) {
    && p in k.procs && k.procs[p].part == k.part
    && (k.procs[p].state == Faulted ||
        (k.procs[p].state == Waiting && (k.procs[p].reason == Suspended || k.procs[p].reason == SuspendedTimed) && !k.procs[p].Periodic()))
  }

  lemma ResumeNot(k: Kernel, p: Pid, r: Kernel)
    requires k.cur in k.procs && r == DoResume(k, p) && !Resumable(k, p)
    ensures r == k
  {
  }

  lemma ResumeUntimedIs(k: Kernel, p: Pid, r: Kernel)
    requires k.cur in k.procs && r == DoResume(k, p) && Resumable(k, p) && k.procs[p].timer.None?
    requires !(k.procs[p].state == Waiting && k.procs[p].reason == SuspendedTimed)
    ensures r == k.(procs := r.procs) && Changes(k, r, p, k.procs[p].(state := Ready, timer := None))
  {
    Same(k);
    GaveUp(k, k, p, Put(k.procs[p], Ready, k.procs[p].reason), r);
  }

  lemma ResumeTimedIs(k: Kernel, p: Pid, r: Kernel)
    requires k.cur in k.procs && r == DoResume(k, p) && Resumable(k, p) && k.procs[p].state == Waiting && k.procs[p].reason == SuspendedTimed
    ensures r == k.(procs := r.procs, queue := r.queue) && Changes(k, r, p, k.procs[p].(state := Ready, timer := None)) && Fewer(k.queue, r.queue)
  {
    var k1 := EventFree(k, p);
    FreeIs(k, p, k1);
    GaveUp(k, k1, p, Put(k1.procs[p], Ready, k.procs[p].reason), r);
  }

  lemma ResumeIs(k: Kernel, p: Pid, r: Kernel)
    requires k.cur in k.procs && r == DoResume(k, p) && Resumable(k, p)
    requires k.procs[p].timer.Some? <==> k.procs[p].state == Waiting && k.procs[p].reason == SuspendedTimed
    ensures r == k.(procs := r.procs, queue := r.queue) && Changes(k, r, p, k.procs[p].(state := Ready, timer := None)) && Fewer(k.queue, r.queue)
  {
    if k.procs[p].timer.None? { ResumeUntimedIs(k, p, r); } else { ResumeTimedIs(k, p, r); }
  }

  /** STOP and SET_PRIORITY find their process: of the partition, and not dormant. */
  predicate Alive(k: Kernel, p: Pid) {
    p in k.procs && k.procs[p].part == k.part && k.procs[p].state != Dormant
  }

  lemma StopNot(k: Kernel, p: Pid, r: Kernel)
    requires k.cur in k.procs && r == DoStop(k, p) && !Alive(k, p)
    ensures r == k
  {
  }

  lemma StopIs(k: Kernel, p: Pid, r: Kernel)
    requires k.cur in k.procs && r == DoStop(k, p) && Alive(k, p)
    ensures r == k.(procs := r.procs, queue := r.queue) && Changes(k, r, p, k.procs[p].(state := Dormant, timer := None)) && Fewer(k.queue, r.queue)
  {
    var k1 := EventFree(k, p);
    FreeIs(k, p, k1);
    GaveUp(k, k1, p, Put(k1.procs[p], Dormant, k1.procs[p].reason), r);
  }

  lemma SetPriorityNot(k: Kernel, p: Pid, pri: nat, r: Kernel)
    requires k.cur in k.procs && r == DoSetPriority(k, p, pri) && !Alive(k, p)
    ensures r == k
  {
  }

  lemma SetPriorityIs(k: Kernel, p: Pid, pri: nat, r: Kernel)
    requires k.cur in k.procs && r == DoSetPriority(k, p, pri) && Alive(k, p)
    ensures r == k.(procs := r.procs) && Changes(k, r, p, k.procs[p].(pri := pri))
  {
    Same(k);
    GaveUp(k, k, p, k.procs[p].(pri := pri), r);
  }

  // ----- start -----

  /** START finds its process: of the partition, dormant, and with a delay it can keep. */
  predicate Startable(k: Kernel, p: Pid, delay: int) {
    && p in k.procs && k.procs[p].part == k.part && k.procs[p].state == Dormant && delay != INFINITE
    && (k.procs[p].Periodic() ==> delay < k.procs[p].period)
  }

  /** A process as its start leaves it, but for what it then waits for: its base priority is its priority. */
  predicate Begins(q: Proc, r: Proc, state: PState) {
    r == q.(state := state, reason := r.reason, timer := r.timer, pri := q.basePri, giving := Not, pc := User)
  }

  predicate NormalPart(k: Kernel) {
    k.part in k.opMode && k.opMode[k.part] == Normal
  }

  lemma StartNot(k: Kernel, p: Pid, delay: int, t: int, r: Kernel)
    requires k.cur in k.procs && r == DoStart(k, p, delay, t) && !Startable(k, p, delay)
    ensures r == k
  {
  }

  /** Outside NORMAL mode, and for a periodic process, the start is noted. */
  lemma StartNotedIs(k: Kernel, p: Pid, delay: int, t: int, r: Kernel)
    requires k.cur in k.procs && r == DoStart(k, p, delay, t) && Startable(k, p, delay) && (!NormalPart(k) || k.procs[p].Periodic())
    ensures r == k.(procs := r.procs, held := k.held - {p}) && p in r.procs && r.procs == k.procs[p := r.procs[p]]
    ensures Begins(k.procs[p], r.procs[p], Waiting) && r.procs[p].timer == k.procs[p].timer
    ensures r.procs[p].reason == if NormalPart(k) then DelayedStarted else PreviousStarted
  {
  }

  lemma StartAperiodicIs(k: Kernel, p: Pid, delay: int, t: int, r: Kernel)
    requires k.cur in k.procs && r == DoStart(k, p, delay, t) && Startable(k, p, delay) && NormalPart(k) && !k.procs[p].Periodic()
    ensures r == StartAperiodic(k.(held := k.held - {p}), p, delay, t)
  {
  }

  lemma StartReadyIs(k: Kernel, p: Pid, t: int, r: Kernel)
    requires k.cur in k.procs && r == DoStart(k, p, 0, t) && Startable(k, p, 0) && NormalPart(k) && !k.procs[p].Periodic()
    ensures r == k.(procs := r.procs, held := k.held - {p}) && p in r.procs
    ensures Changes(k, r, p, k.procs[p].(state := Ready, pri := k.procs[p].basePri, giving := Not, pc := User))
  {
    var k0 := k.(held := k.held - {p});
    StartAperiodicIs(k, p, 0, t, r);
    Same(k0);
    GaveUp(k0, k0, p, Reset(k.procs[p], Ready, k.procs[p].reason), r);
  }

  lemma StartLaterIs(k: Kernel, p: Pid, delay: int, t: int, due: int, r: Kernel)
    requires k.cur in k.procs && p != k.cur && due == t + delay && delay != 0
    requires r == DoStart(k, p, delay, t) && Startable(k, p, delay) && NormalPart(k) && !k.procs[p].Periodic()
    ensures r == k.(procs := r.procs, queue := r.queue, nextEvent := r.nextEvent, held := k.held - {p})
    ensures Armed(k, r, p, TimerQueue.DelayedStart(p), due)
    ensures Changes(k, r, p, k.procs[p].(state := Waiting, reason := DelayedStarted, timer := Some(k.nextEvent),
                                         pri := k.procs[p].basePri, giving := Not, pc := User))
  {
    var k0 := k.(held := k.held - {p});
    var m := EventAlloc(WithProc(k0, p, Reset(k.procs[p], Waiting, DelayedStarted)), due, TimerQueue.DelayedStart(p));
    StartAperiodicIs(k, p, delay, t, r);
    ArmIs(k0, p, Reset(k.procs[p], Waiting, DelayedStarted), due, TimerQueue.DelayedStart(p), m);
    assert r == GiveUpAfter(m, false);
  }

  // ----- the mode of the partition -----

  /** SET_PARTITION_MODE takes the mode asked for. */
  predicate Settable(k: Kernel, op: OpMode) {
    var was := if k.part in k.opMode then k.opMode[k.part] else ColdStart;
    !(op == Normal && was == Normal) && !(op == WarmStart && was == ColdStart)
  }

  lemma SetModeNot(k: Kernel, op: OpMode, r: Kernel)
    requires k.cur in k.procs && r == DoSetMode(k, op) && !Settable(k, op)
    ensures r == k
  {
  }

  lemma SetOtherModeIs(k: Kernel, op: OpMode, r: Kernel)
    requires k.cur in k.procs && r == DoSetMode(k, op) && Settable(k, op) && op != Normal
    ensures r == k.(opMode := k.opMode[k.part := op])
  {
  }

  /** A process of the partition's list that was started before the partition went to NORMAL. */
  predicate StartedBefore(k: Kernel, p: Pid) {
    p in Members(k) && p in k.procs && k.procs[p].state == Waiting && k.procs[p].reason == PreviousStarted
  }

  /** What SET_PARTITION_MODE(NORMAL) makes of its caller and of the other processes. */
  ghost predicate WentNormal(k: Kernel, r: Kernel) {
    && r == k.(procs := r.procs, opMode := k.opMode[k.part := Normal]) && r.procs.Keys == k.procs.Keys && k.cur in k.procs
    && r.procs[k.cur] == k.procs[k.cur].(state := Dormant, giving := Yes(Fresh(false)))
    && forall p :: p in k.procs && p != k.cur ==>
         r.procs[p] == if StartedBefore(k, p) then k.procs[p].(state := Ready) else k.procs[p]
  }

  lemma SetNormalIs(k: Kernel, r: Kernel)
    requires k.cur in k.procs && !StartedBefore(k, k.cur) && r == DoSetMode(k, Normal) && Settable(k, Normal)
    ensures WentNormal(k, r)
  {
    var k1 := k.(opMode := k.opMode[k.part := Normal]);
    var k2 := Released(k1);
    assert forall p :: p in k.procs ==> (Releasing(k1, p) <==> StartedBefore(k, p));
    assert r == WithProc(k2, k.cur, Asleep(k2.procs[k.cur], Dormant, k2.procs[k.cur].reason, k2.procs[k.cur].pc));
  }

  /** SET_PARTITION_MODE changes nothing if the mode is NORMAL already, or for a warm start during a cold one. Otherwise the
      mode is stored, and nothing else happens, but for NORMAL: exactly the processes of the partition's list that wait
      for PREVIOUS_STARTED are READY, the caller is DORMANT and gives up, and every other process is as it was. */
  lemma SetModeExactly(k: Kernel, op: OpMode, t0: int, t1: int, t2: int, r: Kernel)
    requires Calling(k) && r == Syscall(k, SetMode(op), t0, t1, t2)
    ensures var was := if k.part in k.opMode then k.opMode[k.part] else ColdStart;
            && ((op == Normal && was == Normal) || (op == WarmStart && was == ColdStart) ==> r == k)
            && (op == Normal && was != Normal ==> WentNormal(k, r))
            && (op != Normal && !(op == WarmStart && was == ColdStart) ==> r == k.(opMode := k.opMode[k.part := op]))
  {
    assert ProcOk(k, k.cur);
    if !Settable(k, op) {
      SetModeNot(k, op, r);
    } else if op == Normal {
      SetNormalIs(k, r);
    } else {
      SetOtherModeIs(k, op, r);
    }
  }
}
