/** Timed waits over runs: whoever sleeps in TIMED_WAIT, in a suspension with a timeout or before a delayed start sleeps
    until the clock reading of that call plus its delay, and wakes at the first interrupt from then on. */
module KernelTimes {
  import opened Common
  import opened TimerQueue
  import opened KernelSpec
  import opened KernelInv
  import opened KernelSteps
  import opened KernelCalls
  import opened KernelTimer
  import opened KernelFifo
  import opened KernelRuns
  import opened KernelWakeups
  import opened KernelServing
  import opened KernelServices
  import opened KernelTicks
  import opened KernelSchedule

  // ----- sleeping -----

  /** Waiting for a time to come, and for nothing else. */
  predicate Sleeps(q: Proc) {
    q.state == Waiting && q.timer.Some? && !OnList(q)
  }

  /** It sleeps on as it did. */
  predicate SameSleep(q: Proc, r: Proc) {
    r == q.(pri := r.pri, giving := r.giving)
  }

  predicate KeepsSleep(q: Proc, r: Proc) {
    Sleeps(q) || Sleeps(r) ==> SameSleep(q, r)
  }

  /** Nobody but p falls asleep or is woken from it. */
  ghost predicate SleepOn(k: Kernel, r: Kernel, p: Option<Pid>) {
    && r.procs.Keys == k.procs.Keys && OneNew(k, r)
    && forall x :: x in k.procs && Some(x) != p ==> KeepsSleep(k.procs[x], r.procs[x])
  }

  lemma SleepSame(k: Kernel, r: Kernel)
    requires r.procs == k.procs && Fewer(k.queue, r.queue)
    ensures SleepOn(k, r, None)
  {
  }

  lemma SleepApart(k: Kernel, r: Kernel)
    requires Apart(k, r, None) && k.procs[k.cur].state == Running && Fewer(k.queue, r.queue)
    ensures SleepOn(k, r, None)
  {
  }

  lemma SleepServed(k: Kernel, r: Kernel, o: ObjId, disc: Disc)
    requires ServesOne(k, r, o, disc) && AtRing(k, r, o) && k.procs[k.cur].state == Running
    ensures SleepOn(k, r, None)
  {
    if !ServesNobody(k, r, o) {
      var i :| Serves(k, r, o, disc, i);
      assert !Sleeps(k.procs[k.objs[o].waiting[i]]) && !Sleeps(r.procs[k.objs[o].waiting[i]]);
    }
  }

  /** One process changed, then the give-up of the current one. */
  lemma SleepChanged(k: Kernel, r: Kernel, p: Pid, q: Proc)
    requires Changes(k, r, p, q) && OneNew(k, r) && k.procs[k.cur].state == Running
    ensures SleepOn(k, r, Some(p))
    ensures SameSleep(q, r.procs[p])
  {
  }

  // ----- transfers -----

  lemma DoneSleep(k: Kernel, s: Step, x: Xfer, r: Kernel)
    requires Good(k) && Enabled(k, s) && r == Next(k, s) && Done(k, r, x) && Suits(k.objs[x.obj], x.op) && k.procs[k.cur].state == Running
    ensures SleepOn(k, r, None)
  {
    if x.op.Read? {
      SleepApart(k, r);
    } else {
      StepServes(k, s, x.obj, r);
      SleepServed(k, r, x.obj, DiscOf(k, s));
    }
  }

  lemma RefusedSleep(k: Kernel, x: Xfer, ret: Ret, r: Kernel)
    requires Refused(k, r, x, ret) && k.procs[k.cur].state == Running
    ensures SleepOn(k, r, None)
  {
  }

  lemma JoinSleep(k: Kernel, x: Xfer, r: Kernel)
    requires JoinsLast(k, r, x) && OneNew(k, r) && k.procs[k.cur].state == Running
    ensures SleepOn(k, r, None)
  {
  }

  lemma AttemptSleep(k: Kernel, s: Step, x: Xfer, outer: int, r: Kernel)
    requires Good(k) && Enabled(k, s) && Attempts(k, s) == Some(x) && outer == Deadline(k, s, x) && r == Next(k, s)
    requires k.procs[k.cur].state == Running
    ensures SleepOn(k, r, None)
  {
    AttemptLeads(k, s, x, outer, r);
    if Done(k, r, x) {
      DoneSleep(k, s, x, r);
    } else if Refused(k, r, x, NotAvailable) {
      RefusedSleep(k, x, NotAvailable, r);
    } else if Refused(k, r, x, TimedOut) {
      RefusedSleep(k, x, TimedOut, r);
    } else {
      JoinSleep(k, x, r);
    }
  }

  lemma AllServedSleep(k: Kernel, r: Kernel, o: ObjId)
    requires ServesAll(k, r, o) && k.procs[k.cur].state == Running
    ensures SleepOn(k, r, None)
  {
  }

  lemma DisplaySleep(k: Kernel, id: nat, msg: Msg, r: Kernel)
    requires Calling(k) && r == DoDisplay(k, id, msg)
    ensures SleepOn(k, r, None)
  {
    if HasBoard(k, id) && 0 < |msg| <= k.objs[k.handles[(BoardKind, id)].obj].maxSize {
      DisplayServes(k, id, msg, k.handles[(BoardKind, id)].obj, r);
      AllServedSleep(k, r, k.handles[(BoardKind, id)].obj);
    } else {
      SleepSame(k, r);
    }
  }

  lemma ClearSleep(k: Kernel, id: nat, r: Kernel)
    requires Calling(k) && r == Syscall(k, ClearPort(id), 0, 0, 0)
    ensures SleepOn(k, r, None)
  {
    if ReceiveCheck(k, PortKind, id) == NoError && k.objs[k.handles[(PortKind, id)].obj].Ring? {
      var h := k.handles[(PortKind, id)];
      SoundAwaiting(k, h.obj);
      ClearServes(k, h, r);
      if |k.objs[h.obj].msgs| == k.objs[h.obj].cap { SleepServed(k, r, h.obj, h.disc); } else { SleepSame(k, r); }
    } else {
      SleepSame(k, r);
    }
  }

  lemma TalkSleep(k: Kernel, c: Call, t0: int, t1: int, t2: int, r: Kernel)
    requires Calling(k) && Communicates(c) && Asked(k, c).None? && r == Syscall(k, c, t0, t1, t2)
    ensures SleepOn(k, r, None)
  {
    match c
    case Display(id, msg) => DisplaySleep(k, id, msg, r);
    case ClearPort(id) => ClearSleep(k, id, r);
    case _ => SleepSame(k, r);
  }

  lemma ContinueSleep(k: Kernel, s: Step, r: Kernel)
    requires Good(k) && Enabled(k, s) && s.Continue? && r == Next(k, s)
    ensures SleepOn(k, r, None)
  {
    var a := Attempts(k, s);
    if a.Some? {
      AttemptSleep(k, s, a.value, Deadline(k, s, a.value), r);
    } else {
      if k.procs[k.cur].pc.SuspendCheck? { SuspensionEnds(k, s.t, s.t1, s.t2, r); } else { LoopTimesOut(k, s.t, s.t1, s.t2, r); }
      SleepApart(k, r);
    }
  }

  // ----- services -----

  /** A time to sleep until, and what for. */
  datatype Alarm = Alarm(due: int, reason: Reason)

  /** The alarm that a call made by the current process at t sets for p: by TIMED_WAIT and SUSPEND_SELF for itself, by a
      delayed start for the process started. */
  function SetBy(k: Kernel, c: Call, t: int, p: Pid): Option<Alarm> {
    match c
    case Wait(delay) => if p == k.cur && delay != 0 && delay != INFINITE then Some(Alarm(t + delay, TimedWait)) else None
    case SuspendSelf(timeout) =>
      if p == k.cur && p in k.procs && !k.procs[p].Periodic() && timeout != 0 && timeout < INFINITE
      then Some(Alarm(t + timeout, SuspendedTimed)) else None
    case Start(q, delay) =>
      if p == q && Startable(k, q, delay) && NormalPart(k) && !k.procs[q].Periodic() && delay != 0
      then Some(Alarm(t + delay, Reason.DelayedStarted)) else None
    case _ => None
  }

  /** p has fallen asleep until due. */
  ghost predicate FallsAsleep(k: Kernel, r: Kernel, p: Pid, due: int, reason: Reason) {
    && p in k.procs && p in r.procs && Sleeps(r.procs[p]) && !Sleeps(k.procs[p]) && r.procs[p].reason == reason
    && r.procs[p].timer == Some(k.nextEvent) && (exists e :: e in r.queue && e.id == k.nextEvent && e.time == due)
    && (reason == SuspendedTimed ==> r.procs[p].pc == SuspendCheck(due))
  }

  /** The call takes p out of its sleep. */
  predicate TakesOut(k: Kernel, c: Call, p: Pid) {
    (c == Stop(p) && Alive(k, p)) || (c == ResumeProc(p) && Resumable(k, p))
  }

  lemma WaitSleep(k: Kernel, delay: int, t: int, due: int, r: Kernel)
    requires Calling(k) && r == DoWait(k, delay, t) && due == t + delay
    ensures SleepOn(k, r, Some(k.cur))
    ensures if delay != 0 && delay != INFINITE then FallsAsleep(k, r, k.cur, due, TimedWait) else SleepOn(k, r, None)
  {
    assert ProcOk(k, k.cur);
    WaitIs(k, delay, t, due, r);
    assert delay != 0 && delay != INFINITE ==> Event(k.nextEvent, due, TimedWaitTimeout(k.cur)) in r.queue;
  }

  lemma SuspendSelfSleep(k: Kernel, timeout: int, t: int, due: int, r: Kernel)
    requires Calling(k) && r == DoSuspendSelf(k, timeout, t) && due == t + timeout
    ensures SleepOn(k, r, Some(k.cur))
    ensures if !k.procs[k.cur].Periodic() && timeout != 0 && timeout < INFINITE then FallsAsleep(k, r, k.cur, due, SuspendedTimed)
            else SleepOn(k, r, None)
  {
    assert ProcOk(k, k.cur);
    if k.procs[k.cur].Periodic() || timeout == 0 {
      SuspendSelfNot(k, timeout, t, r);
      SleepSame(k, r);
    } else if timeout < INFINITE {
      SuspendTimedIs(k, timeout, t, due, r);
      assert Event(k.nextEvent, due, SuspendTimeout(k.cur)) in r.queue;
    } else {
      SuspendForEverIs(k, timeout, t, r);
    }
  }

  lemma StartNotedSleep(k: Kernel, p: Pid, delay: int, t: int, r: Kernel)
    requires Calling(k) && r == DoStart(k, p, delay, t) && Startable(k, p, delay) && (!NormalPart(k) || k.procs[p].Periodic())
    ensures SleepOn(k, r, None)
  {
    assert ProcOk(k, p);
    StartNotedIs(k, p, delay, t, r);
  }

  lemma StartNowSleep(k: Kernel, p: Pid, t: int, r: Kernel)
    requires Calling(k) && r == DoStart(k, p, 0, t) && Startable(k, p, 0) && NormalPart(k) && !k.procs[p].Periodic()
    ensures SleepOn(k, r, None)
  {
    assert ProcOk(k, k.cur) && ProcOk(k, p);
    StartReadyIs(k, p, t, r);
    SleepChanged(k, r, p, k.procs[p].(state := Ready, pri := k.procs[p].basePri, giving := Not, pc := User));
  }

  lemma StartEarlySleep(k: Kernel, p: Pid, delay: int, t: int, r: Kernel)
    requires Calling(k) && r == DoStart(k, p, delay, t) && SetBy(k, Start(p, delay), t, p).None?
    ensures SleepOn(k, r, None)
  {
    if !Startable(k, p, delay) {
      StartNot(k, p, delay, t, r);
      SleepSame(k, r);
    } else if !NormalPart(k) || k.procs[p].Periodic() {
      StartNotedSleep(k, p, delay, t, r);
    } else {
      StartNowSleep(k, p, t, r);
    }
  }

  lemma StartSleep(k: Kernel, p: Pid, delay: int, t: int, due: int, r: Kernel)
    requires Calling(k) && r == DoStart(k, p, delay, t) && due == t + delay
    ensures SleepOn(k, r, Some(p))
    ensures if SetBy(k, Start(p, delay), t, p).Some? then FallsAsleep(k, r, p, due, Reason.DelayedStarted) else SleepOn(k, r, None)
  {
    if SetBy(k, Start(p, delay), t, p).None? {
      StartEarlySleep(k, p, delay, t, r);
    } else {
      assert ProcOk(k, k.cur);
      StartLaterSleep(k, p, delay, t, due, r);
    }
  }

  lemma StartLaterSleep(k: Kernel, p: Pid, delay: int, t: int, due: int, r: Kernel)
    requires k.cur in k.procs && k.procs[k.cur].state == Running && p != k.cur && due == t + delay && delay != 0
    requires r == DoStart(k, p, delay, t) && Startable(k, p, delay) && NormalPart(k) && !k.procs[p].Periodic()
    ensures SleepOn(k, r, Some(p)) && FallsAsleep(k, r, p, due, Reason.DelayedStarted)
  {
    StartLaterIs(k, p, delay, t, due, r);
    assert Event(k.nextEvent, due, TimerQueue.DelayedStart(p)) in r.queue;
    SleepChanged(k, r, p, k.procs[p].(state := Waiting, reason := Reason.DelayedStarted, timer := Some(k.nextEvent),
                                              pri := k.procs[p].basePri, giving := Not, pc := User));
  }

  lemma ResumeSleep(k: Kernel, p: Pid, r: Kernel)
    requires Calling(k) && r == DoResume(k, p)
    ensures SleepOn(k, r, Some(p))
    ensures if Resumable(k, p) then r.procs[p].state == Ready else SleepOn(k, r, None)
  {
    if Resumable(k, p) {
      assert ProcOk(k, p);
      ResumeIs(k, p, r);
      SleepChanged(k, r, p, k.procs[p].(state := Ready, timer := None));
    } else {
      ResumeNot(k, p, r);
      SleepSame(k, r);
    }
  }

  lemma StopSleep(k: Kernel, p: Pid, r: Kernel)
    requires Calling(k) && r == DoStop(k, p)
    ensures SleepOn(k, r, Some(p))
    ensures if Alive(k, p) then r.procs[p].state == Dormant else SleepOn(k, r, None)
  {
    if Alive(k, p) {
      StopIs(k, p, r);
      SleepChanged(k, r, p, k.procs[p].(state := Dormant, timer := None));
    } else {
      StopNot(k, p, r);
      SleepSame(k, r);
    }
  }

  lemma SuspendSleep(k: Kernel, p: Pid, r: Kernel)
    requires Calling(k) && r == DoSuspend(k, p)
    ensures SleepOn(k, r, None)
  {
    if Suspendable(k, p) {
      assert ProcOk(k, p);
      SuspendIs(k, p, r);
      SleepChanged(k, r, p, k.procs[p].(state := Waiting, reason := Suspended));
    } else {
      SuspendNot(k, p, r);
      SleepSame(k, r);
    }
  }

  lemma SetPrioritySleep(k: Kernel, p: Pid, pri: nat, r: Kernel)
    requires Calling(k) && r == DoSetPriority(k, p, pri)
    ensures SleepOn(k, r, None)
  {
    if Alive(k, p) {
      SetPriorityIs(k, p, pri, r);
      SleepChanged(k, r, p, k.procs[p].(pri := pri));
    } else {
      SetPriorityNot(k, p, pri, r);
      SleepSame(k, r);
    }
  }

  lemma StopSelfSleep(k: Kernel, r: Kernel)
    requires Calling(k) && r == Syscall(k, StopSelf, 0, 0, 0)
    ensures SleepOn(k, r, None)
  {
    assert ProcOk(k, k.cur);
    StopSelfIs(k, r);
  }

  lemma ModeSleep(k: Kernel, op: OpMode, r: Kernel)
    requires Calling(k) && r == DoSetMode(k, op)
    ensures SleepOn(k, r, None)
  {
    assert ProcOk(k, k.cur);
    if !Settable(k, op) {
      SetModeNot(k, op, r);
    } else if op == Normal {
      SetNormalIs(k, r);
      forall p | p in k.procs ensures KeepsSleep(k.procs[p], r.procs[p]) { assert ProcOk(k, p); }
    } else {
      SetOtherModeIs(k, op, r);
    }
  }

  // ----- every step -----

  /** What a step does to the sleep of p: it falls asleep as the alarm says, or is taken out of its sleep, or sleeps on. */
  ghost predicate Slept(k: Kernel, r: Kernel, p: Pid, alarm: Option<Alarm>, out: bool) {
    && p in k.procs && p in r.procs && OneNew(k, r)
    && (if alarm.Some? then FallsAsleep(k, r, p, alarm.value.due, alarm.value.reason)
        else if out then !Sleeps(r.procs[p])
        else KeepsSleep(k.procs[p], r.procs[p]))
  }

  lemma SleptOn(k: Kernel, r: Kernel, p: Pid)
    requires SleepOn(k, r, None) && p in k.procs
    ensures Slept(k, r, p, None, false)
  {
  }

  lemma SleptBut(k: Kernel, r: Kernel, x: Pid, p: Pid)
    requires SleepOn(k, r, Some(x)) && p in k.procs && p != x
    ensures Slept(k, r, p, None, false)
  {
  }

  lemma WaitSlept(k: Kernel, delay: int, t: int, due: int, r: Kernel, p: Pid, a: Option<Alarm>)
    requires Calling(k) && r == DoWait(k, delay, t) && p in k.procs && due == t + delay
    requires a == if p == k.cur && delay != 0 && delay != INFINITE then Some(Alarm(due, TimedWait)) else None
    ensures Slept(k, r, p, a, false)
  {
    WaitSleep(k, delay, t, due, r);
    if p != k.cur { SleptBut(k, r, k.cur, p); } else if a.None? { SleptOn(k, r, p); }
  }

  lemma SuspendSelfSlept(k: Kernel, timeout: int, t: int, due: int, r: Kernel, p: Pid, a: Option<Alarm>)
    requires Calling(k) && r == DoSuspendSelf(k, timeout, t) && p in k.procs && due == t + timeout
    requires a == if p == k.cur && !k.procs[p].Periodic() && timeout != 0 && timeout < INFINITE then Some(Alarm(due, SuspendedTimed)) else None
    ensures Slept(k, r, p, a, false)
  {
    SuspendSelfSleep(k, timeout, t, due, r);
    if p != k.cur { SleptBut(k, r, k.cur, p); } else if a.None? { SleptOn(k, r, p); }
  }

  lemma StartSlept(k: Kernel, q: Pid, delay: int, t: int, due: int, r: Kernel, p: Pid, a: Option<Alarm>)
    requires Calling(k) && r == DoStart(k, q, delay, t) && p in k.procs && due == t + delay
    requires a == if p == q && SetBy(k, Start(q, delay), t, q).Some? then Some(Alarm(due, Reason.DelayedStarted)) else None
    ensures Slept(k, r, p, a, false)
  {
    StartSleep(k, q, delay, t, due, r);
    if p != q { SleptBut(k, r, q, p); } else if a.None? { SleptOn(k, r, p); }
  }

  lemma WaitCallSlept(k: Kernel, delay: int, t: int, r: Kernel, p: Pid)
    requires Calling(k) && r == DoWait(k, delay, t) && p in k.procs
    ensures Slept(k, r, p, SetBy(k, Wait(delay), t, p), false)
  {
    var due := t + delay;
    WaitSlept(k, delay, t, due, r, p, SetBy(k, Wait(delay), t, p));
  }

  lemma SuspendCallSlept(k: Kernel, timeout: int, t: int, r: Kernel, p: Pid)
    requires Calling(k) && r == DoSuspendSelf(k, timeout, t) && p in k.procs
    ensures Slept(k, r, p, SetBy(k, SuspendSelf(timeout), t, p), false)
  {
    var due := t + timeout;
    SuspendSelfSlept(k, timeout, t, due, r, p, SetBy(k, SuspendSelf(timeout), t, p));
  }

  lemma StartCallSlept(k: Kernel, q: Pid, delay: int, t: int, r: Kernel, p: Pid)
    requires Calling(k) && r == DoStart(k, q, delay, t) && p in k.procs
    ensures Slept(k, r, p, SetBy(k, Start(q, delay), t, p), false)
  {
    var due := t + delay;
    StartSlept(k, q, delay, t, due, r, p, SetBy(k, Start(q, delay), t, p));
  }

  lemma OwnSlept(k: Kernel, c: Call, t0: int, t1: int, t2: int, r: Kernel, p: Pid)
    requires Calling(k) && (c.Wait? || c.SuspendSelf? || c.Start?) && r == Syscall(k, c, t0, t1, t2) && p in k.procs
    ensures Slept(k, r, p, SetBy(k, c, t0, p), false)
  {
    match c
    case Wait(delay) => WaitCallSlept(k, delay, t0, r, p);
    case SuspendSelf(timeout) => SuspendCallSlept(k, timeout, t0, r, p);
    case Start(q, delay) => StartCallSlept(k, q, delay, t0, r, p);
  }

  lemma ResumeSlept(k: Kernel, q: Pid, r: Kernel, p: Pid)
    requires Calling(k) && r == DoResume(k, q) && p in k.procs
    ensures Slept(k, r, p, None, TakesOut(k, ResumeProc(q), p))
  {
    ResumeSleep(k, q, r);
    if p != q { SleptBut(k, r, q, p); }
  }

  lemma StopSlept(k: Kernel, q: Pid, r: Kernel, p: Pid)
    requires Calling(k) && r == DoStop(k, q) && p in k.procs
    ensures Slept(k, r, p, None, TakesOut(k, Stop(q), p))
  {
    StopSleep(k, q, r);
    if p != q { SleptBut(k, r, q, p); }
  }

  lemma OthersSlept(k: Kernel, c: Call, t0: int, t1: int, t2: int, r: Kernel, p: Pid)
    requires Calling(k) && !Communicates(c) && !(c.Wait? || c.SuspendSelf? || c.Start?) && r == Syscall(k, c, t0, t1, t2) && p in k.procs
    ensures Slept(k, r, p, None, TakesOut(k, c, p))
  {
    match c
    case Suspend(q) => SuspendSleep(k, q, r);
    case ResumeProc(q) => ResumeSlept(k, q, r, p);
    case StopSelf => StopSelfSleep(k, r);
    case Stop(q) => StopSlept(k, q, r, p);
    case SetPriority(q, pri) => SetPrioritySleep(k, q, pri, r);
    case SetMode(op) => ModeSleep(k, op, r);
  }

  lemma NoAlarm(k: Kernel, c: Call, t: int, p: Pid)
    ensures !(c.Wait? || c.SuspendSelf? || c.Start?) ==> SetBy(k, c, t, p) == None
    ensures !(c.Stop? || c.ResumeProc?) ==> !TakesOut(k, c, p)
  {
  }

  lemma TalkSlept(k: Kernel, s: Step, r: Kernel, p: Pid)
    requires Good(k) && Enabled(k, s) && s.Enter? && Communicates(s.call) && r == Next(k, s) && p in k.procs
    ensures Slept(k, r, p, None, false)
  {
    var a := Attempts(k, s);
    if a.Some? {
      AttemptSleep(k, s, a.value, Deadline(k, s, a.value), r);
    } else {
      TalkSleep(k, s.call, s.t0, s.t1, s.t2, r);
    }
    SleptOn(k, r, p);
  }

  lemma EnterSlept(k: Kernel, s: Step, r: Kernel, p: Pid)
    requires Good(k) && Enabled(k, s) && s.Enter? && r == Next(k, s) && p in k.procs
    ensures Slept(k, r, p, SetBy(k, s.call, s.t0, p), TakesOut(k, s.call, p))
  {
    NoAlarm(k, s.call, s.t0, p);
    if Communicates(s.call) {
      TalkSlept(k, s, r, p);
    } else if s.call.Wait? || s.call.SuspendSelf? || s.call.Start? {
      OwnSlept(k, s.call, s.t0, s.t1, s.t2, r, p);
    } else {
      OthersSlept(k, s.call, s.t0, s.t1, s.t2, r, p);
    }
  }

  lemma TickQueue(k: Kernel, t: int, nextPart: Part, nextTime: int, r: Kernel)
    requires r == Tick(k, t, nextPart, nextTime)
    ensures OneNew(k, r)
  {
    var m := FireDue(k, t);
    FireDueQueue(k, t);
    TickBegins(k, t, nextPart, nextTime, m, r);
    InsertMembers(m.queue, Event(m.nextEvent, nextTime, PartitionActivate));
  }

  lemma TickSlept(k: Kernel, s: Step, r: Kernel, p: Pid)
    requires Good(k) && s.Interrupt? && r == Next(k, s) && p in k.procs
    ensures Slept(k, r, p, None, DueFor(k, s.t, p))
  {
    TickExactly(k, s.t, s.nextPart, s.nextTime, r);
    TickQueue(k, s.t, s.nextPart, s.nextTime, r);
  }

  lemma ScheduledSlept(k: Kernel, r: Kernel, p: Pid)
    requires OnlyScheduling(k, r) && p in k.procs
    requires r.procs[p].state == k.procs[p].state || (!Sleeps(k.procs[p]) && !Sleeps(r.procs[p]))
    ensures Slept(k, r, p, None, false)
  {
  }

  lemma ElectionSlept(k: Kernel, s: Step, r: Kernel, p: Pid)
    requires Good(k) && Enabled(k, s) && Fitting(k, s) && (s.Scan? || s.GiveUp? || s.Dispatch?) && r == Next(k, s) && p in k.procs
    ensures Slept(k, r, p, None, false)
  {
    match s
    case Scan => ScanIs(k, r); ScheduledSlept(k, r, p);
    case GiveUp => GiveUpIs(k, r); ScheduledSlept(k, r, p);
    case Dispatch => DispatchIs(k, r); ScheduledSlept(k, r, p);
  }

  /** The alarm a step sets for p, and whether it takes p out of its sleep otherwise. */
  function SetAt(k: Kernel, s: Step, p: Pid): Option<Alarm> {
    if s.Enter? then SetBy(k, s.call, s.t0, p) else None
  }

  ghost predicate OutAt(k: Kernel, s: Step, p: Pid) {
    (s.Enter? && TakesOut(k, s.call, p)) || (s.Interrupt? && DueFor(k, s.t, p))
  }

  lemma StepSlept(k: Kernel, s: Step, r: Kernel, p: Pid)
    requires Good(k) && Enabled(k, s) && Fitting(k, s) && r == Next(k, s) && p in k.procs
    ensures Slept(k, r, p, SetAt(k, s, p), OutAt(k, s, p))
  {
    match s
    case Enter(_, _, _, _) => EnterSlept(k, s, r, p);
    case Continue(_, _, _) => ContinueSleep(k, s, r); SleptOn(k, r, p);
    case Interrupt(_, _, _) => TickSlept(k, s, r, p);
    case _ => ElectionSlept(k, s, r, p);
  }

  // ----- over runs -----

  /** The alarm of p by the history alone: the one that was set last, until an interrupt at its time or later, or a call
      that takes p out of its sleep. */
  ghost function AlarmOf(k: Kernel, steps: seq<Step>, p: Pid): Option<Alarm>
    requires Runs(k, steps)
    decreases |steps|
  {
    if steps == [] then None
    else
      var before, s := steps[..|steps| - 1], steps[|steps| - 1];
      var m, a := Final(k, before), AlarmOf(k, before, p);
      if SetAt(m, s, p).Some? then SetAt(m, s, p)
      else if s.Enter? && TakesOut(m, s.call, p) then None
      else if s.Interrupt? && a.Some? && a.value.due <= s.t then None
      else a
  }

  /** The one event of p is due then. */
  ghost predicate DueThen(r: Kernel, p: Pid, due: int) {
    exists e :: e in r.queue && Target(r, e.what) == Some(p) && e.time == due
             && forall f :: f in r.queue && Target(r, f.what) == Some(p) ==> f == e
  }

  /** p sleeps if and only if its alarm is set, for the reason of the alarm, with one event due at its time. */
  ghost predicate Alarmed(r: Kernel, p: Pid, a: Option<Alarm>) {
    && p in r.procs && (Sleeps(r.procs[p]) <==> a.Some?)
    && (a.Some? ==> r.procs[p].reason == a.value.reason && DueThen(r, p, a.value.due)
                    && (a.value.reason == SuspendedTimed ==> r.procs[p].pc == SuspendCheck(a.value.due)))
  }

  /** Of the events of a process there is only the one it points at. */
  lemma OwnEvent(r: Kernel, p: Pid, e: Event)
    requires Inv(r) && p in r.procs && e in r.queue && r.procs[p].timer == Some(e.id)
    ensures DueThen(r, p, e.time) && Target(r, e.what) == Some(p)
  {
    assert ProcOk(r, p);
    var f :| f in r.queue && f.id == e.id && Target(r, f.what) == Some(p);
    SameId(r.queue, r.nextEvent, e, f);
    forall g | g in r.queue && Target(r, g.what) == Some(p) ensures g == e {
      assert EventOk(r, g);
      SameId(r.queue, r.nextEvent, e, g);
    }
  }

  lemma AsleepNow(k: Kernel, r: Kernel, p: Pid, a: Alarm)
    requires Inv(r) && FallsAsleep(k, r, p, a.due, a.reason)
    ensures Alarmed(r, p, Some(a))
  {
    var e :| e in r.queue && e.id == k.nextEvent && e.time == a.due;
    OwnEvent(r, p, e);
  }

  /** Whoever sleeps on has the same event. */
  lemma AsleepStill(k: Kernel, r: Kernel, p: Pid, a: Alarm)
    requires Inv(k) && Inv(r) && OneNew(k, r) && p in r.procs && Alarmed(k, p, Some(a)) && SameSleep(k.procs[p], r.procs[p])
    ensures Alarmed(r, p, Some(a))
  {
    assert ProcOk(k, p) && ProcOk(r, p);
    var e :| e in k.queue && e.id == k.procs[p].timer.value && Target(k, e.what) == Some(p);
    var f :| f in r.queue && f.id == e.id && Target(r, f.what) == Some(p);
    QueueSorted(k.queue, k.nextEvent);
    SameId(k.queue, k.nextEvent, e, f);
    OwnEvent(r, p, f);
  }

  lemma DueExactly(k: Kernel, p: Pid, a: Alarm, t: int)
    requires Alarmed(k, p, Some(a))
    ensures DueFor(k, t, p) <==> a.due <= t
  {
    var e :| e in k.queue && Target(k, e.what) == Some(p) && e.time == a.due
             && forall f :: f in k.queue && Target(k, f.what) == Some(p) ==> f == e;
  }

  lemma StepAlarmed(k: Kernel, s: Step, r: Kernel, p: Pid, a: Option<Alarm>, b: Option<Alarm>)
    requires Good(k) && Enabled(k, s) && Fitting(k, s) && r == Next(k, s) && Good(r) && Alarmed(k, p, a)
    requires b == if SetAt(k, s, p).Some? then SetAt(k, s, p)
                  else if s.Enter? && TakesOut(k, s.call, p) then None
                  else if s.Interrupt? && a.Some? && a.value.due <= s.t then None
                  else a
    ensures Alarmed(r, p, b)
  {
    StepSlept(k, s, r, p);
    if a.Some? && s.Interrupt? { DueExactly(k, p, a.value, s.t); }
    if SetAt(k, s, p).Some? {
      AsleepNow(k, r, p, b.value);
    } else if a.Some? && !OutAt(k, s, p) {
      AsleepStill(k, r, p, a.value);
    }
  }

  /** Over every fitting run: a process is asleep in TIMED_WAIT, in a suspension with a timeout or before a delayed start
      exactly if its alarm is set and has not come, by the clock readings of the calls and of the interrupts alone; its
      one event is due at that time, and a suspended process will compare the clock with it. */
  lemma {:induction false} AlarmExactly(k: Kernel, steps: seq<Step>, p: Pid)
    requires Boot(k) && Runs(k, steps) && AlwaysFitting(k, steps) && p in k.procs
    ensures Alarmed(Final(k, steps), p, AlarmOf(k, steps, p))
    decreases |steps|
  {
    RunSound(k, steps);
    if steps == [] {
      NobodyAsleep(k, p);
    } else {
      var before := steps[..|steps| - 1];
      RunSound(k, before);
      AlarmExactly(k, before, p);
      StepAlarmed(Final(k, before), steps[|steps| - 1], Final(k, steps), p, AlarmOf(k, before, p), AlarmOf(k, steps, p));
    }
  }

  lemma NobodyAsleep(k: Kernel, p: Pid)
    requires Boot(k) && p in k.procs
    ensures Alarmed(k, p, None)
  {
    var c :| Configured(c) && k == Launched(c);
    assert FreshProc(c.procs[p]);
  }

  /** An interrupt leaves a process asleep exactly if it comes before the time of its alarm; otherwise the process is
      READY behind it. */
  lemma WakesInTime(k: Kernel, steps: seq<Step>, s: Step, p: Pid)
    requires Boot(k) && Runs(k, steps) && AlwaysFitting(k, steps) && p in k.procs && s.Interrupt? && AlarmOf(k, steps, p).Some?
    ensures var m, a := Final(k, steps), AlarmOf(k, steps, p).value;
            var r := Next(m, s);
            && p in m.procs && p in r.procs
            && (if s.t < a.due then r.procs[p] == m.procs[p] else r.procs[p] == m.procs[p].(state := Ready, timer := None))
  {
    var m, a := Final(k, steps), AlarmOf(k, steps, p).value;
    RunSound(k, steps);
    AlarmExactly(k, steps, p);
    DueExactly(m, p, a, s.t);
    TickExactly(m, s.t, s.nextPart, s.nextTime, Next(m, s));
  }
}
