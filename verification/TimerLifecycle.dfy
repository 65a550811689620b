/** Every timer is released exactly once, by its owner or by its callback; a timer
    given back before its procedure has started is never called; a weak pointer that
    has been released reaches no procedure; and unloading the module drains it all. */
module TimerLifecycle {
  import opened Common
  import opened TimerModel

  predicate WorkerOn(w: Worker, t: Tid) {
    w != Free && w.t == t
  }

  /** Somebody will still handle the timer: the kernel, the queue, the worker, or the
      loop that drains timers at module exit. */
  predicate Busy(s: State, t: Tid)
    requires t in s.timers
  {
    var x := s.timers[t];
    x.kernel != Idle || x.queued || WorkerOn(s.worker, t) || s.phase == Draining(Some(t))
  }

  ghost predicate OnePlace(s: State, t: Tid)
    requires t in s.timers
  {
    var x := s.timers[t];
    && (x.kernel == Pending || x.kernel == Firing ==>
          x.created && !x.queued && !WorkerOn(s.worker, t) && s.phase != Draining(Some(t)))
    && (x.kernel == Finishing ==> x.created && (x.queued || s.worker == Popped(t) || s.worker == Unlisted(t)))
    && (x.queued ==> !WorkerOn(s.worker, t) && s.phase != Draining(Some(t)))
    && (WorkerOn(s.worker, t) ==> s.phase != Draining(Some(t)))
    && x.links ==
         (if x.kernel == Pending || x.kernel == Firing || x.queued || s.worker == Popped(t) then 1 else 0)
  }

  ghost predicate FlagsOk(s: State, t: Tid)
    requires t in s.timers
  {
    var x := s.timers[t];
    var busy := Busy(s, t);
    && x.calls == (if s.worker == InProc(t) || x.complete then 1 else 0)
    && (busy ==> !x.complete && x.frees == 0)
    && (x.target.Some? ==> !x.ownerFreed && (x.dropped <==> !busy || s.worker == InProc(t)) && (busy ==> !x.cancel))
    && (x.target == None ==> !x.dropped && (busy ==> x.cancel == x.ownerFreed))
    && (!busy ==> x.frees == (if x.target.Some? || x.ownerFreed then 1 else 0))
    && (!busy && x.target == None && !x.complete ==> x.ownerFreed)
  }

  ghost predicate TimerOk(s: State, t: Tid)
    requires t in s.timers
  {
    OnePlace(s, t) && FlagsOk(s, t)
  }

  /** The timers that hold a reference on a weak pointer. */
  function Users(timers: map<Tid, Timer>, r: Rid): set<Tid> {
    set t | t in timers && timers[t].target == Some(r) && !timers[t].dropped
  }

  ghost predicate RefOk(s: State, r: Rid)
    requires r in s.refs
  {
    var x := s.refs[r];
    && x.count == (if x.held then 1 else 0) + |Users(s.timers, r)|
    && (x.ptr.Some? <==> x.held)
    && x.frees == (if x.count == 0 then 1 else 0)
  }

  ghost predicate PhaseOk(s: State) {
    && (!s.phase.Normal? ==> AllReleased(s))
    && (s.phase.Draining? && s.phase.unlinked.Some? ==> s.phase.unlinked.value in s.timers)
    && (s.worker != Free ==> s.worker.t in s.timers)
    && (s.phase.Drained? || s.phase.Stopped? ==> forall t :: t in s.timers ==>
          s.timers[t].kernel == Idle || (s.timers[t].kernel == Finishing && s.worker == Unlisted(t)))
    && (s.phase.Stopped? ==> s.worker == Free && forall t :: t in s.timers ==> !s.timers[t].queued)
    && (!s.phase.Normal? ==> !s.worker.InProc?)
  }

  ghost predicate TimersOk(s: State) {
    && (forall t :: t in s.timers ==> TimerOk(s, t))
    && (forall t :: t in s.timers && s.timers[t].target.Some? ==> s.timers[t].target.value in s.refs)
    && (forall r :: r in s.refs ==> RefOk(s, r))
    && PhaseOk(s)
  }

  lemma InitialOk()
    ensures TimersOk(INITIAL)
  {
  }

  // ---- The timer a step is about

  predicate Fires(step: Step) {
    step.Fire? || step.FireQueue? || step.FireEnd? || step.Take? || step.Unlist? || step.Sync?
  }

  lemma FiringPlace(s: State, step: Step)
    requires TimersOk(s) && Enabled(s, step) && Fires(step)
    ensures OnePlace(Next(s, step), step.t)
  {
    assert TimerOk(s, step.t);
  }

  lemma CallPlace(s: State, step: Step)
    requires TimersOk(s) && Enabled(s, step) && (step.FreeTimer? || step.Enter? || step.ProcReturn?)
    ensures OnePlace(Next(s, step), step.t)
  {
    assert TimerOk(s, step.t);
  }

  lemma DrainPlace(s: State, step: Step)
    requires TimersOk(s) && Enabled(s, step) && (step.DrainUnlink? || step.DrainFree?)
    ensures OnePlace(Next(s, step), step.t)
  {
    assert TimerOk(s, step.t);
  }

  lemma AboutPlace(s: State, step: Step)
    requires TimersOk(s) && Enabled(s, step) && AboutTimer(step)
    ensures OnePlace(Next(s, step), step.t)
  {
    if Fires(step) {
      FiringPlace(s, step);
    } else if step.DrainUnlink? || step.DrainFree? {
      DrainPlace(s, step);
    } else {
      CallPlace(s, step);
    }
  }

  lemma FiringFlags(s: State, step: Step)
    requires TimersOk(s) && Enabled(s, step) && Fires(step)
    ensures FlagsOk(Next(s, step), step.t)
  {
    assert TimerOk(s, step.t);
  }

  lemma OwnerFlags(s: State, t: Tid)
    requires TimersOk(s) && Enabled(s, FreeTimer(t))
    ensures FlagsOk(Next(s, FreeTimer(t)), t)
  {
    assert TimerOk(s, t);
  }

  lemma EnterFlags(s: State, t: Tid)
    requires TimersOk(s) && Enabled(s, Enter(t))
    ensures FlagsOk(Next(s, Enter(t)), t)
  {
    assert TimerOk(s, t);
    assert s.timers[t].target.Some? ==> RefOk(s, s.timers[t].target.value);
  }

  lemma ReturnFlags(s: State, t: Tid)
    requires TimersOk(s) && Enabled(s, ProcReturn(t))
    ensures FlagsOk(Next(s, ProcReturn(t)), t)
  {
    assert TimerOk(s, t);
  }

  lemma DrainFlags(s: State, step: Step)
    requires TimersOk(s) && Enabled(s, step) && (step.DrainUnlink? || step.DrainFree?)
    ensures FlagsOk(Next(s, step), step.t)
  {
    assert TimerOk(s, step.t);
  }

  lemma AboutFlags(s: State, step: Step)
    requires TimersOk(s) && Enabled(s, step) && AboutTimer(step)
    ensures FlagsOk(Next(s, step), step.t)
  {
    if step.FreeTimer? {
      OwnerFlags(s, step.t);
    } else if step.Enter? {
      EnterFlags(s, step.t);
    } else if step.ProcReturn? {
      ReturnFlags(s, step.t);
    } else if Fires(step) {
      FiringFlags(s, step);
    } else {
      DrainFlags(s, step);
    }
  }

  lemma AboutOk(s: State, step: Step)
    requires TimersOk(s) && Enabled(s, step) && AboutTimer(step)
    ensures TimerOk(Next(s, step), step.t)
  {
    AboutPlace(s, step);
    AboutFlags(s, step);
  }

  /** All other timers are as before. */
  lemma OthersOk(s: State, step: Step, t: Tid)
    requires TimersOk(s) && Enabled(s, step) && t in s.timers
    requires AboutTimer(step) ==> step.t != t
    ensures t in Next(s, step).timers && Next(s, step).timers[t] == s.timers[t]
    ensures TimerOk(Next(s, step), t)
  {
    assert TimerOk(s, t);
  }

  lemma NewOk(s: State, t: Tid, target: Option<Rid>, atOnce: bool)
    requires TimersOk(s) && Enabled(s, AllocTimer(t, target, atOnce))
    ensures TimerOk(Next(s, AllocTimer(t, target, atOnce)), t)
  {
  }

  // ---- Weak pointers

  predicate Drops(s: State, step: Step)
    requires Enabled(s, step)
  {
    (step.Enter? || step.DrainFree?) && s.timers[step.t].target.Some?
  }

  lemma KeepsTarget(s: State, step: Step)
    requires Enabled(s, step) && AboutTimer(step)
    ensures var x, y := s.timers[step.t], Updated(s, s.timers[step.t], step);
      && y.target == x.target
      && (y.dropped == x.dropped || ((step.Enter? || step.DrainFree?) && y.dropped == x.target.Some?))
  {
    match step
    case FreeTimer(_) =>
    case Enter(_) =>
    case ProcReturn(_) =>
    case _ =>
  }

  lemma UsersUpdate(timers: map<Tid, Timer>, t: Tid, y: Timer, r: Rid)
    ensures Users(timers[t := y], r) ==
      if y.target == Some(r) && !y.dropped then Users(timers, r) + {t} else Users(timers, r) - {t}
  {
  }

  /** Users of a pointer come with a new timer and go when a timer drops its reference. */
  lemma UsersFollow(s: State, step: Step, r: Rid)
    requires Enabled(s, step)
    ensures Users(NextTimers(s, step), r) ==
      if step.AllocTimer? && step.target == Some(r) then Users(s.timers, r) + {step.t}
      else if Drops(s, step) && s.timers[step.t].target == Some(r) then Users(s.timers, r) - {step.t}
      else Users(s.timers, r)
  {
    if AboutTimer(step) {
      KeepsTarget(s, step);
      UsersUpdate(s.timers, step.t, Updated(s, s.timers[step.t], step), r);
    } else if step.AllocTimer? {
      UsersUpdate(s.timers, step.t, NextTimers(s, step)[step.t], r);
    }
  }

  lemma RefFrame(s: State, step: Step, r: Rid)
    requires Enabled(s, step) && !step.AllocRef? && !step.FreeRef? && r in s.refs
    requires step.AllocTimer? ==> step.target != Some(r)
    requires Drops(s, step) ==> s.timers[step.t].target != Some(r)
    ensures r in NextRefs(s, step) && NextRefs(s, step)[r] == s.refs[r]
  {
  }

  /** The count moves with the set of users, and the owner's reference with `held`. */
  lemma CountFollows(x: RefPtr, held: bool, before: set<Tid>, after: set<Tid>)
    requires x.count == (if x.held then 1 else 0) + |before| && x.frees == (if x.count == 0 then 1 else 0)
    ensures x.held && !held && after == before ==>
      x.count - 1 == |after| && x.frees + (if x.count == 1 then 1 else 0) == (if x.count - 1 == 0 then 1 else 0)
    ensures forall t :: t in before && after == before - {t} ==>
      && x.count - 1 == (if x.held then 1 else 0) + |after|
      && x.frees + (if x.count == 1 then 1 else 0) == (if x.count - 1 == 0 then 1 else 0)
  {
    forall t | t in before && after == before - {t} ensures |after| == |before| - 1 {
    }
  }

  lemma DropRef(s: State, step: Step, r: Rid)
    requires TimersOk(s) && Enabled(s, step) && Drops(s, step) && s.timers[step.t].target == Some(r)
    ensures r in NextRefs(s, step) && RefOk(Next(s, step), r)
  {
    assert TimerOk(s, step.t) && RefOk(s, r) && step.t in Users(s.timers, r);
    UsersFollow(s, step, r);
    CountFollows(s.refs[r], true, Users(s.timers, r), Users(s.timers, r) - {step.t});
  }

  lemma OwnerRef(s: State, step: Step)
    requires TimersOk(s) && Enabled(s, step) && (step.AllocRef? || step.FreeRef?)
    ensures RefOk(Next(s, step), step.r)
  {
    UsersFollow(s, step, step.r);
    if step.AllocRef? {
      assert Users(s.timers, step.r) == {};
    } else {
      assert RefOk(s, step.r);
      CountFollows(s.refs[step.r], false, Users(s.timers, step.r), Users(s.timers, step.r));
    }
  }

  lemma TakeRef(s: State, step: Step, r: Rid)
    requires TimersOk(s) && Enabled(s, step) && step.AllocTimer? && step.target == Some(r)
    ensures RefOk(Next(s, step), r)
  {
    assert RefOk(s, r);
    UsersFollow(s, step, r);
  }

  lemma StepRef(s: State, step: Step, r: Rid)
    requires TimersOk(s) && Enabled(s, step) && r in NextRefs(s, step)
    ensures RefOk(Next(s, step), r)
  {
    if (step.AllocRef? || step.FreeRef?) && step.r == r {
      OwnerRef(s, step);
    } else if step.AllocTimer? && step.target == Some(r) {
      TakeRef(s, step, r);
    } else if Drops(s, step) && s.timers[step.t].target == Some(r) {
      DropRef(s, step, r);
    } else {
      UsersFollow(s, step, r);
      if !step.AllocRef? && !step.FreeRef? && r in s.refs { RefFrame(s, step, r); }
      assert r in s.refs && RefOk(s, r);
    }
  }

  // ---- Phases

  lemma FiringPhase(s: State, step: Step)
    requires TimersOk(s) && Enabled(s, step) && Fires(step)
    ensures PhaseOk(Next(s, step))
  {
    assert TimerOk(s, step.t);
  }

  lemma CallPhase(s: State, step: Step)
    requires TimersOk(s) && Enabled(s, step) && (step.FreeTimer? || step.Enter? || step.ProcReturn?)
    ensures PhaseOk(Next(s, step))
  {
    assert TimerOk(s, step.t);
  }

  lemma DrainPhase(s: State, step: Step)
    requires TimersOk(s) && Enabled(s, step) && (step.DrainUnlink? || step.DrainFree?)
    ensures PhaseOk(Next(s, step))
  {
    assert TimerOk(s, step.t);
  }

  lemma OtherPhase(s: State, step: Step)
    requires TimersOk(s) && Enabled(s, step) && !AboutTimer(step)
    ensures PhaseOk(Next(s, step))
  {
    forall t | t in s.timers ensures TimerOk(s, t) {
    }
  }

  lemma StepPhase(s: State, step: Step)
    requires TimersOk(s) && Enabled(s, step)
    ensures PhaseOk(Next(s, step))
  {
    if Fires(step) {
      FiringPhase(s, step);
    } else if step.DrainUnlink? || step.DrainFree? {
      DrainPhase(s, step);
    } else if AboutTimer(step) {
      CallPhase(s, step);
    } else {
      OtherPhase(s, step);
    }
  }

  lemma StepOk(s: State, step: Step)
    requires TimersOk(s) && Enabled(s, step)
    ensures TimersOk(Next(s, step))
  {
    var s' := Next(s, step);
    StepPhase(s, step);
    forall t | t in s'.timers ensures TimerOk(s', t) {
      if AboutTimer(step) && step.t == t {
        AboutOk(s, step);
      } else if step.AllocTimer? && step.t == t {
        NewOk(s, step.t, step.target, step.atOnce);
      } else {
        OthersOk(s, step, t);
      }
    }
    forall r | r in s'.refs ensures RefOk(s', r) {
      StepRef(s, step, r);
    }
    forall t | t in s'.timers && s'.timers[t].target.Some? ensures s'.timers[t].target.value in s'.refs {
      if AboutTimer(step) && step.t == t { KeepsTarget(s, step); }
    }
  }

  lemma {:induction false} RunOk(s: State, steps: seq<Step>)
    requires TimersOk(s) && IsRun(s, steps)
    ensures TimersOk(After(s, steps))
    decreases |steps|
  {
    if steps != [] {
      StepOk(s, steps[0]);
      RunOk(Next(s, steps[0]), steps[1..]);
    }
  }
}
