/** The promises of timers and weak pointers over whole runs. */
module TimerTheorems {
  import opened Common
  import opened TimerModel
  import opened TimerLifecycle

  /** A timer is freed exactly once, when nobody has work left with it and, for a
      handle, its owner has given it back: by the callback if it was given back before
      the procedure returned (also by the procedure itself), else by the owner. */
  lemma FreedExactlyOnce(steps: seq<Step>, t: Tid)
    requires IsRun(INITIAL, steps) && t in After(INITIAL, steps).timers
    ensures var s := After(INITIAL, steps);
      s.timers[t].frees == if !Busy(s, t) && (s.timers[t].target.Some? || s.timers[t].ownerFreed) then 1 else 0
  {
    InitialOk();
    RunOk(INITIAL, steps);
    assert TimerOk(After(INITIAL, steps), t);
  }

  /** No step goes through a timer or a weak pointer that has been freed. */
  lemma NoUseAfterFree(s: State, step: Step)
    requires TimersOk(s) && Enabled(s, step)
    ensures AboutTimer(step) ==> s.timers[step.t].frees == 0
    ensures step.FreeRef? ==> s.refs[step.r].frees == 0
    ensures step.AllocTimer? && step.target.Some? ==> s.refs[step.target.value].frees == 0
    ensures Drops(s, step) ==>
      s.timers[step.t].target.value in s.refs && s.refs[s.timers[step.t].target.value].frees == 0
  {
    if AboutTimer(step) { assert TimerOk(s, step.t); }
    if step.FreeRef? { assert RefOk(s, step.r); }
    if step.AllocTimer? && step.target.Some? { assert RefOk(s, step.target.value); }
    if Drops(s, step) {
      var r := s.timers[step.t].target.value;
      assert RefOk(s, r) && step.t in Users(s.timers, r);
    }
  }

  /** A kernel timer that fires never finds its work queued already, nor the queue stopped. */
  lemma QueuesOnce(steps: seq<Step>, t: Tid)
    requires IsRun(INITIAL, steps) && Enabled(After(INITIAL, steps), FireQueue(t))
    ensures !After(INITIAL, steps).timers[t].queued && !After(INITIAL, steps).phase.Stopped?
  {
    InitialOk();
    RunOk(INITIAL, steps);
    assert TimerOk(After(INITIAL, steps), t);
  }

  // ---- Procedures that must not be called any more

  /** The timer was given back, or its pointer released, before its procedure started. */
  ghost predicate Withdrawn(s: State, t: Tid) {
    && t in s.timers && s.timers[t].calls == 0
    && match s.timers[t].target
       case None => s.timers[t].ownerFreed
       case Some(r) => r in s.refs && !s.refs[r].held
  }

  lemma StaysReleased(s: State, step: Step, r: Rid)
    requires Enabled(s, step) && r in s.refs && !s.refs[r].held
    ensures r in NextRefs(s, step) && !NextRefs(s, step)[r].held
  {
    match step
    case Enter(_) =>
    case DrainFree(_) =>
    case _ =>
  }

  lemma StepWithdrawn(s: State, step: Step, t: Tid)
    requires TimersOk(s) && Enabled(s, step) && Withdrawn(s, t)
    ensures Withdrawn(Next(s, step), t)
  {
    assert TimerOk(s, t);
    if s.timers[t].target.Some? {
      assert RefOk(s, s.timers[t].target.value);
      StaysReleased(s, step, s.timers[t].target.value);
    }
    if AboutTimer(step) && step.t == t {
      KeepsTarget(s, step);
    } else {
      OthersOk(s, step, t);
    }
  }

  /** Once `nvkms_free_timer` has returned for a procedure that has not started, it is
      never called, and once `nvkms_free_ref_ptr` has returned no procedure that has
      not started ever receives the old pointer. */
  lemma {:induction false} NeverCalled(s: State, steps: seq<Step>, t: Tid)
    requires TimersOk(s) && IsRun(s, steps) && Withdrawn(s, t)
    ensures t in After(s, steps).timers && After(s, steps).timers[t].calls == 0
    decreases |steps|
  {
    if steps != [] {
      StepOk(s, steps[0]);
      StepWithdrawn(s, steps[0], t);
      NeverCalled(Next(s, steps[0]), steps[1..], t);
    }
  }

  /** The count of a weak pointer is the owner's reference plus one per timer that has
      yet to look at it, and it is freed exactly when the last of them is gone. */
  lemma CountsReferences(steps: seq<Step>, r: Rid)
    requires IsRun(INITIAL, steps) && r in After(INITIAL, steps).refs
    ensures var s := After(INITIAL, steps);
      && s.refs[r].count == (if s.refs[r].held then 1 else 0) + |Users(s.timers, r)|
      && s.refs[r].frees == (if !s.refs[r].held && Users(s.timers, r) == {} then 1 else 0)
  {
    InitialOk();
    RunOk(INITIAL, steps);
    assert RefOk(After(INITIAL, steps), r);
  }

  // ---- Module exit

  /** When the queue has been stopped no timer is on the list, and every timer and weak
      pointer ever allocated has been freed exactly once. */
  lemma ExitFreesEverything(steps: seq<Step>)
    requires IsRun(INITIAL, steps) && After(INITIAL, steps).phase.Stopped?
    ensures var s := After(INITIAL, steps);
      && (forall t :: t in s.timers ==> s.timers[t].links == 0 && s.timers[t].frees == 1)
      && (forall r :: r in s.refs ==> s.refs[r].count == 0 && s.refs[r].frees == 1)
  {
    InitialOk();
    RunOk(INITIAL, steps);
    var s := After(INITIAL, steps);
    forall t | t in s.timers ensures s.timers[t].links == 0 && s.timers[t].frees == 1 {
      assert TimerOk(s, t);
    }
    forall r | r in s.refs ensures s.refs[r].count == 0 && s.refs[r].frees == 1 {
      assert RefOk(s, r);
      assert Users(s.timers, r) == {} by {
        forall t | t in s.timers ensures t !in Users(s.timers, r) { assert TimerOk(s, t); }
      }
    }
  }

  function TimerWeight(x: Timer): nat {
    (match x.kernel
     case Pending => 8
     case Firing => 7
     case Finishing => 1
     case Idle => 0) +
    (if x.queued then 5 else 0)
  }

  function WorkerWeight(w: Worker): nat {
    match w
    case Free => 0
    case Popped(_) => 4
    case Unlisted(_) => 3
    case Synced(_) => 2
    case InProc(_) => 1
  }

  function PhaseWeight(p: Phase): nat {
    match p
    case Normal => 5
    case Draining(unlinked) => if unlinked.Some? then 4 else 3
    case Drained => 1
    case Stopped => 0
  }

  ghost function Work(s: State): nat {
    Sum(s.timers, TimerWeight) + WorkerWeight(s.worker) + PhaseWeight(s.phase)
  }

  lemma TimerWorks(s: State, step: Step)
    requires TimersOk(s) && Enabled(s, step) && !s.phase.Normal? && AboutTimer(step)
    ensures TimerWeight(Updated(s, s.timers[step.t], step)) + WorkerWeight(NextWorker(s, step))
      + PhaseWeight(NextPhase(s, step))
      < TimerWeight(s.timers[step.t]) + WorkerWeight(s.worker) + PhaseWeight(s.phase)
  {
    assert TimerOk(s, step.t);
  }

  lemma StepWorks(s: State, step: Step)
    requires TimersOk(s) && Enabled(s, step) && !s.phase.Normal?
    ensures Work(Next(s, step)) < Work(s) && !Next(s, step).phase.Normal?
  {
    if AboutTimer(step) {
      TimerWorks(s, step);
      SumUpdate(s.timers, TimerWeight, step.t, Updated(s, s.timers[step.t], step));
    }
  }

  /** Draining the timers and stopping the queue takes boundedly many steps, whatever
      the kernel's timers and the worker do meanwhile. */
  lemma {:induction false} ExitEnds(s: State, steps: seq<Step>)
    requires TimersOk(s) && IsRun(s, steps) && !s.phase.Normal?
    ensures |steps| <= Work(s)
    decreases |steps|
  {
    if steps != [] {
      StepWorks(s, steps[0]);
      StepOk(s, steps[0]);
      ExitEnds(Next(s, steps[0]), steps[1..]);
    }
  }

  /** Until the queue is stopped there is always a next step, so exit ends stopped. */
  lemma ExitNotStuck(s: State) returns (step: Step)
    requires TimersOk(s) && !s.phase.Normal? && !s.phase.Stopped?
    ensures Enabled(s, step)
  {
    if s.worker != Free {
      assert TimerOk(s, s.worker.t);
      match s.worker
      case Popped(t) => return Unlist(t);
      case Unlisted(t) => return if s.timers[t].kernel == Finishing then FireEnd(t) else Sync(t);
      case Synced(t) => return Enter(t);
      case InProc(t) => return ProcReturn(t);
    }
    if t :| t in s.timers && TimerWeight(s.timers[t]) > 0 {
      return if s.timers[t].kernel == Pending then Fire(t)
             else if s.timers[t].kernel == Firing then FireQueue(t)
             else if s.timers[t].kernel == Finishing then FireEnd(t)
             else Take(t);
    }
    match s.phase
    case Draining(None) => return EndDrain;
    case Draining(Some(t)) => return DrainFree(t);
    case Drained => return StopQueue;
  }
}
