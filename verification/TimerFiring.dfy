/** When timers run: one with a delay after its kernel timer has fired, one without as soon as
    the worker is free; each exactly once, with its owner's pointer, unless withdrawn. */
module TimerFiring {
  import opened Common
  import opened TimerModel
  import opened TimerLifecycle
  import opened TimerTheorems

  // ---- Timers with a delay

  predicate Unfired(x: Timer) {
    !x.queued && x.kernel != Firing && x.kernel != Finishing
  }

  lemma TimersElsewhere(s: State, step: Step, t: Tid)
    requires Enabled(s, step) && t in s.timers && !(AboutTimer(step) && step.t == t)
    ensures t in Next(s, step).timers && Next(s, step).timers[t] == s.timers[t]
  {
  }

  lemma StepUnfired(s: State, step: Step, t: Tid)
    requires Enabled(s, step) && t in s.timers && Unfired(s.timers[t]) && step != Fire(t)
    ensures t in Next(s, step).timers && Unfired(Next(s, step).timers[t])
  {
    if AboutTimer(step) && step.t == t {
      UnfiredUpdate(s, s.timers[t], step);
    } else {
      TimersElsewhere(s, step, t);
    }
  }

  lemma UnfiredUpdate(s: State, x: Timer, step: Step)
    requires AboutTimer(step) && Unfired(x) && !step.Fire? && !step.FireQueue?
    ensures Unfired(Updated(s, x, step))
  {
    match step
    case FreeTimer(_) =>
    case Enter(_) =>
    case ProcReturn(_) =>
    case _ =>
  }

  lemma {:induction false} StaysUnfired(s: State, steps: seq<Step>, t: Tid)
    requires IsRun(s, steps) && t in s.timers && Unfired(s.timers[t])
    requires Fire(t) !in steps
    ensures t in After(s, steps).timers && Unfired(After(s, steps).timers[t])
    decreases |steps|
  {
    if steps != [] {
      assert steps[0] in steps && forall step :: step in steps[1..] ==> step in steps;
      StepUnfired(s, steps[0], t);
      StaysUnfired(Next(s, steps[0]), steps[1..], t);
    }
  }

  /** The worker takes a timer with a delay only after its kernel timer has fired. */
  lemma DelayedTimerWaits(s: State, t: Tid, target: Option<Rid>, steps: seq<Step>)
    requires Enabled(s, AllocTimer(t, target, false)) && IsRun(Next(s, AllocTimer(t, target, false)), steps)
    requires Enabled(After(Next(s, AllocTimer(t, target, false)), steps), Take(t))
    ensures Fire(t) in steps
  {
    if Fire(t) !in steps {
      StaysUnfired(Next(s, AllocTimer(t, target, false)), steps, t);
    }
  }

  // ---- Timers without

  predicate Kernelless(x: Timer) {
    !x.created && x.kernel == Idle
  }

  lemma KernellessUpdate(s: State, x: Timer, step: Step)
    requires AboutTimer(step) && Kernelless(x)
    requires !step.Fire? && !step.FireQueue? && !step.FireEnd?
    ensures Kernelless(Updated(s, x, step)) && (!step.Take? ==> Updated(s, x, step).queued == x.queued)
  {
    match step
    case FreeTimer(_) =>
    case Enter(_) =>
    case ProcReturn(_) =>
    case _ =>
  }

  lemma StepKernelless(s: State, step: Step, t: Tid)
    requires Enabled(s, step) && t in s.timers && Kernelless(s.timers[t])
    ensures t in Next(s, step).timers && Kernelless(Next(s, step).timers[t])
    ensures step != Take(t) ==> Next(s, step).timers[t].queued == s.timers[t].queued
  {
    if AboutTimer(step) && step.t == t {
      KernellessUpdate(s, s.timers[t], step);
    } else {
      TimersElsewhere(s, step, t);
    }
  }

  lemma {:induction false} StaysKernelless(s: State, steps: seq<Step>, t: Tid)
    requires IsRun(s, steps) && t in s.timers && Kernelless(s.timers[t])
    ensures t in After(s, steps).timers && Kernelless(After(s, steps).timers[t])
    ensures Take(t) !in steps ==> After(s, steps).timers[t].queued == s.timers[t].queued
    decreases |steps|
  {
    if steps != [] {
      assert steps[0] in steps && forall step :: step in steps[1..] ==> step in steps;
      StepKernelless(s, steps[0], t);
      StaysKernelless(Next(s, steps[0]), steps[1..], t);
    }
  }

  /** A timer without a delay never has a kernel timer, and until it is taken the worker can
      take it whenever it is free. */
  lemma ImmediateTimerReady(s: State, t: Tid, target: Option<Rid>, steps: seq<Step>)
    requires Enabled(s, AllocTimer(t, target, true)) && IsRun(Next(s, AllocTimer(t, target, true)), steps)
    ensures var s' := After(Next(s, AllocTimer(t, target, true)), steps);
      && !Enabled(s', Fire(t)) && !Enabled(s', FireQueue(t))
      && (Take(t) !in steps && s'.worker == Free ==> Enabled(s', Take(t)))
  {
    StaysKernelless(Next(s, AllocTimer(t, target, true)), steps, t);
  }

  // ---- Each is called, once

  /** Nobody has work left with the timer and its procedure was not called: it was withdrawn. */
  ghost predicate CalledOk(s: State, t: Tid)
    requires t in s.timers
  {
    !Busy(s, t) && s.timers[t].calls == 0 ==> Withdrawn(s, t)
  }

  lemma FreshCalled(s: State, t: Tid, target: Option<Rid>, atOnce: bool)
    requires Enabled(s, AllocTimer(t, target, atOnce))
    ensures Busy(Next(s, AllocTimer(t, target, atOnce)), t)
  {
  }

  lemma EnterCalled(s: State, t: Tid)
    requires TimersOk(s) && Enabled(s, Enter(t))
    ensures CalledOk(Next(s, Enter(t)), t)
  {
    assert TimerOk(s, t);
    if s.timers[t].target.Some? {
      assert RefOk(s, s.timers[t].target.value);
    }
  }

  lemma DrainCalled(s: State, t: Tid)
    requires TimersOk(s) && Enabled(s, DrainFree(t))
    ensures CalledOk(Next(s, DrainFree(t)), t)
  {
    assert TimerOk(s, t);
    if s.timers[t].target.Some? {
      StaysReleased(s, DrainFree(t), s.timers[t].target.value);
    }
  }

  /** The other steps of a timer leave somebody with work or are past the call. */
  lemma OwnCalled(s: State, step: Step)
    requires TimersOk(s) && Enabled(s, step) && AboutTimer(step) && CalledOk(s, step.t)
    requires !step.Enter? && !step.DrainFree?
    ensures CalledOk(Next(s, step), step.t)
  {
    assert TimerOk(s, step.t);
    StepOk(s, step);
    assert TimerOk(Next(s, step), step.t);
  }

  lemma OtherCalled(s: State, step: Step, t: Tid)
    requires TimersOk(s) && Enabled(s, step) && t in s.timers && CalledOk(s, t) && !(AboutTimer(step) && step.t == t)
    ensures t in Next(s, step).timers && CalledOk(Next(s, step), t)
  {
    TimersElsewhere(s, step, t);
    assert TimerOk(s, t);
    if s.timers[t].calls == 0 && !Busy(s, t) && s.timers[t].target.Some? {
      StaysReleased(s, step, s.timers[t].target.value);
    }
  }

  ghost predicate AllCalledOk(s: State) {
    forall t :: t in s.timers ==> CalledOk(s, t)
  }

  lemma StepCalled(s: State, step: Step)
    requires TimersOk(s) && AllCalledOk(s) && Enabled(s, step)
    ensures AllCalledOk(Next(s, step))
  {
    forall t | t in Next(s, step).timers ensures CalledOk(Next(s, step), t) {
      if step.AllocTimer? && step.t == t {
        FreshCalled(s, t, step.target, step.atOnce);
      } else if !(AboutTimer(step) && step.t == t) {
        OtherCalled(s, step, t);
      } else if step.Enter? {
        EnterCalled(s, t);
      } else if step.DrainFree? {
        DrainCalled(s, t);
      } else {
        OwnCalled(s, step);
      }
    }
  }

  lemma {:induction false} RunCalled(s: State, steps: seq<Step>)
    requires TimersOk(s) && AllCalledOk(s) && IsRun(s, steps)
    ensures TimersOk(After(s, steps)) && AllCalledOk(After(s, steps))
    decreases |steps|
  {
    if steps != [] {
      StepCalled(s, steps[0]);
      StepOk(s, steps[0]);
      RunCalled(Next(s, steps[0]), steps[1..]);
    }
  }

  /** A procedure is called at most once, and by the time nobody has work left with its timer
      it was called, unless the timer was given back or its pointer released before. */
  lemma CalledUnlessWithdrawn(steps: seq<Step>, t: Tid)
    requires IsRun(INITIAL, steps) && t in After(INITIAL, steps).timers
    ensures var s := After(INITIAL, steps);
      s.timers[t].calls <= 1 && (!Busy(s, t) ==> s.timers[t].calls == 1 || Withdrawn(s, t))
  {
    InitialOk();
    RunCalled(INITIAL, steps);
    var s := After(INITIAL, steps);
    assert TimerOk(s, t) && CalledOk(s, t);
  }

  // ---- With its owner's pointer

  ghost predicate Points(s: State, r: Rid, ptr: nat) {
    r in s.refs && (s.refs[r].ptr == Some(ptr) || s.refs[r].ptr == None)
  }

  lemma StepPoints(s: State, step: Step, r: Rid, ptr: nat)
    requires Enabled(s, step) && Points(s, r, ptr)
    ensures Points(Next(s, step), r, ptr)
  {
    match step
    case AllocTimer(_, _, _) =>
    case Enter(_) =>
    case DrainFree(_) =>
    case _ =>
  }

  lemma {:induction false} RunPoints(s: State, steps: seq<Step>, r: Rid, ptr: nat)
    requires TimersOk(s) && IsRun(s, steps) && Points(s, r, ptr)
    ensures TimersOk(After(s, steps)) && Points(After(s, steps), r, ptr)
    decreases |steps|
  {
    if steps != [] {
      StepOk(s, steps[0]);
      StepPoints(s, steps[0], r, ptr);
      RunPoints(Next(s, steps[0]), steps[1..], r, ptr);
    }
  }

  /** The procedure of a timer with a weak pointer gets the pointer its owner gave, exactly if
      the owner still holds it. */
  lemma GetsItsPointer(s: State, r: Rid, ptr: nat, steps: seq<Step>, t: Tid)
    requires TimersOk(s) && Enabled(s, AllocRef(r, ptr)) && IsRun(Next(s, AllocRef(r, ptr)), steps)
    requires var s' := After(Next(s, AllocRef(r, ptr)), steps);
      Enabled(s', Enter(t)) && s'.timers[t].target == Some(r)
    ensures var s' := After(Next(s, AllocRef(r, ptr)), steps);
      && r in s'.refs && Target(s', s'.timers[t]) == (if s'.refs[r].held then Some(ptr) else None)
      && (Next(s', Enter(t)).worker == InProc(t) <==> s'.refs[r].held)
  {
    StepOk(s, AllocRef(r, ptr));
    RunPoints(Next(s, AllocRef(r, ptr)), steps, r, ptr);
    var s' := After(Next(s, AllocRef(r, ptr)), steps);
    assert RefOk(s', r) && TimerOk(s', t);
  }
}
