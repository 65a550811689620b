/** What a schedule call does for its caller, from the call to its return and to the end of
    the queue. */
module QueueCalls {
  import opened Common
  import opened QueueModel
  import opened QueueInvariants
  import opened QueueTheorems

  /** The item is queued, or has begun to run since `from` items had. */
  ghost predicate Kept(s: State, item: Item, from: nat) {
    from <= |s.ran| && (item in s.q || item in s.ran[from..])
  }

  /** The actor is inside a schedule call for the item. */
  ghost predicate InCall(s: State, a: Aid, item: Item, from: nat) {
    a in s.actors && from <= |s.ran| &&
    match s.actors[a]
    case Entering(i, _) => i == item
    case Linking(i, _) => i == item
    case OwesUp(_) => Kept(s, item, from)
    case Unlocking => Kept(s, item, from)
    case _ => false
  }

  lemma PopKept(s: State, item: Item, from: nat)
    requires Kept(s, item, from) && Enabled(s, Pop) && s.q != []
    ensures Kept(Next(s, Pop), item, from)
  {
    var s' := Next(s, Pop);
    assert s'.ran[from..] == s.ran[from..] + [s.q[0]];
    if item in s.q && item != s.q[0] {
      assert item in s'.q;
    } else if item == s.q[0] {
      assert s'.ran[from..][|s.ran| - from] == item;
    }
  }

  lemma AppendKept(s: State, item: Item, from: nat, s': State)
    requires Kept(s, item, from) && s.q <= s'.q && s'.ran == s.ran
    ensures Kept(s', item, from)
  {
    if item in s.q {
      var i :| 0 <= i < |s.q| && s.q[i] == item;
      assert s'.q[i] == item;
    }
  }

  lemma ActorKeepsQueue(s: State, step: Step)
    requires Enabled(s, step) && !ByWorker(step)
    ensures s.q <= Effect(s, step).q && Effect(s, step).ran == s.ran
  {
    if !Appends(step) { QuietEffect(s, step); }
  }

  lemma StepKept(s: State, step: Step, item: Item, from: nat)
    requires Enabled(s, step) && Kept(s, item, from)
    ensures Kept(Next(s, step), item, from)
  {
    if step.Pop? {
      if s.q != [] { PopKept(s, item, from); }
    } else if !ByWorker(step) {
      ActorKeepsQueue(s, step);
      AppendKept(s, item, from, Next(s, step));
    }
  }

  lemma LinkCall(s: State, a: Aid, item: Item, from: nat)
    requires InCall(s, a, item, from) && Enabled(s, Link(a))
    ensures Kept(Next(s, Link(a)), item, from)
  {
    if item !in s.q {
      assert Effect(s, Link(a)).q[|s.q|] == item;
    }
  }

  lemma OwnStepInCall(s: State, step: Step, item: Item, from: nat)
    requires Enabled(s, step) && !ByWorker(step) && InCall(s, step.a, item, from)
    requires step.ReadExit? ==> !s.shouldExit
    ensures InCall(Next(s, step), step.a, item, from) || Kept(Next(s, step), item, from)
  {
    match s.actors[step.a]
    case Entering(_, _) =>
    case Linking(_, _) => LinkCall(s, step.a, item, from);
    case OwesUp(_) => StepKept(s, step, item, from);
    case Unlocking => StepKept(s, step, item, from);
  }

  lemma StepInCall(s: State, step: Step, a: Aid, item: Item, from: nat)
    requires History(s) && Enabled(s, step) && InCall(s, a, item, from) && (step == ReadExit(a) ==> !s.shouldExit)
    ensures InCall(Next(s, step), a, item, from) || Kept(Next(s, step), item, from)
  {
    if ByWorker(step) || step.a != a {
      OthersStay(s, step, a);
      StepGrows(s, step);
      if Kept(s, item, from) { StepKept(s, step, item, from); }
    } else {
      OwnStepInCall(s, step, item, from);
    }
  }

  // ---- When the exit flag is down

  lemma FlagStaysUp(s: State, step: Step)
    requires Enabled(s, step) && s.shouldExit
    ensures Next(s, step).shouldExit
  {
    if !Stops(step) { StopFrame(s, step); }
  }

  lemma {:induction false} FlagWasDown(s: State, steps: seq<Step>)
    requires IsRun(s, steps) && !After(s, steps).shouldExit
    ensures !s.shouldExit
    decreases |steps|
  {
    if steps != [] {
      FlagWasDown(Next(s, steps[0]), steps[1..]);
      if s.shouldExit { FlagStaysUp(s, steps[0]); }
    }
  }

  /** A workthread that lets an adder in is not being stopped. */
  lemma AdderFindsFlagDown(s: State, a: Aid)
    requires WrapperOk(s) && QueueOk(s) && a in s.actors && s.actors[a].Entering?
    ensures !s.shouldExit
  {
  }

  /** The call has kept its promise or is still under way: in a workthread always, in a plain
      queue if the exit flag is not up by then. */
  lemma {:induction false} RunInCall(s: State, steps: seq<Step>, a: Aid, item: Item, from: nat)
    requires QueueOk(s) && IsRun(s, steps) && (InCall(s, a, item, from) || Kept(s, item, from))
    requires if s.wrapper then WrapperOk(s) else !After(s, steps).shouldExit
    ensures InCall(After(s, steps), a, item, from) || Kept(After(s, steps), item, from)
    decreases |steps|
  {
    if steps != [] {
      if Kept(s, item, from) {
        StepKept(s, steps[0], item, from);
      } else {
        if steps[0] == ReadExit(a) {
          if s.wrapper { AdderFindsFlagDown(s, a); } else { FlagWasDown(s, steps); }
        }
        StepInCall(s, steps[0], a, item, from);
      }
      StepOk(s, steps[0]);
      WrapperFrame(s, steps[0]);
      if s.wrapper {
        StepLock(s, steps[0]);
        StepTail(s, steps[0]);
      }
      RunInCall(Next(s, steps[0]), steps[1..], a, item, from);
    }
  }

  /** When a call to add work to a workthread that is not shutting down has returned, the item
      is queued or has begun to run since the call; and when the workthread is being stopped,
      which shutdown waits for, it has. */
  lemma AddedWorkRuns(before: seq<Step>, a: Aid, item: Item, steps: seq<Step>, b: Aid)
    requires IsRun(Initial(true), before) && Enabled(After(Initial(true), before), CallAddWork(a, item))
    requires !After(Initial(true), before).shuttingDown
    requires IsRun(Next(After(Initial(true), before), CallAddWork(a, item)), steps)
    ensures var s := After(Initial(true), before);
      var s' := After(Next(s, CallAddWork(a, item)), steps);
      && |s.ran| <= |s'.ran|
      && (a !in s'.actors || s'.actors[a] == Unlocking ==> item in s'.q || item in s'.ran[|s.ran|..])
      && (b in s'.actors && IsStopPc(s'.actors[b]) ==> item in s'.ran[|s.ran|..])
  {
    var s := After(Initial(true), before);
    var s1 := Next(s, CallAddWork(a, item));
    InitialOk(true);
    RunWrapper(Initial(true), before);
    AddWorkBegins(s, a, item, s1);
    RunInCall(s1, steps, a, item, |s.ran|);
    RunWrapper(s1, steps);
    CallIsKept(After(s1, steps), a, item, |s.ran|, b);
  }

  lemma AddWorkBegins(s: State, a: Aid, item: Item, s': State)
    requires WrapperOk(s) && QueueOk(s) && Enabled(s, CallAddWork(a, item)) && !s.shuttingDown
    requires s' == Next(s, CallAddWork(a, item))
    ensures WrapperOk(s') && QueueOk(s') && InCall(s', a, item, |s.ran|)
  {
    StepOk(s, CallAddWork(a, item));
    StepLock(s, CallAddWork(a, item));
    StepTail(s, CallAddWork(a, item));
  }

  lemma CallIsKept(s: State, a: Aid, item: Item, from: nat, b: Aid)
    requires WrapperOk(s) && QueueOk(s) && (InCall(s, a, item, from) || Kept(s, item, from))
    ensures from <= |s.ran|
    ensures a !in s.actors || s.actors[a] == Unlocking ==> item in s.q || item in s.ran[from..]
    ensures b in s.actors && IsStopPc(s.actors[b]) ==> item in s.ran[from..]
  {
    StopsDry(s, a, b);
  }

  /** While a workthread is being stopped its list is empty and no adder is inside. */
  lemma StopsDry(s: State, a: Aid, b: Aid)
    requires WrapperOk(s) && QueueOk(s)
    ensures b in s.actors && IsStopPc(s.actors[b]) ==> s.q == []
    ensures b in s.actors && IsStopPc(s.actors[b]) && a in s.actors ==>
      !s.actors[a].Entering? && !s.actors[a].Linking? && !s.actors[a].OwesUp?
  {
    if b in s.actors {
      assert TailOk(s, s.actors[b]);
    }
  }

  /** The same of a call to schedule an item on a plain queue, unless the queue is stopped. */
  lemma ScheduledWorkRuns(before: seq<Step>, a: Aid, item: Item, steps: seq<Step>)
    requires IsRun(Initial(false), before) && Enabled(After(Initial(false), before), CallSchedule(a, item))
    requires IsRun(Next(After(Initial(false), before), CallSchedule(a, item)), steps)
    requires !After(Next(After(Initial(false), before), CallSchedule(a, item)), steps).shouldExit
    ensures var s := After(Initial(false), before);
      var s' := After(Next(s, CallSchedule(a, item)), steps);
      |s.ran| <= |s'.ran| && (a !in s'.actors ==> item in s'.q || item in s'.ran[|s.ran|..])
  {
    var s := After(Initial(false), before);
    InitialOk(false);
    RunOk(Initial(false), before);
    RunPlain(Initial(false), before);
    StepOk(s, CallSchedule(a, item));
    RunInCall(Next(s, CallSchedule(a, item)), steps, a, item, |s.ran|);
  }

  lemma {:induction false} RunPlain(s: State, steps: seq<Step>)
    requires IsRun(s, steps)
    ensures After(s, steps).wrapper == s.wrapper
    decreases |steps|
  {
    if steps != [] {
      WrapperFrame(s, steps[0]);
      RunPlain(Next(s, steps[0]), steps[1..]);
    }
  }

  // ---- Nothing else runs

  /** The items that some steps ask for. */
  function Requested(steps: seq<Step>): set<Item> {
    if steps == [] then {}
    else (if steps[0].CallSchedule? || steps[0].CallAddWork? then {steps[0].item} else {}) + Requested(steps[1..])
  }

  /** All work on the queue and in the hands of its callers was asked for. */
  ghost predicate Known(s: State, items: set<Item>) {
    && (forall i :: 0 <= i < |s.accepted| ==> s.accepted[i] == FlushItem || s.accepted[i] in items)
    && (forall a :: a in s.actors && (s.actors[a].Entering? || s.actors[a].Linking?) ==> s.actors[a].item in items)
  }

  lemma AcceptedKnown(s: State, step: Step, items: set<Item>)
    requires Enabled(s, step) && Known(s, items)
    ensures var s' := Effect(s, step);
      forall i :: 0 <= i < |s'.accepted| ==> s'.accepted[i] == FlushItem || s'.accepted[i] in items
  {
    if !ByWorker(step) && !Appends(step) { QuietEffect(s, step); }
  }

  lemma MoveKnown(s: State, step: Step, items: set<Item>)
    requires Enabled(s, step) && !ByWorker(step) && Known(s, items)
    ensures var m := Moves(s, step);
      m.To? && (m.pc.Entering? || m.pc.Linking?) ==> m.pc.item in items + Requested([step])
  {
  }

  lemma StepKnown(s: State, step: Step, items: set<Item>)
    requires Enabled(s, step) && Known(s, items)
    ensures Known(Next(s, step), items + Requested([step]))
  {
    var s' := Next(s, step);
    AcceptedKnown(s, step, items);
    if !ByWorker(step) { MoveKnown(s, step, items); }
    forall b | b in s'.actors && (s'.actors[b].Entering? || s'.actors[b].Linking?)
      ensures s'.actors[b].item in items + Requested([step])
    {
      if ByWorker(step) || step.a != b { OthersStay(s, step, b); }
    }
  }

  lemma {:induction false} RunKnown(s: State, steps: seq<Step>, items: set<Item>)
    requires IsRun(s, steps) && Known(s, items)
    ensures Known(After(s, steps), items + Requested(steps))
    decreases |steps|
  {
    if steps != [] {
      StepKnown(s, steps[0], items);
      RunKnown(Next(s, steps[0]), steps[1..], items + Requested([steps[0]]));
      assert items + Requested([steps[0]]) + Requested(steps[1..]) == items + Requested(steps);
    }
  }

  /** The worker runs nothing but flush items and what was asked for. */
  lemma OnlyRequestedRuns(wrapper: bool, steps: seq<Step>, i: nat)
    requires IsRun(Initial(wrapper), steps) && i < |After(Initial(wrapper), steps).ran|
    ensures var item := After(Initial(wrapper), steps).ran[i]; item == FlushItem || item in Requested(steps)
  {
    FirstInFirstOut(wrapper, steps);
    RunKnown(Initial(wrapper), steps, {});
    var s := After(Initial(wrapper), steps);
    assert s.accepted[i] == s.ran[i];
  }
}
