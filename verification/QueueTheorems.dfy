/** The promises of the queue over whole runs. */
module QueueTheorems {
  import opened Common
  import opened QueueModel
  import opened QueueInvariants

  /** The worker's complaint about an empty queue is dead code: in every run it finds
      an item for each token it takes without the exit flag up. */
  lemma NeverAnEmptyQueue(wrapper: bool, steps: seq<Step>)
    requires IsRun(Initial(wrapper), steps)
    ensures var s := After(Initial(wrapper), steps);
      !s.warned && (s.worker == Checked ==> s.q != [])
  {
    InitialOk(wrapper);
    RunOk(Initial(wrapper), steps);
  }

  /** Items run in the order they were accepted and none is linked twice at a time. */
  lemma FirstInFirstOut(wrapper: bool, steps: seq<Step>)
    requires IsRun(Initial(wrapper), steps)
    ensures var s := After(Initial(wrapper), steps);
      s.ran + s.q == s.accepted && s.done <= |s.ran| <= s.done + 1 && Distinct(s.q)
  {
    InitialOk(wrapper);
    RunOk(Initial(wrapper), steps);
  }

  // ---- Flush

  ghost predicate InFlush(s: State, a: Aid, start: nat) {
    a in s.actors && IsFlushPc(s.actors[a]) && s.actors[a].start == start
  }

  predicate EndsFlush(step: Step, a: Aid) {
    step == FlushReturn(a) || step == SetExit(a)
  }

  lemma FlushKeepsStart(s: State, step: Step, a: Aid, start: nat)
    requires Enabled(s, step) && InFlush(s, a, start) && !EndsFlush(step, a)
    ensures InFlush(Next(s, step), a, start)
  {
    if ByWorker(step) || step.a != a {
      OthersStay(s, step, a);
    }
  }

  lemma {:induction false} FlushCall(s: State, steps: seq<Step>, a: Aid, start: nat)
    requires QueueOk(s) && IsRun(s, steps) && InFlush(s, a, start)
    requires forall i :: 0 <= i < |steps| ==> !EndsFlush(steps[i], a)
    ensures QueueOk(After(s, steps)) && InFlush(After(s, steps), a, start)
    decreases |steps|
  {
    if steps != [] {
      assert !EndsFlush(steps[0], a);
      StepOk(s, steps[0]);
      FlushKeepsStart(s, steps[0], a, start);
      assert forall i :: 0 <= i < |steps[1..]| ==> steps[1..][i] == steps[i + 1];
      FlushCall(Next(s, steps[0]), steps[1..], a, start);
    }
  }

  /** The entries up to `limit` are before the second flush item, which has yet to be linked,
      or has to run before the flush is over. */
  ghost predicate Behind(s: State, a: Aid, limit: nat) {
    a in s.actors &&
    match s.actors[a]
    case FlushLinking(_, _) => limit <= |s.accepted|
    case FlushOwesUp(second, _, ticket) => limit <= if second then ticket else |s.accepted|
    case FlushWaiting(second, _, ticket) => limit <= if second then ticket else |s.accepted|
    case Flushed(_) => limit <= s.done
    case _ => false
  }

  lemma StepBehind(s: State, step: Step, a: Aid, limit: nat)
    requires QueueOk(s) && Enabled(s, step) && Behind(s, a, limit) && !EndsFlush(step, a)
    ensures Behind(Next(s, step), a, limit)
  {
    StepGrows(s, step);
    if ByWorker(step) || step.a != a {
      OthersStay(s, step, a);
    }
  }

  lemma {:induction false} RunBehind(s: State, steps: seq<Step>, a: Aid, limit: nat)
    requires QueueOk(s) && IsRun(s, steps) && Behind(s, a, limit)
    requires forall i :: 0 <= i < |steps| ==> !EndsFlush(steps[i], a)
    ensures Behind(After(s, steps), a, limit) && QueueOk(After(s, steps))
    ensures s.accepted <= After(s, steps).accepted
    decreases |steps|
  {
    if steps != [] {
      assert !EndsFlush(steps[0], a);
      StepOk(s, steps[0]);
      StepGrows(s, steps[0]);
      StepBehind(s, steps[0], a, limit);
      assert forall i :: 0 <= i < |steps[1..]| ==> steps[1..][i] == steps[i + 1];
      RunBehind(Next(s, steps[0]), steps[1..], a, limit);
    }
  }

  lemma FlushBegins(s: State, a: Aid)
    requires QueueOk(s) && Enabled(s, CallFlush(a))
    ensures QueueOk(Next(s, CallFlush(a))) && InFlush(Next(s, CallFlush(a)), a, |s.ran| + |s.q|)
  {
    StepOk(s, CallFlush(a));
  }

  lemma FlushIs(s: State, a: Aid, start: nat)
    requires QueueOk(s) && InFlush(s, a, start)
    ensures s.actors[a].Flushed? ==> start <= s.done
    ensures s.done < start ==> Behind(s, a, |s.ran| + |s.q|)
  {
    assert FlushOk(s, s.actors[a]);
  }

  /** When a flush returns, all that was queued or running when it was called has finished;
      and so has all that was queued at any moment `s1` of the flush at which one of those had
      yet to finish.  For any contents of the queue and any schedulers and flushers. */
  lemma FlushDrainsTwoGenerations(s: State, a: Aid, steps: seq<Step>, s1: State, rest: seq<Step>)
    requires QueueOk(s) && Enabled(s, CallFlush(a)) && IsRun(Next(s, CallFlush(a)), steps)
    requires s1 == After(Next(s, CallFlush(a)), steps) && IsRun(s1, rest)
    requires forall i :: 0 <= i < |steps| ==> !EndsFlush(steps[i], a)
    requires forall i :: 0 <= i < |rest| ==> !EndsFlush(rest[i], a)
    requires var s' := After(s1, rest); a in s'.actors && s'.actors[a].Flushed?
    ensures |s.ran| + |s.q| <= After(s1, rest).done
    ensures s1.done < |s.ran| + |s.q| ==> |s1.ran| + |s1.q| <= After(s1, rest).done
  {
    FlushBegins(s, a);
    FlushCall(Next(s, CallFlush(a)), steps, a, |s.ran| + |s.q|);
    FlushCall(s1, rest, a, |s.ran| + |s.q|);
    FlushIs(After(s1, rest), a, |s.ran| + |s.q|);
    if s1.done < |s.ran| + |s.q| {
      FlushIs(s1, a, |s.ran| + |s.q|);
      RunBehind(s1, rest, a, |s1.ran| + |s1.q|);
    }
  }

  /** An item that the worker links while it runs an entry older than the flush. */
  lemma LinkBehind(s: State, a: Aid, start: nat, s': State)
    requires QueueOk(s) && Enabled(s, Link(WORKER)) && s' == Next(s, Link(WORKER))
    requires InFlush(s, a, start) && |s.ran| <= start
    ensures QueueOk(s') && Behind(s', a, |s'.accepted|) && s.actors[WORKER].item in s'.q && s'.ran == s.ran
  {
    StepOk(s, Link(WORKER));
    OthersStay(s, Link(WORKER), a);
    assert FlushOk(s, s.actors[a]);
  }

  lemma HasFinished(s: State, s': State, item: Item) returns (j: nat)
    requires History(s) && History(s') && s.accepted <= s'.accepted && |s.accepted| <= s'.done && item in s.q
    ensures |s.ran| <= j < s'.done && j < |s'.ran| && s'.ran[j] == item
  {
    var i :| 0 <= i < |s.q| && s.q[i] == item;
    j := |s.ran| + i;
    assert s.accepted[j] == item && s'.accepted[j] == s'.ran[j];
  }

  /** In particular the items that those items schedule while they run: they have run since
      and finished. */
  lemma FlushRunsChildren(s: State, a: Aid, steps: seq<Step>, s1: State, rest: seq<Step>) returns (j: nat)
    requires QueueOk(s) && Enabled(s, CallFlush(a)) && IsRun(Next(s, CallFlush(a)), steps)
    requires s1 == After(Next(s, CallFlush(a)), steps) && |s1.ran| <= |s.ran| + |s.q| && Enabled(s1, Link(WORKER))
    requires IsRun(Next(s1, Link(WORKER)), rest)
    requires forall i :: 0 <= i < |steps| ==> !EndsFlush(steps[i], a)
    requires forall i :: 0 <= i < |rest| ==> !EndsFlush(rest[i], a)
    requires var s' := After(Next(s1, Link(WORKER)), rest); a in s'.actors && s'.actors[a].Flushed?
    ensures var s' := After(Next(s1, Link(WORKER)), rest);
      |s1.ran| <= j < s'.done && j < |s'.ran| && s'.ran[j] == s1.actors[WORKER].item
  {
    var s2 := Next(s1, Link(WORKER));
    FlushBegins(s, a);
    FlushCall(Next(s, CallFlush(a)), steps, a, |s.ran| + |s.q|);
    LinkBehind(s1, a, |s.ran| + |s.q|, s2);
    RunBehind(s2, rest, a, |s2.accepted|);
    j := HasFinished(s2, After(s2, rest), s1.actors[WORKER].item);
  }

  /** A waiting flush is never stuck while the queue is alive: the worker can move, or
      a thread still owes it a token, or the running item is inside a schedule call. */
  lemma FlushNotStuck(s: State, a: Aid)
    requires QueueOk(s) && a in s.actors && s.actors[a].FlushWaiting? && !s.shouldExit
    requires s.done <= s.actors[a].ticket
    ensures Enabled(s, Down) || Enabled(s, CheckExit) || Enabled(s, Pop) || Enabled(s, Finish)
      || (exists b :: b in s.actors && Owes(s.actors[b])) || WORKER in s.actors
  {
    assert FlushOk(s, s.actors[a]);
    if s.worker == Waiting && s.count == 0 {
      assert |Owing(s.actors)| > 0;
      var b :| b in Owing(s.actors);
    }
  }

  // ---- The workthread wrapper

  predicate IsSchedulePc(pc: Pc) {
    pc.Entering? || pc.Linking? || pc.OwesUp? || pc.Unlocking?
  }

  /** The shutting-down flag is set under the lock that every accepted add_work holds
      until its token is raised. */
  ghost predicate LockOk(s: State) {
    && (forall a :: a in s.actors && IsSchedulePc(s.actors[a]) ==> s.lock == Some(a))
    && (s.shuttingDown ==> forall a :: a in s.actors && IsSchedulePc(s.actors[a]) ==> s.actors[a].Unlocking?)
    && (forall a :: a in s.actors && (s.actors[a].Entering? || s.actors[a].Linking? || s.actors[a].OwesUp?) ==>
          s.actors[a].wrapped)
    && (forall a :: a in s.actors && (IsFlushPc(s.actors[a]) || IsStopPc(s.actors[a])) ==>
          s.shuttingDown && s.stopper == Some(a))
    && (forall a :: a in s.actors && s.actors[a].ShutdownCalled? ==> s.shuttingDown)
  }

  /** Behind the stopper's flush items nothing is queued any more. */
  ghost predicate TailOk(s: State, pc: Pc) {
    match pc
    case FlushOwesUp(_, _, ticket) => |s.accepted| == ticket + 1
    case FlushWaiting(_, _, ticket) => |s.accepted| == ticket + 1
    case FlushLinking(second, _) => second ==> s.done == |s.accepted|
    case _ => IsFlushPc(pc) || IsStopPc(pc) ==> s.done == |s.accepted|
  }

  ghost predicate WrapperOk(s: State) {
    s.wrapper && LockOk(s) && forall a :: a in s.actors ==> TailOk(s, s.actors[a])
  }

  lemma WrapperFrame(s: State, step: Step)
    requires Enabled(s, step)
    ensures Effect(s, step).wrapper == s.wrapper
  {
    match step
    case Link(_) =>
    case FlushLink(_) =>
    case Pop =>
    case _ =>
  }

  lemma LockMoves(s: State, step: Step)
    requires LockOk(s) && s.wrapper && Enabled(s, step) && !ByWorker(step)
    ensures var s', m := Effect(s, step), Moves(s, step);
      && (m.To? && IsSchedulePc(m.pc) ==> s'.lock == Some(step.a) && (s'.shuttingDown ==> m.pc.Unlocking?))
      && (m.To? && (m.pc.Entering? || m.pc.Linking? || m.pc.OwesUp?) ==> m.pc.wrapped)
      && (m.To? && (IsFlushPc(m.pc) || IsStopPc(m.pc)) ==> s'.shuttingDown && s'.stopper == Some(step.a))
      && (m.To? && m.pc.ShutdownCalled? ==> s'.shuttingDown)
  {
  }

  lemma LockEffect(s: State, step: Step, b: Aid)
    requires LockOk(s) && s.wrapper && Enabled(s, step) && b in s.actors && (ByWorker(step) || b != step.a)
    ensures var s' := Effect(s, step);
      && (IsSchedulePc(s.actors[b]) ==> s'.lock == s.lock && (s'.shuttingDown ==> s.shuttingDown))
      && (s.shuttingDown ==> s'.shuttingDown)
      && (s.stopper == Some(b) ==> s'.stopper == s.stopper)
  {
  }

  lemma StepLock(s: State, step: Step)
    requires LockOk(s) && s.wrapper && Enabled(s, step)
    ensures LockOk(Next(s, step))
  {
    var s' := Next(s, step);
    if !ByWorker(step) { LockMoves(s, step); }
    forall b | b in s'.actors
      ensures IsSchedulePc(s'.actors[b]) ==> s'.lock == Some(b) && (s'.shuttingDown ==> s'.actors[b].Unlocking?)
      ensures s'.actors[b].Entering? || s'.actors[b].Linking? || s'.actors[b].OwesUp? ==> s'.actors[b].wrapped
      ensures IsFlushPc(s'.actors[b]) || IsStopPc(s'.actors[b]) ==> s'.shuttingDown && s'.stopper == Some(b)
      ensures s'.actors[b].ShutdownCalled? ==> s'.shuttingDown
    {
      if ByWorker(step) || b != step.a {
        OthersStay(s, step, b);
        LockEffect(s, step, b);
      }
    }
  }

  lemma TailLinks(s: State, a: Aid)
    requires WrapperOk(s) && QueueOk(s) && Enabled(s, FlushLink(a))
    ensures var s' := Next(s, FlushLink(a)); a in s'.actors && TailOk(s', s'.actors[a])
  {
    assert TailOk(s, s.actors[a]);
  }

  lemma TailFlushes(s: State, step: Step)
    requires WrapperOk(s) && QueueOk(s) && Enabled(s, step) && (step.FlushUp? || step.FlushWake?)
    ensures var s' := Next(s, step); step.a in s'.actors && TailOk(s', s'.actors[step.a])
  {
    assert TailOk(s, s.actors[step.a]) && FlushOk(s, s.actors[step.a]);
  }

  lemma TailStops(s: State, step: Step)
    requires WrapperOk(s) && Enabled(s, step) && (step.SetExit? || step.StopUp? || step.Join?)
    ensures IsStopPc(Moves(s, step).pc) && s.done == |s.accepted|
  {
    assert TailOk(s, s.actors[step.a]);
  }

  lemma TailOthers(s: State, step: Step)
    requires WrapperOk(s) && Enabled(s, step) && !ByWorker(step)
    requires !step.FlushLink? && !step.FlushUp? && !step.FlushWake?
    requires !step.SetExit? && !step.StopUp? && !step.Join?
    ensures var m := Moves(s, step);
      m.To? ==> (m.pc.FlushLinking? && !m.pc.second) || (!IsFlushPc(m.pc) && !IsStopPc(m.pc))
  {
  }

  lemma TailMoves(s: State, step: Step)
    requires WrapperOk(s) && QueueOk(s) && Enabled(s, step) && !ByWorker(step)
    ensures var s' := Next(s, step); step.a in s'.actors ==> TailOk(s', s'.actors[step.a])
  {
    if step.FlushLink? {
      TailLinks(s, step.a);
    } else if step.FlushUp? || step.FlushWake? {
      TailFlushes(s, step);
    } else if step.SetExit? || step.StopUp? || step.Join? {
      TailStops(s, step);
      QuietStep(s, step);
    } else {
      TailOthers(s, step);
    }
  }

  /** While a stopper flushes, nobody else adds to the queue, and what is finished
      stays finished. */
  lemma TailEffect(s: State, step: Step, b: Aid)
    requires WrapperOk(s) && QueueOk(s) && Enabled(s, step) && b in s.actors && (ByWorker(step) || b != step.a)
    requires IsFlushPc(s.actors[b]) || IsStopPc(s.actors[b])
    ensures var s' := Effect(s, step);
      |s'.accepted| == |s.accepted| && (s'.done == s.done || (step.Finish? && s.done < |s.accepted|))
  {
    if !ByWorker(step) && !Appends(step) { QuietEffect(s, step); }
  }

  lemma StepTail(s: State, step: Step)
    requires WrapperOk(s) && QueueOk(s) && Enabled(s, step)
    ensures forall b :: b in Next(s, step).actors ==> TailOk(Next(s, step), Next(s, step).actors[b])
  {
    var s' := Next(s, step);
    forall b | b in s'.actors ensures TailOk(s', s'.actors[b]) {
      if ByWorker(step) || b != step.a {
        OthersStay(s, step, b);
        assert TailOk(s, s.actors[b]);
        if IsFlushPc(s.actors[b]) || IsStopPc(s.actors[b]) { TailEffect(s, step, b); }
      } else {
        TailMoves(s, step);
      }
    }
  }

  lemma {:induction false} RunWrapper(s: State, steps: seq<Step>)
    requires WrapperOk(s) && QueueOk(s) && IsRun(s, steps)
    ensures WrapperOk(After(s, steps)) && QueueOk(After(s, steps))
    decreases |steps|
  {
    if steps != [] {
      WrapperFrame(s, steps[0]);
      StepLock(s, steps[0]);
      StepTail(s, steps[0]);
      StepOk(s, steps[0]);
      RunWrapper(Next(s, steps[0]), steps[1..]);
    }
  }

  ghost predicate Joined(s: State) {
    forall a :: a in s.actors && s.actors[a].Stopped? ==> s.worker == Exited
  }

  lemma StepJoined(s: State, step: Step)
    requires Enabled(s, step) && Joined(s)
    ensures Joined(Next(s, step))
  {
    var s' := Next(s, step);
    if !ByWorker(step) { ActorEffect(s, step); }
    forall a | a in s'.actors && s'.actors[a].Stopped? ensures s'.worker == Exited {
      if ByWorker(step) || step.a != a { OthersStay(s, step, a); }
    }
  }

  lemma {:induction false} RunJoined(s: State, steps: seq<Step>)
    requires IsRun(s, steps) && Joined(s)
    ensures Joined(After(s, steps))
    decreases |steps|
  {
    if steps != [] {
      StepJoined(s, steps[0]);
      RunJoined(Next(s, steps[0]), steps[1..]);
    }
  }

  /** Shutting a workthread down, against any race of adders: when the exit flag goes
      up the list is empty, and when shutdown returns the worker is gone and every
      accepted item has run, once and in order. */
  lemma ShutdownRunsAllWork(steps: seq<Step>, a: Aid)
    requires IsRun(Initial(true), steps)
    requires var s := After(Initial(true), steps); a in s.actors && IsStopPc(s.actors[a])
    ensures var s := After(Initial(true), steps);
      && s.q == [] && s.ran == s.accepted && s.done == |s.accepted|
      && s.worker != Running
      && (s.actors[a].Stopped? ==> s.worker == Exited)
  {
    InitialOk(true);
    RunWrapper(Initial(true), steps);
    RunJoined(Initial(true), steps);
    var s := After(Initial(true), steps);
    assert TailOk(s, s.actors[a]);
  }

  /** An exited worker starts no more work, whatever is still called. */
  lemma {:induction false} NoWorkAfterExit(s: State, steps: seq<Step>)
    requires IsRun(s, steps) && s.worker == Exited
    ensures After(s, steps).worker == Exited && After(s, steps).ran == s.ran
    decreases |steps|
  {
    if steps != [] {
      if !ByWorker(steps[0]) { ActorEffect(s, steps[0]); }
      NoWorkAfterExit(Next(s, steps[0]), steps[1..]);
    }
  }
}
