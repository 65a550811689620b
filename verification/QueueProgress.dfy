/** The queue gets its work done: without new calls every run ends, and where it ends all that
    was scheduled has run and every call has returned, a shutdown included. */
module QueueProgress {
  import opened Common
  import opened QueueModel
  import opened QueueInvariants
  import opened QueueTheorems

  /** The steps with which something new comes from outside. */
  predicate IsCall(s: State, step: Step) {
    step.CallSchedule? || step.CallAddWork? || step.CallFlush? || step.CallShutdown? || (step.CallStop? && !s.wrapper)
  }

  // ---- Every other step uses up work

  function ActorWork(pc: Pc): nat {
    match pc
    case Entering(_, _) => 9
    case Linking(_, _) => 8
    case OwesUp(_) => 6
    case Unlocking => 1
    case FlushLinking(second, _) => if second then 15 else 23
    case FlushOwesUp(second, _, _) => if second then 13 else 21
    case FlushWaiting(second, _, _) => if second then 8 else 16
    case Flushed(_) => 7
    case ShutdownCalled => 24
    case StopOwesUp => 6
    case StopJoining => 1
    case Stopped => 0
  }

  function WorkerWork(w: Worker): nat {
    match w
    case Waiting => 0
    case Token => 3
    case Checked => 2
    case Running => 1
    case Exited => 0
  }

  /** A list entry, and a token that the worker has yet to take, are work too. */
  function SharedWork(s: State): nat {
    |s.q| + 4 * s.count + WorkerWork(s.worker)
  }

  ghost function Work(s: State): nat {
    Sum(s.actors, ActorWork) + SharedWork(s)
  }

  function MoveWork(move: Move): nat {
    if move.To? then ActorWork(move.pc) else 0
  }

  lemma MovedWork(actors: map<Aid, Pc>, a: Aid, move: Move)
    requires a in actors
    ensures Sum(MoveActor(actors, a, move), ActorWork) + ActorWork(actors[a]) == Sum(actors, ActorWork) + MoveWork(move)
  {
    match move
    case To(pc) => SumUpdate(actors, ActorWork, a, pc);
    case Gone => SumSplit(actors, ActorWork, a);
  }

  lemma ActorWorks(s: State, step: Step)
    requires Enabled(s, step) && !ByWorker(step) && !IsCall(s, step)
    ensures step.a in s.actors
    ensures SharedWork(Effect(s, step)) + MoveWork(Moves(s, step)) < SharedWork(s) + ActorWork(s.actors[step.a])
  {
    match step
    case ReadExit(_) =>
    case Link(_) =>
    case FlushLink(_) =>
    case FlushWake(_) =>
    case CallStop(_) =>
    case _ =>
  }

  lemma StepWorks(s: State, step: Step)
    requires Enabled(s, step) && !IsCall(s, step)
    ensures Work(Next(s, step)) < Work(s)
  {
    if !ByWorker(step) {
      ActorWorks(s, step);
      MovedWork(s.actors, step.a, Moves(s, step));
    }
  }

  ghost predicate NoCalls(s: State, steps: seq<Step>)
    requires IsRun(s, steps)
    decreases |steps|
  {
    steps == [] || (!IsCall(s, steps[0]) && NoCalls(Next(s, steps[0]), steps[1..]))
  }

  /** Without new calls a run has at most as many steps as there is work. */
  lemma {:induction false} ComesToRest(s: State, steps: seq<Step>)
    requires IsRun(s, steps) && NoCalls(s, steps)
    ensures |steps| <= Work(s)
    decreases |steps|
  {
    if steps != [] {
      StepWorks(s, steps[0]);
      ComesToRest(Next(s, steps[0]), steps[1..]);
    }
  }

  // ---- Who is inside, and why

  /** The lock is held by an adder inside the queue; a running item makes schedule calls only. */
  ghost predicate HoldersOk(s: State) {
    && (s.lock.Some? ==> s.lock.value in s.actors && IsSchedulePc(s.actors[s.lock.value]))
    && (WORKER in s.actors ==> IsSchedulePc(s.actors[WORKER]))
  }

  /** One shutdown at a time, which stops the queue. */
  ghost predicate ShutdownOk(s: State) {
    && (forall a, b :: a in s.actors && b in s.actors && s.actors[a].ShutdownCalled? && s.actors[b].ShutdownCalled? ==>
          a == b)
    && (s.stopper.Some? ==> forall a :: a in s.actors ==> !s.actors[a].ShutdownCalled?)
    && (s.shuttingDown ==> s.stopper.Some? || exists a :: a in s.actors && s.actors[a].ShutdownCalled?)
  }

  lemma HolderMoves(s: State, step: Step)
    requires Enabled(s, step) && !ByWorker(step) && LockOk(s) && s.wrapper
    requires step.a == WORKER ==> WORKER !in s.actors || IsSchedulePc(s.actors[WORKER])
    ensures var s', m := Effect(s, step), Moves(s, step);
      && (s'.lock == s.lock || s'.lock == None || (s'.lock == Some(step.a) && m.To? && IsSchedulePc(m.pc)))
      && (s.lock == Some(step.a) && s'.lock == s.lock && step.a in s.actors && IsSchedulePc(s.actors[step.a]) ==>
            m.To? && IsSchedulePc(m.pc))
      && (step.a == WORKER && m.To? ==> IsSchedulePc(m.pc))
  {
    match step
    case CallAddWork(_, _) =>
    case ReadExit(_) =>
    case Link(_) =>
    case Up(_) =>
    case Unlock(_) =>
    case _ =>
  }

  lemma WorkerHolds(s: State, step: Step)
    requires Enabled(s, step) && ByWorker(step)
    ensures Next(s, step).lock == s.lock && Next(s, step).actors == s.actors
  {
    match step
    case Down =>
    case CheckExit =>
    case Pop =>
    case Finish =>
  }

  lemma StepHolders(s: State, step: Step)
    requires HoldersOk(s) && LockOk(s) && s.wrapper && Enabled(s, step)
    ensures HoldersOk(Next(s, step))
  {
    if ByWorker(step) {
      WorkerHolds(s, step);
    } else {
      HolderMoves(s, step);
      if s.lock.Some? && step.a != s.lock.value { OthersStay(s, step, s.lock.value); }
      if step.a != WORKER { OthersStay(s, step, WORKER); }
    }
  }

  lemma ShutdownFrame(s: State, step: Step)
    requires Enabled(s, step) && !step.CallShutdown? && !step.CallStop? && s.wrapper
    ensures Effect(s, step).stopper == s.stopper && Effect(s, step).shuttingDown == s.shuttingDown
    ensures !ByWorker(step) ==>
      Moves(s, step) != To(ShutdownCalled) && (step.a in s.actors ==> !s.actors[step.a].ShutdownCalled?)
  {
    match step
    case Link(_) =>
    case Pop =>
    case _ =>
  }

  lemma OtherShutdowns(s: State, step: Step)
    requires ShutdownOk(s) && s.wrapper && Enabled(s, step) && !step.CallShutdown? && !step.CallStop?
    ensures ShutdownOk(Next(s, step))
  {
    var s' := Next(s, step);
    ShutdownFrame(s, step);
    forall a ensures a in s'.actors && s'.actors[a].ShutdownCalled? <==> a in s.actors && s.actors[a].ShutdownCalled? {
      if ByWorker(step) || step.a != a { OthersStay(s, step, a); }
    }
  }

  lemma BeginsShutdown(s: State, a: Aid)
    requires ShutdownOk(s) && LockOk(s) && s.wrapper && Enabled(s, CallShutdown(a))
    ensures ShutdownOk(Next(s, CallShutdown(a)))
  {
    var s' := Next(s, CallShutdown(a));
    assert a in s'.actors && s'.actors[a].ShutdownCalled?;
  }

  lemma StepShutdown(s: State, step: Step)
    requires ShutdownOk(s) && LockOk(s) && StopOk(s) && s.wrapper && Enabled(s, step)
    ensures ShutdownOk(Next(s, step))
  {
    if step.CallShutdown? {
      BeginsShutdown(s, step.a);
    } else if !step.CallStop? {
      OtherShutdowns(s, step);
    }
  }

  ghost predicate WorkthreadOk(s: State) {
    WrapperOk(s) && QueueOk(s) && HoldersOk(s) && ShutdownOk(s)
  }

  lemma StepWorkthread(s: State, step: Step)
    requires WorkthreadOk(s) && Enabled(s, step)
    ensures WorkthreadOk(Next(s, step))
  {
    WrapperFrame(s, step);
    StepLock(s, step);
    StepTail(s, step);
    StepOk(s, step);
    StepHolders(s, step);
    StepShutdown(s, step);
  }

  lemma {:induction false} RunWorkthread(s: State, steps: seq<Step>)
    requires WorkthreadOk(s) && IsRun(s, steps)
    ensures WorkthreadOk(After(s, steps))
    decreases |steps|
  {
    if steps != [] {
      StepWorkthread(s, steps[0]);
      RunWorkthread(Next(s, steps[0]), steps[1..]);
    }
  }

  // ---- At rest

  ghost predicate AtRest(s: State) {
    forall step :: Enabled(s, step) ==> IsCall(s, step)
  }

  /** Who is still inside waits for the worker. */
  predicate Waits(pc: Pc) {
    pc.FlushWaiting? || pc.ShutdownCalled? || pc.StopJoining? || pc.Stopped?
  }

  lemma RestSchedule(s: State, a: Aid)
    requires AtRest(s) && a in s.actors
    ensures !IsSchedulePc(s.actors[a])
  {
    assert !Enabled(s, ReadExit(a)) && !Enabled(s, Link(a)) && !Enabled(s, Up(a)) && !Enabled(s, Unlock(a));
  }

  lemma RestFlush(s: State, a: Aid)
    requires AtRest(s) && a in s.actors
    ensures !s.actors[a].FlushLinking? && !s.actors[a].FlushOwesUp? && !s.actors[a].Flushed?
    ensures s.actors[a].FlushWaiting? ==> s.done <= s.actors[a].ticket
  {
    assert !Enabled(s, FlushLink(a)) && !Enabled(s, FlushUp(a)) && !Enabled(s, FlushWake(a));
    assert !Enabled(s, FlushReturn(a)) && !Enabled(s, SetExit(a));
  }

  lemma RestStop(s: State, a: Aid)
    requires AtRest(s) && a in s.actors
    ensures !s.actors[a].StopOwesUp? && (s.actors[a].StopJoining? ==> s.worker != Exited)
    ensures s.actors[a].ShutdownCalled? && s.wrapper && a != WORKER ==> s.stopper.Some?
  {
    assert !Enabled(s, StopUp(a)) && !Enabled(s, Join(a)) && (s.wrapper ==> !Enabled(s, CallStop(a)));
  }

  lemma RestActor(s: State, a: Aid)
    requires AtRest(s) && a in s.actors
    ensures Waits(s.actors[a])
    ensures s.actors[a].FlushWaiting? ==> s.done <= s.actors[a].ticket
    ensures s.actors[a].StopJoining? ==> s.worker != Exited
    ensures s.actors[a].ShutdownCalled? && s.wrapper && a != WORKER ==> s.stopper.Some?
  {
    RestSchedule(s, a);
    RestFlush(s, a);
    RestStop(s, a);
  }

  lemma RestWorker(s: State)
    requires AtRest(s) && HoldersOk(s)
    ensures s.worker == Exited || (s.worker == Waiting && s.count == 0)
    ensures s.lock == None && WORKER !in s.actors
  {
    if WORKER in s.actors { RestActor(s, WORKER); }
    if s.lock.Some? { RestActor(s, s.lock.value); }
    assert !Enabled(s, Down) && !Enabled(s, CheckExit) && !Enabled(s, Pop) && !Enabled(s, Finish);
  }

  /** A worker that waits for work has none left, and so nobody waits for it. */
  lemma RestWaiting(s: State)
    requires AtRest(s) && QueueOk(s) && HoldersOk(s) && s.worker == Waiting
    ensures s.q == [] && s.ran == s.accepted && s.done == |s.ran| && !s.shouldExit
    ensures forall a :: a in s.actors ==> s.actors[a].ShutdownCalled?
  {
    RestWorker(s);
    assert Owing(s.actors) == {} by {
      forall a | a in s.actors ensures !Owes(s.actors[a]) { RestActor(s, a); }
    }
    assert s.q == [] && !s.stopUp;
    assert s.ran + [] == s.ran;
    forall a | a in s.actors ensures s.actors[a].ShutdownCalled? {
      RestActor(s, a);
      assert FlushOk(s, s.actors[a]);
    }
  }

  lemma RestExited(s: State)
    requires AtRest(s) && WorkthreadOk(s) && s.worker == Exited
    ensures s.q == [] && s.ran == s.accepted && s.done == |s.ran|
    ensures forall a :: a in s.actors ==> s.actors[a].Stopped?
  {
    var b := s.stopper.value;
    assert TailOk(s, s.actors[b]);
    assert s.ran + [] == s.ran;
    forall a | a in s.actors ensures s.actors[a].Stopped? {
      RestActor(s, a);
    }
  }

  /** All that was accepted has run, nobody is inside, and a shutdown has returned. */
  ghost predicate AllDone(s: State) {
    && s.q == [] && s.ran == s.accepted && s.done == |s.ran| && s.lock == None
    && (forall a :: a in s.actors ==> s.actors[a].Stopped?)
    && (s.shuttingDown ==> s.worker == Exited && s.stopper.Some? && s.stopper.value in s.actors)
  }

  lemma RestIsDone(s: State)
    requires AtRest(s) && WorkthreadOk(s)
    ensures AllDone(s)
  {
    RestWorker(s);
    if s.worker == Waiting {
      RestWaiting(s);
      forall a | a in s.actors ensures !s.actors[a].ShutdownCalled? { RestActor(s, a); }
    } else {
      RestExited(s);
    }
  }

  /** Where a workthread comes to rest all its work is done; it takes new work unless it was
      shut down, and if it was, the shutdown has returned. */
  lemma WorkthreadFinishes(steps: seq<Step>, a: Aid, item: Item)
    requires IsRun(Initial(true), steps) && AtRest(After(Initial(true), steps)) && item.Work?
    ensures AllDone(After(Initial(true), steps))
    ensures a != WORKER && a !in After(Initial(true), steps).actors ==>
      Enabled(After(Initial(true), steps), CallAddWork(a, item))
  {
    InitialOk(true);
    RunWorkthread(Initial(true), steps);
    RestIsDone(After(Initial(true), steps));
  }
}
