/** What every run of the queue keeps: semaphore tokens match list entries, items run
    in the order in which they were accepted, and a flush has drained what its stage
    says. */
module QueueInvariants {
  import opened Common
  import opened QueueModel

  // ---- Tokens

  predicate Owes(pc: Pc) {
    pc.OwesUp? || pc.FlushOwesUp?
  }

  /** The actors that have linked an item and not yet raised the semaphore. */
  function Owing(actors: map<Aid, Pc>): set<Aid> {
    set a | a in actors && Owes(actors[a])
  }

  /** The worker has taken a token and not yet an item for it. */
  function Held(w: Worker): nat {
    if w == Token || w == Checked || w == Exited then 1 else 0
  }

  ghost predicate Tokens(s: State) {
    && s.count + |Owing(s.actors)| + Held(s.worker) == |s.q| + (if s.stopUp then 1 else 0)
    && (s.stopUp ==> s.shouldExit)
    && (s.worker == Exited ==> s.shouldExit)
    && (s.stopUp && (s.worker == Waiting || s.worker == Checked || s.worker == Running) ==> s.count >= 1)
    && !s.warned
  }

  lemma OwingRest(actors: map<Aid, Pc>, a: Aid)
    ensures |Owing(actors)| == |Owing(actors) - {a}| + if a in actors && Owes(actors[a]) then 1 else 0
  {
    if a in actors && Owes(actors[a]) {
      assert Owing(actors) == (Owing(actors) - {a}) + {a};
    } else {
      assert Owing(actors) == Owing(actors) - {a};
    }
  }

  lemma OwingMoves(actors: map<Aid, Pc>, a: Aid, move: Move)
    ensures |Owing(MoveActor(actors, a, move))| + (if a in actors && Owes(actors[a]) then 1 else 0)
         == |Owing(actors)| + (if move.To? && Owes(move.pc) then 1 else 0)
  {
    var moved := MoveActor(actors, a, move);
    assert Owing(moved) - {a} == Owing(actors) - {a};
    OwingRest(actors, a);
    OwingRest(moved, a);
  }

  predicate IsStopPc(pc: Pc) {
    pc.StopOwesUp? || pc.StopJoining? || pc.Stopped?
  }

  predicate IsFlushPc(pc: Pc) {
    pc.FlushLinking? || pc.FlushOwesUp? || pc.FlushWaiting? || pc.Flushed?
  }

  ghost predicate StopOk(s: State) {
    && (s.stopper.Some? ==>
          s.stopper.value in s.actors && (IsFlushPc(s.actors[s.stopper.value]) || IsStopPc(s.actors[s.stopper.value])))
    && (s.shouldExit ==> s.stopper.Some? && IsStopPc(s.actors[s.stopper.value]))
    && (forall a :: a in s.actors && IsStopPc(s.actors[a]) ==>
          s.stopper == Some(a) && s.shouldExit && (s.stopUp <==> !s.actors[a].StopOwesUp?))
  }

  // ---- History

  ghost predicate Distinct(q: seq<Item>) {
    forall i, j :: 0 <= i < j < |q| && q[i].Work? ==> q[i] != q[j]
  }

  /** First in, first out: what has run and what is queued is what was accepted. */
  ghost predicate History(s: State) {
    && s.accepted == s.ran + s.q
    && |s.ran| == s.done + (if s.worker == Running then 1 else 0)
    && (WORKER in s.actors ==> s.worker == Running)
    && Distinct(s.q)
  }

  // ---- Flushes

  /** A first flush item is behind all that was there at the call, a second one is linked only
      when that has finished. */
  ghost predicate FlushOk(s: State, pc: Pc) {
    match pc
    case FlushLinking(second, start) => start <= if second then s.done else |s.accepted|
    case FlushOwesUp(second, start, ticket) => start <= ticket < |s.accepted| && (second ==> start <= s.done)
    case FlushWaiting(second, start, ticket) => start <= ticket < |s.accepted| && (second ==> start <= s.done)
    case Flushed(start) => start <= s.done
    case _ => true
  }

  ghost predicate Flushes(s: State) {
    forall a :: a in s.actors ==> FlushOk(s, s.actors[a])
  }

  ghost predicate QueueOk(s: State) {
    Tokens(s) && StopOk(s) && History(s) && Flushes(s)
  }

  lemma InitialOk(wrapper: bool)
    ensures QueueOk(Initial(wrapper))
  {
  }

  // ---- Every step keeps them

  lemma AppendHistory(s: State, item: Item)
    requires History(s) && (item.Work? ==> item !in s.q)
    ensures History(Append(s, item))
  {
    var s' := Append(s, item);
    assert s.ran + (s.q + [item]) == (s.ran + s.q) + [item];
    forall i, j | 0 <= i < j < |s'.q| && s'.q[i].Work? ensures s'.q[i] != s'.q[j] {
      if j == |s.q| { assert s.q[i] in s.q; }
    }
  }

  predicate Appends(step: Step) {
    step.Link? || step.FlushLink?
  }

  /** The queue and its history are alike. */
  ghost predicate SameQueue(s: State, s': State) {
    && s'.q == s.q && s'.accepted == s.accepted && s'.ran == s.ran
    && s'.done == s.done && s'.worker == s.worker && s'.warned == s.warned
  }

  predicate Raises(step: Step) {
    step.Up? || step.FlushUp? || step.StopUp?
  }

  predicate Flags(step: Step) {
    step.CallAddWork? || step.Unlock? || step.CallShutdown? || step.CallStop? || step.SetExit?
  }

  lemma RaiseIsQuiet(s: State, step: Step)
    requires Enabled(s, step) && Raises(step)
    ensures SameQueue(s, Effect(s, step))
  {
  }

  lemma FlagIsQuiet(s: State, step: Step)
    requires Enabled(s, step) && Flags(step)
    ensures SameQueue(s, Effect(s, step))
  {
  }

  lemma RestIsQuiet(s: State, step: Step)
    requires Enabled(s, step) && !Appends(step) && !ByWorker(step) && !Raises(step) && !Flags(step)
    ensures Effect(s, step) == s
  {
  }

  /** A step of an actor that links nothing leaves the queue and its history alone. */
  lemma QuietStep(s: State, step: Step)
    requires Enabled(s, step) && !Appends(step) && !ByWorker(step)
    ensures SameQueue(s, Next(s, step))
  {
    QuietEffect(s, step);
  }

  lemma QuietEffect(s: State, step: Step)
    requires Enabled(s, step) && !Appends(step) && !ByWorker(step)
    ensures SameQueue(s, Effect(s, step))
  {
    if Raises(step) {
      RaiseIsQuiet(s, step);
    } else if Flags(step) {
      FlagIsQuiet(s, step);
    } else {
      RestIsQuiet(s, step);
    }
  }

  /** A step changes no actor but the one that takes it. */
  lemma OthersStay(s: State, step: Step, b: Aid)
    requires Enabled(s, step) && (ByWorker(step) || step.a != b)
    ensures b in Next(s, step).actors <==> b in s.actors
    ensures b in s.actors ==> Next(s, step).actors[b] == s.actors[b]
  {
    match step
    case Down =>
    case CheckExit =>
    case Pop =>
    case Finish =>
    case _ => assert Next(s, step).actors == MoveActor(s.actors, step.a, Moves(s, step));
  }

  lemma ActorEffect(s: State, step: Step)
    requires Enabled(s, step) && !ByWorker(step)
    ensures var s' := Effect(s, step);
      s'.worker == s.worker && s'.done == s.done && s'.ran == s.ran && s'.warned == s.warned
  {
    if !Appends(step) {
      QuietEffect(s, step);
    }
  }

  lemma RunningActor(s: State, step: Step)
    requires History(s) && Enabled(s, step) && !ByWorker(step)
    ensures WORKER in Next(s, step).actors ==> Next(s, step).worker == Running
  {
    ActorEffect(s, step);
  }

  lemma ActorsHistory(s: State, actors: map<Aid, Pc>)
    requires History(s) && (WORKER in actors ==> s.worker == Running)
    ensures History(s.(actors := actors))
  {
  }

  lemma LinkHistory(s: State, a: Aid)
    requires History(s) && Enabled(s, Link(a))
    ensures History(Next(s, Link(a)))
  {
    RunningActor(s, Link(a));
    if s.actors[a].item in s.q {
      ActorsHistory(s, Next(s, Link(a)).actors);
    } else {
      AppendHistory(s, s.actors[a].item);
      ActorsHistory(Append(s, s.actors[a].item), Next(s, Link(a)).actors);
    }
  }

  lemma WorkerHistory(s: State, step: Step)
    requires History(s) && Enabled(s, step) && ByWorker(step)
    ensures History(Next(s, step))
  {
    if step.Pop? && s.q != [] { assert s.ran + s.q == (s.ran + [s.q[0]]) + s.q[1..]; }
  }

  lemma StepHistory(s: State, step: Step)
    requires History(s) && Enabled(s, step)
    ensures History(Next(s, step))
  {
    if step.Link? {
      LinkHistory(s, step.a);
    } else if step.FlushLink? {
      AppendHistory(s, FlushItem);
      RunningActor(s, step);
    } else if ByWorker(step) {
      WorkerHistory(s, step);
    } else {
      QuietStep(s, step);
      RunningActor(s, step);
    }
  }

  /** The history a flush depends on only grows. */
  ghost predicate Grows(s: State, s': State) {
    s.done <= s'.done && s.accepted <= s'.accepted && s.ran <= s'.ran
  }

  lemma WorkerGrows(s: State, step: Step)
    requires History(s) && Enabled(s, step) && ByWorker(step)
    ensures Grows(s, Next(s, step))
  {
  }

  lemma StepGrows(s: State, step: Step)
    requires History(s) && Enabled(s, step)
    ensures Grows(s, Next(s, step))
  {
    if ByWorker(step) {
      WorkerGrows(s, step);
    } else if !Appends(step) {
      QuietStep(s, step);
    }
  }

  lemma FlushStays(s: State, s': State, pc: Pc)
    requires FlushOk(s, pc) && Grows(s, s')
    ensures FlushOk(s', pc)
  {
  }

  /** The flush item is behind all that was accepted. */
  lemma FlushLinks(s: State, second: bool, start: nat)
    requires History(s) && FlushOk(s, FlushLinking(second, start))
    ensures FlushOk(Append(s, FlushItem), FlushOwesUp(second, start, |s.accepted|))
  {
  }

  /** Where a flush goes next it has drained what it needs already. */
  lemma FlushMoves(s: State, step: Step)
    requires Flushes(s) && Enabled(s, step) && !ByWorker(step) && !step.FlushLink?
    ensures Moves(s, step).To? ==> FlushOk(s, Moves(s, step).pc)
  {
    assert step.a in s.actors ==> FlushOk(s, s.actors[step.a]);
  }

  lemma FlushFrame(s: State, s': State, pc: Pc)
    requires s'.done == s.done && s'.accepted == s.accepted && FlushOk(s, pc)
    ensures FlushOk(s', pc)
  {
  }

  lemma ActorFlushes(s: State, step: Step)
    requires History(s) && Flushes(s) && Enabled(s, step) && !ByWorker(step)
    ensures var s' := Next(s, step); step.a in s'.actors ==> FlushOk(s', s'.actors[step.a])
  {
    if step.FlushLink? {
      var FlushLinking(second, start) := s.actors[step.a];
      FlushLinks(s, second, start);
      FlushFrame(Append(s, FlushItem), Next(s, step), FlushOwesUp(second, start, |s.accepted|));
    } else if Moves(s, step).To? {
      FlushMoves(s, step);
      StepGrows(s, step);
      FlushStays(s, Next(s, step), Moves(s, step).pc);
    }
  }

  lemma StepFlushes(s: State, step: Step)
    requires History(s) && Flushes(s) && Enabled(s, step)
    ensures Flushes(Next(s, step))
  {
    StepGrows(s, step);
    forall b | b in Next(s, step).actors ensures FlushOk(Next(s, step), Next(s, step).actors[b]) {
      if ByWorker(step) || b != step.a {
        OthersStay(s, step, b);
        FlushStays(s, Next(s, step), s.actors[b]);
      } else {
        ActorFlushes(s, step);
      }
    }
  }

  predicate Stops(step: Step) {
    step.CallStop? || step.SetExit? || step.StopUp?
  }

  lemma StopFrame(s: State, step: Step)
    requires Enabled(s, step) && !Stops(step)
    ensures var s' := Effect(s, step);
      s'.stopper == s.stopper && s'.shouldExit == s.shouldExit && s'.stopUp == s.stopUp
  {
    match step
    case Link(_) =>
    case FlushLink(_) =>
    case _ =>
  }

  /** How the steps of one actor change whether it stops the queue. */
  lemma StopActor(s: State, step: Step)
    requires StopOk(s) && Enabled(s, step) && !ByWorker(step) && !Stops(step)
    ensures var m := Moves(s, step);
      && (s.stopper == Some(step.a) ==> m.To? && (IsFlushPc(m.pc) || IsStopPc(m.pc)))
      && (step.a in s.actors && IsStopPc(s.actors[step.a]) ==>
            m.To? && IsStopPc(m.pc) && !s.actors[step.a].StopOwesUp?)
      && (m.To? && IsStopPc(m.pc) ==>
            step.a in s.actors && IsStopPc(s.actors[step.a]) && !m.pc.StopOwesUp?)
  {
  }

  lemma StopStarts(s: State, step: Step)
    requires StopOk(s) && Tokens(s) && Enabled(s, step) && Stops(step)
    ensures StopOk(Next(s, step))
  {
  }

  lemma StepStop(s: State, step: Step)
    requires StopOk(s) && Tokens(s) && Enabled(s, step)
    ensures StopOk(Next(s, step))
  {
    if Stops(step) {
      StopStarts(s, step);
    } else {
      var s' := Next(s, step);
      StopFrame(s, step);
      if !ByWorker(step) { StopActor(s, step); }
      if s.stopper.Some? && (ByWorker(step) || s.stopper.value != step.a) {
        OthersStay(s, step, s.stopper.value);
      }
      forall b | b in s'.actors && IsStopPc(s'.actors[b])
        ensures s'.stopper == Some(b) && s'.shouldExit && (s'.stopUp <==> !s'.actors[b].StopOwesUp?)
      {
        if ByWorker(step) || b != step.a { OthersStay(s, step, b); }
      }
    }
  }

  // Raising or taking a token, and linking or taking an item, go together.

  ghost predicate Pays(s: State, step: Step)
    requires Enabled(s, step) && !ByWorker(step)
  {
    var s' := Effect(s, step);
    && s'.worker == s.worker && s'.warned == s.warned
    && s'.count + (if Moves(s, step).To? && Owes(Moves(s, step).pc) then 1 else 0)
       + |s.q| + (if s.stopUp then 1 else 0)
    == s.count + (if step.a in s.actors && Owes(s.actors[step.a]) then 1 else 0)
       + |s'.q| + (if s'.stopUp then 1 else 0)
    && (s'.stopUp ==> s'.shouldExit) && (s.shouldExit ==> s'.shouldExit)
    && s.count <= s'.count && (s'.stopUp && !s.stopUp ==> s'.count >= 1)
  }

  lemma RaisePays(s: State, step: Step)
    requires Tokens(s) && StopOk(s) && Enabled(s, step) && Raises(step)
    ensures Pays(s, step)
  {
  }

  lemma AppendPays(s: State, step: Step)
    requires Tokens(s) && Enabled(s, step) && Appends(step)
    ensures Pays(s, step)
  {
  }

  lemma FlagPays(s: State, step: Step)
    requires Tokens(s) && Enabled(s, step) && Flags(step)
    ensures Pays(s, step)
  {
  }

  lemma RestPays(s: State, step: Step)
    requires Tokens(s) && Enabled(s, step) && !ByWorker(step) && !Raises(step) && !Appends(step) && !Flags(step)
    ensures Pays(s, step)
  {
    RestIsQuiet(s, step);
  }

  lemma ActorTokens(s: State, step: Step)
    requires Tokens(s) && StopOk(s) && Enabled(s, step) && !ByWorker(step)
    ensures Pays(s, step)
  {
    if Raises(step) {
      RaisePays(s, step);
    } else if Appends(step) {
      AppendPays(s, step);
    } else if Flags(step) {
      FlagPays(s, step);
    } else {
      RestPays(s, step);
    }
  }

  lemma WorkerTokens(s: State, step: Step)
    requires Tokens(s) && Enabled(s, step) && ByWorker(step)
    ensures Tokens(Next(s, step))
  {
  }

  lemma StepTokens(s: State, step: Step)
    requires Tokens(s) && StopOk(s) && Enabled(s, step)
    ensures Tokens(Next(s, step))
  {
    if ByWorker(step) {
      WorkerTokens(s, step);
    } else {
      ActorTokens(s, step);
      OwingMoves(s.actors, step.a, Moves(s, step));
    }
  }

  lemma StepOk(s: State, step: Step)
    requires QueueOk(s) && Enabled(s, step)
    ensures QueueOk(Next(s, step))
  {
    StepTokens(s, step);
    StepStop(s, step);
    StepHistory(s, step);
    StepFlushes(s, step);
  }

  lemma {:induction false} RunOk(s: State, steps: seq<Step>)
    requires QueueOk(s) && IsRun(s, steps)
    ensures QueueOk(After(s, steps))
    decreases |steps|
  {
    if steps != [] {
      StepOk(s, steps[0]);
      RunOk(Next(s, steps[0]), steps[1..]);
    }
  }
}
