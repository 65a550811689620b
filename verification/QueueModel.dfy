/** `nv_kthread_q` and the workthread wrapper around it: a FIFO of work items, a
    counting semaphore, one worker thread, any number of schedulers and flushers, and
    a stop.  A step is a lock-held region or one semaphore or flag operation.

    `accepted`, `ran` and `done` record the history of the queue and `warned` whether the
    worker met an empty list; no step is enabled or disabled by the first two or the last.
    A ticket is an index into `accepted`. */
module QueueModel {
  import opened Common

  datatype Item = Work(id: nat) | FlushItem

  type Aid = nat

  /** Schedule calls made by a running item are made by this actor. */
  const WORKER: Aid := 0

  datatype Worker = Waiting | Token | Checked | Running | Exited

  datatype Pc =
    // nv_kthread_q_schedule_q_item; `wrapped` if called by add_work under the worker lock
    | Entering(item: Item, wrapped: bool)
    | Linking(item: Item, wrapped: bool)
    | OwesUp(wrapped: bool)
    | Unlocking
    // nv_kthread_q_flush: `start` entries were accepted when it was called
    | FlushLinking(second: bool, start: nat)
    | FlushOwesUp(second: bool, start: nat, ticket: nat)
    | FlushWaiting(second: bool, start: nat, ticket: nat)
    | Flushed(start: nat)
    // nv_kthread_q_stop around it, and nv_drm_workthread_shutdown around that
    | ShutdownCalled
    | StopOwesUp
    | StopJoining
    | Stopped

  datatype State = State(
    q: seq<Item>,
    count: nat,
    shouldExit: bool,
    worker: Worker,
    actors: map<Aid, Pc>,
    stopUp: bool,
    stopper: Option<Aid>,
    // the workthread wrapper
    wrapper: bool,
    shuttingDown: bool,
    lock: Option<Aid>,
    // history
    accepted: seq<Item>,
    ran: seq<Item>,
    done: nat,
    warned: bool)

  /** A fresh queue, used directly or only through the workthread wrapper. */
  function Initial(wrapper: bool): State {
    State([], 0, false, Waiting, map[], false, None, wrapper, false, None, [], [], 0, false)
  }

  datatype Step =
    | CallSchedule(a: Aid, item: Item)
    | CallAddWork(a: Aid, item: Item)
    | ReadExit(a: Aid)
    | Link(a: Aid)
    | Up(a: Aid)
    | Unlock(a: Aid)
    | CallFlush(a: Aid)
    | FlushLink(a: Aid)
    | FlushUp(a: Aid)
    | FlushWake(a: Aid)
    | FlushReturn(a: Aid)
    | CallShutdown(a: Aid)
    | CallStop(a: Aid)
    | SetExit(a: Aid)
    | StopUp(a: Aid)
    | Join(a: Aid)
    | Down
    | CheckExit
    | Pop
    | Finish

  /** A new call by some thread, or by the item the worker is running. */
  predicate MayCall(s: State, a: Aid) {
    a !in s.actors && (a == WORKER ==> s.worker == Running)
  }

  predicate At(s: State, a: Aid) {
    a in s.actors
  }

  predicate Enabled(s: State, step: Step) {
    match step
    case CallSchedule(a, item) => MayCall(s, a) && !s.wrapper && item.Work?
    case CallAddWork(a, item) => MayCall(s, a) && s.wrapper && item.Work? && s.lock == None
    case ReadExit(a) => At(s, a) && s.actors[a].Entering?
    case Link(a) => At(s, a) && s.actors[a].Linking?
    case Up(a) => At(s, a) && s.actors[a].OwesUp?
    case Unlock(a) => At(s, a) && s.actors[a].Unlocking?
    case CallFlush(a) => MayCall(s, a) && a != WORKER && !s.wrapper && !s.shouldExit
    case FlushLink(a) => At(s, a) && s.actors[a].FlushLinking?
    case FlushUp(a) => At(s, a) && s.actors[a].FlushOwesUp?
    case FlushWake(a) => At(s, a) && s.actors[a].FlushWaiting? && s.actors[a].ticket < s.done
    case FlushReturn(a) => At(s, a) && s.actors[a].Flushed? && s.stopper != Some(a)
    case CallShutdown(a) =>
      MayCall(s, a) && a != WORKER && s.wrapper && !s.shuttingDown && s.lock == None && s.stopper == None
    case CallStop(a) =>
      && s.stopper == None && a != WORKER
      && if s.wrapper then At(s, a) && s.actors[a].ShutdownCalled? else MayCall(s, a)
    case SetExit(a) => At(s, a) && s.actors[a].Flushed? && s.stopper == Some(a)
    case StopUp(a) => At(s, a) && s.actors[a].StopOwesUp?
    case Join(a) => At(s, a) && s.actors[a].StopJoining? && s.worker == Exited
    case Down => s.worker == Waiting && s.count > 0
    case CheckExit => s.worker == Token
    case Pop => s.worker == Checked
    case Finish => s.worker == Running && WORKER !in s.actors
  }

  /** `list_add_tail`, with the history that goes with it. */
  function Append(s: State, item: Item): State {
    s.(q := s.q + [item], accepted := s.accepted + [item])
  }

  /** What a step does to the shared state. */
  function Effect(s: State, step: Step): State
    requires Enabled(s, step)
  {
    match step
    case CallAddWork(a, _) => s.(lock := Some(a))
    case Link(a) => if s.actors[a].item in s.q then s else Append(s, s.actors[a].item)
    case Up(_) => s.(count := s.count + 1)
    case Unlock(_) => s.(lock := None)
    case FlushLink(_) => Append(s, FlushItem)
    case FlushUp(_) => s.(count := s.count + 1)
    case CallShutdown(_) => s.(shuttingDown := true)
    case CallStop(a) => s.(stopper := Some(a))
    case SetExit(_) => s.(shouldExit := true)
    case StopUp(_) => s.(count := s.count + 1, stopUp := true)
    case Down => s.(count := s.count - 1, worker := Token)
    case CheckExit => s.(worker := if s.shouldExit then Exited else Checked)
    case Pop =>
      if s.q == [] then s.(worker := Waiting, warned := true)
      else s.(worker := Running, q := s.q[1..], ran := s.ran + [s.q[0]])
    case Finish => s.(worker := Waiting, done := s.done + 1)
    case _ => s
  }

  datatype Move = To(pc: Pc) | Gone

  /** End of a schedule call: a wrapped one still holds the worker lock. */
  function EndCall(wrapped: bool): Move {
    if wrapped then To(Unlocking) else Gone
  }

  predicate ByWorker(step: Step) {
    step.Down? || step.CheckExit? || step.Pop? || step.Finish?
  }

  /** Where the step takes the actor that makes it. */
  function Moves(s: State, step: Step): Move
    requires Enabled(s, step) && !ByWorker(step)
  {
    match step
    case CallSchedule(_, item) => To(Entering(item, false))
    case CallAddWork(_, item) => To(if s.shuttingDown then Unlocking else Entering(item, true))
    case ReadExit(a) =>
      var Entering(item, wrapped) := s.actors[a];
      if s.shouldExit then EndCall(wrapped) else To(Linking(item, wrapped))
    case Link(a) =>
      var Linking(item, wrapped) := s.actors[a];
      if item in s.q then EndCall(wrapped) else To(OwesUp(wrapped))
    case Up(a) => EndCall(s.actors[a].wrapped)
    case Unlock(_) => Gone
    case CallFlush(_) => To(FlushLinking(false, |s.accepted|))
    case FlushLink(a) => To(FlushOwesUp(s.actors[a].second, s.actors[a].start, |s.accepted|))
    case FlushUp(a) => To(FlushWaiting(s.actors[a].second, s.actors[a].start, s.actors[a].ticket))
    case FlushWake(a) =>
      To(if s.actors[a].second then Flushed(s.actors[a].start) else FlushLinking(true, s.actors[a].start))
    case FlushReturn(_) => Gone
    case CallShutdown(_) => To(ShutdownCalled)
    case CallStop(_) => To(FlushLinking(false, |s.accepted|))
    case SetExit(_) => To(StopOwesUp)
    case StopUp(_) => To(StopJoining)
    case Join(_) => To(Stopped)
  }

  function MoveActor(actors: map<Aid, Pc>, a: Aid, move: Move): map<Aid, Pc> {
    match move
    case To(pc) => actors[a := pc]
    case Gone => actors - {a}
  }

  function Next(s: State, step: Step): State
    requires Enabled(s, step)
  {
    if ByWorker(step) then Effect(s, step)
    else Effect(s, step).(actors := MoveActor(s.actors, step.a, Moves(s, step)))
  }

  ghost predicate IsRun(s: State, steps: seq<Step>)
    decreases |steps|
  {
    steps == [] || (Enabled(s, steps[0]) && IsRun(Next(s, steps[0]), steps[1..]))
  }

  ghost function After(s: State, steps: seq<Step>): State
    requires IsRun(s, steps)
    decreases |steps|
  {
    if steps == [] then s else After(Next(s, steps[0]), steps[1..])
  }

  lemma {:induction false} RunAppend(s: State, steps: seq<Step>, step: Step)
    requires IsRun(s, steps) && Enabled(After(s, steps), step)
    ensures IsRun(s, steps + [step]) && After(s, steps + [step]) == Next(After(s, steps), step)
    decreases |steps|
  {
    if steps == [] {
      assert [] + [step] == [step];
    } else {
      assert (steps + [step])[1..] == steps[1..] + [step];
      RunAppend(Next(s, steps[0]), steps[1..], step);
    }
  }
}
