/** Sync-fd waits of a semaphore-surface context: a record waits on a foreign fence and
    is finished by the fence's callback, by the context's worker or by the ioctl itself,
    while the context may already be on its way down.  A step is a lock-held region, one
    semaphore or reference operation, or the worker taking an item.

    Queueing is the workthread's: its shutdown returns once all accepted items have run
    and nothing is accepted after it has begun. */
module WaitModel {
  import opened Common

  type Rid = nat

  datatype Who = Ioctl | Worker | Callback

  /** Where a record is; `Early` if the fence took no callback, `Updated` once NVKMS has been
      asked to update the semaphore. */
  datatype Where =
    | Held | Linked | Early | Armed | Queued
    | Working(who: Who) | Updated(who: Who) | Unlinked(who: Who) | Freed

  /** The fence's callback for the record. */
  datatype Cb = Idle | LockHeld | Unlocking(taken: bool) | MustFree | MustPut | Done

  datatype Record = Record(
    place: Where,
    cb: Cb,
    ioctl: bool,
    // fence references got and dropped for the record, how often it was freed, and how
    // often the update of the semaphore was asked for
    gets: nat,
    puts: nat,
    frees: nat,
    updates: nat)

  datatype Life = Alive | Stopping | Yielding | ContextFreed

  datatype State = State(
    recs: map<Rid, Record>,
    pendingWaits: set<Rid>,
    workerLock: Option<Rid>,
    life: Life)

  const INITIAL: State := State(map[], {}, None, Alive)

  datatype Step =
    | Start(r: Rid)
    | StartBadFd(r: Rid)
    | Link(r: Rid)
    | AddCallback(r: Rid, taken: bool)
    | EarlyPut(r: Rid)
    | IoctlReturn(r: Rid)
    | CbLock(r: Rid)
    | CbSchedule(r: Rid)
    | CbUnlock(r: Rid)
    | CbPut(r: Rid)
    | WorkerRun(r: Rid)
    | Update(r: Rid)
    | Unlink(r: Rid)
    | Free(r: Rid)
    | BeginDestroy
    | StopReturns
    | SeeEmpty

  /** The ioctl's thread is at work on the record. */
  predicate InIoctl(p: Where) {
    p.Held? || p.Linked? || p.Early? || p == Working(Ioctl) || p == Updated(Ioctl) || p == Unlinked(Ioctl)
  }

  /** The workthread has the record's item. */
  predicate InWorker(p: Where) {
    p.Queued? || p == Working(Worker) || p == Updated(Worker) || p == Unlinked(Worker)
  }

  predicate OfRecord(step: Step) {
    !step.BeginDestroy? && !step.StopReturns? && !step.SeeEmpty? && !step.Start? && !step.StartBadFd?
  }

  predicate RecordEnabled(s: State, rec: Record, step: Step) {
    match step
    case Link(_) => rec.place.Held?
    case AddCallback(_, _) => rec.place.Linked?
    case EarlyPut(_) => rec.place.Early?
    case IoctlReturn(_) => rec.ioctl && !InIoctl(rec.place)
    case CbLock(_) => rec.place.Armed? && rec.cb.Idle? && s.workerLock == None
    case CbSchedule(_) => rec.cb.LockHeld?
    case CbUnlock(_) => rec.cb.Unlocking?
    case CbPut(_) => rec.cb.MustPut?
    case WorkerRun(_) => rec.place.Queued?
    case Update(_) => rec.place.Working?
    case Unlink(_) => rec.place.Updated? || (rec.place.Armed? && rec.cb.MustFree?)
    case Free(_) => rec.place.Unlinked?
    case _ => false
  }

  ghost predicate Enabled(s: State, step: Step) {
    match step
    case Start(r) => r !in s.recs && s.life.Alive?
    case StartBadFd(r) => r !in s.recs && s.life.Alive?
    case BeginDestroy => s.life.Alive? && s.workerLock == None && forall r :: r in s.recs ==> !s.recs[r].ioctl
    case StopReturns => s.life.Stopping? && forall r :: r in s.recs ==> !InWorker(s.recs[r].place)
    case SeeEmpty => s.life.Yielding? && s.pendingWaits == {}
    case _ => step.r in s.recs && RecordEnabled(s, s.recs[step.r], step)
  }

  function NextRecord(s: State, rec: Record, step: Step): Record
    requires OfRecord(step) && RecordEnabled(s, rec, step)
  {
    match step
    case Link(_) => rec.(place := Linked)
    case AddCallback(_, taken) => rec.(place := if taken then Armed else Early)
    case EarlyPut(_) => rec.(place := Working(Ioctl), puts := rec.puts + 1)
    case IoctlReturn(_) => rec.(ioctl := false)
    case CbLock(_) => rec.(cb := LockHeld)
    case CbSchedule(_) =>
      if s.life.Alive? then rec.(cb := Unlocking(true), place := Queued) else rec.(cb := Unlocking(false))
    case CbUnlock(_) => rec.(cb := if rec.cb.taken then MustPut else MustFree)
    case CbPut(_) => rec.(cb := Done, puts := rec.puts + 1)
    case WorkerRun(_) => rec.(place := Working(Worker))
    case Update(_) => rec.(place := Updated(rec.place.who), updates := rec.updates + 1)
    case Unlink(_) => rec.(place := Unlinked(if rec.place.Updated? then rec.place.who else Callback))
    case Free(_) =>
      rec.(place := Freed, frees := rec.frees + 1, cb := if rec.place.who.Callback? then MustPut else rec.cb)
  }

  function Next(s: State, step: Step): State
    requires Enabled(s, step)
  {
    match step
    case Start(r) => s.(recs := s.recs[r := Record(Held, Idle, true, 1, 0, 0, 0)])
    case StartBadFd(r) => s.(recs := s.recs[r := Record(Freed, Idle, true, 0, 0, 1, 0)])
    case BeginDestroy => s.(life := Stopping)
    case StopReturns => s.(life := Yielding)
    case SeeEmpty => s.(life := ContextFreed)
    case _ =>
      var s1 := s.(recs := s.recs[step.r := NextRecord(s, s.recs[step.r], step)]);
      match step
      case Link(r) => s1.(pendingWaits := s.pendingWaits + {r})
      case Unlink(r) => s1.(pendingWaits := s.pendingWaits - {r})
      case CbLock(r) => s1.(workerLock := Some(r))
      case CbUnlock(r) => s1.(workerLock := None)
      case _ => s1
  }

  /** The steps that use the context's memory. */
  predicate TouchesContext(step: Step) {
    || step.Link? || step.CbLock? || step.CbSchedule? || step.CbUnlock? || step.WorkerRun? || step.Update?
    || step.Unlink? || step.BeginDestroy? || step.StopReturns? || step.SeeEmpty? || step.Start? || step.StartBadFd?
  }

  ghost predicate IsRun(s: State, steps: seq<Step>)
    decreases |steps|
  {
    steps == [] || (Enabled(s, steps[0]) && IsRun(Next(s, steps[0]), steps[1..]))
  }

  ghost function After(s: State, steps: seq<Step>): State
    requires IsRun(s, steps)
    decreases |steps|
  {
    if steps == [] then s else After(Next(s, steps[0]), steps[1..])
  }
}
