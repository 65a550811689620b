/** NVKMS timers and the weak pointers (`ref_ptr`) some of them carry.  A timer is
    armed as a kernel timer or queued at once; when it fires the module's queue runs
    `nvkms_kthread_q_callback`, which calls the timer's procedure with `nvkms_lock`
    held.  Everything an owner does to a timer or a pointer happens under that lock
    too, either in another thread while the worker does not hold it or inside the
    procedure the worker is calling, so one atomic step per call covers both.

    `links` counts list insertions minus removals, `frees` the frees of an object and
    `calls` the calls of a timer's procedure; none of them is ever tested by a step. */
module TimerModel {
  import opened Common

  type Tid = nat
  type Rid = nat

  /** A kernel timer whose callback runs has yet to queue the work, or has queued it and not
      yet returned. */
  datatype Kernel = Idle | Pending | Firing | Finishing

  datatype Timer = Timer(
    target: Option<Rid>,   // the ref_ptr of an isRefPtr timer
    created: bool,         // kernel_timer_created
    kernel: Kernel,
    queued: bool,
    links: int,
    cancel: bool,
    complete: bool,
    ownerFreed: bool,      // the owner has called nvkms_free_timer
    dropped: bool,         // the timer's reference on its target has been dropped
    calls: nat,
    frees: nat)

  datatype RefPtr = RefPtr(ptr: Option<nat>, held: bool, count: int, frees: nat)

  /** Where the worker is inside `nvkms_kthread_q_callback`. */
  datatype Worker = Free | Popped(t: Tid) | Unlisted(t: Tid) | Synced(t: Tid) | InProc(t: Tid)

  datatype Phase = Normal | Draining(unlinked: Option<Tid>) | Drained | Stopped

  datatype State = State(
    timers: map<Tid, Timer>, refs: map<Rid, RefPtr>, worker: Worker, phase: Phase)

  const INITIAL: State := State(map[], map[], Free, Normal)

  datatype Step =
    | AllocRef(r: Rid, ptr: nat)
    | FreeRef(r: Rid)
    | AllocTimer(t: Tid, target: Option<Rid>, atOnce: bool)
    | FreeTimer(t: Tid)
    | Fire(t: Tid)
    | FireQueue(t: Tid)
    | FireEnd(t: Tid)
    | Take(t: Tid)
    | Unlist(t: Tid)
    | Sync(t: Tid)
    | Enter(t: Tid)
    | ProcReturn(t: Tid)
    | BeginExit
    | DrainUnlink(t: Tid)
    | DrainFree(t: Tid)
    | EndDrain
    | StopQueue

  /** The state core NVKMS leaves at module unload: every timer handle given back and
      every weak pointer released. */
  predicate AllReleased(s: State) {
    && (forall t :: t in s.timers && s.timers[t].target == None ==> s.timers[t].ownerFreed)
    && (forall r :: r in s.refs ==> !s.refs[r].held)
  }

  predicate Enabled(s: State, step: Step) {
    match step
    case AllocRef(r, _) => s.phase.Normal? && r !in s.refs
    case FreeRef(r) => s.phase.Normal? && r in s.refs && s.refs[r].held
    case AllocTimer(t, target, _) =>
      s.phase.Normal? && t !in s.timers && (target.Some? ==> target.value in s.refs && s.refs[target.value].held)
    case FreeTimer(t) =>
      s.phase.Normal? && t in s.timers && s.timers[t].target == None && !s.timers[t].ownerFreed
    case Fire(t) => t in s.timers && s.timers[t].kernel == Pending
    case FireQueue(t) => t in s.timers && s.timers[t].kernel == Firing
    case FireEnd(t) => t in s.timers && s.timers[t].kernel == Finishing
    case Take(t) => s.worker == Free && t in s.timers && s.timers[t].queued
    case Unlist(t) => s.worker == Popped(t) && t in s.timers
    case Sync(t) =>
      && s.worker == Unlisted(t) && t in s.timers
      && (s.timers[t].created ==> s.timers[t].kernel != Firing && s.timers[t].kernel != Finishing)
    case Enter(t) => s.worker == Synced(t) && t in s.timers
    case ProcReturn(t) => s.worker == InProc(t) && t in s.timers
    case BeginExit => s.phase.Normal? && AllReleased(s) && !s.worker.InProc?
    case DrainUnlink(t) =>
      && s.phase == Draining(None) && t in s.timers
      && s.timers[t].links > 0 && s.timers[t].created && s.timers[t].kernel == Pending
    case DrainFree(t) => s.phase == Draining(Some(t)) && t in s.timers
    case EndDrain =>
      && s.phase == Draining(None)
      && forall t :: t in s.timers && s.timers[t].links > 0 && s.timers[t].created ==> s.timers[t].kernel == Idle
    case StopQueue =>
      s.phase.Drained? && s.worker == Free && forall t :: t in s.timers ==> !s.timers[t].queued
  }

  /** `nvkms_dec_ref`: the count goes down and at zero the object is freed. */
  function DecRef(refs: map<Rid, RefPtr>, r: Rid): map<Rid, RefPtr> {
    if r in refs then
      refs[r := refs[r].(count := refs[r].count - 1,
                         frees := refs[r].frees + (if refs[r].count == 1 then 1 else 0))]
    else refs
  }

  function IncRef(refs: map<Rid, RefPtr>, r: Rid): map<Rid, RefPtr> {
    if r in refs then refs[r := refs[r].(count := refs[r].count + 1)] else refs
  }

  /** The value a timer's procedure would get. */
  function Target(s: State, x: Timer): Option<nat> {
    match x.target
    case Some(r) => if r in s.refs then s.refs[r].ptr else None
    case None => Some(0)
  }

  /** The free at the end of `nvkms_kthread_q_callback`. */
  function Dispose(x: Timer): Timer {
    if x.target.Some? || x.cancel then x.(frees := x.frees + 1) else x
  }

  /** The timer a step is about, after the step. */
  function Updated(s: State, x: Timer, step: Step): Timer {
    match step
    case FreeTimer(_) =>
      if x.complete then x.(ownerFreed := true, frees := x.frees + 1) else x.(ownerFreed := true, cancel := true)
    case Fire(_) => x.(kernel := Firing)
    case FireQueue(_) => x.(kernel := Finishing, queued := true)
    case FireEnd(_) => x.(kernel := Idle)
    case Take(_) => x.(queued := false)
    case Unlist(_) => x.(links := x.links - 1)
    case Sync(_) => if x.created && x.kernel == Pending then x.(kernel := Idle) else x
    case Enter(_) =>
      var y := x.(dropped := x.target.Some?, cancel := x.cancel || Target(s, x) == None);
      if y.cancel then Dispose(y) else y.(calls := x.calls + 1)
    case ProcReturn(_) => Dispose(x.(complete := true))
    case DrainUnlink(_) => x.(kernel := Idle, links := x.links - 1)
    case DrainFree(_) => x.(dropped := x.target.Some?, frees := x.frees + 1)
    case _ => x
  }

  predicate AboutTimer(step: Step) {
    step.FreeTimer? || step.Fire? || step.FireQueue? || step.FireEnd? || step.Take? || step.Unlist? || step.Sync?
    || step.Enter? || step.ProcReturn? || step.DrainUnlink? || step.DrainFree?
  }

  function NextTimers(s: State, step: Step): map<Tid, Timer>
    requires Enabled(s, step)
  {
    if AboutTimer(step) then s.timers[step.t := Updated(s, s.timers[step.t], step)]
    else if step.AllocTimer? then
      s.timers[step.t := Timer(step.target, !step.atOnce, if step.atOnce then Idle else Pending,
                               step.atOnce, 1, false, false, false, false, 0, 0)]
    else s.timers
  }

  function NextRefs(s: State, step: Step): map<Rid, RefPtr>
    requires Enabled(s, step)
  {
    match step
    case AllocRef(r, ptr) => s.refs[r := RefPtr(Some(ptr), true, 1, 0)]
    case FreeRef(r) => DecRef(s.refs[r := s.refs[r].(ptr := None, held := false)], r)
    case AllocTimer(_, target, _) => if target.Some? then IncRef(s.refs, target.value) else s.refs
    case Enter(t) => if s.timers[t].target.Some? then DecRef(s.refs, s.timers[t].target.value) else s.refs
    case DrainFree(t) => if s.timers[t].target.Some? then DecRef(s.refs, s.timers[t].target.value) else s.refs
    case _ => s.refs
  }

  function NextWorker(s: State, step: Step): Worker
    requires Enabled(s, step)
  {
    match step
    case Take(t) => Popped(t)
    case Unlist(t) => Unlisted(t)
    case Sync(t) => Synced(t)
    case Enter(t) => if s.timers[t].cancel || Target(s, s.timers[t]) == None then Free else InProc(t)
    case ProcReturn(_) => Free
    case _ => s.worker
  }

  function NextPhase(s: State, step: Step): Phase
    requires Enabled(s, step)
  {
    match step
    case BeginExit => Draining(None)
    case DrainUnlink(t) => Draining(Some(t))
    case DrainFree(_) => Draining(None)
    case EndDrain => Drained
    case StopQueue => Stopped
    case _ => s.phase
  }

  function Next(s: State, step: Step): State
    requires Enabled(s, step)
  {
    State(NextTimers(s, step), NextRefs(s, step), NextWorker(s, step), NextPhase(s, step))
  }

  ghost predicate IsRun(s: State, steps: seq<Step>)
    decreases |steps|
  {
    steps == [] || (Enabled(s, steps[0]) && IsRun(Next(s, steps[0]), steps[1..]))
  }

  ghost function After(s: State, steps: seq<Step>): State
    requires IsRun(s, steps)
    decreases |steps|
  {
    if steps == [] then s else After(Next(s, steps[0]), steps[1..])
  }
}
