/** The semaphore-surface fence context as a shared state and atomic steps.  A step
    is one lock-held region, one call into NVKMS, or one signal of a fence.

    Callback objects move between the thread that allocated them, NVKMS, the
    handler NVKMS runs, the context's work queue and `nv_drm_free`.  `stage` says
    how far an object has come and `frees` counts the calls of `nv_drm_free` on it.
    `keeper` is bookkeeping for the proofs: the one place that may still cancel the
    object.  No step is enabled or disabled by it. */
module SemsurfModel {
  import opened Common
  import opened FenceList

  type Cid = nat
  type Tid = nat

  datatype Stage =
    | Held               // allocated, not yet registered
    | Armed              // registered with NVKMS, handler not started
    | Started            // handler running, before its locked region
    | Cleared            // after the locked region
    | Scanned            // after the handler's own scan
    | Queued             // work item on the context's worker
    | Working(worker: Tid)// work item running
    | Cancelled          // unregistered by the destructor, not yet freed
    | Freed

  datatype Keeper = Context | Keeper(thread: Tid) | Nobody

  datatype Callback = Callback(waitValue: nat, stage: Stage, keeper: Keeper, frees: nat)

  /** Where a thread is inside `__nv_drm_semsurf_ctx_reg_callbacks`.  A scan reads the
      semaphore and the clock before it takes the lock: `since` and `from` are their values
      when the thread came to do so, and the lower bounds of what it reads. */
  datatype Pc =
    | Scanning(cb: Cid, since: nat, from: nat)
    | Registering(cb: Cid, value: nat)
    | Storing(cb: Cid, value: nat)
    | Unregistering(cb: Cid)
    | Returning

  datatype Origin = Adder | TimeoutWork | CallbackWork(fired: Cid)
  datatype Thread = Thread(pc: Pc, origin: Origin)

  /** Who holds a fence on a local list between taking it off `pending_fences` and
      signalling it, and with which result it will be signalled. */
  datatype Actor = OnThread(t: Tid) | OnHandler(cb: Cid)
  datatype Status = Reached | TimedOut | Forced
  datatype Delivery = Delivery(actor: Actor, status: Status)

  /** `refs` counts the context's own references, `signals` every signal sent. */
  datatype FenceRecord = FenceRecord(fence: Fence, refs: int, signals: seq<Status>)

  /** Progress of the destructor. Before `ShuttingDown` the worker takes new work. */
  datatype Life =
    | Live | ShuttingDown | Drained | Fetched(found: Option<Cid>)
    | Unregistered | SurfaceFreed | CallbackFreed

  datatype State = State(
    life: Life,
    sem: nat,
    clock: nat,
    pending: seq<Fence>,
    tag: nat,
    local: Option<Cid>,
    cbs: map<Cid, Callback>,
    threads: map<Tid, Thread>,
    inflight: map<nat, Delivery>,
    fences: map<nat, FenceRecord>,
    added: nat,
    // the context's timeout work is on the queue
    timeoutWork: bool)

  const INITIAL: State := State(Live, 0, 0, [], 0, None, map[], map[], map[], map[], 0, false)

  datatype Step =
    | Advance(sem: nat, clock: nat)
    | Add(t: Tid, cb: Cid, fence: Fence)
    | TimerFires
    | RunTimeoutWork(t: Tid, cb: Cid)
    | RunCallbackWork(t: Tid, cb: Cid, fired: Cid)
    | DoScan(t: Tid, read: nat, now: nat)
    | Signal(id: nat)
    | RegisterOk(t: Tid)
    | RegisterSignalled(t: Tid)
    | RegisterFail(t: Tid)
    | DoStore(t: Tid)
    | DoUnregister(t: Tid)
    | Return(t: Tid)
    | Start(cb: Cid)
    | Clear(cb: Cid)
    | HandlerScan(cb: Cid, read: nat, now: nat)
    | HandlerQueue(cb: Cid)
    | BeginDestroy
    | Drain
    | Fetch
    | DestroyUnregister
    | FreeSurface
    | FreeLocal
    | ForceComplete

  // ---- Callback objects

  function SetStage(cbs: map<Cid, Callback>, c: Cid, stage: Stage): map<Cid, Callback> {
    if c in cbs then cbs[c := cbs[c].(stage := stage)] else cbs
  }

  function SetKeeper(cbs: map<Cid, Callback>, c: Cid, keeper: Keeper): map<Cid, Callback> {
    if c in cbs then cbs[c := cbs[c].(keeper := keeper)] else cbs
  }

  /** `nv_drm_free`: counted, never refused. */
  function Free(cbs: map<Cid, Callback>, c: Cid): map<Cid, Callback> {
    if c in cbs then cbs[c := cbs[c].(stage := Freed, frees := cbs[c].frees + 1)] else cbs
  }

  /** A free by the place that could still cancel the object, which lets go of it. */
  function Release(cbs: map<Cid, Callback>, c: Cid): map<Cid, Callback> {
    SetKeeper(Free(cbs, c), c, Nobody)
  }

  predicate IsArmed(cbs: map<Cid, Callback>, c: Cid) {
    c in cbs && cbs[c].stage == Armed
  }

  // ---- Fences leaving the pending list

  function Leaving(list: seq<Fence>, delivery: Delivery): map<nat, Delivery> {
    if list == [] then map[] else Leaving(list[1..], delivery)[list[0].id := delivery]
  }

  function Outgoing(r: ScanResult, actor: Actor): map<nat, Delivery> {
    Leaving(r.finished, Delivery(actor, Reached)) + Leaving(r.timedOut, Delivery(actor, TimedOut))
  }

  predicate NothingInFlight(s: State, actor: Actor) {
    forall id :: id in s.inflight ==> s.inflight[id].actor != actor
  }

  /** A signal, and the drop of the context's reference that goes with it. */
  function SignalFence(fences: map<nat, FenceRecord>, id: nat, status: Status): map<nat, FenceRecord> {
    if id in fences then
      fences[id := fences[id].(refs := fences[id].refs - 1, signals := fences[id].signals + [status])]
    else fences
  }

  // ---- Threads

  predicate IsAt(s: State, t: Tid) {
    t in s.threads && NothingInFlight(s, OnThread(t))
  }

  function Goto(threads: map<Tid, Thread>, t: Tid, pc: Pc): map<Tid, Thread> {
    if t in threads then threads[t := threads[t].(pc := pc)] else threads
  }

  /** Entering `reg_callbacks`: a fresh callback object, then the first scan. */
  function Enter(s: State, t: Tid, cb: Cid, origin: Origin): State {
    s.(threads := s.threads[t := Thread(Scanning(cb, s.sem, s.clock), origin)],
       cbs := s.cbs[cb := Callback(0, Held, Keeper(t), 0)])
  }

  predicate Fresh(s: State, t: Tid, cb: Cid) {
    t !in s.threads && cb !in s.cbs
  }

  /** One kernel thread serves the context's queue. */
  predicate WorkerIdle(s: State) {
    forall u :: u in s.threads ==> s.threads[u].origin == Adder
  }

  predicate WorkerRuns(s: State) {
    s.life.Live? || s.life.ShuttingDown?
  }

  predicate InHandler(stage: Stage) {
    stage == Started || stage == Cleared || stage == Scanned
  }

  predicate StageIs(s: State, c: Cid, stage: Stage) {
    c in s.cbs && s.cbs[c].stage == stage
  }

  predicate Enabled(s: State, step: Step) {
    match step
    case Advance(sem, clock) => s.sem <= sem && s.clock <= clock
    case Add(t, cb, fence) => s.life.Live? && Fresh(s, t, cb) && fence.id == s.added
    case TimerFires => s.life.Live?
    case RunTimeoutWork(t, cb) => WorkerRuns(s) && WorkerIdle(s) && Fresh(s, t, cb) && s.timeoutWork
    case RunCallbackWork(t, cb, fired) =>
      WorkerRuns(s) && WorkerIdle(s) && Fresh(s, t, cb) && StageIs(s, fired, Queued)
    case DoScan(t, read, now) =>
      && IsAt(s, t) && s.threads[t].pc.Scanning?
      && s.threads[t].pc.since <= read <= s.sem && s.threads[t].pc.from <= now <= s.clock
    case Signal(id) => id in s.inflight
    case RegisterOk(t) => IsAt(s, t) && s.threads[t].pc.Registering?
    case RegisterSignalled(t) =>
      IsAt(s, t) && s.threads[t].pc.Registering? && s.threads[t].pc.value <= s.sem
    case RegisterFail(t) => IsAt(s, t) && s.threads[t].pc.Registering?
    case DoStore(t) => IsAt(s, t) && s.threads[t].pc.Storing?
    case DoUnregister(t) => IsAt(s, t) && s.threads[t].pc.Unregistering?
    case Return(t) => IsAt(s, t) && s.threads[t].pc.Returning?
    case Start(cb) =>
      StageIs(s, cb, Armed) && s.cbs[cb].waitValue <= s.sem && !s.life.SurfaceFreed? && !s.life.CallbackFreed?
    case Clear(cb) => StageIs(s, cb, Started)
    case HandlerScan(cb, read, now) => StageIs(s, cb, Cleared) && read <= s.sem && now <= s.clock
    case HandlerQueue(cb) => StageIs(s, cb, Scanned) && NothingInFlight(s, OnHandler(cb))
    case BeginDestroy => s.life.Live? && forall u :: u in s.threads ==> s.threads[u].origin != Adder
    case Drain =>
      && s.life.ShuttingDown? && s.threads == map[] && !s.timeoutWork
      && forall c :: c in s.cbs ==> s.cbs[c].stage != Queued
    case Fetch => s.life.Drained?
    case DestroyUnregister => s.life.Fetched?
    case FreeSurface => s.life.Unregistered? && forall c :: c in s.cbs ==> !InHandler(s.cbs[c].stage)
    case FreeLocal => s.life.SurfaceFreed?
    case ForceComplete => s.life.CallbackFreed? && s.pending != []
  }

  /** The locked region of `__nv_drm_semsurf_ctx_add_pending`. */
  function Insertion(s: State, fence: Fence): State {
    s.(pending := Insert(s.pending, fence),
       fences := s.fences[fence.id := FenceRecord(fence, 1, [])],
       added := s.added + 1)
  }

  function ScanNext(s: State, t: Tid, read: nat, now: nat): State
    requires Enabled(s, DoScan(t, read, now))
  {
    var cb := s.threads[t].pc.cb;
    var r := Scan(s.pending, read, now);
    var w := Retag(s.tag, r.rest);
    var s1 := s.(pending := r.rest, tag := w.tag, inflight := s.inflight + Outgoing(r, OnThread(t)));
    if w.waitValue == 0 then
      s1.(threads := Goto(s.threads, t, Returning), cbs := Release(s.cbs, cb))
    else
      s1.(threads := Goto(s.threads, t, Registering(cb, w.waitValue)),
          cbs := if cb in s.cbs then s.cbs[cb := s.cbs[cb].(waitValue := w.waitValue)] else s.cbs)
  }

  /** `__nv_drm_semsurf_ctx_store_callback`: install if the context still waits for
      this value, and pass on whatever was installed before. */
  function StoreNext(s: State, t: Tid): State
    requires Enabled(s, DoStore(t))
  {
    var Storing(cb, value) := s.threads[t].pc;
    if s.tag == value then
      var cbs := SetKeeper(s.cbs, cb, Context);
      match s.local
      case None => s.(local := Some(cb), cbs := cbs, threads := Goto(s.threads, t, Returning))
      case Some(prior) =>
        s.(local := Some(cb), cbs := SetKeeper(cbs, prior, Keeper(t)),
           threads := Goto(s.threads, t, Unregistering(prior)))
    else
      s.(threads := Goto(s.threads, t, Unregistering(cb)))
  }

  /** NVKMS cancels a callback exactly if its handler has not started; the caller
      frees the object exactly if it was cancelled. */
  function UnregisterNext(s: State, t: Tid): State
    requires Enabled(s, DoUnregister(t))
  {
    var cb := s.threads[t].pc.cb;
    s.(threads := Goto(s.threads, t, Returning),
       cbs := if IsArmed(s.cbs, cb) then Release(s.cbs, cb) else SetKeeper(s.cbs, cb, Nobody))
  }

  function ReturnNext(s: State, t: Tid): State
    requires Enabled(s, Return(t))
  {
    var th := s.threads[t];
    s.(threads := s.threads - {t},
       cbs := if th.origin.CallbackWork? then Free(s.cbs, th.origin.fired) else s.cbs)
  }

  /** The locked region of `__nv_drm_semsurf_ctx_callback`. */
  function ClearNext(s: State, cb: Cid): State
    requires Enabled(s, Clear(cb))
  {
    var mine := s.local == Some(cb);
    s.(local := if mine then None else s.local,
       tag := if s.tag == s.cbs[cb].waitValue then 0 else s.tag,
       cbs := if mine then SetKeeper(SetStage(s.cbs, cb, Cleared), cb, Nobody) else SetStage(s.cbs, cb, Cleared))
  }

  function HandlerScanNext(s: State, cb: Cid, read: nat, now: nat): State {
    var r := Scan(s.pending, read, now);
    s.(pending := r.rest, inflight := s.inflight + Outgoing(r, OnHandler(cb)), cbs := SetStage(s.cbs, cb, Scanned))
  }

  function Next(s: State, step: Step): State
    requires Enabled(s, step)
  {
    match step
    case Advance(sem, clock) => s.(sem := sem, clock := clock)
    case Add(t, cb, fence) => Enter(Insertion(s, fence), t, cb, Adder)
    case TimerFires => s.(timeoutWork := true)
    case RunTimeoutWork(t, cb) => Enter(s.(timeoutWork := false), t, cb, TimeoutWork)
    case RunCallbackWork(t, cb, fired) =>
      Enter(s.(cbs := SetStage(s.cbs, fired, Working(t))), t, cb, CallbackWork(fired))
    case DoScan(t, read, now) => ScanNext(s, t, read, now)
    case Signal(id) =>
      s.(inflight := s.inflight - {id}, fences := SignalFence(s.fences, id, s.inflight[id].status))
    case RegisterOk(t) =>
      var Registering(cb, value) := s.threads[t].pc;
      s.(threads := Goto(s.threads, t, Storing(cb, value)), cbs := SetStage(s.cbs, cb, Armed))
    case RegisterSignalled(t) => s.(threads := Goto(s.threads, t, Scanning(s.threads[t].pc.cb, s.sem, s.clock)))
    case RegisterFail(t) =>
      s.(threads := Goto(s.threads, t, Returning), cbs := Release(s.cbs, s.threads[t].pc.cb))
    case DoStore(t) => StoreNext(s, t)
    case DoUnregister(t) => UnregisterNext(s, t)
    case Return(t) => ReturnNext(s, t)
    case Start(cb) => s.(cbs := SetStage(s.cbs, cb, Started))
    case Clear(cb) => ClearNext(s, cb)
    case HandlerScan(cb, read, now) => HandlerScanNext(s, cb, read, now)
    case HandlerQueue(cb) =>
      s.(cbs := if s.life.Live? then SetStage(s.cbs, cb, Queued) else Free(s.cbs, cb))
    case BeginDestroy => s.(life := ShuttingDown)
    case Drain => s.(life := Drained)
    case Fetch => s.(life := Fetched(s.local))
    case DestroyUnregister =>
      s.(life := Unregistered,
         cbs := if s.life.found.Some? && IsArmed(s.cbs, s.life.found.value)
                then SetStage(s.cbs, s.life.found.value, Cancelled) else s.cbs)
    case FreeSurface => s.(life := SurfaceFreed)
    case FreeLocal =>
      s.(life := CallbackFreed, local := None,
         cbs := if s.local.Some? then Release(s.cbs, s.local.value) else s.cbs)
    case ForceComplete =>
      s.(pending := s.pending[1..], fences := SignalFence(s.fences, s.pending[0].id, Forced))
  }

  // ---- Runs

  ghost predicate IsRun(s: State, steps: seq<Step>)
    decreases |steps|
  {
    steps == [] || (Enabled(s, steps[0]) && IsRun(Next(s, steps[0]), steps[1..]))
  }

  ghost function After(s: State, steps: seq<Step>): State
    requires IsRun(s, steps)
    decreases |steps|
  {
    if steps == [] then s else After(Next(s, steps[0]), steps[1..])
  }

  lemma {:induction false} RunAppend(s: State, steps: seq<Step>, step: Step)
    requires IsRun(s, steps) && Enabled(After(s, steps), step)
    ensures IsRun(s, steps + [step]) && After(s, steps + [step]) == Next(After(s, steps), step)
    decreases |steps|
  {
    if steps == [] {
      assert [] + [step] == [step];
    } else {
      assert (steps + [step])[1..] == steps[1..] + [step];
      RunAppend(Next(s, steps[0]), steps[1..], step);
    }
  }
}
