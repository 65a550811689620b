/** Progress of a context: with no new fences and timeouts, the threads, handlers, work
    items and the destructor come to rest after a bounded number of steps, however the
    semaphore and the clock advance meanwhile.  At rest a live context has signalled every
    fence the semaphore has reached, and a destroyed one has signalled and freed all. */
module SemsurfProgress {
  import opened Common
  import opened FenceList
  import opened SemsurfModel
  import opened SemsurfFences
  import opened SemsurfOwnership
  import opened SemsurfInflight
  import opened SemsurfRuns
  import opened SemsurfWakeup

  // ---- Pending fences above a value

  function Above(p: seq<Fence>, v: nat): nat {
    if p == [] then 0 else (if p[0].seqno > v then 1 else 0) + Above(p[1..], v)
  }

  lemma {:induction false} AboveFalls(p: seq<Fence>, v: nat, w: nat)
    requires v <= w
    ensures Above(p, w) <= Above(p, v) <= |p|
  {
    if p != [] { AboveFalls(p[1..], v, w); }
  }

  lemma {:induction false} AboveSuffix(q: seq<Fence>, p: seq<Fence>, v: nat)
    ensures Above(p, v) <= Above(q + p, v)
  {
    if q == [] {
      assert q + p == p;
    } else {
      assert (q + p)[1..] == q[1..] + p;
      AboveSuffix(q[1..], p, v);
    }
  }

  /** The head itself is above the value, but not above itself. */
  lemma AboveHead(p: seq<Fence>, v: nat)
    requires p != [] && p[0].seqno > v
    ensures Above(p, p[0].seqno) < Above(p, v)
  {
    AboveFalls(p[1..], v, p[0].seqno);
  }

  // ---- The work left

  /** Steps a thread may still cause.  A thread that scans again after registering has a
      higher head before it, so it has fewer fences above it. */
  function ThreadWeight(pc: Pc, p: seq<Fence>): nat {
    match pc
    case Returning => 1
    case Unregistering(_) => 2
    case Storing(_, _) => 3
    case Registering(_, value) => 10 * Above(p, value) + 11
    case Scanning(_, since, _) => 10 * Above(p, since) + 2
  }

  /** Steps a callback may still cause, with those of the work item it ends in. */
  function CallbackWeight(b: Callback, p: seq<Fence>): nat {
    match b.stage
    case Armed => 10 * Above(p, b.waitValue) + 7
    case Started => 10 * Above(p, b.waitValue) + 6
    case Cleared => 10 * Above(p, b.waitValue) + 5
    case Scanned => 10 * Above(p, b.waitValue) + 4
    case Queued => 10 * Above(p, b.waitValue) + 3
    case _ => 0
  }

  function LifeWeight(life: Life): nat {
    match life
    case Live => 6
    case ShuttingDown => 5
    case Drained => 4
    case Fetched(_) => 3
    case Unregistered => 2
    case SurfaceFreed => 1
    case CallbackFreed => 0
  }

  function WeighThread(p: seq<Fence>): Thread -> nat {
    (th: Thread) => ThreadWeight(th.pc, p)
  }

  function WeighCallback(p: seq<Fence>): Callback -> nat {
    (b: Callback) => CallbackWeight(b, p)
  }

  ghost function ThreadSum(threads: map<Tid, Thread>, p: seq<Fence>): nat {
    Sum(threads, WeighThread(p))
  }

  ghost function CallbackSum(cbs: map<Cid, Callback>, p: seq<Fence>): nat {
    Sum(cbs, WeighCallback(p))
  }

  function TimeoutWeight(queued: bool, p: seq<Fence>): nat {
    if queued then 10 * |p| + 3 else 0
  }

  ghost function Work(s: State): nat {
    ThreadSum(s.threads, s.pending) + CallbackSum(s.cbs, s.pending) + TimeoutWeight(s.timeoutWork, s.pending)
    + 2 * |s.pending| + |s.inflight| + LifeWeight(s.life)
  }

  // ---- One entry changes

  lemma ThreadMoves(threads: map<Tid, Thread>, p: seq<Fence>, t: Tid, th: Thread)
    ensures ThreadSum(threads[t := th], p) + (if t in threads then ThreadWeight(threads[t].pc, p) else 0)
         == ThreadSum(threads, p) + ThreadWeight(th.pc, p)
  {
    SumUpdate(threads, WeighThread(p), t, th);
  }

  lemma ThreadLeaves(threads: map<Tid, Thread>, p: seq<Fence>, t: Tid)
    requires t in threads
    ensures ThreadSum(threads, p) == ThreadSum(threads - {t}, p) + ThreadWeight(threads[t].pc, p)
  {
    SumSplit(threads, WeighThread(p), t);
  }

  lemma CallbackMoves(cbs: map<Cid, Callback>, p: seq<Fence>, c: Cid, b: Callback)
    ensures CallbackSum(cbs[c := b], p) + (if c in cbs then CallbackWeight(cbs[c], p) else 0)
         == CallbackSum(cbs, p) + CallbackWeight(b, p)
  {
    SumUpdate(cbs, WeighCallback(p), c, b);
  }

  lemma KeeperWeighsNothing(cbs: map<Cid, Callback>, p: seq<Fence>, c: Cid, k: Keeper)
    ensures CallbackSum(SetKeeper(cbs, c, k), p) == CallbackSum(cbs, p)
  {
    if c in cbs { CallbackMoves(cbs, p, c, cbs[c].(keeper := k)); }
  }

  lemma ReleaseWeighs(cbs: map<Cid, Callback>, p: seq<Fence>, c: Cid)
    ensures CallbackSum(Release(cbs, c), p) <= CallbackSum(cbs, p)
    ensures CallbackSum(Free(cbs, c), p) <= CallbackSum(cbs, p)
    ensures c in cbs ==> CallbackSum(Free(cbs, c), p) + CallbackWeight(cbs[c], p) == CallbackSum(cbs, p)
  {
    if c in cbs { CallbackMoves(cbs, p, c, cbs[c].(stage := Freed, frees := cbs[c].frees + 1)); }
    KeeperWeighsNothing(Free(cbs, c), p, c, Nobody);
  }

  // ---- Fences only move towards being signalled

  lemma ShorterWeighs(threads: map<Tid, Thread>, cbs: map<Cid, Callback>, q: seq<Fence>, p: seq<Fence>)
    ensures ThreadSum(threads, p) <= ThreadSum(threads, q + p)
    ensures CallbackSum(cbs, p) <= CallbackSum(cbs, q + p)
  {
    forall t | t in threads ensures ThreadWeight(threads[t].pc, p) <= ThreadWeight(threads[t].pc, q + p) {
      match threads[t].pc
      case Registering(_, value) => AboveSuffix(q, p, value);
      case Scanning(_, since, _) => AboveSuffix(q, p, since);
      case _ =>
    }
    SumMonotone(threads, WeighThread(p), WeighThread(q + p));
    forall c | c in cbs ensures CallbackWeight(cbs[c], p) <= CallbackWeight(cbs[c], q + p) {
      AboveSuffix(q, p, cbs[c].waitValue);
    }
    SumMonotone(cbs, WeighCallback(p), WeighCallback(q + p));
  }

  lemma {:induction false} LeavingSize(list: seq<Fence>, d: Delivery)
    ensures |Leaving(list, d)| <= |list|
  {
    if list != [] {
      LeavingSize(list[1..], d);
    }
  }

  lemma UnionSize<V>(a: map<nat, V>, b: map<nat, V>)
    ensures |a + b| <= |a| + |b|
  {
    assert (a + b).Keys == a.Keys + b.Keys;
    assert |a + b| == |(a + b).Keys| && |a| == |a.Keys| && |b| == |b.Keys|;
  }

  lemma ScanShrinks(p: seq<Fence>, inflight: map<nat, Delivery>, read: nat, now: nat, actor: Actor)
    requires Sorted(p)
    ensures var r := Scan(p, read, now);
      2 * |r.rest| + |inflight + Outgoing(r, actor)| <= 2 * |p| + |inflight|
  {
    var r := Scan(p, read, now);
    ScanExact(p, read, now);
    var a, b := Leaving(r.finished, Delivery(actor, Reached)), Leaving(r.timedOut, Delivery(actor, TimedOut));
    LeavingSize(r.finished, Delivery(actor, Reached));
    LeavingSize(r.timedOut, Delivery(actor, TimedOut));
    UnionSize(a, b);
    UnionSize(inflight, a + b);
  }

  // ---- Every step does some of the work

  /** Nothing new comes from outside. */
  predicate Closed(step: Step) {
    !step.Add? && !step.TimerFires?
  }

  /** A thread moves on while the list gets shorter. */
  lemma ThreadRetreats(threads: map<Tid, Thread>, t: Tid, pc: Pc, q: seq<Fence>, p: seq<Fence>)
    requires t in threads && ThreadWeight(pc, p) < ThreadWeight(threads[t].pc, q + p)
    ensures ThreadSum(Goto(threads, t, pc), p) < ThreadSum(threads, q + p)
  {
    var threads' := Goto(threads, t, pc);
    ThreadLeaves(threads, q + p, t);
    ThreadLeaves(threads', p, t);
    assert threads' - {t} == threads - {t};
    ShorterWeighs(threads - {t}, map[], q, p);
  }

  lemma ScanLowers(p: seq<Fence>, read: nat, now: nat, tag: nat, since: nat, cb: Cid, from: nat)
    requires Sorted(p) && since <= read
    ensures var r := Scan(p, read, now); var w := Retag(tag, r.rest);
      ThreadWeight(if w.waitValue == 0 then Returning else Registering(cb, w.waitValue), r.rest)
      < ThreadWeight(Scanning(cb, since, from), p)
  {
    var r := Scan(p, read, now);
    ScanExact(p, read, now);
    if r.rest != [] {
      AboveHead(r.rest, since);
      AboveSuffix(r.finished + r.timedOut, r.rest, since);
    }
  }

  /** The object of a scanning thread weighs nothing, before and after. */
  lemma HeldWeighs(cbs: map<Cid, Callback>, p: seq<Fence>, cb: Cid, value: nat)
    requires cb in cbs && cbs[cb].stage == Held
    ensures CallbackSum(cbs[cb := cbs[cb].(waitValue := value)], p) == CallbackSum(cbs, p)
  {
    CallbackMoves(cbs, p, cb, cbs[cb].(waitValue := value));
  }

  lemma ScanWorks(s: State, t: Tid, read: nat, now: nat, s': State)
    requires Owned(s) && FencesOk(s) && Enabled(s, DoScan(t, read, now)) && s' == ScanNext(s, t, read, now)
    ensures Work(s') < Work(s)
  {
    var r := Scan(s.pending, read, now);
    var w := Retag(s.tag, r.rest);
    var q := r.finished + r.timedOut;
    var Scanning(cb, since, from) := s.threads[t].pc;
    assert ThreadOk(s, t);
    ScanExact(s.pending, read, now);
    ScanLowers(s.pending, read, now, s.tag, since, cb, from);
    assert s.pending == q + r.rest;
    ThreadRetreats(s.threads, t, if w.waitValue == 0 then Returning else Registering(cb, w.waitValue), q, r.rest);
    ShorterWeighs(map[], s.cbs, q, r.rest);
    ReleaseWeighs(s.cbs, r.rest, cb);
    HeldWeighs(s.cbs, r.rest, cb, w.waitValue);
    ScanShrinks(s.pending, s.inflight, read, now, OnThread(t));
  }

  /** A step of a thread that leaves the list alone. */
  lemma MoveWorks(s: State, t: Tid, pc: Pc, s': State)
    requires t in s.threads && s'.threads == Goto(s.threads, t, pc)
    requires s'.pending == s.pending && s'.inflight == s.inflight
    requires s'.life == s.life && s'.timeoutWork == s.timeoutWork
    requires ThreadWeight(pc, s.pending) + CallbackSum(s'.cbs, s.pending)
      < ThreadWeight(s.threads[t].pc, s.pending) + CallbackSum(s.cbs, s.pending)
    ensures Work(s') < Work(s)
  {
    ThreadMoves(s.threads, s.pending, t, s.threads[t].(pc := pc));
  }

  lemma RegisterOkWorks(s: State, t: Tid, cb: Cid, value: nat, s': State)
    requires Owned(s) && t in s.threads && s.threads[t].pc == Registering(cb, value)
    requires s' == s.(threads := Goto(s.threads, t, Storing(cb, value)), cbs := SetStage(s.cbs, cb, Armed))
    ensures Work(s') < Work(s)
  {
    assert ThreadOk(s, t);
    CallbackMoves(s.cbs, s.pending, cb, s.cbs[cb].(stage := Armed));
    MoveWorks(s, t, Storing(cb, value), s');
  }

  lemma RegisterSignalledWorks(s: State, t: Tid, cb: Cid, value: nat, s': State)
    requires t in s.threads && s.threads[t].pc == Registering(cb, value) && value <= s.sem
    requires s' == s.(threads := Goto(s.threads, t, Scanning(cb, s.sem, s.clock)))
    ensures Work(s') < Work(s)
  {
    AboveFalls(s.pending, value, s.sem);
    MoveWorks(s, t, Scanning(cb, s.sem, s.clock), s');
  }

  lemma RefusalWorks(s: State, t: Tid, cb: Cid, s': State)
    requires t in s.threads && s.threads[t].pc.Registering?
    requires s' == s.(threads := Goto(s.threads, t, Returning), cbs := Release(s.cbs, cb))
    ensures Work(s') < Work(s)
  {
    ReleaseWeighs(s.cbs, s.pending, cb);
    MoveWorks(s, t, Returning, s');
  }

  lemma StoreWeighsNothing(s: State, t: Tid)
    requires Enabled(s, DoStore(t))
    ensures CallbackSum(StoreNext(s, t).cbs, s.pending) == CallbackSum(s.cbs, s.pending)
  {
    var cb := s.threads[t].pc.cb;
    KeeperWeighsNothing(s.cbs, s.pending, cb, Context);
    if s.local.Some? {
      KeeperWeighsNothing(SetKeeper(s.cbs, cb, Context), s.pending, s.local.value, Keeper(t));
    }
  }

  lemma StoreWorks(s: State, t: Tid)
    requires Enabled(s, DoStore(t))
    ensures Work(StoreNext(s, t)) < Work(s)
  {
    StoreWeighsNothing(s, t);
    MoveWorks(s, t, StoreNext(s, t).threads[t].pc, StoreNext(s, t));
  }

  lemma UnregisterWorks(s: State, t: Tid)
    requires Enabled(s, DoUnregister(t))
    ensures Work(UnregisterNext(s, t)) < Work(s)
  {
    ReleaseWeighs(s.cbs, s.pending, s.threads[t].pc.cb);
    KeeperWeighsNothing(s.cbs, s.pending, s.threads[t].pc.cb, Nobody);
    MoveWorks(s, t, Returning, UnregisterNext(s, t));
  }

  lemma ReturnWorks(s: State, t: Tid)
    requires Enabled(s, Return(t))
    ensures Work(ReturnNext(s, t)) < Work(s)
  {
    ThreadLeaves(s.threads, s.pending, t);
    if s.threads[t].origin.CallbackWork? {
      ReleaseWeighs(s.cbs, s.pending, s.threads[t].origin.fired);
    }
  }

  /** A callback moves on, or is freed. */
  lemma StageWorks(s: State, c: Cid, stage: Stage, s': State)
    requires c in s.cbs && CallbackWeight(s.cbs[c].(stage := stage), s.pending) < CallbackWeight(s.cbs[c], s.pending)
    requires s'.threads == s.threads && s'.pending == s.pending && s'.inflight == s.inflight
    requires s'.life == s.life && s'.timeoutWork == s.timeoutWork
    requires CallbackSum(s'.cbs, s.pending) == CallbackSum(SetStage(s.cbs, c, stage), s.pending)
    ensures Work(s') < Work(s)
  {
    CallbackMoves(s.cbs, s.pending, c, s.cbs[c].(stage := stage));
  }

  lemma ClearWorks(s: State, cb: Cid)
    requires Enabled(s, Clear(cb))
    ensures Work(ClearNext(s, cb)) < Work(s)
  {
    KeeperWeighsNothing(SetStage(s.cbs, cb, Cleared), s.pending, cb, Nobody);
    StageWorks(s, cb, Cleared, ClearNext(s, cb));
  }

  lemma HandlerScanWorks(s: State, cb: Cid, read: nat, now: nat)
    requires StageIs(s, cb, Cleared) && Sorted(s.pending)
    ensures Work(HandlerScanNext(s, cb, read, now)) < Work(s)
  {
    var s' := HandlerScanNext(s, cb, read, now);
    var r := Scan(s.pending, read, now);
    var q := r.finished + r.timedOut;
    ScanExact(s.pending, read, now);
    assert s.pending == q + r.rest;
    ScanShrinks(s.pending, s.inflight, read, now, OnHandler(cb));
    ShorterWeighs(s.threads, s.cbs, q, r.rest);
    CallbackMoves(s.cbs, r.rest, cb, s.cbs[cb].(stage := Scanned));
  }

  lemma HandlerQueueWorks(s: State, cb: Cid, s': State)
    requires StageIs(s, cb, Scanned)
    requires s' == s.(cbs := if s.life.Live? then SetStage(s.cbs, cb, Queued) else Free(s.cbs, cb))
    ensures Work(s') < Work(s)
  {
    if s.life.Live? {
      StageWorks(s, cb, Queued, s');
    } else {
      ReleaseWeighs(s.cbs, s.pending, cb);
    }
  }

  lemma EnterWorks(s: State, t: Tid, cb: Cid, origin: Origin, s0: State)
    requires Fresh(s, t, cb) && s0.threads == s.threads && cb !in s0.cbs && s0.sem == s.sem
    requires s0.pending == s.pending && s0.inflight == s.inflight && s0.life == s.life
    requires CallbackSum(s0.cbs, s.pending) + TimeoutWeight(s0.timeoutWork, s.pending)
      + 10 * Above(s.pending, s.sem) + 2
      < CallbackSum(s.cbs, s.pending) + TimeoutWeight(s.timeoutWork, s.pending)
    ensures Work(Enter(s0, t, cb, origin)) < Work(s)
  {
    ThreadMoves(s.threads, s.pending, t, Thread(Scanning(cb, s0.sem, s0.clock), origin));
    CallbackMoves(s0.cbs, s.pending, cb, Callback(0, Held, Keeper(t), 0));
  }

  lemma TimeoutWorks(s: State, t: Tid, cb: Cid)
    requires Fresh(s, t, cb) && s.timeoutWork
    ensures Work(Enter(s.(timeoutWork := false), t, cb, TimeoutWork)) < Work(s)
  {
    AboveFalls(s.pending, s.sem, s.sem);
    EnterWorks(s, t, cb, TimeoutWork, s.(timeoutWork := false));
  }

  lemma WorkItemWorks(s: State, t: Tid, cb: Cid, fired: Cid)
    requires Owned(s) && Fresh(s, t, cb) && StageIs(s, fired, Queued)
    ensures Work(Enter(s.(cbs := SetStage(s.cbs, fired, Working(t))), t, cb, CallbackWork(fired))) < Work(s)
  {
    assert CallbackOk(s, fired);
    AboveFalls(s.pending, s.cbs[fired].waitValue, s.sem);
    CallbackMoves(s.cbs, s.pending, fired, s.cbs[fired].(stage := Working(t)));
    EnterWorks(s, t, cb, CallbackWork(fired), s.(cbs := SetStage(s.cbs, fired, Working(t))));
  }

  lemma SignalWorks(s: State, id: nat)
    requires Enabled(s, Signal(id))
    ensures Work(Next(s, Signal(id))) < Work(s)
  {
    RemoveShrinks(s.inflight, id);
  }

  lemma ForceWorks(s: State)
    requires Enabled(s, ForceComplete)
    ensures Work(Next(s, ForceComplete)) < Work(s)
  {
    assert s.pending == [s.pending[0]] + s.pending[1..];
    ShorterWeighs(s.threads, s.cbs, [s.pending[0]], s.pending[1..]);
  }

  predicate Destructs(step: Step) {
    step.BeginDestroy? || step.Drain? || step.Fetch? || step.DestroyUnregister? || step.FreeSurface? || step.FreeLocal?
  }

  lemma LifeWorks(s: State, s': State)
    requires s'.threads == s.threads && s'.pending == s.pending && s'.inflight == s.inflight
    requires s'.timeoutWork == s.timeoutWork && LifeWeight(s'.life) < LifeWeight(s.life)
    requires CallbackSum(s'.cbs, s.pending) <= CallbackSum(s.cbs, s.pending)
    ensures Work(s') < Work(s)
  {
  }

  lemma DestroyWorks(s: State, step: Step)
    requires Enabled(s, step) && Destructs(step)
    ensures Work(Next(s, step)) < Work(s)
  {
    if step.DestroyUnregister? {
      if s.life.found.Some? && IsArmed(s.cbs, s.life.found.value) {
        var c := s.life.found.value;
        CallbackMoves(s.cbs, s.pending, c, s.cbs[c].(stage := Cancelled));
      }
      LifeWorks(s, Next(s, step));
    } else if step.FreeLocal? {
      if s.local.Some? {
        ReleaseWeighs(s.cbs, s.pending, s.local.value);
      }
      LifeWorks(s, Next(s, step));
    } else {
      LifeWorks(s, Next(s, step));
    }
  }

  lemma ThreadStepWorks(s: State, step: Step)
    requires Owned(s) && FencesOk(s) && Enabled(s, step) && ByThread(step) && !step.Add?
    ensures Work(Next(s, step)) < Work(s)
  {
    if step.DoScan? {
      ScanWorks(s, step.t, step.read, step.now, Next(s, step));
    } else if step.RegisterOk? {
      RegisterOkWorks(s, step.t, s.threads[step.t].pc.cb, s.threads[step.t].pc.value, Next(s, step));
    } else if step.RegisterSignalled? {
      RegisterSignalledWorks(s, step.t, s.threads[step.t].pc.cb, s.threads[step.t].pc.value, Next(s, step));
    } else if step.RegisterFail? {
      RefusalWorks(s, step.t, s.threads[step.t].pc.cb, Next(s, step));
    } else if step.DoStore? {
      StoreWorks(s, step.t);
    } else if step.DoUnregister? {
      UnregisterWorks(s, step.t);
    } else if step.Return? {
      ReturnWorks(s, step.t);
    } else if step.RunTimeoutWork? {
      TimeoutWorks(s, step.t, step.cb);
    } else {
      WorkItemWorks(s, step.t, step.cb, step.fired);
    }
  }

  lemma OtherStepWorks(s: State, step: Step)
    requires Sorted(s.pending) && Enabled(s, step) && !ByThread(step) && !step.TimerFires? && !step.Advance?
    ensures Work(Next(s, step)) < Work(s)
  {
    if step.Start? {
      StageWorks(s, step.cb, Started, Next(s, step));
    } else if step.Clear? {
      ClearWorks(s, step.cb);
    } else if step.HandlerScan? {
      HandlerScanWorks(s, step.cb, step.read, step.now);
    } else if step.HandlerQueue? {
      HandlerQueueWorks(s, step.cb, Next(s, step));
    } else if step.Signal? {
      SignalWorks(s, step.id);
    } else if step.ForceComplete? {
      ForceWorks(s);
    } else {
      DestroyWorks(s, step);
    }
  }

  /** Every step but an advance of the semaphore or the clock uses up work. */
  lemma StepWorks(s: State, step: Step)
    requires Owned(s) && FencesOk(s) && Enabled(s, step) && Closed(step)
    ensures if step.Advance? then Work(Next(s, step)) == Work(s) else Work(Next(s, step)) < Work(s)
  {
    if ByThread(step) {
      ThreadStepWorks(s, step);
    } else if !step.Advance? {
      OtherStepWorks(s, step);
    }
  }

  /** The steps of a run that are not advances of the semaphore or the clock. */
  function Effort(steps: seq<Step>): nat {
    if steps == [] then 0 else (if steps[0].Advance? then 0 else 1) + Effort(steps[1..])
  }

  /** With nothing new from outside a run makes no more effort than there was work at its
      start, however the threads interleave and the semaphore advances. */
  lemma {:induction false} ComesToRest(s: State, steps: seq<Step>)
    requires ContextOk(s) && IsRun(s, steps) && AllHarmless(s, steps)
    requires forall i :: 0 <= i < |steps| ==> Closed(steps[i])
    ensures Effort(steps) <= Work(s)
    decreases |steps|
  {
    if steps != [] {
      assert Closed(steps[0]);
      StepWorks(s, steps[0]);
      StepContext(s, steps[0]);
      assert forall i :: 0 <= i < |steps[1..]| ==> steps[1..][i] == steps[i + 1];
      ComesToRest(Next(s, steps[0]), steps[1..]);
    }
  }
}
