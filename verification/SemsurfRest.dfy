/** Where runs of a context end: a live context that can do nothing more has done all that
    was due, and a destroyed one has signalled and freed everything. */
module SemsurfRest {
  import opened Common
  import opened FenceList
  import opened SemsurfModel
  import opened SemsurfFences
  import opened SemsurfOwnership
  import opened SemsurfInflight
  import opened SemsurfRuns
  import opened SemsurfWakeup
  import opened SemsurfProgress

  /** Steps the driver and NVKMS take by themselves, with a current reading and without
      refusing a registration. */
  predicate Calm(s: State, step: Step) {
    Closed(step) && !step.Advance? && !step.BeginDestroy? && !step.RegisterFail? && CurrentRead(s, step)
  }

  ghost predicate AtRest(s: State) {
    forall step :: Calm(s, step) ==> !Enabled(s, step)
  }

  lemma {:induction false} Unused(used: set<nat>) returns (n: nat)
    ensures forall k :: k in used ==> k < n
    decreases |used|
  {
    if used == {} {
      n := 0;
    } else {
      var k :| k in used;
      var m := Unused(used - {k});
      n := if k < m then m else k + 1;
      forall j | j in used ensures j < n {
        assert j == k || j in used - {k};
      }
    }
  }

  lemma RestIsSignalled(s: State)
    requires AtRest(s)
    ensures s.inflight == map[]
  {
    if s.inflight != map[] {
      var id :| id in s.inflight;
      assert Enabled(s, Signal(id));
    }
  }

  /** Threads that come to a scan have seen no later value and time than there are. */
  ghost predicate Timely(s: State) {
    forall t :: t in s.threads && s.threads[t].pc.Scanning? ==>
      s.threads[t].pc.since <= s.sem && s.threads[t].pc.from <= s.clock
  }

  lemma OwnedIsTimely(s: State)
    requires Owned(s)
    ensures Timely(s)
  {
    forall t | t in s.threads ensures ThreadOk(s, t) {
    }
  }

  /** No thread of the context is ever stuck. */
  lemma ThreadHasStep(s: State, t: Tid) returns (step: Step)
    requires Timely(s) && t in s.threads && s.inflight == map[]
    ensures Calm(s, step) && Enabled(s, step)
  {
    assert IsAt(s, t);
    match s.threads[t].pc
    case Scanning(_, _, _) => step := DoScan(t, s.sem, s.clock);
    case Registering(_, _) => step := RegisterOk(t);
    case Storing(_, _) => step := DoStore(t);
    case Unregistering(_) => step := DoUnregister(t);
    case Returning => step := Return(t);
  }

  lemma RestHasNoThread(s: State)
    requires Timely(s) && AtRest(s)
    ensures s.threads == map[]
  {
    RestIsSignalled(s);
    if s.threads != map[] {
      var t :| t in s.threads;
      var step := ThreadHasStep(s, t);
    }
  }

  lemma RestHasNoHandler(s: State, c: Cid)
    requires AtRest(s) && c in s.cbs
    ensures !InHandler(s.cbs[c].stage)
  {
    RestIsSignalled(s);
    assert !Enabled(s, Clear(c)) && !Enabled(s, HandlerQueue(c));
    assert !Enabled(s, HandlerScan(c, s.sem, s.clock));
  }

  lemma RestHasNoWork(s: State, c: Cid)
    requires Timely(s) && AtRest(s) && WorkerRuns(s)
    ensures !s.timeoutWork
    ensures c in s.cbs ==> s.cbs[c].stage != Queued
  {
    RestHasNoThread(s);
    var cb := Unused(s.cbs.Keys);
    assert !Enabled(s, RunTimeoutWork(0, cb));
    assert !Enabled(s, RunCallbackWork(0, cb, c));
  }

  lemma RestIsQuiet(s: State)
    requires Owned(s) && AtRest(s) && WorkerRuns(s)
    ensures Quiet(s) && s.inflight == map[] && !s.timeoutWork
  {
    OwnedIsTimely(s);
    RestIsSignalled(s);
    RestHasNoThread(s);
    RestHasNoWork(s, 0);
    forall c | c in s.cbs ensures !InHandler(s.cbs[c].stage) && s.cbs[c].stage != Queued {
      RestHasNoHandler(s, c);
      RestHasNoWork(s, c);
    }
  }

  // ---- A live context

  /** Every fence the semaphore has reached was signalled exactly once, and if others are
      pending a registered callback waits for the lowest of them, which is not reached. */
  ghost predicate Complete(s: State) {
    && (forall id :: id in s.fences && s.fences[id].fence.seqno <= s.sem ==> |s.fences[id].signals| == 1)
    && (s.pending != [] ==> Waited(s) && s.pending[0].seqno > s.sem)
  }

  lemma RestIsComplete(s: State)
    requires ContextOk(s) && Wakes(s) && s.life.Live? && AtRest(s)
    ensures Complete(s)
  {
    RestIsQuiet(s);
    if s.pending != [] {
      QuietIsWaited(s);
      assert !Enabled(s, Start(s.local.value));
    }
    forall id | id in s.fences && s.fences[id].fence.seqno <= s.sem ensures |s.fences[id].signals| == 1 {
      assert FenceOk(s, id);
      assert s.fences[id].fence !in s.pending by {
        forall i | 0 <= i < |s.pending| ensures s.pending[i].seqno > s.sem {
          assert i == 0 || Before(s.pending[0], s.pending[i]);
        }
      }
    }
  }

  /** When a live context is at rest, all that was due is done. */
  lemma RestCompletes(steps: seq<Step>)
    requires IsRun(INITIAL, steps) && AllHarmless(INITIAL, steps) && AllTolerable(INITIAL, steps)
    requires After(INITIAL, steps).life.Live? && AtRest(After(INITIAL, steps))
    ensures Complete(After(INITIAL, steps))
  {
    InitialContext();
    InitialWakes();
    RunWakes(INITIAL, steps);
    RestIsComplete(After(INITIAL, steps));
  }

  // ---- The destructor

  lemma StaysDead(s: State, step: Step)
    requires Enabled(s, step) && !s.life.Live?
    ensures Closed(step) && !Next(s, step).life.Live?
  {
  }

  /** Once destruction has begun a run makes no more effort than there was work. */
  lemma {:induction false} DestructionEnds(s: State, steps: seq<Step>)
    requires ContextOk(s) && !s.life.Live? && IsRun(s, steps) && AllHarmless(s, steps)
    ensures Effort(steps) <= Work(s)
    decreases |steps|
  {
    if steps != [] {
      StaysDead(s, steps[0]);
      StepWorks(s, steps[0]);
      StepContext(s, steps[0]);
      DestructionEnds(Next(s, steps[0]), steps[1..]);
    }
  }

  /** A destructor that waits for nobody goes on. */
  lemma DestructorHasStep(s: State) returns (step: Step)
    requires !s.life.Live? && !(s.life.CallbackFreed? && s.pending == [])
    requires s.threads == map[] && forall c :: c in s.cbs ==> !InHandler(s.cbs[c].stage)
    requires s.life.ShuttingDown? ==> Quiet(s) && !s.timeoutWork
    ensures Calm(s, step) && Enabled(s, step)
  {
    match s.life
    case ShuttingDown => step := Drain;
    case Drained => step := Fetch;
    case Fetched(_) => step := DestroyUnregister;
    case Unregistered => step := FreeSurface;
    case SurfaceFreed => step := FreeLocal;
    case CallbackFreed => step := ForceComplete;
  }

  /** The destructor is never stuck: at rest it has run to its end. */
  lemma RestIsDestroyed(s: State)
    requires ContextOk(s) && !s.life.Live? && AtRest(s)
    ensures s.life.CallbackFreed? && s.pending == []
  {
    OwnedIsTimely(s);
    RestHasNoThread(s);
    forall c | c in s.cbs ensures !InHandler(s.cbs[c].stage) {
      RestHasNoHandler(s, c);
    }
    if WorkerRuns(s) {
      RestIsQuiet(s);
    }
    if !(s.life.CallbackFreed? && s.pending == []) {
      var step := DestructorHasStep(s);
    }
  }

  /** A run that has come to rest after destruction began has run the destructor to its end,
      signalled every fence exactly once and freed every callback object exactly once. */
  lemma DestructionCompletes(steps: seq<Step>)
    requires IsRun(INITIAL, steps) && AllHarmless(INITIAL, steps)
    requires !After(INITIAL, steps).life.Live? && AtRest(After(INITIAL, steps))
    ensures var s := After(INITIAL, steps);
      && s.life.CallbackFreed? && s.pending == []
      && (forall id: nat :: id < s.added ==> id in s.fences && |s.fences[id].signals| == 1 && s.fences[id].refs == 0)
      && (forall c :: c in s.cbs ==> s.cbs[c].frees == 1)
  {
    InitialContext();
    RunContext(INITIAL, steps);
    var s := After(INITIAL, steps);
    RestIsDestroyed(s);
    forall id: nat | id < s.added ensures id in s.fences && |s.fences[id].signals| == 1 && s.fences[id].refs == 0 {
      AllSignalledOnce(steps, id);
    }
    forall c | c in s.cbs ensures s.cbs[c].frees == 1 {
      FreedExactlyOnce(steps, c);
    }
  }
}
