/** Whole runs of a semaphore-surface fence context: which scans may read the semaphore
    before they hold the lock, and what every run with such scans promises. */
module SemsurfRuns {
  import opened Common
  import opened FenceList
  import opened SemsurfModel
  import opened SemsurfFences
  import opened SemsurfOwnership
  import opened SemsurfInflight

  ghost predicate ContextOk(s: State) {
    Owned(s) && FencesOk(s) && InflightOk(s)
  }

  lemma InitialContext()
    ensures ContextOk(INITIAL)
  {
    InitialOwned();
    InitialFences();
  }

  lemma StepContext(s: State, step: Step)
    requires ContextOk(s) && Enabled(s, step) && Harmless(s, step)
    ensures ContextOk(Next(s, step))
  {
    StepOwned(s, step);
    StepFences(s, step);
    StepInflight(s, step);
  }

  ghost predicate AllHarmless(s: State, steps: seq<Step>)
    requires IsRun(s, steps)
    decreases |steps|
  {
    steps == [] || (Harmless(s, steps[0]) && AllHarmless(Next(s, steps[0]), steps[1..]))
  }

  lemma {:induction false} RunContext(s: State, steps: seq<Step>)
    requires ContextOk(s) && IsRun(s, steps) && AllHarmless(s, steps)
    ensures ContextOk(After(s, steps))
    decreases |steps|
  {
    if steps != [] {
      StepContext(s, steps[0]);
      RunContext(Next(s, steps[0]), steps[1..]);
    }
  }

  // ---- The promise, and exactly which scans keep it

  /** The context names no callback whose handler has had its locked region, nothing is
      freed twice, and no step goes through a freed object. */
  ghost predicate Safe(s: State) {
    && LocalOk(s)
    && (forall c :: c in s.cbs ==> s.cbs[c].frees <= 1)
    && (forall step, c :: Enabled(s, step) && c in Touches(s, step) ==> c in s.cbs && s.cbs[c].frees == 0)
  }

  /** Safe from here on, as long as the scans to come are harmless. */
  ghost predicate Sound(s: State) {
    forall steps :: IsRun(s, steps) && AllHarmless(s, steps) ==> Safe(After(s, steps))
  }

  lemma OwnedIsSafe(s: State)
    requires Owned(s)
    ensures Safe(s)
  {
    forall c | c in s.cbs ensures s.cbs[c].frees <= 1 {
      assert CallbackOk(s, c);
    }
    forall step, c | Enabled(s, step) && c in Touches(s, step) ensures c in s.cbs && s.cbs[c].frees == 0 {
      TouchesUnfreed(s, step, c);
    }
  }

  lemma ContextIsSound(s: State)
    requires ContextOk(s)
    ensures Sound(s)
  {
    forall steps | IsRun(s, steps) && AllHarmless(s, steps) ensures Safe(After(s, steps)) {
      RunContext(s, steps);
      OwnedIsSafe(After(s, steps));
    }
  }

  lemma OneStep(s: State, step: Step)
    requires Enabled(s, step) && !step.DoScan?
    ensures IsRun(s, [step]) && AllHarmless(s, [step]) && After(s, [step]) == Next(s, step)
  {
    assert [step][1..] == [];
  }

  /** A scan leaves a thread that is storing where it was, free to go on. */
  lemma StorerWaits(s: State, t: Tid, read: nat, now: nat, u: Tid, s': State)
    requires ContextOk(s) && Enabled(s, DoScan(t, read, now)) && s' == ScanNext(s, t, read, now)
    requires u in s.threads && s.threads[u].pc.Storing?
    ensures u in s'.threads && s'.threads[u] == s.threads[u] && NothingInFlight(s', OnThread(u))
  {
    forall id | id in s'.inflight ensures s'.inflight[id].actor != OnThread(u) {
      OutgoingDomain(Scan(s.pending, read, now), OnThread(t), id);
      assert id in s.inflight ==> Delivers(s, s.inflight[id].actor);
    }
  }

  lemma StoresDead(s: State, u: Tid, cb: Cid)
    requires u in s.threads && s.threads[u].pc == Storing(cb, s.tag) && NothingInFlight(s, OnThread(u))
    requires cb in s.cbs && !NotPastClear(s.cbs[cb].stage) && s.cbs[cb].stage != Cancelled
    ensures Enabled(s, DoStore(u)) && !LocalOk(StoreNext(s, u))
  {
  }

  /** After a scan that is not harmless one store makes the context name a callback that
      is about to be freed. */
  lemma StoreBreaks(s: State, t: Tid, read: nat, now: nat, u: Tid, s': State)
    requires ContextOk(s) && Enabled(s, DoScan(t, read, now)) && s' == ScanNext(s, t, read, now)
    requires u in s.threads && StoresFinished(s, u, s'.tag)
    ensures Enabled(s', DoStore(u)) && !LocalOk(StoreNext(s', u))
  {
    assert ThreadOk(s, u) && ThreadOk(s, t);
    assert CallbackOk(s, s.threads[u].pc.cb);
    StorerWaits(s, t, read, now, u, s');
    StoresDead(s', u, s.threads[u].pc.cb);
  }

  lemma HarmfulBreaks(s: State, t: Tid, read: nat, now: nat)
    requires ContextOk(s) && Enabled(s, DoScan(t, read, now)) && !Harmless(s, DoScan(t, read, now))
    ensures !Sound(ScanNext(s, t, read, now))
  {
    var s' := ScanNext(s, t, read, now);
    assert s'.tag == Retag(s.tag, Scan(s.pending, read, now).rest).tag;
    var u :| u in s.threads && StoresFinished(s, u, s'.tag);
    StoreBreaks(s, t, read, now, u, s');
    OneStep(s', DoStore(u));
    assert !Safe(After(s', [DoStore(u)]));
  }

  /** A scan is harmless if and only if everything stays safe after it. */
  lemma HarmlessExactly(s: State, step: Step)
    requires ContextOk(s) && Enabled(s, step)
    ensures Harmless(s, step) <==> Sound(Next(s, step))
  {
    if Harmless(s, step) {
      StepContext(s, step);
      ContextIsSound(Next(s, step));
    } else {
      HarmfulBreaks(s, step.t, step.read, step.now);
    }
  }

  ghost predicate AllSound(s: State, steps: seq<Step>)
    requires IsRun(s, steps)
    decreases |steps|
  {
    Sound(s) && (steps == [] || AllSound(Next(s, steps[0]), steps[1..]))
  }

  /** A run is sound throughout if and only if its scans are harmless, whatever NVKMS
      answers and whenever the context is destroyed. */
  lemma {:induction false} RunSoundIff(s: State, steps: seq<Step>)
    requires ContextOk(s) && IsRun(s, steps)
    ensures AllSound(s, steps) <==> AllHarmless(s, steps)
    decreases |steps|
  {
    ContextIsSound(s);
    if steps != [] {
      HarmlessExactly(s, steps[0]);
      if Harmless(s, steps[0]) {
        StepContext(s, steps[0]);
        RunSoundIff(Next(s, steps[0]), steps[1..]);
      }
    }
  }

  // ---- Runs whose readings are current

  predicate CurrentRead(s: State, step: Step) {
    step.DoScan? ==> step.read == s.sem
  }

  /** Every scan reads the value the semaphore has when the lock is taken. */
  ghost predicate AllCurrent(s: State, steps: seq<Step>)
    requires IsRun(s, steps)
    decreases |steps|
  {
    steps == [] || (CurrentRead(s, steps[0]) && AllCurrent(Next(s, steps[0]), steps[1..]))
  }

  lemma {:induction false} CurrentRunsHarmless(s: State, steps: seq<Step>)
    requires ContextOk(s) && IsRun(s, steps) && AllCurrent(s, steps)
    ensures AllHarmless(s, steps)
    decreases |steps|
  {
    if steps != [] {
      if steps[0].DoScan? {
        CurrentIsHarmless(s, steps[0].t, steps[0].now);
      }
      StepContext(s, steps[0]);
      CurrentRunsHarmless(Next(s, steps[0]), steps[1..]);
    }
  }

  // ---- What the runs promise

  /** At every moment each callback object has exactly one owner. */
  lemma OneOwner(steps: seq<Step>, c: Cid, o: Owner)
    requires IsRun(INITIAL, steps) && AllHarmless(INITIAL, steps) && c in After(INITIAL, steps).cbs
    ensures Owns(After(INITIAL, steps), o, c) <==> o == OwnerOf(After(INITIAL, steps).cbs[c])
  {
    InitialContext();
    RunContext(INITIAL, steps);
    OwnerExact(After(INITIAL, steps), c, o);
  }

  /** No step goes through an object that has been freed. */
  lemma NoUseAfterFree(steps: seq<Step>, step: Step, c: Cid)
    requires IsRun(INITIAL, steps) && AllHarmless(INITIAL, steps)
    requires Enabled(After(INITIAL, steps), step) && c in Touches(After(INITIAL, steps), step)
    ensures c in After(INITIAL, steps).cbs && After(INITIAL, steps).cbs[c].frees == 0
  {
    InitialContext();
    RunContext(INITIAL, steps);
    TouchesUnfreed(After(INITIAL, steps), step, c);
  }

  /** Once the destructor has freed the last callback, every callback object of the
      context's life has been freed exactly once. */
  lemma FreedExactlyOnce(steps: seq<Step>, c: Cid)
    requires IsRun(INITIAL, steps) && AllHarmless(INITIAL, steps)
    requires After(INITIAL, steps).life.CallbackFreed? && c in After(INITIAL, steps).cbs
    ensures After(INITIAL, steps).cbs[c].frees == 1
  {
    InitialContext();
    RunContext(INITIAL, steps);
    assert CallbackOk(After(INITIAL, steps), c);
  }

  /** When the destructor is done every fence ever added has been signalled exactly once
      and the context has dropped its reference to it. */
  lemma AllSignalledOnce(steps: seq<Step>, id: nat)
    requires IsRun(INITIAL, steps) && AllHarmless(INITIAL, steps)
    requires var s := After(INITIAL, steps); s.life.CallbackFreed? && s.pending == [] && id < s.added
    ensures var s := After(INITIAL, steps);
      && id in s.fences
      && |s.fences[id].signals| == 1
      && s.fences[id].refs == 0
      && Justified(s, s.fences[id].fence, s.fences[id].signals[0])
  {
    InitialContext();
    RunContext(INITIAL, steps);
    var s := After(INITIAL, steps);
    NothingLeftInFlight(s);
    assert FenceOk(s, id);
  }
}
