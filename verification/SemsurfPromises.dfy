/** What a semaphore-surface fence context promises in every run whose scans read the value
    the semaphore has under the lock and, as far as wake-ups go, in which NVKMS refuses no
    registration. */
module SemsurfPromises {
  import opened Common
  import opened FenceList
  import opened SemsurfModel
  import opened SemsurfFences
  import opened SemsurfOwnership
  import opened SemsurfRuns
  import opened SemsurfWakeup
  import opened SemsurfProgress
  import opened SemsurfRest

  lemma Plain(steps: seq<Step>)
    requires IsRun(INITIAL, steps) && AllCurrent(INITIAL, steps)
    ensures AllHarmless(INITIAL, steps)
    ensures NoRefusals(steps) ==> AllTolerable(INITIAL, steps)
  {
    InitialContext();
    CurrentRunsHarmless(INITIAL, steps);
    if NoRefusals(steps) {
      NoRefusalsTolerable(INITIAL, steps);
    }
  }

  /** Each callback object has exactly one owner. */
  lemma OneOwner(steps: seq<Step>, c: Cid, o: Owner)
    requires IsRun(INITIAL, steps) && AllCurrent(INITIAL, steps) && c in After(INITIAL, steps).cbs
    ensures Owns(After(INITIAL, steps), o, c) <==> o == OwnerOf(After(INITIAL, steps).cbs[c])
  {
    Plain(steps);
    SemsurfRuns.OneOwner(steps, c, o);
  }

  /** No step goes through a freed callback object. */
  lemma NoUseAfterFree(steps: seq<Step>, step: Step, c: Cid)
    requires IsRun(INITIAL, steps) && AllCurrent(INITIAL, steps)
    requires Enabled(After(INITIAL, steps), step) && c in Touches(After(INITIAL, steps), step)
    ensures c in After(INITIAL, steps).cbs && After(INITIAL, steps).cbs[c].frees == 0
  {
    Plain(steps);
    SemsurfRuns.NoUseAfterFree(steps, step, c);
  }

  /** A destroyed context has freed every callback object exactly once. */
  lemma FreedExactlyOnce(steps: seq<Step>, c: Cid)
    requires IsRun(INITIAL, steps) && AllCurrent(INITIAL, steps)
    requires After(INITIAL, steps).life.CallbackFreed? && c in After(INITIAL, steps).cbs
    ensures After(INITIAL, steps).cbs[c].frees == 1
  {
    Plain(steps);
    SemsurfRuns.FreedExactlyOnce(steps, c);
  }

  /** And has signalled every fence exactly once. */
  lemma AllSignalledOnce(steps: seq<Step>, id: nat)
    requires IsRun(INITIAL, steps) && AllCurrent(INITIAL, steps)
    requires var s := After(INITIAL, steps); s.life.CallbackFreed? && s.pending == [] && id < s.added
    ensures var s := After(INITIAL, steps);
      id in s.fences && |s.fences[id].signals| == 1 && s.fences[id].refs == 0
  {
    Plain(steps);
    SemsurfRuns.AllSignalledOnce(steps, id);
  }

  /** A live context with fences pending is awake at every moment. */
  lemma AlwaysAwake(steps: seq<Step>)
    requires IsRun(INITIAL, steps) && AllCurrent(INITIAL, steps) && NoRefusals(steps)
    requires After(INITIAL, steps).life.Live?
    ensures Awake(After(INITIAL, steps))
  {
    Plain(steps);
    SemsurfWakeup.AlwaysAwake(steps);
  }

  /** Whenever it is quiet, a registered callback waits for the lowest pending value. */
  lemma NoLostWakeup(steps: seq<Step>)
    requires IsRun(INITIAL, steps) && AllCurrent(INITIAL, steps) && NoRefusals(steps)
    requires var s := After(INITIAL, steps); s.life.Live? && Quiet(s) && s.pending != []
    ensures Waited(After(INITIAL, steps))
  {
    Plain(steps);
    SemsurfWakeup.NoLostWakeup(steps);
  }

  /** With nothing new from outside it comes to rest. */
  lemma ComesToRest(before: seq<Step>, steps: seq<Step>)
    requires IsRun(INITIAL, before) && AllCurrent(INITIAL, before)
    requires IsRun(After(INITIAL, before), steps) && AllCurrent(After(INITIAL, before), steps)
    requires forall i :: 0 <= i < |steps| ==> Closed(steps[i])
    ensures Effort(steps) <= Work(After(INITIAL, before))
  {
    Plain(before);
    InitialContext();
    RunContext(INITIAL, before);
    CurrentRunsHarmless(After(INITIAL, before), steps);
    SemsurfProgress.ComesToRest(After(INITIAL, before), steps);
  }

  /** At rest every fence the semaphore has reached was signalled exactly once. */
  lemma RestCompletes(steps: seq<Step>)
    requires IsRun(INITIAL, steps) && AllCurrent(INITIAL, steps) && NoRefusals(steps)
    requires After(INITIAL, steps).life.Live? && AtRest(After(INITIAL, steps))
    ensures Complete(After(INITIAL, steps))
  {
    Plain(steps);
    SemsurfRest.RestCompletes(steps);
  }

  /** And the destructor, at rest, has run to its end. */
  lemma DestructionCompletes(steps: seq<Step>)
    requires IsRun(INITIAL, steps) && AllCurrent(INITIAL, steps)
    requires !After(INITIAL, steps).life.Live? && AtRest(After(INITIAL, steps))
    ensures After(INITIAL, steps).life.CallbackFreed? && After(INITIAL, steps).pending == []
  {
    Plain(steps);
    SemsurfRest.DestructionCompletes(steps);
  }
}
