/** Fences between the pending list and their signal: the thread or handler that took
    them off signals them before it goes on, so none is left when the context is gone. */
module SemsurfInflight {
  import opened Common
  import opened FenceList
  import opened SemsurfModel
  import opened SemsurfFences
  import opened SemsurfOwnership

  /** Where an actor is while it has fences to signal. */
  ghost predicate Delivers(s: State, actor: Actor) {
    match actor
    case OnThread(t) => t in s.threads && (s.threads[t].pc.Registering? || s.threads[t].pc.Returning?)
    case OnHandler(c) => StageIs(s, c, Scanned)
  }

  ghost predicate InflightOk(s: State) {
    forall id :: id in s.inflight ==> Delivers(s, s.inflight[id].actor)
  }

  /** Nothing new is in flight, and whoever delivers still does. */
  lemma InflightFrame(s: State, s': State)
    requires InflightOk(s)
    requires forall id :: id in s'.inflight ==> id in s.inflight && s'.inflight[id] == s.inflight[id]
    requires forall a :: Delivers(s, a) && !NothingInFlight(s, a) ==> Delivers(s', a)
    ensures InflightOk(s')
  {
    forall id | id in s'.inflight ensures Delivers(s', s'.inflight[id].actor) {
      assert !NothingInFlight(s, s.inflight[id].actor);
    }
  }

  /** A scan by an actor that is then where it delivers from. */
  lemma InflightScan(s: State, actor: Actor, r: ScanResult, s': State)
    requires InflightOk(s) && s'.inflight == s.inflight + Outgoing(r, actor)
    requires Delivers(s', actor) && forall a :: Delivers(s, a) ==> Delivers(s', a)
    ensures InflightOk(s')
  {
    forall id | id in s'.inflight ensures Delivers(s', s'.inflight[id].actor) {
      OutgoingDomain(r, actor, id);
    }
  }

  /** A step of a thread that has nothing in flight. */
  lemma ThreadInflight(s: State, t: Tid, s': State)
    requires InflightOk(s) && s'.inflight == s.inflight && NothingInFlight(s, OnThread(t))
    requires forall u :: u in s.threads && u != t ==> u in s'.threads && s'.threads[u] == s.threads[u]
    requires forall c :: StageIs(s, c, Scanned) ==> StageIs(s', c, Scanned)
    ensures InflightOk(s')
  {
    InflightFrame(s, s');
  }

  /** A scan changes no callback object but the one its thread has allocated. */
  lemma ThreadScanInflight(s: State, t: Tid, read: nat, now: nat, s': State)
    requires Owned(s) && InflightOk(s) && Enabled(s, DoScan(t, read, now)) && s' == ScanNext(s, t, read, now)
    ensures InflightOk(s')
  {
    assert ThreadOk(s, t);
    assert forall c :: StageIs(s, c, Scanned) ==> StageIs(s', c, Scanned);
    assert Delivers(s', OnThread(t));
    InflightScan(s, OnThread(t), Scan(s.pending, read, now), s');
  }

  lemma HandlerScanInflight(s: State, cb: Cid, read: nat, now: nat, s': State)
    requires InflightOk(s) && StageIs(s, cb, Cleared) && s' == HandlerScanNext(s, cb, read, now)
    ensures InflightOk(s')
  {
    InflightScan(s, OnHandler(cb), Scan(s.pending, read, now), s');
  }

  lemma RegisterInflight(s: State, step: Step, s': State)
    requires Owned(s) && InflightOk(s) && Enabled(s, step)
    requires step.RegisterOk? || step.RegisterSignalled? || step.RegisterFail?
    requires s' == Next(s, step)
    ensures InflightOk(s')
  {
    assert ThreadOk(s, step.t);
    ThreadInflight(s, step.t, s');
  }

  lemma StoreStages(s: State, t: Tid)
    requires Enabled(s, DoStore(t))
    ensures forall c, stage :: StageIs(s, c, stage) ==> StageIs(StoreNext(s, t), c, stage)
  {
  }

  lemma StoreInflight(s: State, t: Tid, s': State)
    requires InflightOk(s) && Enabled(s, DoStore(t)) && s' == StoreNext(s, t)
    ensures InflightOk(s')
  {
    StoreStages(s, t);
    ThreadInflight(s, t, s');
  }

  lemma UnregisterInflight(s: State, t: Tid, s': State)
    requires InflightOk(s) && Enabled(s, DoUnregister(t)) && s' == UnregisterNext(s, t)
    ensures InflightOk(s')
  {
    ThreadInflight(s, t, s');
  }

  lemma ReturnInflight(s: State, t: Tid, s': State)
    requires Owned(s) && InflightOk(s) && Enabled(s, Return(t)) && s' == ReturnNext(s, t)
    ensures InflightOk(s')
  {
    assert ThreadOk(s, t);
    ThreadInflight(s, t, s');
  }

  lemma EnterInflight(s: State, step: Step, s': State)
    requires Owned(s) && InflightOk(s) && Enabled(s, step)
    requires step.Add? || step.RunTimeoutWork? || step.RunCallbackWork?
    requires s' == Next(s, step)
    ensures InflightOk(s')
  {
    InflightFrame(s, s');
  }

  lemma StageInflight(s: State, cb: Cid, s': State)
    requires InflightOk(s) && s'.inflight == s.inflight && s'.threads == s.threads
    requires NothingInFlight(s, OnHandler(cb))
    requires forall c :: c != cb && StageIs(s, c, Scanned) ==> StageIs(s', c, Scanned)
    ensures InflightOk(s')
  {
    InflightFrame(s, s');
  }

  lemma HandlerInflight(s: State, step: Step, s': State)
    requires InflightOk(s) && Enabled(s, step) && (step.Start? || step.Clear? || step.HandlerQueue?)
    requires s' == Next(s, step)
    ensures InflightOk(s')
  {
    assert NothingInFlight(s, OnHandler(step.cb));
    StageInflight(s, step.cb, s');
  }

  lemma OtherInflight(s: State, step: Step, s': State)
    requires Owned(s) && InflightOk(s) && Enabled(s, step)
    requires !ByThread(step) && !step.Start? && !step.Clear? && !step.HandlerScan? && !step.HandlerQueue?
    requires s' == Next(s, step)
    ensures InflightOk(s')
  {
    InflightFrame(s, s');
  }

  lemma ThreadStepInflight(s: State, step: Step)
    requires Owned(s) && InflightOk(s) && Enabled(s, step) && ByThread(step)
    ensures InflightOk(Next(s, step))
  {
    if step.DoScan? {
      ThreadScanInflight(s, step.t, step.read, step.now, Next(s, step));
    } else if step.DoStore? {
      StoreInflight(s, step.t, Next(s, step));
    } else if step.DoUnregister? {
      UnregisterInflight(s, step.t, Next(s, step));
    } else if step.Return? {
      ReturnInflight(s, step.t, Next(s, step));
    } else if step.Add? || step.RunTimeoutWork? || step.RunCallbackWork? {
      EnterInflight(s, step, Next(s, step));
    } else {
      RegisterInflight(s, step, Next(s, step));
    }
  }

  lemma StepInflight(s: State, step: Step)
    requires Owned(s) && InflightOk(s) && Enabled(s, step)
    ensures InflightOk(Next(s, step))
  {
    var s' := Next(s, step);
    if ByThread(step) {
      ThreadStepInflight(s, step);
    } else if step.HandlerScan? {
      HandlerScanInflight(s, step.cb, step.read, step.now, s');
    } else if step.Start? || step.Clear? || step.HandlerQueue? {
      HandlerInflight(s, step, s');
    } else {
      OtherInflight(s, step, s');
    }
  }

  /** Once the destructor has freed the surface nobody is left to deliver. */
  lemma NothingLeftInFlight(s: State)
    requires Owned(s) && InflightOk(s) && (s.life.SurfaceFreed? || s.life.CallbackFreed?)
    ensures s.inflight == map[]
  {
    assert forall a :: !Delivers(s, a);
  }
}
