/** Who owns a callback object: at every moment of every run each object has one
    owner, and over the life of the context it is freed exactly once. */
module SemsurfOwnership {
  import opened Common
  import opened FenceList
  import opened SemsurfModel
  import opened SemsurfFences

  /** The thread has not handed the object to NVKMS yet. */
  predicate HoldsNew(pc: Pc, c: Cid) {
    (pc.Scanning? || pc.Registering?) && pc.cb == c
  }

  /** The thread has registered the object, or took it over from the context. */
  predicate HoldsHandle(pc: Pc, c: Cid) {
    (pc.Storing? || pc.Unregistering?) && pc.cb == c
  }

  predicate NotPastClear(stage: Stage) {
    stage == Armed || stage == Started
  }

  ghost predicate CallbackOk(s: State, c: Cid)
    requires c in s.cbs
  {
    var b := s.cbs[c];
    && b.frees == (if b.stage == Freed then 1 else 0)
    && (b.keeper == Context ==> s.local == Some(c))
    && (b.keeper.Keeper? ==>
          && b.keeper.thread in s.threads
          && var pc := s.threads[b.keeper.thread].pc;
             if b.stage == Held then HoldsNew(pc, c) else HoldsHandle(pc, c))
    && (b.stage == Held ==> b.keeper.Keeper?)
    && (b.stage == Armed ==> b.keeper != Nobody)
    && (b.stage.Working? ==>
          b.stage.worker in s.threads && s.threads[b.stage.worker].origin == CallbackWork(c))
    && (InHandler(b.stage) || b.stage == Queued || b.stage.Working? ==> b.waitValue <= s.sem)
    && (b.stage == Cancelled ==> b.keeper == Context && (s.life.Unregistered? || s.life.SurfaceFreed?))
  }

  ghost predicate ThreadOk(s: State, t: Tid)
    requires t in s.threads
  {
    var th := s.threads[t];
    && (!th.pc.Returning? ==>
          && th.pc.cb in s.cbs
          && var b := s.cbs[th.pc.cb];
          && b.keeper == Keeper(t)
          && (HoldsNew(th.pc, th.pc.cb) <==> b.stage == Held)
          && (th.pc.Registering? || th.pc.Storing? ==> b.waitValue == th.pc.value && th.pc.value > 0)
          && (th.pc.Storing? ==> NotPastClear(b.stage) || (th.pc.value <= s.sem && s.tag != th.pc.value)))
    && (th.pc.Scanning? ==> th.pc.since <= s.sem && th.pc.from <= s.clock)
    && (th.origin.CallbackWork? ==>
          th.origin.fired in s.cbs && s.cbs[th.origin.fired].stage == Working(t))
  }

  /** `ctx->callback.local` names an object that NVKMS still owes a locked region, so
      reading through it under the lock is safe. */
  ghost predicate LocalOk(s: State) {
    s.local.Some? ==>
      && s.local.value in s.cbs
      && s.cbs[s.local.value].keeper == Context
      && (NotPastClear(s.cbs[s.local.value].stage) || s.cbs[s.local.value].stage == Cancelled)
  }

  predicate Late(life: Life) {
    life.Unregistered? || life.SurfaceFreed? || life.CallbackFreed?
  }

  ghost predicate LifeOk(s: State) {
    && (!WorkerRuns(s) ==> s.threads == map[] && forall c :: c in s.cbs ==> s.cbs[c].stage != Queued)
    && (s.life.Fetched? ==> s.local == s.life.found || s.local == None)
    && (Late(s.life) ==> forall c :: c in s.cbs ==> s.cbs[c].stage != Armed)
    && (s.life.SurfaceFreed? || s.life.CallbackFreed? ==> forall c :: c in s.cbs ==> !InHandler(s.cbs[c].stage))
    && (s.life.CallbackFreed? ==> s.local == None)
  }

  ghost predicate Owned(s: State) {
    && (forall c :: c in s.cbs ==> CallbackOk(s, c))
    && (forall t :: t in s.threads ==> ThreadOk(s, t))
    && LocalOk(s)
    && LifeOk(s)
  }

  lemma InitialOwned()
    ensures Owned(INITIAL)
  {
  }

  // ---- Steps of threads

  lemma EnterOwned(s: State, t: Tid, cb: Cid, origin: Origin)
    requires Owned(s) && WorkerRuns(s) && Fresh(s, t, cb) && !origin.CallbackWork?
    ensures Owned(Enter(s, t, cb, origin))
  {
    var s' := Enter(s, t, cb, origin);
    forall u | u in s'.threads ensures ThreadOk(s', u) {
      if u != t { assert ThreadOk(s, u); }
    }
    forall c | c in s'.cbs ensures CallbackOk(s', c) {
      if c != cb { assert CallbackOk(s, c); }
    }
  }

  ghost predicate EntersWork(s: State, t: Tid, cb: Cid, fired: Cid, s': State) {
    && WorkerRuns(s) && Fresh(s, t, cb) && StageIs(s, fired, Queued)
    && s' == Enter(s.(cbs := SetStage(s.cbs, fired, Working(t))), t, cb, CallbackWork(fired))
  }

  lemma EnterWorkThreads(s: State, t: Tid, cb: Cid, fired: Cid, s': State)
    requires Owned(s) && EntersWork(s, t, cb, fired, s')
    ensures forall u :: u in s'.threads ==> ThreadOk(s', u)
  {
    assert CallbackOk(s, fired);
    forall u | u in s'.threads ensures ThreadOk(s', u) {
      if u != t { assert ThreadOk(s, u); }
    }
  }

  lemma EnterWorkCallbacks(s: State, t: Tid, cb: Cid, fired: Cid, s': State)
    requires Owned(s) && EntersWork(s, t, cb, fired, s')
    ensures forall c :: c in s'.cbs ==> CallbackOk(s', c)
  {
    assert CallbackOk(s, fired);
    forall c | c in s'.cbs ensures CallbackOk(s', c) {
      if c != cb { assert CallbackOk(s, c); }
    }
  }

  lemma EnterWorkOwned(s: State, t: Tid, cb: Cid, fired: Cid, s': State)
    requires Owned(s) && EntersWork(s, t, cb, fired, s')
    ensures Owned(s')
  {
    EnterWorkThreads(s, t, cb, fired, s');
    EnterWorkCallbacks(s, t, cb, fired, s');
  }

  /** What a scan with the current reading leaves in the tag is nothing or unreached. */
  lemma NewTag(p: seq<Fence>, tag: nat, read: nat, now: nat)
    requires Sorted(p)
    ensures var w := Retag(tag, Scan(p, read, now).rest);
      && (w.tag == 0 || read < w.tag)
      && (w.waitValue == 0 || w.waitValue == w.tag)
  {
    ScanExact(p, read, now);
  }

  /** A thread is about to store a callback for `value` whose handler is already
      past its locked region. */
  ghost predicate FinishedStorer(s: State, value: nat) {
    exists u :: u in s.threads && StoresFinished(s, u, value)
  }

  ghost predicate StoresFinished(s: State, u: Tid, value: nat)
    requires u in s.threads
  {
    var pc := s.threads[u].pc;
    pc.Storing? && pc.value == value && pc.cb in s.cbs && !NotPastClear(s.cbs[pc.cb].stage)
  }

  /** The scan without its fences. */
  ghost predicate Retags(s: State, t: Tid, w: Retagged, s': State) {
    && t in s.threads && s.threads[t].pc.Scanning? && (w.waitValue == 0 || w.waitValue == w.tag)
    && var cb := s.threads[t].pc.cb;
       s' == s.(tag := w.tag, pending := s'.pending, inflight := s'.inflight,
                threads := Goto(s.threads, t, if w.waitValue == 0 then Returning else Registering(cb, w.waitValue)),
                cbs := if w.waitValue == 0 then Release(s.cbs, cb)
                       else if cb in s.cbs then s.cbs[cb := s.cbs[cb].(waitValue := w.waitValue)] else s.cbs)
  }

  lemma RetagThreads(s: State, t: Tid, w: Retagged, s': State)
    requires Owned(s) && Retags(s, t, w, s') && !FinishedStorer(s, w.tag)
    ensures forall u :: u in s'.threads ==> ThreadOk(s', u)
  {
    assert ThreadOk(s, t);
    forall u | u in s'.threads ensures ThreadOk(s', u) {
      assert ThreadOk(s, u);
      assert !StoresFinished(s, u, w.tag);
    }
  }

  lemma RetagCallbacks(s: State, t: Tid, w: Retagged, s': State)
    requires Owned(s) && Retags(s, t, w, s')
    ensures forall c :: c in s'.cbs ==> CallbackOk(s', c)
    ensures LocalOk(s') && LifeOk(s')
  {
    assert ThreadOk(s, t);
    forall c | c in s'.cbs ensures CallbackOk(s', c) {
      assert CallbackOk(s, c);
    }
  }

  /** The tag must not move to a value of a callback that has run but is still to be
      stored. */
  lemma RetagOwned(s: State, t: Tid, w: Retagged, s': State)
    requires Owned(s) && Retags(s, t, w, s') && !FinishedStorer(s, w.tag)
    ensures Owned(s')
  {
    RetagThreads(s, t, w, s');
    RetagCallbacks(s, t, w, s');
  }

  /** A scan does no harm if no callback that has already run is waiting to be stored for
      the value the scan picks. */
  ghost predicate Harmless(s: State, step: Step) {
    step.DoScan? ==> !FinishedStorer(s, Retag(s.tag, Scan(s.pending, step.read, step.now).rest).tag)
  }

  lemma ScanOwned(s: State, t: Tid, read: nat, now: nat)
    requires Owned(s) && Enabled(s, DoScan(t, read, now)) && Sorted(s.pending)
    requires Harmless(s, DoScan(t, read, now))
    ensures Owned(ScanNext(s, t, read, now))
  {
    var w := Retag(s.tag, Scan(s.pending, read, now).rest);
    NewTag(s.pending, s.tag, read, now);
    RetagOwned(s, t, w, ScanNext(s, t, read, now));
  }

  /** A scan whose reading is still current when it holds the lock is harmless: its new
      tag is above every value that has fired. */
  lemma CurrentIsHarmless(s: State, t: Tid, now: nat)
    requires Owned(s) && Sorted(s.pending)
    ensures Harmless(s, DoScan(t, s.sem, now))
  {
    NewTag(s.pending, s.tag, s.sem, now);
    var tag := Retag(s.tag, Scan(s.pending, s.sem, now).rest).tag;
    forall u | u in s.threads ensures !StoresFinished(s, u, tag) {
      assert ThreadOk(s, u);
    }
  }

  lemma RegisterOkOwned(s: State, t: Tid, cb: Cid, value: nat, s': State)
    requires Owned(s) && t in s.threads && s.threads[t].pc == Registering(cb, value)
    requires s' == s.(threads := Goto(s.threads, t, Storing(cb, value)), cbs := SetStage(s.cbs, cb, Armed))
    ensures Owned(s')
  {
    assert ThreadOk(s, t);
    forall u | u in s'.threads ensures ThreadOk(s', u) {
      assert ThreadOk(s, u);
    }
    forall c | c in s'.cbs ensures CallbackOk(s', c) {
      assert CallbackOk(s, c);
    }
  }

  lemma RegisterSignalledOwned(s: State, t: Tid)
    requires Owned(s) && Enabled(s, RegisterSignalled(t))
    ensures Owned(Next(s, RegisterSignalled(t)))
  {
    var s' := Next(s, RegisterSignalled(t));
    assert ThreadOk(s, t);
    forall u | u in s'.threads ensures ThreadOk(s', u) {
      assert ThreadOk(s, u);
    }
    forall c | c in s'.cbs ensures CallbackOk(s', c) {
      assert CallbackOk(s, c);
    }
  }

  lemma RegisterFailOwned(s: State, t: Tid, cb: Cid, s': State)
    requires Owned(s) && t in s.threads && s.threads[t].pc.Registering? && s.threads[t].pc.cb == cb
    requires s' == s.(threads := Goto(s.threads, t, Returning), cbs := Release(s.cbs, cb))
    ensures Owned(s')
  {
    assert ThreadOk(s, t);
    forall u | u in s'.threads ensures ThreadOk(s', u) {
      assert ThreadOk(s, u);
    }
    forall c | c in s'.cbs ensures CallbackOk(s', c) {
      assert CallbackOk(s, c);
    }
  }

  lemma StoreLoses(s: State, t: Tid)
    requires Owned(s) && Enabled(s, DoStore(t)) && s.tag != s.threads[t].pc.value
    ensures Owned(StoreNext(s, t))
  {
    var s' := StoreNext(s, t);
    assert ThreadOk(s, t);
    forall u | u in s'.threads ensures ThreadOk(s', u) {
      assert ThreadOk(s, u);
    }
    forall c | c in s'.cbs ensures CallbackOk(s', c) {
      assert CallbackOk(s, c);
    }
  }

  lemma StoreInstalls(s: State, t: Tid)
    requires Owned(s) && Enabled(s, DoStore(t)) && s.tag == s.threads[t].pc.value && s.local == None
    ensures Owned(StoreNext(s, t))
  {
    var s' := StoreNext(s, t);
    assert ThreadOk(s, t);
    forall u | u in s'.threads ensures ThreadOk(s', u) {
      assert ThreadOk(s, u);
    }
    forall c | c in s'.cbs ensures CallbackOk(s', c) {
      assert CallbackOk(s, c);
    }
  }

  ghost predicate Replaces(s: State, t: Tid, cb: Cid, prior: Cid, s': State) {
    && t in s.threads && s.threads[t].pc == Storing(cb, s.tag) && s.local == Some(prior)
    && cb in s.cbs && prior in s.cbs && cb != prior
    && s' == s.(local := Some(cb),
                cbs := s.cbs[cb := s.cbs[cb].(keeper := Context)][prior := s.cbs[prior].(keeper := Keeper(t))],
                threads := s.threads[t := s.threads[t].(pc := Unregistering(prior))])
  }

  lemma ReplaceThreads(s: State, t: Tid, cb: Cid, prior: Cid, s': State)
    requires Owned(s) && Replaces(s, t, cb, prior, s') && s.cbs[prior].stage != Cancelled
    ensures forall u :: u in s'.threads ==> ThreadOk(s', u)
  {
    forall u | u in s'.threads ensures ThreadOk(s', u) {
      assert ThreadOk(s, u);
      assert CallbackOk(s, prior);
    }
  }

  lemma ReplaceCallbacks(s: State, t: Tid, cb: Cid, prior: Cid, s': State)
    requires Owned(s) && Replaces(s, t, cb, prior, s') && s.cbs[prior].stage != Cancelled
    ensures forall c :: c in s'.cbs ==> CallbackOk(s', c)
  {
    assert ThreadOk(s, t);
    forall c | c in s'.cbs ensures CallbackOk(s', c) {
      assert CallbackOk(s, c);
    }
  }

  lemma StoreReplaces(s: State, t: Tid)
    requires Owned(s) && Enabled(s, DoStore(t)) && s.tag == s.threads[t].pc.value && s.local.Some?
    ensures Owned(StoreNext(s, t))
  {
    var s' := StoreNext(s, t);
    var cb, prior := s.threads[t].pc.cb, s.local.value;
    assert ThreadOk(s, t);
    assert CallbackOk(s, prior) && cb != prior && s.cbs[prior].stage != Cancelled;
    assert Replaces(s, t, cb, prior, s');
    ReplaceThreads(s, t, cb, prior, s');
    ReplaceCallbacks(s, t, cb, prior, s');
  }

  lemma StoreOwned(s: State, t: Tid)
    requires Owned(s) && Enabled(s, DoStore(t))
    ensures Owned(StoreNext(s, t))
  {
    if s.tag != s.threads[t].pc.value {
      StoreLoses(s, t);
    } else if s.local == None {
      StoreInstalls(s, t);
    } else {
      StoreReplaces(s, t);
    }
  }

  lemma UnregisterArmed(s: State, t: Tid, cb: Cid, s': State)
    requires Owned(s) && t in s.threads && s.threads[t].pc == Unregistering(cb) && IsArmed(s.cbs, cb)
    requires s' == s.(threads := Goto(s.threads, t, Returning), cbs := Release(s.cbs, cb))
    ensures Owned(s')
  {
    assert ThreadOk(s, t);
    forall u | u in s'.threads ensures ThreadOk(s', u) {
      assert ThreadOk(s, u);
    }
    forall c | c in s'.cbs ensures CallbackOk(s', c) {
      assert CallbackOk(s, c);
    }
  }

  lemma UnregisterLate(s: State, t: Tid, cb: Cid, s': State)
    requires Owned(s) && t in s.threads && s.threads[t].pc == Unregistering(cb) && !IsArmed(s.cbs, cb)
    requires s' == s.(threads := Goto(s.threads, t, Returning), cbs := SetKeeper(s.cbs, cb, Nobody))
    ensures Owned(s')
  {
    assert ThreadOk(s, t);
    forall u | u in s'.threads ensures ThreadOk(s', u) {
      assert ThreadOk(s, u);
    }
    forall c | c in s'.cbs ensures CallbackOk(s', c) {
      assert CallbackOk(s, c);
    }
  }

  lemma UnregisterOwned(s: State, t: Tid)
    requires Owned(s) && Enabled(s, DoUnregister(t))
    ensures Owned(UnregisterNext(s, t))
  {
    var cb := s.threads[t].pc.cb;
    if IsArmed(s.cbs, cb) {
      UnregisterArmed(s, t, cb, UnregisterNext(s, t));
    } else {
      UnregisterLate(s, t, cb, UnregisterNext(s, t));
    }
  }

  lemma ReturnOwned(s: State, t: Tid)
    requires Owned(s) && Enabled(s, Return(t))
    ensures Owned(ReturnNext(s, t))
  {
    var s' := ReturnNext(s, t);
    assert ThreadOk(s, t);
    forall u | u in s'.threads ensures ThreadOk(s', u) {
      assert ThreadOk(s, u);
    }
    forall c | c in s'.cbs ensures CallbackOk(s', c) {
      assert CallbackOk(s, c);
    }
  }

  // ---- Steps of the handler NVKMS runs

  lemma StartOwned(s: State, cb: Cid, s': State)
    requires Owned(s) && StageIs(s, cb, Armed) && s.cbs[cb].waitValue <= s.sem
    requires !s.life.SurfaceFreed? && !s.life.CallbackFreed? && s' == s.(cbs := SetStage(s.cbs, cb, Started))
    ensures Owned(s')
  {
    assert CallbackOk(s, cb);
    forall u | u in s'.threads ensures ThreadOk(s', u) {
      assert ThreadOk(s, u);
    }
    forall c | c in s'.cbs ensures CallbackOk(s', c) {
      assert CallbackOk(s, c);
    }
  }

  lemma ClearMine(s: State, cb: Cid, tag: nat, s': State)
    requires Owned(s) && StageIs(s, cb, Started) && s.local == Some(cb)
    requires tag == if s.tag == s.cbs[cb].waitValue then 0 else s.tag
    requires s' == s.(local := None, tag := tag, cbs := SetKeeper(SetStage(s.cbs, cb, Cleared), cb, Nobody))
    ensures Owned(s')
  {
    assert CallbackOk(s, cb);
    forall u | u in s'.threads ensures ThreadOk(s', u) {
      assert ThreadOk(s, u);
    }
    forall c | c in s'.cbs ensures CallbackOk(s', c) {
      assert CallbackOk(s, c);
    }
  }

  lemma ClearOther(s: State, cb: Cid, tag: nat, s': State)
    requires Owned(s) && StageIs(s, cb, Started) && s.local != Some(cb)
    requires tag == if s.tag == s.cbs[cb].waitValue then 0 else s.tag
    requires s' == s.(tag := tag, cbs := SetStage(s.cbs, cb, Cleared))
    ensures Owned(s')
  {
    assert CallbackOk(s, cb);
    forall u | u in s'.threads ensures ThreadOk(s', u) {
      assert ThreadOk(s, u);
    }
    forall c | c in s'.cbs ensures CallbackOk(s', c) {
      assert CallbackOk(s, c);
    }
  }

  lemma ClearOwned(s: State, cb: Cid)
    requires Owned(s) && Enabled(s, Clear(cb))
    ensures Owned(ClearNext(s, cb))
  {
    var s' := ClearNext(s, cb);
    if s.local == Some(cb) {
      ClearMine(s, cb, s'.tag, s');
    } else {
      ClearOther(s, cb, s'.tag, s');
    }
  }

  lemma HandlerScanOwned(s: State, cb: Cid, s': State)
    requires Owned(s) && StageIs(s, cb, Cleared)
    requires s' == s.(pending := s'.pending, inflight := s'.inflight, cbs := SetStage(s.cbs, cb, Scanned))
    ensures Owned(s')
  {
    assert CallbackOk(s, cb);
    forall u | u in s'.threads ensures ThreadOk(s', u) {
      assert ThreadOk(s, u);
    }
    forall c | c in s'.cbs ensures CallbackOk(s', c) {
      assert CallbackOk(s, c);
    }
  }

  lemma QueueOwned(s: State, cb: Cid, s': State)
    requires Owned(s) && StageIs(s, cb, Scanned)
    requires s' == s.(cbs := if s.life.Live? then SetStage(s.cbs, cb, Queued) else Free(s.cbs, cb))
    ensures Owned(s')
  {
    assert CallbackOk(s, cb);
    forall u | u in s'.threads ensures ThreadOk(s', u) {
      assert ThreadOk(s, u);
    }
    forall c | c in s'.cbs ensures CallbackOk(s', c) {
      assert CallbackOk(s, c);
    }
  }

  // ---- Steps of the destructor

  lemma BeginDestroyOwned(s: State)
    requires Owned(s) && Enabled(s, BeginDestroy)
    ensures Owned(Next(s, BeginDestroy))
  {
    var s' := Next(s, BeginDestroy);
    forall u | u in s'.threads ensures ThreadOk(s', u) {
      assert ThreadOk(s, u);
    }
    forall c | c in s'.cbs ensures CallbackOk(s', c) {
      assert CallbackOk(s, c);
    }
  }

  lemma DrainOwned(s: State)
    requires Owned(s) && Enabled(s, Drain)
    ensures Owned(Next(s, Drain))
  {
    var s' := Next(s, Drain);
    forall c | c in s'.cbs ensures CallbackOk(s', c) {
      assert CallbackOk(s, c);
    }
  }

  lemma FetchOwned(s: State)
    requires Owned(s) && Enabled(s, Fetch)
    ensures Owned(Next(s, Fetch))
  {
    var s' := Next(s, Fetch);
    forall c | c in s'.cbs ensures CallbackOk(s', c) {
      assert CallbackOk(s, c);
    }
  }

  lemma CancelOwned(s: State, cb: Cid, s': State)
    requires Owned(s) && s.life == Fetched(Some(cb)) && IsArmed(s.cbs, cb)
    requires s' == s.(life := Unregistered, cbs := SetStage(s.cbs, cb, Cancelled))
    ensures Owned(s')
  {
    assert CallbackOk(s, cb);
    forall c | c in s'.cbs ensures CallbackOk(s', c) {
      assert CallbackOk(s, c);
    }
  }

  lemma DestroyUnregisterOwned(s: State)
    requires Owned(s) && Enabled(s, DestroyUnregister)
    ensures Owned(Next(s, DestroyUnregister))
  {
    var s' := Next(s, DestroyUnregister);
    if s.life.found.Some? && IsArmed(s.cbs, s.life.found.value) {
      CancelOwned(s, s.life.found.value, s');
    } else {
      forall c | c in s'.cbs ensures CallbackOk(s', c) {
        assert CallbackOk(s, c);
      }
    }
  }

  lemma FreeSurfaceOwned(s: State)
    requires Owned(s) && Enabled(s, FreeSurface)
    ensures Owned(Next(s, FreeSurface))
  {
    var s' := Next(s, FreeSurface);
    forall c | c in s'.cbs ensures CallbackOk(s', c) {
      assert CallbackOk(s, c);
    }
  }

  lemma FreeInstalled(s: State, cb: Cid, s': State)
    requires Owned(s) && s.life.SurfaceFreed? && s.local == Some(cb)
    requires s' == s.(life := CallbackFreed, local := None, cbs := Release(s.cbs, cb))
    ensures Owned(s')
  {
    assert CallbackOk(s, cb);
    forall c | c in s'.cbs ensures CallbackOk(s', c) {
      assert CallbackOk(s, c);
    }
  }

  lemma FreeLocalOwned(s: State)
    requires Owned(s) && Enabled(s, FreeLocal)
    ensures Owned(Next(s, FreeLocal))
  {
    var s' := Next(s, FreeLocal);
    if s.local.Some? {
      FreeInstalled(s, s.local.value, s');
    } else {
      forall c | c in s'.cbs ensures CallbackOk(s', c) {
        assert CallbackOk(s, c);
      }
    }
  }

  lemma FrameOwned(s: State, s': State)
    requires Owned(s)
    requires s' == s.(sem := s'.sem, clock := s'.clock, pending := s'.pending, inflight := s'.inflight,
                      fences := s'.fences, added := s'.added, timeoutWork := s'.timeoutWork)
    requires s.sem <= s'.sem && s.clock <= s'.clock
    ensures Owned(s')
  {
    forall u | u in s'.threads ensures ThreadOk(s', u) {
      assert ThreadOk(s, u);
    }
    forall c | c in s'.cbs ensures CallbackOk(s', c) {
      assert CallbackOk(s, c);
    }
  }

  lemma AdderOwned(s: State, t: Tid, cb: Cid, origin: Origin, s0: State)
    requires Owned(s) && WorkerRuns(s) && Fresh(s, t, cb) && !origin.CallbackWork?
    requires s0 == s.(pending := s0.pending, fences := s0.fences, added := s0.added, timeoutWork := s0.timeoutWork)
    ensures Owned(Enter(s0, t, cb, origin))
  {
    FrameOwned(s, s0);
    EnterOwned(s0, t, cb, origin);
  }

  predicate ByThread(step: Step) {
    || step.Add? || step.RunTimeoutWork? || step.RunCallbackWork? || step.DoScan? || step.RegisterOk?
    || step.RegisterSignalled? || step.RegisterFail? || step.DoStore? || step.DoUnregister? || step.Return?
  }

  lemma ThreadStepOwned(s: State, step: Step)
    requires Owned(s) && Sorted(s.pending) && ByThread(step)
    requires Enabled(s, step) && Harmless(s, step)
    ensures Owned(Next(s, step))
  {
    match step
    case Add(t, cb, fence) => AdderOwned(s, t, cb, Adder, Insertion(s, fence));
    case RunTimeoutWork(t, cb) => AdderOwned(s, t, cb, TimeoutWork, s.(timeoutWork := false));
    case RunCallbackWork(t, cb, fired) => EnterWorkOwned(s, t, cb, fired, Next(s, step));
    case DoScan(t, read, now) => ScanOwned(s, t, read, now);
    case RegisterOk(t) => RegisterOkOwned(s, t, s.threads[t].pc.cb, s.threads[t].pc.value, Next(s, step));
    case RegisterSignalled(t) => RegisterSignalledOwned(s, t);
    case RegisterFail(t) => RegisterFailOwned(s, t, s.threads[t].pc.cb, Next(s, step));
    case DoStore(t) => StoreOwned(s, t);
    case DoUnregister(t) => UnregisterOwned(s, t);
    case Return(t) => ReturnOwned(s, t);
  }

  lemma OtherStepOwned(s: State, step: Step)
    requires Owned(s) && Enabled(s, step) && !ByThread(step)
    ensures Owned(Next(s, step))
  {
    match step
    case Start(cb) => StartOwned(s, cb, Next(s, step));
    case Clear(cb) => ClearOwned(s, cb);
    case HandlerScan(cb, _, _) => HandlerScanOwned(s, cb, Next(s, step));
    case HandlerQueue(cb) => QueueOwned(s, cb, Next(s, step));
    case Advance(_, _) => FrameOwned(s, Next(s, step));
    case TimerFires => FrameOwned(s, Next(s, step));
    case Signal(_) => FrameOwned(s, Next(s, step));
    case ForceComplete => FrameOwned(s, Next(s, step));
    case BeginDestroy => BeginDestroyOwned(s);
    case Drain => DrainOwned(s);
    case Fetch => FetchOwned(s);
    case DestroyUnregister => DestroyUnregisterOwned(s);
    case FreeSurface => FreeSurfaceOwned(s);
    case FreeLocal => FreeLocalOwned(s);
  }

  /** Every step keeps the ownership discipline. */
  lemma StepOwned(s: State, step: Step)
    requires Owned(s) && Sorted(s.pending)
    requires Enabled(s, step) && Harmless(s, step)
    ensures Owned(Next(s, step))
  {
    if ByThread(step) {
      ThreadStepOwned(s, step);
    } else {
      OtherStepOwned(s, step);
    }
  }

  // ---- What the discipline gives

  /** The places a callback object can belong to, in terms of the program counters,
      the NVKMS and queue state, and the number of frees. */
  datatype Owner = Allocator(t: Tid) | Nvkms | WorkQueue | Worker(t: Tid) | Destructor | Gone

  ghost predicate Owns(s: State, o: Owner, c: Cid)
    requires c in s.cbs
  {
    match o
    case Allocator(t) => t in s.threads && HoldsNew(s.threads[t].pc, c)
    case Nvkms => s.cbs[c].stage == Armed || InHandler(s.cbs[c].stage)
    case WorkQueue => s.cbs[c].stage == Queued
    case Worker(t) => t in s.threads && s.threads[t].origin == CallbackWork(c)
    case Destructor => s.cbs[c].stage == Cancelled
    case Gone => s.cbs[c].frees > 0
  }

  function OwnerOf(b: Callback): Owner {
    match b.stage
    case Held => if b.keeper.Keeper? then Allocator(b.keeper.thread) else Gone
    case Armed => Nvkms
    case Started => Nvkms
    case Cleared => Nvkms
    case Scanned => Nvkms
    case Queued => WorkQueue
    case Working(w) => Worker(w)
    case Cancelled => Destructor
    case Freed => Gone
  }

  lemma OwnerExact(s: State, c: Cid, o: Owner)
    requires Owned(s) && c in s.cbs
    ensures Owns(s, o, c) <==> o == OwnerOf(s.cbs[c])
  {
    assert CallbackOk(s, c);
    if o.Allocator? && o.t in s.threads { assert ThreadOk(s, o.t); }
    if o.Worker? && o.t in s.threads { assert ThreadOk(s, o.t); }
  }

  /** The callback objects a step reads or writes through. */
  function Touches(s: State, step: Step): set<Cid>
    requires Enabled(s, step)
  {
    match step
    case RunCallbackWork(_, _, fired) => {fired}
    case DoScan(t, _, _) => {s.threads[t].pc.cb}
    case RegisterFail(t) => {s.threads[t].pc.cb}
    case DoStore(t) => if s.tag == s.threads[t].pc.value && s.local.Some? then {s.local.value} else {}
    case Return(t) => if s.threads[t].origin.CallbackWork? then {s.threads[t].origin.fired} else {}
    case Clear(cb) => {cb}
    case HandlerScan(cb, _, _) => {cb}
    case HandlerQueue(cb) => {cb}
    case Fetch => if s.local.Some? then {s.local.value} else {}
    case FreeLocal => if s.local.Some? then {s.local.value} else {}
    case _ => {}
  }

  lemma TouchesUnfreed(s: State, step: Step, c: Cid)
    requires Owned(s) && Enabled(s, step) && c in Touches(s, step)
    ensures c in s.cbs && s.cbs[c].frees == 0
  {
    if step.DoScan? || step.RegisterFail? || step.Return? {
      assert ThreadOk(s, step.t);
    }
    assert c in s.cbs;
    assert CallbackOk(s, c);
  }
}
