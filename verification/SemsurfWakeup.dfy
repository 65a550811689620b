/** No wake-up is lost: while fences are pending in a live context, somebody is about
    to look at them again, or NVKMS has been or is being asked to report the lowest
    pending value.  This is the case analysis in the comment after the store of a
    callback, for every interleaving. */
module SemsurfWakeup {
  import opened Common
  import opened FenceList
  import opened SemsurfModel
  import opened SemsurfFences
  import opened SemsurfOwnership
  import opened SemsurfInflight
  import opened SemsurfRuns

  /** Who stands for a value: a thread registering or storing a callback for it
      (`Some`), or the callback installed in the context (`None`). */
  ghost predicate StandsFor(s: State, w: Option<Tid>, value: nat) {
    match w
    case Some(u) =>
      && u in s.threads
      && (s.threads[u].pc.Registering? || s.threads[u].pc.Storing?)
      && s.threads[u].pc.value == value
    case None =>
      && s.local.Some? && s.local.value in s.cbs
      && s.cbs[s.local.value].waitValue == value
  }

  ghost predicate Backed(s: State, value: nat) {
    exists w :: StandsFor(s, w, value)
  }

  /** The thread is before its scan. */
  ghost predicate WillScan(s: State, t: Tid) {
    t in s.threads && s.threads[t].pc.Scanning?
  }

  /** The callback has fired and its work item has yet to scan. */
  ghost predicate HasFired(s: State, c: Cid) {
    c in s.cbs && (InHandler(s.cbs[c].stage) || s.cbs[c].stage == Queued)
  }

  ghost predicate Outstanding(s: State) {
    (exists t :: WillScan(s, t)) || (exists c :: HasFired(s, c))
  }

  ghost predicate Awake(s: State) {
    s.pending == [] || Outstanding(s) || (s.tag == s.pending[0].seqno && Backed(s, s.tag))
  }

  /** Its coming scan will read at least the value. */
  ghost predicate Covers(s: State, t: Tid, value: nat) {
    WillScan(s, t) && s.threads[t].pc.since >= value
  }

  /** The value was reached, and a scan that will see so is due. */
  ghost predicate Covered(s: State, value: nat) {
    value <= s.sem && ((exists t :: Covers(s, t, value)) || (exists c :: HasFired(s, c)))
  }

  /** The scan of the thread will take off whatever carries the tagged value as expired. */
  ghost predicate Expires(s: State, t: Tid) {
    WillScan(s, t) && forall g :: g in s.pending && g.seqno == s.tag ==> g.timeout <= s.threads[t].pc.from
  }

  /** The tagged value was reached and no pending fence carries it, or only fences that a
      scan that is due will take off as expired. */
  ghost predicate Passing(s: State) {
    s.tag <= s.sem && ((forall g :: g in s.pending ==> g.seqno != s.tag) || exists t :: Expires(s, t))
  }

  /** A value in the tag is stood for or taken care of; that is why a scan that finds its
      value already in the tag may leave without registering anything. */
  ghost predicate TagBacked(s: State) {
    s.tag == 0 || Backed(s, s.tag) || Covered(s, s.tag) || Passing(s)
  }

  ghost predicate Wakes(s: State) {
    s.life.Live? ==> TagBacked(s) && Awake(s)
  }

  lemma InitialWakes()
    ensures Wakes(INITIAL)
  {
  }

  // ---- Keeping a witness

  /** Whoever stands for the value or is due to scan still does in the later state. */
  ghost predicate Forwards(s: State, s': State, value: nat) {
    && (forall u :: StandsFor(s, Some(u), value) ==> StandsFor(s', Some(u), value))
    && (StandsFor(s, None, value) ==> StandsFor(s', None, value))
    && ForwardsScans(s, s')
  }

  ghost predicate ForwardsScans(s: State, s': State) {
    && (forall u :: WillScan(s, u) ==> WillScan(s', u) && s'.threads[u] == s.threads[u])
    && (forall c :: HasFired(s, c) ==> HasFired(s', c))
  }

  lemma KeepBacked(s: State, s': State, value: nat)
    requires Backed(s, value) && Forwards(s, s', value)
    ensures Backed(s', value)
  {
    var w :| StandsFor(s, w, value);
    assert StandsFor(s', w, value);
  }

  lemma KeepCovered(s: State, s': State, value: nat)
    requires Covered(s, value) && ForwardsScans(s, s') && s.sem <= s'.sem
    ensures Covered(s', value)
  {
    if t :| Covers(s, t, value) {
      assert Covers(s', t, value);
    } else if c :| HasFired(s, c) {
      assert HasFired(s', c);
    }
  }

  lemma KeepPassing(s: State, s': State)
    requires Passing(s) && ForwardsScans(s, s') && s.sem <= s'.sem && s'.tag == s.tag
    requires forall g :: g in s'.pending ==> g in s.pending
    ensures Passing(s')
  {
    if t :| Expires(s, t) {
      assert Expires(s', t);
    }
  }

  lemma KeepOutstanding(s: State, s': State)
    requires Outstanding(s) && ForwardsScans(s, s')
    ensures Outstanding(s')
  {
    if t :| WillScan(s, t) {
      assert WillScan(s', t);
    } else if c :| HasFired(s, c) {
      assert HasFired(s', c);
    }
  }

  /** A step that leaves the list and the tag and takes no witness away. */
  lemma ForwardsWakes(s: State, s': State)
    requires Wakes(s) && (s'.life.Live? ==> s.life.Live?)
    requires s'.tag == s.tag && s'.pending == s.pending && s.sem <= s'.sem && Forwards(s, s', s.tag)
    ensures Wakes(s')
  {
    if s'.life.Live? {
      if Backed(s, s.tag) { KeepBacked(s, s', s.tag); }
      if Covered(s, s.tag) { KeepCovered(s, s', s.tag); }
      if Passing(s) { KeepPassing(s, s'); }
      if Outstanding(s) { KeepOutstanding(s, s'); }
    }
  }

  // ---- Steps of threads

  lemma EnterWakes(s: State, t: Tid, cb: Cid, origin: Origin, s': State)
    requires Owned(s) && Wakes(s) && Fresh(s, t, cb)
    requires s'.threads == s.threads[t := Thread(Scanning(cb, s.sem, s.clock), origin)]
    requires s'.life == s.life && s'.tag == s.tag && s'.sem == s.sem && s'.local == s.local
    requires forall c :: c in s.cbs ==> c in s'.cbs && s'.cbs[c].waitValue == s.cbs[c].waitValue
    ensures Wakes(s')
  {
    assert WillScan(s', t) && Covers(s', t, s.sem);
    if s.life.Live? && Backed(s, s.tag) {
      var w :| StandsFor(s, w, s.tag);
      assert StandsFor(s', w, s.tag);
    } else if s.life.Live? && (Covered(s, s.tag) || Passing(s)) {
      assert Covers(s', t, s.tag);
    }
  }

  /** A scan that leaves because its value is tagged already: it read less than that
      value, so whoever will see it reached is somebody else. */
  lemma LeaveForwards(s: State, t: Tid, cb: Cid, s': State)
    requires Owned(s) && t in s.threads && s.threads[t].pc.Scanning? && s.threads[t].pc.cb == cb
    requires s.threads[t].pc.since < s.tag
    requires s'.threads == Goto(s.threads, t, Returning) && s'.cbs == Release(s.cbs, cb) && s'.local == s.local
    ensures forall w :: StandsFor(s, w, s.tag) ==> StandsFor(s', w, s.tag)
    ensures forall u :: Covers(s, u, s.tag) ==> Covers(s', u, s.tag)
    ensures forall c :: HasFired(s, c) ==> HasFired(s', c)
  {
    assert ThreadOk(s, t);
  }

  lemma LeaveWakes(s: State, t: Tid, cb: Cid, g: Fence, s': State)
    requires Owned(s) && TagBacked(s) && t in s.threads && s.threads[t].pc.Scanning? && s.threads[t].pc.cb == cb
    requires s.threads[t].pc.since < s.tag && s'.tag == s.tag && s'.sem == s.sem
    requires g in s.pending && g.seqno == s.tag && g.timeout > s.threads[t].pc.from
    requires forall f :: f in s'.pending ==> f in s.pending
    requires s'.threads == Goto(s.threads, t, Returning) && s'.cbs == Release(s.cbs, cb) && s'.local == s.local
    ensures TagBacked(s') && (Backed(s', s.tag) || Outstanding(s'))
  {
    LeaveForwards(s, t, cb, s');
    if w :| StandsFor(s, w, s.tag) {
      assert StandsFor(s', w, s.tag);
    } else if u :| Covers(s, u, s.tag) {
      assert Covers(s', u, s.tag) && WillScan(s', u);
    } else if c :| HasFired(s, c) && s.tag <= s.sem {
      assert HasFired(s', c);
    } else {
      var u :| Expires(s, u);
      assert WillScan(s', u) && Expires(s', u);
    }
  }

  /** The scan: the head it leaves is above what it read, so it is either tagged already,
      and then taken care of by others, or the scanning thread goes on to register it. */
  lemma ScanWakes(s: State, t: Tid, read: nat, now: nat, s': State)
    requires Owned(s) && FencesOk(s) && Wakes(s)
    requires Enabled(s, DoScan(t, read, now)) && s' == ScanNext(s, t, read, now)
    ensures Wakes(s')
  {
    var r := Scan(s.pending, read, now);
    ScanExact(s.pending, read, now);
    if s.life.Live? && r.rest != [] {
      if r.rest[0].seqno == s.tag {
        assert forall f :: f in r.rest ==> f in s.pending;
        LeaveWakes(s, t, s.threads[t].pc.cb, r.rest[0], s');
      } else {
        assert StandsFor(s', Some(t), s'.tag);
      }
    }
  }

  lemma RegisterOkWakes(s: State, t: Tid, cb: Cid, value: nat, s': State)
    requires Owned(s) && Wakes(s) && t in s.threads && s.threads[t].pc == Registering(cb, value)
    requires s' == s.(threads := Goto(s.threads, t, Storing(cb, value)), cbs := SetStage(s.cbs, cb, Armed))
    ensures Wakes(s')
  {
    assert ThreadOk(s, t);
    assert ForwardsScans(s, s');
    ForwardsWakes(s, s');
  }

  /** A value that NVKMS has seen reached: the thread's next scan will see so too. */
  lemma RegisterSignalledWakes(s: State, t: Tid, s': State)
    requires Owned(s) && Wakes(s) && Enabled(s, RegisterSignalled(t)) && s' == Next(s, RegisterSignalled(t))
    ensures Wakes(s')
  {
    assert WillScan(s', t) && Covers(s', t, s.sem);
    if s.life.Live? && Backed(s, s.tag) {
      var w :| StandsFor(s, w, s.tag);
      if w == Some(t) {
        assert Covers(s', t, s.tag);
      } else {
        assert StandsFor(s', w, s.tag);
      }
    } else if s.life.Live? && (Covered(s, s.tag) || Passing(s)) {
      assert Covers(s', t, s.tag);
    }
  }

  lemma InstallStands(s: State, t: Tid)
    requires Owned(s) && Enabled(s, DoStore(t)) && s.tag == s.threads[t].pc.value
    ensures StandsFor(StoreNext(s, t), None, s.tag)
  {
    assert ThreadOk(s, t);
  }

  lemma InstallForwards(s: State, t: Tid, s': State)
    requires Enabled(s, DoStore(t)) && s' == StoreNext(s, t)
    ensures ForwardsScans(s, s')
  {
    StoreStages(s, t);
    forall c | HasFired(s, c) ensures HasFired(s', c) {
      assert StageIs(s', c, s.cbs[c].stage);
    }
  }

  lemma LoseWakes(s: State, t: Tid, cb: Cid, value: nat, s': State)
    requires Wakes(s) && t in s.threads && s.threads[t].pc == Storing(cb, value) && s.tag != value
    requires s' == s.(threads := Goto(s.threads, t, Unregistering(cb)))
    ensures Wakes(s')
  {
    ForwardsWakes(s, s');
  }

  lemma StoreWakes(s: State, t: Tid, s': State)
    requires Owned(s) && Wakes(s) && Enabled(s, DoStore(t)) && s' == StoreNext(s, t)
    ensures Wakes(s')
  {
    if s.tag == s.threads[t].pc.value {
      InstallStands(s, t);
      InstallForwards(s, t, s');
      if Outstanding(s) { KeepOutstanding(s, s'); }
    } else {
      LoseWakes(s, t, s.threads[t].pc.cb, s.threads[t].pc.value, s');
    }
  }

  // A thread on its way out neither scans nor stands for a value.

  lemma UnregisterWakes(s: State, t: Tid, s': State)
    requires Owned(s) && Wakes(s) && Enabled(s, DoUnregister(t)) && s' == UnregisterNext(s, t)
    ensures Wakes(s')
  {
    assert ThreadOk(s, t);
    ForwardsWakes(s, s');
  }

  lemma ReturnWakes(s: State, t: Tid, s': State)
    requires Owned(s) && Wakes(s) && t in s.threads && s.threads[t].pc.Returning?
    requires s' == s.(threads := s.threads - {t}, cbs := s'.cbs)
    requires s'.cbs == if s.threads[t].origin.CallbackWork? then Free(s.cbs, s.threads[t].origin.fired) else s.cbs
    ensures Wakes(s')
  {
    assert ThreadOk(s, t);
    ForwardsWakes(s, s');
  }

  // ---- Steps of a handler: from its start until its work item runs a scan is due

  lemma FiredWakes(s: State, cb: Cid, s': State)
    requires Wakes(s) && HasFired(s', cb) && s'.life == s.life
    requires s'.tag == 0 || (s'.tag == s.tag && s.sem <= s'.sem && Forwards(s, s', s.tag))
    ensures Wakes(s')
  {
    if s.life.Live? && s'.tag != 0 {
      if Backed(s, s.tag) { KeepBacked(s, s', s.tag); }
      if Covered(s, s.tag) { KeepCovered(s, s', s.tag); }
      if Passing(s) { assert Covered(s', s'.tag); }
    }
  }

  lemma StageWakes(s: State, cb: Cid, stage: Stage, s': State)
    requires Wakes(s) && s.life.Live? && cb in s.cbs && (InHandler(stage) || stage == Queued)
    requires s' == s.(pending := s'.pending, inflight := s'.inflight, cbs := SetStage(s.cbs, cb, stage))
    ensures Wakes(s')
  {
    FiredWakes(s, cb, s');
  }

  lemma ClearWakes(s: State, cb: Cid, s': State)
    requires Wakes(s) && s.life.Live? && Enabled(s, Clear(cb)) && s' == ClearNext(s, cb)
    ensures Wakes(s')
  {
    if s'.tag == s.tag {
      assert StandsFor(s, None, s.tag) ==> s.local != Some(cb) || s.tag == 0;
    }
    FiredWakes(s, cb, s');
  }

  lemma HandlerWakes(s: State, step: Step, s': State)
    requires Wakes(s) && Enabled(s, step) && s' == Next(s, step)
    requires step.Start? || step.Clear? || step.HandlerScan? || step.HandlerQueue?
    ensures Wakes(s')
  {
    if s.life.Live? {
      match step
      case Start(cb) => StageWakes(s, cb, Started, s');
      case Clear(cb) => ClearWakes(s, cb, s');
      case HandlerScan(cb, _, _) => StageWakes(s, cb, Scanned, s');
      case HandlerQueue(cb) => StageWakes(s, cb, Queued, s');
    }
  }

  lemma QuietWakes(s: State, s': State)
    requires Wakes(s)
    requires s'.life == s.life && s'.tag == s.tag && s'.local == s.local && s'.threads == s.threads
    requires s'.cbs == s.cbs && s'.pending == s.pending && s.sem <= s'.sem
    ensures Wakes(s')
  {
    ForwardsWakes(s, s');
  }

  lemma EntryWakes(s: State, step: Step)
    requires Owned(s) && Wakes(s) && Enabled(s, step)
    requires step.Add? || step.RunTimeoutWork? || step.RunCallbackWork?
    ensures Wakes(Next(s, step))
  {
    var s' := Next(s, step);
    EnterWakes(s, step.t, step.cb, s'.threads[step.t].origin, s');
  }

  predicate Destroys(step: Step) {
    step.BeginDestroy? || step.Drain? || step.Fetch? || step.DestroyUnregister?
    || step.FreeSurface? || step.FreeLocal? || step.ForceComplete?
  }

  lemma DestroyWakes(s: State, step: Step)
    requires Enabled(s, step) && Destroys(step)
    ensures Wakes(Next(s, step))
  {
    assert !Next(s, step).life.Live?;
  }

  // ---- Refused registrations

  /** Somebody other than the thread stands for the value. */
  ghost predicate OtherStands(s: State, t: Tid, value: nat) {
    exists w :: w != Some(t) && StandsFor(s, w, value)
  }

  /** A registration may be refused if its value is not the one in the tag, or somebody
      else stands for that value, or it was reached and a scan that will see so is due, or
      it was reached and no pending fence needs a scan for it. */
  ghost predicate Tolerable(s: State, step: Step) {
    step.RegisterFail? && s.life.Live? && step.t in s.threads && s.threads[step.t].pc.Registering? ==>
      || s.threads[step.t].pc.value != s.tag
      || OtherStands(s, step.t, s.tag) || Covered(s, s.tag) || Passing(s)
  }

  ghost predicate Refuses(s: State, t: Tid, cb: Cid, s': State) {
    && t in s.threads && s.threads[t].pc.Registering? && s.threads[t].pc.cb == cb
    && s' == s.(threads := Goto(s.threads, t, Returning), cbs := Release(s.cbs, cb))
  }

  lemma RefusalStands(s: State, t: Tid, cb: Cid, s': State)
    requires Refuses(s, t, cb, s')
    ensures forall w :: w != Some(t) ==> (StandsFor(s, w, s.tag) <==> StandsFor(s', w, s.tag))
    ensures !StandsFor(s', Some(t), s.tag)
  {
  }

  lemma RefusalForwards(s: State, t: Tid, cb: Cid, s': State)
    requires Owned(s) && Refuses(s, t, cb, s')
    ensures ForwardsScans(s, s') && ForwardsScans(s', s)
  {
    assert ThreadOk(s, t);
    assert forall c :: HasFired(s, c) <==> HasFired(s', c);
  }

  lemma RefusalBacked(s: State, t: Tid, cb: Cid, s': State)
    requires Owned(s) && Refuses(s, t, cb, s')
    ensures Backed(s', s.tag) <==> OtherStands(s, t, s.tag)
    ensures Covered(s', s.tag) <==> Covered(s, s.tag)
    ensures Passing(s') <==> Passing(s)
  {
    RefusalStands(s, t, cb, s');
    RefusalForwards(s, t, cb, s');
    if Covered(s, s.tag) { KeepCovered(s, s', s.tag); }
    if Covered(s', s.tag) { KeepCovered(s', s, s.tag); }
    if Passing(s) { KeepPassing(s, s'); }
    if Passing(s') { KeepPassing(s', s); }
  }

  lemma RefusalWakes(s: State, t: Tid, cb: Cid, s': State)
    requires Owned(s) && Wakes(s) && s.life.Live? && Refuses(s, t, cb, s')
    ensures Wakes(s') <==> Tolerable(s, RegisterFail(t))
  {
    RefusalBacked(s, t, cb, s');
    RefusalForwards(s, t, cb, s');
    assert ThreadOk(s, t);
    if s.threads[t].pc.value != s.tag {
      assert Backed(s, s.tag) ==> OtherStands(s, t, s.tag);
    }
    if Outstanding(s) { KeepOutstanding(s, s'); }
  }

  // ---- Every step

  lemma ThreadStepWakes(s: State, step: Step)
    requires Owned(s) && FencesOk(s) && Wakes(s) && ByThread(step)
    requires Enabled(s, step) && Tolerable(s, step)
    ensures Wakes(Next(s, step))
  {
    if step.DoScan? {
      ScanWakes(s, step.t, step.read, step.now, Next(s, step));
    } else if step.RegisterOk? {
      RegisterOkWakes(s, step.t, s.threads[step.t].pc.cb, s.threads[step.t].pc.value, Next(s, step));
    } else if step.RegisterSignalled? {
      RegisterSignalledWakes(s, step.t, Next(s, step));
    } else if step.RegisterFail? {
      if s.life.Live? {
        RefusalWakes(s, step.t, s.threads[step.t].pc.cb, Next(s, step));
      }
    } else if step.DoStore? {
      StoreWakes(s, step.t, Next(s, step));
    } else if step.DoUnregister? {
      UnregisterWakes(s, step.t, Next(s, step));
    } else if step.Return? {
      ReturnWakes(s, step.t, Next(s, step));
    } else {
      EntryWakes(s, step);
    }
  }

  lemma OtherStepWakes(s: State, step: Step)
    requires Wakes(s) && !ByThread(step) && Enabled(s, step)
    ensures Wakes(Next(s, step))
  {
    if step.Advance? || step.Signal? || step.TimerFires? {
      QuietWakes(s, Next(s, step));
    } else if step.Start? || step.Clear? || step.HandlerScan? || step.HandlerQueue? {
      HandlerWakes(s, step, Next(s, step));
    } else {
      DestroyWakes(s, step);
    }
  }

  /** Every step, old readings included, but for a refused registration that leaves the
      tagged value to nobody. */
  lemma StepWakes(s: State, step: Step)
    requires Owned(s) && FencesOk(s) && Wakes(s)
    requires Enabled(s, step) && Tolerable(s, step)
    ensures Wakes(Next(s, step))
  {
    if ByThread(step) {
      ThreadStepWakes(s, step);
    } else {
      OtherStepWakes(s, step);
    }
  }

  // ---- Every run

  ghost predicate AllTolerable(s: State, steps: seq<Step>)
    requires IsRun(s, steps)
    decreases |steps|
  {
    steps == [] || (Tolerable(s, steps[0]) && AllTolerable(Next(s, steps[0]), steps[1..]))
  }

  lemma {:induction false} RunWakes(s: State, steps: seq<Step>)
    requires ContextOk(s) && Wakes(s)
    requires IsRun(s, steps) && AllHarmless(s, steps) && AllTolerable(s, steps)
    ensures ContextOk(After(s, steps)) && Wakes(After(s, steps))
    decreases |steps|
  {
    if steps != [] {
      StepWakes(s, steps[0]);
      StepContext(s, steps[0]);
      RunWakes(Next(s, steps[0]), steps[1..]);
    }
  }

  ghost predicate NoRefusals(steps: seq<Step>) {
    forall i :: 0 <= i < |steps| ==> !steps[i].RegisterFail?
  }

  lemma {:induction false} NoRefusalsTolerable(s: State, steps: seq<Step>)
    requires IsRun(s, steps) && NoRefusals(steps)
    ensures AllTolerable(s, steps)
    decreases |steps|
  {
    if steps != [] {
      assert !steps[0].RegisterFail?;
      assert forall i :: 0 <= i < |steps[1..]| ==> steps[1..][i] == steps[i + 1];
      NoRefusalsTolerable(Next(s, steps[0]), steps[1..]);
    }
  }

  /** No thread inside `reg_callbacks`, no handler running, no work queued. */
  ghost predicate Quiet(s: State) {
    s.threads == map[] && forall c :: c in s.cbs ==> !InHandler(s.cbs[c].stage) && s.cbs[c].stage != Queued
  }

  /** The lowest pending value has a callback that is registered with NVKMS, has not fired,
      and is stored in the context. */
  ghost predicate Waited(s: State) {
    && s.pending != [] && s.tag == s.pending[0].seqno
    && s.local.Some? && s.local.value in s.cbs
    && s.cbs[s.local.value].stage == Armed
    && s.cbs[s.local.value].waitValue == s.pending[0].seqno
  }

  lemma QuietIsWaited(s: State)
    requires Owned(s) && Wakes(s) && s.life.Live? && Quiet(s) && s.pending != []
    ensures Waited(s)
  {
    var w :| StandsFor(s, w, s.tag);
    assert CallbackOk(s, s.local.value);
  }

  /** At every moment of every such run of a live context with fences pending, a scan
      is outstanding or the lowest pending value is tagged and stood for. */
  lemma AlwaysAwake(steps: seq<Step>)
    requires IsRun(INITIAL, steps) && AllHarmless(INITIAL, steps) && AllTolerable(INITIAL, steps)
    requires After(INITIAL, steps).life.Live?
    ensures Awake(After(INITIAL, steps))
  {
    InitialContext();
    InitialWakes();
    RunWakes(INITIAL, steps);
  }

  /** Whenever a live context comes to rest with fences pending, a registered callback
      waits for the lowest one. */
  lemma NoLostWakeup(steps: seq<Step>)
    requires IsRun(INITIAL, steps) && AllHarmless(INITIAL, steps) && AllTolerable(INITIAL, steps)
    requires var s := After(INITIAL, steps); s.life.Live? && Quiet(s) && s.pending != []
    ensures Waited(After(INITIAL, steps))
  {
    InitialContext();
    InitialWakes();
    RunWakes(INITIAL, steps);
    QuietIsWaited(After(INITIAL, steps));
  }
}
