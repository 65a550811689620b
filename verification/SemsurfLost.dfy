/** Exactly when wake-ups are kept: from a state that is not awake in the sense of the
    invariant there is a run, without refusals and with harmless scans, that ends with
    fences pending and nobody left to look at them. */
module SemsurfLost {
  import opened Common
  import opened FenceList
  import opened SemsurfModel
  import opened SemsurfFences
  import opened SemsurfOwnership
  import opened SemsurfInflight
  import opened SemsurfRuns
  import opened SemsurfWakeup
  import opened SemsurfProgress
  import opened SemsurfRest

  /** Whatever follows without refusals, the context is awake as long as it lives. */
  ghost predicate StaysAwake(s: State) {
    forall steps :: Follows(s, steps) && After(s, steps).life.Live? ==> Awake(After(s, steps))
  }

  ghost predicate Follows(s: State, steps: seq<Step>) {
    IsRun(s, steps) && AllHarmless(s, steps) && NoRefusals(steps)
  }

  lemma FollowOne(s: State, step: Step, rest: seq<Step>)
    requires Enabled(s, step) && Harmless(s, step) && !step.RegisterFail? && Follows(Next(s, step), rest)
    ensures Follows(s, [step] + rest) && After(s, [step] + rest) == After(Next(s, step), rest)
  {
    assert ([step] + rest)[1..] == rest;
  }

  lemma WakesStays(s: State)
    requires ContextOk(s) && Wakes(s)
    ensures StaysAwake(s)
  {
    forall steps | Follows(s, steps) && After(s, steps).life.Live? ensures Awake(After(s, steps)) {
      NoRefusalsTolerable(s, steps);
      RunWakes(s, steps);
    }
  }

  // ---- A tagged value that is not reached

  /** The lowest pending value is tagged, unreached and unexpired, and nobody stands for it. */
  ghost predicate Lost(s: State) {
    && s.life.Live? && s.sem < s.tag && !Backed(s, s.tag)
    && s.pending != [] && s.pending[0].seqno == s.tag && s.clock < s.pending[0].timeout
  }

  lemma LostFrame(s: State, s': State)
    requires Lost(s)
    requires s'.life == s.life && s'.tag == s.tag && s'.sem == s.sem && s'.clock == s.clock && s'.pending == s.pending
    requires forall w :: StandsFor(s', w, s.tag) ==> StandsFor(s, w, s.tag)
    ensures Lost(s')
  {
  }

  lemma ScanLost(s: State, t: Tid, read: nat, now: nat)
    requires Owned(s) && Lost(s) && Enabled(s, DoScan(t, read, now))
    ensures Lost(ScanNext(s, t, read, now))
  {
    var s' := ScanNext(s, t, read, now);
    assert Scan(s.pending, read, now) == ScanResult([], [], s.pending);
    assert s'.threads == Goto(s.threads, t, Returning) && s'.cbs == Release(s.cbs, s.threads[t].pc.cb);
    LostFrame(s, s');
  }

  lemma ThreadLost(s: State, step: Step, s': State)
    requires Owned(s) && Lost(s) && Enabled(s, step) && s' == Next(s, step)
    requires step.RegisterOk? || step.RegisterSignalled? || step.DoUnregister? || step.Return?
    ensures Lost(s')
  {
    LostFrame(s, s');
  }

  lemma StoreLost(s: State, t: Tid)
    requires Lost(s) && Enabled(s, DoStore(t))
    ensures Lost(StoreNext(s, t))
  {
    if s.threads[t].pc.value == s.tag {
      assert StandsFor(s, Some(t), s.tag);
    }
    LostFrame(s, StoreNext(s, t));
  }

  lemma EnterLost(s: State, step: Step, s': State)
    requires Owned(s) && Lost(s) && Enabled(s, step) && (step.RunTimeoutWork? || step.RunCallbackWork?)
    requires s' == Next(s, step)
    ensures Lost(s')
  {
    LostFrame(s, s');
  }

  lemma HandlerLost(s: State, step: Step, s': State)
    requires Owned(s) && Lost(s) && Enabled(s, step) && s' == Next(s, step)
    requires step.Start? || step.Clear? || step.HandlerScan? || step.HandlerQueue?
    ensures Lost(s')
  {
    assert CallbackOk(s, step.cb);
    if step.HandlerScan? {
      assert Scan(s.pending, step.read, step.now) == ScanResult([], [], s.pending);
    }
    LostFrame(s, s');
  }

  lemma CalmKeepsLost(s: State, step: Step)
    requires Owned(s) && Lost(s) && Enabled(s, step) && Calm(s, step)
    ensures Lost(Next(s, step))
  {
    if step.DoScan? {
      ScanLost(s, step.t, step.read, step.now);
    } else if step.DoStore? {
      StoreLost(s, step.t);
    } else if step.RunTimeoutWork? || step.RunCallbackWork? {
      EnterLost(s, step, Next(s, step));
    } else if ByThread(step) {
      ThreadLost(s, step, Next(s, step));
    } else if step.Signal? {
      LostFrame(s, Next(s, step));
    } else {
      HandlerLost(s, step, Next(s, step));
    }
  }

  /** Left alone, everybody goes away without looking at the value. */
  lemma {:induction false} LostForGood(s: State) returns (steps: seq<Step>)
    requires ContextOk(s) && Lost(s)
    ensures Follows(s, steps) && After(s, steps).life.Live? && !Awake(After(s, steps))
    decreases Work(s)
  {
    if AtRest(s) {
      RestIsQuiet(s);
      steps := [];
    } else {
      var step :| Calm(s, step) && Enabled(s, step);
      if step.DoScan? { CurrentIsHarmless(s, step.t, step.now); }
      StepContext(s, step);
      StepWorks(s, step);
      CalmKeepsLost(s, step);
      var rest := LostForGood(Next(s, step));
      FollowOne(s, step, rest);
      steps := [step] + rest;
    }
  }

  lemma {:induction false} Latest(p: seq<Fence>) returns (time: nat)
    ensures forall g :: g in p ==> g.timeout <= time
  {
    if p == [] {
      time := 0;
    } else {
      var rest := Latest(p[1..]);
      time := if p[0].timeout < rest then rest else p[0].timeout;
      assert forall g :: g in p ==> g == p[0] || g in p[1..];
    }
  }

  /** A scan goes as far as the first fence it has to leave. */
  lemma {:induction false} ScanUpTo(a: seq<Fence>, f: Fence, b: seq<Fence>, read: nat, now: nat)
    requires forall g :: g in a ==> g.timeout <= now
    requires read < f.seqno && now < f.timeout
    ensures Scan(a + [f] + b, read, now).rest == [f] + b
  {
    if a == [] {
      assert a + [f] + b == [f] + b;
    } else {
      assert (a + [f] + b)[0] == a[0] && (a + [f] + b)[1..] == a[1..] + [f] + b;
      ScanUpTo(a[1..], f, b, read, now);
    }
  }

  lemma InsertScanned(p: seq<Fence>, f: Fence, read: nat, now: nat)
    requires forall g :: g in p ==> g.timeout <= now
    requires read < f.seqno && now < f.timeout
    ensures var rest := Scan(Insert(p, f), read, now).rest; rest != [] && rest[0] == f
  {
    var k := Position(p, f.seqno);
    ScanUpTo(p[..k], f, p[k..], read, now);
  }

  /** A thread that has just entered may scan. */
  lemma EnteredMayScan(s: State, t: Tid)
    requires ContextOk(s) && t in s.threads && s.threads[t].pc.Scanning?
    ensures IsAt(s, t)
  {
    forall id | id in s.inflight ensures s.inflight[id].actor != OnThread(t) {
      assert Delivers(s, s.inflight[id].actor);
    }
  }

  /** A new fence with the tagged value, added when all others have expired, ends up at the
      head of the list; its own scan finds the value tagged and leaves. */
  lemma AdderLoses(s: State, t: Tid, cb: Cid, f: Fence, s2: State, s3: State)
    requires s.life.Live? && s.sem < s.tag && !Backed(s, s.tag)
    requires forall g :: g in s.pending ==> g.timeout <= s.clock
    requires Fresh(s, t, cb) && f == Fence(s.added, s.tag, s.clock + 1)
    requires s2 == Enter(Insertion(s, f), t, cb, Adder)
    requires Enabled(s2, DoScan(t, s.sem, s.clock)) && s3 == ScanNext(s2, t, s.sem, s.clock)
    ensures Lost(s3)
  {
    InsertScanned(s.pending, f, s.sem, s.clock);
    assert s3.threads == Goto(s2.threads, t, Returning) && s3.cbs == Release(s2.cbs, cb) && s3.local == s.local;
    assert forall w :: StandsFor(s3, w, s.tag) ==> StandsFor(s, w, s.tag);
  }

  lemma UnreachedLoses(s: State) returns (steps: seq<Step>)
    requires ContextOk(s) && s.life.Live? && s.sem < s.tag && !Backed(s, s.tag)
    ensures Follows(s, steps) && After(s, steps).life.Live? && !Awake(After(s, steps))
  {
    var time := Latest(s.pending);
    var advance := Advance(s.sem, if time < s.clock then s.clock else time);
    var s1 := Next(s, advance);
    StepContext(s, advance);
    assert forall w :: StandsFor(s1, w, s.tag) ==> StandsFor(s, w, s.tag);
    var t := Unused(s.threads.Keys);
    var cb := Unused(s.cbs.Keys);
    var f := Fence(s.added, s.tag, s1.clock + 1);
    var s2 := Next(s1, Add(t, cb, f));
    StepContext(s1, Add(t, cb, f));
    var scan := DoScan(t, s1.sem, s1.clock);
    EnteredMayScan(s2, t);
    AdderLoses(s1, t, cb, f, s2, Next(s2, scan));
    CurrentIsHarmless(s2, t, s1.clock);
    StepContext(s2, scan);
    var rest := LostForGood(Next(s2, scan));
    FollowOne(s2, scan, rest);
    FollowOne(s1, Add(t, cb, f), [scan] + rest);
    FollowOne(s, advance, [Add(t, cb, f)] + ([scan] + rest));
    steps := [advance] + ([Add(t, cb, f)] + ([scan] + rest));
  }

  // ---- A tagged value that is reached

  /** A reached value that a pending fence carries is tagged, nobody stands for it, and
      every scan that is due may have read less and find the fence unexpired. */
  ghost predicate Overdue(s: State, g: Fence) {
    && s.life.Live? && 0 < s.tag <= s.sem && !Backed(s, s.tag)
    && g in s.pending && g.seqno == s.tag
    && (forall c :: !HasFired(s, c))
    && (forall u :: WillScan(s, u) ==> s.threads[u].pc.since < s.tag && s.threads[u].pc.from < g.timeout)
  }

  /** The fence that carries the value and expires last. */
  lemma {:induction false} LastToExpire(p: seq<Fence>, v: nat, f: Fence) returns (g: Fence)
    requires f in p && f.seqno == v
    ensures g in p && g.seqno == v
    ensures forall h :: h in p && h.seqno == v ==> h.timeout <= g.timeout
  {
    if h :| h in p[1..] && h.seqno == v {
      g := LastToExpire(p[1..], v, h);
      if p[0].seqno == v && g.timeout < p[0].timeout { g := p[0]; }
    } else {
      g := f;
    }
    assert forall h :: h in p ==> h == p[0] || h in p[1..];
  }

  lemma UntakenIsOverdue(s: State) returns (g: Fence)
    requires s.life.Live? && 0 < s.tag <= s.sem
    requires !Backed(s, s.tag) && !Covered(s, s.tag) && !Passing(s)
    ensures Overdue(s, g)
  {
    var f :| f in s.pending && f.seqno == s.tag;
    g := LastToExpire(s.pending, s.tag, f);
    forall u | WillScan(s, u) ensures s.threads[u].pc.since < s.tag && s.threads[u].pc.from < g.timeout {
      assert !Covers(s, u, s.tag) && !Expires(s, u);
    }
  }

  lemma NobodyStores(s: State)
    requires !Backed(s, s.tag)
    ensures !FinishedStorer(s, s.tag)
  {
    forall u | u in s.threads ensures !StoresFinished(s, u, s.tag) {
      assert !StandsFor(s, Some(u), s.tag);
    }
  }

  /** The scan reads just less than the value, and leaves. */
  lemma ScanLeavesOverdue(s: State, t: Tid, g: Fence, read: nat, now: nat)
    requires ContextOk(s) && Overdue(s, g) && WillScan(s, t)
    requires read == s.tag - 1 && now == s.threads[t].pc.from
    ensures Enabled(s, DoScan(t, read, now)) && Harmless(s, DoScan(t, read, now))
    ensures Overdue(Next(s, DoScan(t, read, now)), g)
  {
    assert ThreadOk(s, t);
    EnteredMayScan(s, t);
    LeavesOverdue(s.pending, read, now, g);
    NobodyStores(s);
    var s' := ScanNext(s, t, read, now);
    assert s'.threads == Goto(s.threads, t, Returning) && s'.cbs == Release(s.cbs, s.threads[t].pc.cb);
    assert forall w :: StandsFor(s', w, s.tag) ==> StandsFor(s, w, s.tag);
    assert forall c :: HasFired(s', c) ==> HasFired(s, c);
    assert forall u :: WillScan(s', u) ==> WillScan(s, u) && s'.threads[u] == s.threads[u];
  }

  lemma LeavesOverdue(p: seq<Fence>, read: nat, now: nat, g: Fence)
    requires Sorted(p) && g in p && read + 1 == g.seqno && now < g.timeout
    ensures var rest := Scan(p, read, now).rest; g in rest && rest[0].seqno == g.seqno
  {
    var r := Scan(p, read, now);
    ScanExact(p, read, now);
    assert g in r.finished + r.timedOut + r.rest;
    var i :| 0 <= i < |r.rest| && r.rest[i] == g;
    assert i == 0 || Before(r.rest[0], r.rest[i]);
  }

  lemma NobodyLeft(s: State, g: Fence)
    requires Overdue(s, g) && forall u :: !WillScan(s, u)
    ensures !Awake(s)
  {
  }

  lemma ScanGoesOn(s: State, scan: Step)
    requires ContextOk(s) && Enabled(s, scan) && Harmless(s, scan) && scan.DoScan?
    ensures ContextOk(Next(s, scan)) && Work(Next(s, scan)) < Work(s)
  {
    StepContext(s, scan);
    StepWorks(s, scan);
  }

  lemma NothingFollows(s: State)
    ensures Follows(s, []) && After(s, []) == s
  {
  }

  /** One scan after the other leaves, until nobody is left. */
  lemma {:induction false} OverdueLoses(s: State, g: Fence) returns (steps: seq<Step>)
    requires ContextOk(s) && Overdue(s, g)
    ensures Follows(s, steps) && After(s, steps).life.Live? && !Awake(After(s, steps))
    decreases Work(s)
  {
    if exists t :: WillScan(s, t) {
      var t :| WillScan(s, t);
      var read, now := s.tag - 1, s.threads[t].pc.from;
      var scan := DoScan(t, read, now);
      ScanLeavesOverdue(s, t, g, read, now);
      ScanGoesOn(s, scan);
      var rest := OverdueLoses(Next(s, scan), g);
      FollowOne(s, scan, rest);
      steps := [scan] + rest;
    } else {
      NobodyLeft(s, g);
      NothingFollows(s);
      steps := [];
    }
  }

  // ---- The exact conditions

  /** The invariant of the wake-up proof is the weakest there is. */
  lemma WakesExactly(s: State)
    requires ContextOk(s) && s.life.Live?
    ensures StaysAwake(s) <==> Wakes(s)
  {
    if Wakes(s) {
      WakesStays(s);
    } else if !Awake(s) {
      assert Follows(s, []);
    } else if s.sem < s.tag {
      var steps := UnreachedLoses(s);
    } else {
      var g := UntakenIsOverdue(s);
      var steps := OverdueLoses(s, g);
    }
  }

  /** A registration may be refused if and only if no wake-up can be lost after it. */
  lemma RefusalExactly(s: State, t: Tid)
    requires ContextOk(s) && Wakes(s) && s.life.Live? && Enabled(s, RegisterFail(t))
    ensures Tolerable(s, RegisterFail(t)) <==> StaysAwake(Next(s, RegisterFail(t)))
  {
    var s' := Next(s, RegisterFail(t));
    StepContext(s, RegisterFail(t));
    RefusalWakes(s, t, s.threads[t].pc.cb, s');
    WakesExactly(s');
  }

  ghost predicate AllStayAwake(s: State, steps: seq<Step>)
    requires IsRun(s, steps)
    decreases |steps|
  {
    StaysAwake(s) && (steps == [] || AllStayAwake(Next(s, steps[0]), steps[1..]))
  }

  /** Among the runs with harmless scans, wake-ups are safe throughout exactly in those
      whose refusals are tolerable. */
  lemma {:induction false} RunAwakeIff(s: State, steps: seq<Step>)
    requires ContextOk(s) && Wakes(s) && IsRun(s, steps) && AllHarmless(s, steps)
    ensures AllStayAwake(s, steps) <==> AllTolerable(s, steps)
    decreases |steps|
  {
    WakesStays(s);
    if steps != [] {
      StepContext(s, steps[0]);
      if Tolerable(s, steps[0]) {
        StepWakes(s, steps[0]);
        RunAwakeIff(Next(s, steps[0]), steps[1..]);
      } else {
        RefusalExactly(s, steps[0].t);
      }
    }
  }
}
