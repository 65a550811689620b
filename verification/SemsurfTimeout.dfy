/** What the context's timer does: once it has fired, a scan with a reading of the clock no
    older than that follows, and fences that had expired do not stay at the head of the list. */
module SemsurfTimeout {
  import opened Common
  import opened FenceList
  import opened SemsurfModel
  import opened SemsurfFences
  import opened SemsurfRest

  // ---- Threads and the clock, in every run

  predicate Enters(step: Step) {
    step.Add? || step.RunTimeoutWork? || step.RunCallbackWork?
  }

  predicate OfThread(step: Step) {
    step.DoScan? || step.RegisterOk? || step.RegisterSignalled? || step.RegisterFail? || step.DoStore?
    || step.DoUnregister? || step.Return?
  }

  lemma EnterTimely(s: State, step: Step)
    requires Timely(s) && Enabled(s, step) && Enters(step)
    ensures Timely(Next(s, step))
  {
  }

  lemma ThreadMoves(s: State, step: Step, u: Tid)
    requires Enabled(s, step) && OfThread(step) && u in Next(s, step).threads
    ensures u in s.threads && Next(s, step).sem == s.sem && Next(s, step).clock == s.clock
    ensures var pc := Next(s, step).threads[u].pc;
      pc.Scanning? ==> pc == s.threads[u].pc || (pc.since == s.sem && pc.from == s.clock)
  {
  }

  lemma ThreadTimely(s: State, step: Step)
    requires Timely(s) && Enabled(s, step) && OfThread(step)
    ensures Timely(Next(s, step))
  {
    forall u | u in Next(s, step).threads && Next(s, step).threads[u].pc.Scanning?
      ensures Next(s, step).threads[u].pc.since <= Next(s, step).sem
      ensures Next(s, step).threads[u].pc.from <= Next(s, step).clock
    {
      ThreadMoves(s, step, u);
    }
  }

  lemma OtherTimely(s: State, step: Step)
    requires Timely(s) && Enabled(s, step) && !Enters(step) && !OfThread(step)
    ensures Timely(Next(s, step))
  {
  }

  lemma StepTimely(s: State, step: Step)
    requires Timely(s) && Enabled(s, step)
    ensures Timely(Next(s, step))
  {
    if Enters(step) {
      EnterTimely(s, step);
    } else if OfThread(step) {
      ThreadTimely(s, step);
    } else {
      OtherTimely(s, step);
    }
  }

  lemma {:induction false} RunTimely(s: State, steps: seq<Step>)
    requires Timely(s) && IsRun(s, steps)
    ensures Timely(After(s, steps))
    decreases |steps|
  {
    if steps != [] {
      StepTimely(s, steps[0]);
      RunTimely(Next(s, steps[0]), steps[1..]);
    }
  }

  // ---- The scan that a timeout brings about

  ghost predicate WillScan(s: State, t: Tid, from: nat) {
    t in s.threads && s.threads[t].pc.Scanning? && s.threads[t].pc.from >= from
  }

  /** A scan with a clock reading from `from` on is to come: queued, or a thread is about to. */
  ghost predicate ScanDue(s: State, from: nat) {
    from <= s.clock && (s.timeoutWork || exists t :: WillScan(s, t, from))
  }

  predicate Scans(step: Step, from: nat) {
    step.DoScan? && step.now >= from
  }

  /** A thread on its way to a scan gets there. */
  lemma KeepsThread(s: State, step: Step, t: Tid, from: nat)
    requires Enabled(s, step) && WillScan(s, t, from)
    ensures WillScan(Next(s, step), t, from) || Scans(step, from)
  {
  }

  lemma ClockGrows(s: State, step: Step)
    requires Enabled(s, step)
    ensures s.clock <= Next(s, step).clock
    ensures s.timeoutWork && !step.RunTimeoutWork? ==> Next(s, step).timeoutWork
  {
  }

  lemma StepDue(s: State, step: Step, from: nat)
    requires Enabled(s, step) && ScanDue(s, from)
    ensures ScanDue(Next(s, step), from) || Scans(step, from)
  {
    ClockGrows(s, step);
    if s.timeoutWork {
      if step.RunTimeoutWork? {
        assert WillScan(Next(s, step), step.t, from);
      }
    } else {
      var t :| WillScan(s, t, from);
      KeepsThread(s, step, t, from);
    }
  }

  /** The steps of a run up to some point are a run. */
  lemma {:induction false} RunPrefix(s: State, steps: seq<Step>, k: nat)
    requires IsRun(s, steps) && k <= |steps|
    ensures IsRun(s, steps[..k]) && IsRun(After(s, steps[..k]), steps[k..])
    ensures After(After(s, steps[..k]), steps[k..]) == After(s, steps)
    decreases |steps|
  {
    if k == 0 {
      assert steps[..0] == [] && steps[0..] == steps;
    } else {
      RunPrefix(Next(s, steps[0]), steps[1..], k - 1);
      assert steps[..k][1..] == steps[1..][..k - 1] && steps[k..] == steps[1..][k - 1..];
    }
  }

  lemma {:induction false} DueScans(s: State, steps: seq<Step>, from: nat) returns (k: nat)
    requires IsRun(s, steps) && ScanDue(s, from) && !ScanDue(After(s, steps), from)
    ensures k < |steps| && Scans(steps[k], from)
    decreases |steps|
  {
    if Scans(steps[0], from) {
      k := 0;
    } else {
      StepDue(s, steps[0], from);
      var j := DueScans(Next(s, steps[0]), steps[1..], from);
      k := j + 1;
    }
  }

  lemma {:induction false} ScanStops(p: seq<Fence>, current: nat, now: nat)
    ensures var rest := Scan(p, current, now).rest; rest != [] ==> rest[0].timeout > now
  {
    if p != [] {
      ScanStops(p[1..], current, now);
    }
  }

  lemma RestHasNoneDue(s: State, from: nat)
    requires Timely(s) && AtRest(s) && s.life.Live?
    ensures !ScanDue(s, from)
  {
    RestHasNoThread(s);
    RestHasNoWork(s, 0);
  }

  /** After the timer has fired, and before the context comes to rest, a scan reads a time no
      earlier than that, and leaves no fence at the head that had expired by then.  In every
      run, whatever it reads of the semaphore and whatever NVKMS answers. */
  lemma TimerScans(before: seq<Step>, steps: seq<Step>) returns (k: nat)
    requires IsRun(INITIAL, before) && Enabled(After(INITIAL, before), TimerFires)
    requires IsRun(Next(After(INITIAL, before), TimerFires), steps)
    requires var s := After(Next(After(INITIAL, before), TimerFires), steps); s.life.Live? && AtRest(s)
    ensures k < |steps| && steps[k].DoScan? && steps[k].now >= After(INITIAL, before).clock
    ensures IsRun(Next(After(INITIAL, before), TimerFires), steps[..k])
    ensures var s := After(Next(After(INITIAL, before), TimerFires), steps[..k]);
      Enabled(s, steps[k]) && HeadAfter(Next(s, steps[k]), After(INITIAL, before).clock)
  {
    var s0 := After(INITIAL, before);
    var s1 := Next(s0, TimerFires);
    RunTimely(INITIAL, before);
    StepTimely(s0, TimerFires);
    RunTimely(s1, steps);
    RestHasNoneDue(After(s1, steps), s0.clock);
    k := DueScans(s1, steps, s0.clock);
    RunPrefix(s1, steps, k);
    assert steps[k..][0] == steps[k];
    var s := After(s1, steps[..k]);
    ScanStops(s.pending, steps[k].read, steps[k].now);
  }

  ghost predicate HeadAfter(s: State, time: nat) {
    s.pending != [] ==> s.pending[0].timeout > time
  }

  // ---- Without new fences, all that had expired at the head is signalled

  /** The list has lost some of its first fences. */
  ghost predicate Suffix(p: seq<Fence>, q: seq<Fence>) {
    exists n :: 0 <= n <= |q| && p == q[n..]
  }

  lemma SuffixOf(p: seq<Fence>, q: seq<Fence>, r: seq<Fence>)
    requires Suffix(p, q) && Suffix(q, r)
    ensures Suffix(p, r)
  {
    var m :| 0 <= m <= |q| && p == q[m..];
    var n :| 0 <= n <= |r| && q == r[n..];
    assert p == r[m + n..];
  }

  lemma ScanSuffix(p: seq<Fence>, current: nat, now: nat)
    requires Sorted(p)
    ensures Suffix(Scan(p, current, now).rest, p)
  {
    ScanExact(p, current, now);
    var r := Scan(p, current, now);
    assert r.rest == p[|r.finished + r.timedOut|..];
  }

  lemma StepSuffix(s: State, step: Step)
    requires FencesOk(s) && Enabled(s, step) && !step.Add?
    ensures Suffix(Next(s, step).pending, s.pending)
  {
    if step.DoScan? || step.HandlerScan? {
      ScanSuffix(s.pending, step.read, step.now);
    } else if step.ForceComplete? {
      assert s.pending[1..] == Next(s, step).pending;
    } else {
      assert Next(s, step).pending == s.pending && s.pending == s.pending[0..];
    }
  }

  lemma {:induction false} RunSuffix(s: State, steps: seq<Step>)
    requires FencesOk(s) && IsRun(s, steps) && forall i :: 0 <= i < |steps| ==> !steps[i].Add?
    ensures FencesOk(After(s, steps)) && Suffix(After(s, steps).pending, s.pending)
    decreases |steps|
  {
    if steps == [] {
      assert s.pending == s.pending[0..];
    } else {
      StepFences(s, steps[0]);
      StepSuffix(s, steps[0]);
      assert forall i :: 0 <= i < |steps[1..]| ==> steps[1..][i] == steps[i + 1];
      RunSuffix(Next(s, steps[0]), steps[1..]);
      SuffixOf(After(s, steps).pending, Next(s, steps[0]).pending, s.pending);
    }
  }

  /** The list before and after one of the steps. */
  lemma SuffixAround(s: State, steps: seq<Step>, k: nat, s1: State)
    requires FencesOk(s) && IsRun(s, steps) && k < |steps| && forall i :: 0 <= i < |steps| ==> !steps[i].Add?
    requires IsRun(s, steps[..k]) && Enabled(After(s, steps[..k]), steps[k])
    requires s1 == Next(After(s, steps[..k]), steps[k])
    ensures Suffix(s1.pending, s.pending) && forall f :: f in After(s, steps).pending ==> f in s1.pending
  {
    RunPrefix(s, steps, k);
    var s0 := After(s, steps[..k]);
    assert steps[k..][0] == steps[k] && steps[k..][1..] == steps[k + 1..];
    RunSuffix(s, steps[..k]);
    StepSuffix(s0, steps[k]);
    SuffixOf(s1.pending, s0.pending, s.pending);
    StepFences(s0, steps[k]);
    RunSuffix(s1, steps[k + 1..]);
  }

  /** A suffix of a sorted list whose head is not among the first `m` has none of them. */
  lemma SuffixLacks(p: seq<Fence>, q: seq<Fence>, m: nat, time: nat, i: nat)
    requires Sorted(q) && Suffix(p, q) && i < m <= |q| && (p != [] ==> p[0].timeout > time)
    requires forall j :: 0 <= j < m ==> q[j].timeout <= time
    ensures q[i] !in p
  {
    var n :| 0 <= n <= |q| && p == q[n..];
    if p != [] {
      assert p[0] == q[n] && n >= m;
    }
    forall j | 0 <= j < |p| ensures p[j] != q[i] {
      assert p[j] == q[n + j] && Before(q[i], q[n + j]);
    }
  }

  lemma Unpended(s: State, id: nat, s': State)
    requires FencesOk(s) && FencesOk(s') && id in s.fences && id in s'.fences
    requires s'.fences[id].fence == s.fences[id].fence
    requires s.fences[id].fence !in s'.pending && s'.inflight == map[]
    ensures |s'.fences[id].signals| == 1
  {
    assert FenceOk(s', id);
  }

  /** The fences at the head of the list that have expired when the timer fires are signalled,
      exactly once each, by the time the context comes to rest, if no new fence goes in front
      of them meanwhile. */
  lemma ExpiredAreSignalled(before: seq<Step>, steps: seq<Step>, m: nat, i: nat)
    requires IsRun(INITIAL, before) && Enabled(After(INITIAL, before), TimerFires)
    requires IsRun(Next(After(INITIAL, before), TimerFires), steps) && forall j :: 0 <= j < |steps| ==> !steps[j].Add?
    requires var s := After(Next(After(INITIAL, before), TimerFires), steps); s.life.Live? && AtRest(s)
    requires i < m <= |After(INITIAL, before).pending|
    requires forall j :: 0 <= j < m ==> After(INITIAL, before).pending[j].timeout <= After(INITIAL, before).clock
    ensures var s, s' := After(INITIAL, before), After(Next(After(INITIAL, before), TimerFires), steps);
      var id := s.pending[i].id;
      id in s'.fences && s'.fences[id].fence == s.pending[i] && |s'.fences[id].signals| == 1
  {
    var s0 := After(INITIAL, before);
    var s1 := Next(s0, TimerFires);
    InitialFences();
    RunFences(INITIAL, before);
    StepFences(s0, TimerFires);
    var k := TimerScans(before, steps);
    var s2 := Next(After(s1, steps[..k]), steps[k]);
    SuffixAround(s1, steps, k, s2);
    SuffixLacks(s2.pending, s0.pending, m, s0.clock, i);
    assert s0.pending[i] in s0.pending;
    RunFenceStays(s1, steps, s0.pending[i].id);
    RestIsSignalled(After(s1, steps));
    Unpended(s0, s0.pending[i].id, After(s1, steps));
  }
}
