/** The fences of a semaphore-surface context: the pending list stays sorted, the
    context holds one reference to a fence exactly while the fence is on a list, and
    each fence is signalled exactly once, with the result its situation calls for. */
module SemsurfFences {
  import opened Common
  import opened FenceList
  import opened SemsurfModel

  /** When a fence may be signalled with a given result. */
  ghost predicate Justified(s: State, f: Fence, status: Status) {
    match status
    case Reached => f.seqno <= s.sem
    case TimedOut => f.timeout <= s.clock
    case Forced => s.life.CallbackFreed?
  }

  ghost predicate FenceOk(s: State, id: nat)
    requires id in s.fences
  {
    var r := s.fences[id];
    var waits := r.fence in s.pending;
    var leaves := id in s.inflight;
    && r.fence.id == id < s.added
    && !(waits && leaves)
    && r.refs == (if waits || leaves then 1 else 0)
    && |r.signals| == (if waits || leaves then 0 else 1)
    && (leaves ==> s.inflight[id].status != Forced && Justified(s, r.fence, s.inflight[id].status))
    && (r.signals != [] ==> Justified(s, r.fence, r.signals[0]))
  }

  ghost predicate FencesOk(s: State) {
    && Sorted(s.pending)
    && (forall f :: f in s.pending ==> f.id in s.fences && s.fences[f.id].fence == f)
    && (forall id :: id in s.inflight ==> id in s.fences)
    && (forall id: nat :: id < s.added ==> id in s.fences)
    && (forall id :: id in s.fences ==> FenceOk(s, id))
  }

  lemma InitialFences()
    ensures FencesOk(INITIAL)
  {
  }

  ghost predicate Adds(s: State, fence: Fence, s': State) {
    && fence.id == s.added && s'.added == s.added + 1
    && Sorted(s'.pending) && (forall g :: g in s'.pending <==> g == fence || g in s.pending)
    && s'.fences == s.fences[fence.id := FenceRecord(fence, 1, [])]
    && s'.inflight == s.inflight && s'.sem == s.sem && s'.clock == s.clock && s'.life == s.life
  }

  lemma AllYounger(s: State)
    requires FencesOk(s)
    ensures forall g :: g in s.pending ==> g.id < s.added
    ensures forall id :: id in s.fences ==> id < s.added
  {
    forall id | id in s.fences ensures id < s.added {
      assert FenceOk(s, id);
    }
  }

  lemma AddOneFence(s: State, fence: Fence, s': State, id: nat)
    requires FencesOk(s) && Adds(s, fence, s') && id in s.fences && id < s.added
    ensures FenceOk(s', id)
  {
    assert FenceOk(s, id);
  }

  lemma AddedFences(s: State, fence: Fence, s': State)
    requires FencesOk(s) && Adds(s, fence, s')
    ensures FencesOk(s')
  {
    AllYounger(s);
    forall id | id in s'.fences ensures FenceOk(s', id) {
      if id != fence.id { AddOneFence(s, fence, s', id); }
    }
  }

  lemma AddFences(s: State, t: Tid, cb: Cid, fence: Fence)
    requires FencesOk(s) && fence.id == s.added
    ensures FencesOk(Enter(Insertion(s, fence), t, cb, Adder))
  {
    AllYounger(s);
    InsertSorted(s.pending, fence);
    AddedFences(s, fence, Enter(Insertion(s, fence), t, cb, Adder));
  }

  // ---- A scan moves fences from the pending list to its caller's lists

  lemma {:induction false} LeavingDomain(list: seq<Fence>, d: Delivery, id: nat)
    ensures id in Leaving(list, d) <==> exists f :: f in list && f.id == id
    ensures id in Leaving(list, d) ==> Leaving(list, d)[id] == d
  {
    if list != [] {
      LeavingDomain(list[1..], d, id);
      assert list[0] in list;
      if f :| f in list && f.id == id {
        assert f == list[0] || f in list[1..];
      }
    }
  }

  lemma OutgoingDomain(r: ScanResult, actor: Actor, id: nat)
    ensures id in Outgoing(r, actor) <==> exists f :: f in r.finished + r.timedOut && f.id == id
    ensures id in Outgoing(r, actor) ==>
      exists f: Fence :: f.id == id &&
        if Outgoing(r, actor)[id].status == TimedOut then f in r.timedOut else f in r.finished
    ensures id in Outgoing(r, actor) ==>
      Outgoing(r, actor)[id].actor == actor && Outgoing(r, actor)[id].status != Forced
  {
    LeavingDomain(r.finished, Delivery(actor, Reached), id);
    LeavingDomain(r.timedOut, Delivery(actor, TimedOut), id);
    if f :| f in r.timedOut && f.id == id {
      assert f in r.finished + r.timedOut;
    } else if f :| f in r.finished && f.id == id {
      assert f in r.finished + r.timedOut;
    }
    if f :| f in r.finished + r.timedOut && f.id == id {
      assert f in r.finished || f in r.timedOut;
    }
  }

  lemma SortedParts(a: seq<Fence>, b: seq<Fence>)
    requires Sorted(a + b)
    ensures forall f :: f in a ==> f !in b
  {
    forall i, j | 0 <= i < |a| && 0 <= j < |b| ensures a[i] != b[j] {
      assert Before((a + b)[i], (a + b)[|a| + j]);
    }
  }

  /** A fence of the list goes to exactly one side of the scan. */
  lemma ScanSides(p: seq<Fence>, read: nat, now: nat, f: Fence)
    requires Sorted(p) && f in p
    ensures var r := Scan(p, read, now); f in r.rest <==> f !in r.finished + r.timedOut
  {
    ScanExact(p, read, now);
    var r := Scan(p, read, now);
    assert p == (r.finished + r.timedOut) + r.rest;
    SortedParts(r.finished + r.timedOut, r.rest);
  }

  lemma ScanMembers(p: seq<Fence>, read: nat, now: nat)
    requires Sorted(p)
    ensures var r := Scan(p, read, now);
      && (forall f :: f in r.rest || f in r.finished || f in r.timedOut ==> f in p)
      && (forall f :: f in r.finished ==> f.seqno <= read)
      && (forall f :: f in r.timedOut ==> f.timeout <= now)
      && Sorted(r.rest)
  {
    ScanExact(p, read, now);
  }

  ghost predicate TakesOff(s: State, actor: Actor, read: nat, now: nat, s': State) {
    var r := Scan(s.pending, read, now);
    && read <= s.sem && now <= s.clock
    && s'.pending == r.rest && s'.inflight == s.inflight + Outgoing(r, actor)
    && s'.fences == s.fences && s'.added == s.added
    && s'.sem == s.sem && s'.clock == s.clock && s'.life == s.life
  }

  lemma ScanOneFence(s: State, actor: Actor, read: nat, now: nat, s': State, id: nat)
    requires FencesOk(s) && TakesOff(s, actor, read, now, s') && id in s.fences
    ensures FenceOk(s', id)
  {
    var r := Scan(s.pending, read, now);
    var fence := s.fences[id].fence;
    assert FenceOk(s, id);
    ScanMembers(s.pending, read, now);
    OutgoingDomain(r, actor, id);
    if id in Outgoing(r, actor) {
      var f: Fence :| f.id == id &&
        if Outgoing(r, actor)[id].status == TimedOut then f in r.timedOut else f in r.finished;
      assert f in s.pending && f == fence;
      ScanSides(s.pending, read, now, fence);
      assert f in r.finished + r.timedOut;
    } else if fence in s.pending {
      ScanSides(s.pending, read, now, fence);
    }
  }

  lemma ScanFences(s: State, actor: Actor, read: nat, now: nat, s': State)
    requires FencesOk(s) && TakesOff(s, actor, read, now, s')
    ensures FencesOk(s')
  {
    ScanMembers(s.pending, read, now);
    forall id | id in s'.fences ensures FenceOk(s', id) {
      ScanOneFence(s, actor, read, now, s', id);
    }
    forall id | id in s'.inflight ensures id in s'.fences {
      var r := Scan(s.pending, read, now);
      OutgoingDomain(r, actor, id);
      if id !in s.inflight {
        var f :| f in r.finished + r.timedOut && f.id == id;
        assert f in s.pending;
      }
    }
  }

  lemma SignalFences(s: State, id: nat)
    requires FencesOk(s) && Enabled(s, Signal(id))
    ensures FencesOk(Next(s, Signal(id)))
  {
    var s' := Next(s, Signal(id));
    assert FenceOk(s, id);
    forall k | k in s'.fences ensures FenceOk(s', k) {
      assert FenceOk(s, k);
    }
  }

  lemma ForceOneFence(s: State, f: Fence, s': State, k: nat)
    requires FencesOk(s) && s.life.CallbackFreed? && f in s.pending && k in s.fences
    requires s' == s.(pending := s'.pending, fences := SignalFence(s.fences, f.id, Forced))
    requires forall g :: g in s.pending <==> g == f || g in s'.pending
    requires f !in s'.pending
    ensures FenceOk(s', k)
  {
    assert FenceOk(s, k) && FenceOk(s, f.id);
  }

  lemma ForceHead(s: State, f: Fence, s': State)
    requires FencesOk(s) && s.life.CallbackFreed? && s.pending == [f] + s'.pending
    requires s' == s.(pending := s'.pending, fences := SignalFence(s.fences, f.id, Forced))
    ensures FencesOk(s')
  {
    SortedTail(s.pending);
    assert s.pending[1..] == s'.pending;
    SortedParts([f], s'.pending);
    assert f in [f];
    forall k | k in s.fences ensures FenceOk(s', k) {
      ForceOneFence(s, f, s', k);
    }
    assert s'.fences.Keys == s.fences.Keys;
  }

  lemma ForceFences(s: State)
    requires FencesOk(s) && Enabled(s, ForceComplete)
    ensures FencesOk(Next(s, ForceComplete))
  {
    assert s.pending == [s.pending[0]] + s.pending[1..];
    ForceHead(s, s.pending[0], Next(s, ForceComplete));
  }

  lemma FrameFences(s: State, s': State)
    requires FencesOk(s)
    requires s'.pending == s.pending && s'.inflight == s.inflight && s'.fences == s.fences && s'.added == s.added
    requires s.sem <= s'.sem && s.clock <= s'.clock && (s.life.CallbackFreed? ==> s'.life == s.life)
    ensures FencesOk(s')
  {
    forall k | k in s'.fences ensures FenceOk(s', k) {
      assert FenceOk(s, k);
    }
  }

  predicate MovesFences(step: Step) {
    step.Add? || step.DoScan? || step.HandlerScan? || step.Signal? || step.ForceComplete?
  }

  lemma QuietStep(s: State, step: Step)
    requires Enabled(s, step) && !MovesFences(step)
    ensures var s' := Next(s, step);
      && s'.pending == s.pending && s'.inflight == s.inflight && s'.fences == s.fences && s'.added == s.added
      && s.sem <= s'.sem && s.clock <= s'.clock && (s.life.CallbackFreed? ==> s'.life == s.life)
  {
  }

  lemma QuietFences(s: State, step: Step)
    requires FencesOk(s) && Enabled(s, step) && !MovesFences(step)
    ensures FencesOk(Next(s, step))
  {
    QuietStep(s, step);
    FrameFences(s, Next(s, step));
  }

  lemma MovingFences(s: State, step: Step, s': State)
    requires FencesOk(s) && Enabled(s, step) && MovesFences(step) && s' == Next(s, step)
    ensures FencesOk(s')
  {
    match step
    case Add(t, cb, fence) => AddFences(s, t, cb, fence);
    case DoScan(t, read, now) => ScanFences(s, OnThread(t), read, now, s');
    case HandlerScan(cb, read, now) => ScanFences(s, OnHandler(cb), read, now, s');
    case Signal(id) => SignalFences(s, id);
    case ForceComplete => ForceFences(s);
  }

  /** Every step keeps the list sorted and every fence accounted for. */
  lemma StepFences(s: State, step: Step)
    requires FencesOk(s) && Enabled(s, step)
    ensures FencesOk(Next(s, step))
  {
    if MovesFences(step) {
      MovingFences(s, step, Next(s, step));
    } else {
      QuietFences(s, step);
    }
  }

  /** In every run: no fence is signalled without error before the semaphore reached
      it, none with a timeout by a scan before its own timeout, and the pending list
      is sorted with equal values in order of arrival. */
  lemma {:induction false} RunFences(s: State, steps: seq<Step>)
    requires FencesOk(s) && IsRun(s, steps)
    ensures FencesOk(After(s, steps))
    decreases |steps|
  {
    if steps != [] {
      StepFences(s, steps[0]);
      RunFences(Next(s, steps[0]), steps[1..]);
    }
  }

  lemma SignalsStay(s: State, step: Step, id: nat)
    requires FencesOk(s) && Enabled(s, step)
    requires id in s.fences && s.fences[id].signals != []
    ensures id in Next(s, step).fences && Next(s, step).fences[id].signals == s.fences[id].signals
  {
    assert FenceOk(s, id);
    if !MovesFences(step) {
      QuietStep(s, step);
    } else if step.ForceComplete? {
      assert s.pending[0] in s.pending;
    }
  }

  /** A fence that has been signalled is never signalled again. */
  lemma {:induction false} SignalIsFinal(s: State, steps: seq<Step>, id: nat)
    requires FencesOk(s) && IsRun(s, steps)
    requires id in s.fences && s.fences[id].signals != []
    ensures id in After(s, steps).fences && After(s, steps).fences[id].signals == s.fences[id].signals
    decreases |steps|
  {
    if steps != [] {
      StepFences(s, steps[0]);
      SignalsStay(s, steps[0], id);
      SignalIsFinal(Next(s, steps[0]), steps[1..], id);
    }
  }

  /** A fence stays the fence it was added as. */
  lemma FenceStays(s: State, step: Step, id: nat)
    requires FencesOk(s) && Enabled(s, step) && id in s.fences
    ensures id in Next(s, step).fences && Next(s, step).fences[id].fence == s.fences[id].fence
  {
    AllYounger(s);
    if !MovesFences(step) { QuietStep(s, step); }
  }

  lemma {:induction false} RunFenceStays(s: State, steps: seq<Step>, id: nat)
    requires FencesOk(s) && IsRun(s, steps) && id in s.fences
    ensures FencesOk(After(s, steps))
    ensures id in After(s, steps).fences && After(s, steps).fences[id].fence == s.fences[id].fence
    decreases |steps|
  {
    if steps != [] {
      StepFences(s, steps[0]);
      FenceStays(s, steps[0], id);
      RunFenceStays(Next(s, steps[0]), steps[1..], id);
    }
  }

  /** A fence handed to a context is one of its fences ever after: it waits on the list, or is
      being signalled, or was signalled once. */
  lemma AddedFenceStays(s: State, t: Tid, cb: Cid, fence: Fence, steps: seq<Step>)
    requires FencesOk(s) && Enabled(s, Add(t, cb, fence)) && IsRun(Next(s, Add(t, cb, fence)), steps)
    ensures var s' := After(Next(s, Add(t, cb, fence)), steps);
      && fence.id in s'.fences && s'.fences[fence.id].fence == fence
      && (fence in s'.pending || fence.id in s'.inflight || |s'.fences[fence.id].signals| == 1)
  {
    StepFences(s, Add(t, cb, fence));
    RunFenceStays(Next(s, Add(t, cb, fence)), steps, fence.id);
    assert FenceOk(After(Next(s, Add(t, cb, fence)), steps), fence.id);
  }
}
