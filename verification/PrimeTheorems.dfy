/** What every run of calls on a PRIME fence context keeps. */
module PrimeTheorems {
  import opened Common
  import opened PrimeModel

  /** The pending list never decreases and ends at most at the last number. */
  ghost predicate Ordered(s: State) {
    && (forall i, j :: 0 <= i < j < |s.pending| ==> s.pending[i].seqno <= s.pending[j].seqno)
    && (forall i :: 0 <= i < |s.pending| ==> s.pending[i].seqno <= s.lastSeqno)
  }

  /** Signalled fences, then pending ones, are all fences ever created, in the order of
      their creation. */
  ghost predicate InCreationOrder(s: State) {
    && s.created == |s.signals| + |s.pending|
    && (forall i :: 0 <= i < |s.signals| ==> s.signals[i].fence.id == i)
    && (forall i :: 0 <= i < |s.pending| ==> s.pending[i].id == |s.signals| + i)
  }

  /** A fence signalled before its number was read was overtaken by a wrap or by the
      end of the context. */
  ghost predicate Caused(s: State, signal: Signal) {
    match signal.cause
    case Reached(reading) => signal.fence.seqno <= reading
    case Wrapped(seqno, lastSeqno) => seqno < lastSeqno && signal.fence.seqno <= lastSeqno
    case Destroyed => s.gone
  }

  ghost predicate AllCaused(s: State) {
    forall i :: 0 <= i < |s.signals| ==> Caused(s, s.signals[i])
  }

  ghost predicate PrimeOk(s: State) {
    Ordered(s) && InCreationOrder(s) && AllCaused(s) && (s.gone ==> s.pending == [])
  }

  lemma ForceOk(s: State, cause: Cause, s': State)
    requires PrimeOk(s) && !s.gone
    requires cause.Wrapped? ==> cause.seqno < cause.lastSeqno == s.lastSeqno
    requires !cause.Reached?
    requires s' == s.(pending := [], gone := cause.Destroyed?, signals := s.signals + ForcedSignals(s.pending, cause))
    ensures PrimeOk(s')
    ensures s.signals <= s'.signals
  {
    forall i | 0 <= i < |s'.signals| ensures Caused(s', s'.signals[i]) && s'.signals[i].fence.id == i {
      if i < |s.signals| {
        assert Caused(s, s.signals[i]);
      } else {
        assert s'.signals[i].fence == s.pending[i - |s.signals|];
      }
    }
  }

  lemma AppendOk(s: State, seqno: Seqno, s': State)
    requires PrimeOk(s) && !s.gone
    requires seqno < s.lastSeqno ==> s.pending == []
    requires s' == s.(pending := s.pending + [Fence(s.created, seqno)], lastSeqno := seqno, created := s.created + 1)
    ensures PrimeOk(s')
  {
    forall i | 0 <= i < |s'.signals| ensures Caused(s', s'.signals[i]) {
      assert Caused(s, s.signals[i]);
    }
  }

  lemma EventOk(s: State, reading: nat -> Seqno, s': State)
    requires PrimeOk(s) && !s.gone
    requires s' == Next(s, Event(reading))
    ensures PrimeOk(s')
    ensures s.signals <= s'.signals
  {
    var n := Ready(s.pending, reading, 0);
    forall i | 0 <= i < |s'.signals| ensures Caused(s', s'.signals[i]) && s'.signals[i].fence.id == i {
      if i < |s.signals| {
        assert Caused(s, s.signals[i]);
      } else {
        assert s'.signals[i].fence == s.pending[i - |s.signals|];
      }
    }
  }

  lemma StepOk(s: State, call: Call)
    requires PrimeOk(s) && !s.gone
    ensures PrimeOk(Next(s, call))
    ensures s.signals <= Next(s, call).signals
  {
    match call
    case Create(seqno) =>
      var s1 := s;
      if seqno < s.lastSeqno {
        var cause := Wrapped(seqno, s.lastSeqno);
        s1 := s.(pending := [], gone := false, signals := s.signals + ForcedSignals(s.pending, cause));
        ForceOk(s, cause, s1);
      }
      AppendOk(s1, seqno, Next(s, call));
    case Event(reading) => EventOk(s, reading, Next(s, call));
    case Destroy => ForceOk(s, Destroyed, Next(s, call));
  }

  lemma {:induction false} RunOk(s: State, calls: seq<Call>)
    requires PrimeOk(s) && IsRun(s, calls)
    ensures PrimeOk(After(s, calls))
    ensures s.signals <= After(s, calls).signals
    decreases |calls|
  {
    if calls != [] {
      StepOk(s, calls[0]);
      RunOk(Next(s, calls[0]), calls[1..]);
    }
  }

  /** Every fence of a destroyed context was signalled, once, in creation order. */
  lemma SignalledExactlyOnce(calls: seq<Call>)
    requires IsRun(INITIAL, calls)
    ensures PrimeOk(After(INITIAL, calls))
    ensures forall i :: 0 <= i < |After(INITIAL, calls).signals| ==> After(INITIAL, calls).signals[i].fence.id == i
    ensures After(INITIAL, calls).gone ==> |After(INITIAL, calls).signals| == After(INITIAL, calls).created
  {
    RunOk(INITIAL, calls);
  }

  /** The event handler is exact although it looks no further than the first fence that
      is not ready: it signals a prefix of the pending fences, each for a reading that has
      reached it, and nothing its last reading reached stays pending. */
  lemma EventExact(s: State, reading: nat -> Seqno) returns (n: nat)
    requires Ordered(s)
    ensures n <= |s.pending| && Next(s, Event(reading)).pending == s.pending[n..]
    ensures forall k :: 0 <= k < n ==> s.pending[k].seqno <= reading(k)
    ensures forall k :: n <= k < |s.pending| ==> s.pending[k].seqno > reading(n)
    ensures Next(s, Event(reading)).signals[..|s.signals|] == s.signals
    ensures |Next(s, Event(reading)).signals| == |s.signals| + n
    ensures forall k :: 0 <= k < n ==>
      Next(s, Event(reading)).signals[|s.signals| + k] == Signal(s.pending[k], Reached(reading(k)))
  {
    n := Ready(s.pending, reading, 0);
  }

  // ---- What the calls made

  /** The fences created by some calls, with their numbers, `from` fences coming before. */
  ghost function Made(calls: seq<Call>, from: nat): seq<Fence>
    decreases |calls|
  {
    if calls == [] then []
    else if calls[0].Create? then [Fence(from, calls[0].seqno)] + Made(calls[1..], from + 1)
    else Made(calls[1..], from)
  }

  /** The number of the fence created last, or the given one if none was. */
  ghost function Newest(calls: seq<Call>, before: Seqno): Seqno
    decreases |calls|
  {
    if calls == [] then before
    else Newest(calls[1..], if calls[0].Create? then calls[0].seqno else before)
  }

  function Signalled(signals: seq<Signal>): seq<Fence> {
    seq(|signals|, k requires 0 <= k < |signals| => signals[k].fence)
  }

  /** All fences of a context: the signalled and the pending ones. */
  function All(s: State): seq<Fence> {
    Signalled(s.signals) + s.pending
  }

  lemma {:induction false} SignalledAppend(a: seq<Signal>, b: seq<Signal>)
    ensures Signalled(a + b) == Signalled(a) + Signalled(b)
  {
  }

  lemma ForcedAll(signals: seq<Signal>, pending: seq<Fence>, cause: Cause)
    ensures Signalled(signals + ForcedSignals(pending, cause)) == Signalled(signals) + pending
  {
    SignalledAppend(signals, ForcedSignals(pending, cause));
    assert Signalled(ForcedSignals(pending, cause)) == pending;
  }

  lemma ReachedAll(signals: seq<Signal>, done: seq<Fence>, reading: nat -> Seqno)
    ensures Signalled(signals + ReachedSignals(done, reading)) == Signalled(signals) + done
  {
    SignalledAppend(signals, ReachedSignals(done, reading));
    assert Signalled(ReachedSignals(done, reading)) == done;
  }

  lemma CreateAll(s: State, seqno: Seqno)
    ensures All(Next(s, Create(seqno))) == All(s) + [Fence(s.created, seqno)]
  {
    ForcedAll(s.signals, s.pending, Wrapped(seqno, s.lastSeqno));
    Regroup(Signalled(s.signals), s.pending, [Fence(s.created, seqno)]);
  }

  lemma OtherAll(s: State, call: Call)
    requires !call.Create?
    ensures All(Next(s, call)) == All(s)
  {
    if call.Event? {
      var n := Ready(s.pending, call.reading, 0);
      ReachedAll(s.signals, s.pending[..n], call.reading);
      Regroup(Signalled(s.signals), s.pending[..n], s.pending[n..]);
      assert s.pending == s.pending[..n] + s.pending[n..];
    } else {
      ForcedAll(s.signals, s.pending, Destroyed);
      assert Signalled(s.signals) + s.pending + [] == Signalled(s.signals) + s.pending;
    }
  }

  lemma StepAll(s: State, call: Call)
    ensures All(Next(s, call)) == if call.Create? then All(s) + [Fence(s.created, call.seqno)] else All(s)
    ensures Next(s, call).created == s.created + if call.Create? then 1 else 0
    ensures Next(s, call).lastSeqno == if call.Create? then call.seqno else s.lastSeqno
  {
    if call.Create? {
      CreateAll(s, call.seqno);
    } else {
      OtherAll(s, call);
    }
  }

  lemma {:induction false} RunAll(s: State, calls: seq<Call>)
    requires IsRun(s, calls)
    ensures All(After(s, calls)) == All(s) + Made(calls, s.created)
    ensures After(s, calls).lastSeqno == Newest(calls, s.lastSeqno)
    decreases |calls|
  {
    if calls != [] {
      StepAll(s, calls[0]);
      RunAll(Next(s, calls[0]), calls[1..]);
      if calls[0].Create? {
        Regroup(All(s), [Fence(s.created, calls[0].seqno)], Made(calls[1..], s.created + 1));
      }
    }
  }

  /** In every run the context's fences are those that were created, and its last number is
      that of the newest of them. */
  lemma HoldsWhatWasMade(calls: seq<Call>)
    requires IsRun(INITIAL, calls)
    ensures All(After(INITIAL, calls)) == Made(calls, 0)
    ensures After(INITIAL, calls).lastSeqno == Newest(calls, 0)
  {
    RunAll(INITIAL, calls);
    assert All(INITIAL) == [] && [] + Made(calls, 0) == Made(calls, 0);
  }

  /** A new fence forces the pending ones out exactly if its number is below that of the
      newest one before it. */
  lemma WrapExactly(calls: seq<Call>, seqno: Seqno)
    requires IsRun(INITIAL, calls) && !After(INITIAL, calls).gone
    ensures var s, s' := After(INITIAL, calls), Next(After(INITIAL, calls), Create(seqno));
      if seqno < Newest(calls, 0)
      then s'.pending == [Fence(s.created, seqno)] && Signalled(s'.signals) == Signalled(s.signals) + s.pending
      else s'.pending == s.pending + [Fence(s.created, seqno)] && s'.signals == s.signals
  {
    HoldsWhatWasMade(calls);
  }

  lemma {:induction false} DestroyedAtEnd(s: State, calls: seq<Call>)
    requires IsRun(s, calls) && calls != [] && calls[|calls| - 1] == Destroy
    ensures After(s, calls).gone && After(s, calls).pending == []
    decreases |calls|
  {
    if |calls| > 1 {
      DestroyedAtEnd(Next(s, calls[0]), calls[1..]);
    }
  }

  /** A destroyed context has signalled what was created, in that order. */
  lemma DestroySignalsAll(calls: seq<Call>)
    requires IsRun(INITIAL, calls) && calls != [] && calls[|calls| - 1] == Destroy
    ensures Signalled(After(INITIAL, calls).signals) == Made(calls, 0)
  {
    HoldsWhatWasMade(calls);
    DestroyedAtEnd(INITIAL, calls);
  }
}
