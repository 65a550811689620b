/** PRIME fence contexts: fences signalled by channel events in the order they were
    created, and all at once when the 32-bit sequence number wraps or the context goes.
    Every call runs under the context's lock, so a call is a step.  `created` and
    `signals` are history. */
module PrimeModel {
  type Seqno = n: nat | n < 0x1_0000_0000

  datatype Fence = Fence(id: nat, seqno: Seqno)

  /** Why a fence was signalled: the event handler read a value, a fence was created
      with a lower number than the last one, or the context was destroyed. */
  datatype Cause = Reached(reading: Seqno) | Wrapped(seqno: Seqno, lastSeqno: Seqno) | Destroyed

  datatype Signal = Signal(fence: Fence, cause: Cause)

  datatype State = State(
    pending: seq<Fence>,
    lastSeqno: Seqno,
    gone: bool,
    created: nat,
    signals: seq<Signal>)

  const INITIAL: State := State([], 0, false, 0, [])

  datatype Call = Create(seqno: Seqno) | Event(reading: nat -> Seqno) | Destroy

  /** How many fences the event handler signals when it reads the semaphore anew for
      every fence, its `i`-th reading being the first. */
  function Ready(pending: seq<Fence>, reading: nat -> Seqno, i: nat): (n: nat)
    ensures n <= |pending|
    ensures forall k :: 0 <= k < n ==> pending[k].seqno <= reading(i + k)
    ensures n < |pending| ==> pending[n].seqno > reading(i + n)
    decreases |pending|
  {
    if pending == [] || pending[0].seqno > reading(i) then 0
    else 1 + Ready(pending[1..], reading, i + 1)
  }

  function ReachedSignals(done: seq<Fence>, reading: nat -> Seqno): seq<Signal> {
    seq(|done|, k requires 0 <= k < |done| => Signal(done[k], Reached(reading(k))))
  }

  function ForcedSignals(done: seq<Fence>, cause: Cause): seq<Signal> {
    seq(|done|, k requires 0 <= k < |done| => Signal(done[k], cause))
  }

  function Next(s: State, call: Call): State {
    match call
    case Create(seqno) =>
      var s1 := if seqno < s.lastSeqno
                then s.(pending := [], signals := s.signals + ForcedSignals(s.pending, Wrapped(seqno, s.lastSeqno)))
                else s;
      s1.(pending := s1.pending + [Fence(s.created, seqno)], lastSeqno := seqno, created := s.created + 1)
    case Event(reading) =>
      var n := Ready(s.pending, reading, 0);
      s.(pending := s.pending[n..], signals := s.signals + ReachedSignals(s.pending[..n], reading))
    case Destroy =>
      s.(pending := [], gone := true, signals := s.signals + ForcedSignals(s.pending, Destroyed))
  }

  /** Nothing is called on a destroyed context. */
  ghost predicate IsRun(s: State, calls: seq<Call>)
    decreases |calls|
  {
    calls == [] || (!s.gone && IsRun(Next(s, calls[0]), calls[1..]))
  }

  ghost function After(s: State, calls: seq<Call>): State
    requires IsRun(s, calls)
    decreases |calls|
  {
    if calls == [] then s else After(Next(s, calls[0]), calls[1..])
  }
}
