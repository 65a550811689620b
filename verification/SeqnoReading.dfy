/** Reading a 32-bit semaphore takes two loads, first the largest submitted value and then
    the semaphore, and both words may move in between.  A step is one load, one submission
    or one release by the GPU. */
module SeqnoReading {
  import opened SeqnoWidening

  /** `floor` is the payload at the first load; `payload` the one at the second. */
  datatype Reader = HasMax(max: nat, floor: nat) | Finished(value: nat, max: nat, payload: nat)

  datatype State = State(payload: nat, maxSubmitted: nat, readers: map<nat, Reader>)

  const INITIAL: State := State(0, 0, map[])

  datatype Step = Submit(value: nat) | Release(value: nat) | LoadMax(r: nat) | LoadSem(r: nat)

  /** Values are submitted in order before they are released, fewer than 2^32 ahead. */
  predicate Enabled(s: State, step: Step) {
    match step
    case Submit(value) => s.maxSubmitted <= value < W64 && value - s.payload < W32
    case Release(value) => s.payload <= value <= s.maxSubmitted
    case LoadMax(r) => r !in s.readers
    case LoadSem(r) => r in s.readers && s.readers[r].HasMax? && s.readers[r].max < W64
  }

  function Next(s: State, step: Step): State
    requires Enabled(s, step)
  {
    match step
    case Submit(value) => s.(maxSubmitted := value)
    case Release(value) => s.(payload := value)
    case LoadMax(r) => s.(readers := s.readers[r := HasMax(s.maxSubmitted, s.payload)])
    case LoadSem(r) =>
      var max := s.readers[r].max;
      s.(readers := s.readers[r := Finished(Widen(max, s.payload % W32), max, s.payload)])
  }

  ghost predicate IsRun(s: State, steps: seq<Step>)
    decreases |steps|
  {
    steps == [] || (Enabled(s, steps[0]) && IsRun(Next(s, steps[0]), steps[1..]))
  }

  ghost function After(s: State, steps: seq<Step>): State
    requires IsRun(s, steps)
    decreases |steps|
  {
    if steps == [] then s else After(Next(s, steps[0]), steps[1..])
  }

  /** The value lies above what the first load saw released, and not more than 2^32 below
      what it saw submitted. */
  predicate ReaderOk(s: State, reader: Reader) {
    match reader
    case HasMax(max, floor) => floor <= s.payload && floor <= max < W64 && max - floor < W32
    case Finished(value, max, payload) =>
      && max < W64 && payload < W64 && value == Widen(max, payload % W32)
      && (payload <= max ==> max - payload < W32)
  }

  ghost predicate ReadingOk(s: State) {
    && s.payload <= s.maxSubmitted < W64 && s.maxSubmitted - s.payload < W32
    && forall r :: r in s.readers ==> ReaderOk(s, s.readers[r])
  }

  lemma StepOk(s: State, step: Step)
    requires ReadingOk(s) && Enabled(s, step)
    ensures ReadingOk(Next(s, step))
  {
    forall r | r in Next(s, step).readers ensures ReaderOk(Next(s, step), Next(s, step).readers[r]) {
      assert r in s.readers ==> ReaderOk(s, s.readers[r]);
    }
  }

  lemma {:induction false} RunOk(s: State, steps: seq<Step>)
    requires ReadingOk(s) && IsRun(s, steps)
    ensures ReadingOk(After(s, steps))
    decreases |steps|
  {
    if steps != [] {
      StepOk(s, steps[0]);
      RunOk(Next(s, steps[0]), steps[1..]);
    }
  }

  /** Where the rebuilt value lies if the payload has passed the value that was loaded: no
      higher than that value, or, if that has no high half yet, in the last 2^32 of all. */
  lemma StaleMax(max: nat, payload: nat)
    requires max < payload < W64
    ensures max < payload % W32 ==> Widen(max, payload % W32) >= W64 - W32
    ensures max >= payload % W32 ==> Widen(max, payload % W32) <= max
  {
    var lo, mlo, mhi := payload % W32, max % W32, max / W32;
    assert max == mhi * W32 + mlo && mhi < W32;
    if mlo < lo {
      var m := (max - W32) % W64;
      if mhi == 0 {
        assert m == max - W32 + W64 && m / W32 == W32 - 1;
      } else {
        assert m == max - W32 && m / W32 == mhi - 1;
      }
    }
  }

  /** In every run a reading is exact if and only if no release between its two loads has
      passed the value that the first one saw submitted, or else nearly all 2^64 values
      have gone by. */
  lemma ReadingExactIff(steps: seq<Step>, r: nat)
    requires IsRun(INITIAL, steps) && r in After(INITIAL, steps).readers
    requires After(INITIAL, steps).readers[r].Finished?
    ensures var reader := After(INITIAL, steps).readers[r];
      reader.value == reader.payload <==>
        reader.payload <= reader.max || reader.payload - reader.max > W64 - W32
  {
    RunOk(INITIAL, steps);
    var reader := After(INITIAL, steps).readers[r];
    assert ReaderOk(After(INITIAL, steps), reader);
    WidenExact(reader.max, reader.payload);
    if reader.payload <= reader.max {
      assert (reader.max - reader.payload) % W64 == reader.max - reader.payload;
    } else {
      assert (reader.max - reader.payload) % W64 == reader.max - reader.payload + W64;
    }
  }

  /** Two values submitted and released between the loads: the reading is far too high. */
  lemma LateReleaseMisreads() returns (steps: seq<Step>)
    ensures IsRun(INITIAL, steps) && 0 in After(INITIAL, steps).readers
    ensures After(INITIAL, steps).readers[0] == Finished(W64 - W32 + 2, 1, 2)
  {
    steps := [Submit(1), LoadMax(0), Submit(2), Release(2), LoadSem(0)];
    var s1 := Next(INITIAL, Submit(1));
    var s2 := Next(s1, LoadMax(0));
    var s3 := Next(s2, Submit(2));
    var s4 := Next(s3, Release(2));
    var t1, t2, t3, t4 := steps[1..], steps[2..], steps[3..], steps[4..];
    assert t1[1..] == t2 && t2[1..] == t3 && t3[1..] == t4 && t4[1..] == [];
    assert IsRun(s4, t4) && IsRun(s3, t3) && IsRun(s2, t2) && IsRun(s1, t1);
    assert After(s4, t4) == Next(s4, LoadSem(0)) && s4.readers == map[0 := HasMax(1, 0)];
    assert After(INITIAL, steps) == After(s1, t1) == After(s2, t2) == After(s3, t3) == After(s4, t4);
  }
}
