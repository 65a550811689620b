/** The two ways in which the promises of the fence context fail, each in one run: a scan
    with an old reading that is not harmless, and a refusal that is not tolerable. */
module SemsurfLimits {
  import opened Common
  import opened FenceList
  import opened SemsurfModel
  import opened SemsurfOwnership
  import opened SemsurfRuns
  import opened SemsurfWakeup

  ghost predicate Reaches(steps: seq<Step>, s: State) {
    IsRun(INITIAL, steps) && After(INITIAL, steps) == s
  }

  lemma Extend(steps: seq<Step>, s: State, step: Step, s': State)
    requires Reaches(steps, s) && Enabled(s, step) && Next(s, step) == s'
    ensures Reaches(steps + [step], s')
  {
    RunAppend(INITIAL, steps, step);
  }

  // Thread 1 registers callback 10 for value 5.  Before it stores it, the semaphore
  // reaches 5, the callback fires and clears the tag.  Thread 2 then scans with the
  // reading 0 it took before that, finds value 5 unreached and tags it again, so that
  // thread 1 stores a callback that is on its way to being freed.  The callback's work
  // item frees it; the destructor reads through it and frees it again.

  const LOW: Fence := Fence(0, 5, 9)
  const HIGH: Fence := Fence(1, 5, 9)
  const ONE: map<nat, FenceRecord> := map[0 := FenceRecord(LOW, 1, [])]
  const TWO: map<nat, FenceRecord> := map[0 := FenceRecord(LOW, 1, []), 1 := FenceRecord(HIGH, 1, [])]
  const BOTH: map<nat, FenceRecord> :=
    map[0 := FenceRecord(LOW, 0, [Reached]), 1 := FenceRecord(HIGH, 0, [Reached])]
  const SENDING: Delivery := Delivery(OnHandler(10), Reached)

  const OLD_READING_1: State := State(Live, 0, 0, [LOW], 0, None,
      map[10 := Callback(0, Held, Keeper(1), 0)],
      map[1 := Thread(Scanning(10, 0, 0), Adder)],
      map[], ONE, 1, false)
  const OLD_READING_2: State := State(Live, 0, 0, [LOW], 5, None,
      map[10 := Callback(5, Held, Keeper(1), 0)],
      map[1 := Thread(Registering(10, 5), Adder)],
      map[], ONE, 1, false)
  const OLD_READING_3: State := State(Live, 0, 0, [LOW], 5, None,
      map[10 := Callback(5, Armed, Keeper(1), 0)],
      map[1 := Thread(Storing(10, 5), Adder)],
      map[], ONE, 1, false)
  const OLD_READING_4: State := State(Live, 0, 0, [LOW, HIGH], 5, None,
      map[10 := Callback(5, Armed, Keeper(1), 0), 11 := Callback(0, Held, Keeper(2), 0)],
      map[1 := Thread(Storing(10, 5), Adder), 2 := Thread(Scanning(11, 0, 0), Adder)],
      map[], TWO, 2, false)
  const OLD_READING_5: State := State(Live, 5, 0, [LOW, HIGH], 5, None,
      map[10 := Callback(5, Armed, Keeper(1), 0), 11 := Callback(0, Held, Keeper(2), 0)],
      map[1 := Thread(Storing(10, 5), Adder), 2 := Thread(Scanning(11, 0, 0), Adder)],
      map[], TWO, 2, false)
  const OLD_READING_6: State := State(Live, 5, 0, [LOW, HIGH], 5, None,
      map[10 := Callback(5, Started, Keeper(1), 0), 11 := Callback(0, Held, Keeper(2), 0)],
      map[1 := Thread(Storing(10, 5), Adder), 2 := Thread(Scanning(11, 0, 0), Adder)],
      map[], TWO, 2, false)
  const OLD_READING_7: State := State(Live, 5, 0, [LOW, HIGH], 0, None,
      map[10 := Callback(5, Cleared, Keeper(1), 0), 11 := Callback(0, Held, Keeper(2), 0)],
      map[1 := Thread(Storing(10, 5), Adder), 2 := Thread(Scanning(11, 0, 0), Adder)],
      map[], TWO, 2, false)
  const OLD_READING_8: State := State(Live, 5, 0, [LOW, HIGH], 5, None,
      map[10 := Callback(5, Cleared, Keeper(1), 0), 11 := Callback(5, Held, Keeper(2), 0)],
      map[1 := Thread(Storing(10, 5), Adder), 2 := Thread(Registering(11, 5), Adder)],
      map[], TWO, 2, false)
  const OLD_READING_9: State := State(Live, 5, 0, [LOW, HIGH], 5, Some(10),
      map[10 := Callback(5, Cleared, Context, 0), 11 := Callback(5, Held, Keeper(2), 0)],
      map[1 := Thread(Returning, Adder), 2 := Thread(Registering(11, 5), Adder)],
      map[], TWO, 2, false)
  const OLD_READING_10: State := OLD_READING_9.(pending := [], inflight := map[0 := SENDING, 1 := SENDING],
    cbs := map[10 := Callback(5, Scanned, Context, 0), 11 := Callback(5, Held, Keeper(2), 0)])
  const OLD_READING_11: State := OLD_READING_10.(inflight := map[1 := SENDING],
    fences := map[0 := FenceRecord(LOW, 0, [Reached]), 1 := FenceRecord(HIGH, 1, [])])
  const OLD_READING_12: State := OLD_READING_11.(inflight := map[], fences := BOTH)
  const OLD_READING_13: State := OLD_READING_12.(
    cbs := map[10 := Callback(5, Queued, Context, 0), 11 := Callback(5, Held, Keeper(2), 0)])
  const OLD_READING_14: State := OLD_READING_13.(threads := map[2 := Thread(Registering(11, 5), Adder)])
  const OLD_READING_15: State := OLD_READING_14.(threads := map[2 := Thread(Scanning(11, 5, 0), Adder)])
  const OLD_READING_16: State := OLD_READING_15.(tag := 0, threads := map[2 := Thread(Returning, Adder)],
    cbs := map[10 := Callback(5, Queued, Context, 0), 11 := Callback(5, Freed, Nobody, 1)])
  const OLD_READING_17: State := OLD_READING_16.(threads := map[])
  const OLD_READING_18: State := OLD_READING_17.(threads := map[3 := Thread(Scanning(12, 5, 0), CallbackWork(10))],
    cbs := map[10 := Callback(5, Working(3), Context, 0), 11 := Callback(5, Freed, Nobody, 1),
               12 := Callback(0, Held, Keeper(3), 0)])
  const OLD_READING_19: State := OLD_READING_18.(threads := map[3 := Thread(Returning, CallbackWork(10))],
    cbs := map[10 := Callback(5, Working(3), Context, 0), 11 := Callback(5, Freed, Nobody, 1),
               12 := Callback(0, Freed, Nobody, 1)])
  const OLD_READING_20: State := OLD_READING_19.(threads := map[],
    cbs := map[10 := Callback(5, Freed, Context, 1), 11 := Callback(5, Freed, Nobody, 1),
               12 := Callback(0, Freed, Nobody, 1)])
  const OLD_READING_21: State := OLD_READING_20.(life := ShuttingDown)
  const OLD_READING_22: State := OLD_READING_21.(life := Drained)
  const OLD_READING_23: State := OLD_READING_22.(life := Fetched(Some(10)))
  const OLD_READING_24: State := OLD_READING_23.(life := Unregistered)
  const OLD_READING_25: State := OLD_READING_24.(life := SurfaceFreed)
  const OLD_READING_26: State := OLD_READING_25.(life := CallbackFreed, local := None,
    cbs := map[10 := Callback(5, Freed, Nobody, 2), 11 := Callback(5, Freed, Nobody, 1),
               12 := Callback(0, Freed, Nobody, 1)])

  /** A scan of an empty list. */
  lemma EmptyScan(s: State, t: Tid, read: nat, now: nat)
    requires Enabled(s, DoScan(t, read, now)) && s.pending == []
    ensures Next(s, DoScan(t, read, now)) ==
      s.(tag := 0, threads := Goto(s.threads, t, Returning), cbs := Release(s.cbs, s.threads[t].pc.cb))
  {
    assert s.inflight + map[] == s.inflight;
  }

  lemma BothReached()
    ensures Scan([LOW, HIGH], 5, 0) == ScanResult([LOW, HIGH], [], [])
    ensures Outgoing(ScanResult([LOW, HIGH], [], []), OnHandler(10)) == map[0 := SENDING, 1 := SENDING]
  {
    assert [LOW, HIGH][1..] == [HIGH] && [HIGH][1..] == [];
    assert Scan([HIGH], 5, 0) == ScanResult([HIGH], [], []);
    assert Leaving([HIGH], SENDING) == map[1 := SENDING];
    assert Leaving([LOW, HIGH], SENDING) == map[0 := SENDING, 1 := SENDING];
  }

  lemma OldReading1() returns (steps: seq<Step>)
    ensures Reaches(steps, OLD_READING_1)
  {
    steps := [];
    Extend(steps, INITIAL, Add(1, 10, LOW), OLD_READING_1);
    steps := steps + [Add(1, 10, LOW)];
  }

  lemma OldReading2() returns (steps: seq<Step>)
    ensures Reaches(steps, OLD_READING_2)
  {
    steps := OldReading1();
    Extend(steps, OLD_READING_1, DoScan(1, 0, 0), OLD_READING_2);
    steps := steps + [DoScan(1, 0, 0)];
  }

  lemma OldReading3() returns (steps: seq<Step>)
    ensures Reaches(steps, OLD_READING_3)
  {
    steps := OldReading2();
    Extend(steps, OLD_READING_2, RegisterOk(1), OLD_READING_3);
    steps := steps + [RegisterOk(1)];
  }

  lemma OldReading4() returns (steps: seq<Step>)
    ensures Reaches(steps, OLD_READING_4)
  {
    steps := OldReading3();
    assert Insert([LOW], HIGH) == [LOW, HIGH];
    Extend(steps, OLD_READING_3, Add(2, 11, HIGH), OLD_READING_4);
    steps := steps + [Add(2, 11, HIGH)];
  }

  lemma OldReading5() returns (steps: seq<Step>)
    ensures Reaches(steps, OLD_READING_5)
  {
    steps := OldReading4();
    Extend(steps, OLD_READING_4, Advance(5, 0), OLD_READING_5);
    steps := steps + [Advance(5, 0)];
  }

  lemma OldReading6() returns (steps: seq<Step>)
    ensures Reaches(steps, OLD_READING_6)
  {
    steps := OldReading5();
    Extend(steps, OLD_READING_5, Start(10), OLD_READING_6);
    steps := steps + [Start(10)];
  }

  lemma OldReading7() returns (steps: seq<Step>)
    ensures Reaches(steps, OLD_READING_7)
  {
    steps := OldReading6();
    Extend(steps, OLD_READING_6, Clear(10), OLD_READING_7);
    steps := steps + [Clear(10)];
  }

  lemma OldReading8() returns (steps: seq<Step>)
    ensures Reaches(steps, OLD_READING_8)
  {
    steps := OldReading7();
    Extend(steps, OLD_READING_7, DoScan(2, 0, 0), OLD_READING_8);
    steps := steps + [DoScan(2, 0, 0)];
  }

  lemma OldReading9() returns (steps: seq<Step>)
    ensures Reaches(steps, OLD_READING_9)
  {
    steps := OldReading8();
    Extend(steps, OLD_READING_8, DoStore(1), OLD_READING_9);
    steps := steps + [DoStore(1)];
  }

  lemma OldReading10() returns (steps: seq<Step>)
    ensures Reaches(steps, OLD_READING_10)
  {
    steps := OldReading9();
    BothReached();
    Extend(steps, OLD_READING_9, HandlerScan(10, 5, 0), OLD_READING_10);
    steps := steps + [HandlerScan(10, 5, 0)];
  }

  lemma OldReading11() returns (steps: seq<Step>)
    ensures Reaches(steps, OLD_READING_11)
  {
    steps := OldReading10();
    assert OLD_READING_10.inflight - {0} == map[1 := SENDING] && [] + [Reached] == [Reached];
    Extend(steps, OLD_READING_10, Signal(0), OLD_READING_11);
    steps := steps + [Signal(0)];
  }

  lemma OldReading12() returns (steps: seq<Step>)
    ensures Reaches(steps, OLD_READING_12)
  {
    steps := OldReading11();
    assert OLD_READING_11.inflight - {1} == map[] && [] + [Reached] == [Reached];
    Extend(steps, OLD_READING_11, Signal(1), OLD_READING_12);
    steps := steps + [Signal(1)];
  }

  lemma OldReading13() returns (steps: seq<Step>)
    ensures Reaches(steps, OLD_READING_13)
  {
    steps := OldReading12();
    Extend(steps, OLD_READING_12, HandlerQueue(10), OLD_READING_13);
    steps := steps + [HandlerQueue(10)];
  }

  lemma OldReading14() returns (steps: seq<Step>)
    ensures Reaches(steps, OLD_READING_14)
  {
    steps := OldReading13();
    Extend(steps, OLD_READING_13, Return(1), OLD_READING_14);
    steps := steps + [Return(1)];
  }

  lemma OldReading15() returns (steps: seq<Step>)
    ensures Reaches(steps, OLD_READING_15)
  {
    steps := OldReading14();
    Extend(steps, OLD_READING_14, RegisterSignalled(2), OLD_READING_15);
    steps := steps + [RegisterSignalled(2)];
  }

  lemma OldReading16() returns (steps: seq<Step>)
    ensures Reaches(steps, OLD_READING_16)
  {
    steps := OldReading15();
    EmptyScan(OLD_READING_15, 2, 5, 0);
    assert Release(OLD_READING_15.cbs, 11) == OLD_READING_16.cbs;
    assert Goto(OLD_READING_15.threads, 2, Returning) == OLD_READING_16.threads;
    Extend(steps, OLD_READING_15, DoScan(2, 5, 0), OLD_READING_16);
    steps := steps + [DoScan(2, 5, 0)];
  }

  lemma OldReading17() returns (steps: seq<Step>)
    ensures Reaches(steps, OLD_READING_17)
  {
    steps := OldReading16();
    Extend(steps, OLD_READING_16, Return(2), OLD_READING_17);
    steps := steps + [Return(2)];
  }

  lemma OldReading18() returns (steps: seq<Step>)
    ensures Reaches(steps, OLD_READING_18)
  {
    steps := OldReading17();
    assert SetStage(OLD_READING_17.cbs, 10, Working(3))[12 := Callback(0, Held, Keeper(3), 0)] == OLD_READING_18.cbs;
    Extend(steps, OLD_READING_17, RunCallbackWork(3, 12, 10), OLD_READING_18);
    steps := steps + [RunCallbackWork(3, 12, 10)];
  }

  lemma OldReading19() returns (steps: seq<Step>)
    ensures Reaches(steps, OLD_READING_19)
  {
    steps := OldReading18();
    EmptyScan(OLD_READING_18, 3, 5, 0);
    assert Release(OLD_READING_18.cbs, 12) == OLD_READING_19.cbs;
    assert Goto(OLD_READING_18.threads, 3, Returning) == OLD_READING_19.threads;
    Extend(steps, OLD_READING_18, DoScan(3, 5, 0), OLD_READING_19);
    steps := steps + [DoScan(3, 5, 0)];
  }

  lemma OldReading20() returns (steps: seq<Step>)
    ensures Reaches(steps, OLD_READING_20)
  {
    steps := OldReading19();
    assert Free(OLD_READING_19.cbs, 10) == OLD_READING_20.cbs && OLD_READING_19.threads - {3} == map[];
    Extend(steps, OLD_READING_19, Return(3), OLD_READING_20);
    steps := steps + [Return(3)];
  }

  lemma OldReading21() returns (steps: seq<Step>)
    ensures Reaches(steps, OLD_READING_21)
  {
    steps := OldReading20();
    Extend(steps, OLD_READING_20, BeginDestroy, OLD_READING_21);
    steps := steps + [BeginDestroy];
  }

  lemma OldReading22() returns (steps: seq<Step>)
    ensures Reaches(steps, OLD_READING_22)
  {
    steps := OldReading21();
    Extend(steps, OLD_READING_21, Drain, OLD_READING_22);
    steps := steps + [Drain];
  }

  lemma OldReading23() returns (steps: seq<Step>)
    ensures Reaches(steps, OLD_READING_23)
  {
    steps := OldReading22();
    Extend(steps, OLD_READING_22, Fetch, OLD_READING_23);
    steps := steps + [Fetch];
  }

  lemma OldReading24() returns (steps: seq<Step>)
    ensures Reaches(steps, OLD_READING_24)
  {
    steps := OldReading23();
    Extend(steps, OLD_READING_23, DestroyUnregister, OLD_READING_24);
    steps := steps + [DestroyUnregister];
  }

  lemma OldReading25() returns (steps: seq<Step>)
    ensures Reaches(steps, OLD_READING_25)
  {
    steps := OldReading24();
    Extend(steps, OLD_READING_24, FreeSurface, OLD_READING_25);
    steps := steps + [FreeSurface];
  }

  lemma OldReading26() returns (steps: seq<Step>)
    ensures Reaches(steps, OLD_READING_26)
  {
    steps := OldReading25();
    assert Release(OLD_READING_25.cbs, 10) == OLD_READING_26.cbs;
    Extend(steps, OLD_READING_25, FreeLocal, OLD_READING_26);
    steps := steps + [FreeLocal];
  }

  /** With one reading older than the lock, the context names a callback whose handler has
      run its locked region and will free it. */
  lemma OldReadingBreaksOwnership() returns (steps: seq<Step>)
    ensures IsRun(INITIAL, steps)
    ensures var s := After(INITIAL, steps);
      s.local.Some? && s.local.value in s.cbs && s.cbs[s.local.value].stage == Cleared && !LocalOk(s)
  {
    steps := OldReading9();
  }

  /** The same run goes on to a destructor that reads through the freed callback. */
  lemma OldReadingUsesFreed() returns (steps: seq<Step>)
    ensures IsRun(INITIAL, steps) && Enabled(After(INITIAL, steps), Fetch)
    ensures var s := After(INITIAL, steps); 10 in Touches(s, Fetch) && 10 in s.cbs && s.cbs[10].frees == 1
  {
    steps := OldReading22();
  }

  /** And frees it a second time. */
  lemma OldReadingFreesTwice() returns (steps: seq<Step>)
    ensures IsRun(INITIAL, steps)
    ensures 10 in After(INITIAL, steps).cbs && After(INITIAL, steps).cbs[10].frees == 2
  {
    steps := OldReading26();
  }

  const REFUSED: State := OLD_READING_2.(
    threads := map[1 := Thread(Returning, Adder)], cbs := map[10 := Callback(5, Freed, Nobody, 1)])

  lemma Refused() returns (steps: seq<Step>)
    ensures Reaches(steps, REFUSED.(threads := map[]))
  {
    steps := OldReading2();
    Extend(steps, OLD_READING_2, RegisterFail(1), REFUSED);
    steps := steps + [RegisterFail(1)];
    Extend(steps, REFUSED, Return(1), REFUSED.(threads := map[]));
    steps := steps + [Return(1)];
  }

  /** One refused registration is enough to leave a pending fence without a waiter. */
  lemma RefusalLosesWakeup() returns (steps: seq<Step>)
    ensures IsRun(INITIAL, steps)
    ensures var s := After(INITIAL, steps);
      s.life.Live? && Quiet(s) && s.pending != [] && s.local == None && !Awake(s)
  {
    steps := Refused();
    var s := REFUSED.(threads := map[]);
    assert forall t :: !WillScan(s, t);
    assert forall c :: !HasFired(s, c);
    assert forall w :: !StandsFor(s, w, s.tag);
  }
}
