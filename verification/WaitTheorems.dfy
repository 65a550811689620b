/** Sync-fd wait records: listed until freed, freed once, one fence reference dropped
    once, and the context outlives every use of it. */
module WaitTheorems {
  import opened Common
  import opened WaitModel

  predicate OnList(p: Where) {
    p.Linked? || p.Early? || p.Armed? || p.Queued? || p.Working? || p.Updated?
  }

  /** The callback and the record agree on how far they are. */
  predicate InStep(rec: Record, alive: bool) {
    match rec.cb
    case Idle => !InWorker(rec.place) && rec.place != Unlinked(Callback)
    case LockHeld => rec.place.Armed?
    case Unlocking(taken) =>
      if taken then alive && (InWorker(rec.place) || rec.place.Freed?) else !alive && rec.place.Armed?
    case MustFree => !alive && (rec.place.Armed? || rec.place == Unlinked(Callback))
    case MustPut => InWorker(rec.place) || rec.place.Freed?
    case Done => InWorker(rec.place) || rec.place.Freed?
  }

  /** Where a record is after its ioctl has dropped the reference, if no callback was taken. */
  predicate AfterEarlyPut(p: Where) {
    p == Working(Ioctl) || p == Updated(Ioctl) || p == Unlinked(Ioctl) || p.Freed?
  }

  predicate RecordOk(rec: Record, alive: bool) {
    && InStep(rec, alive)
    && rec.place != Working(Callback) && rec.place != Updated(Callback)
    && rec.frees == (if rec.place.Freed? then 1 else 0)
    && rec.gets <= 1
    && (rec.gets == 0 ==> rec.place.Freed? && rec.cb.Idle? && rec.puts == 0)
    && (rec.gets == 1 ==>
          rec.puts == if rec.cb.Done? then 1
                      else if rec.cb.Idle? && AfterEarlyPut(rec.place) then 1
                      else 0)
    && (InIoctl(rec.place) ==> rec.ioctl)
    && (rec.ioctl ==> alive)
  }

  ghost predicate WaitsOk(s: State) {
    && (forall r :: r in s.recs ==> RecordOk(s.recs[r], s.life.Alive?))
    && (forall r :: r in s.pendingWaits <==> r in s.recs && OnList(s.recs[r].place))
    && (forall r :: r in s.recs ==> (s.workerLock == Some(r) <==> s.recs[r].cb.LockHeld? || s.recs[r].cb.Unlocking?))
    && (s.workerLock.Some? ==> s.workerLock.value in s.recs)
    && (s.life.Yielding? || s.life.ContextFreed? ==> forall r :: r in s.recs ==> !InWorker(s.recs[r].place))
    && (s.life.ContextFreed? ==> s.pendingWaits == {})
  }

  lemma RecordStep(s: State, rec: Record, step: Step)
    requires OfRecord(step) && RecordEnabled(s, rec, step) && RecordOk(rec, s.life.Alive?)
    ensures RecordOk(NextRecord(s, rec, step), s.life.Alive?)
  {
  }

  /** A step of one record changes the list and the lock as that record's place says. */
  ghost predicate MovesRecord(s: State, r: Rid, rec: Record, s': State) {
    && r in s.recs && s'.recs == s.recs[r := rec] && s'.life == s.life
    && (forall q :: q != r ==> (q in s'.pendingWaits <==> q in s.pendingWaits))
    && (r in s'.pendingWaits <==> OnList(rec.place))
    && (forall q :: q != r ==> (s'.workerLock == Some(q) <==> s.workerLock == Some(q)))
    && (s'.workerLock == Some(r) <==> rec.cb.LockHeld? || rec.cb.Unlocking?)
    && (InWorker(rec.place) ==> InWorker(s.recs[r].place) || s.life.Alive?)
    && (s.life.ContextFreed? ==> s'.pendingWaits == s.pendingWaits)
  }

  lemma RecordMoves(s: State, step: Step, rec: Record, s': State)
    requires WaitsOk(s) && OfRecord(step) && step.r in s.recs && RecordEnabled(s, s.recs[step.r], step)
    requires rec == NextRecord(s, s.recs[step.r], step) && s' == Next(s, step)
    ensures MovesRecord(s, step.r, rec, s')
  {
    assert RecordOk(s.recs[step.r], s.life.Alive?);
  }

  lemma MovedOk(s: State, r: Rid, rec: Record, s': State)
    requires WaitsOk(s) && MovesRecord(s, r, rec, s') && RecordOk(rec, s.life.Alive?)
    ensures WaitsOk(s')
  {
  }

  lemma RecordStepOk(s: State, step: Step)
    requires WaitsOk(s) && OfRecord(step) && Enabled(s, step)
    ensures WaitsOk(Next(s, step))
  {
    var rec := NextRecord(s, s.recs[step.r], step);
    RecordStep(s, s.recs[step.r], step);
    RecordMoves(s, step, rec, Next(s, step));
    MovedOk(s, step.r, rec, Next(s, step));
  }

  lemma NewRecordOk(s: State, step: Step)
    requires WaitsOk(s) && Enabled(s, step) && (step.Start? || step.StartBadFd?)
    ensures WaitsOk(Next(s, step))
  {
  }

  lemma LifeOk(s: State, step: Step)
    requires WaitsOk(s) && Enabled(s, step) && (step.BeginDestroy? || step.StopReturns? || step.SeeEmpty?)
    ensures WaitsOk(Next(s, step))
  {
    forall r | r in s.recs ensures RecordOk(s.recs[r], Next(s, step).life.Alive?) {
      assert RecordOk(s.recs[r], s.life.Alive?);
    }
  }

  lemma OtherStepOk(s: State, step: Step)
    requires WaitsOk(s) && !OfRecord(step) && Enabled(s, step)
    ensures WaitsOk(Next(s, step))
  {
    if step.Start? || step.StartBadFd? {
      NewRecordOk(s, step);
    } else {
      LifeOk(s, step);
    }
  }

  lemma StepOk(s: State, step: Step)
    requires WaitsOk(s) && Enabled(s, step)
    ensures WaitsOk(Next(s, step))
  {
    if OfRecord(step) {
      RecordStepOk(s, step);
    } else {
      OtherStepOk(s, step);
    }
  }

  lemma {:induction false} RunOk(s: State, steps: seq<Step>)
    requires WaitsOk(s) && IsRun(s, steps)
    ensures WaitsOk(After(s, steps))
    decreases |steps|
  {
    if steps != [] {
      StepOk(s, steps[0]);
      RunOk(Next(s, steps[0]), steps[1..]);
    }
  }

  /** No step after the context is freed uses it. */
  lemma ContextOutlivesUse(steps: seq<Step>, step: Step)
    requires IsRun(INITIAL, steps) && Enabled(After(INITIAL, steps), step)
    ensures After(INITIAL, steps).life.ContextFreed? ==> !TouchesContext(step)
  {
    RunOk(INITIAL, steps);
    var s := After(INITIAL, steps);
    if s.life.ContextFreed? && OfRecord(step) {
      assert RecordOk(s.recs[step.r], false);
      assert step.r !in s.pendingWaits;
    }
  }

  /** A record is on the list exactly from linking to unlinking, it is freed at most once
      and not while listed, and its fence reference is dropped at most once, and exactly
      once when nobody has work left with the record. */
  lemma ListedUntilFreed(steps: seq<Step>, r: Rid)
    requires IsRun(INITIAL, steps) && r in After(INITIAL, steps).recs
    ensures var s := After(INITIAL, steps);
      && (r in s.pendingWaits <==> OnList(s.recs[r].place))
      && (s.recs[r].frees == if s.recs[r].place.Freed? then 1 else 0)
      && s.recs[r].puts <= s.recs[r].gets <= 1
      && (Finished(s.recs[r]) ==> s.recs[r].frees == 1 && s.recs[r].puts == s.recs[r].gets)
  {
    RunOk(INITIAL, steps);
    assert RecordOk(After(INITIAL, steps).recs[r], After(INITIAL, steps).life.Alive?);
  }

  // ---- The update of the semaphore

  /** Who finishes a wait: the ioctl if the fence took no callback, the worker if the context
      was alive when the fence signalled, and otherwise its callback, which drops it. */
  datatype Fate = ByIoctl | ByWorker | Dropped

  predicate Follows(rec: Record, fate: Fate) {
    match fate
    case ByIoctl =>
      && rec.cb.Idle?
      && (if rec.place.Early? || rec.place == Working(Ioctl) then rec.updates == 0
          else AfterEarlyPut(rec.place) && rec.updates == 1)
    case ByWorker =>
      && rec.cb != Idle && rec.cb != LockHeld && rec.cb != Unlocking(false) && rec.cb != MustFree
      && (if rec.place.Queued? || rec.place == Working(Worker) then rec.updates == 0
          else (InWorker(rec.place) || rec.place.Freed?) && rec.updates == 1)
    case Dropped =>
      && rec.cb != Idle && rec.cb != LockHeld && rec.cb != Unlocking(true)
      && (rec.place.Armed? ==> rec.cb == Unlocking(false) || rec.cb == MustFree)
      && (rec.place.Armed? || rec.place == Unlinked(Callback) || rec.place.Freed?) && rec.updates == 0
  }

  /** The step that decides it. */
  predicate Decides(s: State, step: Step, r: Rid, fate: Fate) {
    match fate
    case ByIoctl => step == AddCallback(r, false)
    case ByWorker => step == CbSchedule(r) && s.life.Alive?
    case Dropped => step == CbSchedule(r) && !s.life.Alive?
  }

  /** Up to then nothing is asked for. */
  predicate Undecided(rec: Record) {
    && (rec.cb.Idle? || rec.cb.LockHeld?) && rec.updates == 0
    && (rec.place.Held? || rec.place.Linked? || rec.place.Armed? || (rec.place.Freed? && rec.gets == 0))
  }

  lemma DecidedRecord(s: State, rec: Record, step: Step, fate: Fate)
    requires OfRecord(step) && RecordEnabled(s, rec, step) && RecordOk(rec, s.life.Alive?)
    requires Undecided(rec) && Decides(s, step, step.r, fate)
    ensures Follows(NextRecord(s, rec, step), fate)
  {
  }

  lemma FollowsRecord(s: State, rec: Record, step: Step, fate: Fate)
    requires OfRecord(step) && RecordEnabled(s, rec, step) && RecordOk(rec, s.life.Alive?) && Follows(rec, fate)
    ensures Follows(NextRecord(s, rec, step), fate)
  {
    match fate
    case ByIoctl =>
    case ByWorker =>
    case Dropped =>
  }

  lemma UndecidedRecord(s: State, rec: Record, step: Step)
    requires OfRecord(step) && RecordEnabled(s, rec, step) && RecordOk(rec, s.life.Alive?) && Undecided(rec)
    ensures step != AddCallback(step.r, false) && step != CbSchedule(step.r) ==> Undecided(NextRecord(s, rec, step))
  {
  }

  lemma OthersStay(s: State, step: Step, r: Rid)
    requires Enabled(s, step) && r in s.recs && !(OfRecord(step) && step.r == r)
    ensures r in Next(s, step).recs && Next(s, step).recs[r] == s.recs[r]
  {
  }

  lemma OwnRecord(s: State, step: Step)
    requires Enabled(s, step) && OfRecord(step)
    ensures step.r in Next(s, step).recs && Next(s, step).recs[step.r] == NextRecord(s, s.recs[step.r], step)
  {
  }

  lemma StepFollows(s: State, step: Step, r: Rid, fate: Fate)
    requires WaitsOk(s) && r in s.recs && Follows(s.recs[r], fate) && Enabled(s, step)
    ensures r in Next(s, step).recs && Follows(Next(s, step).recs[r], fate)
  {
    if OfRecord(step) && step.r == r {
      OwnRecord(s, step);
      FollowsRecord(s, s.recs[r], step, fate);
    } else {
      OthersStay(s, step, r);
    }
  }

  lemma StepUndecided(s: State, step: Step, r: Rid)
    requires WaitsOk(s) && Enabled(s, step) && (r in s.recs ==> Undecided(s.recs[r]))
    requires step != AddCallback(r, false) && step != CbSchedule(r)
    ensures r in Next(s, step).recs ==> Undecided(Next(s, step).recs[r])
  {
    if OfRecord(step) && step.r == r {
      OwnRecord(s, step);
      UndecidedRecord(s, s.recs[r], step);
    } else if r in s.recs {
      OthersStay(s, step, r);
    }
  }

  lemma {:induction false} RunFollows(s: State, steps: seq<Step>, r: Rid, fate: Fate)
    requires WaitsOk(s) && r in s.recs && Follows(s.recs[r], fate) && IsRun(s, steps)
    ensures r in After(s, steps).recs && Follows(After(s, steps).recs[r], fate)
    decreases |steps|
  {
    if steps != [] {
      StepOk(s, steps[0]);
      StepFollows(s, steps[0], r, fate);
      RunFollows(Next(s, steps[0]), steps[1..], r, fate);
    }
  }

  ghost predicate Decided(steps: seq<Step>, r: Rid) {
    exists i :: 0 <= i < |steps| && (steps[i] == AddCallback(r, false) || steps[i] == CbSchedule(r))
  }

  lemma DecidedLater(steps: seq<Step>, r: Rid)
    requires steps != []
    ensures Decided(steps[1..], r) ==> Decided(steps, r)
    ensures steps[0] == AddCallback(r, false) || steps[0] == CbSchedule(r) ==> Decided(steps, r)
  {
    if Decided(steps[1..], r) {
      var i :| 0 <= i < |steps[1..]| && (steps[1..][i] == AddCallback(r, false) || steps[1..][i] == CbSchedule(r));
      assert steps[i + 1] == steps[1..][i];
    }
  }

  lemma {:induction false} RunUndecided(s: State, steps: seq<Step>, r: Rid)
    requires WaitsOk(s) && IsRun(s, steps) && !Decided(steps, r)
    requires r in s.recs ==> Undecided(s.recs[r])
    ensures r in After(s, steps).recs ==> Undecided(After(s, steps).recs[r])
    decreases |steps|
  {
    if steps != [] {
      StepOk(s, steps[0]);
      DecidedLater(steps, r);
      StepUndecided(s, steps[0], r);
      RunUndecided(Next(s, steps[0]), steps[1..], r);
    }
  }

  /** The update of the semaphore is asked for only when the fence has signalled or took no
      callback. */
  lemma UpdateFollowsFence(steps: seq<Step>, r: Rid)
    requires IsRun(INITIAL, steps) && r in After(INITIAL, steps).recs && After(INITIAL, steps).recs[r].updates > 0
    ensures Decided(steps, r)
  {
    if !Decided(steps, r) {
      RunUndecided(INITIAL, steps, r);
    }
  }

  /** And it is asked for exactly once by the end of the wait, by the ioctl or by the worker,
      unless the context was being destroyed when the fence signalled. */
  lemma UpdatedExactlyOnce(before: seq<Step>, step: Step, rest: seq<Step>, r: Rid, fate: Fate)
    requires IsRun(INITIAL, before) && Enabled(After(INITIAL, before), step) && !Decided(before, r)
    requires Decides(After(INITIAL, before), step, r, fate) && IsRun(Next(After(INITIAL, before), step), rest)
    ensures var s := After(Next(After(INITIAL, before), step), rest);
      && r in s.recs && Follows(s.recs[r], fate)
      && (Finished(s.recs[r]) ==> s.recs[r].updates == if fate.Dropped? then 0 else 1)
  {
    var s := After(INITIAL, before);
    RunOk(INITIAL, before);
    StepOk(s, step);
    RunUndecided(INITIAL, before, r);
    DecidedRecord(s, s.recs[r], step, fate);
    RunFollows(Next(s, step), rest, r, fate);
  }

  // ---- Destruction ends

  function Left(rec: Record): nat {
    (match rec.place
     case Held => 9
     case Linked => 8
     case Early => 7
     case Armed => 6
     case Queued => 5
     case Working(_) => 4
     case Updated(_) => 3
     case Unlinked(_) => 2
     case Freed => 0) +
    (match rec.cb
     case Idle => 4
     case LockHeld => 3
     case Unlocking(_) => 2
     case MustFree => 1
     case MustPut => 1
     case Done => 0) +
    (if rec.ioctl then 1 else 0)
  }

  function LifeLeft(life: Life): nat {
    match life
    case Alive => 3
    case Stopping => 2
    case Yielding => 1
    case ContextFreed => 0
  }

  ghost function AllLeft(s: State): nat {
    Sum(s.recs, Left) + LifeLeft(s.life)
  }

  lemma RecordNearer(s: State, rec: Record, step: Step)
    requires OfRecord(step) && RecordEnabled(s, rec, step) && RecordOk(rec, s.life.Alive?)
    ensures Left(NextRecord(s, rec, step)) < Left(rec)
  {
  }

  /** Every step but the start of a new wait brings the end nearer. */
  lemma StepNearer(s: State, step: Step)
    requires WaitsOk(s) && Enabled(s, step) && !step.Start? && !step.StartBadFd?
    ensures AllLeft(Next(s, step)) < AllLeft(s)
  {
    if OfRecord(step) {
      var rec := NextRecord(s, s.recs[step.r], step);
      RecordNearer(s, s.recs[step.r], step);
      SumUpdate(s.recs, Left, step.r, rec);
      assert Next(s, step).recs == s.recs[step.r := rec];
    }
  }

  /** Once destruction has begun, a run has at most as many steps as are left. */
  lemma {:induction false} DestructionEnds(s: State, steps: seq<Step>)
    requires WaitsOk(s) && !s.life.Alive? && IsRun(s, steps)
    ensures |steps| <= AllLeft(s)
    decreases |steps|
  {
    if steps != [] {
      StepOk(s, steps[0]);
      StepNearer(s, steps[0]);
      DestructionEnds(Next(s, steps[0]), steps[1..]);
    }
  }

  /** Until everything is freed and dropped there is a next step. */
  lemma NotStuck(s: State) returns (step: Step)
    requires WaitsOk(s) && !s.life.Alive?
    requires !s.life.ContextFreed? || exists r :: r in s.recs && !Finished(s.recs[r])
    ensures Enabled(s, step)
  {
    if r :| r in s.recs && !Finished(s.recs[r]) {
      step := RecordNotStuck(s, r);
    } else {
      assert forall r :: r in s.recs ==> Finished(s.recs[r]);
      assert s.pendingWaits == {};
      step := if s.life.Stopping? then StopReturns else SeeEmpty;
    }
  }

  predicate Finished(rec: Record) {
    rec.place.Freed? && (rec.cb.Idle? || rec.cb.Done?)
  }

  lemma IdleIsArmed(rec: Record)
    requires RecordOk(rec, false) && !Finished(rec) && rec.cb.Idle?
    ensures rec.place.Armed?
  {
    match rec.place
    case Working(who) => match who { case Ioctl => case Worker => case Callback => }
    case Updated(who) => match who { case Ioctl => case Worker => case Callback => }
    case Unlinked(who) => match who { case Ioctl => case Worker => case Callback => }
    case _ =>
  }

  lemma RecordNotStuck(s: State, r: Rid) returns (step: Step)
    requires WaitsOk(s) && !s.life.Alive? && r in s.recs && !Finished(s.recs[r])
    ensures Enabled(s, step)
  {
    var rec := s.recs[r];
    assert RecordOk(rec, false);
    match rec.cb
    case LockHeld => step := CbSchedule(r);
    case Unlocking(_) => step := CbUnlock(r);
    case MustPut => step := CbPut(r);
    case MustFree => step := if rec.place.Armed? then Unlink(r) else Free(r);
    case Done => step := WorkerStep(rec.place, r);
    case Idle =>
      IdleIsArmed(rec);
      if s.workerLock == None {
        step := CbLock(r);
      } else {
        var h := s.workerLock.value;
        assert RecordOk(s.recs[h], false);
        step := if s.recs[h].cb.LockHeld? then CbSchedule(h) else CbUnlock(h);
      }
  }

  function WorkerStep(p: Where, r: Rid): Step {
    if p.Queued? then WorkerRun(r)
    else if p.Working? then Update(r)
    else if p.Updated? then Unlink(r)
    else Free(r)
  }

  /** A run that cannot go on after destruction has freed the context and every record
      once, and dropped each fence reference once. */
  lemma DestructionFreesAll(steps: seq<Step>, r: Rid)
    requires IsRun(INITIAL, steps) && !After(INITIAL, steps).life.Alive?
    requires forall step :: !Enabled(After(INITIAL, steps), step)
    ensures After(INITIAL, steps).life.ContextFreed? && After(INITIAL, steps).pendingWaits == {}
    ensures r in After(INITIAL, steps).recs ==>
      && After(INITIAL, steps).recs[r].frees == 1
      && After(INITIAL, steps).recs[r].puts == After(INITIAL, steps).recs[r].gets
  {
    RunOk(INITIAL, steps);
    var s := After(INITIAL, steps);
    if !s.life.ContextFreed? || exists q :: q in s.recs && !Finished(s.recs[q]) {
      var step := NotStuck(s);
      assert false;
    }
    if r in s.recs {
      assert RecordOk(s.recs[r], false);
    }
  }
}
