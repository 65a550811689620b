/** The lock-held regions and loops of one semaphore-surface fence context, in place, and
    the steps of the context's state machine that they take. */
module SemsurfContext {
  import opened Common
  import opened FenceList
  import opened SemsurfModel
  import opened SemsurfFences
  import opened SemsurfOwnership

  datatype Answer = Success | AlreadySignalled | Refused

  /** How `reg_callbacks` ended: nothing to register, a callback to store for a value,
      or a refused registration. */
  datatype Outcome = Settled | ToStore(value: nat, timeout: nat) | GaveUp(value: nat)

  class FenceContext {
    var pendingFences: seq<Fence>
    var currentWaitValue: nat
    var callbackLocal: Option<Cid>

    ghost predicate Valid()
      reads this
    {
      Sorted(pendingFences)
    }

    /** The context's fields are those of a state of the machine. */
    ghost predicate Shows(s: State)
      reads this
    {
      pendingFences == s.pending && currentWaitValue == s.tag && callbackLocal == s.local
    }

    constructor ()
      ensures Valid() && Shows(INITIAL)
    {
      pendingFences := [];
      currentWaitValue := 0;
      callbackLocal := None;
    }

    /** One locked scan.  `wantWaiter` is the caller passing both out-pointers. */
    method ProcessCompleted(currentSeqno: nat, now: nat, wantWaiter: bool)
      returns (finished: seq<Fence>, timedOut: seq<Fence>, newWaitValue: nat, newTimeout: nat)
      requires Valid()
      modifies `pendingFences, `currentWaitValue
      ensures Valid()
      ensures IsScan(old(pendingFences), currentSeqno, now, ScanResult(finished, timedOut, pendingFences))
      ensures ScanResult(finished, timedOut, pendingFences) == Scan(old(pendingFences), currentSeqno, now)
      ensures if wantWaiter
              then Retagged(currentWaitValue, newWaitValue, newTimeout) == Retag(old(currentWaitValue), pendingFences)
              else currentWaitValue == old(currentWaitValue) && newWaitValue == newTimeout == 0
    {
      finished, timedOut := [], [];
      var fenceSeqno, fenceTimeout := 0, 0;
      while pendingFences != []
        invariant ScanSoFar(old(pendingFences), currentSeqno, now, ScanResult(finished, timedOut, pendingFences))
        invariant currentWaitValue == old(currentWaitValue)
        decreases |pendingFences|
      {
        var fence := pendingFences[0];
        ScanOneMore(old(pendingFences), currentSeqno, now, ScanResult(finished, timedOut, pendingFences));
        fenceSeqno, fenceTimeout := fence.seqno, fence.timeout;
        if fenceSeqno <= currentSeqno {
          pendingFences, finished := pendingFences[1..], finished + [fence];
        } else if fenceTimeout <= now {
          pendingFences, timedOut := pendingFences[1..], timedOut + [fence];
        } else {
          break;
        }
      }
      ScanDone(old(pendingFences), currentSeqno, now, ScanResult(finished, timedOut, pendingFences));
      newWaitValue, newTimeout := 0, 0;
      if wantWaiter {
        if pendingFences == [] {
          currentWaitValue := 0;
        } else if fenceSeqno != currentWaitValue {
          currentWaitValue := fenceSeqno;
          newWaitValue, newTimeout := fenceSeqno, fenceTimeout;
        }
      }
    }

    /** Insertion behind fences with the same value. */
    method AddPending(fence: Fence)
      requires Valid()
      requires forall g :: g in pendingFences ==> g.id < fence.id
      modifies `pendingFences
      ensures Valid()
      ensures pendingFences == Insert(old(pendingFences), fence)
    {
      InsertSorted(pendingFences, fence);
      var i := 0;
      while i < |pendingFences| && pendingFences[i].seqno <= fence.seqno
        invariant i <= |pendingFences|
        invariant Position(pendingFences, fence.seqno) == i + Position(pendingFences[i..], fence.seqno)
      {
        assert pendingFences[i..][1..] == pendingFences[i + 1..];
        i := i + 1;
      }
      pendingFences := pendingFences[..i] + [fence] + pendingFences[i..];
    }

    /** The locked region of the handler NVKMS runs.  Afterwards the context names neither
        the callback nor its value. */
    method CallbackFired(ghost s: State, callback: Cid, waitValue: nat)
      requires Shows(s) && Enabled(s, Clear(callback)) && s.cbs[callback].waitValue == waitValue
      modifies `currentWaitValue, `callbackLocal
      ensures Shows(ClearNext(s, callback))
      ensures callbackLocal != Some(callback) && (waitValue != 0 ==> currentWaitValue != waitValue)
    {
      if callbackLocal == Some(callback) {
        callbackLocal := None;
      }
      if currentWaitValue == waitValue {
        currentWaitValue := 0;
      }
    }

    /** Storing a registered callback.  The caller goes on as the machine says: it
        unregisters its own callback if that was not installed, or the one that was there
        before.  What is installed has not had its handler's locked region, so nobody frees
        it while the context names it. */
    method StoreCallback(ghost s: State, ghost t: Tid, newWaitValue: nat, callback: Cid)
      returns (installed: bool, prior: Option<Cid>)
      requires Owned(s) && Shows(s) && Enabled(s, DoStore(t)) && s.threads[t].pc == Storing(callback, newWaitValue)
      modifies `callbackLocal
      ensures Shows(StoreNext(s, t)) && Owned(StoreNext(s, t))
      ensures StoreNext(s, t).threads[t].pc ==
        if !installed then Unregistering(callback) else if prior.Some? then Unregistering(prior.value) else Returning
      ensures installed ==> callback in s.cbs && NotPastClear(s.cbs[callback].stage) && s.cbs[callback].frees == 0
    {
      StoreOwned(s, t);
      Installable(s, t, callback);
      installed, prior := false, None;
      if currentWaitValue == newWaitValue {
        prior := callbackLocal;
        callbackLocal := Some(callback);
        installed := true;
      }
    }

    /** One round of the registration loop: what it takes off, and what to register. */
    method ScanOnce(reading: nat, now: nat) returns (taken: seq<Fence>, newWaitValue: nat, newTimeout: nat)
      requires Valid()
      modifies `pendingFences, `currentWaitValue
      ensures Valid() && old(pendingFences) == taken + pendingFences
      ensures currentWaitValue == if pendingFences == [] then 0 else pendingFences[0].seqno
      ensures newWaitValue != 0 ==>
        pendingFences != [] && newWaitValue == pendingFences[0].seqno && newTimeout == pendingFences[0].timeout
      ensures newWaitValue == 0 && pendingFences != [] ==> currentWaitValue == old(currentWaitValue)
      ensures newWaitValue != 0 && old(currentWaitValue) == old(pendingFences)[0].seqno ==> |taken| >= 1
    {
      NewHeadShrinks(pendingFences, reading, now);
      var finished, timedOut;
      finished, timedOut, newWaitValue, newTimeout := ProcessCompleted(reading, now, true);
      taken := finished + timedOut;
    }

    /** The registration loop, with nobody adding fences meanwhile.  Whatever the
        semaphore and the clock show in each round and whatever NVKMS answers, it ends:
        a head value met twice is taken for waited for, so every round but the first
        takes a fence off the list. */
    method RegCallbacks(reading: nat -> nat, now: nat -> nat, answer: nat -> Answer)
      returns (signalled: seq<Fence>, rounds: nat, outcome: Outcome)
      requires Valid()
      modifies `pendingFences, `currentWaitValue
      ensures Valid()
      ensures old(pendingFences) == signalled + pendingFences
      ensures 1 <= rounds <= |old(pendingFences)| + 1
      ensures currentWaitValue == if pendingFences == [] then 0 else pendingFences[0].seqno
      ensures outcome.Settled? && pendingFences != [] ==>
        if rounds == 1 then currentWaitValue == old(currentWaitValue) else answer(rounds - 2) == AlreadySignalled
      ensures outcome.ToStore? ==>
        && pendingFences != [] && answer(rounds - 1) == Success
        && outcome == ToStore(pendingFences[0].seqno, pendingFences[0].timeout)
      ensures outcome.GaveUp? ==> pendingFences != [] && answer(rounds - 1) == Refused
    {
      signalled, rounds := [], 0;
      while true
        invariant Valid()
        invariant old(pendingFences) == signalled + pendingFences
        invariant rounds == 0 ==> currentWaitValue == old(currentWaitValue) && signalled == []
        invariant rounds > 0 ==> pendingFences != [] && currentWaitValue == pendingFences[0].seqno
        invariant rounds > 0 ==> answer(rounds - 1) == AlreadySignalled
        invariant rounds > 0 ==> rounds <= |signalled| + 1
        decreases |pendingFences| + (if rounds == 0 then 1 else 0)
      {
        var taken, newWaitValue, newTimeout := ScanOnce(reading(rounds), now(rounds));
        Regroup(signalled, taken, pendingFences);
        signalled := signalled + taken;
        rounds := rounds + 1;
        if newWaitValue == 0 {
          return signalled, rounds, Settled;
        }
        match answer(rounds - 1)
        case Success => return signalled, rounds, ToStore(newWaitValue, newTimeout);
        case Refused => return signalled, rounds, GaveUp(newWaitValue);
        case AlreadySignalled =>
      }
    }

    /** Force-completing what is left when the context is destroyed: every pending fence is
        signalled with an error, once, and the list's reference to it is dropped. */
    method ForceCompletePending(ghost s: State) returns (ghost steps: seq<Step>)
      requires Shows(s) && FencesOk(s) && s.life.CallbackFreed?
      modifies `pendingFences
      ensures IsRun(s, steps) && Shows(After(s, steps)) && FencesOk(After(s, steps)) && pendingFences == []
      ensures forall f :: f in s.pending ==> Forcibly(After(s, steps), f)
    {
      steps := [];
      while pendingFences != []
        invariant IsRun(s, steps) && Shows(After(s, steps))
        invariant FencesOk(After(s, steps)) && After(s, steps).life.CallbackFreed?
        invariant forall f :: f in s.pending ==> f in pendingFences || Forcibly(After(s, steps), f)
        decreases |pendingFences|
      {
        RunAppend(s, steps, ForceComplete);
        ForceFences(After(s, steps));
        ForcesOne(After(s, steps), s.pending);
        steps := steps + [ForceComplete];
        pendingFences := pendingFences[1..];
      }
    }
  }

  /** A callback to be stored for the value that is still waited for has not been cleared. */
  lemma Installable(s: State, t: Tid, callback: Cid)
    requires Owned(s) && t in s.threads && s.threads[t].pc.Storing? && s.threads[t].pc.cb == callback
    ensures s.tag == s.threads[t].pc.value ==>
      callback in s.cbs && NotPastClear(s.cbs[callback].stage) && s.cbs[callback].frees == 0
  {
    assert ThreadOk(s, t) && CallbackOk(s, callback);
  }

  /** The fence was signalled once, with an error, and the context has let go of it. */
  ghost predicate Forcibly(s: State, f: Fence) {
    f.id in s.fences && s.fences[f.id].signals == [Forced] && s.fences[f.id].refs == 0
  }

  lemma ForcesOne(s: State, all: seq<Fence>)
    requires FencesOk(s) && s.life.CallbackFreed? && s.pending != []
    requires forall f :: f in all ==> f in s.pending || Forcibly(s, f)
    ensures var s' := Next(s, ForceComplete);
      forall f :: f in all ==> f in s'.pending || Forcibly(s', f)
  {
    var s' := Next(s, ForceComplete);
    var head := s.pending[0];
    assert FenceOk(s, head.id);
    forall f | f in all ensures f in s'.pending || Forcibly(s', f) {
      assert f in s.pending ==> f == head || f in s'.pending;
    }
  }
}
