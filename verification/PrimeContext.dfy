/** The PRIME fence context in place. */
module PrimeContext {
  import opened Common
  import opened PrimeModel

  /** The context after `i` rounds of the event handler's loop. */
  ghost function Rounds(s: State, reading: nat -> Seqno, i: nat): (r: State)
    requires i <= |s.pending|
    ensures r.pending == s.pending[i..]
  {
    if i == 0 then s
    else
      var p := Rounds(s, reading, i - 1);
      p.(pending := p.pending[1..], signals := p.signals + [Signal(p.pending[0], Reached(reading(i - 1)))])
  }

  lemma {:induction false} RoundSignals(s: State, reading: nat -> Seqno, i: nat)
    requires i <= |s.pending|
    ensures Rounds(s, reading, i) ==
      s.(pending := s.pending[i..], signals := s.signals + ReachedSignals(s.pending[..i], reading))
  {
    if i == 0 {
      assert s.signals + [] == s.signals;
    } else {
      RoundSignals(s, reading, i - 1);
      var done, one := ReachedSignals(s.pending[..i - 1], reading), [Signal(s.pending[i - 1], Reached(reading(i - 1)))];
      assert ReachedSignals(s.pending[..i], reading) == done + one;
      Regroup(s.signals, done, one);
    }
  }

  /** A fence that its reading has reached is one of those the event signals. */
  lemma StillReady(s: State, reading: nat -> Seqno, i: nat)
    requires i <= Ready(s.pending, reading, 0)
    ensures i < |s.pending| && s.pending[i].seqno <= reading(i) ==> i < Ready(s.pending, reading, 0)
    ensures i == |s.pending| || s.pending[i].seqno > reading(i) ==> i == Ready(s.pending, reading, 0)
  {
  }

  class Context {
    var pending: seq<Fence>
    var lastSeqno: Seqno
    ghost var gone: bool
    ghost var created: nat
    ghost var signals: seq<Signal>

    ghost function Abstract(): State
      reads this
    {
      State(pending, lastSeqno, gone, created, signals)
    }

    constructor ()
      ensures Abstract() == INITIAL
    {
      pending, lastSeqno, gone, created, signals := [], 0, false, 0, [];
    }

    /** `nv_drm_gem_prime_force_fence_signal`. */
    method ForceFenceSignal(ghost cause: Cause)
      modifies `pending, `signals
      ensures pending == []
      ensures signals == old(signals) + ForcedSignals(old(pending), cause)
    {
      ghost var i := 0;
      while pending != []
        invariant i <= |old(pending)| && pending == old(pending)[i..]
        invariant signals == old(signals) + ForcedSignals(old(pending)[..i], cause)
        decreases |pending|
      {
        signals := signals + [Signal(pending[0], cause)];
        pending := pending[1..];
        i := i + 1;
      }
      assert old(pending)[..i] == old(pending);
    }

    /** `__nv_drm_prime_fence_context_create_fence`; `gotMemory` is whether the fence
        could be allocated. */
    method CreateFence(id: nat, seqno: Seqno, gotMemory: bool) returns (fence: Option<Fence>)
      requires id == created
      modifies this
      ensures !gotMemory ==> fence == None && Abstract() == old(Abstract())
      ensures gotMemory ==> fence == Some(Fence(id, seqno)) && Abstract() == Next(old(Abstract()), Create(seqno))
    {
      if !gotMemory {
        return None;
      }
      if seqno < lastSeqno {
        ForceFenceSignal(Wrapped(seqno, lastSeqno));
      }
      fence := Some(Fence(id, seqno));
      created := created + 1;
      pending := pending + [fence.value];
      lastSeqno := seqno;
    }

    /** `nv_drm_gem_prime_fence_event`: the semaphore is read again for every fence. */
    method FenceEvent(reading: nat -> Seqno)
      modifies `pending, `signals
      ensures Abstract() == Next(old(Abstract()), Event(reading))
    {
      var i := 0;
      while pending != []
        invariant i <= Ready(old(pending), reading, 0) && Abstract() == Rounds(old(Abstract()), reading, i)
        decreases |pending|
      {
        StillReady(old(Abstract()), reading, i);
        var seqno := reading(i);
        if pending[0].seqno > seqno {
          break;
        }
        signals := signals + [Signal(pending[0], Reached(seqno))];
        pending := pending[1..];
        i := i + 1;
      }
      StillReady(old(Abstract()), reading, i);
      RoundSignals(old(Abstract()), reading, i);
    }

    /** The context's part of `__nv_drm_prime_fence_context_destroy`. */
    method DestroyContext()
      modifies this
      ensures Abstract() == Next(old(Abstract()), Destroy)
    {
      gone := true;
      ForceFenceSignal(Destroyed);
    }
  }
}
