/** The timer object and the module's timer list, updated in place, and the steps of the
    timers' state machine that their functions take. */
module NvkmsTimers {
  import opened Common
  import opened TimerModel
  import opened TimerLifecycle

  /** A callback from its start under `nvkms_lock` to its end, the procedure freeing its own
      timer or not. */
  function Called(s: State, t: Tid, procFreesTimer: bool): State
    requires Enabled(s, Enter(t))
  {
    var s1 := Next(s, Enter(t));
    var frees := procFreesTimer && s1.worker == InProc(t) && Enabled(s1, FreeTimer(t));
    var s2 := if frees then Next(s1, FreeTimer(t)) else s1;
    if Enabled(s2, ProcReturn(t)) then Next(s2, ProcReturn(t)) else s2
  }

  /** A timer given back is freed at once exactly if nobody has work left with it. */
  lemma GivenBack(s: State, t: Tid)
    requires TimersOk(s) && Enabled(s, FreeTimer(t))
    ensures TimersOk(Next(s, FreeTimer(t)))
    ensures Next(s, FreeTimer(t)).timers[t].frees == if Busy(s, t) then 0 else 1
  {
    StepOk(s, FreeTimer(t));
    assert TimerOk(s, t) && TimerOk(Next(s, FreeTimer(t)), t);
  }

  /** What a callback leaves of its timer. */
  lemma CalledTimer(s: State, t: Tid, procFreesTimer: bool)
    requires TimersOk(s) && Enabled(s, Enter(t))
    requires procFreesTimer ==> s.phase.Normal? && s.timers[t].target == None
    ensures var x, y := s.timers[t], Called(s, t, procFreesTimer).timers[t];
      var gone := x.cancel || Target(s, x) == None;
      && x.calls == x.frees == 0 && !x.complete && (x.target.Some? ==> !x.cancel)
      && y.target == x.target && y.calls == (if gone then 0 else 1) && y.complete == !gone
      && y.cancel == (gone || procFreesTimer) && y.frees == (if x.target.Some? || gone || procFreesTimer then 1 else 0)
  {
    assert TimerOk(s, t);
    var s1 := Next(s, Enter(t));
    if s1.worker == InProc(t) {
      assert procFreesTimer ==> Enabled(s1, FreeTimer(t));
    }
  }

  /** One `struct nvkms_timer_t`, used under `nvkms_lock`. */
  class TimerObject {
    const isRefPtr: bool
    var cancel: bool
    var complete: bool
    var calls: nat
    var frees: nat

    /** The fields are those of a timer of the machine. */
    ghost predicate Shows(x: Timer)
      reads this
    {
      isRefPtr == x.target.Some? && cancel == x.cancel && complete == x.complete && calls == x.calls && frees == x.frees
    }

    constructor (isRefPtr: bool)
      ensures this.isRefPtr == isRefPtr && !cancel && !complete && calls == 0 && frees == 0
    {
      this.isRefPtr := isRefPtr;
      cancel, complete, calls, frees := false, false, 0, 0;
    }

    /** `nvkms_free_timer`: the owner frees the timer exactly if nobody has work left with
        it; otherwise whoever has finds it cancelled. */
    method FreeTimer(ghost s: State, ghost t: Tid)
      requires TimersOk(s) && Enabled(s, TimerModel.FreeTimer(t)) && Shows(s.timers[t])
      modifies this
      ensures TimersOk(Next(s, TimerModel.FreeTimer(t))) && Shows(Next(s, TimerModel.FreeTimer(t)).timers[t])
      ensures frees == if Busy(s, t) then 0 else 1
      ensures Busy(s, t) ==> cancel
    {
      GivenBack(s, t);
      assert TimerOk(s, t);
      if complete {
        frees := frees + 1;
        return;
      }
      cancel := true;
    }

    /** The part of `nvkms_kthread_q_callback` under `nvkms_lock`, for a procedure that
        frees its own timer or not.  Either the timer is freed here, exactly once, or
        it is a completed handle that its owner has yet to free. */
    method RunCallback(ghost s: State, ghost t: Tid, dataPtr: Option<nat>, procFreesTimer: bool)
      requires TimersOk(s) && Enabled(s, Enter(t)) && Shows(s.timers[t]) && dataPtr == Target(s, s.timers[t])
      requires procFreesTimer ==> s.phase.Normal? && !isRefPtr
      modifies this
      ensures Shows(Called(s, t, procFreesTimer).timers[t])
      ensures calls == (if old(cancel) || (isRefPtr && dataPtr == None) then 0 else 1)
      ensures complete <==> calls == 1
      ensures frees == (if isRefPtr || old(cancel) || procFreesTimer then 1 else 0)
      ensures frees == 0 ==> complete && !cancel
    {
      CalledTimer(s, t, procFreesTimer);
      if isRefPtr && dataPtr == None {
        cancel := true;
      }
      if !cancel {
        calls := calls + 1;
        if procFreesTimer {
          StepOk(s, Enter(t));
          FreeTimer(Next(s, Enter(t)), t);
        }
        complete := true;
      }
      if isRefPtr {
        frees := frees + 1;
      } else if cancel {
        frees := frees + 1;
      }
    }
  }

  /** What `nvkms_exit` needs to know of a listed timer: whether it has a kernel timer,
      whether deleting that finds it still pending, and whether it holds a weak pointer. */
  datatype Listed = Listed(id: nat, created: bool, pending: bool, isRefPtr: bool)

  predicate Deactivated(x: Listed) {
    x.created && x.pending
  }

  function Filter(list: seq<Listed>, deactivated: bool): seq<Listed> {
    if list == [] then []
    else (if Deactivated(list[0]) == deactivated then [list[0]] else []) + Filter(list[1..], deactivated)
  }

  lemma {:induction false} FilterAppend(a: seq<Listed>, b: seq<Listed>, deactivated: bool)
    ensures Filter(a + b, deactivated) == Filter(a, deactivated) + Filter(b, deactivated)
  {
    if a == [] {
      assert a + b == b;
    } else {
      assert (a + b)[1..] == a[1..] + b;
      FilterAppend(a[1..], b, deactivated);
      var head := if Deactivated(a[0]) == deactivated then [a[0]] else [];
      Regroup(head, Filter(a[1..], deactivated), Filter(b, deactivated));
    }
  }

  lemma {:induction false} FilterKeepsAll(a: seq<Listed>)
    requires forall i :: 0 <= i < |a| ==> !Deactivated(a[i])
    ensures Filter(a, false) == a && Filter(a, true) == []
  {
    if a != [] { FilterKeepsAll(a[1..]); }
  }

  lemma FilterFound(list: seq<Listed>, i: nat)
    requires i < |list| && Deactivated(list[i]) && forall k :: 0 <= k < i ==> !Deactivated(list[k])
    ensures var rest := list[..i] + list[i + 1..];
      && Filter(list, true) == [list[i]] + Filter(rest, true)
      && Filter(list, false) == Filter(rest, false)
  {
    var a, b := list[..i], list[i + 1..];
    assert list == a + ([list[i]] + b) && ([list[i]] + b)[1..] == b;
    FilterKeepsAll(a);
    FilterAppend(a, [list[i]] + b, true);
    FilterAppend(a, [list[i]] + b, false);
    FilterAppend(a, b, true);
    FilterAppend(a, b, false);
  }

  /** The timer as it was before: it may have fired since. */
  predicate Was(y: Listed, x: Listed) {
    y.id == x.id && y.created == x.created && y.isRefPtr == x.isRefPtr && (x.pending ==> y.pending)
  }

  /** What may happen to the list while its lock is not held: timers fire, and the worker
      takes timers off; no timer is added any more. */
  ghost predicate Later(before: seq<Listed>, after: seq<Listed>) {
    |after| <= |before| && forall x :: x in after ==> exists y :: y in before && Was(y, x)
  }

  lemma LaterStill(a: seq<Listed>, b: seq<Listed>, c: seq<Listed>)
    requires Later(a, b) && Later(b, c)
    ensures Later(a, c)
  {
    forall x | x in c ensures exists z :: z in a && Was(z, x) {
      var y :| y in b && Was(y, x);
      var z :| z in a && Was(z, y);
      assert Was(z, x);
    }
  }

  lemma RemovedLater(list: seq<Listed>, i: nat)
    requires i < |list|
    ensures Later(list, list[..i] + list[i + 1..])
  {
    var rest := list[..i] + list[i + 1..];
    forall x | x in rest ensures exists y :: y in list && Was(y, x) {
      assert x in list && Was(x, x);
    }
  }

  /** The weak pointers that the freed timers let go of. */
  function Pointers(freed: seq<Listed>): seq<nat> {
    if freed == [] then []
    else Pointers(freed[..|freed| - 1]) + if freed[|freed| - 1].isRefPtr then [freed[|freed| - 1].id] else []
  }

  lemma PointersAppend(freed: seq<Listed>, x: Listed)
    ensures Pointers(freed + [x]) == Pointers(freed) + if x.isRefPtr then [x.id] else []
  {
    assert (freed + [x])[..|freed|] == freed;
  }

  lemma LaterSelf(list: seq<Listed>)
    ensures Later(list, list)
  {
    forall x | x in list ensures exists y :: y in list && Was(y, x) {
      assert Was(x, x);
    }
  }

  /** Where the drain is: only timers that were pending are freed. */
  ghost predicate FreesPending(before: seq<Listed>, list: seq<Listed>, freed: seq<Listed>) {
    Later(before, list) && forall x :: x in freed ==> x.created && x.pending && exists y :: y in before && Was(y, x)
  }

  lemma DrainStep(before: seq<Listed>, list: seq<Listed>, freed: seq<Listed>, i: nat, after: seq<Listed>)
    requires FreesPending(before, list, freed) && i < |list| && Deactivated(list[i])
    requires Later(list[..i] + list[i + 1..], after)
    ensures FreesPending(before, after, freed + [list[i]]) && |after| < |list|
  {
    RemovedLater(list, i);
    LaterStill(before, list, list[..i] + list[i + 1..]);
    LaterStill(before, list[..i] + list[i + 1..], after);
    assert list[i] in list;
  }

  /** Nothing but the drain has touched the list. */
  ghost predicate Splits(before: seq<Listed>, list: seq<Listed>, freed: seq<Listed>) {
    freed + Filter(list, true) == Filter(before, true) && Filter(list, false) == Filter(before, false)
  }

  lemma SplitStep(before: seq<Listed>, list: seq<Listed>, freed: seq<Listed>, i: nat)
    requires i < |list| && Deactivated(list[i]) && forall k :: 0 <= k < i ==> !Deactivated(list[k])
    ensures Splits(before, list, freed) ==> Splits(before, list[..i] + list[i + 1..], freed + [list[i]])
  {
    FilterFound(list, i);
    Regroup(freed, [list[i]], Filter(list[..i] + list[i + 1..], true));
  }

  class TimerList {
    var list: seq<Listed>

    constructor (list: seq<Listed>)
      ensures this.list == list
    {
      this.list := list;
    }

    /** One pass over the list, up to the first timer it deactivates. */
    method FindDeactivated() returns (i: nat)
      ensures i <= |list| && forall k :: 0 <= k < i ==> !Deactivated(list[k])
      ensures i < |list| ==> Deactivated(list[i])
    {
      i := 0;
      while i < |list| && !Deactivated(list[i])
        invariant i <= |list| && forall k :: 0 <= k < i ==> !Deactivated(list[k])
      {
        i := i + 1;
      }
    }

    /** One pass: the first timer that can be deactivated is taken off the list and freed, and
        its weak pointer dropped, while `after` is what becomes of the list meanwhile. */
    method DrainOne(after: seq<Listed> -> seq<Listed>, ghost before: seq<Listed>, ghost freed: seq<Listed>)
      returns (timer: Option<Listed>)
      requires FreesPending(before, list, freed) && forall l :: Later(l, after(l))
      modifies this
      ensures timer.None? ==> list == old(list) && forall x :: x in list ==> !x.created || !x.pending
      ensures timer.Some? ==> FreesPending(before, list, freed + [timer.value]) && |list| < |old(list)|
      ensures timer.Some? && (forall l :: after(l) == l) && Splits(before, old(list), freed) ==>
        Splits(before, list, freed + [timer.value])
    {
      var i: nat := FindDeactivated();
      if i == |list| {
        return None;
      }
      timer := Some(list[i]);
      var rest := list[..i] + list[i + 1..];
      DrainStep(before, list, freed, i, after(rest));
      SplitStep(before, list, freed, i);
      list := after(rest);
    }

    /** The draining loop of `nvkms_exit`, which starts over after every timer it has taken
        off the list and freed; `meanwhile` is what happens to the list while it does so.
        It ends with no timer left that it could deactivate, having freed only timers that
        were pending and dropped the weak pointers they held.  If nothing else happens it
        has freed exactly the pending ones and left the others in order. */
    method DrainAtExit(meanwhile: (nat, seq<Listed>) -> seq<Listed>) returns (freed: seq<Listed>, dropped: seq<nat>)
      requires forall k, l :: Later(l, meanwhile(k, l))
      modifies this
      ensures forall x :: x in list ==> !x.created || !x.pending
      ensures FreesPending(old(list), list, freed)
      ensures dropped == Pointers(freed)
      ensures (forall k, l :: meanwhile(k, l) == l) ==> Splits(old(list), list, freed)
    {
      freed, dropped := [], [];
      LaterSelf(list);
      var rounds := 0;
      while true
        invariant FreesPending(old(list), list, freed) && dropped == Pointers(freed)
        invariant (forall k, l :: meanwhile(k, l) == l) ==> Splits(old(list), list, freed)
        decreases |list|
      {
        var timer := DrainOne(l => meanwhile(rounds, l), old(list), freed);
        if timer.None? {
          break;
        }
        PointersAppend(freed, timer.value);
        freed := freed + [timer.value];
        if timer.value.isRefPtr {
          dropped := dropped + [timer.value.id];
        }
        rounds := rounds + 1;
      }
    }
  }

  /** With nobody else at the list, what the drain has freed are the pending timers, and what
      it has left are the others, each in their order. */
  lemma DrainSplits(before: seq<Listed>, list: seq<Listed>, freed: seq<Listed>)
    requires Splits(before, list, freed) && forall x :: x in list ==> !x.created || !x.pending
    ensures freed == Filter(before, true) && list == Filter(before, false)
  {
    FilterKeepsAll(list);
  }

  /** Which are they: the filter keeps exactly the timers that have a pending kernel timer, or
      exactly the others. */
  lemma {:induction false} FilterExact(list: seq<Listed>, deactivated: bool, x: Listed)
    ensures x in Filter(list, deactivated) <==> x in list && ((x.created && x.pending) == deactivated)
  {
    if list != [] {
      FilterExact(list[1..], deactivated, x);
    }
  }
}
