/** Hardware events: each one counts down the flip at the head of the list by one, and a flip
    leaves the list with the last event it was queued for. */
module FlipCounting {
  import opened Common
  import opened FlipModel
  import opened FlipTracking

  /** The events that the flips on the list still wait for. */
  function Awaited(list: seq<Queued>): nat {
    if list == [] then 0 else list[0].flip.pendingEvents + Awaited(list[1..])
  }

  lemma DequeueAwaited(list: seq<Queued>)
    requires list != [] && list[0].flip.pendingEvents >= 1
    ensures Awaited(DequeueFlip(list).rest) + 1 == Awaited(list)
  {
    var rest := DequeueFlip(list).rest;
    if list[0].flip.pendingEvents > 1 {
      assert rest[1..] == list[1..];
    }
  }

  /** A flip is handed to the handler exactly by the last event it waits for, with what was
      deferred to it; any other event counts it down and changes nothing else. */
  lemma DequeueExactly(list: seq<Queued>)
    requires list != []
    ensures var d, n := DequeueFlip(list), list[0].flip.pendingEvents;
      if n == 1
      then d.rest == list[1..] && d.todo == [list[0].flip.(pendingEvents := 0)] + list[0].deferred
      else d.todo == [] && |d.rest| == |list| && d.rest[1..] == list[1..]
           && d.rest[0].deferred == list[0].deferred
           && d.rest[0].flip == list[0].flip.(pendingEvents := if n == 0 then 0xffff_ffff else n - 1)
  {
  }

  /** The list after some events with no commit between them. */
  function Again(list: seq<Queued>, k: nat): seq<Queued> {
    if k == 0 then list else DequeueFlip(Again(list, k - 1)).rest
  }

  /** How many events take a flip off: one queued for none would wait for 2^32. */
  function EventsToGo(flip: Flip): nat {
    if flip.pendingEvents == 0 then 0x1_0000_0000 else flip.pendingEvents
  }

  /** A flip at the head stays through all but the last of its events. */
  lemma {:induction false} HeadLeaves(list: seq<Queued>, k: nat)
    requires list != [] && k < EventsToGo(list[0].flip)
    ensures |Again(list, k)| == |list| && Again(list, k)[1..] == list[1..]
    ensures Again(list, k)[0].deferred == list[0].deferred && Again(list, k)[0].flip.no == list[0].flip.no
    ensures Again(list, k)[0].flip.pendingEvents ==
      if k == 0 || list[0].flip.pendingEvents > 0 then list[0].flip.pendingEvents - k else 0x1_0000_0000 - k
    ensures DequeueFlip(Again(list, k)).todo != [] <==> k + 1 == EventsToGo(list[0].flip)
  {
    if k > 0 {
      HeadLeaves(list, k - 1);
      DequeueExactly(Again(list, k - 1));
    }
    DequeueExactly(Again(list, k));
  }

  // ---- Whole runs

  /** The hardware events that commits were told to expect. */
  function Announced(steps: seq<Step>): nat {
    if steps == [] then 0 else (if steps[0].Enqueue? then steps[0].events else 0) + Announced(steps[1..])
  }

  /** The hardware events that found a flip. */
  ghost function Reported(s: State, steps: seq<Step>): nat
    requires IsRun(s, steps)
    decreases |steps|
  {
    if steps == [] then 0
    else (if steps[0].HandlerDequeue? && s.list != [] then 1 else 0) + Reported(Next(s, steps[0]), steps[1..])
  }

  lemma {:induction false} DeferAwaited(list: seq<Queued>, flip: Flip)
    requires list != []
    ensures Awaited(DeferFlip(list, flip)) == Awaited(list)
    decreases |list|
  {
    if |list| > 1 {
      assert DeferFlip(list, flip)[1..] == DeferFlip(list[1..], flip);
      DeferAwaited(list[1..], flip);
    }
  }

  lemma StepAwaited(s: State, step: Step)
    requires Counting(s) && Enabled(s, step)
    ensures Awaited(s.list) + (if step.Enqueue? then step.events else 0)
         == Awaited(Next(s, step).list) + (if step.HandlerDequeue? && s.list != [] then 1 else 0)
  {
    if step.Enqueue? && step.events > 0 {
      assert Next(s, step).list[1..] == s.list;
    } else if step.Settle? && s.committer.hand.Some? && s.list != [] {
      DeferAwaited(s.list, s.committer.hand.value);
    } else if step.HandlerDequeue? && s.list != [] {
      DequeueAwaited(s.list);
    }
  }

  /** Every event announced is still awaited or was counted, once. */
  lemma {:induction false} RunAwaited(s: State, steps: seq<Step>)
    requires Counting(s) && IsRun(s, steps)
    ensures Awaited(s.list) + Announced(steps) == Awaited(After(s, steps).list) + Reported(s, steps)
    decreases |steps|
  {
    if steps != [] {
      StepAwaited(s, steps[0]);
      StepCounting(s, steps[0]);
      RunAwaited(Next(s, steps[0]), steps[1..]);
    }
  }

  /** So the list is empty exactly when the hardware has reported all that was announced. */
  lemma EmptyWhenReported(steps: seq<Step>)
    requires IsRun(INITIAL, steps)
    ensures After(INITIAL, steps).list == [] <==> Announced(steps) == Reported(INITIAL, steps)
  {
    RunAwaited(INITIAL, steps);
    RunConserved(INITIAL, steps);
  }
}
