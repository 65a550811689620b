/** Flips are neither lost nor completed twice in any run, timeouts and failed commits
    included. */
module FlipTracking {
  import opened Common
  import opened FlipModel

  // ---- Where flips are

  function Is(flip: Flip, n: nat): nat {
    if flip.no == n then 1 else 0
  }

  function Among(flips: seq<Flip>, n: nat): nat {
    if flips == [] then 0 else Is(flips[0], n) + Among(flips[1..], n)
  }

  function OnList(list: seq<Queued>, n: nat): nat {
    if list == [] then 0 else Is(list[0].flip, n) + Among(list[0].deferred, n) + OnList(list[1..], n)
  }

  function Count(nos: seq<nat>, n: nat): nat {
    if nos == [] then 0 else Count(nos[..|nos| - 1], n) + (if nos[|nos| - 1] == n then 1 else 0)
  }

  function Hand(c: Committer): Option<Flip> {
    match c
    case Applying(_, hand) => hand
    case Settling(_, hand) => hand
    case Sending(_, flip) => Some(flip)
    case _ => None
  }

  function InHand(c: Committer, n: nat): nat {
    if Hand(c).Some? then Is(Hand(c).value, n) else 0
  }

  function Todo(h: Handler): seq<Flip> {
    if h.Delivering? then h.todo else []
  }

  /** The flip of commit `n` is in exactly one place: held by its commit, on the list, on
      one deferred list, with the handler, or freed. */
  ghost predicate Placed(s: State, n: nat) {
    Count(s.freed, n) + Among(Todo(s.handler), n) + OnList(s.list, n) + InHand(s.committer, n)
    == if n < s.commits then 1 else 0
  }

  ghost predicate Conserved(s: State) {
    forall n :: Placed(s, n)
  }

  /** Every queued flip waits for at least one event, so counting down never wraps. */
  ghost predicate Counting(s: State) {
    forall i :: 0 <= i < |s.list| ==> s.list[i].flip.pendingEvents >= 1
  }

  lemma {:induction false} CountAppend(nos: seq<nat>, m: nat, n: nat)
    ensures Count(nos + [m], n) == Count(nos, n) + (if m == n then 1 else 0)
  {
    assert (nos + [m])[..|nos|] == nos;
  }

  lemma {:induction false} DequeuePlaces(list: seq<Queued>, n: nat)
    requires forall i :: 0 <= i < |list| ==> list[i].flip.pendingEvents >= 1
    ensures Among(DequeueFlip(list).todo, n) + OnList(DequeueFlip(list).rest, n) == OnList(list, n)
  {
    if list != [] {
      var rest, todo := DequeueFlip(list).rest, DequeueFlip(list).todo;
      if todo == [] {
        assert rest[1..] == list[1..];
      } else {
        assert todo[1..] == list[0].deferred;
      }
    }
  }

  lemma {:induction false} DeferPlaces(list: seq<Queued>, flip: Flip, n: nat)
    requires list != []
    ensures OnList(DeferFlip(list, flip), n) == OnList(list, n) + Is(flip, n)
    decreases |list|
  {
    var list' := DeferFlip(list, flip);
    if |list| == 1 {
      assert list'[0].deferred[1..] == list[0].deferred;
      assert list'[1..] == list[1..];
    } else {
      assert list'[1..] == DeferFlip(list[1..], flip);
      DeferPlaces(list[1..], flip, n);
    }
  }

  lemma EnqueuePlaced(s: State, events: nat, n: nat)
    requires Placed(s, n) && Enabled(s, Enqueue(events))
    ensures Placed(Next(s, Enqueue(events)), n)
  {
    if events > 0 { assert Next(s, Enqueue(events)).list[1..] == s.list; }
  }

  /** The commit frees the flip it holds. */
  lemma Freeing(s: State, flip: Flip, s': State, n: nat)
    requires Placed(s, n) && Hand(s.committer) == Some(flip) && Hand(s'.committer) == None
    requires s'.list == s.list && s'.handler == s.handler && s'.commits == s.commits && s'.freed == s.freed + [flip.no]
    ensures Placed(s', n)
  {
    CountAppend(s.freed, flip.no, n);
  }

  lemma FailPlaced(s: State, n: nat)
    requires Placed(s, n) && Enabled(s, ApplyFail)
    ensures Placed(Next(s, ApplyFail), n)
  {
    if s.committer.hand.Some? { Freeing(s, s.committer.hand.value, Next(s, ApplyFail), n); }
  }

  lemma SettlePlaced(s: State, n: nat)
    requires Placed(s, n) && Enabled(s, Settle)
    ensures Placed(Next(s, Settle), n)
  {
    if s.committer.hand.Some? && s.list != [] { DeferPlaces(s.list, s.committer.hand.value, n); }
  }

  lemma SendPlaced(s: State, n: nat)
    requires Placed(s, n) && Enabled(s, Send)
    ensures Placed(Next(s, Send), n)
  {
    Freeing(s, s.committer.flip, Next(s, Send), n);
  }

  lemma HandlerPlaced(s: State, step: Step, n: nat)
    requires Placed(s, n) && Counting(s) && Enabled(s, step) && (step.HandlerDequeue? || step.HandlerDeliver?)
    ensures Placed(Next(s, step), n)
  {
    if step.HandlerDequeue? {
      DequeuePlaces(s.list, n);
    } else {
      CountAppend(s.freed, s.handler.todo[0].no, n);
    }
  }

  lemma StepPlaced(s: State, step: Step, n: nat)
    requires Placed(s, n) && Counting(s) && Enabled(s, step)
    ensures Placed(Next(s, step), n)
  {
    if step.Enqueue? {
      EnqueuePlaced(s, step.events, n);
    } else if step.ApplyFail? {
      FailPlaced(s, n);
    } else if step.Settle? {
      SettlePlaced(s, n);
    } else if step.Send? {
      SendPlaced(s, n);
    } else if step.HandlerDequeue? || step.HandlerDeliver? {
      HandlerPlaced(s, step, n);
    }
  }

  lemma StepCounting(s: State, step: Step)
    requires Counting(s) && Enabled(s, step)
    ensures Counting(Next(s, step))
  {
  }

  lemma StepConserved(s: State, step: Step)
    requires Conserved(s) && Counting(s) && Enabled(s, step)
    ensures Conserved(Next(s, step)) && Counting(Next(s, step))
  {
    StepCounting(s, step);
    forall n ensures Placed(Next(s, step), n) {
      StepPlaced(s, step, n);
    }
  }

  /** In every run, with or without timeouts and failed commits, no flip is lost or
      freed twice, and the count of pending events never wraps. */
  lemma {:induction false} RunConserved(s: State, steps: seq<Step>)
    requires Conserved(s) && Counting(s) && IsRun(s, steps)
    ensures Conserved(After(s, steps)) && Counting(After(s, steps))
    decreases |steps|
  {
    if steps != [] {
      StepConserved(s, steps[0]);
      RunConserved(Next(s, steps[0]), steps[1..]);
    }
  }
}
