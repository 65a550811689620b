/** The order of flip events.  In every run each commit that asked for an event and did not
    fail gets it exactly once; and the commits after which events can no longer come in
    commit order are exactly those that put one in front of an older one. */
module FlipOrder {
  import opened Common
  import opened FlipModel
  import opened FlipTracking
  import opened FlipCounting

  ghost predicate Ascending(nos: seq<nat>) {
    forall i, j :: 0 <= i < j < |nos| ==> nos[i] < nos[j]
  }

  // ---- Events sent and to come

  function ListEvents(list: seq<Queued>): seq<nat> {
    if list == [] then [] else Event(list[0].flip) + Events(list[0].deferred) + ListEvents(list[1..])
  }

  function HandEvent(c: Committer): seq<nat> {
    if Hand(c).Some? then Event(Hand(c).value) else []
  }

  /** Events sent or with the handler. */
  function Ahead(s: State): seq<nat> {
    s.sent + Events(Todo(s.handler))
  }

  /** Events in the order in which they were and will be sent if no commit comes between. */
  function EventOrder(s: State): seq<nat> {
    Ahead(s) + ListEvents(s.list) + HandEvent(s.committer)
  }

  /** The commits that are to see their event: those that asked for it and did not fail. */
  ghost predicate Due(s: State, n: nat) {
    n < |s.wanted| && s.wanted[n] && n !in s.dropped
  }

  /** Every due event is there exactly once, and no other. */
  ghost predicate ExactlyDue(s: State) {
    forall n: nat :: Count(EventOrder(s), n) == if Due(s, n) then 1 else 0
  }

  ghost predicate Tidy(s: State) {
    && ExactlyDue(s)
    && |s.wanted| == s.commits && (forall n :: n in s.dropped ==> n < s.commits)
    && (s.committer.Sending? ==> s.list == [])
    && (Hand(s.committer).Some? ==>
          var flip := Hand(s.committer).value;
          flip.no + 1 == s.commits && flip.no !in s.dropped && s.wanted[flip.no] == flip.event)
  }

  lemma InitialTidy()
    ensures Tidy(INITIAL) && Ascending(EventOrder(INITIAL))
  {
  }

  // ---- What the steps do to the order

  /** The commits that put their event in front of nothing: one that queues its flip finds
      no event queued, one that defers it finds no event deferred. */
  predicate Orderly(s: State, step: Step)
    requires Enabled(s, step)
  {
    match step
    case Enqueue(events) => events > 0 && s.committer.event ==> ListEvents(s.list) == []
    case Settle =>
      s.list != [] && s.committer.hand.Some? && s.committer.hand.value.event ==>
        Events(s.list[|s.list| - 1].deferred) == []
    case _ => true
  }

  /** A number above all others keeps the order exactly at the end. */
  lemma InsertAscending(a: seq<nat>, n: nat, b: seq<nat>)
    requires forall x :: x in a + b ==> x < n
    ensures Ascending(a + [n] + b) <==> Ascending(a + b) && b == []
  {
    var c := a + [n] + b;
    if b != [] {
      assert c[|a|] == n && c[|a| + 1] == b[0] && b[0] in a + b;
    } else {
      assert a + b == a && forall i :: 0 <= i < |a| ==> a[i] in a + b && c[i] == a[i];
      if Ascending(c) {
        assert forall i, j :: 0 <= i < j < |a| ==> c[i] < c[j];
      }
    }
  }

  lemma EnqueueEvents(list: seq<Queued>, flip: Flip)
    ensures ListEvents(EnqueueFlip(list, flip)) == Event(flip) + ListEvents(list)
  {
    var queued := EnqueueFlip(list, flip);
    assert queued[1..] == list && queued[0].deferred == [];
    assert Event(flip) + [] == Event(flip);
  }

  /** The order with one event put into it. */
  lemma PutIn(a: seq<nat>, e: seq<nat>, b: seq<nat>)
    ensures a + (e + b) + [] == a + e + b
    ensures a + b + [] == a + b
    ensures e == [] ==> a + e + b == a + b && a + b + e == a + b
  {
    Regroup(a, e, b);
  }

  lemma EnqueueOrder(s: State, events: nat, s': State)
    requires Enabled(s, Enqueue(events)) && s' == Next(s, Enqueue(events))
    ensures EventOrder(s) == Ahead(s) + ListEvents(s.list)
    ensures !s.committer.event ==> EventOrder(s') == EventOrder(s)
    ensures s.committer.event && events > 0 ==> EventOrder(s') == Ahead(s) + [s.commits] + ListEvents(s.list)
    ensures s.committer.event && events == 0 ==> EventOrder(s') == Ahead(s) + ListEvents(s.list) + [s.commits]
  {
    var flip := Flip(s.commits, s.committer.event, events);
    EnqueueEvents(s.list, flip);
    PutIn(Ahead(s), Event(flip), ListEvents(s.list));
    assert Ahead(s') == Ahead(s);
    if events > 0 {
      assert EventOrder(s') == Ahead(s) + (Event(flip) + ListEvents(s.list)) + [];
    } else {
      assert EventOrder(s') == Ahead(s) + ListEvents(s.list) + Event(flip);
    }
  }

  lemma FailOrder(s: State, s': State)
    requires Enabled(s, ApplyFail) && s' == Next(s, ApplyFail)
    ensures EventOrder(s) == EventOrder(s') + HandEvent(s.committer)
  {
  }

  lemma {:induction false} ListEventsAppend(a: seq<Queued>, b: seq<Queued>)
    ensures ListEvents(a + b) == ListEvents(a) + ListEvents(b)
  {
    if a == [] {
      assert a + b == b;
    } else {
      assert (a + b)[1..] == a[1..] + b;
      ListEventsAppend(a[1..], b);
      Regroup(Event(a[0].flip) + Events(a[0].deferred), ListEvents(a[1..]), ListEvents(b));
    }
  }

  lemma LastEntry(list: seq<Queued>)
    requires list != []
    ensures var last := list[|list| - 1];
      ListEvents(list) == ListEvents(list[..|list| - 1]) + Event(last.flip) + Events(last.deferred)
  {
    var k := |list| - 1;
    ListEventsAppend(list[..k], [list[k]]);
    assert list == list[..k] + [list[k]] && [list[k]][1..] == [];
    Regroup(ListEvents(list[..k]), Event(list[k].flip), Events(list[k].deferred));
  }

  lemma DeferEvents(list: seq<Queued>, flip: Flip)
    requires list != []
    ensures var last := list[|list| - 1];
      var before := ListEvents(list[..|list| - 1]) + Event(last.flip);
      && ListEvents(list) == before + Events(last.deferred)
      && ListEvents(DeferFlip(list, flip)) == before + (Event(flip) + Events(last.deferred))
  {
    var list' := DeferFlip(list, flip);
    var k := |list| - 1;
    LastEntry(list);
    LastEntry(list');
    assert list'[..k] == list[..k] && list'[k].deferred[1..] == list[k].deferred;
  }

  /** Deferring moves the event of the commit in front of those deferred before. */
  lemma DeferOrder(s: State, flip: Flip, s': State) returns (before: seq<nat>)
    requires Enabled(s, Settle) && s.committer.hand == Some(flip) && s.list != [] && s' == Next(s, Settle)
    ensures EventOrder(s) == before + Events(s.list[|s.list| - 1].deferred) + Event(flip)
    ensures EventOrder(s') == before + Event(flip) + Events(s.list[|s.list| - 1].deferred)
  {
    var last := s.list[|s.list| - 1];
    var prefix := ListEvents(s.list[..|s.list| - 1]) + Event(last.flip);
    DeferEvents(s.list, flip);
    before := Ahead(s) + prefix;
    assert Ahead(s') == Ahead(s);
    Moved(Ahead(s), prefix, Event(flip), Events(last.deferred));
  }

  lemma Moved(a: seq<nat>, p: seq<nat>, e: seq<nat>, d: seq<nat>)
    ensures a + (p + d) + e == a + p + d + e
    ensures a + (p + (e + d)) + [] == a + p + e + d
  {
    Regroup(a, p, d);
    Regroup(a, p, e + d);
    Regroup(a + p, e, d);
  }

  lemma DequeueEvents(list: seq<Queued>)
    ensures Events(DequeueFlip(list).todo) + ListEvents(DequeueFlip(list).rest) == ListEvents(list)
  {
    if list != [] {
      var d := DequeueFlip(list);
      if d.todo != [] {
        assert d.todo[1..] == list[0].deferred && d.rest == list[1..];
      } else {
        assert d.rest[1..] == list[1..];
      }
    }
  }

  predicate OfHandler(step: Step) {
    step.HandlerLock? || step.HandlerDequeue? || step.HandlerDeliver? || step.HandlerUnlock?
  }

  /** The handler keeps to the order. */
  lemma HandlerOrder(s: State, step: Step)
    requires Enabled(s, step) && OfHandler(step)
    ensures EventOrder(Next(s, step)) == EventOrder(s)
  {
    var s' := Next(s, step);
    if step.HandlerDequeue? {
      DequeueEvents(s.list);
      Regroup(s.sent, Events(Todo(s'.handler)), ListEvents(s'.list));
      assert Ahead(s) == s.sent + [] == s.sent;
    } else if step.HandlerDeliver? {
      Regroup(s.sent, Event(s.handler.todo[0]), Events(s.handler.todo[1..]));
    }
  }

  /** So does the commit that sends its event at once: the handler is off and nothing queued. */
  lemma SendOrder(s: State)
    requires Tidy(s) && Enabled(s, Send)
    ensures EventOrder(Next(s, Send)) == EventOrder(s)
  {
    var s' := Next(s, Send);
    if s.committer.flip.event {
      assert EventOrder(s) == s.sent + HandEvent(s.committer) && EventOrder(s') == s.sent + HandEvent(s.committer);
    } else {
      assert HandEvent(s.committer) == [] && s'.sent == s.sent + [] == s.sent;
    }
  }

  // ---- Every step

  lemma {:induction false} CountConcat(a: seq<nat>, b: seq<nat>, n: nat)
    ensures Count(a + b, n) == Count(a, n) + Count(b, n)
  {
    if b == [] {
      assert a + b == a;
    } else {
      var k := |b| - 1;
      assert a + b == (a + b[..k]) + [b[k]];
      CountAppend(a + b[..k], b[k], n);
      CountConcat(a, b[..k], n);
    }
  }

  lemma CountInsert(a: seq<nat>, n: nat, b: seq<nat>, m: nat)
    ensures Count(a + [n] + b, m) == Count(a + b, m) + if m == n then 1 else 0
  {
    CountConcat(a + [n], b, m);
    CountAppend(a, n, m);
    CountConcat(a, b, m);
  }

  lemma {:induction false} CountMember(nos: seq<nat>, n: nat)
    ensures Count(nos, n) > 0 <==> n in nos
  {
    if nos != [] {
      var k := |nos| - 1;
      CountMember(nos[..k], n);
      assert n in nos <==> n in nos[..k] || n == nos[k];
    }
  }

  /** All events but that of the youngest commit are older. */
  lemma AllOlder(s: State, n: nat, others: seq<nat>)
    requires Tidy(s) && s.commits <= n + 1
    requires forall m: nat :: Count(others, m) <= Count(EventOrder(s), m)
    requires n < s.commits ==> Count(others, n) == 0
    ensures forall x :: x in others ==> x < n
  {
    forall x | x in others ensures x < n {
      CountMember(others, x);
      assert Due(s, x);
    }
  }

  /** What one step does to the order, and that nothing else can break it. */
  ghost predicate Keeps(s: State, step: Step, s': State)
    requires Enabled(s, step)
  {
    Tidy(s') && (Ascending(EventOrder(s')) <==> Ascending(EventOrder(s)) && Orderly(s, step))
  }

  lemma SameOrder(s: State, step: Step, s': State)
    requires Tidy(s) && Enabled(s, step) && s' == Next(s, step) && EventOrder(s') == EventOrder(s)
    requires s'.wanted == s.wanted && s'.commits == s.commits && s'.dropped == s.dropped && Orderly(s, step)
    requires s'.committer.Sending? ==> s'.list == []
    requires Hand(s'.committer).Some? ==> Hand(s'.committer) == Hand(s.committer)
    ensures Keeps(s, step, s')
  {
    assert forall n: nat :: Due(s', n) <==> Due(s, n);
  }

  /** A new youngest event goes in somewhere. */
  lemma NewEvent(s: State, a: seq<nat>, b: seq<nat>, s': State)
    requires Tidy(s) && EventOrder(s) == a + b && EventOrder(s') == a + [s.commits] + b
    requires s'.wanted == s.wanted + [true] && s'.dropped == s.dropped
    ensures ExactlyDue(s')
    ensures Ascending(EventOrder(s')) <==> Ascending(EventOrder(s)) && b == []
  {
    forall m: nat ensures Count(EventOrder(s'), m) == if Due(s', m) then 1 else 0 {
      CountInsert(a, s.commits, b, m);
      assert Due(s', m) <==> Due(s, m) || m == s.commits;
    }
    AllOlder(s, s.commits, a + b);
    InsertAscending(a, s.commits, b);
  }

  lemma LastEvent(s: State, s': State)
    requires Tidy(s) && EventOrder(s') == EventOrder(s) + [s.commits]
    requires s'.wanted == s.wanted + [true] && s'.dropped == s.dropped
    ensures ExactlyDue(s')
    ensures Ascending(EventOrder(s')) <==> Ascending(EventOrder(s))
  {
    var order := EventOrder(s);
    assert order + [] == order && order + [s.commits] + [] == order + [s.commits];
    NewEvent(s, order, [], s');
  }

  lemma NoEvent(s: State, s': State)
    requires Tidy(s) && EventOrder(s') == EventOrder(s) && s'.wanted == s.wanted + [false] && s'.dropped == s.dropped
    ensures ExactlyDue(s')
  {
    assert forall m: nat :: Due(s', m) <==> Due(s, m);
  }

  lemma EnqueueKeeps(s: State, events: nat, s': State)
    requires Tidy(s) && Enabled(s, Enqueue(events)) && s' == Next(s, Enqueue(events))
    ensures Keeps(s, Enqueue(events), s')
  {
    var a, b := Ahead(s), ListEvents(s.list);
    EnqueueOrder(s, events, s');
    if !s.committer.event {
      NoEvent(s, s');
    } else if events > 0 {
      NewEvent(s, a, b, s');
    } else {
      LastEvent(s, s');
    }
  }

  /** The youngest event is taken out of one place and put into another, or dropped. */
  lemma MovedEvent(s: State, n: nat, a: seq<nat>, b: seq<nat>)
    requires Tidy(s) && n + 1 == s.commits && Due(s, n)
    requires EventOrder(s) == a + b + [n]
    ensures forall m: nat :: Count(a + b, m) == if Due(s, m) && m != n then 1 else 0
    ensures forall m: nat :: Count(a + [n] + b, m) == Count(EventOrder(s), m)
    ensures Ascending(EventOrder(s)) <==> Ascending(a + b)
    ensures Ascending(a + [n] + b) <==> Ascending(a + b) && b == []
  {
    forall m: nat
      ensures Count(a + b, m) == if Due(s, m) && m != n then 1 else 0
      ensures Count(a + [n] + b, m) == Count(EventOrder(s), m)
    {
      CountAppend(a + b, n, m);
      CountInsert(a, n, b, m);
    }
    AllOlder(s, n, a + b);
    assert a + b + [] == a + b && a + b + [n] + [] == a + b + [n];
    InsertAscending(a + b, n, []);
    InsertAscending(a, n, b);
  }

  lemma DroppedEvent(s: State, n: nat, s': State)
    requires Tidy(s) && n + 1 == s.commits && Due(s, n) && EventOrder(s) == EventOrder(s') + [n]
    requires s'.wanted == s.wanted && s'.dropped == s.dropped + {n}
    ensures ExactlyDue(s')
    ensures Ascending(EventOrder(s')) <==> Ascending(EventOrder(s))
  {
    var order := EventOrder(s');
    assert order + [] == order;
    MovedEvent(s, n, order, []);
    assert forall m: nat :: Due(s', m) <==> Due(s, m) && m != n;
  }

  lemma FailKeeps(s: State, s': State)
    requires Tidy(s) && Enabled(s, ApplyFail) && s' == Next(s, ApplyFail)
    ensures Keeps(s, ApplyFail, s')
  {
    FailOrder(s, s');
    if HandEvent(s.committer) == [] {
      assert EventOrder(s') + [] == EventOrder(s');
      assert forall m: nat :: Due(s', m) <==> Due(s, m);
    } else {
      DroppedEvent(s, Hand(s.committer).value.no, s');
    }
  }

  lemma NothingDeferred(s: State, flip: Flip, s': State)
    requires Enabled(s, Settle) && s.committer.hand == Some(flip) && s.list != [] && s' == Next(s, Settle)
    requires !flip.event
    ensures EventOrder(s') == EventOrder(s)
  {
    var d := Events(s.list[|s.list| - 1].deferred);
    var before := DeferOrder(s, flip, s');
    assert before + [] == before && before + d + [] == before + d;
  }

  lemma DeferredEvent(s: State, flip: Flip, s': State)
    requires Tidy(s) && Enabled(s, Settle) && s.committer.hand == Some(flip) && s.list != [] && s' == Next(s, Settle)
    requires flip.event
    ensures ExactlyDue(s')
    ensures Ascending(EventOrder(s')) <==> Ascending(EventOrder(s)) && Events(s.list[|s.list| - 1].deferred) == []
  {
    var before := DeferOrder(s, flip, s');
    MovedEvent(s, flip.no, before, Events(s.list[|s.list| - 1].deferred));
    assert forall m: nat :: Due(s', m) <==> Due(s, m);
  }

  lemma DeferKeeps(s: State, flip: Flip, s': State)
    requires Tidy(s) && Enabled(s, Settle) && s.committer.hand == Some(flip) && s.list != [] && s' == Next(s, Settle)
    ensures Keeps(s, Settle, s')
  {
    if flip.event {
      DeferredEvent(s, flip, s');
    } else {
      NothingDeferred(s, flip, s');
      SameOrder(s, Settle, s');
    }
  }

  lemma StepKeeps(s: State, step: Step)
    requires Tidy(s) && Enabled(s, step)
    ensures Keeps(s, step, Next(s, step))
  {
    var s' := Next(s, step);
    if step.Enqueue? {
      EnqueueKeeps(s, step.events, s');
    } else if step.ApplyFail? {
      FailKeeps(s, s');
    } else if step.Settle? && s.committer.hand.Some? && s.list != [] {
      DeferKeeps(s, s.committer.hand.value, s');
    } else if OfHandler(step) {
      HandlerOrder(s, step);
      SameOrder(s, step, s');
    } else if step.Send? {
      SendOrder(s);
      SameOrder(s, step, s');
    } else {
      SameOrder(s, step, s');
    }
  }

  // ---- Every run

  ghost predicate AllOrderly(s: State, steps: seq<Step>)
    requires IsRun(s, steps)
    decreases |steps|
  {
    steps == [] || (Orderly(s, steps[0]) && AllOrderly(Next(s, steps[0]), steps[1..]))
  }

  /** The events are in commit order exactly if every commit was orderly. */
  lemma {:induction false} RunOrderIff(s: State, steps: seq<Step>)
    requires Tidy(s) && IsRun(s, steps)
    ensures Tidy(After(s, steps))
    ensures Ascending(EventOrder(After(s, steps))) <==> Ascending(EventOrder(s)) && AllOrderly(s, steps)
    decreases |steps|
  {
    if steps != [] {
      StepKeeps(s, steps[0]);
      RunOrderIff(Next(s, steps[0]), steps[1..]);
    }
  }

  /** In every run, timeouts and failed commits included, each due event is sent or still
      to come exactly once, and no other. */
  lemma EventsExactlyOnce(steps: seq<Step>, n: nat)
    requires IsRun(INITIAL, steps)
    ensures Count(EventOrder(After(INITIAL, steps)), n) == if Due(After(INITIAL, steps), n) then 1 else 0
  {
    InitialTidy();
    RunOrderIff(INITIAL, steps);
  }

  // ---- The handler brings all of them out

  function HandlerRank(h: Handler): nat {
    match h
    case Locked => 0
    case Off => 1
    case Delivering(todo) => |todo| + 2
  }

  predicate Drained(s: State) {
    s.list == [] && Todo(s.handler) == []
  }

  lemma HandlerGoesOn(s: State) returns (step: Step)
    requires Counting(s) && !Drained(s)
    ensures Enabled(s, step) && OfHandler(step) && Counting(Next(s, step))
    ensures var s' := Next(s, step);
      || Awaited(s'.list) < Awaited(s.list)
      || (Awaited(s'.list) == Awaited(s.list) && HandlerRank(s'.handler) < HandlerRank(s.handler))
  {
    match s.handler
    case Off => step := HandlerLock;
    case Locked =>
      step := HandlerDequeue;
      DequeueAwaited(s.list);
    case Delivering(todo) => step := if todo == [] then HandlerUnlock else HandlerDeliver;
    StepCounting(s, step);
  }

  lemma HandlerStep(s: State, step: Step, rest: seq<Step>)
    requires Enabled(s, step) && OfHandler(step)
    requires IsRun(Next(s, step), rest) && AllOrderly(Next(s, step), rest)
    ensures IsRun(s, [step] + rest) && AllOrderly(s, [step] + rest)
    ensures After(s, [step] + rest) == After(Next(s, step), rest)
  {
    assert ([step] + rest)[1..] == rest;
  }

  /** The hardware reports what it still has to, and the handler sends what is queued. */
  lemma {:induction false} HandlerDrains(s: State) returns (steps: seq<Step>)
    requires Counting(s)
    ensures IsRun(s, steps) && AllOrderly(s, steps) && After(s, steps).committer == s.committer
    ensures After(s, steps).sent + HandEvent(s.committer) == EventOrder(s)
    decreases Awaited(s.list), HandlerRank(s.handler)
  {
    if Drained(s) {
      steps := [];
      assert Ahead(s) == s.sent + [] == s.sent;
    } else {
      var step := HandlerGoesOn(s);
      HandlerOrder(s, step);
      var rest := HandlerDrains(Next(s, step));
      HandlerStep(s, step, rest);
      steps := [step] + rest;
    }
  }

  // ---- The exact condition

  /** Whatever orderly steps follow, events come out in commit order. */
  ghost predicate InCommitOrder(s: State) {
    forall more :: IsRun(s, more) && AllOrderly(s, more) ==> Ascending(After(s, more).sent)
  }

  lemma SentAscending(s: State)
    requires Ascending(EventOrder(s))
    ensures Ascending(s.sent)
  {
    assert forall i :: 0 <= i < |s.sent| ==> s.sent[i] == EventOrder(s)[i];
  }

  /** With what the commit holds put behind it, an ascending list stays ascending. */
  lemma HandAscending(s: State, sent: seq<nat>)
    requires Tidy(s) && sent + HandEvent(s.committer) == EventOrder(s) && Ascending(sent)
    ensures Ascending(EventOrder(s))
  {
    if HandEvent(s.committer) != [] {
      assert sent + [] == sent;
      MovedEvent(s, Hand(s.committer).value.no, sent, []);
    } else {
      assert sent + [] == sent;
    }
  }

  /** Events come out in commit order, whatever orderly steps follow a run, if and only if
      every commit of the run was orderly. */
  lemma SentInOrderIff(steps: seq<Step>)
    requires IsRun(INITIAL, steps)
    ensures AllOrderly(INITIAL, steps) <==> InCommitOrder(After(INITIAL, steps))
  {
    var s := After(INITIAL, steps);
    InitialTidy();
    RunOrderIff(INITIAL, steps);
    RunConserved(INITIAL, steps);
    if AllOrderly(INITIAL, steps) {
      forall more | IsRun(s, more) && AllOrderly(s, more) ensures Ascending(After(s, more).sent) {
        RunOrderIff(s, more);
        SentAscending(After(s, more));
      }
    } else {
      var more := HandlerDrains(s);
      if Ascending(After(s, more).sent) {
        HandAscending(s, After(s, more).sent);
      }
    }
  }

  // ---- Runs without timeouts

  predicate Calm(step: Step) {
    !step.BeginTimeout? && !step.EndTimeout?
  }

  /** At most one flip is queued, and none while a commit holds one or has yet to make
      its own; so the branch that defers a flip is never taken. */
  ghost predicate OneFlip(s: State) {
    && |s.list| <= 1
    && (s.list != [] ==> s.list[0].deferred == [])
    && (s.committer.Checked? || Hand(s.committer).Some? ==> s.list == [])
    && |Todo(s.handler)| <= 1
  }

  lemma StepOneFlip(s: State, step: Step)
    requires OneFlip(s) && Enabled(s, step) && Calm(step)
    ensures OneFlip(Next(s, step)) && Orderly(s, step)
  {
  }

  lemma {:induction false} CalmIsOrderly(s: State, steps: seq<Step>)
    requires OneFlip(s) && IsRun(s, steps) && forall i :: 0 <= i < |steps| ==> Calm(steps[i])
    ensures OneFlip(After(s, steps)) && AllOrderly(s, steps)
    decreases |steps|
  {
    if steps != [] {
      assert Calm(steps[0]);
      StepOneFlip(s, steps[0]);
      assert forall i :: 0 <= i < |steps[1..]| ==> steps[1..][i] == steps[i + 1];
      CalmIsOrderly(Next(s, steps[0]), steps[1..]);
    }
  }

  /** If no wait for the hardware times out, events reach the CRTC in commit order and
      never twice, at most one flip is queued at a time, and whenever nothing is under
      way every commit that asked for an event and did not fail has had it. */
  lemma EventsInCommitOrder(steps: seq<Step>)
    requires IsRun(INITIAL, steps) && forall i :: 0 <= i < |steps| ==> Calm(steps[i])
    ensures var s := After(INITIAL, steps);
      && Ascending(s.sent)
      && |s.list| <= 1 && (s.committer.Settling? && s.committer.hand.Some? ==> s.list == [])
      && (forall n: nat :: n in s.sent ==> Due(s, n))
      && (s.list == [] && Todo(s.handler) == [] && Hand(s.committer) == None ==>
            forall n: nat :: Due(s, n) ==> n in s.sent)
  {
    InitialTidy();
    CalmIsOrderly(INITIAL, steps);
    RunOrderIff(INITIAL, steps);
    var s := After(INITIAL, steps);
    SentAscending(s);
    forall n: nat ensures n in s.sent ==> Due(s, n) {
      assert n in s.sent ==> n in EventOrder(s);
      CountMember(EventOrder(s), n);
    }
    if s.list == [] && Todo(s.handler) == [] && Hand(s.committer) == None {
      assert EventOrder(s) == s.sent;
      forall n: nat | Due(s, n) ensures n in s.sent { CountMember(s.sent, n); }
    }
  }

  // ---- A run with timeouts

  lemma FirstCommit(tail: seq<Step>, first: State)
    requires first == State([Queued(Flip(0, true, 1), [])], Resting, Off, 1, [], [], [true], {}) && IsRun(first, tail)
    ensures var steps := [Begin(false, true), Enqueue(1), ApplyOk, Settle, EndTimeout] + tail;
      IsRun(INITIAL, steps) && After(INITIAL, steps) == After(first, tail)
  {
    var s1 := Next(INITIAL, Begin(false, true));
    var s2 := Next(s1, Enqueue(1));
    var s3 := Next(s2, ApplyOk);
    var s4 := Next(s3, Settle);
    assert Next(s4, EndTimeout) == first;
    var t4 := [EndTimeout] + tail;
    var t3 := [Settle] + t4;
    var t2 := [ApplyOk] + t3;
    var t1 := [Enqueue(1)] + t2;
    var t0 := [Begin(false, true)] + t1;
    assert t4[1..] == tail && t3[1..] == t4 && t2[1..] == t3 && t1[1..] == t2 && t0[1..] == t1;
    assert t0 == [Begin(false, true), Enqueue(1), ApplyOk, Settle, EndTimeout] + tail;
    assert IsRun(s4, t4) && IsRun(s3, t3) && IsRun(s2, t2) && IsRun(s1, t1) && IsRun(INITIAL, t0);
    assert After(s4, t4) == After(first, tail);
    assert After(s3, t3) == After(s4, t4) && After(s2, t2) == After(s3, t3);
    assert After(s1, t1) == After(s2, t2) && After(INITIAL, t0) == After(s1, t1);
  }

  /** Two commits, the wait after the first and the one before the second timing out: the
      event of the second is sent before that of the first. */
  lemma TimeoutReorders() returns (steps: seq<Step>, more: seq<Step>)
    ensures IsRun(INITIAL, steps) && IsRun(After(INITIAL, steps), more)
    ensures After(After(INITIAL, steps), more).sent == [1, 0]
  {
    var first := State([Queued(Flip(0, true, 1), [])], Resting, Off, 1, [], [], [true], {});
    var tail := [BeginTimeout(true), Enqueue(1)];
    steps := [Begin(false, true), Enqueue(1), ApplyOk, Settle, EndTimeout] + tail;
    assert tail[1..] == [Enqueue(1)] && tail[1..][1..] == [];
    assert IsRun(first, tail);
    FirstCommit(tail, first);
    var s := After(INITIAL, steps);
    assert s.list == [Queued(Flip(1, true, 1), []), Queued(Flip(0, true, 1), [])];
    assert s.list[1..] == [Queued(Flip(0, true, 1), [])] && s.list[1..][1..] == [];
    assert EventOrder(s) == [1, 0];
    RunConserved(INITIAL, steps);
    more := HandlerDrains(s);
    assert After(s, more).sent + [] == After(s, more).sent;
  }
}
