/** Commits as their callers see them: which events they asked for, which of them failed, and
    what a blocking commit has waited for when it ends. */
module FlipCommits {
  import opened Common
  import opened FlipModel
  import opened FlipTracking
  import opened FlipOrder

  /** A commit as it was begun, whether it made a flip for the hardware to report, and whether
      it was applied. */
  datatype Commit = Commit(nonblock: bool, event: bool, reported: bool, applied: bool)

  function Begun(commit: Commit, step: Step): Commit {
    match step
    case Begin(nonblock, event) => Commit(nonblock, event, false, false)
    case BeginTimeout(event) => Commit(false, event, false, false)
    case Enqueue(events) => commit.(reported := events > 0)
    case ApplyOk => commit.(applied := true)
    case _ => commit
  }

  /** The last commit of some steps. */
  function Latest(steps: seq<Step>, commit: Commit): Commit {
    if steps == [] then commit else Latest(steps[1..], Begun(commit, steps[0]))
  }

  /** Which commits asked for an event, in their order. */
  function Asked(steps: seq<Step>, commit: Commit): seq<bool> {
    if steps == [] then []
    else (if steps[0].Enqueue? then [commit.event] else []) + Asked(steps[1..], Begun(commit, steps[0]))
  }

  /** Which commits failed with a flip the hardware will not report; `n` came before. */
  function Failed(steps: seq<Step>, commit: Commit, n: nat): set<nat> {
    if steps == [] then {}
    else
      (if steps[0].ApplyFail? && !commit.reported && n > 0 then {n - 1} else {})
      + Failed(steps[1..], Begun(commit, steps[0]), if steps[0].Enqueue? then n + 1 else n)
  }

  /** The machine's committer is at work on the commit. */
  predicate AtWork(s: State, commit: Commit) {
    match s.committer
    case Resting => true
    case Checked(nonblock, event) => nonblock == commit.nonblock && event == commit.event
    case Applying(nonblock, hand) =>
      && nonblock == commit.nonblock && hand.Some? == !commit.reported
      && (hand.Some? ==> hand.value.no + 1 == s.commits)
    case Settling(nonblock, _) => nonblock == commit.nonblock && commit.applied
    case Sending(nonblock, _) => nonblock == commit.nonblock && commit.applied
    case Waiting(nonblock) => nonblock == commit.nonblock && commit.applied
  }

  lemma StepAtWork(s: State, step: Step, commit: Commit)
    requires AtWork(s, commit) && Enabled(s, step)
    ensures AtWork(Next(s, step), Begun(commit, step))
    ensures Next(s, step).commits == s.commits + if step.Enqueue? then 1 else 0
    ensures Next(s, step).wanted == s.wanted + if step.Enqueue? then [commit.event] else []
    ensures Next(s, step).dropped ==
      s.dropped + if step.ApplyFail? && !commit.reported && s.commits > 0 then {s.commits - 1} else {}
  {
  }

  lemma {:induction false} RunAtWork(s: State, steps: seq<Step>, commit: Commit)
    requires AtWork(s, commit) && IsRun(s, steps)
    ensures AtWork(After(s, steps), Latest(steps, commit))
    ensures After(s, steps).wanted == s.wanted + Asked(steps, commit)
    ensures After(s, steps).dropped == s.dropped + Failed(steps, commit, s.commits)
    decreases |steps|
  {
    if steps != [] {
      StepAtWork(s, steps[0], commit);
      RunAtWork(Next(s, steps[0]), steps[1..], Begun(commit, steps[0]));
      var first := if steps[0].Enqueue? then [commit.event] else [];
      Regroup(s.wanted, first, Asked(steps[1..], Begun(commit, steps[0])));
    }
  }

  const NO_COMMIT := Commit(false, false, false, false)

  /** The events due are those of the commits that asked for one and did not fail. */
  lemma DueExactly(steps: seq<Step>, n: nat)
    requires IsRun(INITIAL, steps)
    ensures Due(After(INITIAL, steps), n) <==>
      n < |Asked(steps, NO_COMMIT)| && Asked(steps, NO_COMMIT)[n] && n !in Failed(steps, NO_COMMIT, 0)
  {
    RunAtWork(INITIAL, steps, NO_COMMIT);
    assert [] + Asked(steps, NO_COMMIT) == Asked(steps, NO_COMMIT);
  }

  /** When a blocking commit ends other than by a timeout, no flip is queued, and every event
      asked for so far has been sent or is being sent by the handler. */
  lemma BlockingCommitWaits(steps: seq<Step>, n: nat)
    requires IsRun(INITIAL, steps) && Enabled(After(INITIAL, steps), End) && !Latest(steps, NO_COMMIT).nonblock
    ensures After(INITIAL, steps).list == []
    ensures Due(After(INITIAL, steps), n) ==> n in Ahead(After(INITIAL, steps))
  {
    var s := After(INITIAL, steps);
    RunAtWork(INITIAL, steps, NO_COMMIT);
    EventsExactlyOnce(steps, n);
    assert EventOrder(s) == Ahead(s);
    CountMember(EventOrder(s), n);
  }

  /** Only a commit that was applied comes to the wait at its end, and only a blocking one has
      to stay there. */
  lemma WaitsIfAppliedAndBlocking(steps: seq<Step>)
    requires IsRun(INITIAL, steps) && After(INITIAL, steps).committer.Waiting?
    ensures Latest(steps, NO_COMMIT).applied
    ensures Latest(steps, NO_COMMIT).nonblock ==>
      Enabled(After(INITIAL, steps), End) && !Enabled(After(INITIAL, steps), EndTimeout)
  {
    RunAtWork(INITIAL, steps, NO_COMMIT);
  }
}
