/** The queue object itself: its list, its semaphore count and its exit flag, updated in
    place, and the steps of the queue's state machine that its functions take. */
module KthreadQueue {
  import opened Common
  import opened QueueModel
  import opened QueueInvariants

  /** A schedule call from the link to its end. */
  function Linked(s: State, a: Aid): State
    requires Enabled(s, Link(a))
  {
    var s1 := Next(s, Link(a));
    if Enabled(s1, Up(a)) then Next(s1, Up(a)) else s1
  }

  function Scheduled(s: State, a: Aid): State
    requires Enabled(s, ReadExit(a))
  {
    var s1 := Next(s, ReadExit(a));
    if Enabled(s1, Link(a)) then Linked(s1, a) else s1
  }

  /** The end of a stop: the flag and its token. */
  function Ended(s: State, a: Aid): State
    requires Enabled(s, SetExit(a))
  {
    Next(Next(s, SetExit(a)), StopUp(a))
  }

  /** One round of the worker, from taking a token to waiting for the next or to its end. */
  function Rounded(s: State): State
    requires s.count > 0
  {
    var s1 := s.(count := s.count - 1);
    if s.shouldExit then s1.(worker := Exited)
    else if s.q == [] then s1.(warned := true)
    else s1.(q := s.q[1..], ran := s.ran + [s.q[0]], done := s.done + 1)
  }

  ghost predicate Works(s: State, steps: seq<Step>) {
    IsRun(s, steps) && forall i :: 0 <= i < |steps| ==> ByWorker(steps[i])
  }

  lemma WorkOn(s: State, steps: seq<Step>, step: Step)
    requires Works(s, steps) && Enabled(After(s, steps), step) && ByWorker(step)
    ensures Works(s, steps + [step]) && After(s, steps + [step]) == Effect(After(s, steps), step)
  {
    RunAppend(s, steps, step);
  }

  /** The worker takes a token and looks at the flag. */
  lemma TakesToken(s: State, steps: seq<Step>) returns (more: seq<Step>)
    requires Works(s, steps) && After(s, steps).worker == Waiting && After(s, steps).count > 0
    ensures Works(s, more)
    ensures var s1 := After(s, steps);
      After(s, more) == s1.(count := s1.count - 1, worker := if s1.shouldExit then Exited else Checked)
  {
    WorkOn(s, steps, Down);
    more := steps + [Down];
    WorkOn(s, more, CheckExit);
    more := more + [CheckExit];
  }

  /** A run of the worker leads to the state. */
  ghost predicate Leads(s: State, steps: seq<Step>, s1: State) {
    Works(s, steps) && After(s, steps) == s1
  }

  lemma Round(s: State, steps: seq<Step>, s1: State) returns (more: seq<Step>)
    requires Leads(s, steps, s1) && s1.worker == Waiting && s1.count > 0 && WORKER !in s1.actors
    ensures Leads(s, more, Rounded(s1))
  {
    more := TakesToken(s, steps);
    if !s1.shouldExit {
      WorkOn(s, more, Pop);
      more := more + [Pop];
      if s1.q != [] {
        WorkOn(s, more, Finish);
        more := more + [Finish];
      }
    }
  }

  /** The flag goes up once, with one token. */
  lemma StopEnds(s: State, a: Aid)
    requires QueueOk(s) && Enabled(s, SetExit(a))
    ensures var s' := Ended(s, a);
      && QueueOk(s') && s'.shouldExit && !s.shouldExit && s'.count == s.count + 1 && s'.stopUp
      && s'.q == s.q && s'.ran == s.ran && s'.warned == s.warned
  {
    StepOk(s, SetExit(a));
    StepOk(Next(s, SetExit(a)), StopUp(a));
  }

  class Queue {
    var qList: seq<Item>
    var qSem: nat
    var mainLoopShouldExit: bool
    var ran: seq<Item>
    var warnings: nat

    /** The fields are those of a state of the machine. */
    ghost predicate Shows(s: State)
      reads this
    {
      && qList == s.q && qSem == s.count && mainLoopShouldExit == s.shouldExit && ran == s.ran
      && (s.warned <==> warnings > 0)
    }

    constructor ()
      ensures Shows(Initial(true)) && Shows(Initial(false))
    {
      qList, qSem, mainLoopShouldExit, ran, warnings := [], 0, false, [], 0;
    }

    /** `_raw_q_schedule`: link unless already linked, then raise the semaphore. */
    method RawSchedule(ghost s: State, ghost a: Aid, item: Item) returns (ret: bool)
      requires Shows(s) && Enabled(s, Link(a)) && s.actors[a].item == item
      modifies `qList, `qSem
      ensures Shows(Linked(s, a))
      ensures ret <==> item !in old(qList)
      ensures item in qList && old(qList) <= qList
      ensures qSem - old(qSem) == |qList| - |old(qList)|
    {
      ret := item !in qList;
      if ret {
        qList := qList + [item];
        qSem := qSem + 1;
      }
    }

    /** `nv_kthread_q_schedule_q_item`: refused on a queue that is being stopped. */
    method ScheduleItem(ghost s: State, ghost a: Aid, item: Item) returns (ret: bool)
      requires Shows(s) && Enabled(s, ReadExit(a)) && s.actors[a].item == item
      modifies `qList, `qSem
      ensures Shows(Scheduled(s, a))
      ensures ret <==> !mainLoopShouldExit && item !in old(qList)
      ensures (mainLoopShouldExit || item in qList) && old(qList) <= qList
      ensures qSem - old(qSem) == |qList| - |old(qList)|
    {
      if mainLoopShouldExit {
        return false;
      }
      ret := RawSchedule(Next(s, ReadExit(a)), a, item);
    }

    /** The body of `_main_loop`: a token, the flag, and the item at the head. */
    method RunOne(ghost s: State) returns (exit: bool)
      requires Shows(s) && s.worker == Waiting && qSem > 0
      modifies `qList, `qSem, `ran, `warnings
      ensures Shows(Rounded(s)) && exit == mainLoopShouldExit && qSem == old(qSem) - 1
      ensures ran + qList == old(ran) + old(qList)
      ensures exit ==> ran == old(ran) && warnings == old(warnings)
      ensures !exit ==> |ran| + warnings == |old(ran)| + old(warnings) + 1
      ensures warnings == old(warnings) + if !exit && old(qList) == [] then 1 else 0
      ensures old(qList) == [] ==> qList == []
    {
      qSem := qSem - 1;
      if mainLoopShouldExit {
        return true;
      }
      if qList == [] {
        warnings := warnings + 1;
      } else {
        var item := qList[0];
        qList, ran := qList[1..], ran + [item];
      }
      return false;
    }

    /** `_main_loop` until the semaphore blocks it or the exit flag ends it: a run of steps
        of the worker, which runs one item per token in order and warns exactly about
        tokens without an item. */
    method MainLoop(ghost s: State) returns (ghost steps: seq<Step>)
      requires Shows(s) && s.worker == Waiting && WORKER !in s.actors
      modifies `qList, `qSem, `ran, `warnings
      ensures Works(s, steps) && Shows(After(s, steps))
      ensures qSem == 0 || After(s, steps).worker == Exited
      ensures ran + qList == old(ran) + old(qList)
      ensures mainLoopShouldExit ==> ran == old(ran) && warnings == old(warnings)
      ensures !mainLoopShouldExit ==>
        |ran| - |old(ran)| + (warnings - old(warnings)) == old(qSem) && (warnings > old(warnings) ==> qList == [])
    {
      steps := [];
      ghost var s1 := s;
      while qSem > 0
        invariant Leads(s, steps, s1) && Shows(s1) && s1.worker == Waiting && WORKER !in s1.actors
        invariant ran + qList == old(ran) + old(qList) && old(warnings) <= warnings
        invariant |ran| - |old(ran)| + (warnings - old(warnings)) == old(qSem) - qSem
        invariant warnings > old(warnings) ==> qList == []
        invariant mainLoopShouldExit ==> ran == old(ran) && warnings == old(warnings)
        decreases qSem
      {
        steps := Round(s, steps, s1);
        var exit := RunOne(s1);
        s1 := Rounded(s1);
        if exit {
          break;
        }
      }
    }

    /** The end of `nv_kthread_q_stop`: one token for the worker to see the flag with, so
        that tokens still match list entries and the stop token. */
    method EndStop(ghost s: State, ghost a: Aid)
      requires Shows(s) && QueueOk(s) && Enabled(s, SetExit(a))
      modifies `qSem, `mainLoopShouldExit
      ensures Shows(Ended(s, a)) && QueueOk(Ended(s, a))
      ensures qSem + |Owing(Ended(s, a).actors)| + Held(Ended(s, a).worker) == |qList| + 1
    {
      StopEnds(s, a);
      if !mainLoopShouldExit {
        mainLoopShouldExit := true;
        qSem := qSem + 1;
      }
    }
  }
}
