/** Page flips of one CRTC: a commit hands a flip to the hardware or completes it at
    once, and the flip-event handler completes what the hardware reports.  The core DRM
    code holds the CRTC's lock over a commit, so one committer at a time; the device's
    event lock is held by the handler from before it looks at the list until its last
    event is sent.  A step is a lock-held region, or a wait that ends or times out.

    Flips are numbered in commit order.  `sent`, `freed`, `wanted` and `dropped` are
    history: events delivered, flips freed, which commits asked for an event and which
    flips died with a failed commit. */
module FlipModel {
  import opened Common

  datatype Flip = Flip(no: nat, event: bool, pendingEvents: nat)

  /** A flip on the CRTC's list and the flips deferred until it is processed. */
  datatype Queued = Queued(flip: Flip, deferred: seq<Flip>)

  datatype Committer =
    | Resting
    | Checked(nonblock: bool, event: bool)
    | Applying(nonblock: bool, hand: Option<Flip>)
    | Settling(nonblock: bool, hand: Option<Flip>)
    | Sending(nonblock: bool, flip: Flip)
    | Waiting(nonblock: bool)

  /** The handler holds the event lock unless it is off. */
  datatype Handler = Off | Locked | Delivering(todo: seq<Flip>)

  datatype State = State(
    list: seq<Queued>,
    committer: Committer,
    handler: Handler,
    commits: nat,
    sent: seq<nat>,
    freed: seq<nat>,
    wanted: seq<bool>,
    dropped: set<nat>)

  const INITIAL: State := State([], Resting, Off, 0, [], [], [], {})

  datatype Step =
    | Begin(nonblock: bool, event: bool)
    | BeginTimeout(event: bool)
    | Enqueue(events: nat)
    | ApplyOk
    | ApplyFail
    | Settle
    | Send
    | End
    | EndTimeout
    | HandlerLock
    | HandlerDequeue
    | HandlerDeliver
    | HandlerUnlock

  predicate Enabled(s: State, step: Step) {
    match step
    case Begin(_, _) => s.committer.Resting? && s.list == []
    case BeginTimeout(_) => s.committer.Resting? && s.list != []
    case Enqueue(_) => s.committer.Checked?
    case ApplyOk => s.committer.Applying?
    case ApplyFail => s.committer.Applying?
    case Settle => s.committer.Settling?
    case Send => s.committer.Sending? && (s.committer.flip.event ==> s.handler.Off?)
    case End => s.committer.Waiting? && (s.committer.nonblock || s.list == [])
    case EndTimeout => s.committer.Waiting? && !s.committer.nonblock && s.list != []
    case HandlerLock => s.handler.Off?
    case HandlerDequeue => s.handler.Locked?
    case HandlerDeliver => s.handler.Delivering? && s.handler.todo != []
    case HandlerUnlock => s.handler.Delivering? && s.handler.todo == []
  }

  /** `nv_drm_crtc_enqueue_flip`: `list_add` puts the flip at the head. */
  function EnqueueFlip(list: seq<Queued>, flip: Flip): seq<Queued> {
    [Queued(flip, [])] + list
  }

  /** The unsigned 32-bit decrement. */
  function Decrement(n: nat): nat {
    if n == 0 then 0xffff_ffff else n - 1
  }

  /** `nv_drm_crtc_dequeue_flip`: count down the flip at the head, and take it off the
      list at zero.  The result is what the handler has to complete, in its order. */
  datatype Dequeued = Dequeued(rest: seq<Queued>, todo: seq<Flip>)

  function DequeueFlip(list: seq<Queued>): Dequeued {
    if list == [] then Dequeued(list, [])
    else
      var flip := list[0].flip.(pendingEvents := Decrement(list[0].flip.pendingEvents));
      if flip.pendingEvents == 0 then Dequeued(list[1..], [flip] + list[0].deferred)
      else Dequeued([list[0].(flip := flip)] + list[1..], [])
  }

  /** Deferring a flip that gets no hardware event: `list_add` on the list of the entry
      at the tail. */
  function DeferFlip(list: seq<Queued>, flip: Flip): seq<Queued>
    requires list != []
  {
    var last := list[|list| - 1];
    list[..|list| - 1] + [last.(deferred := [flip] + last.deferred)]
  }

  /** An event of the flip, if it carries one. */
  function Event(flip: Flip): seq<nat> {
    if flip.event then [flip.no] else []
  }

  /** The events of some flips, in their order. */
  function Events(flips: seq<Flip>): seq<nat> {
    if flips == [] then [] else Event(flips[0]) + Events(flips[1..])
  }

  function Next(s: State, step: Step): State
    requires Enabled(s, step)
  {
    match step
    case Begin(nonblock, event) => s.(committer := Checked(nonblock, event))
    case BeginTimeout(event) => s.(committer := Checked(false, event))
    case Enqueue(events) =>
      var flip := Flip(s.commits, s.committer.event, events);
      var s1 := s.(commits := s.commits + 1, wanted := s.wanted + [s.committer.event]);
      if events > 0 then s1.(list := EnqueueFlip(s.list, flip), committer := Applying(s.committer.nonblock, None))
      else s1.(committer := Applying(s.committer.nonblock, Some(flip)))
    case ApplyOk => s.(committer := Settling(s.committer.nonblock, s.committer.hand))
    case ApplyFail =>
      if s.committer.hand == None then s.(committer := Resting)
      else
        var no := s.committer.hand.value.no;
        s.(committer := Resting, freed := s.freed + [no], dropped := s.dropped + {no})
    case Settle =>
      if s.committer.hand == None then s.(committer := Waiting(s.committer.nonblock))
      else if s.list == [] then s.(committer := Sending(s.committer.nonblock, s.committer.hand.value))
      else
        s.(list := DeferFlip(s.list, s.committer.hand.value), committer := Waiting(s.committer.nonblock))
    case Send =>
      s.(sent := s.sent + Event(s.committer.flip), freed := s.freed + [s.committer.flip.no],
         committer := Waiting(s.committer.nonblock))
    case End => s.(committer := Resting)
    case EndTimeout => s.(committer := Resting)
    case HandlerLock => s.(handler := Locked)
    case HandlerDequeue =>
      s.(list := DequeueFlip(s.list).rest, handler := Delivering(DequeueFlip(s.list).todo))
    case HandlerDeliver =>
      s.(sent := s.sent + Event(s.handler.todo[0]), freed := s.freed + [s.handler.todo[0].no],
         handler := Delivering(s.handler.todo[1..]))
    case HandlerUnlock => s.(handler := Off)
  }

  ghost predicate IsRun(s: State, steps: seq<Step>)
    decreases |steps|
  {
    steps == [] || (Enabled(s, steps[0]) && IsRun(Next(s, steps[0]), steps[1..]))
  }

  ghost function After(s: State, steps: seq<Step>): State
    requires IsRun(s, steps)
    decreases |steps|
  {
    if steps == [] then s else After(Next(s, steps[0]), steps[1..])
  }
}
