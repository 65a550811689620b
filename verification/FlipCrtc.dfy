/** The flip list of a CRTC in place: the loops of the commit path and of the handler. */
module FlipCrtc {
  import opened Common
  import opened FlipModel

  /** What the commit path looks at in the old state of a plane. */
  datatype Plane = Plane(onCrtc: bool, cursor: bool, hadFb: bool)

  /** `__will_generate_flip_event`: one hardware event for each plane of the CRTC, other
      than the cursor, that was scanned out before the commit. */
  method WillGenerateFlipEvent(planes: seq<Plane>, oldActive: bool, newActive: bool)
    returns (pendingEvents: nat, will: bool)
    ensures oldActive ==>
      pendingEvents == |set i | 0 <= i < |planes| && planes[i].onCrtc && !planes[i].cursor && planes[i].hadFb|
    ensures !oldActive ==> pendingEvents == 0
    ensures will <==> pendingEvents != 0
  {
    pendingEvents := 0;
    if !oldActive && !newActive {
      return pendingEvents, false;
    }
    for i := 0 to |planes|
      invariant oldActive ==>
        pendingEvents == |set k | 0 <= k < i && planes[k].onCrtc && !planes[k].cursor && planes[k].hadFb|
      invariant !oldActive ==> pendingEvents == 0
    {
      assert (set k | 0 <= k < i + 1 && planes[k].onCrtc && !planes[k].cursor && planes[k].hadFb) ==
        (set k | 0 <= k < i && planes[k].onCrtc && !planes[k].cursor && planes[k].hadFb) +
        (if planes[i].onCrtc && !planes[i].cursor && planes[i].hadFb then {i} else {});
      if !planes[i].onCrtc || planes[i].cursor {
      } else if oldActive && planes[i].hadFb {
        pendingEvents := pendingEvents + 1;
      }
    }
    will := pendingEvents != 0;
  }

  function Numbers(flips: seq<Flip>): seq<nat> {
    if flips == [] then [] else [flips[0].no] + Numbers(flips[1..])
  }

  class Crtc {
    var flipList: seq<Queued>
    var sent: seq<nat>
    var freed: seq<nat>

    constructor ()
      ensures flipList == [] && sent == [] && freed == []
    {
      flipList, sent, freed := [], [], [];
    }

    method Enqueue(flip: Flip)
      modifies `flipList
      ensures flipList == EnqueueFlip(old(flipList), flip)
    {
      flipList := [Queued(flip, [])] + flipList;
    }

    /** `nv_drm_crtc_dequeue_flip`: the flip at the head comes off the list exactly with the
        last event it waits for. */
    method Dequeue() returns (flip: Option<Queued>)
      modifies `flipList
      ensures flipList == DequeueFlip(old(flipList)).rest
      ensures flip.Some? <==> old(flipList) != [] && old(flipList)[0].flip.pendingEvents == 1
      ensures flip.Some? ==> flipList == old(flipList)[1..] && flip.value.deferred == old(flipList)[0].deferred
      ensures flip.None? ==> |flipList| == |old(flipList)|
      ensures DequeueFlip(old(flipList)).todo == if flip.Some? then [flip.value.flip] + flip.value.deferred else []
    {
      if flipList == [] {
        return None;
      }
      var head := flipList[0].(flip := flipList[0].flip.(pendingEvents := Decrement(flipList[0].flip.pendingEvents)));
      if head.flip.pendingEvents == 0 {
        flipList := flipList[1..];
        return Some(head);
      }
      flipList := [head] + flipList[1..];
      return None;
    }

    /** The deferred part of the handler: events in the order of the deferred list. */
    method CompleteDeferred(deferred: seq<Flip>)
      modifies `sent, `freed
      ensures sent == old(sent) + Events(deferred)
      ensures freed == old(freed) + Numbers(deferred)
    {
      var rest := deferred;
      while rest != []
        invariant sent + Events(rest) == old(sent) + Events(deferred)
        invariant freed + Numbers(rest) == old(freed) + Numbers(deferred)
        decreases |rest|
      {
        var flip := rest[0];
        rest := rest[1..];
        Regroup(sent, Event(flip), Events(rest));
        Regroup(freed, [flip.no], Numbers(rest));
        sent := sent + Event(flip);
        freed := freed + [flip.no];
      }
    }

    /** `__nv_drm_handle_flip_event`: the flip taken off the list, then the flips deferred
        to it, each with its event; the flip itself is freed last. */
    method HandleFlipEvent()
      modifies this
      ensures flipList == DequeueFlip(old(flipList)).rest
      ensures sent == old(sent) + Events(DequeueFlip(old(flipList)).todo)
      ensures var todo := DequeueFlip(old(flipList)).todo;
        freed == old(freed) + if todo == [] then [] else Numbers(todo[1..]) + [todo[0].no]
      ensures sent != old(sent) || freed != old(freed) ==>
        old(flipList) != [] && old(flipList)[0].flip.pendingEvents == 1 && flipList == old(flipList)[1..]
    {
      var flip := Dequeue();
      if flip.Some? {
        if flip.value.flip.event {
          sent := sent + [flip.value.flip.no];
        }
        CompleteDeferred(flip.value.deferred);
        assert ([flip.value.flip] + flip.value.deferred)[1..] == flip.value.deferred;
        freed := freed + [flip.value.flip.no];
      }
    }

    /** The end of a commit whose flip the hardware will not report: deferred to what is
        queued, or completed at once. */
    method SettleFlip(flip: Flip)
      modifies this
      ensures old(flipList) != [] ==>
        flipList == DeferFlip(old(flipList), flip) && sent == old(sent) && freed == old(freed)
      ensures old(flipList) == [] ==>
        flipList == [] && sent == old(sent) + Event(flip) && freed == old(freed) + [flip.no]
    {
      if flipList != [] {
        var last := flipList[|flipList| - 1];
        flipList := flipList[..|flipList| - 1] + [last.(deferred := [flip] + last.deferred)];
      } else {
        if flip.event {
          sent := sent + [flip.no];
        }
        freed := freed + [flip.no];
      }
    }
  }
}
