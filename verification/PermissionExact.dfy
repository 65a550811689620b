/** What grants, revocations, closes and unplugs do, said from the fields of the device. */
module PermissionExact {
  import opened Common
  import opened PermissionModel
  import opened PermissionTheorems

  // ---- Grant

  /** The CRTC that drives a connector: that of its state or, without one, its encoder's. */
  function DrivenBy(x: Connector): Option<nat> {
    if x.stateCrtc.Some? then x.stateCrtc
    else if x.encoder.Some? then x.encoder.value.crtc
    else None
  }

  /** The file sees the CRTC, the connector's encoder can drive it and nobody holds it. */
  predicate CouldHave(d: Device, visible: set<nat>, i: nat, c: nat)
    requires i < |d.connectors|
  {
    && c < |d.crtcs| && d.crtcs[c].permissionFile == None && c in visible
    && d.connectors[i].encoder.Some? && c in d.connectors[i].encoder.value.possibleCrtcs
  }

  /** Heads name CRTCs. */
  lemma HeadBitDriven(d: Device, k: nat, c: nat)
    requires WellFormed(d) && k < |d.connectors| && c < |d.crtcs|
    ensures d.crtcs[c].head in HeadBit(d, k) <==> DrivenBy(d.connectors[k]) == Some(c)
  {
    var e := DrivenBy(d.connectors[k]);
    if e.Some? && e.value != c {
      assert d.crtcs[e.value].head != d.crtcs[c].head;
    }
  }

  lemma OwnDriven(d: Device, i: nat, visible: set<nat>)
    requires WellFormed(d) && i < |d.connectors| && d.connectors[i].encoder.Some?
    ensures OwnUsable(d, i, visible, d.connectors[i].encoder.value.possibleCrtcs) <==>
      DrivenBy(d.connectors[i]).Some? && CouldHave(d, visible, i, DrivenBy(d.connectors[i]).value)
  {
    var possible := d.connectors[i].encoder.value.possibleCrtcs;
    forall c | 0 <= c < |d.crtcs| ensures d.crtcs[c].head in HeadBit(d, i) <==> DrivenBy(d.connectors[i]) == Some(c) {
      HeadBitDriven(d, i, c);
    }
    if DrivenBy(d.connectors[i]).Some? && CouldHave(d, visible, i, DrivenBy(d.connectors[i]).value) {
      assert Usable(d, visible, possible, DrivenBy(d.connectors[i]).value);
    }
  }

  lemma UsedDriven(d: Device, c: nat)
    requires WellFormed(d) && c < |d.crtcs|
    ensures HeadUsed(d, d.crtcs[c].head) <==>
      exists k :: 0 <= k < |d.connectors| && DrivenBy(d.connectors[k]) == Some(c)
  {
    forall k | 0 <= k < |d.connectors|
      ensures d.crtcs[c].head in HeadBit(d, k) <==> DrivenBy(d.connectors[k]) == Some(c)
    {
      HeadBitDriven(d, k, c);
    }
  }

  /** A grant can hand out a CRTC exactly if the connector is the first one of the display
      and is free, it could have the CRTC, and that is the one which drives it, if it could
      have that, and otherwise one that drives no connector. */
  lemma CanGrantExactly(d: Device, dpyId: nat, visible: set<nat>, i: nat, c: nat)
    requires WellFormed(d) && i < |d.connectors| && c < |d.crtcs|
    ensures CanGrant(d, dpyId, visible, i, c) <==>
      && d.connectors[i].encoder.Some? && d.connectors[i].encoder.value.dpyId == dpyId
      && (forall k :: 0 <= k < i && d.connectors[k].encoder.Some? ==> d.connectors[k].encoder.value.dpyId != dpyId)
      && d.connectors[i].permissionFile == None
      && CouldHave(d, visible, i, c)
      && (var own := DrivenBy(d.connectors[i]);
          if own.Some? && CouldHave(d, visible, i, own.value) then c == own.value
          else forall k :: 0 <= k < |d.connectors| ==> DrivenBy(d.connectors[k]) != Some(c))
  {
    HeadBitDriven(d, i, c);
    UsedDriven(d, c);
    if d.connectors[i].encoder.Some? {
      OwnDriven(d, i, visible);
    }
  }

  /** What was handed out: a CRTC that drives another connector never is, and one that
      drives this connector is, if it can be. */
  lemma GrantPicks(d: Device, file: File, dpyId: nat, visible: set<nat>, i: nat, c: nat, d': Device)
    requires WellFormed(d) && i < |d.connectors| && c < |d.crtcs| && GrantsOn(d, file, dpyId, visible, i, c, d')
    ensures c in visible && d.crtcs[c].permissionFile == None && d.connectors[i].permissionFile == None
    ensures d.connectors[i].encoder.Some? && c in d.connectors[i].encoder.value.possibleCrtcs
    ensures forall e :: d.connectors[i].stateCrtc == Some(e) && CouldHave(d, visible, i, e) ==> c == e
    ensures d.connectors[i].stateCrtc == None ==>
      forall e :: d.connectors[i].encoder.value.crtc == Some(e) && CouldHave(d, visible, i, e) ==> c == e
    ensures DrivenBy(d.connectors[i]) == Some(c) || forall k :: 0 <= k < |d.connectors| ==>
      && d.connectors[k].stateCrtc != Some(c)
      && (d.connectors[k].stateCrtc == None && d.connectors[k].encoder.Some? ==>
            d.connectors[k].encoder.value.crtc != Some(c))
    ensures forall e :: 0 <= e < c ==> !CanGrant(d, dpyId, visible, i, e)
    ensures d'.connectors[i].permissionCrtc == Some(c) && d'.connectors[i].permissionFile == Some(file)
    ensures d'.crtcs[c].permissionFile == Some(file) && d'.crtcs[c].head == d.crtcs[c].head
    ensures d'.connectors[i].stateCrtc == d.connectors[i].stateCrtc
    ensures d'.connectors[i].encoder == d.connectors[i].encoder
    ensures d'.connectors == d.connectors[i := d'.connectors[i]] && d'.crtcs == d.crtcs[c := d'.crtcs[c]]
  {
    CanGrantExactly(d, dpyId, visible, i, c);
  }

  // ---- Revoke

  /** The revocation asks for the connector: the file holds it, and it shows the display, if
      one is given. */
  predicate Asks(x: Connector, file: File, dpyId: nat) {
    && x.permissionFile == Some(file)
    && (dpyId == 0 || (x.encoder.Some? && x.encoder.value.dpyId == dpyId))
  }

  /** And gets to it: all it asks for up to this one could be disabled. */
  predicate Takes(d: Device, file: File, dpyId: nat, disables: nat -> bool, i: nat)
    requires i < |d.connectors|
  {
    && Asks(d.connectors[i], file, dpyId)
    && forall k :: 0 <= k <= i && Asks(d.connectors[k], file, dpyId) ==> disables(k)
  }

  function Unheld(x: Connector): Connector {
    Connector(None, None, x.stateCrtc, x.encoder)
  }

  lemma TakenBeforeStop(d: Device, file: File, dpyId: nat, disables: nat -> bool, i: nat)
    requires i < |d.connectors|
    ensures Takes(d, file, dpyId, disables, i) <==>
      i < StopsAt(d, OfFile(file, dpyId), disables, 0) && Chosen(OfFile(file, dpyId), i, d.connectors[i])
  {
    var sel := OfFile(file, dpyId);
    var n := StopsAt(d, sel, disables, 0);
    assert forall k :: 0 <= k < |d.connectors| ==>
      (Chosen(sel, k, d.connectors[k]) <==> Asks(d.connectors[k], file, dpyId));
  }

  /** A revocation takes the holder from exactly these connectors and from their CRTCs, and
      without an atomic state from none. */
  lemma RevokeExactly(d: Device, file: File, dpyId: nat, gotState: bool, disables: nat -> bool)
    requires Related(d)
    ensures var r := Revoke(d, file, dpyId, gotState, disables);
      && |r.connectors| == |d.connectors| && |r.crtcs| == |d.crtcs|
      && (forall i :: 0 <= i < |d.connectors| ==>
            r.connectors[i] == if gotState && Takes(d, file, dpyId, disables, i) then Unheld(d.connectors[i])
                               else d.connectors[i])
      && (forall c :: 0 <= c < |d.crtcs| ==>
            && r.crtcs[c].head == d.crtcs[c].head
            && r.crtcs[c].permissionFile ==
                 if gotState && exists i ::
                   0 <= i < |d.connectors| && Takes(d, file, dpyId, disables, i) && Names(d, i, c)
                 then None else d.crtcs[c].permissionFile)
  {
    if gotState {
      var sel := OfFile(file, dpyId);
      var n := StopsAt(d, sel, disables, 0);
      RevokeIsFirst(d, file, dpyId, disables);
      FirstExact(d, sel, n);
      forall i | 0 <= i < |d.connectors|
        ensures Takes(d, file, dpyId, disables, i) <==> i < n && Chosen(sel, i, d.connectors[i])
      {
        TakenBeforeStop(d, file, dpyId, disables, i);
      }
      forall c | 0 <= c < |d.crtcs|
        ensures Goes(d, sel, n, c) <==>
          exists i :: 0 <= i < |d.connectors| && Takes(d, file, dpyId, disables, i) && Names(d, i, c)
      {
      }
    }
  }

  // ---- Close, also where connectors and CRTCs do not agree

  lemma {:induction false} FirstConnectors(d: Device, sel: Selection, n: nat)
    requires WellFormed(d) && n <= |d.connectors|
    ensures forall i :: 0 <= i < |d.connectors| ==> RevokeFirst(d, sel, n).connectors[i] == WithoutHolder(d, sel, n, i)
  {
    if n > 0 {
      FirstConnectors(d, sel, n - 1);
    }
  }

  /** A close that could disable all the file holds leaves no mention of it, also on CRTCs
      that no connector names. */
  lemma CloseClearsAll(d: Device, file: File, disables: nat -> bool)
    requires WellFormed(d) && |d.crtcs| > 0 && |d.connectors| > 0
    requires forall i :: 0 <= i < |d.connectors| && d.connectors[i].permissionFile == Some(file) ==> disables(i)
    ensures !Mentions(Close(d, file, true, disables), file)
  {
    FirstConnectors(d, OfFile(file, 0), |d.connectors|);
  }

  // ---- Unplug and leases

  /** An unplugged connector and its CRTC lose their holder, and nothing else changes. */
  lemma UnplugExactly(d: Device, i: nat)
    requires Related(d) && i < |d.connectors|
    ensures var r := HotUnplug(d, i);
      && r.connectors == d.connectors[i := Unheld(d.connectors[i])]
      && |r.crtcs| == |d.crtcs|
      && (forall c :: 0 <= c < |d.crtcs| ==>
            && r.crtcs[c].head == d.crtcs[c].head
            && r.crtcs[c].permissionFile == if Names(d, i, c) then None else d.crtcs[c].permissionFile)
  {
  }

  /** Revoking a lease takes the holder from its connectors, from their CRTCs and from its
      CRTCs. */
  lemma LeaseExactly(d: Device, connectors: set<nat>, crtcs: set<nat>)
    requires Related(d)
    ensures var r := RevokeLease(d, connectors, crtcs);
      && |r.connectors| == |d.connectors| && |r.crtcs| == |d.crtcs|
      && (forall i :: 0 <= i < |d.connectors| ==>
            r.connectors[i] == if i in connectors then Unheld(d.connectors[i]) else d.connectors[i])
      && (forall c :: 0 <= c < |d.crtcs| ==>
            && r.crtcs[c].head == d.crtcs[c].head
            && r.crtcs[c].permissionFile ==
                 if c in crtcs || exists i :: 0 <= i < |d.connectors| && i in connectors && Names(d, i, c)
                 then None else d.crtcs[c].permissionFile)
  {
    FirstExact(d, Listed(connectors, crtcs), |d.connectors|);
  }
}
