/** The permission relation between connectors and CRTCs. */
module PermissionTheorems {
  import opened Common
  import opened PermissionModel

  ghost predicate Names(d: Device, i: nat, c: nat)
    requires i < |d.connectors|
  {
    d.connectors[i].permissionCrtc == Some(c)
  }

  /** A connector has a holder exactly if it has a CRTC. */
  ghost predicate Paired(d: Device) {
    forall i :: 0 <= i < |d.connectors| ==>
      (d.connectors[i].permissionFile.Some? <==> d.connectors[i].permissionCrtc.Some?)
  }

  /** A connector's CRTC has the same holder. */
  ghost predicate SameHolder(d: Device)
    requires WellFormed(d)
  {
    forall i :: 0 <= i < |d.connectors| && d.connectors[i].permissionCrtc.Some? ==>
      d.crtcs[d.connectors[i].permissionCrtc.value].permissionFile == d.connectors[i].permissionFile
  }

  /** No two connectors share a CRTC. */
  ghost predicate Unshared(d: Device) {
    forall i, j :: 0 <= i < j < |d.connectors| && d.connectors[i].permissionCrtc.Some? ==>
      d.connectors[i].permissionCrtc != d.connectors[j].permissionCrtc
  }

  /** A held CRTC is some connector's. */
  ghost predicate Backed(d: Device) {
    forall c :: 0 <= c < |d.crtcs| && d.crtcs[c].permissionFile.Some? ==>
      exists i :: 0 <= i < |d.connectors| && Names(d, i, c)
  }

  ghost predicate Related(d: Device) {
    WellFormed(d) && Paired(d) && SameHolder(d) && Unshared(d) && Backed(d)
  }

  // ---- Each operation keeps the relation

  lemma GrantRelated(d: Device, file: File, dpyId: nat, visible: set<nat>, i: nat, c: nat, d': Device)
    requires Related(d) && i < |d.connectors| && c < |d.crtcs|
    requires GrantsOn(d, file, dpyId, visible, i, c, d')
    ensures Related(d')
  {
    forall e | 0 <= e < |d'.crtcs| && d'.crtcs[e].permissionFile.Some?
      ensures exists k :: 0 <= k < |d'.connectors| && Names(d', k, e)
    {
      if e == c {
        assert Names(d', i, e);
      } else {
        var k :| 0 <= k < |d.connectors| && Names(d, k, e);
        assert Names(d', k, e);
      }
    }
  }

  lemma RevokeRelated(d: Device, i: nat)
    requires Related(d) && i < |d.connectors|
    ensures Related(RevokeConnector(d, i))
  {
    var d' := RevokeConnector(d, i);
    forall e | 0 <= e < |d'.crtcs| && d'.crtcs[e].permissionFile.Some?
      ensures exists k :: 0 <= k < |d'.connectors| && Names(d', k, e)
    {
      var k :| 0 <= k < |d.connectors| && Names(d, k, e);
      assert Names(d', k, e);
    }
  }

  lemma ChosenRelated(d: Device, sel: Selection, i: nat)
    requires Related(d) && i < |d.connectors|
    ensures Related(RevokeIfChosen(d, sel, i))
  {
    RevokeRelated(d, i);
  }

  lemma OneMore(d: Device, sel: Selection, n: nat)
    requires WellFormed(d) && n < |d.connectors|
    ensures RevokeFirst(d, sel, n + 1) == RevokeIfChosen(RevokeFirst(d, sel, n), sel, n)
  {
  }

  lemma StepsRelated(d: Device, sel: Selection, n: nat, p: Device, r: Device)
    requires WellFormed(d) && n < |d.connectors| && p == RevokeFirst(d, sel, n) && r == RevokeFirst(d, sel, n + 1)
    requires Related(p)
    ensures Related(r)
  {
    OneMore(d, sel, n);
    ChosenRelated(p, sel, n);
  }

  lemma {:induction false} FirstRelated(d: Device, sel: Selection, n: nat)
    requires Related(d) && n <= |d.connectors|
    ensures Related(RevokeFirst(d, sel, n))
  {
    if n > 0 {
      FirstRelated(d, sel, n - 1);
      StepsRelated(d, sel, n - 1, RevokeFirst(d, sel, n - 1), RevokeFirst(d, sel, n));
    }
  }

  // ---- What a revocation leaves, said without its order

  /** CRTC `c` belongs to a chosen connector among the first `n`. */
  ghost predicate Goes(d: Device, sel: Selection, n: nat, c: nat)
    requires n <= |d.connectors|
  {
    exists i :: 0 <= i < n && Chosen(sel, i, d.connectors[i]) && Names(d, i, c)
  }

  /** One more connector in the loop. */
  lemma NextGoes(d: Device, sel: Selection, n: nat, c: nat)
    requires n < |d.connectors|
    ensures Goes(d, sel, n + 1, c) <==>
      Goes(d, sel, n, c) || (Chosen(sel, n, d.connectors[n]) && Names(d, n, c))
  {
  }

  ghost predicate FirstDone(d: Device, sel: Selection, n: nat, r: Device)
    requires n <= |d.connectors|
  {
    && |r.connectors| == |d.connectors| && |r.crtcs| == |d.crtcs|
    && (forall i :: 0 <= i < |d.connectors| ==> r.connectors[i] == WithoutHolder(d, sel, n, i))
    && (forall c :: 0 <= c < |d.crtcs| ==>
          r.crtcs[c] == if Goes(d, sel, n, c) then d.crtcs[c].(permissionFile := None) else d.crtcs[c])
  }

  ghost function WithoutHolder(d: Device, sel: Selection, n: nat, i: nat): Connector
    requires i < |d.connectors|
  {
    if i < n && Chosen(sel, i, d.connectors[i]) then d.connectors[i].(permissionCrtc := None, permissionFile := None)
    else d.connectors[i]
  }

  lemma NextDone(d: Device, sel: Selection, n: nat, p: Device, r: Device)
    requires Related(d) && n < |d.connectors| && FirstDone(d, sel, n, p) && WellFormed(p)
    requires r == RevokeIfChosen(p, sel, n)
    ensures FirstDone(d, sel, n + 1, r)
  {
    forall c | 0 <= c < |d.crtcs|
      ensures r.crtcs[c] == if Goes(d, sel, n + 1, c) then d.crtcs[c].(permissionFile := None) else d.crtcs[c]
    {
      NextGoes(d, sel, n, c);
    }
  }

  lemma StepDone(d: Device, sel: Selection, n: nat, p: Device, r: Device)
    requires Related(d) && n < |d.connectors| && p == RevokeFirst(d, sel, n) && r == RevokeFirst(d, sel, n + 1)
    requires FirstDone(d, sel, n, p)
    ensures FirstDone(d, sel, n + 1, r)
  {
    OneMore(d, sel, n);
    NextDone(d, sel, n, p, r);
  }

  lemma NoneDone(d: Device, sel: Selection)
    ensures FirstDone(d, sel, 0, d)
  {
    assert forall c :: !Goes(d, sel, 0, c);
  }

  /** Exactly the chosen connectors among the first `n`, and their CRTCs, lose their
      holder. */
  lemma {:induction false} FirstExact(d: Device, sel: Selection, n: nat)
    requires Related(d) && n <= |d.connectors|
    ensures FirstDone(d, sel, n, RevokeFirst(d, sel, n))
  {
    if n == 0 {
      NoneDone(d, sel);
    } else {
      FirstExact(d, sel, n - 1);
      StepDone(d, sel, n - 1, RevokeFirst(d, sel, n - 1), RevokeFirst(d, sel, n));
    }
  }

  /** With the relation, the loop over CRTCs at the end of a revocation by file finds
      nothing left to clear. */
  lemma FileClearsNothing(d: Device, file: File, dpyId: nat)
    requires Related(d)
    ensures ClearCrtcs(RevokeFirst(d, OfFile(file, dpyId), |d.connectors|), OfFile(file, dpyId)) ==
      RevokeFirst(d, OfFile(file, dpyId), |d.connectors|)
  {
    var sel := OfFile(file, dpyId);
    var r := RevokeFirst(d, sel, |d.connectors|);
    FirstExact(d, sel, |d.connectors|);
    FirstRelated(d, sel, |d.connectors|);
    forall c | 0 <= c < |r.crtcs| ensures !Clears(sel, c, r.crtcs[c]) {
      if r.crtcs[c].permissionFile.Some? {
        var i :| 0 <= i < |r.connectors| && Names(r, i, c);
        assert r.connectors[i].permissionFile == r.crtcs[c].permissionFile;
      }
    }
    assert ClearCrtcs(r, sel).crtcs == r.crtcs;
  }

  /** A revocation by file does what its loop over the connectors does, up to where it
      stops. */
  lemma RevokeIsFirst(d: Device, file: File, dpyId: nat, disables: nat -> bool)
    requires Related(d)
    ensures Revoke(d, file, dpyId, true, disables) ==
      RevokeFirst(d, OfFile(file, dpyId), StopsAt(d, OfFile(file, dpyId), disables, 0))
  {
    FileClearsNothing(d, file, dpyId);
  }

  lemma RevokeKeeps(d: Device, file: File, dpyId: nat, gotState: bool, disables: nat -> bool)
    requires Related(d)
    ensures Related(Revoke(d, file, dpyId, gotState, disables))
  {
    if gotState {
      RevokeIsFirst(d, file, dpyId, disables);
      FirstRelated(d, OfFile(file, dpyId), StopsAt(d, OfFile(file, dpyId), disables, 0));
    }
  }

  // ---- Closing a file

  ghost predicate Mentions(d: Device, file: File) {
    || (exists i :: 0 <= i < |d.connectors| && d.connectors[i].permissionFile == Some(file))
    || (exists c :: 0 <= c < |d.crtcs| && d.crtcs[c].permissionFile == Some(file))
  }

  /** With the relation, a file named by a CRTC is named by a connector. */
  lemma MentionedByConnector(d: Device, file: File)
    requires Related(d) && Mentions(d, file)
    ensures exists i :: 0 <= i < |d.connectors| && d.connectors[i].permissionFile == Some(file)
  {
    if c :| 0 <= c < |d.crtcs| && d.crtcs[c].permissionFile == Some(file) {
      var i :| 0 <= i < |d.connectors| && Names(d, i, c);
      assert d.connectors[i].permissionFile == Some(file);
    }
  }

  /** After a close nothing names the file, exactly if every connector it held could be
      disabled. */
  lemma CloseLeavesNothingIff(d: Device, file: File, gotState: bool, disables: nat -> bool)
    requires Related(d)
    ensures !Mentions(Close(d, file, gotState, disables), file) <==>
      forall i :: 0 <= i < |d.connectors| && d.connectors[i].permissionFile == Some(file) ==> gotState && disables(i)
  {
    var d' := Close(d, file, gotState, disables);
    var sel := OfFile(file, 0);
    var n := StopsAt(d, sel, disables, 0);
    if gotState {
      RevokeIsFirst(d, file, 0, disables);
      FirstExact(d, sel, n);
    }
    RevokeKeeps(d, file, 0, gotState, disables);
    if Mentions(d', file) {
      MentionedByConnector(d', file);
    }
  }

  /** A close touches nothing another file holds. */
  lemma CloseSparesOthers(d: Device, file: File, gotState: bool, disables: nat -> bool)
    requires Related(d)
    ensures Related(Close(d, file, gotState, disables))
    ensures forall i :: 0 <= i < |d.connectors| && d.connectors[i].permissionFile != Some(file) ==>
      Close(d, file, gotState, disables).connectors[i] == d.connectors[i]
    ensures forall c :: 0 <= c < |d.crtcs| && d.crtcs[c].permissionFile != Some(file) ==>
      Close(d, file, gotState, disables).crtcs[c] == d.crtcs[c]
  {
    RevokeKeeps(d, file, 0, gotState, disables);
    if gotState {
      RevokeIsFirst(d, file, 0, disables);
      FirstExact(d, OfFile(file, 0), StopsAt(d, OfFile(file, 0), disables, 0));
    }
  }

  // ---- Revoking a lease

  /** A granted connector whose CRTC is in the list is in the list. */
  ghost predicate ListedTogether(d: Device, connectors: set<nat>, crtcs: set<nat>) {
    forall i :: 0 <= i < |d.connectors| && d.connectors[i].permissionCrtc.Some? ==>
      d.connectors[i].permissionCrtc.value in crtcs ==> i in connectors
  }

  /** The relation survives the revocation of a lease exactly if the lease's objects come
      together. */
  lemma LeaseRelatedIff(d: Device, connectors: set<nat>, crtcs: set<nat>)
    requires Related(d)
    ensures Related(RevokeLease(d, connectors, crtcs)) <==> ListedTogether(d, connectors, crtcs)
  {
    if ListedTogether(d, connectors, crtcs) {
      LeaseRelated(d, connectors, crtcs);
    } else {
      LeaseUnrelated(d, connectors, crtcs);
    }
  }

  lemma LeaseRelated(d: Device, connectors: set<nat>, crtcs: set<nat>)
    requires Related(d) && ListedTogether(d, connectors, crtcs)
    ensures Related(RevokeLease(d, connectors, crtcs))
  {
    var sel := Listed(connectors, crtcs);
    var r := RevokeFirst(d, sel, |d.connectors|);
    FirstExact(d, sel, |d.connectors|);
    FirstRelated(d, sel, |d.connectors|);
    forall c | 0 <= c < |r.crtcs| ensures !Clears(sel, c, r.crtcs[c]) {
      if r.crtcs[c].permissionFile.Some? {
        var i :| 0 <= i < |r.connectors| && Names(r, i, c);
        assert d.connectors[i].permissionCrtc == Some(c);
      }
    }
    assert ClearCrtcs(r, sel).crtcs == r.crtcs;
  }

  lemma LeaseUnrelated(d: Device, connectors: set<nat>, crtcs: set<nat>)
    requires Related(d) && !ListedTogether(d, connectors, crtcs)
    ensures !SameHolder(RevokeLease(d, connectors, crtcs))
  {
    var sel := Listed(connectors, crtcs);
    FirstExact(d, sel, |d.connectors|);
    var i :| 0 <= i < |d.connectors| && d.connectors[i].permissionCrtc.Some? &&
      d.connectors[i].permissionCrtc.value in crtcs && i !in connectors;
    var c := d.connectors[i].permissionCrtc.value;
    assert d.crtcs[c].permissionFile.Some?;
    var d' := RevokeLease(d, connectors, crtcs);
    assert d'.connectors[i] == d.connectors[i] && d'.crtcs[c].permissionFile == None;
  }

  // ---- Every run

  lemma StepRelated(d: Device, op: Operation, d': Device)
    requires Related(d) && Does(d, op, d')
    requires op.Lease? ==> ListedTogether(d, op.connectors, op.crtcs)
    ensures Related(d')
  {
    match op
    case Grant(file, dpyId, visible) =>
      if d' != d {
        var i, c :| 0 <= i < |d.connectors| && 0 <= c < |d.crtcs| && GrantsOn(d, file, dpyId, visible, i, c, d');
        GrantRelated(d, file, dpyId, visible, i, c, d');
      }
    case RevokeCall(file, dpyId, gotState, disables) => RevokeKeeps(d, file, dpyId, gotState, disables);
    case CloseFile(file, gotState, disables) => RevokeKeeps(d, file, 0, gotState, disables);
    case Unplug(i) => RevokeRelated(d, i);
    case Lease(connectors, crtcs) => LeaseRelatedIff(d, connectors, crtcs);
    case Redrive(i, _, _) => RedriveRelated(d, op, d');
  }

  lemma RedriveRelated(d: Device, op: Operation, d': Device)
    requires Related(d) && op.Redrive? && Does(d, op, d')
    ensures Related(d')
  {
    forall c | 0 <= c < |d'.crtcs| && d'.crtcs[c].permissionFile.Some?
      ensures exists k :: 0 <= k < |d'.connectors| && Names(d', k, c)
    {
      var k :| 0 <= k < |d.connectors| && Names(d, k, c);
      assert Names(d', k, c);
    }
  }

  /** The relation holds throughout every run that starts with it and revokes leases as
      wholes. */
  lemma {:induction false} RunRelated(states: seq<Device>, ops: seq<Operation>)
    requires IsRun(states, ops) && Related(states[0])
    requires forall k :: 0 <= k < |ops| && ops[k].Lease? ==> ListedTogether(states[k], ops[k].connectors, ops[k].crtcs)
    ensures forall k :: 0 <= k < |states| ==> Related(states[k])
  {
    for n := 0 to |ops|
      invariant forall k :: 0 <= k <= n ==> Related(states[k])
    {
      StepRelated(states[n], ops[n], states[n + 1]);
    }
  }

  /** A fresh device has the relation. */
  lemma UnheldRelated(d: Device)
    requires WellFormed(d)
    requires forall i :: 0 <= i < |d.connectors| ==>
      d.connectors[i].permissionCrtc == None && d.connectors[i].permissionFile == None
    requires forall c :: 0 <= c < |d.crtcs| ==> d.crtcs[c].permissionFile == None
    ensures Related(d)
  {
  }
}
