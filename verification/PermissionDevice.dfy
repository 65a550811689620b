/** The permission fields of a device in place: the loops of grant and revoke. */
module PermissionDevice {
  import opened Common
  import opened PermissionModel
  import opened PermissionExact

  class ModesetDevice {
    var connectors: seq<Connector>
    var crtcs: seq<Crtc>

    ghost function Abstract(): Device
      reads this
    {
      Device(connectors, crtcs)
    }

    ghost predicate Valid()
      reads this
    {
      WellFormed(Abstract())
    }

    constructor (connectors: seq<Connector>, crtcs: seq<Crtc>)
      requires WellFormed(Device(connectors, crtcs))
      ensures Valid() && Abstract() == Device(connectors, crtcs)
    {
      this.connectors, this.crtcs := connectors, crtcs;
    }

    /** `nv_drm_get_head_bit_from_connector`. */
    method GetHeadBit(i: nat) returns (bits: set<nat>)
      requires Valid() && i < |connectors|
      ensures bits == HeadBit(Abstract(), i)
    {
      if connectors[i].stateCrtc.Some? {
        bits := {crtcs[connectors[i].stateCrtc.value].head};
      } else if connectors[i].encoder.Some? && connectors[i].encoder.value.crtc.Some? {
        bits := {crtcs[connectors[i].encoder.value.crtc.value].head};
      } else {
        bits := {};
      }
    }

    method FindConnector(dpyId: nat) returns (target: Option<nat>)
      ensures target.Some? ==> target.value < |connectors| && IsTarget(Abstract(), dpyId, target.value)
      ensures target.None? ==> forall i :: 0 <= i < |connectors| ==> !IsDpy(connectors[i], dpyId)
    {
      for i := 0 to |connectors|
        invariant forall k :: 0 <= k < i ==> !IsDpy(connectors[k], dpyId)
      {
        if IsDpy(connectors[i], dpyId) {
          return Some(i);
        }
      }
      return None;
    }

    /** The heads of the usable CRTCs. */
    method UsableHeads(visible: set<nat>, possible: set<nat>) returns (freeHeads: set<nat>)
      requires Valid()
      ensures forall h :: h in freeHeads <==>
        exists c :: 0 <= c < |crtcs| && Usable(Abstract(), visible, possible, c) && crtcs[c].head == h
    {
      freeHeads := {};
      for c := 0 to |crtcs|
        invariant forall h :: h in freeHeads <==>
          exists e :: 0 <= e < c && Usable(Abstract(), visible, possible, e) && crtcs[e].head == h
      {
        if c in visible && crtcs[c].permissionFile == None && c in possible {
          assert Usable(Abstract(), visible, possible, c);
          freeHeads := freeHeads + {crtcs[c].head};
        }
      }
    }

    /** The heads no connector uses: a CRTC that drives a connector is not on offer. */
    method RemoveUsed(heads: set<nat>) returns (freeHeads: set<nat>)
      requires Valid()
      ensures forall h :: h in freeHeads <==> h in heads && !HeadUsed(Abstract(), h)
      ensures forall c, k :: 0 <= c < |crtcs| && 0 <= k < |connectors| && crtcs[c].head in freeHeads ==>
        DrivenBy(connectors[k]) != Some(c)
    {
      freeHeads := heads;
      for i := 0 to |connectors|
        invariant forall h :: h in freeHeads <==> h in heads && forall k :: 0 <= k < i ==> h !in HeadBit(Abstract(), k)
      {
        var bits := GetHeadBit(i);
        freeHeads := freeHeads - bits;
      }
      forall c, k | 0 <= c < |crtcs| && 0 <= k < |connectors| && crtcs[c].head in freeHeads
        ensures DrivenBy(connectors[k]) != Some(c)
      {
        HeadBitDriven(Abstract(), k, c);
      }
    }

    /** The heads a grant may hand out. */
    method FreeHeads(i: nat, visible: set<nat>, possible: set<nat>) returns (freeHeads: set<nat>)
      requires Valid() && i < |connectors|
      ensures forall c :: 0 <= c < |crtcs| ==>
        (crtcs[c].head in freeHeads <==> Candidate(Abstract(), i, visible, possible, c))
      ensures freeHeads == {} <==> forall c :: 0 <= c < |crtcs| ==> !Candidate(Abstract(), i, visible, possible, c)
    {
      var usable := UsableHeads(visible, possible);
      var target := GetHeadBit(i);
      if target * usable != {} {
        freeHeads := target;
      } else {
        freeHeads := RemoveUsed(usable);
      }
    }

    /** The first CRTC with one of the heads. */
    method FirstCrtc(heads: set<nat>) returns (c: nat)
      requires exists e :: 0 <= e < |crtcs| && crtcs[e].head in heads
      ensures c < |crtcs| && crtcs[c].head in heads && forall e :: 0 <= e < c ==> crtcs[e].head !in heads
    {
      c := 0;
      while crtcs[c].head !in heads
        invariant c < |crtcs| && forall e :: 0 <= e < c ==> crtcs[e].head !in heads
        decreases |crtcs| - c
      {
        assert forall e :: 0 <= e <= c ==> crtcs[e].head !in heads;
        c := c + 1;
      }
    }

    /** `nv_drm_grant_modeset_permission`: `connectorVisible` and `visible` are what the
        file can look up, `accepts` is the answer of NVKMS for a head.  NVKMS is asked about
        the head of the first CRTC that can be handed out, and that CRTC is. */
    method GrantPermission(file: File, dpyId: nat, connectorVisible: bool, visible: set<nat>, accepts: nat -> bool)
      returns (ok: bool, asked: Option<nat>, ghost i: nat, ghost c: nat)
      requires Valid()
      modifies this
      ensures Valid()
      ensures !ok ==> Abstract() == old(Abstract())
      ensures ok <==> asked.Some? && accepts(asked.value)
      ensures asked.Some? <==> connectorVisible && Grantable(old(Abstract()), dpyId, visible)
      ensures asked.Some? ==> i < |old(connectors)| && c < |old(crtcs)| && asked == Some(old(crtcs)[c].head)
      ensures ok ==> GrantsOn(old(Abstract()), file, dpyId, visible, i, c, Abstract())
    {
      ok, asked, i, c := false, None, 0, 0;
      var target := FindConnector(dpyId);
      if target.None? || !connectorVisible {
        return;
      }
      i := target.value;
      if connectors[target.value].permissionFile.Some? {
        return;
      }
      var freeHeads := FreeHeads(target.value, visible, connectors[target.value].encoder.value.possibleCrtcs);
      if freeHeads == {} {
        return;
      }
      var first := FirstCrtc(freeHeads);
      c := first;
      asked := Some(crtcs[first].head);
      assert CanGrant(Abstract(), dpyId, visible, i, c);
      if !accepts(asked.value) {
        return;
      }
      connectors := connectors[target.value :=
        connectors[target.value].(permissionCrtc := Some(first), permissionFile := Some(file))];
      crtcs := crtcs[first := crtcs[first].(permissionFile := Some(file))];
      ok := true;
    }

    /** `nv_drm_connector_revoke_permissions`. */
    method RevokeOne(i: nat)
      requires Valid() && i < |connectors|
      modifies this
      ensures Valid() && Abstract() == RevokeConnector(old(Abstract()), i)
    {
      if connectors[i].permissionCrtc.Some? {
        var c := connectors[i].permissionCrtc.value;
        crtcs := crtcs[c := crtcs[c].(permissionFile := None)];
        connectors := connectors[i := connectors[i].(permissionCrtc := None)];
      }
      connectors := connectors[i := connectors[i].(permissionFile := None)];
    }

    method ClearHolders(sel: Selection)
      requires Valid()
      modifies `crtcs
      ensures Valid() && Abstract() == ClearCrtcs(old(Abstract()), sel)
    {
      for c := 0 to |crtcs|
        invariant |crtcs| == |old(crtcs)|
        invariant forall e :: c <= e < |crtcs| ==> crtcs[e] == old(crtcs)[e]
        invariant forall e :: 0 <= e < c ==> crtcs[e] == ClearCrtcs(old(Abstract()), sel).crtcs[e]
      {
        if Clears(sel, c, crtcs[c]) {
          crtcs := crtcs[c := crtcs[c].(permissionFile := None)];
        }
      }
    }

    /** `nv_drm_revoke_modeset_permission`, without what the atomic commit does. */
    method RevokePermission(file: File, dpyId: nat, gotState: bool, disables: nat -> bool) returns (commits: bool)
      requires Valid()
      modifies this
      ensures Valid() && Abstract() == Revoke(old(Abstract()), file, dpyId, gotState, disables)
      ensures commits <==> gotState && forall i ::
        0 <= i < |old(connectors)| && Chosen(OfFile(file, dpyId), i, old(connectors)[i]) ==> disables(i)
    {
      if !gotState {
        return false;
      }
      var sel := OfFile(file, dpyId);
      var i := 0;
      while i < |connectors|
        invariant i <= |connectors| == |old(connectors)| && Valid()
        invariant Abstract() == RevokeFirst(old(Abstract()), sel, i)
        invariant StopsAt(old(Abstract()), sel, disables, 0) == StopsAt(old(Abstract()), sel, disables, i)
      {
        LaterStay(old(Abstract()), sel, i, i);
        if Chosen(sel, i, connectors[i]) {
          if !disables(i) {
            return false;
          }
          RevokeOne(i);
        }
        i := i + 1;
      }
      ClearHolders(sel);
      return true;
    }

    /** `nv_drm_postclose`. */
    method PostClose(file: File, gotState: bool, disables: nat -> bool)
      requires Valid()
      modifies this
      ensures Valid() && Abstract() == Close(old(Abstract()), file, gotState, disables)
    {
      if |crtcs| > 0 && |connectors| > 0 {
        var _ := RevokePermission(file, 0, gotState, disables);
      }
    }

    /** `nv_drm_finish_revoking_objects`. */
    method FinishRevokingObjects(leasedConnectors: set<nat>, leasedCrtcs: set<nat>)
      requires Valid()
      modifies this
      ensures Valid() && Abstract() == RevokeLease(old(Abstract()), leasedConnectors, leasedCrtcs)
    {
      var sel := Listed(leasedConnectors, leasedCrtcs);
      var i := 0;
      while i < |connectors|
        invariant i <= |connectors| == |old(connectors)| && Valid()
        invariant Abstract() == RevokeFirst(old(Abstract()), sel, i)
      {
        if Chosen(sel, i, connectors[i]) {
          RevokeOne(i);
        }
        i := i + 1;
      }
      ClearHolders(sel);
    }
  }
}
