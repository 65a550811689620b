/** Modeset permissions: which open file may set modes on which connector and CRTC.
    Every operation runs under the device's mode-config locks, so an operation is a
    step.  CRTCs and connectors are indices into the device's lists. */
module PermissionModel {
  import opened Common

  type File = nat

  /** A detected encoder: its display, its `possible_crtcs` mask and the CRTC it drives. */
  datatype Encoder = Encoder(dpyId: nat, possibleCrtcs: set<nat>, crtc: Option<nat>)

  datatype Connector = Connector(
    permissionCrtc: Option<nat>,
    permissionFile: Option<File>,
    stateCrtc: Option<nat>,
    encoder: Option<Encoder>)

  datatype Crtc = Crtc(head: nat, permissionFile: Option<File>)

  datatype Device = Device(connectors: seq<Connector>, crtcs: seq<Crtc>)

  ghost predicate WellFormed(d: Device) {
    && (forall c, e :: 0 <= c < e < |d.crtcs| ==> d.crtcs[c].head != d.crtcs[e].head)
    && (forall i :: 0 <= i < |d.connectors| ==>
          && (d.connectors[i].stateCrtc.Some? ==> d.connectors[i].stateCrtc.value < |d.crtcs|)
          && (d.connectors[i].encoder.Some? && d.connectors[i].encoder.value.crtc.Some? ==>
                d.connectors[i].encoder.value.crtc.value < |d.crtcs|)
          && (d.connectors[i].permissionCrtc.Some? ==> d.connectors[i].permissionCrtc.value < |d.crtcs|))
  }

  // ---- Grant

  /** `nv_drm_get_head_bit_from_connector`, a set of at most one head. */
  function HeadBit(d: Device, i: nat): set<nat>
    requires WellFormed(d) && i < |d.connectors|
  {
    var connector := d.connectors[i];
    if connector.stateCrtc.Some? then {d.crtcs[connector.stateCrtc.value].head}
    else if connector.encoder.Some? && connector.encoder.value.crtc.Some?
    then {d.crtcs[connector.encoder.value.crtc.value].head}
    else {}
  }

  /** A CRTC the file can see, that nobody holds and the connector's encoder can drive. */
  predicate Usable(d: Device, visible: set<nat>, possible: set<nat>, c: nat)
    requires c < |d.crtcs|
  {
    c in visible && d.crtcs[c].permissionFile == None && c in possible
  }

  ghost predicate HeadUsed(d: Device, h: nat)
    requires WellFormed(d)
  {
    exists i :: 0 <= i < |d.connectors| && h in HeadBit(d, i)
  }

  /** The connector is already driven by a CRTC it could be given. */
  ghost predicate OwnUsable(d: Device, i: nat, visible: set<nat>, possible: set<nat>)
    requires WellFormed(d) && i < |d.connectors|
  {
    exists c :: 0 <= c < |d.crtcs| && Usable(d, visible, possible, c) && d.crtcs[c].head in HeadBit(d, i)
  }

  /** What a grant may hand out: the connector's own CRTC if it can, otherwise one that
      drives no connector. */
  ghost predicate Candidate(d: Device, i: nat, visible: set<nat>, possible: set<nat>, c: nat)
    requires WellFormed(d) && i < |d.connectors| && c < |d.crtcs|
  {
    && Usable(d, visible, possible, c)
    && (if OwnUsable(d, i, visible, possible) then d.crtcs[c].head in HeadBit(d, i)
        else !HeadUsed(d, d.crtcs[c].head))
  }

  /** `nv_drm_connector_is_dpy_id`: only a connector with a detected encoder has a display. */
  predicate IsDpy(connector: Connector, dpyId: nat) {
    connector.encoder.Some? && connector.encoder.value.dpyId == dpyId
  }

  predicate IsTarget(d: Device, dpyId: nat, i: nat)
    requires i < |d.connectors|
  {
    IsDpy(d.connectors[i], dpyId) && forall k :: 0 <= k < i ==> !IsDpy(d.connectors[k], dpyId)
  }

  /** The display's connector is free and there is a CRTC for it. */
  ghost predicate Grantable(d: Device, dpyId: nat, visible: set<nat>)
    requires WellFormed(d)
  {
    exists i, c :: 0 <= i < |d.connectors| && 0 <= c < |d.crtcs| && CanGrant(d, dpyId, visible, i, c)
  }

  ghost predicate CanGrant(d: Device, dpyId: nat, visible: set<nat>, i: nat, c: nat)
    requires WellFormed(d) && i < |d.connectors| && c < |d.crtcs|
  {
    && IsTarget(d, dpyId, i)
    && d.connectors[i].permissionFile == None
    && Candidate(d, i, visible, d.connectors[i].encoder.value.possibleCrtcs, c)
  }

  /** Handing CRTC `c` to the connector. */
  function Granted(d: Device, file: File, i: nat, c: nat): Device
    requires i < |d.connectors| && c < |d.crtcs|
  {
    d.(connectors := d.connectors[i := d.connectors[i].(permissionCrtc := Some(c), permissionFile := Some(file))],
       crtcs := d.crtcs[c := d.crtcs[c].(permissionFile := Some(file))])
  }

  /** The ways a grant can end: refused with nothing changed, or the first candidate
      handed out. */
  ghost predicate GrantEnds(d: Device, file: File, dpyId: nat, visible: set<nat>, d': Device)
    requires WellFormed(d)
  {
    d' == d || GrantGives(d, file, dpyId, visible, d')
  }

  ghost predicate GrantGives(d: Device, file: File, dpyId: nat, visible: set<nat>, d': Device)
    requires WellFormed(d)
  {
    exists i, c :: 0 <= i < |d.connectors| && 0 <= c < |d.crtcs| && GrantsOn(d, file, dpyId, visible, i, c, d')
  }

  ghost predicate GrantsOn(d: Device, file: File, dpyId: nat, visible: set<nat>, i: nat, c: nat, d': Device)
    requires WellFormed(d) && i < |d.connectors| && c < |d.crtcs|
  {
    && CanGrant(d, dpyId, visible, i, c)
    && (forall e :: 0 <= e < c ==> !CanGrant(d, dpyId, visible, i, e))
    && d' == Granted(d, file, i, c)
  }

  // ---- Revoke

  /** `nv_drm_connector_revoke_permissions`. */
  function RevokeConnector(d: Device, i: nat): Device
    requires WellFormed(d) && i < |d.connectors|
  {
    var crtc := d.connectors[i].permissionCrtc;
    d.(connectors := d.connectors[i := d.connectors[i].(permissionCrtc := None, permissionFile := None)],
       crtcs := if crtc.Some? then d.crtcs[crtc.value := d.crtcs[crtc.value].(permissionFile := None)] else d.crtcs)
  }

  /** What a revocation is about: a file's connector, or all it holds if the display is
      zero; or the objects of a lease. */
  datatype Selection = OfFile(file: File, dpyId: nat) | Listed(connectors: set<nat>, crtcs: set<nat>)

  predicate Chosen(sel: Selection, i: nat, connector: Connector) {
    match sel
    case OfFile(file, dpyId) => connector.permissionFile == Some(file) && (dpyId == 0 || IsDpy(connector, dpyId))
    case Listed(connectors, _) => connector.permissionFile.Some? && i in connectors
  }

  /** The CRTCs cleared after the connectors. */
  predicate Clears(sel: Selection, c: nat, crtc: Crtc) {
    match sel
    case OfFile(file, dpyId) => crtc.permissionFile == Some(file) && dpyId == 0
    case Listed(_, crtcs) => crtc.permissionFile.Some? && c in crtcs
  }

  function RevokeIfChosen(d: Device, sel: Selection, i: nat): (r: Device)
    requires WellFormed(d) && i < |d.connectors|
    ensures WellFormed(r) && |r.connectors| == |d.connectors| && |r.crtcs| == |d.crtcs|
  {
    if Chosen(sel, i, d.connectors[i]) then RevokeConnector(d, i) else d
  }

  /** The chosen ones among the first `n` connectors, revoked in order. */
  function RevokeFirst(d: Device, sel: Selection, n: nat): (r: Device)
    requires WellFormed(d) && n <= |d.connectors|
    ensures WellFormed(r) && |r.connectors| == |d.connectors| && |r.crtcs| == |d.crtcs|
  {
    if n == 0 then d else RevokeIfChosen(RevokeFirst(d, sel, n - 1), sel, n - 1)
  }

  /** The connectors to come are as they were. */
  lemma {:induction false} LaterStay(d: Device, sel: Selection, n: nat, k: nat)
    requires WellFormed(d) && n <= k < |d.connectors|
    ensures RevokeFirst(d, sel, n).connectors[k] == d.connectors[k]
  {
    if n > 0 {
      LaterStay(d, sel, n - 1, k);
    }
  }

  function ClearCrtcs(d: Device, sel: Selection): (r: Device)
    requires WellFormed(d)
    ensures WellFormed(r) && r.connectors == d.connectors && |r.crtcs| == |d.crtcs|
  {
    d.(crtcs := seq(|d.crtcs|, c requires 0 <= c < |d.crtcs| =>
      if Clears(sel, c, d.crtcs[c]) then d.crtcs[c].(permissionFile := None) else d.crtcs[c]))
  }

  /** Where the loop over the connectors stops: at the first one whose disable fails. */
  function StopsAt(d: Device, sel: Selection, disables: nat -> bool, n: nat): (r: nat)
    requires n <= |d.connectors|
    ensures n <= r <= |d.connectors|
    ensures forall k :: n <= k < r ==> Chosen(sel, k, d.connectors[k]) ==> disables(k)
    ensures r < |d.connectors| ==> Chosen(sel, r, d.connectors[r]) && !disables(r)
    decreases |d.connectors| - n
  {
    if n == |d.connectors| || (Chosen(sel, n, d.connectors[n]) && !disables(n)) then n
    else StopsAt(d, sel, disables, n + 1)
  }

  /** `nv_drm_revoke_modeset_permission`; `gotState` is whether the atomic state could be
      allocated and `disables` which connectors could be added to it. */
  function Revoke(d: Device, file: File, dpyId: nat, gotState: bool, disables: nat -> bool): (r: Device)
    requires WellFormed(d)
    ensures WellFormed(r)
  {
    var sel := OfFile(file, dpyId);
    var n := StopsAt(d, sel, disables, 0);
    if !gotState then d
    else if n < |d.connectors| then RevokeFirst(d, sel, n)
    else ClearCrtcs(RevokeFirst(d, sel, n), sel)
  }

  /** `nv_drm_postclose`. */
  function Close(d: Device, file: File, gotState: bool, disables: nat -> bool): (r: Device)
    requires WellFormed(d)
    ensures WellFormed(r)
  {
    if |d.crtcs| > 0 && |d.connectors| > 0 then Revoke(d, file, 0, gotState, disables) else d
  }

  /** `nv_drm_finish_revoking_objects`. */
  function RevokeLease(d: Device, connectors: set<nat>, crtcs: set<nat>): (r: Device)
    requires WellFormed(d)
    ensures WellFormed(r)
  {
    ClearCrtcs(RevokeFirst(d, Listed(connectors, crtcs), |d.connectors|), Listed(connectors, crtcs))
  }

  /** Detection found the connector disconnected. */
  function HotUnplug(d: Device, i: nat): (r: Device)
    requires WellFormed(d) && i < |d.connectors|
    ensures WellFormed(r)
  {
    if d.connectors[i].permissionFile.Some? then RevokeConnector(d, i) else d
  }

  // ---- Runs

  /** One operation takes a device to the next.  Modesets and detection change what
      drives a connector and nothing about permissions. */
  datatype Operation =
    | Grant(file: File, dpyId: nat, visible: set<nat>)
    | RevokeCall(file: File, dpyId: nat, gotState: bool, disables: nat -> bool)
    | CloseFile(file: File, gotState: bool, disables: nat -> bool)
    | Unplug(i: nat)
    | Lease(connectors: set<nat>, crtcs: set<nat>)
    | Redrive(i: nat, stateCrtc: Option<nat>, encoder: Option<Encoder>)

  ghost predicate Does(d: Device, op: Operation, d': Device)
    requires WellFormed(d)
  {
    match op
    case Grant(file, dpyId, visible) => GrantEnds(d, file, dpyId, visible, d')
    case RevokeCall(file, dpyId, gotState, disables) => d' == Revoke(d, file, dpyId, gotState, disables)
    case CloseFile(file, gotState, disables) => d' == Close(d, file, gotState, disables)
    case Unplug(i) => i < |d.connectors| && d' == HotUnplug(d, i)
    case Lease(connectors, crtcs) => d' == RevokeLease(d, connectors, crtcs)
    case Redrive(i, stateCrtc, encoder) =>
      && i < |d.connectors|
      && d' == d.(connectors := d.connectors[i := d.connectors[i].(stateCrtc := stateCrtc, encoder := encoder)])
      && WellFormed(d')
  }

  /** `states[k]` is the device before operation `k`. */
  ghost predicate IsRun(states: seq<Device>, ops: seq<Operation>) {
    && |states| == |ops| + 1
    && (forall k :: 0 <= k < |states| ==> WellFormed(states[k]))
    && (forall k :: 0 <= k < |ops| ==> Does(states[k], ops[k], states[k + 1]))
  }
}
