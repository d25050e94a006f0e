/** Recovery interrupted between any two effects and planned again, as often as that happens. */
module RecoveryConvergence {
  import opened Core
  import opened Snapshots
  import opened PendingRecovery

  datatype Config = Config(sourceId: string, stateDir: Path, localDir: Path, remoteDir: Path, keepFailed: bool)

  /** What recovery looks at: subvolumes by normal path on the local side, listed snapshots by normal path on
      the target, and the marker. Nothing is assumed of how they came about. */
  datatype Debris = Debris(
    local: map<Path, SnapshotMetadata>,
    remote: map<Path, SnapshotInfo>,
    marker: Option<PendingMarker>)

  ghost predicate Keyed(d: Debris) {
    forall p :: p in d.remote ==> d.remote[p].path == p && Normal(p) == p
  }

  ghost function PendingMetadata(d: Debris): Option<SnapshotMetadata> {
    if d.marker.Some? && d.marker.value.localPath.Some? && Normal(d.marker.value.localPath.value) in d.local
    then Some(d.local[Normal(d.marker.value.localPath.value)]) else None
  }

  /** The input discovery makes of the debris; the inventory may list the snapshots in any order. */
  ghost predicate Reads(c: Config, d: Debris, i: RecoveryInput) {
    && i == RecoveryInput(c.sourceId, c.stateDir, c.localDir, c.remoteDir, d.marker, PendingMetadata(d), i.remote, c.keepFailed)
    && (forall x :: x in i.remote ==> x.path in d.remote && d.remote[x.path] == x)
    && (forall p :: p in d.remote ==> d.remote[p] in i.remote)
  }

  function Apply(e: RecoveryEffect, d: Debris): Debris {
    match e
    case DeletePendingRemote(path) => d.(remote := d.remote - {Normal(path)})
    case DeletePendingLocal(path) => d.(local := d.local - {Normal(path)})
    case ClearPendingMarker(_) => d.(marker := None)
  }

  function ApplyAll(effects: seq<RecoveryEffect>, d: Debris): Debris {
    if effects == [] then d else ApplyAll(effects[1..], Apply(effects[0], d))
  }

  // ---- what recovery is for ----

  /** A snapshot on the target is a copy of the pending one. */
  ghost predicate HasCopy(c: Config, d: Debris, uuid: string) {
    exists p :: p in d.remote && d.remote[p].sourceId == c.sourceId && UuidMatches(uuid, d.remote[p].receivedUuid)
  }

  ghost predicate Attributable(c: Config, d: Debris) {
    && d.marker.Some? && MarkerPathIsValid(d.marker.value, c.sourceId, c.localDir, c.remoteDir)
    && PendingMetadata(d).Some? && PendingMetadata(d).value.isSubvolume
  }

  ghost predicate ForeignFinal(c: Config, d: Debris)
    requires Attributable(c, d)
  {
    var p, uuid := Normal(d.marker.value.finalPath.value), PendingMetadata(d).value.uuid;
    p in d.remote && uuid != "" && !UuidMatches(uuid, d.remote[p].receivedUuid)
  }

  /** Where recovery ends: no marker; nothing but a copy of the pending snapshot at its planned path; and the
      pending snapshot itself only if the target has a copy or the configuration keeps it. */
  ghost function Recovered(c: Config, d: Debris): Debris {
    if !Attributable(c, d) then d.(marker := None)
    else
      var m := d.marker.value;
      Debris(
        if c.keepFailed || HasCopy(c, d, PendingMetadata(d).value.uuid) then d.local else d.local - {Normal(m.localPath.value)},
        if ForeignFinal(c, d) then d.remote - {Normal(m.finalPath.value)} else d.remote,
        None)
  }

  // ---- one uninterrupted recovery ----

  lemma SameCopies(c: Config, d: Debris, i: RecoveryInput, uuid: string)
    requires Reads(c, d, i)
    ensures ContainsReceived(i.remote, c.sourceId, uuid) <==> HasCopy(c, d, uuid)
  {
    if HasCopy(c, d, uuid) {
      var p :| p in d.remote && d.remote[p].sourceId == c.sourceId && UuidMatches(uuid, d.remote[p].receivedUuid);
      var k :| 0 <= k < |i.remote| && i.remote[k] == d.remote[p];
    }
    if ContainsReceived(i.remote, c.sourceId, uuid) {
      var k :| 0 <= k < |i.remote| && i.remote[k].sourceId == c.sourceId && UuidMatches(uuid, i.remote[k].receivedUuid);
      assert d.remote[i.remote[k].path] == i.remote[k];
    }
  }

  lemma SameFinal(c: Config, d: Debris, i: RecoveryInput, path: Path)
    requires Keyed(d) && Reads(c, d, i)
    ensures SnapshotAt(i.remote, path) == if Normal(path) in d.remote then Some(d.remote[Normal(path)]) else None
  {
    SnapshotAtIsThere(i.remote, path);
    var found := SnapshotAt(i.remote, path);
    if found.Some? {
      assert found.value.path in d.remote;
    }
    if Normal(path) in d.remote {
      assert d.remote[Normal(path)] in i.remote;
      assert Normal(d.remote[Normal(path)].path) == Normal(path);
    }
  }

  lemma {:induction false} ApplyConcat(a: seq<RecoveryEffect>, b: seq<RecoveryEffect>, d: Debris)
    ensures ApplyAll(a + b, d) == ApplyAll(b, ApplyAll(a, d))
    decreases |a|
  {
    if a == [] {
      assert a + b == b;
    } else {
      assert (a + b)[1..] == a[1..] + b;
      ApplyConcat(a[1..], b, Apply(a[0], d));
    }
  }

  lemma ApplyThree(dropRemote: bool, dropLocal: bool, finalPath: Path, localPath: Path, markerPath: Path, d: Debris)
    ensures ApplyAll(EffectsOf(dropRemote, dropLocal, finalPath, localPath, markerPath), d) ==
            Debris(if dropLocal then d.local - {Normal(localPath)} else d.local,
                   if dropRemote then d.remote - {Normal(finalPath)} else d.remote, None)
  {
    var remote := if dropRemote then [DeletePendingRemote(finalPath)] else [];
    var local := if dropLocal then [DeletePendingLocal(localPath)] else [];
    var clear := [ClearPendingMarker(markerPath)];
    var d1 := ApplyAll(remote, d);
    var d2 := ApplyAll(local, d1);
    ApplyConcat(remote + local, clear, d);
    ApplyConcat(remote, local, d);
    ApplyOne(DeletePendingRemote(finalPath), d);
    ApplyOne(DeletePendingLocal(localPath), d1);
    ApplyOne(clear[0], d2);
  }

  lemma ApplyOne(e: RecoveryEffect, d: Debris)
    ensures ApplyAll([e], d) == Apply(e, d)
  {
    assert [e][1..] == [];
  }

  lemma DeletionIsForeign(i: RecoveryInput)
    requires Recoverable(i)
    ensures DeletesRemote(i) <==> HoldsForeignCopy(SnapshotAt(i.remote, i.marker.value.finalPath.value), i.pending.value)
  {}

  lemma ForeignAgrees(c: Config, d: Debris, i: RecoveryInput, path: Path)
    requires Keyed(d) && Reads(c, d, i) && i.pending.Some?
    ensures var uuid := i.pending.value.uuid;
            HoldsForeignCopy(SnapshotAt(i.remote, path), i.pending.value) <==>
            Normal(path) in d.remote && uuid != "" && !UuidMatches(uuid, d.remote[Normal(path)].receivedUuid)
  {
    SameFinal(c, d, i, path);
  }

  /** The planner decides by what the target holds, whatever order it was listed in. */
  lemma DecisionsAgree(c: Config, d: Debris, i: RecoveryInput)
    requires Keyed(d) && Reads(c, d, i) && Recoverable(i)
    ensures DeletesRemote(i) <==> ForeignFinal(c, d)
    ensures PendingIsReceived(i) <==> HasCopy(c, d, i.pending.value.uuid)
  {
    SameCopies(c, d, i, i.pending.value.uuid);
    ForeignAgrees(c, d, i, i.marker.value.finalPath.value);
    DeletionIsForeign(i);
  }

  /** Left alone, the planned effects reach the end of recovery, in whatever order discovery listed the target. */
  lemma CompletedRecovery(c: Config, d: Debris, i: RecoveryInput)
    requires Keyed(d) && Reads(c, d, i)
    ensures ApplyAll(RecoveryEffects(i), d) == Recovered(c, d)
  {
    if i.marker.Some? {
      if Recoverable(i) {
        DecisionsAgree(c, d, i);
        ApplyThree(DeletesRemote(i), DeletesLocal(i), i.marker.value.finalPath.value, i.marker.value.localPath.value,
                   MarkerFile(i.stateDir, i.sourceId), d);
      } else {
        ApplyOne(ClearPendingMarker(MarkerFile(i.stateDir, i.sourceId)), d);
      }
    }
  }

  // ---- interruptions ----

  lemma FinalDeletionKeepsEnd(c: Config, d: Debris)
    requires Keyed(d) && Attributable(c, d) && ForeignFinal(c, d)
    ensures Recovered(c, d.(remote := d.remote - {Normal(d.marker.value.finalPath.value)})) == Recovered(c, d)
  {
    var uuid, p := PendingMetadata(d).value.uuid, Normal(d.marker.value.finalPath.value);
    var d' := d.(remote := d.remote - {p});
    assert PendingMetadata(d') == PendingMetadata(d);
    if HasCopy(c, d, uuid) {
      var q :| q in d.remote && d.remote[q].sourceId == c.sourceId && UuidMatches(uuid, d.remote[q].receivedUuid);
      assert q in d'.remote;
    }
  }

  /** One interruption: after any number of the planned effects, recovery still has the same end. */
  lemma InterruptedRecovery(c: Config, d: Debris, i: RecoveryInput, k: nat)
    requires Keyed(d) && Reads(c, d, i) && k <= |RecoveryEffects(i)|
    ensures var d' := ApplyAll(RecoveryEffects(i)[..k], d);
            Keyed(d') && Recovered(c, d') == Recovered(c, d)
  {
    var effects := RecoveryEffects(i);
    if k == |effects| {
      assert effects[..k] == effects;
      CompletedRecovery(c, d, i);
    } else if k > 0 && Recoverable(i) {
      DecisionsAgree(c, d, i);
      PartialRecovery(c, d, i, k);
    }
  }

  lemma PartialRecovery(c: Config, d: Debris, i: RecoveryInput, k: nat)
    requires Keyed(d) && Reads(c, d, i) && Recoverable(i) && 0 < k < |RecoveryEffects(i)|
    requires DeletesRemote(i) <==> ForeignFinal(c, d)
    requires PendingIsReceived(i) <==> HasCopy(c, d, i.pending.value.uuid)
    ensures var d' := ApplyAll(RecoveryEffects(i)[..k], d);
            Keyed(d') && Recovered(c, d') == Recovered(c, d)
  {
    var effects, m := RecoveryEffects(i), i.marker.value;
    ApplyOne(effects[0], d);
    if k == 1 {
      assert effects[..1] == [effects[0]];
      if DeletesRemote(i) {
        FinalDeletionKeepsEnd(c, d);
      }
    } else {
      assert effects[..2] == [effects[0], effects[1]] && effects[..2][1..] == [effects[1]];
      ApplyOne(effects[1], Apply(effects[0], d));
    }
  }

  /** Any number of interrupted attempts, each planned afresh. */
  ghost predicate Attempts(c: Config, states: seq<Debris>, inputs: seq<RecoveryInput>, stops: seq<nat>) {
    && |states| == |inputs| + 1 == |stops| + 1 && Keyed(states[0])
    && forall j :: 0 <= j < |inputs| ==>
         && Reads(c, states[j], inputs[j]) && stops[j] <= |RecoveryEffects(inputs[j])|
         && states[j + 1] == ApplyAll(RecoveryEffects(inputs[j])[..stops[j]], states[j])
  }

  lemma {:induction false} AttemptsKeepEnd(c: Config, states: seq<Debris>, inputs: seq<RecoveryInput>, stops: seq<nat>, n: nat)
    requires Attempts(c, states, inputs, stops) && n <= |inputs|
    ensures Keyed(states[n]) && Recovered(c, states[n]) == Recovered(c, states[0])
  {
    if n > 0 {
      AttemptsKeepEnd(c, states, inputs, stops, n - 1);
      InterruptedRecovery(c, states[n - 1], inputs[n - 1], stops[n - 1]);
    }
  }

  /** However often recovery is interrupted, the attempt that completes leaves what one uninterrupted recovery
      would have left, the marker cleared, and the plan after it has nothing to do. */
  lemma RecoveryConverges(c: Config, states: seq<Debris>, inputs: seq<RecoveryInput>, stops: seq<nat>,
                          last: RecoveryInput, first: RecoveryInput, after: RecoveryInput)
    requires Attempts(c, states, inputs, stops)
    requires Reads(c, states[|inputs|], last) && Reads(c, states[0], first)
    ensures var end := ApplyAll(RecoveryEffects(last), states[|inputs|]);
            && end == ApplyAll(RecoveryEffects(first), states[0])
            && end.marker.None?
            && (Reads(c, end, after) ==> PlanPendingRecovery(after).effects == [])
  {
    AttemptsKeepEnd(c, states, inputs, stops, |inputs|);
    CompletedRecovery(c, states[|inputs|], last);
    CompletedRecovery(c, states[0], first);
  }
}
