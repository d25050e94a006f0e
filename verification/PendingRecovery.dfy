/** Planning what to do with the marker an interrupted run left behind. */
module PendingRecovery {
  import opened Core
  import opened RuntimeTime
  import opened Snapshots
  import opened IncrementalParent

  /** A path that is empty or relative in the marker file is None: no check accepts either. */
  datatype PendingMarker = PendingMarker(
    sourceId: string,
    localPath: Option<Path>,
    finalPath: Option<Path>,
    runId: string,
    timestamp: TimePoint)

  datatype RecoveryEffect =
    | DeletePendingRemote(path: Path)
    | DeletePendingLocal(path: Path)
    | ClearPendingMarker(markerPath: Path)

  datatype Verdict =
    | NoMarker
    | InvalidMarker
    | MissingLocalSnapshot
    | UnverifiedCommit
    | CommittedSnapshot
    | KeptByConfiguration
    | OrphanedLocalSnapshot

  datatype RecoveryPlan = RecoveryPlan(markerPath: Path, effects: seq<RecoveryEffect>, verdict: Verdict)

  datatype RecoveryInput = RecoveryInput(
    sourceId: string,
    stateDir: Path,
    localDir: Path,
    remoteDir: Path,
    marker: Option<PendingMarker>,
    pending: Option<SnapshotMetadata>,
    remote: seq<SnapshotInfo>,
    keepFailed: bool)

  /** pending_recovery_effect<DeletePendingRemoteSnapshot>: the first such effect, if any. */
  function RemoteDeletion(effects: seq<RecoveryEffect>): Option<Path> {
    if effects == [] then None
    else if effects[0].DeletePendingRemote? then Some(effects[0].path)
    else RemoteDeletion(effects[1..])
  }

  function LocalDeletion(effects: seq<RecoveryEffect>): Option<Path> {
    if effects == [] then None
    else if effects[0].DeletePendingLocal? then Some(effects[0].path)
    else LocalDeletion(effects[1..])
  }

  function MarkerClearing(effects: seq<RecoveryEffect>): Option<Path> {
    if effects == [] then None
    else if effects[0].ClearPendingMarker? then Some(effects[0].markerPath)
    else MarkerClearing(effects[1..])
  }

  ghost predicate ContainsReceived(remote: seq<SnapshotInfo>, sourceId: string, uuid: string) {
    exists i :: 0 <= i < |remote| && remote[i].sourceId == sourceId && UuidMatches(uuid, remote[i].receivedUuid)
  }

  method RemoteContainsReceivedUuid(remote: seq<SnapshotInfo>, sourceId: string, uuid: string) returns (found: bool)
    ensures found == ContainsReceived(remote, sourceId, uuid)
  {
    for i := 0 to |remote|
      invariant forall j :: 0 <= j < i ==> !(remote[j].sourceId == sourceId && UuidMatches(uuid, remote[j].receivedUuid))
    {
      if remote[i].sourceId == sourceId && UuidMatches(uuid, remote[i].receivedUuid) {
        return true;
      }
    }
    return false;
  }

  predicate MarkerPathIsValid(marker: PendingMarker, sourceId: string, localDir: Path, remoteDir: Path) {
    && marker.sourceId == sourceId
    && marker.localPath.Some?
    && var snapshotPath := Normal(marker.localPath.value);
       && Within(snapshotPath, localDir)
       && sourceId + "-" <= Filename(snapshotPath)
       && marker.finalPath.Some?
       && var finalPath := Normal(marker.finalPath.value);
          Within(finalPath, remoteDir) && Filename(finalPath) == Filename(snapshotPath)
  }

  /** The first remote snapshot whose normal path is that of the wanted one. */
  function SnapshotAt(remote: seq<SnapshotInfo>, path: Path): (r: Option<SnapshotInfo>) {
    if remote == [] then None
    else if Normal(remote[0].path) == Normal(path) then Some(remote[0])
    else SnapshotAt(remote[1..], path)
  }

  method RemoteSnapshotAtPath(remote: seq<SnapshotInfo>, path: Path) returns (r: Option<SnapshotInfo>)
    ensures r == SnapshotAt(remote, path)
  {
    var wanted := Normal(path);
    for i := 0 to |remote|
      invariant SnapshotAt(remote, path) == SnapshotAt(remote[i..], path)
    {
      assert remote[i..][1..] == remote[i + 1..];
      if Normal(remote[i].path) == wanted {
        return Some(remote[i]);
      }
    }
    return None;
  }

  function MarkerFile(stateDir: Path, sourceId: string): Path {
    Join(stateDir, "pending-" + sourceId)
  }

  /** The marker's final path holds a snapshot that is not the copy of the pending one. */
  predicate HoldsForeignCopy(final: Option<SnapshotInfo>, pending: SnapshotMetadata) {
    final.Some? && pending.uuid != "" && !UuidMatches(pending.uuid, final.value.receivedUuid)
  }

  ghost predicate PendingIsReceived(i: RecoveryInput)
    requires i.pending.Some?
  {
    ContainsReceived(i.remote, i.sourceId, i.pending.value.uuid)
  }

  /** The marker is one this source could have written and its local snapshot is still there. */
  predicate Recoverable(i: RecoveryInput) {
    && i.marker.Some? && MarkerPathIsValid(i.marker.value, i.sourceId, i.localDir, i.remoteDir)
    && i.pending.Some? && i.pending.value.isSubvolume
  }

  /** What becomes of a pending snapshot: `final` is what its planned target path holds and `received` says
      whether the target holds a copy of it anywhere. */
  function PendingVerdict(pending: SnapshotMetadata, final: Option<SnapshotInfo>, received: bool, keepFailed: bool): Verdict {
    if HoldsForeignCopy(final, pending) then UnverifiedCommit
    else if pending.uuid != "" && received then CommittedSnapshot
    else if keepFailed then KeptByConfiguration
    else OrphanedLocalSnapshot
  }

  predicate DropsLocal(verdict: Verdict, received: bool, keepFailed: bool) {
    verdict == OrphanedLocalSnapshot || (verdict == UnverifiedCommit && !keepFailed && !received)
  }

  function EffectsOf(dropRemote: bool, dropLocal: bool, finalPath: Path, localPath: Path, markerPath: Path): seq<RecoveryEffect> {
    (if dropRemote then [DeletePendingRemote(finalPath)] else [])
    + (if dropLocal then [DeletePendingLocal(localPath)] else [])
    + [ClearPendingMarker(markerPath)]
  }

  ghost function RecoveryVerdict(i: RecoveryInput): Verdict {
    if i.marker.None? then NoMarker
    else if !MarkerPathIsValid(i.marker.value, i.sourceId, i.localDir, i.remoteDir) then InvalidMarker
    else if i.pending.None? || !i.pending.value.isSubvolume then MissingLocalSnapshot
    else PendingVerdict(i.pending.value, SnapshotAt(i.remote, i.marker.value.finalPath.value), PendingIsReceived(i), i.keepFailed)
  }

  ghost function RecoveryEffects(i: RecoveryInput): seq<RecoveryEffect> {
    var markerPath := MarkerFile(i.stateDir, i.sourceId);
    if i.marker.None? then []
    else if !Recoverable(i) then [ClearPendingMarker(markerPath)]
    else
      var verdict := RecoveryVerdict(i);
      EffectsOf(verdict == UnverifiedCommit, DropsLocal(verdict, PendingIsReceived(i), i.keepFailed),
                i.marker.value.finalPath.value, i.marker.value.localPath.value, markerPath)
  }

  ghost function PlanPendingRecovery(i: RecoveryInput): RecoveryPlan {
    RecoveryPlan(MarkerFile(i.stateDir, i.sourceId), RecoveryEffects(i), RecoveryVerdict(i))
  }

  method BuildPendingRecovery(i: RecoveryInput) returns (plan: RecoveryPlan)
    ensures plan == PlanPendingRecovery(i)
  {
    plan := RecoveryPlan(MarkerFile(i.stateDir, i.sourceId), [], NoMarker);
    if i.marker.Some? {
      plan := plan.(effects := plan.effects + [ClearPendingMarker(plan.markerPath)]);
      if !MarkerPathIsValid(i.marker.value, i.sourceId, i.localDir, i.remoteDir) {
        plan := plan.(verdict := InvalidMarker);
      } else if i.pending.None? || !i.pending.value.isSubvolume {
        plan := plan.(verdict := MissingLocalSnapshot);
      } else {
        var final := RemoteSnapshotAtPath(i.remote, i.marker.value.finalPath.value);
        var received := RemoteContainsReceivedUuid(i.remote, i.sourceId, i.pending.value.uuid);
        plan := ResolvePendingSnapshot(plan, i.marker.value, i.pending.value, final, received, i.keepFailed);
      }
    }
  }

  method ResolvePendingSnapshot(base: RecoveryPlan, marker: PendingMarker, pending: SnapshotMetadata,
                                final: Option<SnapshotInfo>, received: bool, keepFailed: bool) returns (plan: RecoveryPlan)
    requires base.effects == [ClearPendingMarker(base.markerPath)]
    requires marker.localPath.Some? && marker.finalPath.Some?
    ensures plan.markerPath == base.markerPath
    ensures plan.verdict == PendingVerdict(pending, final, received, keepFailed)
    ensures plan.effects == EffectsOf(plan.verdict == UnverifiedCommit, DropsLocal(plan.verdict, received, keepFailed),
                                      marker.finalPath.value, marker.localPath.value, base.markerPath)
  {
    plan := base;
    if final.Some? && pending.uuid != "" && !UuidMatches(pending.uuid, final.value.receivedUuid) {
      plan := plan.(effects := [DeletePendingRemote(marker.finalPath.value)] + plan.effects);
      if !keepFailed && !received {
        plan := plan.(effects := plan.effects[..1] + [DeletePendingLocal(marker.localPath.value)] + plan.effects[1..]);
      }
      plan := plan.(verdict := UnverifiedCommit);
    } else if pending.uuid != "" && received {
      plan := plan.(verdict := CommittedSnapshot);
    } else if keepFailed {
      plan := plan.(verdict := KeptByConfiguration);
    } else {
      plan := plan.(effects := [DeletePendingLocal(marker.localPath.value)] + plan.effects, verdict := OrphanedLocalSnapshot);
    }
  }

  // ---- recovery and the incremental parent ----

  /** Discovery reads the pending snapshot's metadata through the path the marker names. */
  ghost predicate PendingAgreesWith(i: RecoveryInput, l: SnapshotInfo) {
    i.marker.Some? && i.marker.value.localPath.Some? && Normal(i.marker.value.localPath.value) == Normal(l.path)
    ==> i.pending.Some? && i.pending.value.uuid == l.uuid
  }

  ghost predicate NormalPathsIdentify(s: seq<SnapshotInfo>) {
    forall a, b :: a in s && b in s && Normal(a.path) == Normal(b.path) ==> a == b
  }

  lemma DeletionsOfEffects(dropRemote: bool, dropLocal: bool, finalPath: Path, localPath: Path, markerPath: Path)
    ensures var effects := EffectsOf(dropRemote, dropLocal, finalPath, localPath, markerPath);
            && RemoteDeletion(effects) == (if dropRemote then Some(finalPath) else None)
            && LocalDeletion(effects) == (if dropLocal then Some(localPath) else None)
            && MarkerClearing(effects) == Some(markerPath)
  {
    var clear := [ClearPendingMarker(markerPath)];
    assert RemoteDeletion(clear) == None && LocalDeletion(clear) == None && MarkerClearing(clear) == Some(markerPath);
    var tail := (if dropLocal then [DeletePendingLocal(localPath)] else []) + clear;
    if dropLocal {
      assert tail[1..] == clear;
    } else {
      assert tail == clear;
    }
    assert RemoteDeletion(tail) == None && LocalDeletion(tail) == (if dropLocal then Some(localPath) else None);
    assert MarkerClearing(tail) == Some(markerPath);
    var effects := EffectsOf(dropRemote, dropLocal, finalPath, localPath, markerPath);
    if dropRemote {
      assert effects[1..] == tail;
    } else {
      assert effects == tail;
    }
  }

  ghost predicate DeletesRemote(i: RecoveryInput) {
    Recoverable(i) && RecoveryVerdict(i) == UnverifiedCommit
  }

  ghost predicate DeletesLocal(i: RecoveryInput) {
    Recoverable(i) && DropsLocal(RecoveryVerdict(i), PendingIsReceived(i), i.keepFailed)
  }

  lemma DeletionsOf(i: RecoveryInput)
    ensures RemoteDeletion(RecoveryEffects(i)) == (if DeletesRemote(i) then i.marker.value.finalPath else None)
    ensures LocalDeletion(RecoveryEffects(i)) == (if DeletesLocal(i) then i.marker.value.localPath else None)
    ensures MarkerClearing(RecoveryEffects(i)) == (if i.marker.Some? then Some(Join(i.stateDir, "pending-" + i.sourceId)) else None)
  {
    var markerPath := MarkerFile(i.stateDir, i.sourceId);
    if Recoverable(i) {
      DeletionsOfEffects(DeletesRemote(i), DeletesLocal(i), i.marker.value.finalPath.value,
                         i.marker.value.localPath.value, markerPath);
    } else {
      assert RemoteDeletion([ClearPendingMarker(markerPath)]) == None;
      assert LocalDeletion([ClearPendingMarker(markerPath)]) == None;
    }
  }

  /** Recovery never deletes the local half of the pair the same plan sends from. */
  lemma RecoveryKeepsLocalParent(q: Query, i: RecoveryInput, l: SnapshotInfo, r: SnapshotInfo)
    requires IsSelection(q, Ok(Incremental(l, r)))
    requires i.remote == q.remote && i.sourceId == q.sourceId
    requires PendingAgreesWith(i, l)
    ensures var deleted := LocalDeletion(PlanPendingRecovery(i).effects);
            deleted.Some? ==> Normal(deleted.value) != Normal(l.path)
  {
    DeletionsOf(i);
    var k :| 0 <= k < |q.remote| && q.remote[k] == r;
    assert ContainsReceived(i.remote, i.sourceId, l.uuid);
  }

  /** It deletes the remote half exactly when the marker, pending on another local snapshot, names its path. */
  lemma RecoveryDeletesRemoteParentIff(q: Query, i: RecoveryInput, l: SnapshotInfo, r: SnapshotInfo)
    requires IsSelection(q, Ok(Incremental(l, r)))
    requires i.remote == q.remote && i.sourceId == q.sourceId && NormalPathsIdentify(q.remote)
    ensures var deleted := RemoteDeletion(PlanPendingRecovery(i).effects);
            (deleted.Some? && Normal(deleted.value) == Normal(r.path)) <==>
            && Recoverable(i)
            && Normal(i.marker.value.finalPath.value) == Normal(r.path)
            && i.pending.value.uuid != "" && i.pending.value.uuid != l.uuid
  {
    DeletionsOf(i);
    if Recoverable(i) && Normal(i.marker.value.finalPath.value) == Normal(r.path) {
      SnapshotAtFinds(i.remote, i.marker.value.finalPath.value, r);
    }
  }

  lemma {:induction false} SnapshotAtIsThere(remote: seq<SnapshotInfo>, path: Path)
    ensures var r := SnapshotAt(remote, path);
            r.Some? ==> r.value in remote && Normal(r.value.path) == Normal(path)
    ensures SnapshotAt(remote, path).None? ==> forall x :: x in remote ==> Normal(x.path) != Normal(path)
  {
    if remote != [] && Normal(remote[0].path) != Normal(path) {
      SnapshotAtIsThere(remote[1..], path);
      assert remote == [remote[0]] + remote[1..];
    }
  }

  lemma SnapshotAtFinds(remote: seq<SnapshotInfo>, path: Path, x: SnapshotInfo)
    requires x in remote && Normal(x.path) == Normal(path) && NormalPathsIdentify(remote)
    ensures SnapshotAt(remote, path) == Some(x)
  {
    SnapshotAtIsThere(remote, path);
  }
}
