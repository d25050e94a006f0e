/** What the actions of a source's plan say, in the terms of the configuration and of what discovery found. */
module PlannedActions {
  import opened Core
  import opened Snapshots
  import opened IncrementalParent
  import opened PendingRecovery
  import opened RunPlan

  // ---- every action ----

  /** Every action of a plan serves its source and its run. */
  lemma EveryActionServes(i: SourceInput, p: SourcePlan)
    requires IsSourcePlan(i, p)
    ensures forall a :: a in p.actions ==> Serves(i, p, a)
  {
    ActionsServe(i, p);
  }

  /** The marker that a plan's cleanup removes is the file that its snapshot writes and that recovery reads. */
  lemma OneMarkerFile(i: SourceInput, p: SourcePlan, a: Action)
    requires IsSourcePlan(i, p) && a in p.actions
    ensures p.recovery.markerPath == Join(i.stateDir, "pending-" + i.source.id)
    ensures a.CleanupSource? ==> a.pendingMarker == Join(i.stateDir, "pending-" + i.source.id)
    ensures a.CreateSnapshot? ==> MarkerFile(a.stateDirectory, a.sourceId) == Join(i.stateDir, "pending-" + i.source.id)
  {
    ActionServes(i, p, a);
  }

  // ---- which actions there are ----

  /** There is one action of the kind, and only one. */
  ghost predicate HoldsOne(actions: seq<Action>, kind: ActionKind) {
    exists k :: OnlyAt(actions, kind, k)
  }

  ghost predicate OnlyAt(actions: seq<Action>, kind: ActionKind, k: int) {
    0 <= k < |actions| && Kind(actions[k]) == kind && forall j :: 0 <= j < |actions| && j != k ==> Kind(actions[j]) != kind
  }

  lemma OneOfItsKind(i: SourceInput, p: SourcePlan, a: Action)
    requires HasActions(i, p) && a in p.actions && !a.RunHook?
    ensures HoldsOne(p.actions, Kind(a))
  {
    OrderedActionsAreValid(i, p.name, p.parent, p.recovery, p.localRetention, p.remoteRetention);
    OnceInOrder(p.actions, a);
  }

  lemma OnceInOrder(actions: seq<Action>, a: Action)
    requires SingletonKinds(actions) && a in actions && !a.RunHook?
    ensures HoldsOne(actions, Kind(a))
  {
    var k :| 0 <= k < |actions| && actions[k] == a;
    forall j | 0 <= j < |actions| && j != k ensures Kind(actions[j]) != Kind(a) {
      if j < k { assert !IsHook(actions[k]); } else { assert !IsHook(actions[k]); }
    }
    assert OnlyAt(actions, Kind(a), k);
  }

  lemma KindsAreComplete(i: SourceInput, p: SourcePlan)
    requires HasActions(i, p)
    ensures HoldsOne(p.actions, CleanupIncomingKind) && HoldsOne(p.actions, CreateSnapshotKind)
    ensures HoldsOne(p.actions, SendReceiveKind) && HoldsOne(p.actions, VerifyReceivedKind) && HoldsOne(p.actions, CommitReceivedKind)
    ensures HoldsOne(p.actions, ApplyRemoteRetentionKind) && HoldsOne(p.actions, ApplyLocalRetentionKind)
    ensures HoldsOne(p.actions, CleanupSourceKind)
    ensures p.recovery.effects != [] ==> HoldsOne(p.actions, RecoverPendingKind)
  {
    Holds(i, p, CleanupIncoming(i.source.id, IncomingSource(i)));
    Holds(i, p, CreateAction(i, p.name));
    TransferIsComplete(i, p);
    RetentionIsComplete(i, p);
    CleanupIsComplete(i, p);
    if p.recovery.effects != [] { Holds(i, p, RecoverPending(i.source.id, p.recovery)); }
  }

  lemma TransferIsComplete(i: SourceInput, p: SourcePlan)
    requires HasActions(i, p)
    ensures HoldsOne(p.actions, SendReceiveKind) && HoldsOne(p.actions, VerifyReceivedKind) && HoldsOne(p.actions, CommitReceivedKind)
  {
    var transfer := TransferActions(i, p.name, p.parent);
    Holds(i, p, transfer[0]);
    Holds(i, p, transfer[1]);
    Holds(i, p, transfer[2]);
  }

  lemma RetentionIsComplete(i: SourceInput, p: SourcePlan)
    requires HasActions(i, p)
    ensures HoldsOne(p.actions, ApplyRemoteRetentionKind) && HoldsOne(p.actions, ApplyLocalRetentionKind)
  {
    Holds(i, p, ApplyRemoteRetention(i.source.id, p.remoteRetention));
    Holds(i, p, ApplyLocalRetention(i.source.id, p.localRetention));
  }

  lemma CleanupIsComplete(i: SourceInput, p: SourcePlan)
    requires HasActions(i, p)
    ensures HoldsOne(p.actions, CleanupSourceKind)
  {
    Holds(i, p, CleanupSource(i.source.id, ReceivedSnapshot(i, p.name), IncomingRun(i), p.recovery.markerPath, i.stateDir));
  }

  lemma Holds(i: SourceInput, p: SourcePlan, a: Action)
    requires HasActions(i, p) && !a.RunHook?
    requires || a in RecoveryActions(i, p.recovery) || a in [CleanupIncoming(i.source.id, IncomingSource(i))]
             || a in [CreateAction(i, p.name)] || a in TransferActions(i, p.name, p.parent)
             || a in ClosingActions(i, p.name, p.recovery, p.localRetention, p.remoteRetention)
    ensures HoldsOne(p.actions, Kind(a))
  {
    InPlan(i, p, a);
    OneOfItsKind(i, p, a);
  }

  /** Every plan snapshots, sends, verifies, commits, expires on both sides and cleans up, each once, recovers once if
      there is something to recover, and runs every hook. */
  lemma PlanIsComplete(i: SourceInput, p: SourcePlan)
    requires IsSourcePlan(i, p)
    ensures HoldsOne(p.actions, CleanupIncomingKind) && HoldsOne(p.actions, CreateSnapshotKind)
    ensures HoldsOne(p.actions, SendReceiveKind) && HoldsOne(p.actions, VerifyReceivedKind) && HoldsOne(p.actions, CommitReceivedKind)
    ensures HoldsOne(p.actions, ApplyRemoteRetentionKind) && HoldsOne(p.actions, ApplyLocalRetentionKind)
    ensures HoldsOne(p.actions, CleanupSourceKind)
    ensures p.recovery.effects != [] ==> HoldsOne(p.actions, RecoverPendingKind)
    ensures forall h :: h in i.profile.beforeSnapshot ==> RunHook(i.source.id, BeforeSnapshot, h) in p.actions
    ensures forall h :: h in i.profile.afterSnapshot ==> RunHook(i.source.id, AfterSnapshot, h) in p.actions
  {
    KindsAreComplete(i, p);
    HooksAreRun(i, p);
  }

  lemma HooksAreRun(i: SourceInput, p: SourcePlan)
    requires HasActions(i, p)
    ensures forall h :: h in i.profile.beforeSnapshot ==> RunHook(i.source.id, BeforeSnapshot, h) in p.actions
    ensures forall h :: h in i.profile.afterSnapshot ==> RunHook(i.source.id, AfterSnapshot, h) in p.actions
  {
    forall h | h in i.profile.beforeSnapshot ensures RunHook(i.source.id, BeforeSnapshot, h) in p.actions {
      HookIsRun(i.source.id, BeforeSnapshot, i.profile.beforeSnapshot, h);
      InPlan(i, p, RunHook(i.source.id, BeforeSnapshot, h));
    }
    forall h | h in i.profile.afterSnapshot ensures RunHook(i.source.id, AfterSnapshot, h) in p.actions {
      HookIsRun(i.source.id, AfterSnapshot, i.profile.afterSnapshot, h);
      InPlan(i, p, RunHook(i.source.id, AfterSnapshot, h));
    }
  }

  lemma HookIsRun(id: string, phase: HookPhase, hooks: seq<string>, h: string)
    requires h in hooks
    ensures RunHook(id, phase, h) in HookActions(id, phase, hooks)
  {
    var k :| 0 <= k < |hooks| && hooks[k] == h;
    assert HookActions(id, phase, hooks)[k] == RunHook(id, phase, h);
  }

  // ---- where a plan may write ----

  /** A plan stays below the target's two roots and keeps its own snapshots off the target; a source that would
      not is refused, for the first of the three reasons. */
  lemma PlansStayInPlace(i: SourceInput, r: Result<SourcePlan, PlanError>)
    requires IsSourcePlanResult(i, r)
    ensures var remote := Within(Append(i.profile.remoteRoot, i.source.remoteSubdir), i.profile.remoteRoot);
            var incoming := Within(Join(i.profile.incomingRoot, i.source.id), i.profile.incomingRoot);
            var onTarget := Within(i.source.localSnapshotDir, i.profile.mountPoint);
            && (r.Ok? ==> remote && incoming && !onTarget)
            && (r == Err(RemoteDirectoryEscapes) <==> !remote)
            && (r == Err(IncomingDirectoryEscapes) <==> remote && !incoming)
            && (r == Err(LocalDirectoryInsideTarget) <==> remote && incoming && onTarget)
  {}

  // ---- the parent ----

  /** The two are the halves of one earlier transfer of this source, and not of the snapshot about to be taken. */
  ghost predicate IsPair(i: SourceInput, name: string, l: SnapshotInfo, r: SnapshotInfo) {
    && l in i.local && r in i.remote && l.sourceId == i.source.id && r.sourceId == i.source.id
    && l.readonly && r.readonly && l.uuid == r.receivedUuid && l.uuid != ""
    && Normal(l.path) != Normal(Join(i.source.localSnapshotDir, name))
  }

  /** A plan sends from the newest pair there is, and sends everything only if there is none; where an incremental
      transfer is required it sends everything only to a target without a snapshot of the source. */
  lemma ParentIsNewestPair(i: SourceInput, p: SourcePlan)
    requires IsSourcePlan(i, p)
    ensures p.parent.Incremental? ==>
      && IsPair(i, p.name, p.parent.localParent, p.parent.remoteParent)
      && forall l, r :: IsPair(i, p.name, l, r) ==> !Older(p.parent.localParent, l)
    ensures p.parent.Full? <==> forall l, r :: !IsPair(i, p.name, l, r)
    ensures p.parent.Full? && i.profile.incrementalRequired ==> forall r :: r in i.remote ==> r.sourceId != i.source.id
  {
    SelectsNewestPair(i, p.name, p.parent);
  }

  lemma SelectsNewestPair(i: SourceInput, name: string, parent: Selection)
    requires IsSelection(ParentQuery(i, name), Ok(parent))
    ensures parent.Incremental? ==>
      && IsPair(i, name, parent.localParent, parent.remoteParent)
      && forall l, r :: IsPair(i, name, l, r) ==> !Older(parent.localParent, l)
    ensures parent.Full? <==> forall l, r :: !IsPair(i, name, l, r)
    ensures parent.Full? && i.profile.incrementalRequired ==> forall r :: r in i.remote ==> r.sourceId != i.source.id
  {
    var q := ParentQuery(i, name);
    forall l, r | l in i.local && r in i.remote ensures IsPair(i, name, l, r) <==> Pair(q, l, r) {}
  }

  // ---- the inventories retention is planned on ----

  /** What discovery will list of the new snapshot at a path, but for its UUIDs. */
  ghost predicate IsNew(i: SourceInput, name: string, path: Path, x: SnapshotInfo) {
    && x.sourceId == i.source.id && x.name == name && x.path == path && x.timestamp == i.now && x.readonly
    && ParseName(name, i.source.id).Named? && ParseName(name, i.source.id).sequence == x.sequence
  }

  /** Retention is planned on what will be there: the listed snapshots but for the one recovery deletes, and the new
      one, on either side. */
  lemma ProjectionsAreWhatWillBe(i: SourceInput, p: SourcePlan)
    requires IsSourcePlan(i, p)
    ensures var taken, removed := AddedLocal(i, p.name), LocalDeletion(p.recovery.effects);
            && taken.side.Local? && IsNew(i, p.name, Join(i.source.localSnapshotDir, p.name), taken)
            && forall x :: x in LocalProjection(i, p.name, p.recovery) <==> x == taken || (x in i.local && Some(x.path) != removed)
    ensures var taken, removed := AddedRemote(i, p.name), RemoteDeletion(p.recovery.effects);
            && taken.side.Remote? && IsNew(i, p.name, Join(Append(i.profile.remoteRoot, i.source.remoteSubdir), p.name), taken)
            && forall x :: x in RemoteProjection(i, p.name, p.recovery) <==> x == taken || (x in i.remote && Some(x.path) != removed)
  {
    ProjectedHolds(i.local, LocalDeletion(p.recovery.effects), AddedLocal(i, p.name));
    ProjectedHolds(i.remote, RemoteDeletion(p.recovery.effects), AddedRemote(i, p.name));
  }

  lemma ProjectedHolds(current: seq<SnapshotInfo>, removed: Option<Path>, added: SnapshotInfo)
    ensures forall x :: x in Projected(current, removed, added) <==> x == added || (x in current && Some(x.path) != removed)
  {}

  // ---- recovery ----

  /** The target holds a copy of the pending snapshot. */
  ghost predicate HoldsPending(i: SourceInput, r: SnapshotInfo) {
    r in i.remote && r.sourceId == i.source.id && i.pending.Some? && r.receivedUuid == i.pending.value.uuid && i.pending.value.uuid != ""
  }

  lemma HeldIsReceived(i: SourceInput, r: SnapshotInfo)
    requires HoldsPending(i, r)
    ensures PendingIsReceived(RecoveryInputOf(i))
  {
    var k :| 0 <= k < |i.remote| && i.remote[k] == r;
    assert UuidMatches(i.pending.value.uuid, i.remote[k].receivedUuid);
  }

  /** A pending snapshot that is to be kept is never deleted, and neither is one the target holds. */
  lemma RecoverySparesLocal(i: SourceInput, p: SourcePlan)
    requires IsSourcePlan(i, p)
    requires i.profile.keepFailedLocalSnapshot || exists r :: HoldsPending(i, r)
    ensures LocalDeletion(p.recovery.effects).None?
  {
    LocalIsSpared(i);
  }

  lemma LocalIsSpared(i: SourceInput)
    requires i.profile.keepFailedLocalSnapshot || exists r :: HoldsPending(i, r)
    ensures LocalDeletion(RecoveryEffects(RecoveryInputOf(i))).None?
  {
    DeletionsOf(RecoveryInputOf(i));
    if !i.profile.keepFailedLocalSnapshot {
      var r :| HoldsPending(i, r);
      HeldIsReceived(i, r);
    }
  }

  /** The path of a deletion: the marker's own, named for the source and inside its directory. */
  ghost predicate IsOwn(i: SourceInput, named: Option<Path>, path: Path, directory: Path) {
    && named == Some(path) && Within(Normal(path), directory) && i.source.id + "-" <= Filename(Normal(path))
  }

  /** Recovery deletes only what the source's own marker names, inside the source's own directories: the pending
      snapshot if it may be dropped and the target has no copy of it, and on the target a snapshot at the marker's
      path that is not that copy. */
  lemma RecoveryDeletesOwn(i: SourceInput, p: SourcePlan)
    requires IsSourcePlan(i, p)
    ensures var local := LocalDeletion(p.recovery.effects);
            local.Some? ==>
              && i.marker.Some? && i.marker.value.sourceId == i.source.id && i.pending.Some? && i.pending.value.isSubvolume
              && IsOwn(i, i.marker.value.localPath, local.value, i.source.localSnapshotDir)
              && !i.profile.keepFailedLocalSnapshot && forall r :: !HoldsPending(i, r)
    ensures var remote := RemoteDeletion(p.recovery.effects);
            remote.Some? ==>
              && i.marker.Some? && i.marker.value.sourceId == i.source.id && i.pending.Some? && i.pending.value.uuid != ""
              && IsOwn(i, i.marker.value.finalPath, remote.value, Append(i.profile.remoteRoot, i.source.remoteSubdir))
              && exists r :: r in i.remote && Normal(r.path) == Normal(remote.value) && r.receivedUuid != i.pending.value.uuid
  {
    OwnLocal(i);
    OwnRemote(i);
  }

  lemma OwnLocal(i: SourceInput)
    ensures var local := LocalDeletion(RecoveryEffects(RecoveryInputOf(i)));
            local.Some? ==>
              && i.marker.Some? && i.marker.value.sourceId == i.source.id && i.pending.Some? && i.pending.value.isSubvolume
              && IsOwn(i, i.marker.value.localPath, local.value, i.source.localSnapshotDir)
              && !i.profile.keepFailedLocalSnapshot && forall r :: !HoldsPending(i, r)
  {
    DeletionsOf(RecoveryInputOf(i));
    if i.profile.keepFailedLocalSnapshot || exists r :: HoldsPending(i, r) { LocalIsSpared(i); }
  }

  lemma OwnRemote(i: SourceInput)
    ensures var remote := RemoteDeletion(RecoveryEffects(RecoveryInputOf(i)));
            remote.Some? ==>
              && i.marker.Some? && i.marker.value.sourceId == i.source.id && i.pending.Some? && i.pending.value.uuid != ""
              && IsOwn(i, i.marker.value.finalPath, remote.value, Append(i.profile.remoteRoot, i.source.remoteSubdir))
              && exists r :: r in i.remote && Normal(r.path) == Normal(remote.value) && r.receivedUuid != i.pending.value.uuid
  {
    DeletionsOf(RecoveryInputOf(i));
    if RemoteDeletion(RecoveryEffects(RecoveryInputOf(i))).Some? {
      SnapshotAtIsThere(i.remote, i.marker.value.finalPath.value);
    }
  }
}
