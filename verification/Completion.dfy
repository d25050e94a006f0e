/** No planned run gets stuck: whatever state the runs before it left, each of its effects can be performed in turn. */
module Completion {
  import opened Core
  import opened Snapshots
  import opened IncrementalParent
  import opened PendingRecovery
  import opened Retention
  import opened RunPlan
  import opened Repository
  import opened Chain
  import opened History

  /** All the effects can be performed from s, ending in t. */
  ghost predicate Carries(w: Layout, s: State, effects: seq<Effect>, t: State) {
    exists states :: Executes(w, s, effects, states, t) && |states| == |effects| + 1 && states[|effects|] == t
  }

  lemma CarriesNone(w: Layout, s: State)
    ensures Carries(w, s, [], s)
  {
    assert Executes(w, s, [], [s], s);
  }

  lemma CarriesOne(w: Layout, s: State, e: Effect, t: State)
    requires Step(w, s, e, t)
    ensures Carries(w, s, [e], t)
  {
    assert Executes(w, s, [e], [s, t], t);
  }

  lemma CarriesConcat(w: Layout, s: State, a: seq<Effect>, t: State, b: seq<Effect>, u: State)
    requires Carries(w, s, a, t) && Carries(w, t, b, u)
    ensures Carries(w, s, a + b, u)
  {
    var first :| Executes(w, s, a, first, t) && |first| == |a| + 1 && first[|a|] == t;
    var second :| Executes(w, t, b, second, u) && |second| == |b| + 1 && second[|b|] == u;
    var states, effects := first[..|a|] + second, a + b;
    forall k | 0 <= k < |effects| ensures Step(w, states[k], effects[k], states[k + 1]) {
      if k < |a| {
        assert Step(w, first[k], a[k], first[k + 1]);
      } else {
        assert Step(w, second[k - |a|], b[k - |a|], second[k - |a| + 1]);
      }
    }
    assert Executes(w, s, effects, states, u);
  }

  // ---- deletions ----

  /** The snapshots are all there, each at a path of its own. */
  ghost predicate Present(w: Layout, paths: set<Path>, snapshots: seq<SnapshotInfo>) {
    && (forall k :: 0 <= k < |snapshots| ==> w.normal(snapshots[k].path) in paths)
    && (forall j, k :: 0 <= j < k < |snapshots| ==> w.normal(snapshots[j].path) != w.normal(snapshots[k].path))
  }

  function FilesOf(s: State, remote: bool): Files {
    if remote then s.remote else s.local
  }

  function WithFiles(s: State, remote: bool, files: Files): State {
    if remote then s.(remote := files) else s.(local := files)
  }

  /** What is left of a side once the snapshots are deleted. */
  function Pruned(w: Layout, files: Files, snapshots: seq<SnapshotInfo>): Files
    decreases |snapshots|
  {
    if snapshots == [] then files else Pruned(w, files - {w.normal(snapshots[0].path)}, snapshots[1..])
  }

  lemma DeletionStep(w: Layout, s: State, remote: bool, x: SnapshotInfo)
    requires w.normal(x.path) in FilesOf(s, remote)
    ensures Carries(w, s, Deletions([x], remote), WithFiles(s, remote, FilesOf(s, remote) - {w.normal(x.path)}))
  {
    var e := if remote then DeleteRemote(x.path) else DeleteLocal(x.path);
    assert Deletions([x], remote) == [e];
    CarriesOne(w, s, e, WithFiles(s, remote, FilesOf(s, remote) - {w.normal(x.path)}));
  }

  lemma PresentTail(w: Layout, files: Files, snapshots: seq<SnapshotInfo>)
    requires Present(w, files.Keys, snapshots) && snapshots != []
    ensures Present(w, (files - {w.normal(snapshots[0].path)}).Keys, snapshots[1..])
  {}

  lemma DeletionsSplit(w: Layout, s: State, remote: bool, snapshots: seq<SnapshotInfo>)
    requires snapshots != []
    ensures Deletions(snapshots, remote) == Deletions([snapshots[0]], remote) + Deletions(snapshots[1..], remote)
    ensures var next := WithFiles(s, remote, FilesOf(s, remote) - {w.normal(snapshots[0].path)});
            WithFiles(next, remote, Pruned(w, FilesOf(next, remote), snapshots[1..])) == Deleted(w, s, remote, snapshots)
  {}

  ghost function Deleted(w: Layout, s: State, remote: bool, snapshots: seq<SnapshotInfo>): State {
    WithFiles(s, remote, Pruned(w, FilesOf(s, remote), snapshots))
  }

  lemma {:induction false} CarriesDeletions(w: Layout, s: State, remote: bool, snapshots: seq<SnapshotInfo>)
    requires Present(w, FilesOf(s, remote).Keys, snapshots)
    ensures Carries(w, s, Deletions(snapshots, remote), Deleted(w, s, remote, snapshots))
    decreases |snapshots|
  {
    if snapshots == [] {
      CarriesNone(w, s);
      assert Deletions(snapshots, remote) == [];
    } else {
      var next := WithFiles(s, remote, FilesOf(s, remote) - {w.normal(snapshots[0].path)});
      DeletionStep(w, s, remote, snapshots[0]);
      PresentTail(w, FilesOf(s, remote), snapshots);
      CarriesDeletions(w, next, remote, snapshots[1..]);
      DeletionsSplit(w, s, remote, snapshots);
      CarriesConcat(w, s, Deletions([snapshots[0]], remote), next, Deletions(snapshots[1..], remote), Deleted(w, s, remote, snapshots));
    }
  }

  // ---- recovery, cleanup and hooks ----

  ghost function Dropped(w: Layout, s: State, path: Option<Path>, remote: bool): State {
    if path.None? then s else WithFiles(s, remote, FilesOf(s, remote) - {w.normal(path.value)})
  }

  lemma CarriesOptional(w: Layout, s: State, path: Option<Path>, remote: bool)
    requires path.Some? ==> w.normal(path.value) in FilesOf(s, remote)
    ensures Carries(w, s, OptionalEffect(path, remote), Dropped(w, s, path, remote))
  {
    if path.None? {
      CarriesNone(w, s);
    } else {
      var e := if remote then DeleteRemote(path.value) else DeleteLocal(path.value);
      CarriesOne(w, s, e, Dropped(w, s, path, remote));
    }
  }

  ghost function DroppedBoth(w: Layout, s: State, remote: Option<Path>, local: Option<Path>, clears: bool): State {
    var dropped := Dropped(w, Dropped(w, s, remote, true), local, false);
    if clears then dropped.(marker := None) else dropped
  }

  /** The state recovery leaves. */
  ghost function Recovered(w: Layout, s: State, effects: seq<RecoveryEffect>): State {
    DroppedBoth(w, s, RemoteDeletion(effects), LocalDeletion(effects), MarkerClearing(effects) == Some(w.marker))
  }

  ghost predicate DeletionsArePresent(w: Layout, s: State, effects: seq<RecoveryEffect>) {
    && (RemoteDeletion(effects).Some? ==> w.normal(RemoteDeletion(effects).value) in s.remote)
    && (LocalDeletion(effects).Some? ==> w.normal(LocalDeletion(effects).value) in s.local)
  }

  lemma CarriesRecovery(w: Layout, s: State, effects: seq<RecoveryEffect>)
    requires DeletionsArePresent(w, s, effects)
    ensures Carries(w, s, RecoverySteps(effects), Recovered(w, s, effects))
  {
    var remote, local := RemoteDeletion(effects), LocalDeletion(effects);
    var first := Dropped(w, s, remote, true);
    var second := Dropped(w, first, local, false);
    CarriesOptional(w, s, remote, true);
    CarriesOptional(w, first, local, false);
    CarriesConcat(w, s, OptionalEffect(remote, true), first, OptionalEffect(local, false), second);
    var file := MarkerClearing(effects);
    if file.Some? {
      CarriesOne(w, second, ClearMarker(file.value), Recovered(w, s, effects));
      CarriesConcat(w, s, OptionalEffect(remote, true) + OptionalEffect(local, false), second, [ClearMarker(file.value)], Recovered(w, s, effects));
    } else {
      assert RecoverySteps(effects) == OptionalEffect(remote, true) + OptionalEffect(local, false);
    }
  }

  lemma CarriesRecoveryActions(w: Layout, s: State, i: SourceInput, recovery: RecoveryPlan)
    requires DeletionsArePresent(w, s, recovery.effects)
    ensures Carries(w, s, Steps(RecoveryActions(i, recovery)), Recovered(w, s, recovery.effects))
  {
    if recovery.effects == [] {
      CarriesNone(w, s);
    } else {
      StepsOfOne(RecoverPending(i.source.id, recovery));
      CarriesRecovery(w, s, recovery.effects);
    }
  }

  lemma {:induction false} CarriesCalls(w: Layout, s: State, effects: seq<Effect>)
    requires forall k :: 0 <= k < |effects| ==> effects[k] == CallHook
    ensures Carries(w, s, effects, s)
  {
    if effects == [] {
      CarriesNone(w, s);
    } else {
      CarriesOne(w, s, CallHook, s);
      CarriesCalls(w, s, effects[1..]);
      CarriesConcat(w, s, [CallHook], s, effects[1..], s);
      assert effects == [CallHook] + effects[1..];
    }
  }

  lemma CarriesHooks(w: Layout, s: State, sourceId: string, phase: HookPhase, hooks: seq<string>)
    ensures Carries(w, s, Steps(HookActions(sourceId, phase, hooks)), s)
  {
    HookSteps(HookActions(sourceId, phase, hooks));
    CarriesCalls(w, s, Steps(HookActions(sourceId, phase, hooks)));
  }

  ghost function Cleaned(s: State, directory: Path): State {
    s.(incoming := Outside(s.incoming, directory))
  }

  lemma CarriesCleanup(w: Layout, s: State, i: SourceInput)
    ensures Carries(w, s, Steps([CleanupIncoming(i.source.id, IncomingSource(i))]), Cleaned(s, IncomingSource(i)))
  {
    StepsOfOne(CleanupIncoming(i.source.id, IncomingSource(i)));
    CarriesOne(w, s, ClearIncoming(IncomingSource(i)), Cleaned(s, IncomingSource(i)));
  }

  // ---- the snapshot and its transfer ----

  /** A read-only subvolume as discovery will report it. */
  ghost function Report(w: Layout, side: Side, name: string, uuid: string, receivedUuid: string): SnapshotInfo
    requires w.parse(name).Named?
  {
    SnapshotInfo(side, w.sourceId, name, w.parse(name).timestamp, w.parse(name).sequence,
                 if side.Local? then w.local(name) else w.remote(name), true, uuid, receivedUuid)
  }

  ghost function Created(w: Layout, s: State, name: string, runId: string, uuid: string): State
    requires w.parse(name).Named?
  {
    s.(marker := Some(PendingMarker(w.sourceId, Some(w.local(name)), Some(w.remote(name)), runId, 0)),
       local := s.local[w.local(name) := Report(w, Local, name, uuid, "")],
       used := s.used + {uuid}, origin := s.origin[uuid := w.subvolume])
  }

  /** The planned source is the one the layout describes. */
  ghost predicate Belongs(w: Layout, i: SourceInput) {
    i.source.id == w.sourceId && i.source.subvolume == w.subvolume && MarkerFile(i.stateDir, i.source.id) == w.marker
  }

  lemma CarriesCreate(w: Layout, s: State, i: SourceInput, name: string, uuid: string)
    requires NamesPlaced(w) && w.parse(name).Named? && Belongs(w, i)
    requires LocalSnapshot(i, name) == w.local(name) && FinalSnapshot(i, name) == w.remote(name)
    requires w.local(name) !in s.local && uuid != "" && uuid !in s.used
    ensures Carries(w, s, Steps([CreateAction(i, name)]), Created(w, s, name, i.runId, uuid))
  {
    var a := CreateAction(i, name);
    StepsOfOne(a);
    var write := WriteMarker(w.marker, w.sourceId, w.local(name), w.remote(name), i.runId);
    var create := CreateLocal(w.subvolume, w.local(name));
    var t := Created(w, s, name, i.runId, uuid);
    var marked := s.(marker := t.marker);
    CarriesOne(w, s, write, marked);
    assert w.nameOf(w.local(name)) == name;
    CarriesOne(w, marked, create, t);
    CarriesConcat(w, s, [write], marked, [create], t);
    assert ActionSteps(a) == [write] + [create];
  }

  ghost function Landed(s: State, received: Path, uuid: string): State {
    s.(incoming := s.incoming[received := SnapshotMetadata(true, true, "", uuid)])
  }

  ghost function Sent(w: Layout, s: State, name: string, received: Path, uuid: string): State
    requires w.parse(name).Named?
  {
    var landed := Landed(s, received, uuid);
    landed.(remote := s.remote[w.remote(name) := Report(w, Remote, name, "", uuid)], committed := s.committed + [name])
  }

  ghost predicate Sendable(w: Layout, s: State, name: string, parent: Option<Path>, uuid: string) {
    && w.parse(name).Named? && w.remote(name) !in s.remote
    && w.local(name) in s.local && s.local[w.local(name)].uuid == uuid != ""
    && (parent.Some? ==> w.normal(parent.value) in s.local)
  }

  lemma CarriesReceive(w: Layout, s: State, name: string, parent: Option<Path>, received: Path, uuid: string)
    requires Sendable(w, s, name, parent, uuid)
    ensures Carries(w, s, [Receive(w.local(name), parent, received)] + [CheckReceived(w.local(name), received)], Landed(s, received, uuid))
  {
    var landed := Landed(s, received, uuid);
    CarriesOne(w, s, Receive(w.local(name), parent, received), landed);
    CarriesOne(w, landed, CheckReceived(w.local(name), received), landed);
    CarriesConcat(w, s, [Receive(w.local(name), parent, received)], landed, [CheckReceived(w.local(name), received)], landed);
  }

  lemma CarriesCommit(w: Layout, s: State, name: string, received: Path, uuid: string)
    requires NamesPlaced(w) && Sendable(w, s, name, None, uuid)
    ensures Carries(w, Landed(s, received, uuid), [Commit(received, w.remote(name))] + [CheckCommitted(w.local(name), w.remote(name))],
                    Sent(w, s, name, received, uuid))
  {
    var landed, sent := Landed(s, received, uuid), Sent(w, s, name, received, uuid);
    assert w.nameOf(w.remote(name)) == name;
    CarriesOne(w, landed, Commit(received, w.remote(name)), sent);
    CarriesOne(w, sent, CheckCommitted(w.local(name), w.remote(name)), sent);
    CarriesConcat(w, landed, [Commit(received, w.remote(name))], sent, [CheckCommitted(w.local(name), w.remote(name))], sent);
  }

  lemma CarriesTransfer(w: Layout, s: State, i: SourceInput, name: string, parent: Selection, uuid: string)
    requires NamesPlaced(w) && Sendable(w, s, name, ParentPath(parent), uuid)
    requires LocalSnapshot(i, name) == w.local(name) && FinalSnapshot(i, name) == w.remote(name)
    ensures Carries(w, s, Steps(TransferActions(i, name, parent)), Sent(w, s, name, ReceivedSnapshot(i, name), uuid))
  {
    var received := ReceivedSnapshot(i, name);
    TransferSteps(w, i, name, parent);
    CarriesReceive(w, s, name, ParentPath(parent), received, uuid);
    CarriesCommit(w, s, name, received, uuid);
    var receive := [Receive(w.local(name), ParentPath(parent), received)] + [CheckReceived(w.local(name), received)];
    var commit := [Commit(received, w.remote(name))] + [CheckCommitted(w.local(name), w.remote(name))];
    CarriesConcat(w, s, receive, Landed(s, received, uuid), commit, Sent(w, s, name, received, uuid));
  }

  lemma TransferSteps(w: Layout, i: SourceInput, name: string, parent: Selection)
    requires LocalSnapshot(i, name) == w.local(name) && FinalSnapshot(i, name) == w.remote(name)
    ensures var received := ReceivedSnapshot(i, name);
            Steps(TransferActions(i, name, parent)) ==
              [Receive(w.local(name), ParentPath(parent), received)] + [CheckReceived(w.local(name), received)]
              + ([Commit(received, w.remote(name))] + [CheckCommitted(w.local(name), w.remote(name))])
  {
    var t := TransferActions(i, name, parent);
    StepsOfThree(t[0], t[1], t[2]);
    FilenameOfJoin(i.source.localSnapshotDir, name);
  }

  // ---- retention and the last cleanup ----

  ghost function Closed(w: Layout, s: State, i: SourceInput, name: string, local: RetentionPlan, remote: RetentionPlan): State {
    var pruned := Deleted(w, Deleted(w, s, true, remote.deleteSnapshots), false, local.deleteSnapshots);
    Cleaned(Cleaned(pruned, ReceivedSnapshot(i, name)), IncomingRun(i)).(marker := None)
  }

  lemma CarriesClears(w: Layout, s: State, a: Path, b: Path)
    ensures Carries(w, s, [ClearIncoming(a), ClearIncoming(b), ClearMarker(w.marker)], Cleaned(Cleaned(s, a), b).(marker := None))
  {
    var first, second := Cleaned(s, a), Cleaned(Cleaned(s, a), b);
    CarriesOne(w, s, ClearIncoming(a), first);
    CarriesOne(w, first, ClearIncoming(b), second);
    CarriesOne(w, second, ClearMarker(w.marker), second.(marker := None));
    CarriesConcat(w, s, [ClearIncoming(a)], first, [ClearIncoming(b)], second);
    CarriesConcat(w, s, [ClearIncoming(a)] + [ClearIncoming(b)], second, [ClearMarker(w.marker)], second.(marker := None));
    assert [ClearIncoming(a), ClearIncoming(b), ClearMarker(w.marker)] == [ClearIncoming(a)] + [ClearIncoming(b)] + [ClearMarker(w.marker)];
  }

  lemma CarriesClosing(w: Layout, s: State, i: SourceInput, name: string, recovery: RecoveryPlan, local: RetentionPlan, remote: RetentionPlan)
    requires Present(w, s.remote.Keys, remote.deleteSnapshots) && Present(w, s.local.Keys, local.deleteSnapshots)
    requires recovery.markerPath == w.marker
    ensures Carries(w, s, Steps(ClosingActions(i, name, recovery, local, remote)), Closed(w, s, i, name, local, remote))
  {
    ClosingSteps(i, name, recovery, local, remote);
    var first := Deleted(w, s, true, remote.deleteSnapshots);
    var second := Deleted(w, first, false, local.deleteSnapshots);
    CarriesDeletions(w, s, true, remote.deleteSnapshots);
    CarriesDeletions(w, first, false, local.deleteSnapshots);
    CarriesConcat(w, s, Deletions(remote.deleteSnapshots, true), first, Deletions(local.deleteSnapshots, false), second);
    CarriesClears(w, second, ReceivedSnapshot(i, name), IncomingRun(i));
    CarriesConcat(w, s, Deletions(remote.deleteSnapshots, true) + Deletions(local.deleteSnapshots, false), second,
                  [ClearIncoming(ReceivedSnapshot(i, name)), ClearIncoming(IncomingRun(i)), ClearMarker(w.marker)],
                  Closed(w, s, i, name, local, remote));
  }

  /** A run that is carried through leaves nothing in its incoming directory. */
  lemma IncomingIsCleared(w: Layout, s: State, i: SourceInput, name: string, local: RetentionPlan, remote: RetentionPlan)
    ensures forall p :: p in Closed(w, s, i, name, local, remote).incoming ==>
              !Within(p, Join(Join(i.profile.incomingRoot, i.source.id), i.runId))
  {}

  // ---- everything a plan wants to delete is there ----

  lemma DeletedOnce(sourceId: string, current: seq<SnapshotInfo>, removed: Option<Path>, added: SnapshotInfo, plan: RetentionPlan)
    requires Distinct(current) && added !in current
    requires IsRetention(sourceId, Projected(current, removed, added), plan.keepCount, plan)
    ensures Distinct(plan.deleteSnapshots)
  {
    var projected := Projected(current, removed, added);
    forall x ensures multiset(plan.deleteSnapshots)[x] <= 1 {
      DistinctIsOnce(current, x);
      ProjectedOnce(current, removed, added, x);
      assert multiset(plan.deleteSnapshots)[x] <= multiset(Matching(sourceId, projected))[x];
    }
    OnceIsDistinct(plan.deleteSnapshots);
  }

  lemma ProjectedOnce(current: seq<SnapshotInfo>, removed: Option<Path>, added: SnapshotInfo, x: SnapshotInfo)
    requires multiset(current)[x] <= 1 && added !in current
    ensures multiset(Projected(current, removed, added))[x] <= 1
  {
    var rest := if removed.Some? then Without(current, removed.value) else current;
    assert added !in multiset(current);
    assert multiset(rest + [added]) == multiset(rest) + multiset{added};
  }

  ghost predicate FilesAreNormal(w: Layout, files: Files) {
    forall p :: p in files ==> w.normal(p) == p && files[p].path == p
  }

  /** Retention deletes what is there once the new snapshot is, each once and none that recovery has deleted. */
  lemma RetentionIsPresent(w: Layout, files: Files, sourceId: string, current: seq<SnapshotInfo>, removed: Option<Path>,
                           added: SnapshotInfo, plan: RetentionPlan)
    requires FilesAreNormal(w, files) && IsInventory(files, current) && NormallySpelled(w, removed)
    requires IsRetention(sourceId, Projected(current, removed, added), plan.keepCount, plan)
    requires added.path !in files && w.normal(added.path) == added.path
    ensures Present(w, Lacking(w, files, removed).Keys + {added.path}, plan.deleteSnapshots)
  {
    DeletedOnce(sourceId, current, removed, added, plan);
    DeletesListed(sourceId, current, removed, added, plan);
    assert AreListed(current, removed, added, plan.deleteSnapshots);
    ListedArePresent(w, files, current, removed, added, plan.deleteSnapshots);
  }

  ghost predicate AreListed(current: seq<SnapshotInfo>, removed: Option<Path>, added: SnapshotInfo, snapshots: seq<SnapshotInfo>) {
    forall d :: d in snapshots && d != added ==> d in current && (removed.Some? ==> d.path != removed.value)
  }

  lemma ListedArePresent(w: Layout, files: Files, current: seq<SnapshotInfo>, removed: Option<Path>, added: SnapshotInfo,
                         snapshots: seq<SnapshotInfo>)
    requires FilesAreNormal(w, files) && IsInventory(files, current) && NormallySpelled(w, removed)
    requires Distinct(snapshots) && AreListed(current, removed, added, snapshots)
    requires added.path !in files && w.normal(added.path) == added.path
    ensures Present(w, Lacking(w, files, removed).Keys + {added.path}, snapshots)
  {
    forall k | 0 <= k < |snapshots| ensures w.normal(snapshots[k].path) in Lacking(w, files, removed).Keys + {added.path} {
      assert snapshots[k] in snapshots;
    }
    forall j, k | 0 <= j < k < |snapshots| ensures w.normal(snapshots[j].path) != w.normal(snapshots[k].path) {
      assert snapshots[j] in snapshots && snapshots[k] in snapshots && snapshots[j] != snapshots[k];
    }
  }

  /** What recovery deletes is there, and the marker spells it normally. */
  lemma RecoveryIsPresent(w: Layout, s: State, i: RecoveryInput)
    requires Inv(w, s) && PathsNormal(w) && Normalizes(w) && ReadFrom(w, s, i)
    ensures DeletionsArePresent(w, s, RecoveryEffects(i))
    ensures NormallySpelled(w, RemoteDeletion(RecoveryEffects(i))) && NormallySpelled(w, LocalDeletion(RecoveryEffects(i)))
  {
    DeletionsOf(i);
    if Recoverable(i) {
      var name := MarkerPaths(w, s, i);
      assert w.normal(w.local(name)) == w.local(name) && w.normal(w.remote(name)) == w.remote(name);
      SnapshotAtIsThere(i.remote, w.remote(name));
      if DeletesRemote(i) {
        var x := SnapshotAt(i.remote, w.remote(name)).value;
        assert x.path in s.remote && w.normal(w.remote(x.name)) == w.remote(x.name);
      }
    }
  }

  /** What the rest of the run needs once recovery is done. */
  ghost predicate Ready(w: Layout, s: State, p: SourcePlan) {
    && w.local(p.name) !in s.local && w.remote(p.name) !in s.remote
    && (p.parent.Incremental? ==> w.normal(p.parent.localParent.path) in s.local)
    && Present(w, s.remote.Keys + {w.remote(p.name)}, p.remoteRetention.deleteSnapshots)
    && Present(w, s.local.Keys + {w.local(p.name)}, p.localRetention.deleteSnapshots)
  }

  lemma SidesAreNormal(w: Layout, s: State)
    requires LocalFits(w, s.local, s.clock, s.used) && RemoteFits(w, s.remote, s.clock) && PathsNormal(w)
    ensures FilesAreNormal(w, s.local) && FilesAreNormal(w, s.remote)
  {
    forall p | p in s.local ensures w.normal(p) == p && s.local[p].path == p {
      assert w.normal(w.local(s.local[p].name)) == w.local(s.local[p].name);
    }
    forall p | p in s.remote ensures w.normal(p) == p && s.remote[p].path == p {
      assert w.normal(w.remote(s.remote[p].name)) == w.remote(s.remote[p].name);
    }
  }

  ghost function Lacking(w: Layout, files: Files, path: Option<Path>): Files {
    if path.Some? then files - {w.normal(path.value)} else files
  }

  lemma RecoveredSides(w: Layout, s: State, effects: seq<RecoveryEffect>)
    ensures Recovered(w, s, effects).local == Lacking(w, s.local, LocalDeletion(effects))
    ensures Recovered(w, s, effects).remote == Lacking(w, s.remote, RemoteDeletion(effects))
    ensures Recovered(w, s, effects).used == s.used && Recovered(w, s, effects).committed == s.committed
  {
    DroppedSides(w, s, RemoteDeletion(effects), LocalDeletion(effects), MarkerClearing(effects) == Some(w.marker));
  }

  lemma DroppedSides(w: Layout, s: State, remote: Option<Path>, local: Option<Path>, clears: bool)
    ensures var t := DroppedBoth(w, s, remote, local, clears);
            t.local == Lacking(w, s.local, local) && t.remote == Lacking(w, s.remote, remote) && t.used == s.used && t.committed == s.committed
  {}

  lemma RetentionsArePresent(w: Layout, s: State, i: SourceInput, p: SourcePlan)
    requires FilesAreNormal(w, s.local) && FilesAreNormal(w, s.remote)
    requires IsInventory(s.local, i.local) && IsInventory(s.remote, i.remote) && IsSourcePlan(i, p)
    requires NormallySpelled(w, RemoteDeletion(p.recovery.effects)) && NormallySpelled(w, LocalDeletion(p.recovery.effects))
    requires LocalSnapshot(i, p.name) !in s.local && FinalSnapshot(i, p.name) !in s.remote
    requires w.normal(LocalSnapshot(i, p.name)) == LocalSnapshot(i, p.name) && w.normal(FinalSnapshot(i, p.name)) == FinalSnapshot(i, p.name)
    ensures Present(w, Lacking(w, s.local, LocalDeletion(p.recovery.effects)).Keys + {LocalSnapshot(i, p.name)}, p.localRetention.deleteSnapshots)
    ensures Present(w, Lacking(w, s.remote, RemoteDeletion(p.recovery.effects)).Keys + {FinalSnapshot(i, p.name)}, p.remoteRetention.deleteSnapshots)
  {
    var local, remote := LocalDeletion(p.recovery.effects), RemoteDeletion(p.recovery.effects);
    RetentionIsPresent(w, s.local, i.source.id, i.local, local, AddedLocal(i, p.name), p.localRetention);
    RetentionIsPresent(w, s.remote, i.source.id, i.remote, remote, AddedRemote(i, p.name), p.remoteRetention);
  }

  ghost predicate NormallySpelled(w: Layout, path: Option<Path>) {
    path.Some? ==> w.normal(path.value) == path.value
  }

  lemma PlannedRecoveryIsPresent(site: Site, w: Layout, s: State, i: SourceInput)
    requires WellConfigured(site, w) && Inv(w, s) && Discovers(site, w, s, i)
    ensures var effects := RecoveryEffects(RecoveryInputOf(i));
            && DeletionsArePresent(w, s, effects)
            && NormallySpelled(w, RemoteDeletion(effects)) && NormallySpelled(w, LocalDeletion(effects))
    ensures FilesAreNormal(w, s.local) && FilesAreNormal(w, s.remote)
  {
    LayoutFacts(site, w);
    RecoveryIsPresent(w, s, RecoveryInputOf(i));
    SidesAreNormal(w, s);
  }

  ghost predicate ParentStays(w: Layout, s: State, effects: seq<RecoveryEffect>, parent: Selection) {
    parent.Incremental? ==> w.normal(parent.localParent.path) in Lacking(w, s.local, LocalDeletion(effects))
  }

  /** Recovery keeps the local half of the pair the plan sends from. */
  lemma ParentIsKept(w: Layout, s: State, q: Query, i: RecoveryInput, l: SnapshotInfo, r: SnapshotInfo)
    requires LocalFits(w, s.local, s.clock, s.used) && PathsNormal(w) && Normalizes(w)
    requires IsInventory(s.local, q.local) && i.pending == PendingOf(w, s) && i.marker == s.marker
    requires i.remote == q.remote && i.sourceId == q.sourceId && IsSelection(q, Ok(Incremental(l, r)))
    ensures ParentStays(w, s, RecoveryEffects(i), Incremental(l, r))
  {
    assert l.path in s.local && w.normal(w.local(l.name)) == w.local(l.name);
    assert PendingAgreesWith(i, l);
    RecoveryKeepsLocalParent(q, i, l, r);
  }

  lemma PlannedParentStays(site: Site, w: Layout, s: State, i: SourceInput, name: string, parent: Selection)
    requires WellConfigured(site, w) && Inv(w, s) && Discovers(site, w, s, i)
    requires IsSelection(ParentQuery(i, name), Ok(parent))
    ensures ParentStays(w, s, RecoveryEffects(RecoveryInputOf(i)), parent)
  {
    LayoutFacts(site, w);
    if parent.Incremental? {
      ParentIsKept(w, s, ParentQuery(i, name), RecoveryInputOf(i), parent.localParent, parent.remoteParent);
    }
  }

  lemma ReadySides(w: Layout, s: State, p: SourcePlan)
    requires w.local(p.name) !in s.local && w.remote(p.name) !in s.remote
    requires ParentStays(w, s, p.recovery.effects, p.parent)
    requires Present(w, Lacking(w, s.local, LocalDeletion(p.recovery.effects)).Keys + {w.local(p.name)}, p.localRetention.deleteSnapshots)
    requires Present(w, Lacking(w, s.remote, RemoteDeletion(p.recovery.effects)).Keys + {w.remote(p.name)}, p.remoteRetention.deleteSnapshots)
    ensures Ready(w, Recovered(w, s, p.recovery.effects), p)
  {
    RecoveredSides(w, s, p.recovery.effects);
  }

  lemma PlannedPaths(site: Site, w: Layout, i: SourceInput, p: SourcePlan)
    requires WellConfigured(site, w) && i.profile == site.settings && i.source == site.source && IsSourcePlan(i, p)
    ensures LocalSnapshot(i, p.name) == w.local(p.name) && FinalSnapshot(i, p.name) == w.remote(p.name)
    ensures w.normal(w.local(p.name)) == w.local(p.name) && w.normal(w.remote(p.name)) == w.remote(p.name)
  {
    LayoutFacts(site, w);
    assert w.parse(p.name) == ParseName(p.name, i.source.id);
  }

  lemma ReadyAfterRecovery(site: Site, w: Layout, s: State, i: SourceInput, p: SourcePlan)
    requires WellConfigured(site, w) && Inv(w, s) && Discovers(site, w, s, i) && IsSourcePlan(i, p)
    requires w.remote(p.name) !in s.remote
    ensures DeletionsArePresent(w, s, p.recovery.effects) && Ready(w, Recovered(w, s, p.recovery.effects), p)
  {
    PlannedNameIsFree(site, w, s, i, p.name);
    PlannedRecoveryIsPresent(site, w, s, i);
    PlannedParentStays(site, w, s, i, p.name, p.parent);
    PlannedPaths(site, w, i, p);
    RetentionsArePresent(w, s, i, p);
    ReadySides(w, s, p);
  }

  // ---- the whole run ----

  lemma CarriesFive(w: Layout, s0: State, e0: seq<Effect>, s1: State, e1: seq<Effect>, s2: State, e2: seq<Effect>, s3: State,
                    e3: seq<Effect>, s4: State, e4: seq<Effect>, s5: State)
    requires Carries(w, s0, e0, s1) && Carries(w, s1, e1, s2) && Carries(w, s2, e2, s3)
    requires Carries(w, s3, e3, s4) && Carries(w, s4, e4, s5)
    ensures Carries(w, s0, e0 + e1 + e2 + e3 + e4, s5)
  {
    CarriesConcat(w, s0, e0, s1, e1, s2);
    CarriesConcat(w, s0, e0 + e1, s2, e2, s3);
    CarriesConcat(w, s0, e0 + e1 + e2, s3, e3, s4);
    CarriesConcat(w, s0, e0 + e1 + e2 + e3, s4, e4, s5);
  }

  /** The state before the transfer. */
  ghost function Prepared(w: Layout, s: State, i: SourceInput, p: SourcePlan, uuid: string): State
    requires w.parse(p.name).Named?
  {
    Created(w, Cleaned(Recovered(w, s, p.recovery.effects), IncomingSource(i)), p.name, i.runId, uuid)
  }

  /** The state after the commit. */
  ghost function Committed(w: Layout, s: State, i: SourceInput, p: SourcePlan, uuid: string): State
    requires w.parse(p.name).Named?
  {
    Sent(w, Prepared(w, s, i, p, uuid), p.name, ReceivedSnapshot(i, p.name), uuid)
  }

  /** The state after the whole run. */
  ghost function Completed(w: Layout, s: State, i: SourceInput, p: SourcePlan, uuid: string): State
    requires w.parse(p.name).Named?
  {
    Closed(w, Committed(w, s, i, p, uuid), i, p.name, p.localRetention, p.remoteRetention)
  }

  lemma PreparedCanSend(w: Layout, s: State, i: SourceInput, p: SourcePlan, uuid: string)
    requires w.parse(p.name).Named? && uuid != "" && Ready(w, Recovered(w, s, p.recovery.effects), p)
    ensures Sendable(w, Prepared(w, s, i, p, uuid), p.name, ParentPath(p.parent), uuid)
  {}

  lemma CommittedPaths(w: Layout, s: State, i: SourceInput, p: SourcePlan, uuid: string)
    requires w.parse(p.name).Named?
    ensures var s1, u := Recovered(w, s, p.recovery.effects), Committed(w, s, i, p, uuid);
            u.local.Keys == s1.local.Keys + {w.local(p.name)} && u.remote.Keys == s1.remote.Keys + {w.remote(p.name)}
  {}

  /** A layout and a state in which the plan can be carried out. */
  ghost predicate Suited(w: Layout, s: State, i: SourceInput, p: SourcePlan, uuid: string) {
    && NamesPlaced(w) && w.parse(p.name).Named? && Belongs(w, i) && p.recovery.markerPath == w.marker
    && LocalSnapshot(i, p.name) == w.local(p.name) && FinalSnapshot(i, p.name) == w.remote(p.name)
    && DeletionsArePresent(w, s, p.recovery.effects) && Ready(w, Recovered(w, s, p.recovery.effects), p)
    && uuid != "" && uuid !in s.used
  }

  lemma PreparationIsCarried(w: Layout, s: State, i: SourceInput, p: SourcePlan, uuid: string)
    requires Suited(w, s, i, p, uuid)
    ensures Carries(w, s, PreparingSteps(i, p), Prepared(w, s, i, p, uuid))
  {
    var id := i.source.id;
    var s1 := Recovered(w, s, p.recovery.effects);
    var s2 := Cleaned(s1, IncomingSource(i));
    var s3 := Prepared(w, s, i, p, uuid);
    CarriesRecoveryActions(w, s, i, p.recovery);
    CarriesCleanup(w, s1, i);
    CarriesHooks(w, s2, id, BeforeSnapshot, i.profile.beforeSnapshot);
    RecoveredSides(w, s, p.recovery.effects);
    CarriesCreate(w, s2, i, p.name, uuid);
    CarriesHooks(w, s3, id, AfterSnapshot, i.profile.afterSnapshot);
    CarriesFive(w, s, Steps(RecoveryActions(i, p.recovery)), s1, Steps([CleanupIncoming(id, IncomingSource(i))]), s2,
                Steps(HookActions(id, BeforeSnapshot, i.profile.beforeSnapshot)), s2, Steps([CreateAction(i, p.name)]), s3,
                Steps(HookActions(id, AfterSnapshot, i.profile.afterSnapshot)), s3);
  }

  lemma FrontIsCarried(w: Layout, s: State, i: SourceInput, p: SourcePlan, uuid: string)
    requires Suited(w, s, i, p, uuid)
    ensures Carries(w, s, FrontSteps(i, p), Committed(w, s, i, p, uuid))
  {
    var t := Prepared(w, s, i, p, uuid);
    PreparationIsCarried(w, s, i, p, uuid);
    PreparedCanSend(w, s, i, p, uuid);
    CarriesTransfer(w, t, i, p.name, p.parent, uuid);
    CarriesConcat(w, s, PreparingSteps(i, p), t, Steps(TransferActions(i, p.name, p.parent)), Committed(w, s, i, p, uuid));
  }

  lemma BackIsCarried(w: Layout, s: State, i: SourceInput, p: SourcePlan, uuid: string)
    requires Suited(w, s, i, p, uuid)
    ensures Carries(w, Committed(w, s, i, p, uuid), BackSteps(i, p), Completed(w, s, i, p, uuid))
  {
    CommittedPaths(w, s, i, p, uuid);
    CarriesClosing(w, Committed(w, s, i, p, uuid), i, p.name, p.recovery, p.localRetention, p.remoteRetention);
  }

  lemma PlanIsCarried(w: Layout, s: State, i: SourceInput, p: SourcePlan, uuid: string)
    requires Suited(w, s, i, p, uuid)
    requires p.actions == OrderedActions(i, p.name, p.parent, p.recovery, p.localRetention, p.remoteRetention)
    ensures Carries(w, s, Steps(p.actions), Completed(w, s, i, p, uuid))
  {
    StepsOfPlan(i, p);
    FrontIsCarried(w, s, i, p, uuid);
    BackIsCarried(w, s, i, p, uuid);
    CarriesConcat(w, s, FrontSteps(i, p), Committed(w, s, i, p, uuid), BackSteps(i, p), Completed(w, s, i, p, uuid));
  }

  // ---- exactly which runs can be carried through ----

  /** The state in which the run of a plan begins. */
  function Starting(s: State, i: SourceInput): State {
    s.(clock := Later(s.clock, SecondOf(i.now)))
  }

  lemma {:induction false} LongerThanAll(used: set<string>) returns (n: nat)
    ensures forall u :: u in used ==> |u| < n
  {
    n := 0;
    if used != {} {
      var u :| u in used;
      var rest := LongerThanAll(used - {u});
      n := if rest > |u| then rest else |u| + 1;
    }
  }

  lemma UnusedUuid(used: set<string>) returns (uuid: string)
    ensures uuid != "" && uuid !in used
  {
    var n := LongerThanAll(used);
    uuid := seq(n + 1, _ => 'u');
  }

  lemma PlanSuitsState(site: Site, w: Layout, s: State, i: SourceInput, p: SourcePlan, uuid: string, clock: int)
    requires WellConfigured(site, w) && Inv(w, s) && Discovers(site, w, s, i) && IsSourcePlan(i, p)
    requires w.remote(p.name) !in s.remote && uuid != "" && uuid !in s.used
    ensures Suited(w, s.(clock := clock), i, p, uuid)
  {
    NamesArePlaced(site, w);
    ReadyAfterRecovery(site, w, s, i, p);
    assert w.parse(p.name) == ParseName(p.name, i.source.id);
    RecoveredSides(w, s, p.recovery.effects);
    RecoveredSides(w, s.(clock := clock), p.recovery.effects);
  }

  /** The plan was made in this state, and nothing but its UUID is left to chance. */
  ghost predicate Startable(site: Site, w: Layout, s: State, q: Planning, uuid: string)
    requires q.Planned?
  {
    && WellConfigured(site, w) && Inv(w, s) && Discovers(site, w, s, q.input) && SparesNew(q.input, q.plan)
    && w.remote(q.plan.name) !in s.remote && uuid != "" && uuid !in s.used
  }

  /** The run of a plan, carried through with the new snapshot given this UUID. */
  lemma CompleteRun(site: Site, w: Layout, s: State, q: SourceRunPlan, uuid: string) returns (r: RunRecord)
    requires q.Planned? && Startable(site, w, s, q, uuid)
    ensures w.parse(q.plan.name).Named?
    ensures ValidRun(site, w, s, r) && r.planning == q && Completes(r)
    ensures r.end == Completed(w, s.(clock := Later(s.clock, SecondOf(q.input.now))), q.input, q.plan, uuid)
  {
    var i, p := q.input, q.plan;
    var start := Starting(s, i);
    PlanSuitsState(site, w, s, i, p, uuid, start.clock);
    var states := CarriedStates(w, start, i, p, uuid);
    r := RunRecord(q, states, Completed(w, start, i, p, uuid));
  }

  lemma CarriedStates(w: Layout, s: State, i: SourceInput, p: SourcePlan, uuid: string) returns (states: seq<State>)
    requires Suited(w, s, i, p, uuid) && HasActions(i, p)
    ensures Executes(w, s, Steps(p.actions), states, Completed(w, s, i, p, uuid))
    ensures |states| == |Steps(p.actions)| + 1 && states[|Steps(p.actions)|] == Completed(w, s, i, p, uuid)
  {
    PlanIsCarried(w, s, i, p, uuid);
    var end := Completed(w, s, i, p, uuid);
    states :| Executes(w, s, Steps(p.actions), states, end) && |states| == |Steps(p.actions)| + 1 && states[|Steps(p.actions)|] == end;
  }

  lemma ExecutesLonger(w: Layout, s: State, a: seq<Effect>, b: seq<Effect>, states: seq<State>, t: State)
    requires Executes(w, s, a, states, t) && |states| == |a| + 1 && states[|a|] == t
    ensures Executes(w, s, a + b, states, t)
  {}

  /** The run of a plan that stops after its commit. */
  lemma CommittedRun(site: Site, w: Layout, s: State, q: SourceRunPlan, uuid: string) returns (r: RunRecord)
    requires q.Planned? && Startable(site, w, s, q, uuid)
    ensures w.parse(q.plan.name).Named?
    ensures ValidRun(site, w, s, r) && r.planning == q
    ensures r.end == Committed(w, s.(clock := Later(s.clock, SecondOf(q.input.now))), q.input, q.plan, uuid)
  {
    var i, p := q.input, q.plan;
    var start := Starting(s, i);
    PlanSuitsState(site, w, s, i, p, uuid, start.clock);
    FrontIsCarried(w, start, i, p, uuid);
    var end, front := Committed(w, start, i, p, uuid), FrontSteps(i, p);
    var states :| Executes(w, start, front, states, end) && |states| == |front| + 1 && states[|front|] == end;
    ExecutesLonger(w, start, front, BackSteps(i, p), states, end);
    StepsOfPlan(i, p);
    r := RunRecord(q, states, end);
  }

  // ---- a run that stops before its commit is checked ----

  /** The state after a commit whose received UUID is missing. */
  ghost function Unverified(w: Layout, s: State, i: SourceInput, p: SourcePlan, uuid: string): State
    requires w.parse(p.name).Named?
  {
    var t := Prepared(w, s, i, p, uuid);
    Landed(t, ReceivedSnapshot(i, p.name), uuid).(remote := t.remote[w.remote(p.name) := Report(w, Remote, p.name, "", "")])
  }

  ghost function StepsToCommit(w: Layout, i: SourceInput, p: SourcePlan): seq<Effect> {
    var received := ReceivedSnapshot(i, p.name);
    PreparingSteps(i, p)
    + ([Receive(w.local(p.name), ParentPath(p.parent), received)] + [CheckReceived(w.local(p.name), received)] + [Commit(received, w.remote(p.name))])
  }

  lemma UnverifiedIsCarried(w: Layout, s: State, i: SourceInput, p: SourcePlan, uuid: string)
    requires Suited(w, s, i, p, uuid)
    ensures Carries(w, s, StepsToCommit(w, i, p), Unverified(w, s, i, p, uuid))
  {
    var t, end, received := Prepared(w, s, i, p, uuid), Unverified(w, s, i, p, uuid), ReceivedSnapshot(i, p.name);
    var receive := [Receive(w.local(p.name), ParentPath(p.parent), received)] + [CheckReceived(w.local(p.name), received)];
    PreparationIsCarried(w, s, i, p, uuid);
    PreparedCanSend(w, s, i, p, uuid);
    CarriesReceive(w, t, p.name, ParentPath(p.parent), received, uuid);
    assert w.nameOf(w.remote(p.name)) == p.name;
    CarriesOne(w, Landed(t, received, uuid), Commit(received, w.remote(p.name)), end);
    CarriesConcat(w, t, receive, Landed(t, received, uuid), [Commit(received, w.remote(p.name))], end);
    CarriesConcat(w, s, PreparingSteps(i, p), t, receive + [Commit(received, w.remote(p.name))], end);
  }

  ghost function StepsAfterCommit(w: Layout, i: SourceInput, p: SourcePlan): seq<Effect> {
    [CheckCommitted(w.local(p.name), w.remote(p.name))] + BackSteps(i, p)
  }

  lemma StepsAroundCommit(w: Layout, i: SourceInput, p: SourcePlan)
    requires LocalSnapshot(i, p.name) == w.local(p.name) && FinalSnapshot(i, p.name) == w.remote(p.name)
    requires p.actions == OrderedActions(i, p.name, p.parent, p.recovery, p.localRetention, p.remoteRetention)
    ensures Steps(p.actions) == StepsToCommit(w, i, p) + StepsAfterCommit(w, i, p)
  {
    var received := ReceivedSnapshot(i, p.name);
    StepsOfPlan(i, p);
    TransferSteps(w, i, p.name, p.parent);
    Regroup(PreparingSteps(i, p), [Receive(w.local(p.name), ParentPath(p.parent), received)] + [CheckReceived(w.local(p.name), received)],
            [Commit(received, w.remote(p.name))], [CheckCommitted(w.local(p.name), w.remote(p.name))], BackSteps(i, p));
  }

  lemma Regroup(a: seq<Effect>, b: seq<Effect>, c: seq<Effect>, d: seq<Effect>, e: seq<Effect>)
    ensures a + (b + (c + d)) + e == a + (b + c) + (d + e)
  {}

  /** The run of a plan that stops after such a commit. */
  lemma UnverifiedRun(site: Site, w: Layout, s: State, q: SourceRunPlan, uuid: string) returns (r: RunRecord)
    requires q.Planned? && Startable(site, w, s, q, uuid)
    ensures w.parse(q.plan.name).Named?
    ensures ValidRun(site, w, s, r) && r.planning == q
    ensures r.end == Unverified(w, Starting(s, q.input), q.input, q.plan, uuid)
  {
    var i, p := q.input, q.plan;
    var start := Starting(s, i);
    PlanSuitsState(site, w, s, i, p, uuid, start.clock);
    UnverifiedIsCarried(w, start, i, p, uuid);
    StepsAroundCommit(w, i, p);
    r := StoppedRun(w, start, q, StepsToCommit(w, i, p), StepsAfterCommit(w, i, p), Unverified(w, start, i, p, uuid));
  }

  lemma StoppedRun(w: Layout, s: State, q: SourceRunPlan, done: seq<Effect>, rest: seq<Effect>, end: State) returns (r: RunRecord)
    requires q.Planned? && Carries(w, s, done, end) && Steps(q.plan.actions) == done + rest
    ensures r == RunRecord(q, r.states, end) && Executes(w, s, Steps(q.plan.actions), r.states, end)
  {
    var states :| Executes(w, s, done, states, end) && |states| == |done| + 1 && states[|done|] == end;
    ExecutesLonger(w, s, done, rest, states, end);
    r := RunRecord(q, states, end);
  }

  // ---- any plan ----

  /** The plan can be carried through to its last effect, with some outcome of every effect. */
  ghost predicate CanComplete(w: Layout, s: State, i: SourceInput, p: SourcePlan) {
    exists end :: Carries(w, Starting(s, i), Steps(p.actions), end)
  }

  lemma ExecutesFront(w: Layout, s: State, a: seq<Effect>, b: seq<Effect>, states: seq<State>, t: State)
    requires Executes(w, s, a + b, states, t) && |states| == |a + b| + 1
    ensures Executes(w, s, a, states[..|a| + 1], states[|a|])
  {
    var front := states[..|a| + 1];
    forall k | 0 <= k < |a| ensures Step(w, front[k], a[k], front[k + 1]) {
      assert Step(w, states[k], (a + b)[k], states[k + 1]) && (a + b)[k] == a[k];
    }
  }

  lemma CarriesFront(w: Layout, s: State, a: seq<Effect>, b: seq<Effect>, t: State) returns (middle: State)
    requires Carries(w, s, a + b, t)
    ensures Carries(w, s, a, middle)
  {
    var states :| Executes(w, s, a + b, states, t) && |states| == |a + b| + 1 && states[|a + b|] == t;
    ExecutesFront(w, s, a, b, states, t);
    middle := states[|a|];
    assert states[..|a| + 1][|a|] == middle;
  }

  /** A run that gets past its commit found the name free on the target. */
  lemma CommitNeedsFreeName(w: Layout, s: State, r: Run, effects: seq<Effect>, t: State)
    requires NamesPlaced(w) && Reached(w, s, r, Preparing) && Carries(w, s, effects, t)
    requires Suits(w, r, Preparing, effects) && PhaseAfter(Preparing, effects) == Finishing
    ensures !r.blocked
  {
    var states :| Executes(w, s, effects, states, t) && |states| == |effects| + 1 && states[|effects|] == t;
    SuitedRunKeeps(w, s, r, effects, states, t);
  }

  lemma FrontNeedsFreeName(site: Site, w: Layout, s: State, i: SourceInput, p: SourcePlan, t: State)
    requires WellConfigured(site, w) && Inv(w, s) && Discovers(site, w, s, i) && IsSourcePlan(i, p)
    requires Carries(w, Starting(s, i), FrontSteps(i, p), t)
    ensures w.remote(p.name) !in s.remote
  {
    PlanFitsState(site, w, s, i, p);
    NamesArePlaced(site, w);
    RunBegins(w, s, Planned(i, p), SecondOf(i.now));
    FrontSuits(w, s, i, p);
    CommitNeedsFreeName(w, Starting(s, i), RunOf(w, s, Planned(i, p)), FrontSteps(i, p), t);
  }

  lemma CompletedRunWasFree(site: Site, w: Layout, s: State, i: SourceInput, p: SourcePlan)
    requires WellConfigured(site, w) && Inv(w, s) && Discovers(site, w, s, i) && IsSourcePlan(i, p) && CanComplete(w, s, i, p)
    ensures w.remote(p.name) !in s.remote
  {
    var end :| Carries(w, Starting(s, i), Steps(p.actions), end);
    StepsOfPlan(i, p);
    var middle := CarriesFront(w, Starting(s, i), FrontSteps(i, p), BackSteps(i, p), end);
    FrontNeedsFreeName(site, w, s, i, p, middle);
  }

  /** In any state the runs before can leave, a plan can be carried through exactly when the target does not
      hold the planned name, which planning does not look at. */
  lemma RunCompletesIff(site: Site, w: Layout, s: State, i: SourceInput, p: SourcePlan)
    requires WellConfigured(site, w) && Inv(w, s) && Discovers(site, w, s, i) && IsSourcePlan(i, p)
    ensures CanComplete(w, s, i, p) <==> w.remote(p.name) !in s.remote
  {
    if w.remote(p.name) !in s.remote {
      var uuid := UnusedUuid(s.used);
      PlanSuitsState(site, w, s, i, p, uuid, Starting(s, i).clock);
      PlanIsCarried(w, Starting(s, i), i, p, uuid);
    } else if CanComplete(w, s, i, p) {
      CompletedRunWasFree(site, w, s, i, p);
    }
  }

  // ---- when a run carried through leaves its snapshot on both sides ----

  lemma UnsparedRunLosesIt(site: Site, w: Layout, s: State, i: SourceInput, p: SourcePlan, end: State)
    requires WellConfigured(site, w) && Discovers(site, w, s, i) && IsSourcePlan(i, p) && !SparesNew(i, p)
    requires Carries(w, Starting(s, i), Steps(p.actions), end)
    ensures !Linked(w, end.local, end.remote, p.name)
  {
    var states :| Executes(w, Starting(s, i), Steps(p.actions), states, end) && |states| == |Steps(p.actions)| + 1
      && states[|Steps(p.actions)|] == end;
    UnsparedSnapshotIsGone(site, w, Starting(s, i), i, p, states, end);
  }

  lemma SparedRunKeepsIt(site: Site, w: Layout, s: State, q: SourceRunPlan, end: State)
    requires q.Planned? && WellConfigured(site, w) && Inv(w, s) && Discovers(site, w, s, q.input) && SparesNew(q.input, q.plan)
    requires Carries(w, Starting(s, q.input), Steps(q.plan.actions), end)
    ensures Linked(w, end.local, end.remote, q.plan.name)
  {
    var steps := Steps(q.plan.actions);
    var states :| Executes(w, Starting(s, q.input), steps, states, end) && |states| == |steps| + 1 && states[|steps|] == end;
    RunPreserves(site, w, s, RunRecord(q, states, end));
  }

  /** Every run of the plan that is carried through leaves its snapshot on both sides. */
  ghost predicate AlwaysKeepsIt(w: Layout, s: State, i: SourceInput, p: SourcePlan) {
    forall end :: Carries(w, Starting(s, i), Steps(p.actions), end) ==> Linked(w, end.local, end.remote, p.name)
  }

  /** That is so exactly if retention spares the new snapshot, or the plan cannot be carried through at all. */
  lemma KeepsItIff(site: Site, w: Layout, s: State, i: SourceInput, p: SourcePlan)
    requires WellConfigured(site, w) && Inv(w, s) && Discovers(site, w, s, i) && IsSourcePlan(i, p)
    ensures AlwaysKeepsIt(w, s, i, p) <==> SparesNew(i, p) || w.remote(p.name) in s.remote
  {
    RunCompletesIff(site, w, s, i, p);
    if SparesNew(i, p) {
      forall end | Carries(w, Starting(s, i), Steps(p.actions), end) ensures Linked(w, end.local, end.remote, p.name) {
        SparedRunKeepsIt(site, w, s, PlannedFor(i, p), end);
      }
    } else if CanComplete(w, s, i, p) {
      var end :| Carries(w, Starting(s, i), Steps(p.actions), end);
      UnsparedRunLosesIt(site, w, s, i, p, end);
    }
  }
}
