/** Any number of runs of one source, each planned from what the last one left and stopping anywhere. */
module History {
  import opened Core
  import opened RuntimeTime
  import opened Snapshots
  import opened IncrementalParent
  import opened PendingRecovery
  import opened Retention
  import opened RunPlan
  import opened Repository
  import opened Chain

  datatype Site = Site(settings: Settings, source: SourceConfig, stateDir: Path)

  function RemoteDir(site: Site): Path {
    Append(site.settings.remoteRoot, site.source.remoteSubdir)
  }

  /** A layout gives the source's own naming, placement and path functions. */
  ghost predicate Faithful(site: Site, w: Layout) {
    && w.sourceId == site.source.id && w.subvolume == site.source.subvolume
    && w.marker == MarkerFile(site.stateDir, site.source.id)
    && (forall n :: w.parse(n) == ParseName(n, site.source.id))
    && (forall n :: w.local(n) == Join(site.source.localSnapshotDir, n))
    && (forall n :: w.remote(n) == Join(RemoteDir(site), n))
    && (forall p :: w.nameOf(p) == Filename(p))
    && (forall p :: w.normal(p) == Normal(p))
  }

  function LayoutOf(site: Site): Layout {
    Layout(
      site.source.id,
      site.source.subvolume,
      MarkerFile(site.stateDir, site.source.id),
      n => ParseName(n, site.source.id),
      n => Join(site.source.localSnapshotDir, n),
      n => Join(RemoteDir(site), n),
      p => Filename(p),
      p => Normal(p))
  }

  lemma EverySiteHasALayout(site: Site)
    ensures Faithful(site, LayoutOf(site))
  {}

  // ---- paths ----

  /** A snapshot directory in normal form, with or without a trailing separator. */
  predicate CleanDir(d: Path) {
    Canonical(if d != [] && d[|d| - 1] == "" then d[..|d| - 1] else d)
  }

  lemma JoinIsClean(d: Path, name: string)
    requires CleanDir(d) && Plain(name)
    ensures Normal(Join(d, name)) == Join(d, name)
  {
    CanonicalIsNormal(Join(d, name));
  }

  lemma FilenameOfJoin(d: Path, name: string)
    ensures Filename(Join(d, name)) == name
  {}

  /** A directory below the root that is written with a trailing separator. */
  predicate EndsOpen(d: Path) {
    |d| > 1 && d[|d| - 1] == ""
  }

  lemma ChildIsWithinIff(d: Path, name: string)
    requires CleanDir(d) && Plain(name)
    ensures Within(Join(d, name), d) <==> !EndsOpen(d)
  {
    JoinIsClean(d, name);
    if d != [] && d[|d| - 1] == "" {
      var front := d[..|d| - 1];
      assert d == front + [""];
      ResolveTrailing(front);
    } else {
      CanonicalIsNormal(d);
    }
  }

  /** The source recognises its own marker exactly when neither directory is written with a trailing separator. */
  lemma OwnMarkerIsValidIff(marker: PendingMarker, sourceId: string, localDir: Path, remoteDir: Path, name: string)
    requires CleanDir(localDir) && CleanDir(remoteDir) && Plain(name) && sourceId + "-" <= name
    requires marker.sourceId == sourceId
    requires marker.localPath == Some(Join(localDir, name)) && marker.finalPath == Some(Join(remoteDir, name))
    ensures MarkerPathIsValid(marker, sourceId, localDir, remoteDir) <==> !EndsOpen(localDir) && !EndsOpen(remoteDir)
  {
    JoinIsClean(localDir, name);
    JoinIsClean(remoteDir, name);
    FilenameOfJoin(localDir, name);
    FilenameOfJoin(remoteDir, name);
    ChildIsWithinIff(localDir, name);
    ChildIsWithinIff(remoteDir, name);
  }

  /** A source "x" whose snapshot directory is written /l/ rejects every marker it writes. */
  lemma TrailingSeparatorRejects(name: string)
    requires Plain(name) && "x-" <= name
    ensures var marker := PendingMarker("x", Some(Join(["l", ""], name)), Some(Join(["t"], name)), "", 0);
            !MarkerPathIsValid(marker, "x", ["l", ""], ["t"])
  {
    var marker := PendingMarker("x", Some(Join(["l", ""], name)), Some(Join(["t"], name)), "", 0);
    assert CleanDir(["l", ""]) && EndsOpen(["l", ""]);
    assert "x" + "-" == "x-";
    OwnMarkerIsValidIff(marker, "x", ["l", ""], ["t"], name);
  }

  lemma NamesArePlaced(site: Site, w: Layout)
    requires Faithful(site, w)
    ensures NamesPlaced(w)
  {
    forall n ensures w.nameOf(w.local(n)) == n && w.nameOf(w.remote(n)) == n {
      FilenameOfJoin(site.source.localSnapshotDir, n);
      FilenameOfJoin(RemoteDir(site), n);
    }
  }

  /** Names of snapshots are plain path components, so their paths are in normal form. */
  ghost predicate PathsNormal(w: Layout) {
    forall n :: w.parse(n).Named? ==> w.normal(w.local(n)) == w.local(n) && w.normal(w.remote(n)) == w.remote(n)
  }

  lemma NamedIsPlain(name: string, sourceId: string)
    requires ParseName(name, sourceId).Named?
    ensures Plain(name)
  {
    assert |name| >= 19;
  }

  lemma PathsAreNormal(site: Site, w: Layout)
    requires Faithful(site, w) && CleanDir(site.source.localSnapshotDir) && CleanDir(RemoteDir(site))
    ensures PathsNormal(w)
  {
    forall n | w.parse(n).Named? ensures w.normal(w.local(n)) == w.local(n) && w.normal(w.remote(n)) == w.remote(n) {
      NamedIsPlain(n, site.source.id);
      JoinIsClean(site.source.localSnapshotDir, n);
      JoinIsClean(RemoteDir(site), n);
    }
  }

  // ---- discovery ----

  /** An inventory lists every snapshot of a side once, in any order. */
  ghost predicate IsInventory(files: Files, inventory: seq<SnapshotInfo>) {
    && (forall x :: x in inventory ==> x.path in files && files[x.path] == x)
    && (forall p :: p in files ==> files[p] in inventory)
    && (forall j, k :: 0 <= j < k < |inventory| ==> inventory[j].path != inventory[k].path)
  }

  /** The metadata discovery reads through the local path of the marker. */
  ghost function PendingOf(w: Layout, s: State): Option<SnapshotMetadata> {
    if s.marker.Some? && s.marker.value.localPath.Some? && w.normal(s.marker.value.localPath.value) in s.local then
      var x := s.local[w.normal(s.marker.value.localPath.value)];
      Some(SnapshotMetadata(true, x.readonly, x.uuid, x.receivedUuid))
    else None
  }

  ghost predicate Discovers(site: Site, w: Layout, s: State, i: SourceInput) {
    && i.profile == site.settings && i.source == site.source && i.stateDir == site.stateDir
    && IsInventory(s.local, i.local) && IsInventory(s.remote, i.remote)
    && i.marker == s.marker && i.pending == PendingOf(w, s)
  }

  function SecondOf(t: TimePoint): int {
    FloorSeconds(t) * NS_PER_SECOND
  }

  // ---- what planning guarantees the run ----

  function Later(a: int, b: int): int {
    if a < b then b else a
  }

  /** A name is taken in the inventory if its path is taken on the local side. */
  lemma UsedNameIsTaken(w: Layout, s: State, local: seq<SnapshotInfo>, name: string)
    requires LocalFits(w, s.local, s.clock, s.used) && NamesPlaced(w) && IsInventory(s.local, local)
    ensures w.local(name) in s.local ==> NameTaken(local, name)
  {
    if w.local(name) in s.local {
      var x := s.local[w.local(name)];
      assert w.nameOf(w.local(name)) == name && x in local;
      var k :| 0 <= k < |local| && local[k] == x;
      assert local[k].name == name;
    }
  }

  lemma RunBegins(w: Layout, s: State, p: Planning, time: int)
    requires Inv(w, s) && p.Planned? && w.local(p.plan.name) !in s.local
    requires w.parse(p.plan.name).Named? && w.parse(p.plan.name).timestamp == time
    ensures Reached(w, s.(clock := Later(s.clock, time)), RunOf(w, s, p), Preparing)
  {
    AdvanceClock(w, s, Later(s.clock, time));
  }

  ghost predicate Normalizes(w: Layout) {
    forall p :: w.normal(p) == Normal(p)
  }

  /** The recovery input is what discovery read from the state. */
  ghost predicate ReadFrom(w: Layout, s: State, i: RecoveryInput) {
    i.sourceId == w.sourceId && i.marker == s.marker && i.pending == PendingOf(w, s) && IsInventory(s.remote, i.remote)
  }

  /** If the marker is for the last commit, discovery sees both its halves. */
  lemma MarkerForTip(w: Layout, s: State, i: RecoveryInput, tip: string)
    requires Inv(w, s) && PathsNormal(w) && Normalizes(w) && ReadFrom(w, s, i)
    requires Tip(s.committed) == Some(tip) && Recoverable(i)
    requires i.marker.value.localPath == Some(w.local(tip)) && i.marker.value.finalPath == Some(w.remote(tip))
    ensures UuidMatches(i.pending.value.uuid, s.remote[w.remote(tip)].receivedUuid)
    ensures SnapshotAt(i.remote, w.remote(tip)) == Some(s.remote[w.remote(tip)])
    ensures PendingIsReceived(i)
  {
    assert w.normal(w.local(tip)) == w.local(tip);
    var copy := s.remote[w.remote(tip)];
    assert copy in i.remote;
    var k :| 0 <= k < |i.remote| && i.remote[k] == copy;
    InventoryFinds(w, s, i.remote, tip);
  }

  lemma InventoryFinds(w: Layout, s: State, inventory: seq<SnapshotInfo>, name: string)
    requires RemoteFits(w, s.remote, s.clock) && PathsNormal(w) && Normalizes(w)
    requires IsInventory(s.remote, inventory) && w.remote(name) in s.remote
    ensures SnapshotAt(inventory, w.remote(name)) == Some(s.remote[w.remote(name)])
  {
    assert NormalPathsIdentify(inventory) by {
      forall x | x in inventory ensures Normal(x.path) == x.path {
        assert w.normal(x.path) == x.path;
      }
    }
    assert s.remote[w.remote(name)] in inventory;
    SnapshotAtFinds(inventory, w.remote(name), s.remote[w.remote(name)]);
  }

  lemma MarkerPaths(w: Layout, s: State, i: RecoveryInput) returns (name: string)
    requires Inv(w, s) && ReadFrom(w, s, i) && i.marker.Some?
    ensures MarkerFor(w, i.marker.value, name) && w.parse(name).Named?
  {
    name :| MarkerFor(w, s.marker.value, name) && Dated(w, name, s.clock);
  }

  /** Recovery deletes neither half of the last commit. */
  lemma RecoverySparesTip(w: Layout, s: State, i: RecoveryInput)
    requires Inv(w, s) && NamesPlaced(w) && PathsNormal(w) && Normalizes(w) && ReadFrom(w, s, i)
    ensures var remote, tip := RemoteDeletion(RecoveryEffects(i)), Tip(s.committed);
            remote.Some? && tip.Some? ==> w.normal(remote.value) != w.remote(tip.value)
    ensures var local, tip := LocalDeletion(RecoveryEffects(i)), Tip(s.committed);
            local.Some? && tip.Some? ==> w.normal(local.value) != w.local(tip.value)
  {
    DeletionsOf(i);
    if Recoverable(i) && Tip(s.committed).Some? {
      var tip := Tip(s.committed).value;
      var name := MarkerPaths(w, s, i);
      assert w.nameOf(w.local(name)) == name && w.nameOf(w.local(tip)) == tip;
      assert w.nameOf(w.remote(name)) == name && w.nameOf(w.remote(tip)) == tip;
      if name == tip {
        MarkerForTip(w, s, i, tip);
      }
    }
  }

  /** Recovery never touches the target's snapshot of a name that is free locally: it deletes a copy only
      while the local half of the same name is there. */
  lemma RecoverySparesFreeName(w: Layout, s: State, i: RecoveryInput, name: string)
    requires Inv(w, s) && NamesPlaced(w) && PathsNormal(w) && Normalizes(w) && ReadFrom(w, s, i)
    requires w.local(name) !in s.local
    ensures var remote := RemoteDeletion(RecoveryEffects(i));
            remote.Some? ==> w.normal(remote.value) != w.remote(name)
  {
    DeletionsOf(i);
    if Recoverable(i) {
      var pending := MarkerPaths(w, s, i);
      assert w.normal(w.local(pending)) == w.local(pending) && w.normal(w.remote(pending)) == w.remote(pending);
      assert w.nameOf(w.remote(pending)) == pending && w.nameOf(w.remote(name)) == name;
    }
  }

  // ---- the effects of a plan suit the run ----

  lemma {:induction false} SuitsEach(w: Layout, r: Run, phase: Phase, effects: seq<Effect>)
    requires forall k :: 0 <= k < |effects| ==> Allowed(w, r, phase, effects[k]) && Next(phase, effects[k]) == phase
    ensures Suits(w, r, phase, effects) && PhaseAfter(phase, effects) == phase
    decreases |effects|
  {
    if effects != [] {
      SuitsEach(w, r, phase, effects[1..]);
    }
  }

  /** Deletions that spare the last commit found at the start, and the target's snapshot of the run's name. */
  ghost predicate SparesTip(w: Layout, r: Run, effects: seq<RecoveryEffect>) {
    var remote, local, tip := RemoteDeletion(effects), LocalDeletion(effects), Tip(r.committed);
    && (remote.Some? ==> w.normal(remote.value) != w.remote(r.name))
    && (remote.Some? && tip.Some? ==> w.normal(remote.value) != w.remote(tip.value))
    && (local.Some? && tip.Some? ==> w.normal(local.value) != w.local(tip.value))
  }

  lemma RecoveryStepsSuit(w: Layout, r: Run, effects: seq<RecoveryEffect>)
    requires SparesTip(w, r, effects)
    ensures Suits(w, r, Preparing, RecoverySteps(effects)) && PhaseAfter(Preparing, RecoverySteps(effects)) == Preparing
  {
    SuitsEach(w, r, Preparing, RecoverySteps(effects));
  }

  lemma {:induction false} HookSteps(actions: seq<Action>)
    requires forall k :: 0 <= k < |actions| ==> actions[k].RunHook?
    ensures |Steps(actions)| == |actions| && forall k :: 0 <= k < |actions| ==> Steps(actions)[k] == CallHook
  {
    if actions != [] {
      HookSteps(actions[1..]);
    }
  }

  lemma HooksSuit(w: Layout, r: Run, phase: Phase, actions: seq<Action>)
    requires phase.Preparing? || phase.Snapshotted?
    requires forall k :: 0 <= k < |actions| ==> actions[k].RunHook?
    ensures Suits(w, r, phase, Steps(actions)) && PhaseAfter(phase, Steps(actions)) == phase
  {
    HookSteps(actions);
    SuitsEach(w, r, phase, Steps(actions));
  }

  lemma StepsOfOne(a: Action)
    ensures Steps([a]) == ActionSteps(a)
  {
    assert Steps([a][1..]) == [];
  }

  lemma StepsOfThree(a: Action, b: Action, c: Action)
    ensures Steps([a, b, c]) == ActionSteps(a) + ActionSteps(b) + ActionSteps(c)
  {
    StepsOfOne(c);
    assert [a, b, c][1..] == [b, c] && [b, c][1..] == [c];
  }

  lemma SuitsOne(w: Layout, r: Run, phase: Phase, e: Effect)
    requires Allowed(w, r, phase, e)
    ensures Suits(w, r, phase, [e]) && PhaseAfter(phase, [e]) == Next(phase, e)
  {
    assert [e][1..] == [];
  }

  lemma CreateSuits(w: Layout, r: Run, i: SourceInput)
    requires i.source.id == w.sourceId && i.source.subvolume == w.subvolume && MarkerFile(i.stateDir, i.source.id) == w.marker
    requires LocalSnapshot(i, r.name) == w.local(r.name) && FinalSnapshot(i, r.name) == w.remote(r.name)
    ensures var steps := Steps([CreateAction(i, r.name)]);
            Suits(w, r, Preparing, steps) && PhaseAfter(Preparing, steps) == Snapshotted
  {
    var a := CreateAction(i, r.name);
    StepsOfOne(a);
    var write := WriteMarker(w.marker, w.sourceId, w.local(r.name), w.remote(r.name), i.runId);
    var create := CreateLocal(w.subvolume, w.local(r.name));
    SuitsOne(w, r, Preparing, write);
    SuitsOne(w, r, Preparing, create);
    SuitsConcat(w, r, Preparing, [write], [create]);
    assert ActionSteps(a) == [write] + [create];
  }

  lemma TransferEffectsSuit(w: Layout, r: Run, parent: Option<Path>)
    ensures var steps := [Receive(w.local(r.name), parent, r.received)] + [CheckReceived(w.local(r.name), r.received)]
                         + ([Commit(r.received, w.remote(r.name))] + [CheckCommitted(w.local(r.name), w.remote(r.name))]);
            Suits(w, r, Snapshotted, steps) && PhaseAfter(Snapshotted, steps) == Finishing
  {
    var receive, check := Receive(w.local(r.name), parent, r.received), CheckReceived(w.local(r.name), r.received);
    var commit, checkCommit := Commit(r.received, w.remote(r.name)), CheckCommitted(w.local(r.name), w.remote(r.name));
    SuitsOne(w, r, Snapshotted, receive);
    SuitsOne(w, r, Received, check);
    SuitsConcat(w, r, Snapshotted, [receive], [check]);
    SuitsOne(w, r, Verified, commit);
    SuitsOne(w, r, Unchecked, checkCommit);
    SuitsConcat(w, r, Verified, [commit], [checkCommit]);
    SuitsConcat(w, r, Snapshotted, [receive] + [check], [commit] + [checkCommit]);
  }

  lemma TransferSuits(w: Layout, r: Run, i: SourceInput, parent: Selection)
    requires LocalSnapshot(i, r.name) == w.local(r.name) && FinalSnapshot(i, r.name) == w.remote(r.name)
    requires r.received == ReceivedSnapshot(i, r.name)
    ensures var steps := Steps(TransferActions(i, r.name, parent));
            Suits(w, r, Snapshotted, steps) && PhaseAfter(Snapshotted, steps) == Finishing
  {
    var t := TransferActions(i, r.name, parent);
    StepsOfThree(t[0], t[1], t[2]);
    FilenameOfJoin(i.source.localSnapshotDir, r.name);
    TransferEffectsSuit(w, r, ParentPath(parent));
    assert ActionSteps(t[2]) == [Commit(r.received, w.remote(r.name))] + [CheckCommitted(w.local(r.name), w.remote(r.name))];
  }

  lemma ClosingSuits(w: Layout, r: Run, i: SourceInput, recovery: RecoveryPlan, localRetention: RetentionPlan, remoteRetention: RetentionPlan)
    requires forall d :: d in remoteRetention.deleteSnapshots ==> r.blocked || w.normal(d.path) != w.remote(r.name)
    requires forall d :: d in localRetention.deleteSnapshots ==> w.normal(d.path) != w.local(r.name)
    ensures var steps := Steps(ClosingActions(i, r.name, recovery, localRetention, remoteRetention));
            Suits(w, r, Finishing, steps) && PhaseAfter(Finishing, steps) == Finishing
  {
    var c := ClosingActions(i, r.name, recovery, localRetention, remoteRetention);
    StepsOfThree(c[0], c[1], c[2]);
    SuitsEach(w, r, Finishing, Steps(c));
  }

  // ---- a planned run ----

  /** The run a plan starts from a state. */
  ghost function RunOf(w: Layout, s: State, p: Planning): Run
    requires p.Planned?
  {
    Run(p.plan.name, ReceivedSnapshot(p.input, p.plan.name), s.committed, w.remote(p.plan.name) in s.remote)
  }

  /** What the proof needs of a plan up to its commit, apart from the order of its actions. */
  ghost predicate PlanBegins(w: Layout, s: State, p: Planning)
    requires p.Planned?
  {
    var i, name := p.input, p.plan.name;
    && i.source.id == w.sourceId && i.source.subvolume == w.subvolume && MarkerFile(i.stateDir, i.source.id) == w.marker
    && LocalSnapshot(i, name) == w.local(name) && FinalSnapshot(i, name) == w.remote(name)
    && SparesTip(w, RunOf(w, s, p), p.plan.recovery.effects)
  }

  /** And after it: retention leaves both halves of the new snapshot alone. */
  ghost predicate PlanFits(w: Layout, s: State, p: Planning)
    requires p.Planned?
  {
    var name, r := p.plan.name, RunOf(w, s, p);
    && PlanBegins(w, s, p)
    && (forall d :: d in p.plan.remoteRetention.deleteSnapshots ==> r.blocked || w.normal(d.path) != w.remote(name))
    && (forall d :: d in p.plan.localRetention.deleteSnapshots ==> w.normal(d.path) != w.local(name))
  }

  lemma {:induction false} StepsOfSeven(
      a0: seq<Action>, a1: seq<Action>, a2: seq<Action>, a3: seq<Action>, a4: seq<Action>, a5: seq<Action>, a6: seq<Action>)
    ensures Steps(a0 + a1 + a2 + a3 + a4 + a5 + a6) ==
            Steps(a0) + Steps(a1) + Steps(a2) + Steps(a3) + Steps(a4) + Steps(a5) + Steps(a6)
  {
    StepsConcat(a0, a1);
    StepsConcat(a0 + a1, a2);
    StepsConcat(a0 + a1 + a2, a3);
    StepsConcat(a0 + a1 + a2 + a3, a4);
    StepsConcat(a0 + a1 + a2 + a3 + a4, a5);
    StepsConcat(a0 + a1 + a2 + a3 + a4 + a5, a6);
  }

  lemma SuitsSix(w: Layout, r: Run, e0: seq<Effect>, e1: seq<Effect>, e2: seq<Effect>, e3: seq<Effect>, e4: seq<Effect>, e5: seq<Effect>)
    requires Suits(w, r, Preparing, e0) && PhaseAfter(Preparing, e0) == Preparing
    requires Suits(w, r, Preparing, e1) && PhaseAfter(Preparing, e1) == Preparing
    requires Suits(w, r, Preparing, e2) && PhaseAfter(Preparing, e2) == Preparing
    requires Suits(w, r, Preparing, e3) && PhaseAfter(Preparing, e3) == Snapshotted
    requires Suits(w, r, Snapshotted, e4) && PhaseAfter(Snapshotted, e4) == Snapshotted
    requires Suits(w, r, Snapshotted, e5) && PhaseAfter(Snapshotted, e5) == Finishing
    ensures var all := e0 + e1 + e2 + e3 + e4 + e5;
            Suits(w, r, Preparing, all) && PhaseAfter(Preparing, all) == Finishing
  {
    SuitsConcat(w, r, Preparing, e0, e1);
    SuitsConcat(w, r, Preparing, e0 + e1, e2);
    SuitsConcat(w, r, Preparing, e0 + e1 + e2, e3);
    SuitsConcat(w, r, Preparing, e0 + e1 + e2 + e3, e4);
    SuitsConcat(w, r, Preparing, e0 + e1 + e2 + e3 + e4, e5);
  }

  lemma RecoveryActionsSuit(w: Layout, r: Run, i: SourceInput, recovery: RecoveryPlan)
    requires SparesTip(w, r, recovery.effects)
    ensures var steps := Steps(RecoveryActions(i, recovery));
            Suits(w, r, Preparing, steps) && PhaseAfter(Preparing, steps) == Preparing
  {
    if recovery.effects != [] {
      StepsOfOne(RecoverPending(i.source.id, recovery));
      RecoveryStepsSuit(w, r, recovery.effects);
    }
  }

  lemma CleanupSuits(w: Layout, r: Run, i: SourceInput)
    ensures var steps := Steps([CleanupIncoming(i.source.id, IncomingSource(i))]);
            Suits(w, r, Preparing, steps) && PhaseAfter(Preparing, steps) == Preparing
  {
    StepsOfOne(CleanupIncoming(i.source.id, IncomingSource(i)));
    SuitsOne(w, r, Preparing, ClearIncoming(IncomingSource(i)));
  }

  /** The effects before the transfer. */
  ghost function PreparingSteps(i: SourceInput, p: SourcePlan): seq<Effect> {
    Steps(RecoveryActions(i, p.recovery)) + Steps([CleanupIncoming(i.source.id, IncomingSource(i))])
    + Steps(HookActions(i.source.id, BeforeSnapshot, i.profile.beforeSnapshot)) + Steps([CreateAction(i, p.name)])
    + Steps(HookActions(i.source.id, AfterSnapshot, i.profile.afterSnapshot))
  }

  /** The effects up to the commit. */
  ghost function FrontSteps(i: SourceInput, p: SourcePlan): seq<Effect> {
    PreparingSteps(i, p) + Steps(TransferActions(i, p.name, p.parent))
  }

  /** The effects after it. */
  ghost function BackSteps(i: SourceInput, p: SourcePlan): seq<Effect> {
    Steps(ClosingActions(i, p.name, p.recovery, p.localRetention, p.remoteRetention))
  }

  lemma StepsOfPlan(i: SourceInput, p: SourcePlan)
    requires p.actions == OrderedActions(i, p.name, p.parent, p.recovery, p.localRetention, p.remoteRetention)
    ensures Steps(p.actions) == FrontSteps(i, p) + BackSteps(i, p)
  {
    var id := i.source.id;
    StepsOfSeven(RecoveryActions(i, p.recovery), [CleanupIncoming(id, IncomingSource(i))],
                 HookActions(id, BeforeSnapshot, i.profile.beforeSnapshot), [CreateAction(i, p.name)],
                 HookActions(id, AfterSnapshot, i.profile.afterSnapshot), TransferActions(i, p.name, p.parent),
                 ClosingActions(i, p.name, p.recovery, p.localRetention, p.remoteRetention));
  }

  /** Whatever retention does, the effects up to the commit suit the run. */
  lemma FrontSuits(w: Layout, s: State, i: SourceInput, p: SourcePlan)
    requires PlanBegins(w, s, Planned(i, p))
    ensures var r := RunOf(w, s, Planned(i, p));
            Suits(w, r, Preparing, FrontSteps(i, p)) && PhaseAfter(Preparing, FrontSteps(i, p)) == Finishing
  {
    var r, id := RunOf(w, s, Planned(i, p)), i.source.id;
    var before, after := HookActions(id, BeforeSnapshot, i.profile.beforeSnapshot), HookActions(id, AfterSnapshot, i.profile.afterSnapshot);
    RecoveryActionsSuit(w, r, i, p.recovery);
    CleanupSuits(w, r, i);
    HooksSuit(w, r, Preparing, before);
    CreateSuits(w, r, i);
    HooksSuit(w, r, Snapshotted, after);
    TransferSuits(w, r, i, p.parent);
    SuitsSix(w, r, Steps(RecoveryActions(i, p.recovery)), Steps([CleanupIncoming(id, IncomingSource(i))]), Steps(before),
             Steps([CreateAction(i, p.name)]), Steps(after), Steps(TransferActions(i, p.name, p.parent)));
  }

  /** The effects of a plan's actions suit its run, and all of them together finish it. */
  lemma PlanSuits(w: Layout, s: State, i: SourceInput, p: SourcePlan)
    requires PlanFits(w, s, Planned(i, p))
    requires p.actions == OrderedActions(i, p.name, p.parent, p.recovery, p.localRetention, p.remoteRetention)
    ensures var r := RunOf(w, s, Planned(i, p));
            Suits(w, r, Preparing, Steps(p.actions)) && PhaseAfter(Preparing, Steps(p.actions)) == Finishing
  {
    var r := RunOf(w, s, Planned(i, p));
    FrontSuits(w, s, i, p);
    ClosingSuits(w, r, i, p.recovery, p.localRetention, p.remoteRetention);
    SuitsConcat(w, r, Preparing, FrontSteps(i, p), BackSteps(i, p));
    StepsOfPlan(i, p);
  }

  ghost predicate WellConfigured(site: Site, w: Layout) {
    && Faithful(site, w)
    && CleanDir(site.source.localSnapshotDir) && CleanDir(RemoteDir(site))
  }

  lemma LayoutFacts(site: Site, w: Layout)
    requires WellConfigured(site, w)
    ensures NamesPlaced(w) && PathsNormal(w) && Normalizes(w)
  {
    NamesArePlaced(site, w);
    PathsAreNormal(site, w);
  }

  lemma RetentionAvoidsName(w: Layout, s: State, i: SourceInput, p: SourcePlan)
    requires LocalFits(w, s.local, s.clock, s.used) && RemoteFits(w, s.remote, s.clock) && PathsNormal(w)
    requires IsInventory(s.local, i.local) && IsInventory(s.remote, i.remote)
    requires w.local(p.name) !in s.local
    requires forall d :: d in p.localRetention.deleteSnapshots ==> d in i.local
    requires forall d :: d in p.remoteRetention.deleteSnapshots ==> d in i.remote
    ensures forall d :: d in p.localRetention.deleteSnapshots ==> w.normal(d.path) != w.local(p.name)
    ensures w.remote(p.name) !in s.remote ==>
      forall d :: d in p.remoteRetention.deleteSnapshots ==> w.normal(d.path) != w.remote(p.name)
  {}

  lemma PlannedNameIsFree(site: Site, w: Layout, s: State, i: SourceInput, name: string)
    requires WellConfigured(site, w) && Inv(w, s) && Discovers(site, w, s, i)
    requires IsFirstFree(BaseName(i.source.id, i.now), i.local, Some(name))
    ensures w.local(name) !in s.local
  {
    LayoutFacts(site, w);
    UsedNameIsTaken(w, s, i.local, name);
  }

  /** What planning guarantees the run; the last if retention spares the snapshot it is creating. */
  lemma PlanFitsState(site: Site, w: Layout, s: State, i: SourceInput, p: SourcePlan)
    requires WellConfigured(site, w) && Inv(w, s) && Discovers(site, w, s, i) && IsSourcePlan(i, p)
    ensures w.parse(p.name).Named? && w.parse(p.name).timestamp == SecondOf(i.now)
    ensures w.local(p.name) !in s.local
    ensures PlanBegins(w, s, Planned(i, p))
    ensures SparesNew(i, p) ==> PlanFits(w, s, Planned(i, p))
  {
    LayoutFacts(site, w);
    PlannedNameParses(i, p.name);
    assert w.parse(p.name) == ParseName(p.name, i.source.id);
    PlannedNameIsFree(site, w, s, i, p.name);
    RecoverySparesTip(w, s, RecoveryInputOf(i));
    RecoverySparesFreeName(w, s, RecoveryInputOf(i), p.name);
    if SparesNew(i, p) {
      RetentionDeletesListed(i, p);
      RetentionAvoidsName(w, s, i, p);
    }
  }

  lemma InventoryIsOlder(w: Layout, s: State, i: SourceInput, name: string)
    requires LocalFits(w, s.local, s.clock, s.used) && RemoteFits(w, s.remote, s.clock)
    requires IsInventory(s.local, i.local) && IsInventory(s.remote, i.remote) && i.now > s.clock
    ensures AllOlder(i.local, AddedLocal(i, name)) && AllOlder(i.remote, AddedRemote(i, name))
  {}

  /** A clock that has moved on since the second of the latest run makes retention spare the new snapshot:
      any number of runs may share a second. */
  lemma ForwardClockSparesNew(site: Site, w: Layout, s: State, i: SourceInput, p: SourcePlan)
    requires Inv(w, s) && Discovers(site, w, s, i) && IsSourcePlan(i, p)
    requires i.now > s.clock
    ensures SparesNew(i, p)
  {
    InventoryIsOlder(w, s, i, p.name);
    RetentionSparesNewSnapshot(i, p);
  }

  // ---- histories ----

  /** One run: its plan, the states it passed through, and the state it left when it stopped or completed. */
  datatype RunRecord = RunRecord(planning: SourceRunPlan, states: seq<State>, end: State)

  /** The plan was made from what discovery found, and its retention spares the snapshot it is creating. */
  ghost predicate ValidRun(site: Site, w: Layout, s: State, r: RunRecord) {
    && r.planning.Planned? && Discovers(site, w, s, r.planning.input)
    && SparesNew(r.planning.input, r.planning.plan)
    && Executes(w, s.(clock := Later(s.clock, SecondOf(r.planning.input.now))), Steps(r.planning.plan.actions), r.states, r.end)
  }

  ghost predicate CanFollow(site: Site, w: Layout, s: State, s': State) {
    exists r: RunRecord :: ValidRun(site, w, s, r) && r.end == s'
  }

  /** Whether one run can lead from a state to another. */
  ghost function Following(site: Site, w: Layout): (State, State) -> bool {
    (s, s') => CanFollow(site, w, s, s')
  }

  lemma FittingRunKeeps(w: Layout, s: State, clock: int, i: SourceInput, p: SourcePlan, states: seq<State>, end: State)
    requires NamesPlaced(w) && PlanFits(w, s, Planned(i, p))
    requires p.actions == OrderedActions(i, p.name, p.parent, p.recovery, p.localRetention, p.remoteRetention)
    requires Reached(w, s.(clock := clock), RunOf(w, s, Planned(i, p)), Preparing)
    requires Executes(w, s.(clock := clock), Steps(p.actions), states, end)
    ensures Inv(w, end) && (end.committed == s.committed || end.committed == s.committed + [p.name]) && end.clock == clock
    ensures |states| == |Steps(p.actions)| + 1 && end == states[|states| - 1] ==>
      Tip(end.committed) == Some(p.name) && w.remote(p.name) !in s.remote
  {
    PlanSuits(w, s, i, p);
    SuitedRunKeeps(w, s.(clock := clock), RunOf(w, s, Planned(i, p)), Steps(p.actions), states, end);
  }

  lemma SuitedRunKeeps(w: Layout, s: State, r: Run, effects: seq<Effect>, states: seq<State>, end: State)
    requires NamesPlaced(w) && Reached(w, s, r, Preparing) && Executes(w, s, effects, states, end)
    requires Suits(w, r, Preparing, effects) && PhaseAfter(Preparing, effects) == Finishing
    ensures Inv(w, end) && (end.committed == r.committed || end.committed == r.committed + [r.name]) && end.clock == s.clock
    ensures |states| == |effects| + 1 && end == states[|states| - 1] ==> Tip(end.committed) == Some(r.name) && !r.blocked
  {
    RunKeeps(w, s, r, Preparing, effects, states, end);
  }

  /** The run performed its last effect. */
  predicate Completes(r: RunRecord) {
    r.planning.Planned? && |r.states| == |Steps(r.planning.plan.actions)| + 1 && r.end == r.states[|r.states| - 1]
  }

  /** Wherever it stops, a run keeps the invariant and the commits, adding at most its own; run to its end, its
      snapshot is the last commit. It gets there only if the target did not hold its name. */
  lemma RunPreserves(site: Site, w: Layout, s: State, r: RunRecord)
    requires WellConfigured(site, w) && Inv(w, s) && ValidRun(site, w, s, r)
    ensures Inv(w, r.end) && (r.end.committed == s.committed || r.end.committed == s.committed + [r.planning.plan.name])
    ensures r.end.clock == Later(s.clock, SecondOf(r.planning.input.now))
    ensures Completes(r) ==> Tip(r.end.committed) == Some(r.planning.plan.name) && w.remote(r.planning.plan.name) !in s.remote
  {
    var i, p := r.planning.input, r.planning.plan;
    PlanFitsState(site, w, s, i, p);
    NamesArePlaced(site, w);
    RunBegins(w, s, Planned(i, p), SecondOf(i.now));
    FittingRunKeeps(w, s, Later(s.clock, SecondOf(i.now)), i, p, r.states, r.end);
  }

  // ---- a run whose retention does not spare its snapshot ----

  predicate AddsNothing(e: Effect) {
    !e.CreateLocal? && !e.Commit?
  }

  /** What is gone from either side stays away while no effect adds a snapshot. */
  lemma {:induction false} StaysAway(w: Layout, s: State, effects: seq<Effect>, states: seq<State>, end: State, k: nat, m: nat)
    requires Executes(w, s, effects, states, end) && k <= m < |states|
    requires forall j :: k <= j < m ==> AddsNothing(effects[j])
    ensures states[m].local.Keys <= states[k].local.Keys && states[m].remote.Keys <= states[k].remote.Keys
  {
    if k < m {
      StaysAway(w, s, effects, states, end, k, m - 1);
      assert AddsNothing(effects[m - 1]) && Step(w, states[m - 1], effects[m - 1], states[m]);
    }
  }

  lemma ClosingSteps(i: SourceInput, name: string, recovery: RecoveryPlan, local: RetentionPlan, remote: RetentionPlan)
    ensures Steps(ClosingActions(i, name, recovery, local, remote)) ==
            Deletions(remote.deleteSnapshots, true) + Deletions(local.deleteSnapshots, false)
            + [ClearIncoming(ReceivedSnapshot(i, name)), ClearIncoming(IncomingRun(i)), ClearMarker(recovery.markerPath)]
  {
    var c := ClosingActions(i, name, recovery, local, remote);
    StepsOfThree(c[0], c[1], c[2]);
  }

  lemma DeletionIsThere(snapshots: seq<SnapshotInfo>, remote: bool, x: SnapshotInfo)
    ensures NothingAdded(Deletions(snapshots, remote))
    ensures x in snapshots ==> (if remote then DeleteRemote(x.path) else DeleteLocal(x.path)) in Deletions(snapshots, remote)
  {
    if x in snapshots {
      var k :| 0 <= k < |snapshots| && snapshots[k] == x;
      assert Deletions(snapshots, remote)[k] == if remote then DeleteRemote(x.path) else DeleteLocal(x.path);
    }
  }

  ghost predicate NothingAdded(effects: seq<Effect>) {
    forall k :: 0 <= k < |effects| ==> AddsNothing(effects[k])
  }

  lemma NothingAddedByThree(a: seq<Effect>, b: seq<Effect>, c: seq<Effect>)
    requires NothingAdded(a) && NothingAdded(b) && NothingAdded(c)
    ensures NothingAdded(a + b + c)
    ensures forall e :: e in a || e in b ==> e in a + b + c
  {}

  /** The closing effects add nothing, and delete whatever either retention names. */
  lemma ClosingDeletes(i: SourceInput, name: string, recovery: RecoveryPlan, local: RetentionPlan, remote: RetentionPlan, x: SnapshotInfo)
    ensures var steps := Steps(ClosingActions(i, name, recovery, local, remote));
            && NothingAdded(steps)
            && (x in local.deleteSnapshots ==> DeleteLocal(x.path) in steps)
            && (x in remote.deleteSnapshots ==> DeleteRemote(x.path) in steps)
  {
    ClosingSteps(i, name, recovery, local, remote);
    DeletionIsThere(remote.deleteSnapshots, true, x);
    DeletionIsThere(local.deleteSnapshots, false, x);
    NothingAddedByThree(Deletions(remote.deleteSnapshots, true), Deletions(local.deleteSnapshots, false),
                        [ClearIncoming(ReceivedSnapshot(i, name)), ClearIncoming(IncomingRun(i)), ClearMarker(recovery.markerPath)]);
  }

  /** A run carried through that deletes a path in its closing effects ends without it. */
  lemma DeletedAtTheEnd(w: Layout, s: State, front: seq<Effect>, closing: seq<Effect>, states: seq<State>, end: State, e: Effect)
    requires Executes(w, s, front + closing, states, end) && |states| == |front + closing| + 1
    requires NothingAdded(closing) && e in closing
    ensures e.DeleteLocal? ==> w.normal(e.path) !in end.local
    ensures e.DeleteRemote? ==> w.normal(e.path) !in end.remote
  {
    var k :| 0 <= k < |closing| && closing[k] == e;
    var effects, at := front + closing, |front| + k;
    assert effects[at] == e && Step(w, states[at], effects[at], states[at + 1]);
    forall j | at + 1 <= j < |effects| ensures AddsNothing(effects[j]) {
      assert effects[j] == closing[j - |front|];
    }
    StaysAway(w, s, effects, states, end, at + 1, |effects|);
  }

  /** The hypothesis on retention is exact: carried through, a run whose retention does not spare its
      snapshot ends without one half of it. */
  lemma UnsparedSnapshotIsGone(site: Site, w: Layout, s: State, i: SourceInput, p: SourcePlan, states: seq<State>, end: State)
    requires WellConfigured(site, w) && Discovers(site, w, s, i) && IsSourcePlan(i, p) && !SparesNew(i, p)
    requires Executes(w, s, Steps(p.actions), states, end) && |states| == |Steps(p.actions)| + 1
    ensures !Linked(w, end.local, end.remote, p.name)
  {
    var closing := ClosingActions(i, p.name, p.recovery, p.localRetention, p.remoteRetention);
    var front := p.actions[..|p.actions| - 3];
    assert p.actions == front + closing;
    StepsConcat(front, closing);
    LayoutFacts(site, w);
    assert w.parse(p.name) == ParseName(p.name, i.source.id);
    UnsparedIsDeleted(w, i, p);
    var e :| e in Steps(closing) && (e == DeleteLocal(w.local(p.name)) || e == DeleteRemote(w.remote(p.name)));
    ClosingDeletes(i, p.name, p.recovery, p.localRetention, p.remoteRetention, AddedLocal(i, p.name));
    DeletedAtTheEnd(w, s, Steps(front), Steps(closing), states, end, e);
  }

  lemma UnsparedIsDeleted(w: Layout, i: SourceInput, p: SourcePlan)
    requires !SparesNew(i, p) && LocalSnapshot(i, p.name) == w.local(p.name) && FinalSnapshot(i, p.name) == w.remote(p.name)
    ensures var steps := Steps(ClosingActions(i, p.name, p.recovery, p.localRetention, p.remoteRetention));
            DeleteLocal(w.local(p.name)) in steps || DeleteRemote(w.remote(p.name)) in steps
  {
    if AddedLocal(i, p.name) in p.localRetention.deleteSnapshots {
      ClosingDeletes(i, p.name, p.recovery, p.localRetention, p.remoteRetention, AddedLocal(i, p.name));
    } else {
      ClosingDeletes(i, p.name, p.recovery, p.localRetention, p.remoteRetention, AddedRemote(i, p.name));
    }
  }

  // ---- any number of runs ----

  lemma FollowingKeeps(site: Site, w: Layout, s: State, s': State)
    requires WellConfigured(site, w) && Inv(w, s) && CanFollow(site, w, s, s')
    ensures Inv(w, s') && s.committed <= s'.committed
  {
    var r: RunRecord :| ValidRun(site, w, s, r) && r.end == s';
    RunPreserves(site, w, s, r);
  }

  /** The states between runs, the first of them with nothing on either side. */
  ghost predicate ValidHistory(follow: (State, State) -> bool, states: seq<State>) {
    states != [] && states[0] == EMPTY && forall k :: 0 <= k < |states| - 1 ==> follow(states[k], states[k + 1])
  }

  /** What every run keeps holds after any number of them. */
  lemma {:induction false} HistoryInduction(inv: State -> bool, follow: (State, State) -> bool, states: seq<State>, k: nat)
    requires ValidHistory(follow, states) && k < |states| && inv(EMPTY)
    requires forall s, s' :: follow(s, s') && inv(s) ==> inv(s') && s.committed <= s'.committed
    ensures inv(states[k])
    ensures forall j :: 0 <= j <= k ==> states[j].committed <= states[k].committed
  {
    if k > 0 {
      HistoryInduction(inv, follow, states, k - 1);
      assert follow(states[k - 1], states[k]);
    }
  }

  /** Every snapshot on the local side, and every copy of one on the target, was taken of the subvolume. */
  ghost predicate TakenOf(subvolume: Path, s: State) {
    && (forall p :: p in s.local ==> s.local[p].uuid in s.origin && s.origin[s.local[p].uuid] == subvolume)
    && (forall p :: p in s.remote && s.remote[p].receivedUuid != "" ==>
          s.remote[p].receivedUuid in s.origin && s.origin[s.remote[p].receivedUuid] == subvolume)
  }

  lemma InvMeansTakenOf(w: Layout, s: State)
    requires Inv(w, s)
    ensures TakenOf(w.subvolume, s)
  {}

  /** The chain: after any number of runs, each stopping anywhere, the last committed snapshot is present on
      both sides with matching UUIDs, no commit has been forgotten, and every snapshot on either side was
      taken of the source's subvolume. */
  lemma ChainSurvives(site: Site, w: Layout, states: seq<State>, j: nat, k: nat)
    requires WellConfigured(site, w)
    requires ValidHistory(Following(site, w), states) && j <= k < |states|
    ensures Inv(w, states[k]) && states[j].committed <= states[k].committed
    ensures var tip := Tip(states[k].committed);
            tip.Some? ==> Linked(w, states[k].local, states[k].remote, tip.value)
    ensures TakenOf(site.source.subvolume, states[k])
  {
    var follow := Following(site, w);
    forall s, s' | follow(s, s') && Inv(w, s) ensures Inv(w, s') && s.committed <= s'.committed {
      FollowingKeeps(site, w, s, s');
    }
    EmptyIsFine(w);
    HistoryInduction(s => Inv(w, s), follow, states, k);
    InvMeansTakenOf(w, states[k]);
  }
}
