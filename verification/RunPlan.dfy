/** Planning one backup run: what to recover, send, commit and expire for every enabled source. */
module RunPlan {
  import opened Core
  import opened RuntimeTime
  import opened Snapshots
  import opened IncrementalParent
  import opened PendingRecovery
  import opened Retention

  datatype SourceConfig = SourceConfig(
    id: string,
    enabled: bool,
    subvolume: Path,
    localSnapshotDir: Path,
    remoteSubdir: Path,
    localRetention: nat,
    remoteRetention: nat)

  datatype Settings = Settings(
    mountPoint: Path,
    remoteRoot: Path,
    incomingRoot: Path,
    incrementalRequired: bool,
    keepFailedLocalSnapshot: bool,
    beforeSnapshot: seq<string>,
    afterSnapshot: seq<string>)

  datatype Profile = Profile(id: string, settings: Settings, sources: seq<SourceConfig>)

  /** All a source's plan depends on: its configuration, what discovery found, and the run's identity. */
  datatype SourceInput = SourceInput(
    profile: Settings,
    source: SourceConfig,
    local: seq<SnapshotInfo>,
    remote: seq<SnapshotInfo>,
    marker: Option<PendingMarker>,
    pending: Option<SnapshotMetadata>,
    stateDir: Path,
    runId: string,
    now: TimePoint)

  datatype HookPhase = BeforeSnapshot | AfterSnapshot

  datatype Action =
    | RecoverPending(sourceId: string, recovery: RecoveryPlan)
    | CleanupIncoming(sourceId: string, incomingDirectory: Path)
    | RunHook(sourceId: string, phase: HookPhase, hook: string)
    | CreateSnapshot(sourceId: string, source: Path, snapshotDirectory: Path, snapshot: Path,
                     finalRemoteSnapshot: Path, stateDirectory: Path, runId: string)
    | SendReceive(sourceId: string, snapshot: Path, parent: Option<Path>, remoteDirectory: Path,
                  incomingRunDirectory: Path)
    | VerifyReceived(sourceId: string, localSnapshot: Path, receivedSnapshot: Path)
    | CommitReceived(sourceId: string, localSnapshot: Path, receivedSnapshot: Path, finalSnapshot: Path)
    | ApplyRemoteRetention(sourceId: string, retention: RetentionPlan)
    | ApplyLocalRetention(sourceId: string, retention: RetentionPlan)
    | CleanupSource(sourceId: string, receivedSnapshot: Path, incomingRunDirectory: Path, pendingMarker: Path,
                    stateDirectory: Path)

  datatype ActionKind =
    | RecoverPendingKind | CleanupIncomingKind | BeforeSnapshotHookKind | CreateSnapshotKind | AfterSnapshotHookKind
    | SendReceiveKind | VerifyReceivedKind | CommitReceivedKind | ApplyRemoteRetentionKind | ApplyLocalRetentionKind
    | CleanupSourceKind

  function Kind(a: Action): ActionKind {
    match a
    case RecoverPending(_, _) => RecoverPendingKind
    case CleanupIncoming(_, _) => CleanupIncomingKind
    case RunHook(_, phase, _) => if phase.BeforeSnapshot? then BeforeSnapshotHookKind else AfterSnapshotHookKind
    case CreateSnapshot(_, _, _, _, _, _, _) => CreateSnapshotKind
    case SendReceive(_, _, _, _, _) => SendReceiveKind
    case VerifyReceived(_, _, _) => VerifyReceivedKind
    case CommitReceived(_, _, _, _) => CommitReceivedKind
    case ApplyRemoteRetention(_, _) => ApplyRemoteRetentionKind
    case ApplyLocalRetention(_, _) => ApplyLocalRetentionKind
    case CleanupSource(_, _, _, _, _) => CleanupSourceKind
  }

  datatype PlanError =
    | RemoteDirectoryEscapes
    | IncomingDirectoryEscapes
    | LocalDirectoryInsideTarget
    | NoFreeName
    | TimestampOverflow
    | NoParent(reason: SelectionError)
    | ForeignAction
    | DuplicateActionKind

  datatype SourcePlan = SourcePlan(
    name: string,
    parent: Selection,
    recovery: RecoveryPlan,
    localRetention: RetentionPlan,
    remoteRetention: RetentionPlan,
    actions: seq<Action>)

  // ---- paths ----

  function Append(dir: Path, relative: Path): Path {
    if dir != [] && dir[|dir| - 1] == "" then dir[..|dir| - 1] + relative else dir + relative
  }

  function RemoteDirectory(i: SourceInput): Path {
    Append(i.profile.remoteRoot, i.source.remoteSubdir)
  }

  function IncomingSource(i: SourceInput): Path {
    Join(i.profile.incomingRoot, i.source.id)
  }

  function IncomingRun(i: SourceInput): Path {
    Join(IncomingSource(i), i.runId)
  }

  function LocalSnapshot(i: SourceInput, name: string): Path {
    Join(i.source.localSnapshotDir, name)
  }

  function ReceivedSnapshot(i: SourceInput, name: string): Path {
    Join(IncomingRun(i), name)
  }

  function FinalSnapshot(i: SourceInput, name: string): Path {
    Join(RemoteDirectory(i), name)
  }

  function PathError(i: SourceInput): Option<PlanError> {
    if !Within(RemoteDirectory(i), i.profile.remoteRoot) then Some(RemoteDirectoryEscapes)
    else if !Within(IncomingSource(i), i.profile.incomingRoot) then Some(IncomingDirectoryEscapes)
    else if Within(i.source.localSnapshotDir, i.profile.mountPoint) then Some(LocalDirectoryInsideTarget)
    else None
  }

  // ---- the inventories retention is planned on ----

  function Without(snapshots: seq<SnapshotInfo>, path: Path): (r: seq<SnapshotInfo>)
    ensures forall x :: x in r <==> x in snapshots && x.path != path
    ensures multiset(r) <= multiset(snapshots)
  {
    if snapshots == [] then []
    else
      assert snapshots == snapshots[..|snapshots| - 1] + [snapshots[|snapshots| - 1]];
      var rest := Without(snapshots[..|snapshots| - 1], path);
      var last := snapshots[|snapshots| - 1];
      if last.path == path then rest else rest + [last]
  }

  /** The snapshot this run is about to add on one side. */
  function NewSnapshot(side: Side, sourceId: string, name: string, sequence: nat, now: TimePoint, path: Path): SnapshotInfo {
    SnapshotInfo(side, sourceId, name, now, sequence, path, true, "", "")
  }

  /** projected_snapshots: the inventory once recovery has deleted `removed` and the run added its snapshot. */
  function Projected(current: seq<SnapshotInfo>, removed: Option<Path>, added: SnapshotInfo): seq<SnapshotInfo> {
    (if removed.Some? then Without(current, removed.value) else current) + [added]
  }

  function AddedLocal(i: SourceInput, name: string): SnapshotInfo {
    NewSnapshot(Local, i.source.id, name, SequenceOf(name, i.source.id), i.now, LocalSnapshot(i, name))
  }

  function AddedRemote(i: SourceInput, name: string): SnapshotInfo {
    NewSnapshot(Remote, i.source.id, name, SequenceOf(name, i.source.id), i.now, FinalSnapshot(i, name))
  }

  function SequenceOf(name: string, sourceId: string): nat {
    var p := ParseName(name, sourceId);
    if p.Named? then p.sequence else 0
  }

  // ---- the ordered actions ----

  function HookActions(sourceId: string, phase: HookPhase, hooks: seq<string>): (r: seq<Action>)
    ensures |r| == |hooks|
    ensures forall k :: 0 <= k < |r| ==> r[k] == RunHook(sourceId, phase, hooks[k])
  {
    seq(|hooks|, k requires 0 <= k < |hooks| => RunHook(sourceId, phase, hooks[k]))
  }

  function ParentPath(parent: Selection): Option<Path> {
    if parent.Incremental? then Some(parent.localParent.path) else None
  }

  function RecoveryActions(i: SourceInput, recovery: RecoveryPlan): seq<Action> {
    if recovery.effects != [] then [RecoverPending(i.source.id, recovery)] else []
  }

  function CreateAction(i: SourceInput, name: string): Action {
    CreateSnapshot(i.source.id, i.source.subvolume, i.source.localSnapshotDir, LocalSnapshot(i, name),
                   FinalSnapshot(i, name), i.stateDir, i.runId)
  }

  function TransferActions(i: SourceInput, name: string, parent: Selection): seq<Action> {
    [SendReceive(i.source.id, LocalSnapshot(i, name), ParentPath(parent), RemoteDirectory(i), IncomingRun(i)),
     VerifyReceived(i.source.id, LocalSnapshot(i, name), ReceivedSnapshot(i, name)),
     CommitReceived(i.source.id, LocalSnapshot(i, name), ReceivedSnapshot(i, name), FinalSnapshot(i, name))]
  }

  function ClosingActions(i: SourceInput, name: string, recovery: RecoveryPlan, localRetention: RetentionPlan,
                          remoteRetention: RetentionPlan): seq<Action> {
    [ApplyRemoteRetention(i.source.id, remoteRetention),
     ApplyLocalRetention(i.source.id, localRetention),
     CleanupSource(i.source.id, ReceivedSnapshot(i, name), IncomingRun(i), recovery.markerPath, i.stateDir)]
  }

  function OrderedActions(i: SourceInput, name: string, parent: Selection, recovery: RecoveryPlan,
                          localRetention: RetentionPlan, remoteRetention: RetentionPlan): seq<Action> {
    RecoveryActions(i, recovery)
    + [CleanupIncoming(i.source.id, IncomingSource(i))]
    + HookActions(i.source.id, BeforeSnapshot, i.profile.beforeSnapshot)
    + [CreateAction(i, name)]
    + HookActions(i.source.id, AfterSnapshot, i.profile.afterSnapshot)
    + TransferActions(i, name, parent)
    + ClosingActions(i, name, recovery, localRetention, remoteRetention)
  }

  /** The action serves this source and this run: it takes the source's subvolume into the source's own snapshot
      directory, sends that snapshot through the run's incoming directory to the source's place on the target,
      and keeps its marker where recovery looks for it. */
  ghost predicate Serves(i: SourceInput, p: SourcePlan, a: Action) {
    var target := Append(i.profile.remoteRoot, i.source.remoteSubdir);
    var incoming := Join(Join(i.profile.incomingRoot, i.source.id), i.runId);
    var local, received, final := Join(i.source.localSnapshotDir, p.name), Join(incoming, p.name), Join(target, p.name);
    && a.sourceId == i.source.id
    && match a
       case RecoverPending(_, recovery) => recovery == p.recovery && recovery.effects != []
       case CleanupIncoming(_, directory) => directory == Join(i.profile.incomingRoot, i.source.id)
       case RunHook(_, phase, hook) => hook in if phase.BeforeSnapshot? then i.profile.beforeSnapshot else i.profile.afterSnapshot
       case CreateSnapshot(_, source, directory, snapshot, remote, state, run) =>
         && source == i.source.subvolume && directory == i.source.localSnapshotDir && snapshot == local
         && remote == final && state == i.stateDir && run == i.runId
       case SendReceive(_, snapshot, parent, directory, receiving) =>
         && snapshot == local && directory == target && receiving == incoming
         && (p.parent.Full? ==> parent.None?) && (p.parent.Incremental? ==> parent == Some(p.parent.localParent.path))
       case VerifyReceived(_, snapshot, copy) => snapshot == local && copy == received
       case CommitReceived(_, snapshot, copy, remote) => snapshot == local && copy == received && remote == final
       case ApplyRemoteRetention(_, retention) => retention == p.remoteRetention
       case ApplyLocalRetention(_, retention) => retention == p.localRetention
       case CleanupSource(_, copy, receiving, marker, state) =>
         && copy == received && receiving == incoming
         && marker == p.recovery.markerPath && state == i.stateDir
  }

  /** The plan has its actions in their order. */
  ghost predicate HasActions(i: SourceInput, p: SourcePlan) {
    p.actions == OrderedActions(i, p.name, p.parent, p.recovery, p.localRetention, p.remoteRetention)
  }

  lemma InSevenParts<T(!new)>(s0: seq<T>, s1: seq<T>, s2: seq<T>, s3: seq<T>, s4: seq<T>, s5: seq<T>, s6: seq<T>, x: T)
    ensures x in s0 + s1 + s2 + s3 + s4 + s5 + s6 <==>
            x in s0 || x in s1 || x in s2 || x in s3 || x in s4 || x in s5 || x in s6
  {}

  lemma InPlan(i: SourceInput, p: SourcePlan, a: Action)
    requires HasActions(i, p)
    ensures a in p.actions <==>
      || a in RecoveryActions(i, p.recovery) || a in [CleanupIncoming(i.source.id, IncomingSource(i))]
      || a in HookActions(i.source.id, BeforeSnapshot, i.profile.beforeSnapshot) || a in [CreateAction(i, p.name)]
      || a in HookActions(i.source.id, AfterSnapshot, i.profile.afterSnapshot) || a in TransferActions(i, p.name, p.parent)
      || a in ClosingActions(i, p.name, p.recovery, p.localRetention, p.remoteRetention)
  {
    InSevenParts(RecoveryActions(i, p.recovery), [CleanupIncoming(i.source.id, IncomingSource(i))],
                 HookActions(i.source.id, BeforeSnapshot, i.profile.beforeSnapshot), [CreateAction(i, p.name)],
                 HookActions(i.source.id, AfterSnapshot, i.profile.afterSnapshot), TransferActions(i, p.name, p.parent),
                 ClosingActions(i, p.name, p.recovery, p.localRetention, p.remoteRetention), a);
  }

  lemma ActionServes(i: SourceInput, p: SourcePlan, a: Action)
    requires HasActions(i, p) && a in p.actions
    ensures Serves(i, p, a)
  {
    InPlan(i, p, a);
  }

  lemma ActionsServe(i: SourceInput, p: SourcePlan)
    requires HasActions(i, p)
    ensures forall a :: a in p.actions ==> Serves(i, p, a)
  {
    forall a | a in p.actions ensures Serves(i, p, a) {
      ActionServes(i, p, a);
    }
  }

  method OrderSourceActions(i: SourceInput, name: string, parent: Selection, recovery: RecoveryPlan,
                            localRetention: RetentionPlan, remoteRetention: RetentionPlan) returns (actions: seq<Action>)
    ensures actions == OrderedActions(i, name, parent, recovery, localRetention, remoteRetention)
    ensures forall a :: a in actions ==> Serves(i, SourcePlan(name, parent, recovery, localRetention, remoteRetention, actions), a)
  {
    actions := RecoveryActions(i, recovery) + [CleanupIncoming(i.source.id, IncomingSource(i))];
    actions := AppendHooks(actions, i.source.id, BeforeSnapshot, i.profile.beforeSnapshot);
    actions := actions + [CreateAction(i, name)];
    actions := AppendHooks(actions, i.source.id, AfterSnapshot, i.profile.afterSnapshot);
    actions := actions + TransferActions(i, name, parent);
    actions := actions + ClosingActions(i, name, recovery, localRetention, remoteRetention);
    ActionsServe(i, SourcePlan(name, parent, recovery, localRetention, remoteRetention, actions));
  }

  method AppendHooks(actions: seq<Action>, sourceId: string, phase: HookPhase, hooks: seq<string>) returns (r: seq<Action>)
    ensures r == actions + HookActions(sourceId, phase, hooks)
  {
    r := actions;
    for k := 0 to |hooks|
      invariant r == actions + HookActions(sourceId, phase, hooks[..k])
    {
      r := r + [RunHook(sourceId, phase, hooks[k])];
    }
    assert hooks[..|hooks|] == hooks;
  }

  // ---- what a source plan's constructor insists on ----

  predicate IsHook(a: Action) {
    a.RunHook?
  }

  ghost predicate SingletonKinds(actions: seq<Action>) {
    forall a, b :: 0 <= a < b < |actions| && !IsHook(actions[a]) && !IsHook(actions[b]) ==>
      Kind(actions[a]) != Kind(actions[b])
  }

  method CheckActions(sourceId: string, actions: seq<Action>) returns (error: Option<PlanError>)
    ensures error.None? <==> (forall a :: a in actions ==> a.sourceId == sourceId) && SingletonKinds(actions)
  {
    var seen: set<ActionKind> := {};
    for k := 0 to |actions|
      invariant forall j :: 0 <= j < k ==> actions[j].sourceId == sourceId
      invariant seen == set j | 0 <= j < k && !IsHook(actions[j]) :: Kind(actions[j])
      invariant SingletonKinds(actions[..k])
    {
      var kind := Kind(actions[k]);
      if actions[k].sourceId != sourceId {
        return Some(ForeignAction);
      }
      if kind != BeforeSnapshotHookKind && kind != AfterSnapshotHookKind {
        if kind in seen {
          return Some(DuplicateActionKind);
        }
        seen := seen + {kind};
      }
    }
    assert actions[..|actions|] == actions;
    return None;
  }

  /** Position of each non-hook kind in the fixed order of a plan. */
  function Rank(k: ActionKind): nat {
    match k
    case RecoverPendingKind => 0
    case CleanupIncomingKind => 1
    case BeforeSnapshotHookKind => 2
    case CreateSnapshotKind => 3
    case AfterSnapshotHookKind => 4
    case SendReceiveKind => 5
    case VerifyReceivedKind => 6
    case CommitReceivedKind => 7
    case ApplyRemoteRetentionKind => 8
    case ApplyLocalRetentionKind => 9
    case CleanupSourceKind => 10
  }

  /** Actions of one source whose ranks ascend within [low, high), hooks alone repeating. */
  ghost predicate InOrder(sourceId: string, actions: seq<Action>, low: nat, high: nat) {
    && (forall a :: 0 <= a < |actions| ==> low <= Rank(Kind(actions[a])) < high && actions[a].sourceId == sourceId)
    && (forall a, b :: 0 <= a < b < |actions| ==> Rank(Kind(actions[a])) <= Rank(Kind(actions[b])))
    && SingletonKinds(actions)
  }

  lemma InOrderConcat(sourceId: string, s: seq<Action>, t: seq<Action>, low: nat, middle: nat, high: nat)
    requires low <= middle <= high
    requires InOrder(sourceId, s, low, middle) && InOrder(sourceId, t, middle, high)
    ensures InOrder(sourceId, s + t, low, high)
  {}

  lemma InOrderSingle(sourceId: string, a: Action)
    requires a.sourceId == sourceId
    ensures InOrder(sourceId, [a], Rank(Kind(a)), Rank(Kind(a)) + 1)
  {}

  lemma InOrderHooks(sourceId: string, phase: HookPhase, hooks: seq<string>)
    ensures var rank := if phase.BeforeSnapshot? then 2 else 4;
            InOrder(sourceId, HookActions(sourceId, phase, hooks), rank, rank + 1)
  {}

  lemma InOrderTriple(sourceId: string, a: Action, b: Action, c: Action)
    requires a.sourceId == b.sourceId == c.sourceId == sourceId
    requires Rank(Kind(a)) < Rank(Kind(b)) < Rank(Kind(c))
    ensures InOrder(sourceId, [a, b, c], Rank(Kind(a)), Rank(Kind(c)) + 1)
  {}

  lemma InOrderSegments(sourceId: string, s0: seq<Action>, s1: seq<Action>, s2: seq<Action>, s3: seq<Action>,
                        s4: seq<Action>, s5: seq<Action>, s6: seq<Action>)
    requires InOrder(sourceId, s0, 0, 1) && InOrder(sourceId, s1, 1, 2) && InOrder(sourceId, s2, 2, 3)
    requires InOrder(sourceId, s3, 3, 4) && InOrder(sourceId, s4, 4, 5)
    requires InOrder(sourceId, s5, 5, 8) && InOrder(sourceId, s6, 8, 11)
    ensures InOrder(sourceId, s0 + s1 + s2 + s3 + s4 + s5 + s6, 0, 11)
  {
    InOrderConcat(sourceId, s0, s1, 0, 1, 2);
    InOrderConcat(sourceId, s0 + s1, s2, 0, 2, 3);
    InOrderConcat(sourceId, s0 + s1 + s2, s3, 0, 3, 4);
    InOrderConcat(sourceId, s0 + s1 + s2 + s3, s4, 0, 4, 5);
    InOrderConcat(sourceId, s0 + s1 + s2 + s3 + s4, s5, 0, 5, 8);
    InOrderConcat(sourceId, s0 + s1 + s2 + s3 + s4 + s5, s6, 0, 8, 11);
  }

  lemma RecoveryInOrder(i: SourceInput, recovery: RecoveryPlan)
    ensures InOrder(i.source.id, RecoveryActions(i, recovery), 0, 1)
  {
    InOrderSingle(i.source.id, RecoverPending(i.source.id, recovery));
  }

  lemma TransferInOrder(i: SourceInput, name: string, parent: Selection)
    ensures InOrder(i.source.id, TransferActions(i, name, parent), 5, 8)
  {
    var transfer := TransferActions(i, name, parent);
    InOrderTriple(i.source.id, transfer[0], transfer[1], transfer[2]);
  }

  lemma ClosingInOrder(i: SourceInput, name: string, recovery: RecoveryPlan, localRetention: RetentionPlan,
                       remoteRetention: RetentionPlan)
    ensures InOrder(i.source.id, ClosingActions(i, name, recovery, localRetention, remoteRetention), 8, 11)
  {
    var closing := ClosingActions(i, name, recovery, localRetention, remoteRetention);
    InOrderTriple(i.source.id, closing[0], closing[1], closing[2]);
  }

  /** Every plan follows one order of kinds, so the constructor accepts it: recovery precedes the snapshot,
      the snapshot its transfer, verification the commit, the commit both retentions, and cleanup comes last. */
  lemma OrderedActionsAreValid(i: SourceInput, name: string, parent: Selection, recovery: RecoveryPlan,
                               localRetention: RetentionPlan, remoteRetention: RetentionPlan)
    ensures InOrder(i.source.id, OrderedActions(i, name, parent, recovery, localRetention, remoteRetention), 0, 11)
  {
    var id := i.source.id;
    RecoveryInOrder(i, recovery);
    InOrderSingle(id, CleanupIncoming(id, IncomingSource(i)));
    InOrderHooks(id, BeforeSnapshot, i.profile.beforeSnapshot);
    InOrderSingle(id, CreateAction(i, name));
    InOrderHooks(id, AfterSnapshot, i.profile.afterSnapshot);
    TransferInOrder(i, name, parent);
    ClosingInOrder(i, name, recovery, localRetention, remoteRetention);
    InOrderSegments(id, RecoveryActions(i, recovery), [CleanupIncoming(id, IncomingSource(i))],
                    HookActions(id, BeforeSnapshot, i.profile.beforeSnapshot), [CreateAction(i, name)],
                    HookActions(id, AfterSnapshot, i.profile.afterSnapshot), TransferActions(i, name, parent),
                    ClosingActions(i, name, recovery, localRetention, remoteRetention));
  }

  // ---- one source's plan ----

  function ParentQuery(i: SourceInput, name: string): Query {
    Query(i.source.id, i.local, i.remote, Some(LocalSnapshot(i, name)), i.profile.incrementalRequired)
  }

  function RecoveryInputOf(i: SourceInput): RecoveryInput {
    RecoveryInput(i.source.id, i.stateDir, i.source.localSnapshotDir, RemoteDirectory(i), i.marker, i.pending, i.remote,
                  i.profile.keepFailedLocalSnapshot)
  }

  function LocalProjection(i: SourceInput, name: string, recovery: RecoveryPlan): seq<SnapshotInfo> {
    Projected(i.local, LocalDeletion(recovery.effects), AddedLocal(i, name))
  }

  function RemoteProjection(i: SourceInput, name: string, recovery: RecoveryPlan): seq<SnapshotInfo> {
    Projected(i.remote, RemoteDeletion(recovery.effects), AddedRemote(i, name))
  }

  ghost predicate IsSourcePlan(i: SourceInput, p: SourcePlan) {
    && PathError(i).None?
    && IsFirstFree(BaseName(i.source.id, i.now), i.local, Some(p.name))
    && IsSelection(ParentQuery(i, p.name), Ok(p.parent))
    && p.recovery == PlanPendingRecovery(RecoveryInputOf(i))
    && ParseName(p.name, i.source.id).Named?
    && IsRetention(i.source.id, LocalProjection(i, p.name, p.recovery), i.source.localRetention, p.localRetention)
    && IsRetention(i.source.id, RemoteProjection(i, p.name, p.recovery), i.source.remoteRetention, p.remoteRetention)
    && p.actions == OrderedActions(i, p.name, p.parent, p.recovery, p.localRetention, p.remoteRetention)
  }

  /** Why a source cannot be planned: the first reason that applies. */
  ghost predicate IsPlanFailure(i: SourceInput, e: PlanError) {
    match PathError(i)
    case Some(pathError) => e == pathError
    case None =>
      match e
      case NoFreeName => IsFirstFree(BaseName(i.source.id, i.now), i.local, None)
      case NoParent(reason) =>
        exists name :: IsFirstFree(BaseName(i.source.id, i.now), i.local, Some(name))
                       && IsSelection(ParentQuery(i, name), Err(reason))
      case TimestampOverflow =>
        && !Representable(DayStart(i.now))
        && exists name, parent :: IsFirstFree(BaseName(i.source.id, i.now), i.local, Some(name))
                                  && IsSelection(ParentQuery(i, name), Ok(parent))
      case _ => false
  }

  ghost predicate IsSourcePlanResult(i: SourceInput, r: Result<SourcePlan, PlanError>) {
    match r
    case Ok(p) => IsSourcePlan(i, p)
    case Err(e) => IsPlanFailure(i, e)
  }

  lemma PlannedNameParses(i: SourceInput, name: string)
    requires IsFirstFree(BaseName(i.source.id, i.now), i.local, Some(name))
    ensures ParseName(name, i.source.id).Named? <==> Representable(DayStart(i.now))
    ensures ParseName(name, i.source.id).Named? ==>
              ParseName(name, i.source.id).timestamp == FloorSeconds(i.now) * NS_PER_SECOND
  {
    var k :| 0 <= k <= 99 && name == NameInSecond(BaseName(i.source.id, i.now), k);
    NameParsesBack(i.source.id, i.now, k);
  }

  method BuildSourceRunPlan(i: SourceInput) returns (r: Result<SourcePlan, PlanError>)
    ensures IsSourcePlanResult(i, r)
  {
    var pathError := PathError(i);
    if pathError.Some? {
      return Err(pathError.value);
    }
    var name := PlannedSnapshotName(i.source.id, i.now, i.local);
    if name.None? {
      return Err(NoFreeName);
    }
    var parent := SelectIncrementalParent(ParentQuery(i, name.value));
    if parent.Err? {
      return Err(NoParent(parent.error));
    }
    PlannedNameParses(i, name.value);
    if !ParseName(name.value, i.source.id).Named? {
      return Err(TimestampOverflow);
    }
    var p := PlanWithParent(i, name.value, parent.value);
    return Ok(p);
  }

  method PlanWithParent(i: SourceInput, name: string, parent: Selection) returns (p: SourcePlan)
    ensures p.name == name && p.parent == parent
    ensures p.recovery == PlanPendingRecovery(RecoveryInputOf(i))
    ensures IsRetention(i.source.id, LocalProjection(i, name, p.recovery), i.source.localRetention, p.localRetention)
    ensures IsRetention(i.source.id, RemoteProjection(i, name, p.recovery), i.source.remoteRetention, p.remoteRetention)
    ensures p.actions == OrderedActions(i, name, parent, p.recovery, p.localRetention, p.remoteRetention)
  {
    var recovery := BuildPendingRecovery(RecoveryInputOf(i));
    var localRetention := PlanCountRetention(i.source.id, LocalProjection(i, name, recovery), i.source.localRetention);
    var remoteRetention := PlanCountRetention(i.source.id, RemoteProjection(i, name, recovery), i.source.remoteRetention);
    var actions := OrderSourceActions(i, name, parent, recovery, localRetention, remoteRetention);
    OrderedActionsAreValid(i, name, parent, recovery, localRetention, remoteRetention);
    var error := CheckActions(i.source.id, actions);
    assert error.None?;  // the constructor of the plan never throws here
    return SourcePlan(name, parent, recovery, localRetention, remoteRetention, actions);
  }

  // ---- retention and the rest of the plan ----

  /** Every one of the snapshots ranks before x. */
  ghost predicate AllOlder(snapshots: seq<SnapshotInfo>, x: SnapshotInfo) {
    forall y :: y in snapshots ==> Older(y, x)
  }

  lemma ProjectionHasOneNewest(current: seq<SnapshotInfo>, removed: Option<Path>, added: SnapshotInfo)
    requires AllOlder(current, added)
    ensures var projected := Projected(current, removed, added);
            && multiset(projected)[added] == 1
            && forall y :: y in projected && y != added ==> Older(y, added)
  {
    var rest := if removed.Some? then Without(current, removed.value) else current;
    BeforeIsIrreflexive(added, false);
    assert added !in multiset(current);
    assert added !in multiset(rest);
    assert multiset(rest + [added]) == multiset(rest) + multiset{added};
  }

  /** Neither retention deletes the snapshot the run is creating. */
  ghost predicate SparesNew(i: SourceInput, p: SourcePlan) {
    && AddedLocal(i, p.name) !in p.localRetention.deleteSnapshots
    && AddedRemote(i, p.name) !in p.remoteRetention.deleteSnapshots
  }

  lemma DeletesListed(sourceId: string, current: seq<SnapshotInfo>, removed: Option<Path>, added: SnapshotInfo, plan: RetentionPlan)
    requires IsRetention(sourceId, Projected(current, removed, added), plan.keepCount, plan)
    ensures forall d :: d in plan.deleteSnapshots && d != added ==> d in current && (removed.Some? ==> d.path != removed.value)
  {
    forall d | d in plan.deleteSnapshots && d != added ensures d in current && (removed.Some? ==> d.path != removed.value) {
      DeletedIsListed(sourceId, Projected(current, removed, added), plan.keepCount, plan, d);
    }
  }

  /** Apart from the snapshot the run is creating, both retentions delete only what discovery found. */
  lemma RetentionDeletesListed(i: SourceInput, p: SourcePlan)
    requires IsSourcePlan(i, p)
    ensures forall d :: d in p.localRetention.deleteSnapshots && d != AddedLocal(i, p.name) ==> d in i.local
    ensures forall d :: d in p.remoteRetention.deleteSnapshots && d != AddedRemote(i, p.name) ==> d in i.remote
  {
    DeletesListed(i.source.id, i.local, LocalDeletion(p.recovery.effects), AddedLocal(i, p.name), p.localRetention);
    DeletesListed(i.source.id, i.remote, RemoteDeletion(p.recovery.effects), AddedRemote(i, p.name), p.remoteRetention);
  }

  /** The new snapshot is spared exactly when, on both sides, fewer newer ones are listed than there are to keep. */
  lemma SparesNewIff(i: SourceInput, p: SourcePlan)
    requires IsSourcePlan(i, p)
    requires NoTies(LocalProjection(i, p.name, p.recovery)) && NoTies(RemoteProjection(i, p.name, p.recovery))
    ensures SparesNew(i, p) <==>
      && !(0 < i.source.localRetention <= |Newer(i.source.id, LocalProjection(i, p.name, p.recovery), AddedLocal(i, p.name))|)
      && !(0 < i.source.remoteRetention <= |Newer(i.source.id, RemoteProjection(i, p.name, p.recovery), AddedRemote(i, p.name))|)
  {
    DeletedIff(i.source.id, LocalProjection(i, p.name, p.recovery), i.source.localRetention, p.localRetention, AddedLocal(i, p.name));
    DeletedIff(i.source.id, RemoteProjection(i, p.name, p.recovery), i.source.remoteRetention, p.remoteRetention, AddedRemote(i, p.name));
  }

  /** Whatever the counts, the new snapshot is spared when it ranks after every other. */
  lemma RetentionSparesNewSnapshot(i: SourceInput, p: SourcePlan)
    requires IsSourcePlan(i, p)
    requires AllOlder(i.local, AddedLocal(i, p.name)) && AllOlder(i.remote, AddedRemote(i, p.name))
    ensures SparesNew(i, p)
  {
    NewestSpared(i.source.id, i.local, LocalDeletion(p.recovery.effects), AddedLocal(i, p.name), p.localRetention);
    NewestSpared(i.source.id, i.remote, RemoteDeletion(p.recovery.effects), AddedRemote(i, p.name), p.remoteRetention);
  }

  lemma NewestSpared(sourceId: string, current: seq<SnapshotInfo>, removed: Option<Path>, added: SnapshotInfo, plan: RetentionPlan)
    requires IsRetention(sourceId, Projected(current, removed, added), plan.keepCount, plan) && AllOlder(current, added)
    ensures added !in plan.deleteSnapshots
  {
    ProjectionHasOneNewest(current, removed, added);
    NewestIsKept(sourceId, Projected(current, removed, added), plan.keepCount, plan, added);
  }

  ghost predicate PathsAreNormal(snapshots: seq<SnapshotInfo>) {
    forall y :: y in snapshots ==> Normal(y.path) == y.path
  }

  /** Retention never names a snapshot recovery has already deleted, if the marker spells its path normally. */
  lemma RetentionAvoidsRecovered(i: SourceInput, p: SourcePlan)
    requires IsSourcePlan(i, p) && SparesNew(i, p)
    requires PathsAreNormal(i.local) && PathsAreNormal(i.remote)
    ensures Avoids(LocalDeletion(p.recovery.effects), p.localRetention)
    ensures Avoids(RemoteDeletion(p.recovery.effects), p.remoteRetention)
  {
    AvoidsRemoved(i.source.id, i.local, LocalDeletion(p.recovery.effects), AddedLocal(i, p.name), p.localRetention);
    AvoidsRemoved(i.source.id, i.remote, RemoteDeletion(p.recovery.effects), AddedRemote(i, p.name), p.remoteRetention);
  }

  ghost predicate Avoids(removed: Option<Path>, plan: RetentionPlan) {
    removed.Some? && Normal(removed.value) == removed.value ==>
      forall d :: d in plan.deleteSnapshots ==> Normal(d.path) != Normal(removed.value)
  }

  lemma AvoidsRemoved(sourceId: string, current: seq<SnapshotInfo>, removed: Option<Path>, added: SnapshotInfo, plan: RetentionPlan)
    requires IsRetention(sourceId, Projected(current, removed, added), plan.keepCount, plan)
    requires added !in plan.deleteSnapshots && PathsAreNormal(current)
    ensures Avoids(removed, plan)
  {
    DeletesListed(sourceId, current, removed, added, plan);
  }

  /** The projection forgets the snapshot recovery deletes exactly when the marker spells its path normally. */
  lemma ProjectionForgetsRecoveredIff(current: seq<SnapshotInfo>, removed: Path, added: SnapshotInfo, x: SnapshotInfo)
    requires x in current && Normal(x.path) == x.path && Normal(removed) == x.path && x != added
    ensures x !in Projected(current, Some(removed), added) <==> Normal(removed) == removed
  {}

  /** The retention of one side names x, which recovery deletes, exactly when the marker does not spell its path
      normally and at least as many newer snapshots are listed as there are to keep. */
  ghost predicate NamesRemovedIff(
      sourceId: string, current: seq<SnapshotInfo>, removed: Path, added: SnapshotInfo, plan: RetentionPlan, x: SnapshotInfo)
  {
    x in plan.deleteSnapshots <==>
      Normal(removed) != removed && 0 < plan.keepCount <= |Newer(sourceId, Projected(current, Some(removed), added), x)|
  }

  /** A snapshot of the source at the path that recovery deletes. */
  ghost predicate IsRecovered(sourceId: string, current: seq<SnapshotInfo>, removed: Option<Path>, added: SnapshotInfo, x: SnapshotInfo) {
    removed.Some? && x in current && x.sourceId == sourceId && x != added && Normal(removed.value) == x.path
  }

  lemma RemovedIsNamedIff(
      sourceId: string, current: seq<SnapshotInfo>, removed: Option<Path>, added: SnapshotInfo, plan: RetentionPlan, x: SnapshotInfo)
    requires IsRetention(sourceId, Projected(current, removed, added), plan.keepCount, plan) && NoTies(Projected(current, removed, added))
    requires IsRecovered(sourceId, current, removed, added, x) && Normal(x.path) == x.path
    ensures NamesRemovedIff(sourceId, current, removed.value, added, plan, x)
  {
    ProjectionForgetsRecoveredIff(current, removed.value, added, x);
    if Normal(removed.value) != removed.value {
      DeletedIff(sourceId, Projected(current, removed, added), plan.keepCount, plan, x);
    } else {
      DeletesListed(sourceId, current, removed, added, plan);
    }
  }

  /** So it is for both retentions of a plan and the snapshots its own recovery deletes. */
  lemma RetentionNamesRecoveredIff(i: SourceInput, p: SourcePlan, x: SnapshotInfo)
    requires IsSourcePlan(i, p) && Normal(x.path) == x.path
    requires NoTies(LocalProjection(i, p.name, p.recovery)) && NoTies(RemoteProjection(i, p.name, p.recovery))
    ensures var removed, added := LocalDeletion(p.recovery.effects), AddedLocal(i, p.name);
            IsRecovered(i.source.id, i.local, removed, added, x) ==>
              NamesRemovedIff(i.source.id, i.local, removed.value, added, p.localRetention, x)
    ensures var removed, added := RemoteDeletion(p.recovery.effects), AddedRemote(i, p.name);
            IsRecovered(i.source.id, i.remote, removed, added, x) ==>
              NamesRemovedIff(i.source.id, i.remote, removed.value, added, p.remoteRetention, x)
  {
    if IsRecovered(i.source.id, i.local, LocalDeletion(p.recovery.effects), AddedLocal(i, p.name), x) {
      RemovedIsNamedIff(i.source.id, i.local, LocalDeletion(p.recovery.effects), AddedLocal(i, p.name), p.localRetention, x);
    }
    if IsRecovered(i.source.id, i.remote, RemoteDeletion(p.recovery.effects), AddedRemote(i, p.name), x) {
      RemovedIsNamedIff(i.source.id, i.remote, RemoteDeletion(p.recovery.effects), AddedRemote(i, p.name), p.remoteRetention, x);
    }
  }

  // ---- the whole run ----

  datatype PlanningSnapshot = PlanningSnapshot(
    local: map<string, seq<SnapshotInfo>>,
    remote: map<string, seq<SnapshotInfo>>,
    markers: map<string, Option<PendingMarker>>,
    pending: map<string, Option<SnapshotMetadata>>,
    stateDir: Path)

  datatype Planning = NotPlanned | Planned(input: SourceInput, plan: SourcePlan)

  ghost predicate MeetsContract(p: Planning) {
    p.Planned? ==> IsSourcePlan(p.input, p.plan)
  }

  /** A source's input together with a plan that meets the contract of planning one source. */
  type SourceRunPlan = p: Planning | MeetsContract(p) witness NotPlanned

  datatype Failing = DuplicateSource | SourceFailed(input: SourceInput, error: PlanError)

  ghost predicate IsJustified(f: Failing) {
    f.SourceFailed? ==> IsPlanFailure(f.input, f.error)
  }

  /** A duplicate source, or a source together with the reason it cannot be planned. */
  type RunPlanError = f: Failing | IsJustified(f) witness DuplicateSource

  datatype BackupRunPlan = BackupRunPlan(profileId: string, runId: string, mountPoint: Path, sources: seq<SourceRunPlan>)

  datatype RunInput = RunInput(profile: Profile, found: PlanningSnapshot, runId: string, now: TimePoint)

  function InputFor(run: RunInput, source: SourceConfig): SourceInput {
    SourceInput(
      run.profile.settings,
      source,
      if source.id in run.found.local then run.found.local[source.id] else [],
      if source.id in run.found.remote then run.found.remote[source.id] else [],
      if source.id in run.found.markers then run.found.markers[source.id] else None,
      if source.id in run.found.pending then run.found.pending[source.id] else None,
      run.found.stateDir,
      run.runId,
      run.now)
  }

  function Enabled(sources: seq<SourceConfig>): (r: seq<SourceConfig>) {
    if sources == [] then []
    else
      var front := Enabled(sources[..|sources| - 1]);
      var last := sources[|sources| - 1];
      if last.enabled then front + [last] else front
  }

  ghost predicate DistinctIds(sources: seq<SourceConfig>) {
    forall j, k :: 0 <= j < k < |sources| ==> sources[j].id != sources[k].id
  }

  ghost function Ids(sources: seq<SourceConfig>): set<string> {
    if sources == [] then {} else Ids(sources[..|sources| - 1]) + {sources[|sources| - 1].id}
  }

  lemma {:induction false} IdsOf(sources: seq<SourceConfig>, id: string)
    ensures id in Ids(sources) <==> exists k :: 0 <= k < |sources| && sources[k].id == id
  {
    if sources != [] {
      IdsOf(sources[..|sources| - 1], id);
    }
  }

  lemma DistinctStep(sources: seq<SourceConfig>, source: SourceConfig)
    requires DistinctIds(sources)
    ensures Ids(sources + [source]) == Ids(sources) + {source.id}
    ensures source.id !in Ids(sources) ==> DistinctIds(sources + [source])
    ensures source.id in Ids(sources) ==> !DistinctIds(sources + [source])
  {
    assert (sources + [source])[..|sources|] == sources;
    IdsOf(sources, source.id);
    if source.id in Ids(sources) {
      var k :| 0 <= k < |sources| && sources[k].id == source.id;
      assert (sources + [source])[k].id == (sources + [source])[|sources|].id;
    }
  }

  /** The inputs of the enabled sources, in configuration order. */
  ghost function Inputs(run: RunInput, sources: seq<SourceConfig>): (r: seq<SourceInput>)
    ensures |r| == |sources|
  {
    if sources == [] then [] else Inputs(run, sources[..|sources| - 1]) + [InputFor(run, sources[|sources| - 1])]
  }

  /** The plans are those of the first inputs, in their order. */
  ghost predicate Follows(inputs: seq<SourceInput>, planned: seq<Planning>) {
    && |planned| <= |inputs|
    && forall k :: 0 <= k < |planned| ==> planned[k].Planned? && planned[k].input == inputs[k]
  }

  /** One source plan for each of the inputs, in their order. */
  ghost predicate PlansSources(inputs: seq<SourceInput>, planned: seq<SourceRunPlan>) {
    |planned| == |inputs| && Follows(inputs, planned)
  }

  function PlannedFor(i: SourceInput, p: SourcePlan): SourceRunPlan
    requires IsSourcePlan(i, p)
  {
    Planned(i, p)
  }

  function FailedFor(i: SourceInput, e: PlanError): RunPlanError
    requires IsPlanFailure(i, e)
  {
    SourceFailed(i, e)
  }

  method PlanOneSource(input: SourceInput) returns (r: Result<SourceRunPlan, RunPlanError>)
    ensures r.Ok? ==> r.value.Planned? && r.value.input == input
    ensures r.Err? ==> r.error.SourceFailed? && r.error.input == input
  {
    var planned := BuildSourceRunPlan(input);
    if planned.Err? {
      return Err(FailedFor(input, planned.error));
    }
    return Ok(PlannedFor(input, planned.value));
  }

  /** The plans of the first sources, and the failure of the next. */
  method PlanInputs(inputs: seq<SourceInput>) returns (sources: seq<SourceRunPlan>, error: Option<RunPlanError>)
    ensures Follows(inputs, sources)
    ensures error.None? ==> |sources| == |inputs|
    ensures error.Some? ==> error.value.SourceFailed? && |sources| < |inputs| && error.value.input == inputs[|sources|]
  {
    sources := [];
    for k := 0 to |inputs|
      invariant |sources| == k && Follows(inputs, sources)
    {
      var planned := PlanOneSource(inputs[k]);
      if planned.Err? {
        return sources, Some(planned.error);
      }
      FollowsOneMore(inputs, sources, planned.value);
      sources := sources + [planned.value];
    }
    return sources, None;
  }

  lemma FollowsOneMore(inputs: seq<SourceInput>, planned: seq<Planning>, next: Planning)
    requires Follows(inputs, planned) && |planned| < |inputs|
    requires next.Planned? && next.input == inputs[|planned|]
    ensures Follows(inputs, planned + [next])
  {}

  /** The inputs of the enabled sources up to the first whose identifier is taken. */
  method CollectInputs(run: RunInput) returns (inputs: seq<SourceInput>, duplicate: bool)
    ensures inputs <= Inputs(run, Enabled(run.profile.sources))
    ensures DistinctIds(Enabled(run.profile.sources)[..|inputs|])
    ensures duplicate ==> DuplicateAt(Enabled(run.profile.sources), |inputs|)
    ensures !duplicate ==> |inputs| == |Enabled(run.profile.sources)|
  {
    var configured := run.profile.sources;
    var seen: set<string> := {};
    ghost var enabled: seq<SourceConfig> := [];
    inputs := [];
    for k := 0 to |configured|
      invariant enabled == Enabled(configured[..k])
      invariant DistinctIds(enabled) && seen == Ids(enabled)
      invariant inputs == Inputs(run, enabled)
    {
      var source := configured[k];
      EnabledStep(configured, k);
      if source.enabled {
        DistinctStep(enabled, source);
        if source.id in seen {
          EnabledPrefix(configured, k + 1);
          FoundDuplicate(run, Enabled(configured), enabled, source);
          return inputs, true;
        }
        seen := seen + {source.id};
        InputsOneMore(run, enabled, source);
        enabled := enabled + [source];
        inputs := inputs + [InputFor(run, source)];
      }
    }
    assert configured[..|configured|] == configured;
    assert enabled[..|enabled|] == enabled;
    return inputs, false;
  }

  lemma FoundDuplicate(run: RunInput, all: seq<SourceConfig>, front: seq<SourceConfig>, next: SourceConfig)
    requires front + [next] <= all && DistinctIds(front) && !DistinctIds(front + [next])
    ensures Inputs(run, front) <= Inputs(run, all) && DistinctIds(all[..|front|]) && DuplicateAt(all, |front|)
  {
    PrefixOfLonger(all, front, next);
    InputsPrefix(run, front, all);
  }

  lemma PrefixOfLonger(all: seq<SourceConfig>, front: seq<SourceConfig>, next: SourceConfig)
    requires front + [next] <= all
    ensures front <= all && all[..|front|] == front && all[..|front| + 1] == front + [next]
  {
    assert all[..|front + [next]|] == front + [next];
    assert all[..|front|] == (front + [next])[..|front|];
  }

  /** The source at k is the first whose identifier an earlier one has. */
  ghost predicate DuplicateAt(sources: seq<SourceConfig>, k: nat) {
    k < |sources| && DistinctIds(sources[..k]) && !DistinctIds(sources[..k + 1])
  }

  /** The source at k is the first that fails: those before it have different identifiers and plans, and it
      is a duplicate, or has an identifier of its own and cannot be planned. */
  ghost predicate FailsFirst(run: RunInput, planned: seq<Planning>, e: Failing) {
    var sources, k := Enabled(run.profile.sources), |planned|;
    && k < |sources| && Follows(Inputs(run, sources), planned)
    && match e
       case DuplicateSource => DuplicateAt(sources, k)
       case SourceFailed(input, _) => DistinctIds(sources[..k + 1]) && input == Inputs(run, sources)[k]
  }

  lemma FollowsLonger(inputs: seq<SourceInput>, all: seq<SourceInput>, planned: seq<Planning>)
    requires Follows(inputs, planned) && inputs <= all
    ensures Follows(all, planned)
  {}

  lemma DistinctShorter(sources: seq<SourceConfig>, j: nat, k: nat)
    requires j <= k <= |sources| && DistinctIds(sources[..k])
    ensures DistinctIds(sources[..j])
  {
    forall a, b | 0 <= a < b < j ensures sources[..j][a].id != sources[..j][b].id {
      assert sources[..k][a].id != sources[..k][b].id;
    }
  }

  ghost predicate IsFirstFailure(run: RunInput, e: Failing) {
    exists planned: seq<SourceRunPlan> :: FailsFirst(run, planned, e)
  }

  lemma FirstToFail(run: RunInput, inputs: seq<SourceInput>, planned: seq<SourceRunPlan>, e: Failing)
    requires inputs <= Inputs(run, Enabled(run.profile.sources)) && DistinctIds(Enabled(run.profile.sources)[..|inputs|])
    requires Follows(Inputs(run, Enabled(run.profile.sources)), planned)
    requires e.SourceFailed? && |planned| < |inputs| && e.input == inputs[|planned|]
    ensures IsFirstFailure(run, e)
  {
    DistinctShorter(Enabled(run.profile.sources), |planned| + 1, |inputs|);
    assert FailsFirst(run, planned, e);
  }

  lemma FirstDuplicate(run: RunInput, inputs: seq<SourceInput>, planned: seq<SourceRunPlan>)
    requires DuplicateAt(Enabled(run.profile.sources), |inputs|) && |planned| == |inputs|
    requires Follows(Inputs(run, Enabled(run.profile.sources)), planned)
    ensures IsFirstFailure(run, DuplicateSource)
  {
    assert FailsFirst(run, planned, DuplicateSource);
  }

  /** A plan holds one source plan for every enabled source, in configuration order, and no source twice;
      otherwise the error is that of the first source that fails. Planning is pure, so planning after the
      identifiers were checked gives the same error as checking and planning in turn. */
  method BuildBackupRunPlan(run: RunInput) returns (r: Result<BackupRunPlan, RunPlanError>)
    ensures r.Ok? ==>
      && r.value.profileId == run.profile.id && r.value.runId == run.runId && r.value.mountPoint == run.profile.settings.mountPoint
      && DistinctIds(Enabled(run.profile.sources))
      && PlansSources(Inputs(run, Enabled(run.profile.sources)), r.value.sources)
    ensures r.Err? ==> IsFirstFailure(run, r.error)
  {
    ghost var enabled := Enabled(run.profile.sources);
    var inputs, duplicate := CollectInputs(run);
    var sources, error := PlanInputs(inputs);
    FollowsLonger(inputs, Inputs(run, enabled), sources);
    if error.Some? {
      FirstToFail(run, inputs, sources, error.value);
      return Err(error.value);
    }
    if duplicate {
      FirstDuplicate(run, inputs, sources);
      return Err(DuplicateSource);
    }
    assert enabled[..|enabled|] == enabled;
    return Ok(BackupRunPlan(run.profile.id, run.runId, run.profile.settings.mountPoint, sources));
  }

  lemma {:induction false} InputsPrefix(run: RunInput, front: seq<SourceConfig>, all: seq<SourceConfig>)
    requires front <= all
    ensures Inputs(run, front) <= Inputs(run, all)
    decreases |all|
  {
    if front != all {
      InputsPrefix(run, front, all[..|all| - 1]);
    }
  }

  lemma InputsOneMore(run: RunInput, sources: seq<SourceConfig>, source: SourceConfig)
    ensures Inputs(run, sources + [source]) == Inputs(run, sources) + [InputFor(run, source)]
  {
    assert (sources + [source])[..|sources|] == sources;
  }

  lemma EnabledStep(sources: seq<SourceConfig>, k: nat)
    requires k < |sources|
    ensures Enabled(sources[..k + 1]) == Enabled(sources[..k]) + if sources[k].enabled then [sources[k]] else []
  {
    assert sources[..k + 1][..k] == sources[..k];
  }

  lemma {:induction false} EnabledPrefix(sources: seq<SourceConfig>, k: nat)
    requires k <= |sources|
    ensures Enabled(sources[..k]) <= Enabled(sources)
    decreases |sources| - k
  {
    if k < |sources| {
      EnabledPrefix(sources, k + 1);
      assert sources[..k + 1][..k] == sources[..k];
    } else {
      assert sources[..k] == sources;
    }
  }
}
