/** One source's snapshots on both sides, the marker between runs, and the effects a run has on them.

    The effects are those of the action handlers, taken one at a time, so that a run can stop between any
    two of them. Metadata reads are truthful, hooks leave the snapshot directories alone, and deleting or
    creating one subvolume or marker is atomic. */
module Repository {
  import opened Core
  import opened RuntimeTime
  import opened Snapshots
  import opened PendingRecovery
  import opened RunPlan

  /** The subvolume that is backed up, the marker file discovery reads, and how the snapshots are named and
      placed. The functions stand for parse_snapshot_name with its
      identifier, the two snapshot directories, the file name of a path and its normal form. */
  datatype Layout = Layout(
    sourceId: string,
    subvolume: Path,
    marker: Path,
    parse: string -> NameParse,
    local: string -> Path,
    remote: string -> Path,
    nameOf: Path -> string,
    normal: Path -> Path)

  /** The snapshots are listed as discovery reports them, keyed by path. The last four fields are history:
      the second the latest run was planned in, every UUID ever given to a local snapshot, the subvolume each
      of these was taken of, and the names committed on the target, in order. */
  datatype State = State(
    local: map<Path, SnapshotInfo>,
    remote: map<Path, SnapshotInfo>,
    incoming: map<Path, SnapshotMetadata>,
    marker: Option<PendingMarker>,
    clock: int,
    used: set<string>,
    origin: map<string, Path>,
    committed: seq<string>)

  const EMPTY: State := State(map[], map[], map[], None, INT64_MIN - 1, {}, map[], [])

  datatype Effect =
    | DeleteRemote(path: Path)
    | DeleteLocal(path: Path)
    | ClearMarker(file: Path)
    | ClearIncoming(directory: Path)
    | CallHook
    | WriteMarker(file: Path, sourceId: string, localPath: Path, finalPath: Path, runId: string)
    | CreateLocal(source: Path, path: Path)
    | Receive(local: Path, parent: Option<Path>, received: Path)
    | CheckReceived(local: Path, received: Path)
    | Commit(received: Path, final: Path)
    | CheckCommitted(local: Path, final: Path)

  // ---- what one effect does ----

  /** What discovery reports of a read-only subvolume at a path. */
  ghost predicate IsReported(w: Layout, path: Path, side: Side, x: SnapshotInfo) {
    && x.side == side && x.sourceId == w.sourceId && x.readonly
    && x.path == path && x.name == w.nameOf(path)
    && w.parse(x.name) == Named(x.timestamp, x.sequence)
  }

  function Outside(files: map<Path, SnapshotMetadata>, directory: Path): map<Path, SnapshotMetadata> {
    map p | p in files && !Within(p, directory) :: files[p]
  }

  /** A completed effect. Where the outcome is not determined, any outcome is allowed. */
  ghost predicate Step(w: Layout, s: State, e: Effect, s': State) {
    match e
    case DeleteRemote(path) => w.normal(path) in s.remote && s' == s.(remote := s.remote - {w.normal(path)})
    case DeleteLocal(path) => w.normal(path) in s.local && s' == s.(local := s.local - {w.normal(path)})
    // a marker kept anywhere else is not the one that discovery reads
    case ClearMarker(file) => s' == if file == w.marker then s.(marker := None) else s
    case ClearIncoming(directory) => s' == s.(incoming := Outside(s.incoming, directory))
    case CallHook => s' == s
    case WriteMarker(file, sourceId, localPath, finalPath, runId) =>
      if file != w.marker then s' == s
      else
        && s'.marker.Some?
        && s'.marker.value == PendingMarker(sourceId, Some(localPath), Some(finalPath), runId, s'.marker.value.timestamp)
        && s' == s.(marker := s'.marker)
    case CreateLocal(source, path) =>
      && path !in s.local && path in s'.local
      && var x := s'.local[path];
         && IsReported(w, path, Local, x) && x.uuid != "" && x.uuid !in s.used
         && s' == s.(local := s.local[path := x], used := s.used + {x.uuid}, origin := s.origin[x.uuid := source])
    case Receive(local, parent, received) =>
      && local in s.local && (parent.Some? ==> w.normal(parent.value) in s.local)
      && received in s'.incoming && s' == s.(incoming := s.incoming[received := s'.incoming[received]])
    case CheckReceived(local, received) =>
      && local in s.local && received in s.incoming && s' == s
      && s.incoming[received].isSubvolume && s.incoming[received].readonly
      && UuidMatches(s.local[local].uuid, s.incoming[received].receivedUuid)
    case Commit(received, final) =>
      && received in s.incoming && final !in s.remote && final in s'.remote
      && var x := s'.remote[final];
         && IsReported(w, final, Remote, x)
         && (x.receivedUuid == s.incoming[received].receivedUuid || x.receivedUuid == "")
         && s' == s.(remote := s.remote[final := x],
                     committed := if x.receivedUuid == "" then s.committed else s.committed + [x.name])
    case CheckCommitted(local, final) =>
      && local in s.local && final in s.remote && s' == s
      && UuidMatches(s.local[local].uuid, s.remote[final].receivedUuid)
  }

  /** An effect that failed or was cut short: nothing happened, or only uncommitted data under the incoming
      directory changed, or a commit whose received UUID did not check out was taken back. */
  ghost predicate Fails(s: State, e: Effect, s': State) {
    || s' == s
    || ((e.ClearIncoming? || e.Receive?) && s' == s.(incoming := s'.incoming))
    || (e.CheckCommitted? && e.local in s.local && e.final in s.remote
        && !UuidMatches(s.local[e.local].uuid, s.remote[e.final].receivedUuid)
        && s' == s.(remote := s.remote - {e.final}))
  }

  /** The states a run passes through while performing effects in order, stopping anywhere. */
  ghost predicate Executes(w: Layout, s: State, effects: seq<Effect>, states: seq<State>, end: State) {
    && 1 <= |states| <= |effects| + 1 && states[0] == s
    && (forall k :: 0 <= k < |states| - 1 ==> Step(w, states[k], effects[k], states[k + 1]))
    && (end == states[|states| - 1] || (|states| <= |effects| && Fails(states[|states| - 1], effects[|states| - 1], end)))
  }

  // ---- the effects of an action ----

  function OptionalEffect(path: Option<Path>, remote: bool): seq<Effect> {
    if path.None? then [] else if remote then [DeleteRemote(path.value)] else [DeleteLocal(path.value)]
  }

  function ClearingEffect(file: Option<Path>): seq<Effect> {
    if file.None? then [] else [ClearMarker(file.value)]
  }

  /** The handler deletes the remote snapshot, then the local one, and clears the marker last. */
  function RecoverySteps(effects: seq<RecoveryEffect>): seq<Effect> {
    OptionalEffect(RemoteDeletion(effects), true) + OptionalEffect(LocalDeletion(effects), false)
    + ClearingEffect(MarkerClearing(effects))
  }

  function Deletions(snapshots: seq<SnapshotInfo>, remote: bool): (r: seq<Effect>)
    ensures |r| == |snapshots|
    ensures forall k :: 0 <= k < |r| ==> r[k] == if remote then DeleteRemote(snapshots[k].path) else DeleteLocal(snapshots[k].path)
  {
    seq(|snapshots|, k requires 0 <= k < |snapshots| =>
      if remote then DeleteRemote(snapshots[k].path) else DeleteLocal(snapshots[k].path))
  }

  function ActionSteps(a: Action): seq<Effect> {
    match a
    case RecoverPending(_, recovery) => RecoverySteps(recovery.effects)
    case CleanupIncoming(_, directory) => [ClearIncoming(directory)]
    case RunHook(_, _, _) => [CallHook]
    case CreateSnapshot(id, source, _, snapshot, final, stateDirectory, runId) =>
      [WriteMarker(MarkerFile(stateDirectory, id), id, snapshot, final, runId), CreateLocal(source, snapshot)]
    case SendReceive(_, snapshot, parent, _, directory) => [Receive(snapshot, parent, Join(directory, Filename(snapshot)))]
    case VerifyReceived(_, local, received) => [CheckReceived(local, received)]
    case CommitReceived(_, local, received, final) => [Commit(received, final), CheckCommitted(local, final)]
    case ApplyRemoteRetention(_, retention) => Deletions(retention.deleteSnapshots, true)
    case ApplyLocalRetention(_, retention) => Deletions(retention.deleteSnapshots, false)
    case CleanupSource(_, received, directory, marker, _) => [ClearIncoming(received), ClearIncoming(directory), ClearMarker(marker)]
  }

  function Steps(actions: seq<Action>): seq<Effect> {
    if actions == [] then [] else ActionSteps(actions[0]) + Steps(actions[1..])
  }

  lemma {:induction false} StepsConcat(a: seq<Action>, b: seq<Action>)
    ensures Steps(a + b) == Steps(a) + Steps(b)
  {
    if a == [] {
      assert a + b == b;
    } else {
      assert (a + b)[1..] == a[1..] + b;
      StepsConcat(a[1..], b);
    }
  }
}
