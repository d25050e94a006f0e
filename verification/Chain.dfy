/** The incremental chain: what every effect of every run keeps true of a source's snapshots. */
module Chain {
  import opened Core
  import opened Snapshots
  import opened PendingRecovery
  import opened Repository

  type Files = map<Path, SnapshotInfo>

  // ---- the invariant ----

  /** A name whose time lies no later than the clock. */
  ghost predicate Dated(w: Layout, name: string, clock: int) {
    w.parse(name).Named? && w.parse(name).timestamp <= clock
  }

  ghost predicate LocalFits(w: Layout, local: Files, clock: int, used: set<string>) {
    forall p :: p in local ==>
      && IsReported(w, p, Local, local[p]) && p == w.local(local[p].name) && local[p].timestamp <= clock
      && local[p].uuid != "" && local[p].uuid in used
  }

  ghost predicate RemoteFits(w: Layout, remote: Files, clock: int) {
    forall p :: p in remote ==>
      IsReported(w, p, Remote, remote[p]) && p == w.remote(remote[p].name) && remote[p].timestamp <= clock
  }

  /** Every copy on the target was recorded as committed. */
  ghost predicate CopiesRecorded(remote: Files, used: set<string>, committed: seq<string>) {
    forall p :: p in remote && remote[p].receivedUuid != "" ==>
      remote[p].receivedUuid in used && remote[p].name in committed
  }

  ghost predicate LocalUuids(local: Files) {
    forall p, q :: p in local && q in local && local[p].uuid == local[q].uuid ==> p == q
  }

  ghost predicate RemoteUuids(remote: Files) {
    forall p, q :: p in remote && q in remote && remote[p].receivedUuid == remote[q].receivedUuid != "" ==> p == q
  }

  /** A local and a remote snapshot that are copies of each other share their name. */
  ghost predicate CopiesShareNames(local: Files, remote: Files) {
    forall p, q :: p in local && q in remote && local[p].uuid == remote[q].receivedUuid != "" ==> local[p].name == remote[q].name
  }

  function Tip(committed: seq<string>): Option<string> {
    if committed == [] then None else Some(committed[|committed| - 1])
  }

  /** Both halves of a committed snapshot are present and match. */
  ghost predicate Linked(w: Layout, local: Files, remote: Files, name: string) {
    && w.local(name) in local && w.remote(name) in remote
    && UuidMatches(local[w.local(name)].uuid, remote[w.remote(name)].receivedUuid)
  }

  ghost predicate TipIsLinked(w: Layout, local: Files, remote: Files, committed: seq<string>) {
    Tip(committed).Some? ==> Linked(w, local, remote, Tip(committed).value)
  }

  ghost predicate MarkerFor(w: Layout, m: PendingMarker, name: string) {
    m.sourceId == w.sourceId && m.localPath == Some(w.local(name)) && m.finalPath == Some(w.remote(name))
  }

  ghost predicate MarkerFits(w: Layout, marker: Option<PendingMarker>, clock: int) {
    marker.Some? ==> exists name :: MarkerFor(w, marker.value, name) && Dated(w, name, clock)
  }

  /** Every snapshot, and so every copy of one, was taken of the source's own subvolume. */
  ghost predicate OneOrigin(w: Layout, used: set<string>, origin: map<string, Path>) {
    forall u :: u in used ==> u in origin && origin[u] == w.subvolume
  }

  ghost predicate Inv(w: Layout, s: State) {
    && OneOrigin(w, s.used, s.origin)
    && LocalFits(w, s.local, s.clock, s.used)
    && RemoteFits(w, s.remote, s.clock)
    && CopiesRecorded(s.remote, s.used, s.committed)
    && LocalUuids(s.local)
    && RemoteUuids(s.remote)
    && CopiesShareNames(s.local, s.remote)
    && TipIsLinked(w, s.local, s.remote, s.committed)
    && MarkerFits(w, s.marker, s.clock)
  }

  lemma EmptyIsFine(w: Layout)
    ensures Inv(w, EMPTY)
  {}

  // ---- single effects ----

  lemma DropRemote(w: Layout, s: State, p: Path)
    requires Inv(w, s)
    requires Tip(s.committed).Some? ==> p != w.remote(Tip(s.committed).value)
    ensures Inv(w, s.(remote := s.remote - {p}))
  {
    var remote := s.remote - {p};
    assert RemoteFits(w, remote, s.clock);
    assert CopiesRecorded(remote, s.used, s.committed);
    assert RemoteUuids(remote);
    assert CopiesShareNames(s.local, remote);
    assert TipIsLinked(w, s.local, remote, s.committed);
  }

  lemma DropLocal(w: Layout, s: State, p: Path)
    requires Inv(w, s)
    requires Tip(s.committed).Some? ==> p != w.local(Tip(s.committed).value)
    ensures Inv(w, s.(local := s.local - {p}))
  {
    var local := s.local - {p};
    assert LocalFits(w, local, s.clock, s.used);
    assert LocalUuids(local);
    assert CopiesShareNames(local, s.remote);
    assert TipIsLinked(w, local, s.remote, s.committed);
  }

  lemma SetMarker(w: Layout, s: State, m: Option<PendingMarker>)
    requires Inv(w, s) && MarkerFits(w, m, s.clock)
    ensures Inv(w, s.(marker := m))
  {}

  lemma SetIncoming(w: Layout, s: State, files: map<Path, SnapshotMetadata>)
    requires Inv(w, s)
    ensures Inv(w, s.(incoming := files))
  {}

  lemma AdvanceClock(w: Layout, s: State, clock: int)
    requires Inv(w, s) && s.clock <= clock
    ensures Inv(w, s.(clock := clock))
  {
    assert LocalFits(w, s.local, clock, s.used);
    assert RemoteFits(w, s.remote, clock);
    assert MarkerFits(w, s.marker, clock);
  }

  /** Different names have different paths on either side. */
  ghost predicate NamesPlaced(w: Layout) {
    forall n :: w.nameOf(w.local(n)) == n && w.nameOf(w.remote(n)) == n
  }

  lemma AddLocal(w: Layout, s: State, name: string, x: SnapshotInfo)
    requires Inv(w, s) && NamesPlaced(w) && Dated(w, name, s.clock)
    requires w.local(name) !in s.local
    requires IsReported(w, w.local(name), Local, x) && x.uuid != "" && x.uuid !in s.used
    ensures Inv(w, s.(local := s.local[w.local(name) := x], used := s.used + {x.uuid}, origin := s.origin[x.uuid := w.subvolume]))
  {
    var local, used := s.local[w.local(name) := x], s.used + {x.uuid};
    assert x.name == name;
    assert LocalFits(w, local, s.clock, used);
    assert CopiesRecorded(s.remote, used, s.committed);
    assert LocalUuids(local);
    assert CopiesShareNames(local, s.remote);
    assert TipIsLinked(w, local, s.remote, s.committed);
  }

  /** A copy without a received UUID, left by a commit that was never checked. */
  lemma AddUnverified(w: Layout, s: State, name: string, x: SnapshotInfo)
    requires Inv(w, s) && NamesPlaced(w) && Dated(w, name, s.clock)
    requires w.remote(name) !in s.remote
    requires IsReported(w, w.remote(name), Remote, x) && x.receivedUuid == ""
    ensures Inv(w, s.(remote := s.remote[w.remote(name) := x]))
  {
    var remote := s.remote[w.remote(name) := x];
    assert x.name == name;
    assert RemoteFits(w, remote, s.clock);
    assert CopiesRecorded(remote, s.used, s.committed);
    assert RemoteUuids(remote);
    assert CopiesShareNames(s.local, remote);
    assert TipIsLinked(w, s.local, remote, s.committed);
  }

  lemma AddCommitted(w: Layout, s: State, name: string, x: SnapshotInfo)
    requires Inv(w, s) && NamesPlaced(w) && Dated(w, name, s.clock)
    requires w.local(name) in s.local && w.remote(name) !in s.remote
    requires IsReported(w, w.remote(name), Remote, x) && x.receivedUuid == s.local[w.local(name)].uuid
    ensures Inv(w, s.(remote := s.remote[w.remote(name) := x], committed := s.committed + [name]))
  {
    var remote, committed := s.remote[w.remote(name) := x], s.committed + [name];
    assert x.name == name && s.local[w.local(name)].name == name;
    assert RemoteFits(w, remote, s.clock);
    assert CopiesRecorded(remote, s.used, committed) by { RecordOneMore(s.remote, s.used, s.committed, w.remote(name), x); }
    NewCopyIsOnly(w, s, name, x);
    assert TipIsLinked(w, s.local, remote, committed);
  }

  lemma RecordOneMore(remote: Files, used: set<string>, committed: seq<string>, p: Path, x: SnapshotInfo)
    requires CopiesRecorded(remote, used, committed) && x.receivedUuid in used
    ensures CopiesRecorded(remote[p := x], used, committed + [x.name])
  {}

  lemma NewCopyIsOnly(w: Layout, s: State, name: string, x: SnapshotInfo)
    requires LocalFits(w, s.local, s.clock, s.used) && RemoteFits(w, s.remote, s.clock)
    requires LocalUuids(s.local) && RemoteUuids(s.remote) && CopiesShareNames(s.local, s.remote)
    requires w.local(name) in s.local && w.remote(name) !in s.remote && s.local[w.local(name)].name == name
    requires x.name == name && x.receivedUuid == s.local[w.local(name)].uuid
    ensures RemoteUuids(s.remote[w.remote(name) := x])
    ensures CopiesShareNames(s.local, s.remote[w.remote(name) := x])
  {}

  // ---- the phases of a run ----

  datatype Phase = Preparing | Snapshotted | Received | Verified | Unchecked | Finishing

  /** The run takes the snapshot `name` and receives it at `received`. It found the commits `committed` when it
      began, and is blocked if the target already held the name. */
  datatype Run = Run(name: string, received: Path, committed: seq<string>, blocked: bool)

  ghost predicate InPhase(w: Layout, s: State, r: Run, phase: Phase) {
    var here, there := w.local(r.name), w.remote(r.name);
    match phase
    case Preparing => s.committed == r.committed && here !in s.local && (there in s.remote <==> r.blocked)
    case Snapshotted => s.committed == r.committed && here in s.local && (there in s.remote <==> r.blocked)
    case Received => s.committed == r.committed && here in s.local && (there in s.remote <==> r.blocked)
    case Verified =>
      && s.committed == r.committed && here in s.local && (there in s.remote <==> r.blocked)
      && r.received in s.incoming && s.incoming[r.received].receivedUuid == s.local[here].uuid
    case Unchecked =>
      && !r.blocked && here in s.local && there in s.remote
      && s.committed == (if s.remote[there].receivedUuid == "" then r.committed else r.committed + [r.name])
    case Finishing => !r.blocked && s.committed == r.committed + [r.name]
  }

  ghost predicate Reached(w: Layout, s: State, r: Run, phase: Phase) {
    Inv(w, s) && Dated(w, r.name, s.clock) && InPhase(w, s, r, phase)
  }

  /** The effects a run may have in each phase. */
  ghost predicate Allowed(w: Layout, r: Run, phase: Phase, e: Effect) {
    match phase
    case Preparing =>
      (match e
       case DeleteRemote(path) =>
         w.normal(path) != w.remote(r.name) && (Tip(r.committed).Some? ==> w.normal(path) != w.remote(Tip(r.committed).value))
       case DeleteLocal(path) => Tip(r.committed).Some? ==> w.normal(path) != w.local(Tip(r.committed).value)
       case WriteMarker(file, id, localPath, finalPath, _) =>
         file == w.marker && id == w.sourceId && localPath == w.local(r.name) && finalPath == w.remote(r.name)
       case CreateLocal(source, path) => source == w.subvolume && path == w.local(r.name)
       case _ => e.ClearMarker? || e.ClearIncoming? || e.CallHook?)
    case Snapshotted => e.CallHook? || (e.Receive? && e.local == w.local(r.name) && e.received == r.received)
    case Received => e == CheckReceived(w.local(r.name), r.received)
    case Verified => e == Commit(r.received, w.remote(r.name))
    case Unchecked => e == CheckCommitted(w.local(r.name), w.remote(r.name))
    case Finishing =>
      (match e
       case DeleteRemote(path) => r.blocked || w.normal(path) != w.remote(r.name)
       case DeleteLocal(path) => w.normal(path) != w.local(r.name)
       case _ => e.ClearMarker? || e.ClearIncoming?)
  }

  function Next(phase: Phase, e: Effect): Phase {
    match e
    case CreateLocal(_, _) => Snapshotted
    case Receive(_, _, _) => Received
    case CheckReceived(_, _) => Verified
    case Commit(_, _) => Unchecked
    case CheckCommitted(_, _) => Finishing
    case _ => phase
  }

  lemma PreparingStep(w: Layout, s: State, r: Run, e: Effect, s': State)
    requires NamesPlaced(w)
    requires Reached(w, s, r, Preparing) && Allowed(w, r, Preparing, e) && Step(w, s, e, s')
    ensures Reached(w, s', r, Next(Preparing, e))
  {
    match e
    case DeleteRemote(path) => DropRemote(w, s, w.normal(path));
    case DeleteLocal(path) => DropLocal(w, s, w.normal(path));
    case ClearMarker(file) => SetMarker(w, s, s'.marker);
    case ClearIncoming(directory) => SetIncoming(w, s, s'.incoming);
    case CallHook =>
    case WriteMarker(_, _, _, _, _) =>
      assert MarkerFor(w, s'.marker.value, r.name);
      SetMarker(w, s, s'.marker);
    case CreateLocal(_, path) => AddLocal(w, s, r.name, s'.local[path]);
  }

  lemma TransferStep(w: Layout, s: State, r: Run, phase: Phase, e: Effect, s': State)
    requires NamesPlaced(w) && (phase.Snapshotted? || phase.Received?)
    requires Reached(w, s, r, phase) && Allowed(w, r, phase, e) && Step(w, s, e, s')
    ensures Reached(w, s', r, Next(phase, e))
  {
    if e.Receive? {
      SetIncoming(w, s, s'.incoming);
    }
  }

  lemma CommitStep(w: Layout, s: State, r: Run, e: Effect, s': State)
    requires NamesPlaced(w)
    requires Reached(w, s, r, Verified) && Allowed(w, r, Verified, e) && Step(w, s, e, s')
    ensures Reached(w, s', r, Unchecked)
  {
    var x := s'.remote[w.remote(r.name)];
    if x.receivedUuid == "" {
      AddUnverified(w, s, r.name, x);
    } else {
      AddCommitted(w, s, r.name, x);
    }
  }

  lemma CheckStep(w: Layout, s: State, r: Run, e: Effect, s': State)
    requires NamesPlaced(w)
    requires Reached(w, s, r, Unchecked) && Allowed(w, r, Unchecked, e) && Step(w, s, e, s')
    ensures Reached(w, s', r, Finishing)
  {}

  lemma FinishingStep(w: Layout, s: State, r: Run, e: Effect, s': State)
    requires Reached(w, s, r, Finishing) && Allowed(w, r, Finishing, e) && Step(w, s, e, s')
    ensures Reached(w, s', r, Finishing)
  {
    match e
    case DeleteRemote(path) => DropRemote(w, s, w.normal(path));
    case DeleteLocal(path) => DropLocal(w, s, w.normal(path));
    case ClearMarker(file) => SetMarker(w, s, s'.marker);
    case ClearIncoming(directory) => SetIncoming(w, s, s'.incoming);
  }

  lemma StepKeeps(w: Layout, s: State, r: Run, phase: Phase, e: Effect, s': State)
    requires NamesPlaced(w)
    requires Reached(w, s, r, phase) && Allowed(w, r, phase, e) && Step(w, s, e, s')
    ensures Reached(w, s', r, Next(phase, e))
  {
    match phase
    case Preparing => PreparingStep(w, s, r, e, s');
    case Snapshotted => TransferStep(w, s, r, phase, e, s');
    case Received => TransferStep(w, s, r, phase, e, s');
    case Verified => CommitStep(w, s, r, e, s');
    case Unchecked => CheckStep(w, s, r, e, s');
    case Finishing => FinishingStep(w, s, r, e, s');
  }

  /** A failed or interrupted effect keeps the invariant and the last commit. */
  lemma FailureKeeps(w: Layout, s: State, r: Run, phase: Phase, e: Effect, s': State)
    requires NamesPlaced(w)
    requires Reached(w, s, r, phase) && Allowed(w, r, phase, e) && Fails(s, e, s')
    ensures Inv(w, s') && s'.committed == s.committed && s'.clock == s.clock
  {
    if s' == s.(incoming := s'.incoming) {
      SetIncoming(w, s, s'.incoming);
    } else {
      assert phase == Unchecked && e == CheckCommitted(w.local(r.name), w.remote(r.name));
      TipIsElsewhere(w, s, r);
      DropRemote(w, s, w.remote(r.name));
    }
  }

  lemma TipIsElsewhere(w: Layout, s: State, r: Run)
    requires NamesPlaced(w) && Reached(w, s, r, Unchecked)
    requires !UuidMatches(s.local[w.local(r.name)].uuid, s.remote[w.remote(r.name)].receivedUuid)
    ensures Tip(s.committed).Some? ==> w.remote(Tip(s.committed).value) != w.remote(r.name)
  {
    var tip := Tip(s.committed);
    if tip.Some? {
      assert w.nameOf(w.remote(tip.value)) == tip.value;
    }
  }

  // ---- whole runs ----

  /** The effects suit a run that begins in this phase. */
  ghost predicate Suits(w: Layout, r: Run, phase: Phase, effects: seq<Effect>)
    decreases |effects|
  {
    effects == [] || (Allowed(w, r, phase, effects[0]) && Suits(w, r, Next(phase, effects[0]), effects[1..]))
  }

  function PhaseAfter(phase: Phase, effects: seq<Effect>): Phase
    decreases |effects|
  {
    if effects == [] then phase else PhaseAfter(Next(phase, effects[0]), effects[1..])
  }

  lemma {:induction false} SuitsConcat(w: Layout, r: Run, phase: Phase, a: seq<Effect>, b: seq<Effect>)
    requires Suits(w, r, phase, a) && Suits(w, r, PhaseAfter(phase, a), b)
    ensures Suits(w, r, phase, a + b) && PhaseAfter(phase, a + b) == PhaseAfter(PhaseAfter(phase, a), b)
    decreases |a|
  {
    if a == [] {
      assert a + b == b;
    } else {
      assert (a + b)[1..] == a[1..] + b;
      SuitsConcat(w, r, Next(phase, a[0]), a[1..], b);
    }
  }

  /** Every state of a run keeps the invariant, wherever the run stops. */
  lemma {:induction false} RunKeeps(w: Layout, s: State, r: Run, phase: Phase, effects: seq<Effect>, states: seq<State>, end: State)
    requires NamesPlaced(w) && Reached(w, s, r, phase)
    requires Suits(w, r, phase, effects) && Executes(w, s, effects, states, end)
    ensures Inv(w, end) && end.clock == s.clock && (end.committed == r.committed || end.committed == r.committed + [r.name])
    ensures |states| == |effects| + 1 && end == states[|effects|] ==> Reached(w, end, r, PhaseAfter(phase, effects))
    decreases |states|
  {
    if |states| == 1 {
      if end != s {
        FailureKeeps(w, s, r, phase, effects[0], end);
      }
    } else {
      StepKeeps(w, s, r, phase, effects[0], states[1]);
      assert states[1].clock == s.clock;
      ExecutesTail(w, s, effects, states, end);
      RunKeeps(w, states[1], r, Next(phase, effects[0]), effects[1..], states[1..], end);
    }
  }

  lemma ExecutesTail(w: Layout, s: State, effects: seq<Effect>, states: seq<State>, end: State)
    requires Executes(w, s, effects, states, end) && |states| > 1
    ensures Executes(w, states[1], effects[1..], states[1..], end)
  {
    var rest, tail := effects[1..], states[1..];
    forall k | 0 <= k < |tail| - 1 ensures Step(w, tail[k], rest[k], tail[k + 1]) {
      assert tail[k] == states[k + 1] && rest[k] == effects[k + 1] && tail[k + 1] == states[k + 2];
      assert Step(w, states[k + 1], effects[k + 1], states[k + 2]);
    }
  }
}
