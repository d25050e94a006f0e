/** Choosing the common parent of an incremental transfer by UUID identity. */
module IncrementalParent {
  import opened Core
  import opened Snapshots

  datatype Selection = Full | Incremental(localParent: SnapshotInfo, remoteParent: SnapshotInfo)

  datatype SelectionError = AmbiguousReceivedUuid(uuid: string) | NoMatchingParent

  datatype Query = Query(
    sourceId: string,
    local: seq<SnapshotInfo>,
    remote: seq<SnapshotInfo>,
    current: Option<Path>,
    required: bool)

  /** A remote snapshot that can serve as the far half of a pair. */
  predicate EligibleRemote(q: Query, r: SnapshotInfo) {
    r.sourceId == q.sourceId && r.readonly && r.receivedUuid != ""
  }

  /** A local snapshot that can serve as the near half: any but the one about to be created. */
  predicate EligibleLocal(q: Query, l: SnapshotInfo) {
    && l.sourceId == q.sourceId && l.readonly && l.uuid != ""
    && (q.current.None? || Normal(l.path) != Normal(q.current.value))
  }

  predicate Pair(q: Query, l: SnapshotInfo, r: SnapshotInfo) {
    EligibleLocal(q, l) && EligibleRemote(q, r) && UuidMatches(l.uuid, r.receivedUuid)
  }

  ghost predicate AmbiguousUuid(q: Query, uuid: string) {
    exists a, b :: a in q.remote && b in q.remote && EligibleRemote(q, a) && EligibleRemote(q, b)
      && a.receivedUuid == b.receivedUuid == uuid && a.path != b.path
  }

  ghost predicate Ambiguous(q: Query) {
    exists a, b :: a in q.remote && b in q.remote && EligibleRemote(q, a) && EligibleRemote(q, b)
      && a.receivedUuid == b.receivedUuid && a.path != b.path
  }

  ghost predicate HasPair(q: Query) {
    exists l, r :: l in q.local && r in q.remote && Pair(q, l, r)
  }

  ghost predicate HasRemote(q: Query) {
    exists r :: r in q.remote && r.sourceId == q.sourceId
  }

  /** The newest local snapshot of any pair, or why there is none. */
  ghost predicate IsSelection(q: Query, r: Result<Selection, SelectionError>) {
    match r
    case Err(AmbiguousReceivedUuid(uuid)) => AmbiguousUuid(q, uuid)
    case Err(NoMatchingParent) => !Ambiguous(q) && !HasPair(q) && q.required && HasRemote(q)
    case Ok(Full) => !Ambiguous(q) && !HasPair(q) && !(q.required && HasRemote(q))
    case Ok(Incremental(l, rm)) =>
      && !Ambiguous(q)
      && l in q.local && rm in q.remote && Pair(q, l, rm)
      && forall l', r' :: l' in q.local && r' in q.remote && Pair(q, l', r') ==> !Older(l, l')
  }

  /** What the table of remote snapshots by received UUID holds after the first n of them. */
  ghost predicate Indexed(q: Query, n: nat, table: seq<SnapshotInfo>)
    requires n <= |q.remote|
  {
    && (forall e :: e in table ==> e in q.remote && EligibleRemote(q, e))
    && (forall r :: r in q.remote[..n] && EligibleRemote(q, r) ==>
          exists e :: e in table && e.receivedUuid == r.receivedUuid && e.path == r.path)
    && (forall e, f :: e in table && f in table && e.receivedUuid == f.receivedUuid ==> e.path == f.path)
  }

  lemma IndexedIsUnambiguous(q: Query, table: seq<SnapshotInfo>)
    requires Indexed(q, |q.remote|, table)
    ensures !Ambiguous(q)
  {
    assert q.remote[..|q.remote|] == q.remote;
  }

  method FindReceived(table: seq<SnapshotInfo>, uuid: string) returns (found: Option<SnapshotInfo>)
    ensures found.Some? ==> found.value in table && found.value.receivedUuid == uuid
    ensures found.None? ==> forall e :: e in table ==> e.receivedUuid != uuid
  {
    for i := 0 to |table|
      invariant forall j :: 0 <= j < i ==> table[j].receivedUuid != uuid
    {
      if table[i].receivedUuid == uuid {
        return Some(table[i]);
      }
    }
    return None;
  }

  method IndexRemotes(q: Query) returns (exist: bool, table: Result<seq<SnapshotInfo>, SelectionError>)
    ensures table.Ok? ==> exist == HasRemote(q) && Indexed(q, |q.remote|, table.value)
    ensures table.Err? ==> table.error.AmbiguousReceivedUuid? && AmbiguousUuid(q, table.error.uuid)
  {
    exist := false;
    var byUuid: seq<SnapshotInfo> := [];
    for i := 0 to |q.remote|
      invariant exist == exists r :: r in q.remote[..i] && r.sourceId == q.sourceId
      invariant Indexed(q, i, byUuid)
    {
      var remote := q.remote[i];
      assert q.remote[..i + 1] == q.remote[..i] + [remote];
      if remote.sourceId == q.sourceId {
        exist := true;
        if remote.readonly && remote.receivedUuid != "" {
          var duplicate := FindReceived(byUuid, remote.receivedUuid);
          if duplicate.Some? && duplicate.value.path != remote.path {
            return exist, Err(AmbiguousReceivedUuid(remote.receivedUuid));
          }
          if duplicate.None? {
            byUuid := byUuid + [remote];
          }
        }
      }
    }
    assert q.remote[..|q.remote|] == q.remote;
    return exist, Ok(byUuid);
  }

  method CollectCandidates(q: Query) returns (candidates: seq<SnapshotInfo>)
    ensures forall l :: l in candidates <==> l in q.local && EligibleLocal(q, l)
  {
    candidates := [];
    for i := 0 to |q.local|
      invariant forall l :: l in candidates <==> l in q.local[..i] && EligibleLocal(q, l)
    {
      var local := q.local[i];
      assert q.local[..i + 1] == q.local[..i] + [local];
      if local.sourceId == q.sourceId && local.readonly && local.uuid != "" {
        if q.current.None? || Normal(local.path) != Normal(q.current.value) {
          candidates := candidates + [local];
        }
      }
    }
    assert q.local[..|q.local|] == q.local;
  }

  method SortedCandidates(q: Query) returns (candidates: seq<SnapshotInfo>)
    ensures AreCandidates(q, candidates)
  {
    var unsorted := CollectCandidates(q);
    candidates := Sort(unsorted, true);
    SortSorts(unsorted, true);
    assert forall l :: l in candidates <==> l in multiset(candidates);
    assert forall l :: l in unsorted <==> l in multiset(unsorted);
  }

  method SelectIncrementalParent(q: Query) returns (r: Result<Selection, SelectionError>)
    ensures IsSelection(q, r)
  {
    var exist, index := IndexRemotes(q);
    if index.Err? {
      r := Err(index.error);
    } else {
      IndexedIsUnambiguous(q, index.value);
      var candidates := SortedCandidates(q);
      var pair := FirstPair(q, index.value, candidates);
      if pair.Some? {
        r := Ok(Incremental(pair.value.0, pair.value.1));
      } else if exist && q.required {
        r := Err(NoMatchingParent);
      } else {
        r := Ok(Full);
      }
    }
  }

  /** The eligible local snapshots, newest first. */
  ghost predicate AreCandidates(q: Query, candidates: seq<SnapshotInfo>) {
    && Sorted(candidates, true)
    && forall l :: l in candidates <==> l in q.local && EligibleLocal(q, l)
  }

  /** The newest pair, or nothing if there is none. */
  ghost predicate IsNewestPair(q: Query, pair: Option<(SnapshotInfo, SnapshotInfo)>) {
    match pair
    case None => !HasPair(q)
    case Some((l, r)) => IsSelection(q, Ok(Incremental(l, r)))
  }

  ghost predicate UnmatchedTo(q: Query, candidates: seq<SnapshotInfo>, n: nat) {
    forall j :: 0 <= j < n <= |candidates| ==> Unmatched(q, candidates[j])
  }

  method FirstPair(q: Query, table: seq<SnapshotInfo>, candidates: seq<SnapshotInfo>)
    returns (pair: Option<(SnapshotInfo, SnapshotInfo)>)
    requires !Ambiguous(q) && Indexed(q, |q.remote|, table) && AreCandidates(q, candidates)
    ensures IsNewestPair(q, pair)
  {
    for i := 0 to |candidates|
      invariant UnmatchedTo(q, candidates, i)
    {
      var found := FindReceived(table, candidates[i].uuid);
      if found.Some? {
        MatchIsNewest(q, table, candidates, i, found.value);
        return Some((candidates[i], found.value));
      }
      OneMoreUnmatched(q, table, candidates, i);
    }
    NoneMatches(q, candidates);
    return None;
  }

  lemma MatchIsNewest(q: Query, table: seq<SnapshotInfo>, candidates: seq<SnapshotInfo>, i: nat, found: SnapshotInfo)
    requires !Ambiguous(q) && Indexed(q, |q.remote|, table) && AreCandidates(q, candidates)
    requires i < |candidates| && UnmatchedTo(q, candidates, i) && found in table && found.receivedUuid == candidates[i].uuid
    ensures IsNewestPair(q, Some((candidates[i], found)))
  {
    NewestPair(q, candidates, i, found);
  }

  lemma OneMoreUnmatched(q: Query, table: seq<SnapshotInfo>, candidates: seq<SnapshotInfo>, i: nat)
    requires Indexed(q, |q.remote|, table) && i < |candidates| && UnmatchedTo(q, candidates, i)
    requires forall e :: e in table ==> e.receivedUuid != candidates[i].uuid
    ensures UnmatchedTo(q, candidates, i + 1)
  {
    NotIndexed(q, table, candidates[i]);
  }

  lemma NoneMatches(q: Query, candidates: seq<SnapshotInfo>)
    requires AreCandidates(q, candidates) && UnmatchedTo(q, candidates, |candidates|)
    ensures IsNewestPair(q, None)
  {
    NoPair(q, candidates);
  }

  ghost predicate Unmatched(q: Query, l: SnapshotInfo) {
    forall r :: r in q.remote ==> !Pair(q, l, r)
  }

  lemma NotIndexed(q: Query, table: seq<SnapshotInfo>, l: SnapshotInfo)
    requires Indexed(q, |q.remote|, table)
    requires forall e :: e in table ==> e.receivedUuid != l.uuid
    ensures Unmatched(q, l)
  {
    assert q.remote[..|q.remote|] == q.remote;
  }

  lemma NewestPair(q: Query, candidates: seq<SnapshotInfo>, i: nat, found: SnapshotInfo)
    requires !Ambiguous(q)
    requires i < |candidates| && AreCandidates(q, candidates)
    requires forall j :: 0 <= j < i ==> Unmatched(q, candidates[j])
    requires found in q.remote && EligibleRemote(q, found) && found.receivedUuid == candidates[i].uuid
    ensures IsSelection(q, Ok(Incremental(candidates[i], found)))
  {
    forall l, r | l in q.local && r in q.remote && Pair(q, l, r) ensures !Older(candidates[i], l) {
      var k :| 0 <= k < |candidates| && candidates[k] == l;
      if k == i {
        BeforeIsIrreflexive(l, true);
      } else if k > i {
        assert !Before(candidates[k], candidates[i], true);
      }
    }
  }

  lemma NoPair(q: Query, candidates: seq<SnapshotInfo>)
    requires forall l :: l in q.local && EligibleLocal(q, l) ==> l in candidates
    requires forall j :: 0 <= j < |candidates| ==> Unmatched(q, candidates[j])
    ensures !HasPair(q)
  {}

  // ---- the choice does not depend on how the inventories are listed ----

  ghost predicate SameContents(a: seq<SnapshotInfo>, b: seq<SnapshotInfo>) {
    forall x :: x in a <==> x in b
  }

  ghost predicate PathsIdentify(s: seq<SnapshotInfo>) {
    forall a, b :: a in s && b in s && (a.path == b.path || PathText(a.path) == PathText(b.path)) ==> a == b
  }

  lemma SelectionIgnoresOrder(
      q: Query, q': Query, r: Result<Selection, SelectionError>, r': Result<Selection, SelectionError>)
    requires q'.(local := q.local, remote := q.remote) == q
    requires SameContents(q.local, q'.local) && SameContents(q.remote, q'.remote)
    requires PathsIdentify(q.local) && PathsIdentify(q.remote)
    requires IsSelection(q, r) && IsSelection(q', r')
    ensures r == r' || (Ambiguous(q) && r.Err? && r'.Err? && r.error.AmbiguousReceivedUuid? && r'.error.AmbiguousReceivedUuid?)
  {
    assert Ambiguous(q) <==> Ambiguous(q') by { SameAmbiguity(q, q'); }
    assert HasRemote(q) <==> HasRemote(q');
    assert HasPair(q) <==> HasPair(q') by { SamePairs(q, q'); }
    if r.Ok? && r.value.Incremental? && r'.Ok? && r'.value.Incremental? {
      var l, l' := r.value.localParent, r'.value.localParent;
      assert Pair(q, l', r'.value.remoteParent) && Pair(q', l, r.value.remoteParent);
      OlderIsTotal(l, l');
      assert l == l';
      assert r.value.remoteParent.path == r'.value.remoteParent.path;
    }
  }

  lemma SameAmbiguity(q: Query, q': Query)
    requires q'.(local := q.local, remote := q.remote) == q
    requires SameContents(q.remote, q'.remote)
    ensures Ambiguous(q) <==> Ambiguous(q')
  {
    if Ambiguous(q) {
      var a, b :| a in q.remote && b in q.remote && EligibleRemote(q, a) && EligibleRemote(q, b)
        && a.receivedUuid == b.receivedUuid && a.path != b.path;
      assert EligibleRemote(q', a) && EligibleRemote(q', b);
    }
    if Ambiguous(q') {
      var a, b :| a in q'.remote && b in q'.remote && EligibleRemote(q', a) && EligibleRemote(q', b)
        && a.receivedUuid == b.receivedUuid && a.path != b.path;
      assert EligibleRemote(q, a) && EligibleRemote(q, b);
    }
  }

  lemma SamePairs(q: Query, q': Query)
    requires q'.(local := q.local, remote := q.remote) == q
    requires SameContents(q.local, q'.local) && SameContents(q.remote, q'.remote)
    ensures HasPair(q) <==> HasPair(q')
  {
    if HasPair(q) {
      var l, r :| l in q.local && r in q.remote && Pair(q, l, r);
      assert Pair(q', l, r);
    }
    if HasPair(q') {
      var l, r :| l in q'.local && r in q'.remote && Pair(q', l, r);
      assert Pair(q, l, r);
    }
  }
}
