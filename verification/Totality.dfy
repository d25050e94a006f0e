/** Every input has an outcome that the contract of planning admits, so what is said of all outcomes is said of some. */
module Totality {
  import opened Core
  import opened RuntimeTime
  import opened Snapshots
  import opened IncrementalParent
  import opened PendingRecovery
  import opened Retention
  import opened RunPlan

  lemma RetentionExists(sourceId: string, snapshots: seq<SnapshotInfo>, keepCount: nat) returns (plan: RetentionPlan)
    ensures IsRetention(sourceId, snapshots, keepCount, plan)
  {
    var matching := Sort(Matching(sourceId, snapshots), false);
    SortSorts(Matching(sourceId, snapshots), false);
    SameMultisetSameLength(matching, Matching(sourceId, snapshots));
    var n := if keepCount == 0 || |matching| <= keepCount then 0 else |matching| - keepCount;
    plan := RetentionPlan(sourceId, keepCount, matching[n..], matching[..n]);
    SplitKeepsAll(matching, n);
  }

  lemma SplitKeepsAll(s: seq<SnapshotInfo>, n: nat)
    requires n <= |s|
    ensures s[..n] + s[n..] == s && multiset(s[..n]) + multiset(s[n..]) == multiset(s)
  {
    assert s[..n] + s[n..] == s;
  }

  lemma {:induction false} SearchFrom(base: string, local: seq<SnapshotInfo>, k: nat) returns (r: Option<string>)
    requires k <= 100 && forall j :: 0 <= j < k ==> NameTaken(local, NameInSecond(base, j))
    ensures IsFirstFree(base, local, r)
    decreases 100 - k
  {
    if k == 100 {
      r := None;
    } else if NameTaken(local, NameInSecond(base, k)) {
      r := SearchFrom(base, local, k + 1);
    } else {
      r := Some(NameInSecond(base, k));
    }
  }

  // ---- the newest pair ----

  ghost predicate IsMatched(q: Query, l: SnapshotInfo) {
    !Unmatched(q, l)
  }

  /** The newest of the first n local snapshots that have a match. */
  lemma {:induction false} NewestMatched(q: Query, n: nat) returns (l: SnapshotInfo)
    requires n <= |q.local| && exists j :: 0 <= j < n && IsMatched(q, q.local[j])
    ensures l in q.local && IsMatched(q, l)
    ensures forall j :: 0 <= j < n && IsMatched(q, q.local[j]) ==> !Older(l, q.local[j])
  {
    var last := q.local[n - 1];
    if !IsMatched(q, last) {
      l := NewestMatched(q, n - 1);
    } else if exists j :: 0 <= j < n - 1 && IsMatched(q, q.local[j]) {
      var best := NewestMatched(q, n - 1);
      l := if Older(best, last) then last else best;
      NewerStays(q, n, best, l);
    } else {
      l := last;
      BeforeIsIrreflexive(last, false);
    }
  }

  lemma NewerStays(q: Query, n: nat, best: SnapshotInfo, l: SnapshotInfo)
    requires 0 < n <= |q.local| && l == if Older(best, q.local[n - 1]) then q.local[n - 1] else best
    requires forall j :: 0 <= j < n - 1 && IsMatched(q, q.local[j]) ==> !Older(best, q.local[j])
    ensures forall j :: 0 <= j < n && IsMatched(q, q.local[j]) ==> !Older(l, q.local[j])
  {
    forall j | 0 <= j < n && IsMatched(q, q.local[j]) ensures !Older(l, q.local[j]) {
      BeforeIsIrreflexive(l, false);
      if l != best && j < n - 1 {
        OlderIsAsymmetric(best, l);
        OlderIsNegativelyTransitive(l, best, q.local[j]);
      }
    }
  }

  lemma PairExists(q: Query) returns (sel: Selection)
    requires !Ambiguous(q) && HasPair(q)
    ensures IsSelection(q, Ok(sel))
  {
    var a, b :| a in q.local && b in q.remote && Pair(q, a, b);
    var j :| 0 <= j < |q.local| && q.local[j] == a;
    assert IsMatched(q, q.local[j]);
    var l := NewestMatched(q, |q.local|);
    var r :| r in q.remote && Pair(q, l, r);
    forall l', r' | l' in q.local && r' in q.remote && Pair(q, l', r') ensures !Older(l, l') {
      var k :| 0 <= k < |q.local| && q.local[k] == l';
      assert IsMatched(q, q.local[k]);
    }
    sel := Incremental(l, r);
  }

  lemma SelectionExists(q: Query) returns (sel: Result<Selection, SelectionError>)
    ensures IsSelection(q, sel)
  {
    if Ambiguous(q) {
      var a, b :| a in q.remote && b in q.remote && EligibleRemote(q, a) && EligibleRemote(q, b)
        && a.receivedUuid == b.receivedUuid && a.path != b.path;
      sel := Err(AmbiguousReceivedUuid(a.receivedUuid));
    } else if HasPair(q) {
      var pair := PairExists(q);
      sel := Ok(pair);
    } else {
      sel := if q.required && HasRemote(q) then Err(NoMatchingParent) else Ok(Full);
    }
  }

  // ---- the plan ----

  lemma PlanWith(i: SourceInput, name: string, parent: Selection) returns (p: SourcePlan)
    requires PathError(i).None? && IsFirstFree(BaseName(i.source.id, i.now), i.local, Some(name))
    requires IsSelection(ParentQuery(i, name), Ok(parent)) && Representable(DayStart(i.now))
    ensures IsSourcePlan(i, p)
  {
    PlannedNameParses(i, name);
    var recovery := PlanPendingRecovery(RecoveryInputOf(i));
    var local := RetentionExists(i.source.id, LocalProjection(i, name, recovery), i.source.localRetention);
    var remote := RetentionExists(i.source.id, RemoteProjection(i, name, recovery), i.source.remoteRetention);
    p := SourcePlan(name, parent, recovery, local, remote, OrderedActions(i, name, parent, recovery, local, remote));
  }

  lemma OutcomeExists(i: SourceInput) returns (r: Result<SourcePlan, PlanError>)
    ensures IsSourcePlanResult(i, r)
  {
    if PathError(i).Some? {
      return Err(PathError(i).value);
    }
    var name := SearchFrom(BaseName(i.source.id, i.now), i.local, 0);
    if name.None? {
      return Err(NoFreeName);
    }
    var sel := SelectionExists(ParentQuery(i, name.value));
    if sel.Err? {
      r := Err(NoParent(sel.error));
    } else if !Representable(DayStart(i.now)) {
      r := Err(TimestampOverflow);
    } else {
      var p := PlanWith(i, name.value, sel.value);
      r := Ok(p);
    }
  }
}
