/** Count-based retention of one source's snapshots. */
module Retention {
  import opened Core
  import opened Snapshots

  datatype RetentionPlan = RetentionPlan(
    sourceId: string,
    keepCount: nat,
    keep: seq<SnapshotInfo>,
    deleteSnapshots: seq<SnapshotInfo>)

  function Matching(sourceId: string, snapshots: seq<SnapshotInfo>): (r: seq<SnapshotInfo>)
    ensures forall x :: x in r <==> x in snapshots && x.sourceId == sourceId
    ensures multiset(r) <= multiset(snapshots)
  {
    if snapshots == [] then []
    else
      assert snapshots == snapshots[..|snapshots| - 1] + [snapshots[|snapshots| - 1]];
      var rest := Matching(sourceId, snapshots[..|snapshots| - 1]);
      var last := snapshots[|snapshots| - 1];
      if last.sourceId == sourceId then rest + [last] else rest
  }

  /** A split of the source's snapshots into the newest keepCount and the rest; a count of 0 keeps all. */
  ghost predicate IsRetention(sourceId: string, snapshots: seq<SnapshotInfo>, keepCount: nat, plan: RetentionPlan) {
    var matching := Matching(sourceId, snapshots);
    && plan.sourceId == sourceId && plan.keepCount == keepCount
    && multiset(plan.deleteSnapshots) + multiset(plan.keep) == multiset(matching)
    && |plan.keep| == (if keepCount == 0 || |matching| <= keepCount then |matching| else keepCount)
    && Sorted(plan.deleteSnapshots + plan.keep, false)
  }

  method CollectMatching(sourceId: string, snapshots: seq<SnapshotInfo>) returns (matching: seq<SnapshotInfo>)
    ensures matching == Matching(sourceId, snapshots)
  {
    matching := [];
    for i := 0 to |snapshots|
      invariant matching == Matching(sourceId, snapshots[..i])
    {
      assert snapshots[..i + 1][..i] == snapshots[..i];
      if snapshots[i].sourceId == sourceId {
        matching := matching + [snapshots[i]];
      }
    }
    assert snapshots[..|snapshots|] == snapshots;
  }

  method PlanCountRetention(sourceId: string, snapshots: seq<SnapshotInfo>, keepCount: nat) returns (plan: RetentionPlan)
    ensures IsRetention(sourceId, snapshots, keepCount, plan)
  {
    var unsorted := CollectMatching(sourceId, snapshots);
    var matching := Sort(unsorted, false);
    SortSorts(unsorted, false);
    SameMultisetSameLength(matching, unsorted);
    var deleteCount := if keepCount == 0 || |matching| <= keepCount then 0 else |matching| - keepCount;
    assert matching[..deleteCount] + matching[deleteCount..] == matching;
    assert multiset(matching[..deleteCount]) + multiset(matching[deleteCount..]) == multiset(matching);
    plan := RetentionPlan(sourceId, keepCount, matching[deleteCount..], matching[..deleteCount]);
  }

  lemma SameMultisetSameLength(a: seq<SnapshotInfo>, b: seq<SnapshotInfo>)
    requires multiset(a) == multiset(b)
    ensures |a| == |b|
  {
    assert |multiset(a)| == |a| && |multiset(b)| == |b|;
  }

  lemma KeptIsNotOlder(sourceId: string, snapshots: seq<SnapshotInfo>, keepCount: nat, plan: RetentionPlan,
                       kept: SnapshotInfo, deleted: SnapshotInfo)
    requires IsRetention(sourceId, snapshots, keepCount, plan)
    requires kept in plan.keep && deleted in plan.deleteSnapshots
    ensures !Older(kept, deleted)
  {
    var d :| 0 <= d < |plan.deleteSnapshots| && plan.deleteSnapshots[d] == deleted;
    var k :| 0 <= k < |plan.keep| && plan.keep[k] == kept;
    var all := plan.deleteSnapshots + plan.keep;
    assert all[d] == deleted && all[|plan.deleteSnapshots| + k] == kept;
    assert !Before(all[|plan.deleteSnapshots| + k], all[d], false);
  }

  /** The one snapshot newer than every other of the source survives, whatever the count. */
  lemma NewestIsKept(sourceId: string, snapshots: seq<SnapshotInfo>, keepCount: nat, plan: RetentionPlan, x: SnapshotInfo)
    requires IsRetention(sourceId, snapshots, keepCount, plan)
    requires multiset(snapshots)[x] == 1
    requires forall y :: y in snapshots && y.sourceId == sourceId && y != x ==> Older(y, x)
    ensures x !in plan.deleteSnapshots
  {
    if x in plan.deleteSnapshots {
      var matching := Matching(sourceId, snapshots);
      assert |multiset(plan.deleteSnapshots) + multiset(plan.keep)| == |multiset(matching)|;
      assert |plan.keep| > 0;
      var k := plan.keep[0];
      assert k in multiset(matching);
      assert multiset(plan.deleteSnapshots)[x] >= 1;
      assert k != x;
      KeptIsNotOlder(sourceId, snapshots, keepCount, plan, k, x);
      assert false;
    }
  }

  lemma DeletedIsListed(sourceId: string, snapshots: seq<SnapshotInfo>, keepCount: nat, plan: RetentionPlan, x: SnapshotInfo)
    requires IsRetention(sourceId, snapshots, keepCount, plan)
    requires x in plan.deleteSnapshots
    ensures x in snapshots && x.sourceId == sourceId
  {
    assert x in multiset(plan.deleteSnapshots);
    assert x in multiset(Matching(sourceId, snapshots));
  }

  // ---- exactly which snapshots go ----

  /** The order does not tell the two apart. */
  predicate Tie(a: SnapshotInfo, b: SnapshotInfo) {
    a.timestamp == b.timestamp && a.sequence == b.sequence && PathText(a.path) == PathText(b.path)
  }

  ghost predicate NoTies(snapshots: seq<SnapshotInfo>) {
    forall j, k :: 0 <= j < k < |snapshots| ==> !Tie(snapshots[j], snapshots[k])
  }

  /** The source's snapshots that rank after x. */
  ghost function Newer(sourceId: string, snapshots: seq<SnapshotInfo>, x: SnapshotInfo): set<SnapshotInfo> {
    set y | y in snapshots && y.sourceId == sourceId && Older(x, y)
  }

  lemma OneIsOlder(snapshots: seq<SnapshotInfo>, x: SnapshotInfo, y: SnapshotInfo)
    requires NoTies(snapshots) && x in snapshots && y in snapshots && x != y
    ensures Older(x, y) || Older(y, x)
  {
    var j :| 0 <= j < |snapshots| && snapshots[j] == x;
    var k :| 0 <= k < |snapshots| && snapshots[k] == y;
    assert !Tie(snapshots[if j < k then j else k], snapshots[if j < k then k else j]);
    OlderIsTotal(x, y);
  }

  ghost predicate Distinct(s: seq<SnapshotInfo>) {
    forall j, k :: 0 <= j < k < |s| ==> s[j] != s[k]
  }

  lemma {:induction false} DistinctIsOnce(s: seq<SnapshotInfo>, x: SnapshotInfo)
    requires Distinct(s)
    ensures multiset(s)[x] <= 1
  {
    if s != [] {
      var front, last := s[..|s| - 1], s[|s| - 1];
      assert s == front + [last];
      DistinctIsOnce(front, x);
      if x == last {
        assert x !in front;
      }
    }
  }

  lemma OnceIsDistinct(s: seq<SnapshotInfo>)
    requires forall x :: multiset(s)[x] <= 1
    ensures Distinct(s)
  {
    forall j, k | 0 <= j < k < |s| ensures s[j] != s[k] {
      assert s == s[..k] + s[k..];
      assert s[j] in s[..k] && s[k] in s[k..];
      assert multiset(s[..k])[s[j]] >= 1 && multiset(s[k..])[s[k]] >= 1;
      assert multiset(s)[s[k]] <= 1;
    }
  }

  lemma {:induction false} DistinctCount(s: seq<SnapshotInfo>)
    requires Distinct(s)
    ensures |set x | x in s| == |s|
  {
    if s != [] {
      var front, last := s[..|s| - 1], s[|s| - 1];
      DistinctCount(front);
      assert last !in front;
      assert (set x | x in s) == (set x | x in front) + {last};
    }
  }

  /** A sorted list of all the source's snapshots, each once. */
  ghost predicate Lists(sourceId: string, snapshots: seq<SnapshotInfo>, all: seq<SnapshotInfo>) {
    Sorted(all, false) && Distinct(all) && forall x :: x in all <==> x in snapshots && x.sourceId == sourceId
  }

  lemma SplitLists(sourceId: string, snapshots: seq<SnapshotInfo>, keepCount: nat, plan: RetentionPlan)
    requires IsRetention(sourceId, snapshots, keepCount, plan) && NoTies(snapshots)
    ensures Lists(sourceId, snapshots, plan.deleteSnapshots + plan.keep)
  {
    var all, matching := plan.deleteSnapshots + plan.keep, Matching(sourceId, snapshots);
    assert multiset(all) == multiset(matching);
    assert Distinct(snapshots) by {
      forall j, k | 0 <= j < k < |snapshots| ensures snapshots[j] != snapshots[k] {
        assert !Tie(snapshots[j], snapshots[k]);
      }
    }
    forall x ensures multiset(all)[x] <= 1 {
      DistinctIsOnce(snapshots, x);
    }
    OnceIsDistinct(all);
    forall x ensures x in all <==> x in matching {
      assert x in all <==> x in multiset(all);
      assert x in matching <==> x in multiset(matching);
    }
  }

  lemma NewerIsBehind(sourceId: string, snapshots: seq<SnapshotInfo>, all: seq<SnapshotInfo>, k: nat, j: nat)
    requires NoTies(snapshots) && Lists(sourceId, snapshots, all) && k < |all| && j < |all|
    ensures Older(all[k], all[j]) <==> k < j
  {
    if j == k {
      BeforeIsIrreflexive(all[k], false);
    } else if j < k {
      assert !Before(all[k], all[j], false);
    } else {
      assert !Before(all[j], all[k], false);
      OneIsOlder(snapshots, all[k], all[j]);
    }
  }

  lemma NewerCount(sourceId: string, snapshots: seq<SnapshotInfo>, all: seq<SnapshotInfo>, k: nat)
    requires NoTies(snapshots) && Lists(sourceId, snapshots, all) && k < |all|
    ensures |Newer(sourceId, snapshots, all[k])| == |all| - 1 - k
  {
    var behind := all[k + 1..];
    DistinctCount(behind);
    forall y | y in Newer(sourceId, snapshots, all[k]) ensures y in behind {
      var j :| 0 <= j < |all| && all[j] == y;
      NewerIsBehind(sourceId, snapshots, all, k, j);
      assert behind[j - k - 1] == y;
    }
    forall y | y in behind ensures y in Newer(sourceId, snapshots, all[k]) {
      var m :| 0 <= m < |behind| && behind[m] == y;
      assert all[k + 1 + m] == y;
      NewerIsBehind(sourceId, snapshots, all, k, k + 1 + m);
    }
    assert Newer(sourceId, snapshots, all[k]) == set y | y in behind;
  }

  /** A snapshot is deleted exactly when at least as many newer ones are listed as there are to keep. */
  lemma DeletedIff(sourceId: string, snapshots: seq<SnapshotInfo>, keepCount: nat, plan: RetentionPlan, x: SnapshotInfo)
    requires IsRetention(sourceId, snapshots, keepCount, plan) && NoTies(snapshots)
    requires x in snapshots && x.sourceId == sourceId
    ensures x in plan.deleteSnapshots <==> 0 < keepCount <= |Newer(sourceId, snapshots, x)|
  {
    var all := plan.deleteSnapshots + plan.keep;
    SplitLists(sourceId, snapshots, keepCount, plan);
    assert |multiset(all)| == |multiset(Matching(sourceId, snapshots))|;
    var k :| 0 <= k < |all| && all[k] == x;
    NewerCount(sourceId, snapshots, all, k);
    if x in plan.deleteSnapshots {
      var j :| 0 <= j < |plan.deleteSnapshots| && plan.deleteSnapshots[j] == x;
      assert all[j] == x;
      NewerCount(sourceId, snapshots, all, j);
    } else {
      assert k >= |plan.deleteSnapshots|;
    }
  }
}
