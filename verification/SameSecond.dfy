/** Three runs in one second that keep one snapshot each: the third takes the name of the first again, and the
    transfer after it does not start from the last commit. */
module SameSecond {
  import opened Core
  import opened RuntimeTime
  import opened Snapshots
  import opened IncrementalParent
  import opened PendingRecovery
  import opened Retention
  import opened RunPlan
  import opened Repository
  import opened Chain
  import opened History
  import opened NextPlan
  import opened Completion

  // ---- plans over nothing and over one pair ----

  function InputAt(site: Site, local: seq<SnapshotInfo>, remote: seq<SnapshotInfo>, now: TimePoint): SourceInput {
    SourceInput(site.settings, site.source, local, remote, None, None, site.stateDir, "", now)
  }

  /** Planning accepts the configured paths, at whatever time. */
  predicate Accepted(site: Site) {
    PathError(InputAt(site, [], [], 0)).None?
  }

  ghost function PlanOf(i: SourceInput, name: string, parent: Selection, local: RetentionPlan, remote: RetentionPlan): SourcePlan {
    var recovery := PlanPendingRecovery(RecoveryInputOf(i));
    SourcePlan(name, parent, recovery, local, remote, OrderedActions(i, name, parent, recovery, local, remote))
  }

  ghost function FirstPlan(i: SourceInput, name: string): SourcePlan {
    PlanOf(i, name, Full, RetentionPlan(i.source.id, i.source.localRetention, [AddedLocal(i, name)], []),
           RetentionPlan(i.source.id, i.source.remoteRetention, [AddedRemote(i, name)], []))
  }

  lemma MatchingStep(sourceId: string, front: seq<SnapshotInfo>, last: SnapshotInfo)
    ensures Matching(sourceId, front + [last]) == Matching(sourceId, front) + if last.sourceId == sourceId then [last] else []
  {
    assert (front + [last])[..|front|] == front;
  }

  lemma OneMatches(x: SnapshotInfo)
    ensures Matching(x.sourceId, [x]) == [x]
  {
    MatchingStep(x.sourceId, [], x);
    assert [] + [x] == [x];
  }

  lemma BothMatch(x: SnapshotInfo, y: SnapshotInfo)
    requires x.sourceId == y.sourceId
    ensures Matching(x.sourceId, [x] + [y]) == [x] + [y]
  {
    OneMatches(x);
    MatchingStep(x.sourceId, [x], y);
  }

  /** Retention that splits a sorted list of the source's snapshots. */
  lemma SplitIsRetention(sourceId: string, snapshots: seq<SnapshotInfo>, deleted: seq<SnapshotInfo>, keep: seq<SnapshotInfo>, keepCount: nat)
    requires snapshots == deleted + keep && Sorted(snapshots, false)
    requires Matching(sourceId, snapshots) == snapshots
    requires |keep| == if keepCount == 0 || |snapshots| <= keepCount then |snapshots| else keepCount
    ensures IsRetention(sourceId, snapshots, keepCount, RetentionPlan(sourceId, keepCount, keep, deleted))
  {
  }

  lemma KeepsTheOnly(x: SnapshotInfo, keepCount: nat)
    ensures IsRetention(x.sourceId, Projected([], None, x), keepCount, RetentionPlan(x.sourceId, keepCount, [x], []))
  {
    assert [] + [x] == [x] == Projected([], None, x);
    OneMatches(x);
    SplitIsRetention(x.sourceId, [x], [], [x], keepCount);
  }

  lemma SelectsNone(q: Query)
    requires q.local == [] && q.remote == []
    ensures IsSelection(q, Ok(Full))
  {}

  lemma FirstPlanIsOne(i: SourceInput, name: string)
    requires PathError(i).None? && i.local == [] && i.remote == [] && i.marker.None?
    requires IsFirstFree(BaseName(i.source.id, i.now), [], Some(name)) && ParseName(name, i.source.id).Named?
    ensures IsSourcePlan(i, FirstPlan(i, name)) && SparesNew(i, FirstPlan(i, name))
    ensures FirstPlan(i, name).recovery.effects == []
  {
    SelectsNone(ParentQuery(i, name));
    KeepsTheOnly(AddedLocal(i, name), i.source.localRetention);
    KeepsTheOnly(AddedRemote(i, name), i.source.remoteRetention);
    DeletionsOf(RecoveryInputOf(i));
  }

  ghost function SecondPlan(i: SourceInput, name: string, l: SnapshotInfo, r: SnapshotInfo): SourcePlan {
    PlanOf(i, name, Incremental(l, r), RetentionPlan(i.source.id, 1, [AddedLocal(i, name)], [l]),
           RetentionPlan(i.source.id, 1, [AddedRemote(i, name)], [r]))
  }

  lemma KeepsTheNewer(x: SnapshotInfo, y: SnapshotInfo)
    requires x.sourceId == y.sourceId && Older(x, y)
    ensures IsRetention(x.sourceId, Projected([x], None, y), 1, RetentionPlan(x.sourceId, 1, [y], [x]))
  {
    OlderIsAsymmetric(x, y);
    BothMatch(x, y);
    SplitIsRetention(x.sourceId, [x] + [y], [x], [y], 1);
  }

  lemma SelectsTheOnly(q: Query, l: SnapshotInfo, r: SnapshotInfo)
    requires q.local == [l] && q.remote == [r] && Pair(q, l, r)
    ensures IsSelection(q, Ok(Incremental(l, r)))
  {
    BeforeIsIrreflexive(l, false);
  }

  lemma SecondPlanIsOne(i: SourceInput, name: string, l: SnapshotInfo, r: SnapshotInfo)
    requires PathError(i).None? && i.local == [l] && i.remote == [r] && i.marker.None?
    requires i.source.localRetention == 1 && i.source.remoteRetention == 1
    requires IsFirstFree(BaseName(i.source.id, i.now), i.local, Some(name)) && ParseName(name, i.source.id).Named?
    requires Pair(ParentQuery(i, name), l, r) && Older(l, AddedLocal(i, name)) && Older(r, AddedRemote(i, name))
    ensures IsSourcePlan(i, SecondPlan(i, name, l, r)) && SparesNew(i, SecondPlan(i, name, l, r))
    ensures SecondPlan(i, name, l, r).recovery.effects == []
  {
    KeepsTheNewer(l, AddedLocal(i, name));
    KeepsTheNewer(r, AddedRemote(i, name));
    SelectsTheOnly(ParentQuery(i, name), l, r);
    DeletionsOf(RecoveryInputOf(i));
    BeforeIsIrreflexive(l, false);
    BeforeIsIrreflexive(r, false);
  }

  // ---- the names of one second ----

  ghost predicate SameSecondAs(t: TimePoint, now: TimePoint) {
    FloorSeconds(now) * NS_PER_SECOND == t && Representable(DayStart(t))
  }

  lemma NameOfSecond(id: string, t: TimePoint, now: TimePoint, k: nat)
    requires SameSecondAs(t, now) && k <= 99
    ensures NameInSecond(BaseName(id, now), k) == SnapshotName(id, t, k)
    ensures ParseName(SnapshotName(id, t, k), id) == Named(t, k)
  {
    var name := SnapshotName(id, now, k);
    NameParsesBack(id, now, k);
    assert ParseName(name, id) == Named(t, k);
    ParsedNameIsAllocated(name, id);
  }

  lemma NameIs(site: Site, w: Layout, t: TimePoint, now: TimePoint, k: nat, name: string)
    requires Faithful(site, w) && SameSecondAs(t, now) && k <= 99 && w.parse(name) == Named(t, k)
    ensures name == NameInSecond(BaseName(site.source.id, now), k)
  {
    NameOfSecond(site.source.id, t, now, k);
    assert ParseName(name, site.source.id) == Named(t, k);
    ParsedNameIsAllocated(name, site.source.id);
  }

  lemma NameExistsAt(site: Site, w: Layout, t: TimePoint, k: nat) returns (name: string)
    requires Faithful(site, w) && SameSecondAs(t, t) && k <= 99
    ensures w.parse(name) == Named(t, k)
  {
    name := SnapshotName(site.source.id, t, k);
    NameOfSecond(site.source.id, t, t, k);
  }

  lemma IsFreeAt(base: string, local: seq<SnapshotInfo>, k: nat, name: string)
    requires k <= 99 && name == NameInSecond(base, k) && !NameTaken(local, name)
    requires forall j :: 0 <= j < k ==> NameTaken(local, NameInSecond(base, j))
    ensures IsFirstFree(base, local, Some(name))
  {}

  // ---- the runs ----

  /** One snapshot is present on both sides, and nothing is pending. */
  ghost predicate Lone(w: Layout, s: State, name: string, uuid: string) {
    && w.parse(name).Named? && s.marker.None? && uuid != ""
    && s.local == map[w.local(name) := Report(w, Local, name, uuid, "")]
    && s.remote == map[w.remote(name) := Report(w, Remote, name, "", uuid)]
  }

  lemma CompletedFromNothing(w: Layout, s: State, i: SourceInput, p: SourcePlan, uuid: string)
    requires w.parse(p.name).Named? && uuid != "" && s.local == map[] && s.remote == map[] && s.marker.None? && s.used == {}
    requires p.recovery.effects == [] && p.localRetention.deleteSnapshots == [] && p.remoteRetention.deleteSnapshots == []
    ensures var end := Completed(w, s, i, p, uuid);
            Lone(w, end, p.name, uuid) && end.committed == s.committed + [p.name] && end.used == {uuid}
  {
    RecoveredSides(w, s, p.recovery.effects);
  }

  lemma FirstPlanFor(site: Site, w: Layout, t: TimePoint, k: nat, name: string) returns (q: SourceRunPlan)
    requires Faithful(site, w) && Accepted(site) && SameSecondAs(t, t) && k == 0 && w.parse(name) == Named(t, k)
    ensures var i := InputAt(site, [], [], t);
            q == Planned(i, FirstPlan(i, name)) && SparesNew(i, FirstPlan(i, name)) && FirstPlan(i, name).recovery.effects == []
  {
    var i := InputAt(site, [], [], t);
    NameIs(site, w, t, t, k, name);
    IsFreeAt(BaseName(site.source.id, t), [], k, name);
    FirstPlanIsOne(i, name);
    q := PlannedFor(i, FirstPlan(i, name));
  }

  lemma DiscoversNothing(site: Site, w: Layout, t: TimePoint)
    ensures Discovers(site, w, EMPTY, InputAt(site, [], [], t))
  {}

  lemma FirstStarts(site: Site, w: Layout, t: TimePoint, k: nat, name: string, uuid: string) returns (q: SourceRunPlan)
    requires WellConfigured(site, w) && Accepted(site) && SameSecondAs(t, t) && k == 0 && w.parse(name) == Named(t, k) && uuid != ""
    ensures var i := InputAt(site, [], [], t); q == Planned(i, FirstPlan(i, name))
    ensures q.plan.recovery.effects == [] && Startable(site, w, EMPTY, q, uuid)
  {
    q := FirstPlanFor(site, w, t, k, name);
    DiscoversNothing(site, w, t);
    EmptyIsFine(w);
  }

  /** From nothing, the first run of any well configured source can commit its snapshot. */
  lemma FirstRunCommits(site: Site, w: Layout, t: TimePoint, k: nat, name: string, uuid: string) returns (r: RunRecord)
    requires WellConfigured(site, w) && Accepted(site) && SameSecondAs(t, t)
    requires k == 0 && w.parse(name) == Named(t, k) && uuid != ""
    ensures ValidRun(site, w, EMPTY, r) && Completes(r)
    ensures Lone(w, r.end, name, uuid) && r.end.committed == [name] && r.end.used == {uuid}
  {
    var q := FirstStarts(site, w, t, k, name, uuid);
    r := CompleteRun(site, w, EMPTY, q, uuid);
    FirstRunEnds(w, q.input, name, uuid);
  }

  lemma FirstRunEnds(w: Layout, i: SourceInput, name: string, uuid: string)
    requires w.parse(name).Named? && uuid != "" && FirstPlan(i, name).recovery.effects == []
    ensures var end := Completed(w, Starting(EMPTY, i), i, FirstPlan(i, name), uuid);
            Lone(w, end, name, uuid) && end.committed == [name] && end.used == {uuid}
  {
    CompletedFromNothing(w, Starting(EMPTY, i), i, FirstPlan(i, name), uuid);
  }

  // ---- a run over a lone pair ----

  ghost function HereOf(w: Layout, name: string, uuid: string): SnapshotInfo
    requires w.parse(name).Named?
  {
    Report(w, Local, name, uuid, "")
  }

  ghost function ThereOf(w: Layout, name: string, uuid: string): SnapshotInfo
    requires w.parse(name).Named?
  {
    Report(w, Remote, name, "", uuid)
  }

  ghost function LoneInput(site: Site, w: Layout, name: string, uuid: string, now: TimePoint): SourceInput
    requires w.parse(name).Named?
  {
    InputAt(site, [HereOf(w, name, uuid)], [ThereOf(w, name, uuid)], now)
  }

  ghost function LonePlan(site: Site, w: Layout, name: string, uuid: string, now: TimePoint, next: string): SourcePlan
    requires w.parse(name).Named?
  {
    SecondPlan(LoneInput(site, w, name, uuid, now), next, HereOf(w, name, uuid), ThereOf(w, name, uuid))
  }

  lemma DiscoversLone(site: Site, w: Layout, s: State, name: string, uuid: string, now: TimePoint)
    requires Lone(w, s, name, uuid)
    ensures Discovers(site, w, s, LoneInput(site, w, name, uuid, now))
  {}

  /** The next name is taken in the same second, and the clock has moved on since the last run. */
  ghost predicate FollowsIn(site: Site, w: Layout, name: string, uuid: string, now: TimePoint, next: string) {
    && w.parse(name).Named? && w.parse(name).timestamp < now && w.parse(next).Named? && name != next
    && IsFirstFree(BaseName(site.source.id, now), [HereOf(w, name, uuid)], Some(next))
  }

  ghost predicate KeepsOne(site: Site) {
    site.source.localRetention == 1 && site.source.remoteRetention == 1 && Accepted(site)
  }

  lemma LonePlanIsOne(site: Site, w: Layout, name: string, uuid: string, now: TimePoint, next: string) returns (q: SourceRunPlan)
    requires WellConfigured(site, w) && KeepsOne(site) && uuid != "" && FollowsIn(site, w, name, uuid, now, next)
    ensures var i, p := LoneInput(site, w, name, uuid, now), LonePlan(site, w, name, uuid, now, next);
            q == Planned(i, p) && SparesNew(i, p) && p.recovery.effects == []
  {
    var i := LoneInput(site, w, name, uuid, now);
    assert w.parse(next) == ParseName(next, i.source.id);
    PathsAreAccepted(site, i.local, i.remote, now);
    LoneIsPair(site, w, name, uuid, now, next);
    LoneIsOlder(site, w, name, uuid, now, next);
    SecondPlanIsOne(i, next, HereOf(w, name, uuid), ThereOf(w, name, uuid));
    q := PlannedFor(i, LonePlan(site, w, name, uuid, now, next));
  }

  lemma PathsAreAccepted(site: Site, local: seq<SnapshotInfo>, remote: seq<SnapshotInfo>, now: TimePoint)
    requires Accepted(site)
    ensures PathError(InputAt(site, local, remote, now)).None?
  {}

  lemma LoneIsOlder(site: Site, w: Layout, name: string, uuid: string, now: TimePoint, next: string)
    requires w.parse(name).Named? && w.parse(name).timestamp < now
    ensures var i := LoneInput(site, w, name, uuid, now);
            Older(HereOf(w, name, uuid), AddedLocal(i, next)) && Older(ThereOf(w, name, uuid), AddedRemote(i, next))
  {}

  lemma LoneIsPair(site: Site, w: Layout, name: string, uuid: string, now: TimePoint, next: string)
    requires WellConfigured(site, w) && uuid != "" && w.parse(name).Named? && w.parse(next).Named? && name != next
    ensures Pair(ParentQuery(LoneInput(site, w, name, uuid, now), next), HereOf(w, name, uuid), ThereOf(w, name, uuid))
  {
    LayoutFacts(site, w);
    assert w.nameOf(w.local(name)) == name && w.nameOf(w.local(next)) == next;
    assert w.normal(w.local(name)) == Normal(w.local(name)) && w.normal(w.local(next)) == Normal(w.local(next));
  }

  lemma SidesAfterCommit(w: Layout, s: State, name: string, uuid: string, i: SourceInput, p: SourcePlan, unused: string)
    requires Lone(w, s, name, uuid) && w.parse(p.name).Named? && p.recovery.effects == []
    ensures var end := Committed(w, s, i, p, unused);
            && end.local == s.local[w.local(p.name) := HereOf(w, p.name, unused)]
            && end.remote == s.remote[w.remote(p.name) := ThereOf(w, p.name, unused)]
            && end.committed == s.committed + [p.name] && end.used == s.used + {unused}
  {
    RecoveredSides(w, s, p.recovery.effects);
  }

  lemma LoneAgain(w: Layout, s: State, name: string, uuid: string, i: SourceInput, p: SourcePlan, unused: string)
    requires Lone(w, s, name, uuid) && NamesPlaced(w) && PathsNormal(w) && p.name != name && unused != ""
    requires w.parse(p.name).Named? && p.recovery.effects == []
    requires p.localRetention.deleteSnapshots == [HereOf(w, name, uuid)] && p.remoteRetention.deleteSnapshots == [ThereOf(w, name, uuid)]
    ensures var end := Completed(w, s, i, p, unused);
            Lone(w, end, p.name, unused) && end.committed == s.committed + [p.name] && end.used == s.used + {unused}
  {
    SidesAfterCommit(w, s, name, uuid, i, p, unused);
    assert w.nameOf(w.local(name)) == name && w.nameOf(w.local(p.name)) == p.name;
    assert w.nameOf(w.remote(name)) == name && w.nameOf(w.remote(p.name)) == p.name;
    PrunedToOne(w, w.local(name), HereOf(w, name, uuid), w.local(p.name), HereOf(w, p.name, unused));
    PrunedToOne(w, w.remote(name), ThereOf(w, name, uuid), w.remote(p.name), ThereOf(w, p.name, unused));
  }

  lemma PrunedToOne(w: Layout, p: Path, x: SnapshotInfo, q: Path, y: SnapshotInfo)
    requires p != q && x.path == p && w.normal(p) == p
    ensures Pruned(w, map[p := x][q := y], [x]) == map[q := y]
  {
    var files := map[p := x][q := y];
    assert [x][1..] == [] && Pruned(w, files - {p}, []) == files - {p};
    assert files - {p} == map[q := y];
  }

  lemma LoneStarts(site: Site, w: Layout, s: State, name: string, uuid: string, now: TimePoint, next: string, unused: string)
    returns (q: SourceRunPlan)
    requires WellConfigured(site, w) && KeepsOne(site) && Inv(w, s) && Lone(w, s, name, uuid) && FollowsIn(site, w, name, uuid, now, next)
    requires unused != "" && unused !in s.used
    ensures q == Planned(LoneInput(site, w, name, uuid, now), LonePlan(site, w, name, uuid, now, next))
    ensures q.plan.recovery.effects == [] && Startable(site, w, s, q, unused)
  {
    q := LonePlanIsOne(site, w, name, uuid, now, next);
    DiscoversLone(site, w, s, name, uuid, now);
    NamesArePlaced(site, w);
    assert w.nameOf(w.remote(name)) == name && w.nameOf(w.remote(next)) == next;
  }

  /** The run after one that left a lone pair replaces it. */
  lemma NextRunReplaces(site: Site, w: Layout, s: State, name: string, uuid: string, now: TimePoint, next: string, unused: string)
    returns (r: RunRecord)
    requires WellConfigured(site, w) && KeepsOne(site) && Inv(w, s) && Lone(w, s, name, uuid) && FollowsIn(site, w, name, uuid, now, next)
    requires unused != "" && unused !in s.used
    ensures ValidRun(site, w, s, r)
    ensures Lone(w, r.end, next, unused) && r.end.committed == s.committed + [next] && r.end.used == s.used + {unused}
  {
    var q := LoneStarts(site, w, s, name, uuid, now, next, unused);
    LayoutFacts(site, w);
    r := CompleteRun(site, w, s, q, unused);
    LoneAgain(w, s.(clock := Later(s.clock, SecondOf(now))), name, uuid, q.input, q.plan, unused);
  }

  lemma BothAreLinked(w: Layout, s: State, name: string, uuid: string, i: SourceInput, p: SourcePlan, unused: string)
    requires NamesPlaced(w) && Lone(w, s, name, uuid) && w.parse(p.name).Named? && p.recovery.effects == []
    requires unused != "" && p.name != name
    ensures var end := Committed(w, s, i, p, unused);
            && Linked(w, end.local, end.remote, name) && Linked(w, end.local, end.remote, p.name)
            && end.committed == s.committed + [p.name]
  {
    SidesAfterCommit(w, s, name, uuid, i, p, unused);
    assert w.nameOf(w.local(name)) == name && w.nameOf(w.local(p.name)) == p.name;
    assert w.nameOf(w.remote(name)) == name && w.nameOf(w.remote(p.name)) == p.name;
  }

  /** Stopped after its commit, it leaves both pairs. */
  lemma NextRunAdds(site: Site, w: Layout, s: State, name: string, uuid: string, now: TimePoint, next: string, unused: string)
    returns (r: RunRecord)
    requires WellConfigured(site, w) && KeepsOne(site) && Inv(w, s) && Lone(w, s, name, uuid) && FollowsIn(site, w, name, uuid, now, next)
    requires unused != "" && unused !in s.used
    ensures ValidRun(site, w, s, r) && r.end.committed == s.committed + [next]
    ensures Linked(w, r.end.local, r.end.remote, name) && Linked(w, r.end.local, r.end.remote, next)
  {
    var q := LoneStarts(site, w, s, name, uuid, now, next, unused);
    NamesArePlaced(site, w);
    r := CommittedRun(site, w, s, q, unused);
    BothAreLinked(w, s.(clock := Later(s.clock, SecondOf(now))), name, uuid, q.input, q.plan, unused);
  }

  // ---- three runs ----

  /** The first two names of a second. */
  ghost predicate FirstNames(w: Layout, t: TimePoint, first: string, second: string) {
    w.parse(first) == Named(t, 0) && w.parse(second) == Named(t, 1)
  }

  lemma SecondNameFollows(site: Site, w: Layout, t: TimePoint, now: TimePoint, first: string, second: string, uuid: string)
    requires Faithful(site, w) && SameSecondAs(t, now) && t < now && FirstNames(w, t, first, second)
    ensures FollowsIn(site, w, first, uuid, now, second)
  {
    var base, local, zero, one := BaseName(site.source.id, now), [HereOf(w, first, uuid)], 0, 1;
    NameIs(site, w, t, now, zero, first);
    NameIs(site, w, t, now, one, second);
    assert local[0].name == first;
    IsFreeAt(base, local, one, second);
  }

  lemma FirstNameFollows(site: Site, w: Layout, t: TimePoint, now: TimePoint, first: string, second: string, uuid: string)
    requires Faithful(site, w) && SameSecondAs(t, now) && t < now && FirstNames(w, t, first, second)
    ensures FollowsIn(site, w, second, uuid, now, first)
  {
    var base, local, zero := BaseName(site.source.id, now), [HereOf(w, second, uuid)], 0;
    NameIs(site, w, t, now, zero, first);
    IsFreeAt(base, local, zero, first);
  }

  // ---- composing them ----

  /** One run can lead from s to a state with the property. */
  ghost predicate Leads(follow: (State, State) -> bool, s: State, property: State -> bool) {
    exists s' :: follow(s, s') && property(s')
  }

  lemma ThreeSteps(follow: (State, State) -> bool, p1: State -> bool, p2: State -> bool, p3: State -> bool) returns (states: seq<State>)
    requires Leads(follow, EMPTY, p1)
    requires forall s :: p1(s) ==> Leads(follow, s, p2)
    requires forall s :: p2(s) ==> Leads(follow, s, p3)
    ensures ValidHistory(follow, states) && |states| == 4 && p3(states[3])
  {
    var a :| follow(EMPTY, a) && p1(a);
    var b :| follow(a, b) && p2(b);
    var c :| follow(b, c) && p3(c);
    states := [EMPTY, a, b, c];
  }

  lemma RunLeads(site: Site, w: Layout, s: State, r: RunRecord, property: State -> bool)
    requires ValidRun(site, w, s, r) && property(r.end)
    ensures Leads(Following(site, w), s, property)
  {
    RunFollows(site, w, s, r);
    LeadsTo(Following(site, w), s, r.end, property);
  }

  lemma RunFollows(site: Site, w: Layout, s: State, r: RunRecord)
    requires ValidRun(site, w, s, r)
    ensures Following(site, w)(s, r.end)
  {}

  lemma LeadsTo(follow: (State, State) -> bool, s: State, s': State, property: State -> bool)
    requires follow(s, s') && property(s')
    ensures Leads(follow, s, property)
  {}

  /** A sound state with a lone pair, after these commits. */
  ghost function LoneAfter(w: Layout, name: string, uuid: string, used: set<string>, committed: seq<string>): State -> bool {
    s => Inv(w, s) && Lone(w, s, name, uuid) && s.used == used && s.committed == committed
  }

  /** A state in which the last commit is not the newest name that is present on both sides. */
  ghost function PassedOver(w: Layout, name: string, committed: seq<string>): State -> bool {
    (s: State) => s.committed == committed && !NoLaterLink(w, s, name)
  }

  /** Any well configured source has a run that commits. */
  lemma FirstStep(site: Site, w: Layout, t: TimePoint, k: nat, name: string, uuid: string)
    requires WellConfigured(site, w) && Accepted(site) && SameSecondAs(t, t)
    requires k == 0 && w.parse(name) == Named(t, k) && uuid != ""
    ensures Leads(Following(site, w), EMPTY, LoneAfter(w, name, uuid, {uuid}, [name]))
  {
    var r := FirstRunCommits(site, w, t, k, name, uuid);
    EmptyIsFine(w);
    RunPreserves(site, w, EMPTY, r);
    RunLeads(site, w, EMPTY, r, LoneAfter(w, name, uuid, {uuid}, [name]));
  }

  lemma SecondStep(site: Site, w: Layout, s: State, now: TimePoint, name: string, next: string, uuid: string, unused: string,
                   used: set<string>, committed: seq<string>)
    requires WellConfigured(site, w) && KeepsOne(site) && FollowsIn(site, w, name, uuid, now, next)
    requires LoneAfter(w, name, uuid, used, committed)(s) && unused != "" && unused !in used
    ensures Leads(Following(site, w), s, LoneAfter(w, next, unused, used + {unused}, committed + [next]))
  {
    var r := NextRunReplaces(site, w, s, name, uuid, now, next, unused);
    RunPreserves(site, w, s, r);
    RunLeads(site, w, s, r, LoneAfter(w, next, unused, used + {unused}, committed + [next]));
  }

  lemma ThirdStep(site: Site, w: Layout, s: State, now: TimePoint, name: string, next: string, uuid: string, unused: string,
                  used: set<string>, committed: seq<string>)
    requires WellConfigured(site, w) && KeepsOne(site) && FollowsIn(site, w, name, uuid, now, next)
    requires LoneAfter(w, name, uuid, used, committed)(s) && unused != "" && unused !in used
    requires name in committed && RanksBefore(w.parse(next), w.parse(name))
    ensures Leads(Following(site, w), s, PassedOver(w, next, committed + [next]))
  {
    var r := NextRunAdds(site, w, s, name, uuid, now, next, unused);
    LinkedLater(w, r.end, next, name);
    RunLeads(site, w, s, r, PassedOver(w, next, committed + [next]));
  }

  lemma LinkedLater(w: Layout, s: State, first: string, second: string)
    requires second in s.committed && Linked(w, s.local, s.remote, second) && RanksBefore(w.parse(first), w.parse(second))
    ensures !NoLaterLink(w, s, first)
  {}

  /** Two later moments of one second, and its first two names. */
  ghost predicate Scene(site: Site, w: Layout, t: TimePoint, soon: TimePoint, later: TimePoint, first: string, second: string) {
    && WellConfigured(site, w) && KeepsOne(site) && FirstNames(w, t, first, second) && SameSecondAs(t, t)
    && SameSecondAs(t, soon) && SameSecondAs(t, later) && t < soon && t < later
  }

  lemma FirstLeads(site: Site, w: Layout, t: TimePoint, soon: TimePoint, later: TimePoint, first: string, second: string, a: string)
    requires Scene(site, w, t, soon, later, first, second) && a != ""
    ensures Leads(Following(site, w), EMPTY, LoneAfter(w, first, a, {a}, [first]))
  {
    var zero := 0;
    FirstStep(site, w, t, zero, first, a);
  }

  lemma ReplacingLeads(site: Site, w: Layout, now: TimePoint, name: string, next: string, uuid: string, unused: string,
                       used: set<string>, committed: seq<string>)
    requires WellConfigured(site, w) && KeepsOne(site) && FollowsIn(site, w, name, uuid, now, next) && unused != "" && unused !in used
    ensures forall s :: LoneAfter(w, name, uuid, used, committed)(s) ==>
      Leads(Following(site, w), s, LoneAfter(w, next, unused, used + {unused}, committed + [next]))
  {
    forall s | LoneAfter(w, name, uuid, used, committed)(s)
      ensures Leads(Following(site, w), s, LoneAfter(w, next, unused, used + {unused}, committed + [next]))
    {
      SecondStep(site, w, s, now, name, next, uuid, unused, used, committed);
    }
  }

  lemma AddingLeads(site: Site, w: Layout, now: TimePoint, name: string, next: string, uuid: string, unused: string,
                    used: set<string>, committed: seq<string>)
    requires WellConfigured(site, w) && KeepsOne(site) && FollowsIn(site, w, name, uuid, now, next) && unused != "" && unused !in used
    requires name in committed && RanksBefore(w.parse(next), w.parse(name))
    ensures forall s :: LoneAfter(w, name, uuid, used, committed)(s) ==>
      Leads(Following(site, w), s, PassedOver(w, next, committed + [next]))
  {
    forall s | LoneAfter(w, name, uuid, used, committed)(s)
      ensures Leads(Following(site, w), s, PassedOver(w, next, committed + [next]))
    {
      ThirdStep(site, w, s, now, name, next, uuid, unused, used, committed);
    }
  }

  lemma SecondLeads(site: Site, w: Layout, t: TimePoint, soon: TimePoint, later: TimePoint, first: string, second: string, a: string, b: string)
    requires Scene(site, w, t, soon, later, first, second) && b != "" && a != b
    ensures forall s :: LoneAfter(w, first, a, {a}, [first])(s) ==>
      Leads(Following(site, w), s, LoneAfter(w, second, b, {a} + {b}, [first] + [second]))
  {
    SecondNameFollows(site, w, t, soon, first, second, a);
    ReplacingLeads(site, w, soon, first, second, a, b, {a}, [first]);
  }

  lemma ThirdLeads(site: Site, w: Layout, t: TimePoint, soon: TimePoint, later: TimePoint, first: string, second: string,
                   b: string, c: string, used: set<string>, committed: seq<string>)
    requires Scene(site, w, t, soon, later, first, second) && c != "" && c !in used && second in committed
    ensures forall s :: LoneAfter(w, second, b, used, committed)(s) ==>
      Leads(Following(site, w), s, PassedOver(w, first, committed + [first]))
  {
    FirstNameFollows(site, w, t, later, first, second, b);
    AddingLeads(site, w, later, second, first, b, c, used, committed);
  }

  lemma LastIsIn(front: seq<string>, last: string)
    ensures last in front + [last]
  {}

  lemma NotInBoth(a: string, b: string, c: string)
    requires c != a && c != b
    ensures c !in {a} + {b}
  {}

  /** Whatever the source, if it keeps one snapshot on each side: three runs in one second can leave a state in
      which the last commit is not the newest name that is present on both sides. */
  lemma LastCommitCanBePassedOver(site: Site, w: Layout, t: TimePoint, soon: TimePoint, later: TimePoint, first: string, second: string)
    returns (states: seq<State>)
    requires Scene(site, w, t, soon, later, first, second)
    ensures ValidHistory(Following(site, w), states) && |states| == 4
    ensures PassedOver(w, first, [first] + [second] + [first])(states[3])
  {
    var a, b, c := "a", "b", "c";
    FirstLeads(site, w, t, soon, later, first, second, a);
    SecondLeads(site, w, t, soon, later, first, second, a, b);
    LastIsIn([first], second);
    NotInBoth(a, b, c);
    ThirdLeads(site, w, t, soon, later, first, second, b, c, {a} + {b}, [first] + [second]);
    states := ThreeSteps(Following(site, w), LoneAfter(w, first, a, {a}, [first]),
                         LoneAfter(w, second, b, {a} + {b}, [first] + [second]), PassedOver(w, first, [first] + [second] + [first]));
  }

  ghost predicate SendsFromAnother(w: Layout, s: State, r: Result<Selection, PlanError>) {
    r.Ok? && s.committed != [] ==> !IsFrom(w, s, s.committed[|s.committed| - 1], r.value)
  }

  lemma NewestIsAnother(w: Layout, s: State, i: SourceInput, r: Result<Selection, PlanError>)
    requires s.committed != [] && SendsFromNewest(w, s, i, r) && !NoLaterLink(w, s, s.committed[|s.committed| - 1])
    ensures SendsFromAnother(w, s, r)
  {
    if r.Ok? {
      ParentIsLastIff(w, s, r.value, s.committed[|s.committed| - 1]);
    }
  }

  /** In such a state no plan sends from the last commit. */
  lemma PlanPassesOver(site: Site, w: Layout, s: State, i: SourceInput, r: Result<SourceRunPlan, RunPlanError>)
    requires WellConfigured(site, w) && Inv(w, s) && Discovers(site, w, s, i) && OutcomeFor(i, r)
    requires s.committed != [] && PassedOver(w, s.committed[|s.committed| - 1], s.committed)(s)
    ensures SendsFromAnother(w, s, ParentOf(i, r))
  {
    CommittedPlanIsIncremental(site, w, s, i, r);
    NewestIsAnother(w, s, i, ParentOf(i, r));
  }

  // ---- the hypotheses can be met ----

  lemma OneStep(follow: (State, State) -> bool, property: State -> bool) returns (states: seq<State>)
    requires Leads(follow, EMPTY, property)
    ensures ValidHistory(follow, states) && |states| == 2 && property(states[1])
  {
    var s :| follow(EMPTY, s) && property(s);
    states := [EMPTY, s];
  }

  /** Every well configured source has a history with a commit. */
  lemma CommittedHistoryExists(site: Site, w: Layout, t: TimePoint, k: nat, name: string) returns (states: seq<State>)
    requires WellConfigured(site, w) && Accepted(site) && SameSecondAs(t, t)
    requires k == 0 && w.parse(name) == Named(t, k)
    ensures ValidHistory(Following(site, w), states) && |states| == 2 && states[1].committed == [name]
  {
    var uuid := "a";
    FirstStep(site, w, t, k, name, uuid);
    states := OneStep(Following(site, w), LoneAfter(w, name, uuid, {uuid}, [name]));
  }

  /** A source "x" with its snapshots in /l, kept in /t/x on a target mounted at /t, that requires a parent. */
  function ExampleSite(local: nat, remote: nat): Site {
    Site(Settings(["t"], ["t"], ["t", "i"], true, false, [], []), SourceConfig("x", true, ["x"], ["l"], ["x"], local, remote), ["s"])
  }

  /** Directories as the configuration writes them, the local one outside the target. */
  predicate Orderly(site: Site) {
    && Canonical(site.settings.mountPoint) && Canonical(site.settings.remoteRoot) && Canonical(site.settings.incomingRoot)
    && Canonical(site.source.remoteSubdir) && Canonical(site.source.localSnapshotDir) && Plain(site.source.id)
    && !(site.settings.mountPoint <= site.source.localSnapshotDir)
  }

  lemma OrderlyIsAccepted(site: Site)
    requires Orderly(site)
    ensures Accepted(site) && CleanDir(site.source.localSnapshotDir) && CleanDir(RemoteDir(site))
  {
    ChildOfCanonical(site.settings.remoteRoot, site.source.remoteSubdir);
    ChildOfCanonical(site.settings.incomingRoot, [site.source.id]);
    CanonicalIsNormal(site.settings.mountPoint);
    CanonicalIsNormal(site.source.localSnapshotDir);
  }

  lemma ChildOfCanonical(dir: Path, rest: Path)
    requires Canonical(dir) && Canonical(rest)
    ensures Append(dir, rest) == dir + rest && Canonical(dir + rest) && Within(dir + rest, dir)
  {
    CanonicalIsNormal(dir);
    CanonicalIsNormal(dir + rest);
  }

  lemma ExampleLayout(local: nat, remote: nat) returns (w: Layout)
    ensures WellConfigured(ExampleSite(local, remote), w) && Accepted(ExampleSite(local, remote))
  {
    var site := ExampleSite(local, remote);
    w := LayoutOf(site);
    EverySiteHasALayout(site);
    OrderlyIsAccepted(site);
  }

  /** The first three nanoseconds of 1970 are a scene. */
  lemma ExampleScene() returns (w: Layout, first: string, second: string)
    ensures Scene(ExampleSite(1, 1), w, 0, 1, 2, first, second)
  {
    var zero, one, t := 0, 1, 0;
    w := ExampleLayout(1, 1);
    first := NameExistsAt(ExampleSite(1, 1), w, t, zero);
    second := NameExistsAt(ExampleSite(1, 1), w, t, one);
  }
}
