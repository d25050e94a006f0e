/** Reachable states and inputs for the promises that fail of the code. */
module FailingStates {
  import opened Core
  import opened RuntimeTime
  import opened Snapshots
  import opened IncrementalParent
  import opened PendingRecovery
  import opened Retention
  import opened RunPlan
  import opened Repository
  import opened Chain
  import opened History
  import opened Completion
  import opened Totality
  import opened Progress
  import opened SameSecond

  // ---- a source that can never be planned again ----

  /** A sound state with nothing committed and a copy on the target. */
  ghost function HoldsUnchecked(w: Layout, name: string): State -> bool {
    (s: State) => Inv(w, s) && s.committed == [] && w.remote(name) in s.remote
  }

  lemma UnverifiedHolds(w: Layout, s: State, i: SourceInput, p: SourcePlan, uuid: string)
    requires w.parse(p.name).Named? && s.committed == []
    ensures var end := Unverified(w, s, i, p, uuid); end.committed == [] && w.remote(p.name) in end.remote
  {
    RecoveredSides(w, s, p.recovery.effects);
  }

  /** The first run of any accepted source can stop after a commit that lost its received UUID, before it is checked. */
  lemma FirstRunStrands(site: Site, w: Layout, t: TimePoint, k: nat, name: string, uuid: string) returns (r: RunRecord)
    requires WellConfigured(site, w) && Accepted(site) && SameSecondAs(t, t)
    requires k == 0 && w.parse(name) == Named(t, k) && uuid != ""
    ensures ValidRun(site, w, EMPTY, r) && HoldsUnchecked(w, name)(r.end)
  {
    var q := FirstStarts(site, w, t, k, name, uuid);
    EmptyIsFine(w);
    r := UnverifiedRun(site, w, EMPTY, q, uuid);
    UnverifiedHolds(w, Starting(EMPTY, q.input), q.input, q.plan, uuid);
    RunPreserves(site, w, EMPTY, r);
  }

  lemma StrandedStateExists(site: Site, w: Layout, t: TimePoint, k: nat, name: string) returns (states: seq<State>)
    requires WellConfigured(site, w) && Accepted(site) && SameSecondAs(t, t) && k == 0 && w.parse(name) == Named(t, k)
    ensures ValidHistory(Following(site, w), states) && |states| == 2 && HoldsUnchecked(w, name)(states[1])
  {
    var uuid := "a";
    var r := FirstRunStrands(site, w, t, k, name, uuid);
    RunLeads(site, w, EMPTY, r, HoldsUnchecked(w, name));
    states := OneStep(Following(site, w), HoldsUnchecked(w, name));
  }

  /** If a parent is required, no run ever follows. */
  lemma SourceCanBeStranded(site: Site, w: Layout, t: TimePoint, k: nat, name: string) returns (states: seq<State>)
    requires WellConfigured(site, w) && Accepted(site) && site.settings.incrementalRequired
    requires SameSecondAs(t, t) && k == 0 && w.parse(name) == Named(t, k)
    ensures ValidHistory(Following(site, w), states) && |states| == 2
    ensures Stranded(site, states[1]) && forall s' :: !CanFollow(site, w, states[1], s')
  {
    states := StrandedStateExists(site, w, t, k, name);
    forall s' ensures !CanFollow(site, w, states[1], s') {
      StrandedForever(site, w, states[1], s');
    }
  }

  // ---- a clock set back ----

  /** The state of a lone pair and a time before its second. */
  ghost predicate SetBack(w: Layout, name: string, uuid: string, back: TimePoint) {
    w.parse(name).Named? && uuid != "" && back < w.parse(name).timestamp
  }

  /** Whatever plan is made then, retention deletes the local half of its own snapshot. */
  lemma SetBackDropsNew(site: Site, w: Layout, name: string, uuid: string, back: TimePoint, p: SourcePlan)
    requires w.sourceId == site.source.id && site.source.localRetention == 1 && SetBack(w, name, uuid, back)
    requires IsSourcePlan(LoneInput(site, w, name, uuid, back), p)
    ensures !SparesNew(LoneInput(site, w, name, uuid, back), p)
  {
    var i, l := LoneInput(site, w, name, uuid, back), HereOf(w, name, uuid);
    DeletionsOf(RecoveryInputOf(i));
    NewerIsThere(site.source.id, l, AddedLocal(i, p.name), p.localRetention);
  }

  lemma NewerIsThere(sourceId: string, l: SnapshotInfo, added: SnapshotInfo, plan: RetentionPlan)
    requires IsRetention(sourceId, Projected([l], None, added), 1, plan)
    requires l.sourceId == added.sourceId == sourceId && added.timestamp < l.timestamp
    ensures added in plan.deleteSnapshots
  {
    var projected := Projected([l], None, added);
    assert projected == [l, added];
    assert NoTies(projected);
    assert l in Newer(sourceId, projected, added);
    DeletedIff(sourceId, projected, 1, plan, added);
  }

  /** There is such a plan. */
  lemma SetBackHasPlan(site: Site, w: Layout, name: string, uuid: string, back: TimePoint, k: nat, earlier: string) returns (p: SourcePlan)
    requires WellConfigured(site, w) && Accepted(site) && SetBack(w, name, uuid, back)
    requires SameSecondAs(back, back) && k == 0 && w.parse(earlier) == Named(back, k)
    ensures IsSourcePlan(LoneInput(site, w, name, uuid, back), p)
  {
    var i, l, r := LoneInput(site, w, name, uuid, back), HereOf(w, name, uuid), ThereOf(w, name, uuid);
    NameIs(site, w, back, back, k, earlier);
    assert i.local[0].name == name;
    IsFreeAt(BaseName(site.source.id, back), i.local, k, earlier);
    PathsAreAccepted(site, i.local, i.remote, back);
    LoneIsPair(site, w, name, uuid, back, earlier);
    SelectsTheOnly(ParentQuery(i, earlier), l, r);
    p := PlanWith(i, earlier, Incremental(l, r));
  }

  /** Carried through, its run ends without one half of the snapshot it has just committed. */
  ghost predicate BreaksChain(w: Layout, s: State, i: SourceInput, p: SourcePlan) {
    exists end :: Carries(w, Starting(s, i), Steps(p.actions), end) && !Linked(w, end.local, end.remote, p.name)
  }

  lemma SetBackBreaksChain(site: Site, w: Layout, s: State, name: string, uuid: string, back: TimePoint, k: nat, earlier: string)
    returns (i: SourceInput, p: SourcePlan)
    requires WellConfigured(site, w) && KeepsOne(site) && Inv(w, s) && Lone(w, s, name, uuid) && SetBack(w, name, uuid, back)
    requires SameSecondAs(back, back) && k == 0 && w.parse(earlier) == Named(back, k)
    ensures Discovers(site, w, s, i) && IsSourcePlan(i, p) && BreaksChain(w, s, i, p)
  {
    i := LoneInput(site, w, name, uuid, back);
    p := SetBackHasPlan(site, w, name, uuid, back, k, earlier);
    DiscoversLone(site, w, s, name, uuid, back);
    SetBackDropsNew(site, w, name, uuid, back, p);
    EarlierIsElsewhere(site, w, s, name, uuid, back, i, p);
    BrokenUnlessSpared(site, w, s, i, p);
  }

  lemma EarlierIsElsewhere(site: Site, w: Layout, s: State, name: string, uuid: string, back: TimePoint, i: SourceInput, p: SourcePlan)
    requires WellConfigured(site, w) && Inv(w, s) && Lone(w, s, name, uuid) && SetBack(w, name, uuid, back)
    requires Discovers(site, w, s, i) && i.now == back && IsSourcePlan(i, p)
    ensures w.remote(p.name) !in s.remote
  {
    PlanFitsState(site, w, s, i, p);
    NamesArePlaced(site, w);
    assert w.nameOf(w.remote(name)) == name && w.nameOf(w.remote(p.name)) == p.name;
  }

  lemma BrokenUnlessSpared(site: Site, w: Layout, s: State, i: SourceInput, p: SourcePlan)
    requires WellConfigured(site, w) && Inv(w, s) && Discovers(site, w, s, i) && IsSourcePlan(i, p)
    requires !SparesNew(i, p) && w.remote(p.name) !in s.remote
    ensures BreaksChain(w, s, i, p)
  {
    KeepsItIff(site, w, s, i, p);
  }

  /** From nothing: a run at t, the clock set back to an earlier second, and a run that breaks the chain. */
  lemma ClockCanBreakChain(site: Site, w: Layout, t: TimePoint, back: TimePoint, k: nat, name: string, earlier: string)
    returns (states: seq<State>, i: SourceInput, p: SourcePlan)
    requires WellConfigured(site, w) && KeepsOne(site) && SameSecondAs(t, t) && SameSecondAs(back, back) && back < t
    requires k == 0 && w.parse(name) == Named(t, k) && w.parse(earlier) == Named(back, k)
    ensures ValidHistory(Following(site, w), states) && |states| == 2
    ensures Discovers(site, w, states[1], i) && IsSourcePlan(i, p) && BreaksChain(w, states[1], i, p)
  {
    var uuid := "a";
    FirstStep(site, w, t, k, name, uuid);
    states := OneStep(Following(site, w), LoneAfter(w, name, uuid, {uuid}, [name]));
    i, p := SetBackBreaksChain(site, w, states[1], name, uuid, back, k, earlier);
  }

  // ---- a name that the target already holds ----

  /** The local side keeps one snapshot and the target all of them. */
  ghost predicate KeepsAllThere(site: Site) {
    site.source.localRetention == 1 && site.source.remoteRetention == 0 && Accepted(site)
  }

  ghost function UnevenPlan(i: SourceInput, name: string, l: SnapshotInfo, r: SnapshotInfo): SourcePlan {
    PlanOf(i, name, Incremental(l, r), RetentionPlan(i.source.id, 1, [AddedLocal(i, name)], [l]),
           RetentionPlan(i.source.id, 0, [r] + [AddedRemote(i, name)], []))
  }

  lemma KeepsBoth(x: SnapshotInfo, y: SnapshotInfo)
    requires x.sourceId == y.sourceId && Older(x, y)
    ensures IsRetention(x.sourceId, Projected([x], None, y), 0, RetentionPlan(x.sourceId, 0, [x] + [y], []))
  {
    OlderIsAsymmetric(x, y);
    BothMatch(x, y);
    KeepsWhole(x.sourceId, [x] + [y]);
  }

  lemma KeepsWhole(sourceId: string, all: seq<SnapshotInfo>)
    requires Sorted(all, false) && Matching(sourceId, all) == all
    ensures IsRetention(sourceId, all, 0, RetentionPlan(sourceId, 0, all, []))
  {
    assert [] + all == all;
    SplitIsRetention(sourceId, all, [], all, 0);
  }

  lemma UnevenPlanIsOne(i: SourceInput, name: string, l: SnapshotInfo, r: SnapshotInfo)
    requires PathError(i).None? && i.local == [l] && i.remote == [r] && i.marker.None?
    requires i.source.localRetention == 1 && i.source.remoteRetention == 0
    requires IsFirstFree(BaseName(i.source.id, i.now), i.local, Some(name)) && ParseName(name, i.source.id).Named?
    requires Pair(ParentQuery(i, name), l, r) && Older(l, AddedLocal(i, name)) && Older(r, AddedRemote(i, name))
    ensures IsSourcePlan(i, UnevenPlan(i, name, l, r)) && SparesNew(i, UnevenPlan(i, name, l, r))
    ensures UnevenPlan(i, name, l, r).recovery.effects == []
  {
    KeepsTheNewer(l, AddedLocal(i, name));
    KeepsBoth(r, AddedRemote(i, name));
    SelectsTheOnly(ParentQuery(i, name), l, r);
    DeletionsOf(RecoveryInputOf(i));
    BeforeIsIrreflexive(l, false);
  }

  lemma UnevenStarts(site: Site, w: Layout, s: State, name: string, uuid: string, now: TimePoint, next: string, unused: string)
    returns (q: SourceRunPlan)
    requires WellConfigured(site, w) && KeepsAllThere(site) && Inv(w, s) && Lone(w, s, name, uuid) && FollowsIn(site, w, name, uuid, now, next)
    requires unused != "" && unused !in s.used
    ensures q == Planned(LoneInput(site, w, name, uuid, now),
                         UnevenPlan(LoneInput(site, w, name, uuid, now), next, HereOf(w, name, uuid), ThereOf(w, name, uuid)))
    ensures q.plan.recovery.effects == [] && Startable(site, w, s, q, unused)
  {
    q := UnevenPlanFor(site, w, name, uuid, now, next);
    DiscoversLone(site, w, s, name, uuid, now);
    NamesArePlaced(site, w);
    assert w.nameOf(w.remote(name)) == name && w.nameOf(w.remote(next)) == next;
  }

  lemma UnevenPlanFor(site: Site, w: Layout, name: string, uuid: string, now: TimePoint, next: string) returns (q: SourceRunPlan)
    requires WellConfigured(site, w) && KeepsAllThere(site) && uuid != "" && FollowsIn(site, w, name, uuid, now, next)
    ensures var i := LoneInput(site, w, name, uuid, now);
            var p := UnevenPlan(i, next, HereOf(w, name, uuid), ThereOf(w, name, uuid));
            q == Planned(i, p) && SparesNew(i, p) && p.recovery.effects == []
  {
    var i := LoneInput(site, w, name, uuid, now);
    assert w.parse(next) == ParseName(next, i.source.id);
    PathsAreAccepted(site, i.local, i.remote, now);
    LoneIsPair(site, w, name, uuid, now, next);
    LoneIsOlder(site, w, name, uuid, now, next);
    UnevenPlanIsOne(i, next, HereOf(w, name, uuid), ThereOf(w, name, uuid));
    q := PlannedFor(i, UnevenPlan(i, next, HereOf(w, name, uuid), ThereOf(w, name, uuid)));
  }

  /** The target holds both names, the local side only the second. */
  ghost predicate Uneven(w: Layout, s: State, first: string, second: string, uuid: string) {
    && w.parse(second).Named? && s.marker.None? && s.committed == [first] + [second]
    && s.local == map[w.local(second) := HereOf(w, second, uuid)] && w.remote(first) in s.remote
  }

  lemma UnevenAfter(w: Layout, s: State, name: string, uuid: string, i: SourceInput, p: SourcePlan, unused: string)
    requires Lone(w, s, name, uuid) && s.committed == [name] && NamesPlaced(w) && PathsNormal(w) && p.name != name && unused != ""
    requires w.parse(p.name).Named? && p.recovery.effects == []
    requires p.localRetention.deleteSnapshots == [HereOf(w, name, uuid)] && p.remoteRetention.deleteSnapshots == []
    ensures Uneven(w, Completed(w, s, i, p, unused), name, p.name, unused)
  {
    SidesAfterCommit(w, s, name, uuid, i, p, unused);
    assert w.nameOf(w.local(name)) == name && w.nameOf(w.local(p.name)) == p.name;
    PrunedToOne(w, w.local(name), HereOf(w, name, uuid), w.local(p.name), HereOf(w, p.name, unused));
  }

  ghost function UnevenState(w: Layout, first: string, second: string, uuid: string): State -> bool {
    s => Inv(w, s) && Uneven(w, s, first, second, uuid)
  }

  lemma UnevenStep(site: Site, w: Layout, s: State, now: TimePoint, name: string, next: string, uuid: string, unused: string, used: set<string>)
    requires WellConfigured(site, w) && KeepsAllThere(site) && FollowsIn(site, w, name, uuid, now, next)
    requires LoneAfter(w, name, uuid, used, [name])(s) && unused != "" && unused !in used
    ensures Leads(Following(site, w), s, UnevenState(w, name, next, unused))
  {
    var q := UnevenStarts(site, w, s, name, uuid, now, next, unused);
    LayoutFacts(site, w);
    var r := CompleteRun(site, w, s, q, unused);
    UnevenAfter(w, Starting(s, q.input), name, uuid, q.input, q.plan, unused);
    RunPreserves(site, w, s, r);
    RunLeads(site, w, s, r, UnevenState(w, name, next, unused));
  }

  // ---- the run after it ----

  /** The first name of the second is free on the local side. */
  ghost predicate FirstIsFree(i: SourceInput, zero: nat, name: string) {
    zero == 0 && name == NameInSecond(BaseName(i.source.id, i.now), zero) && !NameTaken(i.local, name)
  }

  /** So it is the one planned, and a target that holds it blocks every plan. */
  lemma HeldNameBlocks(site: Site, w: Layout, s: State, i: SourceInput, zero: nat, name: string, p: SourcePlan)
    requires WellConfigured(site, w) && Inv(w, s) && Discovers(site, w, s, i) && IsSourcePlan(i, p)
    requires FirstIsFree(i, zero, name) && w.remote(name) in s.remote
    ensures !CanComplete(w, s, i, p)
  {
    FirstFreeIs(i, zero, name, p.name);
    RunCompletesIff(site, w, s, i, p);
  }

  lemma FirstFreeIs(i: SourceInput, zero: nat, name: string, other: string)
    requires FirstIsFree(i, zero, name) && IsFirstFree(BaseName(i.source.id, i.now), i.local, Some(other))
    ensures other == name
  {}

  lemma FreeNameIsPlanned(site: Site, w: Layout, s: State, i: SourceInput, zero: nat, name: string) returns (p: SourcePlan)
    requires WellConfigured(site, w) && Accepted(site) && Inv(w, s) && Discovers(site, w, s, i) && s.committed != []
    requires Representable(DayStart(i.now)) && FirstIsFree(i, zero, name)
    ensures IsSourcePlan(i, p)
  {
    AcceptedAnyway(site, i);
    p := OtherwisePlanned(site, w, s, i);
  }

  lemma AcceptedAnyway(site: Site, i: SourceInput)
    requires Accepted(site) && i.profile == site.settings && i.source == site.source
    ensures PathError(i).None?
  {}

  lemma FirstIsFreeHere(site: Site, w: Layout, s: State, i: SourceInput, first: string, second: string, uuid: string)
    requires Discovers(site, w, s, i) && NamesPlaced(w) && Uneven(w, s, first, second, uuid) && first != second
    ensures !NameTaken(i.local, first)
  {
    forall k | 0 <= k < |i.local| ensures i.local[k].name != first {
      assert i.local[k] in i.local;
    }
  }

  lemma UnevenTakesFirst(site: Site, w: Layout, s: State, i: SourceInput, t: TimePoint, zero: nat, first: string, second: string, uuid: string)
    requires WellConfigured(site, w) && Uneven(w, s, first, second, uuid) && Discovers(site, w, s, i)
    requires SameSecondAs(t, i.now) && zero == 0 && w.parse(first) == Named(t, zero) && first != second
    ensures FirstIsFree(i, zero, first)
  {
    NamesArePlaced(site, w);
    NameIs(site, w, t, i.now, zero, first);
    FirstIsFreeHere(site, w, s, i, first, second, uuid);
  }

  /** In such a state a run in the same second has a plan, and no plan of it can be carried through. */
  lemma UnevenIsBlocked(site: Site, w: Layout, s: State, i: SourceInput, t: TimePoint, zero: nat, first: string, second: string, uuid: string)
    returns (p: SourcePlan)
    requires WellConfigured(site, w) && Accepted(site) && Inv(w, s) && Uneven(w, s, first, second, uuid) && Discovers(site, w, s, i)
    requires SameSecondAs(t, i.now) && Representable(DayStart(i.now)) && zero == 0 && w.parse(first) == Named(t, zero) && first != second
    ensures IsSourcePlan(i, p) && NeverCompletes(w, s, i)
  {
    UnevenTakesFirst(site, w, s, i, t, zero, first, second, uuid);
    p := FreeNameIsPlanned(site, w, s, i, zero, first);
    forall q | IsSourcePlan(i, q) ensures !CanComplete(w, s, i, q) {
      HeldNameBlocks(site, w, s, i, zero, first, q);
    }
  }

  ghost predicate NeverCompletes(w: Layout, s: State, i: SourceInput) {
    forall p :: IsSourcePlan(i, p) ==> !CanComplete(w, s, i, p)
  }

  lemma SameDay(t: TimePoint, now: TimePoint)
    requires SameSecondAs(t, now)
    ensures Representable(DayStart(now))
  {
    assert FloorSeconds(t) == FloorSeconds(now);
  }

  lemma TwoSteps(follow: (State, State) -> bool, p1: State -> bool, p2: State -> bool) returns (states: seq<State>)
    requires Leads(follow, EMPTY, p1)
    requires forall s :: p1(s) ==> Leads(follow, s, p2)
    ensures ValidHistory(follow, states) && |states| == 3 && p2(states[2])
  {
    var a :| follow(EMPTY, a) && p1(a);
    var b :| follow(a, b) && p2(b);
    states := [EMPTY, a, b];
  }

  ghost predicate UnevenScene(site: Site, w: Layout, t: TimePoint, soon: TimePoint, later: TimePoint, first: string, second: string) {
    && WellConfigured(site, w) && KeepsAllThere(site) && FirstNames(w, t, first, second) && SameSecondAs(t, t)
    && SameSecondAs(t, soon) && SameSecondAs(t, later) && t < soon && t < later
  }

  lemma UnevenLeadsFrom(site: Site, w: Layout, now: TimePoint, name: string, next: string, uuid: string, unused: string, used: set<string>)
    requires WellConfigured(site, w) && KeepsAllThere(site) && FollowsIn(site, w, name, uuid, now, next) && unused != "" && unused !in used
    ensures forall s :: LoneAfter(w, name, uuid, used, [name])(s) ==> Leads(Following(site, w), s, UnevenState(w, name, next, unused))
  {
    forall s | LoneAfter(w, name, uuid, used, [name])(s) ensures Leads(Following(site, w), s, UnevenState(w, name, next, unused)) {
      UnevenStep(site, w, s, now, name, next, uuid, unused, used);
    }
  }

  lemma UnevenLeads(site: Site, w: Layout, t: TimePoint, soon: TimePoint, later: TimePoint, first: string, second: string, a: string, b: string)
    requires UnevenScene(site, w, t, soon, later, first, second) && b != "" && b !in {a}
    ensures forall s :: LoneAfter(w, first, a, {a}, [first])(s) ==> Leads(Following(site, w), s, UnevenState(w, first, second, b))
  {
    SecondNameFollows(site, w, t, soon, first, second, a);
    UnevenLeadsFrom(site, w, soon, first, second, a, b, {a});
  }

  lemma UnevenStateExists(site: Site, w: Layout, t: TimePoint, soon: TimePoint, later: TimePoint, first: string, second: string, uuid: string)
    returns (states: seq<State>)
    requires UnevenScene(site, w, t, soon, later, first, second) && uuid == "b"
    ensures ValidHistory(Following(site, w), states) && |states| == 3 && UnevenState(w, first, second, uuid)(states[2])
  {
    var zero, a := 0, "a";
    FirstStep(site, w, t, zero, first, a);
    UnevenLeads(site, w, t, soon, later, first, second, a, uuid);
    states := TwoSteps(Following(site, w), LoneAfter(w, first, a, {a}, [first]), UnevenState(w, first, second, uuid));
  }

  /** Whatever the source, if it keeps one snapshot here and all there: after two runs in one second the third is
      planned under a name that the target holds, and cannot be carried through. */
  lemma RunCanBeBlocked(site: Site, w: Layout, t: TimePoint, soon: TimePoint, later: TimePoint, first: string, second: string)
    returns (states: seq<State>, i: SourceInput, p: SourcePlan)
    requires UnevenScene(site, w, t, soon, later, first, second)
    ensures ValidHistory(Following(site, w), states) && |states| == 3
    ensures Discovers(site, w, states[2], i) && i.now == later && IsSourcePlan(i, p)
    ensures NeverCompletes(w, states[2], i)
  {
    var zero, uuid := 0, "b";
    states := UnevenStateExists(site, w, t, soon, later, first, second, uuid);
    i := DiscoveryExists(site, w, states[2], later);
    SameDay(t, later);
    p := UnevenIsBlocked(site, w, states[2], i, t, zero, first, second, uuid);
  }

  // ---- a marker that does not spell its path normally ----

  lemma {:induction false} ResolveDotted(done: Path, rest: Path, name: string)
    requires Canonical(rest) && Plain(name)
    ensures Resolve(done, rest + ["."] + [name]) == done + rest + [name]
    decreases |rest|
  {
    var dotted := rest + ["."] + [name];
    if rest == [] {
      var last := [name];
      assert dotted[1..] == last && last[1..] == [];
      assert Resolve(done, last) == Resolve(done + last, []);
    } else {
      assert dotted[1..] == rest[1..] + ["."] + [name];
      ResolveDotted(done + [rest[0]], rest[1..], name);
      assert done + [rest[0]] + rest[1..] == done + rest;
    }
  }

  /** The path of a snapshot with a needless component. */
  function Dotted(site: Site, name: string): Path {
    site.source.localSnapshotDir + ["."] + [name]
  }

  lemma DottedIsNotNormal(site: Site, name: string)
    requires Canonical(site.source.localSnapshotDir) && Plain(name)
    ensures Normal(Dotted(site, name)) == site.source.localSnapshotDir + [name] && Normal(Dotted(site, name)) != Dotted(site, name)
  {
    var d := site.source.localSnapshotDir;
    ResolveDotted([], d, name);
    assert [] + d + [name] == d + [name];
    assert |Dotted(site, name)| == |d| + 2;
  }

  /** A snapshot is pending, found through such a path, and nothing is on the target. */
  ghost function DottedInput(site: Site, w: Layout, name: string, uuid: string, now: TimePoint): SourceInput
    requires w.parse(name).Named?
  {
    SourceInput(site.settings, site.source, [HereOf(w, name, uuid)], [],
                Some(PendingMarker(site.source.id, Some(Dotted(site, name)), Some(w.remote(name)), "", 0)),
                Some(SnapshotMetadata(true, true, uuid, "")), site.stateDir, "", now)
  }

  ghost predicate Tidy(site: Site, w: Layout, name: string) {
    && Faithful(site, w) && Canonical(site.source.localSnapshotDir) && Canonical(RemoteDir(site)) && !site.settings.keepFailedLocalSnapshot
    && w.parse(name).Named?
  }

  lemma NamedHasPrefix(name: string, sourceId: string)
    requires ParseName(name, sourceId).Named?
    ensures sourceId + "-" <= name
  {}

  lemma DottedMarkerIsValid(site: Site, remote: Path, name: string, marker: PendingMarker)
    requires Canonical(site.source.localSnapshotDir) && Canonical(remote) && Plain(name) && site.source.id + "-" <= name
    requires marker.sourceId == site.source.id && marker.localPath == Some(Dotted(site, name)) && marker.finalPath == Some(remote + [name])
    ensures MarkerPathIsValid(marker, site.source.id, site.source.localSnapshotDir, remote)
  {
    DottedIsNotNormal(site, name);
    CanonicalIsNormal(site.source.localSnapshotDir);
    CanonicalIsNormal(site.source.localSnapshotDir + [name]);
    CanonicalIsNormal(remote);
    CanonicalIsNormal(remote + [name]);
  }

  lemma OrphanIsDropped(i: RecoveryInput)
    requires Recoverable(i) && i.remote == [] && !i.keepFailed
    ensures LocalDeletion(RecoveryEffects(i)) == i.marker.value.localPath
  {
    DeletionsOf(i);
  }

  lemma DottedIsRecovered(site: Site, w: Layout, name: string, uuid: string, now: TimePoint)
    requires Tidy(site, w, name)
    ensures LocalDeletion(RecoveryEffects(RecoveryInputOf(DottedInput(site, w, name, uuid, now)))) == Some(Dotted(site, name))
    ensures Normal(w.local(name)) == w.local(name) == Normal(Dotted(site, name)) != Dotted(site, name)
  {
    var i := RecoveryInputOf(DottedInput(site, w, name, uuid, now));
    TidyPaths(site, w, name);
    DottedIsNotNormal(site, name);
    DottedMarkerIsValid(site, RemoteDir(site), name, i.marker.value);
    OrphanIsDropped(i);
  }

  lemma TidyPaths(site: Site, w: Layout, name: string)
    requires Tidy(site, w, name)
    ensures Plain(name) && site.source.id + "-" <= name
    ensures w.local(name) == site.source.localSnapshotDir + [name] && w.remote(name) == RemoteDir(site) + [name]
    ensures Normal(w.local(name)) == w.local(name)
  {
    assert w.parse(name) == ParseName(name, site.source.id);
    NamedIsPlain(name, site.source.id);
    NamedHasPrefix(name, site.source.id);
    CanonicalIsNormal(site.source.localSnapshotDir + [name]);
  }

  /** Recovery deletes the snapshot, and retention names it again, in every plan of this input. */
  lemma DottedIsNamedAgain(site: Site, w: Layout, name: string, uuid: string, now: TimePoint, p: SourcePlan)
    requires Tidy(site, w, name) && w.sourceId == site.source.id && site.source.localRetention == 1 && w.parse(name).timestamp < now
    requires IsSourcePlan(DottedInput(site, w, name, uuid, now), p)
    ensures LocalDeletion(p.recovery.effects) == Some(Dotted(site, name)) && Normal(Dotted(site, name)) == w.local(name)
    ensures HereOf(w, name, uuid) in p.localRetention.deleteSnapshots && HereOf(w, name, uuid).path == w.local(name)
  {
    var i, x := DottedInput(site, w, name, uuid, now), HereOf(w, name, uuid);
    DottedIsRecovered(site, w, name, uuid, now);
    PlannedProjection(i, p, x, Dotted(site, name));
    StaysListed(site.source.id, x, Dotted(site, name), AddedLocal(i, p.name), p.localRetention);
  }

  lemma PlannedProjection(i: SourceInput, p: SourcePlan, x: SnapshotInfo, removed: Path)
    requires IsSourcePlan(i, p) && i.local == [x] && LocalDeletion(RecoveryEffects(RecoveryInputOf(i))) == Some(removed)
    ensures LocalDeletion(p.recovery.effects) == Some(removed)
    ensures IsRetention(i.source.id, Projected([x], Some(removed), AddedLocal(i, p.name)), i.source.localRetention, p.localRetention)
  {}

  lemma StaysListed(sourceId: string, x: SnapshotInfo, removed: Path, added: SnapshotInfo, plan: RetentionPlan)
    requires IsRetention(sourceId, Projected([x], Some(removed), added), 1, plan)
    requires x.sourceId == added.sourceId == sourceId && x.timestamp < added.timestamp && Normal(removed) == x.path != removed
    requires Normal(x.path) == x.path
    ensures x in plan.deleteSnapshots
  {
    var projected := Projected([x], Some(removed), added);
    StillThere(x, removed);
    assert NoTies(projected);
    assert added in Newer(sourceId, projected, x);
    RemovedIsNamedIff(sourceId, [x], Some(removed), added, plan, x);
  }

  lemma StillThere(x: SnapshotInfo, removed: Path)
    requires x.path != removed
    ensures Without([x], removed) == [x]
  {
    assert [x][..0] == [] && Without([], removed) == [];
  }

  /** There is such a plan. */
  lemma DottedHasPlan(site: Site, w: Layout, name: string, uuid: string, now: TimePoint, t: TimePoint, k: nat, next: string) returns (p: SourcePlan)
    requires Faithful(site, w) && Accepted(site) && w.parse(name).Named? && name != next
    requires SameSecondAs(t, now) && Representable(DayStart(now)) && k == 0 && w.parse(next) == Named(t, k)
    ensures IsSourcePlan(DottedInput(site, w, name, uuid, now), p)
  {
    var i := DottedInput(site, w, name, uuid, now);
    NextIsFree(site, w, i.local, HereOf(w, name, uuid), now, t, k, next);
    AcceptedAnyway(site, i);
    p := PlanFull(i, next);
  }

  lemma NextIsFree(site: Site, w: Layout, local: seq<SnapshotInfo>, x: SnapshotInfo, now: TimePoint, t: TimePoint, k: nat, next: string)
    requires Faithful(site, w) && SameSecondAs(t, now) && k == 0 && w.parse(next) == Named(t, k)
    requires local == [x] && x.name != next
    ensures IsFirstFree(BaseName(site.source.id, now), local, Some(next))
  {
    NameIs(site, w, t, now, k, next);
    IsFreeAt(BaseName(site.source.id, now), local, k, next);
  }

  lemma PlanFull(i: SourceInput, name: string) returns (p: SourcePlan)
    requires PathError(i).None? && IsFirstFree(BaseName(i.source.id, i.now), i.local, Some(name))
    requires i.remote == [] && Representable(DayStart(i.now))
    ensures IsSourcePlan(i, p)
  {
    p := PlanWith(i, name, Full);
  }

  /** The marker makes recovery delete a snapshot by a path that is not normal, and retention name it again. */
  lemma RecoveredCanBeNamedAgain(site: Site, w: Layout, name: string, uuid: string, now: TimePoint, t: TimePoint, k: nat, next: string)
    returns (p: SourcePlan)
    requires Tidy(site, w, name) && Accepted(site) && site.source.localRetention == 1 && w.parse(name).timestamp < t
    requires SameSecondAs(t, now) && k == 0 && w.parse(next) == Named(t, k)
    ensures IsSourcePlan(DottedInput(site, w, name, uuid, now), p)
    ensures LocalDeletion(p.recovery.effects) == Some(Dotted(site, name)) && Normal(Dotted(site, name)) == w.local(name)
    ensures HereOf(w, name, uuid) in p.localRetention.deleteSnapshots && HereOf(w, name, uuid).path == w.local(name)
  {
    SameDay(t, now);
    p := DottedHasPlan(site, w, name, uuid, now, t, k, next);
    DottedIsNamedAgain(site, w, name, uuid, now, p);
  }

  // ---- the hypotheses can be met ----

  /** The first two seconds of 1970, for a clock set back and for a pending snapshot of the first one. */
  lemma ExampleSeconds() returns (w: Layout, name: string, earlier: string)
    ensures WellConfigured(ExampleSite(1, 1), w) && KeepsOne(ExampleSite(1, 1)) && ExampleSite(1, 1).settings.incrementalRequired
    ensures SameSecondAs(NS_PER_SECOND, NS_PER_SECOND) && SameSecondAs(0, 0)
    ensures w.parse(name) == Named(NS_PER_SECOND, 0) && w.parse(earlier) == Named(0, 0) && Tidy(ExampleSite(1, 1), w, earlier)
  {
    var zero, t, back := 0, NS_PER_SECOND, 0;
    w := ExampleLayout(1, 1);
    name := NameExistsAt(ExampleSite(1, 1), w, t, zero);
    earlier := NameExistsAt(ExampleSite(1, 1), w, back, zero);
  }

  /** Three moments of the first second, for a name the target holds. */
  lemma ExampleUnevenScene() returns (w: Layout, first: string, second: string)
    ensures UnevenScene(ExampleSite(1, 0), w, 0, 1, 2, first, second)
  {
    var zero, one, t := 0, 1, 0;
    w := ExampleLayout(1, 0);
    first := NameExistsAt(ExampleSite(1, 0), w, t, zero);
    second := NameExistsAt(ExampleSite(1, 0), w, t, one);
  }
}
