/** What the next run plans in any state the runs before it can leave. */
module NextPlan {
  import opened Core
  import opened RuntimeTime
  import opened Snapshots
  import opened IncrementalParent
  import opened RunPlan
  import opened Repository
  import opened Chain
  import opened History

  /** A query over the inventories of a state, for a snapshot that does not exist yet. */
  ghost predicate Asks(w: Layout, s: State, q: Query) {
    && q.sourceId == w.sourceId
    && IsInventory(s.local, q.local) && IsInventory(s.remote, q.remote)
    && q.current.Some? && Normal(q.current.value) !in s.local
  }

  lemma NeverAmbiguous(w: Layout, s: State, q: Query)
    requires Asks(w, s, q) && RemoteUuids(s.remote)
    ensures !Ambiguous(q)
  {}

  /** Ranks of names: by second, then by sequence. */
  predicate RanksBefore(a: NameParse, b: NameParse) {
    && a.Named? && b.Named?
    && (a.timestamp < b.timestamp || (a.timestamp == b.timestamp && a.sequence < b.sequence))
  }

  lemma LinkIsPair(w: Layout, s: State, q: Query, name: string)
    requires Inv(w, s) && PathsNormal(w) && Normalizes(w) && Asks(w, s, q)
    requires Linked(w, s.local, s.remote, name)
    ensures var l, r := s.local[w.local(name)], s.remote[w.remote(name)];
            l in q.local && r in q.remote && Pair(q, l, r)
  {
    var l, r := s.local[w.local(name)], s.remote[w.remote(name)];
    assert w.normal(l.path) == l.path && Normal(l.path) == l.path;
  }

  // ---- the pair that is chosen ----

  /** The name of a snapshot that is present on both sides, ranking after every other one that is. */
  ghost predicate NewestLink(w: Layout, s: State, name: string) {
    && Linked(w, s.local, s.remote, name)
    && forall m :: m != name && Linked(w, s.local, s.remote, m) ==> Older(s.local[w.local(m)], s.local[w.local(name)])
  }

  /** The incremental transfer from the snapshot of this name. */
  function FromName(w: Layout, s: State, name: string): Selection
    requires w.local(name) in s.local && w.remote(name) in s.remote
  {
    Incremental(s.local[w.local(name)], s.remote[w.remote(name)])
  }

  /** A parse gives the name back. */
  ghost predicate ParseIdentifies(w: Layout) {
    forall m, n :: w.parse(m).Named? && w.parse(m) == w.parse(n) ==> m == n
  }

  lemma ParsesIdentify(site: Site, w: Layout)
    requires Faithful(site, w)
    ensures ParseIdentifies(w)
  {
    forall m, n | w.parse(m).Named? && w.parse(m) == w.parse(n) ensures m == n {
      ParsedNameIsAllocated(m, site.source.id);
      ParsedNameIsAllocated(n, site.source.id);
    }
  }

  /** A matching pair is the two halves of one committed name. */
  lemma PairIsLinked(w: Layout, s: State, l: SnapshotInfo, r: SnapshotInfo)
    requires LocalFits(w, s.local, s.clock, s.used) && RemoteFits(w, s.remote, s.clock)
    requires CopiesShareNames(s.local, s.remote) && CopiesRecorded(s.remote, s.used, s.committed)
    requires l.path in s.local && s.local[l.path] == l && r.path in s.remote && s.remote[r.path] == r
    requires UuidMatches(l.uuid, r.receivedUuid)
    ensures l.path == w.local(l.name) && r.path == w.remote(l.name)
    ensures l.name in s.committed && Linked(w, s.local, s.remote, l.name)
  {}

  /** Of two different names on the local side, one ranks before the other. */
  lemma NamesAreRanked(w: Layout, s: State, m: string, n: string)
    requires LocalFits(w, s.local, s.clock, s.used) && NamesPlaced(w) && ParseIdentifies(w)
    requires w.local(m) in s.local && w.local(n) in s.local && m != n
    ensures var a, b := s.local[w.local(m)], s.local[w.local(n)];
            && a.name == m && b.name == n && (Older(a, b) || Older(b, a))
            && (Older(a, b) <==> RanksBefore(w.parse(m), w.parse(n)))
  {
    assert w.nameOf(w.local(m)) == m && w.nameOf(w.local(n)) == n;
    assert w.parse(m) != w.parse(n);
  }

  /** Once a run has committed, the parent is the newest name that is present on both sides. */
  lemma SelectsNewestLink(w: Layout, s: State, q: Query, sel: Result<Selection, SelectionError>) returns (name: string)
    requires Inv(w, s) && NamesPlaced(w) && PathsNormal(w) && Normalizes(w) && ParseIdentifies(w)
    requires Asks(w, s, q) && s.committed != [] && IsSelection(q, sel)
    ensures name in s.committed && NewestLink(w, s, name) && sel == Ok(FromName(w, s, name))
  {
    NeverAmbiguous(w, s, q);
    LinkIsPair(w, s, q, s.committed[|s.committed| - 1]);
    assert sel.Ok? && sel.value.Incremental?;
    var l, r := sel.value.localParent, sel.value.remoteParent;
    name := l.name;
    PairIsLinked(w, s, l, r);
    forall m | m != name && Linked(w, s.local, s.remote, m) ensures Older(s.local[w.local(m)], l) {
      LinkIsPair(w, s, q, m);
      NamesAreRanked(w, s, m, name);
    }
  }

  lemma WithoutCommitNoPair(w: Layout, s: State, q: Query)
    requires CopiesRecorded(s.remote, s.used, s.committed) && Asks(w, s, q) && s.committed == []
    ensures !HasPair(q)
  {}

  lemma RemoteListed(w: Layout, s: State, q: Query)
    requires RemoteFits(w, s.remote, s.clock) && Asks(w, s, q)
    ensures HasRemote(q) <==> s.remote != map[]
  {
    if HasRemote(q) {
      var r :| r in q.remote && r.sourceId == q.sourceId;
      assert r.path in s.remote;
    }
    if s.remote != map[] {
      var p :| p in s.remote;
      assert s.remote[p] in q.remote;
    }
  }

  lemma SelectsWithoutTip(w: Layout, s: State, q: Query, sel: Result<Selection, SelectionError>)
    requires Inv(w, s) && Asks(w, s, q) && s.committed == [] && IsSelection(q, sel)
    ensures sel == if q.required && s.remote != map[] then Err(NoMatchingParent) else Ok(Full)
  {
    NeverAmbiguous(w, s, q);
    WithoutCommitNoPair(w, s, q);
    RemoteListed(w, s, q);
  }

  /** The parent in any state that runs can leave: before the first commit there is none, and planning
      refuses exactly when a full transfer may not follow an unverified copy left on the target; afterwards
      it is the newest name that is present on both sides. */
  ghost predicate IsExpectedParent(w: Layout, s: State, required: bool, sel: Result<Selection, SelectionError>) {
    if s.committed == [] then
      sel == if required && s.remote != map[] then Err(NoMatchingParent) else Ok(Full)
    else
      exists name :: name in s.committed && NewestLink(w, s, name) && sel == Ok(FromName(w, s, name))
  }

  lemma SelectsExpected(w: Layout, s: State, q: Query, sel: Result<Selection, SelectionError>)
    requires Inv(w, s) && NamesPlaced(w) && PathsNormal(w) && Normalizes(w) && ParseIdentifies(w)
    requires Asks(w, s, q) && IsSelection(q, sel)
    ensures IsExpectedParent(w, s, q.required, sel)
  {
    if s.committed == [] {
      SelectsWithoutTip(w, s, q, sel);
    } else {
      var name := SelectsNewestLink(w, s, q, sel);
    }
  }

  // ---- when it is the last commit ----

  /** No name of a higher rank that was committed earlier is still present on both sides. */
  ghost predicate NoLaterLink(w: Layout, s: State, last: string) {
    forall m :: m in s.committed && m != last && Linked(w, s.local, s.remote, m) ==> RanksBefore(w.parse(m), w.parse(last))
  }

  lemma LinkedIsCommitted(w: Layout, s: State, name: string)
    requires Inv(w, s) && NamesPlaced(w) && Linked(w, s.local, s.remote, name)
    ensures name in s.committed && s.local[w.local(name)].name == name
  {
    assert w.nameOf(w.local(name)) == name;
    PairIsLinked(w, s, s.local[w.local(name)], s.remote[w.remote(name)]);
  }

  /** The transfer starts from the last commit exactly when no later-ranked name is still paired. */
  lemma LastCommitIsNewestIff(w: Layout, s: State, name: string)
    requires Inv(w, s) && NamesPlaced(w) && ParseIdentifies(w) && s.committed != [] && NewestLink(w, s, name)
    ensures name == s.committed[|s.committed| - 1] <==> NoLaterLink(w, s, s.committed[|s.committed| - 1])
  {
    var last := s.committed[|s.committed| - 1];
    if name == last {
      forall m | m in s.committed && m != last && Linked(w, s.local, s.remote, m) ensures RanksBefore(w.parse(m), w.parse(last)) {
        NamesAreRanked(w, s, m, last);
      }
    } else {
      LinkedIsCommitted(w, s, name);
      NamesAreRanked(w, s, last, name);
    }
  }

  /** A transfer from the newest name that is present on both sides, which is the last commit exactly if no
      later-ranked one is. */
  ghost predicate IsNewestParent(w: Layout, s: State, parent: Selection) {
    s.committed != [] && Linked(w, s.local, s.remote, s.committed[|s.committed| - 1])
    && (exists name :: name in s.committed && NewestLink(w, s, name) && parent == FromName(w, s, name))
    && (parent == FromName(w, s, s.committed[|s.committed| - 1]) <==> NoLaterLink(w, s, s.committed[|s.committed| - 1]))
  }

  lemma NewestIsParent(w: Layout, s: State, name: string)
    requires Inv(w, s) && NamesPlaced(w) && ParseIdentifies(w)
    requires s.committed != [] && name in s.committed && NewestLink(w, s, name)
    ensures IsNewestParent(w, s, FromName(w, s, name))
  {
    var last := s.committed[|s.committed| - 1];
    LinkedIsCommitted(w, s, name);
    LinkedIsCommitted(w, s, last);
    LastCommitIsNewestIff(w, s, name);
  }

  /** A transfer from the snapshot of this name. */
  ghost predicate IsFrom(w: Layout, s: State, name: string, parent: Selection) {
    Linked(w, s.local, s.remote, name) && parent == FromName(w, s, name)
  }

  lemma ParentIsLastIff(w: Layout, s: State, parent: Selection, last: string)
    requires IsNewestParent(w, s, parent) && Tip(s.committed) == Some(last)
    ensures IsFrom(w, s, last, parent) <==> NoLaterLink(w, s, last)
  {}

  // ---- what planning yields ----

  /** No local snapshot has any name of a second later than the clock. */
  lemma LaterNameIsFree(w: Layout, s: State, local: seq<SnapshotInfo>, name: string)
    requires LocalFits(w, s.local, s.clock, s.used) && IsInventory(s.local, local)
    requires w.parse(name).Named? && w.parse(name).timestamp > s.clock
    ensures !NameTaken(local, name)
  {
    forall k | 0 <= k < |local| ensures local[k].name != name {
      assert local[k] in local;
    }
  }

  lemma LaterSecondHasName(site: Site, w: Layout, s: State, i: SourceInput)
    requires WellConfigured(site, w) && Inv(w, s) && Discovers(site, w, s, i)
    requires SecondOf(i.now) > s.clock && Representable(DayStart(i.now))
    ensures !IsFirstFree(BaseName(i.source.id, i.now), i.local, None)
  {
    var name := NameInSecond(BaseName(i.source.id, i.now), 0);
    NameParsesBack(i.source.id, i.now, 0);
    assert w.parse(name) == ParseName(name, i.source.id);
    LaterNameIsFree(w, s, i.local, name);
  }

  lemma QueryAsks(site: Site, w: Layout, s: State, i: SourceInput, name: string)
    requires WellConfigured(site, w) && Inv(w, s) && Discovers(site, w, s, i)
    requires IsFirstFree(BaseName(i.source.id, i.now), i.local, Some(name))
    ensures Asks(w, s, ParentQuery(i, name))
  {
    CompactLength(i.now);
    JoinIsClean(site.source.localSnapshotDir, name);
    PlannedNameIsFree(site, w, s, i, name);
  }

  /** Planning fails for a reason that has nothing to do with the parent: a configured path, a second whose
      hundred names are all taken, or a day whose midnight is not representable. */
  ghost predicate FailsElsewhere(i: SourceInput, e: PlanError) {
    || PathError(i) == Some(e)
    || (e == NoFreeName && IsFirstFree(BaseName(i.source.id, i.now), i.local, None))
    || (e == TimestampOverflow && !Representable(DayStart(i.now)))
  }

  /** The state decides the parent, or the reason there is none. */
  ghost predicate PlansAsExpected(w: Layout, s: State, i: SourceInput, r: Result<SourcePlan, PlanError>) {
    match r
    case Ok(p) => IsExpectedParent(w, s, i.profile.incrementalRequired, Ok(p.parent))
    case Err(NoParent(reason)) => IsExpectedParent(w, s, i.profile.incrementalRequired, Err(reason))
    case Err(e) => FailsElsewhere(i, e)
  }

  lemma ChosenParentIsExpected(site: Site, w: Layout, s: State, i: SourceInput, name: string, sel: Result<Selection, SelectionError>)
    requires WellConfigured(site, w) && Inv(w, s) && Discovers(site, w, s, i)
    requires IsFirstFree(BaseName(i.source.id, i.now), i.local, Some(name)) && IsSelection(ParentQuery(i, name), sel)
    ensures IsExpectedParent(w, s, i.profile.incrementalRequired, sel)
  {
    LayoutFacts(site, w);
    ParsesIdentify(site, w);
    QueryAsks(site, w, s, i, name);
    SelectsExpected(w, s, ParentQuery(i, name), sel);
  }

  /** What planning yields in any state that runs can leave, at whatever time it is done. */
  lemma NextPlanIsExpected(site: Site, w: Layout, s: State, i: SourceInput, r: Result<SourcePlan, PlanError>)
    requires WellConfigured(site, w) && Inv(w, s) && Discovers(site, w, s, i) && IsSourcePlanResult(i, r)
    ensures PlansAsExpected(w, s, i, r)
  {
    match r
    case Ok(p) => ChosenParentIsExpected(site, w, s, i, p.name, Ok(p.parent));
    case Err(e) =>
      FailureHasReason(i, e);
      if e.NoParent? {
        var name :| IsFirstFree(BaseName(i.source.id, i.now), i.local, Some(name)) && IsSelection(ParentQuery(i, name), Err(e.reason));
        ChosenParentIsExpected(site, w, s, i, name, Err(e.reason));
      }
  }

  lemma FailureHasReason(i: SourceInput, e: PlanError)
    requires IsPlanFailure(i, e)
    ensures !e.NoParent? ==> FailsElsewhere(i, e)
    ensures e.NoParent? ==>
      exists name :: IsFirstFree(BaseName(i.source.id, i.now), i.local, Some(name)) && IsSelection(ParentQuery(i, name), Err(e.reason))
  {}

  /** What planning the source yields for an input: a plan or a failure that meets its contract. */
  predicate OutcomeFor(i: SourceInput, r: Result<SourceRunPlan, RunPlanError>) {
    && (r.Ok? ==> r.value.Planned? && r.value.input == i)
    && (r.Err? ==> r.error.SourceFailed? && r.error.input == i)
  }

  /** An incremental plan from the newest name that is present on both sides, or a failure that has nothing to do
      with the parent. */
  ghost predicate SendsFromNewest(w: Layout, s: State, i: SourceInput, r: Result<Selection, PlanError>) {
    match r
    case Err(e) => FailsElsewhere(i, e)
    case Ok(parent) => IsNewestParent(w, s, parent)
  }

  /** The parent a plan sends from, or the reason there is no plan. */
  function ParentOf(i: SourceInput, r: Result<SourceRunPlan, RunPlanError>): Result<Selection, PlanError>
    requires OutcomeFor(i, r)
  {
    if r.Ok? then Ok(r.value.plan.parent) else Err(r.error.error)
  }

  /** Once one run has committed, no later run fails for want of a parent. The invariant holds in every state
      that any number of runs can leave. */
  lemma CommittedPlanIsIncremental(site: Site, w: Layout, s: State, i: SourceInput, r: Result<SourceRunPlan, RunPlanError>)
    requires WellConfigured(site, w) && Inv(w, s) && Discovers(site, w, s, i)
    requires OutcomeFor(i, r) && s.committed != []
    ensures SendsFromNewest(w, s, i, ParentOf(i, r))
  {
    NextPlanIsExpected(site, w, s, i, if r.Ok? then Ok(r.value.plan) else Err(r.error.error));
    if r.Ok? {
      var name :| name in s.committed && NewestLink(w, s, name) && r.value.plan.parent == FromName(w, s, name);
      NamesArePlaced(site, w);
      ParsesIdentify(site, w);
      NewestIsParent(w, s, name);
    }
  }

  // ---- after any history ----

  /** A configuration and the states between its runs. */
  datatype Chronicle = Unwritten | Chronicle(site: Site, w: Layout, states: seq<State>)

  ghost predicate IsChronicle(h: Chronicle) {
    h.Chronicle? ==> WellConfigured(h.site, h.w) && ValidHistory(Following(h.site, h.w), h.states)
  }

  /** Any number of runs of one configuration, each stopping anywhere. */
  type RunHistory = h: Chronicle | IsChronicle(h) witness Unwritten

  lemma ReachedStateIsSound(h: RunHistory, k: nat)
    requires h.Chronicle? && k < |h.states|
    ensures WellConfigured(h.site, h.w) && Inv(h.w, h.states[k])
  {
    ChainSurvives(h.site, h.w, h.states, k, k);
  }

  /** The whole promise: after any history with a commit, whatever planning yields is an incremental plan or a
      failure that has nothing to do with the parent. */
  lemma LaterPlansAreIncremental(h: RunHistory, k: nat, i: SourceInput, r: Result<SourceRunPlan, RunPlanError>)
    requires h.Chronicle? && k < |h.states| && h.states[k].committed != []
    requires Discovers(h.site, h.w, h.states[k], i) && OutcomeFor(i, r)
    ensures SendsFromNewest(h.w, h.states[k], i, ParentOf(i, r))
  {
    ReachedStateIsSound(h, k);
    CommittedPlanIsIncremental(h.site, h.w, h.states[k], i, r);
  }
}
