/** Histories after which the next transfer starts from the last commit. */
module LastCommit {
  import opened Core
  import opened Snapshots
  import opened IncrementalParent
  import opened RunPlan
  import opened Repository
  import opened Chain
  import opened History
  import opened NextPlan

  // ---- commits in order of rank ----

  ghost predicate Outranks(w: Layout, committed: seq<string>, name: string) {
    forall m :: m in committed ==> RanksBefore(w.parse(m), w.parse(name))
  }

  /** Each commit ranks after those before it, and none lies in a second later than the clock. */
  ghost predicate CommitsAscend(w: Layout, committed: seq<string>, clock: int) {
    && (forall j, k :: 0 <= j < k < |committed| ==> RanksBefore(w.parse(committed[j]), w.parse(committed[k])))
    && (forall m :: m in committed ==> Dated(w, m, clock))
  }

  lemma AscendingHasNoLaterLink(w: Layout, s: State)
    requires CommitsAscend(w, s.committed, s.clock) && s.committed != []
    ensures NoLaterLink(w, s, s.committed[|s.committed| - 1])
  {
    var last := s.committed[|s.committed| - 1];
    forall m | m in s.committed && m != last ensures RanksBefore(w.parse(m), w.parse(last)) {
      var k :| 0 <= k < |s.committed| && s.committed[k] == m;
    }
  }

  lemma AscendsStill(w: Layout, s: State, s': State, name: string)
    requires CommitsAscend(w, s.committed, s.clock) && s.clock <= s'.clock
    requires Dated(w, name, s'.clock) && Outranks(w, s.committed, name)
    requires s'.committed == s.committed || s'.committed == s.committed + [name]
    ensures CommitsAscend(w, s'.committed, s'.clock) && s.committed <= s'.committed
  {}

  /** A run whose name ranks after every commit so far, as it does in a later second. */
  ghost predicate CanFollowInOrder(site: Site, w: Layout, s: State, s': State) {
    exists r: RunRecord :: ValidRun(site, w, s, r) && r.end == s' && Outranks(w, s.committed, r.planning.plan.name)
  }

  ghost function FollowingInOrder(site: Site, w: Layout): (State, State) -> bool {
    (s, s') => CanFollowInOrder(site, w, s, s')
  }

  lemma PlannedNameIsDated(site: Site, w: Layout, i: SourceInput, p: SourcePlan)
    requires Faithful(site, w) && i.source == site.source && IsSourcePlan(i, p)
    ensures w.parse(p.name).Named? && w.parse(p.name).timestamp == SecondOf(i.now)
  {
    PlannedNameParses(i, p.name);
    assert w.parse(p.name) == ParseName(p.name, i.source.id);
  }

  /** A run planned in a later second is in order. */
  lemma LaterSecondOutranks(site: Site, w: Layout, s: State, i: SourceInput, p: SourcePlan)
    requires Faithful(site, w) && i.source == site.source && IsSourcePlan(i, p)
    requires CommitsAscend(w, s.committed, s.clock) && SecondOf(i.now) > s.clock
    ensures Outranks(w, s.committed, p.name)
  {
    PlannedNameIsDated(site, w, i, p);
  }

  ghost predicate InOrder(w: Layout, s: State) {
    Inv(w, s) && CommitsAscend(w, s.committed, s.clock)
  }

  lemma FollowingInOrderKeeps(site: Site, w: Layout, s: State, s': State)
    requires WellConfigured(site, w) && InOrder(w, s) && CanFollowInOrder(site, w, s, s')
    ensures InOrder(w, s') && s.committed <= s'.committed
  {
    var r: RunRecord :| ValidRun(site, w, s, r) && r.end == s' && Outranks(w, s.committed, r.planning.plan.name);
    RunPreserves(site, w, s, r);
    EndIsDated(site, w, s, r);
    AscendsStill(w, s, s', r.planning.plan.name);
  }

  lemma EndIsDated(site: Site, w: Layout, s: State, r: RunRecord)
    requires WellConfigured(site, w) && Inv(w, s) && ValidRun(site, w, s, r)
    ensures s.clock <= r.end.clock && Dated(w, r.planning.plan.name, r.end.clock)
  {
    RunPreserves(site, w, s, r);
    PlannedNameIsDated(site, w, r.planning.input, r.planning.plan);
  }

  ghost predicate IsOrdered(h: Chronicle) {
    h.Chronicle? ==> WellConfigured(h.site, h.w) && ValidHistory(FollowingInOrder(h.site, h.w), h.states)
  }

  /** Any number of runs, each stopping anywhere, that take names in order of rank. */
  type OrderedHistory = h: Chronicle | IsOrdered(h) witness Unwritten

  lemma OrderedStateIsSound(h: OrderedHistory, k: nat)
    requires h.Chronicle? && k < |h.states|
    ensures WellConfigured(h.site, h.w) && InOrder(h.w, h.states[k])
  {
    var follow := FollowingInOrder(h.site, h.w);
    forall s, s' | follow(s, s') && InOrder(h.w, s) ensures InOrder(h.w, s') && s.committed <= s'.committed {
      FollowingInOrderKeeps(h.site, h.w, s, s');
    }
    EmptyIsFine(h.w);
    HistoryInduction(s => InOrder(h.w, s), follow, h.states, k);
  }

  /** A transfer from the last commit, or a failure that has nothing to do with the parent. */
  ghost predicate SendsFromLast(w: Layout, s: State, i: SourceInput, r: Result<Selection, PlanError>) {
    match r
    case Err(e) => FailsElsewhere(i, e)
    case Ok(parent) => s.committed != [] && IsFrom(w, s, s.committed[|s.committed| - 1], parent)
  }

  lemma NewestIsLast(w: Layout, s: State, i: SourceInput, r: Result<Selection, PlanError>)
    requires s.committed != [] && SendsFromNewest(w, s, i, r) && NoLaterLink(w, s, s.committed[|s.committed| - 1])
    ensures SendsFromLast(w, s, i, r)
  {
    if r.Ok? {
      ParentIsLastIff(w, s, r.value, s.committed[|s.committed| - 1]);
    }
  }

  lemma InOrderSendsFromLast(site: Site, w: Layout, s: State, i: SourceInput, r: Result<SourceRunPlan, RunPlanError>)
    requires WellConfigured(site, w) && InOrder(w, s) && Discovers(site, w, s, i)
    requires OutcomeFor(i, r) && s.committed != []
    ensures SendsFromLast(w, s, i, ParentOf(i, r))
  {
    AscendingHasNoLaterLink(w, s);
    CommittedPlanIsIncremental(site, w, s, i, r);
    NewestIsLast(w, s, i, ParentOf(i, r));
  }

  /** After any history in order of rank, planning sends from the last commit. */
  lemma LaterPlansSendFromLastCommit(h: OrderedHistory, k: nat, i: SourceInput, r: Result<SourceRunPlan, RunPlanError>)
    requires h.Chronicle? && k < |h.states| && h.states[k].committed != []
    requires Discovers(h.site, h.w, h.states[k], i) && OutcomeFor(i, r)
    ensures SendsFromLast(h.w, h.states[k], i, ParentOf(i, r))
  {
    OrderedStateIsSound(h, k);
    InOrderSendsFromLast(h.site, h.w, h.states[k], i, r);
  }

  // ---- a clock that moves forward ----

  /** A run of which only this is known: it is planned, from what discovery found, in a later second than any before. */
  ghost predicate ForwardRun(site: Site, w: Layout, s: State, r: RunRecord) {
    && r.planning.Planned? && Discovers(site, w, s, r.planning.input) && SecondOf(r.planning.input.now) > s.clock
    && Executes(w, s.(clock := SecondOf(r.planning.input.now)), Steps(r.planning.plan.actions), r.states, r.end)
  }

  ghost predicate CanFollowForward(site: Site, w: Layout, s: State, s': State) {
    exists r: RunRecord :: ForwardRun(site, w, s, r) && r.end == s'
  }

  ghost function FollowingForward(site: Site, w: Layout): (State, State) -> bool {
    (s, s') => CanFollowForward(site, w, s, s')
  }

  /** The clock alone makes retention spare the new snapshot and its name outrank the commits. */
  lemma ForwardRunIsInOrder(site: Site, w: Layout, s: State, r: RunRecord)
    requires WellConfigured(site, w) && InOrder(w, s) && ForwardRun(site, w, s, r)
    ensures ValidRun(site, w, s, r) && Outranks(w, s.committed, r.planning.plan.name)
  {
    ForwardClockSparesNew(site, w, s, r.planning.input, r.planning.plan);
    LaterSecondOutranks(site, w, s, r.planning.input, r.planning.plan);
  }

  lemma FollowingForwardKeeps(site: Site, w: Layout, s: State, s': State)
    requires WellConfigured(site, w) && InOrder(w, s) && CanFollowForward(site, w, s, s')
    ensures InOrder(w, s') && s.committed <= s'.committed
  {
    var r: RunRecord :| ForwardRun(site, w, s, r) && r.end == s';
    ForwardRunIsInOrder(site, w, s, r);
    FollowingInOrderKeeps(site, w, s, s');
  }

  ghost predicate MovesForward(h: Chronicle) {
    h.Chronicle? ==> WellConfigured(h.site, h.w) && ValidHistory(FollowingForward(h.site, h.w), h.states)
  }

  /** Any number of runs, each in a later second than the one before and stopping anywhere. */
  type ForwardHistory = h: Chronicle | MovesForward(h) witness Unwritten

  lemma ForwardStateIsSound(h: ForwardHistory, k: nat)
    requires h.Chronicle? && k < |h.states|
    ensures WellConfigured(h.site, h.w) && InOrder(h.w, h.states[k])
    ensures TipIsLinked(h.w, h.states[k].local, h.states[k].remote, h.states[k].committed)
  {
    var follow := FollowingForward(h.site, h.w);
    forall s, s' | follow(s, s') && InOrder(h.w, s) ensures InOrder(h.w, s') && s.committed <= s'.committed {
      FollowingForwardKeeps(h.site, h.w, s, s');
    }
    EmptyIsFine(h.w);
    HistoryInduction(s => InOrder(h.w, s), follow, h.states, k);
  }

  /** With a clock that moves forward, and nothing else assumed of the runs or of the plan, planning sends from the
      last commit. */
  lemma ForwardPlansSendFromLastCommit(h: ForwardHistory, k: nat, i: SourceInput, r: Result<SourceRunPlan, RunPlanError>)
    requires h.Chronicle? && k < |h.states| && h.states[k].committed != []
    requires Discovers(h.site, h.w, h.states[k], i) && OutcomeFor(i, r)
    ensures SendsFromLast(h.w, h.states[k], i, ParentOf(i, r))
  {
    ForwardStateIsSound(h, k);
    InOrderSendsFromLast(h.site, h.w, h.states[k], i, r);
  }
}
