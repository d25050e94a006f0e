/** Which states let a source go on. */
module Progress {
  import opened Core
  import opened RuntimeTime
  import opened Snapshots
  import opened RunPlan
  import opened Repository
  import opened Chain
  import opened History
  import opened NextPlan
  import opened Completion
  import opened Totality

  /** Nothing is committed, a parent is required, and the target holds a copy that was never checked. */
  predicate Stranded(site: Site, s: State) {
    s.committed == [] && site.settings.incrementalRequired && s.remote != map[]
  }

  /** A stranded source has no plan, whenever it is tried: the recovery that would delete the copy is part of the
      plan that is refused. */
  lemma StrandedHasNoPlan(site: Site, w: Layout, s: State, i: SourceInput, p: SourcePlan)
    requires WellConfigured(site, w) && Inv(w, s) && Stranded(site, s) && Discovers(site, w, s, i)
    ensures !IsSourcePlan(i, p)
  {
    if IsSourcePlan(i, p) {
      NextPlanIsExpected(site, w, s, i, Ok(p));
      assert false;
    }
  }

  /** So no run ever follows. */
  lemma StrandedForever(site: Site, w: Layout, s: State, s': State)
    requires WellConfigured(site, w) && Inv(w, s) && Stranded(site, s)
    ensures !CanFollow(site, w, s, s')
  {
    if CanFollow(site, w, s, s') {
      var r: RunRecord :| ValidRun(site, w, s, r) && r.end == s';
      StrandedHasNoPlan(site, w, s, r.planning.input, r.planning.plan);
    }
  }

  /** The run is planned in a later second than the latest one, on a day that has a representable midnight. */
  predicate InLaterSecond(s: State, i: SourceInput) {
    SecondOf(i.now) > s.clock && Representable(DayStart(i.now)) && PathError(i).None?
  }

  /** Any other source has a plan, if its paths are accepted and the second has a free name and a representable midnight. */
  lemma OtherwisePlanned(site: Site, w: Layout, s: State, i: SourceInput) returns (p: SourcePlan)
    requires WellConfigured(site, w) && Inv(w, s) && Discovers(site, w, s, i) && !Stranded(site, s)
    requires PathError(i).None? && Representable(DayStart(i.now)) && !IsFirstFree(BaseName(i.source.id, i.now), i.local, None)
    ensures IsSourcePlan(i, p)
  {
    var r := OutcomeExists(i);
    NextPlanIsExpected(site, w, s, i, r);
    p := r.value;
  }

  /** A name of a later second is free on the target as well. */
  lemma LaterNameIsFreeThere(w: Layout, s: State, name: string)
    requires RemoteFits(w, s.remote, s.clock) && NamesPlaced(w) && w.parse(name).Named? && w.parse(name).timestamp > s.clock
    ensures w.remote(name) !in s.remote
  {
    assert w.nameOf(w.remote(name)) == name;
  }

  /** Every plan of a later second can be carried through, and retention spares its snapshot. */
  lemma LaterPlanCompletes(site: Site, w: Layout, s: State, i: SourceInput, p: SourcePlan)
    requires WellConfigured(site, w) && Inv(w, s) && Discovers(site, w, s, i) && SecondOf(i.now) > s.clock && IsSourcePlan(i, p)
    ensures CanComplete(w, s, i, p) && SparesNew(i, p)
  {
    NamesArePlaced(site, w);
    PlanFitsState(site, w, s, i, p);
    LaterNameIsFreeThere(w, s, p.name);
    RunCompletesIff(site, w, s, i, p);
    ForwardClockSparesNew(site, w, s, i, p);
  }

  ghost predicate CanGoOn(w: Layout, s: State, i: SourceInput) {
    exists p :: IsSourcePlan(i, p) && CanComplete(w, s, i, p)
  }

  /** In a later second a plan exists that can be carried through, exactly unless the source is stranded. */
  lemma GoesOnIff(site: Site, w: Layout, s: State, i: SourceInput)
    requires WellConfigured(site, w) && Inv(w, s) && Discovers(site, w, s, i) && InLaterSecond(s, i)
    ensures CanGoOn(w, s, i) <==> !Stranded(site, s)
  {
    if Stranded(site, s) {
      forall p ensures !IsSourcePlan(i, p) {
        StrandedHasNoPlan(site, w, s, i, p);
      }
    } else {
      LaterSecondHasName(site, w, s, i);
      var p := OtherwisePlanned(site, w, s, i);
      LaterPlanCompletes(site, w, s, i, p);
    }
  }

  /** So it is after any number of runs, each stopping anywhere. */
  lemma EveryHistoryGoesOnIff(h: RunHistory, k: nat, i: SourceInput)
    requires h.Chronicle? && k < |h.states| && Discovers(h.site, h.w, h.states[k], i) && InLaterSecond(h.states[k], i)
    ensures CanGoOn(h.w, h.states[k], i) <==> !Stranded(h.site, h.states[k])
  {
    ReachedStateIsSound(h, k);
    GoesOnIff(h.site, h.w, h.states[k], i);
  }

  // ---- discovery ----

  lemma {:induction false} InventoryExists(files: Files, paths: set<Path>) returns (inventory: seq<SnapshotInfo>)
    requires paths <= files.Keys && forall p :: p in files ==> files[p].path == p
    ensures forall x :: x in inventory ==> x.path in paths && files[x.path] == x
    ensures forall p :: p in paths ==> files[p] in inventory
    ensures forall j, k :: 0 <= j < k < |inventory| ==> inventory[j].path != inventory[k].path
    decreases |paths|
  {
    if paths == {} {
      inventory := [];
    } else {
      var p :| p in paths;
      var rest := InventoryExists(files, paths - {p});
      inventory := rest + [files[p]];
    }
  }

  /** Every state can be discovered, at any time. */
  lemma DiscoveryExists(site: Site, w: Layout, s: State, now: TimePoint) returns (i: SourceInput)
    requires Inv(w, s)
    ensures Discovers(site, w, s, i) && i.now == now
  {
    var local := InventoryExists(s.local, s.local.Keys);
    var remote := InventoryExists(s.remote, s.remote.Keys);
    i := SourceInput(site.settings, site.source, local, remote, s.marker, PendingOf(w, s), site.stateDir, "", now);
  }
}
