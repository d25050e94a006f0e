/** The plans that planning builds, as the executor sees them. */
module BuiltPlans {
  import opened Core
  import opened RunPlan
  import Executor

  function Kinds(actions: seq<Action>): (r: seq<ActionKind>)
    ensures |r| == |actions| && forall i :: 0 <= i < |r| ==> r[i] == Kind(actions[i])
  {
    seq(|actions|, i requires 0 <= i < |actions| => Kind(actions[i]))
  }

  function Executable(sources: seq<Planning>): (plan: Executor.Plan)
    requires forall k :: 0 <= k < |sources| ==> sources[k].Planned?
    ensures |plan| == |sources|
    ensures forall k :: 0 <= k < |sources| ==> plan[k].id == sources[k].input.source.id
    ensures forall k, a :: 0 <= k < |sources| && 0 <= a < |sources[k].plan.actions| ==>
      |plan[k].kinds| == |sources[k].plan.actions| && plan[k].kinds[a] == Kind(sources[k].plan.actions[a])
  {
    seq(|sources|, k requires 0 <= k < |sources| =>
      Executor.PlannedSource(sources[k].input.source.id, Kinds(sources[k].plan.actions)))
  }

  /** What discovery found for the source, if anything. */
  ghost predicate IsFound<T(!new)>(found: map<string, T>, id: string, nothing: T, x: T) {
    (id in found ==> x == found[id]) && (id !in found ==> x == nothing)
  }

  /** The k-th plan is made of the k-th source with what discovery found under its own id. */
  lemma {:induction false} InputsAreFound(run: RunInput, sources: seq<SourceConfig>, k: nat)
    requires k < |sources|
    ensures var i, id := Inputs(run, sources)[k], sources[k].id;
            && i.source == sources[k] && i.profile == run.profile.settings
            && IsFound(run.found.local, id, [], i.local) && IsFound(run.found.remote, id, [], i.remote)
            && IsFound(run.found.markers, id, None, i.marker) && IsFound(run.found.pending, id, None, i.pending)
            && i.stateDir == run.found.stateDir && i.runId == run.runId && i.now == run.now
  {
    if k < |sources| - 1 { InputsAreFound(run, sources[..|sources| - 1], k); }
  }

  /** The positions of the enabled sources, ascending. */
  ghost predicate AreEnabled(sources: seq<SourceConfig>, at: seq<nat>) {
    && (forall k :: 0 <= k < |at| ==> at[k] < |sources|)
    && (forall j, k :: 0 <= j < k < |at| ==> at[j] < at[k])
    && (forall n :: 0 <= n < |sources| ==> (sources[n].enabled <==> n in at))
  }

  ghost function Picked(sources: seq<SourceConfig>, at: seq<nat>): seq<SourceConfig>
    requires forall k :: 0 <= k < |at| ==> at[k] < |sources|
  {
    seq(|at|, k requires 0 <= k < |at| => sources[at[k]])
  }

  /** The sources that are planned are those that are enabled, in their order. */
  lemma {:induction false} EnabledAreInOrder(sources: seq<SourceConfig>) returns (at: seq<nat>)
    ensures AreEnabled(sources, at) && Enabled(sources) == Picked(sources, at)
  {
    at := [];
    if sources != [] {
      var n := |sources| - 1;
      var front := EnabledAreInOrder(sources[..n]);
      OneMoreEnabled(sources, n, front);
      at := if sources[n].enabled then front + [n] else front;
    }
  }

  lemma OneMoreEnabled(sources: seq<SourceConfig>, n: nat, front: seq<nat>)
    requires n + 1 == |sources| && AreEnabled(sources[..n], front)
    ensures var at := if sources[n].enabled then front + [n] else front;
            && AreEnabled(sources, at)
            && Picked(sources, at) == Picked(sources[..n], front) + if sources[n].enabled then [sources[n]] else []
  {
    var at := if sources[n].enabled then front + [n] else front;
    forall m | 0 <= m < |sources| ensures sources[m].enabled <==> m in at {
      if m < n { assert sources[..n][m] == sources[m]; }
    }
  }

  /** In a built plan the index that events carry is the source's position, counted from one. */
  lemma EventIndexIsPosition(run: RunInput, sources: seq<Planning>, s: nat)
    requires var enabled := Enabled(run.profile.sources);
             DistinctIds(enabled) && |sources| == |enabled| && Follows(Inputs(run, enabled), sources)
    requires s < |sources|
    ensures Executor.IndexOf(Executable(sources), sources[s].input.source.id) == s + 1
  {
    var enabled := Enabled(run.profile.sources);
    forall k | 0 <= k < |sources| ensures Executable(sources)[k].id == enabled[k].id {
      InputsAreFound(run, enabled, k);
    }
    Executor.IndexIsPosition(Executable(sources), s);
  }
}
