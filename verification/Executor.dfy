/** The executor: it runs the actions of a plan one after the other and tells the sink and the checkpoint store. */
module Executor {
  import opened Core
  import opened RunLog
  import RunPlan

  datatype PlannedSource = PlannedSource(id: string, kinds: seq<RunPlan.ActionKind>)

  type Plan = seq<PlannedSource>

  datatype ExecutionResult =
    | Completed(actionsCompleted: nat)
    | Cancelled(actionsCompleted: nat)
    | Failed(actionsCompleted: nat)

  datatype Execution = Finished(result: ExecutionResult) | Raised(error: Error)

  // ---- source indices ----

  /** The first position with the id, counted from one; zero when there is none. */
  function IndexOf(plan: Plan, id: string): nat {
    if |plan| == 0 then 0
    else
      var k := IndexOf(plan[..|plan| - 1], id);
      if k > 0 then k else if plan[|plan| - 1].id == id then |plan| else 0
  }

  lemma {:induction false} IndexIsFirst(plan: Plan, id: string, i: nat)
    requires i <= |plan| && (i < |plan| ==> plan[i].id == id) && forall j :: 0 <= j < i ==> plan[j].id != id
    ensures IndexOf(plan, id) == if i < |plan| then i + 1 else 0
  {
    if |plan| > 0 { IndexIsFirst(plan[..|plan| - 1], id, if i < |plan| then i else |plan| - 1); }
  }

  method SourceIndex(plan: Plan, id: string) returns (k: nat)
    ensures k == IndexOf(plan, id)
  {
    for i := 0 to |plan|
      invariant forall j :: 0 <= j < i ==> plan[j].id != id
    {
      if plan[i].id == id {
        IndexIsFirst(plan, id, i);
        return i + 1;
      }
    }
    IndexIsFirst(plan, id, |plan|);
    return 0;
  }

  ghost predicate DistinctIds(plan: Plan) {
    forall j, k :: 0 <= j < k < |plan| ==> plan[j].id != plan[k].id
  }

  /** In a plan without duplicates an event names its source's position. */
  lemma IndexIsPosition(plan: Plan, s: nat)
    requires DistinctIds(plan) && s < |plan|
    ensures IndexOf(plan, plan[s].id) == s + 1
  {
    IndexIsFirst(plan, plan[s].id, s);
  }

  // ---- the grammar of traces ----

  function CancelledNote(plan: Plan, s: nat, during: Option<RunPlan.ActionKind>): Note
    requires s < |plan|
  {
    Sent(RunCancelled(Some(plan[s].id), IndexOf(plan, plan[s].id), during))
  }

  /** One action that succeeds. */
  function ActionNotes(plan: Plan, s: nat, a: nat): seq<Note>
    requires s < |plan| && a < |plan[s].kinds|
  {
    var id, index, kind := plan[s].id, IndexOf(plan, plan[s].id), plan[s].kinds[a];
    [Sent(ActionStarted(id, index, kind)), Sent(ActionCompleted(id, index, kind)), Checkpointed(Checkpoint(id, kind)),
     Sent(CheckpointWritten(id, index, kind))]
  }

  function ActionsNotes(plan: Plan, s: nat, a: nat): seq<Note>
    requires s < |plan| && a <= |plan[s].kinds|
  {
    if a == 0 then [] else ActionsNotes(plan, s, a - 1) + ActionNotes(plan, s, a - 1)
  }

  function Opening(plan: Plan, s: nat): Note
    requires s < |plan|
  {
    Sent(SourceStarted(plan[s].id, IndexOf(plan, plan[s].id)))
  }

  function SourceNotes(plan: Plan, s: nat): seq<Note>
    requires s < |plan|
  {
    [Opening(plan, s)] + ActionsNotes(plan, s, |plan[s].kinds|) + [Sent(SourceCompleted(plan[s].id, IndexOf(plan, plan[s].id)))]
  }

  function Parts(plan: Plan): (parts: seq<seq<Note>>)
    ensures |parts| == |plan| && forall i {:trigger SourceNotes(plan, i)} :: 0 <= i < |plan| ==> parts[i] == SourceNotes(plan, i)
  {
    seq(|plan|, i requires 0 <= i < |plan| => SourceNotes(plan, i))
  }

  function Flatten<T>(parts: seq<seq<T>>, k: nat): seq<T>
    requires k <= |parts|
  {
    if k == 0 then [] else Flatten(parts, k - 1) + parts[k - 1]
  }

  function SourcesNotes(plan: Plan, s: nat): seq<Note>
    requires s <= |plan|
  {
    Flatten(Parts(plan), s)
  }

  /** Between sources, or inside one with some of its actions done. */
  datatype Position = Between(s: nat) | Inside(s: nat, a: nat)

  predicate InPlan(plan: Plan, p: Position) {
    match p
    case Between(s) => s <= |plan|
    case Inside(s, a) => s < |plan| && a <= |plan[s].kinds|
  }

  /** The part of a position's notes that belongs to its source. */
  function InSource(plan: Plan, p: Position): seq<Note>
    requires InPlan(plan, p)
  {
    match p
    case Between(_) => []
    case Inside(s, a) => [Opening(plan, s)] + ActionsNotes(plan, s, a)
  }

  function NotesTo(plan: Plan, p: Position): seq<Note>
    requires InPlan(plan, p)
  {
    SourcesNotes(plan, p.s) + InSource(plan, p)
  }

  // ---- the flattened plan ----

  function Actions(source: PlannedSource, a: nat): (r: seq<Checkpoint>)
    requires a <= |source.kinds|
    ensures |r| == a
  {
    seq(a, i requires 0 <= i < a => Checkpoint(source.id, source.kinds[i]))
  }

  function Lists(plan: Plan): (lists: seq<seq<Checkpoint>>)
    ensures |lists| == |plan| && forall i :: 0 <= i < |plan| ==> lists[i] == Actions(plan[i], |plan[i].kinds|)
  {
    seq(|plan|, i requires 0 <= i < |plan| => Actions(plan[i], |plan[i].kinds|))
  }

  /** The actions of the first s sources, in the order they are run. */
  function Flat(plan: Plan, s: nat): seq<Checkpoint>
    requires s <= |plan|
  {
    Flatten(Lists(plan), s)
  }

  function DoneAt(plan: Plan, p: Position): seq<Checkpoint>
    requires InPlan(plan, p)
  {
    match p
    case Between(s) => Flat(plan, s)
    case Inside(s, a) => Flat(plan, s) + Actions(plan[s], a)
  }

  lemma {:induction false} FlattenPrefix<T>(parts: seq<seq<T>>, s: nat, t: nat)
    requires s <= t <= |parts|
    ensures Flatten(parts, s) <= Flatten(parts, t)
    decreases t
  {
    if s < t { FlattenPrefix(parts, s, t - 1); }
  }

  function Count(plan: Plan, s: nat): nat
    requires s <= |plan|
  {
    if s == 0 then 0 else Count(plan, s - 1) + |plan[s - 1].kinds|
  }

  function CountAt(plan: Plan, p: Position): nat
    requires InPlan(plan, p)
  {
    match p
    case Between(s) => Count(plan, s)
    case Inside(s, a) => Count(plan, s) + a
  }

  lemma {:induction false} FlatCount(plan: Plan, s: nat)
    requires s <= |plan|
    ensures |Flat(plan, s)| == Count(plan, s)
  {
    if s > 0 { FlatCount(plan, s - 1); }
  }

  /** What is done at a position is a prefix of the flattened plan. */
  lemma DoneIsPrefix(plan: Plan, p: Position)
    requires InPlan(plan, p)
    ensures CountAt(plan, p) <= |Flat(plan, |plan|)| && DoneAt(plan, p) == Flat(plan, |plan|)[..CountAt(plan, p)]
  {
    FlatCount(plan, p.s);
    match p
    case Between(s) =>
      FlattenPrefix(Lists(plan), s, |plan|);
    case Inside(s, a) =>
      FlattenPrefix(Lists(plan), s + 1, |plan|);
      var all := Actions(plan[s], |plan[s].kinds|);
      assert Actions(plan[s], a) == all[..a];
      assert Flat(plan, s + 1) == Flat(plan, s) + all;
      assert Flat(plan, s) + all[..a] == (Flat(plan, s) + all)[..|Flat(plan, s)| + a];
  }

  // ---- how a run can end ----

  /** The notes after the last finished action, when the executor returns. A sink that throws can repeat the ending. */
  ghost predicate IsTail(plan: Plan, p: Position, result: ExecutionResult, quiet: bool, tail: seq<Note>)
    requires InPlan(plan, p)
  {
    && result.actionsCompleted == CountAt(plan, p)
    && match result
       case Completed(_) => p == Between(|plan|) && tail == []
       case Cancelled(_) =>
         || (p.s < |plan| && tail == [CancellationSeen, CancelledNote(plan, p.s, None)])
         || (InAction(plan, p) && CancelledInAction(plan, p.s, p.a, quiet, tail))
       case Failed(_) => InAction(plan, p) && FailedInAction(plan, p.s, p.a, quiet, tail)
  }

  predicate InAction(plan: Plan, p: Position)
    requires InPlan(plan, p)
  {
    p.Inside? && p.a < |plan[p.s].kinds|
  }

  ghost predicate CancelledInAction(plan: Plan, s: nat, a: nat, quiet: bool, tail: seq<Note>)
    requires s < |plan| && a < |plan[s].kinds|
  {
    IsCancelled(plan[s].id, IndexOf(plan, plan[s].id), plan[s].kinds[a], quiet, tail)
  }

  ghost predicate FailedInAction(plan: Plan, s: nat, a: nat, quiet: bool, tail: seq<Note>)
    requires s < |plan| && a < |plan[s].kinds|
  {
    IsFailed(plan[s].id, IndexOf(plan, plan[s].id), plan[s].kinds[a], quiet, tail)
  }

  ghost predicate IsCancelled(id: string, index: int, kind: RunPlan.ActionKind, quiet: bool, tail: seq<Note>) {
    var started, cancelled := Sent(ActionStarted(id, index, kind)), Sent(RunCancelled(Some(id), index, Some(kind)));
    tail == [started, cancelled] || (!quiet && tail == [started, cancelled, cancelled])
  }

  ghost predicate IsFailed(id: string, index: int, kind: RunPlan.ActionKind, quiet: bool, tail: seq<Note>) {
    var started, cancelled := Sent(ActionStarted(id, index, kind)), Sent(RunCancelled(Some(id), index, Some(kind)));
    var failed := Sent(ActionFailed(id, index, kind));
    tail == [started, failed, Sent(RunFailed)] || (!quiet && tail == [started, cancelled, failed, Sent(RunFailed)])
  }

  /** At most one action is in flight: only the first of these notes can start one. */
  ghost predicate StartsOnce(tail: seq<Note>) {
    forall i :: 1 <= i < |tail| && tail[i].Sent? ==> !tail[i].event.ActionStarted?
  }

  // ---- one action ----

  lemma Reassociate<T>(a: seq<T>, b: seq<T>, c: seq<T>, d: seq<T>)
    ensures a + b + c + d == a + (b + c) + d
    ensures a + (b + c) == a + b + c
    ensures a + b + (c + d) == a + (b + c) + d
    ensures a + b + c + d == a + (b + c + d)
  {}

  datatype ActionExecution = Succeeded | WasCancelled | Threw(error: Error)

  /** The action itself. It may report progress, and a sink that throws then makes the action throw. */
  method PerformAction(ports: Ports) returns (x: ActionExecution)
    requires ports.open
    ensures ports.standard ==> x != Threw(ForeignError)
  {
    var reports: nat := *;
    while reports > 0 {
      var o := ports.Report();
      if o.Thrown? { return Threw(o.error); }
      reports := reports - 1;
    }
    x := *;
    if ports.standard && x == Threw(ForeignError) { x := Threw(StandardError); }
  }

  datatype ActionOutcome = Done | Stopped(failed: bool) | Escaped(error: Error)

  ghost predicate NoTerminal(tail: seq<Note>) {
    forall n :: n in tail && n.Sent? ==> !n.event.Terminal()
  }

  /** Nothing about the sink, the lease or the session. */
  ghost predicate Running(notes: seq<Note>) {
    forall n :: n in notes ==> n.Sent? || n.Checkpointed? || n.CancellationSeen?
  }

  /** What is known of the last notes when an exception leaves the executor. */
  ghost predicate EscapedTail(quiet: bool, standard: bool, error: Error, tail: seq<Note>) {
    Running(tail) && (quiet ==> NoTerminal(tail)) && (standard ==> error != ForeignError)
  }

  function ToldCancelled(id: string, index: int, kind: RunPlan.ActionKind): seq<Note> {
    [Sent(RunCancelled(Some(id), index, Some(kind)))]
  }

  function ToldFailed(id: string, index: int, kind: RunPlan.ActionKind): seq<Note> {
    [Sent(ActionFailed(id, index, kind)), Sent(RunFailed)]
  }

  /** The notes of the handlers. */
  ghost predicate IsHandled(id: string, index: int, kind: RunPlan.ActionKind, quiet: bool, standard: bool, r: ActionOutcome, more: seq<Note>) {
    match r
    case Done => false
    case Stopped(failed) => more == if failed then ToldFailed(id, index, kind) else ToldCancelled(id, index, kind)
    case Escaped(e) =>
      && (more == [] || more == ToldCancelled(id, index, kind) || (more != [] && more <= ToldFailed(id, index, kind)))
      && EscapedTail(quiet, standard, e, more)
  }

  /** What the handlers did. */
  datatype Handled =
    | NotHandled
    | Handled(id: string, index: int, kind: RunPlan.ActionKind, quiet: bool, standard: bool, r: ActionOutcome, more: seq<Note>)

  ghost predicate IsLegalHandling(h: Handled) {
    h.Handled? ==> IsHandled(h.id, h.index, h.kind, h.quiet, h.standard, h.r, h.more)
  }

  type Handling = h: Handled | IsLegalHandling(h) witness NotHandled

  ghost predicate IsSendOutcome(quiet: bool, standard: bool, o: Outcome) {
    (quiet ==> o.Returned?) && (standard ==> o != Thrown(ForeignError))
  }

  ghost function CancellationHandled(id: string, index: int, kind: RunPlan.ActionKind, quiet: bool, standard: bool, o: Outcome): Handling
    requires IsSendOutcome(quiet, standard, o)
  {
    Handled(id, index, kind, quiet, standard, if o.Thrown? then Escaped(o.error) else Stopped(false), ToldCancelled(id, index, kind))
  }

  ghost function FailureHandled(id: string, index: int, kind: RunPlan.ActionKind, quiet: bool, standard: bool, o: Outcome): Handling
    requires IsSendOutcome(quiet, standard, o)
  {
    Handled(id, index, kind, quiet, standard, if o.Thrown? then Escaped(o.error) else Stopped(true), ToldFailed(id, index, kind))
  }

  ghost function Rethrown(id: string, index: int, kind: RunPlan.ActionKind, quiet: bool, standard: bool, e: Error): Handling
    requires standard ==> e != ForeignError
  {
    Handled(id, index, kind, quiet, standard, Escaped(e), [Sent(ActionFailed(id, index, kind))])
  }

  ghost function PassedOn(id: string, index: int, kind: RunPlan.ActionKind, quiet: bool): Handling {
    Handled(id, index, kind, quiet, false, Escaped(ForeignError), [])
  }

  /** The handlers of what the action, or the sink while it was told of a cancellation, has thrown. */
  method Handle(ports: Ports, id: string, index: int, kind: RunPlan.ActionKind, error: Error)
    returns (r: ActionOutcome, ghost more: seq<Note>, ghost h: Handling)
    requires ports.standard ==> error != ForeignError
    modifies ports
    ensures ports.log.notes == old(ports.log.notes) + more && ports.open == old(ports.open)
    ensures h == Handled(id, index, kind, ports.quiet, ports.standard, r, more)
  {
    match error
    case OperationCancelled =>
      var o := ports.Send(RunCancelled(Some(id), index, Some(kind)));
      r := if o.Thrown? then Escaped(o.error) else Stopped(false);
      more, h := ToldCancelled(id, index, kind), CancellationHandled(id, index, kind, ports.quiet, ports.standard, o);
    case BackupError =>
      var o := ports.Send(ActionFailed(id, index, kind));
      more := [Sent(ActionFailed(id, index, kind))];
      if o.Thrown? { return Escaped(o.error), more, Rethrown(id, index, kind, ports.quiet, ports.standard, o.error); }
      o := ports.Send(RunFailed);
      r := if o.Thrown? then Escaped(o.error) else Stopped(true);
      more, h := ToldFailed(id, index, kind), FailureHandled(id, index, kind, ports.quiet, ports.standard, o);
    case StandardError =>
      var o := ports.Send(ActionFailed(id, index, kind));
      var e := if o.Thrown? then o.error else StandardError;
      r, more := Escaped(e), [Sent(ActionFailed(id, index, kind))];
      h := Rethrown(id, index, kind, ports.quiet, ports.standard, e);
    case ForeignError =>
      r, more, h := Escaped(ForeignError), [], PassedOn(id, index, kind, ports.quiet);
  }

  /** How an action that was started ends. */
  ghost predicate IsActionTail(id: string, index: int, kind: RunPlan.ActionKind, quiet: bool, standard: bool, r: ActionOutcome, tail: seq<Note>) {
    && StartsOnce(tail)
    && match r
       case Done => tail == [Sent(ActionStarted(id, index, kind))]
       case Stopped(failed) => if failed then IsFailed(id, index, kind, quiet, tail) else IsCancelled(id, index, kind, quiet, tail)
       case Escaped(e) => EscapedTail(quiet, standard, e, tail)
  }

  datatype Acted =
    | NotActed
    | Acted(id: string, index: int, kind: RunPlan.ActionKind, quiet: bool, standard: bool, r: ActionOutcome, tail: seq<Note>)

  ghost predicate IsLegalAct(a: Acted) {
    a.Acted? ==> IsActionTail(a.id, a.index, a.kind, a.quiet, a.standard, a.r, a.tail)
  }

  type ActionEnding = a: Acted | IsLegalAct(a) witness NotActed

  ghost function NotStarted(id: string, index: int, kind: RunPlan.ActionKind, quiet: bool, standard: bool, o: Outcome): ActionEnding
    requires IsSendOutcome(quiet, standard, o)
  {
    Acted(id, index, kind, quiet, standard, if o.Thrown? then Escaped(o.error) else Done, [Sent(ActionStarted(id, index, kind))])
  }

  ghost function StartedThenHandled(h: Handling): ActionEnding
    requires h.Handled?
  {
    Acted(h.id, h.index, h.kind, h.quiet, h.standard, h.r, [Sent(ActionStarted(h.id, h.index, h.kind))] + h.more)
  }

  ghost function StartedThenCancelled(id: string, index: int, kind: RunPlan.ActionKind, quiet: bool, standard: bool): ActionEnding {
    Acted(id, index, kind, quiet, standard, Stopped(false), [Sent(ActionStarted(id, index, kind))] + ToldCancelled(id, index, kind))
  }

  ghost function CancelledThenHandled(h: Handling): ActionEnding
    requires h.Handled? && !h.quiet
  {
    Acted(h.id, h.index, h.kind, h.quiet, h.standard, h.r,
          [Sent(ActionStarted(h.id, h.index, h.kind))] + (ToldCancelled(h.id, h.index, h.kind) + h.more))
  }

  /** An action that reports its own cancellation. Still inside the try block, so what the sink throws is handled too. */
  method TellCancelled(ports: Ports, id: string, index: int, kind: RunPlan.ActionKind)
    returns (r: ActionOutcome, ghost more: seq<Note>, ghost end: ActionEnding)
    modifies ports
    ensures ports.log.notes == old(ports.log.notes) + more && ports.open == old(ports.open)
    ensures end == Acted(id, index, kind, ports.quiet, ports.standard, r, [Sent(ActionStarted(id, index, kind))] + more)
  {
    var o := ports.Send(RunCancelled(Some(id), index, Some(kind)));
    if o.Returned? {
      return Stopped(false), ToldCancelled(id, index, kind), StartedThenCancelled(id, index, kind, ports.quiet, ports.standard);
    }
    ghost var handled, h;
    r, handled, h := Handle(ports, id, index, kind, o.error);
    more := ToldCancelled(id, index, kind) + handled;
    Reassociate(old(ports.log.notes), ToldCancelled(id, index, kind), handled, []);
    end := CancelledThenHandled(h);
  }

  method RunAction(ports: Ports, id: string, index: int, kind: RunPlan.ActionKind)
    returns (r: ActionOutcome, ghost tail: seq<Note>, ghost end: ActionEnding)
    requires ports.open
    modifies ports
    ensures ports.log.notes == old(ports.log.notes) + tail && ports.open
    ensures end == Acted(id, index, kind, ports.quiet, ports.standard, r, tail)
  {
    ghost var more, start := [], [Sent(ActionStarted(id, index, kind))];
    tail := start;
    var o := ports.Send(ActionStarted(id, index, kind));
    end := NotStarted(id, index, kind, ports.quiet, ports.standard, o);
    if o.Thrown? { return Escaped(o.error), tail, end; }
    var x := PerformAction(ports);
    match x
    case Succeeded =>
      r := Done;
    case Threw(error) =>
      ghost var h;
      r, more, h := Handle(ports, id, index, kind, error);
      end := StartedThenHandled(h);
      tail := start + more;
      Reassociate(old(ports.log.notes), start, more, []);
    case WasCancelled =>
      r, more, end := TellCancelled(ports, id, index, kind);
      tail := start + more;
      Reassociate(old(ports.log.notes), start, more, []);
  }

  /** Writes the checkpoint, then tells the sink. */
  method AfterSuccess(ports: Ports, plan: Plan, id: string, kind: RunPlan.ActionKind) returns (o: Outcome, ghost tail: seq<Note>)
    modifies ports
    ensures ports.log.notes == old(ports.log.notes) + tail && ports.open == old(ports.open)
    ensures o.Returned? ==> tail == [Checkpointed(Checkpoint(id, kind)), Sent(CheckpointWritten(id, IndexOf(plan, id), kind))]
    ensures o.Thrown? ==> tail <= [Checkpointed(Checkpoint(id, kind)), Sent(CheckpointWritten(id, IndexOf(plan, id), kind))]
    ensures ports.standard ==> o != Thrown(ForeignError)
  {
    tail := [];
    o := ports.Call();
    if o.Thrown? { return; }
    ports.Record(Checkpointed(Checkpoint(id, kind)));
    var index := SourceIndex(plan, id);
    o := ports.Send(CheckpointWritten(id, index, kind));
    tail := [Checkpointed(Checkpoint(id, kind)), Sent(CheckpointWritten(id, index, kind))];
  }

  /** What follows an action's success. */
  method Succeed(ports: Ports, plan: Plan, id: string, index: nat, kind: RunPlan.ActionKind) returns (o: Outcome, ghost tail: seq<Note>)
    requires index == IndexOf(plan, id)
    modifies ports
    ensures ports.log.notes == old(ports.log.notes) + tail && ports.open == old(ports.open)
    ensures tail <= Success(id, index, kind) && (o.Returned? ==> tail == Success(id, index, kind))
    ensures ports.standard ==> o != Thrown(ForeignError)
  {
    o := ports.Send(ActionCompleted(id, index, kind));
    tail := [Sent(ActionCompleted(id, index, kind))];
    if o.Thrown? { return; }
    ghost var written;
    o, written := AfterSuccess(ports, plan, id, kind);
    tail := tail + written;
  }

  function Success(id: string, index: int, kind: RunPlan.ActionKind): seq<Note> {
    [Sent(ActionCompleted(id, index, kind)), Checkpointed(Checkpoint(id, kind)), Sent(CheckpointWritten(id, index, kind))]
  }

  ghost function SuccessThenThrown(id: string, index: int, kind: RunPlan.ActionKind, quiet: bool, standard: bool,
                                   e: Error, more: seq<Note>): ActionEnding
    requires more <= Success(id, index, kind) && (standard ==> e != ForeignError)
  {
    Acted(id, index, kind, quiet, standard, Escaped(e), [Sent(ActionStarted(id, index, kind))] + more)
  }

  method RunAndCheckpoint(ports: Ports, plan: Plan, id: string, index: nat, kind: RunPlan.ActionKind)
    returns (r: ActionOutcome, ghost tail: seq<Note>, ghost end: ActionEnding)
    requires index == IndexOf(plan, id) && ports.open
    modifies ports
    ensures ports.log.notes == old(ports.log.notes) + tail && ports.open
    ensures if r.Done? then tail == [Sent(ActionStarted(id, index, kind))] + Success(id, index, kind)
            else end == Acted(id, index, kind, ports.quiet, ports.standard, r, tail)
  {
    r, tail, end := RunAction(ports, id, index, kind);
    if !r.Done? { return; }
    var o;
    ghost var more;
    o, more := Succeed(ports, plan, id, index, kind);
    ghost var start := [Sent(ActionStarted(id, index, kind))];
    assert tail == start;
    tail := start + more;
    if o.Thrown? {
      end := SuccessThenThrown(id, index, kind, ports.quiet, ports.standard, o.error, more);
      r := Escaped(o.error);
    }
  }

  // ---- the loops ----

  /** How the executor's work ends after what was done at a position. */
  ghost predicate IsEnding(plan: Plan, p: Position, quiet: bool, standard: bool, x: Execution, tail: seq<Note>)
    requires InPlan(plan, p)
  {
    && StartsOnce(tail)
    && match x
       case Finished(result) => IsTail(plan, p, result, quiet, tail)
       case Raised(e) => EscapedTail(quiet, standard, e, tail)
  }

  /** A position in a plan and how the work ended there. */
  datatype Stop = NoStop | Stop(plan: Plan, p: Position, quiet: bool, standard: bool, x: Execution, tail: seq<Note>)

  ghost predicate IsLegal(e: Stop) {
    e.Stop? ==> InPlan(e.plan, e.p) && IsEnding(e.plan, e.p, e.quiet, e.standard, e.x, e.tail)
  }

  type Ending = e: Stop | IsLegal(e) witness NoStop

  lemma CancelsBetween(plan: Plan, p: Position, quiet: bool, standard: bool, o: Outcome, tail: seq<Note>)
    requires InPlan(plan, p) && p.s < |plan| && tail == [CancellationSeen, CancelledNote(plan, p.s, None)]
    requires (quiet ==> o.Returned?) && (standard ==> o != Thrown(ForeignError))
    ensures IsLegal(Stop(plan, p, quiet, standard,
                         if o.Thrown? then Raised(o.error) else Finished(Cancelled(CountAt(plan, p))), tail))
  {}

  /** The check before each source and each action. None means that the run goes on. */
  method StopIfCancelled(ports: Ports, plan: Plan, s: nat, n: nat, ghost p: Position)
    returns (x: Option<Execution>, ghost tail: seq<Note>, ghost end: Ending)
    requires InPlan(plan, p) && p.s == s < |plan| && n == CountAt(plan, p)
    modifies ports
    ensures ports.open == old(ports.open)
    ensures x.None? ==> ports.log.notes == old(ports.log.notes)
    ensures x.Some? ==> ports.log.notes == old(ports.log.notes) + tail
    ensures x.Some? ==> end == Stop(plan, p, ports.quiet, ports.standard, x.value, tail)
  {
    var cancelled := ports.CancellationRequested();
    if !cancelled { return None, [], NoStop; }
    var index := SourceIndex(plan, plan[s].id);
    var o := ports.Send(RunCancelled(Some(plan[s].id), index, None));
    tail := [CancellationSeen, CancelledNote(plan, s, None)];
    var execution := if o.Thrown? then Raised(o.error) else Finished(Cancelled(n));
    CancelsBetween(plan, p, ports.quiet, ports.standard, o, tail);
    x, end := Some(execution), Stop(plan, p, ports.quiet, ports.standard, execution, tail);
  }

  /** What stopped an action stops the run. */
  ghost function StopsInAction(plan: Plan, s: nat, a: nat, act: ActionEnding, x: Execution): Ending
    requires s < |plan| && a < |plan[s].kinds| && act.Acted? && !act.r.Done?
    requires act.id == plan[s].id && act.index == IndexOf(plan, act.id) && act.kind == plan[s].kinds[a]
    requires x == match act.r
                  case Escaped(e) => Raised(e)
                  case Stopped(failed) => Finished(if failed then Failed(Count(plan, s) + a) else Cancelled(Count(plan, s) + a))
  {
    Stop(plan, Inside(s, a), act.quiet, act.standard, x, act.tail)
  }

  method OneAction(ports: Ports, plan: Plan, s: nat, index: nat, a: nat, n: nat)
    returns (x: Option<Execution>, ghost tail: seq<Note>, ghost end: Ending)
    requires s < |plan| && a < |plan[s].kinds| && index == IndexOf(plan, plan[s].id) && n == Count(plan, s) + a
    requires ports.open
    modifies ports
    ensures ports.open
    ensures x.None? ==> ports.log.notes == old(ports.log.notes) + ActionNotes(plan, s, a)
    ensures x.Some? ==> ports.log.notes == old(ports.log.notes) + tail
    ensures x.Some? ==> end == Stop(plan, Inside(s, a), ports.quiet, ports.standard, x.value, tail)
  {
    x, tail, end := StopIfCancelled(ports, plan, s, n, Inside(s, a));
    if x.Some? { return; }
    var r;
    ghost var act;
    r, tail, act := RunAndCheckpoint(ports, plan, plan[s].id, index, plan[s].kinds[a]);
    if !r.Done? {
      var execution := if r.Escaped? then Raised(r.error) else Finished(if r.failed then Failed(n) else Cancelled(n));
      x, end := Some(execution), StopsInAction(plan, s, a, act, execution);
    }
  }

  /** The actions of one source. None means that all are done. */
  method RunActions(ports: Ports, plan: Plan, s: nat, index: nat, actionsCompleted: nat)
    returns (x: Option<Execution>, n: nat, ghost done: nat, ghost tail: seq<Note>, ghost end: Ending)
    requires s < |plan| && index == IndexOf(plan, plan[s].id) && ports.open && actionsCompleted == Count(plan, s)
    modifies ports
    ensures ports.open && done <= |plan[s].kinds|
    ensures ports.log.notes == old(ports.log.notes) + ActionsNotes(plan, s, done) + tail
    ensures x.None? ==> done == |plan[s].kinds| && tail == [] && n == Count(plan, s + 1)
    ensures x.Some? ==> end == Stop(plan, Inside(s, done), ports.quiet, ports.standard, x.value, tail)
  {
    n := actionsCompleted;
    ghost var before := ports.log.notes;
    for a := 0 to |plan[s].kinds|
      invariant ports.log.notes == before + ActionsNotes(plan, s, a) && ports.open
      invariant n == Count(plan, s) + a
    {
      x, tail, end := OneAction(ports, plan, s, index, a, n);
      if x.Some? {
        done := a;
        return;
      }
      Reassociate(before, ActionsNotes(plan, s, a), ActionNotes(plan, s, a), []);
      n := n + 1;
    }
    x, done, tail, end := None, |plan[s].kinds|, [], NoStop;
  }

  lemma Escapes(plan: Plan, p: Position, quiet: bool, standard: bool, e: Error, n: Note)
    requires InPlan(plan, p) && n.Sent? && !n.event.Terminal() && (standard ==> e != ForeignError)
    ensures IsLegal(Stop(plan, p, quiet, standard, Raised(e), [n]))
  {}

  method OpenSource(ports: Ports, plan: Plan, s: nat, n: nat) returns (x: Option<Execution>, ghost tail: seq<Note>, ghost end: Ending)
    requires s < |plan| && ports.open && n == Count(plan, s)
    modifies ports
    ensures ports.open
    ensures x.None? ==> ports.log.notes == old(ports.log.notes) + [Opening(plan, s)]
    ensures x.Some? ==> ports.log.notes == old(ports.log.notes) + tail
    ensures x.Some? ==> end == Stop(plan, Between(s), ports.quiet, ports.standard, x.value, tail)
  {
    x, tail, end := StopIfCancelled(ports, plan, s, n, Between(s));
    if x.Some? { return; }
    var index := SourceIndex(plan, plan[s].id);
    var o := ports.Send(SourceStarted(plan[s].id, index));
    if o.Thrown? {
      tail := [Opening(plan, s)];
      Escapes(plan, Between(s), ports.quiet, ports.standard, o.error, Opening(plan, s));
      x, end := Some(Raised(o.error)), Stop(plan, Between(s), ports.quiet, ports.standard, Raised(o.error), tail);
    }
  }

  method CloseSource(ports: Ports, plan: Plan, s: nat, index: nat) returns (x: Option<Execution>, ghost tail: seq<Note>, ghost end: Ending)
    requires s < |plan| && ports.open && index == IndexOf(plan, plan[s].id)
    modifies ports
    ensures ports.open
    ensures ports.log.notes == old(ports.log.notes) + tail && tail == [Sent(SourceCompleted(plan[s].id, index))]
    ensures x.Some? ==> end == Stop(plan, Inside(s, |plan[s].kinds|), ports.quiet, ports.standard, x.value, tail)
  {
    ghost var last := Sent(SourceCompleted(plan[s].id, index));
    var o := ports.Send(SourceCompleted(plan[s].id, index));
    tail := [last];
    x, end := None, NoStop;
    if o.Thrown? {
      ghost var p := Inside(s, |plan[s].kinds|);
      Escapes(plan, p, ports.quiet, ports.standard, o.error, last);
      x, end := Some(Raised(o.error)), Stop(plan, p, ports.quiet, ports.standard, Raised(o.error), tail);
    }
  }

  /** One source. None means that it is done. */
  method RunSource(ports: Ports, plan: Plan, s: nat, actionsCompleted: nat)
    returns (x: Option<Execution>, n: nat, ghost p: Position, ghost tail: seq<Note>, ghost end: Ending)
    requires s < |plan| && ports.open && actionsCompleted == Count(plan, s)
    modifies ports
    ensures ports.open && InPlan(plan, p) && p.s == s
    ensures ports.log.notes == old(ports.log.notes) + (InSource(plan, p) + tail)
    ensures x.None? ==> InSource(plan, p) + tail == SourceNotes(plan, s) && n == Count(plan, s + 1)
    ensures x.Some? ==> end == Stop(plan, p, ports.quiet, ports.standard, x.value, tail)
  {
    ghost var before, opening := ports.log.notes, [Opening(plan, s)];
    n, p := actionsCompleted, Between(s);
    x, tail, end := OpenSource(ports, plan, s, n);
    if x.Some? { return; }
    var index := SourceIndex(plan, plan[s].id);
    ghost var done;
    x, n, done, tail, end := RunActions(ports, plan, s, index, n);
    p := Inside(s, done);
    Reassociate(before, opening, ActionsNotes(plan, s, done), tail);
    if x.Some? { return; }
    assert ports.log.notes == before + opening + ActionsNotes(plan, s, done);
    x, tail, end := CloseSource(ports, plan, s, index);
    Reassociate(before, opening, ActionsNotes(plan, s, done), tail);
  }

  lemma AfterSource(before: seq<Note>, plan: Plan, p: Position, tail: seq<Note>)
    requires InPlan(plan, p) && p.s < |plan|
    ensures before + SourcesNotes(plan, p.s) + (InSource(plan, p) + tail) == before + NotesTo(plan, p) + tail
    ensures InSource(plan, p) + tail == SourceNotes(plan, p.s)
            ==> before + NotesTo(plan, p) + tail == before + SourcesNotes(plan, p.s + 1)
  {
    var sources, mine := SourcesNotes(plan, p.s), InSource(plan, p);
    Reassociate(before, sources, mine, tail);
    Reassociate(before, sources, mine + tail, []);
  }

  lemma Completes(plan: Plan, quiet: bool, standard: bool)
    ensures IsLegal(Stop(plan, Between(|plan|), quiet, standard, Finished(Completed(Count(plan, |plan|))), []))
  {}

  /** Whatever the ports do, the notes are those of the actions done, in the plan's order, and a short ending. */
  method Execute(ports: Ports, plan: Plan) returns (x: Execution, ghost p: Position, ghost tail: seq<Note>, ghost end: Ending)
    requires ports.open
    modifies ports
    ensures ports.open && InPlan(plan, p)
    ensures ports.log.notes == old(ports.log.notes) + NotesTo(plan, p) + tail
    ensures end == Stop(plan, p, ports.quiet, ports.standard, x, tail)
  {
    ghost var before := ports.log.notes;
    var actionsCompleted := 0;
    for s := 0 to |plan|
      invariant ports.log.notes == before + SourcesNotes(plan, s) && ports.open
      invariant actionsCompleted == Count(plan, s)
    {
      var ended;
      ended, actionsCompleted, p, tail, end := RunSource(ports, plan, s, actionsCompleted);
      AfterSource(before, plan, p, tail);
      if ended.Some? {
        x := ended.value;
        return;
      }
    }
    x, p, tail := Finished(Completed(actionsCompleted)), Between(|plan|), [];
    assert ports.log.notes == before + NotesTo(plan, p) + tail by {
      assert NotesTo(plan, p) == SourcesNotes(plan, |plan|);
    }
    Completes(plan, ports.quiet, ports.standard);
    end := Stop(plan, p, ports.quiet, ports.standard, x, tail);
  }

  // ---- what the grammar says ----

  function Checkpoints(notes: seq<Note>): seq<Checkpoint> {
    if |notes| == 0 then []
    else
      var n := notes[|notes| - 1];
      Checkpoints(notes[..|notes| - 1]) + (if n.Checkpointed? then [n.checkpoint] else [])
  }

  lemma {:induction false} CheckpointsAppend(a: seq<Note>, b: seq<Note>)
    ensures Checkpoints(a + b) == Checkpoints(a) + Checkpoints(b)
  {
    if |b| == 0 {
      assert a + b == a;
    } else {
      CheckpointsAppend(a, b[..|b| - 1]);
      assert (a + b)[..|a + b| - 1] == a + b[..|b| - 1];
    }
  }

  lemma {:induction false} NoCheckpoints(notes: seq<Note>)
    requires forall n :: n in notes ==> !n.Checkpointed?
    ensures Checkpoints(notes) == []
  {
    if |notes| > 0 {
      NoCheckpoints(notes[..|notes| - 1]);
    }
  }

  lemma OneCheckpoint(plan: Plan, s: nat, a: nat)
    requires s < |plan| && a < |plan[s].kinds|
    ensures Checkpoints(ActionNotes(plan, s, a)) == [Checkpoint(plan[s].id, plan[s].kinds[a])]
  {
    var notes := ActionNotes(plan, s, a);
    NoCheckpoints(notes[..2]);
    NoCheckpoints(notes[3..]);
    CheckpointsAppend(notes[..2], [notes[2]]);
    CheckpointsAppend(notes[..3], notes[3..]);
    assert notes[..2] + [notes[2]] == notes[..3] && notes[..3] + notes[3..] == notes;
  }

  ghost predicate Distributes<T(!new), U>(f: seq<T> -> seq<U>) {
    f([]) == [] && forall a, b :: f(a + b) == f(a) + f(b)
  }

  lemma CheckpointsDistributes()
    ensures Distributes(Checkpoints)
  {
    forall a, b ensures Checkpoints(a + b) == Checkpoints(a) + Checkpoints(b) {
      CheckpointsAppend(a, b);
    }
  }

  lemma {:induction false} ActionsMap(f: seq<Note> -> seq<Checkpoint>, plan: Plan, s: nat, a: nat)
    requires s < |plan| && a <= |plan[s].kinds| && Distributes(f)
    requires forall i :: 0 <= i < |plan[s].kinds| ==> f(ActionNotes(plan, s, i)) == [Checkpoint(plan[s].id, plan[s].kinds[i])]
    ensures f(ActionsNotes(plan, s, a)) == Actions(plan[s], a)
    decreases a
  {
    if a > 0 {
      ActionsMap(f, plan, s, a - 1);
      assert f(ActionsNotes(plan, s, a - 1) + ActionNotes(plan, s, a - 1)) == Actions(plan[s], a - 1) + f(ActionNotes(plan, s, a - 1));
    }
  }

  lemma ActionsCheckpoint(plan: Plan, s: nat, a: nat)
    requires s < |plan| && a <= |plan[s].kinds|
    ensures Checkpoints(ActionsNotes(plan, s, a)) == Actions(plan[s], a)
  {
    CheckpointsDistributes();
    forall i | 0 <= i < |plan[s].kinds| ensures Checkpoints(ActionNotes(plan, s, i)) == [Checkpoint(plan[s].id, plan[s].kinds[i])] {
      OneCheckpoint(plan, s, i);
    }
    ActionsMap(Checkpoints, plan, s, a);
  }

  lemma InSourceCheckpoints(plan: Plan, s: nat, a: nat)
    requires s < |plan| && a <= |plan[s].kinds|
    ensures Checkpoints([Opening(plan, s)] + ActionsNotes(plan, s, a)) == Actions(plan[s], a)
  {
    ActionsCheckpoint(plan, s, a);
    NoCheckpoints([Opening(plan, s)]);
    CheckpointsAppend([Opening(plan, s)], ActionsNotes(plan, s, a));
  }

  lemma SourceCheckpoints(plan: Plan, s: nat)
    requires s < |plan|
    ensures Checkpoints(SourceNotes(plan, s)) == Actions(plan[s], |plan[s].kinds|)
  {
    var inside := [Opening(plan, s)] + ActionsNotes(plan, s, |plan[s].kinds|);
    var last := [Sent(SourceCompleted(plan[s].id, IndexOf(plan, plan[s].id)))];
    InSourceCheckpoints(plan, s, |plan[s].kinds|);
    NoCheckpoints(last);
    CheckpointsAppend(inside, last);
  }

  /** A function that goes through concatenation goes through flattening. */
  lemma {:induction false} FlattenMaps<T(!new), U>(f: seq<T> -> seq<U>, parts: seq<seq<T>>, lists: seq<seq<U>>, k: nat)
    requires k <= |parts| == |lists| && forall i :: 0 <= i < |parts| ==> f(parts[i]) == lists[i]
    requires Distributes(f)
    ensures f(Flatten(parts, k)) == Flatten(lists, k)
    decreases k
  {
    if k > 0 {
      FlattenMaps(f, parts, lists, k - 1);
      assert f(Flatten(parts, k - 1) + parts[k - 1]) == Flatten(lists, k - 1) + lists[k - 1];
    }
  }

  lemma SourcesCheckpoint(plan: Plan, s: nat)
    requires s <= |plan|
    ensures Checkpoints(SourcesNotes(plan, s)) == Flat(plan, s)
  {
    var parts, lists := Parts(plan), Lists(plan);
    forall i | 0 <= i < |plan| ensures Checkpoints(parts[i]) == lists[i] {
      SourceCheckpoints(plan, i);
    }
    CheckpointsDistributes();
    FlattenMaps(Checkpoints, parts, lists, s);
  }

  lemma CheckpointsAt(plan: Plan, p: Position)
    requires InPlan(plan, p)
    ensures Checkpoints(NotesTo(plan, p)) == DoneAt(plan, p)
  {
    SourcesCheckpoint(plan, p.s);
    CheckpointsAppend(SourcesNotes(plan, p.s), InSource(plan, p));
    if p.Inside? { InSourceCheckpoints(plan, p.s, p.a); }
  }

  /** On every normal return the checkpoints are the first actions of the flattened plan, and Completed means all. */
  lemma CheckpointsAreCompletedActions(plan: Plan, p: Position, quiet: bool, standard: bool, result: ExecutionResult, tail: seq<Note>)
    requires InPlan(plan, p) && IsEnding(plan, p, quiet, standard, Finished(result), tail)
    ensures result.actionsCompleted <= |Flat(plan, |plan|)|
    ensures Checkpoints(NotesTo(plan, p) + tail) == Flat(plan, |plan|)[..result.actionsCompleted]
    ensures result.Completed? ==> result.actionsCompleted == |Flat(plan, |plan|)|
  {
    CheckpointsAt(plan, p);
    DoneIsPrefix(plan, p);
    FlatCount(plan, |plan|);
    TailHasNoCheckpoint(plan, p, result, quiet, tail);
    CheckpointsAppend(NotesTo(plan, p), tail);
  }

  lemma TailHasNoCheckpoint(plan: Plan, p: Position, result: ExecutionResult, quiet: bool, tail: seq<Note>)
    requires InPlan(plan, p) && IsTail(plan, p, result, quiet, tail)
    ensures Checkpoints(tail) == []
  {
    if InAction(plan, p) {
      StoppedInAction(plan[p.s].id, IndexOf(plan, plan[p.s].id), plan[p.s].kinds[p.a], quiet, tail);
    }
    NoCheckpoints(tail);
  }

  lemma StoppedInAction(id: string, index: int, kind: RunPlan.ActionKind, quiet: bool, tail: seq<Note>)
    ensures IsCancelled(id, index, kind, quiet, tail) || IsFailed(id, index, kind, quiet, tail) ==> forall n :: n in tail ==> n.Sent?
  {}
}
