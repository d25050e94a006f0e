/** What the executor's notes amount to, for a caller that follows the resources of a run. */
module ExecutorEffect {
  import opened Core
  import opened RunLog
  import opened Executor
  import RunPlan

  /** The notes of actions that succeed: checkpoints, and events that end nothing. */
  predicate Plain(n: Note) {
    n.Checkpointed? || (n.Sent? && !n.event.Terminal())
  }

  ghost predicate AllPlain(notes: seq<Note>) {
    forall n :: n in notes ==> Plain(n)
  }

  lemma {:induction false} FlattenAll<T(!new)>(p: T -> bool, parts: seq<seq<T>>, k: nat)
    requires k <= |parts| && forall i, x :: 0 <= i < |parts| && x in parts[i] ==> p(x)
    ensures forall x :: x in Flatten(parts, k) ==> p(x)
  {
    if k > 0 { FlattenAll(p, parts, k - 1); }
  }

  lemma {:induction false} ActionsArePlain(plan: Plan, s: nat, a: nat)
    requires s < |plan| && a <= |plan[s].kinds|
    ensures AllPlain(ActionsNotes(plan, s, a))
    decreases a
  {
    if a > 0 { ActionsArePlain(plan, s, a - 1); }
  }

  lemma NotesArePlain(plan: Plan, p: Position)
    requires InPlan(plan, p)
    ensures AllPlain(NotesTo(plan, p))
  {
    forall i, n | 0 <= i < |plan| && n in Parts(plan)[i] ensures Plain(n) {
      ActionsArePlain(plan, i, |plan[i].kinds|);
      assert n in SourceNotes(plan, i);
    }
    FlattenAll(Plain, Parts(plan), p.s);
    if p.Inside? { ActionsArePlain(plan, p.s, p.a); }
  }

  lemma {:induction false} PlainOnlyCheckpoints(l: Ledger, notes: seq<Note>)
    requires AllPlain(notes) && l.ok && l.sink && l.lease
    ensures Fold(l, notes) == l.(checkpoints := l.checkpoints + Checkpoints(notes), acted := Fold(l, notes).acted)
  {
    if |notes| > 0 {
      var last := notes[|notes| - 1];
      PlainOnlyCheckpoints(l, notes[..|notes| - 1]);
      assert Plain(last);
    }
  }

  /** The resources and the ledger entries are as before. */
  ghost predicate SameResources(l: Ledger, m: Ledger) {
    && m.ok == l.ok && m.sink == l.sink && m.lease == l.lease && m.session == l.session
    && m.closedCleanly == l.closedCleanly && m.skipped == l.skipped && m.success == l.success
  }

  lemma RunningStep(l: Ledger, n: Note)
    requires n.Sent? || n.Checkpointed? || n.CancellationSeen?
    requires l.ok && l.sink && l.lease
    ensures SameResources(l, Step(l, n)) && ((n.Sent? ==> !n.event.Terminal()) ==> Step(l, n).terminals == l.terminals)
    ensures !n.Checkpointed? ==> Step(l, n).checkpoints == l.checkpoints
  {}

  lemma {:induction false} RunningKeepsResources(l: Ledger, notes: seq<Note>)
    requires Running(notes) && l.ok && l.sink && l.lease
    ensures SameResources(l, Fold(l, notes))
    ensures NoTerminal(notes) ==> Fold(l, notes).terminals == l.terminals
    ensures (forall n :: n in notes ==> !n.Checkpointed?) ==> Fold(l, notes).checkpoints == l.checkpoints
  {
    if |notes| > 0 {
      var front, last := notes[..|notes| - 1], notes[|notes| - 1];
      RunningKeepsResources(l, front);
      assert last in notes;
      RunningStep(Fold(l, front), last);
    }
  }

  /** A single terminal event, at the end. */
  lemma EndsOnce(l: Ledger, front: seq<Note>, e: Event)
    requires Running(front) && NoTerminal(front) && e.Terminal() && l.ok && l.sink && l.lease
    ensures Fold(l, front + [Sent(e)]).terminals == l.terminals + [e]
  {
    RunningKeepsResources(l, front);
    FoldAppends(l, front, [Sent(e)]);
  }

  /** The terminal events of an execution with a sink that does not throw. */
  ghost predicate EndsAs(x: Execution, terminals: seq<Event>) {
    match x
    case Raised(_) => terminals == []
    case Finished(Completed(_)) => terminals == []
    case Finished(Cancelled(_)) => |terminals| == 1 && terminals[0].RunCancelled?
    case Finished(Failed(_)) => terminals == [RunFailed]
  }

  ghost predicate TailEffect(l: Ledger, m: Ledger, quiet: bool, x: Execution) {
    && SameResources(l, m) && (x.Finished? ==> m.checkpoints == l.checkpoints)
    && (quiet ==> l.terminals <= m.terminals && EndsAs(x, m.terminals[|l.terminals|..]))
  }

  lemma TailOfExecution(end: Ending, l: Ledger)
    requires end.Stop? && l.ok && l.sink && l.lease
    ensures TailEffect(l, Fold(l, end.tail), end.quiet, end.x)
  {
    var tail := end.tail;
    match end.x
    case Raised(_) =>
      RunningKeepsResources(l, tail);
    case Finished(Completed(_)) =>
    case Finished(_) =>
      StoppedTail(end.plan, end.p, end.x.result, end.quiet, tail, l);
  }

  lemma CancelledTail(id: string, index: int, kind: RunPlan.ActionKind, quiet: bool, tail: seq<Note>, l: Ledger)
    requires IsCancelled(id, index, kind, quiet, tail) && l.ok && l.sink && l.lease
    ensures SameResources(l, Fold(l, tail)) && Fold(l, tail).checkpoints == l.checkpoints
    ensures quiet ==> Fold(l, tail).terminals == l.terminals + [RunCancelled(Some(id), index, Some(kind))]
  {
    RunningKeepsResources(l, tail);
    if quiet { EndsOnce(l, [Sent(ActionStarted(id, index, kind))], RunCancelled(Some(id), index, Some(kind))); }
  }

  lemma FailedTail(id: string, index: int, kind: RunPlan.ActionKind, quiet: bool, tail: seq<Note>, l: Ledger)
    requires IsFailed(id, index, kind, quiet, tail) && l.ok && l.sink && l.lease
    ensures SameResources(l, Fold(l, tail)) && Fold(l, tail).checkpoints == l.checkpoints
    ensures quiet ==> Fold(l, tail).terminals == l.terminals + [RunFailed]
  {
    RunningKeepsResources(l, tail);
    if quiet {
      var front := [Sent(ActionStarted(id, index, kind)), Sent(ActionFailed(id, index, kind))];
      assert tail == front + [Sent(RunFailed)];
      EndsOnce(l, front, RunFailed);
    }
  }

  lemma SeenTail(cancelled: Event, tail: seq<Note>, l: Ledger)
    requires cancelled.RunCancelled? && tail == [CancellationSeen, Sent(cancelled)] && l.ok && l.sink && l.lease
    ensures SameResources(l, Fold(l, tail)) && Fold(l, tail).terminals == l.terminals + [cancelled]
    ensures Fold(l, tail).checkpoints == l.checkpoints
  {
    var front := [CancellationSeen];
    assert tail == front + [Sent(cancelled)];
    SeenThenSent(l, front, tail, cancelled);
  }

  lemma SeenThenSent(l: Ledger, front: seq<Note>, tail: seq<Note>, cancelled: Event)
    requires |front| == 1 && front[0].CancellationSeen? && cancelled.RunCancelled? && tail == front + [Sent(cancelled)]
    requires l.ok && l.sink && l.lease
    ensures SameResources(l, Fold(l, tail)) && Fold(l, tail).terminals == l.terminals + [cancelled]
    ensures Fold(l, tail).checkpoints == l.checkpoints
  {
    RunningKeepsResources(l, tail);
    EndsOnce(l, front, cancelled);
  }

  lemma StoppedTail(plan: Plan, p: Position, result: ExecutionResult, quiet: bool, tail: seq<Note>, l: Ledger)
    requires InPlan(plan, p) && IsTail(plan, p, result, quiet, tail) && !result.Completed? && l.ok && l.sink && l.lease
    ensures TailEffect(l, Fold(l, tail), quiet, Finished(result))
  {
    if result.Failed? {
      FailedTail(plan[p.s].id, IndexOf(plan, plan[p.s].id), plan[p.s].kinds[p.a], quiet, tail, l);
    } else if tail[0].CancellationSeen? {
      SeenTail(CancelledNote(plan, p.s, None).event, tail, l);
    } else {
      CancelledTail(plan[p.s].id, IndexOf(plan, plan[p.s].id), plan[p.s].kinds[p.a], quiet, tail, l);
    }
  }

  /** A completed execution has checkpointed the whole plan, and changed nothing else. */
  ghost predicate ExecutionEffect(l: Ledger, m: Ledger, quiet: bool, plan: Plan, x: Execution) {
    && SameResources(l, m) && (quiet ==> l.terminals <= m.terminals && EndsAs(x, m.terminals[|l.terminals|..]))
    && (x.Finished? ==> |m.checkpoints| == |l.checkpoints| + x.result.actionsCompleted)
    && (x.Finished? && x.result.Completed? ==> m == l.(checkpoints := l.checkpoints + Flat(plan, |plan|), acted := m.acted))
  }

  lemma EnteredTwice(before: Book, after: Book, a: seq<Note>, b: seq<Note>)
    requires after.notes == before.notes + a + b
    ensures after.ledger == Fold(Fold(before.ledger, a), b)
  {
    assert after.notes == before.notes + (a + b);
    Entered(before, after, a + b);
    FoldAppends(before.ledger, a, b);
  }

  lemma DoneEffect(plan: Plan, p: Position, l: Ledger)
    requires InPlan(plan, p) && l.ok && l.sink && l.lease
    ensures Fold(l, NotesTo(plan, p)) ==
            l.(checkpoints := l.checkpoints + DoneAt(plan, p), acted := Fold(l, NotesTo(plan, p)).acted)
  {
    NotesArePlain(plan, p);
    PlainOnlyCheckpoints(l, NotesTo(plan, p));
    CheckpointsAt(plan, p);
  }

  lemma EffectOfExecution(before: Book, after: Book, end: Ending)
    requires end.Stop? && InPlan(end.plan, end.p) && after.notes == before.notes + NotesTo(end.plan, end.p) + end.tail
    requires before.ledger.ok && before.ledger.sink && before.ledger.lease
    ensures ExecutionEffect(before.ledger, after.ledger, end.quiet, end.plan, end.x)
  {
    EnteredTwice(before, after, NotesTo(end.plan, end.p), end.tail);
    DoneEffect(end.plan, end.p, before.ledger);
    Combined(end, before.ledger, Fold(before.ledger, NotesTo(end.plan, end.p)), after.ledger);
  }

  lemma Combined(end: Ending, l: Ledger, done: Ledger, m: Ledger)
    requires end.Stop? && InPlan(end.plan, end.p) && l.ok && l.sink && l.lease
    requires done == l.(checkpoints := l.checkpoints + DoneAt(end.plan, end.p), acted := done.acted) && m == Fold(done, end.tail)
    ensures ExecutionEffect(l, m, end.quiet, end.plan, end.x)
  {
    TailOfExecution(end, done);
    DoneIsPrefix(end.plan, end.p);
  }
}
