/**
 * What a run does to the outside world, as one sequence of notes, and the protocol the notes must follow.
 * A port call may return or throw anything its caller must be ready for.
 */
module RunLog {
  import opened Core
  import RunPlan

  datatype Error = OperationCancelled | BackupError | StandardError | ForeignError

  datatype Outcome = Returned | Thrown(error: Error)

  datatype Event =
    | RunStarted
    | SourceStarted(sourceId: string, index: int)
    | ActionStarted(sourceId: string, index: int, kind: RunPlan.ActionKind)
    | ActionCompleted(sourceId: string, index: int, kind: RunPlan.ActionKind)
    | ActionFailed(sourceId: string, index: int, kind: RunPlan.ActionKind)
    | CheckpointWritten(sourceId: string, index: int, kind: RunPlan.ActionKind)
    | SourceCompleted(sourceId: string, index: int)
    | TargetValidationCompleted
    | RunCompleted
    | RunFailed
    | RunCancelled(source: Option<string>, sourceIndex: int, during: Option<RunPlan.ActionKind>)
  {
    predicate Terminal() {
      TargetValidationCompleted? || RunCompleted? || RunFailed? || RunCancelled?
    }
  }

  datatype Checkpoint = Checkpoint(sourceId: string, kind: RunPlan.ActionKind)

  datatype Note =
    | SinkOpened
    | SinkReleased
    | LeaseAcquired
    | LeaseReleased
    | SessionPrepared
    | SessionClosed(clean: bool)
    | CancellationSeen
    | Sent(event: Event)
    | Checkpointed(checkpoint: Checkpoint)
    | SuccessWritten
    | SkippedWritten

  /** What the notes so far amount to; ok is lost for good by a note that breaks the protocol. */
  datatype Ledger = Ledger(
    ok: bool,
    sink: bool,
    lease: bool,
    session: bool,
    closedCleanly: bool,
    cancellationSeen: bool,
    terminals: seq<Event>,
    checkpoints: seq<Checkpoint>,
    skipped: nat,
    success: Option<seq<Checkpoint>>,
    /** An action was started or checkpointed, or a success or a skipped run was written. */
    acted: bool)

  const NOTHING := Ledger(true, false, false, false, false, false, [], [], 0, None, false)

  function Step(l: Ledger, n: Note): Ledger {
    match n
    case SinkOpened => l.(sink := true, ok := l.ok && !l.sink)
    case SinkReleased => l.(sink := false, ok := l.ok && l.sink)
    case LeaseAcquired => l.(lease := true, ok := l.ok && !l.lease)
    // a lease goes only when no session is open
    case LeaseReleased => l.(lease := false, ok := l.ok && l.lease && !l.session)
    case SessionPrepared => l.(session := true, ok := l.ok && l.lease && !l.session)
    // a session is closed once
    case SessionClosed(clean) => l.(session := false, closedCleanly := clean, ok := l.ok && l.session)
    case CancellationSeen => l.(cancellationSeen := true)
    // no event reaches a sink that is gone
    case Sent(e) =>
      l.(terminals := if e.Terminal() then l.terminals + [e] else l.terminals, acted := l.acted || e.ActionStarted?,
         ok := l.ok && l.sink)
    case Checkpointed(c) => l.(checkpoints := l.checkpoints + [c], acted := true, ok := l.ok && l.lease)
    // success is written under the lease, once, after a clean close, uncancelled and before any terminal event
    case SuccessWritten =>
      l.(success := Some(l.checkpoints), acted := true,
         ok := l.ok && l.lease && !l.session && l.closedCleanly && !l.cancellationSeen && l.terminals == [] && l.success.None?)
    case SkippedWritten => l.(skipped := l.skipped + 1, acted := true, ok := l.ok && l.lease && !l.session)
  }

  function Replay(log: seq<Note>): Ledger {
    if |log| == 0 then NOTHING else Step(Replay(log[..|log| - 1]), log[|log| - 1])
  }

  function Fold(l: Ledger, notes: seq<Note>): Ledger {
    if |notes| == 0 then l else Step(Fold(l, notes[..|notes| - 1]), notes[|notes| - 1])
  }

  lemma {:induction false} ReplayAppends(log: seq<Note>, notes: seq<Note>)
    ensures Replay(log + notes) == Fold(Replay(log), notes)
  {
    if |notes| == 0 {
      assert log + notes == log;
    } else {
      ReplayAppends(log, notes[..|notes| - 1]);
      assert (log + notes)[..|log + notes| - 1] == log + notes[..|notes| - 1];
    }
  }

  lemma {:induction false} FoldAppends(l: Ledger, a: seq<Note>, b: seq<Note>)
    ensures Fold(l, a + b) == Fold(Fold(l, a), b)
  {
    if |b| == 0 {
      assert a + b == a;
    } else {
      FoldAppends(l, a, b[..|b| - 1]);
      assert (a + b)[..|a + b| - 1] == a + b[..|b| - 1];
    }
  }

  datatype Account = Account(notes: seq<Note>, ledger: Ledger)

  ghost predicate Balances(a: Account) {
    a.ledger == Replay(a.notes)
  }

  /** The notes, kept together with what they amount to. */
  type Book = a: Account | Balances(a) witness Account([], NOTHING)

  function Noted(book: Book, n: Note): Book {
    ReplayAppends(book.notes, [n]);
    assert Fold(book.ledger, [n]) == Step(Fold(book.ledger, []), n);
    Account(book.notes + [n], Step(book.ledger, n))
  }

  /** Notes that were added show in the ledger. */
  lemma Entered(before: Book, after: Book, notes: seq<Note>)
    requires after.notes == before.notes + notes
    ensures after.ledger == Fold(before.ledger, notes)
  {
    ReplayAppends(before.notes, notes);
  }

  /** What the outside answers: whether another run holds the lease, whether the last success was on the day of the
      run with the same profile, and what loading the profile and the clock at the end of a run do. */
  datatype World = World(busy: bool, succeededToday: bool, profile: Outcome, clock: Outcome)

  /** The ports a run talks to. */
  class Ports {
    /** The event sink never throws. */
    const quiet: bool
    /** Ports throw nothing but what the program's own handlers name. */
    const standard: bool
    /** No other call fails. */
    const reliable: bool
    const world: World
    var log: Book
    /** The sink is there to be told. */
    var open: bool

    constructor (quiet: bool, standard: bool, reliable: bool, world: World)
      ensures this.quiet == quiet && this.standard == standard && this.reliable == reliable && this.world == world
      ensures log == Account([], NOTHING) && !open
    {
      this.quiet := quiet;
      this.standard := standard;
      this.reliable := reliable;
      this.world := world;
      log := Account([], NOTHING);
      open := false;
    }

    method Record(n: Note)
      modifies this
      ensures log.notes == old(log.notes) + [n]
      ensures open == if n.SinkOpened? then true else if n.SinkReleased? then false else old(open)
    {
      log := Noted(log, n);
      open := n.SinkOpened? || (!n.SinkReleased? && open);
    }

    /** Any call out of the program that leaves no note. */
    method Call() returns (o: Outcome)
      ensures (standard ==> o != Thrown(ForeignError)) && (reliable ==> o.Returned?)
    {
      o := *;
      if standard && o == Thrown(ForeignError) { o := Thrown(StandardError); }
      if reliable { o := Returned; }
    }

    /** A progress report: there may be any number of them, and they leave no note. */
    method Report() returns (o: Outcome)
      requires open
      ensures (quiet ==> o.Returned?) && (standard ==> o != Thrown(ForeignError))
    {
      o := Call();
      if quiet { o := Returned; }
    }

    method Send(e: Event) returns (o: Outcome)
      modifies this
      ensures log.notes == old(log.notes) + [Sent(e)] && open == old(open)
      ensures quiet ==> o.Returned?
      ensures standard ==> o != Thrown(ForeignError)
    {
      Record(Sent(e));
      o := Call();
      if quiet { o := Returned; }
    }

    method CancellationRequested() returns (c: bool)
      modifies this
      ensures log.notes == (if c then old(log.notes) + [CancellationSeen] else old(log.notes)) && open == old(open)
    {
      c := *;
      if c { Record(CancellationSeen); }
    }
  }
}
