/** The restore transaction: staging, commit and rollback over a filesystem whose operations may fail. */
module Restore {
  import opened Core

  datatype Tree = Whole(data: string) | Damaged

  type FileTree = map<Path, Tree>

  datatype RestoreKind = Files | Subvolume | Drill

  datatype ErrorCode = Cancelled | DestinationUnsafe | DestinationExists | RollbackIncomplete | OperationFailed

  /** `standard` says whether the exception derives from std::exception. */
  datatype Error = Error(code: ErrorCode, message: string, standard: bool)

  /** `partial` says whether a failed operation left part of its work behind. */
  datatype Outcome = Done | Threw(error: Error, partial: bool)

  /** `source` is the verified content of a complete copy; a regular file has no root to prepare. */
  datatype RestorePlan = RestorePlan(
    destination: Path,
    staging: Path,
    previous: Path,
    kind: RestoreKind,
    replace: bool,
    source: string,
    sourceIsDirectory: bool)

  /** What every call of the transaction does, and where cancellation is seen. */
  datatype Faults = Faults(
    cancelledAtStart: bool,
    existsStaging: Outcome,
    existsPrevious: Outcome,
    checkingSpace: Outcome,
    space: Outcome,
    cancelledBeforeCopy: bool,
    copying: Outcome,
    createRoot: Outcome,
    copy: Outcome,
    cancelledAfterCopy: bool,
    removeDrill: Outcome,
    existsDestination: Outcome,
    moveAway: Outcome,
    moveIn: Outcome,
    removePrevious: Outcome,
    undoExistsDestination: Outcome,
    undoRemoveDestination: Outcome,
    undoExistsPrevious: Outcome,
    undoMoveBack: Outcome,
    undoExistsStaging: Outcome,
    undoRemoveStaging: Outcome)

  datatype RestoreResult = RestoreResult(drill: bool, committed: bool)

  predicate PathsDiffer(plan: RestorePlan) {
    plan.destination != plan.staging && plan.destination != plan.previous && plan.staging != plan.previous
  }

  // ---- the operations ----

  function Moved(fs: FileTree, source: Path, destination: Path): FileTree {
    if source in fs then (fs - {source})[destination := fs[source]] else fs
  }

  function Removed(fs: FileTree, path: Path, o: Outcome): FileTree {
    if o.Done? then fs - {path} else if o.partial && path in fs then fs[path := Damaged] else fs
  }

  function MovedIf(fs: FileTree, source: Path, destination: Path, o: Outcome): FileTree {
    if o.Done? then Moved(fs, source, destination) else fs
  }

  function RootCreated(fs: FileTree, plan: RestorePlan, o: Outcome): FileTree {
    if (o.Done? && (plan.kind == Subvolume || plan.sourceIsDirectory)) || (o.Threw? && o.partial)
    then fs[plan.staging := Damaged] else fs
  }

  function Copied(fs: FileTree, plan: RestorePlan, o: Outcome): FileTree {
    if o.Done? then fs[plan.staging := Whole(plan.source)] else if o.partial then fs[plan.staging := Damaged] else fs
  }

  function CancelledOutcome(cancelled: bool): Outcome {
    if cancelled then Threw(Error(Cancelled, "restore was cancelled", true), false) else Done
  }

  // ---- the transaction as a function of its faults ----

  /** How far the forward path got; `history` holds every state of the filesystem so far. */
  datatype Progress = Progress(
    fs: FileTree,
    history: seq<FileTree>,
    stagingCreated: bool,
    previousMoved: bool,
    committed: bool,
    failure: Option<Error>)

  function Do(p: Progress, o: Outcome, fs: FileTree): Progress {
    if p.failure.Some? then p
    else p.(fs := fs, history := p.history + [fs], failure := if o.Done? then None else Some(o.error))
  }

  function Prepared(plan: RestorePlan, f: Faults, fs: FileTree): Progress {
    var p0 := Progress(fs, [fs], false, false, false, None);
    var p1 := Do(p0, f.checkingSpace, p0.fs);
    var p2 := Do(p1, f.space, p1.fs);
    var p3 := Do(p2, CancelledOutcome(f.cancelledBeforeCopy), p2.fs);
    var p4 := Do(p3, f.copying, p3.fs);
    Do(p4, f.createRoot, RootCreated(p4.fs, plan, f.createRoot))
  }

  function Staged(plan: RestorePlan, f: Faults, fs: FileTree): Progress {
    var p := Prepared(plan, f, fs);
    if p.failure.Some? then p
    else
      var p1 := p.(stagingCreated := true);
      var p2 := Do(p1, f.copy, Copied(p1.fs, plan, f.copy));
      Do(p2, CancelledOutcome(f.cancelledAfterCopy), p2.fs)
  }

  function Cleared(plan: RestorePlan, f: Faults, p: Progress): Progress {
    var p1 := Do(p, f.existsDestination, p.fs);
    if p1.failure.Some? || plan.destination !in p1.fs then p1
    else if !plan.replace then
      p1.(failure := Some(Error(DestinationExists, "restore destination appeared before commit", true)))
    else
      var p2 := Do(p1, f.moveAway, MovedIf(p1.fs, plan.destination, plan.previous, f.moveAway));
      if p2.failure.Some? then p2 else p2.(previousMoved := true)
  }

  function Committed(plan: RestorePlan, f: Faults, p: Progress): Progress {
    var p1 := Do(p, f.moveIn, MovedIf(p.fs, plan.staging, plan.destination, f.moveIn));
    if p1.failure.Some? then p1
    else
      var p2 := p1.(stagingCreated := false, committed := true);
      if p2.previousMoved then Do(p2, f.removePrevious, Removed(p2.fs, plan.previous, f.removePrevious)) else p2
  }

  function Forward(plan: RestorePlan, f: Faults, fs: FileTree): Progress {
    var p := Staged(plan, f, fs);
    if p.failure.Some? then p
    else if plan.kind == Drill then Do(p, f.removeDrill, Removed(p.fs, plan.staging, f.removeDrill))
    else
      var p1 := Cleared(plan, f, p);
      if p1.failure.Some? then p1 else Committed(plan, f, p1)
  }

  /** The rollback reuses `failure` for its own error; each part runs only if the flag and the path call for it. */
  function UndoPart(p: Progress, needed: bool, probe: Outcome, path: Path, o: Outcome, fs: FileTree): Progress {
    if p.failure.Some? || !needed then p
    else
      var p1 := Do(p, probe, p.fs);
      if p1.failure.Some? || path !in p1.fs then p1 else Do(p1, o, fs)
  }

  function Rollback(plan: RestorePlan, f: Faults, failed: Progress): Progress {
    var p := failed.(failure := None);
    var p1 := UndoPart(p, p.committed, f.undoExistsDestination, plan.destination, f.undoRemoveDestination,
                       Removed(p.fs, plan.destination, f.undoRemoveDestination));
    var p2 := UndoPart(p1, p.previousMoved, f.undoExistsPrevious, plan.previous, f.undoMoveBack,
                       MovedIf(p1.fs, plan.previous, plan.destination, f.undoMoveBack));
    UndoPart(p2, p.stagingCreated, f.undoExistsStaging, plan.staging, f.undoRemoveStaging,
             Removed(p2.fs, plan.staging, f.undoRemoveStaging))
  }

  /** What the caller sees after a rollback: an error with an empty message is swallowed, and one that does not
      derive from std::exception escapes in place of the failure. */
  function RollbackError(failure: Error, undo: Option<Error>): Error {
    match undo
    case None => failure
    case Some(e) =>
      if !e.standard then e
      else if e.message == "" then failure
      else Error(RollbackIncomplete, "restore rollback incomplete: " + e.message, true)
  }

  datatype Transaction = Transaction(fs: FileTree, history: seq<FileTree>, result: Result<RestoreResult, Error>)

  function StartError(plan: RestorePlan, f: Faults, fs: FileTree): Option<Error> {
    if f.cancelledAtStart then Some(Error(Cancelled, "restore was cancelled", true))
    else if f.existsStaging.Threw? then Some(f.existsStaging.error)
    else if plan.staging in fs then Some(Error(DestinationUnsafe, "restore transaction artifacts already exist", true))
    else if f.existsPrevious.Threw? then Some(f.existsPrevious.error)
    else if plan.previous in fs then Some(Error(DestinationUnsafe, "restore transaction artifacts already exist", true))
    else None
  }

  function Execution(plan: RestorePlan, f: Faults, fs: FileTree): Transaction {
    var start := StartError(plan, f, fs);
    if start.Some? then Transaction(fs, [fs], Err(start.value))
    else
      var p := Forward(plan, f, fs);
      if p.failure.None? then Transaction(p.fs, p.history, Ok(RestoreResult(plan.kind == Drill, plan.kind != Drill)))
      else
        var q := Rollback(plan, f, p);
        Transaction(q.fs, q.history, Err(RollbackError(p.failure.value, q.failure)))
  }

  // ---- the executor ----

  class RestoreExecutor {
    var fs: FileTree
    var history: seq<FileTree>

    constructor (initial: FileTree)
      ensures fs == initial && history == [initial]
    {
      fs := initial;
      history := [initial];
    }

    /** One call of an operation: the filesystem afterwards, and the exception if it threw. */
    method Perform(o: Outcome, after: FileTree) returns (thrown: Option<Error>)
      modifies this
      ensures fs == after && history == old(history) + [after]
      ensures thrown == if o.Done? then None else Some(o.error)
    {
      fs := after;
      history := history + [after];
      thrown := if o.Done? then None else Some(o.error);
    }

    ghost function Now(stagingCreated: bool, previousMoved: bool, committed: bool, failure: Option<Error>): Progress
      reads this
    {
      Progress(fs, history, stagingCreated, previousMoved, committed, failure)
    }

    method Prepare(plan: RestorePlan, f: Faults) returns (failure: Option<Error>)
      requires history == [fs]
      modifies this
      ensures Now(false, false, false, failure) == Prepared(plan, f, old(fs))
    {
      failure := Perform(f.checkingSpace, fs);
      if failure.Some? { return; }
      failure := Perform(f.space, fs);
      if failure.Some? { return; }
      failure := Perform(CancelledOutcome(f.cancelledBeforeCopy), fs);
      if failure.Some? { return; }
      failure := Perform(f.copying, fs);
      if failure.Some? { return; }
      failure := Perform(f.createRoot, RootCreated(fs, plan, f.createRoot));
    }

    method Commit(plan: RestorePlan, f: Faults)
      returns (stagingCreated: bool, previousMoved: bool, committed: bool, failure: Option<Error>)
      modifies this
      ensures Now(stagingCreated, previousMoved, committed, failure) ==
              var p := Cleared(plan, f, old(Now(true, false, false, None)));
              if p.failure.Some? then p else Committed(plan, f, p)
    {
      stagingCreated, previousMoved, committed := true, false, false;
      failure := Perform(f.existsDestination, fs);
      if failure.Some? { return; }
      if plan.destination in fs {
        if !plan.replace {
          failure := Some(Error(DestinationExists, "restore destination appeared before commit", true));
          return;
        }
        failure := Perform(f.moveAway, MovedIf(fs, plan.destination, plan.previous, f.moveAway));
        if failure.Some? { return; }
        previousMoved := true;
      }
      failure := Perform(f.moveIn, MovedIf(fs, plan.staging, plan.destination, f.moveIn));
      if failure.Some? { return; }
      stagingCreated := false;
      committed := true;
      if previousMoved {
        failure := Perform(f.removePrevious, Removed(fs, plan.previous, f.removePrevious));
      }
    }

    method Attempt(plan: RestorePlan, f: Faults)
      returns (stagingCreated: bool, previousMoved: bool, committed: bool, failure: Option<Error>)
      requires history == [fs]
      modifies this
      ensures Now(stagingCreated, previousMoved, committed, failure) == Forward(plan, f, old(fs))
    {
      stagingCreated, previousMoved, committed := false, false, false;
      failure := Prepare(plan, f);
      if failure.Some? { return; }
      stagingCreated := true;
      failure := Perform(f.copy, Copied(fs, plan, f.copy));
      if failure.Some? { return; }
      failure := Perform(CancelledOutcome(f.cancelledAfterCopy), fs);
      if failure.Some? { return; }
      if plan.kind == Drill {
        failure := Perform(f.removeDrill, Removed(fs, plan.staging, f.removeDrill));
        return;
      }
      stagingCreated, previousMoved, committed, failure := Commit(plan, f);
    }

    method Undo(plan: RestorePlan, f: Faults, stagingCreated: bool, previousMoved: bool, committed: bool)
      returns (error: Option<Error>)
      modifies this
      ensures Now(stagingCreated, previousMoved, committed, error) ==
              Rollback(plan, f, old(Now(stagingCreated, previousMoved, committed, None)))
    {
      error := None;
      if committed {
        error := Perform(f.undoExistsDestination, fs);
        if error.Some? { return; }
        if plan.destination in fs {
          error := Perform(f.undoRemoveDestination, Removed(fs, plan.destination, f.undoRemoveDestination));
          if error.Some? { return; }
        }
      }
      if previousMoved {
        error := Perform(f.undoExistsPrevious, fs);
        if error.Some? { return; }
        if plan.previous in fs {
          error := Perform(f.undoMoveBack, MovedIf(fs, plan.previous, plan.destination, f.undoMoveBack));
          if error.Some? { return; }
        }
      }
      if stagingCreated {
        error := Perform(f.undoExistsStaging, fs);
        if error.Some? { return; }
        if plan.staging in fs {
          error := Perform(f.undoRemoveStaging, Removed(fs, plan.staging, f.undoRemoveStaging));
        }
      }
    }

    method Execute(plan: RestorePlan, f: Faults) returns (r: Result<RestoreResult, Error>)
      modifies this
      ensures Transaction(fs, history, r) == Execution(plan, f, old(fs))
    {
      history := [fs];
      var start := StartError(plan, f, fs);
      if start.Some? {
        return Err(start.value);
      }
      var stagingCreated, previousMoved, committed, failure := Attempt(plan, f);
      if failure.None? {
        return Ok(RestoreResult(plan.kind == Drill, plan.kind != Drill));
      }
      var undo := Undo(plan, f, stagingCreated, previousMoved, committed);
      return Err(RollbackError(failure.value, undo));
    }
  }
}
