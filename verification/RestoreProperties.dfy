/** What a restore leaves behind, and what it never loses, under every schedule of faults. */
module RestoreProperties {
  import opened Core
  import opened Restore

  /** The transaction began: its paths differ and neither artifact existed. */
  predicate Begun(plan: RestorePlan, fs: FileTree) {
    PathsDiffer(plan) && plan.staging !in fs && plan.previous !in fs
  }

  /** Nothing stops the transaction before it begins. */
  predicate Starts(plan: RestorePlan, f: Faults, fs: FileTree) {
    && !f.cancelledAtStart && f.existsStaging.Done? && f.existsPrevious.Done?
    && plan.staging !in fs && plan.previous !in fs
  }

  predicate Partial(o: Outcome) {
    o.Threw? && o.partial
  }

  predicate Reported(e: Error) {
    e.standard && e.message != ""
  }

  predicate Reports(o: Outcome) {
    o.Threw? ==> Reported(o.error)
  }

  /** The two operations whose partial failure no rollback can undo do not fail partially. */
  predicate Atomic(f: Faults) {
    !Partial(f.createRoot) && !Partial(f.removePrevious)
  }

  /** Every error of the rollback derives from std::exception and carries a message. */
  predicate RollbackReports(f: Faults) {
    && Reports(f.undoExistsDestination) && Reports(f.undoRemoveDestination)
    && Reports(f.undoExistsPrevious) && Reports(f.undoMoveBack)
    && Reports(f.undoExistsStaging) && Reports(f.undoRemoveStaging)
  }

  // ---- the forward path ----

  ghost predicate OnlyStaging(plan: RestorePlan, fs: FileTree, now: FileTree) {
    now == fs || (plan.staging in now && now == fs[plan.staging := now[plan.staging]])
  }

  lemma PreparedShape(plan: RestorePlan, f: Faults, fs: FileTree)
    requires Begun(plan, fs)
    ensures var p := Prepared(plan, f, fs);
            && !p.stagingCreated && !p.previousMoved && !p.committed
            && OnlyStaging(plan, fs, p.fs)
            && (p.failure.Some? && !Partial(f.createRoot) ==> p.fs == fs)
            && (forall s :: s in p.history ==> OnlyStaging(plan, fs, s))
  {}

  lemma StagedShape(plan: RestorePlan, f: Faults, fs: FileTree)
    requires Begun(plan, fs)
    ensures var p := Staged(plan, f, fs);
            && !p.previousMoved && !p.committed
            && OnlyStaging(plan, fs, p.fs)
            && (!p.stagingCreated ==> p.failure.Some?)
            && (!p.stagingCreated && !Partial(f.createRoot) ==> p.fs == fs)
            && (p.failure.None? ==> p.fs == fs[plan.staging := Whole(plan.source)])
            && (forall s :: s in p.history ==> OnlyStaging(plan, fs, s))
  {
    PreparedShape(plan, f, fs);
  }

  /** The destination moved aside and the verified copy staged. */
  function Aside(plan: RestorePlan, fs: FileTree): FileTree
    requires plan.destination in fs
  {
    fs[plan.staging := Whole(plan.source)][plan.previous := fs[plan.destination]] - {plan.destination}
  }

  lemma ClearedShape(plan: RestorePlan, f: Faults, fs: FileTree, p: Progress)
    requires Begun(plan, fs) && p.fs == fs[plan.staging := Whole(plan.source)]
    requires p.failure.None? && p.stagingCreated && !p.previousMoved && !p.committed
    ensures var q := Cleared(plan, f, p);
            && q.stagingCreated && !q.committed
            && (q.previousMoved ==> plan.destination in fs && q.fs == Aside(plan, fs) && q.failure.None?)
            && (!q.previousMoved ==> q.fs == p.fs && (q.failure.None? ==> plan.destination !in fs))
            && (forall s :: s in q.history ==> s in p.history || s == p.fs || (plan.destination in fs && s == Aside(plan, fs)))
  {
    if plan.destination in fs {
      assert Moved(p.fs, plan.destination, plan.previous) == Aside(plan, fs);
    }
  }

  /** The copy at the destination, the original aside if there was one. */
  function InPlace(plan: RestorePlan, fs: FileTree): FileTree {
    if plan.destination in fs
    then fs[plan.destination := Whole(plan.source)][plan.previous := fs[plan.destination]]
    else fs[plan.destination := Whole(plan.source)]
  }

  function Damage(plan: RestorePlan, fs: FileTree, o: Outcome): FileTree {
    if Partial(o) then fs[plan.previous := Damaged] else fs
  }

  lemma CommittedShape(plan: RestorePlan, f: Faults, fs: FileTree, q: Progress)
    requires Begun(plan, fs)
    requires q.failure.None? && q.stagingCreated && !q.committed
    requires q.previousMoved <==> plan.destination in fs
    requires q.fs == if q.previousMoved then Aside(plan, fs) else fs[plan.staging := Whole(plan.source)]
    ensures var c := Committed(plan, f, q);
            && (f.moveIn.Threw? ==>
                  c.fs == q.fs && c.failure.Some? && c.stagingCreated && !c.committed && c.previousMoved == q.previousMoved)
            && (f.moveIn.Done? ==>
                  && c.committed && !c.stagingCreated && c.previousMoved == q.previousMoved
                  && (c.failure.Some? <==> c.previousMoved && f.removePrevious.Threw?)
                  && (c.failure.None? ==> c.fs == fs[plan.destination := Whole(plan.source)])
                  && (c.failure.Some? ==> c.fs == Damage(plan, InPlace(plan, fs), f.removePrevious)))
            && (forall s :: s in c.history ==> s in q.history || s == q.fs || s == InPlace(plan, fs) || s == c.fs)
  {
    assert Moved(q.fs, plan.staging, plan.destination) == InPlace(plan, fs);
    if plan.destination in fs {
      assert InPlace(plan, fs) - {plan.previous} == fs[plan.destination := Whole(plan.source)];
    }
  }

  /** The states in which the forward path can end. */
  ghost predicate ForwardShape(plan: RestorePlan, f: Faults, fs: FileTree, p: Progress) {
    if p.failure.None? then p.fs == if plan.kind == Drill then fs else fs[plan.destination := Whole(plan.source)]
    else if p.committed then
      && !p.stagingCreated && p.previousMoved && plan.destination in fs && f.removePrevious.Threw?
      && p.fs == Damage(plan, InPlace(plan, fs), f.removePrevious)
    else if p.previousMoved then p.stagingCreated && plan.destination in fs && p.fs == Aside(plan, fs)
    else OnlyStaging(plan, fs, p.fs) && (!p.stagingCreated && !Partial(f.createRoot) ==> p.fs == fs)
  }

  lemma ForwardEnds(plan: RestorePlan, f: Faults, fs: FileTree)
    requires Begun(plan, fs)
    ensures ForwardShape(plan, f, fs, Forward(plan, f, fs))
  {
    StagedShape(plan, f, fs);
    var p := Staged(plan, f, fs);
    if p.failure.None? && plan.kind != Drill {
      ClearedShape(plan, f, fs, p);
      var q := Cleared(plan, f, p);
      if q.failure.None? {
        CommittedShape(plan, f, fs, q);
      }
    } else if p.failure.None? {
      assert p.fs - {plan.staging} == fs;
    }
  }

  // ---- how far the faults let it get ----

  /** The first exception of a list of calls. */
  function Then(o: Outcome, rest: Option<Error>): Option<Error> {
    if o.Threw? then Some(o.error) else rest
  }

  predicate ReachesRoot(f: Faults) {
    f.checkingSpace.Done? && f.space.Done? && !f.cancelledBeforeCopy && f.copying.Done?
  }

  predicate MakesRoot(f: Faults) {
    ReachesRoot(f) && f.createRoot.Done?
  }

  predicate CopiesAll(f: Faults) {
    MakesRoot(f) && f.copy.Done? && !f.cancelledAfterCopy
  }

  predicate MovesAside(plan: RestorePlan, f: Faults, fs: FileTree) {
    && CopiesAll(f) && plan.kind != Drill && f.existsDestination.Done?
    && plan.destination in fs && plan.replace && f.moveAway.Done?
  }

  /** The failure of the forward path, if it fails. */
  function ForwardFault(plan: RestorePlan, f: Faults, fs: FileTree): Option<Error> {
    var commit :=
      if plan.destination !in fs then Then(f.moveIn, None)
      else if !plan.replace then Some(Error(DestinationExists, "restore destination appeared before commit", true))
      else Then(f.moveAway, Then(f.moveIn, Then(f.removePrevious, None)));
    var staged := if plan.kind == Drill then Then(f.removeDrill, None) else Then(f.existsDestination, commit);
    Then(f.checkingSpace, Then(f.space, Then(CancelledOutcome(f.cancelledBeforeCopy), Then(f.copying, Then(f.createRoot,
      Then(f.copy, Then(CancelledOutcome(f.cancelledAfterCopy), staged)))))))
  }

  lemma StagedFails(plan: RestorePlan, f: Faults, fs: FileTree)
    ensures var p := Staged(plan, f, fs);
            && (p.failure.None? <==> CopiesAll(f)) && (p.stagingCreated <==> MakesRoot(f))
            && (p.failure.Some? ==> p.failure == ForwardFault(plan, f, fs))
  {}

  lemma ForwardFails(plan: RestorePlan, f: Faults, fs: FileTree)
    requires Begun(plan, fs)
    ensures var p := Forward(plan, f, fs);
            && p.failure == ForwardFault(plan, f, fs)
            && (p.failure.Some? ==> (p.previousMoved <==> MovesAside(plan, f, fs)))
            && (p.failure.Some? ==> (p.committed <==> MovesAside(plan, f, fs) && f.moveIn.Done?))
            && (p.failure.Some? && !p.committed ==> (p.stagingCreated <==> MakesRoot(f)))
  {
    StagedFails(plan, f, fs);
    StagedShape(plan, f, fs);
    var p := Staged(plan, f, fs);
    if p.failure.None? && plan.kind != Drill {
      ClearedShape(plan, f, fs, p);
      var q := Cleared(plan, f, p);
      if q.failure.None? {
        CommittedShape(plan, f, fs, q);
      }
    }
  }

  /** Something is at the staging path when the forward path fails with the original in its place. */
  predicate LeavesStaging(plan: RestorePlan, f: Faults) {
    plan.kind == Subvolume || plan.sourceIsDirectory || f.copy.Done? || f.copy.partial
  }

  lemma StagingIsLeft(plan: RestorePlan, f: Faults, fs: FileTree)
    requires Begun(plan, fs) && Forward(plan, f, fs).failure.Some? && !MovesAside(plan, f, fs)
    ensures var p := Forward(plan, f, fs);
            && (MakesRoot(f) ==> (plan.staging in p.fs <==> LeavesStaging(plan, f)))
            && (!MakesRoot(f) ==> (plan.staging in p.fs <==> ReachesRoot(f) && Partial(f.createRoot)))
            && (plan.staging !in p.fs ==> p.fs == fs)
  {
    StagedFails(plan, f, fs);
    ForwardFails(plan, f, fs);
    ForwardEnds(plan, f, fs);
  }

  // ---- exactly when an error means that nothing changed ----

  /** The error that stops the rollback, if one does. */
  function UndoFault(plan: RestorePlan, f: Faults, fs: FileTree): Option<Error> {
    var staging := Then(f.undoExistsStaging, if MovesAside(plan, f, fs) || LeavesStaging(plan, f) then Then(f.undoRemoveStaging, None) else None);
    if !MakesRoot(f) then None
    else if !MovesAside(plan, f, fs) then staging
    else if f.moveIn.Threw? then Then(f.undoExistsPrevious, Then(f.undoMoveBack, staging))
    else Then(f.undoExistsDestination, Then(f.undoRemoveDestination, Then(f.undoExistsPrevious, Then(f.undoMoveBack, None))))
  }

  /** The rollback leaves something behind: part of a root it does not know of, what it could not remove or move
      back, or an original that was half removed. */
  predicate LeavesTrace(plan: RestorePlan, f: Faults, fs: FileTree) {
    if !MakesRoot(f) then ReachesRoot(f) && Partial(f.createRoot)
    else if !MovesAside(plan, f, fs) then LeavesStaging(plan, f) && UndoFault(plan, f, fs).Some?
    else UndoFault(plan, f, fs).Some? || (f.moveIn.Done? && Partial(f.removePrevious) && fs[plan.destination] != Damaged)
  }

  /** The caller is not told that the rollback is incomplete: it met no error, or one with an empty message, or
      one that is no standard exception, which then is all the caller sees. */
  predicate Untold(failure: Error, undo: Option<Error>) {
    match undo
    case None => failure.code != RollbackIncomplete
    case Some(e) => if e.standard then e.message == "" && failure.code != RollbackIncomplete else e.code != RollbackIncomplete
  }

  predicate Hides(plan: RestorePlan, f: Faults, fs: FileTree) {
    && Starts(plan, f, fs) && ForwardFault(plan, f, fs).Some?
    && LeavesTrace(plan, f, fs) && Untold(ForwardFault(plan, f, fs).value, UndoFault(plan, f, fs))
  }

  /** How a failed forward path is rolled back. */
  ghost predicate UndoneAs(plan: RestorePlan, f: Faults, fs: FileTree, q: Progress) {
    q.failure == UndoFault(plan, f, fs) && (q.fs == fs <==> !LeavesTrace(plan, f, fs))
  }

  lemma UndoneEarly(plan: RestorePlan, f: Faults, fs: FileTree)
    requires Begun(plan, fs) && Forward(plan, f, fs).failure.Some? && !MovesAside(plan, f, fs)
    ensures UndoneAs(plan, f, fs, Rollback(plan, f, Forward(plan, f, fs)))
  {
    var p := Forward(plan, f, fs);
    ForwardFails(plan, f, fs);
    ForwardEnds(plan, f, fs);
    StagingIsLeft(plan, f, fs);
    if plan.staging in p.fs {
      assert p.fs - {plan.staging} == fs;
    }
  }

  lemma UndoneAside(plan: RestorePlan, f: Faults, fs: FileTree)
    requires Begun(plan, fs) && MovesAside(plan, f, fs) && f.moveIn.Threw?
    ensures UndoneAs(plan, f, fs, Rollback(plan, f, Forward(plan, f, fs)))
  {
    var p := Forward(plan, f, fs);
    ForwardFails(plan, f, fs);
    ForwardEnds(plan, f, fs);
    var back := Moved(Aside(plan, fs), plan.previous, plan.destination);
    assert back - {plan.staging} == fs;
  }

  lemma UndoneCleanup(plan: RestorePlan, f: Faults, fs: FileTree)
    requires Begun(plan, fs) && MovesAside(plan, f, fs) && f.moveIn.Done? && f.removePrevious.Threw?
    ensures UndoneAs(plan, f, fs, Rollback(plan, f, Forward(plan, f, fs)))
  {
    var p := Forward(plan, f, fs);
    ForwardFails(plan, f, fs);
    ForwardEnds(plan, f, fs);
    CleanupMovedBack(plan, fs, f.removePrevious);
  }

  /** Undoing a commit whose cleanup failed brings back what is left of the original. */
  lemma CleanupMovedBack(plan: RestorePlan, fs: FileTree, o: Outcome)
    requires Begun(plan, fs) && plan.destination in fs
    ensures var aside := Damage(plan, InPlace(plan, fs), o) - {plan.destination};
            Moved(aside, plan.previous, plan.destination) == if Partial(o) then fs[plan.destination := Damaged] else fs
  {}

  lemma Undone(plan: RestorePlan, f: Faults, fs: FileTree)
    requires Begun(plan, fs) && Forward(plan, f, fs).failure.Some?
    ensures UndoneAs(plan, f, fs, Rollback(plan, f, Forward(plan, f, fs)))
  {
    ForwardFails(plan, f, fs);
    if !MovesAside(plan, f, fs) {
      UndoneEarly(plan, f, fs);
    } else if f.moveIn.Threw? {
      UndoneAside(plan, f, fs);
    } else {
      UndoneCleanup(plan, f, fs);
    }
  }

  /** A restore that succeeds leaves the verified copy at the destination and no artifact, and a drill leaves
      nothing at all. Any error but RollbackIncomplete leaves everything as it was, exactly unless the faults
      hide what was left. */
  lemma AllOrNothingIff(plan: RestorePlan, f: Faults, fs: FileTree)
    requires PathsDiffer(plan)
    ensures var t := Execution(plan, f, fs);
            t.result.Ok? ==>
              && plan.staging !in t.fs && plan.previous !in t.fs
              && t.result.value == RestoreResult(plan.kind == Drill, plan.kind != Drill)
              && t.fs == (if plan.kind == Drill then fs else fs[plan.destination := Whole(plan.source)])
    ensures var t := Execution(plan, f, fs);
            (t.result.Err? && t.result.error.code != RollbackIncomplete ==> t.fs == fs) <==> !Hides(plan, f, fs)
  {
    if Starts(plan, f, fs) {
      ForwardEnds(plan, f, fs);
      ForwardFails(plan, f, fs);
      if Forward(plan, f, fs).failure.Some? {
        Undone(plan, f, fs);
        UntoldIsUnseen(Forward(plan, f, fs).failure.value, UndoFault(plan, f, fs));
      }
    }
  }

  lemma UntoldIsUnseen(failure: Error, undo: Option<Error>)
    ensures Untold(failure, undo) <==> RollbackError(failure, undo).code != RollbackIncomplete
  {}

  /** Every call of the way to a success returned, and a destination in the way may be replaced. */
  predicate AllReturns(plan: RestorePlan, f: Faults, fs: FileTree) {
    && CopiesAll(f)
    && if plan.kind == Drill then f.removeDrill.Done?
       else
         && f.existsDestination.Done? && f.moveIn.Done?
         && (plan.destination in fs ==> plan.replace && f.moveAway.Done? && f.removePrevious.Done?)
  }

  /** A restore succeeds exactly when nothing stops it before it begins and every call on its way returns. A
      restore that does not begin changes nothing and reports what stopped it, the first in the order of the
      checks. */
  lemma SucceedsIff(plan: RestorePlan, f: Faults, fs: FileTree)
    requires PathsDiffer(plan)
    ensures Execution(plan, f, fs).result.Ok? <==> Starts(plan, f, fs) && AllReturns(plan, f, fs)
    ensures !Starts(plan, f, fs) ==> Execution(plan, f, fs).fs == fs && Execution(plan, f, fs).history == [fs]
    ensures f.cancelledAtStart ==> Execution(plan, f, fs).result == Err(Error(Cancelled, "restore was cancelled", true))
    ensures !f.cancelledAtStart && f.existsStaging.Threw? ==> Execution(plan, f, fs).result == Err(f.existsStaging.error)
    ensures !f.cancelledAtStart && f.existsStaging.Done? && plan.staging !in fs && f.existsPrevious.Threw? ==>
      Execution(plan, f, fs).result == Err(f.existsPrevious.error)
    ensures !f.cancelledAtStart && f.existsStaging.Done? && (plan.staging in fs || (f.existsPrevious.Done? && plan.previous in fs)) ==>
      Execution(plan, f, fs).result == Err(Error(DestinationUnsafe, "restore transaction artifacts already exist", true))
  {
    if Starts(plan, f, fs) {
      ForwardFails(plan, f, fs);
    }
  }

  /** A restore that begins and fails reports its own failure if the rollback met no error or one without a
      message, the rollback's error if that is no standard exception, and otherwise that the rollback is
      incomplete, with the rollback's message. */
  lemma FailureIsReported(plan: RestorePlan, f: Faults, fs: FileTree)
    requires PathsDiffer(plan) && Starts(plan, f, fs) && ForwardFault(plan, f, fs).Some?
    ensures Execution(plan, f, fs).result.Err?
    ensures UndoFault(plan, f, fs).None? ==> Execution(plan, f, fs).result.error == ForwardFault(plan, f, fs).value
    ensures forall e :: UndoFault(plan, f, fs) == Some(e) ==>
      var seen := Execution(plan, f, fs).result.error;
      if !e.standard then seen == e
      else if e.message == "" then seen == ForwardFault(plan, f, fs).value
      else seen.code == RollbackIncomplete && seen.standard && seen.message == "restore rollback incomplete: " + e.message
  {
    ForwardFails(plan, f, fs);
    Undone(plan, f, fs);
  }

  /** In particular it is all or nothing if the two operations no rollback can mend never stop half way and every
      error of the rollback is reported. */
  lemma AllOrNothing(plan: RestorePlan, f: Faults, fs: FileTree)
    requires PathsDiffer(plan) && Atomic(f) && RollbackReports(f)
    ensures !Hides(plan, f, fs)
    ensures var t := Execution(plan, f, fs);
            t.result.Err? && t.result.error.code != RollbackIncomplete ==> t.fs == fs
  {
    AllOrNothingIff(plan, f, fs);
  }

  /** A replacement whose cleanup fails, and whose rollback then fails with `undo` before moving anything back. */
  function HidingFaults(undo: Error): Faults {
    Faults(false, Done, Done, Done, Done, false, Done, Done, Done, false, Done, Done, Done, Done,
           Threw(Error(OperationFailed, "could not clean restore staging", true), false),
           Threw(undo, false), Done, Done, Done, Done, Done)
  }

  /** A concrete failing schedule: one unreported rollback error, for every replacement of an existing destination. */
  lemma UnreportedErrorHidesLoss(plan: RestorePlan, fs: FileTree, undo: Error)
    requires Begun(plan, fs) && plan.destination in fs && plan.replace && plan.kind != Drill
    requires !Reported(undo) && undo.code != RollbackIncomplete
    ensures var f := HidingFaults(undo);
            var t := Execution(plan, f, fs);
            Atomic(f) && t.result.Err? && t.result.error.code != RollbackIncomplete && t.fs != fs
  {
    AllOrNothingIff(plan, HidingFaults(undo), fs);
    assert Hides(plan, HidingFaults(undo), fs);
  }

  // ---- neither version is ever lost ----

  /** The original is whole at its place or aside, or the verified copy has taken its place. */
  predicate Kept(plan: RestorePlan, fs: FileTree, now: FileTree) {
    plan.destination in fs ==>
      || (plan.destination in now && now[plan.destination] == fs[plan.destination])
      || (plan.previous in now && now[plan.previous] == fs[plan.destination])
      || (plan.destination in now && now[plan.destination] == Whole(plan.source))
  }

  lemma ForwardKeeps(plan: RestorePlan, f: Faults, fs: FileTree)
    requires Begun(plan, fs)
    ensures forall s :: s in Forward(plan, f, fs).history ==> Kept(plan, fs, s)
  {
    StagedShape(plan, f, fs);
    var p := Staged(plan, f, fs);
    assert forall s :: OnlyStaging(plan, fs, s) ==> Kept(plan, fs, s);
    if p.failure.None? && plan.kind != Drill {
      ClearedShape(plan, f, fs, p);
      var q := Cleared(plan, f, p);
      if q.failure.None? {
        CommittedShape(plan, f, fs, q);
      }
    } else if p.failure.None? {
      assert OnlyStaging(plan, fs, Removed(p.fs, plan.staging, f.removeDrill));
    }
  }

  /** Removing the replaced original damaged it and failed, and the rollback then removed or damaged the copy. */
  predicate LosesBoth(plan: RestorePlan, f: Faults, fs: FileTree) {
    && MovesAside(plan, f, fs) && f.moveIn.Done? && Partial(f.removePrevious)
    && f.undoExistsDestination.Done? && (f.undoRemoveDestination.Done? || f.undoRemoveDestination.partial)
  }

  lemma UndoneCommitKeeps(plan: RestorePlan, f: Faults, fs: FileTree, p: Progress)
    requires Begun(plan, fs) && p.failure.Some? && ForwardShape(plan, f, fs, p) && p.committed
    requires !(Partial(f.removePrevious) && f.undoExistsDestination.Done?
               && (f.undoRemoveDestination.Done? || f.undoRemoveDestination.partial))
    ensures forall s :: s in Rollback(plan, f, p).history ==> s in p.history || Kept(plan, fs, s)
  {}

  lemma UndoneStagingKeeps(plan: RestorePlan, f: Faults, fs: FileTree, p: Progress)
    requires Begun(plan, fs) && p.failure.Some? && ForwardShape(plan, f, fs, p) && !p.committed
    ensures forall s :: s in Rollback(plan, f, p).history ==> s in p.history || Kept(plan, fs, s)
  {}

  lemma UndoneCommitLoses(plan: RestorePlan, f: Faults, fs: FileTree, p: Progress)
    requires Begun(plan, fs) && p.failure.Some? && ForwardShape(plan, f, fs, p) && p.committed
    requires fs[plan.destination].Whole?
    requires Partial(f.removePrevious) && f.undoExistsDestination.Done?
    requires f.undoRemoveDestination.Done? || f.undoRemoveDestination.partial
    ensures var lost := Removed(p.fs, plan.destination, f.undoRemoveDestination);
            lost in Rollback(plan, f, p).history && !Kept(plan, fs, lost)
  {
    var lost := Removed(p.fs, plan.destination, f.undoRemoveDestination);
    var start := p.(failure := None);
    var p1 := UndoPart(start, true, f.undoExistsDestination, plan.destination, f.undoRemoveDestination, lost);
    assert p1.history[|p1.history| - 1] == lost;
    HistoryGrows(plan, f, p);
  }

  lemma UndoPartGrows(p: Progress, needed: bool, probe: Outcome, path: Path, o: Outcome, fs: FileTree)
    ensures p.history <= UndoPart(p, needed, probe, path, o, fs).history
  {}

  lemma HistoryGrows(plan: RestorePlan, f: Faults, p: Progress)
    ensures var start := p.(failure := None);
            var p1 := UndoPart(start, p.committed, f.undoExistsDestination, plan.destination, f.undoRemoveDestination,
                               Removed(p.fs, plan.destination, f.undoRemoveDestination));
            p1.history <= Rollback(plan, f, p).history
  {
    var start := p.(failure := None);
    var p1 := UndoPart(start, p.committed, f.undoExistsDestination, plan.destination, f.undoRemoveDestination,
                       Removed(p.fs, plan.destination, f.undoRemoveDestination));
    var back := MovedIf(p1.fs, plan.previous, plan.destination, f.undoMoveBack);
    var p2 := UndoPart(p1, p.previousMoved, f.undoExistsPrevious, plan.previous, f.undoMoveBack, back);
    UndoPartGrows(p1, p.previousMoved, f.undoExistsPrevious, plan.previous, f.undoMoveBack, back);
    UndoPartGrows(p2, p.stagingCreated, f.undoExistsStaging, plan.staging, f.undoRemoveStaging,
                  Removed(p2.fs, plan.staging, f.undoRemoveStaging));
  }

  /** In every state the transaction passes through, rolled back or not, the original is whole at the destination
      or aside, or the verified copy is whole at the destination: exactly unless LosesBoth. */
  lemma NeverLosesBothIff(plan: RestorePlan, f: Faults, fs: FileTree)
    requires PathsDiffer(plan) && Starts(plan, f, fs)
    requires plan.destination in fs ==> fs[plan.destination].Whole?
    ensures (forall s :: s in Execution(plan, f, fs).history ==> Kept(plan, fs, s)) <==> !LosesBoth(plan, f, fs)
  {
    var p := Forward(plan, f, fs);
    ForwardEnds(plan, f, fs);
    ForwardKeeps(plan, f, fs);
    ForwardFails(plan, f, fs);
    if p.failure.Some? {
      if !p.committed {
        UndoneStagingKeeps(plan, f, fs, p);
      } else if LosesBoth(plan, f, fs) {
        UndoneCommitLoses(plan, f, fs, p);
      } else {
        UndoneCommitKeeps(plan, f, fs, p);
      }
    }
  }

  /** Everything succeeds but removing the replaced original, which stops half way. */
  function LosingFaults(cleanup: Error): Faults {
    Faults(false, Done, Done, Done, Done, false, Done, Done, Done, false, Done, Done, Done, Done,
           Threw(cleanup, true), Done, Done, Done, Done, Done, Done)
  }

  /** A concrete failing schedule, for every replacement of a whole destination: the rollback, which meets no
      error, passes through a state without either version. */
  lemma HalfRemovedOriginalLosesBoth(plan: RestorePlan, fs: FileTree, cleanup: Error) returns (lost: FileTree)
    requires Begun(plan, fs) && plan.destination in fs && fs[plan.destination].Whole? && plan.replace && plan.kind != Drill
    ensures lost in Execution(plan, LosingFaults(cleanup), fs).history && !Kept(plan, fs, lost)
  {
    var f := LosingFaults(cleanup);
    NeverLosesBothIff(plan, f, fs);
    assert LosesBoth(plan, f, fs);
    lost :| lost in Execution(plan, f, fs).history && !Kept(plan, fs, lost);
  }

  // ---- nothing else is touched ----

  /** The paths a restore may touch: a drill only its staging path. */
  function Touchable(plan: RestorePlan): set<Path> {
    if plan.kind == Drill then {plan.staging} else {plan.staging, plan.previous, plan.destination}
  }

  ghost predicate Spares(plan: RestorePlan, fs: FileTree, p: Progress) {
    p.fs - Touchable(plan) == fs - Touchable(plan) && forall s :: s in p.history ==> s - Touchable(plan) == fs - Touchable(plan)
  }

  lemma DoSpares(plan: RestorePlan, fs: FileTree, p: Progress, o: Outcome, after: FileTree)
    requires Spares(plan, fs, p) && after - Touchable(plan) == fs - Touchable(plan)
    ensures Spares(plan, fs, Do(p, o, after))
  {}

  lemma StagedSpares(plan: RestorePlan, f: Faults, fs: FileTree)
    ensures Spares(plan, fs, Staged(plan, f, fs))
    ensures var p := Staged(plan, f, fs); !p.committed && !p.previousMoved
  {
    var p0 := Progress(fs, [fs], false, false, false, None);
    var p1 := Do(p0, f.checkingSpace, p0.fs);
    DoSpares(plan, fs, p0, f.checkingSpace, p0.fs);
    var p2 := Do(p1, f.space, p1.fs);
    DoSpares(plan, fs, p1, f.space, p1.fs);
    var p3 := Do(p2, CancelledOutcome(f.cancelledBeforeCopy), p2.fs);
    DoSpares(plan, fs, p2, CancelledOutcome(f.cancelledBeforeCopy), p2.fs);
    var p4 := Do(p3, f.copying, p3.fs);
    DoSpares(plan, fs, p3, f.copying, p3.fs);
    DoSpares(plan, fs, p4, f.createRoot, RootCreated(p4.fs, plan, f.createRoot));
    var p := Prepared(plan, f, fs);
    if p.failure.None? {
      var q := p.(stagingCreated := true);
      DoSpares(plan, fs, q, f.copy, Copied(q.fs, plan, f.copy));
      var q2 := Do(q, f.copy, Copied(q.fs, plan, f.copy));
      DoSpares(plan, fs, q2, CancelledOutcome(f.cancelledAfterCopy), q2.fs);
    }
  }

  lemma CommitSpares(plan: RestorePlan, f: Faults, fs: FileTree, p: Progress)
    requires plan.kind != Drill && Spares(plan, fs, p)
    ensures Spares(plan, fs, Cleared(plan, f, p)) && Spares(plan, fs, Committed(plan, f, p))
  {
    var p1 := Do(p, f.existsDestination, p.fs);
    DoSpares(plan, fs, p, f.existsDestination, p.fs);
    DoSpares(plan, fs, p1, f.moveAway, MovedIf(p1.fs, plan.destination, plan.previous, f.moveAway));
    var q1 := Do(p, f.moveIn, MovedIf(p.fs, plan.staging, plan.destination, f.moveIn));
    DoSpares(plan, fs, p, f.moveIn, MovedIf(p.fs, plan.staging, plan.destination, f.moveIn));
    var q2 := q1.(stagingCreated := false, committed := true);
    DoSpares(plan, fs, q2, f.removePrevious, Removed(q2.fs, plan.previous, f.removePrevious));
  }

  lemma ForwardSpares(plan: RestorePlan, f: Faults, fs: FileTree)
    ensures Spares(plan, fs, Forward(plan, f, fs))
    ensures plan.kind == Drill ==> var p := Forward(plan, f, fs); !p.committed && !p.previousMoved
  {
    StagedSpares(plan, f, fs);
    var p := Staged(plan, f, fs);
    if plan.kind == Drill {
      DoSpares(plan, fs, p, f.removeDrill, Removed(p.fs, plan.staging, f.removeDrill));
    } else {
      CommitSpares(plan, f, fs, p);
      CommitSpares(plan, f, fs, Cleared(plan, f, p));
    }
  }

  lemma UndoPartSpares(plan: RestorePlan, fs: FileTree, p: Progress, needed: bool, probe: Outcome, path: Path, o: Outcome, after: FileTree)
    requires Spares(plan, fs, p) && (needed ==> after - Touchable(plan) == fs - Touchable(plan))
    ensures Spares(plan, fs, UndoPart(p, needed, probe, path, o, after))
  {
    if needed {
      DoSpares(plan, fs, p, probe, p.fs);
      DoSpares(plan, fs, Do(p, probe, p.fs), o, after);
    }
  }

  lemma UndoSpares(plan: RestorePlan, f: Faults, fs: FileTree, failed: Progress)
    requires Spares(plan, fs, failed) && (plan.kind == Drill ==> !failed.committed && !failed.previousMoved)
    ensures Spares(plan, fs, Rollback(plan, f, failed))
  {
    var p := failed.(failure := None);
    var removed := Removed(p.fs, plan.destination, f.undoRemoveDestination);
    UndoPartSpares(plan, fs, p, p.committed, f.undoExistsDestination, plan.destination, f.undoRemoveDestination, removed);
    var p1 := UndoPart(p, p.committed, f.undoExistsDestination, plan.destination, f.undoRemoveDestination, removed);
    var back := MovedIf(p1.fs, plan.previous, plan.destination, f.undoMoveBack);
    UndoPartSpares(plan, fs, p1, p.previousMoved, f.undoExistsPrevious, plan.previous, f.undoMoveBack, back);
    var p2 := UndoPart(p1, p.previousMoved, f.undoExistsPrevious, plan.previous, f.undoMoveBack, back);
    UndoPartSpares(plan, fs, p2, p.stagingCreated, f.undoExistsStaging, plan.staging, f.undoRemoveStaging,
                   Removed(p2.fs, plan.staging, f.undoRemoveStaging));
  }

  /** Every state the transaction passes through agrees with the first outside the destination and the two
      artifacts, and for a drill outside the staging path alone. */
  lemma SparesEverythingElse(plan: RestorePlan, f: Faults, fs: FileTree)
    ensures forall s :: s in Execution(plan, f, fs).history ==> s - Touchable(plan) == fs - Touchable(plan)
  {
    ForwardSpares(plan, f, fs);
    UndoSpares(plan, f, fs, Forward(plan, f, fs));
  }
}
