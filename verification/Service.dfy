/** The resources of a run: its lease, its target session and its event sink, on every path through the service. */
module Service {
  import opened Core
  import opened RunLog
  import Executor
  import opened ExecutorEffect
  import RunProtocol

  datatype Attempt<T> = Value(value: T) | Threw(error: Error)

  /** The two flags that a failed preparation may change. */
  ghost predicate SameButFlags(l: Ledger, m: Ledger) {
    m == l.(closedCleanly := m.closedCleanly, cancellationSeen := m.cancellationSeen)
  }

  method Enter(ports: Ports, n: Note)
    requires ports.open == ports.log.ledger.sink
    modifies ports
    ensures ports.log.ledger == Step(old(ports.log.ledger), n) && ports.open == ports.log.ledger.sink
  {
    ghost var before := ports.log;
    ports.Record(n);
    Entered(before, ports.log, [n]);
    assert Fold(before.ledger, [n]) == Step(Fold(before.ledger, []), n);
  }

  method Tell(ports: Ports, e: Event) returns (o: Outcome)
    requires ports.open == ports.log.ledger.sink
    modifies ports
    ensures ports.log.ledger == Step(old(ports.log.ledger), Sent(e)) && ports.open == ports.log.ledger.sink
    ensures (ports.quiet ==> o.Returned?) && (ports.standard ==> o != Thrown(ForeignError))
  {
    ghost var before := ports.log;
    o := ports.Send(e);
    Entered(before, ports.log, [Sent(e)]);
    assert Fold(before.ledger, [Sent(e)]) == Step(Fold(before.ledger, []), Sent(e));
  }

  method CancellationRequested(ports: Ports) returns (c: bool)
    requires ports.open == ports.log.ledger.sink
    modifies ports
    ensures ports.log.ledger == (if c then old(ports.log.ledger).(cancellationSeen := true) else old(ports.log.ledger))
    ensures ports.open == ports.log.ledger.sink
  {
    c := *;
    if c { Enter(ports, CancellationSeen); }
  }

  // ---- preflight ----

  method CloseSession(ports: Ports) returns (clean: bool)
    requires ports.open == ports.log.ledger.sink
    modifies ports
    ensures ports.log.ledger == Step(old(ports.log.ledger), SessionClosed(clean)) && ports.open == ports.log.ledger.sink
  {
    clean := *;
    Enter(ports, SessionClosed(clean));
  }

  /** What may throw between the session's preparation and its hand-over. */
  method InspectMounts(ports: Ports) returns (o: Outcome)
    requires ports.open == ports.log.ledger.sink
    modifies ports
    ensures ports.open == ports.log.ledger.sink && (ports.standard ==> o != Thrown(ForeignError))
    ensures ports.log.ledger == old(ports.log.ledger).(cancellationSeen := ports.log.ledger.cancellationSeen)
    ensures o.Returned? ==> ports.log.ledger == old(ports.log.ledger)
  {
    var cancelled := CancellationRequested(ports);
    if cancelled { return Thrown(OperationCancelled); }
    o := ports.Call();
    if o.Thrown? { return; }
    cancelled := CancellationRequested(ports);
    if cancelled { return Thrown(OperationCancelled); }
  }

  /** A session that is not handed over is closed here, whatever was thrown. */
  method Preflight(ports: Ports) returns (o: Outcome)
    requires ports.open == ports.log.ledger.sink && ports.log.ledger.ok && ports.log.ledger.lease && !ports.log.ledger.session
    modifies ports
    ensures ports.open == ports.log.ledger.sink && (ports.standard ==> o != Thrown(ForeignError))
    ensures o.Returned? ==> ports.log.ledger == old(ports.log.ledger).(session := true)
    ensures o.Thrown? ==> SameButFlags(old(ports.log.ledger), ports.log.ledger)
    ensures o.Thrown? && old(ports.log.ledger.closedCleanly) && !ports.log.ledger.closedCleanly ==> o.error == BackupError
  {
    var cancelled := CancellationRequested(ports);
    if cancelled { return Thrown(OperationCancelled); }
    o := ports.Call();
    if o.Thrown? { return; }
    Enter(ports, SessionPrepared);
    o := InspectMounts(ports);
    if o.Thrown? {
      var clean := CloseSession(ports);
      if !clean { o := Thrown(BackupError); }
    }
  }

  // ---- the context ----

  class RunExecutionContext {
    const ports: Ports
    var closed: bool
    var targetCloseAttempted: bool
    var targetCloseError: bool
    var targetSession: bool
    var events: bool
    var lease: bool

    /** The context holds what the notes say is held. */
    ghost predicate Valid()
      reads this, ports
    {
      && ports.open == ports.log.ledger.sink && ports.log.ledger.ok
      && lease == ports.log.ledger.lease && targetSession == ports.log.ledger.session
      && (events ==> ports.log.ledger.sink) && (targetSession ==> lease && !targetCloseAttempted)
      && (closed ==> !lease && !targetSession && !events)
      && (!targetCloseAttempted ==> !targetCloseError)
    }

    constructor (ports: Ports)
      requires ports.open == ports.log.ledger.sink && ports.log.ledger.ok && ports.log.ledger.lease && !ports.log.ledger.session
      ensures Valid() && this.ports == ports && !closed && !targetCloseAttempted && !events
    {
      this.ports := ports;
      closed := false;
      targetCloseAttempted := false;
      targetCloseError := false;
      targetSession := false;
      events := false;
      lease := true;
    }

    method AttachEventSink()
      requires Valid() && !closed && ports.log.ledger.sink
      modifies this`events
      ensures Valid() && events
    {
      events := true;
    }

    /** Takes over the session that preflight has prepared. */
    method AttachVerifiedTarget()
      requires ports.open == ports.log.ledger.sink && ports.log.ledger.ok && ports.log.ledger.lease && ports.log.ledger.session
      requires lease && !closed && !targetCloseAttempted && !targetCloseError && (events ==> ports.log.ledger.sink)
      modifies this`targetSession
      ensures Valid() && targetSession
    {
      targetSession := true;
    }

    method CloseTargetSession() returns (error: bool)
      requires Valid()
      modifies this`targetCloseAttempted, this`targetCloseError, this`targetSession, ports
      ensures Valid() && targetCloseAttempted && !targetSession && error == targetCloseError
      ensures old(targetSession) ==>
        ports.log.ledger == old(ports.log.ledger).(session := false, closedCleanly := !error)
      ensures !old(targetSession) ==> ports.log.ledger == old(ports.log.ledger) && error == old(targetCloseError)
    {
      if targetCloseAttempted { return targetCloseError; }
      targetCloseAttempted := true;
      if targetSession {
        var clean := CloseSession(ports);
        targetCloseError := !clean;
        targetSession := false;
      }
      error := targetCloseError;
    }

    /** The sink goes first, the lease last. What the other steps throw is only recorded. */
    method Close()
      requires Valid()
      modifies this, ports
      ensures Valid() && closed
      ensures old(closed) ==> ports.log.ledger == old(ports.log.ledger)
      ensures !old(closed) ==> ports.log.ledger == old(ports.log.ledger).(
        sink := old(ports.log.ledger).sink && !old(events), lease := false, session := false,
        closedCleanly := ports.log.ledger.closedCleanly)
      ensures !old(targetSession) ==> ports.log.ledger.closedCleanly == old(ports.log.ledger).closedCleanly
    {
      if closed { return; }
      if events {
        Enter(ports, SinkReleased);
        events := false;
      }
      var error := CloseTargetSession();
      if lease {
        Enter(ports, LeaseReleased);
        lease := false;
      }
      closed := true;
    }
  }

  // ---- the service ----

  type Plan = Executor.Plan

  datatype Request = Request(validateOnly: bool, force: bool, dailyLimit: bool)

  datatype Warning = TargetStorage | SuccessLedger | TerminalStatus

  datatype Result =
    | Validated(plan: Plan)
    | Skipped(plan: Plan)
    | Completed(plan: Plan, actionsCompleted: nat, warnings: set<Warning>)
    | Cancelled(actionsCompleted: nat)
    | Failed(actionsCompleted: nat)
    | Busy

  /** An exception left the ledger's entries and the sink as they were. */
  ghost predicate Unsettled(l: Ledger, m: Ledger, quiet: bool) {
    && m.ok && m.sink == l.sink && m.success == l.success && m.skipped == l.skipped && m.checkpoints == l.checkpoints
    && m.acted == l.acted
    && (quiet ==> m.terminals == l.terminals)
  }

  /** A context that can still be used: nothing is released yet. */
  ghost predicate Usable(ctx: RunExecutionContext)
    reads ctx, ctx.ports
  {
    ctx.Valid() && !ctx.closed && ctx.lease && ctx.events
  }

  method PrepareTargetAndPlan(ctx: RunExecutionContext) returns (o: Attempt<Plan>)
    requires Usable(ctx) && !ctx.targetSession && !ctx.targetCloseAttempted
    modifies ctx, ctx.ports
    ensures Usable(ctx) && (ctx.ports.standard ==> o != Threw(ForeignError))
    ensures o.Value? ==> ctx.targetSession && ctx.ports.log.ledger == old(ctx.ports.log.ledger).(session := true)
    ensures o.Threw? ==> Unsettled(old(ctx.ports.log.ledger), ctx.ports.log.ledger, ctx.ports.quiet)
  {
    var ports := ctx.ports;
    var p := Preflight(ports);
    if p.Thrown? { return Threw(p.error); }
    ctx.AttachVerifiedTarget();
    var cancelled := CancellationRequested(ports);
    if cancelled { return Threw(OperationCancelled); }
    p := ports.Call();
    if p.Thrown? { return Threw(p.error); }
    var plan: Plan := *;
    p := ports.Call();
    if p.Thrown? { return Threw(p.error); }
    cancelled := CancellationRequested(ports);
    if cancelled { return Threw(OperationCancelled); }
    return Value(plan);
  }

  /** Closes the target before anything is reported. None means that it closed cleanly and nothing was cancelled. */
  method FinishTarget(ctx: RunExecutionContext, n: nat) returns (o: Attempt<Option<Result>>)
    requires Usable(ctx) && ctx.targetSession
    modifies ctx, ctx.ports
    ensures ctx.Valid() && (ctx.ports.standard ==> o != Threw(ForeignError))
    ensures o == Value(None) ==>
      Usable(ctx) && ctx.ports.log.ledger == old(ctx.ports.log.ledger).(session := false, closedCleanly := true)
    ensures o.Value? && o.value.Some? ==>
      o.value == Some(Failed(n)) && ctx.closed && FailedLedger(old(ctx.ports.log.ledger), ctx.ports.log.ledger)
    ensures o.Threw? ==> Usable(ctx) && !ctx.targetSession && Unsettled(old(ctx.ports.log.ledger), ctx.ports.log.ledger, ctx.ports.quiet)
  {
    var ports := ctx.ports;
    var error := ctx.CloseTargetSession();
    if error {
      var told := Tell(ports, RunFailed);
      if told.Thrown? { return Threw(told.error); }
      ctx.Close();
      return Value(Some(Failed(n)));
    }
    var cancelled := CancellationRequested(ports);
    if cancelled { return Threw(OperationCancelled); }
    return Value(None);
  }

  /** The run has failed, the sink was told and the context is closed. */
  ghost predicate FailedLedger(l: Ledger, m: Ledger) {
    && m.ok && !m.sink && m.success == l.success && m.skipped == l.skipped && m.checkpoints == l.checkpoints
    && m.acted == l.acted && m.terminals == l.terminals + [RunFailed]
  }

  /** What a result says about the terminal events and the ledger's entries. */
  ghost predicate Accounted(l: Ledger, quiet: bool, clock: Outcome, r: Result) {
    && l.ok && (quiet ==> IsTold(r, l.terminals))
    && (r.Skipped? ==> l.skipped == 1) && (r.Validated? || r.Completed? || r.Busy? ==> l.skipped == 0)
    && (l.success.Some? ==> r.Completed? && l.success.value == Executor.Flat(r.plan, |r.plan|))
    && (r.Validated? || r.Skipped? || r.Completed? ==> l.closedCleanly && !l.session && !l.cancellationSeen)
    && IsCounted(l, quiet, clock, r)
  }

  /** What a result says about the actions: all of a completed run are checkpointed, it has written success exactly
      when the clock has answered, and has told the sink unless it carries a warning. A failure that is not the
      executor's own counts none. */
  ghost predicate IsCounted(l: Ledger, quiet: bool, clock: Outcome, r: Result) {
    match r
    case Completed(plan, n, warnings) =>
      && l.checkpoints == Executor.Flat(plan, |plan|) && n == |l.checkpoints|
      && (l.success.Some? <==> clock.Returned?) && (clock.Thrown? ==> SuccessLedger in warnings)
      && (TerminalStatus !in warnings ==> l.terminals == [RunCompleted]) && (quiet ==> TerminalStatus !in warnings)
    case Failed(n) => n == 0 || n == |l.checkpoints|
    case Cancelled(n) => n == 0 || n == |l.checkpoints|
    case Skipped(_) => l.checkpoints == []
    case Validated(_) => !l.acted
    case Busy => !l.acted
  }

  /** A run that need not be done again today. */
  predicate IsDone(q: Request, succeededToday: bool) {
    !q.force && q.dailyLimit && succeededToday
  }

  /** What was asked for is what was done: a validation starts no action and writes nothing, a run is skipped only
      when the daily limit is reached and then is not executed, and nothing is only validated unasked. */
  ghost predicate Honours(q: Request, succeededToday: bool, l: Ledger, o: Attempt<Result>) {
    && (q.validateOnly ==> !l.acted)
    && (l.skipped > 0 ==> !q.validateOnly && IsDone(q, succeededToday))
    && (l.checkpoints != [] || l.success.Some? ==> !q.validateOnly && !IsDone(q, succeededToday))
    && (o.Value? && o.value.Validated? ==> q.validateOnly)
    && (o.Value? && o.value.Skipped? ==> !q.validateOnly && IsDone(q, succeededToday))
    && (o.Value? && o.value.Completed? ==> !q.validateOnly && !IsDone(q, succeededToday))
  }

  /** The one terminal event of a result; a skipped run has none. */
  ghost predicate IsTold(r: Result, terminals: seq<Event>) {
    match r
    case Validated(_) => terminals == [TargetValidationCompleted]
    case Skipped(_) => terminals == []
    case Completed(_, _, _) => terminals == [RunCompleted]
    case Cancelled(_) => |terminals| == 1 && terminals[0].RunCancelled?
    case Failed(_) => terminals == [RunFailed]
    case Busy => terminals == [RunFailed]
  }

  /** A run that has prepared its target and reported nothing yet. */
  ghost predicate Prepared(ctx: RunExecutionContext)
    reads ctx, ctx.ports
  {
    var l := ctx.ports.log.ledger;
    Usable(ctx) && ctx.targetSession && Fresh(l)
  }

  ghost predicate Fresh(l: Ledger) {
    l.terminals == [] && l.checkpoints == [] && l.skipped == 0 && l.success.None? && !l.cancellationSeen && !l.acted
  }

  /** How one stage of a run ends: with a result that is accounted for, or with an exception and nothing told. */
  ghost predicate StageEnds(ctx: RunExecutionContext, o: Attempt<Result>)
    reads ctx, ctx.ports
  {
    && ctx.Valid() && (if ctx.closed then !ctx.ports.log.ledger.sink else ctx.events)
    && match o
       case Value(r) => Accounted(ctx.ports.log.ledger, ctx.ports.quiet, ctx.ports.world.clock, r)
       case Threw(e) => Usable(ctx) && Untold(ctx.ports.log.ledger, ctx.ports.quiet) && (ctx.ports.standard ==> e != ForeignError)
  }

  ghost predicate Untold(l: Ledger, quiet: bool) {
    l.ok && l.success.None? && (quiet ==> l.terminals == [])
  }

  ghost predicate WritesNothing(l: Ledger) {
    !l.acted && l.skipped == 0 && l.checkpoints == [] && l.success.None?
  }

  method FinishValidation(ctx: RunExecutionContext, plan: Plan) returns (o: Attempt<Result>)
    requires Prepared(ctx)
    modifies ctx, ctx.ports
    ensures StageEnds(ctx, o) && WritesNothing(ctx.ports.log.ledger)
    ensures o.Value? ==> o.value == Validated(plan) || o.value.Failed?
  {
    var finished := FinishTarget(ctx, 0);
    if finished.Threw? { return Threw(finished.error); }
    if finished.value.Some? { return Value(finished.value.value); }
    var told := Tell(ctx.ports, TargetValidationCompleted);
    if told.Thrown? { return Threw(told.error); }
    return Value(Validated(plan));
  }

  method Skip(ctx: RunExecutionContext, plan: Plan) returns (o: Attempt<Result>)
    requires Prepared(ctx)
    modifies ctx, ctx.ports
    ensures StageEnds(ctx, o) && ctx.ports.log.ledger.checkpoints == [] && ctx.ports.log.ledger.success.None?
    ensures o.Value? ==> o.value == Skipped(plan) || o.value.Failed?
  {
    var finished := FinishTarget(ctx, 0);
    if finished.Threw? { return Threw(finished.error); }
    if finished.value.Some? { return Value(finished.value.value); }
    var now := ctx.ports.Call();
    if now.Thrown? { return Threw(now.error); }
    Enter(ctx.ports, SkippedWritten);
    var written := ctx.ports.Call();
    if written.Thrown? { return Threw(written.error); }
    return Value(Skipped(plan));
  }

  /** Writing success asks the clock first; either may throw, and then there is a warning. */
  method RecordSuccess(ports: Ports) returns (warned: bool)
    requires ports.open == ports.log.ledger.sink
    modifies ports
    ensures ports.open == ports.log.ledger.sink
    ensures ports.log.ledger ==
            if ports.world.clock.Returned? then Step(old(ports.log.ledger), SuccessWritten) else old(ports.log.ledger)
    ensures (ports.world.clock.Thrown? ==> warned) && (ports.world.clock.Returned? && ports.reliable ==> !warned)
  {
    var now := ports.world.clock;
    if now.Thrown? { return true; }
    Enter(ports, SuccessWritten);
    var written := ports.Call();
    return written.Thrown?;
  }

  /** What the two reports throw becomes a warning. */
  method Conclude(ctx: RunExecutionContext, plan: Plan, n: nat, recorded: set<Warning>) returns (r: Result)
    requires Usable(ctx) && !ctx.targetSession && SuccessLedger !in recorded && TerminalStatus !in recorded
    requires ctx.ports.log.ledger.closedCleanly && Fresh(ctx.ports.log.ledger.(checkpoints := [], acted := false))
    requires ctx.ports.log.ledger.checkpoints == Executor.Flat(plan, |plan|) && n == |ctx.ports.log.ledger.checkpoints|
    modifies ctx, ctx.ports
    ensures ctx.Valid() && ctx.closed && !ctx.ports.log.ledger.sink && r.Completed? && ctx.ports.log.ledger.skipped == 0
    ensures Accounted(ctx.ports.log.ledger, ctx.ports.quiet, ctx.ports.world.clock, r)
  {
    var warnings := recorded;
    var warned := RecordSuccess(ctx.ports);
    if warned { warnings := warnings + {SuccessLedger}; }
    var told := Tell(ctx.ports, RunCompleted);
    if told.Thrown? { warnings := warnings + {TerminalStatus}; }
    ctx.Close();
    r := Completed(plan, n, warnings);
  }

  /** Success and completion are reported after the target is closed. */
  method ReportCompletion(ctx: RunExecutionContext, plan: Plan, n: nat) returns (o: Attempt<Result>)
    requires Usable(ctx) && ctx.targetSession
    requires Fresh(ctx.ports.log.ledger.(checkpoints := [], acted := false))
    requires ctx.ports.log.ledger.checkpoints == Executor.Flat(plan, |plan|) && n == |ctx.ports.log.ledger.checkpoints|
    modifies ctx, ctx.ports
    ensures StageEnds(ctx, o) && ctx.ports.log.ledger.skipped == 0
    ensures o.Value? ==> o.value.Completed? || o.value.Failed?
  {
    var recorded: bool := *;
    var warnings: set<Warning> := if recorded then {} else {TargetStorage};
    var finished := FinishTarget(ctx, n);
    if finished.Threw? { return Threw(finished.error); }
    if finished.value.Some? { return Value(finished.value.value); }
    var r := Conclude(ctx, plan, n, warnings);
    return Value(r);
  }

  /** The factory builds the action handlers, which may throw, and then runs the plan. */
  method ExecutePlan(ctx: RunExecutionContext, plan: Plan) returns (o: Attempt<Result>)
    requires Prepared(ctx)
    modifies ctx, ctx.ports
    ensures StageEnds(ctx, o) && ctx.ports.log.ledger.skipped == 0
    ensures o.Value? ==> o.value.Completed? || o.value.Failed? || o.value.Cancelled?
  {
    var ports := ctx.ports;
    var handlers := ports.Call();
    if handlers.Thrown? { return Threw(handlers.error); }
    ghost var before := ports.log;
    var x;
    ghost var p, tail, end;
    x, p, tail, end := Executor.Execute(ports, plan);
    EffectOfExecution(before, ports.log, end);
    match x
    case Raised(e) =>
      o := Threw(e);
    case Finished(Completed(n)) =>
      o := ReportCompletion(ctx, plan, n);
    case Finished(Failed(n)) =>
      ctx.Close();
      o := Value(Failed(n));
    case Finished(Cancelled(n)) =>
      ctx.Close();
      o := Value(Cancelled(n));
  }

  /** Everything between the lease and the result. */
  method RunUnderLease(ctx: RunExecutionContext, request: Request) returns (o: Attempt<Result>)
    requires Usable(ctx) && !ctx.targetSession && !ctx.targetCloseAttempted && Fresh(ctx.ports.log.ledger)
    modifies ctx, ctx.ports
    ensures StageEnds(ctx, o) && Honours(request, ctx.ports.world.succeededToday, ctx.ports.log.ledger, o)
    ensures o.Value? ==> !o.value.Busy?
  {
    var ports := ctx.ports;
    var started := Tell(ports, RunStarted);
    if started.Thrown? { return Threw(started.error); }
    var prepared := PrepareTargetAndPlan(ctx);
    if prepared.Threw? { return Threw(prepared.error); }
    var plan := prepared.value;
    if request.validateOnly {
      o := FinishValidation(ctx, plan);
      return;
    }
    var today := ports.Call();
    if today.Thrown? { return Threw(today.error); }
    if !request.force && request.dailyLimit {
      var asked := ports.Call();
      if asked.Thrown? { return Threw(asked.error); }
      if ports.world.succeededToday {
        o := Skip(ctx, plan);
        return;
      }
    }
    o := ExecutePlan(ctx, plan);
  }

  /** A run whose sink is open and that holds nothing else. */
  ghost predicate Opened(ports: Ports)
    reads ports
  {
    var l := ports.log.ledger;
    ports.open && l.ok && l.sink && !l.lease && !l.session && Fresh(l)
  }

  /** The try block. Without a context the sink is still the caller's, and the lease is gone. */
  method TryStart(ports: Ports, request: Request) returns (o: Attempt<Result>, ctx: RunExecutionContext?)
    requires Opened(ports)
    modifies ports
    ensures ctx != null ==> fresh(ctx) && ctx.ports == ports && StageEnds(ctx, o)
    ensures ctx == null ==> BeforeContext(ports, o)
    ensures ports.world.busy ==> ctx == null && (ports.reliable && ports.quiet ==> o == Value(Busy))
    ensures !ports.world.busy && o.Value? ==> ctx != null && !o.value.Busy?
    ensures Honours(request, ports.world.succeededToday, ports.log.ledger, o)
  {
    ctx := null;
    var asked := ports.Call();
    if asked.Thrown? { return Threw(asked.error), ctx; }
    if ports.world.busy {
      var told := Tell(ports, RunFailed);
      if told.Thrown? { return Threw(told.error), ctx; }
      return Value(Busy), ctx;
    }
    Enter(ports, LeaseAcquired);
    var created := ports.Call();
    if created.Thrown? {
      // the half-built context gives up the lease
      Enter(ports, LeaseReleased);
      return Threw(created.error), ctx;
    }
    var context := new RunExecutionContext(ports);
    context.AttachEventSink();
    ctx := context;
    o := RunUnderLease(context, request);
  }

  ghost predicate BeforeContext(ports: Ports, o: Attempt<Result>)
    reads ports
  {
    var l := ports.log.ledger;
    && ports.open && l.sink && !l.lease && !l.session && !l.acted
    && match o
       case Value(r) => r.Busy? && Accounted(l, ports.quiet, ports.world.clock, r)
       case Threw(e) => Untold(l, ports.quiet) && (ports.standard ==> e != ForeignError)
  }

  /** The handlers. Nothing is released yet. */
  method HandleFailure(ports: Ports, error: Error) returns (o: Attempt<Result>)
    requires ports.open && ports.log.ledger.sink && Untold(ports.log.ledger, ports.quiet)
    modifies ports
    ensures ports.open && ports.log.ledger == old(ports.log.ledger).(terminals := ports.log.ledger.terminals)
    ensures o.Value? ==> Accounted(ports.log.ledger, ports.quiet, ports.world.clock, o.value)
    ensures o.Value? ==> (error.OperationCancelled? && o.value == Cancelled(0)) || (error.BackupError? && o.value == Failed(0))
    ensures o.Threw? && ports.quiet && error != ForeignError ==> ports.log.ledger.terminals == [RunFailed]
  {
    match error
    case OperationCancelled =>
      var told := Tell(ports, RunCancelled(None, 0, None));
      o := if told.Thrown? then Threw(told.error) else Value(Cancelled(0));
    case BackupError =>
      var told := Tell(ports, RunFailed);
      o := if told.Thrown? then Threw(told.error) else Value(Failed(0));
    case StandardError =>
      var told := Tell(ports, RunFailed);
      o := Threw(if told.Thrown? then told.error else StandardError);
    case ForeignError =>
      o := Threw(ForeignError);
  }

  /**
   * Every path: the session is closed once and before the lease, no event follows the sink's release, and nothing is
   * held at the end. With a quiet sink and standard errors there is one terminal event, or none when the run is skipped.
   * Success is written only for a plan that was checkpointed as a whole.
   */
  method StartLoadedProfile(ports: Ports, request: Request) returns (o: Attempt<Result>)
    requires Opened(ports)
    modifies ports
    ensures IsReleased(ports.log.ledger) && !ports.open
    ensures o.Value? ==> Accounted(ports.log.ledger, ports.quiet, ports.world.clock, o.value)
    ensures Honours(request, ports.world.succeededToday, ports.log.ledger, o)
    ensures o.Threw? ==> ports.log.ledger.success.None?
    ensures o.Threw? && ports.quiet && ports.standard ==> ports.log.ledger.terminals == [RunFailed]
    ensures request.validateOnly || ports.world.busy ==> forall n :: n in ports.log.notes ==> !RunProtocol.Acts(n)
    ensures ports.reliable && ports.quiet ==> (ports.world.busy <==> o == Value(Busy))
  {
    var ctx;
    o, ctx := TryStart(ports, request);
    if o.Threw? {
      o := HandleFailure(ports, o.error);
    }
    if ctx != null {
      ctx.Close();
    } else {
      Enter(ports, SinkReleased);
    }
    RunProtocol.EntriesAreNoted(ports.log.notes);
  }

  /** The protocol was kept and nothing is held any more. */
  ghost predicate IsReleased(l: Ledger) {
    l.ok && !l.sink && !l.lease && !l.session
  }

  /** A profile that cannot be loaded is reported to a sink of its own. */
  method Start(ports: Ports, request: Request) returns (o: Attempt<Result>)
    requires !ports.open && ports.log.ledger == NOTHING
    modifies ports
    ensures IsReleased(ports.log.ledger)
    ensures o.Value? ==> Accounted(ports.log.ledger, ports.quiet, ports.world.clock, o.value)
    ensures Honours(request, ports.world.succeededToday, ports.log.ledger, o)
    ensures o.Threw? ==> ports.log.ledger.success.None?
    ensures o.Threw? && ports.quiet && ports.standard ==>
      ports.log.ledger == NOTHING || ports.log.ledger.terminals == [RunFailed]
    ensures request.validateOnly || ports.world.profile.Thrown? ==> forall n :: n in ports.log.notes ==> !RunProtocol.Acts(n)
    ensures ports.world.profile.Thrown? && o.Value? ==> o.value == Failed(0)
    ensures ports.reliable && ports.quiet && ports.world.profile.Thrown? ==>
      var e := ports.world.profile.error;
      if e.OperationCancelled? || e.BackupError? then o == Value(Failed(0)) && ports.log.ledger.terminals == [RunFailed]
      else o == Threw(e) && ports.log.ledger == NOTHING
  {
    RunProtocol.EntriesAreNoted(ports.log.notes);
    var identified := ports.Call();
    if identified.Thrown? { return Threw(identified.error); }
    var loaded := ports.world.profile;
    if loaded.Thrown? && !(loaded.error.OperationCancelled? || loaded.error.BackupError?) { return Threw(loaded.error); }
    var created := ports.Call();
    if created.Thrown? { return Threw(created.error); }
    Enter(ports, SinkOpened);
    if loaded.Thrown? {
      var told := Tell(ports, RunFailed);
      Enter(ports, SinkReleased);
      RunProtocol.EntriesAreNoted(ports.log.notes);
      return if told.Thrown? then Threw(told.error) else Value(Failed(0));
    }
    o := StartLoadedProfile(ports, request);
    RunProtocol.EntriesAreNoted(ports.log.notes);
  }

  /** Planning alone: the session is closed on success and on failure, then the lease goes. */
  method PlanOnly(ports: Ports) returns (o: Attempt<Plan>)
    requires !ports.open && ports.log.ledger == NOTHING
    modifies ports
    ensures IsReleased(ports.log.ledger) && SameButFlags(NOTHING, ports.log.ledger)
    ensures o.Value? ==> ports.log.ledger.closedCleanly && ports.world.profile.Returned? && !ports.world.busy
  {
    var loaded := ports.world.profile;
    if loaded.Thrown? { return Threw(loaded.error); }
    var asked := ports.Call();
    if asked.Thrown? { return Threw(asked.error); }
    if ports.world.busy { return Threw(BackupError); }
    Enter(ports, LeaseAcquired);
    o := PlanUnderLease(ports);
    Enter(ports, LeaseReleased);
  }

  method PlanUnderLease(ports: Ports) returns (o: Attempt<Plan>)
    requires !ports.open && ports.log.ledger == NOTHING.(lease := true)
    modifies ports
    ensures !ports.open && SameButFlags(old(ports.log.ledger), ports.log.ledger)
    ensures o.Value? ==> ports.log.ledger.closedCleanly
  {
    var ready := Preflight(ports);
    if ready.Thrown? { return Threw(ready.error); }
    var discovered := ports.Call();
    var built := if discovered.Thrown? then discovered else Returned;
    if built.Returned? { built := ports.Call(); }
    var clean := CloseSession(ports);
    if built.Thrown? { return Threw(if clean then built.error else BackupError); }
    if !clean { return Threw(BackupError); }
    var plan: Plan := *;
    return Value(plan);
  }
}
