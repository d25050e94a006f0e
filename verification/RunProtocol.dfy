/** What a kept protocol means, said about the notes themselves. */
module RunProtocol {
  import opened RunLog

  function Preparations(log: seq<Note>): nat {
    if |log| == 0 then 0 else Preparations(log[..|log| - 1]) + (if log[|log| - 1].SessionPrepared? then 1 else 0)
  }

  function Closings(log: seq<Note>): nat {
    if |log| == 0 then 0 else Closings(log[..|log| - 1]) + (if log[|log| - 1].SessionClosed? then 1 else 0)
  }

  /** What every note keeps holds of every log. */
  lemma {:induction false} ByNotes(inv: (seq<Note>, Ledger) -> bool, log: seq<Note>)
    requires inv([], NOTHING) && forall pre, n, l :: inv(pre, l) ==> inv(pre + [n], Step(l, n))
    ensures inv(log, Replay(log))
  {
    if |log| > 0 {
      var front, last := log[..|log| - 1], log[|log| - 1];
      ByNotes(inv, front);
      assert log == front + [last];
    }
  }

  // ---- a protocol that is kept was kept all along ----

  ghost predicate KeptTo(pre: seq<Note>, l: Ledger, k: nat) {
    l == Replay(pre) && (k < |pre| && l.ok ==> Replay(pre[..k]).ok && Step(Replay(pre[..k]), pre[k]).ok)
  }

  lemma KeptAt(log: seq<Note>, k: nat)
    requires k < |log| && Replay(log).ok
    ensures Replay(log[..k]).ok && Step(Replay(log[..k]), log[k]).ok
  {
    var tie := (pre: seq<Note>, l: Ledger) => KeptTo(pre, l, k);
    forall pre, n, l | tie(pre, l) ensures tie(pre + [n], Step(l, n)) {
      KeptStep(pre, n, l, k);
    }
    ByNotes(tie, log);
  }

  lemma KeptStep(pre: seq<Note>, n: Note, l: Ledger, k: nat)
    requires KeptTo(pre, l, k)
    ensures KeptTo(pre + [n], Step(l, n), k)
  {
    var more := pre + [n];
    StepFacts(l, n);
    assert more[..|more| - 1] == pre;
    if k < |pre| {
      assert more[..k] == pre[..k];
    } else if k == |pre| {
      assert more[..k] == pre;
    }
  }

  lemma StepFacts(l: Ledger, n: Note)
    ensures Step(l, n).ok ==> l.ok
    ensures Step(l, n).sink == (n.SinkOpened? || (l.sink && !n.SinkReleased?))
    ensures Step(l, n).ok && n.SessionPrepared? ==> !l.session && Step(l, n).session
    ensures Step(l, n).ok && n.SessionClosed? ==> l.session && !Step(l, n).session
    ensures !n.SessionPrepared? && !n.SessionClosed? ==> Step(l, n).session == l.session
    ensures l.cancellationSeen || n.CancellationSeen? ==> Step(l, n).cancellationSeen
    ensures Step(l, n).terminals == [] ==> l.terminals == [] && !Ended(n)
  {}

  // ---- sessions ----

  ghost predicate Balanced(pre: seq<Note>, l: Ledger) {
    l.ok ==> Preparations(pre) == Closings(pre) + if l.session then 1 else 0
  }

  lemma SessionsBalance(log: seq<Note>)
    requires Replay(log).ok
    ensures Preparations(log) == Closings(log) + if Replay(log).session then 1 else 0
  {
    forall pre, n, l | Balanced(pre, l) ensures Balanced(pre + [n], Step(l, n)) {
      BalanceStep(pre, n, l);
    }
    ByNotes(Balanced, log);
  }

  lemma BalanceStep(pre: seq<Note>, n: Note, l: Ledger)
    requires Balanced(pre, l)
    ensures Balanced(pre + [n], Step(l, n))
  {
    StepFacts(l, n);
    assert (pre + [n])[..|pre|] == pre;
  }

  /** Every session prepared before the lease goes has been closed, once, before the lease goes. */
  lemma SessionsCloseBeforeLease(log: seq<Note>, k: nat)
    requires k < |log| && Replay(log).ok && log[k].LeaseReleased?
    ensures Preparations(log[..k]) == Closings(log[..k])
  {
    KeptAt(log, k);
    SessionsBalance(log[..k]);
  }

  // ---- the sink ----

  ghost predicate OpenSince(pre: seq<Note>, i: int) {
    0 <= i < |pre| && pre[i].SinkOpened? && forall j :: i < j < |pre| ==> !pre[j].SinkReleased?
  }

  ghost predicate SinkKnown(pre: seq<Note>, l: Ledger) {
    l.sink ==> exists i :: OpenSince(pre, i)
  }

  lemma SinkIsOpen(log: seq<Note>)
    requires Replay(log).sink
    ensures exists i :: OpenSince(log, i)
  {
    forall pre, n, l | SinkKnown(pre, l) ensures SinkKnown(pre + [n], Step(l, n)) {
      SinkStep(pre, n, l);
    }
    ByNotes(SinkKnown, log);
  }

  lemma SinkStep(pre: seq<Note>, n: Note, l: Ledger)
    requires SinkKnown(pre, l)
    ensures SinkKnown(pre + [n], Step(l, n))
  {
    StepFacts(l, n);
    if n.SinkOpened? {
      assert OpenSince(pre + [n], |pre|);
    } else if l.sink && !n.SinkReleased? {
      var i :| OpenSince(pre, i);
      assert OpenSince(pre + [n], i);
    }
  }

  /** An event is sent to a sink that was opened and not released since. */
  lemma EventsReachTheSink(log: seq<Note>, k: nat)
    requires k < |log| && Replay(log).ok && log[k].Sent?
    ensures exists i :: OpenSince(log[..k], i)
  {
    KeptAt(log, k);
    SinkIsOpen(log[..k]);
  }

  // ---- success ----

  ghost predicate Ended(n: Note) {
    n.Sent? && n.event.Terminal()
  }

  ghost predicate Observed(pre: seq<Note>, l: Ledger) {
    && (!l.cancellationSeen ==> CancellationSeen !in pre)
    && (l.terminals == [] ==> forall n :: n in pre ==> !Ended(n))
  }

  ghost predicate CleanAt(pre: seq<Note>, i: int) {
    0 <= i < |pre| && pre[i] == SessionClosed(true) && forall j :: i < j < |pre| ==> !pre[j].SessionClosed? && !pre[j].SessionPrepared?
  }

  ghost predicate CloseKnown(pre: seq<Note>, l: Ledger) {
    l.closedCleanly && !l.session ==> exists i :: CleanAt(pre, i)
  }

  lemma CleanClose(log: seq<Note>)
    ensures CloseKnown(log, Replay(log))
  {
    forall pre, n, l | CloseKnown(pre, l) ensures CloseKnown(pre + [n], Step(l, n)) {
      if n.SessionClosed? && n.clean {
        assert CleanAt(pre + [n], |pre|);
      } else if l.closedCleanly && !l.session && !n.SessionClosed? && !n.SessionPrepared? {
        var i :| CleanAt(pre, i);
        assert CleanAt(pre + [n], i);
      }
    }
    ByNotes(CloseKnown, log);
  }

  lemma NothingSeen(log: seq<Note>)
    ensures Observed(log, Replay(log))
  {
    forall pre, n, l | Observed(pre, l) ensures Observed(pre + [n], Step(l, n)) {
      StepFacts(l, n);
    }
    ByNotes(Observed, log);
  }

  /** Success is written after a clean close of the target, with no cancellation seen and no terminal event sent. */
  lemma SuccessIsJustified(log: seq<Note>, k: nat)
    requires k < |log| && Replay(log).ok && log[k].SuccessWritten?
    ensures CancellationSeen !in log[..k] && forall n :: n in log[..k] ==> !Ended(n)
    ensures exists i :: CleanAt(log[..k], i)
  {
    KeptAt(log, k);
    NothingSeen(log[..k]);
    CleanClose(log[..k]);
  }

  // ---- what the ledger's entries say about the notes ----

  /** A note of something that was done, or written down as done or skipped. */
  predicate Acts(n: Note) {
    n.Checkpointed? || n.SuccessWritten? || n.SkippedWritten? || (n.Sent? && n.event.ActionStarted?)
  }

  ghost predicate Told(pre: seq<Note>, l: Ledger) {
    && (l.acted <==> exists n :: n in pre && Acts(n))
    && (l.success.Some? <==> SuccessWritten in pre) && (l.skipped > 0 <==> SkippedWritten in pre)
    && (forall e :: e in l.terminals <==> Sent(e) in pre && e.Terminal())
    && (forall c :: c in l.checkpoints <==> Checkpointed(c) in pre)
  }

  lemma ToldStep(pre: seq<Note>, n: Note, l: Ledger)
    requires Told(pre, l)
    ensures Told(pre + [n], Step(l, n))
  {
    var more := pre + [n];
    assert forall m :: m in more <==> m in pre || m == n;
    if Acts(n) { assert n in more; }
  }

  /** The entries of the ledger are exactly what was noted: in a run that did not act no action was started or
      checkpointed and neither success nor a skipped run was written. */
  lemma EntriesAreNoted(log: seq<Note>)
    ensures Told(log, Replay(log))
  {
    forall pre, n, l | Told(pre, l) ensures Told(pre + [n], Step(l, n)) {
      ToldStep(pre, n, l);
    }
    ByNotes(Told, log);
  }
}
