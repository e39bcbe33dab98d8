/** The promises of the termination protocol, over every run of any number of daemons. */
module TerminationTheorems {
  import opened Options
  import opened TaskRow
  import opened TerminationProtocol
  import opened TerminationProofs

  lemma StepKeepsInvariant(w: World, a: Action)
    requires Inv(w) && Enabled(w, a)
    ensures Inv(Apply(w, a))
  {
    StepKeepsRow(w, a);
    StepKeepsCalls(w, a);
    StepKeepsOperations(w, a);
    StepKeepsBudget(w, a);
    StepKeepsPermits(w, a);
  }

  lemma {:induction false} RunKeepsInvariant(w: World, run: seq<Action>)
    requires Inv(w) && CanRun(w, run)
    ensures Inv(Run(w, run))
    decreases |run|
  {
    if run != [] {
      StepKeepsInvariant(w, run[0]);
      RunKeepsInvariant(Apply(w, run[0]), run[1..]);
    }
  }

  /** A world some run of the protocol ends in. */
  ghost predicate Reachable(w: World) {
    exists w0: World, run: seq<Action> :: Initial(w0) && CanRun(w0, run) && Run(w0, run) == w
  }

  lemma ReachableKeepsInvariant(w: World)
    requires Reachable(w)
    ensures Inv(w)
  {
    var w0: World, run: seq<Action> :| Initial(w0) && CanRun(w0, run) && Run(w0, run) == w;
    RunKeepsInvariant(w0, run);
  }

  /**
   * A Task settles as verified absent only when neither the executor nor a server it
   * started is left, and is force-failed only for a revision that was guarded before.
   */
  lemma TerminationIsProved(w: World)
    requires Reachable(w)
    ensures Terminal(w.row.status) <==> w.ledger.ending.Some?
    ensures w.ledger.ending == Some(VerifiedAbsent) ==> Gone(w)
    ensures w.ledger.ending.Some? && w.ledger.ending.value.ForcedUnverified? ==>
      w.ledger.ending.value.revision in w.ledger.guarded
  {
    ReachableKeepsInvariant(w);
  }

  /**
   * Force-fail is not the only unproved way out: a single-daemon boot releases any executing
   * Task, guarded or not, and leaves whatever is alive alive. The two ways differ exactly in
   * the guard: a force-fail moves the row if and only if this very request is guarded.
   */
  lemma UnprovedWaysOut(w: World, at: int, expected: Option<nat>)
    requires Reachable(w) && !Terminal(w.row.status) && w.row.status != Queued && w.facts.singleDaemon
    ensures var w' := Apply(w, RestartRelease);
      && w'.ledger.ending == Some(RestartReleased) && w'.facts == w.facts
      && w'.row == w.row.(status := Stopped, lease := None, unverifiedMark := false,
                          failure := Some(Failure(w.row.failure.None? || w.row.failure.value.synthetic, Unverified)))
    ensures Apply(w, ForceFail(at, expected)).row != w.row <==>
      && w.row.status == Stopping && Guarded(w.row) && w.row.request.Some?
      && w.row.request.value.requestedAt == at
      && CurrentRevision(w.row.request.value) ==
         (if expected.Some? then Retried(expected.value) else Original(at))
    ensures Apply(w, ForceFail(at, expected)).row != w.row ==>
      Apply(w, ForceFail(at, expected)).row == w.row.(status := Failed, lease := None, unverifiedMark := false)
  {
    ReachableKeepsInvariant(w);
    ForceFailMoves(w, at, expected);
    RestartReleases(w);
  }

  lemma ForceFailMoves(w: World, at: int, expected: Option<nat>)
    requires RowOk(w.row) && !Terminal(w.row.status)
    ensures var w' := ForceFailStep(w, at, expected);
      && (w'.row != w.row <==>
            && w.row.status == Stopping && Guarded(w.row) && w.row.request.Some?
            && w.row.request.value.requestedAt == at
            && CurrentRevision(w.row.request.value) ==
               (if expected.Some? then Retried(expected.value) else Original(at)))
      && (w'.row != w.row ==> w'.row == w.row.(status := Failed, lease := None, unverifiedMark := false))
  {
  }

  lemma RestartReleases(w: World)
    requires !Terminal(w.row.status)
    ensures var w' := RestartReleaseStep(w);
      && w'.ledger.ending == Some(RestartReleased) && w'.facts == w.facts
      && w'.row == w.row.(status := Stopped, lease := None, unverifiedMark := false,
                          failure := Some(Failure(w.row.failure.None? || w.row.failure.value.synthetic, Unverified)))
  {
  }

  /**
   * A Task that is over while something it ran is alive was force-failed under the guard of that
   * revision, released by a single-daemon boot, or ended without ever having been asked to stop: by its
   * own connected executor, or by a daemon's plain update (a complete or fail request, a failed spawn).
   */
  lemma UnprovedEndings(w: World)
    requires Reachable(w) && Terminal(w.row.status) && !Gone(w)
    ensures w.ledger.ending.Some?
    ensures match w.ledger.ending.value
      case VerifiedAbsent => false
      case ForcedUnverified(revision) => revision in w.ledger.guarded
      case RestartReleased => w.facts.singleDaemon
      case ExecutorReported => w.row.connected && w.row.request.None?
      case EndedByDaemon => w.row.request.None?
  {
    ReachableKeepsInvariant(w);
  }

  /** No reachable row hides a remote executor's sufficient acknowledgement under the guard. */
  lemma AcknowledgementIsNeverBuried(w: World)
    requires Reachable(w) && AcknowledgementSuffices(w)
    ensures w.row.status == Stopping && Quiesced(w.row) ==> !Guarded(w.row)
  {
    ReachableKeepsInvariant(w);
  }

  /**
   * An owner that judged too early, and still holds its token when the acknowledgement has
   * arrived, goes round once more instead of writing the guard.
   */
  lemma LateAcknowledgementIsReevaluated(w: World, c: nat)
    requires Reachable(w) && At(w, c) && w.calls[c].phase.Verdict?
    requires var p := w.calls[c].phase; !Terminal(p.current.status) && !p.absent && !Quiesced(p.current)
    requires Quiesced(w.row) && w.calls[c].token.Some? && Token(w.row) == w.calls[c].token
    ensures !w.calls[c].reevaluated
    ensures Apply(w, Settle(c)) ==
            w.(calls := w.calls[c := w.calls[c].(reevaluated := true, phase := Waiting(w.row))])
  {
    ReachableKeepsInvariant(w);
  }

  /** The second pass waits for nothing, asks no helper, and is the last one. */
  lemma SecondPassIsShort(w: World, c: nat)
    requires Reachable(w) && At(w, c) && w.calls[c].reevaluated
    ensures var p := w.calls[c].phase; !p.AskingCleanup? && !p.CleanupGranted? && !p.CleanupRunning?
    ensures w.calls[c].phase.Waiting? ==>
      EndWaitStep(w, c).calls[c].phase == Judging(w.calls[c].phase.requested, w.calls[c].phase.requested)
    ensures w.calls[c].phase.Judging? && w.row.remote ==>
      var p := JudgeStep(w, c).calls[c].phase; p.Finished? || (p.Verdict? && p.absent)
    ensures w.calls[c].phase.Verdict? ==> SettleStep(w, c).calls[c].phase.Finished?
  {
    ReachableKeepsInvariant(w);
    assert CallOk(w, w.calls[c]);
    if w.calls[c].phase.Verdict? {
      SecondPassFinishes(w, c);
    }
  }

  lemma SecondPassFinishes(w: World, c: nat)
    requires At(w, c) && w.calls[c].phase.Verdict? && Quiesced(w.calls[c].phase.current)
    ensures SettleStep(w, c).calls[c].phase.Finished?
  {
  }

  lemma AcknowledgedVerdictIsProof(w: World, c: nat)
    requires At(w, c) && w.calls[c].phase.Verdict? && AcknowledgementSuffices(w) && CallOk(w, w.calls[c])
    requires Quiesced(w.calls[c].phase.current)
    ensures var p := w.calls[c].phase;
      p.absent && !Objection(w.facts.tool, w.calls[c], p.current, p.helperConfirmed)
  {
  }

  /** An owner whose snapshot carries a sufficient acknowledgement ends the Task while it keeps its token. */
  lemma AcknowledgedOwnerEndsTheTask(w: World, c: nat)
    requires Reachable(w) && At(w, c) && w.calls[c].phase.Verdict? && AcknowledgementSuffices(w)
    requires var p := w.calls[c].phase; !Terminal(p.current.status) && Quiesced(p.current)
    requires w.calls[c].token.Some?
    ensures Apply(w, Settle(c)).calls[c].phase.Finished?
    ensures Token(w.row) == w.calls[c].token ==>
      && Terminal(Apply(w, Settle(c)).row.status)
      && Apply(w, Settle(c)).ledger.ending == Some(VerifiedAbsent)
    ensures Token(w.row) != w.calls[c].token ==> Apply(w, Settle(c)).row == w.row
  {
    ReachableKeepsInvariant(w);
    assert CallOk(w, w.calls[c]);
    AcknowledgedVerdictIsProof(w, c);
    assert SettleStep(w, c) == SettleVerifiedStep(w, c);
  }

  /**
   * A verdict moves the row exactly when its owner still owns the settlement, and, for an unverified
   * one, the row's acknowledgement is the one it judged; a stale owner moves nothing.
   */
  lemma OnlyTheOwnerSettles(w: World, c: nat)
    requires At(w, c) && w.calls[c].phase.Verdict? && w.calls[c].token.Some?
    requires !Terminal(w.calls[c].phase.current.status)
    ensures var p := w.calls[c].phase;
      Apply(w, Settle(c)).row != w.row <==>
        && OwnsSettlement(w.row, w.calls[c].token.value)
        && (QuiescedAt(w.row) == QuiescedAt(p.current) ||
            (p.absent && !Objection(w.facts.tool, w.calls[c], p.current, p.helperConfirmed)))
    ensures Token(w.row) != w.calls[c].token ==>
      Apply(w, Settle(c)).row == w.row && Apply(w, Settle(c)).ledger == w.ledger
  {
  }

  /** Over every daemon and failover, no cleanup budget is spent twice. */
  lemma HelperRunsOncePerRevision(w: World)
    requires Reachable(w)
    ensures var runs := w.ledger.helperRuns; forall i, j :: 0 <= i < j < |runs| ==> runs[i] != runs[j]
    ensures forall i :: 0 <= i < |w.ledger.helperRuns| ==> w.ledger.helperRuns[i] in w.ledger.granted
  {
    ReachableKeepsInvariant(w);
  }

  /** No permit is committed for a Task that is over, guarded, or owned by somebody else. */
  lemma PermitNeedsALiveOwner(w: World, c: nat, found: bool)
    requires Reachable(w) && At(w, c) && w.calls[c].phase.AskingCleanup?
    ensures Apply(w, AskCleanup(c, found)).calls[c].phase.CleanupGranted? ==>
      && !Terminal(w.row.status) && !Guarded(w.row)
      && Token(w.row).Some? && Token(w.row) == Token(w.calls[c].phase.current)
      && CurrentRevision(w.row.request.value) !in w.ledger.granted
      && w.now < w.row.lease.value.expiresAt
  {
    ReachableKeepsInvariant(w);
  }

  lemma OneOperationPerDaemon(w: World, c: nat, d: nat)
    requires Reachable(w) && At(w, c) && At(w, d)
    requires Containing(w.calls[c].phase) && Containing(w.calls[d].phase)
    ensures w.calls[c].daemon == w.calls[d].daemon ==> c == d
  {
    ReachableKeepsInvariant(w);
  }

  /** A Task that is over keeps its row and its outcome in every continuation. */
  lemma {:induction false} EndedStaysEnded(w: World, run: seq<Action>)
    requires Inv(w) && Terminal(w.row.status) && CanRun(w, run)
    ensures Run(w, run).row == w.row && Run(w, run).ledger.ending == w.ledger.ending
    decreases |run|
  {
    if run != [] {
      StepKeepsInvariant(w, run[0]);
      StepIsLater(w, run[0]);
      EndingIsFinal(w, run[0]);
      EndedStaysEnded(Apply(w, run[0]), run[1..]);
    }
  }

  lemma EndingIsFinal(w: World, a: Action)
    requires Inv(w) && Terminal(w.row.status) && Enabled(w, a)
    ensures Apply(w, a).ledger.ending == w.ledger.ending
  {
    if Quiet(a) {
      QuietStepSameRow(w, a);
    }
  }

  /** Force-fail and a verified settlement can never both move the same row. */
  lemma ForceAndVerifiedExclude(r: Row, token: nat, at: int, revision: Option<nat>)
    requires RowOk(r)
    ensures SettleVerified(r, token).0 == Transitioned ==> SettleForced(r, at, revision).0 != Transitioned
    ensures SettleVerified(r, token).0 == Transitioned ==>
      SettleForced(SettleVerified(r, token).1, at, revision) == (SettleTerminal, SettleVerified(r, token).1)
    ensures SettleForced(r, at, revision).0 == Transitioned ==>
      SettleVerified(SettleForced(r, at, revision).1, token) == (SettleTerminal, SettleForced(r, at, revision).1)
  {
  }
}
