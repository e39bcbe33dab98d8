/** What every run of the termination protocol keeps, and the theorems that follow. */
module TerminationProofs {
  import opened Options
  import opened TaskRow
  import opened TerminationProtocol

  // ---------------------------------------------------------------- what the row's evidence is worth

  /** No objection is left once a remote executor of this tool acknowledged. */
  predicate AcknowledgementSuffices(w: World) { w.row.remote && (!w.facts.tool.objects || w.facts.tool.hosted) }

  ghost predicate EvidenceOk(w: World) {
    && RowOk(w.row)
    && (w.row.remote && Quiesced(w.row) ==> !w.facts.executorAlive)
    && (w.row.request.Some? && w.row.request.value.cause == LaunchRefused ==> Gone(w))
    && (w.facts.serverAlive ==> w.facts.tool.objects)
    && (w.row.remote && w.facts.tool.hosted && w.facts.serverAlive ==> w.facts.executorAlive)
  }

  ghost predicate EndingOk(w: World) {
    && (w.ledger.ending.Some? <==> Terminal(w.row.status))
    && (w.ledger.ending == Some(VerifiedAbsent) ==> Gone(w))
    && (w.ledger.ending == Some(RestartReleased) ==> w.facts.singleDaemon)
    && (w.ledger.ending == Some(ExecutorReported) ==> w.row.connected && w.row.request.None?)
    && (w.ledger.ending == Some(EndedByDaemon) ==> w.row.request.None?)
    && (w.ledger.ending.Some? && w.ledger.ending.value.ForcedUnverified? ==>
          w.ledger.ending.value.revision in w.ledger.guarded)
    && (w.row.status == Stopping && Guarded(w.row) ==> RevisionsOf(w.row) <= w.ledger.guarded)
  }

  /** An acknowledgement is never buried under an unverified guard. */
  ghost predicate NeverBuried(w: World) {
    AcknowledgementSuffices(w) && w.row.status == Stopping && Guarded(w.row) ==> !Quiesced(w.row)
  }

  // ---------------------------------------------------------------- what a call holds

  /** A snapshot is never ahead of the row. */
  ghost predicate SnapshotOk(w: World, t: Row) {
    && t.remote == w.row.remote
    && (Quiesced(t) ==> QuiescedAt(w.row) == QuiescedAt(t))
  }

  ghost predicate CallOk(w: World, call: Call) {
    && (call.input.claim.cause == LaunchRefused && !call.phase.Arrived? && !call.phase.Finished? ==> Gone(w))
    && (call.reevaluated ==> Containing(call.phase) || call.phase.Finished?)
    && match call.phase
       case Arrived => true
       case RequestClaimed(outcome, task) =>
         SnapshotOk(w, task) &&
         (call.input.absenceVerified && outcome in {ClaimUnchanged, Claimed} ==> !w.facts.executorAlive)
       case Coordinating(task) => SnapshotOk(w, task) && HeldAbsence(w, call)
       case Coordinated(task) => SnapshotOk(w, task) && HeldAbsence(w, call)
       case Waiting(requested) =>
         SnapshotOk(w, requested) && HeldAbsence(w, call) && (call.reevaluated ==> Quiesced(requested))
       case Judging(requested, current) =>
         SnapshotOk(w, current) && HeldAbsence(w, call) && (call.reevaluated ==> Quiesced(current))
       case AskingCleanup(current) => SnapshotOk(w, current) && UsesHelper(w, call, current)
       case CleanupGranted(current, _) => SnapshotOk(w, current) && UsesHelper(w, call, current)
       case CleanupRunning(current) => SnapshotOk(w, current) && UsesHelper(w, call, current)
       case Probing(current) =>
         && SnapshotOk(w, current) && !w.row.remote && !call.input.absenceVerified
         && (call.reevaluated ==> Quiesced(current))
       case Verdict(current, absent, helperConfirmed) =>
         && SnapshotOk(w, current) && (call.reevaluated ==> Quiesced(current))
         && (absent ==> !w.facts.executorAlive)
         && (call.input.absenceVerified ==> absent)
         && (helperConfirmed ==> absent)
         && (w.row.remote && Quiesced(current) ==> absent)
       case Finished(_) => true
  }

  ghost predicate HeldAbsence(w: World, call: Call) { call.input.absenceVerified ==> !w.facts.executorAlive }

  /** The helper is only ever asked about an unacknowledged remote executor, in a first pass. */
  ghost predicate UsesHelper(w: World, call: Call, current: Row) {
    w.row.remote && !Quiesced(current) && !call.reevaluated && !call.input.absenceVerified
  }

  ghost predicate CallsOk(w: World) { forall c <- w.calls :: CallOk(w, w.calls[c]) }

  // ---------------------------------------------------------------- one operation per daemon

  ghost predicate OperationsOk(w: World) {
    && (forall d <- w.operations :: At(w, w.operations[d]) &&
          w.calls[w.operations[d]].daemon == d && Containing(w.calls[w.operations[d]].phase))
    && (forall c <- w.calls :: Containing(w.calls[c].phase) ==>
          w.calls[c].daemon in w.operations && w.operations[w.calls[c].daemon] == c)
  }

  // ---------------------------------------------------------------- one helper run per revision

  /** The part of the ledger that concerns the row and the retry ids. */
  ghost predicate BudgetOk(r: Row, l: Ledger) {
    && (r.request.Some? ==> (r.request.value.cleanupStarted <==> CurrentRevision(r.request.value) in l.granted))
    && (r.request.Some? && r.request.value.revision.Some? ==> r.request.value.revision.value in l.retryIds)
    && (forall g <- l.granted ::
          if g.Retried? then g.id in l.retryIds
          else r.request.Some? && g.requestedAt == r.request.value.requestedAt)
  }

  /** The part that concerns the permits calls hold and the runs already made. */
  ghost predicate PermitsOk(calls: map<nat, Call>, l: Ledger) {
    && (forall i, j :: 0 <= i < j < |l.helperRuns| ==> l.helperRuns[i] != l.helperRuns[j])
    && (forall i :: 0 <= i < |l.helperRuns| ==> l.helperRuns[i] in l.granted)
    && (forall c <- calls :: calls[c].phase.CleanupGranted? ==>
          calls[c].phase.revision in l.granted && calls[c].phase.revision !in l.helperRuns)
    && (forall c, d ::
          (c in calls && d in calls && c != d && calls[c].phase.CleanupGranted? && calls[d].phase.CleanupGranted?) ==>
          calls[c].phase.revision != calls[d].phase.revision)
  }

  ghost predicate LedgerOk(w: World) { BudgetOk(w.row, w.ledger) && PermitsOk(w.calls, w.ledger) }

  ghost predicate Inv(w: World) {
    EvidenceOk(w) && EndingOk(w) && NeverBuried(w) && CallsOk(w) && OperationsOk(w) && LedgerOk(w)
  }

  // ---------------------------------------------------------------- monotone background

  /** What every step leaves true: ground truth only falls, the row only advances. */
  ghost predicate Later(w: World, w': World) {
    && RowLater(w.row, w'.row)
    && w'.facts.tool == w.facts.tool && w'.facts.singleDaemon == w.facts.singleDaemon
    && (w'.facts.executorAlive ==> w.facts.executorAlive)
    && (w'.facts.serverAlive ==> w.facts.serverAlive)
  }

  /** Steps that leave the row, the ground truth and the verdict history alone. */
  predicate Quiet(a: Action) {
    a.Decide? || a.Start? || a.EndWait? || a.Judge? || a.InvokeHelper? || a.HelperExits? || a.ProbeEnds? || a.Fail?
  }

  /** Steps taken by no call. */
  predicate Outside(a: Action) {
    a.Tick? || a.ExecutorStops? || a.ServerStops? || a.ExecutorConnects? || a.ExecutorReports?
    || a.Dispatched? || a.Pauses? || a.Observed? || a.DaemonEnds? || a.ExecutorQuiesces?
    || a.RetryCleanup? || a.ForceFail? || a.RestartRelease? || a.Crash? || a.Arrive?
  }

  /** Of these, an operator's retry or force-fail, and the boot release. */
  predicate Releases(a: Action) { a.RetryCleanup? || a.ForceFail? || a.RestartRelease? }

  /** The two worlds agree on the row, the ground truth and all history but the helper runs. */
  ghost predicate SameRow(w: World, w': World) {
    && w'.row == w.row && w'.facts == w.facts
    && w'.ledger == w.ledger.(helperRuns := w'.ledger.helperRuns)
  }

  lemma DecideSameRow(w: World, c: nat)
    requires At(w, c) && w.calls[c].phase.RequestClaimed?
    ensures SameRow(w, DecideStep(w, c))
  {
  }

  lemma JudgeSameRow(w: World, c: nat)
    requires At(w, c) && w.calls[c].phase.Judging?
    ensures SameRow(w, JudgeStep(w, c))
  {
  }

  lemma QuietStepSameRow(w: World, a: Action)
    requires Enabled(w, a) && Quiet(a)
    ensures SameRow(w, Apply(w, a))
  {
    if a.Decide? {
      DecideSameRow(w, a.call);
    } else if a.Judge? {
      JudgeSameRow(w, a.call);
    } else {
      MoveSameRow(w, a);
    }
  }

  lemma MoveSameRow(w: World, a: Action)
    requires Enabled(w, a) && Quiet(a) && !a.Decide? && !a.Judge?
    ensures SameRow(w, Apply(w, a))
  {
  }

  lemma SettleIsLater(w: World, c: nat)
    requires RowOk(w.row) && At(w, c) && w.calls[c].phase.Verdict?
    ensures Later(w, SettleStep(w, c))
  {
  }

  lemma StepIsLater(w: World, a: Action)
    requires RowOk(w.row) && Enabled(w, a)
    ensures Later(w, Apply(w, a))
  {
    if Quiet(a) {
      QuietStepSameRow(w, a);
    } else if a.Settle? {
      SettleIsLater(w, a.call);
    } else {
      OtherStepIsLater(w, a);
    }
  }

  lemma OtherStepIsLater(w: World, a: Action)
    requires RowOk(w.row) && Enabled(w, a) && !Quiet(a) && !a.Settle?
    ensures Later(w, Apply(w, a))
  {
    if Outside(a) {
      OutsideIsLater(w, a);
    } else {
      ClaimsAreLater(w, a);
    }
  }

  lemma ClaimsAreLater(w: World, a: Action)
    requires RowOk(w.row) && Enabled(w, a) && (a.ClaimRequest? || a.Coordinate? || a.AskCleanup?)
    ensures Later(w, Apply(w, a))
  {
    match a
    case ClaimRequest(c) => ClaimRequestIsLater(w, c);
    case Coordinate(c, owns, token, leaseMs) => CoordinateIsLater(w, c, owns, token, leaseMs);
    case AskCleanup(c, found) => AskCleanupIsLater(w, c, found);
  }

  lemma ClaimRequestIsLater(w: World, c: nat)
    requires RowOk(w.row) && At(w, c)
    ensures Later(w, ClaimRequestStep(w, c))
  {
  }

  lemma CoordinateIsLater(w: World, c: nat, owns: bool, token: nat, leaseMs: int)
    requires RowOk(w.row) && At(w, c) && w.calls[c].phase.Coordinating?
    ensures Later(w, CoordinateStep(w, c, owns, token, leaseMs))
  {
  }

  lemma AskCleanupIsLater(w: World, c: nat, found: bool)
    requires RowOk(w.row) && At(w, c) && w.calls[c].phase.AskingCleanup?
    ensures Later(w, AskCleanupStep(w, c, found))
  {
  }

  lemma OutsideIsLater(w: World, a: Action)
    requires RowOk(w.row) && Enabled(w, a) && Outside(a)
    ensures Later(w, Apply(w, a))
  {
    if Releases(a) {
      ReleasesAreLater(w, a);
    } else {
      EnvironmentIsLater(w, a);
    }
  }

  lemma ReleasesAreLater(w: World, a: Action)
    requires RowOk(w.row) && Enabled(w, a) && Releases(a)
    ensures Later(w, Apply(w, a))
  {
  }

  lemma EnvironmentIsLater(w: World, a: Action)
    requires RowOk(w.row) && Enabled(w, a) && Outside(a) && !Releases(a)
    ensures Later(w, Apply(w, a))
  {
  }

  lemma CallStaysOk(w: World, w': World, call: Call)
    requires Later(w, w') && CallOk(w, call)
    ensures CallOk(w', call)
  {
  }

  // ---------------------------------------------------------------- the row's invariants, step by step

  ghost predicate RowInv(w: World) { EvidenceOk(w) && EndingOk(w) && NeverBuried(w) }

  lemma ForceFailKeepsRow(w: World, requestedAt: int, expected: Option<nat>)
    requires RowInv(w)
    ensures RowInv(ForceFailStep(w, requestedAt, expected))
  {
  }

  lemma RestartKeepsRow(w: World)
    requires RowInv(w) && w.facts.singleDaemon
    ensures RowInv(RestartReleaseStep(w))
  {
  }

  lemma OutsideStepKeepsRow(w: World, a: Action)
    requires RowInv(w) && Enabled(w, a) && Outside(a)
    ensures RowInv(Apply(w, a))
  {
    if a.RetryCleanup? {
      RetryKeepsRow(w, a.requestedAt, a.revision, a.newId);
    } else if a.ForceFail? {
      ForceFailKeepsRow(w, a.requestedAt, a.expectedRevision);
    } else if a.RestartRelease? {
      RestartKeepsRow(w);
    } else {
      EnvironmentKeepsRow(w, a);
    }
  }

  lemma RetryKeepsRow(w: World, at: int, revision: Revision, newId: nat)
    requires RowInv(w) && Enabled(w, RetryCleanup(at, revision, newId))
    ensures RowInv(Apply(w, RetryCleanup(at, revision, newId)))
  {
  }

  lemma EnvironmentKeepsRow(w: World, a: Action)
    requires RowInv(w) && Enabled(w, a) && Outside(a) && !Releases(a)
    ensures RowInv(Apply(w, a))
  {
    if a.ExecutorConnects? || a.ExecutorQuiesces? || a.ExecutorReports? {
      ExecutorKeepsRow(w, a);
    } else {
      OthersKeepRow(w, a);
    }
  }

  lemma ExecutorKeepsRow(w: World, a: Action)
    requires RowInv(w) && Enabled(w, a) && (a.ExecutorConnects? || a.ExecutorQuiesces? || a.ExecutorReports?)
    ensures RowInv(Apply(w, a))
  {
  }

  lemma OthersKeepRow(w: World, a: Action)
    requires RowInv(w) && Enabled(w, a) && Outside(a) && !Releases(a)
    requires !a.ExecutorConnects? && !a.ExecutorQuiesces? && !a.ExecutorReports?
    ensures RowInv(Apply(w, a))
  {
  }

  lemma ClaimRequestKeepsRow(w: World, c: nat)
    requires RowInv(w) && Enabled(w, ClaimRequest(c))
    ensures RowInv(ClaimRequestStep(w, c))
  {
  }

  lemma CoordinateKeepsRow(w: World, c: nat, owns: bool, token: nat, leaseMs: int)
    requires RowInv(w) && At(w, c) && w.calls[c].phase.Coordinating?
    ensures RowInv(CoordinateStep(w, c, owns, token, leaseMs))
  {
  }

  lemma AskCleanupKeepsRow(w: World, c: nat, found: bool)
    requires RowInv(w) && At(w, c) && w.calls[c].phase.AskingCleanup?
    ensures RowInv(AskCleanupStep(w, c, found))
  {
  }

  /** The one place where proof becomes a durable verdict. */
  lemma SettleVerifiedKeepsRow(w: World, c: nat)
    requires RowInv(w) && At(w, c) && w.calls[c].token.Some? && Gone(w)
    ensures RowInv(SettleVerifiedStep(w, c))
  {
  }

  lemma SettleUnverifiedKeepsRow(w: World, c: nat)
    requires RowInv(w) && At(w, c) && w.calls[c].phase.Verdict? && w.calls[c].token.Some?
    requires AcknowledgementSuffices(w) ==> !Quiesced(w.calls[c].phase.current)
    ensures RowInv(SettleUnverifiedStep(w, c))
  {
  }

  lemma SettleKeepsRow(w: World, c: nat)
    requires RowInv(w) && At(w, c) && w.calls[c].phase.Verdict? && CallOk(w, w.calls[c])
    ensures RowInv(SettleStep(w, c))
  {
    var call := w.calls[c];
    var Verdict(current, absent, helperConfirmed) := call.phase;
    if Terminal(current.status) || call.token.None? {
      assert SameRow(w, SettleStep(w, c));
    } else if !absent || Objection(w.facts.tool, call, current, helperConfirmed) {
      SettleUnverifiedKeepsRow(w, c);
    } else {
      SettleVerifiedKeepsRow(w, c);
    }
  }

  lemma StepKeepsRow(w: World, a: Action)
    requires RowInv(w) && CallsOk(w) && Enabled(w, a)
    ensures RowInv(Apply(w, a))
  {
    if Quiet(a) {
      QuietStepSameRow(w, a);
    } else if Outside(a) {
      OutsideStepKeepsRow(w, a);
    } else {
      match a
      case ClaimRequest(c) => ClaimRequestKeepsRow(w, c);
      case Coordinate(c, owns, token, leaseMs) => CoordinateKeepsRow(w, c, owns, token, leaseMs);
      case AskCleanup(c, found) => AskCleanupKeepsRow(w, c, found);
      case Settle(c) => SettleKeepsRow(w, c);
    }
  }

  // ---------------------------------------------------------------- what each call knows

  /** The call that takes a step knows, in its next phase, what that phase claims. */
  lemma ActorOk(w: World, a: Action)
    requires RowInv(w) && Enabled(w, a) && !Outside(a) && CallOk(w, w.calls[a.call])
    ensures At(Apply(w, a), a.call) && CallOk(Apply(w, a), Apply(w, a).calls[a.call])
  {
    if a.Settle? {
      SettleActorOk(w, a.call);
    } else if a.Coordinate? {
      CoordinateActorOk(w, a.call, a.ownsHandle, a.token, a.leaseMs);
    } else if Quiet(a) {
      QuietActorOk(w, a);
    }
  }

  lemma QuietActorOk(w: World, a: Action)
    requires RowInv(w) && Enabled(w, a) && Quiet(a) && CallOk(w, w.calls[a.call])
    ensures At(Apply(w, a), a.call) && CallOk(Apply(w, a), Apply(w, a).calls[a.call])
  {
    if a.Decide? {
      DecideActorOk(w, a.call);
    } else if a.Start? {
      StartActorOk(w, a.call, w.calls[a.call].phase.task);
    } else if a.Judge? {
      JudgeActorOk(w, a.call);
    } else if a.EndWait? {
      EndWaitActorOk(w, a.call);
    } else {
      PlainActorOk(w, a);
    }
  }

  lemma EndWaitActorOk(w: World, c: nat)
    requires RowInv(w) && At(w, c) && w.calls[c].phase.Waiting? && CallOk(w, w.calls[c])
    ensures var w' := EndWaitStep(w, c); At(w', c) && CallOk(w', w'.calls[c])
  {
  }

  lemma PlainActorOk(w: World, a: Action)
    requires Enabled(w, a) && (a.InvokeHelper? || a.HelperExits? || a.ProbeEnds? || a.Fail?)
    requires RowInv(w) && CallOk(w, w.calls[a.call])
    ensures At(Apply(w, a), a.call) && CallOk(Apply(w, a), Apply(w, a).calls[a.call])
  {
  }

  lemma StartActorOk(w: World, c: nat, requested: Row)
    requires RowInv(w) && At(w, c) && SnapshotOk(w, requested)
    requires CallOk(w, w.calls[c]) && HeldAbsence(w, w.calls[c])
    requires w.calls[c].phase.RequestClaimed? || w.calls[c].phase.Coordinated?
    ensures var w' := StartOperation(w, c, requested); At(w', c) && CallOk(w', w'.calls[c])
  {
  }

  lemma DecideActorOk(w: World, c: nat)
    requires RowInv(w) && At(w, c) && w.calls[c].phase.RequestClaimed? && CallOk(w, w.calls[c])
    ensures var w' := DecideStep(w, c); At(w', c) && CallOk(w', w'.calls[c])
  {
    if w.calls[c].phase.outcome == ClaimTerminal && !w.calls[c].input.absenceVerified {
      StartActorOk(w, c, w.calls[c].phase.task);
    }
  }

  lemma JudgeActorOk(w: World, c: nat)
    requires RowInv(w) && At(w, c) && w.calls[c].phase.Judging? && CallOk(w, w.calls[c])
    ensures var w' := JudgeStep(w, c); At(w', c) && CallOk(w', w'.calls[c])
  {
  }

  lemma CoordinateActorOk(w: World, c: nat, owns: bool, token: nat, leaseMs: int)
    requires RowInv(w) && At(w, c) && w.calls[c].phase.Coordinating? && CallOk(w, w.calls[c])
    ensures var w' := CoordinateStep(w, c, owns, token, leaseMs); At(w', c) && CallOk(w', w'.calls[c])
  {
  }

  /** A settlement ends the call, or sends it round once more on the row as it is. */
  lemma SettleGoesOn(w: World, c: nat)
    requires At(w, c) && w.calls[c].phase.Verdict?
    ensures var w' := SettleStep(w, c);
      && At(w', c)
      && ((w'.calls[c] == w.calls[c].(phase := w'.calls[c].phase) && w'.calls[c].phase.Finished?) ||
          (w'.calls[c] == w.calls[c].(reevaluated := true, phase := Waiting(w.row)) && w'.row == w.row
           && w'.facts == w.facts && Token(w.row) == w.calls[c].token && Quiesced(w.row)))
  {
  }

  lemma SettleActorOk(w: World, c: nat)
    requires RowInv(w) && At(w, c) && w.calls[c].phase.Verdict? && CallOk(w, w.calls[c])
    ensures var w' := SettleStep(w, c); At(w', c) && CallOk(w', w'.calls[c])
  {
    SettleGoesOn(w, c);
  }

  lemma OthersUntouched(w: World, a: Action, c: nat)
    requires Enabled(w, a) && c in Apply(w, a).calls && (Outside(a) || c != a.call)
    ensures (a.Arrive? && c == a.call) || (c in w.calls && Apply(w, a).calls[c] == w.calls[c])
  {
    if !Outside(a) { ActorMovesAlone(w, a, c); }
  }

  lemma ActorMovesAlone(w: World, a: Action, c: nat)
    requires Enabled(w, a) && !Outside(a) && c in Apply(w, a).calls && c != a.call
    ensures c in w.calls && Apply(w, a).calls[c] == w.calls[c]
  {
  }

  lemma StepKeepsCalls(w: World, a: Action)
    requires RowInv(w) && CallsOk(w) && Enabled(w, a)
    ensures CallsOk(Apply(w, a))
  {
    var w' := Apply(w, a);
    StepIsLater(w, a);
    forall c | c in w'.calls
      ensures CallOk(w', w'.calls[c])
    {
      if !Outside(a) && c == a.call {
        ActorOk(w, a);
      } else {
        OthersUntouched(w, a, c);
        if c in w.calls && w'.calls[c] == w.calls[c] {
          CallStaysOk(w, w', w.calls[c]);
        }
      }
    }
  }

  // ---------------------------------------------------------------- one operation per daemon, step by step

  lemma FinishKeepsOperations(w: World, c: nat, result: Result)
    requires OperationsOk(w) && At(w, c)
    ensures OperationsOk(Finish(w, c, result))
  {
    var w' := Finish(w, c, result);
    forall d | d in w'.operations
      ensures At(w', w'.operations[d]) && w'.calls[w'.operations[d]].daemon == d
           && Containing(w'.calls[w'.operations[d]].phase)
    {
      assert w.operations[d] == w'.operations[d];
    }
  }

  lemma MovedKeepsOperations(w: World, c: nat, call: Call)
    requires OperationsOk(w) && At(w, c) && call.daemon == w.calls[c].daemon
    requires Containing(call.phase) <==> Containing(w.calls[c].phase)
    ensures OperationsOk(w.(calls := w.calls[c := call]))
  {
  }

  lemma StartKeepsOperations(w: World, c: nat, requested: Row)
    requires OperationsOk(w) && At(w, c) && !Containing(w.calls[c].phase)
    ensures OperationsOk(StartOperation(w, c, requested))
  {
    var d := w.calls[c].daemon;
    if d in w.operations {
      FinishKeepsOperations(w, c, ResJoined);
    } else if Token(requested).None? && !Terminal(requested.status) {
      FinishKeepsOperations(w, c, ResChanged);
    }
  }

  /** Only calls and operations matter to OperationsOk. */
  lemma SameCallsSameOperations(w: World, w': World)
    requires OperationsOk(w) && w'.calls == w.calls && w'.operations == w.operations
    ensures OperationsOk(w')
  {
  }

  lemma SettleKeepsOperations(w: World, c: nat)
    requires OperationsOk(w) && At(w, c) && w.calls[c].phase.Verdict?
    ensures OperationsOk(SettleStep(w, c))
  {
    var call := w.calls[c];
    var Verdict(current, absent, helperConfirmed) := call.phase;
    if Terminal(current.status) {
      FinishKeepsOperations(w, c, if absent then ResTerminal else ResUnverified);
    } else if call.token.None? {
      FinishKeepsOperations(w, c, ResChanged);
    } else if !absent || Objection(w.facts.tool, call, current, helperConfirmed) {
      SettleUnverifiedKeepsOperations(w, c);
    } else {
      SettleVerifiedKeepsOperations(w, c);
    }
  }

  lemma SettleUnverifiedKeepsOperations(w: World, c: nat)
    requires OperationsOk(w) && At(w, c) && w.calls[c].phase.Verdict? && w.calls[c].token.Some?
    ensures OperationsOk(SettleUnverifiedStep(w, c))
  {
    var w' := SettleUnverifiedStep(w, c);
    if w'.calls[c].phase.Finished? {
      FinishKeepsOperations(w, c, w'.calls[c].phase.result);
      SameCallsSameOperations(Finish(w, c, w'.calls[c].phase.result), w');
    } else {
      MovedKeepsOperations(w, c, w'.calls[c]);
    }
  }

  lemma SettleVerifiedKeepsOperations(w: World, c: nat)
    requires OperationsOk(w) && At(w, c) && w.calls[c].token.Some?
    ensures OperationsOk(SettleVerifiedStep(w, c))
  {
    var w' := SettleVerifiedStep(w, c);
    FinishKeepsOperations(w, c, w'.calls[c].phase.result);
    SameCallsSameOperations(Finish(w, c, w'.calls[c].phase.result), w');
  }

  lemma DecideKeepsOperations(w: World, c: nat)
    requires OperationsOk(w) && At(w, c) && w.calls[c].phase.RequestClaimed?
    ensures OperationsOk(DecideStep(w, c))
  {
    var w' := DecideStep(w, c);
    if w'.calls[c].phase.Finished? {
      FinishKeepsOperations(w, c, w'.calls[c].phase.result);
    } else if w'.calls[c].phase.Waiting? {
      StartKeepsOperations(w, c, w.calls[c].phase.task);
    } else {
      MovedKeepsOperations(w, c, w'.calls[c]);
    }
  }

  /** Coordination and judgement either move on or finish. */
  lemma BranchKeepsOperations(w: World, c: nat, w': World)
    requires OperationsOk(w) && At(w, c) && At(w', c)
    requires
      || (w'.calls[c].phase.Finished? && w'.calls == Finish(w, c, w'.calls[c].phase.result).calls &&
          w'.operations == Finish(w, c, w'.calls[c].phase.result).operations)
      || (w'.calls == w.calls[c := w.calls[c].(phase := w'.calls[c].phase)] && w'.operations == w.operations &&
          (Containing(w'.calls[c].phase) <==> Containing(w.calls[c].phase)))
    ensures OperationsOk(w')
  {
    if w'.calls[c].phase.Finished? && w'.calls == Finish(w, c, w'.calls[c].phase.result).calls &&
       w'.operations == Finish(w, c, w'.calls[c].phase.result).operations {
      FinishKeepsOperations(w, c, w'.calls[c].phase.result);
      SameCallsSameOperations(Finish(w, c, w'.calls[c].phase.result), w');
    } else {
      MovedKeepsOperations(w, c, w'.calls[c]);
      SameCallsSameOperations(w.(calls := w'.calls), w');
    }
  }

  lemma CoordinateKeepsOperations(w: World, c: nat, owns: bool, token: nat, leaseMs: int)
    requires OperationsOk(w) && At(w, c) && w.calls[c].phase.Coordinating?
    ensures OperationsOk(CoordinateStep(w, c, owns, token, leaseMs))
  {
    BranchKeepsOperations(w, c, CoordinateStep(w, c, owns, token, leaseMs));
  }

  lemma JudgeKeepsOperations(w: World, c: nat)
    requires OperationsOk(w) && At(w, c) && w.calls[c].phase.Judging?
    ensures OperationsOk(JudgeStep(w, c))
  {
    BranchKeepsOperations(w, c, JudgeStep(w, c));
  }

  lemma MoveStepKeepsOperations(w: World, a: Action)
    requires OperationsOk(w) && Enabled(w, a)
    requires a.ClaimRequest? || a.EndWait? || a.AskCleanup? || a.InvokeHelper? || a.HelperExits? || a.ProbeEnds?
    ensures OperationsOk(Apply(w, a))
  {
    BranchKeepsOperations(w, a.call, Apply(w, a));
  }

  lemma CallStepKeepsOperations(w: World, a: Action)
    requires OperationsOk(w) && Enabled(w, a) && !Outside(a)
    ensures OperationsOk(Apply(w, a))
  {
    if a.Start? {
      StartKeepsOperations(w, a.call, w.calls[a.call].phase.task);
    } else if a.Decide? {
      DecideKeepsOperations(w, a.call);
    } else if a.Settle? {
      SettleKeepsOperations(w, a.call);
    } else if a.Coordinate? {
      CoordinateKeepsOperations(w, a.call, a.ownsHandle, a.token, a.leaseMs);
    } else if a.Judge? {
      JudgeKeepsOperations(w, a.call);
    } else if a.Fail? {
      FinishKeepsOperations(w, a.call, ResThrew);
    } else {
      MoveStepKeepsOperations(w, a);
    }
  }

  lemma StepKeepsOperations(w: World, a: Action)
    requires OperationsOk(w) && Enabled(w, a)
    ensures OperationsOk(Apply(w, a))
  {
    if Outside(a) { OutsideKeepsOperations(w, a); } else { CallStepKeepsOperations(w, a); }
  }

  lemma OutsideKeepsOperations(w: World, a: Action)
    requires OperationsOk(w) && Enabled(w, a) && Outside(a)
    ensures OperationsOk(Apply(w, a))
  {
    if !a.Arrive? && !a.Crash? { SameCallsSameOperations(w, Apply(w, a)); }
  }

  // ---------------------------------------------------------------- one helper run per revision, step by step

  lemma SettleKeepsRequest(w: World, c: nat)
    requires At(w, c) && w.calls[c].phase.Verdict?
    ensures SettleStep(w, c).row.request == w.row.request
    ensures var l' := SettleStep(w, c).ledger;
      l'.retryIds == w.ledger.retryIds && l'.granted == w.ledger.granted && l'.helperRuns == w.ledger.helperRuns
  {
  }

  lemma StepKeepsBudget(w: World, a: Action)
    requires RowOk(w.row) && BudgetOk(w.row, w.ledger) && Enabled(w, a)
    ensures BudgetOk(Apply(w, a).row, Apply(w, a).ledger)
  {
    if Quiet(a) {
      QuietStepSameRow(w, a);
    } else if a.Settle? {
      SettleKeepsRequest(w, a.call);
    } else if Outside(a) {
      OutsideKeepsBudget(w, a);
    } else {
      CallStepKeepsBudget(w, a);
    }
  }

  lemma OutsideKeepsBudget(w: World, a: Action)
    requires RowOk(w.row) && BudgetOk(w.row, w.ledger) && Enabled(w, a) && Outside(a)
    ensures BudgetOk(Apply(w, a).row, Apply(w, a).ledger)
  {
  }

  lemma CallStepKeepsBudget(w: World, a: Action)
    requires RowOk(w.row) && BudgetOk(w.row, w.ledger) && Enabled(w, a)
    requires a.ClaimRequest? || a.Coordinate? || a.AskCleanup?
    ensures BudgetOk(Apply(w, a).row, Apply(w, a).ledger)
  {
  }

  /** Permits survive when none is added and no run is made. */
  lemma FewerPermits(calls: map<nat, Call>, l: Ledger, calls': map<nat, Call>, l': Ledger)
    requires PermitsOk(calls, l) && l'.helperRuns == l.helperRuns && l.granted <= l'.granted
    requires forall c <- calls' :: calls'[c].phase.CleanupGranted? ==> c in calls && calls[c] == calls'[c]
    ensures PermitsOk(calls', l')
  {
  }

  lemma OnlyAskingGrants(w: World, a: Action)
    requires Enabled(w, a) && !Outside(a) && !a.AskCleanup? && !a.InvokeHelper?
    ensures GrantsNothing(w, Apply(w, a), a.call)
  {
    if a.Settle? {
      SettleKeepsRequest(w, a.call);
    } else if a.Decide? {
      DecideGrantsNothing(w, a.call);
    } else if a.Coordinate? {
      CoordinateGrantsNothing(w, a.call, a.ownsHandle, a.token, a.leaseMs);
    } else if a.Judge? {
      JudgeGrantsNothing(w, a.call);
    }
  }

  ghost predicate GrantsNothing(w: World, w': World, c: nat) {
    && At(w', c) && !w'.calls[c].phase.CleanupGranted?
    && w'.ledger.helperRuns == w.ledger.helperRuns && w'.ledger.granted == w.ledger.granted
  }

  lemma DecideGrantsNothing(w: World, c: nat)
    requires At(w, c) && w.calls[c].phase.RequestClaimed?
    ensures GrantsNothing(w, DecideStep(w, c), c)
  {
  }

  lemma CoordinateGrantsNothing(w: World, c: nat, owns: bool, token: nat, leaseMs: int)
    requires At(w, c) && w.calls[c].phase.Coordinating?
    ensures GrantsNothing(w, CoordinateStep(w, c, owns, token, leaseMs), c)
  {
  }

  lemma JudgeGrantsNothing(w: World, c: nat)
    requires At(w, c) && w.calls[c].phase.Judging?
    ensures GrantsNothing(w, JudgeStep(w, c), c)
  {
  }

  lemma AskCleanupKeepsPermits(w: World, c: nat, found: bool)
    requires BudgetOk(w.row, w.ledger) && PermitsOk(w.calls, w.ledger)
    requires At(w, c) && w.calls[c].phase.AskingCleanup?
    ensures PermitsOk(AskCleanupStep(w, c, found).calls, AskCleanupStep(w, c, found).ledger)
  {
  }

  lemma InvokeHelperKeepsPermits(w: World, c: nat)
    requires PermitsOk(w.calls, w.ledger) && At(w, c) && w.calls[c].phase.CleanupGranted?
    ensures PermitsOk(InvokeHelperStep(w, c).calls, InvokeHelperStep(w, c).ledger)
  {
  }

  lemma StepKeepsPermits(w: World, a: Action)
    requires BudgetOk(w.row, w.ledger) && PermitsOk(w.calls, w.ledger) && Enabled(w, a)
    ensures PermitsOk(Apply(w, a).calls, Apply(w, a).ledger)
  {
    if a.AskCleanup? {
      AskCleanupKeepsPermits(w, a.call, a.contextFound);
    } else if a.InvokeHelper? {
      InvokeHelperKeepsPermits(w, a.call);
    } else if Outside(a) {
      OutsideKeepsPermits(w, a);
    } else {
      CallStepKeepsPermits(w, a);
    }
  }

  lemma OutsideKeepsPermits(w: World, a: Action)
    requires PermitsOk(w.calls, w.ledger) && Enabled(w, a) && Outside(a)
    ensures PermitsOk(Apply(w, a).calls, Apply(w, a).ledger)
  {
    var w' := Apply(w, a);
    forall c | c in w'.calls && w'.calls[c].phase.CleanupGranted?
      ensures c in w.calls && w.calls[c] == w'.calls[c]
    {
      OthersUntouched(w, a, c);
    }
    FewerPermits(w.calls, w.ledger, w'.calls, w'.ledger);
  }

  lemma CallStepKeepsPermits(w: World, a: Action)
    requires PermitsOk(w.calls, w.ledger) && Enabled(w, a)
    requires !Outside(a) && !a.AskCleanup? && !a.InvokeHelper?
    ensures PermitsOk(Apply(w, a).calls, Apply(w, a).ledger)
  {
    var w' := Apply(w, a);
    OnlyAskingGrants(w, a);
    forall c | c in w'.calls && w'.calls[c].phase.CleanupGranted?
      ensures c in w.calls && w.calls[c] == w'.calls[c]
    {
      OthersUntouched(w, a, c);
    }
    FewerPermits(w.calls, w.ledger, w'.calls, w'.ledger);
  }
}
