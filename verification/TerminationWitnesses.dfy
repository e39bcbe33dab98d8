/**
 * Runs that show where the termination protocol's promises end, and with them the exact conditions
 * under which two of those promises hold.
 */
module TerminationWitnesses {
  import opened Options
  import opened TaskRow
  import opened TerminationProtocol
  import opened TerminationProofs
  import opened TerminationTheorems
  import opened TerminationLeases

  // ---------------------------------------------------------------- extending a run

  lemma {:induction false} RunExtends(w: World, run: seq<Action>, a: Action)
    requires CanRun(w, run) && Enabled(Run(w, run), a)
    ensures CanRun(w, run + [a]) && Run(w, run + [a]) == Apply(Run(w, run), a)
    decreases |run|
  {
    if run == [] {
      assert [a][1..] == [];
    } else {
      RunExtends(Apply(w, run[0]), run[1..], a);
      assert (run + [a])[1..] == run[1..] + [a];
    }
  }

  lemma StepIsReachable(w: World, a: Action) returns (w': World)
    requires Reachable(w) && Enabled(w, a)
    ensures w' == Apply(w, a) && Reachable(w')
  {
    var w0: World, run: seq<Action> :| Initial(w0) && CanRun(w0, run) && Run(w0, run) == w;
    RunExtends(w0, run, a);
    w' := Apply(w, a);
  }

  const RECONCILE := Input(ClaimInput(OtherCause(0), None, None, None, None, false), false, true, false, None, 0)
  const DISPATCHED := Row(Dispatching, true, false, None, None, None, false, None)

  /** A remote executor at work, and a helper that could clean up after it. */
  function Beginning(single: bool, now: int): World {
    World(DISPATCHED, now, Facts(Tool(false, false), true, single, true, false), map[], map[],
          Ledger({}, map[], {}, [], {}, None))
  }

  lemma BeginningIsReachable(single: bool, now: int)
    ensures Reachable(Beginning(single, now))
  {
    assert Run(Beginning(single, now), []) == Beginning(single, now);
  }

  /** The row after the request of RECONCILE, under the given lease. */
  function AskedRow(at: int, started: bool, lease: Option<Lease>): Row {
    Row(Stopping, true, false, None, Some(Request(OtherCause(0), at, None, None, started)), lease, false, None)
  }

  function Caller(daemon: nat, token: Option<nat>, phase: Phase): Call {
    Call(daemon, RECONCILE, token, false, phase)
  }

  // ---------------------------------------------------------------- one call, from its arrival to the permit

  /** Not asked yet, or asked at `at` and under a lease that has run out. */
  ghost predicate Askable(w: World, at: int, started: bool, lease: Option<Lease>) {
    && (w.row == AskedRow(at, started, lease) ||
        (w.row == DISPATCHED && w.now == at && !started && lease.None?))
    && (lease.None? || lease.value.expiresAt <= w.now)
  }

  lemma AskedAgain(r: Row, at: int, now: int, started: bool, lease: Option<Lease>)
    requires r == AskedRow(at, started, lease) || (r == DISPATCHED && now == at && !started && lease.None?)
    ensures var (outcome, asked) := ClaimTermination(r, RECONCILE.claim, now);
      outcome in {Claimed, ClaimUnchanged} && asked == AskedRow(at, started, lease)
  {
  }

  lemma RequestIsClaimed(w: World, c: nat, daemon: nat, at: int, started: bool, lease: Option<Lease>)
    returns (w': World)
    requires Reachable(w) && !At(w, c) && daemon !in w.operations && Askable(w, at, started, lease)
    ensures Reachable(w')
    ensures var asked := AskedRow(at, started, lease);
      w' == w.(row := asked, calls := w.calls[c := Caller(daemon, None, Coordinating(asked))])
  {
    AskedAgain(w.row, at, w.now, started, lease);
    var outcome := ClaimTermination(w.row, RECONCILE.claim, w.now).0;
    var claimed := ClaimIsCommitted(w, c, daemon, outcome, AskedRow(at, started, lease));
    w' := StepIsReachable(claimed, Decide(c));
    CoordinatesNext(claimed, c, daemon, outcome, AskedRow(at, started, lease));
    assert w'.calls == w.calls[c := Caller(daemon, None, Coordinating(AskedRow(at, started, lease)))];
  }

  lemma CoordinatesNext(w: World, c: nat, daemon: nat, outcome: ClaimOutcome, asked: Row)
    requires At(w, c) && w.calls[c] == Caller(daemon, None, RequestClaimed(outcome, asked))
    requires outcome in {Claimed, ClaimUnchanged} && daemon !in w.operations && !asked.connected
    ensures DecideStep(w, c) == Moved(w, c, Coordinating(asked))
  {
  }

  lemma ClaimIsCommitted(w: World, c: nat, daemon: nat, outcome: ClaimOutcome, asked: Row) returns (w': World)
    requires Reachable(w) && !At(w, c) && (outcome, asked) == ClaimTermination(w.row, RECONCILE.claim, w.now)
    ensures Reachable(w')
    ensures w' == w.(row := asked, calls := w.calls[c := Caller(daemon, None, RequestClaimed(outcome, asked))])
  {
    var arrived := StepIsReachable(w, Arrive(c, daemon, RECONCILE));
    assert arrived == w.(calls := w.calls[c := Caller(daemon, None, Arrived)]);
    w' := StepIsReachable(arrived, ClaimRequest(c));
    assert w' == ClaimRequestStep(arrived, c);
    assert w'.calls == w.calls[c := Caller(daemon, None, RequestClaimed(outcome, asked))];
  }

  ghost function Leased(w: World, c: nat, daemon: nat, at: int, started: bool, lease: Lease, phase: Phase): World {
    w.(row := AskedRow(at, started, Some(lease)), operations := w.operations[daemon := c],
       calls := w.calls[c := Caller(daemon, Some(lease.token), phase)],
       ledger := w.ledger.(leases := w.ledger.leases[lease.token := lease.expiresAt]))
  }

  lemma LeaseIsTaken(w: World, c: nat, daemon: nat, at: int, started: bool, old': Option<Lease>, lease: Lease)
    returns (w': World)
    requires Reachable(w) && daemon !in w.operations && w.row == AskedRow(at, started, old')
    requires old'.None? || (old'.value.token != lease.token && old'.value.expiresAt <= w.now)
    requires lease.token !in w.ledger.leases
    requires At(w, c) && w.calls[c] == Caller(daemon, None, Coordinating(w.row))
    ensures Reachable(w') && w' == Leased(w, c, daemon, at, started, lease, Waiting(AskedRow(at, started, Some(lease))))
  {
    var row := AskedRow(at, started, Some(lease));
    var owned := LeaseIsClaimed(w, c, daemon, at, started, old', lease);
    w' := StepIsReachable(owned, Start(c));
    assert w'.calls == w.calls[c := Caller(daemon, Some(lease.token), Waiting(row))];
  }

  lemma LeaseIsClaimed(w: World, c: nat, daemon: nat, at: int, started: bool, old': Option<Lease>, lease: Lease)
    returns (w': World)
    requires Reachable(w) && w.row == AskedRow(at, started, old') && lease.token !in w.ledger.leases
    requires old'.None? || (old'.value.token != lease.token && old'.value.expiresAt <= w.now)
    requires At(w, c) && w.calls[c] == Caller(daemon, None, Coordinating(w.row))
    ensures var row := AskedRow(at, started, Some(lease));
      && Reachable(w')
      && w' == w.(row := row, calls := w.calls[c := Caller(daemon, None, Coordinated(row))],
                  ledger := w.ledger.(leases := w.ledger.leases[lease.token := lease.expiresAt]))
  {
    w' := StepIsReachable(w, Coordinate(c, false, lease.token, lease.expiresAt - w.now));
    assert w' == CoordinateStep(w, c, false, lease.token, lease.expiresAt - w.now);
  }

  lemma JudgedForCleanup(w: World, c: nat, daemon: nat, at: int, started: bool, lease: Lease) returns (w': World)
    requires Reachable(w) && At(w, c) && w.facts.helperConfigured
    requires w.calls[c] == Caller(daemon, Some(lease.token), Waiting(AskedRow(at, started, Some(lease))))
    ensures Reachable(w')
    ensures w' == w.(calls := w.calls[c :=
      Caller(daemon, Some(lease.token), AskingCleanup(AskedRow(at, started, Some(lease))))])
  {
    var row := AskedRow(at, started, Some(lease));
    var judging := WaitIsOver(w, c, daemon, row, lease);
    w' := StepIsReachable(judging, Judge(c));
    AsksForCleanup(judging, c, daemon, at, started, lease);
    assert w'.calls == w.calls[c := Caller(daemon, Some(lease.token), AskingCleanup(row))];
  }

  lemma WaitIsOver(w: World, c: nat, daemon: nat, row: Row, lease: Lease) returns (w': World)
    requires Reachable(w) && At(w, c) && !row.connected
    requires w.calls[c] == Caller(daemon, Some(lease.token), Waiting(row))
    ensures Reachable(w')
    ensures w' == w.(calls := w.calls[c := Caller(daemon, Some(lease.token), Judging(row, row))])
  {
    w' := StepIsReachable(w, EndWait(c));
    assert w' == EndWaitStep(w, c);
  }

  lemma AsksForCleanup(w: World, c: nat, daemon: nat, at: int, started: bool, lease: Lease)
    requires At(w, c) && w.facts.helperConfigured
    requires var row := AskedRow(at, started, Some(lease));
      w.calls[c] == Caller(daemon, Some(lease.token), Judging(row, row))
    ensures JudgeStep(w, c) ==
      Moved(w, c, AskingCleanup(AskedRow(at, started, Some(lease))))
  {
  }

  /** One daemon's call under any lease it may be given, up to the point where it asks for the permit. */
  lemma CallReachesCleanup(w: World, c: nat, daemon: nat, at: int, started: bool, old': Option<Lease>, lease: Lease)
    returns (w': World)
    requires Reachable(w) && !At(w, c) && daemon !in w.operations && w.facts.helperConfigured
    requires Askable(w, at, started, old') && lease.token !in w.ledger.leases
    requires old'.Some? ==> old'.value.token != lease.token
    ensures Reachable(w')
    ensures w' == Leased(w, c, daemon, at, started, lease, AskingCleanup(AskedRow(at, started, Some(lease))))
  {
    var waiting := CallOwnsTheLease(w, c, daemon, at, started, old', lease);
    w' := JudgedForCleanup(waiting, c, daemon, at, started, lease);
    Relabelled(w, c, daemon, at, started, lease, Waiting(waiting.row), AskingCleanup(waiting.row));
  }

  lemma Relabelled(w: World, c: nat, daemon: nat, at: int, started: bool, lease: Lease, p: Phase, q: Phase)
    ensures var v := Leased(w, c, daemon, at, started, lease, p);
      v.(calls := v.calls[c := Caller(daemon, Some(lease.token), q)]) == Leased(w, c, daemon, at, started, lease, q)
  {
    assert w.calls[c := Caller(daemon, Some(lease.token), p)][c := Caller(daemon, Some(lease.token), q)]
        == w.calls[c := Caller(daemon, Some(lease.token), q)];
  }

  lemma CallOwnsTheLease(w: World, c: nat, daemon: nat, at: int, started: bool, old': Option<Lease>, lease: Lease)
    returns (w': World)
    requires Reachable(w) && !At(w, c) && daemon !in w.operations
    requires Askable(w, at, started, old') && lease.token !in w.ledger.leases
    requires old'.Some? ==> old'.value.token != lease.token
    ensures Reachable(w') && w' == Leased(w, c, daemon, at, started, lease, Waiting(AskedRow(at, started, Some(lease))))
  {
    var asked := RequestIsClaimed(w, c, daemon, at, started, old');
    w' := LeaseIsTaken(asked, c, daemon, at, started, old', lease);
    LeasedFromEither(w, asked, c, daemon, at, started, lease, Waiting(AskedRow(at, started, Some(lease))));
  }

  /** What the call and the row were before the lease was taken leaves no trace. */
  lemma LeasedFromEither(w: World, v: World, c: nat, daemon: nat, at: int, started: bool, lease: Lease, p: Phase)
    requires At(v, c) && v == w.(row := v.row, calls := w.calls[c := v.calls[c]])
    ensures Leased(v, c, daemon, at, started, lease, p) == Leased(w, c, daemon, at, started, lease, p)
  {
    var call := Caller(daemon, Some(lease.token), p);
    assert v.calls[c := call] == w.calls[c := call];
  }

  // ---------------------------------------------------------------- a permit that outlives its Task

  /** Call 0 holds a permit under a lease that ends at `end`, and the Task is over. */
  ghost predicate Outlived(w: World, single: bool, now: int, end: int) {
    && Reachable(w) && At(w, 0) && w.calls[0].phase.CleanupGranted? && Terminal(w.row.status)
    && w.facts.singleDaemon == single && w.now == now
    && w.calls[0].phase.current.lease == Some(Lease(1, end))
  }

  /** The permit of a first call that took its lease at `start`. */
  lemma PermitIsGranted(single: bool, start: int, end: int) returns (w: World)
    requires start < end
    ensures Reachable(w) && w.now == start && w.facts == Beginning(single, start).facts
    ensures w.row == AskedRow(start, true, Some(Lease(1, end))) && w.operations == map[0 := 0]
    ensures w.calls.Keys == {0} && w.ledger.leases == map[1 := end]
    ensures w.calls[0].phase.CleanupGranted? && w.calls[0].phase.current.lease == Some(Lease(1, end))
    ensures w.calls[0].phase.current == AskedRow(start, false, Some(Lease(1, end)))
    ensures w.calls[0].token == Some(1) && w.calls[0].input == RECONCILE && w.ledger.helperRuns == []
  {
    BeginningIsReachable(single, start);
    var asking := CallReachesCleanup(Beginning(single, start), 0, 0, start, false, None, Lease(1, end));
    w := StepIsReachable(asking, AskCleanup(0, true));
    assert w == AskCleanupStep(asking, 0, true);
  }

  /** The boot release ends the Task under a lease that is still running. */
  lemma ReleasedUnderPermit(now: int, end: int)
    requires now < end
    ensures exists w :: Outlived(w, true, now, end)
  {
    var granted := PermitIsGranted(true, now, end);
    var w := StepIsReachable(granted, RestartRelease);
    assert Outlived(w, true, now, end);
  }

  /** Once the lease has run out, a second owner guards the Task and a user force-fails it. */
  lemma ForcedUnderPermit(single: bool, now: int, end: int)
    requires end <= now
    ensures exists w :: Outlived(w, single, now, end)
  {
    var start := end - 1;
    var granted := PermitIsGranted(single, start, end);
    var later := StepIsReachable(granted, Tick(now));
    var asking := CallReachesCleanup(later, 1, 1, start, true, Some(Lease(1, end)), Lease(2, now + 1));
    var guarded := GuardedUnderPermit(asking, start, now);
    GuardIsForced(guarded, single, start, now, end);
  }

  lemma GuardIsForced(w: World, single: bool, at: int, now: int, end: int)
    requires Reachable(w) && At(w, 0) && w.calls[0].phase.CleanupGranted? && w.now == now
    requires w.facts.singleDaemon == single && w.calls[0].phase.current.lease == Some(Lease(1, end))
    requires w.row == AskedRow(at, true, None).(unverifiedMark := true, failure := Some(Failure(true, Unverified)))
    ensures exists w' :: Outlived(w', single, now, end)
  {
    var w' := StepIsReachable(w, ForceFail(at, None));
    assert w' == ForceFailStep(w, at, None);
    assert Outlived(w', single, now, end);
  }

  lemma GuardedUnderPermit(w: World, at: int, now: int) returns (w': World)
    requires Reachable(w) && At(w, 0) && w.calls[0].phase.CleanupGranted? && At(w, 1) && w.now == now
    requires w.row == AskedRow(at, true, Some(Lease(2, now + 1)))
    requires w.calls[1] == Caller(1, Some(2), AskingCleanup(w.row))
    ensures Reachable(w') && At(w', 0) && w'.calls[0] == w.calls[0] && w'.now == now && w'.facts == w.facts
    ensures w'.row == AskedRow(at, true, None).(unverifiedMark := true, failure := Some(Failure(true, Unverified)))
  {
    var verdict := StepIsReachable(w, AskCleanup(1, true));
    assert verdict == w.(calls := w.calls[1 := Caller(1, Some(2), Verdict(w.row, false, false))]);
    w' := StepIsReachable(verdict, Settle(1));
    assert w' == SettleUnverifiedStep(verdict, 1);
  }

  /** A helper is about to be started by `c`, under a lease that ends at `end`. */
  ghost predicate StartsHelper(w: World, c: nat, single: bool, now: int, end: int) {
    && Reachable(w) && Enabled(w, InvokeHelper(c)) && w.facts.singleDaemon == single && w.now == now
    && w.calls[c].phase.current.lease.Some? && w.calls[c].phase.current.lease.value.expiresAt == end
  }

  /**
   * A started helper serves a Task that is not over exactly when the daemon is not the only one and
   * reads a clock before the end of its own lease: over every run with such a reading, if and only if.
   */
  lemma HelperServesALiveTaskExactlyWhile(single: bool, now: int, end: int)
    ensures (forall w, c :: StartsHelper(w, c, single, now, end) ==> !Terminal(w.row.status)) <==>
            !single && now < end
  {
    if !single && now < end {
      forall w, c | StartsHelper(w, c, single, now, end) ensures !Terminal(w.row.status) {
        PermitServesALiveTask(w, c);
      }
    } else {
      if now < end { ReleasedUnderPermit(now, end); } else { ForcedUnderPermit(single, now, end); }
      var w :| Outlived(w, single, now, end);
      assert StartsHelper(w, 0, single, now, end);
    }
  }

  /** In such a run the helper really starts, for a Task that is over, on several daemons and on one. */
  lemma PermitCanOutliveTheTask(single: bool)
    ensures exists w: World, c: nat ::
      && Reachable(w) && At(w, c) && w.calls[c].phase.CleanupRunning? && w.facts.singleDaemon == single
      && w.ledger.helperRuns != [] && Terminal(w.row.status)
  {
    ForcedUnderPermit(single, 0, 0);
    var w :| Outlived(w, single, 0, 0);
    var w' := StepIsReachable(w, InvokeHelper(0));
    assert w' == InvokeHelperStep(w, 0);
    assert At(w', 0) && w'.calls[0].phase.CleanupRunning?;
  }

  // ---------------------------------------------------------------- ways out without proof

  /** A Task that was asked to stop and is over although something it ran is alive. */
  ghost predicate StoppedUnproved(w: World, single: bool) {
    Reachable(w) && w.facts.singleDaemon == single && w.row.request.Some? && Terminal(w.row.status) && !Gone(w)
  }

  ghost predicate ForcedUnderGuard(w: World) {
    && w.ledger.ending.Some? && w.ledger.ending.value.ForcedUnverified?
    && w.ledger.ending.value.revision in w.ledger.guarded
  }

  /** For Tasks asked to stop, a guarded force-fail is the only unproved way out exactly without a single daemon. */
  lemma ForceFailIsTheOnlyOtherWay(single: bool)
    ensures (forall w :: StoppedUnproved(w, single) ==> ForcedUnderGuard(w)) <==> !single
  {
    if single {
      BeginningIsReachable(true, 0);
      var asked := RequestIsClaimed(Beginning(true, 0), 0, 0, 0, false, None);
      var w := StepIsReachable(asked, RestartRelease);
      assert StoppedUnproved(w, true) && !ForcedUnderGuard(w);
    } else {
      forall w | StoppedUnproved(w, single) ensures ForcedUnderGuard(w) {
        UnprovedEndings(w);
      }
    }
  }

  /** An executor, at work or waiting, may report its own end while still alive, before anybody asked it to stop. */
  lemma ReportCanPrecedeTheExit(single: bool, during: Status, status: Status)
    requires during in {Running, Awaiting} && Terminal(status)
    ensures exists w ::
      Reachable(w) && w.facts.singleDaemon == single && w.row.status == status && w.facts.executorAlive &&
      w.ledger.ending == Some(ExecutorReported)
  {
    BeginningIsReachable(single, 0);
    var connected := StepIsReachable(Beginning(single, 0), ExecutorConnects);
    var there := StepIsReachable(connected, Pauses(during));
    var w := StepIsReachable(there, ExecutorReports(status));
  }

  /** A plain update may end a Task whose executor lives and has not even connected. */
  lemma DaemonCanEndAnUnconnectedTask(single: bool, status: Status)
    requires Terminal(status)
    ensures exists w ::
      && Reachable(w) && w.facts.singleDaemon == single && w.row.status == status
      && w.facts.executorAlive && !w.row.connected && w.ledger.ending == Some(EndedByDaemon)
  {
    BeginningIsReachable(single, 0);
    var w := StepIsReachable(Beginning(single, 0), DaemonEnds(status));
  }
}
