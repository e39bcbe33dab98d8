/**
 * The termination coordinator as a step system: one shared Task row, any number
 * of daemons each running any number of concurrent calls, and the ground truth
 * the protocol tries to establish (is the executor, or a server it started, alive?).
 * A phase is a point between two awaits of a call; a step is what runs between them.
 */
module TerminationProtocol {
  import opened Options
  import opened TaskRow

  /** `graceMs` is the cooperative grace already resolved for this call. */
  datatype Input = Input(
    claim: ClaimInput,
    absenceVerified: bool,
    deadlineExpired: bool,
    allowUnowned: bool,
    ownerGraceMs: Option<int>,
    graceMs: int)

  datatype Result = ResTerminal | ResChanged | ResUnverified | ResPending | ResJoined | ResThrew

  datatype Phase =
    | Arrived
    | RequestClaimed(outcome: ClaimOutcome, task: Row)
    | Coordinating(task: Row)
    | Coordinated(task: Row)
    | Waiting(requested: Row)
    | Judging(requested: Row, current: Row)
    | AskingCleanup(current: Row)
    | CleanupGranted(current: Row, revision: Revision)
    | CleanupRunning(current: Row)
    | Probing(current: Row)
    | Verdict(current: Row, absent: bool, helperConfirmed: bool)
    | Finished(result: Result)

  /** A call of requestExecutorTermination or beginExecutorTermination. */
  datatype Call = Call(daemon: nat, input: Input, token: Option<nat>, reevaluated: bool, phase: Phase)

  /**
   * `objects`: the tool declares its termination unverifiable; `hosted`: its server lives in the
   * executor's own Job.
   */
  datatype Tool = Tool(objects: bool, hosted: bool)

  datatype Ending = VerifiedAbsent | ForcedUnverified(revision: Revision) | RestartReleased
                  | ExecutorReported | EndedByDaemon

  /** Deployment constants and the ground truth no daemon can read. */
  datatype Facts = Facts(
    tool: Tool,
    helperConfigured: bool,
    singleDaemon: bool,
    executorAlive: bool,
    serverAlive: bool)

  /** History, read by no step; `leases` holds every lease ever given, by its token. */
  datatype Ledger = Ledger(
    retryIds: set<nat>,
    leases: map<nat, int>,
    granted: set<Revision>,
    helperRuns: seq<Revision>,
    guarded: set<Revision>,
    ending: Option<Ending>)

  datatype World = World(
    row: Row,
    now: int,
    facts: Facts,
    calls: map<nat, Call>,
    operations: map<nat, nat>,
    ledger: Ledger)

  /** Phases inside runContainment, while the daemon's operations entry names the call. */
  predicate Containing(p: Phase) {
    p.Waiting? || p.Judging? || p.AskingCleanup? || p.CleanupGranted? || p.CleanupRunning?
    || p.Probing? || p.Verdict?
  }

  datatype Action =
    | Tick(to: int)
    | ExecutorStops
    | ServerStops
    | ExecutorConnects
    | ExecutorReports(status: Status)
    | Dispatched
    | Pauses(status: Status)
    | Observed(failure: Failure)
    | DaemonEnds(status: Status)
    | ExecutorQuiesces(requestedAt: int)
    | Arrive(call: nat, daemon: nat, input: Input)
    | ClaimRequest(call: nat)
    | Decide(call: nat)
    | Coordinate(call: nat, ownsHandle: bool, token: nat, leaseMs: int)
    | Start(call: nat)
    | EndWait(call: nat)
    | Judge(call: nat)
    | AskCleanup(call: nat, contextFound: bool)
    | InvokeHelper(call: nat)
    | HelperExits(call: nat, confirmed: bool)
    | ProbeEnds(call: nat, absent: bool)
    | Settle(call: nat)
    | Fail(call: nat)
    | Crash(daemon: nat)
    | RetryCleanup(requestedAt: int, revision: Revision, newId: nat)
    | ForceFail(requestedAt: int, expectedRevision: Option<nat>)
    | RestartRelease

  // ---------------------------------------------------------------- steps of one call

  predicate At(w: World, c: nat) { c in w.calls }

  function Moved(w: World, c: nat, phase: Phase): World
    requires At(w, c)
  {
    w.(calls := w.calls[c := w.calls[c].(phase := phase)])
  }

  /** The promise settles: its operations entry, if it has one, goes with it. */
  function Finish(w: World, c: nat, result: Result): World
    requires At(w, c)
  {
    var call := w.calls[c];
    var held := call.daemon in w.operations && w.operations[call.daemon] == c;
    w.(calls := w.calls[c := call.(phase := Finished(result))],
       operations := if held then w.operations - {call.daemon} else w.operations)
  }

  /** startContainment and the synchronous head of runContainment. */
  function StartOperation(w: World, c: nat, requested: Row): World
    requires At(w, c)
  {
    var call := w.calls[c];
    if call.daemon in w.operations then Finish(w, c, ResJoined)
    else if Token(requested).None? && !Terminal(requested.status) then Finish(w, c, ResChanged)
    else
      w.(calls := w.calls[c := call.(token := Token(requested), phase := Waiting(requested))],
         operations := w.operations[call.daemon := c])
  }

  function ClaimRequestStep(w: World, c: nat): World
    requires At(w, c)
  {
    var (outcome, row) := ClaimTermination(w.row, w.calls[c].input.claim, w.now);
    Moved(w.(row := row), c, RequestClaimed(outcome, row))
  }

  function DecideStep(w: World, c: nat): World
    requires At(w, c) && w.calls[c].phase.RequestClaimed?
  {
    var input := w.calls[c].input;
    var RequestClaimed(outcome, task) := w.calls[c].phase;
    if outcome == ClaimTerminal && input.absenceVerified then Finish(w, c, ResTerminal)
    else if outcome == ClaimChanged then Finish(w, c, ResChanged)
    else if w.calls[c].daemon in w.operations then Finish(w, c, ResJoined)
    else if outcome == ClaimTerminal then StartOperation(w, c, task)
    else if !input.absenceVerified && !input.deadlineExpired && AwaitingRemoteExecutor(task)
    then Finish(w, c, ResPending)
    else Moved(w, c, Coordinating(task))
  }

  function CoordinateStep(w: World, c: nat, ownsHandle: bool, token: nat, leaseMs: int): World
    requires At(w, c) && w.calls[c].phase.Coordinating?
  {
    var input := w.calls[c].input;
    var task := w.calls[c].phase.task;
    if !task.remote && !ownsHandle && !input.absenceVerified && !input.allowUnowned
    then Finish(w, c, ResPending)
    else
      var minimumAge := if !task.remote && !ownsHandle then input.ownerGraceMs else None;
      var (outcome, row) := ClaimCoordination(w.row, token, leaseMs, minimumAge, w.now);
      match outcome
      case LeaseClaimed =>
        Moved(w.(row := row, ledger := w.ledger.(leases := w.ledger.leases[token := w.now + leaseMs])), c,
              Coordinated(row))
      case LeaseUnchanged => Finish(w, c, ResPending)
      case _ => Finish(w, c, ResChanged)
  }

  /** No cooperative wait: nothing connected, already acknowledged, already over, or no grace. */
  predicate SkipsWait(input: Input, requested: Row) {
    !requested.connected || Quiesced(requested) || Terminal(requested.status) || input.graceMs <= 0
  }

  /** The wait ends on the requested snapshot or on a row read later; polls in between change nothing. */
  function EndWaitStep(w: World, c: nat): World
    requires At(w, c) && w.calls[c].phase.Waiting?
  {
    var requested := w.calls[c].phase.requested;
    Moved(w, c, Judging(requested, if SkipsWait(w.calls[c].input, requested) then requested else w.row))
  }

  function JudgeStep(w: World, c: nat): World
    requires At(w, c) && w.calls[c].phase.Judging?
  {
    var call := w.calls[c];
    var Judging(requested, current) := call.phase;
    if current.status == Stopping && Token(current) != call.token then Finish(w, c, ResChanged)
    else if current.status != requested.status && current.status != Stopping && !Terminal(current.status)
    then Finish(w, c, ResChanged)
    else if call.input.absenceVerified then Moved(w, c, Verdict(current, true, false))
    else if current.remote then
      if Quiesced(current) then Moved(w, c, Verdict(current, true, false))
      else if !w.facts.helperConfigured || Terminal(current.status) || Token(current).None?
      then Moved(w, c, Verdict(current, false, false))
      else Moved(w, c, AskingCleanup(current))
    else Moved(w, c, Probing(current))
  }

  /** beginCleanupAttempt commits before the helper may be invoked. */
  function AskCleanupStep(w: World, c: nat, contextFound: bool): World
    requires At(w, c) && w.calls[c].phase.AskingCleanup?
  {
    var current := w.calls[c].phase.current;
    if contextFound && current.lease.Some? && MayBeginCleanup(w.row, current.lease.value.token, w.now) then
      var revision := CurrentRevision(w.row.request.value);
      Moved(w.(row := BeginCleanup(w.row), ledger := w.ledger.(granted := w.ledger.granted + {revision})), c,
            CleanupGranted(current, revision))
    else Moved(w, c, Verdict(current, false, false))
  }

  function InvokeHelperStep(w: World, c: nat): World
    requires At(w, c) && w.calls[c].phase.CleanupGranted?
  {
    var CleanupGranted(current, revision) := w.calls[c].phase;
    Moved(w.(ledger := w.ledger.(helperRuns := w.ledger.helperRuns + [revision])), c, CleanupRunning(current))
  }

  /** The tool's standing objection, unless its server provably went with the executor or never existed. */
  predicate Objection(tool: Tool, call: Call, current: Row, helperConfirmed: bool) {
    && tool.objects
    && !(current.remote && (Quiesced(current) || helperConfirmed) && tool.hosted)
    && !(call.input.absenceVerified && call.input.claim.cause == LaunchRefused)
  }

  /** Settlement of an unverified verdict; a fresh acknowledgement sends the same owner round once more. */
  function SettleUnverifiedStep(w: World, c: nat): World
    requires At(w, c) && w.calls[c].phase.Verdict? && w.calls[c].token.Some?
  {
    var call := w.calls[c];
    var current := call.phase.current;
    var (outcome, row) :=
      SettleUnverified(w.row, call.token.value, QuiescedAt(current), GuardDiagnosis(current));
    match outcome
    case SettleChanged =>
      if !Quiesced(current) && row.status == Stopping && Token(row) == call.token && Quiesced(row)
      then w.(calls := w.calls[c := call.(reevaluated := true, phase := Waiting(row))])
      else Finish(w, c, ResChanged)
    case SettledUnverified =>
      Finish(w.(row := row, ledger := w.ledger.(guarded := w.ledger.guarded + RevisionsOf(row))), c, ResUnverified)
    case _ => Finish(w, c, ResUnverified)
  }

  function RevisionsOf(r: Row): set<Revision> {
    if r.request.Some? then {CurrentRevision(r.request.value)} else {}
  }

  function SettleVerifiedStep(w: World, c: nat): World
    requires At(w, c) && w.calls[c].token.Some?
  {
    var (outcome, row) := SettleVerified(w.row, w.calls[c].token.value);
    match outcome
    case SettleChanged => Finish(w, c, ResChanged)
    case Transitioned =>
      Finish(w.(row := row, ledger := w.ledger.(ending := Some(VerifiedAbsent))), c, ResTerminal)
    case _ => Finish(w, c, ResTerminal)
  }

  function SettleStep(w: World, c: nat): World
    requires At(w, c) && w.calls[c].phase.Verdict?
  {
    var call := w.calls[c];
    var Verdict(current, absent, helperConfirmed) := call.phase;
    if Terminal(current.status) then Finish(w, c, if absent then ResTerminal else ResUnverified)
    else if call.token.None? then Finish(w, c, ResChanged)
    else if !absent || Objection(w.facts.tool, call, current, helperConfirmed) then SettleUnverifiedStep(w, c)
    else SettleVerifiedStep(w, c)
  }

  function CrashStep(w: World, d: nat): World {
    w.(calls := map c | c in w.calls && w.calls[c].daemon != d :: w.calls[c],
       operations := w.operations - {d})
  }

  function ForceFailStep(w: World, requestedAt: int, expected: Option<nat>): World {
    var (outcome, row) := SettleForced(w.row, requestedAt, expected);
    if outcome == Transitioned && w.row.request.Some?
    then w.(row := row, ledger := w.ledger.(ending := Some(ForcedUnverified(CurrentRevision(w.row.request.value)))))
    else w
  }

  function RestartReleaseStep(w: World): World {
    var (outcome, row) := SettleRestart(w.row);
    if outcome == Transitioned then w.(row := row, ledger := w.ledger.(ending := Some(RestartReleased))) else w
  }

  // ---------------------------------------------------------------- environment assumptions

  ghost predicate Gone(w: World) { !w.facts.executorAlive && !w.facts.serverAlive }

  /**
   * What a caller's absence claim is worth at the row-locked claim: a refused launch created
   * nothing at all; any other authoritative launcher failure created nothing unless an executor
   * connected, and asks the claim to lose in that case.
   */
  ghost predicate HonestInput(w: World, i: Input) {
    && (i.claim.cause == LaunchRefused ==> Gone(w))
    && (i.absenceVerified ==>
        !w.facts.executorAlive || (i.claim.requireDisconnected && w.row.connected))
  }

  /** No claim brings an unverified diagnosis of its own, and none takes a guarded row over with a clean one. */
  ghost predicate HonestDiagnosis(r: Row, c: ClaimInput) {
    c.failure.Some? ==>
      if r.request.Some? && Guarded(r) then !TakesOverClean(r, c) else c.failure.value.evidence != Unverified
  }

  ghost predicate Enabled(w: World, a: Action) {
    match a
    case Tick(to) => w.now <= to
    case ExecutorStops => true
    // Inside the executor's own Job a server cannot outlive the executor, but it may end first.
    case ServerStops => true
    case ExecutorConnects => MayConnect(w.row) && w.facts.executorAlive
    case ExecutorReports(s) => MayReportResult(w.row) && Terminal(s)
    case Dispatched => w.row.status == Queued
    case Pauses(s) => w.row.status in {Running, Awaiting} && s in {Running, Awaiting}
    // A watchdog that only observes diagnoses without asking for an end.
    case Observed(f) => MayReportResult(w.row) && f.evidence == NotRequested
    // The complete and fail routes and a failed spawn end any Task nobody was asked to stop.
    case DaemonEnds(s) => MayEndDirectly(w.row) && Terminal(s)
    // A remote executor acknowledges only once its own work is over; a local one may still be exiting.
    case ExecutorQuiesces(at) => AcceptsQuiescence(w.row, at) && (w.row.remote ==> !w.facts.executorAlive)
    case Arrive(c, _, _) => !At(w, c)
    case ClaimRequest(c) =>
      && At(w, c) && w.calls[c].phase.Arrived?
      && HonestInput(w, w.calls[c].input) && HonestDiagnosis(w.row, w.calls[c].input.claim)
    case Decide(c) => At(w, c) && w.calls[c].phase.RequestClaimed?
    // Every coordination draws a new random token.
    case Coordinate(c, _, token, _) => At(w, c) && w.calls[c].phase.Coordinating? && token !in w.ledger.leases
    case Start(c) => At(w, c) && w.calls[c].phase.Coordinated?
    case EndWait(c) => At(w, c) && w.calls[c].phase.Waiting?
    case Judge(c) => At(w, c) && w.calls[c].phase.Judging?
    case AskCleanup(c, _) => At(w, c) && w.calls[c].phase.AskingCleanup?
    case InvokeHelper(c) => At(w, c) && w.calls[c].phase.CleanupGranted?
    // A helper that exits zero has seen the executor gone.
    case HelperExits(c, confirmed) =>
      At(w, c) && w.calls[c].phase.CleanupRunning? && (confirmed ==> !w.facts.executorAlive)
    // Group absence is the containment theorem of module ProcessContainment.
    case ProbeEnds(c, absent) =>
      At(w, c) && w.calls[c].phase.Probing? && (absent ==> !w.facts.executorAlive)
    case Settle(c) => At(w, c) && w.calls[c].phase.Verdict?
    // A database or helper error may end a call between any two awaits.
    case Fail(c) => At(w, c) && !w.calls[c].phase.Finished?
    case Crash(_) => true
    case RetryCleanup(at, revision, newId) => MayRetry(w.row, at, revision) && newId !in w.ledger.retryIds
    case ForceFail(_, _) => true
    // Only a daemon that owns every active Task releases, and only executing Tasks.
    case RestartRelease => w.facts.singleDaemon && w.row.status != Queued
  }

  ghost function Apply(w: World, a: Action): World
    requires Enabled(w, a)
  {
    match a
    case Tick(to) => w.(now := to)
    case ExecutorStops =>
      w.(facts := w.facts.(
        executorAlive := false, serverAlive := w.facts.serverAlive && !(w.row.remote && w.facts.tool.hosted)))
    case ServerStops => w.(facts := w.facts.(serverAlive := false))
    case ExecutorConnects => w.(row := Connect(w.row, w.now))
    case ExecutorReports(s) => w.(row := w.row.(status := s), ledger := w.ledger.(ending := Some(ExecutorReported)))
    case Dispatched => w.(row := w.row.(status := Dispatching))
    case Pauses(s) => w.(row := w.row.(status := s))
    case Observed(f) => w.(row := w.row.(failure := Some(f)))
    case DaemonEnds(s) => w.(row := w.row.(status := s), ledger := w.ledger.(ending := Some(EndedByDaemon)))
    case ExecutorQuiesces(_) => w.(row := RecordQuiescence(w.row, w.now))
    case Arrive(c, d, input) => w.(calls := w.calls[c := Call(d, input, None, false, Arrived)])
    case ClaimRequest(c) => ClaimRequestStep(w, c)
    case Decide(c) => DecideStep(w, c)
    case Coordinate(c, owns, token, leaseMs) => CoordinateStep(w, c, owns, token, leaseMs)
    case Start(c) => StartOperation(w, c, w.calls[c].phase.task)
    case EndWait(c) => EndWaitStep(w, c)
    case Judge(c) => JudgeStep(w, c)
    case AskCleanup(c, found) => AskCleanupStep(w, c, found)
    case InvokeHelper(c) => InvokeHelperStep(w, c)
    case HelperExits(c, confirmed) => Moved(w, c, Verdict(w.calls[c].phase.current, confirmed, confirmed))
    case ProbeEnds(c, absent) => Moved(w, c, Verdict(w.calls[c].phase.current, absent, false))
    case Settle(c) => SettleStep(w, c)
    case Fail(c) => Finish(w, c, ResThrew)
    case Crash(d) => CrashStep(w, d)
    case RetryCleanup(_, _, newId) =>
      w.(row := Retry(w.row, newId), ledger := w.ledger.(retryIds := w.ledger.retryIds + {newId}))
    case ForceFail(at, expected) => ForceFailStep(w, at, expected)
    case RestartRelease => RestartReleaseStep(w)
  }

  // ---------------------------------------------------------------- runs

  /** Nobody asked to stop yet; a server can exist only for a tool that declares one. */
  ghost predicate Initial(w: World) {
    && !Terminal(w.row.status) && w.row.status != Stopping
    && w.row.request.None? && w.row.lease.None? && !Guarded(w.row)
    && (w.facts.serverAlive ==> w.facts.tool.objects)
    && (w.row.remote && w.facts.tool.hosted && w.facts.serverAlive ==> w.facts.executorAlive)
    && w.calls == map[] && w.operations == map[]
    && w.ledger == Ledger({}, map[], {}, [], {}, None)
  }

  ghost predicate CanRun(w: World, run: seq<Action>)
    decreases |run|
  {
    run == [] || (Enabled(w, run[0]) && CanRun(Apply(w, run[0]), run[1..]))
  }

  ghost function Run(w: World, run: seq<Action>): World
    requires CanRun(w, run)
    decreases |run|
  {
    if run == [] then w else Run(Apply(w, run[0]), run[1..])
  }
}
