/**
 * The durable Task row and the row-locked transitions that termination uses.
 * Each function is one short database transaction of the Task repository: it
 * takes the locked row and answers the outcome together with the row it commits.
 */
module TaskRow {
  import opened Options

  datatype Status = Queued | Dispatching | Running | Awaiting | Stopping
                  | Completed | Failed | Stopped | TimedOut

  predicate Terminal(s: Status) { s in {Completed, Failed, Stopped, TimedOut} }

  datatype Cause = UserStop | LaunchRefused | OtherCause(code: nat)

  /** Which termination evidence a stored diagnosis carries. */
  datatype Evidence = NotRequested | Requested | Verified | Unverified

  /** `synthetic` is the diagnosis the unverified guard writes about itself. */
  datatype Failure = Failure(synthetic: bool, evidence: Evidence)

  /** One cleanup budget: the request itself, then one per explicit retry. */
  datatype Revision = Original(requestedAt: int) | Retried(id: nat)

  datatype Request = Request(
    cause: Cause,
    requestedAt: int,
    revision: Option<nat>,
    quiescedAt: Option<int>,
    cleanupStarted: bool)

  datatype Lease = Lease(token: nat, expiresAt: int)

  datatype Row = Row(
    status: Status,
    remote: bool,
    connected: bool,
    heartbeatAt: Option<int>,
    request: Option<Request>,
    lease: Option<Lease>,
    unverifiedMark: bool,
    failure: Option<Failure>)

  function CurrentRevision(q: Request): Revision {
    match q.revision
    case Some(id) => Retried(id)
    case None => Original(q.requestedAt)
  }

  predicate Quiesced(r: Row) { r.request.Some? && r.request.value.quiescedAt.Some? }

  function QuiescedAt(r: Row): Option<int> {
    if r.request.Some? then r.request.value.quiescedAt else None
  }

  predicate FailureGuards(r: Row) { r.failure.Some? && r.failure.value.evidence == Unverified }

  /** Either half of the guard stops a coordinator from settling. */
  predicate Guarded(r: Row) { r.unverifiedMark || FailureGuards(r) }

  function Token(r: Row): Option<nat> {
    if r.lease.Some? then Some(r.lease.value.token) else None
  }

  predicate AwaitingRemoteExecutor(r: Row) {
    && r.status == Stopping && r.remote && !r.connected
    && r.request.Some? && r.request.value.quiescedAt.None? && !FailureGuards(r)
  }

  // ---------------------------------------------------------------- claim

  datatype ClaimInput = ClaimInput(
    cause: Cause,
    failure: Option<Failure>,
    expectedStatus: Option<Status>,
    expectedHeartbeatAt: Option<int>,
    heartbeatStaleBefore: Option<int>,
    requireDisconnected: bool)

  datatype ClaimOutcome = ClaimTerminal | ClaimChanged | ClaimUnchanged | Claimed

  predicate ClaimConditionChanged(r: Row, c: ClaimInput) {
    || (c.expectedStatus.Some? && r.status != c.expectedStatus.value)
    || (c.expectedHeartbeatAt.Some? && r.heartbeatAt != c.expectedHeartbeatAt)
    || (c.heartbeatStaleBefore.Some? &&
        (r.heartbeatAt.None? || r.heartbeatAt.value > c.heartbeatStaleBefore.value))
    || (c.requireDisconnected && r.connected)
  }

  function ClaimedCause(r: Row, c: ClaimInput): Cause {
    if c.cause == UserStop || r.request.None? then c.cause else r.request.value.cause
  }

  function ClaimTermination(r: Row, c: ClaimInput, now: int): (ClaimOutcome, Row) {
    if Terminal(r.status) then (ClaimTerminal, r)
    else if ClaimConditionChanged(r, c) then (ClaimChanged, r)
    else
      var cause := ClaimedCause(r, c);
      if r.status == Stopping && r.request.Some? && r.request.value.cause == cause
      then (ClaimUnchanged, r)
      else
        var incomingWins := r.request.None? || c.cause == UserStop || r.request.value.cause == c.cause;
        var request := if r.request.Some? then r.request.value.(cause := cause)
                       else Request(cause, now, None, None, false);
        var failure := if incomingWins && c.failure.Some? then c.failure else r.failure;
        var stamped := if failure.None? then None
                       else Some(failure.value.(evidence :=
                         if failure.value.evidence == Unverified then Unverified else Requested));
        (Claimed, r.(status := Stopping, request := Some(request), failure := stamped))
  }

  // ---------------------------------------------------------------- coordination lease

  datatype LeaseOutcome = LeaseTerminal | LeaseChanged | LeaseUnchanged | LeaseClaimed

  function ClaimCoordination(r: Row, token: nat, leaseMs: int, minimumAge: Option<int>, now: int)
    : (LeaseOutcome, Row)
  {
    if Terminal(r.status) then (LeaseTerminal, r)
    else if r.status != Stopping || r.request.None? then (LeaseChanged, r)
    else if Guarded(r) then (LeaseChanged, r)
    else if Token(r) == Some(token) then (LeaseUnchanged, r)
    else if minimumAge.Some? && now - r.request.value.requestedAt < minimumAge.value
    then (LeaseChanged, r)
    else if r.lease.None? || r.lease.value.expiresAt <= now
    then (LeaseClaimed, r.(lease := Some(Lease(token, now + leaseMs))))
    else (LeaseUnchanged, r)
  }

  // ---------------------------------------------------------------- cleanup helper permit

  predicate MayBeginCleanup(r: Row, token: nat, now: int) {
    && r.status == Stopping && r.request.Some? && !r.request.value.cleanupStarted
    && r.lease.Some? && r.lease.value.token == token && now < r.lease.value.expiresAt
    && !r.unverifiedMark
  }

  function BeginCleanup(r: Row): Row
    requires r.request.Some?
  {
    r.(request := Some(r.request.value.(cleanupStarted := true)))
  }

  // ---------------------------------------------------------------- retry

  predicate MayRetry(r: Row, requestedAt: int, revision: Revision) {
    && r.status == Stopping && r.request.Some? && FailureGuards(r)
    && r.request.value.requestedAt == requestedAt
    && CurrentRevision(r.request.value) == revision
  }

  /** A synthetic diagnosis is dropped; a real one survives, asking again. */
  function Reopened(f: Option<Failure>): Option<Failure> {
    if f.None? || f.value.synthetic then None else Some(f.value.(evidence := Requested))
  }

  function Retry(r: Row, newId: nat): Row
    requires r.request.Some?
  {
    r.(request := Some(r.request.value.(revision := Some(newId), cleanupStarted := false)),
       lease := None, unverifiedMark := false, failure := Reopened(r.failure))
  }

  // ---------------------------------------------------------------- executor reports

  predicate AcceptsQuiescence(r: Row, requestedAt: int) {
    r.status == Stopping && r.request.Some? && r.request.value.requestedAt == requestedAt
  }

  function RecordQuiescence(r: Row, now: int): Row
    requires r.request.Some?
  {
    if r.request.value.quiescedAt.Some? then r
    else
      var noted := r.(request := Some(r.request.value.(quiescedAt := Some(now))));
      if Guarded(r) then noted.(unverifiedMark := false, failure := Reopened(r.failure)) else noted
  }

  predicate MayConnect(r: Row) { r.status == Dispatching }

  function Connect(r: Row, now: int): Row {
    r.(status := Running, connected := true, heartbeatAt := Some(now))
  }

  /** The plain row update refuses a terminal row and one whose end belongs to its termination request. */
  predicate MayEndDirectly(r: Row) { !Terminal(r.status) && !(r.status == Stopping && r.request.Some?) }

  predicate MayReportResult(r: Row) { r.connected && r.status in {Running, Awaiting} }

  // ---------------------------------------------------------------- settlement

  datatype SettleOutcome = SettleTerminal | SettleChanged | SettledUnverified | Transitioned

  function FinalStatus(r: Row): Status
    requires r.request.Some?
  {
    if r.request.value.cause == UserStop then Stopped else Failed
  }

  function Ended(r: Row, status: Status, evidence: Evidence): Row {
    r.(status := status, lease := None, unverifiedMark := false,
       failure := if r.failure.None? then None else Some(r.failure.value.(evidence := evidence)))
  }

  /** What both owner settlements demand of the locked row. */
  predicate OwnsSettlement(r: Row, token: nat) {
    r.status == Stopping && r.request.Some? && !Guarded(r) && Token(r) == Some(token)
  }

  function SettleVerified(r: Row, token: nat): (SettleOutcome, Row) {
    if Terminal(r.status) then (SettleTerminal, r)
    else if !OwnsSettlement(r, token) then (SettleChanged, r)
    else (Transitioned, Ended(r, FinalStatus(r), Verified))
  }

  function GuardDiagnosis(snapshot: Row): Failure {
    if snapshot.failure.Some? then snapshot.failure.value.(evidence := Unverified)
    else Failure(true, Unverified)
  }

  function SettleUnverified(r: Row, token: nat, expectedQuiescedAt: Option<int>, diagnosis: Failure)
    : (SettleOutcome, Row)
  {
    if Terminal(r.status) then (SettleTerminal, r)
    else if !OwnsSettlement(r, token) then (SettleChanged, r)
    else if QuiescedAt(r) != expectedQuiescedAt then (SettleChanged, r)
    else (SettledUnverified,
          r.(lease := None, unverifiedMark := true,
             failure := Some(diagnosis.(evidence := Unverified))))
  }

  function SettleForced(r: Row, requestedAt: int, revision: Option<nat>): (SettleOutcome, Row) {
    if Terminal(r.status) then (SettleTerminal, r)
    else if r.status != Stopping || r.request.None? then (SettleChanged, r)
    else if !FailureGuards(r) || r.request.value.requestedAt != requestedAt
         || CurrentRevision(r.request.value) !=
            (if revision.Some? then Retried(revision.value) else Original(requestedAt))
    then (SettleChanged, r)
    else (Transitioned, Ended(r, Failed, Unverified))
  }

  /** Boot-time release used by a daemon that owns every active Task. */
  function SettleRestart(r: Row): (SettleOutcome, Row) {
    if Terminal(r.status) then (SettleTerminal, r)
    else
      (Transitioned,
       r.(status := Stopped, lease := None, unverifiedMark := false,
          failure := Some(if r.failure.Some? then r.failure.value.(evidence := Unverified)
                          else Failure(true, Unverified))))
  }

  // ---------------------------------------------------------------- row facts

  /** The shape every committed row has in every run. */
  ghost predicate RowOk(r: Row) {
    && (r.lease.Some? ==> r.status == Stopping && r.request.Some? && !Guarded(r))
    && (r.status == Stopping ==> r.request.Some? && (r.unverifiedMark <==> FailureGuards(r)))
    && (!Terminal(r.status) && r.status != Stopping ==> r.request.None? && !Guarded(r))
  }

  /** What no transition takes back: mode, request epoch, acknowledgement, terminality. */
  ghost predicate RowLater(r: Row, r': Row) {
    && r'.remote == r.remote
    && (Terminal(r.status) ==> r' == r)
    && (r.request.Some? ==> r'.request.Some? && r'.request.value.requestedAt == r.request.value.requestedAt)
    && (QuiescedAt(r).Some? ==> QuiescedAt(r') == QuiescedAt(r))
    && (r.connected ==> r'.connected)
  }

  /**
   * A guarded row can be opened again in two ways, and then moves as before: a retry, which is good for
   * this request and revision only and brings a new cleanup budget, and the executor's first
   * acknowledgement, which is kept. A diagnosis is kept unless the guard itself had written it.
   */
  lemma GuardedRowsCanBeReopened(r: Row, newId: nat, token: nat, leaseMs: int, now: int)
    requires RowOk(r) && r.status == Stopping && Guarded(r)
    ensures forall at, revision :: MayRetry(r, at, revision) <==>
      at == r.request.value.requestedAt && revision == CurrentRevision(r.request.value)
    ensures var q := r.request.value;
      Retry(r, newId).request == Some(Request(q.cause, q.requestedAt, Some(newId), q.quiescedAt, false))
      && IsReopened(r, Retry(r, newId), token, leaseMs, now)
    ensures RecordQuiescence(r, now).request ==
            Some(r.request.value.(quiescedAt := if Quiesced(r) then QuiescedAt(r) else Some(now)))
    ensures if Quiesced(r) then RecordQuiescence(r, now) == r
            else IsReopened(r, RecordQuiescence(r, now), token, leaseMs, now)
  {
  }

  ghost predicate IsReopened(r: Row, r': Row, token: nat, leaseMs: int, now: int) {
    && r' == r.(request := r'.request, lease := None, unverifiedMark := false, failure := r'.failure)
    && (r'.failure.Some? <==> r.failure.Some? && !r.failure.value.synthetic)
    && (r'.failure.Some? ==> r'.failure.value == Failure(false, Requested))
    && ClaimCoordination(r', token, leaseMs, None, now)
       == (LeaseClaimed, r'.(lease := Some(Lease(token, now + leaseMs))))
  }

  /**
   * A lease is given exactly where the row asks for an end, nothing guards it, the request is old enough for
   * this caller and no lease is in force; a caller's own lease is never renewed, and one in force is answered
   * as unchanged.
   */
  lemma LeaseIsGivenExactlyWhen(r: Row, token: nat, leaseMs: int, minimumAge: Option<int>, now: int)
    requires RowOk(r)
    ensures var (outcome, r') := ClaimCoordination(r, token, leaseMs, minimumAge, now);
      var open := r.status == Stopping && !Guarded(r);
      var young := minimumAge.Some? && r.request.Some? && now - r.request.value.requestedAt < minimumAge.value;
      var own := r.lease.Some? && r.lease.value.token == token;
      var held := r.lease.Some? && now < r.lease.value.expiresAt;
      && (outcome == LeaseClaimed <==> open && !own && !young && !held)
      && (outcome == LeaseUnchanged <==> open && (own || (!young && held)))
      && (outcome == LeaseTerminal <==> Terminal(r.status))
      && r' == if outcome == LeaseClaimed then r.(lease := Some(Lease(token, now + leaseMs))) else r
  {
  }

  /** An executor that has just connected is not stale: a claim that says so, for any earlier moment, loses. */
  lemma FreshConnectionIsNotStale(r: Row, c: ClaimInput, connectedAt: int, now: int)
    requires MayConnect(r) && c.heartbeatStaleBefore.Some? && c.heartbeatStaleBefore.value < connectedAt
    ensures ClaimTermination(Connect(r, connectedAt), c, now) == (ClaimChanged, Connect(r, connectedAt))
  {
  }

  /** A user stop that takes the request over from another cause, with a clean diagnosis of its own. */
  predicate TakesOverClean(r: Row, c: ClaimInput)
    requires r.request.Some?
  {
    && !ClaimConditionChanged(r, c) && c.cause == UserStop && r.request.value.cause != UserStop
    && c.failure.Some? && c.failure.value.evidence != Unverified
  }

  /**
   * A claim over a guarded row keeps both halves of the guard together exactly when it is not such a
   * take-over. The failing half leaves a row that no retry, force-fail or owner can move.
   */
  lemma ClaimKeepsGuardWhole(r: Row, c: ClaimInput, now: int)
    requires RowOk(r) && r.status == Stopping && Guarded(r)
    ensures var r' := ClaimTermination(r, c, now).1;
      (r'.unverifiedMark <==> FailureGuards(r')) <==> !TakesOverClean(r, c)
    ensures var r' := ClaimTermination(r, c, now).1;
      r'.unverifiedMark && !FailureGuards(r') ==>
        && (forall token, leaseMs, age, at :: ClaimCoordination(r', token, leaseMs, age, at) == (LeaseChanged, r'))
        && (forall token :: SettleVerified(r', token) == (SettleChanged, r'))
        && (forall at, revision :: SettleForced(r', at, revision) == (SettleChanged, r'))
        && (forall at, revision :: !MayRetry(r', at, revision))
        && (forall token, at :: !MayBeginCleanup(r', token, at))
  {
  }
}
