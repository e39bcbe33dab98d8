/**
 * The recovery record of a live Task's MCP connections. Every writer runs under the Task's row
 * lock; a generation number and a request id decide which of them still speak for the present.
 */
module McpRecovery {
  import opened Options

  /** Only what these writers ask of a Task's status: `Live` is running or awaiting an answer. */
  datatype TaskStatus = Dispatching | Live | OtherStatus

  datatype RecoveryStatus = RefreshRequested | ActionRequired | RefreshFailed

  datatype Action = ReconnectMcp | RetryNextTurn | ContactAdmin | Reauthenticate | ReviewConfiguration

  datatype Dispatch = NotStarted | Ambiguous | OtherDispatch

  datatype Recovery = Recovery(
    generation: int,
    code: string,
    status: RecoveryStatus,
    action: Action,
    server: Option<nat>,
    requestId: Option<nat>,
    deadline: Option<int>,
    dispatch: Dispatch)

  /** The one-shot right to rebuild transport for one generation; `projection` is what it was bound to. */
  datatype Claim = Claim(requestId: nat, generation: int, fingerprint: nat, projection: Option<nat>)

  datatype Row = Row(
    status: TaskStatus,
    connected: bool,
    recovery: Option<Recovery>,
    tombstone: int,
    claim: Option<Claim>,
    settledAuthorities: set<nat>)

  /** The exact request an executor or daemon step speaks for; `sameOwner` is its Session and principal check. */
  datatype Holder = Holder(generation: int, requestId: nat, sameOwner: bool)

  /** A capability the gateway refused, as the refusing daemon saw it. */
  datatype Refusal = Refusal(
    sameOwner: bool, sessionFound: bool, code: string, server: nat, dispatch: Dispatch,
    authority: Option<nat>, issuedGeneration: int, issuedRequestId: Option<nat>,
    mediated: bool, action: Action)

  const REFRESH_TIMEOUT_MS := 30_000

  function Max(a: int, b: int): int { if a < b then b else a }

  predicate Owned(r: Row) { r.connected && r.status == Live }

  // ---------------------------------------------------------------- the row transaction

  /** Stores what an updater asks for, never below the generations already used. */
  function Record(r: Row, requested: Option<Recovery>): Row {
    if requested.None? then r
    else
      var floor := if r.recovery.Some? then Max(r.recovery.value.generation, r.tombstone) else r.tombstone + 1;
      r.(recovery := Some(requested.value.(generation := Max(requested.value.generation, floor))))
  }

  function NextGeneration(r: Row): int {
    (if r.recovery.Some? then r.recovery.value.generation else 0) + 1
  }

  /** The record carries the holder's generation and request. */
  predicate Names(r: Row, h: Holder) {
    && r.recovery.Some? && r.recovery.value.generation == h.generation
    && r.recovery.value.requestId == Some(h.requestId)
  }

  /** The record is still the refresh this holder was asked to perform. */
  predicate StillRequested(r: Row, h: Holder) { Names(r, h) && r.recovery.value.status == RefreshRequested }

  predicate StillCurrent(r: Row, h: Holder) { h.sameOwner && Owned(r) && Names(r, h) }

  predicate HoldsClaim(r: Row, h: Holder) {
    r.claim.Some? && r.claim.value.requestId == h.requestId && r.claim.value.generation == h.generation
  }

  // ---------------------------------------------------------------- updaters

  function Signalled(r: Row, code: string, reload: bool, server: Option<nat>, newId: nat, now: int): Option<Recovery> {
    if r.status != Live then None
    else Some(Recovery(NextGeneration(r), code,
                       if reload then RefreshRequested else ActionRequired,
                       if reload then ReconnectMcp else RetryNextTurn,
                       server,
                       if reload then Some(newId) else None,
                       if reload then Some(now + REFRESH_TIMEOUT_MS) else None,
                       NotStarted))
  }

  function Revoked(r: Row, h: Holder, code: string): Option<Recovery> {
    if !StillRequested(r, h) || !h.sameOwner || r.status != Live then None
    else
      Some(Recovery(NextGeneration(r), code, ActionRequired, ContactAdmin, None, Some(h.requestId), None, NotStarted))
  }

  function Actionable(r: Row, h: Holder, code: string, action: Action, server: nat): Option<Recovery> {
    if !StillRequested(r, h) || r.status != Live then None
    else Some(Recovery(r.recovery.value.generation, code, ActionRequired, action, Some(server),
                       Some(h.requestId), None, NotStarted))
  }

  function PermissionChanged(r: Row, h: Holder): Option<Recovery> {
    if !StillRequested(r, h) || r.status != Live then None
    else Some(r.recovery.value.(status := ActionRequired, action := RetryNextTurn, deadline := None))
  }

  /** A user asks again. A refresh that is still pending under the same request is left running. */
  function Reconnected(r: Row, generation: int, requestId: nat, askedAt: int, now: int): Option<Recovery> {
    if r.recovery.None? || r.recovery.value.generation != generation || r.status != Live then None
    else
      var current := r.recovery.value;
      if current.status == RefreshRequested && current.requestId == Some(requestId)
         && current.deadline.Some? && current.deadline.value > now
      then Some(current)
      else Some(current.(generation := current.generation + 1, status := RefreshRequested, action := ReconnectMcp,
                         requestId := Some(requestId), deadline := Some(askedAt + REFRESH_TIMEOUT_MS)))
  }

  /** Mediation was switched off: nothing will refresh this turn. */
  function Degraded(r: Row): Option<Recovery> {
    if r.recovery.None? || r.status != Live
       || (r.recovery.value.status != RefreshRequested && r.recovery.value.action != ReconnectMcp) then None
    else Some(r.recovery.value.(generation := r.recovery.value.generation + 1, code := "rollout_changed",
                                status := ActionRequired, action := RetryNextTurn, server := None,
                                requestId := None, deadline := None))
  }

  function Refused(r: Row, f: Refusal): Option<Recovery> {
    if !f.sameOwner || r.status == OtherStatus || !f.sessionFound then None
    else if r.recovery.None? && f.authority.Some? && f.authority.value in r.settledAuthorities then None
    else if !f.mediated then
      if r.recovery.Some? && r.recovery.value.code == "rollout_changed"
         && r.recovery.value.status == ActionRequired && r.recovery.value.action == RetryNextTurn then None
      else
        Some(Recovery(NextGeneration(r), "rollout_changed", ActionRequired, RetryNextTurn, None, None, None,
                      f.dispatch))
    else if r.recovery.Some? && r.recovery.value.generation > f.issuedGeneration then None
    else if r.recovery.Some? && r.recovery.value.generation == f.issuedGeneration
         && r.recovery.value.requestId.Some? && r.recovery.value.requestId != f.issuedRequestId then None
    else if r.recovery.Some? && r.recovery.value.code == f.code && r.recovery.value.server == Some(f.server)
         && r.recovery.value.status == ActionRequired
         && (r.recovery.value.dispatch == Ambiguous || r.recovery.value.dispatch == f.dispatch) then None
    else Some(Recovery(NextGeneration(r), f.code, ActionRequired, f.action, Some(f.server), None, None, f.dispatch))
  }

  // ---------------------------------------------------------------- claim, bind, settle, clear

  datatype ClaimOutcome = Claimed | Duplicate | Stale

  function ClaimReprojection(r: Row, h: Holder, fingerprint: nat): (ClaimOutcome, Row) {
    if !StillCurrent(r, h) then (Stale, r)
    else if HoldsClaim(r, h) && r.claim.value.fingerprint == fingerprint
         && r.recovery.value.status in {RefreshRequested, ActionRequired} then (Duplicate, r)
    else if r.recovery.value.status != RefreshRequested then (Stale, r)
    else if r.claim.Some? && r.claim.value.generation >= h.generation then (Stale, r)
    else (Claimed, r.(claim := Some(Claim(h.requestId, h.generation, fingerprint, None))))
  }

  function BindAuthority(r: Row, h: Holder, fingerprint: nat, projection: nat): (bool, Row) {
    if !StillCurrent(r, h) || !HoldsClaim(r, h) || r.claim.value.fingerprint != fingerprint then (false, r)
    else if r.claim.value.projection.Some? then (r.claim.value.projection.value == projection, r)
    else (true, r.(claim := Some(r.claim.value.(projection := Some(projection)))))
  }

  /** The recovery is over; its generation stays behind as a tombstone. */
  function Cleared(r: Row, authorities: set<nat>): Row
    requires r.recovery.Some?
  {
    r.(recovery := None, claim := None, settledAuthorities := authorities,
       tombstone := Max(r.tombstone, r.recovery.value.generation))
  }

  function SettleReprojection(r: Row, h: Holder, ok: bool, uncertain: bool, authorities: set<nat>): (bool, Row) {
    if !StillCurrent(r, h) || r.recovery.value.status == RefreshFailed
       || !HoldsClaim(r, h) || r.claim.value.projection.None? then (false, r)
    else if ok && r.recovery.value.status == RefreshRequested then (true, Cleared(r, authorities))
    else if ok then (true, r.(claim := None))
    else
      (true, r.(claim := None, recovery := Some(r.recovery.value.(
        generation := r.recovery.value.generation + 1,
        code := if uncertain then "transport_refresh_uncertain" else "provider_refresh_failed",
        status := if uncertain then ActionRequired else RefreshFailed,
        action := if uncertain then RetryNextTurn else ReconnectMcp,
        deadline := None))))
  }

  // ---------------------------------------------------------------- runs

  datatype Op =
    | Signal(code: string, reload: bool, server: Option<nat>, newId: nat, now: int)
    | Revoke(holder: Holder, code: string)
    | NeedAction(holder: Holder, code: string, action: Action, serverId: nat)
    | ChangePermission(holder: Holder)
    | Reconnect(generation: int, requestId: nat, askedAt: int, now: int)
    | Degrade
    | Refuse(refusal: Refusal)
    | ClaimOp(holder: Holder, fingerprint: nat)
    | Bind(holder: Holder, fingerprint: nat, projection: nat)
    | Settle(holder: Holder, ok: bool, uncertain: bool, authorities: set<nat>)
    | Clear(matches: bool, authorities: set<nat>)
    | Move(status: TaskStatus, connected: bool)

  function Apply(r: Row, op: Op): Row {
    match op
    case Signal(code, reload, server, newId, now) => Record(r, Signalled(r, code, reload, server, newId, now))
    case Revoke(h, code) => Record(r, Revoked(r, h, code))
    case NeedAction(h, code, action, server) => Record(r, Actionable(r, h, code, action, server))
    case ChangePermission(h) => Record(r, PermissionChanged(r, h))
    case Reconnect(g, id, askedAt, now) => Record(r, Reconnected(r, g, id, askedAt, now))
    case Degrade => Record(r, Degraded(r))
    case Refuse(f) => Record(r, Refused(r, f))
    case ClaimOp(h, fingerprint) => ClaimReprojection(r, h, fingerprint).1
    case Bind(h, fingerprint, projection) => BindAuthority(r, h, fingerprint, projection).1
    case Settle(h, ok, uncertain, authorities) => SettleReprojection(r, h, ok, uncertain, authorities).1
    case Clear(matches, authorities) => if matches && r.recovery.Some? then Cleared(r, authorities) else r
    case Move(status, connected) => r.(status := status, connected := connected)
  }

  function Run(r: Row, ops: seq<Op>): Row
    decreases |ops|
  {
    if ops == [] then r else Run(Apply(r, ops[0]), ops[1..])
  }

  /** The generations that were claimed for the first time, in order. */
  function Claims(r: Row, ops: seq<Op>): seq<int>
    decreases |ops|
  {
    if ops == [] then []
    else
      var rest := Claims(Apply(r, ops[0]), ops[1..]);
      if ops[0].ClaimOp? && ClaimReprojection(r, ops[0].holder, ops[0].fingerprint).0 == Claimed
      then [ops[0].holder.generation] + rest else rest
  }

  function NewRow(): Row { Row(Dispatching, false, None, 0, None, {}) }

  /** The highest generation this Task has ever used. */
  function Effective(r: Row): int {
    if r.recovery.Some? then Max(r.recovery.value.generation, r.tombstone) else r.tombstone
  }

  // ---------------------------------------------------------------- generations

  /** A present record is newer than everything settled before it, and no claim is from the future. */
  ghost predicate RowOk(r: Row) {
    && (r.recovery.Some? ==> r.recovery.value.generation > r.tombstone)
    && (r.claim.Some? ==> r.claim.value.generation <= Effective(r))
  }

  lemma StepNeverGoesBack(r: Row, op: Op)
    ensures Effective(Apply(r, op)) >= Effective(r)
    ensures RowOk(r) ==> RowOk(Apply(r, op))
  {
  }

  /** Whatever signals, reconnects, refusals and settlements come in whatever order. */
  lemma {:induction false} GenerationNeverDecreases(r: Row, ops: seq<Op>)
    ensures Effective(Run(r, ops)) >= Effective(r)
    ensures RowOk(r) ==> RowOk(Run(r, ops))
    decreases |ops|
  {
    if ops != [] {
      StepNeverGoesBack(r, ops[0]);
      GenerationNeverDecreases(Apply(r, ops[0]), ops[1..]);
    }
  }

  /** A signal raises the generation exactly on a live Task whose record is not behind its tombstone. */
  lemma SignalRaises(r: Row, code: string, reload: bool, server: Option<nat>, newId: nat, now: int)
    ensures Effective(Apply(r, Signal(code, reload, server, newId, now))) > Effective(r) <==>
      r.status == Live && (r.recovery.Some? ==> r.recovery.value.generation >= r.tombstone)
  {
  }

  /** A refresh is asked for, under this request and until this deadline. */
  predicate RefreshPending(r: Row, requestId: nat, deadline: int) {
    && r.recovery.Some? && r.recovery.value.status == RefreshRequested && r.recovery.value.action == ReconnectMcp
    && r.recovery.value.requestId == Some(requestId) && r.recovery.value.deadline == Some(deadline)
  }

  /** In any Task's life every signal to a live Task opens a generation never used before. */
  lemma EveryLiveSignalIsNew(ops: seq<Op>, code: string, reload: bool, server: Option<nat>, newId: nat, now: int)
    requires Run(NewRow(), ops).status == Live
    ensures var r := Run(NewRow(), ops);
      var r' := Apply(r, Signal(code, reload, server, newId, now));
      && r'.recovery.Some? && r'.recovery.value.generation > Effective(r)
      && r'.recovery.value.code == code && r'.recovery.value.server == server
      && r'.recovery.value.dispatch == NotStarted
      && (if reload then RefreshPending(r', newId, now + 30_000)
          else r'.recovery.value.status == ActionRequired && r'.recovery.value.action == RetryNextTurn)
  {
    GenerationNeverDecreases(NewRow(), ops);
  }

  /** The refusal speaks for this Task and is not about authority that was installed since. */
  predicate RefusalConcerns(r: Row, f: Refusal) {
    && f.sameOwner && f.sessionFound
    && (r.recovery.Some? || f.authority.None? || f.authority.value !in r.settledAuthorities)
  }

  /** A present record already says what the refusal would say, or was issued after the capability. */
  predicate RefusalIsKnown(current: Recovery, f: Refusal) {
    if !f.mediated then
      current.code == "rollout_changed" && current.status == ActionRequired && current.action == RetryNextTurn
    else
      || current.generation > f.issuedGeneration
      || (current.generation == f.issuedGeneration && current.requestId.Some?
          && current.requestId != f.issuedRequestId)
      || (current.code == f.code && current.server == Some(f.server) && current.status == ActionRequired
          && (current.dispatch == Ambiguous || current.dispatch == f.dispatch))
  }

  predicate RefusalApplies(r: Row, f: Refusal) {
    RefusalConcerns(r, f) && (r.recovery.Some? ==> !RefusalIsKnown(r.recovery.value, f))
  }

  /**
   * The record of a Task that is not live changes exactly by a clearing that matches a present record,
   * and, while the Task is still dispatching, by a refusal that concerns it and is not known yet.
   */
  lemma OnlyLiveRecordsChange(r: Row, op: Op)
    requires r.status != Live
    ensures Apply(r, op).recovery != r.recovery <==>
      || (op.Clear? && op.matches && r.recovery.Some?)
      || (op.Refuse? && r.status == Dispatching && RefusalApplies(r, op.refusal))
  {
  }

  /** Such a refusal opens a new generation on any dispatching row whose record is not behind its tombstone. */
  lemma RefusalReachesDispatching(r: Row, f: Refusal)
    requires r.status == Dispatching
    ensures var r' := Apply(r, Refuse(f));
      && (r'.recovery != r.recovery <==> RefusalApplies(r, f))
      && (r' != r ==> r'.recovery.Some? && TellsOf(r'.recovery.value, f))
      && (r' != r && RowOk(r) ==> r'.recovery.value.generation > Effective(r))
  {
  }

  /** What the record says after a refusal, when mediation is on and when it was switched off. */
  predicate TellsOf(recovery: Recovery, f: Refusal) {
    && recovery.status == ActionRequired && recovery.dispatch == f.dispatch && recovery.requestId.None?
    && (if f.mediated then recovery.code == f.code && recovery.server == Some(f.server) && recovery.action == f.action
        else recovery.code == "rollout_changed" && recovery.server.None? && recovery.action == RetryNextTurn)
  }

  /** A live Task's record changes by a refusal under the same conditions, and then says so. */
  lemma RefusalReachesLive(r: Row, f: Refusal)
    requires r.status == Live && RowOk(r)
    ensures var r' := Apply(r, Refuse(f));
      if RefusalApplies(r, f)
      then r'.recovery.Some? && TellsOf(r'.recovery.value, f) && r'.recovery.value.generation > Effective(r)
      else r' == r
  {
  }

  // ---------------------------------------------------------------- stale holders

  /** The generation and request a step was made for, when it names them. */
  function HolderOf(op: Op): Option<Holder> {
    if op.Revoke? || op.NeedAction? || op.ChangePermission? || op.ClaimOp? || op.Bind? || op.Settle?
    then Some(op.holder) else None
  }

  lemma StaleHolderChangesNothing(r: Row, op: Op)
    ensures HolderOf(op).Some? && !Names(r, HolderOf(op).value) ==> Apply(r, op) == r
    ensures op.Reconnect? && (r.recovery.None? || r.recovery.value.generation != op.generation) ==> Apply(r, op) == r
  {
  }

  /** Once a newer generation exists, a step made for an older one is without effect for ever. */
  lemma OvertakenForGood(r: Row, ops: seq<Op>, op: Op)
    requires RowOk(r)
    requires HolderOf(op).Some? ==> HolderOf(op).value.generation < Effective(r)
    requires op.Reconnect? ==> op.generation < Effective(r)
    requires HolderOf(op).Some? || op.Reconnect?
    ensures Apply(Run(r, ops), op) == Run(r, ops)
  {
    GenerationNeverDecreases(r, ops);
    StaleHolderChangesNothing(Run(r, ops), op);
  }

  // ---------------------------------------------------------------- claims

  /** `used` generations are spent: none is waiting to be claimed without its claim in place. */
  ghost predicate Spent(r: Row, used: int) {
    && RowOk(r) && used <= Effective(r)
    && (r.claim.Some? ==> r.claim.value.generation <= used)
    && (r.recovery.Some? && r.recovery.value.status == RefreshRequested && r.recovery.value.generation <= used ==>
          r.claim.Some? && r.claim.value.generation >= r.recovery.value.generation)
  }

  lemma StepKeepsSpent(r: Row, op: Op, used: int)
    requires Spent(r, used)
    ensures op.ClaimOp? && ClaimReprojection(r, op.holder, op.fingerprint).0 == Claimed ==>
      op.holder.generation > used && Spent(Apply(r, op), op.holder.generation)
    ensures !(op.ClaimOp? && ClaimReprojection(r, op.holder, op.fingerprint).0 == Claimed) ==>
      Spent(Apply(r, op), used)
  {
  }

  /** First claims come with strictly rising generations, so no generation is ever claimed twice. */
  lemma {:induction false} ClaimsRise(r: Row, ops: seq<Op>, used: int)
    requires Spent(r, used)
    ensures forall i :: 0 <= i < |Claims(r, ops)| ==> Claims(r, ops)[i] > used
    ensures forall i, j :: 0 <= i < j < |Claims(r, ops)| ==> Claims(r, ops)[i] < Claims(r, ops)[j]
    decreases |ops|
  {
    if ops != [] {
      StepKeepsSpent(r, ops[0], used);
      var claims := ops[0].ClaimOp? && ClaimReprojection(r, ops[0].holder, ops[0].fingerprint).0 == Claimed;
      ClaimsRise(Apply(r, ops[0]), ops[1..], if claims then ops[0].holder.generation else used);
    }
  }

  lemma EachGenerationIsClaimedOnce(ops: seq<Op>)
    ensures forall i, j :: 0 <= i < j < |Claims(NewRow(), ops)| ==> Claims(NewRow(), ops)[i] < Claims(NewRow(), ops)[j]
  {
    ClaimsRise(NewRow(), ops, 0);
  }

  /** A bound projection is never replaced while its claim stands. */
  lemma ProjectionIsImmutable(r: Row, op: Op)
    requires r.claim.Some? && r.claim.value.projection.Some?
    ensures var r' := Apply(r, op);
      r'.claim.Some? && r'.claim.value.generation == r.claim.value.generation ==> r'.claim == r.claim
  {
  }

  // ---------------------------------------------------------------- what does get done

  /** The holder of the refresh that is now asked for, on a row whose executor may answer. */
  ghost predicate Serves(r: Row, h: Holder) {
    && RowOk(r) && r.connected && r.status == Live && h.sameOwner && r.recovery.Some?
    && r.recovery.value.status == RefreshRequested
    && h.generation == r.recovery.value.generation && r.recovery.value.requestId == Some(h.requestId)
  }

  /** The record names this holder, and the Task's own connected executor is live. */
  predicate Current(r: Row, h: Holder) {
    && r.connected && r.status == Live && h.sameOwner
    && r.recovery.Some? && r.recovery.value.generation == h.generation
    && r.recovery.value.requestId == Some(h.requestId)
  }

  /** The claim that stands is this holder's. */
  predicate ClaimOf(r: Row, h: Holder) {
    r.claim.Some? && r.claim.value.requestId == h.requestId && r.claim.value.generation == h.generation
  }

  /** Exactly whose claims, bindings and settlements are taken. */
  lemma WhoIsTaken(r: Row, h: Holder, fingerprint: nat, projection: nat, ok: bool, uncertain: bool, kept: set<nat>)
    ensures ClaimReprojection(r, h, fingerprint).0 == Duplicate <==>
      && Current(r, h) && ClaimOf(r, h) && r.claim.value.fingerprint == fingerprint
      && r.recovery.value.status != RefreshFailed
    ensures ClaimReprojection(r, h, fingerprint).0 == Claimed <==>
      && Current(r, h) && r.recovery.value.status == RefreshRequested
      && (r.claim.Some? ==> r.claim.value.generation < h.generation)
    ensures BindAuthority(r, h, fingerprint, projection).0 <==>
      && Current(r, h) && ClaimOf(r, h) && r.claim.value.fingerprint == fingerprint
      && (r.claim.value.projection.None? || r.claim.value.projection == Some(projection))
    ensures SettleReprojection(r, h, ok, uncertain, kept).0 <==>
      && Current(r, h) && ClaimOf(r, h) && r.claim.value.projection.Some? && r.recovery.value.status != RefreshFailed
    ensures !SettleReprojection(r, h, ok, uncertain, kept).0 ==> SettleReprojection(r, h, ok, uncertain, kept).1 == r
    ensures SettleReprojection(r, h, ok, uncertain, kept).0 ==>
      SettleReprojection(r, h, ok, uncertain, kept).1.claim.None?
  {
  }

  /** Exactly whose reports change the record of a live Task, its executor connected or not. */
  lemma WhoIsHeard(r: Row, h: Holder, code: string, action: Action, server: nat)
    requires RowOk(r)
    ensures var asked := r.status == Live && r.recovery.Some? && r.recovery.value.status == RefreshRequested
                         && r.recovery.value.generation == h.generation
                         && r.recovery.value.requestId == Some(h.requestId);
      && (Apply(r, Revoke(h, code)) != r <==> asked && h.sameOwner)
      && (Apply(r, NeedAction(h, code, action, server)) != r <==> asked)
      && (Apply(r, ChangePermission(h)) != r <==> asked)
  {
  }

  /** Claim, bind, settle: one refresh by its holder. */
  function Refresh(h: Holder, fingerprint: nat, projection: nat, ok: bool, uncertain: bool, kept: set<nat>): seq<Op> {
    [ClaimOp(h, fingerprint), Bind(h, fingerprint, projection), Settle(h, ok, uncertain, kept)]
  }

  lemma ThreeOps(r: Row, a: Op, b: Op, c: Op)
    ensures Run(r, [a, b, c]) == Apply(Apply(Apply(r, a), b), c)
  {
    assert [a, b, c][1..] == [b, c] && [b, c][1..] == [c] && [c][1..] == [];
    assert Run(Apply(r, a), [b, c]) == Run(Apply(Apply(r, a), b), [c]);
    assert Run(Apply(Apply(r, a), b), [c]) == Run(Apply(Apply(Apply(r, a), b), c), []);
  }

  /**
   * The holder of a requested refresh carries it through exactly if no claim of its generation or a later
   * one stands. A success ends the recovery, with its generation as the tombstone and the given authorities
   * settled; a failure opens the next generation, for a new refresh or, when the outcome is unknown, the next
   * turn; either way the claim is over.
   */
  lemma RefreshIsCarriedThrough(r: Row, h: Holder, fingerprint: nat, projection: nat, ok: bool, uncertain: bool,
                                kept: set<nat>)
    requires Serves(r, h) && (r.claim.Some? ==> r.claim.value.generation < h.generation)
    ensures ClaimReprojection(r, h, fingerprint).0 == Claimed
    ensures var r' := Run(r, Refresh(h, fingerprint, projection, ok, uncertain, kept));
      && r'.claim.None?
      && (ok ==> r'.recovery.None? && r'.tombstone == h.generation && r'.settledAuthorities == kept)
      && (!ok ==>
            && r'.recovery.Some? && r'.recovery.value.generation == h.generation + 1
            && r'.recovery.value.status == (if uncertain then ActionRequired else RefreshFailed)
            && r'.recovery.value.action == (if uncertain then RetryNextTurn else ReconnectMcp))
  {
    ThreeOps(r, ClaimOp(h, fingerprint), Bind(h, fingerprint, projection), Settle(h, ok, uncertain, kept));
    var claimed := r.(claim := Some(Claim(h.requestId, h.generation, fingerprint, None)));
    assert Apply(r, ClaimOp(h, fingerprint)) == claimed;
    var bound := r.(claim := Some(Claim(h.requestId, h.generation, fingerprint, Some(projection))));
    assert Apply(claimed, Bind(h, fingerprint, projection)) == bound;
    BoundRefreshSettles(bound, h, ok, uncertain, kept);
  }

  lemma BoundRefreshSettles(r: Row, h: Holder, ok: bool, uncertain: bool, kept: set<nat>)
    requires Serves(r, h) && HoldsClaim(r, h) && r.claim.value.projection.Some?
    ensures var r' := Apply(r, Settle(h, ok, uncertain, kept));
      && r'.claim.None?
      && (ok ==> r'.recovery.None? && r'.tombstone == h.generation && r'.settledAuthorities == kept)
      && (!ok ==>
            && r'.recovery.Some? && r'.recovery.value.generation == h.generation + 1
            && r'.recovery.value.status == (if uncertain then ActionRequired else RefreshFailed)
            && r'.recovery.value.action == (if uncertain then RetryNextTurn else ReconnectMcp))
  {
  }

  /** Otherwise a standing claim of its own makes it a duplicate, and any other turns it away. */
  lemma StandingClaimAnswers(r: Row, h: Holder, fingerprint: nat)
    requires Serves(r, h) && r.claim.Some? && r.claim.value.generation >= h.generation
    ensures var (outcome, r') := ClaimReprojection(r, h, fingerprint);
      r' == r && (outcome == Duplicate <==>
                    r.claim == Some(Claim(h.requestId, h.generation, fingerprint, r.claim.value.projection)))
    ensures ClaimReprojection(r, h, fingerprint).0 != Claimed
  {
  }

  /**
   * A user's reconnect for the present generation of a live Task asks for a refresh in a new generation,
   * unless that very refresh is already asked for and its deadline still ahead.
   */
  lemma ReconnectAsksAgain(r: Row, requestId: nat, askedAt: int, now: int)
    requires RowOk(r) && r.status == Live && r.recovery.Some?
    ensures var g := r.recovery.value.generation;
      var r' := Apply(r, Reconnect(g, requestId, askedAt, now));
      var running := r.recovery.value.status == RefreshRequested && r.recovery.value.requestId == Some(requestId)
                     && r.recovery.value.deadline.Some? && now < r.recovery.value.deadline.value;
      if running then r' == r
      else RefreshPending(r', requestId, askedAt + 30_000) && r'.recovery.value.generation == g + 1
           && r'.recovery.value.code == r.recovery.value.code
  {
  }

  /** What the holder of a requested refresh reports reaches the record of its live Task. */
  lemma HolderIsHeard(r: Row, h: Holder, code: string, action: Action, server: nat)
    requires Serves(r, h)
    ensures var q := Apply(r, Revoke(h, code)).recovery;
      && q.Some? && q.value.generation == h.generation + 1 && q.value.code == code
      && q.value.status == ActionRequired && q.value.action == ContactAdmin
    ensures var q := Apply(r, NeedAction(h, code, action, server)).recovery;
      && q.Some? && q.value.generation == h.generation && q.value.code == code
      && q.value.status == ActionRequired && q.value.action == action && q.value.server == Some(server)
    ensures var q := Apply(r, ChangePermission(h)).recovery;
      && q.Some? && q.value.generation == h.generation && q.value.code == r.recovery.value.code
      && q.value.status == ActionRequired && q.value.action == RetryNextTurn && q.value.deadline.None?
  {
  }

  /** Switching mediation off ends what waits for a refresh on a live Task, and nothing else. */
  lemma DegradeEndsWaiting(r: Row)
    requires RowOk(r) && r.status == Live
    ensures var r' := Apply(r, Degrade);
      if r.recovery.Some? && (r.recovery.value.status == RefreshRequested || r.recovery.value.action == ReconnectMcp)
      then r'.recovery.Some? && r'.recovery.value.generation == r.recovery.value.generation + 1
           && r'.recovery.value.code == "rollout_changed" && r'.recovery.value.status == ActionRequired
           && r'.recovery.value.action == RetryNextTurn && r'.recovery.value.requestId.None?
      else r' == r
  {
  }

  /** From a Task that has just come alive, through one signal and its refresh, to a settled recovery. */
  lemma FirstRefresh(code: string, server: Option<nat>, id: nat, now: int, fingerprint: nat, projection: nat,
                     kept: set<nat>)
    ensures var live := Apply(NewRow(), Move(Live, true));
      var asked := Apply(live, Signal(code, true, server, id, now));
      && Serves(asked, Holder(1, id, true))
      && Run(asked, Refresh(Holder(1, id, true), fingerprint, projection, true, false, kept))
         == Row(Live, true, None, 1, None, kept)
  {
    var asked := Apply(Apply(NewRow(), Move(Live, true)), Signal(code, true, server, id, now));
    var h := Holder(1, id, true);
    ThreeOps(asked, ClaimOp(h, fingerprint), Bind(h, fingerprint, projection), Settle(h, true, false, kept));
  }
}
