/**
 * What the termination protocol does get done: who comes to own a row, and that an owner in time ends
 * its Task exactly when it has proof and nothing the tool declares stands against it.
 */
module TerminationProgress {
  import opened Options
  import opened TaskRow
  import opened TerminationProtocol
  import opened TerminationProofs
  import opened TerminationTheorems
  import opened TerminationLeases
  import opened TerminationWitnesses

  // ---------------------------------------------------------------- coming to own the row

  /** Nobody else owns the row, it asks for an end, and nothing makes this call step back. */
  ghost predicate MayOwn(w: World, c: nat, ownsHandle: bool)
    requires At(w, c)
  {
    var i, r := w.calls[c].input, w.row;
    && r.status !in {Completed, Failed, Stopped, TimedOut} && !Guarded(r)
    && (r.lease.Some? ==> r.lease.value.expiresAt <= w.now)
    && w.calls[c].daemon !in w.operations
    && Expected(r, i.claim)
    // A remote executor that has not connected is waited for, until its deadline or a proof.
    && (r.remote && !r.connected && !Quiesced(r) ==> i.absenceVerified || i.deadlineExpired)
    // A local executor belongs to the daemon that holds its handle, for a while at least.
    && (!r.remote && !ownsHandle ==>
          && (i.absenceVerified || i.allowUnowned)
          && (i.ownerGraceMs.Some? ==> Age(r, w.now) >= i.ownerGraceMs.value))
  }

  function Age(r: Row, now: int): int {
    if r.request.Some? then now - r.request.value.requestedAt else 0
  }

  /** The row is still what the caller has seen. */
  predicate Expected(r: Row, c: ClaimInput) {
    && (c.expectedStatus.None? || c.expectedStatus.value == r.status)
    && (c.expectedHeartbeatAt.None? || r.heartbeatAt == c.expectedHeartbeatAt)
    && (c.heartbeatStaleBefore.None? || (r.heartbeatAt.Some? && r.heartbeatAt.value <= c.heartbeatStaleBefore.value))
    && (c.requireDisconnected ==> !r.connected)
  }

  /** The row this call asked to end: its first request stands, but a user's stop takes over the cause. */
  ghost predicate Asked(r: Row, r': Row, c: ClaimInput, now: int) {
    && r'.status == Stopping && r'.request.Some? && !Guarded(r')
    && r'.request.value.cause == (if c.cause == UserStop || r.request.None? then c.cause else r.request.value.cause)
    && (if r.request.Some? then r'.request == Some(r.request.value.(cause := r'.request.value.cause))
        else r'.request == Some(Request(c.cause, now, None, None, false)))
    && r'.remote == r.remote && r'.connected == r.connected && r'.heartbeatAt == r.heartbeatAt && r'.lease == r.lease
    && (if r.status == Stopping && r'.request == r.request then r'.failure == r.failure
        else r'.failure == AsRequested(if c.failure.Some? && Speaks(r, c) then c.failure else r.failure))
  }

  /** The caller's diagnosis is taken for a first request, for the same cause, and from a user's stop. */
  predicate Speaks(r: Row, c: ClaimInput) {
    r.request.None? || c.cause == UserStop || r.request.value.cause == c.cause
  }

  function AsRequested(f: Option<Failure>): Option<Failure> {
    if f.Some? then Some(Failure(f.value.synthetic, Requested)) else None
  }

  lemma ClaimAsks(w: World, c: nat)
    requires RowOk(w.row) && Enabled(w, ClaimRequest(c))
    ensures var (outcome, r') := ClaimTermination(w.row, w.calls[c].input.claim, w.now);
      && (outcome == ClaimTerminal <==> Terminal(w.row.status))
      && (outcome == ClaimChanged <==> !Terminal(w.row.status) && !Expected(w.row, w.calls[c].input.claim))
      && (outcome in {Claimed, ClaimUnchanged} && !Guarded(w.row) ==>
            Asked(w.row, r', w.calls[c].input.claim, w.now))
      && (outcome in {Claimed, ClaimUnchanged} && Guarded(w.row) ==> Guarded(r') && r'.status == Stopping)
      && (outcome !in {Claimed, ClaimUnchanged} ==> r' == w.row)
  {
    if w.row.status == Stopping && Guarded(w.row) {
      ClaimKeepsGuardWhole(w.row, w.calls[c].input.claim, w.now);
    }
  }

  /** What is left to decide once the request is on the row. */
  ghost predicate MayCoordinate(w: World, c: nat)
    requires At(w, c)
  {
    var i, r := w.calls[c].input, w.row;
    && w.calls[c].daemon !in w.operations
    && (r.remote && !r.connected && !Quiesced(r) ==> i.absenceVerified || i.deadlineExpired)
  }

  lemma DecideCoordinates(w: World, c: nat)
    requires At(w, c) && w.calls[c].phase.RequestClaimed? && w.calls[c].phase.task == w.row
    requires w.calls[c].phase.outcome in {Claimed, ClaimUnchanged} && w.row.status == Stopping && w.row.request.Some?
    requires !Guarded(w.row)
    ensures At(DecideStep(w, c), c)
    ensures MayCoordinate(w, c) ==> DecideStep(w, c) == Moved(w, c, Coordinating(w.row))
    ensures !MayCoordinate(w, c) ==> !DecideStep(w, c).calls[c].phase.Coordinating?
  {
  }

  ghost predicate MayTakeLease(w: World, c: nat, ownsHandle: bool)
    requires At(w, c)
  {
    var i, r := w.calls[c].input, w.row;
    && (r.lease.Some? ==> r.lease.value.expiresAt <= w.now)
    && (!r.remote && !ownsHandle ==>
          && (i.absenceVerified || i.allowUnowned)
          && (i.ownerGraceMs.Some? ==> Age(r, w.now) >= i.ownerGraceMs.value))
  }

  lemma CoordinateTakesLease(w: World, c: nat, owns: bool, token: nat, leaseMs: int)
    requires At(w, c) && w.calls[c].phase == Coordinating(w.row) && Token(w.row) != Some(token)
    requires w.row.status == Stopping && w.row.request.Some?
    ensures var w' := CoordinateStep(w, c, owns, token, leaseMs);
      && At(w', c)
      && (w'.calls[c].phase.Coordinated? <==> !Guarded(w.row) && MayTakeLease(w, c, owns))
      && (w'.calls[c].phase.Coordinated? ==>
            var leased := w.row.(lease := Some(Lease(token, w.now + leaseMs)));
            w' == Moved(w, c, Coordinated(leased)).(
                    row := leased, ledger := w.ledger.(leases := w.ledger.leases[token := w.now + leaseMs])))
  {
  }

  lemma StartContains(w: World, c: nat, token: nat, expiresAt: int)
    requires At(w, c) && w.calls[c].phase == Coordinated(w.row) && w.row.lease == Some(Lease(token, expiresAt))
    requires w.calls[c].daemon !in w.operations
    ensures StartOperation(w, c, w.row) == w.(
      calls := w.calls[c := w.calls[c].(token := Some(token), phase := Waiting(w.row))],
      operations := w.operations[w.calls[c].daemon := c])
  {
  }

  /** The four steps from a call's arrival to the start of its containment. */
  function Opening(c: nat, owns: bool, token: nat, leaseMs: int): seq<Action> {
    [ClaimRequest(c), Decide(c), Coordinate(c, owns, token, leaseMs), Start(c)]
  }

  lemma TwoStepsExactly(w: World, a: Action, b: Action)
    ensures CanRun(w, [a, b]) <==> Enabled(w, a) && Enabled(Apply(w, a), b)
    ensures CanRun(w, [a, b]) ==> Run(w, [a, b]) == Apply(Apply(w, a), b)
  {
    assert [a, b][1..] == [b] && [b][1..] == [];
    if Enabled(w, a) && Enabled(Apply(w, a), b) { TwoSteps(w, a, b); }
  }

  lemma RefusedNeverCoordinates(w: World, c: nat)
    requires At(w, c) && w.calls[c].phase.RequestClaimed? && w.calls[c].phase.outcome in {ClaimTerminal, ClaimChanged}
    ensures At(DecideStep(w, c), c) && !DecideStep(w, c).calls[c].phase.Coordinating?
  {
  }

  lemma GuardedNeverCoordinates(w: World, c: nat, owns: bool, token: nat, leaseMs: int)
    requires At(w, c) && w.calls[c].phase.RequestClaimed? && w.calls[c].phase.task == w.row
    requires w.calls[c].phase.outcome in {Claimed, ClaimUnchanged} && Guarded(w.row)
    requires w.row.status == Stopping && w.row.request.Some?
    ensures var v := DecideStep(w, c);
      && At(v, c)
      && (v.calls[c].phase.Coordinating? ==>
            var u := CoordinateStep(v, c, owns, token, leaseMs); At(u, c) && !u.calls[c].phase.Coordinated?)
  {
  }

  /** The world after the first step of a call. */
  ghost function AfterClaim(w: World, c: nat): World
    requires At(w, c)
  {
    ClaimRequestStep(w, c)
  }

  /** The row is owned under this lease, and its owner is about to contain. */
  ghost predicate Contains(w: World, w': World, c: nat, token: nat, leaseMs: int)
    requires At(w, c)
  {
    && At(w', c) && w'.calls[c].phase == Waiting(w'.row) && w'.calls[c].token == Some(token)
    && w'.row.lease == Some(Lease(token, w.now + leaseMs))
    && Asked(w.row, w'.row.(lease := w.row.lease), w.calls[c].input.claim, w.now)
    && w'.operations == w.operations[w.calls[c].daemon := c] && w'.now == w.now && w'.facts == w.facts
    && w'.ledger == w.ledger.(leases := w.ledger.leases[token := w.now + leaseMs])
  }

  /** From the request on the row to the containment. */
  lemma RequestedContains(w: World, c: nat, owns: bool, token: nat, leaseMs: int)
    requires At(w, c) && w.calls[c].phase.RequestClaimed? && w.calls[c].phase.task == w.row
    requires w.calls[c].phase.outcome in {Claimed, ClaimUnchanged} && w.row.status == Stopping && w.row.request.Some?
    requires !Guarded(w.row) && Token(w.row) != Some(token) && token !in w.ledger.leases
    ensures var rest := [Decide(c), Coordinate(c, owns, token, leaseMs), Start(c)];
      && (CanRun(w, rest) <==> MayCoordinate(w, c) && MayTakeLease(w, c, owns))
      && (CanRun(w, rest) ==>
            Owned(w, Run(w, rest), c, token, leaseMs))
  {
    ContainingSteps(w, c, owns, token, leaseMs);
    DecideCoordinates(w, c);
    if MayCoordinate(w, c) {
      LeaseContains(w, Moved(w, c, Coordinating(w.row)), c, owns, token, leaseMs);
    }
  }

  lemma ContainingSteps(w: World, c: nat, owns: bool, token: nat, leaseMs: int)
    requires At(w, c) && w.calls[c].phase.RequestClaimed? && token !in w.ledger.leases
    ensures var rest := [Decide(c), Coordinate(c, owns, token, leaseMs), Start(c)]; var v := DecideStep(w, c);
      && At(v, c)
      && (CanRun(w, rest) ==> v.calls[c].phase.Coordinating?)
      && (v.calls[c].phase.Coordinating? ==>
            var u := CoordinateStep(v, c, owns, token, leaseMs);
            && At(u, c) && (CanRun(w, rest) <==> u.calls[c].phase.Coordinated?)
            && (CanRun(w, rest) ==> Run(w, rest) == StartOperation(u, c, u.calls[c].phase.task)))
  {
    DecideSameRow(w, c);
    var rest := [Coordinate(c, owns, token, leaseMs), Start(c)];
    assert [Decide(c)] + rest == [Decide(c), Coordinate(c, owns, token, leaseMs), Start(c)];
    HeadExactly(w, Decide(c), rest);
    CoordinateThenStart(DecideStep(w, c), c, owns, token, leaseMs);
  }

  lemma CoordinateThenStart(w: World, c: nat, owns: bool, token: nat, leaseMs: int)
    requires At(w, c) && token !in w.ledger.leases
    ensures var run := [Coordinate(c, owns, token, leaseMs), Start(c)];
      && (CanRun(w, run) ==> w.calls[c].phase.Coordinating?)
      && (w.calls[c].phase.Coordinating? ==>
            var u := CoordinateStep(w, c, owns, token, leaseMs);
            && At(u, c) && (CanRun(w, run) <==> u.calls[c].phase.Coordinated?)
            && (CanRun(w, run) ==> Run(w, run) == StartOperation(u, c, u.calls[c].phase.task)))
  {
    TwoStepsExactly(w, Coordinate(c, owns, token, leaseMs), Start(c));
  }

  /** The last two of these steps. */
  lemma LeaseContains(w: World, v: World, c: nat, owns: bool, token: nat, leaseMs: int)
    requires At(w, c) && v == Moved(w, c, Coordinating(w.row)) && w.calls[c].daemon !in w.operations
    requires w.row.status == Stopping && w.row.request.Some? && !Guarded(w.row)
    requires Token(w.row) != Some(token) && token !in w.ledger.leases
    ensures var leased := CoordinateStep(v, c, owns, token, leaseMs);
      && At(leased, c) && (leased.calls[c].phase.Coordinated? <==> MayTakeLease(w, c, owns))
      && (leased.calls[c].phase.Coordinated? ==>
            Owned(w, StartOperation(leased, c, leased.calls[c].phase.task), c, token, leaseMs))
  {
    CoordinateTakesLease(v, c, owns, token, leaseMs);
    if MayTakeLease(w, c, owns) {
      StartContains(CoordinateStep(v, c, owns, token, leaseMs), c, token, w.now + leaseMs);
    }
  }

  /**
   * A call that has arrived can go straight on to own the row and contain exactly when MayOwn says so; its
   * request is then on the row, with the lease and the operation that go with it, and nothing else changed.
   */
  lemma OwnershipIsGainedExactlyWhen(w: World, c: nat, owns: bool, token: nat, leaseMs: int)
    requires Reachable(w) && Enabled(w, ClaimRequest(c)) && token !in w.ledger.leases
    ensures CanRun(w, Opening(c, owns, token, leaseMs)) <==> MayOwn(w, c, owns)
    ensures MayOwn(w, c, owns) ==> Contains(w, Run(w, Opening(c, owns, token, leaseMs)), c, token, leaseMs)
  {
    ReachableKeepsLeases(w);
    var rest := [Decide(c), Coordinate(c, owns, token, leaseMs), Start(c)];
    assert Opening(c, owns, token, leaseMs) == [ClaimRequest(c)] + rest;
    HeadExactly(w, ClaimRequest(c), rest);
    RequestDecides(w, c, owns, token, leaseMs);
  }

  lemma HeadExactly(w: World, a: Action, rest: seq<Action>)
    requires Enabled(w, a)
    ensures CanRun(w, [a] + rest) <==> CanRun(Apply(w, a), rest)
    ensures CanRun(w, [a] + rest) ==> Run(w, [a] + rest) == Run(Apply(w, a), rest)
  {
    assert ([a] + rest)[1..] == rest;
  }

  lemma RequestDecides(w: World, c: nat, owns: bool, token: nat, leaseMs: int)
    requires RowOk(w.row) && LeaseOf(w.ledger, w.row) && Enabled(w, ClaimRequest(c)) && token !in w.ledger.leases
    ensures var rest := [Decide(c), Coordinate(c, owns, token, leaseMs), Start(c)];
      && (CanRun(AfterClaim(w, c), rest) <==> MayOwn(w, c, owns))
      && (MayOwn(w, c, owns) ==> Contains(w, Run(AfterClaim(w, c), rest), c, token, leaseMs))
  {
    var v := AfterClaim(w, c);
    ClaimAsks(w, c);
    RequestedMayOwn(w, c, owns);
    if v.calls[c].phase.outcome in {ClaimTerminal, ClaimChanged} || Guarded(w.row) {
      TurnedAway(v, c, owns, token, leaseMs);
    } else {
      RequestedContains(v, c, owns, token, leaseMs);
      if MayOwn(w, c, owns) { RequestIsContained(w, c, owns, token, leaseMs); }
    }
  }

  lemma RequestedMayOwn(w: World, c: nat, owns: bool)
    requires RowOk(w.row) && Enabled(w, ClaimRequest(c))
    ensures var v := AfterClaim(w, c);
      MayOwn(w, c, owns) <==>
        && v.calls[c].phase.outcome in {Claimed, ClaimUnchanged} && !Guarded(w.row)
        && MayCoordinate(v, c) && MayTakeLease(v, c, owns)
  {
    ClaimAsks(w, c);
  }

  lemma TurnedAway(w: World, c: nat, owns: bool, token: nat, leaseMs: int)
    requires At(w, c) && w.calls[c].phase.RequestClaimed? && w.calls[c].phase.task == w.row
    requires w.calls[c].phase.outcome in {ClaimTerminal, ClaimChanged} ||
             (Guarded(w.row) && w.row.status == Stopping && w.row.request.Some?)
    requires token !in w.ledger.leases
    ensures !CanRun(w, [Decide(c), Coordinate(c, owns, token, leaseMs), Start(c)])
  {
    ContainingSteps(w, c, owns, token, leaseMs);
    if w.calls[c].phase.outcome in {ClaimTerminal, ClaimChanged} {
      RefusedNeverCoordinates(w, c);
    } else {
      GuardedNeverCoordinates(w, c, owns, token, leaseMs);
    }
  }

  lemma RequestIsContained(w: World, c: nat, owns: bool, token: nat, leaseMs: int)
    requires RowOk(w.row) && Enabled(w, ClaimRequest(c)) && MayOwn(w, c, owns)
    requires var v := AfterClaim(w, c); var rest := [Decide(c), Coordinate(c, owns, token, leaseMs), Start(c)];
      && CanRun(v, rest)
      && Owned(v, Run(v, rest), c, token, leaseMs)
    ensures var rest := [Decide(c), Coordinate(c, owns, token, leaseMs), Start(c)];
      Contains(w, Run(AfterClaim(w, c), rest), c, token, leaseMs)
  {
    ClaimAsks(w, c);
  }

  /** The row as it was, under the new lease, and the call containing it. */
  ghost predicate Owned(w: World, w': World, c: nat, token: nat, leaseMs: int)
    requires At(w, c)
  {
    var leased := w.row.(lease := Some(Lease(token, w.now + leaseMs)));
    && At(w', c) && w'.row == leased && w'.calls[c] == w.calls[c].(token := Some(token), phase := Waiting(leased))
    && w'.operations == w.operations[w.calls[c].daemon := c] && w'.now == w.now && w'.facts == w.facts
    && w'.ledger == w.ledger.(leases := w.ledger.leases[token := w.now + leaseMs])
  }

  // ---------------------------------------------------------------- what a verdict comes to

  /** The Task ended as verified absent: stopped for a user, failed for any other cause. */
  ghost predicate EndsVerified(w: World, w': World, c: nat) {
    && At(w', c) && w'.calls[c].phase == Finished(ResTerminal) && w'.ledger.ending == Some(VerifiedAbsent)
    && w.row.request.Some?
    && w'.row == w.row.(status := if w.row.request.value.cause == UserStop then Stopped else Failed,
                        lease := None, unverifiedMark := false,
                        failure := if w.row.failure.None? then None
                                   else Some(Failure(w.row.failure.value.synthetic, Verified)))
  }

  /**
   * The Task goes on stopping: under the guard, with the diagnosis of the row it was judged by, or with its
   * owner looking at an acknowledgement it had not seen.
   */
  ghost predicate StaysStopping(w: World, w': World, c: nat, current: Row) {
    && At(w', c) && w'.ledger.ending != Some(VerifiedAbsent)
    && (|| (w'.calls[c].phase == Finished(ResUnverified)
            && w'.row == w.row.(lease := None, unverifiedMark := true,
                  failure := Some(Failure(current.failure.None? || current.failure.value.synthetic, Unverified))))
        || (w'.row == w.row && w'.calls[c].phase == Waiting(w.row) && Quiesced(w.row) && !Quiesced(current)))
  }

  /** What the tool declares stands against the proof at hand. */
  ghost predicate StandsAgainst(w: World, c: nat)
    requires At(w, c) && w.calls[c].phase.Verdict?
  {
    var call := w.calls[c];
    && w.facts.tool.objects
    && !(w.facts.tool.hosted && call.phase.current.remote
         && (Quiesced(call.phase.current) || call.phase.helperConfirmed))
    && !(call.input.absenceVerified && call.input.claim.cause == LaunchRefused)
  }

  lemma VerdictDecides(w: World, v: World, c: nat)
    requires RowOk(v.row) && At(v, c) && v.calls[c].phase.Verdict? && v.calls[c].token.Some?
    requires OwnsRow(v, v.calls[c].token.value) && SnapshotOk(v, v.calls[c].phase.current)
    requires v.calls[c].phase.current.status == Stopping && v.ledger.ending.None?
    requires w.row == v.row && w.facts == v.facts
    ensures if v.calls[c].phase.absent && !StandsAgainst(v, c)
            then EndsVerified(w, SettleStep(v, c), c)
            else StaysStopping(w, SettleStep(v, c), c, v.calls[c].phase.current)
  {
    var call := v.calls[c];
    var current := call.phase.current;
    if call.phase.absent && !StandsAgainst(v, c) {
      assert SettleStep(v, c) == SettleVerifiedStep(v, c);
    } else {
      assert SettleStep(v, c) == SettleUnverifiedStep(v, c);
    }
  }

  /** In every reachable world without a single daemon, for an owner in time. */
  ghost predicate Owner(w: World, c: nat) {
    && Reachable(w) && !w.facts.singleDaemon && At(w, c) && Containing(w.calls[c].phase)
    && w.calls[c].token.Some? && InTime(w, w.calls[c])
  }

  /** What an owner in time holds at any point of its pass. */
  lemma OwnerHolds(w: World, c: nat)
    requires Owner(w, c)
    ensures Inv(w) && RowOk(w.row) && OwnsRow(w, w.calls[c].token.value) && !Guarded(w.row) && w.row.request.Some?
    ensures w.ledger.ending.None? && CallOk(w, w.calls[c])
    ensures var current := CurrentOf(w.calls[c].phase);
      current.Some? ==> current.value.status == Stopping && Token(current.value) == w.calls[c].token
    ensures w.calls[c].phase.Waiting? ==>
      var requested := w.calls[c].phase.requested;
      requested.status == Stopping && Token(requested) == w.calls[c].token && SnapshotOk(w, requested)
  {
    ReachableKeepsLeases(w);
    OwnerInTimeOwns(w, c);
    assert HolderOk(w.ledger, w.calls[c]);
  }

  /** A step to a verdict, and its settlement. */
  lemma VerdictThenSettle(w: World, a: Action, c: nat, current: Row, absent: bool, confirmed: bool)
    requires Owner(w, c) && Enabled(w, a)
    requires Apply(w, a) == Moved(w, c, Verdict(current, absent, confirmed))
    requires current.status == Stopping && SnapshotOk(w, current)
    ensures CanRun(w, [a, Settle(c)])
    ensures var v := Apply(w, a); var w' := Run(w, [a, Settle(c)]);
      if absent && !StandsAgainst(v, c) then EndsVerified(w, w', c) else StaysStopping(w, w', c, current)
  {
    OwnerHolds(w, c);
    TwoSteps(w, a, Settle(c));
    VerdictDecides(w, Apply(w, a), c);
  }

  // ---------------------------------------------------------------- the three kinds of proof

  /**
   * A local owner in time whose containment saw the group absent ends its Task, exactly unless the tool
   * declares its termination unverifiable; without that sight, or against that declaration, it does not.
   */
  lemma LocalProofDecides(w: World, c: nat, absent: bool)
    requires Owner(w, c) && w.calls[c].phase.Probing? && (absent ==> !w.facts.executorAlive)
    ensures CanRun(w, [ProbeEnds(c, absent), Settle(c)])
    ensures var w' := Run(w, [ProbeEnds(c, absent), Settle(c)]);
      if absent && !w.facts.tool.objects then EndsVerified(w, w', c)
      else StaysStopping(w, w', c, w.calls[c].phase.current)
  {
    OwnerHolds(w, c);
    VerdictThenSettle(w, ProbeEnds(c, absent), c, w.calls[c].phase.current, absent, false);
  }

  /** A remote one whose helper exits zero: the declaration counts unless the server was in the executor's Job. */
  lemma HelperProofDecides(w: World, c: nat, confirmed: bool)
    requires Owner(w, c) && w.calls[c].phase.CleanupRunning? && (confirmed ==> !w.facts.executorAlive)
    ensures CanRun(w, [HelperExits(c, confirmed), Settle(c)])
    ensures var w' := Run(w, [HelperExits(c, confirmed), Settle(c)]);
      if confirmed && (!w.facts.tool.objects || w.facts.tool.hosted) then EndsVerified(w, w', c)
      else StaysStopping(w, w', c, w.calls[c].phase.current)
  {
    OwnerHolds(w, c);
    VerdictThenSettle(w, HelperExits(c, confirmed), c, w.calls[c].phase.current, confirmed, confirmed);
  }

  /**
   * A proof the caller brought: against the declaration it counts only for a launch that was refused, or
   * beside an acknowledgement that covers the server.
   */
  lemma CallersProofDecides(w: World, c: nat)
    requires Owner(w, c) && w.calls[c].phase.Judging? && w.calls[c].input.absenceVerified
    ensures CanRun(w, [Judge(c), Settle(c)])
    ensures var w' := Run(w, [Judge(c), Settle(c)]);
      if || !w.facts.tool.objects || w.calls[c].input.claim.cause == LaunchRefused
         || (w.facts.tool.hosted && w.row.remote && Quiesced(w.calls[c].phase.current))
      then EndsVerified(w, w', c)
      else StaysStopping(w, w', c, w.calls[c].phase.current)
  {
    OwnerHolds(w, c);
    var current := w.calls[c].phase.current;
    assert JudgeStep(w, c) == Moved(w, c, Verdict(current, true, false));
    VerdictThenSettle(w, Judge(c), c, current, true, false);
  }

  /** A remote executor's acknowledgement. */
  lemma AcknowledgementDecides(w: World, c: nat)
    requires Owner(w, c) && w.calls[c].phase.Judging? && w.row.remote && Quiesced(w.calls[c].phase.current)
    requires !w.calls[c].input.absenceVerified
    ensures CanRun(w, [Judge(c), Settle(c)])
    ensures var w' := Run(w, [Judge(c), Settle(c)]);
      if !w.facts.tool.objects || w.facts.tool.hosted then EndsVerified(w, w', c)
      else StaysStopping(w, w', c, w.calls[c].phase.current)
  {
    OwnerHolds(w, c);
    var current := w.calls[c].phase.current;
    assert JudgeStep(w, c) == Moved(w, c, Verdict(current, true, false));
    VerdictThenSettle(w, Judge(c), c, current, true, false);
  }

  // ---------------------------------------------------------------- from the wait to the proof

  /** The row a pass judges by when its wait ends now. */
  function JudgedRow(w: World, c: nat): Row
    requires At(w, c) && w.calls[c].phase.Waiting?
  {
    var requested := w.calls[c].phase.requested;
    if !requested.connected || Quiesced(requested) || w.calls[c].input.graceMs <= 0 then requested else w.row
  }

  lemma WaitThenJudge(w: World, c: nat)
    requires Owner(w, c) && w.calls[c].phase.Waiting?
    ensures var current := JudgedRow(w, c);
      && current.status == Stopping && Token(current) == w.calls[c].token && SnapshotOk(w, current)
      && Apply(w, EndWait(c)) == Moved(w, c, Judging(w.calls[c].phase.requested, current))
      && CanRun(w, [EndWait(c), Judge(c)])
      && Run(w, [EndWait(c), Judge(c)]) ==
         JudgeStep(Moved(w, c, Judging(w.calls[c].phase.requested, current)), c)
  {
    OwnerHolds(w, c);
    TwoSteps(w, EndWait(c), Judge(c));
  }

  /** An owner in time without a proof goes on to look for one, by the group for a local executor. */
  lemma LocalPassProbes(w: World, c: nat)
    requires Owner(w, c) && w.calls[c].phase.Waiting? && !w.row.remote && !w.calls[c].input.absenceVerified
    ensures CanRun(w, [EndWait(c), Judge(c)])
    ensures Run(w, [EndWait(c), Judge(c)]) == Moved(w, c, Probing(JudgedRow(w, c)))
  {
    WaitThenJudge(w, c);
    MovedTwice(w, c, Judging(w.calls[c].phase.requested, JudgedRow(w, c)), Probing(JudgedRow(w, c)));
  }

  lemma MovedTwice(w: World, c: nat, p: Phase, q: Phase)
    requires At(w, c)
    ensures Moved(Moved(w, c, p), c, q) == Moved(w, c, q)
  {
    assert w.calls[c := w.calls[c].(phase := p)][c := w.calls[c].(phase := q)] == w.calls[c := w.calls[c].(phase := q)];
  }

  /** For a remote one by the helper: it starts exactly when there is one and this revision has not used it. */
  lemma RemotePassAsksTheHelper(w: World, c: nat)
    requires Owner(w, c) && w.calls[c].phase.Waiting? && w.row.remote && !w.calls[c].input.absenceVerified
    requires !Quiesced(JudgedRow(w, c))
    ensures w.row.request.Some?
    ensures CanRun(w, [EndWait(c), Judge(c), AskCleanup(c, true), InvokeHelper(c)]) <==>
            w.facts.helperConfigured && !w.row.request.value.cleanupStarted
    ensures CanRun(w, [EndWait(c), Judge(c), AskCleanup(c, true), InvokeHelper(c)]) ==>
      HelperStarts(w, Run(w, [EndWait(c), Judge(c), AskCleanup(c, true), InvokeHelper(c)]), c, JudgedRow(w, c))
  {
    OwnerHolds(w, c);
    WaitThenJudge(w, c);
    HelperIsAsked(w, c);
    var current := JudgedRow(w, c);
    var judged := JudgeStep(EndWaitStep(w, c), c);
    HelperSteps(w, c);
    if w.facts.helperConfigured { HelperIsStarted(judged, c, current); }
  }

  lemma HelperSteps(w: World, c: nat)
    requires At(w, c) && w.calls[c].phase.Waiting?
    ensures var run := [EndWait(c), Judge(c), AskCleanup(c, true), InvokeHelper(c)];
      var judged := JudgeStep(EndWaitStep(w, c), c);
      && At(judged, c)
      && (CanRun(w, run) ==> judged.calls[c].phase.AskingCleanup?)
      && (judged.calls[c].phase.AskingCleanup? ==>
            var asked := AskCleanupStep(judged, c, true);
            && At(asked, c) && (CanRun(w, run) <==> asked.calls[c].phase.CleanupGranted?)
            && (CanRun(w, run) ==> Run(w, run) == InvokeHelperStep(asked, c)))
  {
    var rest := [Judge(c), AskCleanup(c, true), InvokeHelper(c)];
    assert [EndWait(c)] + rest == [EndWait(c), Judge(c), AskCleanup(c, true), InvokeHelper(c)];
    HeadExactly(w, EndWait(c), rest);
    JudgedSteps(EndWaitStep(w, c), c);
  }

  lemma JudgedSteps(w: World, c: nat)
    requires At(w, c) && w.calls[c].phase.Judging?
    ensures var run := [Judge(c), AskCleanup(c, true), InvokeHelper(c)]; var judged := JudgeStep(w, c);
      && At(judged, c)
      && (CanRun(w, run) ==> judged.calls[c].phase.AskingCleanup?)
      && (judged.calls[c].phase.AskingCleanup? ==>
            var asked := AskCleanupStep(judged, c, true);
            && At(asked, c) && (CanRun(w, run) <==> asked.calls[c].phase.CleanupGranted?)
            && (CanRun(w, run) ==> Run(w, run) == InvokeHelperStep(asked, c)))
  {
    var rest := [AskCleanup(c, true), InvokeHelper(c)];
    assert [Judge(c)] + rest == [Judge(c), AskCleanup(c, true), InvokeHelper(c)];
    HeadExactly(w, Judge(c), rest);
    AskThenInvoke(JudgeStep(w, c), c);
  }

  lemma AskThenInvoke(w: World, c: nat)
    requires At(w, c)
    ensures var run := [AskCleanup(c, true), InvokeHelper(c)];
      && (CanRun(w, run) ==> w.calls[c].phase.AskingCleanup?)
      && (w.calls[c].phase.AskingCleanup? ==>
            var asked := AskCleanupStep(w, c, true);
            && At(asked, c) && (CanRun(w, run) <==> asked.calls[c].phase.CleanupGranted?)
            && (CanRun(w, run) ==> Run(w, run) == InvokeHelperStep(asked, c)))
  {
    TwoStepsExactly(w, AskCleanup(c, true), InvokeHelper(c));
  }

  /** The permit is spent, and the helper runs for the row's revision. */
  ghost predicate HelperStarts(w: World, w': World, c: nat, current: Row) {
    && At(w', c) && w'.calls[c].phase == CleanupRunning(current) && w.row.request.Some?
    && w'.row == w.row.(request := Some(w.row.request.value.(cleanupStarted := true)))
    && w'.ledger.helperRuns == w.ledger.helperRuns + [CurrentRevision(w.row.request.value)]
  }

  lemma HelperIsStarted(w: World, c: nat, current: Row)
    requires At(w, c) && w.calls[c].phase == AskingCleanup(current) && !Guarded(w.row) && w.row.request.Some?
    requires w.row.status == Stopping && w.row.lease.Some? && w.row.lease.value.token in w.ledger.leases
    requires Token(current) == Token(w.row) && w.now < w.row.lease.value.expiresAt
    ensures var asked := AskCleanupStep(w, c, true);
      && At(asked, c) && (asked.calls[c].phase.CleanupGranted? <==> !w.row.request.value.cleanupStarted)
      && (asked.calls[c].phase.CleanupGranted? ==> HelperStarts(w, InvokeHelperStep(asked, c), c, current))
  {
  }

  lemma HelperIsAsked(w: World, c: nat)
    requires At(w, c) && w.calls[c].phase.Waiting? && w.calls[c].token.Some? && !w.calls[c].input.absenceVerified
    requires var current := JudgedRow(w, c);
      !Quiesced(current) && current.status == Stopping && Token(current) == w.calls[c].token && current.remote
    ensures var current := JudgedRow(w, c);
      JudgeStep(Moved(w, c, Judging(w.calls[c].phase.requested, current)), c) ==
      Moved(w, c, if w.facts.helperConfigured then AskingCleanup(current) else Verdict(current, false, false))
  {
    var current := JudgedRow(w, c);
    MovedTwice(w, c, Judging(w.calls[c].phase.requested, current),
               if w.facts.helperConfigured then AskingCleanup(current) else Verdict(current, false, false));
  }

  // ---------------------------------------------------------------- what callers are answered

  /** How the request comes out, and with what answer, before anything is coordinated. */
  lemma DecisionAnswers(w: World, c: nat)
    requires RowOk(w.row) && Enabled(w, ClaimRequest(c))
    ensures var i, joined := w.calls[c].input, w.calls[c].daemon in w.operations;
      var over := Terminal(w.row.status); var asked := !over && Expected(w.row, i.claim);
      var phase := DecideStep(AfterClaim(w, c), c).calls[c].phase;
      && (phase == Finished(ResTerminal) <==> over && i.absenceVerified)
      && (phase == Finished(ResChanged) <==> !over && !asked)
      && (phase == Finished(ResJoined) <==> joined && (asked || (over && !i.absenceVerified)))
      && (phase.Waiting? <==> over && !i.absenceVerified && !joined)
      && (!Guarded(w.row) ==>
            (phase == Finished(ResPending) <==>
               && asked && !joined && w.row.remote && !w.row.connected && !Quiesced(w.row)
               && !i.absenceVerified && !i.deadlineExpired))
  {
    ClaimAsks(w, c);
  }

  /** Who is asked to come back, and who hears that things have changed, at the coordination. */
  lemma CoordinationAnswers(w: World, c: nat, owns: bool, token: nat, leaseMs: int)
    requires RowOk(w.row) && At(w, c) && w.calls[c].phase.Coordinating? && Token(w.row) != Some(token)
    requires w.row.status == Stopping && w.calls[c].phase.task.remote == w.row.remote
    ensures var i := w.calls[c].input; var phase := CoordinateStep(w, c, owns, token, leaseMs).calls[c].phase;
      var stranger := !w.row.remote && !owns && !i.absenceVerified && !i.allowUnowned;
      var young := !w.row.remote && !owns && i.ownerGraceMs.Some? && Age(w.row, w.now) < i.ownerGraceMs.value;
      var held := w.row.lease.Some? && w.now < w.row.lease.value.expiresAt;
      && (phase == Finished(ResPending) <==> stranger || (!Guarded(w.row) && !young && held))
      && (phase == Finished(ResChanged) <==> !stranger && (Guarded(w.row) || young))
      && (phase.Finished? ==> CoordinateStep(w, c, owns, token, leaseMs).row == w.row)
  {
  }

  /** A pass stops judging when the row it judges by is another owner's, or is no longer asked to end. */
  lemma JudgementAnswers(w: World, c: nat)
    requires At(w, c) && w.calls[c].phase.Judging?
    ensures var phase := JudgeStep(w, c).calls[c].phase;
      var current, requested := w.calls[c].phase.current, w.calls[c].phase.requested;
      && (phase.Finished? <==>
            if current.status == Stopping then Token(current) != w.calls[c].token
            else !Terminal(current.status) && current.status != requested.status)
      && (phase.Finished? ==> phase.result == ResChanged)
  {
  }

  /** A start finds its daemon free, or joins; without a token it contains only what is over already. */
  lemma StartAnswers(w: World, c: nat, requested: Row)
    requires At(w, c)
    ensures var phase := StartOperation(w, c, requested).calls[c].phase;
      && (phase == Finished(ResJoined) <==> w.calls[c].daemon in w.operations)
      && (phase.Waiting? <==>
            w.calls[c].daemon !in w.operations && (requested.lease.Some? || Terminal(requested.status)))
      && (phase.Waiting? || phase.Finished?)
  {
  }

  /**
   * What a settlement answers: for a Task that is over, whether its absence is proved; an owner that lost its
   * token hears that things have changed, and moves nothing.
   */
  lemma SettlementAnswers(w: World, c: nat)
    requires At(w, c) && w.calls[c].phase.Verdict?
    ensures var w' := SettleStep(w, c); var p := w.calls[c].phase;
      && (Terminal(p.current.status) ==>
            w'.row == w.row && w'.calls[c].phase == Finished(if p.absent then ResTerminal else ResUnverified))
      && (!Terminal(p.current.status) && !Terminal(w.row.status) && Token(w.row) != w.calls[c].token ==>
            w'.row == w.row && w'.calls[c].phase == Finished(ResChanged))
      && (!Terminal(p.current.status) && Terminal(w.row.status) && w.calls[c].token.Some? ==>
            && w'.row == w.row
            && w'.calls[c].phase == Finished(if p.absent && !StandsAgainst(w, c) then ResTerminal else ResUnverified))
  {
  }

  /** A retry and a first acknowledgement open a guarded row again, the retry with a budget of its own. */
  lemma ReopeningActions(w: World, at: int, revision: Revision, newId: nat)
    requires Reachable(w) && w.row.status == Stopping && Guarded(w.row)
    ensures Enabled(w, RetryCleanup(at, revision, newId)) ==>
      var w' := Apply(w, RetryCleanup(at, revision, newId));
      && !Guarded(w'.row) && w'.row.status == Stopping && w'.row.lease.None? && !w'.row.request.value.cleanupStarted
      && CurrentRevision(w'.row.request.value) == Retried(newId) && Retried(newId) !in w'.ledger.granted
    ensures Enabled(w, ExecutorQuiesces(at)) && !Quiesced(w.row) ==>
      var w' := Apply(w, ExecutorQuiesces(at));
      && !Guarded(w'.row) && w'.row.status == Stopping && w'.row.lease.None?
      && QuiescedAt(w'.row) == Some(w.now)
      && CurrentRevision(w'.row.request.value) == CurrentRevision(w.row.request.value)
  {
    ReachableKeepsInvariant(w);
    GuardedRowsCanBeReopened(w.row, newId, 0, 0, w.now);
  }

  /** Without a cleanup context no permit is asked for, and the pass has no proof. */
  lemma NoContextNoHelper(w: World, c: nat)
    requires At(w, c) && w.calls[c].phase.AskingCleanup?
    ensures AskCleanupStep(w, c, false) == Moved(w, c, Verdict(w.calls[c].phase.current, false, false))
  {
  }

  /** All of it together: a run in which the executor stops, the helper says so, and the Task ends as proved. */
  lemma StopCanBeProved(single: bool)
    ensures exists w: World ::
      && Reachable(w) && w.facts.singleDaemon == single && w.ledger.ending == Some(VerifiedAbsent) && Gone(w)
      && |w.ledger.helperRuns| == 1 && w.row.status == Failed
  {
    var granted := PermitIsGranted(single, 0, 1);
    var running := StepIsReachable(granted, InvokeHelper(0));
    assert running == InvokeHelperStep(granted, 0);
    var stopped := StepIsReachable(running, ExecutorStops);
    var judged := HelperConfirms(stopped);
    var w := StepIsReachable(judged, Settle(0));
    ConfirmedSettles(judged);
    TerminationIsProved(w);
  }

  lemma HelperConfirms(w: World) returns (w': World)
    requires Reachable(w) && At(w, 0) && w.calls[0].phase.CleanupRunning? && !w.facts.executorAlive
    ensures Reachable(w') && w' == Moved(w, 0, Verdict(w.calls[0].phase.current, true, true))
  {
    w' := StepIsReachable(w, HelperExits(0, true));
  }

  lemma ConfirmedSettles(w: World)
    requires At(w, 0) && w.calls[0].token == Some(1) && w.row == AskedRow(0, true, Some(Lease(1, 1)))
    requires w.calls[0].phase == Verdict(AskedRow(0, false, Some(Lease(1, 1))), true, true) && !w.facts.tool.objects
    ensures var w' := SettleStep(w, 0);
      && w'.ledger == w.ledger.(ending := Some(VerifiedAbsent)) && w'.row.status == Failed && w'.facts == w.facts
  {
    assert SettleStep(w, 0) == SettleVerifiedStep(w, 0);
  }
}
