/**
 * What coordination tokens are worth over a run: a token belongs to one call, a lost token stays
 * lost, and a cleanup permit serves a live Task for as long as its owner's lease lasts.
 */
module TerminationLeases {
  import opened Options
  import opened TaskRow
  import opened TerminationProtocol
  import opened TerminationProofs
  import opened TerminationTheorems
  import opened TerminationTiming

  /** A lease seen anywhere is one that was given, with the expiry it was given. */
  ghost predicate Issued(l: Ledger, lease: Option<Lease>) {
    lease.Some? ==> lease.value.token in l.leases && l.leases[lease.value.token] == lease.value.expiresAt
  }

  /** A snapshot's lease was given, and only a stopping row has one. */
  ghost predicate LeaseOf(l: Ledger, r: Row) {
    Issued(l, r.lease) && (r.lease.Some? ==> r.status == Stopping)
  }

  /** The token a call coordinates under; between its claim and its start it is still in the snapshot. */
  function HeldToken(call: Call): Option<nat> {
    if call.phase.Coordinated? then Token(call.phase.task) else call.token
  }

  ghost predicate HolderOk(l: Ledger, call: Call) {
    && (HeldToken(call).Some? ==> HeldToken(call).value in l.leases)
    && match call.phase
       case Arrived => call.token.None?
       case RequestClaimed(outcome, task) =>
         call.token.None? && LeaseOf(l, task) && (outcome == ClaimTerminal ==> Terminal(task.status))
       case Coordinating(_) => call.token.None?
       case Coordinated(task) => call.token.None? && LeaseOf(l, task)
       case Waiting(requested) => LeaseOf(l, requested) && Token(requested) == call.token
       case Judging(_, current) => LeaseOf(l, current)
       case AskingCleanup(current) => OwnLease(l, call, current)
       case CleanupGranted(current, _) => OwnLease(l, call, current)
       case CleanupRunning(current) => OwnLease(l, call, current)
       case _ => true
  }

  ghost predicate OwnLease(l: Ledger, call: Call, current: Row) {
    current.lease.Some? && Token(current) == call.token && LeaseOf(l, current)
  }

  ghost predicate HoldersOk(w: World) {
    && LeaseOf(w.ledger, w.row)
    && (forall c <- w.calls :: HolderOk(w.ledger, w.calls[c]))
    && (forall c, d :: c in w.calls && d in w.calls && c != d && HeldToken(w.calls[c]).Some? ==>
          HeldToken(w.calls[c]) != HeldToken(w.calls[d]))
  }

  /** The last snapshot a call judges by. */
  function CurrentOf(p: Phase): Option<Row> {
    if p.Judging? || p.AskingCleanup? || p.CleanupGranted? || p.CleanupRunning? || p.Probing? || p.Verdict?
    then Some(p.current) else None
  }

  /** The call is under way, and the lease it coordinates under has not ended. */
  ghost predicate InTime(w: World, call: Call) {
    && !call.phase.Finished? && HeldToken(call).Some? && HeldToken(call).value in w.ledger.leases
    && w.now < w.ledger.leases[HeldToken(call).value]
  }

  /** The row is stopping under exactly this lease. */
  ghost predicate OwnsRow(w: World, token: nat) {
    && token in w.ledger.leases && w.row.status == Stopping
    && w.row.lease == Some(Lease(token, w.ledger.leases[token]))
  }

  /** In time, an owner owns the row, and so says the snapshot it judges by. */
  ghost predicate OwnerLive(w: World, call: Call) {
    InTime(w, call) ==>
      && OwnsRow(w, HeldToken(call).value)
      && (CurrentOf(call.phase).Some? ==>
            CurrentOf(call.phase).value.status == Stopping && Token(CurrentOf(call.phase).value) == call.token)
  }

  ghost predicate OwnersLive(w: World) {
    !w.facts.singleDaemon ==> forall c <- w.calls :: OwnerLive(w, w.calls[c])
  }

  ghost predicate LeaseInv(w: World) { RowOk(w.row) && HoldersOk(w) && OwnersLive(w) }

  // ---------------------------------------------------------------- tokens

  ghost predicate MoreLeases(l: Ledger, l': Ledger) {
    forall t <- l.leases :: t in l'.leases && l'.leases[t] == l.leases[t]
  }

  /** The row's lease after a step is the one before, none, or one given by this very step. */
  ghost predicate LeaseStep(w: World, w': World) {
    && MoreLeases(w.ledger, w'.ledger) && LeaseOf(w'.ledger, w'.row)
    && (w'.row.lease.Some? && w'.row.lease != w.row.lease ==> w'.row.lease.value.token !in w.ledger.leases)
  }

  lemma QuietLeaseStep(w: World, a: Action)
    requires RowOk(w.row) && LeaseOf(w.ledger, w.row) && Enabled(w, a) && Quiet(a)
    ensures LeaseStep(w, Apply(w, a)) && Apply(w, a).ledger.leases == w.ledger.leases
  {
    QuietStepSameRow(w, a);
  }

  lemma OutsideLeaseStep(w: World, a: Action)
    requires RowOk(w.row) && LeaseOf(w.ledger, w.row) && Enabled(w, a) && Outside(a)
    ensures LeaseStep(w, Apply(w, a)) && Apply(w, a).ledger.leases == w.ledger.leases
  {
    if Releases(a) {
      ReleaseLeaseStep(w, a);
    } else {
      EnvironmentLeaseStep(w, a);
    }
  }

  lemma ReleaseLeaseStep(w: World, a: Action)
    requires RowOk(w.row) && LeaseOf(w.ledger, w.row) && Enabled(w, a) && Releases(a)
    ensures LeaseStep(w, Apply(w, a)) && Apply(w, a).ledger.leases == w.ledger.leases
  {
  }

  lemma EnvironmentLeaseStep(w: World, a: Action)
    requires RowOk(w.row) && LeaseOf(w.ledger, w.row) && Enabled(w, a) && Outside(a) && !Releases(a)
    ensures LeaseStep(w, Apply(w, a)) && Apply(w, a).ledger.leases == w.ledger.leases
  {
  }

  lemma SettleLeaseStep(w: World, c: nat)
    requires RowOk(w.row) && LeaseOf(w.ledger, w.row) && At(w, c) && w.calls[c].phase.Verdict?
    ensures LeaseStep(w, SettleStep(w, c)) && SettleStep(w, c).ledger.leases == w.ledger.leases
  {
    assert SettleStep(w, c).row.lease in {w.row.lease, None};
  }

  lemma CallLeaseStep(w: World, a: Action)
    requires RowOk(w.row) && LeaseOf(w.ledger, w.row) && Enabled(w, a)
    requires a.ClaimRequest? || a.Coordinate? || a.AskCleanup?
    ensures LeaseStep(w, Apply(w, a))
    ensures !a.Coordinate? ==> Apply(w, a).ledger.leases == w.ledger.leases
  {
    if a.Coordinate? {
      CoordinateLeaseStep(w, a.call, a.ownsHandle, a.token, a.leaseMs);
    } else if a.ClaimRequest? {
      ClaimLeaseStep(w, a.call);
    }
  }

  lemma CoordinateLeaseStep(w: World, c: nat, owns: bool, token: nat, leaseMs: int)
    requires LeaseOf(w.ledger, w.row) && At(w, c) && w.calls[c].phase.Coordinating? && token !in w.ledger.leases
    ensures LeaseStep(w, CoordinateStep(w, c, owns, token, leaseMs))
  {
  }

  lemma ClaimLeaseStep(w: World, c: nat)
    requires RowOk(w.row) && LeaseOf(w.ledger, w.row) && At(w, c)
    ensures LeaseStep(w, ClaimRequestStep(w, c)) && ClaimRequestStep(w, c).ledger == w.ledger
  {
  }

  lemma StepLeases(w: World, a: Action)
    requires RowOk(w.row) && LeaseOf(w.ledger, w.row) && Enabled(w, a)
    ensures LeaseStep(w, Apply(w, a))
    ensures !a.Coordinate? ==> Apply(w, a).ledger.leases == w.ledger.leases
  {
    if Quiet(a) {
      QuietLeaseStep(w, a);
    } else if Outside(a) {
      OutsideLeaseStep(w, a);
    } else if a.Settle? {
      SettleLeaseStep(w, a.call);
    } else {
      CallLeaseStep(w, a);
    }
  }

  lemma HolderCarries(l: Ledger, l': Ledger, call: Call)
    requires MoreLeases(l, l') && HolderOk(l, call)
    ensures HolderOk(l', call)
  {
  }

  /** The acting call keeps its token, drops it, or holds one no call ever held. */
  ghost predicate TokenStep(w: World, w': World, c: nat)
    requires At(w, c) && At(w', c)
  {
    && HolderOk(w'.ledger, w'.calls[c])
    && (HeldToken(w'.calls[c]).Some? && HeldToken(w'.calls[c]) != HeldToken(w.calls[c]) ==>
          HeldToken(w'.calls[c]).value !in w.ledger.leases)
  }

  lemma DecideTokens(w: World, c: nat)
    requires HoldersOk(w) && RowOk(w.row) && At(w, c) && w.calls[c].phase.RequestClaimed?
    ensures At(DecideStep(w, c), c) && TokenStep(w, DecideStep(w, c), c)
  {
    assert HolderOk(w.ledger, w.calls[c]);
  }

  lemma CoordinateTokens(w: World, c: nat, owns: bool, token: nat, leaseMs: int)
    requires HoldersOk(w) && At(w, c) && w.calls[c].phase.Coordinating? && token !in w.ledger.leases
    ensures var w' := CoordinateStep(w, c, owns, token, leaseMs); At(w', c) && TokenStep(w, w', c)
  {
    assert HolderOk(w.ledger, w.calls[c]);
  }

  lemma SettleTokens(w: World, c: nat)
    requires HoldersOk(w) && RowOk(w.row) && At(w, c) && w.calls[c].phase.Verdict?
    ensures At(SettleStep(w, c), c) && TokenStep(w, SettleStep(w, c), c)
  {
    SettleLeaseStep(w, c);
    SettleGoesOn(w, c);
    assert HolderOk(w.ledger, w.calls[c]);
  }

  lemma AskTokens(w: World, c: nat, found: bool)
    requires HoldersOk(w) && At(w, c) && w.calls[c].phase.AskingCleanup?
    ensures At(AskCleanupStep(w, c, found), c) && TokenStep(w, AskCleanupStep(w, c, found), c)
  {
    assert HolderOk(w.ledger, w.calls[c]);
  }

  lemma ClaimTokens(w: World, c: nat)
    requires HoldersOk(w) && RowOk(w.row) && Enabled(w, ClaimRequest(c))
    ensures At(ClaimRequestStep(w, c), c) && TokenStep(w, ClaimRequestStep(w, c), c)
  {
    assert HolderOk(w.ledger, w.calls[c]);
  }

  lemma StartTokens(w: World, c: nat)
    requires HoldersOk(w) && At(w, c) && w.calls[c].phase.Coordinated?
    ensures var w' := StartOperation(w, c, w.calls[c].phase.task); At(w', c) && TokenStep(w, w', c)
  {
    assert HolderOk(w.ledger, w.calls[c]);
  }

  lemma JudgeTokens(w: World, c: nat)
    requires HoldersOk(w) && At(w, c) && w.calls[c].phase.Judging?
    ensures At(JudgeStep(w, c), c) && TokenStep(w, JudgeStep(w, c), c)
  {
    assert HolderOk(w.ledger, w.calls[c]);
  }

  lemma WaitTokens(w: World, c: nat)
    requires HoldersOk(w) && At(w, c) && w.calls[c].phase.Waiting?
    ensures At(EndWaitStep(w, c), c) && TokenStep(w, EndWaitStep(w, c), c)
  {
    assert HolderOk(w.ledger, w.calls[c]);
  }

  lemma PlainTokens(w: World, a: Action)
    requires HoldersOk(w) && Enabled(w, a) && (a.InvokeHelper? || a.HelperExits? || a.ProbeEnds? || a.Fail?)
    ensures At(Apply(w, a), a.call) && TokenStep(w, Apply(w, a), a.call)
  {
    assert HolderOk(w.ledger, w.calls[a.call]);
  }

  lemma ActorTokens(w: World, a: Action)
    requires HoldersOk(w) && RowOk(w.row) && Enabled(w, a) && !Outside(a)
    ensures At(Apply(w, a), a.call) && TokenStep(w, Apply(w, a), a.call)
  {
    if a.Decide? {
      DecideTokens(w, a.call);
    } else if a.Coordinate? {
      CoordinateTokens(w, a.call, a.ownsHandle, a.token, a.leaseMs);
    } else if a.Settle? {
      SettleTokens(w, a.call);
    } else if a.AskCleanup? {
      AskTokens(w, a.call, a.contextFound);
    } else if a.ClaimRequest? {
      ClaimTokens(w, a.call);
    } else if a.Start? {
      StartTokens(w, a.call);
    } else if a.Judge? {
      JudgeTokens(w, a.call);
    } else if a.EndWait? {
      WaitTokens(w, a.call);
    } else {
      PlainTokens(w, a);
    }
  }

  /** Every call after a step acted, arrived, or is as it was. */
  lemma StepKeepsHolder(w: World, a: Action, c: nat)
    requires HoldersOk(w) && RowOk(w.row) && Enabled(w, a) && At(Apply(w, a), c)
    ensures var w' := Apply(w, a);
      if !Outside(a) && c == a.call then At(w, c) && TokenStep(w, w', c)
      else HolderOk(w'.ledger, w'.calls[c]) &&
           (HeldToken(w'.calls[c]).None? || (At(w, c) && w'.calls[c] == w.calls[c]))
  {
    if !Outside(a) && c == a.call {
      ActorTokens(w, a);
    } else {
      OthersUntouched(w, a, c);
      StepLeases(w, a);
      if At(w, c) && Apply(w, a).calls[c] == w.calls[c] {
        HolderCarries(w.ledger, Apply(w, a).ledger, w.calls[c]);
      }
    }
  }

  lemma StepKeepsHolders(w: World, a: Action)
    requires HoldersOk(w) && RowOk(w.row) && Enabled(w, a)
    ensures HoldersOk(Apply(w, a))
  {
    var w' := Apply(w, a);
    StepLeases(w, a);
    forall c | c in w'.calls ensures HolderOk(w'.ledger, w'.calls[c]) {
      StepKeepsHolder(w, a, c);
    }
    forall c, d | c in w'.calls && d in w'.calls && c != d && HeldToken(w'.calls[c]).Some?
      ensures HeldToken(w'.calls[c]) != HeldToken(w'.calls[d])
    {
      StepKeepsApart(w, a, c, d);
    }
  }

  lemma StepKeepsApart(w: World, a: Action, c: nat, d: nat)
    requires HoldersOk(w) && RowOk(w.row) && Enabled(w, a)
    requires At(Apply(w, a), c) && At(Apply(w, a), d) && c != d && HeldToken(Apply(w, a).calls[c]).Some?
    ensures HeldToken(Apply(w, a).calls[c]) != HeldToken(Apply(w, a).calls[d])
  {
    StepKeepsHolder(w, a, c);
    StepKeepsHolder(w, a, d);
    if At(w, d) {
      if Outside(a) || c != a.call { OthersUntouched(w, a, c); } else { OthersUntouched(w, a, d); }
    }
    HoldersStayApart(w, Apply(w, a), c, d);
  }

  lemma HoldersStayApart(w: World, w': World, c: nat, d: nat)
    requires HoldersOk(w) && At(w', c) && At(w', d) && c != d && HeldToken(w'.calls[c]).Some?
    requires (At(w, c) && (w'.calls[c] == w.calls[c] || TokenStep(w, w', c)))
    requires HeldToken(w'.calls[d]).None? || (At(w, d) && (w'.calls[d] == w.calls[d] || TokenStep(w, w', d)))
    requires At(w, d) ==> w'.calls[c] == w.calls[c] || w'.calls[d] == w.calls[d]
    ensures HeldToken(w'.calls[c]) != HeldToken(w'.calls[d])
  {
    assert HolderOk(w.ledger, w.calls[c]);
    if At(w, d) {
      assert HolderOk(w.ledger, w.calls[d]);
    }
  }

  // ---------------------------------------------------------------- owners in time

  /** Nothing but its own call, its expiry or the boot release takes a lease off the row. */
  ghost predicate LeaseStays(w: World, w': World) {
    w'.row.lease == w.row.lease && w'.row.status == Stopping
  }

  lemma OutsideKeepsLease(w: World, a: Action)
    requires RowOk(w.row) && Enabled(w, a) && Outside(a) && !w.facts.singleDaemon && w.row.lease.Some?
    ensures LeaseStays(w, Apply(w, a))
  {
  }

  lemma CallKeepsLease(w: World, a: Action)
    requires RowOk(w.row) && Enabled(w, a) && !Outside(a) && w.row.lease.Some? && w.now < w.row.lease.value.expiresAt
    requires a.Settle? ==> SettleStep(w, a.call).row == w.row
    ensures LeaseStays(w, Apply(w, a))
  {
    if Quiet(a) { QuietStepSameRow(w, a); }
  }

  lemma TokenlessSettleMovesNothing(w: World, c: nat)
    requires At(w, c) && w.calls[c].phase.Verdict? && Token(w.row) != w.calls[c].token
    ensures SettleStep(w, c).row == w.row
  {
  }

  lemma OutsideTime(w: World, a: Action)
    requires Enabled(w, a) && Outside(a)
    ensures w.now <= Apply(w, a).now && Apply(w, a).facts.singleDaemon == w.facts.singleDaemon
  {
  }

  lemma NowNeverFalls(w: World, a: Action)
    requires Enabled(w, a)
    ensures w.now <= Apply(w, a).now && Apply(w, a).facts.singleDaemon == w.facts.singleDaemon
  {
    if Outside(a) { OutsideTime(w, a); }
  }

  /** A step of somebody else leaves an owner in time what it has. */
  lemma StepKeepsOwner(w: World, a: Action, c: nat)
    requires LeaseInv(w) && Enabled(w, a) && !w.facts.singleDaemon && At(w, c) && At(Apply(w, a), c)
    requires Apply(w, a).calls[c] == w.calls[c] && (!Outside(a) ==> a.call != c)
    ensures OwnerLive(Apply(w, a), w.calls[c])
  {
    var call := w.calls[c];
    NowNeverFalls(w, a);
    StepLeases(w, a);
    assert OwnerLive(w, call) && HolderOk(w.ledger, call);
    if InTime(Apply(w, a), call) {
      if Outside(a) {
        OutsideKeepsLease(w, a);
      } else {
        if a.Settle? {
          assert HolderOk(w.ledger, w.calls[a.call]);
          TokenlessSettleMovesNothing(w, a.call);
        }
        CallKeepsLease(w, a);
      }
    }
  }

  lemma CoordinateMakesAnOwner(w: World, c: nat, owns: bool, token: nat, leaseMs: int)
    requires HoldersOk(w) && At(w, c) && w.calls[c].phase.Coordinating? && token !in w.ledger.leases
    ensures var w' := CoordinateStep(w, c, owns, token, leaseMs); At(w', c) && OwnerLive(w', w'.calls[c])
  {
    assert HolderOk(w.ledger, w.calls[c]);
  }

  lemma StartKeepsOwner(w: World, c: nat)
    requires HoldersOk(w) && At(w, c) && w.calls[c].phase.Coordinated? && OwnerLive(w, w.calls[c])
    ensures var w' := StartOperation(w, c, w.calls[c].phase.task); At(w', c) && OwnerLive(w', w'.calls[c])
  {
    assert HolderOk(w.ledger, w.calls[c]);
  }

  lemma WaitKeepsOwner(w: World, c: nat)
    requires HoldersOk(w) && At(w, c) && w.calls[c].phase.Waiting? && OwnerLive(w, w.calls[c])
    ensures var w' := EndWaitStep(w, c); At(w', c) && OwnerLive(w', w'.calls[c])
  {
    assert HolderOk(w.ledger, w.calls[c]);
  }

  lemma JudgeKeepsOwner(w: World, c: nat)
    requires At(w, c) && w.calls[c].phase.Judging? && OwnerLive(w, w.calls[c])
    ensures var w' := JudgeStep(w, c); At(w', c) && OwnerLive(w', w'.calls[c])
  {
  }

  lemma AskKeepsOwner(w: World, c: nat, found: bool)
    requires At(w, c) && w.calls[c].phase.AskingCleanup? && OwnerLive(w, w.calls[c])
    ensures var w' := AskCleanupStep(w, c, found); At(w', c) && OwnerLive(w', w'.calls[c])
  {
  }

  lemma SettleKeepsOwner(w: World, c: nat)
    requires HoldersOk(w) && RowOk(w.row) && At(w, c) && w.calls[c].phase.Verdict? && OwnerLive(w, w.calls[c])
    ensures var w' := SettleStep(w, c); At(w', c) && OwnerLive(w', w'.calls[c])
  {
    SettleGoesOn(w, c);
    SettleLeaseStep(w, c);
  }

  /** Before its claim a call holds no token; after it has finished it answers for nothing. */
  lemma PlainKeepsOwner(w: World, a: Action)
    requires Enabled(w, a) && (a.ClaimRequest? || a.InvokeHelper? || a.HelperExits? || a.ProbeEnds? || a.Fail?)
    requires HolderOk(w.ledger, w.calls[a.call]) && OwnerLive(w, w.calls[a.call])
    ensures At(Apply(w, a), a.call) && OwnerLive(Apply(w, a), Apply(w, a).calls[a.call])
  {
    if a.ClaimRequest? {
      assert HeldToken(Apply(w, a).calls[a.call]).None?;
    } else {
      assert Apply(w, a).row == w.row && Apply(w, a).now == w.now && Apply(w, a).ledger.leases == w.ledger.leases;
    }
  }

  lemma DecideKeepsOwner(w: World, c: nat)
    requires HoldersOk(w) && At(w, c) && w.calls[c].phase.RequestClaimed?
    ensures At(DecideStep(w, c), c) && OwnerLive(DecideStep(w, c), DecideStep(w, c).calls[c])
  {
    assert HolderOk(w.ledger, w.calls[c]);
  }

  lemma ActorKeepsOwner(w: World, a: Action)
    requires LeaseInv(w) && Enabled(w, a) && !Outside(a) && !w.facts.singleDaemon
    ensures At(Apply(w, a), a.call) && OwnerLive(Apply(w, a), Apply(w, a).calls[a.call])
  {
    assert HolderOk(w.ledger, w.calls[a.call]) && OwnerLive(w, w.calls[a.call]);
    if a.Coordinate? {
      CoordinateMakesAnOwner(w, a.call, a.ownsHandle, a.token, a.leaseMs);
    } else if a.Start? {
      StartKeepsOwner(w, a.call);
    } else if a.EndWait? {
      WaitKeepsOwner(w, a.call);
    } else if a.Judge? {
      JudgeKeepsOwner(w, a.call);
    } else if a.AskCleanup? {
      AskKeepsOwner(w, a.call, a.contextFound);
    } else if a.Settle? {
      SettleKeepsOwner(w, a.call);
    } else if a.Decide? {
      DecideKeepsOwner(w, a.call);
    } else {
      PlainKeepsOwner(w, a);
    }
  }

  lemma StepKeepsOwners(w: World, a: Action)
    requires LeaseInv(w) && Enabled(w, a)
    ensures OwnersLive(Apply(w, a))
  {
    var w' := Apply(w, a);
    NowNeverFalls(w, a);
    if !w.facts.singleDaemon {
      forall c | c in w'.calls ensures OwnerLive(w', w'.calls[c]) {
        if !Outside(a) && c == a.call {
          ActorKeepsOwner(w, a);
        } else {
          OthersUntouched(w, a, c);
          if At(w, c) && w'.calls[c] == w.calls[c] { StepKeepsOwner(w, a, c); }
        }
      }
    }
  }

  // ---------------------------------------------------------------- runs

  lemma {:induction false} RunKeepsLeases(w: World, run: seq<Action>)
    requires Inv(w) && LeaseInv(w) && CanRun(w, run)
    ensures LeaseInv(Run(w, run))
    decreases |run|
  {
    if run != [] {
      StepKeepsInvariant(w, run[0]);
      StepKeepsHolders(w, run[0]);
      StepKeepsOwners(w, run[0]);
      RunKeepsLeases(Apply(w, run[0]), run[1..]);
    }
  }

  lemma ReachableKeepsLeases(w: World)
    requires Reachable(w)
    ensures Inv(w) && LeaseInv(w)
  {
    ReachableKeepsInvariant(w);
    var w0: World, run: seq<Action> :| Initial(w0) && CanRun(w0, run) && Run(w0, run) == w;
    RunKeepsLeases(w0, run);
  }

  /**
   * A daemon whose permit's lease has not run out on its own clock reading still owns the stopping
   * row, unless a single-daemon boot released the Task under it.
   */
  lemma PermitServesALiveTask(w: World, c: nat)
    requires Reachable(w) && At(w, c) && w.calls[c].phase.CleanupGranted?
    ensures var current := w.calls[c].phase.current;
      && current.lease.Some? && Token(current) == w.calls[c].token
      && (!w.facts.singleDaemon && w.now < current.lease.value.expiresAt ==>
            w.row.lease == current.lease && w.row.status == Stopping && !Guarded(w.row))
  {
    ReachableKeepsLeases(w);
    assert HolderOk(w.ledger, w.calls[c]) && (!w.facts.singleDaemon ==> OwnerLive(w, w.calls[c]));
  }

  lemma OwnerInTimeOwns(w: World, c: nat)
    requires Reachable(w) && !w.facts.singleDaemon && At(w, c) && Containing(w.calls[c].phase)
    requires w.calls[c].token.Some? && InTime(w, w.calls[c])
    ensures OwnsRow(w, w.calls[c].token.value) && !Guarded(w.row) && RowOk(w.row)
    ensures var current := CurrentOf(w.calls[c].phase);
      current.Some? ==> current.value.status == Stopping && Token(current.value) == w.calls[c].token
    ensures w.calls[c].phase.Verdict? ==> SnapshotOk(w, w.calls[c].phase.current)
  {
    ReachableKeepsLeases(w);
    assert OwnerLive(w, w.calls[c]) && CallOk(w, w.calls[c]);
  }

  /**
   * An owner whose lease has not ended owns the row. Its judgement goes on, and its settlement ends the
   * Task, guards it, or goes round once more on an acknowledgement it had not seen; it is never told
   * that something changed.
   */
  lemma OwnerInTimeSettles(w: World, c: nat)
    requires Reachable(w) && !w.facts.singleDaemon && At(w, c) && Containing(w.calls[c].phase)
    requires w.calls[c].token.Some? && InTime(w, w.calls[c])
    ensures OwnsRow(w, w.calls[c].token.value) && !Guarded(w.row)
    ensures w.calls[c].phase.Judging? ==>
      At(JudgeStep(w, c), c) && !JudgeStep(w, c).calls[c].phase.Finished?
    ensures w.calls[c].phase.Verdict? ==> At(SettleStep(w, c), c) && Settled(w, SettleStep(w, c), c)
  {
    OwnerInTimeOwns(w, c);
    if w.calls[c].phase.Judging? { JudgementGoesOn(w, c); }
    if w.calls[c].phase.Verdict? { VerdictInTimeSettles(w, c); }
  }

  /** What a settlement in time comes to. */
  ghost predicate Settled(w: World, w': World, c: nat)
    requires At(w', c)
  {
    || (Terminal(w'.row.status) && w'.ledger.ending == Some(VerifiedAbsent)
        && w'.calls[c].phase == Finished(ResTerminal))
    || (w'.row.status == Stopping && Guarded(w'.row) && w'.calls[c].phase == Finished(ResUnverified))
    || (w'.row == w.row && Quiesced(w.row) && w'.calls[c].reevaluated && w'.calls[c].phase == Waiting(w.row))
  }

  lemma JudgementGoesOn(w: World, c: nat)
    requires At(w, c) && w.calls[c].phase.Judging?
    requires w.calls[c].phase.current.status == Stopping && Token(w.calls[c].phase.current) == w.calls[c].token
    ensures At(JudgeStep(w, c), c) && !JudgeStep(w, c).calls[c].phase.Finished?
  {
  }

  lemma VerdictInTimeSettles(w: World, c: nat)
    requires RowOk(w.row) && At(w, c) && w.calls[c].phase.Verdict? && w.calls[c].token.Some?
    requires OwnsRow(w, w.calls[c].token.value) && SnapshotOk(w, w.calls[c].phase.current)
    requires w.calls[c].phase.current.status == Stopping
    ensures At(SettleStep(w, c), c) && Settled(w, SettleStep(w, c), c)
  {
    var call := w.calls[c];
    var Verdict(current, absent, helperConfirmed) := call.phase;
    if absent && !Objection(w.facts.tool, call, current, helperConfirmed) {
      assert SettleStep(w, c) == SettleVerifiedStep(w, c);
    } else {
      assert SettleStep(w, c) == SettleUnverifiedStep(w, c);
    }
  }

  /**
   * A first pass that takes no longer than its grace and its longest containment branch settles in
   * time, under the lease the coordinator computes for it; negative graces need the bound of the
   * timing lemma.
   */
  lemma APassInItsBudgetSettles(w: World, c: nat, signalDelay: Option<int>, configured: Option<int>,
                                timeout: Option<int>, claimedAt: int)
    requires Reachable(w) && !w.facts.singleDaemon && At(w, c) && w.calls[c].phase.Verdict?
    requires var call := w.calls[c]; call.token.Some? && call.token.value in w.ledger.leases
    requires var graceMs := CooperativeGrace(signalDelay, configured, w.row.remote);
      var cleanupMs := CleanupBudget(w.row.remote, w.facts.helperConfigured, timeout);
      && !(graceMs < -5_250 && cleanupMs > 25_000)
      && w.ledger.leases[w.calls[c].token.value] == claimedAt + CoordinationLease(None, graceMs, cleanupMs)
      && w.now < claimedAt + Max(0, graceMs) + ContainmentMs(w.row.remote, cleanupMs) + LEASE_MARGIN_MS
    ensures At(SettleStep(w, c), c) && Settled(w, SettleStep(w, c), c)
  {
    LeaseOutlastsOnePass(signalDelay, configured, w.row.remote, w.facts.helperConfigured, timeout);
    OwnerInTimeSettles(w, c);
  }

  /** No two calls ever coordinate under one token. */
  lemma TokensAreExclusive(w: World, c: nat, d: nat)
    requires Reachable(w) && At(w, c) && At(w, d) && c != d && w.calls[c].token.Some?
    ensures w.calls[c].token != w.calls[d].token
  {
    ReachableKeepsLeases(w);
    assert HolderOk(w.ledger, w.calls[c]) && HolderOk(w.ledger, w.calls[d]);
  }

  /** A token that was given and is not the row's is never the row's again. */
  lemma {:induction false} LostTokenStaysLost(w: World, token: nat, run: seq<Action>)
    requires Inv(w) && LeaseInv(w) && CanRun(w, run)
    requires token in w.ledger.leases && Token(w.row) != Some(token)
    ensures token in Run(w, run).ledger.leases && Token(Run(w, run).row) != Some(token)
    decreases |run|
  {
    if run != [] {
      StepLeases(w, run[0]);
      StepKeepsInvariant(w, run[0]);
      StepKeepsHolders(w, run[0]);
      StepKeepsOwners(w, run[0]);
      LostTokenStaysLost(Apply(w, run[0]), token, run[1..]);
    }
  }

  lemma HeldTokenWasGiven(w: World, c: nat)
    requires HoldersOk(w) && At(w, c) && w.calls[c].token.Some?
    ensures w.calls[c].token.value in w.ledger.leases
  {
    assert HolderOk(w.ledger, w.calls[c]);
  }

  /** An owner that lost its token moves the row by no settlement, however the run goes on. */
  lemma StaleOwnerNeverSettles(w: World, c: nat, run: seq<Action>)
    requires Reachable(w) && At(w, c) && w.calls[c].token.Some? && Token(w.row) != w.calls[c].token
    requires CanRun(w, run) && At(Run(w, run), c) && Run(w, run).calls[c].token == w.calls[c].token
    requires Run(w, run).calls[c].phase.Verdict?
    ensures Apply(Run(w, run), Settle(c)).row == Run(w, run).row
  {
    ReachableKeepsLeases(w);
    HeldTokenWasGiven(w, c);
    LostTokenStaysLost(w, w.calls[c].token.value, run);
    TokenlessSettleMovesNothing(Run(w, run), c);
  }

  // ---------------------------------------------------------------- the second pass

  lemma ThreeSteps(w: World, a: Action, b: Action, c: Action)
    requires Enabled(w, a) && Enabled(Apply(w, a), b) && Enabled(Apply(Apply(w, a), b), c)
    ensures CanRun(w, [a, b, c]) && Run(w, [a, b, c]) == Apply(Apply(Apply(w, a), b), c)
  {
    var v := Apply(w, a);
    OneStep(Apply(v, b), c);
    FirstStep(v, b, [c]);
    FirstStep(w, a, [b, c]);
    assert [b] + [c] == [b, c] && [a] + [b, c] == [a, b, c];
  }

  lemma TwoSteps(w: World, a: Action, b: Action)
    requires Enabled(w, a) && Enabled(Apply(w, a), b)
    ensures CanRun(w, [a, b]) && Run(w, [a, b]) == Apply(Apply(w, a), b)
  {
    OneStep(Apply(w, a), b);
    FirstStep(w, a, [b]);
    assert [a] + [b] == [a, b];
  }

  lemma OneStep(w: World, a: Action)
    requires Enabled(w, a)
    ensures CanRun(w, [a]) && Run(w, [a]) == Apply(w, a)
  {
    assert [a][0] == a && [a][1..] == [];
    assert CanRun(Apply(w, a), []) && Run(Apply(w, a), []) == Apply(w, a);
  }

  lemma FirstStep(w: World, a: Action, rest: seq<Action>)
    requires Enabled(w, a) && CanRun(Apply(w, a), rest)
    ensures CanRun(w, [a] + rest) && Run(w, [a] + rest) == Run(Apply(w, a), rest)
  {
    assert ([a] + rest)[0] == a && ([a] + rest)[1..] == rest;
  }

  lemma SecondPassReachesItsVerdict(w: World, c: nat)
    requires Inv(w) && LeaseInv(w) && At(w, c) && w.calls[c].reevaluated && w.calls[c].phase.Waiting? && w.row.remote
    requires w.calls[c].token.Some?
    ensures var requested := w.calls[c].phase.requested;
      && !Terminal(requested.status) && Quiesced(requested)
      && Apply(Apply(w, EndWait(c)), Judge(c)) ==
         w.(calls := w.calls[c := w.calls[c].(phase := Verdict(requested, true, false))])
  {
    var requested := w.calls[c].phase.requested;
    SecondPassHolds(w, c);
    AcknowledgedPassIsJudged(w, c, requested);
  }

  /** What a re-evaluating call holds: the acknowledgement, on a row that was stopping under its token. */
  lemma SecondPassHolds(w: World, c: nat)
    requires Inv(w) && LeaseInv(w) && At(w, c) && w.calls[c].reevaluated && w.calls[c].phase.Waiting?
    requires w.calls[c].token.Some?
    ensures var requested := w.calls[c].phase.requested;
      && requested.remote == w.row.remote && Quiesced(requested) && requested.status == Stopping
      && Token(requested) == w.calls[c].token
  {
    assert HolderOk(w.ledger, w.calls[c]) && CallOk(w, w.calls[c]);
  }

  lemma AcknowledgedPassIsJudged(w: World, c: nat, requested: Row)
    requires At(w, c) && w.calls[c].phase == Waiting(requested) && requested.remote && Quiesced(requested)
    requires requested.status == Stopping && Token(requested) == w.calls[c].token
    ensures Apply(Apply(w, EndWait(c)), Judge(c)) ==
            w.(calls := w.calls[c := w.calls[c].(phase := Verdict(requested, true, false))])
  {
    var call := w.calls[c];
    var judging := Apply(w, EndWait(c));
    assert judging.calls == w.calls[c := call.(phase := Judging(requested, requested))];
    assert Apply(judging, Judge(c)).calls == w.calls[c := call.(phase := Verdict(requested, true, false))];
  }

  /**
   * A re-evaluating call whose token has not moved ends a remote Task as verified absent in its next
   * three steps, without a wait, a helper or a probe.
   */
  lemma SecondPassEndsTheTask(w: World, c: nat)
    requires Reachable(w) && At(w, c) && w.calls[c].reevaluated && w.calls[c].phase.Waiting?
    requires AcknowledgementSuffices(w) && w.calls[c].token.Some? && Token(w.row) == w.calls[c].token
    ensures CanRun(w, [EndWait(c), Judge(c), Settle(c)])
    ensures var w' := Run(w, [EndWait(c), Judge(c), Settle(c)]);
      && Terminal(w'.row.status) && w'.ledger.ending == Some(VerifiedAbsent)
      && w'.ledger.helperRuns == w.ledger.helperRuns && w'.now == w.now
  {
    ReachableKeepsLeases(w);
    SecondPassReachesItsVerdict(w, c);
    assert CallOk(w, w.calls[c]);
    ThreeSteps(w, EndWait(c), Judge(c), Settle(c));
    VerdictEndsTheTask(w, Apply(Apply(w, EndWait(c)), Judge(c)), c);
  }

  lemma VerdictEndsTheTask(w: World, v: World, c: nat)
    requires Inv(w) && LeaseInv(w) && AcknowledgementSuffices(w) && At(w, c) && w.calls[c].token.Some?
    requires Token(w.row) == w.calls[c].token && w.calls[c].phase.Waiting?
    requires var requested := w.calls[c].phase.requested;
      && !Terminal(requested.status) && Quiesced(requested) && QuiescedAt(w.row) == QuiescedAt(requested)
      && v == w.(calls := w.calls[c := w.calls[c].(phase := Verdict(requested, true, false))])
    ensures var w' := SettleStep(v, c);
      && Terminal(w'.row.status) && w'.ledger.ending == Some(VerifiedAbsent)
      && w'.ledger.helperRuns == w.ledger.helperRuns && w'.now == w.now
  {
    assert SettleStep(v, c) == SettleVerifiedStep(v, c);
  }
}
