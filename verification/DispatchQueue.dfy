/** The durable prompt queue of a Session: who is next, and that nobody is dispatched out of order. */
module DispatchQueue {
  import opened Options
  import opened DispatchLaunch
  import opened DispatchProofs

  // ---------------------------------------------------------------- the head

  lemma {:induction false} FirstOf(w: World, ids: set<nat>) returns (first: nat)
    requires ids != {} && ids <= w.tasks.Keys
    ensures first in ids
    ensures forall u <- ids :: u != first ==> Before(first, w.tasks[first], u, w.tasks[u])
    decreases ids
  {
    first :| first in ids;
    if ids != {first} {
      var other := FirstOf(w, ids - {first});
      if Before(other, w.tasks[other], first, w.tasks[first]) { first := other; }
    }
  }

  /** A Session with anything queued has exactly one claimable head. */
  lemma ExactlyOneHead(w: World, session: nat, queued: nat)
    requires QueuedIn(w, session, queued)
    ensures exists t :: QueuedIn(w, session, t) && IsHead(w, t)
    ensures forall t, u ::
      QueuedIn(w, session, t) && IsHead(w, t) && QueuedIn(w, session, u) && IsHead(w, u) ==> t == u
  {
    var ids := set t | t in w.tasks && QueuedIn(w, session, t);
    assert queued in ids;
    var first := FirstOf(w, ids);
    assert IsHead(w, first);
  }

  // ---------------------------------------------------------------- one step

  /** The step starts the Task's turn. */
  ghost predicate StartsTurn(w: World, w': World, t: nat) {
    t in w'.tasks && InTurn(w'.tasks[t].status) && !(t in w.tasks && InTurn(w.tasks[t].status))
  }

  lemma ClaimStartsTheHead(w: World, c: nat, held: bool, t: nat)
    requires WellFormed(w) && InPhase(w, c, Prepared) && CallOk(w, w.calls[c])
    requires StartsTurn(w, PassedFence(w, c, held), t)
    ensures t in w.tasks && (IsHead(w, t) || forall u :: !QueuedIn(w, w.tasks[t].session, u))
  {
    var call := w.calls[c];
    if !held && !call.admitted {
      ClaimIsExclusive(w, call.task, call.seen);
    }
  }

  lemma OtherStepsStartNoTurn(w: World, a: Action, t: nat)
    requires Inv(w) && Enabled(w, a) && !a.Claim? && !a.Admit?
    ensures !StartsTurn(w, Apply(w, a), t)
  {
    if OnOneCall(a) {
      assert Shape(w, Apply(w, a), a) by { CallStepShape(w, a); }
    }
  }

  /** Whatever step starts a Task's turn, nothing that was queued before it in its Session still waits. */
  lemma DispatchFollowsTheQueue(w: World, a: Action, t: nat)
    requires Reachable(w) && WellFormed(w) && Enabled(w, a) && StartsTurn(w, Apply(w, a), t)
    ensures var session := Apply(w, a).tasks[t].session;
      forall u :: QueuedIn(w, session, u) && u != t ==>
        QueuedIn(w, session, t) && Before(t, w.tasks[t], u, w.tasks[u])
  {
    ReachableKeepsInvariant(w);
    StepKeepsInvariant(w, a);
    if a.Claim? {
      assert CallOk(w, w.calls[a.call]);
      ClaimStartsTheHead(w, a.call, a.held, t);
    } else if !a.Admit? {
      OtherStepsStartNoTurn(w, a, t);
    } else {
      AdmitStartsOnlyItself(w, a, t);
    }
  }

  lemma AdmitStartsOnlyItself(w: World, a: Action, t: nat)
    requires Inv(w) && Enabled(w, a) && a.Admit? && StartsTurn(w, Apply(w, a), t)
    ensures t == a.task && forall u :: !QueuedIn(w, a.row.session, u)
  {
  }

  // ---------------------------------------------------------------- every run

  /** While `t` waits, `u`, queued behind it, waits too or was ended unlaunched. */
  ghost predicate Waits(w: World, t: nat, u: nat) {
    && t in w.tasks && u in w.tasks && t != u && w.tasks[t].session == w.tasks[u].session
    && w.tasks[t].status != Created && w.tasks[u].status != Created
    && (w.tasks[t].status == Queued ==>
          if w.tasks[u].status == Queued then Before(t, w.tasks[t], u, w.tasks[u])
          else w.tasks[u].status == Terminal && RightLost(w, u) && !Launched(w, u))
  }

  /** A claim only touches its own Task's row, and only while that is pending. */
  lemma FenceTouchesOneRow(w: World, c: nat, held: bool, t: nat)
    requires WellFormed(w) && InPhase(w, c, Prepared) && CallOk(w, w.calls[c]) && t in w.tasks
    ensures var w' := PassedFence(w, c, held);
      && t in w'.tasks
      && (w'.tasks[t] == w.tasks[t] ||
          (PendingDispatch(w.tasks[t].status) && w'.tasks[t].status in {Dispatching, Terminal}))
  {
    var call := w.calls[c];
    if !held && !call.admitted { ClaimIsExclusive(w, call.task, call.seen); }
  }

  lemma CallTouchesNoOtherRow(w: World, a: Action, t: nat)
    requires Inv(w) && Enabled(w, a) && OnOneCall(a) && t in w.tasks
    ensures var w' := Apply(w, a);
      && t in w'.tasks
      && (w'.tasks[t] == w.tasks[t] ||
          (PendingDispatch(w.tasks[t].status) && w'.tasks[t].status in {Dispatching, Terminal}))
  {
    assert CallOk(w, w.calls[a.call]);
    if a.Claim? {
      FenceTouchesOneRow(w, a.call, a.held, t);
    } else {
      assert Shape(w, Apply(w, a), a) by { CallStepShape(w, a); }
    }
  }

  lemma OtherStepMovesRows(w: World, a: Action, t: nat)
    requires WellFormed(w) && Enabled(w, a) && !OnOneCall(a) && t in w.tasks
    ensures var w' := Apply(w, a);
      && t in w'.tasks
      && (w.tasks[t].status != Created ==> w'.tasks[t].status != Created)
      && (w.tasks[t].status != Created && w'.tasks[t].status == Queued && !a.Reposition? ==> w'.tasks[t] == w.tasks[t])
      && (w.tasks[t].status == Queued && w'.tasks[t].status == Terminal ==> a.End?)
  {
    if ChangesRows(a) { RowStepMovesRows(w, a, t); }
  }

  lemma RowStepMovesRows(w: World, a: Action, t: nat)
    requires WellFormed(w) && Enabled(w, a) && ChangesRows(a) && t in w.tasks
    ensures var w' := Apply(w, a);
      && t in w'.tasks
      && (w.tasks[t].status != Created ==> w'.tasks[t].status != Created)
      && (w.tasks[t].status != Created && w'.tasks[t].status == Queued && !a.Reposition? ==> w'.tasks[t] == w.tasks[t])
      && (w.tasks[t].status == Queued && w'.tasks[t].status == Terminal ==> a.End?)
  {
  }

  /** A queued row stays as it is until it leaves the queue, and nothing that left it comes back. */
  lemma QueuedRowsStay(w: World, a: Action, t: nat)
    requires Inv(w) && Enabled(w, a) && t in w.tasks && w.tasks[t].status != Created
    ensures t in Apply(w, a).tasks && Apply(w, a).tasks[t].status != Created
    ensures Apply(w, a).tasks[t].status == Queued && !a.Reposition? ==> Apply(w, a).tasks[t] == w.tasks[t]
  {
    if OnOneCall(a) { CallTouchesNoOtherRow(w, a, t); } else { OtherStepMovesRows(w, a, t); }
  }

  /** A queued Task that ends without a turn leaves no right behind. */
  lemma EndedUnlaunched(w: World, a: Action, u: nat)
    requires Inv(w) && Enabled(w, a) && u in w.tasks && w.tasks[u].status == Queued
    requires u in Apply(w, a).tasks && Apply(w, a).tasks[u].status == Terminal
    ensures RightLost(Apply(w, a), u) && !Launched(Apply(w, a), u)
  {
    NeverLaunchedWhilePending(w, u);
    NoRightWhilePending(w, u);
    if a.Claim? {
      assert CallOk(w, w.calls[a.call]);
      MissingActorGivesNoRight(w, a.call, a.held, u);
    } else if OnOneCall(a) {
      assert Shape(w, Apply(w, a), a) by { CallStepShape(w, a); }
      assert false;
    } else {
      OtherStepMovesRows(w, a, u);
      EndingGivesNoRight(w, u);
    }
  }

  lemma NoRightWhilePending(w: World, u: nat)
    requires WellFormed(w) && RightsOk(w) && u in w.tasks && PendingDispatch(w.tasks[u].status)
    ensures forall c <- w.calls :: w.calls[c].task == u ==> !HoldsRight(w.calls[c])
  {
    forall c | c in w.calls && w.calls[c].task == u ensures !HoldsRight(w.calls[c]) {
      assert CallOk(w, w.calls[c]);
    }
  }

  lemma EndingGivesNoRight(w: World, u: nat)
    requires WellFormed(w) && u in w.tasks && !Launched(w, u)
    requires forall c <- w.calls :: w.calls[c].task == u ==> !HoldsRight(w.calls[c])
    ensures RightLost(Apply(w, End(u)), u) && !Launched(Apply(w, End(u)), u)
  {
    SameLaunches(w, Apply(w, End(u)), u);
  }

  lemma LosersHoldNoRight(v: World, c: nat, outcome: ClaimOutcome)
    requires WellFormed(v) && InPhase(v, c, Prepared) && outcome != Claimed
    ensures var w' := AfterClaim(v, c, outcome);
      Moves(v, w', c) && !HoldsRight(w'.calls[c]) && w'.tasks == v.tasks && w'.launches == v.launches
  {
  }

  lemma MissingActorGivesNoRight(w: World, c: nat, held: bool, u: nat)
    requires WellFormed(w) && InPhase(w, c, Prepared) && CallOk(w, w.calls[c])
    requires u in w.tasks && w.tasks[u].status == Queued && !Launched(w, u)
    requires forall d <- w.calls :: w.calls[d].task == u ==> !HoldsRight(w.calls[d])
    requires u in PassedFence(w, c, held).tasks && PassedFence(w, c, held).tasks[u].status == Terminal
    ensures RightLost(PassedFence(w, c, held), u) && !Launched(PassedFence(w, c, held), u)
  {
    var call := w.calls[c];
    assert !held && !call.admitted;
    ClaimIsExclusive(w, call.task, call.seen);
    var (outcome, v) := ClaimDispatch(w, call.task, call.seen);
    assert outcome != Claimed;
    LosersHoldNoRight(v, c, outcome);
    SameLaunches(w, PassedFence(w, c, held), u);
  }

  lemma StepKeepsWaits(w: World, a: Action, t: nat, u: nat)
    requires Inv(w) && Enabled(w, a) && Waits(w, t, u) && !a.Reposition?
    ensures Waits(Apply(w, a), t, u)
  {
    var w' := Apply(w, a);
    StepKeepsInvariant(w, a);
    QueuedRowsStay(w, a, t);
    QueuedRowsStay(w, a, u);
    if w'.tasks[t].status == Queued {
      if w.tasks[u].status != Queued {
        if OnOneCall(a) { CallRightStaysLost(w, a, u); } else { OtherRightStaysLost(w, a, u); }
        EndedRowsStay(w, a, u);
      } else if w'.tasks[u].status == Terminal {
        EndedUnlaunched(w, a, u);
      } else if w'.tasks[u].status != Queued {
        TurnNeedsTheHead(w, a, t, u);
      }
    }
  }

  lemma OtherStepKeepsEnded(w: World, a: Action, u: nat)
    requires WellFormed(w) && Enabled(w, a) && !OnOneCall(a) && u in w.tasks && w.tasks[u].status == Terminal
    ensures u in Apply(w, a).tasks && Apply(w, a).tasks[u].status == Terminal
  {
    if !ChangesRows(a) { assert Apply(w, a).tasks == w.tasks; }
  }

  lemma CallKeepsEnded(w: World, a: Action, u: nat)
    requires Inv(w) && Enabled(w, a) && OnOneCall(a) && u in w.tasks && w.tasks[u].status == Terminal
    ensures u in Apply(w, a).tasks && Apply(w, a).tasks[u].status == Terminal
  {
    CallTouchesNoOtherRow(w, a, u);
  }

  lemma EndedRowsStay(w: World, a: Action, u: nat)
    requires Inv(w) && Enabled(w, a) && u in w.tasks && w.tasks[u].status == Terminal
    ensures u in Apply(w, a).tasks && Apply(w, a).tasks[u].status == Terminal
  {
    if OnOneCall(a) { CallKeepsEnded(w, a, u); } else { OtherStepKeepsEnded(w, a, u); }
  }

  lemma TurnNeedsTheHead(w: World, a: Action, t: nat, u: nat)
    requires Inv(w) && Enabled(w, a) && Waits(w, t, u) && w.tasks[t].status == Queued && w.tasks[u].status == Queued
    ensures u in Apply(w, a).tasks ==> !InTurn(Apply(w, a).tasks[u].status)
  {
    if StartsTurn(w, Apply(w, a), u) {
      assert QueuedIn(w, w.tasks[u].session, t) && QueuedIn(w, w.tasks[u].session, u);
      if a.Claim? {
        assert CallOk(w, w.calls[a.call]);
        ClaimStartsTheHead(w, a.call, a.held, u);
      } else if a.Admit? {
        AdmitStartsOnlyItself(w, a, u);
      } else {
        OtherStepsStartNoTurn(w, a, u);
      }
      assert false;
    }
  }

  /** Nobody reorders the queue by hand. */
  predicate NoReordering(run: seq<Action>) { forall a <- run :: !a.Reposition? }

  /** In every such run a queued Task is neither in turn nor launched while one queued before it still waits. */
  lemma {:induction false} QueueOrderIsKept(w: World, t: nat, u: nat, run: seq<Action>)
    requires Inv(w) && CanRun(w, run) && NoReordering(run) && Waits(w, t, u)
    ensures Waits(Run(w, run), t, u)
    ensures var w' := Run(w, run);
      w'.tasks[t].status == Queued ==> !InTurn(w'.tasks[u].status) && !Launched(w', u)
    decreases |run|
  {
    if run != [] {
      assert run[0] in run;
      StepKeepsInvariant(w, run[0]);
      StepKeepsWaits(w, run[0], t, u);
      QueueOrderIsKept(Apply(w, run[0]), t, u, run[1..]);
    } else if w.tasks[u].status == Queued {
      NeverLaunchedWhilePending(w, u);
    }
  }

  /** The same from the moment both are queued, `t` before `u`. */
  lemma EarlierIsDispatchedFirst(w: World, t: nat, u: nat, session: nat, run: seq<Action>)
    requires Reachable(w) && WellFormed(w) && CanRun(w, run) && NoReordering(run)
    requires QueuedIn(w, session, t) && QueuedIn(w, session, u) && Before(t, w.tasks[t], u, w.tasks[u])
    ensures var w' := Run(w, run);
      && t in w'.tasks && u in w'.tasks
      && (w'.tasks[t].status == Queued ==> !InTurn(w'.tasks[u].status) && !Launched(w', u))
  {
    ReachableKeepsInvariant(w);
    QueueOrderIsKept(w, t, u, run);
  }
}
