/**
 * What the launch path does get done: who wins a claim, that a call with the right to launch can use
 * it by its own steps alone, and that a late call repairs the transcript row.
 */
module DispatchProgress {
  import opened Options
  import opened DispatchLaunch
  import opened DispatchProofs
  import opened DispatchQueue

  // ---------------------------------------------------------------- winning the claim

  /** By position, then by age, then by id. */
  predicate QueuedAhead(i: nat, a: Task, j: nat, b: Task) {
    a.position <= b.position &&
    (a.position == b.position ==> a.createdAt <= b.createdAt && (a.createdAt == b.createdAt ==> i <= j))
  }

  /** The Task may start now: it is next, nobody of its Session is in turn, and its creator is still there. */
  ghost predicate Startable(w: World, t: nat) {
    && t in w.tasks && w.tasks[t].session in w.sessions && w.sessions[w.tasks[t].session].canStart
    && w.tasks[t].creator in w.actors
    && (forall u <- w.tasks :: u != t && w.tasks[u].session == w.tasks[t].session ==>
          && w.tasks[u].status != Dispatching && w.tasks[u].status != Executing
          && (w.tasks[u].status == Queued ==> w.tasks[t].status == Queued && QueuedAhead(t, w.tasks[t], u, w.tasks[u])))
    && (w.tasks[t].status == Created || w.tasks[t].status == Queued)
  }

  lemma AheadIsBefore(i: nat, a: Task, j: nat, b: Task)
    requires i != j
    ensures QueuedAhead(i, a, j, b) <==> Before(i, a, j, b)
  {
  }

  lemma StartableIsNext(w: World, t: nat)
    requires WellFormed(w) && t in w.tasks
    ensures Startable(w, t) <==>
      && PendingDispatch(w.tasks[t].status) && w.tasks[t].creator in w.actors
      && w.sessions[w.tasks[t].session].canStart && (forall u :: !Competing(w, t, u))
      && (if w.tasks[t].status == Queued then IsHead(w, t) else forall u :: !QueuedIn(w, w.tasks[t].session, u))
  {
    forall u | u in w.tasks && u != t ensures
      QueuedAhead(t, w.tasks[t], u, w.tasks[u]) <==> Before(t, w.tasks[t], u, w.tasks[u])
    {
      AheadIsBefore(t, w.tasks[t], u, w.tasks[u]);
    }
    if Startable(w, t) {
      forall u ensures !Competing(w, t, u) {
      }
      forall u | QueuedIn(w, w.tasks[t].session, u) && u != t ensures Before(t, w.tasks[t], u, w.tasks[u]) {
      }
    }
    if PendingDispatch(w.tasks[t].status) && (forall u :: !Competing(w, t, u))
       && (if w.tasks[t].status == Queued then IsHead(w, t) else forall u :: !QueuedIn(w, w.tasks[t].session, u)) {
      forall u | u in w.tasks && u != t && w.tasks[u].session == w.tasks[t].session
        ensures !InTurn(w.tasks[u].status)
        ensures w.tasks[u].status == Queued ==> w.tasks[t].status == Queued && Before(t, w.tasks[t], u, w.tasks[u])
      {
        assert !Competing(w, t, u);
        assert w.tasks[u].status == Queued ==> QueuedIn(w, w.tasks[t].session, u);
      }
    }
  }

  lemma ClaimOutcomeIs(w: World, t: nat, expected: Status)
    requires WellFormed(w) && t in w.tasks && PendingDispatch(expected)
    ensures ClaimDispatch(w, t, expected).0 == Claimed <==> Startable(w, t) && w.tasks[t].status == expected
    ensures ClaimDispatch(w, t, expected).0 == AlreadyClaimed <==> InTurn(w.tasks[t].status)
  {
    StartableIsNext(w, t);
  }

  /** The Session lists the Task, after those it listed, and starts no other. */
  ghost predicate InTurnNow(w: World, w': World, t: nat)
    requires t in w.tasks && w.tasks[t].session in w.sessions
  {
    var s := w.tasks[t].session;
    && s in w'.sessions && !w'.sessions[s].canStart && w.sessions[s].tasks <= w'.sessions[s].tasks
    && t in w'.sessions[s].tasks && forall u <- w'.sessions[s].tasks :: u == t || u in w.sessions[s].tasks
  }

  lemma ClaimIsWon(w: World, c: nat)
    requires WellFormed(w) && InPhase(w, c, Prepared) && !w.calls[c].admitted && CallOk(w, w.calls[c])
    requires ClaimDispatch(w, w.calls[c].task, w.calls[c].seen).0 == Claimed
    ensures var w' := PassedFence(w, c, false); var t := w.calls[c].task;
      && c in w'.calls && t in w'.tasks && w'.launches == w.launches
      && w'.tasks[t] == w.tasks[t].(status := Dispatching) && HoldsRight(w'.calls[c])
      && InTurnNow(w, w', t)
  {
    ClaimIsExclusive(w, w.calls[c].task, w.calls[c].seen);
    assert PassedFence(w, c, false) == StartRepair(Dispatched(w, w.calls[c].task), c, true);
  }

  lemma ClaimIsLost(w: World, c: nat)
    requires WellFormed(w) && InPhase(w, c, Prepared) && !w.calls[c].admitted && CallOk(w, w.calls[c])
    requires ClaimDispatch(w, w.calls[c].task, w.calls[c].seen).0 != Claimed
    ensures var w' := PassedFence(w, c, false); var t := w.calls[c].task;
      && c in w'.calls && t in w'.tasks && w'.launches == w.launches
      && w'.tasks[t].status in {w.tasks[t].status, Terminal} && !HoldsRight(w'.calls[c])
      && (w'.calls[c].phase == Repairing(Look, false) <==>
            w.calls[c].writes && StableId(w, w.calls[c]).Some? && !PendingDispatch(w'.tasks[t].status))
  {
    ClaimIsExclusive(w, w.calls[c].task, w.calls[c].seen);
    var (outcome, v) := ClaimDispatch(w, w.calls[c].task, w.calls[c].seen);
    assert PassedFence(w, c, false) == AfterClaim(v, c, outcome);
  }

  /**
   * A claim puts its Task in turn exactly when no power hold meets it, the Task is what it was when the
   * call came in, and it may start; the call then has the right to launch it. A call that does not win has
   * no right; it repairs the transcript row exactly when the Task has an identity and is past the fence.
   */
  lemma ClaimWinsExactlyWhen(w: World, c: nat, held: bool)
    requires Reachable(w) && WellFormed(w) && InPhase(w, c, Prepared) && !w.calls[c].admitted
    ensures var w' := PassedFence(w, c, held); var t := w.calls[c].task;
      var won := !held && Startable(w, t) && w.tasks[t].status == w.calls[c].seen;
      && c in w'.calls && t in w'.tasks && w'.launches == w.launches
      && (won ==> w'.tasks[t] == w.tasks[t].(status := Dispatching) && HoldsRight(w'.calls[c]) && InTurnNow(w, w', t))
      && (!won ==> w'.tasks[t].status in {w.tasks[t].status, Terminal} && !HoldsRight(w'.calls[c]))
      && (!won ==> (w'.calls[c].phase == Repairing(Look, false) <==>
            && !held && w.calls[c].writes && StableId(w, w.calls[c]).Some?
            && !PendingDispatch(w'.tasks[t].status)))
  {
    ReachableKeepsInvariant(w);
    assert CallOk(w, w.calls[c]);
    if held {
      assert PassedFence(w, c, held) == At(w, c, Held);
    } else {
      ClaimOutcomeIs(w, w.calls[c].task, w.calls[c].seen);
      var outcome := ClaimDispatch(w, w.calls[c].task, w.calls[c].seen).0;
      if outcome == Claimed { ClaimIsWon(w, c); } else { ClaimIsLost(w, c); }
    }
  }

  // ---------------------------------------------------------------- from the right to the launch

  predicate Own(a: Action, c: nat) { OnOneCall(a) && a.call == c }

  /** Nobody but this call moves. */
  predicate OwnRun(run: seq<Action>, c: nat) { forall a <- run :: Own(a, c) }

  /** Nothing of somebody else's is, or got there first, under the row's identity. */
  ghost predicate RowIsFree(w: World, c: nat)
    requires WellFormed(w) && c in w.calls
  {
    var call := w.calls[c];
    call.phase.Launching? || !call.writes || StableId(w, call).None?
    || OwnRow(w, call, StableId(w, call).value)
    || (StableId(w, call).value !in w.messages && !(call.phase.Repairing? && call.phase.step == LookAgain))
  }

  /** The steps still ahead of a call before its launch. */
  function Ahead(p: Phase): nat {
    match p
    case Entered => 6
    case Prepared => 5
    case Repairing(step, _) => (match step case Look => 4 case Insert => 3 case LookAgain => 2)
    case Launching(_) => 1
    case _ => 0
  }

  lemma FreshId(w: World) returns (m: nat)
    ensures m !in w.messages
  {
    m := BeyondAll(w.messages.Keys);
  }

  lemma {:induction false} BeyondAll(ids: set<nat>) returns (m: nat)
    ensures forall id <- ids :: id < m
    decreases ids
  {
    if ids == {} {
      m := 0;
    } else {
      var id :| id in ids;
      var n := BeyondAll(ids - {id});
      m := if n <= id then id + 1 else n;
      assert forall other <- ids :: other == id || other in ids - {id};
    }
  }

  /** What a step on the way to the launch keeps. */
  ghost predicate GoesOn(w: World, w': World, c: nat)
    requires WellFormed(w) && WellFormed(w') && c in w.calls
  {
    && c in w'.calls && HoldsRight(w'.calls[c]) && RowIsFree(w', c)
    && w'.calls[c] == w.calls[c].(phase := w'.calls[c].phase) && w'.tasks == w.tasks && w'.launches == w.launches
    && Ahead(w'.calls[c].phase) < Ahead(w.calls[c].phase)
  }

  lemma FenceGoesOn(w: World, c: nat)
    requires WellFormed(w) && RightsOk(w) && c in w.calls && w.calls[c].admitted && RowIsFree(w, c)
    requires w.calls[c].phase in {Entered, Prepared}
    ensures GoesOn(w, if w.calls[c].phase.Entered? then Began(w, c) else PassedFence(w, c, false), c)
  {
    assert CallOk(w, w.calls[c]);
  }

  lemma RepairGoesOn(w: World, c: nat)
    requires Repairs(w, c) && RightsOk(w) && w.calls[c].phase.owner && RowIsFree(w, c)
    ensures var step := w.calls[c].phase.step;
      GoesOn(w, if step == Look then LookedForRow(w, c) else if step == Insert then InsertedRow(w, c, false)
                else LookedForWinner(w, c), c)
  {
    assert CallOk(w, w.calls[c]);
  }

  /** The next step of a call that holds the right and whose row is free. */
  lemma NextStep(w: World, c: nat) returns (a: Action)
    requires Inv(w) && c in w.calls && HoldsRight(w.calls[c]) && RowIsFree(w, c) && !w.calls[c].phase.Launching?
    ensures Own(a, c) && Enabled(w, a) && GoesOn(w, Apply(w, a), c)
  {
    assert CallOk(w, w.calls[c]);
    var call := w.calls[c];
    if call.phase.Entered? {
      a := Begin(c);
      FenceGoesOn(w, c);
    } else if call.phase.Prepared? {
      a := Claim(c, false);
      FenceGoesOn(w, c);
    } else if StableId(w, call).None? {
      var m := FreshId(w);
      a := WriteRandomRow(c, m, false);
    } else {
      a := match call.phase.step case Look => LookForRow(c) case Insert => InsertRow(c, false)
                                 case LookAgain => LookForWinner(c);
      RepairGoesOn(w, c);
    }
  }

  ghost predicate LaunchesBy(w: World, run: seq<Action>, c: nat, launch: Launch)
    requires WellFormed(w)
  {
    && OwnRun(run, c) && CanRun(w, run) && Run(w, run).launches == w.launches + [launch]
    && c in Run(w, run).calls && Run(w, run).calls[c].phase.Returned?
  }

  ghost function LaunchOf(w: World, c: nat): Launch
    requires WellFormed(w) && c in w.calls
  {
    Launch(w.calls[c].task, w.tasks[w.calls[c].task].creator, w.calls[c].writes)
  }

  lemma {:induction false} OwnStepsLaunch(w: World, c: nat) returns (run: seq<Action>)
    requires Inv(w) && c in w.calls && HoldsRight(w.calls[c]) && RowIsFree(w, c)
    ensures LaunchesBy(w, run, c, LaunchOf(w, c))
    decreases Ahead(w.calls[c].phase)
  {
    if w.calls[c].phase.Launching? {
      run := [LaunchExecutor(c)];
      LastStep(w, c);
    } else {
      var a := NextStep(w, c);
      StepKeepsInvariant(w, a);
      var rest := OwnStepsLaunch(Apply(w, a), c);
      run := [a] + rest;
      assert run[1..] == rest;
    }
  }

  lemma LastStep(w: World, c: nat)
    requires Inv(w) && c in w.calls && w.calls[c].phase.Launching?
    ensures LaunchesBy(w, [LaunchExecutor(c)], c, LaunchOf(w, c))
  {
    assert CallOk(w, w.calls[c]);
    assert [LaunchExecutor(c)][1..] == [];
    assert Run(Apply(w, LaunchExecutor(c)), []) == Apply(w, LaunchExecutor(c));
  }

  /** A call that has come to its end, or whose row belongs to somebody else. */
  ghost predicate Blocked(w: World, c: nat)
    requires WellFormed(w)
  {
    && c in w.calls
    && (w.calls[c].phase.Rejected? || w.calls[c].phase.Held? || (HoldsRight(w.calls[c]) && !RowIsFree(w, c)))
  }

  lemma BlockedStays(w: World, a: Action, c: nat)
    requires Inv(w) && Enabled(w, a) && Own(a, c) && Blocked(w, c)
    ensures Blocked(Apply(w, a), c) && Apply(w, a).launches == w.launches
  {
    assert CallOk(w, w.calls[c]);
    assert Shape(w, Apply(w, a), a) by { CallStepShape(w, a); }
    if a.Begin? || a.Claim? {
      BlockedAtTheFence(w, a, c);
    }
  }

  lemma BlockedAtTheFence(w: World, a: Action, c: nat)
    requires Inv(w) && Enabled(w, a) && Own(a, c) && Blocked(w, c) && (a.Begin? || a.Claim?)
    ensures Blocked(Apply(w, a), c)
  {
    assert CallOk(w, w.calls[c]) && w.calls[c].admitted;
  }

  lemma {:induction false} BlockedNeverLaunches(w: World, run: seq<Action>, c: nat)
    requires Inv(w) && OwnRun(run, c) && CanRun(w, run) && Blocked(w, c)
    ensures Run(w, run).launches == w.launches
    decreases |run|
  {
    if run != [] {
      assert run[0] in run;
      BlockedStays(w, run[0], c);
      StepKeepsInvariant(w, run[0]);
      BlockedNeverLaunches(Apply(w, run[0]), run[1..], c);
    }
  }

  /**
   * A call with the right to launch has a run of its own steps that ends in exactly this launch, as the
   * Task's creator, if and only if nothing of somebody else's stands under its transcript identity.
   */
  lemma TheRightCanBeUsed(w: World, c: nat)
    requires Reachable(w) && WellFormed(w) && c in w.calls && HoldsRight(w.calls[c])
    ensures (exists run :: LaunchesBy(w, run, c, LaunchOf(w, c))) <==> RowIsFree(w, c)
  {
    ReachableKeepsInvariant(w);
    if RowIsFree(w, c) {
      var run := OwnStepsLaunch(w, c);
    } else {
      forall run | OwnRun(run, c) && CanRun(w, run) ensures Run(w, run).launches == w.launches {
        BlockedNeverLaunches(w, run, c);
      }
    }
  }

  // ---------------------------------------------------------------- from the request to the launch

  /** The Task's row identity is unused, or the Task's own row is there already. */
  ghost predicate IdentityIsOwn(w: World, t: nat)
    requires t in w.tasks
  {
    w.tasks[t].stableId.Some? && w.tasks[t].stableId.value in w.messages ==>
      var row := w.messages[w.tasks[t].stableId.value];
      row.task == t && row.session == w.tasks[t].session
  }

  lemma RequestIsPrepared(w: World, t: nat, c: nat, daemon: nat, writes: bool)
    requires WellFormed(w) && Startable(w, t) && c !in w.calls
    ensures var enter := Enter(c, daemon, writes, t, Some(w.tasks[t].creator), None);
      && Enabled(w, enter) && Enabled(Apply(w, enter), Begin(c))
      && Apply(Apply(w, enter), Begin(c)) == w.(calls := w.calls[c :=
           Call(daemon, t, Some(w.tasks[t].creator), None, writes, false, w.tasks[t].status, Prepared)])
  {
    var enter := Enter(c, daemon, writes, t, Some(w.tasks[t].creator), None);
    var entered := Apply(w, enter);
    assert Began(entered, c) == At(entered, c, Prepared);
    assert w.calls[c := entered.calls[c]][c := entered.calls[c].(phase := Prepared)]
        == w.calls[c := entered.calls[c].(phase := Prepared)];
  }

  lemma PreparedWins(w: World, c: nat)
    requires Inv(w) && InPhase(w, c, Prepared) && !w.calls[c].admitted && w.calls[c].fallbackId.None?
    requires var t := w.calls[c].task; Startable(w, t) && w.tasks[t].status == w.calls[c].seen && IdentityIsOwn(w, t)
    ensures var w' := PassedFence(w, c, false);
      && Inv(w') && c in w'.calls && HoldsRight(w'.calls[c]) && RowIsFree(w', c)
      && w'.launches == w.launches && LaunchOf(w', c) == LaunchOf(w, c)
  {
    assert PassedFence(w, c, false) == Apply(w, Claim(c, false));
    StepKeepsInvariant(w, Claim(c, false));
    ClaimOutcomeIs(w, w.calls[c].task, w.calls[c].seen);
    WinnerHasItsRow(w, c);
  }

  lemma WinnerHasItsRow(w: World, c: nat)
    requires WellFormed(w) && InPhase(w, c, Prepared) && !w.calls[c].admitted && IdentityIsOwn(w, w.calls[c].task)
    requires w.calls[c].fallbackId.None?
    requires ClaimDispatch(w, w.calls[c].task, w.calls[c].seen).0 == Claimed
    ensures var w' := PassedFence(w, c, false);
      && c in w'.calls && HoldsRight(w'.calls[c]) && RowIsFree(w', c) && w'.launches == w.launches
      && w'.calls[c].task == w.calls[c].task && w'.calls[c].writes == w.calls[c].writes
      && w'.tasks[w.calls[c].task].creator == w.tasks[w.calls[c].task].creator
  {
    assert PassedFence(w, c, false) == StartRepair(Dispatched(w, w.calls[c].task), c, true);
  }

  lemma FirstThen(w: World, a: Action, rest: seq<Action>)
    requires WellFormed(w) && Enabled(w, a) && CanRun(Apply(w, a), rest)
    ensures CanRun(w, [a] + rest) && Run(w, [a] + rest) == Run(Apply(w, a), rest)
  {
    assert ([a] + rest)[1..] == rest;
  }

  lemma RequestArrives(w: World, t: nat, c: nat, daemon: nat, writes: bool) returns (prepared: World)
    requires Inv(w) && Startable(w, t) && c !in w.calls
    ensures var enter := Enter(c, daemon, writes, t, Some(w.tasks[t].creator), None);
      Enabled(w, enter) && Enabled(Apply(w, enter), Begin(c)) && prepared == Apply(Apply(w, enter), Begin(c))
    ensures Inv(prepared) && Startable(prepared, t)
    ensures prepared == w.(calls := w.calls[c :=
      Call(daemon, t, Some(w.tasks[t].creator), None, writes, false, w.tasks[t].status, Prepared)])
  {
    var enter := Enter(c, daemon, writes, t, Some(w.tasks[t].creator), None);
    RequestIsPrepared(w, t, c, daemon, writes);
    StepKeepsInvariant(w, enter);
    StepKeepsInvariant(Apply(w, enter), Begin(c));
    prepared := Apply(Apply(w, enter), Begin(c));
  }

  lemma EnterBeginThen(w: World, a: Action, b: Action, v: World, rest: seq<Action>)
    requires WellFormed(w) && Enabled(w, a) && Enabled(Apply(w, a), b) && v == Apply(Apply(w, a), b) && CanRun(v, rest)
    ensures CanRun(w, [a] + ([b] + rest)) && Run(w, [a] + ([b] + rest)) == Run(v, rest)
  {
    FirstThen(Apply(w, a), b, rest);
    FirstThen(w, a, [b] + rest);
  }

  /** From the moment the request is prepared. */
  lemma PreparedLaunches(w: World, c: nat) returns (run: seq<Action>)
    requires Inv(w) && InPhase(w, c, Prepared) && !w.calls[c].admitted && w.calls[c].fallbackId.None?
    requires var t := w.calls[c].task; Startable(w, t) && w.tasks[t].status == w.calls[c].seen && IdentityIsOwn(w, t)
    ensures LaunchesBy(w, run, c, LaunchOf(w, c))
  {
    PreparedWins(w, c);
    var rest := OwnStepsLaunch(PassedFence(w, c, false), c);
    FirstThen(w, Claim(c, false), rest);
    run := [Claim(c, false)] + rest;
  }

  /** A creator's request for a Task that may start launches it, if the Task's transcript identity is its own. */
  lemma StartableTaskIsLaunched(w: World, t: nat, c: nat, daemon: nat, writes: bool)
    requires Reachable(w) && WellFormed(w) && Startable(w, t) && c !in w.calls && IdentityIsOwn(w, t)
    ensures exists run :: RequestLaunches(w, t, c, daemon, writes, run)
  {
    ReachableKeepsInvariant(w);
    var run := RequestRuns(w, t, c, daemon, writes);
  }

  ghost predicate RequestLaunches(w: World, t: nat, c: nat, daemon: nat, writes: bool, run: seq<Action>)
    requires WellFormed(w) && t in w.tasks
  {
    && run != [] && run[0] == Enter(c, daemon, writes, t, Some(w.tasks[t].creator), None) && OwnRun(run[1..], c)
    && CanRun(w, run) && Run(w, run).launches == w.launches + [Launch(t, w.tasks[t].creator, writes)]
  }

  lemma RequestRuns(w: World, t: nat, c: nat, daemon: nat, writes: bool) returns (run: seq<Action>)
    requires Inv(w) && Startable(w, t) && c !in w.calls && IdentityIsOwn(w, t)
    ensures RequestLaunches(w, t, c, daemon, writes, run)
  {
    var enter := Enter(c, daemon, writes, t, Some(w.tasks[t].creator), None);
    var prepared := RequestArrives(w, t, c, daemon, writes);
    var rest := PreparedLaunches(prepared, c);
    EnterBeginThen(w, enter, Begin(c), prepared, rest);
    run := [enter] + ([Begin(c)] + rest);
    assert run[1..] == [Begin(c)] + rest;
  }

  /** A direct admission launches its Task likewise. */
  lemma AdmittedTaskIsLaunched(w: World, c: nat, daemon: nat, writes: bool, t: nat, row: Task)
    requires Reachable(w) && WellFormed(w) && Enabled(w, Admit(c, daemon, writes, t, row))
    ensures var admitted := Apply(w, Admit(c, daemon, writes, t, row));
      && c in admitted.calls && admitted.launches == w.launches && InTurn(admitted.tasks[t].status)
      && exists run :: LaunchesBy(admitted, run, c, Launch(t, row.creator, writes))
  {
    ReachableKeepsInvariant(w);
    StepKeepsInvariant(w, Admit(c, daemon, writes, t, row));
    var run := OwnStepsLaunch(Apply(w, Admit(c, daemon, writes, t, row)), c);
  }

  // ---------------------------------------------------------------- who gets that far

  /**
   * What a request comes to before the fence: a late call for a Task with an identity goes to the repair; of
   * the others, whoever is not the Task's creator is turned away, and a late call just returns.
   */
  lemma BeginDecides(w: World, c: nat)
    requires WellFormed(w) && InPhase(w, c, Entered)
    ensures var call := w.calls[c]; var phase := Began(w, c).calls[c].phase;
      var late := !call.admitted && call.seen != Created && call.seen != Queued;
      && (phase.Rejected? <==>
            !(late && StableId(w, call).Some?) && call.principal != Some(w.tasks[call.task].creator))
      && (phase.Prepared? <==> !late && call.principal == Some(w.tasks[call.task].creator))
      && (phase == Repairing(Look, false) <==> late && StableId(w, call).Some? && call.writes)
      && (HoldsRight(w.calls[c].(phase := phase)) ==> call.admitted)
  {
  }

  /** Whatever step starts a Task's turn, its creator was there and its Session could start. */
  lemma TurnNeedsItsCreator(w: World, a: Action, t: nat)
    requires Reachable(w) && WellFormed(w) && Enabled(w, a) && StartsTurn(w, Apply(w, a), t)
    ensures var task := Apply(w, a).tasks[t];
      task.creator in w.actors && task.session in w.sessions && w.sessions[task.session].canStart
  {
    ReachableKeepsInvariant(w);
    if a.Claim? {
      assert CallOk(w, w.calls[a.call]);
      ClaimNeedsTheCreator(w, a.call, a.held, t);
    } else if a.Admit? {
      AdmitStartsOnlyItself(w, a, t);
    } else {
      OtherStepsStartNoTurn(w, a, t);
    }
  }

  lemma ClaimNeedsTheCreator(w: World, c: nat, held: bool, t: nat)
    requires WellFormed(w) && InPhase(w, c, Prepared) && CallOk(w, w.calls[c])
    requires StartsTurn(w, PassedFence(w, c, held), t)
    ensures t in w.tasks && Startable(w, t) && PassedFence(w, c, held).tasks[t] == w.tasks[t].(status := Dispatching)
  {
    var call := w.calls[c];
    if !held && !call.admitted {
      ClaimIsExclusive(w, call.task, call.seen);
      ClaimOutcomeIs(w, call.task, call.seen);
    }
  }

  /** A daemon that stops takes its calls with it; a launch one of them had the right to never happens. */
  lemma CrashedDaemonNeverLaunches(w: World, daemon: nat, c: nat, run: seq<Action>)
    requires Reachable(w) && WellFormed(w) && c in w.calls && w.calls[c].daemon == daemon && HoldsRight(w.calls[c])
    requires CanRun(Apply(w, Crash(daemon)), run)
    ensures !Launched(Run(Apply(w, Crash(daemon)), run), w.calls[c].task)
    ensures forall d <- w.calls :: d in Apply(w, Crash(daemon)).calls <==> w.calls[d].daemon != daemon
  {
    RightGivenUpIsNeverUsed(w, Crash(daemon), c, run);
  }

  /** A Task that joins the queue waits behind everything with a lower position. */
  lemma EnqueueGoesBehind(w: World, t: nat, position: nat)
    requires WellFormed(w) && Enabled(w, Enqueue(t, position))
    ensures var w' := Apply(w, Enqueue(t, position));
      && QueuedIn(w', w.tasks[t].session, t)
      && forall u :: QueuedIn(w, w.tasks[t].session, u) && w.tasks[u].position < position ==>
           QueuedIn(w', w.tasks[t].session, u) && Before(u, w'.tasks[u], t, w'.tasks[t]) && !Startable(w', t)
  {
    var w' := Apply(w, Enqueue(t, position));
    forall u | QueuedIn(w, w.tasks[t].session, u) && w.tasks[u].position < position
      ensures QueuedIn(w', w.tasks[t].session, u) && !Startable(w', t)
    {
      assert u != t && w'.tasks[u] == w.tasks[u];
    }
  }

  // ---------------------------------------------------------------- a late call

  /**
   * A row that could not be inserted is looked for again: the winner's row goes for this call's own, and
   * without one the call is turned away. Without an identity the row is written or not, and the launch follows.
   */
  lemma FailedInsertLooksAgain(w: World, c: nat, m: nat)
    requires WellFormed(w) && c in w.calls && w.calls[c].phase.Repairing?
    ensures StableId(w, w.calls[c]).Some? ==>
      var again := InsertedRow(w, c, true);
      && again.messages == w.messages && Repairs(again, c) && again.calls[c].phase.step == LookAgain
      && var looked := LookedForWinner(again, c);
         && looked.messages == w.messages
         && (if OwnRow(w, w.calls[c], StableId(w, w.calls[c]).value)
             then looked.calls[c].phase == (if w.calls[c].phase.owner then Launching(true) else Returned(true))
             else looked.calls[c].phase == Rejected)
    ensures WroteRandomRow(w, c, m, false).messages == w.messages[m := OwnRowOf(w, c)]
    ensures WroteRandomRow(w, c, m, true).messages == w.messages
    ensures forall fails :: WroteRandomRow(w, c, m, fails).calls[c].phase == Launching(false)
  {
  }

  ghost function OwnRowOf(w: World, c: nat): Message
    requires WellFormed(w) && c in w.calls
  {
    Message(w.tasks[w.calls[c].task].session, w.calls[c].task, ByDaemon)
  }

  /**
   * A call that comes for a Task with an identity after the fence was crossed, on a daemon that writes
   * rows, leaves the Task's own row behind, or finds it, or is turned away by somebody else's.
   */
  lemma LateCallRepairs(w: World, c: nat)
    requires Inv(w) && InPhase(w, c, Entered) && !w.calls[c].admitted && w.calls[c].writes
    requires !PendingDispatch(w.calls[c].seen) && StableId(w, w.calls[c]).Some?
    ensures var m := StableId(w, w.calls[c]).value;
      var looking := Began(w, c);
      && Repairs(looking, c) && looking.calls[c].phase.step == Look
      && var looked := LookedForRow(looking, c);
      && (m in w.messages ==>
            && looked.messages == w.messages
            && looked.calls[c].phase == (if OwnRow(w, w.calls[c], m) then Returned(true) else Rejected))
      && (m !in w.messages ==>
            && Repairs(looked, c) && looked.calls[c].phase.step == Insert
            && var wrote := InsertedRow(looked, c, false);
               && wrote.calls[c].phase == Returned(true) && wrote.messages == w.messages[m := OwnRowOf(w, c)])
  {
    assert Began(w, c) == At(w, c, Repairing(Look, false));
  }
}
