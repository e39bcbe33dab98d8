/** What the launch path keeps over every run, and what follows for each Task and Session. */
module DispatchProofs {
  import opened Options
  import opened DispatchLaunch

  ghost predicate CanRun(w: World, run: seq<Action>)
    requires WellFormed(w)
    decreases |run|
  {
    run == [] || (Enabled(w, run[0]) && CanRun(Apply(w, run[0]), run[1..]))
  }

  ghost function Run(w: World, run: seq<Action>): World
    requires WellFormed(w) && CanRun(w, run)
    decreases |run|
  {
    if run == [] then w else Run(Apply(w, run[0]), run[1..])
  }

  // ---------------------------------------------------------------- invariant

  /** A call that was given its Task's one launch and has not used it. */
  predicate HoldsRight(c: Call) {
    || (c.admitted && c.phase in {Entered, Prepared})
    || (c.phase.Repairing? && c.phase.owner)
    || c.phase.Launching?
  }

  ghost predicate Launched(w: World, t: nat) {
    exists i :: 0 <= i < |w.launches| && w.launches[i].task == t
  }

  /** A call past the principal check acts for the Task's creator. */
  ghost predicate CallOk(w: World, c: Call)
    requires c.task in w.tasks
  {
    && (HoldsRight(c) || c.phase.Prepared? ==> c.principal == Some(w.tasks[c.task].creator))
    && (HoldsRight(c) ==> !PendingDispatch(w.tasks[c.task].status) && !Launched(w, c.task))
    && (c.phase.Prepared? && !c.admitted ==> PendingDispatch(c.seen))
    && (c.phase.Repairing? ==> c.writes)
    && (c.phase.Repairing? && StableId(w, c).None? ==> c.phase.step == Look && c.phase.owner)
    && ((c.phase.Launching? || c.phase.Returned?) && c.phase.repaired ==>
          StableId(w, c).Some? && OwnRow(w, c, StableId(w, c).value))
    && (c.phase.Launching? && c.writes && StableId(w, c).Some? ==> c.phase.repaired)
  }

  ghost predicate RightsOk(w: World)
    requires WellFormed(w)
  {
    && (forall c <- w.calls :: CallOk(w, w.calls[c]))
    && (forall c, d :: c in w.calls && d in w.calls && c != d && HoldsRight(w.calls[c]) && HoldsRight(w.calls[d]) ==>
          w.calls[c].task != w.calls[d].task)
  }

  ghost predicate LaunchesOk(w: World) {
    && (forall i :: 0 <= i < |w.launches| ==>
          && w.launches[i].task in w.tasks
          && w.launches[i].principal == w.tasks[w.launches[i].task].creator
          && !PendingDispatch(w.tasks[w.launches[i].task].status))
    && (forall i, j :: 0 <= i < j < |w.launches| ==> w.launches[i].task != w.launches[j].task)
  }

  /** One Task of a Session is in turn, and the Session lists it. */
  ghost predicate TurnsOk(w: World)
    requires WellFormed(w)
  {
    && (forall t, u :: t in w.tasks && Competing(w, t, u) ==> !InTurn(w.tasks[t].status))
    && (forall t <- w.tasks :: InTurn(w.tasks[t].status) ==> t in w.sessions[w.tasks[t].session].tasks)
    && (forall s <- w.sessions :: NoRepeats(w.sessions[s].tasks))
  }

  ghost predicate NoRepeats(s: seq<nat>) { forall i, j :: 0 <= i < j < |s| ==> s[i] != s[j] }

  /** Of a Task with a stable identity, the launch path's rows have that identity, and no others do. */
  ghost predicate RowsOk(w: World) {
    forall m <- w.messages ::
      && w.messages[m].task in w.tasks
      && (w.tasks[w.messages[m].task].stableId.Some? ==>
            (w.messages[m].writer == ByDaemon <==> w.tasks[w.messages[m].task].stableId.value == m))
  }

  ghost predicate Inv(w: World) {
    WellFormed(w) && RightsOk(w) && LaunchesOk(w) && TurnsOk(w) && RowsOk(w)
  }

  // ---------------------------------------------------------------- what no step takes back

  ghost predicate Grows(w: World, w': World) {
    && (forall t <- w.tasks ::
          && t in w'.tasks && w'.tasks[t].session == w.tasks[t].session
          && w'.tasks[t].creator == w.tasks[t].creator && w'.tasks[t].stableId == w.tasks[t].stableId
          && (PendingDispatch(w'.tasks[t].status) ==> PendingDispatch(w.tasks[t].status)))
    && (forall m <- w.messages :: m in w'.messages && w'.messages[m] == w.messages[m])
    && (forall s <- w.sessions :: s in w'.sessions)
  }

  // ---------------------------------------------------------------- steps on one call

  /** Only one call moved, and only its phase. */
  ghost predicate Moves(w: World, w': World, c: nat) {
    && c in w.calls && c in w'.calls
    && w'.calls == w.calls[c := w.calls[c].(phase := w'.calls[c].phase)]
  }

  ghost predicate SameTurns(w: World, w': World) { w'.tasks == w.tasks && w'.sessions == w.sessions }

  /** What a step on one call has to show about launch rights. */
  ghost predicate RightStep(w: World, w': World, c: nat)
    requires WellFormed(w) && WellFormed(w')
  {
    && Moves(w, w', c) && Grows(w, w') && CallOk(w', w'.calls[c])
    && (HoldsRight(w'.calls[c]) && !HoldsRight(w.calls[c]) ==> PendingDispatch(w.tasks[w.calls[c].task].status))
    && (forall t <- w.tasks :: Launched(w', t) ==>
          Launched(w, t) || (t == w.calls[c].task && HoldsRight(w.calls[c])))
  }

  lemma Carries(w: World, w': World, c: Call)
    requires WellFormed(w) && WellFormed(w') && Grows(w, w') && c.task in w.tasks && CallOk(w, c)
    requires HoldsRight(c) ==> !Launched(w', c.task)
    ensures CallOk(w', c)
  {
  }

  lemma RightStepKeepsRights(w: World, w': World, c: nat)
    requires WellFormed(w) && RightsOk(w) && WellFormed(w') && RightStep(w, w', c)
    ensures RightsOk(w')
  {
    forall d | d in w'.calls ensures CallOk(w', w'.calls[d]) {
      if d != c {
        assert CallOk(w, w.calls[d]);
        Carries(w, w', w.calls[d]);
      }
    }
    forall d | d in w'.calls && d != c && HoldsRight(w'.calls[c]) && HoldsRight(w'.calls[d])
      ensures w'.calls[c].task != w'.calls[d].task
    {
      assert CallOk(w, w.calls[d]);
    }
  }

  /** A call that only moves on, in a world `v` that has grown around it. */
  lemma MovesOn(w: World, v: World, c: nat, phase: Phase)
    requires WellFormed(w) && WellFormed(v) && c in w.calls
    requires Grows(w, v) && v.calls == w.calls && v.launches == w.launches
    requires CallOk(v, w.calls[c].(phase := phase))
    requires HoldsRight(w.calls[c].(phase := phase)) && !HoldsRight(w.calls[c]) ==>
      PendingDispatch(w.tasks[w.calls[c].task].status)
    ensures WellFormed(At(v, c, phase)) && RightStep(w, At(v, c, phase), c)
  {
    var w' := At(v, c, phase);
    assert forall t :: Launched(w', t) <==> Launched(w, t);
  }

  lemma RepairStarts(w: World, v: World, c: nat, owner: bool)
    requires WellFormed(w) && WellFormed(v) && c in w.calls
    requires Grows(w, v) && v.calls == w.calls && v.launches == w.launches
    requires owner || StableId(v, v.calls[c]).Some?
    requires var call := v.calls[c]; owner ==>
      && call.principal == Some(v.tasks[call.task].creator)
      && !PendingDispatch(v.tasks[call.task].status) && !Launched(v, call.task)
      && (HoldsRight(call) || PendingDispatch(w.tasks[call.task].status))
    ensures var w' := StartRepair(v, c, owner); WellFormed(w') && RightStep(w, w', c)
  {
    var phase := if v.calls[c].writes then Repairing(Look, owner) else AfterRepair(owner, false);
    MovesOn(w, v, c, phase);
  }

  lemma BeginsPlainly(w: World, c: nat)
    requires WellFormed(w) && InPhase(w, c, Entered) && CallOk(w, w.calls[c])
    requires var call := w.calls[c]; call.admitted || StableId(w, call).None? || PendingDispatch(call.seen)
    ensures var w' := Began(w, c); WellFormed(w') && RightStep(w, w', c)
  {
    var call := w.calls[c];
    if call.principal != Some(w.tasks[call.task].creator) {
      MovesOn(w, w, c, Rejected);
    } else if !call.admitted && !PendingDispatch(call.seen) {
      MovesOn(w, w, c, Returned(false));
    } else {
      MovesOn(w, w, c, Prepared);
    }
  }

  lemma BeginStep(w: World, c: nat)
    requires WellFormed(w) && InPhase(w, c, Entered) && CallOk(w, w.calls[c])
    ensures var w' := Began(w, c);
      && WellFormed(w') && RightStep(w, w', c) && SameTurns(w, w')
      && w'.launches == w.launches && w'.messages == w.messages
  {
    var call := w.calls[c];
    if !call.admitted && StableId(w, call).Some? && !PendingDispatch(call.seen) {
      RepairStarts(w, w, c, false);
    } else {
      BeginsPlainly(w, c);
    }
  }

  lemma ClaimIsExclusive(w: World, t: nat, expected: Status)
    requires WellFormed(w) && t in w.tasks && PendingDispatch(expected)
    ensures var (outcome, w') := ClaimDispatch(w, t, expected);
      && (outcome == Claimed ==> w' == Dispatched(w, t) && w.tasks[t].status == expected
                                 && forall u :: !Competing(w, t, u))
      && (outcome == ActorMissing ==> w' == w.(tasks := w.tasks[t := w.tasks[t].(status := Terminal)]))
      && (outcome != Claimed && outcome != ActorMissing ==> w' == w)
  {
  }

  lemma DispatchKeepsTurns(w: World, t: nat)
    requires WellFormed(w) && TurnsOk(w) && t in w.tasks && forall u :: !Competing(w, t, u)
    ensures var w' := Dispatched(w, t); WellFormed(w') && TurnsOk(w') && Grows(w, w')
  {
    var w' := Dispatched(w, t);
    forall x, u | x in w'.tasks && Competing(w', x, u) ensures !InTurn(w'.tasks[x].status) {
      if x == t {
        assert Competing(w, t, u);
      } else if u == t {
        if InTurn(w'.tasks[x].status) { assert Competing(w, t, x); }
      } else {
        assert Competing(w, x, u);
      }
    }
  }

  lemma ClaimedStep(w: World, c: nat)
    requires WellFormed(w) && TurnsOk(w) && LaunchesOk(w) && InPhase(w, c, Prepared) && CallOk(w, w.calls[c])
    requires !w.calls[c].admitted
    ensures var w' := PassedFence(w, c, false);
      WellFormed(w') && RightStep(w, w', c) && TurnsOk(w') && w'.launches == w.launches && w'.messages == w.messages
  {
    var call := w.calls[c];
    var t := call.task;
    ClaimIsExclusive(w, t, call.seen);
    var (outcome, v) := ClaimDispatch(w, t, call.seen);
    if outcome == Claimed {
      NeverLaunchedWhilePending(w, t);
      DispatchKeepsTurns(w, t);
      RepairStarts(w, v, c, true);
      SameTurnsOk(v, StartRepair(v, c, true));
    } else {
      if outcome == ActorMissing { RowKeepsTurns(w, t, w.tasks[t].(status := Terminal)); }
      LostStep(w, v, c, outcome);
      SameTurnsOk(v, AfterClaim(v, c, outcome));
    }
  }

  /** A call that did not win: it repairs the row if somebody crossed the fence, or just returns. */
  lemma LostStep(w: World, v: World, c: nat, outcome: ClaimOutcome)
    requires WellFormed(w) && InPhase(w, c, Prepared) && CallOk(w, w.calls[c]) && outcome != Claimed
    requires WellFormed(v) && Grows(w, v) && v.calls == w.calls && v.launches == w.launches
    ensures var w' := AfterClaim(v, c, outcome);
      && WellFormed(w') && RightStep(w, w', c) && SameTurns(v, w')
      && w'.launches == v.launches && w'.messages == v.messages
  {
    var call := w.calls[c];
    if StableId(v, call).Some? && !PendingDispatch(v.tasks[call.task].status) {
      RepairStarts(w, v, c, false);
    } else {
      MovesOn(w, v, c, Returned(false));
    }
  }

  lemma SameTurnsOk(w: World, w': World)
    requires WellFormed(w) && WellFormed(w') && TurnsOk(w) && SameTurns(w, w')
    ensures TurnsOk(w')
  {
    assert forall t, u :: t in w'.tasks && Competing(w', t, u) ==> Competing(w, t, u);
  }

  /** A Task row may be added or changed as long as it does not start a turn. */
  lemma RowKeepsTurns(w: World, t: nat, row: Task)
    requires WellFormed(w) && TurnsOk(w) && row.session in w.sessions
    requires t in w.tasks ==> row.session == w.tasks[t].session
    requires InTurn(row.status) ==> t in w.tasks && InTurn(w.tasks[t].status)
    ensures var w' := w.(tasks := w.tasks[t := row]); WellFormed(w') && TurnsOk(w')
  {
    var w' := w.(tasks := w.tasks[t := row]);
    forall x, u | x in w'.tasks && Competing(w', x, u) && InTurn(w'.tasks[x].status) ensures false {
      assert Competing(w, x, u);
    }
  }

  lemma FenceStep(w: World, c: nat, held: bool)
    requires Inv(w) && InPhase(w, c, Prepared)
    ensures var w' := PassedFence(w, c, held);
      WellFormed(w') && RightStep(w, w', c) && TurnsOk(w') && w'.launches == w.launches && w'.messages == w.messages
  {
    var call := w.calls[c];
    assert CallOk(w, call);
    if held {
      MovesOn(w, w, c, Held);
      SameTurnsOk(w, PassedFence(w, c, held));
    } else if call.admitted {
      RepairStarts(w, w, c, true);
      SameTurnsOk(w, PassedFence(w, c, held));
    } else {
      ClaimedStep(w, c);
    }
  }

  lemma NeverLaunchedWhilePending(w: World, t: nat)
    requires LaunchesOk(w) && t in w.tasks && PendingDispatch(w.tasks[t].status)
    ensures !Launched(w, t)
  {
  }

  /** Moving on from the repair once the Task's own row is there. */
  lemma RepairedStep(w: World, v: World, c: nat)
    requires Repairs(w, c) && CallOk(w, w.calls[c]) && WellFormed(v)
    requires Grows(w, v) && v.calls == w.calls && v.launches == w.launches
    requires OwnRow(v, w.calls[c], StableId(w, w.calls[c]).value)
    ensures var w' := At(v, c, AfterRepair(w.calls[c].phase.owner, true)); WellFormed(w') && RightStep(w, w', c)
  {
    MovesOn(w, v, c, AfterRepair(w.calls[c].phase.owner, true));
  }

  lemma LookStep(w: World, c: nat, again: bool)
    requires Repairs(w, c) && CallOk(w, w.calls[c]) && (!again ==> w.calls[c].phase.step == Look)
    ensures var w' := if again then LookedForWinner(w, c) else LookedForRow(w, c);
      && WellFormed(w') && RightStep(w, w', c) && SameTurns(w, w')
      && w'.messages == w.messages && w'.launches == w.launches
  {
    var m := StableId(w, w.calls[c]).value;
    if OwnRow(w, w.calls[c], m) {
      RepairedStep(w, w, c);
    } else if !again && m !in w.messages {
      MovesOn(w, w, c, Repairing(Insert, w.calls[c].phase.owner));
    } else {
      MovesOn(w, w, c, Rejected);
    }
  }

  lemma WritingKeepsRows(w: World, c: nat, m: nat)
    requires WellFormed(w) && RowsOk(w) && c in w.calls && m !in w.messages
    requires var t := w.calls[c].task; w.tasks[t].stableId.Some? ==> m == w.tasks[t].stableId.value
    ensures var v := Written(w, c, m); WellFormed(v) && Grows(w, v) && RowsOk(v) && OwnRow(v, v.calls[c], m)
  {
  }

  lemma InsertStep(w: World, c: nat, fails: bool)
    requires Repairs(w, c) && CallOk(w, w.calls[c]) && RowsOk(w)
    ensures var w' := InsertedRow(w, c, fails);
      WellFormed(w') && RightStep(w, w', c) && SameTurns(w, w') && RowsOk(w') && w'.launches == w.launches
  {
    var m := StableId(w, w.calls[c]).value;
    var owner := w.calls[c].phase.owner;
    if fails || m in w.messages {
      MovesOn(w, w, c, Repairing(LookAgain, owner));
    } else {
      WritingKeepsRows(w, c, m);
      RepairedStep(w, Written(w, c, m), c);
    }
  }

  lemma RandomRowStep(w: World, c: nat, m: nat, fails: bool)
    requires WellFormed(w) && RowsOk(w) && InPhase(w, c, Repairing(Look, true)) && CallOk(w, w.calls[c])
    requires StableId(w, w.calls[c]).None? && m !in w.messages
    ensures var w' := WroteRandomRow(w, c, m, fails);
      WellFormed(w') && RightStep(w, w', c) && SameTurns(w, w') && RowsOk(w') && w'.launches == w.launches
  {
    WritingKeepsRows(w, c, m);
    MovesOn(w, if fails then w else Written(w, c, m), c, Launching(false));
  }

  lemma LaunchKeepsLaunches(w: World, c: nat)
    requires WellFormed(w) && RightsOk(w) && LaunchesOk(w)
    requires c in w.calls && w.calls[c].phase.Launching? && w.calls[c].principal.Some?
    ensures LaunchesOk(LaunchedExecutor(w, c))
  {
    assert CallOk(w, w.calls[c]);
  }

  lemma LaunchStep(w: World, c: nat)
    requires Inv(w) && c in w.calls && w.calls[c].phase.Launching? && w.calls[c].principal.Some?
    ensures var w' := LaunchedExecutor(w, c);
      WellFormed(w') && RightStep(w, w', c) && SameTurns(w, w') && LaunchesOk(w') && w'.messages == w.messages
  {
    assert CallOk(w, w.calls[c]);
    LaunchKeepsLaunches(w, c);
    var w' := LaunchedExecutor(w, c);
    forall t | t in w.tasks && Launched(w', t) && t != w.calls[c].task ensures Launched(w, t) {
      var i :| 0 <= i < |w'.launches| && w'.launches[i].task == t;
      assert w.launches[i] == w'.launches[i];
    }
    assert CallOk(w', w'.calls[c]);
  }

  // ---------------------------------------------------------------- every step

  predicate OnOneCall(a: Action) {
    a.Begin? || a.Claim? || a.LookForRow? || a.InsertRow? || a.LookForWinner? || a.WriteRandomRow? || a.LaunchExecutor?
  }

  /** What every step on one call leaves behind. */
  ghost predicate Shape(w: World, w': World, a: Action)
    requires WellFormed(w) && WellFormed(w') && Enabled(w, a) && OnOneCall(a)
  {
    && RightStep(w, w', a.call)
    && (if a.Claim? then TurnsOk(w') else SameTurns(w, w'))
    && (if a.InsertRow? || a.WriteRandomRow? then RowsOk(w') else w'.messages == w.messages)
    && (if !a.LaunchExecutor? then w'.launches == w.launches
        else LaunchesOk(w') && w.calls[a.call].phase.Launching? &&
             var call := w.calls[a.call];
             w'.launches == w.launches + [Launch(call.task, call.principal.value, call.writes)])
  }

  lemma WritingStepShape(w: World, a: Action)
    requires Inv(w) && Enabled(w, a) && (a.InsertRow? || a.WriteRandomRow? || a.LaunchExecutor?)
    ensures Shape(w, Apply(w, a), a)
  {
    assert CallOk(w, w.calls[a.call]);
    if a.InsertRow? {
      InsertStep(w, a.call, a.fails);
    } else if a.WriteRandomRow? {
      RandomRowStep(w, a.call, a.message, a.fails);
    } else {
      LaunchStep(w, a.call);
    }
  }

  lemma CallStepShape(w: World, a: Action)
    requires Inv(w) && Enabled(w, a) && OnOneCall(a)
    ensures Shape(w, Apply(w, a), a)
  {
    assert CallOk(w, w.calls[a.call]);
    if a.Begin? {
      BeginStep(w, a.call);
    } else if a.Claim? {
      FenceStep(w, a.call, a.held);
    } else if a.LookForRow? || a.LookForWinner? {
      LookStep(w, a.call, a.LookForWinner?);
    } else {
      WritingStepShape(w, a);
    }
  }

  lemma CallStepKeepsInvariant(w: World, a: Action)
    requires Inv(w) && Enabled(w, a) && OnOneCall(a)
    ensures Inv(Apply(w, a)) && Grows(w, Apply(w, a))
  {
    CallStepShape(w, a);
    var w' := Apply(w, a);
    RightStepKeepsRights(w, w', a.call);
    if !a.Claim? { SameTurnsOk(w, w'); }
    if !a.LaunchExecutor? { GrowthKeepsLaunches(w, w'); }
    if !a.InsertRow? && !a.WriteRandomRow? { GrowthKeepsRows(w, w'); }
  }

  lemma GrowthKeepsLaunches(w: World, w': World)
    requires LaunchesOk(w) && Grows(w, w') && w'.launches == w.launches
    ensures LaunchesOk(w')
  {
  }

  lemma GrowthKeepsRows(w: World, w': World)
    requires RowsOk(w) && Grows(w, w') && w'.messages == w.messages
    ensures RowsOk(w')
  {
  }

  predicate ChangesRows(a: Action) { a.AddTask? || a.Enqueue? || a.Reposition? || a.Admit? || a.Connect? || a.End? }

  lemma RowStepGrows(w: World, a: Action)
    requires WellFormed(w) && Enabled(w, a) && ChangesRows(a)
    ensures Grows(w, Apply(w, a)) && Apply(w, a).launches == w.launches && Apply(w, a).messages == w.messages
  {
  }

  lemma PlainStepGrows(w: World, a: Action)
    requires WellFormed(w) && Enabled(w, a) && !OnOneCall(a) && !ChangesRows(a)
    ensures Grows(w, Apply(w, a)) && Apply(w, a).launches == w.launches
    ensures !a.OtherMessage? && !a.ExecutorWrites? ==> Apply(w, a).messages == w.messages
  {
  }

  lemma OtherStepGrows(w: World, a: Action)
    requires WellFormed(w) && Enabled(w, a) && !OnOneCall(a)
    ensures Grows(w, Apply(w, a)) && Apply(w, a).launches == w.launches
    ensures !a.OtherMessage? && !a.ExecutorWrites? ==> Apply(w, a).messages == w.messages
  {
    if ChangesRows(a) { RowStepGrows(w, a); } else { PlainStepGrows(w, a); }
  }

  lemma OtherMessageKeepsRows(w: World, a: Action)
    requires Inv(w) && Enabled(w, a) && (a.OtherMessage? || a.ExecutorWrites?)
    ensures RowsOk(Apply(w, a))
  {
  }

  lemma AdmitKeepsTurns(w: World, a: Action)
    requires Inv(w) && Enabled(w, a) && a.Admit?
    ensures TurnsOk(Apply(w, a))
  {
    var w' := Apply(w, a);
    forall t, u | t in w'.tasks && Competing(w', t, u) ensures !InTurn(w'.tasks[t].status) {
      if t in w.tasks && u in w.tasks { assert Competing(w, t, u); }
    }
  }

  lemma SessionStepKeepsTurns(w: World, a: Action)
    requires Inv(w) && Enabled(w, a) && (a.AddSession? || a.SetCanStart?)
    ensures TurnsOk(Apply(w, a))
  {
    var w' := Apply(w, a);
    assert forall t, u :: t in w.tasks && Competing(w', t, u) ==> Competing(w, t, u);
  }

  lemma OtherStepKeepsTurns(w: World, a: Action)
    requires Inv(w) && Enabled(w, a) && !OnOneCall(a)
    ensures TurnsOk(Apply(w, a))
  {
    if a.Admit? {
      AdmitKeepsTurns(w, a);
    } else if a.AddTask? {
      RowKeepsTurns(w, a.task, a.row);
    } else if a.Enqueue? || a.Reposition? || a.Connect? || a.End? {
      RowKeepsTurns(w, a.task, Apply(w, a).tasks[a.task]);
    } else if a.AddSession? || a.SetCanStart? {
      SessionStepKeepsTurns(w, a);
    } else {
      SameTurnsOk(w, Apply(w, a));
    }
  }

  predicate ChangesCalls(a: Action) { a.Admit? || a.Enter? || a.Crash? }

  lemma SameCallsKeepRights(w: World, w': World)
    requires WellFormed(w) && RightsOk(w) && WellFormed(w') && Grows(w, w')
    requires w'.calls == w.calls && w'.launches == w.launches
    ensures RightsOk(w')
  {
    forall c | c in w'.calls ensures CallOk(w', w'.calls[c]) {
      assert CallOk(w, w.calls[c]);
      Carries(w, w', w.calls[c]);
    }
  }

  lemma CallsComeAndGo(w: World, a: Action)
    requires WellFormed(w) && RightsOk(w) && LaunchesOk(w) && Enabled(w, a) && ChangesCalls(a)
    ensures RightsOk(Apply(w, a))
  {
    var w' := Apply(w, a);
    OtherStepGrows(w, a);
    forall c | c in w'.calls ensures CallOk(w', w'.calls[c]) {
      if c in w.calls {
        assert CallOk(w, w.calls[c]);
        Carries(w, w', w.calls[c]);
      }
    }
    RightsStayApart(w, a);
  }

  lemma RightsStayApart(w: World, a: Action)
    requires WellFormed(w) && RightsOk(w) && LaunchesOk(w) && Enabled(w, a) && ChangesCalls(a)
    ensures var w' := Apply(w, a);
      forall c, d :: c in w'.calls && d in w'.calls && c != d && HoldsRight(w'.calls[c]) && HoldsRight(w'.calls[d]) ==>
        w'.calls[c].task != w'.calls[d].task
  {
    var w' := Apply(w, a);
    forall c, d | c in w'.calls && d in w'.calls && c != d && HoldsRight(w'.calls[c]) && HoldsRight(w'.calls[d])
      ensures w'.calls[c].task != w'.calls[d].task
    {
      assert (c in w.calls ==> CallOk(w, w.calls[c])) && (d in w.calls ==> CallOk(w, w.calls[d]));
    }
  }

  lemma OtherStepKeepsRows(w: World, a: Action)
    requires Inv(w) && Enabled(w, a) && !OnOneCall(a)
    ensures LaunchesOk(Apply(w, a)) && RowsOk(Apply(w, a)) && Grows(w, Apply(w, a))
  {
    OtherStepGrows(w, a);
    GrowthKeepsLaunches(w, Apply(w, a));
    if a.OtherMessage? || a.ExecutorWrites? { OtherMessageKeepsRows(w, a); } else { GrowthKeepsRows(w, Apply(w, a)); }
  }

  lemma OtherCallsStay(w: World, a: Action)
    requires WellFormed(w) && Enabled(w, a) && !OnOneCall(a) && !ChangesCalls(a)
    ensures Apply(w, a).calls == w.calls
  {
  }

  lemma OtherStepKeepsRights(w: World, a: Action)
    requires Inv(w) && Enabled(w, a) && !OnOneCall(a)
    ensures RightsOk(Apply(w, a))
  {
    if ChangesCalls(a) {
      CallsComeAndGo(w, a);
    } else {
      OtherStepGrows(w, a);
      OtherCallsStay(w, a);
      SameCallsKeepRights(w, Apply(w, a));
    }
  }

  lemma OtherStepKeepsInvariant(w: World, a: Action)
    requires Inv(w) && Enabled(w, a) && !OnOneCall(a)
    ensures Inv(Apply(w, a)) && Grows(w, Apply(w, a))
  {
    OtherStepKeepsRows(w, a);
    OtherStepKeepsTurns(w, a);
    OtherStepKeepsRights(w, a);
  }

  lemma StepGrows(w: World, a: Action)
    requires Inv(w) && Enabled(w, a)
    ensures Grows(w, Apply(w, a))
  {
    StepKeepsInvariant(w, a);
  }

  lemma StepKeepsInvariant(w: World, a: Action)
    requires Inv(w) && Enabled(w, a)
    ensures Inv(Apply(w, a)) && Grows(w, Apply(w, a))
  {
    if OnOneCall(a) { CallStepKeepsInvariant(w, a); } else { OtherStepKeepsInvariant(w, a); }
  }

  lemma {:induction false} RunKeepsInvariant(w: World, run: seq<Action>)
    requires Inv(w) && CanRun(w, run)
    ensures Inv(Run(w, run)) && Grows(w, Run(w, run))
    decreases |run|
  {
    if run != [] {
      StepKeepsInvariant(w, run[0]);
      RunKeepsInvariant(Apply(w, run[0]), run[1..]);
    }
  }

  // ---------------------------------------------------------------- theorems

  ghost predicate Reachable(w: World) {
    exists run :: CanRun(Initial(), run) && Run(Initial(), run) == w
  }

  lemma ReachableKeepsInvariant(w: World)
    requires Reachable(w)
    ensures Inv(w)
  {
    var run :| CanRun(Initial(), run) && Run(Initial(), run) == w;
    RunKeepsInvariant(Initial(), run);
  }

  /** Across all daemons, ticks and crashes a Task is launched at most once, and as its creator. */
  lemma LaunchedOnceByItsCreator(w: World)
    requires Reachable(w)
    ensures forall i :: 0 <= i < |w.launches| ==>
      w.launches[i].task in w.tasks && w.launches[i].principal == w.tasks[w.launches[i].task].creator
    ensures forall i, j :: 0 <= i < j < |w.launches| ==> w.launches[i].task != w.launches[j].task
    ensures forall c, d ::
      c in w.calls && d in w.calls && c != d && HoldsRight(w.calls[c]) && HoldsRight(w.calls[d]) ==>
      w.calls[c].task != w.calls[d].task
  {
    ReachableKeepsInvariant(w);
  }

  /** A Session has at most one Task in turn, and every Task in turn is on its list, once. */
  lemma OneTurnPerSession(w: World)
    requires Reachable(w)
    ensures WellFormed(w)
    ensures forall t, u ::
      t in w.tasks && u in w.tasks && t != u && InTurn(w.tasks[t].status) && InTurn(w.tasks[u].status) ==>
        w.tasks[t].session != w.tasks[u].session
    ensures forall t <- w.tasks :: InTurn(w.tasks[t].status) ==>
      var listed := w.sessions[w.tasks[t].session].tasks;
      exists i :: 0 <= i < |listed| && listed[i] == t && forall j :: 0 <= j < |listed| && j != i ==> listed[j] != t
  {
    ReachableKeepsInvariant(w);
    forall t, u | t in w.tasks && u in w.tasks && t != u && InTurn(w.tasks[t].status) && InTurn(w.tasks[u].status)
      ensures w.tasks[t].session != w.tasks[u].session
    {
      assert !Competing(w, t, u);
    }
    forall t | t in w.tasks && InTurn(w.tasks[t].status)
      ensures var listed := w.sessions[w.tasks[t].session].tasks;
        exists i :: 0 <= i < |listed| && listed[i] == t && forall j :: 0 <= j < |listed| && j != i ==> listed[j] != t
    {
      var listed := w.sessions[w.tasks[t].session].tasks;
      assert NoRepeats(listed);
      var i :| 0 <= i < |listed| && listed[i] == t;
    }
  }

  /**
   * A Task with a stable identity never has two rows from the launch path, and has exactly that row,
   * for good, once any call has repaired it; a launch with row writing on comes after the repair.
   */
  lemma OneInitialRow(w: World, t: nat)
    requires Reachable(w) && t in w.tasks && w.tasks[t].stableId.Some?
    ensures forall m <- w.messages :: w.messages[m].writer == ByDaemon && w.messages[m].task == t ==>
      m == w.tasks[t].stableId.value
    ensures forall c <- w.calls :: w.calls[c].task == t && w.calls[c].phase.Returned? && w.calls[c].phase.repaired ==>
      OwnRow(w, w.calls[c], w.tasks[t].stableId.value)
    ensures forall c <- w.calls :: w.calls[c].task == t && w.calls[c].phase.Launching? && w.calls[c].writes ==>
      OwnRow(w, w.calls[c], w.tasks[t].stableId.value)
  {
    ReachableKeepsInvariant(w);
    forall c | c in w.calls && w.calls[c].task == t ensures CallOk(w, w.calls[c]) {
    }
  }

  /** A Task past the fence whose right nobody holds any more. */
  ghost predicate RightLost(w: World, t: nat) {
    && t in w.tasks && !PendingDispatch(w.tasks[t].status)
    && forall c <- w.calls :: w.calls[c].task == t ==> !HoldsRight(w.calls[c])
  }

  lemma MoveKeepsRightLost(w: World, w': World, c: nat, t: nat)
    requires WellFormed(w) && Moves(w, w', c) && Grows(w, w') && RightLost(w, t)
    requires HoldsRight(w'.calls[c]) && !HoldsRight(w.calls[c]) ==> PendingDispatch(w.tasks[w.calls[c].task].status)
    ensures RightLost(w', t)
  {
  }

  lemma CallRightStaysLost(w: World, a: Action, t: nat)
    requires Inv(w) && Enabled(w, a) && OnOneCall(a) && RightLost(w, t)
    ensures RightLost(Apply(w, a), t) && (Launched(Apply(w, a), t) <==> Launched(w, t))
  {
    var w' := Apply(w, a);
    assert Shape(w, w', a) by { CallStepShape(w, a); }
    MoveKeepsRightLost(w, w', a.call, t);
    SameLaunches(w, w', t);
  }

  lemma ComingCallsKeepRightLost(w: World, a: Action, t: nat)
    requires WellFormed(w) && Enabled(w, a) && ChangesCalls(a) && RightLost(w, t)
    ensures RightLost(Apply(w, a), t)
  {
    OtherStepGrows(w, a);
  }

  lemma OtherRightStaysLost(w: World, a: Action, t: nat)
    requires WellFormed(w) && Enabled(w, a) && !OnOneCall(a) && RightLost(w, t)
    ensures RightLost(Apply(w, a), t) && (Launched(Apply(w, a), t) <==> Launched(w, t))
  {
    var w' := Apply(w, a);
    OtherStepGrows(w, a);
    SameLaunches(w, w', t);
    if ChangesCalls(a) {
      ComingCallsKeepRightLost(w, a, t);
    } else {
      assert w'.calls == w.calls;
    }
  }

  lemma SameLaunches(w: World, w': World, t: nat)
    requires w'.launches == w.launches || (|w'.launches| == |w.launches| + 1 && w.launches <= w'.launches
                                           && w'.launches[|w.launches|].task != t)
    ensures Launched(w', t) <==> Launched(w, t)
  {
    if Launched(w, t) {
      var i :| 0 <= i < |w.launches| && w.launches[i].task == t;
      assert w'.launches[i] == w.launches[i];
    }
    if Launched(w', t) {
      var i :| 0 <= i < |w'.launches| && w'.launches[i].task == t;
      assert w.launches[i] == w'.launches[i];
    }
  }

  /**
   * When the daemon that won a Task stops, or a power hold meets an admitted Task, before the
   * launch, nothing that happens later launches it.
   */
  lemma {:induction false} LostRightIsFinal(w: World, t: nat, run: seq<Action>)
    requires Inv(w) && CanRun(w, run) && RightLost(w, t)
    ensures RightLost(Run(w, run), t) && (Launched(Run(w, run), t) <==> Launched(w, t))
    decreases |run|
  {
    if run != [] {
      StepKeepsInvariant(w, run[0]);
      if OnOneCall(run[0]) { CallRightStaysLost(w, run[0], t); } else { OtherRightStaysLost(w, run[0], t); }
      LostRightIsFinal(Apply(w, run[0]), t, run[1..]);
    }
  }

  lemma MoveLosesTheRight(w: World, w': World, c: nat)
    requires WellFormed(w) && RightsOk(w) && WellFormed(w') && Moves(w, w', c) && Grows(w, w')
    requires HoldsRight(w.calls[c]) && !HoldsRight(w'.calls[c])
    ensures RightLost(w', w.calls[c].task)
  {
    assert CallOk(w, w.calls[c]);
  }

  lemma OnlyCrashDropsCalls(w: World, a: Action, c: nat)
    requires WellFormed(w) && Enabled(w, a) && !OnOneCall(a) && c in w.calls
    ensures a.Crash? || (c in Apply(w, a).calls && Apply(w, a).calls[c] == w.calls[c])
  {
  }

  lemma CrashLosesTheRight(w: World, daemon: nat, c: nat)
    requires WellFormed(w) && RightsOk(w) && c in w.calls && HoldsRight(w.calls[c])
    requires c !in Apply(w, Crash(daemon)).calls
    ensures RightLost(Apply(w, Crash(daemon)), w.calls[c].task)
  {
    assert CallOk(w, w.calls[c]);
  }

  lemma GivingUpLosesTheRight(w: World, a: Action, c: nat)
    requires Inv(w) && Enabled(w, a) && !a.LaunchExecutor?
    requires c in w.calls && HoldsRight(w.calls[c])
    requires c in Apply(w, a).calls ==> !HoldsRight(Apply(w, a).calls[c])
    ensures RightLost(Apply(w, a), w.calls[c].task) && !Launched(Apply(w, a), w.calls[c].task)
  {
    assert CallOk(w, w.calls[c]);
    if OnOneCall(a) {
      MoveGivesUp(w, a, c);
    } else {
      OtherStepGrows(w, a);
      OnlyCrashDropsCalls(w, a, c);
      CrashLosesTheRight(w, a.daemon, c);
    }
    SameLaunches(w, Apply(w, a), w.calls[c].task);
  }

  lemma MoveGivesUp(w: World, a: Action, c: nat)
    requires Inv(w) && Enabled(w, a) && OnOneCall(a) && !a.LaunchExecutor?
    requires c in w.calls && HoldsRight(w.calls[c])
    requires c in Apply(w, a).calls ==> !HoldsRight(Apply(w, a).calls[c])
    ensures RightLost(Apply(w, a), w.calls[c].task) && Apply(w, a).launches == w.launches
  {
    assert Shape(w, Apply(w, a), a) by { CallStepShape(w, a); }
    assert Moves(w, Apply(w, a), a.call);
    MoveLosesTheRight(w, Apply(w, a), c);
  }

  /**
   * A call that was given a Task's launch and loses it without launching, by a crash, a power hold,
   * or a transcript identity that belongs to somebody else, leaves the Task unlaunched for good.
   */
  lemma RightGivenUpIsNeverUsed(w: World, a: Action, c: nat, run: seq<Action>)
    requires Reachable(w) && WellFormed(w) && Enabled(w, a) && !a.LaunchExecutor?
    requires c in w.calls && HoldsRight(w.calls[c])
    requires c in Apply(w, a).calls ==> !HoldsRight(Apply(w, a).calls[c])
    requires CanRun(Apply(w, a), run)
    ensures var w' := Run(Apply(w, a), run);
      && w.calls[c].task in w'.tasks && !PendingDispatch(w'.tasks[w.calls[c].task].status)
      && !Launched(w', w.calls[c].task)
  {
    ReachableKeepsInvariant(w);
    StepKeepsInvariant(w, a);
    GivingUpLosesTheRight(w, a, c);
    LostRightIsFinal(Apply(w, a), w.calls[c].task, run);
  }

  /** A direct admission that meets a power hold at the permit is such a call: its Task keeps dispatching. */
  lemma HeldAdmissionIsNeverLaunched(w: World, c: nat, run: seq<Action>)
    requires Reachable(w) && WellFormed(w) && InPhase(w, c, Prepared) && w.calls[c].admitted
    requires CanRun(Apply(w, Claim(c, true)), run)
    ensures !Launched(Run(Apply(w, Claim(c, true)), run), w.calls[c].task)
    ensures Apply(w, Claim(c, true)).tasks == w.tasks
  {
    RightGivenUpIsNeverUsed(w, Claim(c, true), c, run);
  }
}
