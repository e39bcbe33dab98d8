/**
 * The first transcript row of a Task with a stable identity, counting the row an executor writes
 * itself when it finds none.
 */
module DispatchTranscript {
  import opened Options
  import opened DispatchLaunch
  import opened DispatchProofs

  /** The Task was launched by a daemon that writes rows. */
  ghost predicate LaunchedWriting(w: World, t: nat) {
    exists i :: 0 <= i < |w.launches| && w.launches[i].task == t && w.launches[i].writes
  }

  predicate HasStableRow(w: World, t: nat) {
    && t in w.tasks && w.tasks[t].stableId.Some?
    && w.tasks[t].stableId.value in w.messages && w.messages[w.tasks[t].stableId.value].task == t
  }

  ghost predicate LaunchesWrote(w: World) {
    forall t <- w.tasks :: w.tasks[t].stableId.Some? && LaunchedWriting(w, t) ==> HasStableRow(w, t)
  }

  /** Only a launched Task's executor looks, and it misses a row only where the daemon writes none. */
  ghost predicate LooksOk(w: World) {
    forall t <- w.executors :: Launched(w, t) &&
      (!w.executors[t] && t in w.tasks && w.tasks[t].stableId.Some? ==> !LaunchedWriting(w, t))
  }

  ghost predicate FallbackOk(w: World) {
    forall m <- w.messages :: w.messages[m].writer == ByExecutor ==> ExecutorRowOk(w, m)
  }

  ghost predicate OneFallback(w: World) {
    forall m, n ::
      (m in w.messages && n in w.messages && w.messages[m].writer == ByExecutor
       && w.messages[n].writer == ByExecutor && w.messages[m].task == w.messages[n].task) ==> m == n
  }

  ghost predicate TranscriptOk(w: World) { LaunchesWrote(w) && LooksOk(w) && FallbackOk(w) && OneFallback(w) }

  ghost predicate ExecutorRowOk(w: World, m: nat)
    requires m in w.messages
  {
    var t := w.messages[m].task;
    && t in w.executors && w.executors[t]
    && (t in w.tasks && w.tasks[t].stableId.Some? ==> !LaunchedWriting(w, t))
  }

  // ---------------------------------------------------------------- steps

  /** Steps of neither a launch nor an executor: rows may be added, none of them an executor's. */
  ghost predicate RowsOnly(w: World, w': World) {
    && w'.launches == w.launches && w'.executors == w.executors
    && forall m <- w'.messages :: m !in w.messages ==> w'.messages[m].writer != ByExecutor
  }

  lemma CallAddsNoExecutorRow(w: World, a: Action)
    requires WellFormed(w) && Enabled(w, a) && OnOneCall(a) && !a.LaunchExecutor? && !a.Claim?
    ensures RowsOnly(w, Apply(w, a))
  {
  }

  lemma FenceAddsNoRow(w: World, c: nat, held: bool)
    requires WellFormed(w) && InPhase(w, c, Prepared) && CallOk(w, w.calls[c])
    ensures RowsOnly(w, PassedFence(w, c, held))
  {
    var call := w.calls[c];
    if !held && !call.admitted { ClaimIsExclusive(w, call.task, call.seen); }
  }

  lemma OtherAddsNoExecutorRow(w: World, a: Action)
    requires WellFormed(w) && Enabled(w, a) && !OnOneCall(a) && !a.ExecutorLooks? && !a.ExecutorWrites?
    ensures RowsOnly(w, Apply(w, a))
  {
  }

  lemma RowsOnlyKeepTranscript(w: World, w': World)
    requires WellFormed(w) && RowsOk(w) && LaunchesOk(w) && TranscriptOk(w)
    requires WellFormed(w') && Grows(w, w') && RowsOnly(w, w')
    ensures TranscriptOk(w')
  {
    assert forall t :: LaunchedWriting(w', t) <==> LaunchedWriting(w, t);
    assert forall t :: Launched(w', t) <==> Launched(w, t);
    assert forall t :: LaunchedWriting(w, t) ==> t in w.tasks;
    assert forall m :: m in w.messages && w.messages[m].writer == ByExecutor ==> ExecutorRowOk(w, m);
  }

  lemma LaunchKeepsTranscript(w: World, c: nat)
    requires WellFormed(w) && RowsOk(w) && LaunchesOk(w) && TranscriptOk(w) && c in w.calls && CallOk(w, w.calls[c])
    requires w.calls[c].phase.Launching? && w.calls[c].principal.Some?
    ensures TranscriptOk(LaunchedExecutor(w, c))
  {
    var call := w.calls[c];
    var w' := LaunchedExecutor(w, c);
    LaunchTellsOfOneTask(w, w', call.task);
    if LaunchedWriting(w', call.task) { OwnLaunchWrites(w, c); }
    NewLaunchKeepsLooks(w, w', call.task);
  }

  /** A first launch that counts as writing was made by a call that repaired the row before. */
  lemma OwnLaunchWrites(w: World, c: nat)
    requires WellFormed(w) && c in w.calls && CallOk(w, w.calls[c])
    requires w.calls[c].phase.Launching? && w.calls[c].principal.Some?
    requires LaunchedWriting(LaunchedExecutor(w, c), w.calls[c].task)
    ensures w.calls[c].writes && (w.tasks[w.calls[c].task].stableId.Some? ==> HasStableRow(w, w.calls[c].task))
  {
    var call := w.calls[c];
    var w' := LaunchedExecutor(w, c);
    var i :| 0 <= i < |w'.launches| && w'.launches[i].task == call.task && w'.launches[i].writes;
    assert forall k :: 0 <= k < |w.launches| ==> w'.launches[k] == w.launches[k] && w.launches[k].task != call.task;
    assert i == |w.launches|;
  }

  /** Nobody has looked for the Task that is launched only now. */
  lemma NewLaunchKeepsLooks(w: World, w': World, t: nat)
    requires LooksOk(w) && FallbackOk(w) && OneFallback(w) && !Launched(w, t)
    requires w'.tasks == w.tasks && w'.messages == w.messages && w'.executors == w.executors
    requires forall u :: u != t ==> (LaunchedWriting(w', u) <==> LaunchedWriting(w, u))
    requires forall u :: Launched(w, u) ==> Launched(w', u)
    ensures LooksOk(w') && FallbackOk(w') && OneFallback(w')
  {
    forall m | m in w'.messages && w'.messages[m].writer == ByExecutor ensures ExecutorRowOk(w', m) {
      assert ExecutorRowOk(w, m);
    }
  }

  lemma LaunchTellsOfOneTask(w: World, w': World, t: nat)
    requires |w'.launches| == |w.launches| + 1 && w.launches <= w'.launches && w'.launches[|w.launches|].task == t
    ensures forall u :: u != t ==> (LaunchedWriting(w', u) <==> LaunchedWriting(w, u))
    ensures forall u :: Launched(w, u) ==> Launched(w', u)
  {
    forall u ensures u != t && LaunchedWriting(w', u) ==> LaunchedWriting(w, u) {
      if u != t && LaunchedWriting(w', u) {
        var i :| 0 <= i < |w'.launches| && w'.launches[i].task == u && w'.launches[i].writes;
        assert w.launches[i] == w'.launches[i];
      }
    }
    forall u ensures LaunchedWriting(w, u) ==> LaunchedWriting(w', u) {
      if LaunchedWriting(w, u) {
        var i :| 0 <= i < |w.launches| && w.launches[i].task == u && w.launches[i].writes;
        assert w.launches[i] == w'.launches[i];
      }
    }
    forall u ensures Launched(w, u) ==> Launched(w', u) {
      if Launched(w, u) {
        var i :| 0 <= i < |w.launches| && w.launches[i].task == u;
        assert w.launches[i] == w'.launches[i];
      }
    }
  }

  /** Adding rows and looks to a world with the same Tasks and launches leaves what the launches wrote. */
  lemma LaunchesWroteCarries(w: World, w': World)
    requires LaunchesWrote(w) && w'.tasks == w.tasks && w'.launches == w.launches
    requires forall m <- w.messages :: m in w'.messages && w'.messages[m] == w.messages[m]
    ensures LaunchesWrote(w')
    ensures forall t :: (LaunchedWriting(w', t) <==> LaunchedWriting(w, t)) && (Launched(w', t) <==> Launched(w, t))
  {
    assert forall t :: LaunchedWriting(w', t) <==> LaunchedWriting(w, t);
  }

  /** A look at a Task that a writing daemon launched finds that daemon's row. */
  lemma LookIsHonest(w: World, t: nat, found: bool)
    requires WellFormed(w) && RowsOk(w) && LaunchesWrote(w) && Enabled(w, ExecutorLooks(t, found))
    ensures t in w.tasks && w.tasks[t].stableId.Some? && LaunchedWriting(w, t) ==> found
  {
    if t in w.tasks && w.tasks[t].stableId.Some? && LaunchedWriting(w, t) {
      assert w.messages[w.tasks[t].stableId.value].writer == ByDaemon;
    }
  }

  lemma LookKeepsTranscript(w: World, t: nat, found: bool)
    requires WellFormed(w) && RowsOk(w) && TranscriptOk(w) && Enabled(w, ExecutorLooks(t, found))
    ensures TranscriptOk(w.(executors := w.executors[t := found]))
  {
    var w' := w.(executors := w.executors[t := found]);
    LookIsHonest(w, t, found);
    LaunchesWroteCarries(w, w');
    assert FallbackOk(w') by {
      forall m | m in w'.messages && w'.messages[m].writer == ByExecutor ensures ExecutorRowOk(w', m) {
        assert ExecutorRowOk(w, m);
      }
    }
  }

  lemma WriteKeepsTranscript(w: World, t: nat, m: nat)
    requires WellFormed(w) && TranscriptOk(w) && Enabled(w, ExecutorWrites(t, m))
    ensures TranscriptOk(Apply(w, ExecutorWrites(t, m)))
  {
    var w' := Apply(w, ExecutorWrites(t, m));
    LaunchesWroteCarries(w, w');
    WriteIsTheOnlyFallback(w, w', t, m);
  }

  lemma WriteIsTheOnlyFallback(w: World, w': World, t: nat, m: nat)
    requires LooksOk(w) && FallbackOk(w) && OneFallback(w) && t in w.executors && !w.executors[t] && m !in w.messages
    requires w'.tasks == w.tasks && w'.executors == w.executors[t := true]
    requires w'.messages.Keys == w.messages.Keys + {m} && w'.messages[m].task == t
    requires forall n <- w.messages :: w'.messages[n] == w.messages[n]
    requires forall u :: (LaunchedWriting(w', u) <==> LaunchedWriting(w, u)) && (Launched(w', u) <==> Launched(w, u))
    ensures LooksOk(w') && FallbackOk(w') && OneFallback(w')
  {
    forall n | n in w.messages && w.messages[n].writer == ByExecutor ensures w.messages[n].task != t {
      assert ExecutorRowOk(w, n);
    }
    forall n | n in w'.messages && w'.messages[n].writer == ByExecutor ensures ExecutorRowOk(w', n) {
      if n != m { assert ExecutorRowOk(w, n); }
    }
  }

  lemma StepKeepsTranscript(w: World, a: Action)
    requires Inv(w) && TranscriptOk(w) && Enabled(w, a)
    ensures TranscriptOk(Apply(w, a))
  {
    if a.LaunchExecutor? {
      assert CallOk(w, w.calls[a.call]);
      LaunchKeepsTranscript(w, a.call);
    } else if a.ExecutorLooks? {
      LookKeepsTranscript(w, a.task, a.found);
    } else if a.ExecutorWrites? {
      WriteKeepsTranscript(w, a.task, a.message);
    } else {
      AddsNoExecutorRow(w, a);
      StepGrows(w, a);
      RowsOnlyKeepTranscript(w, Apply(w, a));
    }
  }

  lemma AddsNoExecutorRow(w: World, a: Action)
    requires Inv(w) && Enabled(w, a) && !a.LaunchExecutor? && !a.ExecutorLooks? && !a.ExecutorWrites?
    ensures RowsOnly(w, Apply(w, a))
  {
    if a.Claim? {
      assert CallOk(w, w.calls[a.call]);
      FenceAddsNoRow(w, a.call, a.held);
    } else if OnOneCall(a) {
      CallAddsNoExecutorRow(w, a);
    } else {
      OtherAddsNoExecutorRow(w, a);
    }
  }

  lemma {:induction false} RunKeepsTranscript(w: World, run: seq<Action>)
    requires Inv(w) && TranscriptOk(w) && CanRun(w, run)
    ensures Inv(Run(w, run)) && TranscriptOk(Run(w, run))
    decreases |run|
  {
    if run != [] {
      StepKeepsInvariant(w, run[0]);
      StepKeepsTranscript(w, run[0]);
      RunKeepsTranscript(Apply(w, run[0]), run[1..]);
    }
  }

  // ---------------------------------------------------------------- theorems

  /** A row somebody wrote as the Task's first one. */
  ghost predicate FirstRow(w: World, m: nat, t: nat) {
    m in w.messages && w.messages[m].task == t && w.messages[m].writer != ByOther
  }

  /**
   * A Task with a stable identity that a row-writing daemon launched has exactly one first row in all,
   * under its stable identity; only where the launching daemon leaves rows to the executor may that
   * add one of its own, and then a single one.
   */
  lemma OneFirstRow(w: World, t: nat)
    requires Reachable(w) && t in w.tasks && w.tasks[t].stableId.Some?
    ensures LaunchedWriting(w, t) ==> forall m :: FirstRow(w, m, t) <==> m == w.tasks[t].stableId.value
    ensures RowOf(w, t, ByExecutor) ==> Launched(w, t) && !LaunchedWriting(w, t)
    ensures forall m, n ::
      FirstRow(w, m, t) && FirstRow(w, n, t) && w.messages[m].writer == w.messages[n].writer ==> m == n
  {
    var run :| CanRun(Initial(), run) && Run(Initial(), run) == w;
    RunKeepsTranscript(Initial(), run);
    TranscriptTells(w, t);
  }

  lemma TranscriptTells(w: World, t: nat)
    requires WellFormed(w) && RowsOk(w) && TranscriptOk(w) && t in w.tasks && w.tasks[t].stableId.Some?
    ensures LaunchedWriting(w, t) ==> forall m :: FirstRow(w, m, t) <==> m == w.tasks[t].stableId.value
    ensures RowOf(w, t, ByExecutor) ==> Launched(w, t) && !LaunchedWriting(w, t)
    ensures forall m, n ::
      FirstRow(w, m, t) && FirstRow(w, n, t) && w.messages[m].writer == w.messages[n].writer ==> m == n
  {
    forall m | FirstRow(w, m, t) && w.messages[m].writer == ByExecutor
      ensures Launched(w, t) && !LaunchedWriting(w, t)
    {
      assert ExecutorRowOk(w, m);
    }
  }

  /** Where no daemon wrote the first row, the executor's look and its fallback give the Task exactly one. */
  lemma FallbackGivesTheFirstRow(w: World, t: nat, m: nat) returns (connected: World, looked: World, wrote: World)
    requires Reachable(w) && WellFormed(w) && t in w.tasks && Launched(w, t) && t !in w.executors
    requires w.tasks[t].status == Dispatching && !RowOf(w, t, ByDaemon) && FreeFor(w, m, t)
    ensures Enabled(w, Connect(t)) && connected == Apply(w, Connect(t))
    ensures Enabled(connected, ExecutorLooks(t, false)) && looked == Apply(connected, ExecutorLooks(t, false))
    ensures Enabled(looked, ExecutorWrites(t, m)) && wrote == Apply(looked, ExecutorWrites(t, m))
    ensures t in wrote.tasks && wrote.tasks[t].status == Executing && wrote.launches == w.launches
    ensures forall n :: FirstRow(wrote, n, t) <==> n == m
  {
    var run :| CanRun(Initial(), run) && Run(Initial(), run) == w;
    RunKeepsTranscript(Initial(), run);
    OnlyOthersWrote(w, t);
    ConnectOnlyExecutes(w, t);
    connected := Apply(w, Connect(t));
    looked, wrote := LookThenWrite(connected, t, m);
  }

  lemma LookThenWrite(w: World, t: nat, m: nat) returns (looked: World, wrote: World)
    requires WellFormed(w) && t in w.tasks && t !in w.executors && FreeFor(w, m, t) && Launched(w, t)
    requires forall n <- w.messages :: w.messages[n].task == t ==> w.messages[n].writer == ByOther
    ensures Enabled(w, ExecutorLooks(t, false)) && looked == Apply(w, ExecutorLooks(t, false))
    ensures Enabled(looked, ExecutorWrites(t, m)) && wrote == Apply(looked, ExecutorWrites(t, m))
    ensures wrote.tasks == w.tasks && wrote.launches == w.launches && forall n :: FirstRow(wrote, n, t) <==> n == m
  {
    LaunchedMayLook(w, t);
    FallbackIsFirst(w, t, m);
    looked := Apply(w, ExecutorLooks(t, false));
    wrote := Apply(looked, ExecutorWrites(t, m));
  }

  lemma ConnectOnlyExecutes(w: World, t: nat)
    requires WellFormed(w) && Enabled(w, Connect(t))
    ensures Apply(w, Connect(t)) == w.(tasks := w.tasks[t := w.tasks[t].(status := Executing)])
    ensures forall writer :: RowOf(Apply(w, Connect(t)), t, writer) <==> RowOf(w, t, writer)
    ensures Launched(Apply(w, Connect(t)), t) <==> Launched(w, t)
  {
  }

  lemma LaunchedMayLook(w: World, t: nat)
    requires WellFormed(w) && Launched(w, t) && t !in w.executors && !RowOf(w, t, ByDaemon)
    ensures Enabled(w, ExecutorLooks(t, false))
  {
  }

  lemma OnlyOthersWrote(w: World, t: nat)
    requires FallbackOk(w) && t !in w.executors && !RowOf(w, t, ByDaemon)
    ensures forall n <- w.messages :: w.messages[n].task == t ==> w.messages[n].writer == ByOther
  {
    forall n | n in w.messages && w.messages[n].task == t ensures w.messages[n].writer == ByOther {
      assert w.messages[n].writer == ByExecutor ==> ExecutorRowOk(w, n);
    }
  }

  lemma FallbackIsFirst(w: World, t: nat, m: nat)
    requires WellFormed(w) && t in w.tasks && t !in w.executors && FreeFor(w, m, t)
    requires Enabled(w, ExecutorLooks(t, false))
    requires forall n <- w.messages :: w.messages[n].task == t ==> w.messages[n].writer == ByOther
    ensures Enabled(Apply(w, ExecutorLooks(t, false)), ExecutorWrites(t, m))
    ensures var w' := Apply(Apply(w, ExecutorLooks(t, false)), ExecutorWrites(t, m));
      && w'.tasks == w.tasks && w'.launches == w.launches
      && forall n :: FirstRow(w', n, t) <==> n == m
  {
  }
}
