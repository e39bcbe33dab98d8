/** The waits of one containment pass: the polling loop itself and the lease that must outlast it. */
module TerminationTiming {
  import opened Options
  import opened TaskRow

  const LOCAL_GRACE_MS := 1_000
  const REMOTE_GRACE_MS := 15_000
  const POLL_MS := 25
  const WRAPPER_EXIT_MS := 250
  const TERM_GRACE_MS := 3_000
  const KILL_GRACE_MS := 2_000
  const CLEANUP_TIMEOUT_MS := 30_000
  const LEASE_MARGIN_MS := 5_000
  const DEFAULT_LEASE_MS := 30_000

  function Max(a: int, b: int): int { if a < b then b else a }

  function Min(a: int, b: int): int { if a < b then a else b }

  function CooperativeGrace(signalDelay: Option<int>, configured: Option<int>, remote: bool): int {
    if signalDelay.Some? then signalDelay.value
    else if configured.Some? then configured.value
    else if remote then REMOTE_GRACE_MS else LOCAL_GRACE_MS
  }

  function CleanupBudget(remote: bool, helper: bool, timeout: Option<int>): int {
    if remote && helper then (if timeout.Some? then timeout.value else CLEANUP_TIMEOUT_MS) else 0
  }

  function CoordinationLease(override: Option<int>, graceMs: int, cleanupMs: int): int {
    if override.Some? then override.value
    else Max(DEFAULT_LEASE_MS,
             graceMs + WRAPPER_EXIT_MS + TERM_GRACE_MS + KILL_GRACE_MS + cleanupMs + LEASE_MARGIN_MS)
  }

  /** The longest containment branch of one pass: signals for a local group, the helper for a remote one. */
  function ContainmentMs(remote: bool, cleanupMs: int): int {
    if remote then cleanupMs else WRAPPER_EXIT_MS + TERM_GRACE_MS + KILL_GRACE_MS
  }

  /** A local pass judged without, then again with, the acknowledgement. */
  const LOCAL_TWO_PASS_MS := TERM_GRACE_MS + KILL_GRACE_MS + WRAPPER_EXIT_MS + TERM_GRACE_MS + KILL_GRACE_MS

  /**
   * Without an override the lease outlasts one pass by the margin, exactly unless a negative
   * grace below -5250 ms meets a helper budget above 25 seconds.
   */
  lemma LeaseOutlastsOnePass(signalDelay: Option<int>, configured: Option<int>, remote: bool, helper: bool,
                             timeout: Option<int>)
    ensures var graceMs := CooperativeGrace(signalDelay, configured, remote);
      var cleanupMs := CleanupBudget(remote, helper, timeout);
      CoordinationLease(None, graceMs, cleanupMs) >=
        Max(0, graceMs) + ContainmentMs(remote, cleanupMs) + LEASE_MARGIN_MS
      <==> !(graceMs < -5_250 && cleanupMs > 25_000)
  {
    var cleanupMs := CleanupBudget(remote, helper, timeout);
    if !remote {
      assert cleanupMs == 0;
    }
  }

  /** The same lease also spans the two signal passes of a local re-evaluation, with nothing to spare. */
  lemma LeaseSpansLocalReevaluation(signalDelay: Option<int>, configured: Option<int>)
    ensures var graceMs := CooperativeGrace(signalDelay, configured, false);
      && CoordinationLease(None, graceMs, 0) >= Max(0, graceMs) + LOCAL_TWO_PASS_MS
      && (graceMs >= DEFAULT_LEASE_MS ==> CoordinationLease(None, graceMs, 0) == graceMs + LOCAL_TWO_PASS_MS)
  {
  }

  /** What the defaults come to, and that a delay given with the signal comes before any setting. */
  lemma DefaultLeases(delay: int, configured: Option<int>, remote: bool)
    ensures var graceMs := CooperativeGrace(None, None, false);
      CoordinationLease(None, graceMs, CleanupBudget(false, true, None)) == 30_000 && graceMs == 1_000
    ensures var graceMs := CooperativeGrace(None, None, true);
      && CoordinationLease(None, graceMs, CleanupBudget(true, true, None)) == 55_250 && graceMs == 15_000
      && CoordinationLease(None, graceMs, CleanupBudget(true, false, None)) == 30_000
    ensures CooperativeGrace(Some(delay), configured, remote) == delay
    ensures CooperativeGrace(None, Some(delay), remote) == delay
  {
  }

  // ---------------------------------------------------------------- the polling loop

  /** What a waiting daemon can observe: a clock that sleeps push forward, and the row at each read. */
  class TaskView {
    const rows: nat -> Row
    const oversleep: nat -> nat
    var clock: int
    var sleeps: nat
    var polls: nat

    constructor (rows: nat -> Row, oversleep: nat -> nat, clock: int)
      ensures this.rows == rows && this.oversleep == oversleep && this.clock == clock && polls == 0
    {
      this.rows, this.oversleep, this.clock, sleeps, polls := rows, oversleep, clock, 0, 0;
    }

    /** A timer never fires early, and a zero timer still takes a millisecond. */
    method Sleep(ms: int)
      modifies this`clock, this`sleeps
      ensures clock == old(clock) + Max(1, ms) + oversleep(old(sleeps)) && sleeps == old(sleeps) + 1
    {
      clock := clock + Max(1, ms) + oversleep(sleeps);
      sleeps := sleeps + 1;
    }

    method Read() returns (r: Row)
      modifies this`polls
      ensures r == rows(old(polls)) && polls == old(polls) + 1
    {
      r := rows(polls);
      polls := polls + 1;
    }
  }

  /** The polled row still shows the same owner waiting for the same request's acknowledgement. */
  predicate StillWaiting(requested: Row, r: Row) {
    && r.status == Stopping
    && (if r.request.Some? then Some(r.request.value.requestedAt) else None)
       == (if requested.request.Some? then Some(requested.request.value.requestedAt) else None)
    && Token(r) == Token(requested)
    && !Quiesced(r)
  }

  /**
   * The wait answers with the requested snapshot at once, or with the last row it read: the first
   * that stopped matching, or the one on the table when the grace ran out.
   */
  method WaitForExecutorQuiescence(view: TaskView, requested: Row, graceMs: int)
    returns (current: Row, waitedMs: int)
    modifies view
    ensures waitedMs == view.clock - old(view.clock)
    ensures !requested.connected || Quiesced(requested) || Terminal(requested.status) || graceMs <= 0 ==>
      current == requested && waitedMs == 0 && view.polls == old(view.polls)
    ensures requested.connected && !Quiesced(requested) && !Terminal(requested.status) && graceMs > 0 ==>
      && old(view.polls) < view.polls
      && current == view.rows(view.polls - 1)
      && (forall i :: old(view.polls) <= i < view.polls - 1 ==> StillWaiting(requested, view.rows(i)))
      && (forall i :: old(view.polls) <= i < view.polls - 1 ==>
            var r := view.rows(i); r.status == Stopping && !Quiesced(r) && Token(r) == Token(requested))
      && (StillWaiting(requested, current) ==> waitedMs >= graceMs)
      && (waitedMs < graceMs ==>
            current.status != Stopping || Quiesced(current) || Token(current) != Token(requested)
            || current.request.Some? != requested.request.Some?
            || (current.request.Some? && current.request.value.requestedAt != requested.request.value.requestedAt))
    // Timers that never fire late wait for 25 ms each, and not beyond the grace.
    ensures requested.connected && !Quiesced(requested) && !Terminal(requested.status) && graceMs > 0 ==>
      (forall n :: view.oversleep(n) == 0) ==> waitedMs == Min(25 * (view.polls - old(view.polls)), graceMs)
  {
    current, waitedMs := requested, 0;
    if !requested.connected || Quiesced(requested) || Terminal(requested.status) || graceMs <= 0 {
      return;
    }
    var startedAt := view.clock;
    var deadline := view.clock + graceMs;
    while view.clock < deadline
      invariant startedAt == old(view.clock) && startedAt <= view.clock && old(view.polls) <= view.polls
      invariant view.polls == old(view.polls) ==> view.clock == startedAt
      invariant view.polls > old(view.polls) ==> current == view.rows(view.polls - 1)
      invariant (forall n :: view.oversleep(n) == 0) ==>
        view.clock - startedAt == Min(25 * (view.polls - old(view.polls)), graceMs)
      invariant forall i :: old(view.polls) <= i < view.polls ==> StillWaiting(requested, view.rows(i))
      decreases deadline - view.clock
    {
      view.Sleep(if deadline - view.clock < POLL_MS then deadline - view.clock else POLL_MS);
      current := view.Read();
      if !StillWaiting(requested, current) {
        return current, view.clock - startedAt;
      }
    }
    waitedMs := view.clock - startedAt;
  }
}
