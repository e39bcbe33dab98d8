/**
 * Containment of a local process group: probe, wait, SIGTERM, wait, SIGKILL, wait. The group is
 * seen only through an inspector that may answer anything; the trace records what was asked,
 * what was answered and when.
 */
module ProcessContainment {
  import opened Options

  datatype Inspection = Present | Absent | Unknown
  datatype Signal = Probe | SigTerm | SigKill
  datatype Sighting = Sighting(signal: Signal, answer: Inspection, at: int)
  datatype Containment = VerifiedAbsent | Unverified

  /** The inspector's answers in the order they are asked for, and how late each timer fires. */
  datatype Oracle = Oracle(answers: nat -> Inspection, oversleep: nat -> nat)

  /** A host between two operations. */
  datatype Watch = Watch(clock: int, sleeps: nat, trace: seq<Sighting>)

  datatype Identity = Identity(startIdentity: Option<string>, bootIdentity: Option<string>)

  /**
   * What this host reads about itself, and about the leader when the hands-off rules are weighed:
   * a live handle may have learned of its leader's exit during the cooperative wait before that.
   */
  datatype Reading = Reading(
    supported: bool, bootIdentity: Option<string>, startIdentity: Option<string>, leaderExited: bool)

  datatype Plan = Plan(recovered: bool, preSignalGraceMs: nat, termGraceMs: nat, killGraceMs: nat, pollMs: nat)

  const TERM_GRACE_MS: nat := 3_000
  const KILL_GRACE_MS: nat := 2_000
  const POLL_MS: nat := 50

  // ---------------------------------------------------------------- specification

  function Inspect(o: Oracle, w: Watch, signal: Signal): Watch {
    w.(trace := w.trace + [Sighting(signal, o.answers(|w.trace|), w.clock)])
  }

  function Last(w: Watch): Inspection
    requires w.trace != []
  {
    w.trace[|w.trace| - 1].answer
  }

  /** A zero timer still takes a millisecond. */
  function Sleep(o: Oracle, w: Watch, ms: nat): Watch {
    w.(clock := w.clock + (if ms == 0 then 1 else ms) + o.oversleep(w.sleeps), sleeps := w.sleeps + 1)
  }

  function WaitUntil(o: Oracle, w: Watch, deadline: int, pollMs: nat): (r: (bool, Watch))
    decreases deadline - w.clock
  {
    var seen := Inspect(o, w, Probe);
    if w.clock >= deadline || Last(seen) == Absent then (Last(seen) == Absent, seen)
    else WaitUntil(o, Sleep(o, seen, pollMs), deadline, pollMs)
  }

  function WaitForAbsence(o: Oracle, w: Watch, timeoutMs: nat, pollMs: nat): (bool, Watch) {
    WaitUntil(o, w, w.clock + timeoutMs, pollMs)
  }

  /** A recovered identity from another boot cannot be running. */
  predicate OtherBoot(t: Identity, here: Reading, plan: Plan) {
    plan.recovered && t.bootIdentity.Some? && here.bootIdentity.Some? && t.bootIdentity != here.bootIdentity
  }

  /** Reasons to keep hands off a group that was not seen absent. */
  predicate MayNotSignal(t: Identity, here: Reading, plan: Plan) {
    || (plan.recovered && here.leaderExited)
    || (plan.recovered && (t.bootIdentity.None? || here.bootIdentity.None?))
    || (!here.leaderExited && (t.startIdentity.None? || here.startIdentity != t.startIdentity))
  }

  /** What a signal that did not meet the group says. */
  function Refused(answer: Inspection): Containment {
    if answer == Absent then VerifiedAbsent else Unverified
  }

  function Kill(o: Oracle, plan: Plan, w: Watch): (Containment, Watch) {
    var kill := Inspect(o, w, SigKill);
    if Last(kill) != Present then (Refused(Last(kill)), kill)
    else
      var (gone, end) := WaitForAbsence(o, kill, plan.killGraceMs, plan.pollMs);
      (if gone then VerifiedAbsent else Unverified, end)
  }

  function Escalate(o: Oracle, plan: Plan, w: Watch): (Containment, Watch) {
    var term := Inspect(o, w, SigTerm);
    if Last(term) != Present then (Refused(Last(term)), term)
    else
      var (gone, waited) := WaitForAbsence(o, term, plan.termGraceMs, plan.pollMs);
      if gone then (VerifiedAbsent, waited) else Kill(o, plan, waited)
  }

  /** Everything after the group was first seen and the optional cooperative grace. */
  function Decide(o: Oracle, t: Identity, here: Reading, plan: Plan, w: Watch): (Containment, Watch)
    requires w.trace != []
  {
    if Last(w) == Unknown || MayNotSignal(t, here, plan) then (Unverified, w) else Escalate(o, plan, w)
  }

  function Contain(o: Oracle, t: Identity, here: Reading, plan: Plan, w: Watch): (Containment, Watch) {
    if !here.supported then (Unverified, w)
    else if OtherBoot(t, here, plan) then (VerifiedAbsent, w)
    else
      var first := Inspect(o, w, Probe);
      if Last(first) == Absent then (VerifiedAbsent, first)
      else if plan.preSignalGraceMs == 0 then Decide(o, t, here, plan, first)
      else
        var (gone, waited) := WaitForAbsence(o, first, plan.preSignalGraceMs, plan.pollMs);
        if gone then (VerifiedAbsent, waited)
        // The group is looked at once more; an absence seen only here is not taken as the answer.
        else Decide(o, t, here, plan, Inspect(o, waited, Probe))
  }

  // ---------------------------------------------------------------- the host

  class Host {
    const oracle: Oracle
    const reading: Reading
    var clock: int
    var sleeps: nat
    var trace: seq<Sighting>

    constructor (oracle: Oracle, reading: Reading, clock: int)
      ensures this.oracle == oracle && this.reading == reading && Now() == Watch(clock, 0, [])
    {
      this.oracle, this.reading, this.clock, sleeps, trace := oracle, reading, clock, 0, [];
    }

    ghost function Now(): Watch
      reads this
    {
      Watch(clock, sleeps, trace)
    }

    method InspectGroup(signal: Signal) returns (answer: Inspection)
      modifies this`trace
      ensures Now() == Inspect(oracle, old(Now()), signal) && answer == Last(Now())
    {
      answer := oracle.answers(|trace|);
      trace := trace + [Sighting(signal, answer, clock)];
    }

    method Pause(ms: nat)
      modifies this`clock, this`sleeps
      ensures Now() == Sleep(oracle, old(Now()), ms)
    {
      clock := clock + (if ms == 0 then 1 else ms) + oracle.oversleep(sleeps);
      sleeps := sleeps + 1;
    }

    /** The polling loop: look, sleep, and look a last time when the grace is over. */
    method AwaitAbsence(timeoutMs: nat, pollMs: nat) returns (gone: bool)
      modifies this
      ensures (gone, Now()) == WaitForAbsence(oracle, old(Now()), timeoutMs, pollMs)
    {
      var deadline := clock + timeoutMs;
      while clock < deadline
        invariant WaitUntil(oracle, Now(), deadline, pollMs) == WaitForAbsence(oracle, old(Now()), timeoutMs, pollMs)
        decreases deadline - clock
      {
        var answer := InspectGroup(Probe);
        if answer == Absent {
          return true;
        }
        Pause(pollMs);
      }
      var answer := InspectGroup(Probe);
      gone := answer == Absent;
    }

    /** The escalation, in the order of the signals. */
    method ContainIdentity(t: Identity, plan: Plan) returns (verdict: Containment)
      modifies this
      ensures (verdict, Now()) == Contain(oracle, t, reading, plan, old(Now()))
    {
      if !reading.supported {
        return Unverified;
      }
      if plan.recovered && t.bootIdentity.Some? && reading.bootIdentity.Some?
         && t.bootIdentity != reading.bootIdentity {
        return VerifiedAbsent;
      }
      var inspection := InspectGroup(Probe);
      if inspection == Absent {
        return VerifiedAbsent;
      }
      if plan.preSignalGraceMs > 0 {
        var gone := AwaitAbsence(plan.preSignalGraceMs, plan.pollMs);
        if gone {
          return VerifiedAbsent;
        }
        inspection := InspectGroup(Probe);
      }
      if inspection == Unknown {
        return Unverified;
      }
      if plan.recovered && reading.leaderExited {
        return Unverified;
      }
      if plan.recovered && (t.bootIdentity.None? || reading.bootIdentity.None?) {
        return Unverified;
      }
      if !reading.leaderExited && (t.startIdentity.None? || reading.startIdentity != t.startIdentity) {
        return Unverified;
      }
      inspection := InspectGroup(SigTerm);
      if inspection != Present {
        return if inspection == Absent then VerifiedAbsent else Unverified;
      }
      var gone := AwaitAbsence(plan.termGraceMs, plan.pollMs);
      if gone {
        return VerifiedAbsent;
      }
      inspection := InspectGroup(SigKill);
      if inspection != Present {
        return if inspection == Absent then VerifiedAbsent else Unverified;
      }
      gone := AwaitAbsence(plan.killGraceMs, plan.pollMs);
      verdict := if gone then VerifiedAbsent else Unverified;
    }
  }

  // ---------------------------------------------------------------- what a wait sees

  /** The later watch kept the trace and added only answers the inspector really gave. */
  ghost predicate Extends(o: Oracle, w: Watch, w': Watch) {
    && w.trace <= w'.trace && w.clock <= w'.clock
    && forall i :: |w.trace| <= i < |w'.trace| ==> w'.trace[i].answer == o.answers(i)
  }

  ghost predicate OnlyProbes(w: Watch, w': Watch) {
    forall i :: |w.trace| <= i < |w'.trace| ==> w'.trace[i].signal == Probe
  }

  /** A wait probes at least once, answers what it saw last, and gives up only after the full time. */
  lemma {:induction false} WaitSees(o: Oracle, w: Watch, deadline: int, pollMs: nat)
    ensures var (gone, w') := WaitUntil(o, w, deadline, pollMs);
      && Extends(o, w, w') && OnlyProbes(w, w') && |w.trace| < |w'.trace|
      && (gone <==> Last(w') == Absent)
      && (!gone ==>
            && w'.clock >= deadline
            && forall i :: |w.trace| <= i < |w'.trace| ==> w'.trace[i].answer != Absent)
    decreases deadline - w.clock
  {
    var seen := Inspect(o, w, Probe);
    if w.clock < deadline && Last(seen) != Absent {
      var slept := Sleep(o, seen, pollMs);
      WaitSees(o, slept, deadline, pollMs);
      var w' := WaitUntil(o, slept, deadline, pollMs).1;
      assert w'.trace[|w.trace|] == seen.trace[|w.trace|];
    }
  }

  /** Looks of one wait are at least a poll apart, and time passes between them. */
  lemma {:induction false} PollsAreSpaced(o: Oracle, w: Watch, deadline: int, pollMs: nat)
    ensures var w' := WaitUntil(o, w, deadline, pollMs).1;
      && w.trace <= w'.trace && |w.trace| < |w'.trace| && w'.trace[|w.trace|].at == w.clock
      && forall i :: |w.trace| < i < |w'.trace| ==>
           w'.trace[i].at > w'.trace[i - 1].at && w'.trace[i].at >= w'.trace[i - 1].at + pollMs
    decreases deadline - w.clock
  {
    var seen := Inspect(o, w, Probe);
    if w.clock < deadline && Last(seen) != Absent {
      PollsAreSpaced(o, Sleep(o, seen, pollMs), deadline, pollMs);
      var w' := WaitUntil(o, w, deadline, pollMs).1;
      assert w'.trace[|w.trace|] == seen.trace[|w.trace|];
    }
  }

  // ---------------------------------------------------------------- what the escalation promises

  /** The sighting at `k` follows a SIGTERM that met the group and a full wait that saw no absence. */
  ghost predicate EarnedKill(trace: seq<Sighting>, from: nat, k: nat, termGraceMs: nat) {
    exists j :: from <= j < k < |trace| && Earns(trace, j, k, termGraceMs)
  }

  ghost predicate Earns(trace: seq<Sighting>, j: nat, k: nat, termGraceMs: nat)
    requires j < k < |trace|
  {
    && trace[j].signal == SigTerm && trace[j].answer == Present
    && trace[k].at >= trace[j].at + termGraceMs
    && (forall i :: j < i < k ==> trace[i].signal == Probe && trace[i].answer != Absent)
  }

  /** Signals are sent in order, each at most once, and SIGKILL only when earned. */
  ghost predicate Disciplined(plan: Plan, trace: seq<Sighting>, from: nat) {
    && (forall j, k :: from <= j < k < |trace| && trace[j].signal != Probe && trace[k].signal != Probe ==>
          trace[j].signal == SigTerm && trace[k].signal == SigKill)
    && (forall k :: from <= k < |trace| && trace[k].signal == SigKill ==>
          EarnedKill(trace, from, k, plan.termGraceMs))
  }

  /** One SIGTERM, then at most one earned SIGKILL at `m`, and looks in between. */
  lemma InOrder(plan: Plan, trace: seq<Sighting>, n: nat, m: nat)
    requires n < m <= |trace| && trace[n].signal == SigTerm
    requires forall i :: n < i < |trace| && i != m ==> trace[i].signal == Probe
    requires m < |trace| ==> trace[m].signal == SigKill && Earns(trace, n, m, plan.termGraceMs)
    ensures Disciplined(plan, trace, n)
  {
  }

  lemma KillIsEarned(o: Oracle, plan: Plan, n: nat, waited: Watch)
    requires n < |waited.trace| && waited.trace[n].signal == SigTerm && waited.trace[n].answer == Present
    requires waited.clock >= waited.trace[n].at + plan.termGraceMs
    requires forall i :: n < i < |waited.trace| ==> waited.trace[i].signal == Probe && waited.trace[i].answer != Absent
    ensures var (verdict, end) := Kill(o, plan, waited);
      && Extends(o, waited, end) && Disciplined(plan, end.trace, n)
      && |waited.trace| < |end.trace| && (verdict.VerifiedAbsent? <==> Last(end) == Absent)
  {
    var m := |waited.trace|;
    var kill := Inspect(o, waited, SigKill);
    if Last(kill) == Present {
      WaitSees(o, kill, kill.clock + plan.killGraceMs, plan.pollMs);
    }
    var end := Kill(o, plan, waited).1;
    assert kill.trace <= end.trace;
    assert forall i :: 0 <= i <= m ==> end.trace[i] == kill.trace[i];
    InOrder(plan, end.trace, n, m);
  }

  lemma EscalationIsEarned(o: Oracle, plan: Plan, w: Watch)
    ensures var (verdict, w') := Escalate(o, plan, w);
      && Extends(o, w, w') && |w.trace| < |w'.trace| && w'.trace[|w.trace|].signal == SigTerm
      && (verdict.VerifiedAbsent? <==> Last(w') == Absent)
      && Disciplined(plan, w'.trace, |w.trace|)
  {
    var term := Inspect(o, w, SigTerm);
    if Last(term) == Present {
      TermIsEarned(o, plan, w);
    } else {
      InOrder(plan, term.trace, |w.trace|, |term.trace|);
    }
  }

  lemma TermIsEarned(o: Oracle, plan: Plan, w: Watch)
    requires Last(Inspect(o, w, SigTerm)) == Present
    ensures var (verdict, w') := Escalate(o, plan, w);
      && Extends(o, w, w') && |w.trace| < |w'.trace| && w'.trace[|w.trace|].signal == SigTerm
      && (verdict.VerifiedAbsent? <==> Last(w') == Absent)
      && Disciplined(plan, w'.trace, |w.trace|)
  {
    var term := Inspect(o, w, SigTerm);
    var n := |w.trace|;
    WaitSees(o, term, term.clock + plan.termGraceMs, plan.pollMs);
    var (gone, waited) := WaitForAbsence(o, term, plan.termGraceMs, plan.pollMs);
    assert waited.trace[n] == Sighting(SigTerm, Present, w.clock);
    if gone {
      InOrder(plan, waited.trace, n, |waited.trace|);
    } else {
      KillIsEarned(o, plan, n, waited);
      Chained(o, w, waited, Kill(o, plan, waited).1);
    }
  }

  // ---------------------------------------------------------------- the escalation goes all the way

  /**
   * A SIGTERM that met the group is followed by an absence or by SIGKILL; a SIGKILL that met it, by an
   * absence or a look made when the full grace was over.
   */
  ghost predicate GoesAllTheWay(plan: Plan, trace: seq<Sighting>, from: nat) {
    && (forall j :: from <= j < |trace| && trace[j].signal == SigTerm && trace[j].answer == Present ==>
          AbsentAfter(trace, j) || KilledAfter(trace, j))
    && (forall k :: from <= k < |trace| && trace[k].signal == SigKill && trace[k].answer == Present ==>
          AbsentAfter(trace, k) || trace[|trace| - 1].at >= trace[k].at + plan.killGraceMs)
  }

  ghost predicate AbsentAfter(trace: seq<Sighting>, j: nat) {
    exists i :: j < i < |trace| && trace[i].answer == Absent
  }

  ghost predicate KilledAfter(trace: seq<Sighting>, j: nat) {
    exists k :: j < k < |trace| && trace[k].signal == SigKill
  }

  lemma {:induction false} LastLookIsNow(o: Oracle, w: Watch, deadline: int, pollMs: nat)
    ensures var w' := WaitUntil(o, w, deadline, pollMs).1;
      w'.trace != [] && w'.trace[|w'.trace| - 1].at == w'.clock
    decreases deadline - w.clock
  {
    var seen := Inspect(o, w, Probe);
    if w.clock < deadline && Last(seen) != Absent {
      LastLookIsNow(o, Sleep(o, seen, pollMs), deadline, pollMs);
    }
  }

  lemma KillGoesAllTheWay(o: Oracle, plan: Plan, w: Watch)
    ensures var end := Kill(o, plan, w).1;
      && GoesAllTheWay(plan, end.trace, |w.trace|) && Extends(o, w, end)
      && |w.trace| < |end.trace| && end.trace[|w.trace|].signal == SigKill
  {
    var kill := Inspect(o, w, SigKill);
    if Last(kill) == Present {
      WaitSees(o, kill, kill.clock + plan.killGraceMs, plan.pollMs);
      LastLookIsNow(o, kill, kill.clock + plan.killGraceMs, plan.pollMs);
      var end := Kill(o, plan, w).1;
      assert end.trace[|w.trace|] == kill.trace[|w.trace|];
    }
  }

  lemma EscalationGoesAllTheWay(o: Oracle, plan: Plan, w: Watch)
    ensures GoesAllTheWay(plan, Escalate(o, plan, w).1.trace, |w.trace|)
  {
    var term := Inspect(o, w, SigTerm);
    if Last(term) == Present {
      WaitSees(o, term, term.clock + plan.termGraceMs, plan.pollMs);
      var (gone, waited) := WaitForAbsence(o, term, plan.termGraceMs, plan.pollMs);
      assert waited.trace[|w.trace|] == term.trace[|w.trace|];
      if gone {
        assert waited.trace[|waited.trace| - 1].answer == Absent;
      } else {
        KillGoesAllTheWay(o, plan, waited);
        KillFollows(plan, Kill(o, plan, waited).1.trace, |w.trace|, waited.trace);
      }
    }
  }

  /** A SIGTERM, looks, and then a SIGKILL that goes all the way. */
  lemma KillFollows(plan: Plan, trace: seq<Sighting>, n: nat, before: seq<Sighting>)
    requires n < |before| < |trace| && before <= trace
    requires forall i :: n < i < |before| ==> before[i].signal == Probe
    requires before[n].signal == SigTerm && trace[|before|].signal == SigKill
    requires GoesAllTheWay(plan, trace, |before|)
    ensures GoesAllTheWay(plan, trace, n)
  {
    assert forall i :: 0 <= i < |before| ==> trace[i] == before[i];
    assert KilledAfter(trace, n);
  }

  lemma Chained(o: Oracle, w: Watch, v: Watch, w': Watch)
    requires Extends(o, w, v) && Extends(o, v, w')
    ensures Extends(o, w, w') && forall i :: 0 <= i < |v.trace| ==> w'.trace[i] == v.trace[i]
  {
  }

  /** The two looks of a plan with a cooperative grace: the wait found nothing, the look after it did. */
  predicate LateAbsence(o: Oracle, plan: Plan, w: Watch) {
    && plan.preSignalGraceMs > 0
    && var first := Inspect(o, w, Probe);
       var (gone, waited) := WaitForAbsence(o, first, plan.preSignalGraceMs, plan.pollMs);
       Last(first) != Absent && !gone && Last(Inspect(o, waited, Probe)) == Absent
  }

  /** The state in which the hands-off rules are weighed, when the run gets that far. */
  predicate Reaches(o: Oracle, t: Identity, here: Reading, plan: Plan, w: Watch, seen: Watch) {
    && here.supported && !OtherBoot(t, here, plan)
    && var first := Inspect(o, w, Probe);
       && Last(first) != Absent
       && if plan.preSignalGraceMs == 0 then seen == first
          else var (gone, waited) := WaitForAbsence(o, first, plan.preSignalGraceMs, plan.pollMs);
               !gone && seen == Inspect(o, waited, Probe)
  }

  /** Up to the hands-off rules a run only looks. */
  lemma LooksFirst(o: Oracle, t: Identity, here: Reading, plan: Plan, w: Watch) returns (seen: Option<Watch>)
    ensures seen.Some? ==>
      && Reaches(o, t, here, plan, w, seen.value)
      && Extends(o, w, seen.value) && OnlyProbes(w, seen.value) && |w.trace| < |seen.value.trace|
      && (Last(seen.value) == Absent <==> LateAbsence(o, plan, w))
      && Contain(o, t, here, plan, w) == Decide(o, t, here, plan, seen.value)
    ensures seen.None? ==>
      var (verdict, w') := Contain(o, t, here, plan, w);
      && (forall s :: !Reaches(o, t, here, plan, w, s))
      && (here.supported && !OtherBoot(t, here, plan) ==> !LateAbsence(o, plan, w))
      && Extends(o, w, w') && OnlyProbes(w, w')
      && (if !here.supported then verdict.Unverified? && w' == w
          else verdict.VerifiedAbsent? &&
               (if OtherBoot(t, here, plan) then w' == w else |w.trace| < |w'.trace| && Last(w') == Absent))
  {
    var first := Inspect(o, w, Probe);
    if !here.supported || OtherBoot(t, here, plan) || Last(first) == Absent {
      seen := None;
    } else if plan.preSignalGraceMs == 0 {
      seen := Some(first);
    } else {
      WaitSees(o, first, first.clock + plan.preSignalGraceMs, plan.pollMs);
      var (gone, waited) := WaitForAbsence(o, first, plan.preSignalGraceMs, plan.pollMs);
      seen := if gone then None else Some(Inspect(o, waited, Probe));
    }
  }

  /** A verdict of absence rests on another boot or on the last look, and every signal was earned. */
  lemma ContainmentIsJustified(o: Oracle, t: Identity, here: Reading, plan: Plan, w: Watch)
    ensures var (verdict, w') := Contain(o, t, here, plan, w);
      && Extends(o, w, w')
      && Disciplined(plan, w'.trace, |w.trace|)
      && (verdict.VerifiedAbsent? ==>
            && here.supported
            && if OtherBoot(t, here, plan) then w' == w else |w.trace| < |w'.trace| && Last(w') == Absent)
  {
    var seen := LooksFirst(o, t, here, plan, w);
    if seen.Some? && Last(seen.value) != Unknown && !MayNotSignal(t, here, plan) {
      EscalationIsEarned(o, plan, seen.value);
      var w' := Escalate(o, plan, seen.value).1;
      Chained(o, w, seen.value, w');
    }
  }

  /**
   * Whatever the inspector answers, a signal that met the group is followed up to its end, and a group
   * last seen there after a signal that met it is only given up as unverified when that grace is over.
   */
  lemma ContainmentGoesAllTheWay(o: Oracle, t: Identity, here: Reading, plan: Plan, w: Watch)
    ensures GoesAllTheWay(plan, Contain(o, t, here, plan, w).1.trace, |w.trace|)
  {
    var seen := LooksFirst(o, t, here, plan, w);
    if seen.Some? && Last(seen.value) != Unknown && !MayNotSignal(t, here, plan) {
      EscalationIsEarned(o, plan, seen.value);
      EscalationGoesAllTheWay(o, plan, seen.value);
      var w' := Escalate(o, plan, seen.value).1;
      Chained(o, w, seen.value, w');
    }
  }

  /** The one absence nobody looked for: a recovered identity known to be of another boot than this one. */
  lemma OnlyAnotherBootNeedsNoLook(o: Oracle, t: Identity, here: Reading, plan: Plan, w: Watch)
    ensures Contain(o, t, here, plan, w) == (VerifiedAbsent, w) <==>
      && here.supported && plan.recovered && t.bootIdentity.Some? && here.bootIdentity.Some?
      && t.bootIdentity != here.bootIdentity
  {
    var seen := LooksFirst(o, t, here, plan, w);
    ContainmentIsJustified(o, t, here, plan, w);
  }

  /** Signals go out exactly when the run gets past its looks and no hands-off rule applies. */
  lemma SignalsExactlyWhenAllowed(o: Oracle, t: Identity, here: Reading, plan: Plan, w: Watch)
    ensures var w' := Contain(o, t, here, plan, w).1;
      !OnlyProbes(w, w') <==>
        !MayNotSignal(t, here, plan) && exists s :: Reaches(o, t, here, plan, w, s) && Last(s) != Unknown
    ensures MayNotSignal(t, here, plan) ==> OnlyProbes(w, Contain(o, t, here, plan, w).1)
  {
    var seen := LooksFirst(o, t, here, plan, w);
    if seen.Some? && Last(seen.value) != Unknown && !MayNotSignal(t, here, plan) {
      EscalationIsEarned(o, plan, seen.value);
      var w' := Escalate(o, plan, seen.value).1;
      assert w'.trace[|seen.value.trace|].signal == SigTerm;
    }
  }

  /**
   * Signals go out exactly when the looks leave the group possibly there and it is the stored process's: its
   * leader has the stored start identity, or is known to have exited and left the group to this daemon; and
   * a recovered identity is known to be of this boot, with its leader still there.
   */
  lemma SignalsMeetTheStoredProcess(o: Oracle, t: Identity, here: Reading, plan: Plan, w: Watch)
    ensures !OnlyProbes(w, Contain(o, t, here, plan, w).1) <==>
      && (here.leaderExited || (t.startIdentity.Some? && here.startIdentity == t.startIdentity))
      && (plan.recovered ==> !here.leaderExited && t.bootIdentity.Some? && here.bootIdentity == t.bootIdentity)
      && exists s :: Reaches(o, t, here, plan, w, s) && Last(s) != Unknown
  {
    SignalsExactlyWhenAllowed(o, t, here, plan, w);
  }

  /**
   * The look after the cooperative grace is the one look whose absence does not end the run: such a
   * group is reported unverified when it may not be signalled, and is sent SIGTERM when it may.
   */
  lemma LateAbsenceIsNotTaken(o: Oracle, t: Identity, here: Reading, plan: Plan, w: Watch)
    requires here.supported && !OtherBoot(t, here, plan)
    ensures var (verdict, w') := Contain(o, t, here, plan, w);
      && |w.trace| < |w'.trace|
      && (verdict.Unverified? && Last(w') == Absent <==> LateAbsence(o, plan, w) && MayNotSignal(t, here, plan))
      && (LateAbsence(o, plan, w) && !MayNotSignal(t, here, plan) <==>
          exists k :: |w.trace| < k < |w'.trace| && w'.trace[k].signal == SigTerm && w'.trace[k - 1].answer == Absent)
  {
    var seen := LooksFirst(o, t, here, plan, w);
    if seen.Some? {
      if Last(seen.value) != Unknown && !MayNotSignal(t, here, plan) {
        EscalationIsEarned(o, plan, seen.value);
        var n := |seen.value.trace|;
        var w' := Escalate(o, plan, seen.value).1;
        assert w'.trace[n].signal == SigTerm && w'.trace[n - 1] == seen.value.trace[n - 1];
      }
    }
  }

  /** A group that disappears between the last poll and the extra look, with its leader's identity unread. */
  lemma LateAbsenceHappens()
    ensures exists o: Oracle, t: Identity, here: Reading, plan: Plan, w: Watch ::
      && here.supported && !OtherBoot(t, here, plan)
      && var (verdict, w') := Contain(o, t, here, plan, w);
         verdict.Unverified? && |w'.trace| == 4 && Last(w') == Absent
  {
    var o := Oracle(k => if k < 3 then Present else Absent, n => 0);
    var t := Identity(Some("s"), None);
    var here := Reading(true, None, None, false);
    var plan := Plan(false, 1, TERM_GRACE_MS, KILL_GRACE_MS, POLL_MS);
    var w := Watch(0, 0, []);
    var first := Inspect(o, w, Probe);
    var polled := Sleep(o, Inspect(o, first, Probe), POLL_MS);
    var waited := Inspect(o, polled, Probe);
    assert WaitUntil(o, polled, 1, POLL_MS) == (false, waited);
    assert WaitForAbsence(o, first, 1, POLL_MS) == (false, waited);
    assert Contain(o, t, here, plan, w) == (Unverified, Inspect(o, waited, Probe));
  }

  // ---------------------------------------------------------------- the world behind the inspector

  /**
   * `running(k)` is the truth at the k-th look. An absent answer is never wrong, a group once empty
   * stays empty, and nothing outlives a reboot.
   */
  ghost predicate Truthful(o: Oracle, t: Identity, here: Reading, plan: Plan, running: nat -> bool) {
    && (forall k :: o.answers(k) == Absent ==> !running(k))
    && (forall j, k :: j <= k && running(k) ==> running(j))
    && (OtherBoot(t, here, plan) ==> !running(0))
  }

  /** Whatever else a truthful inspector answers, a verdict of absence is the truth from then on. */
  lemma VerifiedIsGone(o: Oracle, t: Identity, here: Reading, plan: Plan, w: Watch, running: nat -> bool)
    requires Truthful(o, t, here, plan, running)
    ensures var (verdict, w') := Contain(o, t, here, plan, w);
      verdict.VerifiedAbsent? ==> forall k :: k >= |w'.trace| ==> !running(k)
  {
    ContainmentIsJustified(o, t, here, plan, w);
    var (verdict, w') := Contain(o, t, here, plan, w);
    if verdict.VerifiedAbsent? && !OtherBoot(t, here, plan) {
      assert o.answers(|w'.trace| - 1) == Absent;
    }
  }
}
