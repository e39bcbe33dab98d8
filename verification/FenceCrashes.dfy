/**
 * One fence directory under crashes. File contents and directory entries become durable only when
 * they are synced; the daemon may stop between any two file-system calls, losing its memory but
 * not the writers it started.
 */
module FenceCrashes {
  import opened Options

  /** A file's name fixes what a complete write puts in it; names are never shared or reused. */
  datatype Name = IntentOf(slot: nat) | IdentityOf(writer: nat)

  /**
   * `files` is what a reader sees now, and whether the contents parse as a complete record.
   * `loose` names have contents, `drifting` names an entry or a removal, that a crash may undo.
   */
  datatype Disk = Disk(files: map<Name, bool>, loose: set<Name>, drifting: set<Name>)

  /** How far a mutation slot has come; each stage is one call of the protocol further on. */
  datatype Stage = IntentOpened | IntentFilled | IntentSynced | Reserved
                 | IdentityOpened | IdentityFilled | IdentitySynced | Retained
                 | IntentRemoved | Released

  datatype Slot = Slot(stage: Stage, writer: Option<nat>)

  /** One verification pass: files still to look at, no failure so far, writers born before it listed. */
  datatype Pass = Pass(todo: set<Name>, ok: bool, born: set<nat>)

  /** `owner` remembers, across crashes, the slot each writer was started under. */
  datatype World = World(
    disk: Disk,
    slots: map<nat, Slot>,
    passes: map<nat, Pass>,
    owner: map<nat, nat>,
    running: set<nat>)

  datatype Action =
    | Open(slot: nat)
    | Fill(slot: nat)
    | SyncFile(slot: nat)
    | SyncEntry(slot: nat)
    | Start(slot: nat, writer: nat)
    | OpenIdentity(slot: nat)
    | FillIdentity(slot: nat)
    | SyncIdentity(slot: nat)
    | SyncIdentityEntry(slot: nat)
    | RemoveIntent(slot: nat)
    | RemoveUnusedIntent(slot: nat)
    | SyncRelease(slot: nat)
    | WriterEnds(writer: nat)
    | List(pass: nat)
    | Look(pass: nat, name: Name, removed: bool)
    | SyncPass(pass: nat)
    | Crash(disk: Disk, survivors: set<nat>)

  // ---------------------------------------------------------------- the disk

  function Create(d: Disk, n: Name): Disk {
    d.(files := d.files[n := false], loose := d.loose + {n}, drifting := d.drifting + {n})
  }

  function Write(d: Disk, n: Name): Disk
    requires n in d.files
  {
    d.(files := d.files[n := true])
  }

  function SyncedFile(d: Disk, n: Name): Disk { d.(loose := d.loose - {n}) }

  function SyncedEntries(d: Disk): Disk { d.(drifting := {}) }

  function Remove(d: Disk, n: Name): Disk {
    d.(files := d.files - {n}, drifting := d.drifting + {n})
  }

  /** Anything a crash may leave: undecided entries either way, undecided contents possibly broken. */
  ghost predicate AfterCrash(d: Disk, d': Disk) {
    && d'.loose == {} && d'.drifting == {}
    && (forall n :: n !in d.drifting ==> (n in d'.files <==> n in d.files))
    && (forall n :: n in d.files && n in d'.files && n !in d.loose ==> d'.files[n] == d.files[n])
  }

  // ---------------------------------------------------------------- steps

  ghost predicate At(w: World, slot: nat, stage: Stage) {
    slot in w.slots && w.slots[slot].stage == stage
  }

  ghost predicate Enabled(w: World, a: Action) {
    match a
    // The intent's random id is new.
    case Open(s) => s !in w.slots && IntentOf(s) !in w.disk.files && IntentOf(s) !in w.disk.drifting
                    && (forall x <- w.owner :: w.owner[x] != s)
    case Fill(s) => At(w, s, IntentOpened) && IntentOf(s) in w.disk.files
    case SyncFile(s) => At(w, s, IntentFilled)
    case SyncEntry(s) => At(w, s, IntentSynced)
    // A slot's writer is started once its reservation has returned.
    case Start(s, x) => At(w, s, Reserved) && w.slots[s].writer == None && x !in w.owner
    // Attaching may be tried again after any call of an earlier try has failed.
    case OpenIdentity(s) => s in w.slots && w.slots[s].writer.Some? &&
                            w.slots[s].stage in {Reserved, IdentityOpened, IdentityFilled, IdentitySynced, Retained}
    case FillIdentity(s) => At(w, s, IdentityOpened) && w.slots[s].writer.Some?
                            && IdentityOf(w.slots[s].writer.value) in w.disk.files
    case SyncIdentity(s) => At(w, s, IdentityFilled) && w.slots[s].writer.Some?
    case SyncIdentityEntry(s) => At(w, s, IdentitySynced)
    case RemoveIntent(s) => At(w, s, Retained)
    // Without an attached writer the caller has to know that none runs.
    case RemoveUnusedIntent(s) =>
      && s in w.slots
      && w.slots[s].stage in {Reserved, IdentityOpened, IdentityFilled, IdentitySynced, Retained}
      && (w.slots[s].writer.Some? ==> w.slots[s].writer.value !in w.running)
    case SyncRelease(s) => At(w, s, IntentRemoved)
    case WriterEnds(x) => x in w.running
    case List(v) => v !in w.passes
    // A readable identity is only ever cleared when its process is gone.
    case Look(v, n, removed) => v in w.passes && n in w.passes[v].todo &&
                                (removed ==> Clearable(w, n))
    case SyncPass(v) => v in w.passes
    case Crash(d, survivors) => AfterCrash(w.disk, d) && survivors <= w.running
  }

  ghost predicate Clearable(w: World, n: Name) {
    n.IdentityOf? && n in w.disk.files && w.disk.files[n] && n.writer !in w.running
  }

  function Moved(w: World, slot: nat, stage: Stage): World
    requires slot in w.slots
  {
    w.(slots := w.slots[slot := w.slots[slot].(stage := stage)])
  }

  ghost function Apply(w: World, a: Action): World
    requires Enabled(w, a)
  {
    match a
    case Open(s) => w.(disk := Create(w.disk, IntentOf(s)), slots := w.slots[s := Slot(IntentOpened, None)])
    case Fill(s) => Moved(w, s, IntentFilled).(disk := Write(w.disk, IntentOf(s)))
    case SyncFile(s) => Moved(w, s, IntentSynced).(disk := SyncedFile(w.disk, IntentOf(s)))
    case SyncEntry(s) => Moved(w, s, Reserved).(disk := SyncedEntries(w.disk))
    case Start(s, x) => w.(slots := w.slots[s := Slot(Reserved, Some(x))],
                           owner := w.owner[x := s], running := w.running + {x})
    case OpenIdentity(s) =>
      // An identity that is already there is left alone.
      var n := IdentityOf(w.slots[s].writer.value);
      if n in w.disk.files then Moved(w, s, IdentitySynced)
      else Moved(w, s, IdentityOpened).(disk := Create(w.disk, n))
    case FillIdentity(s) => Moved(w, s, IdentityFilled).(disk := Write(w.disk, IdentityOf(w.slots[s].writer.value)))
    case SyncIdentity(s) =>
      Moved(w, s, IdentitySynced).(disk := SyncedFile(w.disk, IdentityOf(w.slots[s].writer.value)))
    case SyncIdentityEntry(s) => Moved(w, s, Retained).(disk := SyncedEntries(w.disk))
    case RemoveIntent(s) => Moved(w, s, IntentRemoved).(disk := Remove(w.disk, IntentOf(s)))
    case RemoveUnusedIntent(s) => Moved(w, s, IntentRemoved).(disk := Remove(w.disk, IntentOf(s)))
    case SyncRelease(s) => Moved(w, s, Released).(disk := SyncedEntries(w.disk))
    case WriterEnds(x) => w.(running := w.running - {x})
    case List(v) => w.(passes := w.passes[v := Pass(w.disk.files.Keys, true, w.owner.Keys)])
    case Look(v, n, removed) =>
      var p := w.passes[v];
      var looked := p.(todo := p.todo - {n}, ok := p.ok && removed);
      w.(passes := w.passes[v := looked], disk := if removed then Remove(w.disk, n) else w.disk)
    case SyncPass(v) => w.(disk := SyncedEntries(w.disk))
    case Crash(d, survivors) => w.(disk := d, slots := map[], passes := map[], running := survivors)
  }

  function Initial(): World { World(Disk(map[], {}, {}), map[], map[], map[], {}) }

  ghost predicate CanRun(w: World, run: seq<Action>)
    decreases |run|
  {
    run == [] || (Enabled(w, run[0]) && CanRun(Apply(w, run[0]), run[1..]))
  }

  ghost function Run(w: World, run: seq<Action>): World
    requires CanRun(w, run)
    decreases |run|
  {
    if run == [] then w else Run(Apply(w, run[0]), run[1..])
  }

  // ---------------------------------------------------------------- invariant

  /** The name is in the directory now and stays there through a crash. */
  ghost predicate Held(d: Disk, n: Name) { n in d.files && n !in d.drifting }

  ghost predicate Recorded(w: World, x: nat)
    requires x in w.owner
  {
    Held(w.disk, IdentityOf(x)) || Held(w.disk, IntentOf(w.owner[x]))
  }

  /** Every writer that may still run has a durable record. */
  ghost predicate WritersOk(w: World) {
    w.running <= w.owner.Keys && forall x <- w.running :: Recorded(w, x)
  }

  ghost predicate SlotOk(w: World, s: nat)
    requires s in w.slots
  {
    var slot := w.slots[s];
    && (forall x <- w.owner :: w.owner[x] == s ==> slot.writer == Some(x))
    && (slot.writer.Some? ==> slot.writer.value in w.owner && w.owner[slot.writer.value] == s)
    && (slot.stage in {IntentOpened, IntentFilled, IntentSynced} ==> slot.writer.None? && IntentOf(s) in w.disk.files)
    && (slot.stage in {Reserved, IdentityOpened, IdentityFilled, IdentitySynced, Retained} ==>
          Held(w.disk, IntentOf(s)))
    && (slot.stage in {IdentityOpened, IdentityFilled, IdentitySynced, Retained} ==> slot.writer.Some?)
    && (slot.stage in {IdentityOpened, IdentityFilled, IdentitySynced} && slot.writer.value in w.running ==>
          IdentityOf(slot.writer.value) in w.disk.files)
    && (slot.stage == Retained && slot.writer.value in w.running ==> Held(w.disk, IdentityOf(slot.writer.value)))
  }

  ghost predicate SlotsOk(w: World) { forall s <- w.slots :: SlotOk(w, s) }

  /** A pass that has not failed still has to meet a record of every writer it must answer for. */
  ghost predicate PassOk(w: World, p: Pass) {
    && p.born <= w.owner.Keys
    && (p.ok ==> forall x <- p.born :: x in w.running ==>
          IdentityOf(x) in p.todo || IntentOf(w.owner[x]) in p.todo)
  }

  ghost predicate PassesOk(w: World) { forall v <- w.passes :: PassOk(w, w.passes[v]) }

  ghost predicate Inv(w: World) { WritersOk(w) && SlotsOk(w) && PassesOk(w) }

  lemma StepKeepsWriters(w: World, a: Action)
    requires Inv(w) && Enabled(w, a)
    ensures WritersOk(Apply(w, a))
  {
    var w' := Apply(w, a);
    forall x | x in w'.running ensures Recorded(w', x) {
      if a.Start? && x == a.writer {
        assert Held(w.disk, IntentOf(a.slot));
      } else {
        assert Recorded(w, x);
        if (a.RemoveIntent? || a.RemoveUnusedIntent?) && w.owner[x] == a.slot {
          assert SlotOk(w, a.slot);
        }
      }
    }
  }

  /** The calls of attaching a writer and of releasing an intent. */
  predicate Attaches(a: Action) {
    a.OpenIdentity? || a.FillIdentity? || a.SyncIdentity? || a.SyncIdentityEntry?
    || a.RemoveIntent? || a.RemoveUnusedIntent? || a.SyncRelease?
  }

  lemma AttachingKeepsSlot(w: World, a: Action, s: nat)
    requires Inv(w) && Enabled(w, a) && s in w.slots && Attaches(a)
    ensures SlotOk(Apply(w, a), s)
  {
    assert SlotOk(w, s) && SlotOk(w, a.slot);
  }

  lemma OtherStepKeepsSlot(w: World, a: Action, s: nat)
    requires Inv(w) && Enabled(w, a) && s in w.slots && s in Apply(w, a).slots && !Attaches(a)
    ensures SlotOk(Apply(w, a), s)
  {
    assert SlotOk(w, s);
  }

  lemma StepKeepsSlots(w: World, a: Action)
    requires Inv(w) && Enabled(w, a)
    ensures SlotsOk(Apply(w, a))
  {
    forall s | s in Apply(w, a).slots ensures SlotOk(Apply(w, a), s) {
      if s !in w.slots {
        assert a.Open? && s == a.slot;
      } else if Attaches(a) {
        AttachingKeepsSlot(w, a, s);
      } else {
        OtherStepKeepsSlot(w, a, s);
      }
    }
  }

  lemma StepKeepsPasses(w: World, a: Action)
    requires Inv(w) && Enabled(w, a)
    ensures PassesOk(Apply(w, a))
  {
    var w' := Apply(w, a);
    forall v | v in w'.passes ensures PassOk(w', w'.passes[v]) {
      if v in w.passes {
        assert PassOk(w, w.passes[v]);
      }
    }
  }

  lemma {:induction false} RunKeepsInvariant(w: World, run: seq<Action>)
    requires Inv(w) && CanRun(w, run)
    ensures Inv(Run(w, run))
    decreases |run|
  {
    if run != [] {
      StepKeepsWriters(w, run[0]);
      StepKeepsSlots(w, run[0]);
      StepKeepsPasses(w, run[0]);
      RunKeepsInvariant(Apply(w, run[0]), run[1..]);
    }
  }

  // ---------------------------------------------------------------- theorems

  ghost predicate Reachable(w: World) {
    exists run :: CanRun(Initial(), run) && Run(Initial(), run) == w
  }

  /** Wherever the daemon stops, every writer that may still run has a record on the disk it finds again. */
  lemma CrashLeavesARecord(w: World, found: Disk)
    requires Reachable(w) && AfterCrash(w.disk, found)
    ensures forall x <- w.running ::
      x in w.owner && (IdentityOf(x) in found.files || IntentOf(w.owner[x]) in found.files)
  {
    var run :| CanRun(Initial(), run) && Run(Initial(), run) == w;
    RunKeepsInvariant(Initial(), run);
    assert forall x <- w.running :: Recorded(w, x);
  }

  /** A pass that looked at everything it listed without a failure. */
  ghost predicate Passed(p: Pass) { p.todo == {} && p.ok }

  /**
   * When a pass succeeds, no writer started before it listed the directory is running, in this
   * daemon's time or before any earlier crash; with no start since, nothing runs at all.
   */
  lemma PassedMeansGone(w: World, v: nat)
    requires Reachable(w) && v in w.passes && Passed(w.passes[v])
    ensures w.running !! w.passes[v].born
    ensures w.passes[v].born == w.owner.Keys ==> w.running == {}
  {
    var run :| CanRun(Initial(), run) && Run(Initial(), run) == w;
    RunKeepsInvariant(Initial(), run);
    assert PassOk(w, w.passes[v]);
    assert WritersOk(w);
  }

  /** An intent whose daemon died, and that no pass listed since the crash has left behind. */
  ghost predicate Abandoned(w: World, s: nat) {
    && Held(w.disk, IntentOf(s)) && s !in w.slots
    && forall v <- w.passes :: w.passes[v].ok ==> IntentOf(s) in w.passes[v].todo
  }

  /** It survives everything that can happen later, further crashes included, and no pass succeeds again. */
  lemma {:induction false} AbandonedIntentBlocks(w: World, s: nat, run: seq<Action>)
    requires Abandoned(w, s) && CanRun(w, run)
    ensures Abandoned(Run(w, run), s)
    ensures forall v <- Run(w, run).passes :: !Passed(Run(w, run).passes[v])
    decreases |run|
  {
    if run != [] {
      assert Abandoned(Apply(w, run[0]), s);
      AbandonedIntentBlocks(Apply(w, run[0]), s, run[1..]);
    }
  }

  // ---------------------------------------------------------------- one writer at a time

  /** The slot has not started its writer yet and still may. */
  ghost predicate MayStart(w: World, s: nat) {
    s in w.slots && w.slots[s].writer.None? && w.slots[s].stage !in {IntentRemoved, Released}
  }

  /**
   * How one key's slots follow each other: a slot is opened after a pass that succeeded with no start
   * since its listing, and when no earlier slot of this daemon may still start a writer.
   */
  ghost predicate InTurn(w: World, a: Action) {
    a.Open? ==>
      && (exists v <- w.passes :: Passed(w.passes[v]) && w.passes[v].born == w.owner.Keys)
      && forall s <- w.slots :: !MayStart(w, s)
  }

  ghost predicate InTurns(w: World, run: seq<Action>)
    requires CanRun(w, run)
    decreases |run|
  {
    run == [] || (InTurn(w, run[0]) && InTurns(Apply(w, run[0]), run[1..]))
  }

  /** At most one writer runs, and none while a slot may still start one. */
  ghost predicate OneWriter(w: World) {
    && (forall x, y :: x in w.running && y in w.running ==> x == y)
    && (forall s, t :: MayStart(w, s) && MayStart(w, t) ==> s == t)
    && (forall s :: MayStart(w, s) ==> w.running == {})
  }

  lemma StepKeepsOneWriter(w: World, a: Action)
    requires Inv(w) && OneWriter(w) && Enabled(w, a) && InTurn(w, a)
    ensures OneWriter(Apply(w, a))
    ensures a.Start? ==> w.running == {}
  {
    var w' := Apply(w, a);
    if a.Open? {
      var v :| v in w.passes && Passed(w.passes[v]) && w.passes[v].born == w.owner.Keys;
      assert PassOk(w, w.passes[v]);
      assert w.running == {};
      forall s | MayStart(w', s) ensures s == a.slot {
        assert s != a.slot ==> MayStart(w, s);
      }
    } else {
      if a.Start? { assert MayStart(w, a.slot); }
      forall s | MayStart(w', s) ensures MayStart(w, s) && !a.Start? {
        assert a.Start? ==> s == a.slot || MayStart(w, s);
      }
    }
  }

  /**
   * With slots in turn, a new writer never starts while an earlier one runs, whichever daemon of
   * whichever time before a crash had started it.
   */
  lemma {:induction false} OneWriterAtATime(w: World, run: seq<Action>)
    requires Inv(w) && OneWriter(w) && CanRun(w, run) && InTurns(w, run)
    ensures OneWriter(Run(w, run))
    ensures forall i :: 0 <= i < |run| && run[i].Start? ==> CanRun(w, run[..i]) && Run(w, run[..i]).running == {}
    decreases |run|
  {
    if run != [] {
      StepKeepsOneWriter(w, run[0]);
      StepKeepsWriters(w, run[0]);
      StepKeepsSlots(w, run[0]);
      StepKeepsPasses(w, run[0]);
      OneWriterAtATime(Apply(w, run[0]), run[1..]);
      forall i | 0 <= i < |run| && run[i].Start? ensures CanRun(w, run[..i]) && Run(w, run[..i]).running == {} {
        if i > 0 {
          assert run[1..][i - 1] == run[i] && run[..i][1..] == run[1..][..i - 1] && run[..i][0] == run[0];
        }
      }
    }
  }
}
