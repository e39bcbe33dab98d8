/** What the fence protocol does get done: a slot leaves one durable identity, and a finished directory opens. */
module FenceProgress {
  import opened Options
  import opened FenceCrashes

  lemma HeadThen(w: World, a: Action, rest: seq<Action>)
    requires Enabled(w, a) && CanRun(Apply(w, a), rest)
    ensures CanRun(w, [a] + rest) && Run(w, [a] + rest) == Run(Apply(w, a), rest)
  {
    assert ([a] + rest)[1..] == rest;
  }

  // ---------------------------------------------------------------- a pass

  /** The pass is the only one that moves. */
  predicate OfPass(a: Action, v: nat) { (a.Look? || a.SyncPass?) && a.pass == v }

  predicate PassRun(run: seq<Action>, v: nat) { forall a <- run :: OfPass(a, v) }

  ghost predicate Succeeds(w: World, run: seq<Action>, v: nat) {
    && PassRun(run, v) && CanRun(w, [List(v)] + run)
    && var w' := Run(w, [List(v)] + run);
       v in w'.passes && Passed(w'.passes[v]) && w'.passes[v].born == w.owner.Keys
       && w'.disk.files == map[] && w'.disk.drifting == {}
  }

  lemma {:induction false} LooksClear(w: World, v: nat) returns (run: seq<Action>)
    requires v in w.passes && w.passes[v].ok && w.passes[v].todo == w.disk.files.Keys
    requires forall n <- w.passes[v].todo :: Clearable(w, n)
    ensures PassRun(run, v) && CanRun(w, run)
    ensures var w' := Run(w, run);
      && v in w'.passes && Passed(w'.passes[v]) && w'.passes[v].born == w.passes[v].born
      && w'.disk.files == map[] && w'.disk.drifting == {}
    decreases |w.passes[v].todo|
  {
    if w.passes[v].todo == {} {
      assert w.disk.files.Keys == {};
      run := [SyncPass(v)];
      assert [SyncPass(v)][1..] == [];
      assert Run(Apply(w, SyncPass(v)), []) == Apply(w, SyncPass(v));
    } else {
      var n :| n in w.passes[v].todo;
      var a := Look(v, n, true);
      var w' := Apply(w, a);
      assert w'.passes[v].todo == w'.disk.files.Keys;
      assert forall m <- w'.passes[v].todo :: m in w.passes[v].todo && Clearable(w, m);
      var rest := LooksClear(w', v);
      HeadThen(w, a, rest);
      run := [a] + rest;
    }
  }

  /** A file that cannot be cleared stays, and so does its pass's failure. */
  lemma {:induction false} UncleanBlocks(w: World, v: nat, n: Name, run: seq<Action>)
    requires PassRun(run, v) && CanRun(w, run) && v in w.passes && n in w.disk.files && !Clearable(w, n)
    requires n in w.passes[v].todo || !w.passes[v].ok
    ensures v in Run(w, run).passes && !Passed(Run(w, run).passes[v])
    decreases |run|
  {
    if run != [] {
      assert run[0] in run;
      UncleanBlocks(Apply(w, run[0]), v, n, run[1..]);
    }
  }

  /**
   * A pass left to itself can succeed, and then leaves an empty directory for good, exactly when every
   * file in it is a complete identity of a writer that is gone.
   */
  lemma PassCanSucceedExactlyWhen(w: World, v: nat)
    requires v !in w.passes
    ensures (exists run :: Succeeds(w, run, v)) <==>
      forall n <- w.disk.files :: n.IdentityOf? && w.disk.files[n] && n.writer !in w.running
  {
    var listed := Apply(w, List(v));
    if forall n <- w.disk.files :: Clearable(w, n) {
      assert forall n <- listed.passes[v].todo :: Clearable(listed, n);
      var run := LooksClear(listed, v);
      HeadThen(w, List(v), run);
      assert Succeeds(w, run, v);
    } else {
      var n :| n in w.disk.files && !Clearable(w, n);
      forall run | Succeeds(w, run, v) ensures false {
        assert ([List(v)] + run)[1..] == run;
        UncleanBlocks(listed, v, n, run);
      }
    }
  }

  // ---------------------------------------------------------------- a slot

  /** Reserving: the intent is written and made durable. */
  function Reserving(s: nat): seq<Action> { [Open(s), Fill(s), SyncFile(s), SyncEntry(s)] }

  /** Attaching: the identity of the started writer is written and made durable. */
  function Attaching(s: nat): seq<Action> { [OpenIdentity(s), FillIdentity(s), SyncIdentity(s), SyncIdentityEntry(s)] }

  function Releasing(s: nat): seq<Action> { [RemoveIntent(s), SyncRelease(s)] }

  /** The file is there, complete, and a crash leaves it so. */
  ghost predicate Durable(d: Disk, n: Name) {
    n in d.files && d.files[n] && n !in d.loose && n !in d.drifting
  }

  ghost predicate SameBut(d: Disk, d': Disk, n: Name) {
    && (forall m :: m != n ==> (m in d'.files <==> m in d.files))
    && (forall m <- d.files :: m != n ==> d'.files[m] == d.files[m])
  }

  lemma FourSteps(w: World, a: Action, b: Action, c: Action, d: Action)
    requires Enabled(w, a) && Enabled(Apply(w, a), b) && Enabled(Apply(Apply(w, a), b), c)
    requires Enabled(Apply(Apply(Apply(w, a), b), c), d)
    ensures CanRun(w, [a, b, c, d]) && Run(w, [a, b, c, d]) == Apply(Apply(Apply(Apply(w, a), b), c), d)
  {
    var last := Apply(Apply(Apply(w, a), b), c);
    assert Run(Apply(last, d), []) == Apply(last, d);
    HeadThen(last, d, []);
    HeadThen(Apply(Apply(w, a), b), c, [d] + []);
    HeadThen(Apply(w, a), b, [c] + ([d] + []));
    HeadThen(w, a, [b] + ([c] + ([d] + [])));
    assert [a] + ([b] + ([c] + ([d] + []))) == [a, b, c, d];
  }

  lemma ReservingLeavesTheIntent(w: World, s: nat)
    requires Enabled(w, Open(s))
    ensures CanRun(w, Reserving(s))
    ensures var w' := Run(w, Reserving(s));
      && At(w', s, Reserved) && w'.slots[s].writer.None? && Durable(w'.disk, IntentOf(s))
      && SameBut(w.disk, w'.disk, IntentOf(s)) && w'.running == w.running && w'.owner == w.owner
  {
    FourSteps(w, Open(s), Fill(s), SyncFile(s), SyncEntry(s));
  }

  lemma AttachingLeavesTheIdentity(w: World, s: nat, x: nat)
    requires At(w, s, Reserved) && w.slots[s].writer == Some(x) && IdentityOf(x) !in w.disk.files
    ensures CanRun(w, Attaching(s))
    ensures var w' := Run(w, Attaching(s));
      && At(w', s, Retained) && w'.slots[s].writer == Some(x) && Durable(w'.disk, IdentityOf(x))
      && SameBut(w.disk, w'.disk, IdentityOf(x)) && w'.running == w.running && w'.owner == w.owner
  {
    IdentityIsWritten(w, s, x);
    var filled := Apply(Apply(w, OpenIdentity(s)), FillIdentity(s));
    IdentityIsSynced(filled, s, x);
    FourSteps(w, OpenIdentity(s), FillIdentity(s), SyncIdentity(s), SyncIdentityEntry(s));
  }

  lemma IdentityIsWritten(w: World, s: nat, x: nat)
    requires At(w, s, Reserved) && w.slots[s].writer == Some(x) && IdentityOf(x) !in w.disk.files
    ensures Enabled(w, OpenIdentity(s)) && Enabled(Apply(w, OpenIdentity(s)), FillIdentity(s))
    ensures var w' := Apply(Apply(w, OpenIdentity(s)), FillIdentity(s));
      && At(w', s, IdentityFilled) && w'.slots[s].writer == Some(x)
      && w'.disk.files == w.disk.files[IdentityOf(x) := true] && w'.running == w.running && w'.owner == w.owner
  {
    assert w.disk.files[IdentityOf(x) := false][IdentityOf(x) := true] == w.disk.files[IdentityOf(x) := true];
  }

  lemma IdentityIsSynced(w: World, s: nat, x: nat)
    requires At(w, s, IdentityFilled) && w.slots[s].writer == Some(x)
    ensures Enabled(w, SyncIdentity(s)) && Enabled(Apply(w, SyncIdentity(s)), SyncIdentityEntry(s))
    ensures var w' := Apply(Apply(w, SyncIdentity(s)), SyncIdentityEntry(s));
      && At(w', s, Retained) && w'.slots[s].writer == Some(x)
      && w'.disk == Disk(w.disk.files, w.disk.loose - {IdentityOf(x)}, {})
      && w'.running == w.running && w'.owner == w.owner
  {
  }

  lemma ReleasingRemovesTheIntent(w: World, s: nat)
    requires At(w, s, Retained)
    ensures CanRun(w, Releasing(s))
    ensures var w' := Run(w, Releasing(s));
      && At(w', s, Released) && IntentOf(s) !in w'.disk.files && w'.disk.drifting == {}
      && SameBut(w.disk, w'.disk, IntentOf(s)) && w'.running == w.running && w'.owner == w.owner
      && (forall x :: Durable(w.disk, IdentityOf(x)) ==> Durable(w'.disk, IdentityOf(x)))
  {
    var removed := Apply(w, RemoveIntent(s));
    HeadThen(removed, SyncRelease(s), []);
    HeadThen(w, RemoveIntent(s), [SyncRelease(s)] + []);
    assert [RemoveIntent(s)] + ([SyncRelease(s)] + []) == Releasing(s);
    assert Run(Apply(removed, SyncRelease(s)), []) == Apply(removed, SyncRelease(s));
  }

  /** An intent whose slot never started a writer, or whose writer is gone, is released the same way. */
  lemma UnusedIntentIsReleased(w: World, s: nat)
    requires Enabled(w, RemoveUnusedIntent(s))
    ensures CanRun(w, [RemoveUnusedIntent(s), SyncRelease(s)])
    ensures var w' := Run(w, [RemoveUnusedIntent(s), SyncRelease(s)]);
      && At(w', s, Released) && IntentOf(s) !in w'.disk.files && w'.disk.drifting == {}
      && SameBut(w.disk, w'.disk, IntentOf(s)) && w'.running == w.running
  {
    var removed := Apply(w, RemoveUnusedIntent(s));
    assert Run(Apply(removed, SyncRelease(s)), []) == Apply(removed, SyncRelease(s));
    HeadThen(removed, SyncRelease(s), []);
    HeadThen(w, RemoveUnusedIntent(s), [SyncRelease(s)] + []);
    assert [RemoveUnusedIntent(s)] + ([SyncRelease(s)] + []) == [RemoveUnusedIntent(s), SyncRelease(s)];
  }

  /** Attaching again after a failure leaves an identity that is there as it is, and makes its entry durable. */
  lemma RetriedAttachmentKeepsTheIdentity(w: World, s: nat, x: nat)
    requires Enabled(w, OpenIdentity(s)) && w.slots[s].writer == Some(x) && IdentityOf(x) in w.disk.files
    ensures CanRun(w, [OpenIdentity(s), SyncIdentityEntry(s)])
    ensures var w' := Run(w, [OpenIdentity(s), SyncIdentityEntry(s)]);
      At(w', s, Retained) && w'.disk == w.disk.(drifting := {})
  {
    var there := Apply(w, OpenIdentity(s));
    assert Run(Apply(there, SyncIdentityEntry(s)), []) == Apply(there, SyncIdentityEntry(s));
    HeadThen(there, SyncIdentityEntry(s), []);
    HeadThen(w, OpenIdentity(s), [SyncIdentityEntry(s)] + []);
    assert [OpenIdentity(s)] + ([SyncIdentityEntry(s)] + []) == [OpenIdentity(s), SyncIdentityEntry(s)];
  }

  lemma {:induction false} RunsAppend(w: World, run: seq<Action>, rest: seq<Action>)
    requires CanRun(w, run) && CanRun(Run(w, run), rest)
    ensures CanRun(w, run + rest) && Run(w, run + rest) == Run(Run(w, run), rest)
    decreases |run|
  {
    if run == [] {
      assert [] + rest == rest;
    } else {
      RunsAppend(Apply(w, run[0]), run[1..], rest);
      assert (run + rest)[1..] == run[1..] + rest;
    }
  }

  /** The whole life of a slot: reserve, start the writer, attach its identity, release the intent. */
  function SlotLife(s: nat, x: nat): seq<Action> { Reserving(s) + ([Start(s, x)] + (Attaching(s) + Releasing(s))) }

  lemma StartedLife(w: World, s: nat, x: nat)
    requires At(w, s, Reserved) && w.slots[s].writer.None? && x !in w.owner && IdentityOf(x) !in w.disk.files
    ensures var rest := [Start(s, x)] + (Attaching(s) + Releasing(s));
      && CanRun(w, rest)
      && var w' := Run(w, rest);
         && At(w', s, Released) && IntentOf(s) !in w'.disk.files && Durable(w'.disk, IdentityOf(x))
         && w'.running == w.running + {x} && w'.owner == w.owner[x := s]
         && (forall m :: m != IntentOf(s) ==> (m in w'.disk.files <==> m in w.disk.files || m == IdentityOf(x)))
  {
    var started := Apply(w, Start(s, x));
    AttachingLeavesTheIdentity(started, s, x);
    var attached := Run(started, Attaching(s));
    ReleasingRemovesTheIntent(attached, s);
    RunsAppend(started, Attaching(s), Releasing(s));
    HeadThen(w, Start(s, x), Attaching(s) + Releasing(s));
  }

  /**
   * A slot that lives its life leaves its writer running, with one durable identity and no intent; once that
   * writer ends, the identity is a file a pass can clear.
   */
  lemma SlotLeavesOneIdentity(w: World, s: nat, x: nat)
    requires Enabled(w, Open(s)) && x !in w.owner && IdentityOf(x) !in w.disk.files && w.running <= w.owner.Keys
    ensures CanRun(w, SlotLife(s, x))
    ensures var w' := Run(w, SlotLife(s, x));
      && w'.running == w.running + {x} && w'.owner == w.owner[x := s] && IntentOf(s) !in w'.disk.files
      && Durable(w'.disk, IdentityOf(x))
      && (forall m :: m in w'.disk.files <==> m in w.disk.files || m == IdentityOf(x))
      && Enabled(w', WriterEnds(x))
      && Clearable(Apply(w', WriterEnds(x)), IdentityOf(x)) && Apply(w', WriterEnds(x)).running == w.running
  {
    ReservingLeavesTheIntent(w, s);
    var reserved := Run(w, Reserving(s));
    StartedLife(reserved, s, x);
    RunsAppend(w, Reserving(s), [Start(s, x)] + (Attaching(s) + Releasing(s)));
  }

  // ---------------------------------------------------------------- why the syncs are there

  /**
   * A crash may undo what was not synced, and nothing else: a new entry, its contents, a removal; and after
   * a crash the daemon remembers no slot and no pass, and only the survivors run.
   */
  lemma CrashUndoesTheUnsynced(d: Disk, n: Name)
    requires n !in d.files && n !in d.drifting && n !in d.loose
    ensures exists found :: AfterCrash(Create(d, n), found) && n !in found.files
    ensures exists found :: AfterCrash(Write(Create(d, n), n), found) && n in found.files && !found.files[n]
    ensures forall found :: AfterCrash(SyncedEntries(SyncedFile(Write(Create(d, n), n), n)), found) ==>
      n in found.files && found.files[n]
    ensures var durable := SyncedEntries(SyncedFile(Write(Create(d, n), n), n));
      && (exists found :: AfterCrash(Remove(durable, n), found) && n in found.files)
      && (forall found :: AfterCrash(SyncedEntries(Remove(durable, n)), found) ==> n !in found.files)
  {
    var created := Create(d, n);
    assert AfterCrash(created, Disk(created.files - {n}, {}, {}));
    assert AfterCrash(Write(created, n), Disk(created.files, {}, {}));
    var durable := SyncedEntries(SyncedFile(Write(created, n), n));
    assert AfterCrash(Remove(durable, n), Disk(durable.files, {}, {}));
  }

  lemma CrashForgets(w: World, found: Disk, survivors: set<nat>)
    requires Enabled(w, Crash(found, survivors))
    ensures var w' := Apply(w, Crash(found, survivors));
      w'.slots == map[] && w'.passes == map[] && w'.running == survivors <= w.running && w'.owner == w.owner
  {
  }
}
