/**
 * The records of a containment fence directory and the pass that verifies it. A record is one
 * JSON file: an intent written before a writer may start, or the identity of a started writer.
 */
module ContainmentFence {
  import opened Options
  import opened ProcessContainment

  datatype Json = Missing | Text(text: string) | Number(value: int) | Flag(flag: bool)
                | Fields(members: map<string, Json>) | OtherJson

  datatype Executor = Executor(
    sessionId: string,
    taskId: string,
    pid: int,
    pgid: int,
    startIdentity: Option<string>,
    bootIdentity: Option<string>,
    leaderExited: bool)

  /** What the kernel could tell two executors apart by. */
  datatype Process = Process(pid: int, pgid: int, startIdentity: Option<string>, bootIdentity: Option<string>)

  function ProcessOf(e: Executor): Process { Process(e.pid, e.pgid, e.startIdentity, e.bootIdentity) }

  const FENCE_VERSION := 1
  const MAX_SAFE_INTEGER := 0x1F_FFFF_FFFF_FFFF

  // ---------------------------------------------------------------- records

  function At(m: map<string, Json>, key: string): Json {
    if key in m then m[key] else Missing
  }

  predicate ProcessNumber(n: int) { 0 < n <= MAX_SAFE_INTEGER }

  function OptionalText(j: Json): Option<string> {
    if j.Text? then Some(j.text) else None
  }

  predicate WellFormedExecutor(e: map<string, Json>) {
    && At(e, "sessionId").Text? && At(e, "taskId").Text?
    && At(e, "pid").Number? && ProcessNumber(At(e, "pid").value)
    && At(e, "pgid").Number? && ProcessNumber(At(e, "pgid").value)
    && (At(e, "startIdentity").Missing? || At(e, "startIdentity").Text?)
    && (At(e, "bootIdentity").Missing? || At(e, "bootIdentity").Text?)
    && At(e, "leaderExited").Flag?
  }

  function Parse(record: Json): Option<Executor> {
    if !record.Fields? || At(record.members, "version") != Number(FENCE_VERSION)
       || !At(record.members, "executor").Fields? then None
    else
      var e := At(record.members, "executor").members;
      if !WellFormedExecutor(e) then None
      else Some(Executor(e["sessionId"].text, e["taskId"].text, e["pid"].value, e["pgid"].value,
                         OptionalText(At(e, "startIdentity")), OptionalText(At(e, "bootIdentity")),
                         e["leaderExited"].flag))
  }

  /** An absent optional field is left out of the file. */
  function WithText(m: map<string, Json>, key: string, value: Option<string>): map<string, Json> {
    if value.Some? then m[key := Text(value.value)] else m
  }

  function IdentityRecord(e: Executor): Json {
    var required := map[
      "sessionId" := Text(e.sessionId), "taskId" := Text(e.taskId),
      "pid" := Number(e.pid), "pgid" := Number(e.pgid), "leaderExited" := Flag(e.leaderExited)];
    var optional := WithText(WithText(required, "startIdentity", e.startIdentity), "bootIdentity", e.bootIdentity);
    Fields(map["version" := Number(FENCE_VERSION), "executor" := Fields(optional)])
  }

  function IntentRecord(id: string): Json {
    Fields(map["version" := Number(FENCE_VERSION), "intent" := Text(id)])
  }

  /** An identity reads back exactly when its numbers can name processes; an intent never reads back. */
  lemma RecordsReadBack(e: Executor, id: string)
    ensures Parse(IdentityRecord(e)) == Some(e) <==> ProcessNumber(e.pid) && ProcessNumber(e.pgid)
    ensures Parse(IdentityRecord(e)).Some? ==> Parse(IdentityRecord(e)) == Some(e)
    ensures Parse(IntentRecord(id)) == None && At(IntentRecord(id).members, "intent") == Text(id)
  {
    var m := At(IdentityRecord(e).members, "executor").members;
    assert "version" != "executor" && "intent" != "executor";
    assert At(m, "sessionId") == Text(e.sessionId) && At(m, "taskId") == Text(e.taskId);
    assert At(m, "pid") == Number(e.pid) && At(m, "pgid") == Number(e.pgid);
    assert At(m, "leaderExited") == Flag(e.leaderExited);
    assert OptionalText(At(m, "startIdentity")) == e.startIdentity;
    assert OptionalText(At(m, "bootIdentity")) == e.bootIdentity;
  }

  const EXECUTOR_FIELDS := {"sessionId", "taskId", "pid", "pgid", "startIdentity", "bootIdentity", "leaderExited"}

  /**
   * A record reads as an executor exactly when its numbers name processes and the record agrees, in its
   * version and in every field of an executor, with the one that is written for this executor.
   */
  lemma RecordReadsAs(record: Json, e: Executor)
    ensures Parse(record) == Some(e) <==>
      && 0 < e.pid < 9_007_199_254_740_992 && 0 < e.pgid < 9_007_199_254_740_992
      && record.Fields? && At(record.members, "version") == Number(1)
      && At(record.members, "executor").Fields?
      && forall key <- EXECUTOR_FIELDS ::
           At(At(record.members, "executor").members, key) == At(At(IdentityRecord(e).members, "executor").members, key)
  {
    var m := WrittenFields(e);
    if record.Fields? && At(record.members, "executor").Fields? {
      var x := At(record.members, "executor").members;
      if forall key <- EXECUTOR_FIELDS :: At(x, key) == At(m, key) {
        SameFieldsReadAlike(x, m);
      } else if Parse(record) == Some(e) {
        FieldsThatRead(x, e);
      }
    }
  }

  lemma WrittenFields(e: Executor) returns (m: map<string, Json>)
    ensures m == At(IdentityRecord(e).members, "executor").members
    ensures At(m, "sessionId") == Text(e.sessionId) && At(m, "taskId") == Text(e.taskId)
    ensures At(m, "pid") == Number(e.pid) && At(m, "pgid") == Number(e.pgid)
    ensures At(m, "leaderExited") == Flag(e.leaderExited)
    ensures At(m, "startIdentity") == (if e.startIdentity.Some? then Text(e.startIdentity.value) else Missing)
    ensures At(m, "bootIdentity") == (if e.bootIdentity.Some? then Text(e.bootIdentity.value) else Missing)
  {
    m := At(IdentityRecord(e).members, "executor").members;
  }

  lemma SameFieldsReadAlike(x: map<string, Json>, m: map<string, Json>)
    requires forall key <- EXECUTOR_FIELDS :: At(x, key) == At(m, key)
    ensures At(x, "sessionId") == At(m, "sessionId") && At(x, "taskId") == At(m, "taskId")
    ensures At(x, "pid") == At(m, "pid") && At(x, "pgid") == At(m, "pgid")
    ensures At(x, "startIdentity") == At(m, "startIdentity") && At(x, "bootIdentity") == At(m, "bootIdentity")
    ensures At(x, "leaderExited") == At(m, "leaderExited")
  {
    assert "sessionId" in EXECUTOR_FIELDS && "taskId" in EXECUTOR_FIELDS && "pid" in EXECUTOR_FIELDS;
    assert "pgid" in EXECUTOR_FIELDS && "startIdentity" in EXECUTOR_FIELDS;
    assert "bootIdentity" in EXECUTOR_FIELDS && "leaderExited" in EXECUTOR_FIELDS;
  }

  lemma FieldsThatRead(x: map<string, Json>, e: Executor)
    requires WellFormedExecutor(x)
    requires e == Executor(x["sessionId"].text, x["taskId"].text, x["pid"].value, x["pgid"].value,
                           OptionalText(At(x, "startIdentity")), OptionalText(At(x, "bootIdentity")),
                           x["leaderExited"].flag)
    ensures forall key <- EXECUTOR_FIELDS :: At(x, key) == At(At(IdentityRecord(e).members, "executor").members, key)
  {
    var m := WrittenFields(e);
  }

  // ---------------------------------------------------------------- one file

  type Registry = map<string, Executor>

  /** The verdict of containing an executor while looking at one file. */
  type Container = (string, Executor, bool) -> Containment

  /** A live handle for the same session and task stands in for the stored identity. */
  predicate HasLive(registry: Registry, e: Executor) {
    e.sessionId in registry && registry[e.sessionId].taskId == e.taskId
  }

  function Checked(contain: Container, registry: Registry, file: string, e: Executor): Containment {
    if HasLive(registry, e) then contain(file, registry[e.sessionId], false) else contain(file, e, true)
  }

  datatype Content = Unreadable | Json(json: Json)

  predicate Clears(contain: Container, registry: Registry, file: string, content: Content) {
    && content.Json? && Parse(content.json).Some?
    && Checked(contain, registry, file, Parse(content.json).value) == VerifiedAbsent
  }

  /** Containment never calls a running process absent. */
  ghost predicate Honest(contain: Container, gone: Process -> bool) {
    forall file, e, recovered :: contain(file, e, recovered) == VerifiedAbsent ==> gone(ProcessOf(e))
  }

  ghost predicate SoundFor(registry: Registry, file: string, e: Executor) {
    forall contain: Container, gone: Process -> bool ::
      Honest(contain, gone) && Checked(contain, registry, file, e) == VerifiedAbsent ==> gone(ProcessOf(e))
  }

  /**
   * Clearing a stored identity is sound against every honest containment exactly when a live handle
   * of its session and task, if there is one, is a handle of the same process.
   */
  lemma LiveHandleMustBeTheSameProcess(registry: Registry, file: string, e: Executor)
    ensures SoundFor(registry, file, e) <==>
      (e.sessionId in registry && registry[e.sessionId].taskId == e.taskId ==>
         ProcessOf(registry[e.sessionId]) == ProcessOf(e))
  {
    if HasLive(registry, e) && ProcessOf(registry[e.sessionId]) != ProcessOf(e) {
      var live := ProcessOf(registry[e.sessionId]);
      var contain: Container := (f, x, recovered) => if ProcessOf(x) == live then VerifiedAbsent else Unverified;
      var gone: Process -> bool := p => p == live;
      assert Honest(contain, gone) && Checked(contain, registry, file, e) == VerifiedAbsent;
      assert !gone(ProcessOf(e));
    }
  }

  /** The containment of a host, as this pass asks for it. */
  function HostContainer(o: Oracle, here: Reading, plan: Plan, w: Watch): Container {
    (file: string, e: Executor, recovered: bool) =>
      Contain(o, Identity(e.startIdentity, e.bootIdentity), here, plan.(recovered := recovered), w).0
  }

  /**
   * A stored identity of another boot is cleared whatever the inspector answers, exactly unless a live
   * handle of its session and task stands in for it.
   */
  lemma OtherBootIsClearedUnlessLive(registry: Registry, file: string, e: Executor, here: Reading, plan: Plan, w: Watch)
    requires here.supported && e.bootIdentity.Some? && here.bootIdentity.Some?
    requires e.bootIdentity != here.bootIdentity
    ensures (forall o: Oracle :: Checked(HostContainer(o, here, plan, w), registry, file, e) == VerifiedAbsent) <==>
            !(e.sessionId in registry && registry[e.sessionId].taskId == e.taskId)
  {
    if e.sessionId in registry && registry[e.sessionId].taskId == e.taskId {
      var o := Oracle(n => Present, n => 0);
      var live := registry[e.sessionId];
      var t := Identity(live.startIdentity, live.bootIdentity);
      ContainmentIsJustified(o, t, here, plan.(recovered := false), w);
      assert Checked(HostContainer(o, here, plan, w), registry, file, e) != VerifiedAbsent;
    }
  }

  // ---------------------------------------------------------------- the whole directory

  datatype ReadDir = NoDirectory | Failing | Works

  class FenceDirectory {
    var files: map<string, Content>

    /** One listed file: deleted only when cleared, and answered for only when the deletion is durable. */
    method CheckFile(file: string, contain: Container, registry: Registry, removes: bool, syncs: bool)
      returns (cleared: bool)
      requires file in files
      modifies this
      ensures var clears := Clears(contain, registry, file, old(files)[file]);
        && (cleared <==> clears && removes && syncs)
        && files == if clears && removes then old(files) - {file} else old(files)
    {
      var content := files[file];
      var stored := if content.Json? then Parse(content.json) else None;
      if stored.None? {
        return false;
      }
      var executor := stored.value;
      var live := HasLive(registry, executor);
      var result := contain(file, if live then registry[executor.sessionId] else executor, !live);
      if result != VerifiedAbsent {
        return false;
      }
      if removes {
        files := files - {file};
      }
      cleared := removes && syncs;
    }

    /** Passes only if every listed file was cleared and removed for good; keeps all it cannot clear. */
    method Verify(readDir: ReadDir, contain: Container, registry: Registry,
                  removes: string -> bool, syncs: string -> bool)
      returns (verified: bool)
      modifies this
      ensures !readDir.Works? ==> files == old(files) && (verified <==> readDir.NoDirectory?)
      ensures readDir.Works? ==>
        (verified <==> forall n <- old(files) ::
          Clears(contain, registry, n, old(files)[n]) && removes(n) && syncs(n))
      ensures readDir.Works? ==>
        files == old(files) - set n | n in old(files) && Clears(contain, registry, n, old(files)[n]) && removes(n)
    {
      match readDir {
        case NoDirectory => return true;
        case Failing => return false;
        case Works =>
      }
      var listed := files.Keys;
      verified := true;
      while listed != {}
        invariant listed <= old(files).Keys && listed <= files.Keys
        invariant verified <==> forall n <- old(files) :: n !in listed ==>
          Clears(contain, registry, n, old(files)[n]) && removes(n) && syncs(n)
        invariant files == old(files) - set n | n in old(files) && n !in listed
          && Clears(contain, registry, n, old(files)[n]) && removes(n)
        decreases listed
      {
        var file :| file in listed;
        listed := listed - {file};
        var cleared := CheckFile(file, contain, registry, removes(file), syncs(file));
        verified := verified && cleared;
      }
    }
  }
}
