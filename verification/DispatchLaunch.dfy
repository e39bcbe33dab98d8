/**
 * Launching a Task's executor. Any number of daemons run the shared launch path at once; the
 * durable claim decides who may launch, the others at most repair the first transcript row.
 */
module DispatchLaunch {
  import opened Options

  datatype Status = Created | Queued | Dispatching | Executing | Terminal

  predicate PendingDispatch(s: Status) { s == Created || s == Queued }

  /** States owned by an executor turn. */
  predicate InTurn(s: Status) { s == Dispatching || s == Executing }

  /** `stableId` is the transcript identity an idempotent Task carries. */
  datatype Task = Task(
    session: nat, creator: nat, stableId: Option<nat>, status: Status, position: nat, createdAt: int)

  /** `canStart` is what the Session's status and prompt flag amount to. */
  datatype Session = Session(canStart: bool, tasks: seq<nat>)

  /** Who wrote a row: the launch path, the executor's own fallback, or something else. */
  datatype Writer = ByDaemon | ByExecutor | ByOther

  datatype Message = Message(session: nat, task: nat, writer: Writer)

  datatype RepairStep = Look | Insert | LookAgain

  datatype Phase =
    | Entered
    | Prepared
    | Repairing(step: RepairStep, owner: bool)
    | Launching(repaired: bool)
    | Returned(repaired: bool)
    | Rejected
    | Held

  /** One request on its way through the launch path; `seen` is the status it read when it came in. */
  datatype Call = Call(
    daemon: nat, task: nat, principal: Option<nat>, fallbackId: Option<nat>,
    writes: bool, admitted: bool, seen: Status, phase: Phase)

  datatype Launch = Launch(task: nat, principal: nat, writes: bool)

  /** `executors` tells of each started executor whether its first look left nothing to write. */
  datatype World = World(
    tasks: map<nat, Task>,
    sessions: map<nat, Session>,
    actors: set<nat>,
    messages: map<nat, Message>,
    calls: map<nat, Call>,
    launches: seq<Launch>,
    executors: map<nat, bool>)

  ghost predicate WellFormed(w: World) {
    && (forall t <- w.tasks :: w.tasks[t].session in w.sessions)
    && (forall c <- w.calls :: w.calls[c].task in w.tasks)
  }

  // ---------------------------------------------------------------- the claim transaction

  datatype ClaimOutcome = Claimed | ActorMissing | AlreadyClaimed | ConditionChanged

  predicate Before(i: nat, a: Task, j: nat, b: Task) {
    || a.position < b.position
    || (a.position == b.position && a.createdAt < b.createdAt)
    || (a.position == b.position && a.createdAt == b.createdAt && i < j)
  }

  ghost predicate QueuedIn(w: World, session: nat, t: nat) {
    t in w.tasks && w.tasks[t].session == session && w.tasks[t].status == Queued
  }

  ghost predicate IsHead(w: World, t: nat)
    requires t in w.tasks
  {
    && QueuedIn(w, w.tasks[t].session, t)
    && forall u :: QueuedIn(w, w.tasks[t].session, u) && u != t ==> Before(t, w.tasks[t], u, w.tasks[u])
  }

  ghost predicate Competing(w: World, t: nat, u: nat)
    requires t in w.tasks
  {
    u in w.tasks && u != t && w.tasks[u].session == w.tasks[t].session && InTurn(w.tasks[u].status)
  }

  /** Launch intent and its Session projection are one change. */
  ghost function Dispatched(w: World, t: nat): (w': World)
    requires t in w.tasks && w.tasks[t].session in w.sessions
    ensures WellFormed(w) ==> WellFormed(w')
  {
    var s := w.tasks[t].session;
    var listed := w.sessions[s].tasks;
    w.(tasks := w.tasks[t := w.tasks[t].(status := Dispatching)],
       sessions := w.sessions[s := Session(false, if t in listed then listed else listed + [t])])
  }

  ghost function ClaimDispatch(w: World, t: nat, expected: Status): (r: (ClaimOutcome, World))
    requires t in w.tasks && w.tasks[t].session in w.sessions
    ensures WellFormed(w) ==> WellFormed(r.1) && r.1.calls == w.calls
  {
    var task := w.tasks[t];
    if task.status != expected then
      (if InTurn(task.status) then AlreadyClaimed else ConditionChanged, w)
    else if (expected == Queued && !IsHead(w, t))
         || (expected == Created && exists u :: QueuedIn(w, task.session, u)) then
      (ConditionChanged, w)
    else if task.creator !in w.actors then
      (ActorMissing, w.(tasks := w.tasks[t := task.(status := Terminal)]))
    else if (exists u :: Competing(w, t, u)) || !w.sessions[task.session].canStart then
      (ConditionChanged, w)
    else
      (Claimed, Dispatched(w, t))
  }

  // ---------------------------------------------------------------- steps

  datatype Action =
    | AddSession(session: nat, canStart: bool)
    | AddTask(task: nat, row: Task)
    | Enqueue(task: nat, position: nat)
    | Reposition(task: nat, position: nat)
    | Admit(call: nat, daemon: nat, writes: bool, task: nat, row: Task)
    | Enter(call: nat, daemon: nat, writes: bool, task: nat, principal: Option<nat>, fallbackId: Option<nat>)
    | Begin(call: nat)
    | Claim(call: nat, held: bool)
    | LookForRow(call: nat)
    | InsertRow(call: nat, fails: bool)
    | LookForWinner(call: nat)
    | WriteRandomRow(call: nat, message: nat, fails: bool)
    | LaunchExecutor(call: nat)
    | Connect(task: nat)
    | End(task: nat)
    | SetCanStart(session: nat, canStart: bool)
    | AddActor(actor: nat)
    | RemoveActor(actor: nat)
    | ExecutorLooks(task: nat, found: bool)
    | ExecutorWrites(task: nat, message: nat)
    | OtherMessage(message: nat, content: Message)
    | Crash(daemon: nat)

  ghost predicate InPhase(w: World, c: nat, phase: Phase) { c in w.calls && w.calls[c].phase == phase }

  ghost predicate RepairingAt(w: World, c: nat, step: RepairStep) {
    c in w.calls && w.calls[c].phase.Repairing? && w.calls[c].phase.step == step
  }

  function StableId(w: World, c: Call): Option<nat>
    requires c.task in w.tasks
  {
    if w.tasks[c.task].stableId.Some? then w.tasks[c.task].stableId else c.fallbackId
  }

  /** Nothing of the Session's is unfinished, not even a hand-off that was never queued. */
  ghost predicate Idle(w: World, session: nat) {
    forall u <- w.tasks :: w.tasks[u].session == session ==> w.tasks[u].status == Terminal
  }

  ghost predicate RowOf(w: World, t: nat, writer: Writer) {
    exists m <- w.messages :: w.messages[m].task == t && w.messages[m].writer == writer
  }

  /** A new row's id; only the launch path uses a Task's stable identity. */
  predicate FreeFor(w: World, m: nat, t: nat) {
    m !in w.messages && t in w.tasks && w.tasks[t].stableId != Some(m)
  }

  ghost predicate Enabled(w: World, a: Action)
    requires WellFormed(w)
  {
    match a
    case AddSession(s, b) => s !in w.sessions
    case AddTask(t, row) => t !in w.tasks && row.session in w.sessions && PendingDispatch(row.status)
    case Enqueue(t, position) => t in w.tasks && w.tasks[t].status == Created
    // Somebody reorders the queue.
    case Reposition(t, position) => t in w.tasks && w.tasks[t].status == Queued
    // A direct admission inserts a fresh Task without a stable identity.
    case Admit(c, d, writes, t, row) =>
      && c !in w.calls && t !in w.tasks && row.status == Dispatching && row.stableId.None?
      && row.session in w.sessions && w.sessions[row.session].canStart
      && Idle(w, row.session) && row.creator in w.actors
    case Enter(c, d, writes, t, p, f) => c !in w.calls && t in w.tasks
    case Begin(c) => InPhase(w, c, Entered)
    case Claim(c, held) => InPhase(w, c, Prepared)
    case LookForRow(c) => RepairingAt(w, c, Look) && StableId(w, w.calls[c]).Some?
    case InsertRow(c, fails) => RepairingAt(w, c, Insert) && StableId(w, w.calls[c]).Some?
    case LookForWinner(c) => RepairingAt(w, c, LookAgain) && StableId(w, w.calls[c]).Some?
    case WriteRandomRow(c, m, fails) =>
      && InPhase(w, c, Repairing(Look, true)) && StableId(w, w.calls[c]).None? && m !in w.messages
    case LaunchExecutor(c) => c in w.calls && w.calls[c].phase.Launching? && w.calls[c].principal.Some?
    case Connect(t) => t in w.tasks && w.tasks[t].status == Dispatching
    case End(t) => t in w.tasks
    case SetCanStart(s, b) => s in w.sessions
    case AddActor(u) => true
    case RemoveActor(u) => true
    // The fallback skips its row when the Task has one; it may also meet a row of other origin.
    case ExecutorLooks(t, found) =>
      && t !in w.executors && (exists i :: 0 <= i < |w.launches| && w.launches[i].task == t)
      && (RowOf(w, t, ByDaemon) ==> found)
    case ExecutorWrites(t, m) => t in w.executors && !w.executors[t] && FreeFor(w, m, t)
    // Rows of other origin; nothing deletes a row while its Task is being launched.
    case OtherMessage(m, content) => content.writer == ByOther && FreeFor(w, m, content.task)
    case Crash(d) => true
  }

  function At(w: World, c: nat, phase: Phase): (w': World)
    requires c in w.calls
    ensures WellFormed(w) ==> WellFormed(w')
  {
    w.(calls := w.calls[c := w.calls[c].(phase := phase)])
  }

  /** Where a call goes once its transcript row is settled. */
  function AfterRepair(owner: bool, repaired: bool): Phase {
    if owner then Launching(repaired) else Returned(repaired)
  }

  /** Into the repair, unless the daemon leaves the first row to the executor. */
  function StartRepair(w: World, c: nat, owner: bool): (w': World)
    requires c in w.calls
    ensures WellFormed(w) ==> WellFormed(w')
  {
    At(w, c, if w.calls[c].writes then Repairing(Look, owner) else AfterRepair(owner, false))
  }

  predicate OwnRow(w: World, c: Call, m: nat)
    requires c.task in w.tasks
  {
    m in w.messages && w.messages[m].task == c.task && w.messages[m].session == w.tasks[c.task].session
  }

  ghost function Began(w: World, c: nat): (w': World)
    requires WellFormed(w) && c in w.calls
    ensures WellFormed(w')
  {
    var call := w.calls[c];
    if !call.admitted && StableId(w, call).Some? && !PendingDispatch(call.seen) then StartRepair(w, c, false)
    else if call.principal != Some(w.tasks[call.task].creator) then At(w, c, Rejected)
    else if !call.admitted && !PendingDispatch(call.seen) then At(w, c, Returned(false))
    else At(w, c, Prepared)
  }

  ghost function AfterClaim(w: World, c: nat, outcome: ClaimOutcome): (w': World)
    requires WellFormed(w) && c in w.calls
    ensures WellFormed(w')
  {
    var call := w.calls[c];
    if outcome == Claimed then StartRepair(w, c, true)
    else if StableId(w, call).Some? && !PendingDispatch(w.tasks[call.task].status) then StartRepair(w, c, false)
    else At(w, c, Returned(false))
  }

  /** The permit and, unless admission already decided, the claim. */
  ghost function PassedFence(w: World, c: nat, held: bool): (w': World)
    requires WellFormed(w) && c in w.calls
    ensures WellFormed(w')
  {
    var call := w.calls[c];
    if held then At(w, c, Held)
    else if call.admitted then StartRepair(w, c, true)
    else
      var (outcome, claimed) := ClaimDispatch(w, call.task, call.seen);
      AfterClaim(claimed, c, outcome)
  }

  ghost predicate Repairs(w: World, c: nat) {
    WellFormed(w) && c in w.calls && w.calls[c].phase.Repairing? && StableId(w, w.calls[c]).Some?
  }

  ghost function LookedForRow(w: World, c: nat): (w': World)
    requires Repairs(w, c)
    ensures WellFormed(w')
  {
    var m := StableId(w, w.calls[c]).value;
    var owner := w.calls[c].phase.owner;
    if m !in w.messages then At(w, c, Repairing(Insert, owner))
    else if OwnRow(w, w.calls[c], m) then At(w, c, AfterRepair(owner, true))
    else At(w, c, Rejected)
  }

  ghost function Written(w: World, c: nat, m: nat): (w': World)
    requires WellFormed(w) && c in w.calls
    ensures WellFormed(w')
  {
    var t := w.calls[c].task;
    w.(messages := w.messages[m := Message(w.tasks[t].session, t, ByDaemon)])
  }

  /** The message id is the table's key: a second row is an error, not an overwrite. */
  ghost function InsertedRow(w: World, c: nat, fails: bool): (w': World)
    requires Repairs(w, c)
    ensures WellFormed(w')
  {
    var m := StableId(w, w.calls[c]).value;
    var owner := w.calls[c].phase.owner;
    if fails || m in w.messages then At(w, c, Repairing(LookAgain, owner))
    else At(Written(w, c, m), c, AfterRepair(owner, true))
  }

  ghost function LookedForWinner(w: World, c: nat): (w': World)
    requires Repairs(w, c)
    ensures WellFormed(w')
  {
    var m := StableId(w, w.calls[c]).value;
    At(w, c, if OwnRow(w, w.calls[c], m) then AfterRepair(w.calls[c].phase.owner, true) else Rejected)
  }

  /** Without a stable identity the row is best effort. */
  ghost function WroteRandomRow(w: World, c: nat, m: nat, fails: bool): (w': World)
    requires WellFormed(w) && c in w.calls
    ensures WellFormed(w')
  {
    At(if fails then w else Written(w, c, m), c, Launching(false))
  }

  ghost function LaunchedExecutor(w: World, c: nat): (w': World)
    requires c in w.calls && w.calls[c].phase.Launching? && w.calls[c].principal.Some?
    ensures WellFormed(w) ==> WellFormed(w')
  {
    var call := w.calls[c];
    At(w, c, Returned(call.phase.repaired)).(
      launches := w.launches + [Launch(call.task, call.principal.value, call.writes)])
  }

  ghost function Apply(w: World, a: Action): (w': World)
    requires WellFormed(w) && Enabled(w, a)
    ensures WellFormed(w')
  {
    match a
    case AddSession(s, b) => w.(sessions := w.sessions[s := Session(b, [])])
    case AddTask(t, row) => w.(tasks := w.tasks[t := row])
    case Enqueue(t, position) => w.(tasks := w.tasks[t := w.tasks[t].(status := Queued, position := position)])
    case Reposition(t, position) => w.(tasks := w.tasks[t := w.tasks[t].(position := position)])
    case Admit(c, d, writes, t, row) =>
      var call := Call(d, t, Some(row.creator), None, writes, true, Dispatching, Entered);
      Dispatched(w.(tasks := w.tasks[t := row]), t).(calls := w.calls[c := call])
    case Enter(c, d, writes, t, p, f) =>
      w.(calls := w.calls[c := Call(d, t, p, f, writes, false, w.tasks[t].status, Entered)])
    case Begin(c) => Began(w, c)
    case Claim(c, held) => PassedFence(w, c, held)
    case LookForRow(c) => LookedForRow(w, c)
    case InsertRow(c, fails) => InsertedRow(w, c, fails)
    case LookForWinner(c) => LookedForWinner(w, c)
    case WriteRandomRow(c, m, fails) => WroteRandomRow(w, c, m, fails)
    case LaunchExecutor(c) => LaunchedExecutor(w, c)
    case Connect(t) => w.(tasks := w.tasks[t := w.tasks[t].(status := Executing)])
    case End(t) => w.(tasks := w.tasks[t := w.tasks[t].(status := Terminal)])
    case SetCanStart(s, b) => w.(sessions := w.sessions[s := w.sessions[s].(canStart := b)])
    case AddActor(u) => w.(actors := w.actors + {u})
    case RemoveActor(u) => w.(actors := w.actors - {u})
    case ExecutorLooks(t, found) => w.(executors := w.executors[t := found])
    case ExecutorWrites(t, m) =>
      w.(messages := w.messages[m := Message(w.tasks[t].session, t, ByExecutor)], executors := w.executors[t := true])
    // Rows of other origin; nothing deletes a row while its Task is being launched.
    case OtherMessage(m, content) => w.(messages := w.messages[m := content])
    case Crash(d) => w.(calls := map c | c in w.calls && w.calls[c].daemon != d :: w.calls[c])
  }

  function Initial(): World { World(map[], map[], {}, map[], map[], [], map[]) }
}
