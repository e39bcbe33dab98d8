/**
 * The reservation table of the response channel. Every entry point may run in any order, so
 * each one keeps the table's invariant and never touches a reservation that has been settled.
 */
module ResponseTable {
  import opened Options
  import opened ResponseFraming
  import opened ResponseChannel

  datatype Config = Config(maxResponseBytes: nat, maxActiveRequests: nat)

  datatype Admission = Draining | Busy | Admitted(reservation: Reservation)

  /** The receiver's HTTP answer; `Streaming` attaches the publisher. */
  datatype Answer = NotFound | Conflict | BadRequest | TooLarge | Streaming

  datatype LengthHeader = NoLength | MalformedLength | Length(bytes: nat)

  /** What a publisher's request carries besides its bytes. */
  datatype Upgrade = Upgrade(token: nat, headersValid: bool, length: LengthHeader)

  /** Headers that name the protocol, and a length, if announced, within the limit. */
  predicate Acceptable(upgrade: Upgrade, limit: nat) {
    && upgrade.headersValid && !upgrade.length.MalformedLength?
    && (upgrade.length.Length? ==> upgrade.length.bytes <= limit)
  }

  datatype Step =
    | DoReserve(id: nat, token: nat, parse: seq<Byte> -> Option<Frame>, takesEvents: bool, floor: nat, now: int,
                timeoutMs: int)
    | DoTimeout(id: nat, reply: Reply)
    | DoFail(id: nat, reply: Reply)
    | DoAttach(id: nat, upgrade: Upgrade, now: int)
    | DoData(id: nat, chunk: seq<Byte>)
    | DoEnd(id: nat)
    | DoAbort(id: nat)
    | DoDrain
    | DoConfigure(config: Config)

  /**
   * A log a waiter and a publisher can rely on: one attachment, deliveries only after it, one
   * resolution, and nothing after that.
   */
  predicate Orderly(log: seq<Entry>) {
    && (forall i :: 0 <= i < |log| - 1 ==> !log[i].Resolved?)
    && (forall i :: 0 < i < |log| ==> !log[i].Attached?)
    && (forall i :: 0 <= i < |log| && log[i].Delivered? ==> log[0].Attached?)
  }

  predicate NoResolution(log: seq<Entry>) { forall i :: 0 <= i < |log| ==> !log[i].Resolved? }

  /** What a well-formed reservation's log says, and does not say, about it. */
  lemma {:induction false} LogTells(attached: bool, events: seq<Event>, replies: seq<Reply>)
    requires |replies| <= 1 && (!attached ==> events == [])
    ensures var log := LogOf(attached, events, replies);
      && Orderly(log) && (replies == [] <==> NoResolution(log))
      && (attached <==> log != [] && log[0].Attached?)
    decreases |events| + |replies|
  {
    if replies != [] {
      LogTells(attached, events, []);
      assert replies[..0] == [] && LogOf(attached, events, replies)[|LogOf(attached, events, [])|].Resolved?;
    } else if events != [] {
      LogTells(attached, events[..|events| - 1], []);
    }
  }

  /** What a reservation's waiter and publisher have seen of it. */
  datatype Account = Account(of: Reservation, publisherActive: bool, delivered: seq<Event>, settled: bool,
                             resolutions: seq<Reply>, log: seq<Entry>)

  ghost function AccountOf(r: Reservation): Account
    reads r
  {
    Account(r, r.publisherActive, r.delivered, r.settled, r.resolutions, r.log)
  }

  /** A publisher stays, nothing written is lost or rewritten, and a settled reservation is closed for good. */
  ghost predicate Grows(before: Account, after: Account) {
    && after.of == before.of && (before.publisherActive ==> after.publisherActive)
    && before.log <= after.log && (before.settled ==> after == before)
  }

  type Accounts = map<nat, Account>

  /** From one moment to a later one, nothing is taken back. */
  ghost predicate Extends(before: Accounts, after: Accounts) {
    forall id <- before :: id in after && Grows(before[id], after[id])
  }

  lemma ExtendsOn(first: Accounts, second: Accounts, third: Accounts)
    requires Extends(first, second) && Extends(second, third)
    ensures Extends(first, third)
  {
    forall id | id in first ensures id in third && Grows(first[id], third[id]) {
      assert Grows(first[id], second[id]) && Grows(second[id], third[id]);
    }
  }

  /** Nothing is taken back, and no publisher came but the one of `admitted`. */
  ghost predicate Follows(before: Accounts, after: Accounts, admitted: Option<nat>) {
    && Extends(before, after)
    && (admitted.Some? ==>
          && admitted.value in before && !before[admitted.value].publisherActive
          && after[admitted.value].log == before[admitted.value].log + [Attached])
    && (forall id <- after :: after[id].publisherActive <==>
          (id in before && before[id].publisherActive) || admitted == Some(id))
  }

  /** One account changed. */
  lemma OneFollows(before: Accounts, after: Accounts, id: nat)
    requires id in before && after.Keys == before.Keys && Grows(before[id], after[id])
    requires forall k <- before :: k != id ==> after[k] == before[k]
    requires after[id].publisherActive && !before[id].publisherActive ==> after[id].log == before[id].log + [Attached]
    ensures Follows(before, after, if after[id].publisherActive && !before[id].publisherActive then Some(id) else None)
  {
  }

  /** One account opened. */
  lemma NewFollows(before: Accounts, after: Accounts, id: nat)
    requires id !in before && after.Keys == before.Keys + {id} && !after[id].publisherActive
    requires forall k <- before :: after[k] == before[k]
    ensures Follows(before, after, None)
  {
  }

  lemma FollowsOn(first: Accounts, second: Accounts, third: Accounts)
    requires Follows(first, second, None) && Follows(second, third, None)
    ensures Follows(first, third, None)
  {
    ExtendsOn(first, second, third);
    forall id | id in third
      ensures third[id].publisherActive <==> id in first && first[id].publisherActive
    {
      assert id in first ==> Grows(first[id], second[id]);
    }
  }

  class Channel {
    var config: Config
    var accepting: bool
    var pending: map<nat, Reservation>
    /** Every reservation ever made, by its request id; timers and uploads keep them alive. */
    var made: map<nat, Reservation>

    constructor (config: Config)
      ensures Valid() && this.config == config && accepting && made == map[]
    {
      this.config, accepting, pending, made := config, true, map[], map[];
    }

    ghost predicate Valid()
      reads this, made.Values
    {
      TableOk() && (!accepting ==> pending == map[])
    }

    /** A reservation is in the table exactly while it is unsettled, and the table is bounded. */
    ghost predicate TableOk()
      reads this`config, this`pending, this`made, made.Values
    {
      && pending.Keys <= made.Keys
      && |pending| <= config.maxActiveRequests
      && (forall id <- made :: made[id].requestId == id && made[id].Ok())
      && (forall id <- made :: !made[id].settled <==> id in pending)
      && (forall id <- pending :: pending[id] == made[id])
    }

    /** Everything but one reservation is as it was. */
    twostate predicate OnlyTouches(r: Reservation)
      reads this, made.Values
    {
      made == old(made) && forall id <- old(made) :: old(made[id]) != r ==> unchanged(old(made[id]))
    }

    /** The accounts of all reservations ever made, by request id. */
    ghost function Books(): Accounts
      reads this`made, made.Values
    {
      map id | id in made :: AccountOf(made[id])
    }

    /** Where no reservation is touched, the books stand. */
    twostate lemma BooksStand()
      requires made == old(made) && forall id <- old(made) :: unchanged(old(made[id]))
      ensures Books() == old(Books())
    {
    }

    twostate lemma TableStands()
      requires old(TableOk()) && pending == old(pending) && |pending| <= config.maxActiveRequests
      requires made == old(made) && forall id <- old(made) :: unchanged(old(made[id]))
      ensures TableOk()
    {
      forall id | id in made
        ensures made[id].Ok() && made[id].requestId == id && (!made[id].settled <==> id in pending)
      {
        assert old(made[id].Ok());
      }
    }

    method Configure(next: Config) returns (ok: bool)
      requires Valid()
      modifies this
      ensures Valid() && made == old(made) && pending == old(pending)
      ensures Follows(old(Books()), Books(), None)
      ensures ok <==> old(pending) == map[]
      ensures if ok then config == next && accepting else config == old(config) && accepting == old(accepting)
    {
      if |pending| > 0 {
        return false;
      }
      assert pending.Keys == {};
      config, accepting := next, true;
      BooksStand();
      TableStands();
      ok := true;
    }

    twostate lemma BooksOpen(id: nat, new r: Reservation)
      requires id !in old(made) && made == old(made)[id := r] && !r.publisherActive
      requires forall k <- old(made) :: unchanged(old(made[k]))
      ensures Follows(old(Books()), Books(), None)
    {
      var before, after := old(Books()), Books();
      forall k | k in old(made) ensures after[k] == before[k] {
        assert made[k] == old(made[k]);
      }
      NewFollows(before, after, id);
    }

    twostate lemma TableOpen(id: nat, new r: Reservation)
      requires old(TableOk()) && id !in old(made) && |old(pending)| < config.maxActiveRequests
      requires made == old(made)[id := r] && pending == old(pending)[id := r] && config == old(config)
      requires forall k <- old(made) :: unchanged(old(made[k]))
      requires r.requestId == id && r.Ok() && !r.settled
      ensures TableOk()
    {
      assert |pending| == |old(pending)| + 1;
      forall k | k in made
        ensures made[k].Ok() && made[k].requestId == k && (!made[k].settled <==> k in pending)
      {
        if k != id {
          assert made[k] == old(made)[k];
          assert old(made[k].Ok());
        }
      }
    }

    method Reserve(id: nat, token: nat, parse: seq<Byte> -> Option<Frame>, takesEvents: bool, floor: nat,
                   now: int, timeoutMs: int)
      returns (a: Admission)
      requires Valid() && id !in made
      modifies this
      ensures Valid() && config == old(config) && accepting == old(accepting)
      ensures Follows(old(Books()), Books(), None)
      ensures a.Draining? <==> !accepting
      ensures a.Busy? <==> accepting && |old(pending)| >= config.maxActiveRequests
      ensures !a.Admitted? ==> made == old(made) && pending == old(pending)
      ensures a.Admitted? ==>
        && fresh(a.reservation)
        && made == old(made)[id := a.reservation] && pending == old(pending)[id := a.reservation]
        && !a.reservation.settled && !a.reservation.publisherActive
        && a.reservation.token == token && a.reservation.deadlineAt == now + timeoutMs
        && a.reservation.protocol == Protocol(parse, takesEvents, EffectiveLimit(config.maxResponseBytes, floor))
    {
      if !accepting {
        return Draining;
      }
      if |pending| >= config.maxActiveRequests {
        return Busy;
      }
      var limit := EffectiveLimit(config.maxResponseBytes, floor);
      var r := new Reservation(id, token, Protocol(parse, takesEvents, limit), now + timeoutMs);
      made, pending := made[id := r], pending[id := r];
      TableOpen(id, r);
      BooksOpen(id, r);
      a := Admitted(r);
    }

    /** A reservation inside its own step: the waiter may have been told, the rest of Ok is not due yet. */
    ghost predicate Settleable(r: Reservation)
      reads r
    {
      && |r.resolutions| == (if r.settled then 1 else 0) && r.Logged()
      && (!r.publisherActive ==> !r.done && r.received == 0 && r.Receiving() == START)
      && (!r.done ==> r.FramesOk())
    }

    /** The single place where a waiter resolves. */
    method Settle(r: Reservation, reply: Reply, closePublisher: bool) returns (won: bool)
      requires Settleable(r)
      requires if r.settled then r.Ok() else closePublisher || !r.publisherActive || r.done
      modifies this`pending, r
      ensures won == !old(r.settled) && r.settled && r.Ok()
      ensures r.resolutions == old(r.resolutions) + (if won then [reply] else [])
      ensures pending == old(pending) - (if won then {r.requestId} else {})
      ensures r.delivered == old(r.delivered) && r.publisherActive == old(r.publisherActive)
      ensures r.log == old(r.log) + (if won then [Resolved(reply)] else [])
    {
      if r.settled {
        return false;
      }
      r.settled := true;
      pending := pending - {r.requestId};
      r.Resolve(reply);
      if closePublisher && r.publisherActive {
        r.ClosePublisher();
      }
      won := true;
    }

    /** What a step on one reservation has to show. */
    twostate predicate SteppedOn(r: Reservation)
      reads this, r, made.Values
    {
      && r in old(made.Values) && OnlyTouches(r)
      && config == old(config) && accepting == old(accepting)
      && r.Ok() && (old(r.publisherActive) ==> r.publisherActive)
      && pending == old(pending) - (if r.settled then {r.requestId} else {})
      && (old(r.settled) ==> r.settled && r.resolutions == old(r.resolutions) && r.delivered == old(r.delivered))
      && old(r.log) <= r.log && (old(r.settled) ==> r.log == old(r.log))
    }

    /** A step on one reservation that leaves it well formed leaves the whole table well formed. */
    twostate lemma Restored(r: Reservation)
      requires old(TableOk()) && SteppedOn(r)
      ensures TableOk()
    {
      assert r.requestId in made && made[r.requestId] == r;
      forall id | id in made && id != r.requestId
        ensures made[id].Ok() && made[id].requestId == id && (!made[id].settled <==> id in pending)
      {
        assert made[id] != r;
        assert unchanged(made[id]);
        assert old(made[id].Ok());
      }
      assert (old(pending) - {r.requestId}).Keys == old(pending).Keys - {r.requestId};
    }

    twostate lemma BooksFollow(r: Reservation)
      requires old(TableOk()) && SteppedOn(r)
      requires r.publisherActive && !old(r.publisherActive) ==> r.log == old(r.log) + [Attached]
      ensures Follows(old(Books()), Books(),
                      if r.publisherActive && !old(r.publisherActive) then Some(r.requestId) else None)
    {
      var before, after := old(Books()), Books();
      forall k | k in made && k != r.requestId ensures after[k] == before[k] {
        assert made[k] != r;
      }
      OneFollows(before, after, r.requestId);
    }

    method SettleFirst(r: Reservation, reply: Reply)
      requires r.Ok() && !r.settled
      modifies this`pending, r
      ensures r.Ok() && r.settled && r.resolutions == [reply] && pending == old(pending) - {r.requestId}
      ensures r.log == old(r.log) + [Resolved(reply)]
      ensures r.delivered == old(r.delivered) && r.publisherActive == old(r.publisherActive)
    {
      var won := Settle(r, reply, true);
    }

    method SettleOpen(r: Reservation, reply: Reply)
      requires TableOk() && r in made.Values && !r.settled
      modifies this`pending, r
      ensures TableOk() && OnlyTouches(r) && accepting == old(accepting)
      ensures Follows(old(Books()), Books(), None)
      ensures pending == old(pending) - {r.requestId}
      ensures r.settled && r.resolutions == [reply]
      ensures r.delivered == old(r.delivered) && (r.publisherActive ==> r.done)
    {
      SettleFirst(r, reply);
      Restored(r);
      BooksFollow(r);
    }

    /** The timer, or the caller giving up: settle and close whatever upload is running. */
    method Expire(r: Reservation, reply: Reply) returns (won: bool)
      requires TableOk() && r in made.Values
      modifies this`pending, r
      ensures TableOk() && OnlyTouches(r) && r.settled && accepting == old(accepting)
      ensures Follows(old(Books()), Books(), None)
      ensures pending == if won then old(pending) - {r.requestId} else old(pending)
      ensures won == !old(r.settled) && (won ==> r.resolutions == [reply])
      ensures r.delivered == old(r.delivered) && (r.publisherActive ==> r.done)
    {
      won := !r.settled;
      if won {
        SettleOpen(r, reply);
      } else {
      }
    }

    /** A publisher's request: one per reservation, and only while the capability is alive. */
    method Attach(id: nat, upgrade: Upgrade, now: int) returns (answer: Answer)
      requires Valid()
      modifies this`pending, pending.Values
      ensures Valid() && made == old(made)
      ensures Follows(old(Books()), Books(), if answer.Streaming? then Some(id) else None)
      ensures answer.NotFound? <==>
        id !in old(pending) || old(pending[id].token) != upgrade.token || old(pending[id].deadlineAt) <= now
      ensures !answer.NotFound? ==> (answer.Conflict? <==> old(made[id].publisherActive))
      ensures answer.NotFound? || answer.Conflict? ==> pending == old(pending) && unchanged(old(pending).Values)
      ensures !answer.NotFound? && !answer.Conflict? ==>
        && OnlyTouches(made[id]) && (made[id].publisherActive <==> answer.Streaming?)
        && (made[id].settled <==> !answer.Streaming?)
        && (answer.Streaming? <==> Acceptable(upgrade, made[id].protocol.limit))
        && (answer.Streaming? ==> made[id].log == old(made[id].log) + [Attached])
        && (answer.TooLarge? <==>
              upgrade.headersValid && upgrade.length.Length? && upgrade.length.bytes > made[id].protocol.limit)
        && (!answer.Streaming? ==>
              made[id].resolutions ==
              [Failure(if answer.TooLarge? then "EXECUTOR_RESPONSE_TOO_LARGE" else "EXECUTOR_RESPONSE_INVALID")])
    {
      if id !in pending || pending[id].token != upgrade.token || pending[id].deadlineAt <= now {
        return NotFound;
      }
      if pending[id].publisherActive {
        return Conflict;
      }
      answer := Upgraded(pending[id], upgrade);
    }

    method Upgraded(r: Reservation, upgrade: Upgrade) returns (answer: Answer)
      requires Valid() && r in made.Values && !r.settled && !r.publisherActive
      modifies this`pending, r
      ensures Valid() && OnlyTouches(r)
      ensures Follows(old(Books()), Books(), if answer.Streaming? then Some(r.requestId) else None)
      ensures answer.Streaming? || answer.BadRequest? || answer.TooLarge?
      ensures (r.publisherActive <==> answer.Streaming?) && (r.settled <==> !answer.Streaming?)
      ensures answer.Streaming? <==> Acceptable(upgrade, r.protocol.limit)
      ensures answer.TooLarge? <==>
        upgrade.headersValid && upgrade.length.Length? && upgrade.length.bytes > r.protocol.limit
      ensures !answer.Streaming? ==>
        r.resolutions ==
        [Failure(if answer.TooLarge? then "EXECUTOR_RESPONSE_TOO_LARGE" else "EXECUTOR_RESPONSE_INVALID")]
      ensures answer.Streaming? ==> r.log == old(r.log) + [Attached]
    {
      answer := UpgradeStep(r, upgrade);
      Restored(r);
      BooksFollow(r);
    }

    method UpgradeStep(r: Reservation, upgrade: Upgrade) returns (answer: Answer)
      requires r.Ok() && !r.settled && !r.publisherActive
      modifies this`pending, r
      ensures r.Ok() && pending == old(pending) - (if r.settled then {r.requestId} else {})
      ensures answer.Streaming? || answer.BadRequest? || answer.TooLarge?
      ensures (r.publisherActive <==> answer.Streaming?) && (r.settled <==> !answer.Streaming?)
      ensures answer.Streaming? <==> Acceptable(upgrade, r.protocol.limit)
      ensures answer.TooLarge? <==>
        upgrade.headersValid && upgrade.length.Length? && upgrade.length.bytes > r.protocol.limit
      ensures !answer.Streaming? ==>
        r.resolutions ==
        [Failure(if answer.TooLarge? then "EXECUTOR_RESPONSE_TOO_LARGE" else "EXECUTOR_RESPONSE_INVALID")]
      ensures old(r.log) <= r.log && (answer.Streaming? ==> r.log == old(r.log) + [Attached])
    {
      var won: bool;
      if !upgrade.headersValid || upgrade.length.MalformedLength? {
        won := Settle(r, Failure("EXECUTOR_RESPONSE_INVALID"), false);
        return BadRequest;
      }
      if upgrade.length.Length? && upgrade.length.bytes > r.protocol.limit {
        won := Settle(r, Failure("EXECUTOR_RESPONSE_TOO_LARGE"), false);
        return TooLarge;
      }
      r.publisherActive, r.log := true, r.log + [Attached];
      assert pending - {} == pending;
      answer := Streaming;
    }

    /** The publisher itself failed: it is done before the waiter hears of it. */
    method FailAuthenticated(r: Reservation, code: string)
      requires Settleable(r) && r.publisherActive && (r.done <==> r.settled)
      modifies this`pending, r
      ensures r.settled && r.Ok() && r.publisherActive && r.delivered == old(r.delivered)
      ensures r.resolutions == if old(r.done) then old(r.resolutions) else [Failure(code)]
      ensures pending == old(pending) - (if old(r.done) then {} else {r.requestId})
      ensures r.log == old(r.log) + (if old(r.done) then [] else [Resolved(Failure(code))])
    {
      if r.done {
        assert pending - {} == pending;
        return;
      }
      r.done := true;
      var won := Settle(r, Failure(code), false);
    }

    /** The abstract upload a running publisher stands for. */
    ghost function Uploading(r: Reservation): Upload
      reads r
    {
      Live(r.received, r.Receiving())
    }

    /** A chunk: ignored once done, otherwise exactly the specification's step. */
    method Data(r: Reservation, chunk: seq<Byte>)
      requires Valid() && r in made.Values && r.publisherActive
      modifies this`pending, r
      ensures Valid() && OnlyTouches(r) && r.publisherActive
      ensures Follows(old(Books()), Books(), None)
      ensures old(r.settled) ==> unchanged(r) && pending == old(pending)
      ensures !old(r.settled) ==>
        var u := OnChunk(r.protocol, old(Uploading(r)), chunk);
        && (u.Live? <==> !r.settled) && !u.Answered?
        && (u.Live? ==> Uploading(r) == u)
        && (u.Failed? ==>
              && r.delivered == u.events
              && r.resolutions == [Failure(if old(r.received) + |chunk| > r.protocol.limit
                                           then "EXECUTOR_RESPONSE_TOO_LARGE" else "EXECUTOR_RESPONSE_INVALID")])
    {
      if r.done {
        return;
      }
      DataStep(r, chunk);
      Restored(r);
      BooksFollow(r);
    }

    method DataStep(r: Reservation, chunk: seq<Byte>)
      requires r.Ok() && r.publisherActive && !r.done
      modifies this`pending, r
      ensures r.Ok() && r.publisherActive && pending == old(pending) - (if r.settled then {r.requestId} else {})
      ensures old(r.log) <= r.log
      ensures var u := OnChunk(r.protocol, old(Uploading(r)), chunk);
        && (u.Live? <==> !r.settled) && !u.Answered?
        && (u.Live? ==> Uploading(r) == u)
        && (u.Failed? ==>
              && r.delivered == u.events
              && r.resolutions == [Failure(if old(r.received) + |chunk| > r.protocol.limit
                                           then "EXECUTOR_RESPONSE_TOO_LARGE" else "EXECUTOR_RESPONSE_INVALID")])
    {
      if r.received + |chunk| > r.protocol.limit {
        FailAuthenticated(r, "EXECUTOR_RESPONSE_TOO_LARGE");
        return;
      }
      var accepted := r.ParseChunk(chunk);
      if !accepted {
        r.done := true;
        var won := Settle(r, Failure("EXECUTOR_RESPONSE_INVALID"), false);
      } else {
        assert pending - {} == pending;
      }
    }

    /** End of the upload: the final frame answers the waiter, anything else fails it. */
    method End(r: Reservation)
      requires Valid() && r in made.Values && r.publisherActive
      modifies this`pending, r
      ensures Valid() && OnlyTouches(r) && r.publisherActive && r.settled
      ensures Follows(old(Books()), Books(), None)
      ensures old(r.settled) ==> unchanged(r) && pending == old(pending)
      ensures !old(r.settled) ==>
        var u := OnEnd(r.protocol, old(Uploading(r)));
        && !u.Live? && r.delivered == u.events && |r.resolutions| == 1
        && (u.Answered? ==> r.resolutions == [u.reply])
        && (u.Failed? ==>
              r.resolutions == [Failure(if LacksFinal(r.protocol, old(r.Receiving()))
                                        then "EXECUTOR_RESPONSE_MISSING" else "EXECUTOR_RESPONSE_INVALID")])
    {
      if r.done {
        return;
      }
      EndStep(r);
      Restored(r);
      BooksFollow(r);
    }

    method EndStep(r: Reservation)
      requires r.Ok() && r.publisherActive && !r.done
      modifies this`pending, r
      ensures r.Ok() && r.publisherActive && r.settled && pending == old(pending) - {r.requestId}
      ensures old(r.log) <= r.log
      ensures var u := OnEnd(r.protocol, old(Uploading(r)));
        && !u.Live? && r.delivered == u.events && |r.resolutions| == 1
        && (u.Answered? ==> r.resolutions == [u.reply])
        && (u.Failed? ==>
              r.resolutions == [Failure(if LacksFinal(r.protocol, old(r.Receiving()))
                                        then "EXECUTOR_RESPONSE_MISSING" else "EXECUTOR_RESPONSE_INVALID")])
    {
      var framed := r.ParseEnd();
      r.done := true;
      var won: bool;
      if !framed {
        won := Settle(r, Failure("EXECUTOR_RESPONSE_INVALID"), false);
      } else if r.terminalCandidate.None? {
        won := Settle(r, Failure("EXECUTOR_RESPONSE_MISSING"), false);
      } else {
        won := Settle(r, r.terminalCandidate.value, false);
      }
    }

    /** The connection broke before the end. */
    method Abort(r: Reservation)
      requires Valid() && r in made.Values && r.publisherActive
      modifies this`pending, r
      ensures Valid() && OnlyTouches(r) && r.publisherActive && r.settled
      ensures Follows(old(Books()), Books(), None)
      ensures old(r.settled) ==> unchanged(r) && pending == old(pending)
      ensures !old(r.settled) ==> r.resolutions == [Failure("EXECUTOR_RESPONSE_DISCONNECTED")]
      ensures r.delivered == old(r.delivered)
    {
      if r.done {
        return;
      }
      FailAuthenticated(r, "EXECUTOR_RESPONSE_DISCONNECTED");
      Restored(r);
      BooksFollow(r);
    }

    const STOPPING := Failure("EXECUTOR_RESPONSE_DAEMON_STOPPING")

    /** These waiters heard that the daemon is stopping, and nothing else. */
    ghost predicate Told(ids: set<nat>)
      reads this, made.Values
    {
      ids <= made.Keys && forall id <- ids :: made[id].settled && made[id].resolutions == [STOPPING]
    }

    /** Of these waiters, the ones no longer in the table were told. */
    ghost predicate Stopping(all: set<nat>)
      reads this, made.Values
    {
      TableOk() && pending.Keys <= all && Told(all - pending.Keys)
    }

    method StopEntry(id: nat, ghost all: set<nat>)
      requires Stopping(all) && id in pending
      modifies this`pending, pending[id]
      ensures Stopping(all)
      ensures Follows(old(Books()), Books(), None)
      ensures made == old(made) && config == old(config) && accepting == old(accepting)
      ensures pending == old(pending) - {id}
    {
      var won := Expire(pending[id], STOPPING);
    }

    /** The drain loop over the table. */
    method StopAll()
      requires TableOk()
      modifies this`pending, pending.Values
      ensures TableOk() && made == old(made)
      ensures Follows(old(Books()), Books(), None)
      ensures config == old(config) && accepting == old(accepting)
      ensures pending == map[] && Told(old(pending).Keys)
    {
      ghost var entries, books := pending, Books();
      while pending.Keys != {}
        invariant Stopping(entries.Keys)
        invariant Follows(books, Books(), None)
        invariant made == old(made) && config == old(config) && accepting == old(accepting)
        decreases pending.Keys
      {
        var id :| id in pending.Keys;
        assert pending[id] == made[id] == entries[id];
        ghost var before := Books();
        StopEntry(id, entries.Keys);
        FollowsOn(books, before, Books());
      }
    }

    /** Shutdown: nothing is admitted any more and every waiter hears of it. */
    method BeginDrain()
      requires Valid()
      modifies this`accepting, this`pending, pending.Values
      ensures Valid() && made == old(made) && config == old(config)
      ensures Follows(old(Books()), Books(), None)
      ensures !accepting && pending == map[] && Told(old(pending).Keys)
    {
      accepting := false;
      BooksStand();
      TableStands();
      StopAll();
    }
  }

  /** Whether a step leaves the channel admitting reservations. */
  predicate AcceptsAfter(step: Step, before: bool) {
    !step.DoDrain? && (step.DoConfigure? || before)
  }

  /** Drained, and not configured again since. */
  predicate Drained(steps: seq<Step>) {
    if steps == [] then false
    else
      var last := steps[|steps| - 1];
      last.DoDrain? || (!last.DoConfigure? && Drained(steps[..|steps| - 1]))
  }

  /** What every turn keeps, and who was let in by it. */
  twostate predicate Turned(c: Channel, step: Step, new admitted: Option<nat>)
    reads c, c.made.Values
  {
    && c.Valid() && Follows(old(c.Books()), c.Books(), admitted)
    && c.accepting == AcceptsAfter(step, old(c.accepting))
    && (!old(c.accepting) && !step.DoConfigure? ==> c.made == old(c.made))
  }

  /** A turn of a publisher's request; `admitted` names the reservation if it was let in. */
  method TakeAttach(c: Channel, id: nat, upgrade: Upgrade, now: int) returns (ghost admitted: Option<nat>)
    requires c.Valid()
    modifies c`pending, c.made.Values
    ensures c.Valid() && c.made == old(c.made)
    ensures Follows(old(c.Books()), c.Books(), admitted) && (admitted.Some? ==> admitted == Some(id))
  {
    var answer := c.Attach(id, upgrade, now);
    admitted := if answer.Streaming? then Some(id) else None;
  }

  /** A turn of a running upload; a step that does not apply is skipped. */
  method TakeUpload(c: Channel, step: Step)
    requires c.Valid() && (step.DoData? || step.DoEnd? || step.DoAbort?)
    modifies c`pending, c.made.Values
    ensures c.Valid() && c.made == old(c.made)
    ensures Follows(old(c.Books()), c.Books(), None)
  {
    if step.id in c.made && c.made[step.id].publisherActive {
      var r := c.made[step.id];
      if step.DoData? {
        c.Data(r, step.chunk);
      } else if step.DoEnd? {
        c.End(r);
      } else {
        c.Abort(r);
      }
    }
  }

  /** A turn of a timer or of a caller giving up; skipped when there is no such reservation. */
  method TakeExpiry(c: Channel, id: nat, reply: Reply)
    requires c.Valid()
    modifies c`pending, c.made.Values
    ensures c.Valid() && c.made == old(c.made)
    ensures Follows(old(c.Books()), c.Books(), None)
  {
    if id in c.made {
      var won := c.Expire(c.made[id], reply);
    }
  }

  /**
   * One turn of an arbitrary schedule; a step that does not apply is skipped. `admitted` names the
   * reservation whose publisher was let in by this turn.
   */
  method TakeStep(c: Channel, step: Step) returns (ghost admitted: Option<nat>)
    requires c.Valid()
    modifies c, c.made.Values
    ensures Turned(c, step, admitted)
    ensures admitted.Some? ==> step.DoAttach? && admitted == Some(step.id)
    ensures forall id <- c.made :: id !in old(c.made) ==> fresh(c.made[id])
  {
    admitted := None;
    match step
    case DoReserve(id, token, parse, takesEvents, floor, now, timeoutMs) =>
      if id !in c.made {
        var admission := c.Reserve(id, token, parse, takesEvents, floor, now, timeoutMs);
      }
    case DoTimeout(id, reply) =>
      TakeExpiry(c, id, reply);
    case DoFail(id, reply) =>
      TakeExpiry(c, id, reply);
    case DoDrain =>
      c.BeginDrain();
    case DoConfigure(config) =>
      var ok := c.Configure(config);
    case DoAttach(id, upgrade, now) =>
      admitted := TakeAttach(c, id, upgrade, now);
    case _ =>
      TakeUpload(c, step);
  }

  /** Only a publisher's request, for its own reservation, lets a publisher in. */
  ghost predicate LetInBy(step: Step, before: Accounts, after: Accounts) {
    forall id <- after :: after[id].publisherActive ==>
      (id in before && before[id].publisherActive) || (step.DoAttach? && step.id == id)
  }

  /** One turn on the books. */
  method Turn(c: Channel, step: Step)
    requires c.Valid()
    modifies c, c.made.Values
    ensures c.Valid() && c.accepting == AcceptsAfter(step, old(c.accepting))
    ensures forall id <- c.made :: id !in old(c.made) ==> fresh(c.made[id])
    ensures forall id <- old(c.made) :: id in c.made && c.made[id] == old(c.made[id])
    ensures Extends(old(c.Books()), c.Books()) && LetInBy(step, old(c.Books()), c.Books())
  {
    ghost var admitted := TakeStep(c, step);
    forall id | id in old(c.made) ensures id in c.made && c.made[id] == old(c.made[id]) {
      assert id in old(c.Books());
      assert Grows(old(c.Books())[id], c.Books()[id]);
    }
  }

  /** The books before the first step and after each one. */
  ghost predicate Chronicle(steps: seq<Step>, history: seq<Accounts>) {
    && |history| == |steps| + 1
    && (forall i, j :: 0 <= i <= j <= |steps| ==> Extends(history[i], history[j]))
    && (forall i :: 0 <= i < |steps| ==> LetInBy(steps[i], history[i], history[i + 1]))
  }

  lemma ChronicleGrows(steps: seq<Step>, i: nat, history: seq<Accounts>, next: Accounts)
    requires i < |steps| && Chronicle(steps[..i], history)
    requires Extends(history[i], next) && LetInBy(steps[i], history[i], next)
    ensures Chronicle(steps[..i + 1], history + [next])
  {
    forall j | 0 <= j <= i ensures Extends(history[j], next) {
      ExtendsOn(history[j], history[i], next);
    }
    var longer := history + [next];
    forall j, k | 0 <= j <= k <= i + 1 ensures Extends(longer[j], longer[k]) {
    }
    forall j | 0 <= j <= i ensures LetInBy(steps[..i + 1][j], longer[j], longer[j + 1]) {
      assert j < i ==> LetInBy(steps[..i][j], history[j], history[j + 1]);
    }
  }

  lemma DrainedGoesOn(steps: seq<Step>, i: nat)
    requires i < |steps|
    ensures !Drained(steps[..i + 1]) <==> AcceptsAfter(steps[i], !Drained(steps[..i]))
  {
    assert steps[..i + 1][..i] == steps[..i];
  }

  /** What a well-formed table says of every reservation ever made. */
  lemma TableTells(c: Channel)
    requires c.Valid()
    ensures |c.pending| <= c.config.maxActiveRequests
    ensures forall id <- c.made :: Orderly(c.made[id].log) && |c.made[id].resolutions| <= 1
    ensures forall id <- c.made :: id in c.pending <==> NoResolution(c.made[id].log)
  {
    forall id | id in c.made
      ensures Orderly(c.made[id].log) && |c.made[id].resolutions| <= 1
      ensures id in c.pending <==> NoResolution(c.made[id].log)
    {
      assert c.made[id].Ok();
      LogTells(c.made[id].publisherActive, c.made[id].delivered, c.made[id].resolutions);
    }
  }

  /**
   * Every interleaving of every kind of step. Each reservation's log is orderly: no second publisher,
   * no second resolution, no delivery and nothing else after the resolution. A reservation is in the
   * bounded table exactly while its log has no resolution. From turn to turn logs only grow, a settled
   * reservation does not change at all, and only a publisher's request lets a publisher in. The channel
   * is closed and empty exactly from a drain to the next configuration.
   */
  method EveryInterleaving(config: Config, steps: seq<Step>) returns (c: Channel, ghost history: seq<Accounts>)
    ensures c.Valid() && |c.pending| <= c.config.maxActiveRequests
    ensures forall id <- c.made :: Orderly(c.made[id].log) && |c.made[id].resolutions| <= 1
    ensures forall id <- c.made :: id in c.pending <==> NoResolution(c.made[id].log)
    ensures Chronicle(steps, history) && history[0] == map[] && history[|steps|] == c.Books()
    ensures c.accepting <==> !Drained(steps)
    ensures Drained(steps) ==> c.pending == map[]
  {
    c := new Channel(config);
    history := [c.Books()];
    for i := 0 to |steps|
      invariant fresh(c) && c.Valid() && (forall id <- c.made :: fresh(c.made[id]))
      invariant Chronicle(steps[..i], history) && history[0] == map[] && history[i] == c.Books()
      invariant c.accepting <==> !Drained(steps[..i])
    {
      Turn(c, steps[i]);
      ChronicleGrows(steps, i, history, c.Books());
      history := history + [c.Books()];
      DrainedGoesOn(steps, i);
    }
    assert steps[..|steps|] == steps;
    TableTells(c);
  }
}
