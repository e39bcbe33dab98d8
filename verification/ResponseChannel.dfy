/**
 * The response channel: a bounded table of reservations, each settled exactly once by whichever
 * of timeout, failure, publisher and drain comes first. Callbacks neither re-enter nor throw.
 */
module ResponseChannel {
  import opened Options
  import opened ResponseFraming

  function Failure(code: string): Reply { Reply(false, code) }

  /** What happens to a reservation, written down where it happens. */
  datatype Entry = Attached | Delivered(event: Event) | Resolved(reply: Reply)

  /** The attachment if there was one, then the deliveries, then the resolutions. */
  function LogOf(attached: bool, events: seq<Event>, replies: seq<Reply>): seq<Entry>
    decreases |events| + |replies|
  {
    if replies != [] then LogOf(attached, events, replies[..|replies| - 1]) + [Resolved(replies[|replies| - 1])]
    else if events != [] then LogOf(attached, events[..|events| - 1], []) + [Delivered(events[|events| - 1])]
    else if attached then [Attached]
    else []
  }

  lemma LogDelivers(attached: bool, events: seq<Event>, event: Event)
    ensures LogOf(attached, events + [event], []) == LogOf(attached, events, []) + [Delivered(event)]
  {
    assert (events + [event])[..|events|] == events;
  }

  lemma LogResolves(attached: bool, events: seq<Event>, replies: seq<Reply>, reply: Reply)
    ensures LogOf(attached, events, replies + [reply]) == LogOf(attached, events, replies) + [Resolved(reply)]
  {
    assert (replies + [reply])[..|replies|] == replies;
  }

  /** One reservation, with the state its publisher's handlers share. */
  class Reservation {
    const requestId: nat
    const token: nat
    const protocol: Protocol
    const deadlineAt: int

    var settled: bool
    var resolutions: seq<Reply>
    var publisherActive: bool
    var nextSeq: nat
    var eventCount: nat
    var delivered: seq<Event>
    var log: seq<Entry>

    var received: nat
    var done: bool
    var frameChunks: seq<seq<Byte>>
    var frameBytes: nat
    var terminalCandidate: Option<Reply>

    constructor (requestId: nat, token: nat, protocol: Protocol, deadlineAt: int)
      ensures this.requestId == requestId && this.token == token
      ensures this.protocol == protocol && this.deadlineAt == deadlineAt
      ensures Ok() && !settled && !publisherActive
    {
      this.requestId, this.token, this.protocol, this.deadlineAt := requestId, token, protocol, deadlineAt;
      settled, resolutions, publisherActive, nextSeq, eventCount, delivered := false, [], false, 0, 0, [];
      log := [];
      received, done, frameChunks, frameBytes, terminalCandidate := 0, false, [], 0, None;
    }

    /** The receiver's abstract state while its publisher is live. */
    ghost function Receiving(): Stream
      reads this
    {
      Open(Join(frameChunks), delivered, terminalCandidate)
    }

    /** Frame numbers, event count and buffered bytes agree with what was accepted. */
    ghost predicate FramesOk()
      reads this
    {
      && frameBytes == |Join(frameChunks)| <= received <= protocol.limit
      && eventCount == |delivered| <= MAX_EVENTS
      && nextSeq == NextSeq(Receiving())
      && (terminalCandidate.Some? ==> frameBytes == 0)
    }

    /** The log is one attachment at most, then the deliveries, then the resolutions. */
    ghost predicate Logged()
      reads this`log, this`publisherActive, this`delivered, this`resolutions
    {
      && log == LogOf(publisherActive, delivered, resolutions)
      && (!publisherActive ==> delivered == [])
    }

    ghost predicate Ok()
      reads this
    {
      && Logged()
      && |resolutions| == (if settled then 1 else 0)
      && (publisherActive ==> (done <==> settled))
      && (!publisherActive ==> !done && received == 0 && Receiving() == START)
      && (!done ==> FramesOk())
    }

    // -------------------------------------------------------------- one publisher's handlers

    /** Answers whether the line of this content was accepted; a rejected line delivers nothing. */
    method ProcessFrame(content: seq<Byte>, ghost line: seq<Byte>) returns (accepted: bool)
      requires !done && frameBytes == 0 && frameChunks == [] && terminalCandidate.None?
      requires eventCount == |delivered| <= MAX_EVENTS && nextSeq == |delivered|
      requires Content(line) == content != []
      requires Logged() && publisherActive && resolutions == []
      modifies this`nextSeq, this`eventCount, this`delivered, this`log, this`terminalCandidate
      ensures var t := TakeLine(protocol, Open(line, old(delivered), None));
        if accepted then t == Receiving() else t == Broken(delivered)
      ensures accepted ==> nextSeq == NextSeq(Receiving()) && eventCount == |delivered| <= MAX_EVENTS
      ensures Logged() && old(log) <= log
    {
      var frame := protocol.parse(content);
      if frame.None? || frame.value.seqNo != nextSeq {
        return false;
      }
      nextSeq := nextSeq + 1;
      if frame.value.EventFrame? {
        if !protocol.takesEvents || eventCount >= MAX_EVENTS || frame.value.lineBytes > MAX_EVENT_BYTES {
          return false;
        }
        eventCount := eventCount + 1;
        LogDelivers(publisherActive, delivered, frame.value.event);
        delivered, log := delivered + [frame.value.event], log + [Delivered(frame.value.event)];
      } else {
        terminalCandidate := Some(frame.value.reply);
      }
      accepted := true;
    }

    method AcceptFrame() returns (accepted: bool)
      requires !done && FramesOk() && terminalCandidate.None? && Logged() && publisherActive && resolutions == []
      modifies this`nextSeq, this`eventCount, this`delivered, this`log, this`terminalCandidate
      modifies this`frameChunks, this`frameBytes
      ensures var t := TakeLine(protocol, old(Receiving()));
        if accepted then t == Receiving() && FramesOk() else t == Broken(delivered)
      ensures Logged() && old(log) <= log
    {
      ghost var before := Receiving();
      var bytes := Join(frameChunks);
      frameChunks, frameBytes := [], 0;
      var content := Content(bytes);
      if content == [] {
        return false;
      }
      accepted := ProcessFrame(content, bytes);
      assert before == Open(bytes, old(delivered), None);
    }

    method Hold(part: seq<Byte>)
      modifies this`frameChunks, this`frameBytes
      ensures Join(frameChunks) == old(Join(frameChunks)) + part && frameBytes == old(frameBytes) + |part|
    {
      JoinGrows(frameChunks, part);
      frameChunks := frameChunks + [part];
      frameBytes := frameBytes + |part|;
    }

    /** One turn of the chunk loop: the bytes from `offset` up to the next newline, or to the end. */
    method ParsePart(chunk: seq<Byte>, offset: nat, ghost before: Stream) returns (accepted: bool, next: nat)
      requires !done && FramesOk() && offset < |chunk| && frameBytes + |chunk| <= received + offset
      requires FeedAll(protocol, before, chunk[..offset]) == Receiving()
      requires Logged() && publisherActive && resolutions == []
      modifies this`nextSeq, this`eventCount, this`delivered, this`log, this`terminalCandidate
      modifies this`frameChunks, this`frameBytes
      ensures accepted ==> offset < next <= |chunk| && FramesOk() && frameBytes + |chunk| <= received + next
      ensures accepted ==> FeedAll(protocol, before, chunk[..next]) == Receiving()
      ensures !accepted ==> FeedAll(protocol, before, chunk) == Broken(delivered)
      ensures Logged() && old(log) <= log
    {
      next := offset;
      if terminalCandidate.Some? {
        ChunkAfterFinal(protocol, before, chunk, offset);
        return false, next;
      }
      var newline := IndexOf(chunk, LF, offset);
      if newline == |chunk| {
        HoldRest(chunk, offset, before);
        return true, newline;
      }
      accepted := ParseThrough(chunk, offset, newline, before);
      next := newline + 1;
    }

    /** The bytes up to a newline, and the newline. */
    method ParseThrough(chunk: seq<Byte>, offset: nat, newline: nat, ghost before: Stream) returns (accepted: bool)
      requires !done && FramesOk() && terminalCandidate.None? && frameBytes + |chunk| <= received + offset
      requires offset <= newline < |chunk| && LF !in chunk[offset..newline] && chunk[newline] == LF
      requires FeedAll(protocol, before, chunk[..offset]) == Receiving()
      requires Logged() && publisherActive && resolutions == []
      modifies this`nextSeq, this`eventCount, this`delivered, this`log, this`terminalCandidate
      modifies this`frameChunks, this`frameBytes
      ensures accepted ==> FramesOk() && frameBytes + |chunk| <= received + newline + 1
      ensures accepted ==> FeedAll(protocol, before, chunk[..newline + 1]) == Receiving()
      ensures !accepted ==> FeedAll(protocol, before, chunk) == Broken(delivered)
      ensures Logged() && old(log) <= log
    {
      ChunkLine(protocol, before, chunk, offset, newline);
      Hold(chunk[offset..newline]);
      accepted := ParseLine(chunk, newline, before);
    }

    /** No newline left: the rest of the chunk is held. */
    method HoldRest(chunk: seq<Byte>, offset: nat, ghost before: Stream)
      requires !done && FramesOk() && terminalCandidate.None? && offset < |chunk| && LF !in chunk[offset..|chunk|]
      requires frameBytes + |chunk| <= received + offset
      requires FeedAll(protocol, before, chunk[..offset]) == Receiving()
      modifies this`frameChunks, this`frameBytes
      ensures FramesOk() && frameBytes <= received
      ensures FeedAll(protocol, before, chunk[..|chunk|]) == Receiving()
    {
      ChunkRemainder(protocol, before, chunk, offset);
      Hold(chunk[offset..|chunk|]);
    }

    /** The newline itself: what is held becomes a line. */
    method ParseLine(chunk: seq<Byte>, newline: nat, ghost before: Stream) returns (accepted: bool)
      requires !done && FramesOk() && terminalCandidate.None? && newline < |chunk|
      requires frameBytes + |chunk| <= received + newline
      requires var taken := TakeLine(protocol, Receiving());
        && FeedAll(protocol, before, chunk[..newline + 1]) == taken
        && FeedAll(protocol, before, chunk) == FeedAll(protocol, taken, chunk[newline + 1..])
      requires Logged() && publisherActive && resolutions == []
      modifies this`nextSeq, this`eventCount, this`delivered, this`log, this`terminalCandidate
      modifies this`frameChunks, this`frameBytes
      ensures accepted ==> FramesOk() && frameBytes + |chunk| <= received + newline + 1
      ensures accepted ==> FeedAll(protocol, before, chunk[..newline + 1]) == Receiving()
      ensures !accepted ==> FeedAll(protocol, before, chunk) == Broken(delivered)
      ensures Logged() && old(log) <= log
    {
      accepted := AcceptFrame();
      if !accepted {
        BrokenStays(protocol, Broken(delivered), chunk[newline + 1..]);
      }
    }

    /** The chunk loop: accepted exactly when feeding the chunk's bytes leaves the stream open. */
    method ParseChunk(chunk: seq<Byte>) returns (accepted: bool)
      requires !done && FramesOk() && received + |chunk| <= protocol.limit
      requires Logged() && publisherActive && resolutions == []
      modifies this`nextSeq, this`eventCount, this`delivered, this`log, this`terminalCandidate
      modifies this`frameChunks, this`frameBytes, this`received
      ensures received == old(received) + |chunk|
      ensures var s := FeedAll(protocol, old(Receiving()), chunk);
        if accepted then s == Receiving() && FramesOk() else s == Broken(delivered)
      ensures Logged() && old(log) <= log
    {
      received := received + |chunk|;
      ghost var before := Receiving();
      var offset := 0;
      while offset < |chunk|
        invariant 0 <= offset <= |chunk| && received == old(received) + |chunk|
        invariant FeedAll(protocol, before, chunk[..offset]) == Receiving()
        invariant FramesOk() && frameBytes + |chunk| <= received + offset
        invariant Logged() && old(log) <= log
      {
        accepted, offset := ParsePart(chunk, offset, before);
        if !accepted {
          return;
        }
      }
      assert chunk[..|chunk|] == chunk;
      accepted := true;
    }

    /** End of input: an unterminated last line is taken like any other. */
    method ParseEnd() returns (framed: bool)
      requires !done && FramesOk() && Logged() && publisherActive && resolutions == []
      modifies this`nextSeq, this`eventCount, this`delivered, this`log, this`terminalCandidate
      modifies this`frameChunks, this`frameBytes
      ensures var s := Close(protocol, old(Receiving()));
        if framed && terminalCandidate.Some? then s == Receiving() else s == Broken(delivered)
      ensures framed && terminalCandidate.None? <==> LacksFinal(protocol, old(Receiving()))
      ensures Logged() && old(log) <= log
    {
      if frameBytes > 0 {
        if terminalCandidate.Some? {
          return false;
        }
        framed := AcceptFrame();
      } else {
        framed := true;
      }
    }

    /** The waiter's promise resolves. */
    method Resolve(reply: Reply)
      requires Logged() && resolutions == []
      modifies this`resolutions, this`log
      ensures Logged() && resolutions == [reply] && log == old(log) + [Resolved(reply)]
    {
      LogResolves(publisherActive, delivered, resolutions, reply);
      resolutions, log := resolutions + [reply], log + [Resolved(reply)];
    }

    /** Detaching the publisher; a later chunk finds it done. */
    method ClosePublisher()
      requires publisherActive
      modifies this`done
      ensures done
    {
      if done {
        return;
      }
      done := true;
    }
  }

  // ---------------------------------------------------------------- one turn of the chunk loop

  lemma ChunkAfterFinal(p: Protocol, before: Stream, chunk: seq<Byte>, offset: nat)
    requires offset < |chunk|
    requires var here := FeedAll(p, before, chunk[..offset]); here.Open? && here.final.Some?
    ensures FeedAll(p, before, chunk) == Broken(FeedAll(p, before, chunk[..offset]).events)
  {
    assert chunk == chunk[..offset] + chunk[offset..];
    FeedAllSplits(p, before, chunk[..offset], chunk[offset..]);
    AfterFinalBreaks(p, FeedAll(p, before, chunk[..offset]), chunk[offset..]);
  }

  lemma ChunkRemainder(p: Protocol, before: Stream, chunk: seq<Byte>, offset: nat)
    requires offset <= |chunk| && LF !in chunk[offset..|chunk|]
    requires var here := FeedAll(p, before, chunk[..offset]); here.Open? && here.final.None?
    ensures var here := FeedAll(p, before, chunk[..offset]);
      FeedAll(p, before, chunk[..|chunk|]) == here.(buffer := here.buffer + chunk[offset..|chunk|])
  {
    assert chunk[..|chunk|] == chunk[..offset] + chunk[offset..|chunk|];
    FeedAllSplits(p, before, chunk[..offset], chunk[offset..|chunk|]);
    PlainBytesBuffer(p, FeedAll(p, before, chunk[..offset]), chunk[offset..|chunk|]);
  }

  lemma ChunkLine(p: Protocol, before: Stream, chunk: seq<Byte>, offset: nat, newline: nat)
    requires offset <= newline < |chunk| && LF !in chunk[offset..newline] && chunk[newline] == LF
    requires var here := FeedAll(p, before, chunk[..offset]); here.Open? && here.final.None?
    ensures var here := FeedAll(p, before, chunk[..offset]);
      var taken := TakeLine(p, here.(buffer := here.buffer + chunk[offset..newline]));
      && FeedAll(p, before, chunk[..newline + 1]) == taken
      && FeedAll(p, before, chunk) == FeedAll(p, taken, chunk[newline + 1..])
  {
    var here := FeedAll(p, before, chunk[..offset]);
    var part := chunk[offset..newline];
    ThroughNewline(chunk, offset, newline);
    FeedAllSplits(p, before, chunk[..offset], part + [LF] + []);
    WholeLineIsTaken(p, here, part, []);
    FeedAllSplits(p, before, chunk[..newline + 1], chunk[newline + 1..]);
  }

  lemma ThroughNewline(chunk: seq<Byte>, offset: nat, newline: nat)
    requires offset <= newline < |chunk| && chunk[newline] == LF
    ensures chunk[..newline + 1] == chunk[..offset] + (chunk[offset..newline] + [LF] + [])
    ensures chunk == chunk[..newline + 1] + chunk[newline + 1..]
  {
  }

  lemma {:induction false} JoinGrows(pieces: seq<seq<Byte>>, part: seq<Byte>)
    ensures Join(pieces + [part]) == Join(pieces) + part
  {
    if pieces == [] {
      assert [part][1..] == [] && [] + [part] == [part];
      assert Join([part]) == part + [];
    } else {
      assert (pieces + [part])[1..] == pieces[1..] + [part];
      JoinGrows(pieces[1..], part);
    }
  }
}
