/**
 * The executor response stream: newline-delimited frames cut out of arbitrary chunks. The handler
 * below sees one chunk at a time; the reference reads the whole stream. UTF-8, JSON, the frame
 * schema and the request id are one uninterpreted `parse` from a non-empty line to a frame.
 */
module ResponseFraming {
  import opened Options

  newtype Byte = b: int | 0 <= b < 256

  const LF: Byte := 0x0a
  const CR: Byte := 0x0d
  const HARD_MAX_BYTES: nat := 64 * 1024 * 1024
  const MAX_EVENT_BYTES: nat := 64 * 1024
  const MAX_EVENTS: nat := 8

  type Event = string
  datatype Reply = Reply(success: bool, code: string)

  /** `lineBytes` is the size of the decoded line encoded again. */
  datatype Frame = EventFrame(seqNo: nat, event: Event, lineBytes: nat) | FinalFrame(seqNo: nat, reply: Reply)

  datatype Protocol = Protocol(parse: seq<Byte> -> Option<Frame>, takesEvents: bool, limit: nat)

  /** The operator's limit, raised to the caller's floor, never above the hard maximum. */
  function EffectiveLimit(configured: nat, floor: nat): (limit: nat)
    ensures limit <= 67_108_864 && (limit < 67_108_864 ==> configured <= limit && floor <= limit)
    ensures limit in {configured, floor, 67_108_864}
  {
    var raised := if configured < floor then floor else configured;
    if raised < HARD_MAX_BYTES then raised else HARD_MAX_BYTES
  }

  function Join(pieces: seq<seq<Byte>>): seq<Byte> {
    if pieces == [] then [] else pieces[0] + Join(pieces[1..])
  }

  /** First position of the byte at or after `from`, or the length. */
  function IndexOf(s: seq<Byte>, b: Byte, from: nat): (i: nat)
    requires from <= |s|
    ensures from <= i <= |s|
    ensures b !in s[from..i] && (i < |s| ==> s[i] == b)
    decreases |s| - from
  {
    if from == |s| || s[from] == b then from
    else
      var i := IndexOf(s, b, from + 1);
      assert s[from..i] == [s[from]] + s[from + 1..i];
      i
  }

  // ---------------------------------------------------------------- one line

  function Content(line: seq<Byte>): seq<Byte> {
    if line != [] && line[|line| - 1] == CR then line[..|line| - 1] else line
  }

  function FrameOf(p: Protocol, line: seq<Byte>): Option<Frame> {
    if Content(line) == [] then None else p.parse(Content(line))
  }

  /** An event the profile, the count and the size admit as the frame after `events`. */
  predicate Admits(p: Protocol, events: seq<Event>, f: Frame) {
    f.EventFrame? && p.takesEvents && |events| < MAX_EVENTS && f.lineBytes <= MAX_EVENT_BYTES
  }

  // ---------------------------------------------------------------- the incremental receiver

  /** Between bytes: failed for good, or open with a partial line, the events so far and maybe the final reply. */
  datatype Stream = Broken(events: seq<Event>) | Open(buffer: seq<Byte>, events: seq<Event>, final: Option<Reply>)

  const START := Open([], [], None)

  /** Every accepted frame takes the next number; the final one is not an event. */
  function NextSeq(s: Stream): nat
    requires s.Open?
  {
    |s.events| + (if s.final.Some? then 1 else 0)
  }

  function TakeLine(p: Protocol, s: Stream): Stream
    requires s.Open? && s.final.None?
  {
    match FrameOf(p, s.buffer)
    case None => Broken(s.events)
    case Some(f) =>
      if f.seqNo != NextSeq(s) then Broken(s.events)
      else if f.FinalFrame? then Open([], s.events, Some(f.reply))
      else if Admits(p, s.events, f) then Open([], s.events + [f.event], None)
      else Broken(s.events)
  }

  function Feed(p: Protocol, s: Stream, b: Byte): Stream {
    if s.Broken? then s
    else if s.final.Some? then Broken(s.events)
    else if b == LF then TakeLine(p, s)
    else s.(buffer := s.buffer + [b])
  }

  function FeedAll(p: Protocol, s: Stream, bytes: seq<Byte>): Stream
    decreases |bytes|
  {
    if bytes == [] then s else FeedAll(p, Feed(p, s, bytes[0]), bytes[1..])
  }

  /** End of input: an unterminated last line still counts. */
  function Close(p: Protocol, s: Stream): Stream {
    if s.Broken? then s
    else if s.buffer == [] then (if s.final.Some? then s else Broken(s.events))
    else if s.final.Some? then Broken(s.events)
    else
      var t := TakeLine(p, s);
      if t.Open? && t.final.None? then Broken(t.events) else t
  }

  /** Every line taken was a frame, but none of them was the final one. */
  predicate LacksFinal(p: Protocol, s: Stream) {
    && s.Open? && s.final.None?
    && (s.buffer == [] || (TakeLine(p, s).Open? && TakeLine(p, s).final.None?))
  }

  /** What one upload has come to: still running, answered, or failed after some events. */
  datatype Upload =
    | Live(received: nat, stream: Stream)
    | Answered(reply: Reply, events: seq<Event>)
    | Failed(events: seq<Event>)

  const FRESH := Live(0, START)

  function OnChunk(p: Protocol, u: Upload, chunk: seq<Byte>): Upload {
    if !u.Live? then u
    else if u.received + |chunk| > p.limit then Failed(u.stream.events)
    else
      var s := FeedAll(p, u.stream, chunk);
      if s.Broken? then Failed(s.events) else Live(u.received + |chunk|, s)
  }

  function OnEnd(p: Protocol, u: Upload): Upload {
    if !u.Live? then u
    else
      var s := Close(p, u.stream);
      if s.Open? && s.final.Some? then Answered(s.final.value, s.events) else Failed(s.events)
  }

  function OnChunks(p: Protocol, u: Upload, chunks: seq<seq<Byte>>): Upload
    decreases |chunks|
  {
    if chunks == [] then u else OnChunks(p, OnChunk(p, u, chunks[0]), chunks[1..])
  }

  // ---------------------------------------------------------------- the whole-stream reference

  /** The stream cut at every newline; a last piece without one counts when it is not empty. */
  function Lines(bytes: seq<Byte>): seq<seq<Byte>>
    decreases |bytes|
  {
    if bytes == [] then []
    else
      var i := IndexOf(bytes, LF, 0);
      if i == |bytes| then [bytes] else [bytes[..i]] + Lines(bytes[i + 1..])
  }

  /** Within the limit, numbered from zero, only the last line final, every event admitted. */
  ghost predicate Conforms(p: Protocol, bytes: seq<Byte>, reply: Reply, events: seq<Event>) {
    && |bytes| <= p.limit
    && LinesConform(p, Lines(bytes), reply, events)
  }

  /** The line is the admissible event frame of this number. */
  predicate IsEvent(p: Protocol, line: seq<Byte>, seqNo: nat, event: Event) {
    var f := FrameOf(p, line);
    && f.Some? && f.value.EventFrame? && f.value.seqNo == seqNo && f.value.event == event
    && p.takesEvents && f.value.lineBytes <= MAX_EVENT_BYTES
  }

  ghost predicate LinesConform(p: Protocol, lines: seq<seq<Byte>>, reply: Reply, events: seq<Event>) {
    && |lines| == |events| + 1 && |events| <= MAX_EVENTS
    && (forall i :: 0 <= i < |events| ==> IsEvent(p, lines[i], i, events[i]))
    && FrameOf(p, lines[|events|]) == Some(FinalFrame(|events|, reply))
  }

  /** The events a reader takes from the front of the lines before anything is wrong or final. */
  function LeadingEvents(p: Protocol, lines: seq<seq<Byte>>, before: seq<Event>): (events: seq<Event>)
    ensures before <= events
    decreases |lines|
  {
    if lines == [] then before
    else
      match FrameOf(p, lines[0])
      case None => before
      case Some(f) =>
        if f.seqNo == |before| && Admits(p, before, f) then LeadingEvents(p, lines[1..], before + [f.event])
        else before
  }

  // ---------------------------------------------------------------- feeding

  lemma {:induction false} FeedAllSplits(p: Protocol, s: Stream, a: seq<Byte>, b: seq<Byte>)
    ensures FeedAll(p, s, a + b) == FeedAll(p, FeedAll(p, s, a), b)
    decreases |a|
  {
    if a == [] {
      assert a + b == b;
    } else {
      assert (a + b)[1..] == a[1..] + b;
      FeedAllSplits(p, Feed(p, s, a[0]), a[1..], b);
    }
  }

  lemma {:induction false} BrokenStays(p: Protocol, s: Stream, a: seq<Byte>)
    requires s.Broken?
    ensures FeedAll(p, s, a) == s
    decreases |a|
  {
    if a != [] {
      BrokenStays(p, s, a[1..]);
    }
  }

  lemma {:induction false} PlainBytesBuffer(p: Protocol, s: Stream, a: seq<Byte>)
    requires s.Open? && s.final.None? && LF !in a
    ensures FeedAll(p, s, a) == s.(buffer := s.buffer + a)
    decreases |a|
  {
    if a == [] {
      assert s.buffer + a == s.buffer;
    } else {
      PlainBytesBuffer(p, s.(buffer := s.buffer + [a[0]]), a[1..]);
      assert s.buffer + [a[0]] + a[1..] == s.buffer + a;
    }
  }

  /** A line and its newline, fed to an open stream, is taken as one line. */
  lemma WholeLineIsTaken(p: Protocol, s: Stream, line: seq<Byte>, rest: seq<Byte>)
    requires s.Open? && s.final.None? && LF !in line
    ensures FeedAll(p, s, line + [LF] + rest)
         == FeedAll(p, TakeLine(p, s.(buffer := s.buffer + line)), rest)
  {
    FeedAllSplits(p, s, line + [LF], rest);
    FeedAllSplits(p, s, line, [LF]);
    PlainBytesBuffer(p, s, line);
    var t := s.(buffer := s.buffer + line);
    assert FeedAll(p, t, [LF]) == FeedAll(p, Feed(p, t, LF), [LF][1..]);
  }

  lemma AfterFinalBreaks(p: Protocol, s: Stream, a: seq<Byte>)
    requires s.Open? && s.final.Some? && a != []
    ensures FeedAll(p, s, a) == Broken(s.events)
  {
    BrokenStays(p, Broken(s.events), a[1..]);
  }

  // ---------------------------------------------------------------- the receiver equals the reference

  /** Open between lines: nothing buffered and every event so far within bounds. */
  ghost predicate BetweenLines(s: Stream) { s.Open? && s.buffer == [] && s.final.None? && |s.events| <= MAX_EVENTS }

  /** The part of LinesConform that is left once `taken` events are behind. */
  ghost predicate TailConforms(p: Protocol, lines: seq<seq<Byte>>, taken: seq<Event>, reply: Reply,
                               events: seq<Event>) {
    && taken <= events && |events| <= MAX_EVENTS && |lines| == |events| - |taken| + 1
    && (forall i :: 0 <= i < |lines| - 1 ==> IsEvent(p, lines[i], |taken| + i, events[|taken| + i]))
    && FrameOf(p, lines[|lines| - 1]) == Some(FinalFrame(|events|, reply))
  }

  /** Peeling one event line off a conforming tail. */
  lemma TailPeels(p: Protocol, lines: seq<seq<Byte>>, s: Stream, reply: Reply, events: seq<Event>)
    requires lines != [] && BetweenLines(s) && TailConforms(p, lines, s.events, reply, events)
    ensures var t := TakeLine(p, s.(buffer := lines[0]));
      && t.Open?
      && (t.final.Some? ==> lines[1..] == [] && t.final == Some(reply) && t.events == events)
      && (t.final.None? ==> TailConforms(p, lines[1..], t.events, reply, events))
  {
    var n := |s.events|;
    if n < |events| {
      assert IsEvent(p, lines[0], n, events[n]);
      assert events[..n + 1] == s.events + [events[n]];
      var rest := lines[1..];
      forall i | 0 <= i < |rest| - 1
        ensures IsEvent(p, rest[i], n + 1 + i, events[n + 1 + i])
      {
        assert rest[i] == lines[i + 1];
      }
    } else {
      assert events == s.events;
    }
  }

  /** Putting it back. */
  lemma TailGrows(p: Protocol, lines: seq<seq<Byte>>, s: Stream, reply: Reply, events: seq<Event>)
    requires lines != [] && BetweenLines(s) && TakeLine(p, s.(buffer := lines[0])).Open?
    requires var t := TakeLine(p, s.(buffer := lines[0]));
      if t.final.Some? then lines[1..] == [] && t.final == Some(reply) && t.events == events
      else TailConforms(p, lines[1..], t.events, reply, events)
    ensures TailConforms(p, lines, s.events, reply, events)
  {
    var t := TakeLine(p, s.(buffer := lines[0]));
    var n := |s.events|;
    if t.final.None? {
      assert events[n] == t.events[n];
      var rest := lines[1..];
      forall i | 0 <= i < |lines| - 1
        ensures IsEvent(p, lines[i], n + i, events[n + i])
      {
        if i > 0 {
          assert lines[i] == rest[i - 1];
        }
      }
    }
  }

  /** The upload ends in this answer. */
  predicate Answers(t: Stream, reply: Reply, events: seq<Event>) { t == Open([], events, Some(reply)) }

  /** One line of the tail, as the receiver takes it. */
  lemma LineMatches(p: Protocol, s: Stream, lines: seq<seq<Byte>>, reply: Reply, events: seq<Event>)
    requires BetweenLines(s) && lines != []
    ensures var t := TakeLine(p, s.(buffer := lines[0]));
      TailConforms(p, lines, s.events, reply, events) <==>
      if BetweenLines(t) then TailConforms(p, lines[1..], t.events, reply, events)
      else lines[1..] == [] && Answers(t, reply, events)
  {
    var t := TakeLine(p, s.(buffer := lines[0]));
    if TailConforms(p, lines, s.events, reply, events) {
      TailPeels(p, lines, s, reply, events);
    }
    if BetweenLines(t) && TailConforms(p, lines[1..], t.events, reply, events) {
      TailGrows(p, lines, s, reply, events);
    }
    if !BetweenLines(t) && lines[1..] == [] && Answers(t, reply, events) {
      TailGrows(p, lines, s, reply, events);
    }
  }

  /** A receiver that is broken or has its final frame answers only if nothing follows. */
  lemma DoneAnswersAtOnce(p: Protocol, t: Stream, rest: seq<Byte>, reply: Reply, events: seq<Event>)
    requires t.Broken? || (t.final.Some? && t.buffer == [])
    ensures Answers(Close(p, FeedAll(p, t, rest)), reply, events) <==> rest == [] && Answers(t, reply, events)
  {
    if t.Broken? {
      BrokenStays(p, t, rest);
    } else if rest != [] {
      AfterFinalBreaks(p, t, rest);
    }
  }

  lemma {:induction false} ReceiverMatchesLines(p: Protocol, s: Stream, bytes: seq<Byte>, reply: Reply,
                                                events: seq<Event>)
    requires BetweenLines(s)
    ensures Answers(Close(p, FeedAll(p, s, bytes)), reply, events) <==>
            TailConforms(p, Lines(bytes), s.events, reply, events)
    decreases |bytes|
  {
    if bytes != [] {
      var i := IndexOf(bytes, LF, 0);
      if i == |bytes| {
        LastLineMatches(p, s, bytes, reply, events);
      } else {
        var rest := bytes[i + 1..];
        LineAndRest(p, s, bytes);
        LineMatches(p, s, Lines(bytes), reply, events);
        var t := TakeLine(p, s.(buffer := bytes[..i]));
        LineIsLeading(p, s, Lines(bytes));
        if BetweenLines(t) {
          ReceiverMatchesLines(p, t, rest, reply, events);
        } else {
          DoneAnswersAtOnce(p, t, rest, reply, events);
          assert Lines(rest) == [] <==> rest == [];
        }
      }
    }
  }

  /** The stream up to and past its first newline. */
  lemma LineAndRest(p: Protocol, s: Stream, bytes: seq<Byte>)
    requires s.Open? && s.final.None? && s.buffer == [] && IndexOf(bytes, LF, 0) < |bytes|
    ensures var i := IndexOf(bytes, LF, 0);
      && Lines(bytes)[0] == bytes[..i] && Lines(bytes)[1..] == Lines(bytes[i + 1..])
      && FeedAll(p, s, bytes) == FeedAll(p, TakeLine(p, s.(buffer := bytes[..i])), bytes[i + 1..])
  {
    var i := IndexOf(bytes, LF, 0);
    assert bytes[0..i] == bytes[..i];
    assert bytes == bytes[..i] + [LF] + bytes[i + 1..];
    WholeLineIsTaken(p, s, bytes[..i], bytes[i + 1..]);
    assert s.buffer + bytes[..i] == bytes[..i];
  }

  /** The unterminated last line. */
  lemma LastLineIsClosed(p: Protocol, s: Stream, bytes: seq<Byte>)
    requires s.Open? && s.final.None? && s.buffer == [] && bytes != [] && IndexOf(bytes, LF, 0) == |bytes|
    ensures Lines(bytes) == [bytes] && FeedAll(p, s, bytes) == s.(buffer := bytes)
  {
    assert bytes[0..|bytes|] == bytes;
    PlainBytesBuffer(p, s, bytes);
    assert s.buffer + bytes == bytes;
  }

  lemma LastLineMatches(p: Protocol, s: Stream, bytes: seq<Byte>, reply: Reply, events: seq<Event>)
    requires BetweenLines(s) && bytes != [] && IndexOf(bytes, LF, 0) == |bytes|
    ensures Answers(Close(p, FeedAll(p, s, bytes)), reply, events) <==>
            TailConforms(p, Lines(bytes), s.events, reply, events)
  {
    LastLineIsClosed(p, s, bytes);
    var t := TakeLine(p, s.(buffer := bytes));
    assert [bytes][1..] == [];
    if TailConforms(p, [bytes], s.events, reply, events) {
      TailPeels(p, [bytes], s, reply, events);
    } else if Answers(t, reply, events) {
      TailGrows(p, [bytes], s, reply, events);
    }
  }

  /** The receiver and the reference agree on what the next line adds. */
  lemma LineIsLeading(p: Protocol, s: Stream, lines: seq<seq<Byte>>)
    requires BetweenLines(s) && lines != []
    ensures var t := TakeLine(p, s.(buffer := lines[0]));
      if BetweenLines(t) then LeadingEvents(p, lines, s.events) == LeadingEvents(p, lines[1..], t.events)
      else t.events == s.events && (t.Open? ==> t.final.Some?)
  {
  }

  /** Whatever happens later, delivered events come from the front of the reference's. */
  lemma {:induction false} DeliveredIsLeading(p: Protocol, s: Stream, bytes: seq<Byte>)
    requires BetweenLines(s)
    ensures FeedAll(p, s, bytes).events <= LeadingEvents(p, Lines(bytes), s.events)
    ensures Close(p, FeedAll(p, s, bytes)).events <= LeadingEvents(p, Lines(bytes), s.events)
    decreases |bytes|
  {
    if bytes != [] {
      var i := IndexOf(bytes, LF, 0);
      if i == |bytes| {
        LastLineIsLeading(p, s, bytes);
      } else {
        var rest := bytes[i + 1..];
        LineAndRest(p, s, bytes);
        LineIsLeading(p, s, Lines(bytes));
        var t := TakeLine(p, s.(buffer := bytes[..i]));
        if BetweenLines(t) {
          DeliveredIsLeading(p, t, rest);
        } else {
          DoneDeliversNothing(p, t, rest);
        }
      }
    }
  }

  lemma LastLineIsLeading(p: Protocol, s: Stream, bytes: seq<Byte>)
    requires BetweenLines(s) && bytes != [] && IndexOf(bytes, LF, 0) == |bytes|
    ensures FeedAll(p, s, bytes).events <= LeadingEvents(p, Lines(bytes), s.events)
    ensures Close(p, FeedAll(p, s, bytes)).events <= LeadingEvents(p, Lines(bytes), s.events)
  {
    LastLineIsClosed(p, s, bytes);
    LineIsLeading(p, s, [bytes]);
    assert [bytes][1..] == [];
  }

  lemma DoneDeliversNothing(p: Protocol, t: Stream, rest: seq<Byte>)
    requires t.Broken? || t.final.Some?
    ensures FeedAll(p, t, rest).events == t.events && Close(p, FeedAll(p, t, rest)).events == t.events
  {
    if t.Broken? {
      BrokenStays(p, t, rest);
    } else if rest != [] {
      AfterFinalBreaks(p, t, rest);
    }
  }

  // ---------------------------------------------------------------- chunking invariance

  /** A live upload is exactly the whole prefix fed at once, within the limit. */
  lemma {:induction false} ChunksAreTheirJoin(p: Protocol, u: Upload, chunks: seq<seq<Byte>>)
    requires u.Live? && u.stream.Open? && u.received <= p.limit
    ensures var v := OnChunks(p, u, chunks); var s := FeedAll(p, u.stream, Join(chunks));
      && !v.Answered?
      && (v.Live? <==> u.received + |Join(chunks)| <= p.limit && s.Open?)
      && (v.Live? ==> v.received == u.received + |Join(chunks)| && v.stream == s)
      && (v.Failed? ==> v.events <= s.events)
    decreases |chunks|
  {
    if chunks != [] {
      var rest := Join(chunks[1..]);
      FeedAllSplits(p, u.stream, chunks[0], rest);
      var s := FeedAll(p, u.stream, chunks[0]);
      var v := OnChunk(p, u, chunks[0]);
      EventsOnlyGrow(p, u.stream, Join(chunks));
      EventsOnlyGrow(p, s, rest);
      if v.Live? {
        ChunksAreTheirJoin(p, v, chunks[1..]);
      } else {
        FailedStays(p, v, chunks[1..]);
        if s.Broken? {
          BrokenStays(p, s, rest);
        }
      }
    }
  }

  lemma {:induction false} FailedStays(p: Protocol, u: Upload, chunks: seq<seq<Byte>>)
    requires !u.Live?
    ensures OnChunks(p, u, chunks) == u
    decreases |chunks|
  {
    if chunks != [] {
      FailedStays(p, u, chunks[1..]);
    }
  }

  lemma {:induction false} EventsOnlyGrow(p: Protocol, s: Stream, bytes: seq<Byte>)
    ensures s.events <= FeedAll(p, s, bytes).events
    decreases |bytes|
  {
    if bytes != [] {
      EventsOnlyGrow(p, Feed(p, s, bytes[0]), bytes[1..]);
    }
  }

  /** For any split into chunks, the upload is answered exactly as the whole stream conforms. */
  lemma ChunkingInvariance(p: Protocol, chunks: seq<seq<Byte>>, reply: Reply, events: seq<Event>)
    ensures OnEnd(p, OnChunks(p, FRESH, chunks)) == Answered(reply, events) <==>
            Conforms(p, Join(chunks), reply, events)
  {
    var bytes := Join(chunks);
    ChunksAreTheirJoin(p, FRESH, chunks);
    AnsweredIsAnswering(p, chunks, reply, events);
    ReceiverMatchesLines(p, START, bytes, reply, events);
    TailFromNothing(p, Lines(bytes), reply, events);
  }

  /** An upload is answered exactly when its bytes are within the limit and the receiver closes on that answer. */
  lemma AnsweredIsAnswering(p: Protocol, chunks: seq<seq<Byte>>, reply: Reply, events: seq<Event>)
    ensures OnEnd(p, OnChunks(p, FRESH, chunks)) == Answered(reply, events) <==>
      |Join(chunks)| <= p.limit && Answers(Close(p, FeedAll(p, START, Join(chunks))), reply, events)
  {
    ChunksAreTheirJoin(p, FRESH, chunks);
    ClosedBufferIsEmpty(p, FeedAll(p, START, Join(chunks)));
  }

  lemma TailIsTheLines(p: Protocol, lines: seq<seq<Byte>>, reply: Reply, events: seq<Event>)
    requires TailConforms(p, lines, [], reply, events)
    ensures LinesConform(p, lines, reply, events)
  {
    forall i | 0 <= i < |events| ensures IsEvent(p, lines[i], i, events[i]) {
      assert IsEvent(p, lines[i], 0 + i, events[0 + i]);
    }
  }

  lemma LinesAreTheTail(p: Protocol, lines: seq<seq<Byte>>, reply: Reply, events: seq<Event>)
    requires LinesConform(p, lines, reply, events)
    ensures TailConforms(p, lines, [], reply, events)
  {
    forall i | 0 <= i < |lines| - 1 ensures IsEvent(p, lines[i], 0 + i, events[0 + i]) {
      assert IsEvent(p, lines[i], i, events[i]);
    }
  }

  lemma TailFromNothing(p: Protocol, lines: seq<seq<Byte>>, reply: Reply, events: seq<Event>)
    ensures TailConforms(p, lines, [], reply, events) <==> LinesConform(p, lines, reply, events)
  {
    if TailConforms(p, lines, [], reply, events) {
      TailIsTheLines(p, lines, reply, events);
    } else if LinesConform(p, lines, reply, events) {
      LinesAreTheTail(p, lines, reply, events);
    }
  }

  lemma ClosedBufferIsEmpty(p: Protocol, s: Stream)
    ensures Close(p, s).Open? ==> Close(p, s).buffer == [] && Close(p, s).final.Some?
  {
  }

  /** A failed upload has delivered a prefix of what the whole stream's reader would take. */
  lemma FailureDeliversAPrefix(p: Protocol, chunks: seq<seq<Byte>>)
    ensures var u := OnEnd(p, OnChunks(p, FRESH, chunks));
      u.Failed? ==> u.events <= LeadingEvents(p, Lines(Join(chunks)), [])
  {
    ChunksAreTheirJoin(p, FRESH, chunks);
    DeliveredIsLeading(p, START, Join(chunks));
  }

  /** Two splits of one stream are answered alike or both fail. */
  lemma SplitsAgree(p: Protocol, a: seq<seq<Byte>>, b: seq<seq<Byte>>)
    requires Join(a) == Join(b)
    ensures var u, v := OnEnd(p, OnChunks(p, FRESH, a)), OnEnd(p, OnChunks(p, FRESH, b));
      if u.Answered? then v == u else u.Failed? && v.Failed?
  {
    var u, v := OnEnd(p, OnChunks(p, FRESH, a)), OnEnd(p, OnChunks(p, FRESH, b));
    if u.Answered? {
      ChunkingInvariance(p, a, u.reply, u.events);
      ChunkingInvariance(p, b, u.reply, u.events);
    }
    if v.Answered? {
      ChunkingInvariance(p, a, v.reply, v.events);
      ChunkingInvariance(p, b, v.reply, v.events);
    }
  }
}
