/**
 * The response stream as a writer sees it: contents, each with the line ending it was written with.
 * What an upload is answered with is told from the contents alone, without the receiver's own terms.
 */
module ResponseLines {
  import opened Options
  import opened ResponseFraming

  /** `Bare` and `Cr` are what the end of the stream leaves of a missing newline. */
  datatype Ending = Lf | CrLf | Bare | Cr

  datatype Written = Written(content: seq<Byte>, ending: Ending)

  function EndingBytes(e: Ending): seq<Byte> {
    match e
    case Lf => [LF]
    case CrLf => [CR, LF]
    case Bare => []
    case Cr => [CR]
  }

  function BytesOf(lines: seq<Written>): seq<Byte> {
    if lines == [] then [] else lines[0].content + EndingBytes(lines[0].ending) + BytesOf(lines[1..])
  }

  /** No newline inside, and a carriage return at its end only where the ending brings one more. */
  predicate Plain(l: Written) {
    && LF !in l.content
    && (l.ending.Lf? || l.ending.Bare? ==> l.content == [] || l.content[|l.content| - 1] != CR)
  }

  /** Every line but the last has its newline, and the last is not empty altogether. */
  predicate WellWritten(lines: seq<Written>) {
    && (forall l <- lines :: Plain(l))
    && (forall i :: 0 <= i < |lines| - 1 ==> lines[i].ending.Lf? || lines[i].ending.CrLf?)
    && (lines != [] ==> lines[|lines| - 1] != Written([], Bare))
  }

  /** The contents are the frames of these events, in order, and then of this reply. */
  ghost predicate Tells(p: Protocol, lines: seq<Written>, reply: Reply, events: seq<Event>) {
    && |lines| == |events| + 1 && |events| <= 8 && (events != [] ==> p.takesEvents)
    && (forall i :: 0 <= i < |lines| ==> lines[i].content != [])
    && (forall i :: 0 <= i < |events| ==> TellsEvent(p, lines[i].content, i, events[i]))
    && p.parse(lines[|events|].content) == Some(FinalFrame(|events|, reply))
  }

  ghost predicate TellsEvent(p: Protocol, content: seq<Byte>, seqNo: nat, event: Event) {
    exists bytes: nat :: bytes <= 65536 && p.parse(content) == Some(EventFrame(seqNo, event, bytes))
  }

  // ---------------------------------------------------------------- one line

  /** What stands before the newline. */
  function LineOf(l: Written): seq<Byte> {
    if l.ending.CrLf? || l.ending.Cr? then l.content + [CR] else l.content
  }

  lemma LineCarriesItsContent(p: Protocol, l: Written)
    requires Plain(l)
    ensures LF !in LineOf(l)
    ensures FrameOf(p, LineOf(l)) == if l.content == [] then None else p.parse(l.content)
  {
    if l.ending.CrLf? || l.ending.Cr? {
      assert (l.content + [CR])[..|l.content|] == l.content;
    }
  }

  lemma EventLine(p: Protocol, l: Written, seqNo: nat, event: Event)
    requires Plain(l)
    ensures IsEvent(p, LineOf(l), seqNo, event) <==>
            p.takesEvents && l.content != [] && TellsEvent(p, l.content, seqNo, event)
  {
    LineCarriesItsContent(p, l);
    if IsEvent(p, LineOf(l), seqNo, event) {
      assert p.parse(l.content) == Some(EventFrame(seqNo, event, FrameOf(p, LineOf(l)).value.lineBytes));
    }
  }

  // ---------------------------------------------------------------- all lines

  function LinesOf(lines: seq<Written>): seq<seq<Byte>> {
    if lines == [] then [] else [LineOf(lines[0])] + LinesOf(lines[1..])
  }

  lemma {:induction false} LinesOfAt(lines: seq<Written>, i: nat)
    requires i < |lines|
    ensures |LinesOf(lines)| == |lines| && LinesOf(lines)[i] == LineOf(lines[i])
  {
    if i > 0 {
      LinesOfAt(lines[1..], i - 1);
    } else if |lines| > 1 {
      LinesOfAt(lines[1..], 0);
    }
  }

  lemma LinesOfAll(lines: seq<Written>)
    ensures |LinesOf(lines)| == |lines| && forall i :: 0 <= i < |lines| ==> LinesOf(lines)[i] == LineOf(lines[i])
  {
    if lines != [] { LinesOfAt(lines, 0); }
    forall i | 0 <= i < |lines| ensures LinesOf(lines)[i] == LineOf(lines[i]) {
      LinesOfAt(lines, i);
    }
  }

  /** The first newline of a line and its rest is the line's own. */
  lemma FirstNewline(line: seq<Byte>, rest: seq<Byte>)
    requires LF !in line
    ensures var bytes := line + [LF] + rest;
      IndexOf(bytes, LF, 0) == |line| && bytes[..|line|] == line && bytes[|line| + 1..] == rest
  {
    NewlineAt(line + [LF] + rest, 0, |line|);
  }

  lemma {:induction false} NewlineAt(bytes: seq<Byte>, from: nat, at: nat)
    requires from <= at < |bytes| && bytes[at] == LF && forall k :: from <= k < at ==> bytes[k] != LF
    ensures IndexOf(bytes, LF, from) == at
    decreases at - from
  {
    if from < at { NewlineAt(bytes, from + 1, at); }
  }

  lemma {:induction false} StreamHasTheseLines(lines: seq<Written>)
    requires WellWritten(lines)
    ensures Lines(BytesOf(lines)) == LinesOf(lines)
  {
    if lines != [] {
      var l, rest := lines[0], BytesOf(lines[1..]);
      var line := LineOf(l);
      assert Plain(l) && WellWritten(lines[1..]) by { RestIsWellWritten(lines); }
      assert LF !in line;
      StreamHasTheseLines(lines[1..]);
      if l.ending.Lf? || l.ending.CrLf? {
        NewlineEndsIt(l, rest);
        LineThenRest(line, rest);
      } else {
        assert lines[1..] == [] && BytesOf(lines) == line;
        LastLine(line);
      }
    }
  }

  lemma NewlineEndsIt(l: Written, rest: seq<Byte>)
    requires l.ending.Lf? || l.ending.CrLf?
    ensures l.content + EndingBytes(l.ending) + rest == LineOf(l) + [LF] + rest
  {
    assert EndingBytes(l.ending) == (if l.ending.CrLf? then [CR] + [LF] else [LF]);
    assert l.content + EndingBytes(l.ending) == LineOf(l) + [LF];
  }

  lemma LineThenRest(line: seq<Byte>, rest: seq<Byte>)
    requires LF !in line
    ensures Lines(line + [LF] + rest) == [line] + Lines(rest)
  {
    FirstNewline(line, rest);
  }

  lemma RestIsWellWritten(lines: seq<Written>)
    requires WellWritten(lines) && lines != []
    ensures WellWritten(lines[1..])
  {
    forall i | 0 <= i < |lines[1..]| - 1 ensures lines[1..][i].ending.Lf? || lines[1..][i].ending.CrLf? {
      assert lines[1..][i] == lines[i + 1];
    }
  }

  lemma LastLine(line: seq<Byte>)
    requires LF !in line && line != []
    ensures Lines(line) == [line]
  {
    assert IndexOf(line, LF, 0) == |line|;
  }

  lemma TellingConforms(p: Protocol, lines: seq<Written>, reply: Reply, events: seq<Event>)
    requires WellWritten(lines) && Tells(p, lines, reply, events)
    ensures LinesConform(p, LinesOf(lines), reply, events)
  {
    LinesOfAll(lines);
    LineCarriesItsContent(p, lines[|events|]);
    forall i | 0 <= i < |events| ensures IsEvent(p, LinesOf(lines)[i], i, events[i]) {
      EventLine(p, lines[i], i, events[i]);
      assert TellsEvent(p, lines[i].content, i, events[i]);
    }
  }

  lemma ConformingTells(p: Protocol, lines: seq<Written>, reply: Reply, events: seq<Event>)
    requires WellWritten(lines) && LinesConform(p, LinesOf(lines), reply, events)
    ensures Tells(p, lines, reply, events)
  {
    LinesOfAll(lines);
    LineCarriesItsContent(p, lines[|events|]);
    forall i | 0 <= i < |events|
      ensures p.takesEvents && lines[i].content != [] && TellsEvent(p, lines[i].content, i, events[i])
    {
      EventLine(p, lines[i], i, events[i]);
      assert IsEvent(p, LinesOf(lines)[i], i, events[i]);
    }
  }

  lemma TellingLinesConform(p: Protocol, lines: seq<Written>, reply: Reply, events: seq<Event>)
    requires WellWritten(lines)
    ensures LinesConform(p, LinesOf(lines), reply, events) <==> Tells(p, lines, reply, events)
  {
    if Tells(p, lines, reply, events) {
      TellingConforms(p, lines, reply, events);
    } else if LinesConform(p, LinesOf(lines), reply, events) {
      ConformingTells(p, lines, reply, events);
    }
  }

  // ---------------------------------------------------------------- theorems

  /**
   * However it is split into chunks and whichever line endings it is written with, an upload is answered
   * exactly when it is within the limit and its contents are numbered event frames and one final frame.
   */
  lemma UploadTellsItsContents(p: Protocol, chunks: seq<seq<Byte>>, lines: seq<Written>, reply: Reply,
                               events: seq<Event>)
    requires WellWritten(lines) && Join(chunks) == BytesOf(lines)
    ensures OnEnd(p, OnChunks(p, FRESH, chunks)) == Answered(reply, events) <==>
            |Join(chunks)| <= p.limit && Tells(p, lines, reply, events)
  {
    ChunkingInvariance(p, chunks, reply, events);
    StreamHasTheseLines(lines);
    TellingLinesConform(p, lines, reply, events);
  }

  /** Whatever bytes arrive, they are the writing of some lines. */
  lemma {:induction false} EveryStreamIsWritten(bytes: seq<Byte>) returns (lines: seq<Written>)
    ensures WellWritten(lines) && BytesOf(lines) == bytes
    decreases |bytes|
  {
    if bytes == [] {
      lines := [];
    } else {
      var i := IndexOf(bytes, LF, 0);
      var line := bytes[..i];
      assert LF !in line by { assert line == bytes[0..i]; }
      if i == |bytes| {
        var l := LineIsWritten(line, false);
        lines := [l];
        assert [l][1..] == [] && BytesOf([l]) == l.content + EndingBytes(l.ending) + [];
      } else {
        var l := LineIsWritten(line, true);
        var rest := EveryStreamIsWritten(bytes[i + 1..]);
        lines := [l] + rest;
        assert lines[1..] == rest;
        assert bytes == line + [LF] + bytes[i + 1..];
      }
    }
  }

  lemma LineIsWritten(line: seq<Byte>, newline: bool) returns (l: Written)
    requires LF !in line && (line == [] ==> newline)
    ensures Plain(l) && l != Written([], Bare) && (newline <==> l.ending.Lf? || l.ending.CrLf?)
    ensures l.content + EndingBytes(l.ending) == if newline then line + [LF] else line
  {
    if line != [] && line[|line| - 1] == CR {
      l := Written(line[..|line| - 1], if newline then CrLf else Cr);
      assert line == line[..|line| - 1] + [CR];
    } else {
      l := Written(line, if newline then Lf else Bare);
    }
  }

  /** A single frame: its reply is the answer under every ending, and a blank line never is. */
  lemma OneFrameIsAnswered(p: Protocol, content: seq<Byte>, ending: Ending, reply: Reply)
    requires Plain(Written(content, ending)) && |content| + 2 <= p.limit
    ensures OnEnd(p, OnChunks(p, FRESH, [content + EndingBytes(ending)])) == Answered(reply, []) <==>
            content != [] && p.parse(content) == Some(FinalFrame(0, reply))
  {
    var l := Written(content, ending);
    var bytes := content + EndingBytes(ending);
    assert [bytes][1..] == [] && Join([bytes]) == bytes + [] == bytes;
    if l == Written([], Bare) {
      assert BytesOf([]) == [] == bytes;
      UploadTellsItsContents(p, [bytes], [], reply, []);
    } else {
      assert [l][1..] == [] && BytesOf([l]) == bytes + [] == bytes;
      UploadTellsItsContents(p, [bytes], [l], reply, []);
    }
  }
}
