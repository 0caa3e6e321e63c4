/**
 What the decoder delivers for a whole stream, next to what the line-by-line interpretation of
 the event stream format (WHATWG HTML Living Standard, sections 9.2.5 and 9.2.6) delivers.

 Two departures are part of both sides: a block whose data is empty delivers nothing, and a block
 that the end of the stream leaves open is closed.  The third one, a lone CR kept in the last line of
 a block, is what the theorems of this file are about.
 */
module SseStandard {
  import opened Wrappers
  import opened SseDecoder

  // ---------------------------------------------------------------------------------------------
  // The standard: normalise line endings, then interpret one line after the other
  // ---------------------------------------------------------------------------------------------

  /** CRLF and lone CR become LF. */
  function Normalize(s: Bytes): Bytes {
    if s == [] then []
    else if s[0] != CR then [s[0]] + Normalize(s[1..])
    else [LF] + Normalize(if |s| > 1 && s[1] == LF then s[2..] else s[1..])
  }

  /** The LF-terminated lines of normalised text. */
  function SplitLines(s: Bytes, line: Bytes := []): seq<Bytes>
    decreases |s|
  {
    if s == [] then []
    else if s[0] == LF then [line] + SplitLines(s[1..])
    else SplitLines(s[1..], line + [s[0]])
  }

  function NonEmpty(payloads: seq<Bytes>): seq<Bytes> {
    if payloads == [] then []
    else if payloads[0] == [] then NonEmpty(payloads[1..])
    else [payloads[0]] + NonEmpty(payloads[1..])
  }

  /** Index of the first colon, or the length when there is none. */
  function FirstColon(line: Bytes): (i: nat)
    ensures i <= |line| && (i < |line| ==> line[i] == COLON)
    ensures forall j :: 0 <= j < i ==> line[j] != COLON
  {
    if line == [] || line[0] == COLON then 0 else 1 + FirstColon(line[1..])
  }

  /** What stands before the first colon, or the whole line. */
  function FieldName(line: Bytes): Bytes {
    line[..FirstColon(line)]
  }

  /** What stands behind the first colon and, if there is one, a space right behind it. */
  function FieldValue(line: Bytes): Bytes {
    var i := FirstColon(line);
    if i == |line| then []
    else if i + 1 < |line| && line[i + 1] == SPACE then line[i + 2..]
    else line[i + 1..]
  }

  function WithoutLastLf(buffer: Bytes): Bytes {
    if buffer != [] && buffer[|buffer| - 1] == LF then buffer[..|buffer| - 1] else buffer
  }

  /**
   The value of each data field goes to the data buffer with an LF behind it; a blank line dispatches the
   buffer without its last LF.  Lines with another field name are passed over.
   */
  function Interpret(lines: seq<Bytes>, buffer: Bytes := []): seq<Bytes>
    decreases |lines|
  {
    if lines == [] then []
    else if lines[0] == [] then NonEmpty([WithoutLastLf(buffer)]) + Interpret(lines[1..])
    else if FieldName(lines[0]) == DATA then Interpret(lines[1..], buffer + FieldValue(lines[0]) + [LF])
    else Interpret(lines[1..], buffer)
  }

  function StandardPayloads(s: Bytes): seq<Bytes> {
    Interpret(SplitLines(Normalize(s + [LF, LF])))
  }

  // ---------------------------------------------------------------------------------------------
  // The decoder: blocks of lines that remember a lone CR
  // ---------------------------------------------------------------------------------------------

  datatype Line = Line(text: Bytes, loneCr: bool)

  function FirstLine(t: Bytes): Line
    requires LineBoundary(t).Some?
  {
    var l := LineBoundary(t).value;
    Line(t[..l.end], t[l.end] == CR && l.next == l.end + 1)
  }

  function Lines(t: Bytes): seq<Line>
    decreases |t|
  {
    match LineBoundary(t)
    case None => []
    case Some(l) => [FirstLine(t)] + Lines(t[l.next..])
  }

  function Blocks(lines: seq<Line>): seq<seq<Line>> {
    if lines == [] then []
    else
      var rest := Blocks(lines[1..]);
      if lines[0].text == [] then [[]] + rest
      else if rest == [] then []
      else [[lines[0]] + rest[0]] + rest[1..]
  }

  function Texts(lines: seq<Line>): seq<Bytes> {
    if lines == [] then [] else [lines[0].text] + Texts(lines[1..])
  }

  /** The lines of a block as the decoder reads them: a lone CR stays in the last one. */
  function ReadTexts(block: seq<Line>): seq<Bytes> {
    if block == [] then []
    else if |block| == 1 && block[0].loneCr then [block[0].text + [CR]]
    else [block[0].text] + ReadTexts(block[1..])
  }

  function ReadData(block: seq<Line>): Bytes {
    JoinLines(DataValues(ReadTexts(block)))
  }

  function StandardData(block: seq<Line>): Bytes {
    JoinLines(DataValues(Texts(block)))
  }

  function AllReadData(blocks: seq<seq<Line>>): seq<Bytes> {
    if blocks == [] then [] else [ReadData(blocks[0])] + AllReadData(blocks[1..])
  }

  function AllStandardData(blocks: seq<seq<Line>>): seq<Bytes> {
    if blocks == [] then [] else [StandardData(blocks[0])] + AllStandardData(blocks[1..])
  }

  function StreamBlocks(s: Bytes): seq<seq<Line>> {
    Blocks(Lines(s + [LF, LF]))
  }

  function DecodedPayloads(s: Bytes): seq<Bytes> {
    NonEmpty(AllReadData(StreamBlocks(s)))
  }

  /** Hands payloads to the handler one by one, until it stops or something fails. */
  function Deliver(env: Env, payloads: seq<Bytes>, log: seq<Bytes>): (seq<Bytes>, Outcome)
    decreases |payloads|
  {
    if payloads == [] then (log, Open)
    else
      var (log', outcome) := Emit(env, payloads[0], log);
      if outcome.Open? then Deliver(env, payloads[1..], log') else (log', outcome)
  }

  // ---------------------------------------------------------------------------------------------
  // The decoder delivers the blocks of the stream, for every stream
  // ---------------------------------------------------------------------------------------------

  lemma {:induction false} FirstBreakIn(t: Bytes, n: nat)
    requires n <= |t|
    ensures FirstBreak(t[..n]) == if FirstBreak(t) < n then FirstBreak(t) else n
  {
    if t != [] && n > 0 && !IsBreak(t[0]) {
      assert t[..n][1..] == t[1..][..n - 1];
      FirstBreakIn(t[1..], n - 1);
    }
  }

  /** A line's boundary seen in a frame that goes on for `more` bytes after it, or ends with it. */
  lemma BoundaryInFrame(t: Bytes, more: nat)
    requires LineBoundary(t).Some? && LineBoundary(t).value.next + more <= |t|
    ensures var l := LineBoundary(t).value;
            LineBoundary(t[..l.next + more])
              == if more == 0 && FirstLine(t).loneCr then None else Some(l)
  {
    FirstBreakIn(t, LineBoundary(t).value.next + more);
  }

  lemma FirstLineOfFrame(t: Bytes, more: nat)
    requires LineBoundary(t).Some? && LineBoundary(t).value.end > 0
    requires LineBoundary(t).value.next + more <= |t|
    ensures var l := LineBoundary(t).value;
            var line := FirstLine(t);
            FrameLines(t[..l.next + more])
              == if more == 0 && line.loneCr then [line.text + [CR]]
                 else [line.text] + FrameLines(t[l.next..][..more])
  {
    var l := LineBoundary(t).value;
    var frame := t[..l.next + more];
    BoundaryInFrame(t, more);
    assert frame != [];
    if LineBoundary(frame).None? {
      assert frame == FirstLine(t).text + [CR];
    } else {
      assert frame[l.next..] == t[l.next..][..more];
      assert frame[..l.end] == FirstLine(t).text;
    }
  }

  lemma BlocksOfLine(line: Line, lines: seq<Line>)
    ensures Blocks([line] + lines)
         == if line.text == [] then [[]] + Blocks(lines)
            else if Blocks(lines) == [] then []
            else [[line] + Blocks(lines)[0]] + Blocks(lines)[1..]
  {
    assert ([line] + lines)[1..] == lines;
  }

  lemma ReadTextsOfLine(line: Line, block: seq<Line>)
    ensures ReadTexts([line] + block)
         == if block == [] && line.loneCr then [line.text + [CR]] else [line.text] + ReadTexts(block)
  {
    assert ([line] + block)[1..] == block;
  }

  /** The frame `frame` and what follows it are the first block of `blocks` and the others. */
  ghost predicate Splits(blocks: seq<seq<Line>>, frame: Bytes, rest: Bytes) {
    && |blocks| > 0
    && (blocks[0] == [] <==> frame == [])
    && ReadTexts(blocks[0]) == FrameLines(frame)
    && blocks[1..] == Blocks(Lines(rest))
  }

  lemma ReadTextsOfFrame(t: Bytes, block: seq<Line>, more: nat)
    requires LineBoundary(t).Some? && LineBoundary(t).value.end > 0
    requires LineBoundary(t).value.next + more <= |t|
    requires block == [] <==> more == 0
    requires ReadTexts(block) == FrameLines(t[LineBoundary(t).value.next..][..more])
    ensures ReadTexts([FirstLine(t)] + block) == FrameLines(t[..LineBoundary(t).value.next + more])
  {
    ReadTextsOfLine(FirstLine(t), block);
    FirstLineOfFrame(t, more);
  }

  lemma SplitsLonger(line: Line, blocks: seq<seq<Line>>, frame: Bytes, rest: Bytes, longer: Bytes)
    requires Splits(blocks, frame, rest) && longer != []
    requires ReadTexts([line] + blocks[0]) == FrameLines(longer)
    ensures Splits([[line] + blocks[0]] + blocks[1..], longer, rest)
  {
  }

  lemma BlocksOfBuffer(t: Bytes, rest: Bytes)
    requires LineBoundary(t).Some? && LineBoundary(t).value.end > 0
    requires rest == t[LineBoundary(t).value.next..] && Blocks(Lines(rest)) != []
    ensures var blocks := Blocks(Lines(rest));
            Blocks(Lines(t)) == [[FirstLine(t)] + blocks[0]] + blocks[1..]
  {
    assert Lines(t) == [FirstLine(t)] + Lines(rest);
    BlocksOfLine(FirstLine(t), Lines(rest));
  }

  lemma FirstLineSplits(t: Bytes, rest: Bytes, frame: Bytes, next: Bytes, more: nat)
    requires LineBoundary(t).Some? && LineBoundary(t).value.end > 0
    requires rest == t[LineBoundary(t).value.next..] && more <= |rest| && frame == rest[..more]
    requires Splits(Blocks(Lines(rest)), frame, next)
    ensures Splits(Blocks(Lines(t)), t[..LineBoundary(t).value.next + more], next)
  {
    var blocks := Blocks(Lines(rest));
    BlocksOfBuffer(t, rest);
    ReadTextsOfFrame(t, blocks[0], more);
    SplitsLonger(FirstLine(t), blocks, frame, next, t[..LineBoundary(t).value.next + more]);
  }

  lemma NoFrameNoBlock(t: Bytes, rest: Bytes)
    requires LineBoundary(t).Some? && LineBoundary(t).value.end > 0
    requires rest == t[LineBoundary(t).value.next..] && Blocks(Lines(rest)) == []
    ensures Blocks(Lines(t)) == []
  {
    BlocksOfLine(FirstLine(t), Lines(rest));
  }

  lemma BlankLineSplits(t: Bytes)
    requires LineBoundary(t).Some? && LineBoundary(t).value.end == 0
    ensures Splits(Blocks(Lines(t)), t[..0], t[LineBoundary(t).value.next..])
  {
    BlocksOfLine(FirstLine(t), Lines(t[LineBoundary(t).value.next..]));
  }

  /** A first frame found at `f` is the first block; without one there is no block. */
  ghost predicate BlockAt(t: Bytes, f: Option<Span>) {
    match f
    case None => Blocks(Lines(t)) == []
    case Some(span) =>
      span.end <= |t| && span.next <= |t| && Splits(Blocks(Lines(t)), t[..span.end], t[span.next..])
  }

  lemma BlockAfterLine(t: Bytes, rest: Bytes, f: Option<Span>)
    requires LineBoundary(t).Some? && LineBoundary(t).value.end > 0
    requires rest == t[LineBoundary(t).value.next..] && BlockAt(rest, f)
    ensures BlockAt(t, ShiftBy(f, LineBoundary(t).value.next))
  {
    hide Splits, Blocks, Lines;
    match f
    case None =>
      NoFrameNoBlock(t, rest);
    case Some(span) =>
      FirstLineSplits(t, rest, rest[..span.end], rest[span.next..], span.end);
      assert t[LineBoundary(t).value.next + span.next..] == rest[span.next..];
  }

  lemma {:induction false} FrameIsFirstBlock(t: Bytes)
    ensures BlockAt(t, FrameBoundary(t))
    decreases |t|
  {
    match LineBoundary(t)
    case None =>
    case Some(l) =>
      if l.end == 0 {
        BlankLineSplits(t);
      } else {
        FrameIsFirstBlock(t[l.next..]);
        BlockAfterLine(t, t[l.next..], FrameBoundary(t[l.next..]));
      }
  }

  lemma DeliverFirst(env: Env, data: Bytes, rest: seq<Bytes>, log: seq<Bytes>)
    ensures var (log', outcome) := Emit(env, data, log);
            Deliver(env, NonEmpty([data] + rest), log) ==
            if outcome.Open? then Deliver(env, NonEmpty(rest), log') else (log', outcome)
  {
    assert ([data] + rest)[1..] == rest;
  }

  /** One step of the drain, and one payload delivered. */
  lemma DrainStep(env: Env, t: Bytes, log: seq<Bytes>)
    ensures FrameBoundary(t).None? ==>
              Drain(env, t, log) == Progress(log, t, Open) && AllReadData(Blocks(Lines(t))) == []
    ensures FrameBoundary(t).Some? ==>
              var f := FrameBoundary(t).value;
              var data, rest := FrameData(t[..f.end]), AllReadData(Blocks(Lines(t[f.next..])));
              var (log', outcome) := Emit(env, data, log);
              && AllReadData(Blocks(Lines(t))) == [data] + rest
              && (if outcome.Open? then Drain(env, t, log) == Drain(env, t[f.next..], log')
                  else Drain(env, t, log).log == log' && Drain(env, t, log).outcome == outcome)
  {
    FrameIsFirstBlock(t);
    hide Lines, Blocks, FrameBoundary, FrameLines, ReadTexts, DataValues, JoinLines;
  }

  lemma {:induction false} DrainDeliversBlocks(env: Env, t: Bytes, log: seq<Bytes>)
    ensures var p := Drain(env, t, log);
            Deliver(env, NonEmpty(AllReadData(Blocks(Lines(t)))), log) == (p.log, p.outcome)
    decreases |t|
  {
    DrainStep(env, t, log);
    hide Drain, Lines, Blocks, FrameBoundary, AllReadData, FrameData, Emit;
    if FrameBoundary(t).Some? {
      var f := FrameBoundary(t).value;
      var data, rest := FrameData(t[..f.end]), AllReadData(Blocks(Lines(t[f.next..])));
      var (log', outcome) := Emit(env, data, log);
      DeliverFirst(env, data, rest, log);
      hide Deliver, NonEmpty;
      if outcome.Open? {
        DrainDeliversBlocks(env, t[f.next..], log');
      }
    }
  }

  lemma {:induction false} BlankHasNoData(frame: Bytes)
    requires !HasContent(frame)
    ensures DataValues(FrameLines(frame)) == []
    decreases |frame|
  {
    if frame != [] {
      var line := if LineBoundary(frame).None? then frame else frame[..LineBoundary(frame).value.end];
      assert forall i :: 0 <= i < |line| ==> line[i] == frame[i];
      assert |line| > 0 ==> IsWhitespace(line[0]);
      assert DataFieldValue(line) == None;
      if LineBoundary(frame).None? {
        assert FrameLines(frame) == [line] + [];
      } else {
        var rest := frame[LineBoundary(frame).value.next..];
        BlankHasNoData(rest);
        assert ([line] + FrameLines(rest))[1..] == FrameLines(rest);
      }
    }
  }

  lemma {:induction false} BlankDeliversNothing(env: Env, t: Bytes, log: seq<Bytes>)
    requires !HasContent(t)
    ensures Drain(env, t, log).log == log && Drain(env, t, log).outcome.Open?
    decreases |t|
  {
    match FrameBoundary(t)
    case None =>
    case Some(f) =>
      BlankHasNoData(t[..f.end]);
      BlankDeliversNothing(env, t[f.next..], log);
  }

  /** Closing the whole stream, blank or not, delivers what decoding it chunk by chunk delivers. */
  lemma FeedIsClosedDrain(env: Env, chunks: seq<Bytes>, log: seq<Bytes>)
    ensures SameDelivery(Feed(env, chunks, [], log), Drain(env, Concat(chunks) + [LF, LF], log))
  {
    var s := Concat(chunks);
    FeedIsOneDrain(env, chunks, [], log);
    assert [] + s == s;
    DrainInTwoSteps(env, s, [LF, LF], log);
    var p := Drain(env, s, log);
    ClosedOrNot(env, p.buffer, p.log);
    hide Drain, Feed, HasContent, Closed, Concat;
  }

  /** Closing a blank rest or not makes no difference to what is delivered. */
  lemma ClosedOrNot(env: Env, rest: Bytes, log: seq<Bytes>)
    ensures SameDelivery(Drain(env, Closed(rest), log), Drain(env, rest + [LF, LF], log))
  {
    if !HasContent(rest) {
      assert !HasContent(rest + [LF, LF]);
      BlankDeliversNothing(env, rest, log);
      BlankDeliversNothing(env, rest + [LF, LF], log);
    }
    hide Drain, HasContent;
  }

  /** For every stream and every cut into chunks, the handler gets the data of the stream's blocks. */
  lemma DecoderDeliversBlocks(env: Env, chunks: seq<Bytes>, log: seq<Bytes>)
    ensures var p := Feed(env, chunks, [], log);
            Deliver(env, DecodedPayloads(Concat(chunks)), log) == (p.log, p.outcome)
  {
    FeedIsClosedDrain(env, chunks, log);
    DrainDeliversBlocks(env, Concat(chunks) + [LF, LF], log);
  }

  lemma {:induction false} NonEmptyIsText(payloads: seq<Bytes>)
    ensures forall i :: 0 <= i < |NonEmpty(payloads)| ==> NonEmpty(payloads)[i] != []
  {
    if payloads != [] {
      NonEmptyIsText(payloads[1..]);
    }
  }

  /** The first `n` payloads were handed over: they are UTF-8, and all but the last were answered with Continue. */
  ghost predicate HandedOver(env: Env, payloads: seq<Bytes>, log: seq<Bytes>, n: nat)
    requires n <= |payloads|
  {
    && (forall i :: 0 <= i < n ==> env.utf8(payloads[i]))
    && (forall i :: 0 < i < n ==> env.reply(log + payloads[..i]) == Continue)
  }

  /** Why no more than the first `n` payloads were handed over. */
  ghost predicate EndsFor(env: Env, payloads: seq<Bytes>, log: seq<Bytes>, n: nat, outcome: Outcome)
    requires n <= |payloads|
  {
    var last := if n == 0 then Continue else env.reply(log + payloads[..n]);
    match outcome
    case Open => n == |payloads| && last == Continue
    case Stopped => last == Stop
    case Failed => last == Fail || (last == Continue && n < |payloads| && !env.utf8(payloads[n]))
  }

  /** How many payloads are handed over, and how it ends. */
  ghost predicate IsDelivery(env: Env, payloads: seq<Bytes>, log: seq<Bytes>, after: seq<Bytes>, outcome: Outcome) {
    exists n :: 0 <= n <= |payloads| && after == log + payloads[..n]
                && HandedOver(env, payloads, log, n) && EndsFor(env, payloads, log, n, outcome)
  }

  lemma FirstHandedOver(env: Env, payloads: seq<Bytes>, log: seq<Bytes>, after: seq<Bytes>, outcome: Outcome)
    requires payloads != [] && env.utf8(payloads[0]) && env.reply(log + [payloads[0]]) == Continue
    requires IsDelivery(env, payloads[1..], log + [payloads[0]], after, outcome)
    ensures IsDelivery(env, payloads, log, after, outcome)
  {
    var first, rest := log + [payloads[0]], payloads[1..];
    var n :| 0 <= n <= |rest| && after == first + rest[..n]
             && HandedOver(env, rest, first, n) && EndsFor(env, rest, first, n, outcome);
    assert forall i :: 0 <= i <= |rest| ==> log + payloads[..i + 1] == first + rest[..i];
    forall i | 0 < i < n + 1
      ensures env.reply(log + payloads[..i]) == Continue
    {
      assert log + payloads[..i] == first + rest[..i - 1];
      assert first + rest[..0] == first;
    }
    assert log + payloads[..n + 1] == first + rest[..n];
    assert n == 0 ==> first + rest[..n] == first;
    assert HandedOver(env, payloads, log, n + 1) && EndsFor(env, payloads, log, n + 1, outcome);
  }

  /**
   Payloads are handed over in order until the handler does not ask to continue or one is not UTF-8, which
   is an error and not handed over.
   */
  lemma {:induction false} DeliveryIs(env: Env, payloads: seq<Bytes>, log: seq<Bytes>)
    requires forall i :: 0 <= i < |payloads| ==> payloads[i] != []
    ensures var (after, outcome) := Deliver(env, payloads, log);
            IsDelivery(env, payloads, log, after, outcome)
    decreases |payloads|
  {
    if payloads == [] {
      assert log + payloads[..0] == log;
      assert HandedOver(env, payloads, log, 0) && EndsFor(env, payloads, log, 0, Open);
    } else {
      assert log + payloads[..0] == log && log + payloads[..1] == log + [payloads[0]];
      assert HandedOver(env, payloads, log, 0);
      var (first, outcome) := Emit(env, payloads[0], log);
      if outcome.Open? {
        var (after, o) := Deliver(env, payloads[1..], first);
        DeliveryIs(env, payloads[1..], first);
        FirstHandedOver(env, payloads, log, after, o);
      } else if env.utf8(payloads[0]) {
        assert HandedOver(env, payloads, log, 1) && EndsFor(env, payloads, log, 1, outcome);
      } else {
        assert EndsFor(env, payloads, log, 0, Failed);
      }
    }
  }

  /** However it is cut, a stream hands over its payloads until the handler ends it or one is not UTF-8. */
  lemma StreamIsHandedOver(env: Env, chunks: seq<Bytes>, log: seq<Bytes>)
    ensures var p := Feed(env, chunks, [], log);
            IsDelivery(env, DecodedPayloads(Concat(chunks)), log, p.log, p.outcome)
  {
    DecoderDeliversBlocks(env, chunks, log);
    NonEmptyIsText(AllReadData(StreamBlocks(Concat(chunks))));
    DeliveryIs(env, DecodedPayloads(Concat(chunks)), log);
    hide Feed, Deliver, IsDelivery;
  }

  // ---------------------------------------------------------------------------------------------
  // The standard, in terms of the same blocks
  // ---------------------------------------------------------------------------------------------

  predicate EndsWithLf(t: Bytes) {
    t == [] || t[|t| - 1] == LF
  }

  lemma SplitBlankFirst(t: Bytes, line: Bytes)
    requires LineBoundary(t).Some? && LineBoundary(t).value.end == 0
    ensures SplitLines(Normalize(t), line) == [line] + SplitLines(Normalize(t[LineBoundary(t).value.next..]))
  {
    var rest := t[LineBoundary(t).value.next..];
    assert Normalize(t) == [LF] + Normalize(rest);
    assert ([LF] + Normalize(rest))[1..] == Normalize(rest);
    hide Normalize;
  }

  lemma SplitFirstByte(t: Bytes, line: Bytes)
    requires t != [] && !IsBreak(t[0])
    ensures SplitLines(Normalize(t), line) == SplitLines(Normalize(t[1..]), line + [t[0]])
  {
    assert Normalize(t) == [t[0]] + Normalize(t[1..]);
    assert ([t[0]] + Normalize(t[1..]))[1..] == Normalize(t[1..]);
    hide Normalize;
  }

  lemma {:induction false} SplitFirstLine(t: Bytes, line: Bytes)
    requires LineBoundary(t).Some?
    ensures var l := LineBoundary(t).value;
            SplitLines(Normalize(t), line) == [line + t[..l.end]] + SplitLines(Normalize(t[l.next..]))
    decreases |t|
  {
    hide SplitLines, Normalize, LineBoundary;
    var l := LineBoundary(t).value;
    if l.end == 0 {
      SplitBlankFirst(t, line);
      assert line + t[..0] == line;
    } else {
      LineOfRest(t);
      SplitFirstByte(t, line);
      SplitFirstLine(t[1..], line + [t[0]]);
      FirstByteMoved(t, line, l);
    }
  }

  lemma LineOfRest(t: Bytes)
    requires LineBoundary(t).Some? && LineBoundary(t).value.end > 0
    ensures var l := LineBoundary(t).value;
            !IsBreak(t[0]) && LineBoundary(t[1..]) == Some(Span(l.end - 1, l.next - 1))
  {
  }

  lemma FirstByteMoved(t: Bytes, line: Bytes, l: Span)
    requires 0 < l.end < l.next <= |t|
    ensures t[1..][l.next - 1..] == t[l.next..]
    ensures (line + [t[0]]) + t[1..][..l.end - 1] == line + t[..l.end]
  {
  }

  lemma {:induction false} StandardLines(t: Bytes)
    requires EndsWithLf(t)
    ensures SplitLines(Normalize(t)) == Texts(Lines(t))
    decreases |t|
  {
    if t != [] {
      NoBreakBefore(t);
      assert IsBreak(t[|t| - 1]);
      var l := LineBoundary(t).value;
      SplitFirstLine(t, []);
      assert [] + t[..l.end] == t[..l.end];
      StandardLines(t[l.next..]);
    }
  }

  /** The payloads of `blocks` when `collected` was collected before the first of them. */
  ghost function Dispatched(blocks: seq<seq<Line>>, collected: seq<Bytes>): seq<Bytes> {
    if blocks == [] then []
    else NonEmpty([JoinLines(collected + DataValues(Texts(blocks[0])))])
         + NonEmpty(AllStandardData(blocks[1..]))
  }

  lemma DispatchedAll(blocks: seq<seq<Line>>)
    ensures Dispatched(blocks, []) == NonEmpty(AllStandardData(blocks))
  {
    if blocks != [] {
      assert [] + DataValues(Texts(blocks[0])) == DataValues(Texts(blocks[0]));
      NonEmptyOfTwo(StandardData(blocks[0]), AllStandardData(blocks[1..]));
    }
  }

  lemma DispatchedLonger(line: Line, blocks: seq<seq<Line>>, collected: seq<Bytes>)
    requires blocks != []
    ensures Dispatched([[line] + blocks[0]] + blocks[1..], collected)
         == Dispatched(blocks, collected + DataValues([line.text]))
  {
    var value := DataValues([line.text]);
    var texts := Texts(blocks[0]);
    var longer := [[line] + blocks[0]] + blocks[1..];
    assert longer[0][1..] == blocks[0] && longer[1..] == blocks[1..];
    assert Texts(longer[0]) == [line.text] + texts;
    DataValuesOfTwo(line.text, texts);
    assert (collected + value) + DataValues(texts) == collected + (value + DataValues(texts));
  }

  /** The data buffer after these values. */
  ghost function Buffered(values: seq<Bytes>): Bytes {
    if values == [] then [] else Buffered(values[..|values| - 1]) + values[|values| - 1] + [LF]
  }

  lemma BufferedOneMore(values: seq<Bytes>, value: Bytes)
    ensures Buffered(values + [value]) == Buffered(values) + value + [LF]
  {
    assert (values + [value])[..|values|] == values;
  }

  lemma {:induction false} BufferedIsJoin(values: seq<Bytes>)
    ensures Buffered(values) == if values == [] then [] else JoinLines(values) + [LF]
  {
    if values != [] {
      var before, last := values[..|values| - 1], values[|values| - 1];
      BufferedIsJoin(before);
      JoinOneMore(before, last);
      assert values == before + [last];
      hide JoinLines;
    }
  }

  lemma DispatchedIsJoin(values: seq<Bytes>)
    ensures WithoutLastLf(Buffered(values)) == JoinLines(values)
  {
    BufferedIsJoin(values);
  }

  /** The decoder takes a line for a data line exactly when that is its field, and reads its value. */
  lemma DataFieldIsField(line: Bytes)
    ensures DataFieldValue(line) == if FieldName(line) == DATA then Some(FieldValue(line)) else None
  {
    var i := FirstColon(line);
    assert i < 4 ==> |FieldName(line)| < |DATA|;
    if DATA + [COLON] <= line {
      assert line[4] == (DATA + [COLON])[4];
      assert forall j :: 0 <= j < 4 ==> line[j] == (DATA + [COLON])[j] == DATA[j];
      assert i == 4 && FieldName(line) == DATA;
    }
  }

  /** `data:`, with or without a space, and a value; the space is not part of it, and a second one is. */
  lemma DataFieldForms(value: Bytes)
    ensures DataFieldValue(DATA + [COLON, SPACE] + value) == Some(value)
    ensures !([SPACE] <= value) ==> DataFieldValue(DATA + [COLON] + value) == Some(value)
    ensures DataFieldValue(DATA) == Some([])
  {
    assert (DATA + [COLON, SPACE] + value)[5..] == [SPACE] + value;
    assert (DATA + [COLON] + value)[5..] == value;
  }

  /** Comments and fields with any other name are passed over. */
  lemma OtherFieldsAreSkipped(name: Bytes, value: Bytes)
    requires COLON !in name && name != DATA
    ensures DataFieldValue(name).None? && DataFieldValue(name + [COLON] + value).None?
  {
    var line := name + [COLON] + value;
    assert line[|name|] == COLON && line[..|name|] == name;
    assert forall j :: 0 <= j < |name| ==> line[j] == name[j];
    DataFieldIsField(name);
    DataFieldIsField(line);
    assert FirstColon(line) == |name| && FirstColon(name) == |name|;
    assert name[..|name|] == name;
  }

  lemma InterpretLine(line: Bytes, rest: seq<Bytes>, collected: seq<Bytes>)
    requires line != []
    ensures Interpret([line] + rest, Buffered(collected)) == Interpret(rest, Buffered(collected + DataValues([line])))
  {
    DataFieldIsField(line);
    assert ([line] + rest)[1..] == rest && [line][1..] == [];
    hide DataFieldValue, FieldName, FieldValue;
    if FieldName(line) == DATA {
      BufferedOneMore(collected, FieldValue(line));
      assert DataValues([line]) == [FieldValue(line)];
    } else {
      assert DataValues([line]) == [] && collected + [] == collected;
    }
  }

  lemma {:induction false} InterpretBlocks(lines: seq<Line>, collected: seq<Bytes>)
    ensures Interpret(Texts(lines), Buffered(collected)) == Dispatched(Blocks(lines), collected)
    decreases |lines|
  {
    if lines != [] {
      var rest := Blocks(lines[1..]);
      if lines[0].text == [] {
        InterpretBlocks(lines[1..], []);
        DispatchedAll(rest);
        DispatchedIsJoin(collected);
        assert collected + DataValues(Texts([])) == collected;
        assert ([[]] + rest)[1..] == rest;
        assert Buffered([]) == [];
        hide DataValues, JoinLines, WithoutLastLf;
      } else {
        InterpretBlocks(lines[1..], collected + DataValues([lines[0].text]));
        InterpretLine(lines[0].text, Texts(lines[1..]), collected);
        hide Interpret, DataValues;
        if rest != [] {
          DispatchedLonger(lines[0], rest, collected);
        }
      }
    }
  }

  lemma NonEmptyOfTwo(payload: Bytes, rest: seq<Bytes>)
    ensures NonEmpty([payload] + rest) == NonEmpty([payload]) + NonEmpty(rest)
  {
    assert ([payload] + rest)[1..] == rest;
  }

  lemma DataValuesOfTwo(line: Bytes, lines: seq<Bytes>)
    ensures DataValues([line] + lines) == DataValues([line]) + DataValues(lines)
  {
    assert ([line] + lines)[1..] == lines;
  }

  /** The standard's payloads are the LF-joins of the data values of the same blocks. */
  lemma StandardIsBlocks(s: Bytes)
    ensures StandardPayloads(s) == NonEmpty(AllStandardData(StreamBlocks(s)))
  {
    var t := s + [LF, LF];
    StandardLines(t);
    InterpretBlocks(Lines(t), []);
    DispatchedAll(Blocks(Lines(t)));
  }

  // ---------------------------------------------------------------------------------------------
  // Exactly when the decoder meets the standard
  // ---------------------------------------------------------------------------------------------

  predicate IsDataField(line: Bytes) {
    DATA + [COLON] <= line
  }

  /**
   The block ends with a lone CR after a data line whose value the CR changes: it is appended to
   a `data:` line, and it hides a bare `data` line, which matters when there is other data.
   */
  predicate Departs(block: seq<Line>) {
    && block != []
    && var last := block[|block| - 1];
       && last.loneCr
       && (IsDataField(last.text)
           || (last.text == DATA && DataValues(Texts(block[..|block| - 1])) != []))
  }

  lemma {:induction false} ReadTextsLast(block: seq<Line>)
    requires block != []
    ensures var last := block[|block| - 1];
            var before := Texts(block[..|block| - 1]);
            && Texts(block) == before + [last.text]
            && ReadTexts(block) == before + [if last.loneCr then last.text + [CR] else last.text]
    decreases |block|
  {
    if |block| > 1 {
      ReadTextsLast(block[1..]);
      assert block[..|block| - 1][1..] == block[1..][..|block| - 2];
    } else {
      assert block[1..] == [];
    }
  }

  lemma {:induction false} DataValuesLast(lines: seq<Bytes>, line: Bytes)
    ensures DataValues(lines + [line])
         == DataValues(lines) + if DataFieldValue(line).Some? then [DataFieldValue(line).value] else []
    decreases |lines|
  {
    if lines == [] {
      assert lines + [line] == [line] && [line][1..] == lines;
    } else {
      assert (lines + [line])[1..] == lines[1..] + [line];
      DataValuesLast(lines[1..], line);
    }
  }

  lemma DataFieldWithCr(text: Bytes)
    ensures DataFieldValue(text + [CR])
         == if IsDataField(text) then Some(DataFieldValue(text).value + [CR]) else None
  {
    var read := text + [CR];
    if IsDataField(text) {
      var value := text[5..];
      assert read[..5] == text[..5] && read[5..] == value + [CR];
      assert [SPACE] <= value ==> (value + [CR])[1..] == value[1..] + [CR];
      assert [SPACE] <= value + [CR] ==> [SPACE] <= value;
    } else {
      assert read[|text|] == CR;
      assert |text| >= 5 ==> read[..5] == text[..5];
      assert |text| == 4 ==> read[4] != COLON;
    }
  }

  lemma LastValueWithCr(values: seq<Bytes>, value: Bytes)
    ensures JoinLines(values + [value + [CR]]) == JoinLines(values + [value]) + [CR]
  {
    JoinOneMore(values, value);
    JoinOneMore(values, value + [CR]);
  }

  lemma LastValueEmpty(values: seq<Bytes>)
    ensures JoinLines(values + [[]]) == if values == [] then [] else JoinLines(values) + [LF]
  {
    JoinOneMore(values, []);
  }

  /** What the decoder reads of a block next to what the standard says, in all cases. */
  lemma ReadDataOfBlock(block: seq<Line>)
    requires block != []
    ensures var last := block[|block| - 1];
            if !Departs(block) then ReadData(block) == StandardData(block)
            else if IsDataField(last.text) then ReadData(block) == StandardData(block) + [CR]
            else StandardData(block) == ReadData(block) + [LF]
  {
    ReadTextsLast(block);
    var last := block[|block| - 1];
    var before := Texts(block[..|block| - 1]);
    var values := DataValues(before);
    DataValuesLast(before, last.text);
    if last.loneCr {
      DataValuesLast(before, last.text + [CR]);
      DataFieldWithCr(last.text);
      if IsDataField(last.text) {
        LastValueWithCr(values, DataFieldValue(last.text).value);
      } else if last.text == DATA {
        LastValueEmpty(values);
        assert values + [] == values;
      }
    }
  }

  /** A block's data is what the standard says exactly when the block does not depart. */
  lemma BlockMeetsStandard(block: seq<Line>)
    ensures ReadData(block) == StandardData(block) <==> !Departs(block)
  {
    if block != [] {
      ReadDataOfBlock(block);
    }
  }

  predicate AnyDeparts(blocks: seq<seq<Line>>) {
    exists i :: 0 <= i < |blocks| && Departs(blocks[i])
  }

  lemma {:induction false} NoDepartureAgrees(blocks: seq<seq<Line>>)
    requires !AnyDeparts(blocks)
    ensures AllReadData(blocks) == AllStandardData(blocks)
  {
    if blocks != [] {
      BlockMeetsStandard(blocks[0]);
      assert forall i :: 0 <= i < |blocks| - 1 ==> blocks[1..][i] == blocks[i + 1];
      NoDepartureAgrees(blocks[1..]);
    }
  }

  predicate CrLfOnly(s: Bytes) {
    forall i :: 0 <= i < |s| && s[i] == CR ==> i + 1 < |s| && s[i + 1] == LF
  }

  lemma {:induction false} CrLfLines(t: Bytes)
    requires CrLfOnly(t)
    ensures forall i :: 0 <= i < |Lines(t)| ==> !Lines(t)[i].loneCr
    decreases |t|
  {
    if LineBoundary(t).Some? {
      var rest := t[LineBoundary(t).value.next..];
      assert forall i :: 0 <= i < |rest| ==> rest[i] == t[i + LineBoundary(t).value.next];
      CrLfLines(rest);
    }
  }

  lemma {:induction false} NoLoneCrNoDeparture(lines: seq<Line>)
    requires forall i :: 0 <= i < |lines| ==> !lines[i].loneCr
    ensures forall b, i :: 0 <= b < |Blocks(lines)| && 0 <= i < |Blocks(lines)[b]| ==>
              !Blocks(lines)[b][i].loneCr
  {
    if lines != [] {
      NoLoneCrNoDeparture(lines[1..]);
    }
  }

  /** On streams where every CR is followed by LF the decoder delivers the standard's payloads. */
  lemma CrLfStreamsMeetStandard(env: Env, chunks: seq<Bytes>, log: seq<Bytes>)
    requires CrLfOnly(Concat(chunks))
    ensures var p := Feed(env, chunks, [], log);
            Deliver(env, StandardPayloads(Concat(chunks)), log) == (p.log, p.outcome)
  {
    var s := Concat(chunks);
    DecoderDeliversBlocks(env, chunks, log);
    StandardIsBlocks(s);
    CrLfLines(s + [LF, LF]);
    NoLoneCrNoDeparture(Lines(s + [LF, LF]));
    NoDepartureAgrees(StreamBlocks(s));
  }

  // A departing `data:` line shows as a CR in a payload; the standard's payloads have none.

  predicate NoBreaks(lines: seq<Bytes>) {
    forall i, j :: 0 <= i < |lines| && 0 <= j < |lines[i]| ==> !IsBreak(lines[i][j])
  }

  predicate NoCr(payload: Bytes) {
    CR !in payload
  }

  lemma {:induction false} LinesHaveNoBreaks(t: Bytes)
    ensures NoBreaks(Texts(Lines(t)))
    decreases |t|
  {
    if LineBoundary(t).Some? {
      NoBreakBefore(t);
      LinesHaveNoBreaks(t[LineBoundary(t).value.next..]);
    }
  }

  lemma {:induction false} BlocksHaveNoBreaks(lines: seq<Line>)
    requires NoBreaks(Texts(lines))
    ensures forall b :: 0 <= b < |Blocks(lines)| ==> NoBreaks(Texts(Blocks(lines)[b]))
  {
    if lines != [] {
      assert NoBreaks(Texts(lines[1..])) by {
        var rest := Texts(lines[1..]);
        assert forall i :: 0 <= i < |rest| ==> rest[i] == Texts(lines)[i + 1];
      }
      BlocksHaveNoBreaks(lines[1..]);
      var rest := Blocks(lines[1..]);
      if lines[0].text != [] && rest != [] {
        assert Texts([lines[0]] + rest[0]) == [lines[0].text] + Texts(rest[0]) by {
          assert ([lines[0]] + rest[0])[1..] == rest[0];
        }
        assert Texts(lines)[0] == lines[0].text;
      }
    }
  }

  lemma {:induction false} JoinHasNoCr(lines: seq<Bytes>)
    requires NoBreaks(lines)
    ensures NoCr(JoinLines(DataValues(lines)))
    ensures forall v :: v in DataValues(lines) ==> NoCr(v)
  {
    if lines != [] {
      assert NoBreaks(lines[1..]) by {
        assert forall i :: 0 <= i < |lines| - 1 ==> lines[1..][i] == lines[i + 1];
      }
      JoinHasNoCr(lines[1..]);
      assert CR !in lines[0];
    }
  }

  function TotalLength(payloads: seq<Bytes>): nat {
    if payloads == [] then 0 else |payloads[0]| + TotalLength(payloads[1..])
  }

  lemma {:induction false} NonEmptyKeepsLength(payloads: seq<Bytes>)
    ensures TotalLength(NonEmpty(payloads)) == TotalLength(payloads)
    ensures forall p :: p in NonEmpty(payloads) <==> p in payloads && p != []
  {
    if payloads != [] {
      NonEmptyKeepsLength(payloads[1..]);
      if payloads[0] != [] {
        assert NonEmpty(payloads)[1..] == NonEmpty(payloads[1..]);
      }
    }
  }

  predicate ShowsCr(block: seq<Line>) {
    Departs(block) && IsDataField(block[|block| - 1].text)
  }

  lemma HiddenLineShortens(block: seq<Line>)
    requires !ShowsCr(block)
    ensures |ReadData(block)| == |StandardData(block)| - if Departs(block) then 1 else 0
  {
    if block != [] {
      ReadDataOfBlock(block);
    }
  }

  lemma {:induction false} HiddenLinesShorten(blocks: seq<seq<Line>>)
    requires forall i :: 0 <= i < |blocks| ==> !ShowsCr(blocks[i])
    ensures TotalLength(AllReadData(blocks)) <= TotalLength(AllStandardData(blocks))
    ensures AnyDeparts(blocks) ==> TotalLength(AllReadData(blocks)) < TotalLength(AllStandardData(blocks))
  {
    if blocks != [] {
      HiddenLinesShorten(blocks[1..]);
      HiddenLineShortens(blocks[0]);
      assert AllReadData(blocks)[1..] == AllReadData(blocks[1..]);
      assert AllStandardData(blocks)[1..] == AllStandardData(blocks[1..]);
      if AnyDeparts(blocks) && !Departs(blocks[0]) {
        var i :| 0 <= i < |blocks| && Departs(blocks[i]);
        assert Departs(blocks[1..][i - 1]);
      }
    }
  }

  lemma {:induction false} DataAt(blocks: seq<seq<Line>>, b: seq<Line>)
    requires b in blocks
    ensures ReadData(b) in AllReadData(blocks)
  {
    if b != blocks[0] {
      DataAt(blocks[1..], b);
    }
  }

  lemma {:induction false} StandardDataFrom(blocks: seq<seq<Line>>, p: Bytes)
    requires p in AllStandardData(blocks)
    ensures exists b :: b in blocks && StandardData(b) == p
  {
    if p == StandardData(blocks[0]) {
      assert blocks[0] in blocks;
    } else {
      StandardDataFrom(blocks[1..], p);
      var b :| b in blocks[1..] && StandardData(b) == p;
      assert b in blocks;
    }
  }

  /** The decoder's payloads are the standard's exactly when no block of the stream departs. */
  lemma DecoderMeetsStandardIff(s: Bytes)
    ensures DecodedPayloads(s) == StandardPayloads(s) <==> !AnyDeparts(StreamBlocks(s))
  {
    StandardIsBlocks(s);
    var blocks := StreamBlocks(s);
    if !AnyDeparts(blocks) {
      NoDepartureAgrees(blocks);
    } else {
      NonEmptyKeepsLength(AllReadData(blocks));
      NonEmptyKeepsLength(AllStandardData(blocks));
      if b :| b in blocks && ShowsCr(b) {
        LinesHaveNoBreaks(s + [LF, LF]);
        BlocksHaveNoBreaks(Lines(s + [LF, LF]));
        DataAt(blocks, b);
        ReadDataOfBlock(b);
        var p := ReadData(b);
        assert p[|p| - 1] == CR && p in DecodedPayloads(s);
        if p in AllStandardData(blocks) {
          StandardDataFrom(blocks, p);
          var c :| c in blocks && StandardData(c) == p;
          JoinHasNoCr(Texts(c));
          assert false;
        }
      } else {
        HiddenLinesShorten(blocks);
      }
    }
  }

  // ---------------------------------------------------------------------------------------------
  // Two streams that depart
  // ---------------------------------------------------------------------------------------------

  /** The line `text`, closed by a lone CR, by LF or by CRLF, is the first line. */
  lemma LinesOfText(text: Bytes, close: Bytes, rest: Bytes)
    requires forall i :: 0 <= i < |text| ==> !IsBreak(text[i])
    requires close == [LF] || close == [CR, LF] || (close == [CR] && rest != [] && rest[0] != LF)
    ensures Lines(text + close + rest) == [Line(text, close == [CR])] + Lines(rest)
  {
    var t := text + close + rest;
    var line := Span(|text|, |text| + |close|);
    assert forall i :: 0 <= i < |text| ==> t[i] == text[i];
    assert forall i :: 0 <= i < |close| ==> t[|text| + i] == close[i];
    assert rest != [] ==> t[|text| + |close|] == rest[0];
    LineBoundaryIff(t, line);
    assert t[..line.end] == text && t[line.next..] == rest;
  }

  /** The blank lines that end a stream, with the ones that flush it. */
  lemma LinesOfEnd()
    ensures Lines([CR, LF] + [LF, LF]) == [Line([], false), Line([], false), Line([], false)]
  {
    assert [CR, LF] + [LF, LF] == [] + [CR, LF] + [LF, LF];
    assert [LF, LF] == [] + [LF] + [LF];
    assert [LF] == [] + [LF] + [];
    LinesOfText([], [CR, LF], [LF, LF]);
    LinesOfText([], [LF], [LF]);
    LinesOfText([], [LF], []);
    assert LineBoundary([]) == None;
  }

  lemma BlankBlocks()
    ensures Blocks([Line([], false), Line([], false), Line([], false)]) == [[], [], []]
  {
    var blank := Line([], false);
    assert [blank, blank, blank] == [blank] + [blank, blank];
    BlocksOfLine(blank, [blank, blank]);
    assert [blank, blank] == [blank] + [blank];
    BlocksOfLine(blank, [blank]);
    assert [blank] == [blank] + [];
    BlocksOfLine(blank, []);
  }

  /** A stream of one block, whose data is not empty on either side. */
  lemma OneBlock(s: Bytes, block: seq<Line>)
    requires forall i :: 0 <= i < |block| ==> block[i].text != []
    requires Lines(s + [LF, LF]) == block + [Line([], false), Line([], false), Line([], false)]
    requires ReadData(block) != [] && StandardData(block) != []
    ensures StreamBlocks(s) == [block, [], []]
    ensures DecodedPayloads(s) == [ReadData(block)] && StandardPayloads(s) == [StandardData(block)]
  {
    hide Lines, Blocks, ReadData, StandardData;
    var blank := Line([], false);
    BlankBlocks();
    assert Blocks([blank, blank, blank]) == [[]] + [[], []];
    BlocksOfLines(block, [blank, blank, blank], [[], []]);
    var blocks := StreamBlocks(s);
    assert blocks == [block, [], []];
    PayloadsOfOneBlock(block);
    StandardIsBlocks(s);
  }

  lemma PayloadsOfOneBlock(block: seq<Line>)
    requires ReadData(block) != [] && StandardData(block) != []
    ensures NonEmpty(AllReadData([block, [], []])) == [ReadData(block)]
    ensures NonEmpty(AllStandardData([block, [], []])) == [StandardData(block)]
  {
    hide ReadData, StandardData;
    var empty: seq<seq<Line>> := [[], []];
    assert [block, [], []][1..] == empty;
    EmptyBlocks();
  }

  lemma EmptyBlocks()
    ensures AllReadData([[], []]) == [[], []] && AllStandardData([[], []]) == [[], []]
    ensures forall data: Bytes :: data != [] ==> NonEmpty([data] + [[], []]) == [data]
  {
    var empty: seq<seq<Line>> := [[], []];
    var none: seq<Bytes> := [[], []];
    assert empty[1..] == [[]] && empty[1..][1..] == [];
    assert none[1..] == [[]] && none[1..][1..] == [];
    assert NonEmpty(none) == [];
    forall data: Bytes | data != []
      ensures NonEmpty([data] + [[], []]) == [data]
    {
      NonEmptyOfTwo(data, [[], []]);
    }
  }

  lemma LongerBlock(line: Line, lines: seq<Line>, block: seq<Line>, others: seq<seq<Line>>)
    requires line.text != [] && Blocks(lines) == [block] + others
    ensures Blocks([line] + lines) == [[line] + block] + others
  {
    hide Blocks;
    BlocksOfLine(line, lines);
    assert ([block] + others)[0] == block && ([block] + others)[1..] == others;
  }

  lemma {:induction false} BlocksOfLines(block: seq<Line>, lines: seq<Line>, others: seq<seq<Line>>)
    requires forall i :: 0 <= i < |block| ==> block[i].text != []
    requires Blocks(lines) == [[]] + others
    ensures Blocks(block + lines) == [block] + others
  {
    hide Blocks;
    if block == [] {
      assert block + lines == lines;
    } else {
      var rest := block[1..];
      BlocksOfLines(rest, lines, others);
      LongerBlock(block[0], rest + lines, rest, others);
      assert [block[0]] + (rest + lines) == block + lines && [block[0]] + rest == block;
    }
  }

  /** The line `data: x`. */
  const DATA_X: Bytes := [100, 97, 116, 97, 58, 32, 120]

  const X: Bytes := [120]

  lemma DataOfDelivered()
    ensures var block := [Line(DATA_X, true)];
            ReadData(block) == X + [CR] && StandardData(block) == X && Departs(block)
  {
    var block, read := [Line(DATA_X, true)], [DATA_X + [CR]];
    ValuesOfX();
    DataFieldWithCr(DATA_X);
    assert block[1..] == [] && read[1..] == [];
    assert DataValues(read) == [X + [CR]];
    assert Texts(block) == [DATA_X] + [] == [DATA_X];
  }

  /** The bytes of `data: x`, CR, CR, LF: the decoder delivers the first CR with the data. */
  lemma LoneCrIsDelivered()
    ensures var s := DATA_X + [CR, CR, LF];
            AnyDeparts(StreamBlocks(s)) && DecodedPayloads(s) == [X + [CR]] && StandardPayloads(s) == [X]
  {
    var s, block := DATA_X + [CR, CR, LF], [Line(DATA_X, true)];
    EndAfterCr(DATA_X);
    LinesOfText(DATA_X, [CR], [CR, LF] + [LF, LF]);
    LinesOfEnd();
    DataOfDelivered();
    hide Lines, ReadData, StandardData, Departs;
    OneBlock(s, block);
    assert Departs(StreamBlocks(s)[0]);
  }

  lemma EndAfterCr(before: Bytes)
    ensures before + [CR, CR, LF] + [LF, LF] == before + [CR] + ([CR, LF] + [LF, LF])
  {
    assert [CR, CR, LF] == [CR] + [CR, LF];
    assert (before + [CR] + [CR, LF]) + [LF, LF] == before + [CR] + ([CR, LF] + [LF, LF]);
  }

  lemma ValuesOfX()
    ensures DataFieldValue(DATA_X) == Some(X) && DataValues([DATA_X]) == [X] && IsDataField(DATA_X)
    ensures DataValues([DATA_X] + []) == [X]
  {
    assert DATA_X[5..] == X || DATA_X[5..][1..] == X;
    assert [DATA_X][1..] == [] && [DATA_X] + [] == [DATA_X];
  }

  lemma LinesOfHidden()
    ensures Lines(DATA_X + [LF] + DATA + [CR, CR, LF] + [LF, LF])
         == [Line(DATA_X, false), Line(DATA, true)] + [Line([], false), Line([], false), Line([], false)]
  {
    hide Lines;
    var end := [CR, LF] + [LF, LF];
    EndAfterCr(DATA_X + [LF] + DATA);
    Associative(DATA_X + [LF], DATA, [CR], end);
    LinesOfText(DATA_X, [LF], DATA + [CR] + end);
    LinesOfText(DATA, [CR], end);
    LinesOfEnd();
  }

  lemma Associative(a: Bytes, b: Bytes, c: Bytes, d: Bytes)
    ensures a + b + c + d == a + (b + c + d)
  {
  }

  lemma DataOfHidden()
    ensures var block := [Line(DATA_X, false), Line(DATA, true)];
            ReadData(block) == X && StandardData(block) == X + [LF] && Departs(block)
  {
    var block := [Line(DATA_X, false), Line(DATA, true)];
    ValuesOfX();
    assert block[..1] == [block[0]] && Texts([block[0]]) == [DATA_X] + [];
    ReadTextsLast(block);
    DataValuesLast([DATA_X], DATA);
    DataValuesLast([DATA_X], DATA + [CR]);
    DataFieldWithCr(DATA);
    LastValueEmpty([X]);
    assert !IsDataField(DATA) && DataFieldValue(DATA) == Some([]);
    hide DataValues, DataFieldValue, Texts, ReadTexts;
    assert [X] + [] == [X];
  }

  /**
   The bytes of `data: x`, LF, `data`, CR, CR, LF: the CR hides the second line from the decoder, and
   the LF that its empty value adds is missing.
   */
  lemma LoneCrHidesLine()
    ensures var s := DATA_X + [LF] + DATA + [CR, CR, LF];
            AnyDeparts(StreamBlocks(s)) && DecodedPayloads(s) == [X] && StandardPayloads(s) == [X + [LF]]
  {
    var s, block := DATA_X + [LF] + DATA + [CR, CR, LF], [Line(DATA_X, false), Line(DATA, true)];
    LinesOfHidden();
    DataOfHidden();
    hide Lines, ReadData, StandardData, Departs;
    OneBlock(s, block);
    assert Departs(StreamBlocks(s)[0]);
  }
}
