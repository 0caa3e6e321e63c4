/**
 The incremental decoder for server-sent event streams.

 `SseDecoder` is the mutable decoder: bytes arrive chunk by chunk, complete frames are cut off the
 front of `buffer`, and each frame's data is handed to a sink.  The functions above it say what one
 call computes; the lemmas say what any sequence of calls computes.
 */
module SseDecoder {
  import opened Wrappers

  newtype byte = x: int | 0 <= x < 256
  type Bytes = seq<byte>

  const LF: byte := 10
  const CR: byte := 13
  const SPACE: byte := 32
  const COLON: byte := 58
  const DATA: Bytes := [100, 97, 116, 97]  // the field name `data`

  predicate IsBreak(b: byte) {
    b == LF || b == CR
  }

  predicate IsWhitespace(b: byte) {
    b == SPACE || b == 9 || b == LF || b == 12 || b == CR
  }

  /** A piece of a buffer that ends before `end`; what follows it starts at `next`. */
  datatype Span = Span(end: nat, next: nat) {
    function Shift(offset: nat): Span {
      Span(offset + end, offset + next)
    }
  }

  function ShiftBy(span: Option<Span>, offset: nat): Option<Span> {
    match span
    case None => None
    case Some(s) => Some(s.Shift(offset))
  }

  // ---------------------------------------------------------------------------------------------
  // Lines and frames of a buffer
  // ---------------------------------------------------------------------------------------------

  /** Index of the first line break, or the length when there is none. */
  function FirstBreak(b: Bytes): (i: nat)
    ensures i <= |b|
    ensures i < |b| ==> IsBreak(b[i])
  {
    if b == [] || IsBreak(b[0]) then 0 else 1 + FirstBreak(b[1..])
  }

  lemma {:induction false} NoBreakBefore(b: Bytes)
    ensures forall j :: 0 <= j < FirstBreak(b) ==> !IsBreak(b[j])
  {
    if b != [] && !IsBreak(b[0]) {
      NoBreakBefore(b[1..]);
      assert forall j :: 0 < j < |b| ==> b[j] == b[1..][j - 1];
    }
  }

  /** The first complete line; a CR in the last position may still turn into CRLF, so it waits. */
  function LineBoundary(b: Bytes): (r: Option<Span>)
    ensures r.Some? ==> r.value.end < r.value.next <= |b|
  {
    var e := FirstBreak(b);
    if e == |b| then None
    else if b[e] == CR && e + 1 == |b| then None
    else if b[e] == CR && b[e + 1] == LF then Some(Span(e, e + 2))
    else Some(Span(e, e + 1))
  }

  /**
   The boundary is the first break: an LF, or a CR that is not the last byte, together with an LF right
   behind it.
   */
  lemma LineBoundaryIff(b: Bytes, line: Span)
    ensures LineBoundary(b) == Some(line) <==>
              && line.end < |b| && (forall j :: 0 <= j < line.end ==> !IsBreak(b[j]))
              && if b[line.end] == LF then line.next == line.end + 1
                 else
                   && b[line.end] == CR && line.end + 1 < |b|
                   && line.next == line.end + if b[line.end + 1] == LF then 2 else 1
  {
    NoBreakBefore(b);
  }

  function FindLineBoundary(b: Bytes, start: nat): (r: Option<Span>)
    requires start <= |b|
    ensures r.Some? ==> start <= r.value.end < r.value.next <= |b|
  {
    ShiftBy(LineBoundary(b[start..]), start)
  }

  /** The first frame: everything before the first empty line. */
  function FrameBoundary(b: Bytes): (r: Option<Span>)
    ensures r.Some? ==> r.value.end < r.value.next <= |b|
    decreases |b|
  {
    match LineBoundary(b)
    case None => None
    case Some(line) =>
      if line.end == 0 then Some(line) else ShiftBy(FrameBoundary(b[line.next..]), line.next)
  }

  /** The frame boundary as the scan sees it once it has reached the line that starts at `start`. */
  ghost function FrameFrom(b: Bytes, start: nat): Option<Span>
    requires start <= |b|
  {
    ShiftBy(FrameBoundary(b[start..]), start)
  }

  lemma FrameFromLine(b: Bytes, start: nat)
    requires start <= |b|
    ensures FrameFrom(b, start)
         == match FindLineBoundary(b, start)
            case None => None
            case Some(line) => if line.end == start then Some(line) else FrameFrom(b, line.next)
  {
    var line := LineBoundary(b[start..]);
    if line.Some? {
      assert b[start..][line.value.next..] == b[start + line.value.next..];
    }
  }

  method FindFrameBoundary(buffer: Bytes) returns (r: Option<Span>)
    ensures r == FrameBoundary(buffer)
  {
    var lineStart := 0;
    assert FrameBoundary(buffer) == FrameFrom(buffer, lineStart) by {
      assert buffer[0..] == buffer;
    }
    ghost var goal := FrameBoundary(buffer);
    while true
      invariant lineStart <= |buffer|
      invariant goal == FrameFrom(buffer, lineStart)
      decreases |buffer| - lineStart
    {
      FrameFromLine(buffer, lineStart);
      var line := FindLineBoundary(buffer, lineStart);
      if line.None? {
        return None;
      }
      if line.value.end == lineStart {
        return line;
      }
      lineStart := line.value.next;
    }
  }

  /** A frame's lines; what follows the last complete line is a line of its own. */
  function FrameLines(frame: Bytes): seq<Bytes>
    decreases |frame|
  {
    if frame == [] then []
    else match LineBoundary(frame)
      case None => [frame]
      case Some(line) => [frame[..line.end]] + FrameLines(frame[line.next..])
  }

  function DataFieldValue(line: Bytes): Option<Bytes> {
    if line == DATA then Some([])
    else if DATA + [COLON] <= line then
      var value := line[5..];
      Some(if [SPACE] <= value then value[1..] else value)
    else None
  }

  function DataValues(lines: seq<Bytes>): seq<Bytes> {
    if lines == [] then []
    else match DataFieldValue(lines[0])
      case None => DataValues(lines[1..])
      case Some(value) => [value] + DataValues(lines[1..])
  }

  function JoinLines(values: seq<Bytes>): Bytes {
    if |values| == 0 then []
    else if |values| == 1 then values[0]
    else values[0] + [LF] + JoinLines(values[1..])
  }

  function FrameData(frame: Bytes): Bytes {
    JoinLines(DataValues(FrameLines(frame)))
  }

  // ---------------------------------------------------------------------------------------------
  // Handing data to the handler
  // ---------------------------------------------------------------------------------------------

  datatype Reply = Continue | Stop | Fail

  /** How decoding stands: still open, stopped by the handler, or failed. */
  datatype Outcome = Open | Stopped | Failed

  /**
   The code a stream is decoded for: `utf8` is the validity test of the string conversion, and
   `reply` is what a stateful handler answers, given everything handed to it so far.
   */
  datatype Env = Env(utf8: Bytes -> bool, reply: seq<Bytes> -> Reply)

  /** What has been handed over, what is left in the buffer, and how decoding stands. */
  datatype Progress = Progress(log: seq<Bytes>, buffer: Bytes, outcome: Outcome)

  function OutcomeOf(reply: Reply): Outcome {
    match reply
    case Continue => Open
    case Stop => Stopped
    case Fail => Failed
  }

  /** Hands one frame's data over; empty data is skipped, data that is not UTF-8 is an error. */
  function Emit(env: Env, data: Bytes, log: seq<Bytes>): (seq<Bytes>, Outcome) {
    if data == [] then (log, Open)
    else if !env.utf8(data) then (log, Failed)
    else (log + [data], OutcomeOf(env.reply(log + [data])))
  }

  /** Decodes every complete frame of the buffer, until the handler stops or something fails. */
  function Drain(env: Env, buffer: Bytes, log: seq<Bytes>): Progress
    decreases |buffer|
  {
    match FrameBoundary(buffer)
    case None => Progress(log, buffer, Open)
    case Some(frame) =>
      var (log', outcome) := Emit(env, FrameData(buffer[..frame.end]), log);
      match outcome
      case Failed => Progress(log', buffer, Failed)
      case Stopped => Progress(log', [], Stopped)
      case Open => Drain(env, buffer[frame.next..], log')
  }

  predicate HasContent(b: Bytes) {
    exists i :: 0 <= i < |b| && !IsWhitespace(b[i])
  }

  /** What is left at the end of the stream is closed with a blank line, unless it is blank. */
  function Closed(buffer: Bytes): Bytes {
    if HasContent(buffer) then buffer + [LF, LF] else buffer
  }

  /** A whole stream: the chunks are pushed in turn and then finished, unless decoding ends before. */
  function Feed(env: Env, chunks: seq<Bytes>, buffer: Bytes, log: seq<Bytes>): Progress
    decreases |chunks|
  {
    if chunks == [] then Drain(env, Closed(buffer), log)
    else
      var p := Drain(env, buffer + chunks[0], log);
      if p.outcome.Open? then Feed(env, chunks[1..], p.buffer, p.log) else p
  }

  function Concat(chunks: seq<Bytes>): Bytes {
    if chunks == [] then [] else chunks[0] + Concat(chunks[1..])
  }

  // ---------------------------------------------------------------------------------------------
  // The decoder
  // ---------------------------------------------------------------------------------------------

  /** The receiving end: the handler's history and the two flags one attempt keeps about it. */
  class FrameSink {
    const env: Env
    var log: seq<Bytes>
    var dataDelivered: bool
    var terminal: bool

    constructor (env: Env, log: seq<Bytes>)
      ensures this.env == env && this.log == log && !dataDelivered && !terminal
    {
      this.env := env;
      this.log := log;
      dataDelivered := false;
      terminal := false;
    }

    /** The flags after the log grew from `before` to `after` and decoding came to `outcome`. */
    twostate predicate Advanced(after: seq<Bytes>, outcome: Outcome)
      reads this
    {
      && old(log) <= log == after
      && dataDelivered == (old(dataDelivered) || |after| > |old(log)|)
      && terminal == (old(terminal) || outcome == Stopped)
    }

    method OnData(data: Bytes) returns (reply: Reply)
      modifies this
      ensures reply == env.reply(old(log) + [data])
      ensures Advanced(old(log) + [data], OutcomeOf(reply))
    {
      dataDelivered := true;
      log := log + [data];
      reply := env.reply(log);
      if reply.Stop? {
        terminal := true;
      }
    }
  }

  class SseDecoder {
    var buffer: Bytes
    var scratch: Bytes

    constructor ()
      ensures buffer == []
    {
      buffer := [];
      scratch := [];
    }

    method Push(chunk: Bytes, sink: FrameSink) returns (outcome: Outcome)
      modifies this, sink
      ensures var p := Drain(sink.env, old(buffer) + chunk, old(sink.log));
              outcome == p.outcome && buffer == p.buffer && sink.Advanced(p.log, p.outcome)
      ensures !outcome.Failed? ==> FrameBoundary(buffer) == None
      ensures outcome.Stopped? ==> buffer == []
    {
      buffer := buffer + chunk;
      outcome := DrainFrames(sink);
    }

    method Finish(sink: FrameSink) returns (outcome: Outcome)
      modifies this, sink
      ensures var p := Drain(sink.env, Closed(old(buffer)), old(sink.log));
              outcome == p.outcome && buffer == p.buffer && sink.Advanced(p.log, p.outcome)
      ensures !outcome.Failed? ==> FrameBoundary(buffer) == None
      ensures outcome.Stopped? ==> buffer == []
    {
      if exists i :: 0 <= i < |buffer| && !IsWhitespace(buffer[i]) {
        buffer := buffer + [LF, LF];
      }
      outcome := DrainFrames(sink);
    }

    method DrainFrames(sink: FrameSink) returns (outcome: Outcome)
      modifies this, sink
      ensures var p := Drain(sink.env, old(buffer), old(sink.log));
              outcome == p.outcome && buffer == p.buffer && sink.Advanced(p.log, p.outcome)
      ensures !outcome.Failed? ==> FrameBoundary(buffer) == None
      ensures outcome.Stopped? ==> buffer == []
    {
      ghost var goal := Drain(sink.env, buffer, sink.log);
      var frame := FindFrameBoundary(buffer);
      while frame.Some?
        invariant frame == FrameBoundary(buffer)
        invariant goal == Drain(sink.env, buffer, sink.log)
        invariant sink.Advanced(sink.log, Open)
        decreases |buffer|
      {
        label Before: var bytes := buffer[..frame.value.end];
        outcome := EmitFrameData(bytes, sink);
        if outcome.Failed? {
          return;
        }
        buffer := buffer[frame.value.next..];
        if outcome.Stopped? {
          buffer := [];
          return;
        }
        frame := FindFrameBoundary(buffer);
      }
      outcome := Open;
    }

    method EmitFrameData(frame: Bytes, sink: FrameSink) returns (outcome: Outcome)
      modifies this`scratch, sink
      ensures var (log, o) := Emit(sink.env, FrameData(frame), old(sink.log));
              outcome == o && sink.Advanced(log, o)
    {
      var data := CollectData(frame);
      if data == [] {
        return Open;
      }
      if !sink.env.utf8(data) {
        return Failed;
      }
      var reply := sink.OnData(data);
      outcome := OutcomeOf(reply);
    }

    /** The loop of `emit_frame_data`: one data line is used as it is, several meet in `scratch`. */
    method CollectData(frame: Bytes) returns (data: Bytes)
      modifies this`scratch
      ensures data == FrameData(frame)
    {
      var singleLine: Option<Bytes> := None;
      var dataLineCount := 0;
      var lineStart := 0;
      scratch := [];
      ghost var values: seq<Bytes> := [];
      ghost var all := DataFrom(frame, 0);
      while lineStart < |frame|
        invariant lineStart <= |frame|
        invariant all == values + DataFrom(frame, lineStart)
        invariant Collected(values, dataLineCount, singleLine, scratch)
      {
        DataFromLine(frame, lineStart, values);
        var line, next;
        match FindLineBoundary(frame, lineStart) {
          case Some(span) => line, next := frame[lineStart..span.end], span.next;
          case None => line, next := frame[lineStart..|frame|], |frame|;
        }
        lineStart := next;
        var field := DataFieldValue(line);
        if field.Some? {
          singleLine := AddValue(field.value, dataLineCount, singleLine, values);
          dataLineCount := dataLineCount + 1;
          values := values + [field.value];
        }
      }
      assert frame[0..] == frame && frame[|frame|..] == [];
      assert FrameData(frame) == JoinLines(all);
      assert DataFrom(frame, |frame|) == [] && all == values;
      if dataLineCount == 0 {
        return [];
      }
      data := if dataLineCount == 1 then singleLine.GetOr([]) else scratch;
    }

    method AddValue(value: Bytes, count: nat, single: Option<Bytes>, ghost values: seq<Bytes>)
      returns (single': Option<Bytes>)
      requires Collected(values, count, single, scratch)
      modifies this`scratch
      ensures Collected(values + [value], count + 1, single', scratch)
    {
      JoinOneMore(values, value);
      if count == 0 {
        return Some(value);
      }
      if count == 1 {
        scratch := scratch + single.GetOr([]);
      }
      scratch := scratch + [LF];
      scratch := scratch + value;
      return None;
    }
  }

  /** The data values of a frame from the line that starts at `start` on. */
  ghost function DataFrom(frame: Bytes, start: nat): seq<Bytes>
    requires start <= |frame|
  {
    DataValues(FrameLines(frame[start..]))
  }

  lemma FrameLinesFrom(frame: Bytes, start: nat)
    requires start < |frame|
    ensures var span := FindLineBoundary(frame, start).GetOr(Span(|frame|, |frame|));
            FrameLines(frame[start..]) == [frame[start..span.end]] + FrameLines(frame[span.next..])
  {
    var line := LineBoundary(frame[start..]);
    if line.None? {
      assert frame[start..|frame|] == frame[start..] && frame[|frame|..] == [];
      assert FrameLines(frame[start..]) == [frame[start..]] + [];
    } else {
      assert frame[start..][line.value.next..] == frame[start + line.value.next..];
      assert frame[start..][..line.value.end] == frame[start..start + line.value.end];
    }
  }

  lemma DataValuesFrom(line: Bytes, rest: seq<Bytes>)
    ensures DataValues([line] + rest)
         == (if DataFieldValue(line).Some? then [DataFieldValue(line).value] else []) + DataValues(rest)
  {
    hide DataFieldValue;
    assert ([line] + rest)[1..] == rest;
  }

  lemma DataFromLine(frame: Bytes, start: nat, values: seq<Bytes>)
    requires start < |frame|
    ensures var span := FindLineBoundary(frame, start).GetOr(Span(|frame|, |frame|));
            var value := DataFieldValue(frame[start..span.end]);
            var values' := if value.Some? then values + [value.value] else values;
            values + DataFrom(frame, start) == values' + DataFrom(frame, span.next)
    ensures DataFrom(frame, |frame|) == []
  {
    FrameLinesFrom(frame, start);
    assert DataFrom(frame, |frame|) == [] by {
      assert frame[|frame|..] == [];
    }
    var span := FindLineBoundary(frame, start).GetOr(Span(|frame|, |frame|));
    var line, rest := frame[start..span.end], FrameLines(frame[span.next..]);
    DataValuesFrom(line, rest);
    hide FrameLines, LineBoundary, DataValues, DataFieldValue;
    var value := if DataFieldValue(line).Some? then [DataFieldValue(line).value] else [];
    assert values + (value + DataValues(rest)) == (values + value) + DataValues(rest);
    assert values + [] == values;
  }

  /** What the collecting loop knows after the data lines `values`. */
  ghost predicate Collected(values: seq<Bytes>, count: nat, single: Option<Bytes>, scratch: Bytes) {
    && count == |values|
    && single == (if |values| == 1 then Some(values[0]) else None)
    && scratch == (if |values| >= 2 then JoinLines(values) else [])
  }

  lemma {:induction false} JoinOneMore(values: seq<Bytes>, value: Bytes)
    ensures JoinLines(values + [value])
         == if values == [] then value else JoinLines(values) + [LF] + value
  {
    if |values| >= 2 {
      assert (values + [value])[1..] == values[1..] + [value];
      JoinOneMore(values[1..], value);
    }
  }

  // ---------------------------------------------------------------------------------------------
  // Chunk independence
  // ---------------------------------------------------------------------------------------------

  lemma {:induction false} FirstBreakStays(b: Bytes, more: Bytes)
    requires FirstBreak(b) < |b|
    ensures FirstBreak(b + more) == FirstBreak(b)
  {
    if !IsBreak(b[0]) {
      assert (b + more)[1..] == b[1..] + more;
      FirstBreakStays(b[1..], more);
    }
  }

  lemma LineBoundaryStays(b: Bytes, more: Bytes)
    requires LineBoundary(b).Some?
    ensures LineBoundary(b + more) == LineBoundary(b)
  {
    FirstBreakStays(b, more);
  }

  /** A boundary found in a buffer stays where it is when bytes are appended. */
  lemma {:induction false} FrameBoundaryStays(b: Bytes, more: Bytes)
    requires FrameBoundary(b).Some?
    ensures FrameBoundary(b + more) == FrameBoundary(b)
    decreases |b|
  {
    LineBoundaryStays(b, more);
    var line := LineBoundary(b).value;
    if line.end != 0 {
      assert (b + more)[line.next..] == b[line.next..] + more;
      FrameBoundaryStays(b[line.next..], more);
    }
  }

  lemma {:induction false} DrainLeavesNoFrame(env: Env, buffer: Bytes, log: seq<Bytes>)
    ensures var p := Drain(env, buffer, log);
            !p.outcome.Failed? ==> FrameBoundary(p.buffer) == None
    decreases |buffer|
  {
    match FrameBoundary(buffer)
    case None =>
    case Some(frame) =>
      var (log', outcome) := Emit(env, FrameData(buffer[..frame.end]), log);
      if outcome.Open? {
        DrainLeavesNoFrame(env, buffer[frame.next..], log');
      }
  }

  lemma {:induction false} DrainInTwoSteps(env: Env, first: Bytes, more: Bytes, log: seq<Bytes>)
    ensures var p := Drain(env, first, log);
            var whole := Drain(env, first + more, log);
            if p.outcome.Open? then whole == Drain(env, p.buffer + more, p.log)
            else whole.log == p.log && whole.outcome == p.outcome
    decreases |first|
  {
    match FrameBoundary(first)
    case None =>
    case Some(frame) =>
      FrameBoundaryStays(first, more);
      assert (first + more)[..frame.end] == first[..frame.end];
      assert (first + more)[frame.next..] == first[frame.next..] + more;
      var (log', outcome) := Emit(env, FrameData(first[..frame.end]), log);
      if outcome.Open? {
        DrainInTwoSteps(env, first[frame.next..], more, log');
      }
  }

  predicate SameDelivery(p: Progress, q: Progress) {
    p.log == q.log && p.outcome == q.outcome
  }

  lemma {:induction false} FeedIsOneDrain(env: Env, chunks: seq<Bytes>, buffer: Bytes, log: seq<Bytes>)
    requires FrameBoundary(buffer) == None
    ensures var p := Drain(env, buffer + Concat(chunks), log);
            SameDelivery(Feed(env, chunks, buffer, log),
                         if p.outcome.Open? then Drain(env, Closed(p.buffer), p.log) else p)
    decreases |chunks|
  {
    if chunks == [] {
      assert buffer + Concat(chunks) == buffer;
    } else {
      var rest := Concat(chunks[1..]);
      assert buffer + Concat(chunks) == (buffer + chunks[0]) + rest;
      DrainInTwoSteps(env, buffer + chunks[0], rest, log);
      DrainLeavesNoFrame(env, buffer + chunks[0], log);
      var p := Drain(env, buffer + chunks[0], log);
      if p.outcome.Open? {
        FeedIsOneDrain(env, chunks[1..], p.buffer, p.log);
      }
    }
  }

  /** However a byte stream is cut into chunks, the handler sees the same data and the same end. */
  lemma ChunkIndependence(env: Env, chunks: seq<Bytes>, log: seq<Bytes>)
    ensures SameDelivery(Feed(env, chunks, [], log), Feed(env, [Concat(chunks)], [], log))
  {
    FeedIsOneDrain(env, chunks, [], log);
    FeedIsOneDrain(env, [Concat(chunks)], [], log);
    assert Concat([Concat(chunks)]) == Concat(chunks) + Concat([]);
    assert Concat([Concat(chunks)]) == Concat(chunks);
  }
}
