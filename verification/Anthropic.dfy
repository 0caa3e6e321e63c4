/**
 The stream state of the Anthropic messages provider.  Content blocks are numbered; a tool-use block's
 arguments arrive in pieces between its start and its stop, and the call is emitted at the stop.
 */
module Anthropic {
  import opened Wrappers
  import opened Text
  import opened ModelEvents

  /** `input` is the JSON text of the block's input, unless that is missing or null. */
  datatype Block = ToolUse(id: Option<string>, name: Option<string>, input: Option<string>) | ThinkingBlock | OtherBlock

  datatype BlockDelta =
    | TextPiece(text: Option<string>)
    | InputJson(partial: Option<string>)
    | ThinkingPiece(thinking: Option<string>)
    | SignaturePiece(signature: Option<string>)
    | OtherPiece

  datatype Frame =
    | DoneMarker
    | Malformed
    | Ignored
    | MessageStart(id: Option<string>)
    | BlockStart(index: Option<nat>, block: Option<Block>)
    | BlockPiece(index: Option<nat>, piece: Option<BlockDelta>)
    | BlockStop(index: Option<nat>)
    | MessageDelta(stopReason: Option<string>)
    | MessageStop
    | ErrorFrame(message: Option<string>)

  datatype PartialToolCall = PartialToolCall(id: string, name: string, argumentsJson: string)
  datatype Thinking = Thinking(text: string, signature: Option<string>)

  const NO_CALL: PartialToolCall := PartialToolCall("", "", "")
  const NO_THINKING: Thinking := Thinking("", None)

  datatype Scope = Scope(runId: string, turnId: nat, aliases: map<string, string>)

  datatype StreamState = StreamState(
    toolCalls: map<nat, PartialToolCall>,
    thinking: map<nat, Thinking>,
    stopReason: Option<StopReason>,
    finished: bool,
    done: bool)

  const INITIAL: StreamState := StreamState(map[], map[], None, false, false)

  datatype Step = Step(state: StreamState, events: seq<ModelStreamEvent>)

  // ---------------------------------------------------------------------------------------------
  // One frame
  // ---------------------------------------------------------------------------------------------

  function MapStopReason(reason: string): StopReason {
    if reason == "end_turn" || reason == "stop_sequence" then Stop
    else if reason == "max_tokens" then Length
    else if reason == "tool_use" then StopReason.ToolUse
    else Error
  }

  function ThinkingEvent(index: nat, t: Thinking, text: Option<string>, withSnapshot: bool): ModelStreamEvent {
    ThinkingDelta(Raw, text, if withSnapshot then Some(SignedThinking(t.text, t.signature)) else None,
                  Some(Numeral(index, 10)), true)
  }

  /** The arguments a tool-use block starts with: its input, unless that is the empty object. */
  function InitialArguments(input: Option<string>): string {
    if input == Some("{}") then "" else input.GetOr("")
  }

  function CallEvent(sc: Scope, index: nat, p: PartialToolCall): Result<ModelStreamEvent, StreamError> {
    if p.name !in sc.aliases then Err(UnknownAlias(p.name))
    else Ok(ToolCallEvent(ToolCall(if p.id == "" then "toolu-" + Numeral(index, 10) else p.id,
                                   sc.aliases[p.name], p.argumentsJson)))
  }

  function StartBlock(s: StreamState, index: nat, block: Block): StreamState {
    match block
    case ToolUse(id, name, input) =>
      s.(toolCalls := s.toolCalls[index := PartialToolCall(id.GetOr(""), name.GetOr(""), InitialArguments(input))])
    case ThinkingBlock =>
      if index in s.thinking then s else s.(thinking := s.thinking[index := NO_THINKING])
    case OtherBlock => s
  }

  function ThinkingAt(s: StreamState, index: nat): Thinking {
    if index in s.thinking then s.thinking[index] else NO_THINKING
  }

  function ApplyPiece(s: StreamState, index: nat, piece: BlockDelta): Step {
    match piece
    case TextPiece(text) => Step(s, if text.Some? && text.value != "" then [TextDelta(text.value)] else [])
    case InputJson(partial) =>
      var p := if index in s.toolCalls then s.toolCalls[index] else NO_CALL;
      Step(s.(toolCalls := s.toolCalls[index := p.(argumentsJson := p.argumentsJson + partial.GetOr(""))]), [])
    case ThinkingPiece(thinking) =>
      if thinking.None? then Step(s, [])
      else
        var t := ThinkingAt(s, index);
        var t' := t.(text := t.text + thinking.value);
        Step(s.(thinking := s.thinking[index := t']), [ThinkingEvent(index, t', thinking, false)])
    case SignaturePiece(signature) =>
      if signature.None? then Step(s, [])
      else
        var t' := ThinkingAt(s, index).(signature := signature);
        Step(s.(thinking := s.thinking[index := t']), [ThinkingEvent(index, t', None, true)])
    case OtherPiece => Step(s, [])
  }

  function StopBlock(sc: Scope, s: StreamState, index: nat): Result<Step, StreamError> {
    if index in s.toolCalls then
      var event :- CallEvent(sc, index, s.toolCalls[index]);
      Ok(Step(s.(toolCalls := s.toolCalls - {index}), [event]))
    else if index in s.thinking then
      Ok(Step(s.(thinking := s.thinking - {index}), [ThinkingEvent(index, s.thinking[index], None, true)]))
    else Ok(Step(s, []))
  }

  function Finish(s: StreamState): Step {
    if s.finished then Step(s, []) else Step(s.(finished := true), [Finished(s.stopReason.GetOr(Stop))])
  }

  function ApplyFrame(sc: Scope, s: StreamState, frame: Frame): Result<Step, StreamError> {
    match frame
    case DoneMarker => Ok(Finish(s.(done := true)))
    case Malformed => Err(MalformedFrame)
    case Ignored => Ok(Step(s, []))
    case MessageStart(id) =>
      Ok(Step(s, [Started(id.GetOr("anthropic-messages-" + sc.runId + "-" + Numeral(sc.turnId, 10)))]))
    case BlockStart(index, block) =>
      Ok(Step(if index.Some? && block.Some? then StartBlock(s, index.value, block.value) else s, []))
    case BlockPiece(index, piece) =>
      Ok(if index.Some? && piece.Some? then ApplyPiece(s, index.value, piece.value) else Step(s, []))
    case BlockStop(index) => if index.Some? then StopBlock(sc, s, index.value) else Ok(Step(s, []))
    case MessageDelta(reason) =>
      Ok(Step(if reason.Some? then s.(stopReason := Some(MapStopReason(reason.value))) else s, []))
    case MessageStop => Ok(Finish(s.(done := true)))
    case ErrorFrame(message) =>
      Ok(Step(s.(done := true, finished := true), [FailedEvent(message.GetOr("anthropic messages stream error"))]))
  }

  function ApplyFrames(sc: Scope, frames: seq<Frame>): Result<Step, StreamError> {
    if frames == [] then Ok(Step(INITIAL, []))
    else
      var before :- ApplyFrames(sc, frames[..|frames| - 1]);
      var last :- ApplyFrame(sc, before.state, frames[|frames| - 1]);
      Ok(Step(last.state, before.events + last.events))
  }

  // ---------------------------------------------------------------------------------------------
  // The state that is updated in place
  // ---------------------------------------------------------------------------------------------

  class AnthropicStreamState {
    const scope: Scope
    var toolCalls: map<nat, PartialToolCall>
    var thinking: map<nat, Thinking>
    var stopReason: Option<StopReason>
    var finished: bool
    var done: bool

    function Value(): StreamState
      reads this
    {
      StreamState(toolCalls, thinking, stopReason, finished, done)
    }

    constructor (scope: Scope)
      ensures this.scope == scope && Value() == INITIAL
    {
      this.scope := scope;
      toolCalls, thinking, stopReason, finished, done := map[], map[], None, false, false;
    }

    method ContentBlockStart(index: nat, block: Block)
      modifies this
      ensures Value() == StartBlock(old(Value()), index, block)
    {
      match block {
        case ToolUse(id, name, input) =>
          toolCalls := toolCalls[index := PartialToolCall(id.GetOr(""), name.GetOr(""), InitialArguments(input))];
        case ThinkingBlock =>
          if index !in thinking {
            thinking := thinking[index := NO_THINKING];
          }
        case OtherBlock =>
      }
    }

    method ContentBlockDelta(index: nat, piece: BlockDelta) returns (events: seq<ModelStreamEvent>)
      modifies this
      ensures Step(Value(), events) == ApplyPiece(old(Value()), index, piece)
    {
      events := [];
      match piece {
        case TextPiece(text) =>
          if text.Some? && text.value != "" {
            events := [TextDelta(text.value)];
          }
        case InputJson(partial) =>
          var p := if index in toolCalls then toolCalls[index] else NO_CALL;
          toolCalls := toolCalls[index := p.(argumentsJson := p.argumentsJson + partial.GetOr(""))];
        case ThinkingPiece(text) =>
          if text.Some? {
            var t := if index in thinking then thinking[index] else NO_THINKING;
            t := t.(text := t.text + text.value);
            thinking := thinking[index := t];
            events := [ThinkingEvent(index, t, text, false)];
          }
        case SignaturePiece(signature) =>
          if signature.Some? {
            var t := if index in thinking then thinking[index] else NO_THINKING;
            t := t.(signature := signature);
            thinking := thinking[index := t];
            events := [ThinkingEvent(index, t, None, true)];
          }
        case OtherPiece =>
      }
    }

    method ContentBlockStop(index: nat) returns (r: Result<seq<ModelStreamEvent>, StreamError>)
      modifies this
      ensures match StopBlock(scope, old(Value()), index)
              case Err(e) => r == Err(e)
              case Ok(step) => r == Ok(step.events) && Value() == step.state
    {
      if index in toolCalls {
        var call := toolCalls[index];
        toolCalls := toolCalls - {index};
        var event :- CallEvent(scope, index, call);
        return Ok([event]);
      }
      if index in thinking {
        var t := thinking[index];
        thinking := thinking - {index};
        return Ok([ThinkingEvent(index, t, None, true)]);
      }
      return Ok([]);
    }

    method FinishEvents() returns (events: seq<ModelStreamEvent>)
      modifies this
      ensures Step(Value(), events) == Finish(old(Value()))
    {
      if finished {
        return [];
      }
      finished := true;
      return [Finished(stopReason.GetOr(Stop))];
    }

    method ApplyChunk(frame: Frame) returns (r: Result<seq<ModelStreamEvent>, StreamError>)
      modifies this
      ensures match ApplyFrame(scope, old(Value()), frame)
              case Err(e) => r == Err(e)
              case Ok(step) => r == Ok(step.events) && Value() == step.state
    {
      var events := [];
      match frame {
        case DoneMarker =>
          done := true;
          events := FinishEvents();
        case Malformed =>
          return Err(MalformedFrame);
        case Ignored =>
        case MessageStart(id) =>
          events := [Started(id.GetOr("anthropic-messages-" + scope.runId + "-" + Numeral(scope.turnId, 10)))];
        case BlockStart(index, block) =>
          if index.Some? && block.Some? {
            ContentBlockStart(index.value, block.value);
          }
        case BlockPiece(index, piece) =>
          if index.Some? && piece.Some? {
            events := ContentBlockDelta(index.value, piece.value);
          }
        case BlockStop(index) =>
          if index.Some? {
            r := ContentBlockStop(index.value);
            return;
          }
        case MessageDelta(reason) =>
          if reason.Some? {
            stopReason := Some(MapStopReason(reason.value));
          }
        case MessageStop =>
          done := true;
          events := FinishEvents();
        case ErrorFrame(message) =>
          done, finished := true, true;
          events := [FailedEvent(message.GetOr("anthropic messages stream error"))];
      }
      return Ok(events);
    }
  }

  // ---------------------------------------------------------------------------------------------
  // One terminal event, at the end
  // ---------------------------------------------------------------------------------------------

  lemma FrameEndsWell(sc: Scope, s: StreamState, frame: Frame)
    requires !s.finished && !s.done && ApplyFrame(sc, s, frame).Ok?
    ensures var step := ApplyFrame(sc, s, frame).value;
            && step.state.done == step.state.finished
            && if step.state.done then OneTerminalLast(step.events) else NoTerminal(step.events)
  {
    hide MapStopReason, InitialArguments;
  }

  /** The stream is fed until the first frame that makes it done. */
  predicate FedUntilDone(sc: Scope, frames: seq<Frame>) {
    && frames != []
    && ApplyFrames(sc, frames).Ok? && ApplyFrames(sc, frames).value.state.done
    && StillOpen(sc, frames)
  }

  predicate StillOpen(sc: Scope, frames: seq<Frame>) {
    forall n :: 0 <= n < |frames| && ApplyFrames(sc, frames[..n]).Ok? ==>
      !ApplyFrames(sc, frames[..n]).value.state.done
  }

  lemma {:induction false} OpenStreamHasNoTerminal(sc: Scope, frames: seq<Frame>)
    requires ApplyFrames(sc, frames).Ok? && !ApplyFrames(sc, frames).value.state.done && StillOpen(sc, frames)
    ensures NoTerminal(ApplyFrames(sc, frames).value.events)
    ensures !ApplyFrames(sc, frames).value.state.finished
  {
    if frames != [] {
      var before := frames[..|frames| - 1];
      assert forall n :: 0 <= n <= |before| ==> before[..n] == frames[..n];
      OpenStreamHasNoTerminal(sc, before);
      var b := ApplyFrames(sc, before).value;
      FrameEndsWell(sc, b.state, frames[|frames| - 1]);
      hide ApplyFrame;
      TerminalAfter(b.events, ApplyFrame(sc, b.state, frames[|frames| - 1]).value.events);
    }
  }

  /** Fed until its first done frame and then closed, a stream emits exactly one terminal event, last. */
  lemma StreamIsWellFormed(sc: Scope, frames: seq<Frame>)
    requires FedUntilDone(sc, frames)
    ensures var fed := ApplyFrames(sc, frames).value;
            OneTerminalLast(fed.events + Finish(fed.state).events)
  {
    var before := frames[..|frames| - 1];
    assert forall n :: 0 <= n <= |before| ==> before[..n] == frames[..n];
    OpenStreamHasNoTerminal(sc, before);
    var b := ApplyFrames(sc, before).value;
    FrameEndsWell(sc, b.state, frames[|frames| - 1]);
    var last := ApplyFrame(sc, b.state, frames[|frames| - 1]).value;
    hide ApplyFrame;
    TerminalAfter(b.events, last.events);
    assert Finish(last.state).events == [];
    assert b.events + last.events + [] == b.events + last.events;
  }

  // ---------------------------------------------------------------------------------------------
  // Each tool call belongs to its own block
  // ---------------------------------------------------------------------------------------------

  predicate StartsCall(frame: Frame, index: nat) {
    frame.BlockStart? && frame.index == Some(index) && frame.block.Some? && frame.block.value.ToolUse?
  }

  predicate AddsArguments(frame: Frame, index: nat) {
    frame.BlockPiece? && frame.index == Some(index) && frame.piece.Some? && frame.piece.value.InputJson?
  }

  function BlockCall(block: Block): PartialToolCall
    requires block.ToolUse?
  {
    PartialToolCall(block.id.GetOr(""), block.name.GetOr(""), InitialArguments(block.input))
  }

  /** The call that block `index` has open, told by the frames of that block alone. */
  function OpenCall(frames: seq<Frame>, index: nat): Option<PartialToolCall> {
    if frames == [] then None
    else
      var before := OpenCall(frames[..|frames| - 1], index);
      var last := frames[|frames| - 1];
      if StartsCall(last, index) then Some(BlockCall(last.block.value))
      else if AddsArguments(last, index) then
        var p := before.GetOr(NO_CALL);
        Some(p.(argumentsJson := p.argumentsJson + last.piece.value.partial.GetOr("")))
      else if last == BlockStop(Some(index)) then None
      else before
  }

  /** The calls in order: one at each stop of a block that has a call open. */
  function Calls(sc: Scope, frames: seq<Frame>): seq<ToolCall> {
    if frames == [] then []
    else
      var before, last := frames[..|frames| - 1], frames[|frames| - 1];
      Calls(sc, before)
      + if last.BlockStop? && last.index.Some? && OpenCall(before, last.index.value).Some?
        then [CallOf(sc, last.index.value, OpenCall(before, last.index.value).value)] else []
  }

  function CallOf(sc: Scope, index: nat, p: PartialToolCall): ToolCall {
    ToolCall(if p.id == "" then "toolu-" + Numeral(index, 10) else p.id,
             if p.name in sc.aliases then sc.aliases[p.name] else p.name, p.argumentsJson)
  }

  function CallAt(s: StreamState, index: nat): Option<PartialToolCall> {
    if index in s.toolCalls then Some(s.toolCalls[index]) else None
  }

  ghost predicate HoldsOpenCalls(s: StreamState, frames: seq<Frame>) {
    forall index: nat :: CallAt(s, index) == OpenCall(frames, index)
  }

  lemma OpenCallOneMore(before: seq<Frame>, last: Frame, index: nat)
    ensures OpenCall(before + [last], index) ==
            if StartsCall(last, index) then Some(BlockCall(last.block.value))
            else if AddsArguments(last, index) then
              var p := OpenCall(before, index).GetOr(NO_CALL);
              Some(p.(argumentsJson := p.argumentsJson + last.piece.value.partial.GetOr("")))
            else if last == BlockStop(Some(index)) then None
            else OpenCall(before, index)
  {
    var all := before + [last];
    assert all[..|all| - 1] == before && all[|all| - 1] == last;
  }

  /** What a frame does to the calls of the state. */
  lemma FrameOnCall(sc: Scope, s: StreamState, frame: Frame, index: nat)
    requires ApplyFrame(sc, s, frame).Ok?
    ensures CallAt(ApplyFrame(sc, s, frame).value.state, index) ==
            if StartsCall(frame, index) then Some(BlockCall(frame.block.value))
            else if AddsArguments(frame, index) then
              var p := CallAt(s, index).GetOr(NO_CALL);
              Some(p.(argumentsJson := p.argumentsJson + frame.piece.value.partial.GetOr("")))
            else if frame == BlockStop(Some(index)) then None
            else CallAt(s, index)
  {
    hide Numeral, MapStopReason, ThinkingEvent, CallEvent, InitialArguments;
  }

  /** The calls that are open after a frame. */
  lemma FrameKeepsOpenCalls(sc: Scope, s: StreamState, before: seq<Frame>, last: Frame)
    requires HoldsOpenCalls(s, before) && ApplyFrame(sc, s, last).Ok?
    ensures HoldsOpenCalls(ApplyFrame(sc, s, last).value.state, before + [last])
  {
    var after := ApplyFrame(sc, s, last).value.state;
    hide ApplyFrame, OpenCall;
    forall index: nat
      ensures CallAt(after, index) == OpenCall(before + [last], index)
    {
      FrameOnCall(sc, s, last, index);
      OpenCallOneMore(before, last, index);
      assert CallAt(s, index) == OpenCall(before, index);
    }
  }

  /** The call that a frame emits. */
  lemma FrameEmitsCall(sc: Scope, s: StreamState, before: seq<Frame>, last: Frame)
    requires HoldsOpenCalls(s, before) && ApplyFrame(sc, s, last).Ok?
    ensures Calls(sc, before + [last]) == Calls(sc, before) + ToolCalls(ApplyFrame(sc, s, last).value.events)
  {
    var all := before + [last];
    assert all[..|all| - 1] == before && all[|all| - 1] == last;
    var events := ApplyFrame(sc, s, last).value.events;
    hide Numeral, MapStopReason, OpenCall;
    assert |events| <= 1;
    assert |events| == 1 ==> events == [events[0]] + [];
    if last.BlockStop? && last.index.Some? {
      assert OpenCall(before, last.index.value) == CallAt(s, last.index.value);
    }
  }

  /**
   For every frame sequence that is read successfully: the tool calls are one for each block stop that
   closes a call, made of that block's own start and pieces, whatever other blocks do in between.
   */
  lemma {:induction false} ToolCallsFollowBlocks(sc: Scope, frames: seq<Frame>)
    requires ApplyFrames(sc, frames).Ok?
    ensures ToolCalls(ApplyFrames(sc, frames).value.events) == Calls(sc, frames)
    ensures HoldsOpenCalls(ApplyFrames(sc, frames).value.state, frames)
  {
    if frames != [] {
      var before, last := frames[..|frames| - 1], frames[|frames| - 1];
      ToolCallsFollowBlocks(sc, before);
      var b := ApplyFrames(sc, before).value;
      hide ApplyFrame, Calls, HoldsOpenCalls, ToolCalls;
      assert before + [last] == frames;
      FrameKeepsOpenCalls(sc, b.state, before, last);
      FrameEmitsCall(sc, b.state, before, last);
      ToolCallsOfTwo(b.events, ApplyFrame(sc, b.state, last).value.events);
    }
  }

  function Pieces(frames: seq<Frame>, index: nat): string {
    if frames == [] then ""
    else
      var last := frames[|frames| - 1];
      Pieces(frames[..|frames| - 1], index)
      + if AddsArguments(last, index) then last.piece.value.partial.GetOr("") else ""
  }

  /** A call that was started and not stopped has its own id, name and input, unless that is empty, and all its pieces. */
  lemma {:induction false} OpenCallIsItsPieces(frames: seq<Frame>, index: nat, start: nat)
    requires start < |frames| && StartsCall(frames[start], index)
    requires forall j :: start < j < |frames| ==> !StartsCall(frames[j], index) && frames[j] != BlockStop(Some(index))
    ensures OpenCall(frames, index).Some?
    ensures var call, block := OpenCall(frames, index).value, frames[start].block.value;
            && call.id == block.id.GetOr("") && call.name == block.name.GetOr("")
            && call.argumentsJson == (if block.input in {None, Some("{}")} then "" else block.input.value)
                                     + Pieces(frames[start + 1..], index)
    decreases |frames|
  {
    var n := |frames| - 1;
    var arguments := BlockCall(frames[start].block.value).argumentsJson;
    if start == n {
      assert frames[start + 1..] == [] && arguments + "" == arguments;
    } else {
      OpenCallIsItsPieces(frames[..n], index, start);
      var rest := frames[start + 1..];
      assert rest[..|rest| - 1] == frames[..n][start + 1..] && rest[|rest| - 1] == frames[n];
      var more := if AddsArguments(frames[n], index) then frames[n].piece.value.partial.GetOr("") else "";
      var before := Pieces(frames[..n][start + 1..], index);
      assert (arguments + before) + more == arguments + (before + more) && before + "" == before;
    }
  }
}
