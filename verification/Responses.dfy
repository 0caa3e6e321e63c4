/**
 The stream state of the responses provider: frames report a tool call by up to three routes, in
 pieces, and by item id or by output index; the state turns them into one sequence of events.

 Frames are what is left of the JSON once the fields the code looks at are read; a field that may be
 missing or of another type is an option.
 */
module Responses {
  import opened Wrappers
  import opened Text
  import opened ModelEvents

  datatype ItemKind = FunctionCall | Reasoning | OtherItem

  datatype Item = Item(
    kind: ItemKind,
    id: Option<string>,
    callId: Option<string>,
    name: Option<string>,
    arguments: Option<string>,
    hasEncryptedContent: bool,
    encryptedContent: Option<string>,
    hasSummary: bool,
    json: string)

  datatype Frame =
    | DoneMarker
    | Malformed
    | Ignored
    | Created(responseId: Option<string>)
    | OutputTextDelta(delta: Option<string>)
    | ContentPartDelta(delta: Option<string>, deltaText: Option<string>, partText: Option<string>)
    | OutputItemAdded(item: Option<Item>, outputIndex: Option<nat>)
    | ArgumentsDelta(itemId: Option<string>, outputIndex: Option<nat>, delta: Option<string>)
    | ArgumentsDone(item: Option<Item>, itemId: Option<string>, outputIndex: Option<nat>, arguments: Option<string>)
    | OutputItemDone(item: Option<Item>, itemId: Option<string>, outputIndex: Option<nat>)
    | ReasoningDelta(thinking: ThinkingKind, itemId: Option<string>, outputIndex: Option<nat>, delta: Option<string>)
    | ReasoningDone(itemId: Option<string>, outputIndex: Option<nat>, text: Option<string>)
    | ResponseCompleted(output: Option<seq<Item>>)
    | ResponseIncomplete(reason: Option<string>, output: Option<seq<Item>>)
    | ResponseFailed(errorMessage: Option<string>, errorText: Option<string>, message: Option<string>)

  datatype PartialToolCall = PartialToolCall(id: string, name: string, argumentsJson: string)
  datatype ReasoningState = ReasoningState(kind: ThinkingKind, text: string)

  const NO_CALL: PartialToolCall := PartialToolCall("", "", "")
  const NO_REASONING: ReasoningState := ReasoningState(Raw, "")

  /** What does not change while a stream is read; `aliases` is the tool-name codec's decoding map. */
  datatype Scope = Scope(runId: string, turnId: nat, stateless: bool, aliases: map<string, string>)

  datatype StreamState = StreamState(
    started: bool,
    toolCalls: map<string, PartialToolCall>,
    toolKeysByOutputIndex: map<nat, string>,
    emittedToolCalls: set<string>,
    reasoning: map<string, ReasoningState>,
    emittedReasoningItems: set<string>,
    stopReason: Option<StopReason>,
    finished: bool,
    done: bool)

  const INITIAL: StreamState := StreamState(false, map[], map[], {}, map[], {}, None, false, false)

  /** A state and the events on the way to it. */
  datatype Step = Step(state: StreamState, events: seq<ModelStreamEvent>) {
    function After(before: seq<ModelStreamEvent>): Step {
      Step(state, before + events)
    }
  }

  type Outcome = Result<Step, StreamError>

  // ---------------------------------------------------------------------------------------------
  // Keys
  // ---------------------------------------------------------------------------------------------

  function OrElse(a: Option<string>, b: Option<string>): Option<string> {
    if a.Some? then a else b
  }

  function ItemKey(item: Item): string {
    OrElse(item.id, item.callId).GetOr("output-0")
  }

  function EventKey(keysByIndex: map<nat, string>, itemId: Option<string>, outputIndex: Option<nat>): string {
    match itemId
    case Some(id) => id
    case None =>
      match outputIndex
      case None => "output-0"
      case Some(index) => if index in keysByIndex then keysByIndex[index] else "output-" + Numeral(index, 10)
  }

  function ReasoningKey(itemId: Option<string>, outputIndex: Option<nat>): string {
    match itemId
    case Some(id) => id
    case None => if outputIndex.Some? then "reasoning-" + Numeral(outputIndex.value, 10) else "reasoning-0"
  }

  // ---------------------------------------------------------------------------------------------
  // One frame
  // ---------------------------------------------------------------------------------------------

  function FallbackStreamId(sc: Scope): string {
    "responses-api-" + sc.runId + "-" + Numeral(sc.turnId, 10)
  }

  function EnsureStarted(sc: Scope, s: StreamState): Step {
    if s.started then Step(s, []) else Step(s.(started := true), [Started(FallbackStreamId(sc))])
  }

  /** Some text, after the start of the stream; nothing for a missing or an empty text. */
  function EmitText(sc: Scope, s: StreamState, text: Option<string>): Step {
    if text.None? || text.value == "" then Step(s, [])
    else
      var start := EnsureStarted(sc, s);
      Step(start.state, start.events + [TextDelta(text.value)])
  }

  function Describe(p: PartialToolCall, callId: Option<string>, name: Option<string>, arguments: Option<string>)
    : PartialToolCall
  {
    PartialToolCall(
      if callId.Some? && callId.value != "" then callId.value else p.id,
      if name.Some? && name.value != "" then name.value else p.name,
      arguments.GetOr(p.argumentsJson))
  }

  function PartialAt(s: StreamState, key: string): PartialToolCall {
    if key in s.toolCalls then s.toolCalls[key] else NO_CALL
  }

  function AbsorbItem(s: StreamState, item: Item, outputIndex: Option<nat>): StreamState {
    var key := ItemKey(item);
    var partial := Describe(PartialAt(s, key), item.callId, item.name, item.arguments);
    s.(toolCalls := s.toolCalls[key := partial],
       toolKeysByOutputIndex :=
         if outputIndex.Some? then s.toolKeysByOutputIndex[outputIndex.value := key] else s.toolKeysByOutputIndex)
  }

  function AppendArguments(s: StreamState, key: string, delta: string): StreamState {
    var p := PartialAt(s, key);
    s.(toolCalls := s.toolCalls[key := p.(argumentsJson := p.argumentsJson + delta)])
  }

  function SetArguments(s: StreamState, key: string, arguments: string): StreamState {
    s.(toolCalls := s.toolCalls[key := PartialAt(s, key).(argumentsJson := arguments)])
  }

  function CallEvent(sc: Scope, key: string, p: PartialToolCall): Result<ModelStreamEvent, StreamError> {
    if p.name !in sc.aliases then Err(UnknownAlias(p.name))
    else Ok(ToolCallEvent(ToolCall(if p.id == "" then key else p.id, sc.aliases[p.name], p.argumentsJson)))
  }

  function EmitToolCall(sc: Scope, s: StreamState, key: string): Outcome {
    if key in s.emittedToolCalls then Ok(Step(s, []))
    else
      var marked := s.(emittedToolCalls := s.emittedToolCalls + {key});
      if key !in s.toolCalls then Ok(Step(marked, []))
      else
        var event :- CallEvent(sc, key, s.toolCalls[key]);
        var start := EnsureStarted(sc, marked);
        Ok(Step(start.state, start.events + [event]))
  }

  function ReasoningIdentity(item: Item): string {
    item.id.GetOr(item.json)
  }

  function IsReplayable(sc: Scope, item: Item): bool {
    if sc.stateless then item.encryptedContent.Some? && item.encryptedContent.value != ""
    else item.id.Some? && item.id.value != ""
  }

  function ItemThinkingKind(item: Item): ThinkingKind {
    if item.hasEncryptedContent then Encrypted else if item.hasSummary then Summary else Raw
  }

  function EmitReasoningItem(sc: Scope, s: StreamState, item: Item): Step {
    var identity := ReasoningIdentity(item);
    if identity in s.emittedReasoningItems then Step(s, [])
    else Step(s.(emittedReasoningItems := s.emittedReasoningItems + {identity}),
              [ThinkingDelta(ItemThinkingKind(item), None, Some(WholeItem(item.json)), item.id,
                             IsReplayable(sc, item))])
  }

  function TextSnapshot(key: string, r: ReasoningState): RawSnapshot {
    if r.kind.Summary? then SummaryText(key, r.text) else ReasoningText(key, r.text)
  }

  function FinishEvents(sc: Scope, s: StreamState): Step {
    if s.finished then Step(s, [])
    else
      var start := EnsureStarted(sc, s.(finished := true));
      Step(start.state, start.events + [Finished(s.stopReason.GetOr(Stop))])
  }

  /** The items of a completed response; calls that were emitted before are passed over. */
  function OutputItems(sc: Scope, s: StreamState, output: seq<Item>): Outcome
    decreases |output|
  {
    if output == [] then Ok(Step(s, []))
    else
      var first :- OutputItem(sc, s, output[0]);
      var rest :- OutputItems(sc, first.state, output[1..]);
      Ok(rest.After(first.events))
  }

  /** An outcome reached after the events `before`. */
  function OutcomeAfter(before: seq<ModelStreamEvent>, out: Outcome): Outcome {
    match out
    case Err(e) => Err(e)
    case Ok(step) => Ok(step.After(before))
  }

  lemma OutputItemsFrom(sc: Scope, s: StreamState, output: seq<Item>, i: nat, before: seq<ModelStreamEvent>)
    requires i < |output|
    ensures OutcomeAfter(before, OutputItems(sc, s, output[i..]))
         == match OutputItem(sc, s, output[i])
            case Err(e) => Err(e)
            case Ok(first) => OutcomeAfter(before + first.events, OutputItems(sc, first.state, output[i + 1..]))
  {
    assert output[i..][1..] == output[i + 1..];
    var first := OutputItem(sc, s, output[i]);
    if first.Ok? {
      var rest := OutputItems(sc, first.value.state, output[i + 1..]);
      if rest.Ok? {
        assert (before + first.value.events) + rest.value.events == before + (first.value.events + rest.value.events);
      }
    }
  }

  function OutputItem(sc: Scope, s: StreamState, item: Item): Outcome {
    match item.kind
    case FunctionCall =>
      if ItemKey(item) in s.emittedToolCalls then Ok(Step(s, []))
      else EmitToolCall(sc, AbsorbItem(s, item, None), ItemKey(item))
    case Reasoning => Ok(EmitReasoningItem(sc, s, item))
    case OtherItem => Ok(Step(s, []))
  }

  function Complete(sc: Scope, s: StreamState, output: Option<seq<Item>>): Outcome {
    var start := EnsureStarted(sc, s);
    var items :- OutputItems(sc, start.state, output.GetOr([]));
    var finish := FinishEvents(sc, items.state.(done := true));
    Ok(finish.After(start.events + items.events))
  }

  function IncompleteReason(reason: Option<string>): StopReason {
    if reason == Some("max_output_tokens") || reason == Some("max_tokens") then Length else Error
  }

  function ApplyFrame(sc: Scope, s: StreamState, frame: Frame): Outcome {
    match frame
    case DoneMarker => Ok(FinishEvents(sc, s.(done := true)))
    case Malformed => Err(MalformedFrame)
    case Ignored => Ok(Step(s, []))
    case Created(id) => Ok(Step(s.(started := true), [Started(id.GetOr(FallbackStreamId(sc)))]))
    case OutputTextDelta(delta) => Ok(EmitText(sc, s, delta))
    case ContentPartDelta(delta, deltaText, partText) =>
      Ok(EmitText(sc, s, OrElse(delta, OrElse(deltaText, partText))))
    case OutputItemAdded(item, outputIndex) =>
      Ok(Step(if item.Some? && item.value.kind.FunctionCall? then AbsorbItem(s, item.value, outputIndex) else s, []))
    case ArgumentsDelta(itemId, outputIndex, delta) =>
      Ok(Step(if delta.None? then s
              else AppendArguments(s, EventKey(s.toolKeysByOutputIndex, itemId, outputIndex), delta.value), []))
    case ArgumentsDone(item, itemId, outputIndex, arguments) =>
      var told :=
        if item.Some? then AbsorbItem(s, item.value, outputIndex)
        else if arguments.Some? then
          SetArguments(s, EventKey(s.toolKeysByOutputIndex, itemId, outputIndex), arguments.value)
        else s;
      EmitToolCall(sc, told, EventKey(told.toolKeysByOutputIndex, itemId, outputIndex))
    case OutputItemDone(item, itemId, outputIndex) =>
      if item.None? then Ok(Step(s, []))
      else (match item.value.kind
        case FunctionCall =>
          var told := AbsorbItem(s, item.value, outputIndex);
          EmitToolCall(sc, told, EventKey(told.toolKeysByOutputIndex, itemId, outputIndex))
        case Reasoning =>
          var start := EnsureStarted(sc, s);
          Ok(EmitReasoningItem(sc, start.state, item.value).After(start.events))
        case OtherItem => Ok(Step(s, [])))
    case ReasoningDelta(thinking, itemId, outputIndex, delta) =>
      if delta.None? || delta.value == "" then Ok(Step(s, []))
      else
        var key := ReasoningKey(itemId, outputIndex);
        var r := if key in s.reasoning then s.reasoning[key] else NO_REASONING;
        var told := s.(reasoning := s.reasoning[key := ReasoningState(thinking, r.text + delta.value)]);
        var start := EnsureStarted(sc, told);
        Ok(Step(start.state, start.events + [ThinkingDelta(thinking, delta, None, Some(key), false)]))
    case ReasoningDone(itemId, outputIndex, text) =>
      var key := ReasoningKey(itemId, outputIndex);
      var r := if key in s.reasoning then s.reasoning[key] else NO_REASONING;
      var told := if text.Some? then s.(reasoning := s.reasoning[key := r.(text := text.value)]) else s;
      if key !in told.reasoning then Ok(Step(s, []))
      else
        var start := EnsureStarted(sc, told);
        var r' := told.reasoning[key];
        Ok(Step(start.state,
                start.events + [ThinkingDelta(r'.kind, None, Some(TextSnapshot(key, r')), Some(key), false)]))
    case ResponseCompleted(output) => Complete(sc, s, output)
    case ResponseIncomplete(reason, output) => Complete(sc, s.(stopReason := Some(IncompleteReason(reason))), output)
    case ResponseFailed(errorMessage, errorText, message) =>
      Ok(Step(s.(done := true, finished := true),
              [FailedEvent(OrElse(errorMessage, OrElse(errorText, message)).GetOr("responses api stream error"))]))
  }

  /** The frames of a stream, one after the other. */
  function ApplyFrames(sc: Scope, frames: seq<Frame>): Outcome {
    if frames == [] then Ok(Step(INITIAL, []))
    else
      var before :- ApplyFrames(sc, frames[..|frames| - 1]);
      var last :- ApplyFrame(sc, before.state, frames[|frames| - 1]);
      Ok(last.After(before.events))
  }

  // ---------------------------------------------------------------------------------------------
  // The state that is updated in place
  // ---------------------------------------------------------------------------------------------

  /** After an error the stream is abandoned, so nothing is promised about the state then. */
  class ResponsesStreamState {
    const scope: Scope
    var started: bool
    var toolCalls: map<string, PartialToolCall>
    var toolKeysByOutputIndex: map<nat, string>
    var emittedToolCalls: set<string>
    var reasoning: map<string, ReasoningState>
    var emittedReasoningItems: set<string>
    var stopReason: Option<StopReason>
    var finished: bool
    var done: bool

    function Value(): StreamState
      reads this
    {
      StreamState(started, toolCalls, toolKeysByOutputIndex, emittedToolCalls, reasoning,
                  emittedReasoningItems, stopReason, finished, done)
    }

    constructor (scope: Scope)
      ensures this.scope == scope && Value() == INITIAL
    {
      this.scope := scope;
      started, finished, done, stopReason := false, false, false, None;
      toolCalls, toolKeysByOutputIndex, emittedToolCalls := map[], map[], {};
      reasoning, emittedReasoningItems := map[], {};
    }

    /** The value after a step that was taken from `before`. */
    predicate Reached(before: StreamState, out: Outcome, r: Result<seq<ModelStreamEvent>, StreamError>)
      reads this
    {
      match out
      case Err(e) => r == Err(e)
      case Ok(step) => r == Ok(step.events) && Value() == step.state
    }

    method Start() returns (events: seq<ModelStreamEvent>)
      modifies this
      ensures Step(Value(), events) == EnsureStarted(scope, old(Value()))
    {
      if started {
        return [];
      }
      started := true;
      return [Started(FallbackStreamId(scope))];
    }

    method Text(text: Option<string>) returns (events: seq<ModelStreamEvent>)
      modifies this
      ensures Step(Value(), events) == EmitText(scope, old(Value()), text)
    {
      if text.None? || text.value == "" {
        return [];
      }
      events := Start();
      events := events + [TextDelta(text.value)];
    }

    method AbsorbFunctionCallItem(item: Item, outputIndex: Option<nat>)
      modifies this
      ensures Value() == AbsorbItem(old(Value()), item, outputIndex)
    {
      var key := ItemKey(item);
      var partial := if key in toolCalls then toolCalls[key] else NO_CALL;
      if item.callId.Some? && item.callId.value != "" {
        partial := partial.(id := item.callId.value);
      }
      if item.name.Some? && item.name.value != "" {
        partial := partial.(name := item.name.value);
      }
      if item.arguments.Some? {
        partial := partial.(argumentsJson := item.arguments.value);
      }
      toolCalls := toolCalls[key := partial];
      if outputIndex.Some? {
        toolKeysByOutputIndex := toolKeysByOutputIndex[outputIndex.value := key];
      }
    }

    method EmitToolCallFromKey(key: string) returns (r: Result<seq<ModelStreamEvent>, StreamError>)
      modifies this
      ensures Reached(old(Value()), EmitToolCall(scope, old(Value()), key), r)
    {
      if key in emittedToolCalls {
        return Ok([]);
      }
      emittedToolCalls := emittedToolCalls + {key};
      if key !in toolCalls {
        return Ok([]);
      }
      var event :- CallEvent(scope, key, toolCalls[key]);
      var events := Start();
      return Ok(events + [event]);
    }

    method ReasoningItemEvents(item: Item) returns (events: seq<ModelStreamEvent>)
      modifies this
      ensures Step(Value(), events) == EmitReasoningItem(scope, old(Value()), item)
    {
      var identity := ReasoningIdentity(item);
      if identity in emittedReasoningItems {
        return [];
      }
      emittedReasoningItems := emittedReasoningItems + {identity};
      return [ThinkingDelta(ItemThinkingKind(item), None, Some(WholeItem(item.json)), item.id,
                            IsReplayable(scope, item))];
    }

    method OutputItemEvents(output: seq<Item>) returns (r: Result<seq<ModelStreamEvent>, StreamError>)
      modifies this
      ensures Reached(old(Value()), OutputItems(scope, old(Value()), output), r)
    {
      hide EmitToolCall, AbsorbItem, EmitReasoningItem, ItemKey;
      ghost var goal := OutputItems(scope, Value(), output);
      var events := [];
      var i := 0;
      assert output[0..] == output;
      assert goal == OutcomeAfter([], goal) by {
        if goal.Ok? {
          assert [] + goal.value.events == goal.value.events;
        }
      }
      while i < |output|
        invariant 0 <= i <= |output|
        invariant goal == OutcomeAfter(events, OutputItems(scope, Value(), output[i..]))
      {
        OutputItemsFrom(scope, Value(), output, i, events);
        var item := output[i];
        var more := [];
        match item.kind {
          case FunctionCall =>
            if ItemKey(item) !in emittedToolCalls {
              AbsorbFunctionCallItem(item, None);
              more :- EmitToolCallFromKey(ItemKey(item));
            }
          case Reasoning => more := ReasoningItemEvents(item);
          case OtherItem =>
        }
        events := events + more;
        i := i + 1;
      }
      assert events + [] == events;
      return Ok(events);
    }

    method Finish() returns (events: seq<ModelStreamEvent>)
      modifies this
      ensures Step(Value(), events) == FinishEvents(scope, old(Value()))
    {
      if finished {
        return [];
      }
      finished := true;
      events := Start();
      events := events + [Finished(stopReason.GetOr(Stop))];
    }

    method Completed(output: Option<seq<Item>>) returns (r: Result<seq<ModelStreamEvent>, StreamError>)
      modifies this
      ensures Reached(old(Value()), Complete(scope, old(Value()), output), r)
    {
      var events := Start();
      assert events + [] == events;
      if output.Some? {
        var items :- OutputItemEvents(output.value);
        events := events + items;
      }
      done := true;
      var finish := Finish();
      return Ok(events + finish);
    }

    method ReasoningTextDelta(thinking: ThinkingKind, key: string, text: Option<string>)
      returns (events: seq<ModelStreamEvent>)
      modifies this
      ensures forall itemId, outputIndex :: ReasoningKey(itemId, outputIndex) == key ==>
        Ok(Step(Value(), events))
          == ApplyFrame(scope, old(Value()), ReasoningDelta(thinking, itemId, outputIndex, text))
    {
      if text.None? || text.value == "" {
        return [];
      }
      var r := if key in reasoning then reasoning[key] else NO_REASONING;
      reasoning := reasoning[key := ReasoningState(thinking, r.text + text.value)];
      events := Start();
      events := events + [ThinkingDelta(thinking, text, None, Some(key), false)];
    }

    method ReasoningTextDone(key: string, text: Option<string>) returns (events: seq<ModelStreamEvent>)
      modifies this
      ensures forall itemId, outputIndex :: ReasoningKey(itemId, outputIndex) == key ==>
        Ok(Step(Value(), events)) == ApplyFrame(scope, old(Value()), ReasoningDone(itemId, outputIndex, text))
    {
      if text.Some? {
        var r := if key in reasoning then reasoning[key] else NO_REASONING;
        reasoning := reasoning[key := r.(text := text.value)];
      }
      if key !in reasoning {
        return [];
      }
      var r := reasoning[key];
      events := Start();
      events := events + [ThinkingDelta(r.kind, None, Some(TextSnapshot(key, r)), Some(key), false)];
    }

    method AbsorbFunctionArgumentsDelta(itemId: Option<string>, outputIndex: Option<nat>, delta: Option<string>)
      modifies this`toolCalls
      ensures Ok(Step(Value(), [])) == ApplyFrame(scope, old(Value()), ArgumentsDelta(itemId, outputIndex, delta))
    {
      if delta.Some? {
        var key := EventKey(toolKeysByOutputIndex, itemId, outputIndex);
        var p := if key in toolCalls then toolCalls[key] else NO_CALL;
        toolCalls := toolCalls[key := p.(argumentsJson := p.argumentsJson + delta.value)];
      }
    }

    method FunctionArgumentsDone(
        item: Option<Item>, itemId: Option<string>, outputIndex: Option<nat>, arguments: Option<string>)
      returns (r: Result<seq<ModelStreamEvent>, StreamError>)
      modifies this
      ensures Reached(old(Value()),
                      ApplyFrame(scope, old(Value()), ArgumentsDone(item, itemId, outputIndex, arguments)), r)
    {
      hide EmitToolCall, EventKey, ItemKey;
      if item.Some? {
        AbsorbFunctionCallItem(item.value, outputIndex);
      } else if arguments.Some? {
        var key := EventKey(toolKeysByOutputIndex, itemId, outputIndex);
        var p := if key in toolCalls then toolCalls[key] else NO_CALL;
        toolCalls := toolCalls[key := p.(argumentsJson := arguments.value)];
      }
      r := EmitToolCallFromKey(EventKey(toolKeysByOutputIndex, itemId, outputIndex));
    }

    method ItemDone(item: Option<Item>, itemId: Option<string>, outputIndex: Option<nat>)
      returns (r: Result<seq<ModelStreamEvent>, StreamError>)
      modifies this
      ensures Reached(old(Value()), ApplyFrame(scope, old(Value()), OutputItemDone(item, itemId, outputIndex)), r)
    {
      hide EmitToolCall, EmitReasoningItem, EventKey, ItemKey;
      if item.Some? {
        match item.value.kind {
          case FunctionCall =>
            AbsorbFunctionCallItem(item.value, outputIndex);
            r := EmitToolCallFromKey(EventKey(toolKeysByOutputIndex, itemId, outputIndex));
            return;
          case Reasoning =>
            var events := Start();
            var more := ReasoningItemEvents(item.value);
            return Ok(events + more);
          case OtherItem =>
        }
      }
      return Ok([]);
    }

    method ApplyChunk(frame: Frame) returns (r: Result<seq<ModelStreamEvent>, StreamError>)
      modifies this
      ensures Reached(old(Value()), ApplyFrame(scope, old(Value()), frame), r)
    {
      hide EmitToolCall, Complete, FinishEvents, EmitText, AbsorbItem, FallbackStreamId;
      var events := [];
      match frame {
        case DoneMarker =>
          done := true;
          events := Finish();
        case Malformed =>
          return Err(MalformedFrame);
        case Ignored =>
        case Created(id) =>
          started := true;
          events := [Started(id.GetOr(FallbackStreamId(scope)))];
        case OutputTextDelta(delta) =>
          events := Text(delta);
        case ContentPartDelta(delta, deltaText, partText) =>
          events := Text(OrElse(delta, OrElse(deltaText, partText)));
        case OutputItemAdded(item, outputIndex) =>
          if item.Some? && item.value.kind.FunctionCall? {
            AbsorbFunctionCallItem(item.value, outputIndex);
          }
        case ArgumentsDelta(itemId, outputIndex, delta) =>
          AbsorbFunctionArgumentsDelta(itemId, outputIndex, delta);
        case ArgumentsDone(item, itemId, outputIndex, arguments) =>
          r := FunctionArgumentsDone(item, itemId, outputIndex, arguments);
          return;
        case OutputItemDone(item, itemId, outputIndex) =>
          r := ItemDone(item, itemId, outputIndex);
          return;
        case ReasoningDelta(thinking, itemId, outputIndex, delta) =>
          events := ReasoningTextDelta(thinking, ReasoningKey(itemId, outputIndex), delta);
        case ReasoningDone(itemId, outputIndex, text) =>
          events := ReasoningTextDone(ReasoningKey(itemId, outputIndex), text);
        case ResponseCompleted(output) =>
          r := Completed(output);
          return;
        case ResponseIncomplete(reason, output) =>
          stopReason := Some(IncompleteReason(reason));
          r := Completed(output);
          return;
        case ResponseFailed(errorMessage, errorText, message) =>
          done, finished := true, true;
          events := [FailedEvent(OrElse(errorMessage, OrElse(errorText, message)).GetOr("responses api stream error"))];
      }
      return Ok(events);
    }
  }

  // ---------------------------------------------------------------------------------------------
  // One terminal event, at the end
  // ---------------------------------------------------------------------------------------------

  /** From a state with `started`, the events begin with the start of the stream or its failure. */
  predicate StartsWell(started: bool, events: seq<ModelStreamEvent>) {
    started || events == [] || events[0].Started? || events[0].FailedEvent?
  }

  /** A step that emits no terminal event, and records it when it starts the stream. */
  ghost predicate Plain(s: StreamState, step: Step) {
    && NoTerminal(step.events)
    && StartsWell(s.started, step.events)
    && (step.state.started <==> s.started || step.events != [])
    && step.state.finished == s.finished && step.state.done == s.done
  }

  /** The events of a step that ends the stream. */
  ghost predicate EndsWell(started: bool, events: seq<ModelStreamEvent>) {
    OneTerminalLast(events) && StartsWell(started, events)
  }

  lemma EmitToolCallIsPlain(sc: Scope, s: StreamState, key: string)
    ensures var r := EmitToolCall(sc, s, key);
            r.Ok? ==> Plain(s, r.value)
  {
  }

  lemma {:induction false} OutputItemsArePlain(sc: Scope, s: StreamState, output: seq<Item>)
    requires s.started
    ensures var r := OutputItems(sc, s, output);
            r.Ok? ==> Plain(s, r.value)
    decreases |output|
  {
    if output != [] {
      var first := OutputItem(sc, s, output[0]);
      if output[0].kind.FunctionCall? {
        EmitToolCallIsPlain(sc, AbsorbItem(s, output[0], None), ItemKey(output[0]));
      }
      if first.Ok? {
        assert Plain(s, first.value);
        hide OutputItem;
        OutputItemsArePlain(sc, first.value.state, output[1..]);
        var rest := OutputItems(sc, first.value.state, output[1..]);
        if rest.Ok? {
          TerminalAfter(first.value.events, rest.value.events);
        }
      }
    }
  }

  lemma FinishIsTerminal(sc: Scope, s: StreamState)
    requires !s.finished
    ensures var step := FinishEvents(sc, s);
            EndsWell(s.started, step.events) && step.state.finished && step.state.done == s.done
  {
  }

  lemma EnsureStartedIsPlain(sc: Scope, s: StreamState)
    ensures var start := EnsureStarted(sc, s);
            && start.state.started && start.state.finished == s.finished && start.state.done == s.done
            && if s.started then start.events == [] else |start.events| == 1 && start.events[0].Started?
  {
  }

  lemma CompleteIsTerminal(sc: Scope, s: StreamState, output: Option<seq<Item>>)
    requires !s.finished
    ensures var r := Complete(sc, s, output);
            r.Ok? ==> EndsWell(s.started, r.value.events) && r.value.state.finished && r.value.state.done
  {
    EnsureStartedIsPlain(sc, s);
    hide OutputItems, EnsureStarted, EndsWell, FinishEvents;
    var start := EnsureStarted(sc, s);
    OutputItemsArePlain(sc, start.state, output.GetOr([]));
    var items := OutputItems(sc, start.state, output.GetOr([]));
    if items.Ok? {
      var done := items.value.state.(done := true);
      FinishIsTerminal(sc, done);
      ThreeParts(s.started, start.events, items.value.events, FinishEvents(sc, done).events);
    }
  }

  lemma ThreeParts(
      started: bool, a: seq<ModelStreamEvent>, b: seq<ModelStreamEvent>, c: seq<ModelStreamEvent>)
    requires if started then a == [] else |a| == 1 && a[0].Started?
    requires NoTerminal(b) && EndsWell(true, c)
    ensures EndsWell(started, a + b + c)
  {
    TerminalAfter(a, b);
    TerminalAfter(a + b, c);
  }

  lemma TextIsPlain(sc: Scope, s: StreamState, text: Option<string>)
    ensures Plain(s, EmitText(sc, s, text))
  {
  }

  /** The start of the stream, if it was missing, and one event. */
  lemma StartThenEvent(sc: Scope, s: StreamState, told: StreamState, event: ModelStreamEvent)
    requires told.started == s.started && told.finished == s.finished && told.done == s.done && !IsTerminal(event)
    ensures var start := EnsureStarted(sc, told);
            Plain(s, Step(start.state, start.events + [event]))
  {
    EnsureStartedIsPlain(sc, told);
    hide EnsureStarted;
  }

  lemma ReasoningDeltaIsPlain(sc: Scope, s: StreamState, frame: Frame)
    requires frame.ReasoningDelta?
    ensures ApplyFrame(sc, s, frame).Ok? && Plain(s, ApplyFrame(sc, s, frame).value)
  {
    if frame.delta.Some? && frame.delta.value != "" {
      var key := ReasoningKey(frame.itemId, frame.outputIndex);
      var r := if key in s.reasoning then s.reasoning[key] else NO_REASONING;
      var told := s.(reasoning := s.reasoning[key := ReasoningState(frame.thinking, r.text + frame.delta.value)]);
      StartThenEvent(sc, s, told, ThinkingDelta(frame.thinking, frame.delta, None, Some(key), false));
      hide EnsureStarted, Plain, ReasoningKey;
    }
  }

  lemma ReasoningDoneIsPlain(sc: Scope, s: StreamState, frame: Frame)
    requires frame.ReasoningDone?
    ensures ApplyFrame(sc, s, frame).Ok? && Plain(s, ApplyFrame(sc, s, frame).value)
  {
    var key := ReasoningKey(frame.itemId, frame.outputIndex);
    var r := if key in s.reasoning then s.reasoning[key] else NO_REASONING;
    var told := if frame.text.Some? then s.(reasoning := s.reasoning[key := r.(text := frame.text.value)]) else s;
    if key in told.reasoning {
      var r' := told.reasoning[key];
      StartThenEvent(sc, s, told, ThinkingDelta(r'.kind, None, Some(TextSnapshot(key, r')), Some(key), false));
      hide EnsureStarted, Plain, ReasoningKey, TextSnapshot;
    }
  }

  lemma CreatedIsPlain(sc: Scope, s: StreamState, frame: Frame)
    requires frame.Created?
    ensures ApplyFrame(sc, s, frame).Ok? && Plain(s, ApplyFrame(sc, s, frame).value)
  {
    hide FallbackStreamId;
  }

  lemma CallReportIsPlain(sc: Scope, s: StreamState, told: StreamState, key: string)
    requires told.started == s.started && told.finished == s.finished && told.done == s.done
    ensures EmitToolCall(sc, told, key).Ok? ==> Plain(s, EmitToolCall(sc, told, key).value)
  {
    EmitToolCallIsPlain(sc, told, key);
    hide EmitToolCall;
  }

  lemma ArgumentsDoneIsPlain(sc: Scope, s: StreamState, frame: Frame)
    requires frame.ArgumentsDone?
    ensures ApplyFrame(sc, s, frame).Ok? ==> Plain(s, ApplyFrame(sc, s, frame).value)
  {
    hide EmitToolCall, EventKey, ItemKey, Plain;
    var told := if frame.item.Some? then AbsorbItem(s, frame.item.value, frame.outputIndex)
                else if frame.arguments.Some? then
                  SetArguments(s, EventKey(s.toolKeysByOutputIndex, frame.itemId, frame.outputIndex),
                               frame.arguments.value)
                else s;
    CallReportIsPlain(sc, s, told, EventKey(told.toolKeysByOutputIndex, frame.itemId, frame.outputIndex));
  }

  lemma ItemDoneIsPlain(sc: Scope, s: StreamState, frame: Frame)
    requires frame.OutputItemDone?
    ensures ApplyFrame(sc, s, frame).Ok? ==> Plain(s, ApplyFrame(sc, s, frame).value)
  {
    hide EmitToolCall, EventKey, ItemKey, IsReplayable, FallbackStreamId, EnsureStarted;
    if frame.item.Some? {
      match frame.item.value.kind {
        case FunctionCall =>
          var told := AbsorbItem(s, frame.item.value, frame.outputIndex);
          CallReportIsPlain(sc, s, told, EventKey(told.toolKeysByOutputIndex, frame.itemId, frame.outputIndex));
          hide Plain;
        case Reasoning => EnsureStartedIsPlain(sc, s);
        case OtherItem =>
      }
    }
  }

  /** Before the stream is done no frame emits a terminal event; the one that ends it emits one, last. */
  lemma FrameEndsWell(sc: Scope, s: StreamState, frame: Frame)
    requires !s.finished && !s.done
    requires ApplyFrame(sc, s, frame).Ok?
    ensures var step := ApplyFrame(sc, s, frame).value;
            && step.state.done == step.state.finished
            && (if step.state.done then EndsWell(s.started, step.events) else Plain(s, step))
  {
    match frame
    case DoneMarker => FinishIsTerminal(sc, s.(done := true));
    case ResponseCompleted(output) => CompleteIsTerminal(sc, s, output);
    case ResponseIncomplete(reason, output) =>
      CompleteIsTerminal(sc, s.(stopReason := Some(IncompleteReason(reason))), output);
    case OutputTextDelta(delta) => TextIsPlain(sc, s, delta);
    case ContentPartDelta(delta, deltaText, partText) =>
      TextIsPlain(sc, s, OrElse(delta, OrElse(deltaText, partText)));
    case OutputItemDone(_, _, _) => ItemDoneIsPlain(sc, s, frame);
    case ArgumentsDone(_, _, _, _) => ArgumentsDoneIsPlain(sc, s, frame);
    case ReasoningDelta(_, _, _, _) => ReasoningDeltaIsPlain(sc, s, frame);
    case ReasoningDone(_, _, _) => ReasoningDoneIsPlain(sc, s, frame);
    case Created(_) => CreatedIsPlain(sc, s, frame);
    case _ =>
  }

  /** The stream is fed until the first frame that makes it done. */
  predicate FedUntilDone(sc: Scope, frames: seq<Frame>) {
    && frames != []
    && ApplyFrames(sc, frames).Ok? && ApplyFrames(sc, frames).value.state.done
    && forall n :: 0 <= n < |frames| && ApplyFrames(sc, frames[..n]).Ok? ==>
         !ApplyFrames(sc, frames[..n]).value.state.done
  }

  lemma PlainTogether(s: StreamState, first: Step, second: Step)
    requires Plain(s, first) && Plain(first.state, second)
    ensures Plain(s, second.After(first.events))
  {
    TerminalAfter(first.events, second.events);
  }

  lemma {:induction false} OpenStreamIsPlain(sc: Scope, frames: seq<Frame>)
    requires ApplyFrames(sc, frames).Ok? && !ApplyFrames(sc, frames).value.state.done
    requires forall n :: 0 <= n < |frames| && ApplyFrames(sc, frames[..n]).Ok? ==>
               !ApplyFrames(sc, frames[..n]).value.state.done
    ensures Plain(INITIAL, ApplyFrames(sc, frames).value)
  {
    if frames != [] {
      var before := frames[..|frames| - 1];
      assert forall n :: 0 <= n <= |before| ==> before[..n] == frames[..n];
      OpenStreamIsPlain(sc, before);
      var b := ApplyFrames(sc, before).value;
      FrameEndsWell(sc, b.state, frames[|frames| - 1]);
      hide ApplyFrame;
      PlainTogether(INITIAL, b, ApplyFrame(sc, b.state, frames[|frames| - 1]).value);
    }
  }

  /**
   A stream that is fed until its first done frame and then closed emits exactly one terminal event,
   last, and its first event is the start of the stream or its failure.
   */
  lemma StreamIsWellFormed(sc: Scope, frames: seq<Frame>)
    requires FedUntilDone(sc, frames)
    ensures var fed := ApplyFrames(sc, frames).value;
            var events := fed.events + FinishEvents(sc, fed.state).events;
            OneTerminalLast(events) && (events[0].Started? || events[0].FailedEvent?)
  {
    var before := frames[..|frames| - 1];
    assert forall n :: 0 <= n <= |before| ==> before[..n] == frames[..n];
    OpenStreamIsPlain(sc, before);
    var b := ApplyFrames(sc, before).value;
    FrameEndsWell(sc, b.state, frames[|frames| - 1]);
    var last := ApplyFrame(sc, b.state, frames[|frames| - 1]).value;
    TerminalAfter(b.events, last.events);
    assert FinishEvents(sc, last.state).events == [];
    hide ApplyFrame;
    assert b.events + last.events + [] == b.events + last.events;
  }
}
