/**
 The stream state of the chat-completions provider.  Tool calls arrive in fragments that name an index,
 possibly interleaved; they are put together until the stream ends and emitted then, in index order.
 */
module ChatCompletions {
  import opened Wrappers
  import opened Text
  import opened ModelEvents
  import opened ChatReasoning

  datatype FunctionChunk = FunctionChunk(name: Option<string>, arguments: Option<string>)

  datatype ToolChunk =
    | NotAnObject
    | ToolChunk(index: Option<nat>, id: Option<string>, function_: Option<FunctionChunk>)

  /** The four reasoning fields hold whatever JSON the provider sent; `media` is an audio delta that is not empty. */
  datatype Delta = Delta(
    content: Option<string>,
    media: Option<string>,
    reasoningContent: Option<Json>,
    reasoning: Option<Json>,
    reasoningText: Option<Json>,
    reasoningDetails: Option<Json>,
    toolCalls: Option<seq<ToolChunk>>,
    functionCall: Option<FunctionChunk>)

  datatype Choice = Choice(finishReason: Option<string>, delta: Option<Delta>)

  datatype Frame = DoneMarker | Malformed | Chunk(choices: Option<seq<Choice>>)

  datatype PartialToolCall = PartialToolCall(id: string, name: string, argumentsJson: string)

  /** `started` is the driver's own flag; the rest is the stream state. */
  datatype StreamState = StreamState(
    started: bool,
    toolCalls: map<nat, PartialToolCall>,
    reasoning: map<ReasoningField, Replay>,
    stopReason: Option<StopReason>,
    toolCallsEmitted: bool,
    finished: bool,
    done: bool)

  const INITIAL: StreamState := StreamState(false, map[], map[], None, false, false, false)

  datatype Scope = Scope(streamId: string, aliases: map<string, string>)

  datatype Step = Step(state: StreamState, events: seq<ModelStreamEvent>)

  // ---------------------------------------------------------------------------------------------
  // Tool calls
  // ---------------------------------------------------------------------------------------------

  /** A fragment of the call at `index`; `freshId` is its id if nothing was known of the call before. */
  datatype Fragment = Fragment(
    index: nat, freshId: string, id: Option<string>, name: Option<string>, arguments: Option<string>)

  function NonEmptyOr(text: Option<string>, otherwise: string): string {
    if text.Some? && text.value != "" then text.value else otherwise
  }

  function Absorb(calls: map<nat, PartialToolCall>, f: Fragment): map<nat, PartialToolCall> {
    var p := if f.index in calls then calls[f.index] else PartialToolCall(f.freshId, "", "");
    calls[f.index := PartialToolCall(
      NonEmptyOr(f.id, p.id), NonEmptyOr(f.name, p.name), p.argumentsJson + f.arguments.GetOr(""))]
  }

  function AbsorbAll(calls: map<nat, PartialToolCall>, fragments: seq<Fragment>): map<nat, PartialToolCall>
    decreases |fragments|
  {
    if fragments == [] then calls else AbsorbAll(Absorb(calls, fragments[0]), fragments[1..])
  }

  function FragmentOf(chunk: ToolChunk, position: nat): seq<Fragment> {
    match chunk
    case NotAnObject => []
    case ToolChunk(index, id, f) =>
      var i := index.GetOr(position);
      var unnamed := "call-" + Numeral(i, 10);
      [if f.Some? then Fragment(i, unnamed, id, f.value.name, f.value.arguments) else Fragment(i, unnamed, id, None, None)]
  }

  /** A chunk without an index counts as the one of its position in the list. */
  function FragmentsFrom(chunks: seq<ToolChunk>, position: nat): seq<Fragment>
    requires position <= |chunks|
    decreases |chunks| - position
  {
    if position == |chunks| then []
    else FragmentOf(chunks[position], position) + FragmentsFrom(chunks, position + 1)
  }

  function LegacyFragment(f: FunctionChunk): Fragment {
    Fragment(0, "function-call-0", None, f.name, f.arguments)
  }

  /** What a choice says about tool calls. */
  function ChoiceFragments(choice: Choice): seq<Fragment> {
    if choice.delta.None? then []
    else
      var d := choice.delta.value;
      (if d.toolCalls.Some? then FragmentsFrom(d.toolCalls.value, 0) else [])
      + (if d.functionCall.Some? then [LegacyFragment(d.functionCall.value)] else [])
  }

  // ---------------------------------------------------------------------------------------------
  // Reasoning
  // ---------------------------------------------------------------------------------------------

  predicate HasReasoning(value: Json) {
    match value
    case Str(text) => text != ""
    case Obj(fields) => fields != map[]
    case Arr(items) => items != []
    case _ => false
  }

  function Objects(items: seq<Json>): seq<Json> {
    if items == [] then [] else (if items[0].Obj? then [items[0]] else []) + Objects(items[1..])
  }

  function NormalizeDetails(value: Json): Option<Json> {
    match value
    case Obj(fields) => if fields == map[] then None else Some(value)
    case Arr(items) => if Objects(items) == [] then None else Some(Arr(Objects(items)))
    case _ => None
  }

  function ExtractReasoning(d: Delta): Option<(ReasoningField, Json)> {
    if d.reasoningContent.Some? && HasReasoning(d.reasoningContent.value) then
      Some((ReasoningContent, d.reasoningContent.value))
    else if d.reasoning.Some? && HasReasoning(d.reasoning.value) then
      Some((Reasoning, d.reasoning.value))
    else if d.reasoningText.Some? && HasReasoning(d.reasoningText.value) then
      Some((ReasoningField.ReasoningText, d.reasoningText.value))
    else if d.reasoningDetails.Some? && NormalizeDetails(d.reasoningDetails.value).Some? then
      Some((ReasoningDetails, NormalizeDetails(d.reasoningDetails.value).value))
    else None
  }

  predicate IsSummaryDetail(detail: Json) {
    detail.Field("text").None? && detail.Field("summary").Some?
  }

  function ValueKind(value: Json): ThinkingKind {
    match value
    case Obj(_) => if IsSummaryDetail(value) then Summary else Raw
    case Arr(details) =>
      if forall i :: 0 <= i < |details| ==> IsSummaryDetail(details[i]) then Summary else Raw
    case _ => Raw
  }

  function ReplayAt(s: StreamState, field: ReasoningField): Replay {
    if field in s.reasoning then s.reasoning[field] else FRESH
  }

  function WireName(field: ReasoningField): string {
    match field
    case ReasoningContent => "reasoning_content"
    case Reasoning => "reasoning"
    case ReasoningText => "reasoning_text"
    case ReasoningDetails => "reasoning_details"
  }

  function Think(s: StreamState, d: Delta): Step {
    match ExtractReasoning(d)
    case None => Step(s, [])
    case Some((field, value)) =>
      var (replay, text) := Advance(field, ReplayAt(s, field), value);
      Step(s.(reasoning := s.reasoning[field := replay]),
           [ThinkingDelta(ValueKind(replay.value), if text == "" then None else Some(text), None,
                          Some(WireName(field)), true)])
  }

  // ---------------------------------------------------------------------------------------------
  // Frames
  // ---------------------------------------------------------------------------------------------

  function MapFinishReason(reason: string): StopReason {
    if reason == "stop" || reason == "end" then Stop
    else if reason == "length" then Length
    else if reason == "function_call" || reason == "tool_calls" || reason == "tool_use" then ToolUse
    else Error
  }

  function AfterReason(s: StreamState, choice: Choice): StreamState {
    if choice.finishReason.Some? then s.(stopReason := Some(MapFinishReason(choice.finishReason.value))) else s
  }

  function ContentEvents(d: Delta): seq<ModelStreamEvent> {
    (if d.content.Some? && d.content.value != "" then [TextDelta(d.content.value)] else [])
    + (if d.media.Some? then [MediaDelta(d.media.value)] else [])
  }

  function ApplyChoice(s: StreamState, choice: Choice): Step {
    if choice.delta.None? then Step(AfterReason(s, choice), [])
    else
      var d := choice.delta.value;
      var thought := Think(AfterReason(s, choice), d);
      Step(thought.state.(toolCalls := AbsorbAll(thought.state.toolCalls, ChoiceFragments(choice))),
           ContentEvents(d) + thought.events)
  }

  function ApplyChoices(s: StreamState, choices: seq<Choice>): Step
    decreases |choices|
  {
    if choices == [] then Step(s, [])
    else
      var first := ApplyChoice(s, choices[0]);
      var rest := ApplyChoices(first.state, choices[1..]);
      Step(rest.state, first.events + rest.events)
  }

  /** One frame; the first one starts the stream, and `[DONE]` ends it. */
  function Handle(sc: Scope, s: StreamState, frame: Frame): Result<Step, StreamError> {
    var start := if s.started then [] else [Started(sc.streamId)];
    var s1 := s.(started := true);
    match frame
    case DoneMarker => Ok(Step(s1.(done := true), start))
    case Malformed => Err(MalformedFrame)
    case Chunk(choices) =>
      var step := ApplyChoices(s1, choices.GetOr([]));
      Ok(Step(step.state, start + step.events))
  }

  function HandleAll(sc: Scope, frames: seq<Frame>): Result<Step, StreamError> {
    if frames == [] then Ok(Step(INITIAL, []))
    else
      var before :- HandleAll(sc, frames[..|frames| - 1]);
      var last :- Handle(sc, before.state, frames[|frames| - 1]);
      Ok(Step(last.state, before.events + last.events))
  }

  predicate IsMinimum(m: nat, s: set<nat>) {
    m in s && forall x :: x in s ==> m <= x
  }

  lemma {:induction false} MinimumExists(s: set<nat>)
    requires s != {}
    ensures exists m :: IsMinimum(m, s)
    decreases |s|
  {
    var m :| m in s;
    var rest := s - {m};
    assert s == rest + {m};
    if rest == {} {
      assert IsMinimum(m, s);
    } else {
      MinimumExists(rest);
      var r :| IsMinimum(r, rest);
      assert IsMinimum(if m <= r then m else r, s);
    }
  }

  lemma MinimumIsUnique(s: set<nat>)
    ensures forall x, y :: IsMinimum(x, s) && IsMinimum(y, s) ==> x == y
  {
  }

  function Minimum(s: set<nat>): (m: nat)
    requires s != {}
    ensures IsMinimum(m, s)
  {
    MinimumExists(s);
    MinimumIsUnique(s);
    var m :| m in s && IsMinimum(m, s);
    m
  }

  /** The numbers of a set in ascending order. */
  function Ascending(s: set<nat>): (r: seq<nat>)
    ensures forall i :: 0 <= i < |r| ==> r[i] in s
    decreases |s|
  {
    if s == {} then []
    else
      var m := Minimum(s);
      [m] + Ascending(s - {m})
  }

  predicate IsAscending(r: seq<nat>) {
    forall i, j :: 0 <= i < j < |r| ==> r[i] < r[j]
  }

  lemma AscendingFrom(m: nat, rest: seq<nat>)
    requires IsAscending(rest) && forall i :: 0 <= i < |rest| ==> m < rest[i]
    ensures IsAscending([m] + rest)
    ensures forall n :: n in [m] + rest <==> n == m || n in rest
  {
    var r := [m] + rest;
    assert forall i :: 1 <= i < |r| ==> r[i] == rest[i - 1];
  }

  /** All numbers of the set are there, each once, and in order. */
  lemma {:induction false} AscendingIsSorted(s: set<nat>)
    ensures forall n :: n in s <==> n in Ascending(s)
    ensures IsAscending(Ascending(s))
    decreases |s|
  {
    if s != {} {
      var m := Minimum(s);
      var rest := Ascending(s - {m});
      assert Ascending(s) == [m] + rest && forall i :: 0 <= i < |rest| ==> m < rest[i];
      hide Ascending, IsAscending, IsMinimum;
      AscendingIsSorted(s - {m});
      AscendingFrom(m, rest);
    }
  }

  function CallEvent(sc: Scope, p: PartialToolCall): Result<ModelStreamEvent, StreamError> {
    if p.name !in sc.aliases then Err(UnknownAlias(p.name))
    else Ok(ToolCallEvent(ToolCall(p.id, sc.aliases[p.name], p.argumentsJson)))
  }

  function CallEvents(sc: Scope, calls: map<nat, PartialToolCall>, indices: seq<nat>)
    : Result<seq<ModelStreamEvent>, StreamError>
    requires forall i :: 0 <= i < |indices| ==> indices[i] in calls
  {
    if indices == [] then Ok([])
    else
      var before :- CallEvents(sc, calls, indices[..|indices| - 1]);
      var last :- CallEvent(sc, calls[indices[|indices| - 1]]);
      Ok(before + [last])
  }

  function Finish(sc: Scope, s: StreamState): Result<Step, StreamError> {
    if s.finished then Ok(Step(s, []))
    else
      var calls :- if s.toolCallsEmitted then Ok([]) else CallEvents(sc, s.toolCalls, Ascending(s.toolCalls.Keys));
      Ok(Step(s.(finished := true, toolCallsEmitted := true), calls + [Finished(s.stopReason.GetOr(Stop))]))
  }

  // ---------------------------------------------------------------------------------------------
  // The state that is updated in place
  // ---------------------------------------------------------------------------------------------

  class ChatStreamState {
    const scope: Scope
    var started: bool
    var toolCalls: map<nat, PartialToolCall>
    var reasoning: map<ReasoningField, Replay>
    var stopReason: Option<StopReason>
    var toolCallsEmitted: bool
    var finished: bool
    var done: bool

    function Value(): StreamState
      reads this
    {
      StreamState(started, toolCalls, reasoning, stopReason, toolCallsEmitted, finished, done)
    }

    constructor (scope: Scope)
      ensures this.scope == scope && Value() == INITIAL
    {
      this.scope := scope;
      started, toolCallsEmitted, finished, done := false, false, false, false;
      toolCalls, reasoning, stopReason := map[], map[], None;
    }

    method AbsorbFragment(f: Fragment)
      modifies this`toolCalls
      ensures toolCalls == Absorb(old(toolCalls), f)
    {
      var p := if f.index in toolCalls then toolCalls[f.index] else PartialToolCall(f.freshId, "", "");
      if f.id.Some? && f.id.value != "" {
        p := p.(id := f.id.value);
      }
      if f.name.Some? && f.name.value != "" {
        p := p.(name := f.name.value);
      }
      p := p.(argumentsJson := p.argumentsJson + f.arguments.GetOr(""));
      toolCalls := toolCalls[f.index := p];
    }

    method AbsorbToolCallChunks(chunks: seq<ToolChunk>)
      modifies this`toolCalls
      ensures toolCalls == AbsorbAll(old(toolCalls), FragmentsFrom(chunks, 0))
    {
      for i := 0 to |chunks|
        invariant AbsorbAll(old(toolCalls), FragmentsFrom(chunks, 0))
               == AbsorbAll(toolCalls, FragmentsFrom(chunks, i))
      {
        var here, rest := FragmentOf(chunks[i], i), FragmentsFrom(chunks, i + 1);
        assert FragmentsFrom(chunks, i) == here + rest;
        if chunks[i].ToolChunk? {
          AbsorbFirst(toolCalls, here[0], rest);
          AbsorbFragment(here[0]);
        } else {
          assert here + rest == rest;
        }
      }
    }

    method ExtractThinkingDelta(d: Delta) returns (events: seq<ModelStreamEvent>)
      modifies this`reasoning
      ensures Step(Value(), events) == Think(old(Value()), d)
    {
      match ExtractReasoning(d) {
        case None => return [];
        case Some(found) =>
          var field, value := found.0, found.1;
          var replay := if field in reasoning then reasoning[field] else FRESH;
          var advanced := Advance(field, replay, value);
          reasoning := reasoning[field := advanced.0];
          return [ThinkingDelta(ValueKind(advanced.0.value), if advanced.1 == "" then None else Some(advanced.1),
                                None, Some(WireName(field)), true)];
      }
    }

    method ApplyChunk(choices: seq<Choice>) returns (events: seq<ModelStreamEvent>)
      modifies this
      ensures Step(Value(), events) == ApplyChoices(old(Value()), choices)
    {
      hide ApplyChoice;
      ghost var goal := ApplyChoices(Value(), choices);
      events := [];
      for i := 0 to |choices|
        invariant goal.state == ApplyChoices(Value(), choices[i..]).state
        invariant goal.events == events + ApplyChoices(Value(), choices[i..]).events
      {
        ChoicesFrom(Value(), choices, i, events);
        var more := ApplyOneChoice(choices[i]);
        events := events + more;
      }
    }

    method ApplyOneChoice(choice: Choice) returns (events: seq<ModelStreamEvent>)
      modifies this
      ensures Step(Value(), events) == ApplyChoice(old(Value()), choice)
    {
      if choice.finishReason.Some? {
        stopReason := Some(MapFinishReason(choice.finishReason.value));
      }
      assert Value() == AfterReason(old(Value()), choice);
      events := [];
      if choice.delta.None? {
        return;
      }
      var d := choice.delta.value;
      events := ReadContent(d);
      hide AbsorbAll, ChoiceFragments, Think, ContentEvents, AfterReason;
      var thought := ExtractThinkingDelta(d);
      events := events + thought;
      AbsorbToolCalls(choice);
    }

    method ReadContent(d: Delta) returns (events: seq<ModelStreamEvent>)
      ensures events == ContentEvents(d)
    {
      events := [];
      if d.content.Some? && d.content.value != "" {
        events := events + [TextDelta(d.content.value)];
      }
      if d.media.Some? {
        events := events + [MediaDelta(d.media.value)];
      }
    }

    method AbsorbToolCalls(choice: Choice)
      requires choice.delta.Some?
      modifies this`toolCalls
      ensures toolCalls == AbsorbAll(old(toolCalls), ChoiceFragments(choice))
    {
      var d := choice.delta.value;
      ghost var calls := toolCalls;
      AbsorbFew(calls, Fragment(0, "", None, None, None));
      if d.toolCalls.Some? {
        AbsorbToolCallChunks(d.toolCalls.value);
      }
      AbsorbFew(toolCalls, LegacyFragment(d.functionCall.GetOr(FunctionChunk(None, None))));
      if d.functionCall.Some? {
        AbsorbFragment(LegacyFragment(d.functionCall.value));
      }
      AbsorbTwo(calls, if d.toolCalls.Some? then FragmentsFrom(d.toolCalls.value, 0) else [],
                if d.functionCall.Some? then [LegacyFragment(d.functionCall.value)] else []);
    }

    method HandleData(frame: Frame) returns (r: Result<seq<ModelStreamEvent>, StreamError>)
      modifies this
      ensures match Handle(scope, old(Value()), frame)
              case Err(e) => r == Err(e)
              case Ok(step) => r == Ok(step.events) && Value() == step.state
    {
      var events := [];
      if !started {
        started := true;
        events := [Started(scope.streamId)];
      }
      match frame {
        case DoneMarker =>
          done := true;
          return Ok(events);
        case Malformed =>
          return Err(MalformedFrame);
        case Chunk(choices) =>
          var more := ApplyChunk(choices.GetOr([]));
          return Ok(events + more);
      }
    }

    method ToolCallEvents(indices: seq<nat>) returns (r: Result<seq<ModelStreamEvent>, StreamError>)
      requires forall k :: 0 <= k < |indices| ==> indices[k] in toolCalls
      ensures r == CallEvents(scope, toolCalls, indices)
    {
      var events: seq<ModelStreamEvent> := [];
      for i := 0 to |indices|
        invariant CallEvents(scope, toolCalls, indices[..i]) == Ok(events)
      {
        assert indices[..i + 1][..i] == indices[..i];
        CallEventsFail(scope, toolCalls, indices, i + 1);
        var event :- CallEvent(scope, toolCalls[indices[i]]);
        events := events + [event];
      }
      assert indices[..|indices|] == indices;
      return Ok(events);
    }

    method FinishEvents() returns (r: Result<seq<ModelStreamEvent>, StreamError>)
      modifies this
      ensures match Finish(scope, old(Value()))
              case Err(e) => r == Err(e)
              case Ok(step) => r == Ok(step.events) && Value() == step.state
    {
      if finished {
        return Ok([]);
      }
      finished := true;
      var events: seq<ModelStreamEvent> := [];
      if !toolCallsEmitted {
        toolCallsEmitted := true;
        events :- ToolCallEvents(Ascending(toolCalls.Keys));
      }
      return Ok(events + [Finished(stopReason.GetOr(Stop))]);
    }
  }

  lemma {:induction false} CallEventsFail(sc: Scope, calls: map<nat, PartialToolCall>, indices: seq<nat>, n: nat)
    requires n <= |indices| && forall i :: 0 <= i < |indices| ==> indices[i] in calls
    ensures CallEvents(sc, calls, indices[..n]).Err? ==>
              CallEvents(sc, calls, indices) == CallEvents(sc, calls, indices[..n])
    decreases |indices| - n
  {
    if n < |indices| {
      assert indices[..n + 1][..n] == indices[..n];
      CallEventsFail(sc, calls, indices, n + 1);
    } else {
      assert indices[..n] == indices;
    }
  }

  lemma AbsorbFirst(calls: map<nat, PartialToolCall>, f: Fragment, rest: seq<Fragment>)
    ensures AbsorbAll(calls, [f] + rest) == AbsorbAll(Absorb(calls, f), rest)
  {
    assert ([f] + rest)[1..] == rest;
  }

  lemma {:induction false} AbsorbTwo(calls: map<nat, PartialToolCall>, a: seq<Fragment>, b: seq<Fragment>)
    ensures AbsorbAll(calls, a + b) == AbsorbAll(AbsorbAll(calls, a), b)
    decreases |a|
  {
    if a == [] {
      assert a + b == b;
    } else {
      assert (a + b)[1..] == a[1..] + b;
      AbsorbTwo(Absorb(calls, a[0]), a[1..], b);
    }
  }

  lemma AbsorbFew(calls: map<nat, PartialToolCall>, f: Fragment)
    ensures AbsorbAll(calls, []) == calls && AbsorbAll(calls, [f]) == Absorb(calls, f)
  {
    assert [f][1..] == [];
  }

  lemma ChoicesFrom(s: StreamState, choices: seq<Choice>, i: nat, before: seq<ModelStreamEvent>)
    requires i < |choices|
    ensures var first := ApplyChoice(s, choices[i]);
            var rest := ApplyChoices(first.state, choices[i + 1..]);
            && ApplyChoices(s, choices[i..]).state == rest.state
            && before + ApplyChoices(s, choices[i..]).events == (before + first.events) + rest.events
  {
    hide ApplyChoice;
    assert choices[i..][1..] == choices[i + 1..];
  }

  // ---------------------------------------------------------------------------------------------
  // Tool calls are the fragments of their index, whatever the interleaving
  // ---------------------------------------------------------------------------------------------

  function FrameFragments(frame: Frame): seq<Fragment> {
    if frame.Chunk? then AllFragments(frame.choices.GetOr([])) else []
  }

  function AllFragments(choices: seq<Choice>): seq<Fragment> {
    if choices == [] then [] else ChoiceFragments(choices[0]) + AllFragments(choices[1..])
  }

  /** All fragments of a stream, in the order they arrive. */
  function Fragments(frames: seq<Frame>): seq<Fragment> {
    if frames == [] then [] else Fragments(frames[..|frames| - 1]) + FrameFragments(frames[|frames| - 1])
  }

  function FragmentsAt(fragments: seq<Fragment>, index: nat): seq<Fragment> {
    if fragments == [] then []
    else
      FragmentsAt(fragments[..|fragments| - 1], index)
      + if fragments[|fragments| - 1].index == index then [fragments[|fragments| - 1]] else []
  }

  /** The last text that is given and not empty. */
  function LastNonEmpty(texts: seq<Option<string>>, otherwise: string): string {
    if texts == [] then otherwise
    else
      var last := texts[|texts| - 1].GetOr("");
      if |last| > 0 then last else LastNonEmpty(texts[..|texts| - 1], otherwise)
  }

  function Joined(texts: seq<Option<string>>): string {
    if texts == [] then "" else Joined(texts[..|texts| - 1]) + texts[|texts| - 1].GetOr("")
  }

  function IdsOf(fs: seq<Fragment>): seq<Option<string>> {
    seq(|fs|, i requires 0 <= i < |fs| => fs[i].id)
  }

  function NamesOf(fs: seq<Fragment>): seq<Option<string>> {
    seq(|fs|, i requires 0 <= i < |fs| => fs[i].name)
  }

  function ArgumentsOf(fs: seq<Fragment>): seq<Option<string>> {
    seq(|fs|, i requires 0 <= i < |fs| => fs[i].arguments)
  }

  /** The last id and name given, and all argument pieces in arrival order. */
  function PutTogether(fs: seq<Fragment>): PartialToolCall
    requires fs != []
  {
    PartialToolCall(LastNonEmpty(IdsOf(fs), fs[0].freshId), LastNonEmpty(NamesOf(fs), ""), Joined(ArgumentsOf(fs)))
  }

  /** The calls are exactly those with a fragment, each put together from its own fragments. */
  ghost predicate CallsAre(calls: map<nat, PartialToolCall>, fragments: seq<Fragment>) {
    forall i: nat ::
      && (i in calls <==> FragmentsAt(fragments, i) != [])
      && (i in calls ==> calls[i] == PutTogether(FragmentsAt(fragments, i)))
  }

  lemma TextsOneMore(texts: seq<Option<string>>, text: Option<string>, otherwise: string)
    ensures LastNonEmpty(texts + [text], otherwise) == NonEmptyOr(text, LastNonEmpty(texts, otherwise))
    ensures Joined(texts + [text]) == Joined(texts) + text.GetOr("")
  {
    var all := texts + [text];
    assert all[..|all| - 1] == texts;
  }

  lemma PutTogetherOneMore(fs: seq<Fragment>, f: Fragment)
    ensures var p := if fs == [] then PartialToolCall(f.freshId, "", "") else PutTogether(fs);
            PutTogether(fs + [f]) == PartialToolCall(
              NonEmptyOr(f.id, p.id), NonEmptyOr(f.name, p.name), p.argumentsJson + f.arguments.GetOr(""))
  {
    assert IdsOf(fs + [f]) == IdsOf(fs) + [f.id] && NamesOf(fs + [f]) == NamesOf(fs) + [f.name];
    assert ArgumentsOf(fs + [f]) == ArgumentsOf(fs) + [f.arguments];
    TextsOneMore(IdsOf(fs), f.id, (fs + [f])[0].freshId);
    TextsOneMore(NamesOf(fs), f.name, "");
    TextsOneMore(ArgumentsOf(fs), f.arguments, "");
    assert fs == [] ==> IdsOf(fs) == [] && NamesOf(fs) == [] && ArgumentsOf(fs) == [];
  }

  lemma FragmentsAtOneMore(fragments: seq<Fragment>, f: Fragment, index: nat)
    ensures FragmentsAt(fragments + [f], index)
         == FragmentsAt(fragments, index) + if f.index == index then [f] else []
  {
    var all := fragments + [f];
    assert all[..|all| - 1] == fragments;
  }

  lemma AbsorbKeepsCalls(calls: map<nat, PartialToolCall>, fragments: seq<Fragment>, f: Fragment)
    requires CallsAre(calls, fragments)
    ensures CallsAre(Absorb(calls, f), fragments + [f])
  {
    PutTogetherOneMore(FragmentsAt(fragments, f.index), f);
    hide PutTogether, FragmentsAt;
    forall i: nat
      ensures i in Absorb(calls, f) <==> FragmentsAt(fragments + [f], i) != []
      ensures i in Absorb(calls, f) ==> Absorb(calls, f)[i] == PutTogether(FragmentsAt(fragments + [f], i))
    {
      FragmentsAtOneMore(fragments, f, i);
      assert FragmentsAt(fragments, i) + [] == FragmentsAt(fragments, i);
    }
  }

  lemma {:induction false} AbsorbAllKeepsCalls(
      calls: map<nat, PartialToolCall>, fragments: seq<Fragment>, more: seq<Fragment>)
    requires CallsAre(calls, fragments)
    ensures CallsAre(AbsorbAll(calls, more), fragments + more)
    decreases |more|
  {
    if more == [] {
      assert fragments + more == fragments;
    } else {
      AbsorbKeepsCalls(calls, fragments, more[0]);
      AbsorbAllKeepsCalls(Absorb(calls, more[0]), fragments + [more[0]], more[1..]);
      assert fragments + more == (fragments + [more[0]]) + more[1..];
    }
  }

  lemma ChoiceAbsorbs(s: StreamState, choice: Choice)
    ensures ApplyChoice(s, choice).state.toolCalls == AbsorbAll(s.toolCalls, ChoiceFragments(choice))
  {
    hide Advance, ExtractReasoning, FragmentsFrom, MapFinishReason, AbsorbAll, ChoiceFragments;
    if choice.delta.None? {
      assert ChoiceFragments(choice) == [] && AbsorbAll(s.toolCalls, []) == s.toolCalls by {
        ChoiceSaysNothing(s, choice);
      }
    }
  }

  lemma ChoiceSaysNothing(s: StreamState, choice: Choice)
    requires choice.delta.None?
    ensures ChoiceFragments(choice) == [] && AbsorbAll(s.toolCalls, []) == s.toolCalls
  {
  }

  lemma {:induction false} ChoicesKeepCalls(s: StreamState, fragments: seq<Fragment>, choices: seq<Choice>)
    requires CallsAre(s.toolCalls, fragments)
    ensures CallsAre(ApplyChoices(s, choices).state.toolCalls, fragments + AllFragments(choices))
    decreases |choices|
  {
    if choices == [] {
      assert fragments + [] == fragments;
    } else {
      var some := ChoiceFragments(choices[0]);
      AbsorbAllKeepsCalls(s.toolCalls, fragments, some);
      var first := ApplyChoice(s, choices[0]);
      ChoiceAbsorbs(s, choices[0]);
      hide ApplyChoice, ChoiceFragments, AbsorbAll, CallsAre;
      ChoicesKeepCalls(first.state, fragments + some, choices[1..]);
      assert fragments + AllFragments(choices) == (fragments + some) + AllFragments(choices[1..]);
    }
  }

  lemma {:induction false} StateHoldsFragments(sc: Scope, frames: seq<Frame>)
    requires HandleAll(sc, frames).Ok?
    ensures CallsAre(HandleAll(sc, frames).value.state.toolCalls, Fragments(frames))
  {
    if frames != [] {
      var before := frames[..|frames| - 1];
      StateHoldsFragments(sc, before);
      var s := HandleAll(sc, before).value.state;
      var last := frames[|frames| - 1];
      match last
      case Chunk(choices) =>
        ChoicesKeepCalls(s.(started := true), Fragments(before), choices.GetOr([]));
      case DoneMarker =>
        assert Fragments(before) + [] == Fragments(before);
      case Malformed =>
    }
  }

  function CallOf(sc: Scope, fragments: seq<Fragment>, index: nat): ToolCall
    requires FragmentsAt(fragments, index) != []
    requires PutTogether(FragmentsAt(fragments, index)).name in sc.aliases
  {
    var p := PutTogether(FragmentsAt(fragments, index));
    ToolCall(p.id, sc.aliases[p.name], p.argumentsJson)
  }

  /** Until the stream is finished nothing of the calls is emitted and no event is terminal. */
  ghost predicate Plain(s: StreamState, step: Step) {
    && NoTerminal(step.events) && NoCalls(step.events)
    && step.state.finished == s.finished && step.state.toolCallsEmitted == s.toolCallsEmitted
    && step.state.started == s.started
  }

  lemma ChoiceIsPlain(s: StreamState, choice: Choice)
    ensures Plain(s, ApplyChoice(s, choice))
  {
    hide AbsorbAll, ChoiceFragments, Advance, ExtractReasoning;
  }

  lemma {:induction false} ChoicesArePlain(s: StreamState, choices: seq<Choice>)
    ensures Plain(s, ApplyChoices(s, choices))
    decreases |choices|
  {
    if choices != [] {
      ChoiceIsPlain(s, choices[0]);
      hide ApplyChoice;
      ChoicesArePlain(ApplyChoice(s, choices[0]).state, choices[1..]);
    }
  }

  /** While frames arrive: the stream is started by the first, and nothing else of note happens. */
  ghost predicate Unfinished(step: Step, any: bool) {
    && NoTerminal(step.events) && NoCalls(step.events)
    && !step.state.finished && !step.state.toolCallsEmitted
    && step.state.started == any
    && (any ==> step.events != [] && step.events[0].Started?)
    && (!any ==> step.events == [])
  }

  lemma {:induction false} FramesLeaveUnfinished(sc: Scope, frames: seq<Frame>)
    requires HandleAll(sc, frames).Ok?
    ensures Unfinished(HandleAll(sc, frames).value, frames != [])
  {
    if frames != [] {
      var before := frames[..|frames| - 1];
      FramesLeaveUnfinished(sc, before);
      var b := HandleAll(sc, before).value;
      var last := frames[|frames| - 1];
      if last.Chunk? {
        ChoicesArePlain(b.state.(started := true), last.choices.GetOr([]));
      }
      hide ApplyChoices;
    }
  }

  /** The call at `index` is the one its fragments make, under a name the codec knows. */
  ghost predicate IsCallOf(sc: Scope, fragments: seq<Fragment>, index: nat, call: ToolCall) {
    && FragmentsAt(fragments, index) != []
    && PutTogether(FragmentsAt(fragments, index)).name in sc.aliases
    && call == CallOf(sc, fragments, index)
  }

  lemma CallEventIs(sc: Scope, calls: map<nat, PartialToolCall>, fragments: seq<Fragment>, index: nat)
    requires CallsAre(calls, fragments) && index in calls && CallEvent(sc, calls[index]).Ok?
    ensures var event := CallEvent(sc, calls[index]).value;
            event.ToolCallEvent? && ToolCalls([event]) == [event.call] && IsCallOf(sc, fragments, index, event.call)
  {
    hide PutTogether, FragmentsAt;
    var event := CallEvent(sc, calls[index]).value;
    assert [event][1..] == [] && ToolCalls([event]) == [event.call] + [];
  }

  lemma OneMoreCall(
      sc: Scope, fragments: seq<Fragment>, indices: seq<nat>, before: seq<ModelStreamEvent>, last: ModelStreamEvent)
    requires |before| == |indices| - 1 == |ToolCalls(before)| && NoTerminal(before)
    requires forall k :: 0 <= k < |before| ==> IsCallOf(sc, fragments, indices[k], ToolCalls(before)[k])
    requires last.ToolCallEvent? && IsCallOf(sc, fragments, indices[|before|], last.call)
    ensures var events := before + [last];
            && |events| == |indices| == |ToolCalls(events)| && NoTerminal(events)
            && forall k :: 0 <= k < |indices| ==> IsCallOf(sc, fragments, indices[k], ToolCalls(events)[k])
  {
    hide IsCallOf;
    ToolCallsOfTwo(before, [last]);
    assert ToolCalls([last]) == [last.call] + ToolCalls([]);
  }

  lemma {:induction false} CallEventsAre(
      sc: Scope, calls: map<nat, PartialToolCall>, fragments: seq<Fragment>, indices: seq<nat>)
    requires CallsAre(calls, fragments) && forall i :: 0 <= i < |indices| ==> indices[i] in calls
    requires CallEvents(sc, calls, indices).Ok?
    ensures var events := CallEvents(sc, calls, indices).value;
            && |events| == |indices| == |ToolCalls(events)| && NoTerminal(events)
            && forall k :: 0 <= k < |indices| ==> IsCallOf(sc, fragments, indices[k], ToolCalls(events)[k])
  {
    if indices != [] {
      var n := |indices| - 1;
      CallEventsAre(sc, calls, fragments, indices[..n]);
      CallEventIs(sc, calls, fragments, indices[n]);
      var before := CallEvents(sc, calls, indices[..n]).value;
      var last := CallEvent(sc, calls[indices[n]]).value;
      assert CallEvents(sc, calls, indices).value == before + [last];
      hide CallsAre, IsCallOf, CallEvent, CallEvents, ToolCalls, NoTerminal;
      OneMoreCall(sc, fragments, indices, before, last);
    }
  }

  /** The calls are one for each index with a fragment, in ascending order, each made of its own fragments. */
  ghost predicate CallsFollow(sc: Scope, fragments: seq<Fragment>, calls: seq<ToolCall>) {
    var indices := Ascending(set f | f in fragments :: f.index);
    && IsAscending(indices) && (forall n :: n in indices <==> exists f :: f in fragments && f.index == n)
    && |calls| == |indices| && forall k :: 0 <= k < |indices| ==> IsCallOf(sc, fragments, indices[k], calls[k])
  }

  /** Events that are one call each, and then the end. */
  predicate CallsThenEnd(events: seq<ModelStreamEvent>) {
    && events != [] && events[|events| - 1].Finished?
    && NoTerminal(events[..|events| - 1]) && |ToolCalls(events)| == |events| - 1
  }

  lemma CallsAndEnd(calls: seq<ModelStreamEvent>, end: ModelStreamEvent)
    requires NoTerminal(calls) && |ToolCalls(calls)| == |calls| && end.Finished?
    ensures CallsThenEnd(calls + [end]) && ToolCalls(calls + [end]) == ToolCalls(calls)
  {
    ToolCallsOfTwo(calls, [end]);
    NoCallsIn([end]);
    assert (calls + [end])[..|calls|] == calls;
    assert ToolCalls(calls) + [] == ToolCalls(calls);
  }

  lemma IndicesInOrder(fragments: seq<Fragment>, indices: set<nat>)
    requires indices == set f | f in fragments :: f.index
    ensures IsAscending(Ascending(indices))
    ensures forall n :: n in Ascending(indices) <==> exists f :: f in fragments && f.index == n
  {
    AscendingIsSorted(indices);
    hide Ascending, IsAscending;
  }

  lemma CallsAreInOrder(sc: Scope, s: StreamState, fragments: seq<Fragment>)
    requires CallsAre(s.toolCalls, fragments) && CallEvents(sc, s.toolCalls, Ascending(s.toolCalls.Keys)).Ok?
    ensures var events := CallEvents(sc, s.toolCalls, Ascending(s.toolCalls.Keys)).value;
            && |events| == |ToolCalls(events)| && NoTerminal(events)
            && CallsFollow(sc, fragments, ToolCalls(events))
  {
    IndicesOfFragments(fragments, s.toolCalls);
    hide CallsAre, IsCallOf, IsAscending, Ascending, CallEvents, ToolCalls;
    IndicesInOrder(fragments, s.toolCalls.Keys);
    CallEventsAre(sc, s.toolCalls, fragments, Ascending(s.toolCalls.Keys));
  }

  /** What closing emits: the calls of the fragments, and the end. */
  lemma ClosingFollowsFragments(sc: Scope, s: StreamState, fragments: seq<Fragment>)
    requires CallsAre(s.toolCalls, fragments) && !s.finished && !s.toolCallsEmitted
    requires Finish(sc, s).Ok?
    ensures var events := Finish(sc, s).value.events;
            CallsThenEnd(events) && CallsFollow(sc, fragments, ToolCalls(events))
  {
    var calls := CallEvents(sc, s.toolCalls, Ascending(s.toolCalls.Keys));
    assert Finish(sc, s).value.events == calls.value + [Finished(s.stopReason.GetOr(Stop))];
    hide CallEvents, CallsAre, CallsFollow, Ascending, CallsThenEnd, ToolCalls, Finish;
    CallsAreInOrder(sc, s, fragments);
    CallsAndEnd(calls.value, Finished(s.stopReason.GetOr(Stop)));
  }

  lemma StartThenClosing(fed: seq<ModelStreamEvent>, closing: seq<ModelStreamEvent>)
    requires NoTerminal(fed) && NoCalls(fed) && fed != [] && CallsThenEnd(closing)
    ensures var events := fed + closing;
            OneTerminalLast(events) && events[|events| - 1].Finished? && events[0] == fed[0]
            && ToolCalls(events) == ToolCalls(closing)
  {
    NoCallsIn(fed);
    ToolCallsOfTwo(fed, closing);
    TerminalAfter(fed, closing);
    assert [] + ToolCalls(closing) == ToolCalls(closing);
  }

  /**
   For every stream that is fed some frames and then finished successfully: it starts with its start, ends
   with the one terminal event, and its tool calls are one for each index that had a fragment, in
   ascending order of the index, each put together from the fragments of its index in arrival order.
   */
  lemma StreamIsWellFormed(sc: Scope, frames: seq<Frame>)
    requires frames != [] && HandleAll(sc, frames).Ok?
    requires Finish(sc, HandleAll(sc, frames).value.state).Ok?
    ensures var fed := HandleAll(sc, frames).value;
            var finish := Finish(sc, fed.state).value;
            var events := fed.events + finish.events;
            && OneTerminalLast(events) && events[|events| - 1].Finished? && events[0].Started?
            && ToolCalls(events) == ToolCalls(finish.events) && |ToolCalls(events)| == |finish.events| - 1
    ensures CallsFollow(sc, Fragments(frames), ToolCalls(Finish(sc, HandleAll(sc, frames).value.state).value.events))
  {
    var fed := HandleAll(sc, frames).value;
    FramesLeaveUnfinished(sc, frames);
    StateHoldsFragments(sc, frames);
    hide HandleAll, Fragments, Finish, CallsAre, CallsFollow, ToolCalls, NoTerminal, NoCalls;
    ClosingFollowsFragments(sc, fed.state, Fragments(frames));
    StartThenClosing(fed.events, Finish(sc, fed.state).value.events);
  }

  /** A stream that was closed is not closed again. */
  lemma ClosedOnce(sc: Scope, s: StreamState)
    requires Finish(sc, s).Ok?
    ensures var closed := Finish(sc, s).value.state;
            Finish(sc, closed) == Ok(Step(closed, []))
  {
    hide CallEvents;
  }

  lemma IndicesOfFragments(fragments: seq<Fragment>, calls: map<nat, PartialToolCall>)
    requires CallsAre(calls, fragments)
    ensures calls.Keys == set f | f in fragments :: f.index
  {
    forall i: nat
      ensures i in calls <==> i in (set f | f in fragments :: f.index)
    {
      SomeFragmentAt(fragments, i);
    }
  }

  lemma {:induction false} SomeFragmentAt(fragments: seq<Fragment>, index: nat)
    ensures FragmentsAt(fragments, index) != [] <==> exists f :: f in fragments && f.index == index
  {
    if fragments != [] {
      SomeFragmentAt(fragments[..|fragments| - 1], index);
      assert forall f :: f in fragments <==> f in fragments[..|fragments| - 1] || f == fragments[|fragments| - 1];
    }
  }

  // ---------------------------------------------------------------------------------------------
  // The thinking events of a stream are what the reasoning state emits
  // ---------------------------------------------------------------------------------------------

  function ChoiceValues(choice: Choice, field: ReasoningField): seq<Json> {
    if choice.delta.None? then []
    else match ExtractReasoning(choice.delta.value)
      case None => []
      case Some((f, value)) => if f == field then [value] else []
  }

  function ValuesIn(choices: seq<Choice>, field: ReasoningField): seq<Json> {
    if choices == [] then [] else ChoiceValues(choices[0], field) + ValuesIn(choices[1..], field)
  }

  /** The values a stream sends for a field, in order. */
  function StreamValues(frames: seq<Frame>, field: ReasoningField): seq<Json> {
    if frames == [] then []
    else
      StreamValues(frames[..|frames| - 1], field) + FrameValues(frames[|frames| - 1], field)
  }

  /** The text of the thinking events for a field, put together. */
  function ThoughtText(events: seq<ModelStreamEvent>, field: ReasoningField): string {
    if events == [] then ""
    else
      (if events[0].ThinkingDelta? && events[0].itemId == Some(WireName(field)) then events[0].textDelta.GetOr("") else "")
      + ThoughtText(events[1..], field)
  }

  lemma {:induction false} ThoughtTextOfTwo(a: seq<ModelStreamEvent>, b: seq<ModelStreamEvent>, field: ReasoningField)
    ensures ThoughtText(a + b, field) == ThoughtText(a, field) + ThoughtText(b, field)
  {
    if a == [] {
      assert a + b == b;
    } else {
      assert (a + b)[1..] == a[1..] + b;
      ThoughtTextOfTwo(a[1..], b, field);
    }
  }

  lemma WireNamesDiffer(f: ReasoningField, g: ReasoningField)
    requires WireName(f) == WireName(g)
    ensures f == g
  {
    assert |WireName(ReasoningContent)| == 17 && |WireName(Reasoning)| == 9;
    assert |WireName(ReasoningField.ReasoningText)| == 14 && |WireName(ReasoningDetails)| == 17;
    assert WireName(ReasoningContent)[10] == 'c' && WireName(ReasoningDetails)[10] == 'd';
  }

  /** A step during which the values `more` of the field arrived after `values`. */
  ghost predicate Advances(field: ReasoningField, values: seq<Json>, more: seq<Json>, step: Step) {
    && ReplayAt(step.state, field) == After(field, values + more)
    && Emitted(field, values + more) == Emitted(field, values) + ThoughtText(step.events, field)
  }

  lemma AdvancesTogether(
      field: ReasoningField, values: seq<Json>, some: seq<Json>, rest: seq<Json>, first: Step, second: Step)
    requires Advances(field, values, some, first) && Advances(field, values + some, rest, second)
    ensures Advances(field, values, some + rest, Step(second.state, first.events + second.events))
  {
    hide After, Emitted, ThoughtText;
    assert values + (some + rest) == (values + some) + rest;
    ThoughtTextOfTwo(first.events, second.events, field);
  }

  lemma StaysPut(field: ReasoningField, values: seq<Json>, step: Step)
    requires ReplayAt(step.state, field) == After(field, values) && ThoughtText(step.events, field) == ""
    ensures Advances(field, values, [], step)
  {
    hide After, Emitted, ThoughtText;
    assert values + [] == values && Emitted(field, values) + "" == Emitted(field, values);
  }

  lemma OneThought(event: ModelStreamEvent, field: ReasoningField)
    ensures ThoughtText([event], field)
         == if event.ThinkingDelta? && event.itemId == Some(WireName(field)) then event.textDelta.GetOr("") else ""
  {
    assert [event][1..] == [] && ThoughtText([], field) == "";
  }

  lemma EmittedOneMore(field: ReasoningField, values: seq<Json>, value: Json)
    ensures Emitted(field, values + [value]) == Emitted(field, values) + Advance(field, After(field, values), value).1
    ensures After(field, values + [value]) == Advance(field, After(field, values), value).0
  {
    assert (values + [value])[..|values|] == values;
  }

  lemma ThoughtIsAdvance(s: StreamState, d: Delta, values: seq<Json>, field: ReasoningField)
    requires ReplayAt(s, field) == After(field, values)
    ensures Advances(field, values, ChoiceValues(Choice(None, Some(d)), field), Think(s, d))
  {
    hide Advance, After, Emitted, ThoughtText;
    match ExtractReasoning(d)
    case None =>
      assert ThoughtText([], field) == "" by {
        NoThought(field);
      }
      StaysPut(field, values, Step(s, []));
    case Some((f, value)) =>
      var step := Think(s, d);
      OneThought(step.events[0], field);
      if f == field {
        EmittedOneMore(field, values, value);
      } else {
        if WireName(f) == WireName(field) {
          WireNamesDiffer(f, field);
        }
        StaysPut(field, values, step);
      }
  }

  lemma NoThought(field: ReasoningField)
    ensures ThoughtText([], field) == ""
  {
  }

  lemma ContentIsNoThought(d: Delta, field: ReasoningField)
    ensures ThoughtText(ContentEvents(d), field) == ""
  {
    var events := ContentEvents(d);
    NoThought(field);
    assert forall e :: e in events ==> !e.ThinkingDelta?;
    if |events| > 0 {
      assert events == [events[0]] + events[1..];
      OneThought(events[0], field);
      ThoughtTextOfTwo([events[0]], events[1..], field);
    }
    if |events| > 1 {
      assert events[1..] == [events[1]];
      OneThought(events[1], field);
    }
  }

  lemma ChoiceIsAdvance(s: StreamState, choice: Choice, values: seq<Json>, field: ReasoningField)
    requires ReplayAt(s, field) == After(field, values)
    ensures Advances(field, values, ChoiceValues(choice, field), ApplyChoice(s, choice))
  {
    hide After, Emitted, Advance, AbsorbAll, ChoiceFragments, MapFinishReason, Think, ContentEvents;
    NoThought(field);
    hide ThoughtText;
    var s1 := AfterReason(s, choice);
    if choice.delta.None? {
      StaysPut(field, values, Step(s1, []));
    } else {
      var d := choice.delta.value;
      ContentIsNoThought(d, field);
      StaysPut(field, values, Step(s1, ContentEvents(d)));
      assert values + [] == values;
      ThoughtIsAdvance(s1, d, values, field);
      var more := ChoiceValues(Choice(None, Some(d)), field);
      assert more == ChoiceValues(choice, field) && [] + more == more;
      AdvancesTogether(field, values, [], more, Step(s1, ContentEvents(d)), Think(s1, d));
      var both := Step(Think(s1, d).state, ContentEvents(d) + Think(s1, d).events);
      assert ApplyChoice(s, choice).events == both.events;
      assert ApplyChoice(s, choice).state.reasoning == both.state.reasoning;
    }
  }

  lemma {:induction false} ChoicesAreAdvances(
      s: StreamState, choices: seq<Choice>, values: seq<Json>, field: ReasoningField)
    requires ReplayAt(s, field) == After(field, values)
    ensures Advances(field, values, ValuesIn(choices, field), ApplyChoices(s, choices))
    decreases |choices|
  {
    hide After, Emitted, ApplyChoice, ChoiceValues;
    if choices == [] {
      NoThought(field);
      StaysPut(field, values, Step(s, []));
    } else {
      var first := ApplyChoice(s, choices[0]);
      var some := ChoiceValues(choices[0], field);
      ChoiceIsAdvance(s, choices[0], values, field);
      ChoicesAreAdvances(first.state, choices[1..], values + some, field);
      AdvancesTogether(field, values, some, ValuesIn(choices[1..], field), first,
                       ApplyChoices(first.state, choices[1..]));
    }
  }

  function FrameValues(frame: Frame, field: ReasoningField): seq<Json> {
    if frame.Chunk? then ValuesIn(frame.choices.GetOr([]), field) else []
  }

  lemma FrameIsAdvance(sc: Scope, s: StreamState, frame: Frame, values: seq<Json>, field: ReasoningField)
    requires ReplayAt(s, field) == After(field, values) && Handle(sc, s, frame).Ok?
    ensures Advances(field, values, FrameValues(frame, field), Handle(sc, s, frame).value)
  {
    hide After, Emitted, ApplyChoices, ValuesIn;
    var s1 := s.(started := true);
    var start := if s.started then [] else [Started(sc.streamId)];
    NoThought(field);
    OneThought(Started(sc.streamId), field);
    hide ThoughtText;
    StaysPut(field, values, Step(s1, start));
    if frame.Chunk? {
      var choices := frame.choices.GetOr([]);
      assert values + [] == values;
      ChoicesAreAdvances(s1, choices, values, field);
      AdvancesTogether(field, values, [], ValuesIn(choices, field), Step(s1, start), ApplyChoices(s1, choices));
      assert [] + ValuesIn(choices, field) == ValuesIn(choices, field);
    } else {
      StaysPut(field, values, Step(s1.(done := true), start));
    }
  }

  lemma {:induction false} FramesAreAdvances(sc: Scope, frames: seq<Frame>, field: ReasoningField)
    requires HandleAll(sc, frames).Ok?
    ensures Advances(field, [], StreamValues(frames, field), HandleAll(sc, frames).value)
  {
    if frames == [] {
      NoThought(field);
      StaysPut(field, [], Step(INITIAL, []));
    } else {
      var before, last := frames[..|frames| - 1], frames[|frames| - 1];
      FramesAreAdvances(sc, before, field);
      hide After, Emitted, Handle, ValuesIn;
      var b := HandleAll(sc, before).value;
      var values := StreamValues(before, field);
      assert [] + values == values;
      FrameIsAdvance(sc, b.state, last, values, field);
      AdvancesTogether(field, [], values, FrameValues(last, field), b, Handle(sc, b.state, last).value);
    }
  }

  /**
   For every stream and field: the thinking text emitted for the field is what its values emit, and the
   state holds what they accumulate; so when all of them are strings the emitted text is the final value.
   */
  lemma ThinkingFollowsValues(sc: Scope, frames: seq<Frame>, field: ReasoningField)
    requires HandleAll(sc, frames).Ok?
    ensures var fed := HandleAll(sc, frames).value;
            var values := StreamValues(frames, field);
            && ThoughtText(fed.events, field) == Emitted(field, values)
            && ReplayAt(fed.state, field) == After(field, values)
            && (!field.ReasoningDetails? && (forall i :: 0 <= i < |values| ==> values[i].Str?) ==>
                 ThoughtText(fed.events, field) == ReplayAt(fed.state, field).rendered)
  {
    hide After, Emitted, HandleAll, StreamValues, ThoughtText;
    var fed, values := HandleAll(sc, frames).value, StreamValues(frames, field);
    FramesAreAdvances(sc, frames, field);
    assert [] + values == values;
    NothingEmitted(field);
    assert "" + ThoughtText(fed.events, field) == ThoughtText(fed.events, field);
    if !field.ReasoningDetails? && (forall i :: 0 <= i < |values| ==> values[i].Str?) {
      StringFieldsAreEmittedWhole(field, values);
    }
  }

  lemma NothingEmitted(field: ReasoningField)
    ensures Emitted(field, []) == ""
  {
  }
}
