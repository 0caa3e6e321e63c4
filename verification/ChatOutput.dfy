/**
 What a chat-completions stream emits besides what the tool calls are made of: its text and media, its thinking
 events and its end; and which parts of a chunk count as tool-call fragments and as reasoning.
 */
module ChatOutput {
  import opened Wrappers
  import opened Text
  import opened ModelEvents
  import opened ChatReasoning
  import opened ChatCompletions

  // ---------------------------------------------------------------------------------------------
  // Text and media
  // ---------------------------------------------------------------------------------------------

  function ChoicesIn(frame: Frame): seq<Choice> {
    match frame
    case Chunk(Some(choices)) => choices
    case _ => []
  }

  function ChoiceText(choice: Choice): string {
    if choice.delta.Some? then choice.delta.value.content.GetOr("") else ""
  }

  function ChoiceMedia(choice: Choice): seq<string> {
    if choice.delta.Some? && choice.delta.value.media.Some? then [choice.delta.value.media.value] else []
  }

  function MediaIn(e: ModelStreamEvent): seq<string> {
    if e.MediaDelta? then [e.media] else []
  }

  /** What the events say in `f` is what the choices say in `g`, choice by choice. */
  ghost predicate ChoiceByChoice<T(!new)>(f: ModelStreamEvent -> seq<T>, g: Choice -> seq<T>) {
    forall s, choice :: Collect(ApplyChoice(s, choice).events, f) == g(choice)
  }

  lemma {:induction false} EventsFollowChoices<T(!new)>(
      s: StreamState, choices: seq<Choice>, f: ModelStreamEvent -> seq<T>, g: Choice -> seq<T>)
    requires ChoiceByChoice(f, g)
    ensures Collect(ApplyChoices(s, choices).events, f) == Collect(choices, g)
    decreases |choices|
  {
    hide ApplyChoice;
    if choices != [] {
      var first := ApplyChoice(s, choices[0]);
      EventsFollowChoices(first.state, choices[1..], f, g);
      CollectOfTwo(first.events, ApplyChoices(first.state, choices[1..]).events, f);
      CollectFromOne(choices[0], g);
      CollectOfTwo([choices[0]], choices[1..], g);
      assert [choices[0]] + choices[1..] == choices;
    }
  }

  /** All choices of a stream, in order. */
  function AllChoices(frames: seq<Frame>): seq<Choice> {
    if frames == [] then [] else AllChoices(frames[..|frames| - 1]) + ChoicesIn(frames[|frames| - 1])
  }

  lemma FrameFollowsChoices<T(!new)>(
      sc: Scope, s: StreamState, frame: Frame, f: ModelStreamEvent -> seq<T>, g: Choice -> seq<T>)
    requires ChoiceByChoice(f, g) && f(Started(sc.streamId)) == [] && Handle(sc, s, frame).Ok?
    ensures Collect(Handle(sc, s, frame).value.events, f) == Collect(ChoicesIn(frame), g)
  {
    hide ApplyChoices, ChoiceByChoice;
    var start := if s.started then [] else [Started(sc.streamId)];
    CollectFromOne(Started(sc.streamId), f);
    assert Collect(start, f) == [];
    if frame.Chunk? {
      var s1 := s.(started := true);
      EventsFollowChoices(s1, frame.choices.GetOr([]), f, g);
      CollectOfTwo(start, ApplyChoices(s1, frame.choices.GetOr([])).events, f);
    }
  }

  lemma {:induction false} EventsFollowFrames<T(!new)>(
      sc: Scope, frames: seq<Frame>, f: ModelStreamEvent -> seq<T>, g: Choice -> seq<T>)
    requires ChoiceByChoice(f, g) && f(Started(sc.streamId)) == [] && HandleAll(sc, frames).Ok?
    ensures Collect(HandleAll(sc, frames).value.events, f) == Collect(AllChoices(frames), g)
  {
    hide Handle, ChoiceByChoice, ChoicesIn;
    if frames != [] {
      var before, last := frames[..|frames| - 1], frames[|frames| - 1];
      EventsFollowFrames(sc, before, f, g);
      var b := HandleAll(sc, before).value;
      FrameFollowsChoices(sc, b.state, last, f, g);
      CollectOfTwo(b.events, Handle(sc, b.state, last).value.events, f);
      CollectOfTwo(AllChoices(before), ChoicesIn(last), g);
    }
  }

  /** A choice emits its text, its media and at most one thinking event, in this order. */
  lemma ChoiceEvents(s: StreamState, choice: Choice)
    ensures choice.delta.None? ==> ApplyChoice(s, choice).events == []
    ensures choice.delta.Some? ==>
              var content := choice.delta.value.content.GetOr("");
              var media := choice.delta.value.media;
              var thought := Think(AfterReason(s, choice), choice.delta.value).events;
              && |thought| <= 1 && (thought != [] ==> thought[0].ThinkingDelta?)
              && ApplyChoice(s, choice).events
                 == (if content == "" then [] else [TextDelta(content)])
                    + (if media.None? then [] else [MediaDelta(media.value)])
                    + thought
  {
    hide Advance, ExtractReasoning, AbsorbAll, ChoiceFragments, ValueKind;
  }

  lemma ChoiceEmits(s: StreamState, choice: Choice)
    ensures Collect(ApplyChoice(s, choice).events, TextIn) == ChoiceText(choice)
    ensures Collect(ApplyChoice(s, choice).events, MediaIn) == ChoiceMedia(choice)
  {
    hide ApplyChoice, Think, AfterReason, Collect;
    ChoiceEvents(s, choice);
    if choice.delta.None? {
      CollectOneOrNone([], TextIn);
      CollectOneOrNone([], MediaIn);
    } else {
      var d := choice.delta.value;
      var content := if d.content.GetOr("") == "" then [] else [TextDelta(d.content.GetOr(""))];
      var media := if d.media.None? then [] else [MediaDelta(d.media.value)];
      var thought := Think(AfterReason(s, choice), d).events;
      ThreeParts(content, media, thought, TextIn);
      ThreeParts(content, media, thought, MediaIn);
    }
  }

  lemma ThreeParts<T>(
      a: seq<ModelStreamEvent>, b: seq<ModelStreamEvent>, c: seq<ModelStreamEvent>, f: ModelStreamEvent -> seq<T>)
    requires |a| <= 1 && |b| <= 1 && |c| <= 1
    ensures Collect(a + b + c, f)
         == (if a == [] then [] else f(a[0])) + (if b == [] then [] else f(b[0])) + (if c == [] then [] else f(c[0]))
  {
    CollectOfTwo(a, b, f);
    CollectOfTwo(a + b, c, f);
    hide Collect;
    CollectOneOrNone(a, f);
    CollectOneOrNone(b, f);
    CollectOneOrNone(c, f);
  }

  /** In every stream, the text events put together are the contents of the choices, and media are handed on in order. */
  lemma ContentIsEmittedWhole(sc: Scope, frames: seq<Frame>)
    requires HandleAll(sc, frames).Ok?
    ensures Collect(HandleAll(sc, frames).value.events, TextIn) == Collect(AllChoices(frames), ChoiceText)
    ensures Collect(HandleAll(sc, frames).value.events, MediaIn) == Collect(AllChoices(frames), ChoiceMedia)
  {
    forall s, choice
      ensures Collect(ApplyChoice(s, choice).events, TextIn) == ChoiceText(choice)
      ensures Collect(ApplyChoice(s, choice).events, MediaIn) == ChoiceMedia(choice)
    {
      ChoiceEmits(s, choice);
    }
    assert ChoiceByChoice(TextIn, ChoiceText) && ChoiceByChoice(MediaIn, ChoiceMedia);
    hide ChoiceByChoice, HandleAll, ApplyChoice, ChoiceText, ChoiceMedia, Collect;
    EventsFollowFrames(sc, frames, TextIn, ChoiceText);
    EventsFollowFrames(sc, frames, MediaIn, ChoiceMedia);
  }

  // ---------------------------------------------------------------------------------------------
  // The end
  // ---------------------------------------------------------------------------------------------

  function StopFor(reason: string): StopReason {
    if reason in {"stop", "end"} then Stop
    else if reason == "length" then Length
    else if reason in {"tool_calls", "function_call", "tool_use"} then ToolUse
    else Error
  }

  /** The last reason that a choice gives. */
  function LastReason(choices: seq<Choice>): Option<StopReason> {
    if choices == [] then None
    else
      var reason := choices[|choices| - 1].finishReason;
      if reason.Some? then Some(StopFor(reason.value)) else LastReason(choices[..|choices| - 1])
  }

  lemma {:induction false} ReasonOfTwo(a: seq<Choice>, b: seq<Choice>)
    ensures LastReason(a + b) == if LastReason(b).Some? then LastReason(b) else LastReason(a)
    decreases |b|
  {
    if b == [] {
      assert a + b == a;
    } else {
      var before, last := b[..|b| - 1], b[|b| - 1];
      assert (a + b)[..|a + b| - 1] == a + before && (a + b)[|a + b| - 1] == last;
      ReasonOfTwo(a, before);
    }
  }

  lemma ChoiceKeepsReason(s: StreamState, choice: Choice)
    ensures ApplyChoice(s, choice).state.stopReason
         == if choice.finishReason.Some? then Some(StopFor(choice.finishReason.value)) else s.stopReason
  {
    hide Advance, ExtractReasoning, AbsorbAll, ChoiceFragments, ValueKind, ContentEvents;
  }

  lemma {:induction false} ChoicesKeepReason(s: StreamState, choices: seq<Choice>)
    ensures ApplyChoices(s, choices).state.stopReason
         == if LastReason(choices).Some? then LastReason(choices) else s.stopReason
    decreases |choices|
  {
    hide ApplyChoice, StopFor;
    if choices != [] {
      ChoiceKeepsReason(s, choices[0]);
      ChoicesKeepReason(ApplyChoice(s, choices[0]).state, choices[1..]);
      assert [choices[0]] + choices[1..] == choices && [choices[0]][..0] == [];
      ReasonOfTwo([choices[0]], choices[1..]);
    }
  }

  lemma {:induction false} StateHoldsReason(sc: Scope, frames: seq<Frame>)
    requires HandleAll(sc, frames).Ok?
    ensures HandleAll(sc, frames).value.state.stopReason == LastReason(AllChoices(frames))
    ensures HandleAll(sc, frames).value.state.done <==> DoneMarker in frames
  {
    hide ApplyChoices, LastReason;
    if frames == [] {
      assert LastReason([]) == None by {
        NoReasonYet();
      }
    } else {
      var before, last := frames[..|frames| - 1], frames[|frames| - 1];
      StateHoldsReason(sc, before);
      var s := HandleAll(sc, before).value.state;
      assert forall f :: f in frames <==> f in before || f == last;
      ReasonOfTwo(AllChoices(before), ChoicesIn(last));
      if last.Chunk? {
        ChoicesKeepReason(s.(started := true), ChoicesIn(last));
        ChoicesKeepDone(s.(started := true), ChoicesIn(last));
      } else {
        NoReasonYet();
      }
    }
  }

  lemma NoReasonYet()
    ensures LastReason([]) == None
  {
  }

  lemma {:induction false} ChoicesKeepDone(s: StreamState, choices: seq<Choice>)
    ensures ApplyChoices(s, choices).state.done == s.done
    decreases |choices|
  {
    if choices != [] {
      assert ApplyChoice(s, choices[0]).state.done == s.done by {
        hide Advance, ExtractReasoning, AbsorbAll, ChoiceFragments, ValueKind, ContentEvents, MapFinishReason;
      }
      hide ApplyChoice;
      ChoicesKeepDone(ApplyChoice(s, choices[0]).state, choices[1..]);
    }
  }

  /** A finished stream starts with its stream id and ends with the last reason that a choice gave, or a plain stop. */
  lemma StreamEndsAs(sc: Scope, frames: seq<Frame>)
    requires frames != [] && HandleAll(sc, frames).Ok? && Finish(sc, HandleAll(sc, frames).value.state).Ok?
    ensures var fed := HandleAll(sc, frames).value;
            var events := fed.events + Finish(sc, fed.state).value.events;
            && events != [] && events[|events| - 1] == Finished(LastReason(AllChoices(frames)).GetOr(Stop))
            && Collect(fed.events, StartIn) == [sc.streamId]
  {
    FramesLeaveUnfinished(sc, frames);
    StateHoldsReason(sc, frames);
    StartedOnce(sc, frames);
    hide HandleAll, CallEvents, LastReason;
  }

  lemma ChoicesStartNothing(s: StreamState, choice: Choice)
    ensures Collect(ApplyChoice(s, choice).events, StartIn) == []
  {
    ChoiceEvents(s, choice);
    hide ApplyChoice, Think, AfterReason;
    CollectNothing(ApplyChoice(s, choice).events, StartIn);
  }

  lemma {:induction false} StartedOnce(sc: Scope, frames: seq<Frame>)
    requires HandleAll(sc, frames).Ok?
    ensures Collect(HandleAll(sc, frames).value.events, StartIn) == if frames == [] then [] else [sc.streamId]
  {
    hide Handle;
    if frames != [] {
      var before, last := frames[..|frames| - 1], frames[|frames| - 1];
      StartedOnce(sc, before);
      FramesLeaveUnfinished(sc, before);
      var b := HandleAll(sc, before).value;
      HandleStarts(sc, b.state, last);
      CollectOfTwo(b.events, Handle(sc, b.state, last).value.events, StartIn);
    }
  }

  lemma HandleStarts(sc: Scope, s: StreamState, frame: Frame)
    requires Handle(sc, s, frame).Ok?
    ensures Collect(Handle(sc, s, frame).value.events, StartIn) == if s.started then [] else [sc.streamId]
  {
    var start := if s.started then [] else [Started(sc.streamId)];
    CollectFromOne(Started(sc.streamId), StartIn);
    assert Collect([], StartIn) == [];
    if frame.Chunk? {
      var s1, choices := s.(started := true), frame.choices.GetOr([]);
      ChoicesEmitNoStart(s1, choices);
      hide ApplyChoices;
      CollectOfTwo(start, ApplyChoices(s1, choices).events, StartIn);
    }
  }

  lemma {:induction false} ChoicesEmitNoStart(s: StreamState, choices: seq<Choice>)
    ensures Collect(ApplyChoices(s, choices).events, StartIn) == []
    decreases |choices|
  {
    hide ApplyChoice;
    if choices != [] {
      var first := ApplyChoice(s, choices[0]);
      ChoicesStartNothing(s, choices[0]);
      ChoicesEmitNoStart(first.state, choices[1..]);
      CollectOfTwo(first.events, ApplyChoices(first.state, choices[1..]).events, StartIn);
    }
  }

  // ---------------------------------------------------------------------------------------------
  // Fragments of tool calls
  // ---------------------------------------------------------------------------------------------

  /** The numbers below `n`. */
  function Below(n: nat): seq<nat> {
    seq(n, i requires 0 <= i < n => i)
  }

  /** The fragment at a position of a list: of the call it names, or else of the one of its position. */
  function ListFragment(chunks: seq<ToolChunk>, i: nat): seq<Fragment> {
    if i >= |chunks| || chunks[i].NotAnObject? then []
    else
      var index := chunks[i].index.GetOr(i);
      var f := chunks[i].function_.GetOr(FunctionChunk(None, None));
      [Fragment(index, "call-" + Numeral(index, 10), chunks[i].id, f.name, f.arguments)]
  }

  /** What a choice says about tool calls: its list, position by position, and then the call of the older kind. */
  function FragmentsOfChoice(choice: Choice): seq<Fragment> {
    if choice.delta.None? then []
    else
      var chunks := choice.delta.value.toolCalls.GetOr([]);
      Collect(Below(|chunks|), i => ListFragment(chunks, i))
      + match choice.delta.value.functionCall
        case None => []
        case Some(f) => [Fragment(0, "function-call-0", None, f.name, f.arguments)]
  }

  lemma ListFragmentIs(chunks: seq<ToolChunk>, i: nat)
    requires i < |chunks|
    ensures ListFragment(chunks, i) == FragmentOf(chunks[i], i)
  {
    hide Numeral;
  }

  lemma {:induction false} FragmentsFromAre(chunks: seq<ToolChunk>, position: nat)
    requires position <= |chunks|
    ensures Collect(Below(|chunks|), i => ListFragment(chunks, i))
         == Collect(Below(position), i => ListFragment(chunks, i)) + FragmentsFrom(chunks, position)
    decreases |chunks| - position
  {
    hide ListFragment, FragmentOf, Collect;
    var f := (i: nat) => ListFragment(chunks, i);
    if position < |chunks| {
      FragmentsFromAre(chunks, position + 1);
      assert Below(position + 1) == Below(position) + [position];
      CollectOneMore(Below(position), position, f);
      ListFragmentIs(chunks, position);
      hide Below;
      Chained(Collect(Below(position), f), FragmentOf(chunks[position], position), FragmentsFrom(chunks, position + 1));
    }
  }

  lemma ChoiceFragmentsAre(choice: Choice)
    ensures ChoiceFragments(choice) == FragmentsOfChoice(choice)
  {
    if choice.delta.Some? {
      var d := choice.delta.value;
      FragmentsFromAre(d.toolCalls.GetOr([]), 0);
      var f := (i: nat) => ListFragment(d.toolCalls.GetOr([]), i);
      assert Below(0) == [] && Collect(Below(0), f) == [];
      hide ListFragment;
      assert [] + FragmentsFrom(d.toolCalls.GetOr([]), 0) == FragmentsFrom(d.toolCalls.GetOr([]), 0);
    }
  }

  /** The fragments of a stream are those of its choices, each read off the fields of its chunk. */
  lemma {:induction false} FragmentsAreOfChoices(frames: seq<Frame>)
    ensures Fragments(frames) == Collect(AllChoices(frames), FragmentsOfChoice)
  {
    if frames != [] {
      var before, last := frames[..|frames| - 1], frames[|frames| - 1];
      FragmentsAreOfChoices(before);
      AllFragmentsAre(ChoicesIn(last));
      CollectOfTwo(AllChoices(before), ChoicesIn(last), FragmentsOfChoice);
      hide FragmentsOfChoice, AllFragments;
    }
  }

  lemma {:induction false} AllFragmentsAre(choices: seq<Choice>)
    ensures AllFragments(choices) == Collect(choices, FragmentsOfChoice)
    decreases |choices|
  {
    hide FragmentsOfChoice, ChoiceFragments;
    if choices != [] {
      AllFragmentsAre(choices[1..]);
      ChoiceFragmentsAre(choices[0]);
      CollectFromOne(choices[0], FragmentsOfChoice);
      CollectOfTwo([choices[0]], choices[1..], FragmentsOfChoice);
      assert [choices[0]] + choices[1..] == choices;
    }
  }

  // ---------------------------------------------------------------------------------------------
  // Reasoning
  // ---------------------------------------------------------------------------------------------

  predicate IsNotEmpty(value: Option<Json>) {
    match value
    case Some(Str(text)) => |text| > 0
    case Some(Obj(fields)) => exists key :: key in fields
    case Some(Arr(items)) => |items| > 0
    case _ => false
  }

  /** The objects of a list of details, or a single object that is not empty. */
  function DetailsOf(value: Option<Json>): Option<Json> {
    match value
    case Some(Obj(fields)) => if exists key :: key in fields then value else None
    case Some(Arr(items)) =>
      var objects := Collect(items, (item: Json) => if item.Obj? then [item] else []);
      if objects == [] then None else Some(Arr(objects))
    case _ => None
  }

  lemma {:induction false} ObjectsAre(items: seq<Json>)
    ensures Objects(items) == Collect(items, (item: Json) => if item.Obj? then [item] else [])
    decreases |items|
  {
    var f := (item: Json) => if item.Obj? then [item] else [];
    if items != [] {
      ObjectsAre(items[1..]);
      CollectFromOne(items[0], f);
      CollectOfTwo([items[0]], items[1..], f);
      assert [items[0]] + items[1..] == items;
    }
  }

  /** A delta's reasoning is the first of its four fields that holds any; of details only objects count. */
  lemma ReasoningOfDelta(d: Delta)
    ensures ExtractReasoning(d) ==
            if IsNotEmpty(d.reasoningContent) then Some((ReasoningContent, d.reasoningContent.value))
            else if IsNotEmpty(d.reasoning) then Some((Reasoning, d.reasoning.value))
            else if IsNotEmpty(d.reasoningText) then Some((ReasoningField.ReasoningText, d.reasoningText.value))
            else match DetailsOf(d.reasoningDetails)
              case Some(details) => Some((ReasoningDetails, details))
              case None => None
  {
    NotEmptyIs(d.reasoningContent);
    NotEmptyIs(d.reasoning);
    NotEmptyIs(d.reasoningText);
    if d.reasoningDetails.Some? && d.reasoningDetails.value.Arr? {
      ObjectsAre(d.reasoningDetails.value.items);
    } else {
      NotEmptyIs(d.reasoningDetails);
    }
    hide Objects, Collect;
  }

  lemma NotEmptyIs(value: Option<Json>)
    ensures IsNotEmpty(value) <==> value.Some? && HasReasoning(value.value)
  {
    if value.Some? && value.value.Obj? && value.value.fields != map[] {
      assert value.value.fields.Keys != {};
      var key :| key in value.value.fields;
    }
  }

  predicate IsSummaryOnly(detail: Json) {
    detail.Obj? && "summary" in detail.fields && "text" !in detail.fields
  }

  predicate OnlySummary(value: Json) {
    if value.Arr? then forall i :: 0 <= i < |value.items| ==> IsSummaryOnly(value.items[i]) else IsSummaryOnly(value)
  }

  lemma KindIs(value: Json)
    ensures ValueKind(value) == if OnlySummary(value) then Summary else Raw
  {
    if value.Arr? {
      assert forall i :: 0 <= i < |value.items| ==> (IsSummaryOnly(value.items[i]) <==> IsSummaryDetail(value.items[i]));
    }
  }

  function FieldName(field: ReasoningField): string {
    match field
    case ReasoningContent => "reasoning_content"
    case Reasoning => "reasoning"
    case ReasoningText => "reasoning_text"
    case ReasoningDetails => "reasoning_details"
  }

  /** A delta with reasoning emits one event about its field: the text gained, if any, and a summary if nothing else. */
  lemma ThoughtOfDelta(s: StreamState, d: Delta)
    ensures ExtractReasoning(d).None? ==> Think(s, d).events == []
    ensures ExtractReasoning(d).Some? ==>
              var (field, value) := ExtractReasoning(d).value;
              var (replay, text) := Advance(field, ReplayAt(s, field), value);
              Think(s, d).events == [ThinkingDelta(if OnlySummary(replay.value) then Summary else Raw,
                                                   if |text| > 0 then Some(text) else None, None,
                                                   Some(FieldName(field)), true)]
  {
    hide Advance, ExtractReasoning, ValueKind, OnlySummary;
    if ExtractReasoning(d).Some? {
      var (field, value) := ExtractReasoning(d).value;
      KindIs(Advance(field, ReplayAt(s, field), value).0.value);
    }
  }
}
