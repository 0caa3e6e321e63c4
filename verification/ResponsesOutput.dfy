/**
 What a responses stream emits besides its tool calls: its text, its reasoning, its start and its end, told by
 the frames.
 */
module ResponsesOutput {
  import opened Wrappers
  import opened Text
  import opened ModelEvents
  import opened Responses

  // ---------------------------------------------------------------------------------------------
  // The shape of a step
  // ---------------------------------------------------------------------------------------------

  /** A reasoning item as a whole. */
  predicate IsItemEvent(e: ModelStreamEvent) {
    e.ThinkingDelta? && e.textDelta.None? && e.snapshot.Some? && e.snapshot.value.WholeItem?
  }

  /** What a frame that is no response may emit, besides a start. */
  predicate IsEventOf(frame: Frame, e: ModelStreamEvent) {
    match frame
    case OutputTextDelta(_) => e.TextDelta?
    case ContentPartDelta(_, _, _) => e.TextDelta?
    case ReasoningDelta(_, _, _, _) => e.ThinkingDelta? && e.textDelta.Some? && e.snapshot.None?
    case ReasoningDone(_, _, _) => e.ThinkingDelta? && e.textDelta.None? && e.snapshot.Some? && !IsItemEvent(e)
    case ArgumentsDone(_, _, _, _) => e.ToolCallEvent?
    case OutputItemDone(_, _, _) => e.ToolCallEvent? || IsItemEvent(e)
    case _ => false
  }

  predicate IsDelta(frame: Frame) {
    && !frame.DoneMarker? && !frame.Created? && !frame.ResponseFailed?
    && !frame.ResponseCompleted? && !frame.ResponseIncomplete?
  }

  predicate SameFlags(s: StreamState, t: StreamState) {
    t.done == s.done && t.finished == s.finished && t.stopReason == s.stopReason
  }

  /** The start of the stream, if it was missing, and at most one event of the frame; or nothing at all. */
  ghost predicate HasShape(sc: Scope, s: StreamState, frame: Frame, step: Step, tail: seq<ModelStreamEvent>) {
    && SameFlags(s, step.state)
    && |tail| <= 1 && (forall i :: 0 <= i < |tail| ==> IsEventOf(frame, tail[i]))
    && (|| (step.events == tail == [] && step.state.started == s.started)
        || (step.events == EnsureStarted(sc, s).events + tail && step.state.started))
    && (frame.ReasoningDelta? || frame.ReasoningDone? || step.state.reasoning == s.reasoning)
    && ((frame.OutputItemDone? && frame.item.Some? && frame.item.value.kind.Reasoning?)
        || step.state.emittedReasoningItems == s.emittedReasoningItems)
  }

  lemma CallShape(sc: Scope, s: StreamState, told: StreamState, frame: Frame, key: string)
    returns (tail: seq<ModelStreamEvent>)
    requires frame.ArgumentsDone? || frame.OutputItemDone?
    requires SameFlags(s, told) && told.started == s.started && told.reasoning == s.reasoning
    requires told.emittedReasoningItems == s.emittedReasoningItems
    ensures EmitToolCall(sc, told, key).Ok? ==> HasShape(sc, s, frame, EmitToolCall(sc, told, key).value, tail)
  {
    hide FallbackStreamId;
    var out := EmitToolCall(sc, told, key);
    tail := [];
    if out.Ok? && out.value.events != [] {
      tail := [out.value.events[|out.value.events| - 1]];
    }
  }

  lemma ArgumentsDoneShape(sc: Scope, s: StreamState, frame: Frame) returns (tail: seq<ModelStreamEvent>)
    requires frame.ArgumentsDone? && ApplyFrame(sc, s, frame).Ok?
    ensures HasShape(sc, s, frame, ApplyFrame(sc, s, frame).value, tail)
  {
    hide EmitToolCall, EventKey, ItemKey, Describe, PartialAt, HasShape;
    var told := if frame.item.Some? then AbsorbItem(s, frame.item.value, frame.outputIndex)
                else if frame.arguments.Some? then
                  SetArguments(s, EventKey(s.toolKeysByOutputIndex, frame.itemId, frame.outputIndex),
                               frame.arguments.value)
                else s;
    tail := CallShape(sc, s, told, frame, EventKey(told.toolKeysByOutputIndex, frame.itemId, frame.outputIndex));
  }

  lemma ItemDoneShape(sc: Scope, s: StreamState, frame: Frame) returns (tail: seq<ModelStreamEvent>)
    requires frame.OutputItemDone? && ApplyFrame(sc, s, frame).Ok?
    ensures HasShape(sc, s, frame, ApplyFrame(sc, s, frame).value, tail)
  {
    hide EmitToolCall, EventKey, ItemKey, Describe, PartialAt, FallbackStreamId, ReasoningIdentity;
    tail := [];
    if frame.item.Some? {
      match frame.item.value.kind {
        case FunctionCall =>
          var told := AbsorbItem(s, frame.item.value, frame.outputIndex);
          hide HasShape;
          tail := CallShape(sc, s, told, frame, EventKey(told.toolKeysByOutputIndex, frame.itemId, frame.outputIndex));
        case Reasoning =>
          tail := EmitReasoningItem(sc, EnsureStarted(sc, s).state, frame.item.value).events;
        case OtherItem =>
      }
    }
  }

  lemma TextShape(sc: Scope, s: StreamState, frame: Frame) returns (tail: seq<ModelStreamEvent>)
    requires frame.OutputTextDelta? || frame.ContentPartDelta?
    ensures ApplyFrame(sc, s, frame).Ok? && HasShape(sc, s, frame, ApplyFrame(sc, s, frame).value, tail)
  {
    hide FallbackStreamId;
    var events := ApplyFrame(sc, s, frame).value.events;
    tail := if events == [] then [] else [events[|events| - 1]];
  }

  lemma ReasoningShape(sc: Scope, s: StreamState, frame: Frame) returns (tail: seq<ModelStreamEvent>)
    requires frame.ReasoningDelta? || frame.ReasoningDone?
    ensures ApplyFrame(sc, s, frame).Ok? && HasShape(sc, s, frame, ApplyFrame(sc, s, frame).value, tail)
  {
    hide FallbackStreamId, ReasoningKey;
    var events := ApplyFrame(sc, s, frame).value.events;
    tail := if events == [] then [] else [events[|events| - 1]];
  }

  lemma DeltaShape(sc: Scope, s: StreamState, frame: Frame) returns (tail: seq<ModelStreamEvent>)
    requires IsDelta(frame) && ApplyFrame(sc, s, frame).Ok?
    ensures HasShape(sc, s, frame, ApplyFrame(sc, s, frame).value, tail)
  {
    hide HasShape;
    if frame.OutputTextDelta? || frame.ContentPartDelta? {
      tail := TextShape(sc, s, frame);
    } else if frame.ReasoningDelta? || frame.ReasoningDone? {
      tail := ReasoningShape(sc, s, frame);
    } else if frame.ArgumentsDone? {
      tail := ArgumentsDoneShape(sc, s, frame);
    } else if frame.OutputItemDone? {
      tail := ItemDoneShape(sc, s, frame);
    } else {
      tail := SilentShape(sc, s, frame);
    }
  }

  lemma SilentShape(sc: Scope, s: StreamState, frame: Frame) returns (tail: seq<ModelStreamEvent>)
    requires frame.Ignored? || frame.OutputItemAdded? || frame.ArgumentsDelta?
    ensures ApplyFrame(sc, s, frame).Ok? && HasShape(sc, s, frame, ApplyFrame(sc, s, frame).value, tail)
  {
    hide Describe, PartialAt, EventKey, ItemKey, EnsureStarted;
    tail := [];
  }

  predicate AreCallsAndItems(events: seq<ModelStreamEvent>) {
    forall i :: 0 <= i < |events| ==> events[i].ToolCallEvent? || IsItemEvent(events[i])
  }

  /** A step through the output of a response. */
  ghost predicate IsOutputStep(s: StreamState, step: Step) {
    SameFlags(s, step.state) && step.state.started && step.state.reasoning == s.reasoning && AreCallsAndItems(step.events)
  }

  lemma OneOutputShape(sc: Scope, s: StreamState, item: Item)
    requires s.started && OutputItem(sc, s, item).Ok?
    ensures IsOutputStep(s, OutputItem(sc, s, item).value)
  {
    hide Describe, PartialAt, ItemKey, ReasoningIdentity, ItemThinkingKind, IsReplayable;
  }

  lemma {:induction false} OutputShape(sc: Scope, s: StreamState, output: seq<Item>)
    requires s.started && OutputItems(sc, s, output).Ok?
    ensures IsOutputStep(s, OutputItems(sc, s, output).value)
    decreases |output|
  {
    if output != [] {
      OneOutputShape(sc, s, output[0]);
      hide OutputItem, IsItemEvent;
      OutputShape(sc, OutputItem(sc, s, output[0]).value.state, output[1..]);
    }
  }

  /** A response: its start, if that was missing, its calls and items, and its end, unless that came before. */
  lemma CompleteShape(sc: Scope, s: StreamState, output: Option<seq<Item>>) returns (middle: seq<ModelStreamEvent>)
    requires Complete(sc, s, output).Ok?
    ensures AreCallsAndItems(middle)
    ensures var step := Complete(sc, s, output).value;
            && step.state.started && step.state.done && step.state.reasoning == s.reasoning
            && step.events == EnsureStarted(sc, s).events + middle
                              + if s.finished then [] else [Finished(s.stopReason.GetOr(Stop))]
  {
    hide FallbackStreamId, OutputItems, IsItemEvent;
    var start := EnsureStarted(sc, s);
    OutputShape(sc, start.state, output.GetOr([]));
    middle := OutputItems(sc, start.state, output.GetOr([])).value.events;
  }

  // ---------------------------------------------------------------------------------------------
  // Text and streamed reasoning
  // ---------------------------------------------------------------------------------------------

  /** The text in a frame: of the fields that may hold it, the first that is there. */
  function FrameText(frame: Frame): string {
    match frame
    case OutputTextDelta(Some(delta)) => delta
    case ContentPartDelta(Some(delta), _, _) => delta
    case ContentPartDelta(None, Some(text), _) => text
    case ContentPartDelta(None, None, Some(text)) => text
    case _ => ""
  }

  /** The frame is about the reasoning with this key: named by its item id, or else by its output index. */
  predicate IsAbout(itemId: Option<string>, outputIndex: Option<nat>, key: string) {
    match (itemId, outputIndex)
    case (Some(id), _) => id == key
    case (None, Some(index)) => "reasoning-" + Numeral(index, 10) == key
    case (None, None) => key == "reasoning-0"
  }

  function FrameThought(frame: Frame, key: string): string {
    match frame
    case ReasoningDelta(_, itemId, outputIndex, Some(delta)) => if IsAbout(itemId, outputIndex, key) then delta else ""
    case _ => ""
  }

  /** What the events say in `f` is what the frames say in `g`, frame by frame. */
  ghost predicate FrameByFrame<T(!new)>(sc: Scope, f: ModelStreamEvent -> seq<T>, g: Frame -> seq<T>) {
    forall s, frame :: ApplyFrame(sc, s, frame).Ok? ==> Collect(ApplyFrame(sc, s, frame).value.events, f) == g(frame)
  }

  lemma {:induction false} EventsFollowFrames<T(!new)>(
      sc: Scope, frames: seq<Frame>, f: ModelStreamEvent -> seq<T>, g: Frame -> seq<T>)
    requires FrameByFrame(sc, f, g) && ApplyFrames(sc, frames).Ok?
    ensures Collect(ApplyFrames(sc, frames).value.events, f) == Collect(frames, g)
  {
    if frames != [] {
      var before, last := frames[..|frames| - 1], frames[|frames| - 1];
      EventsFollowFrames(sc, before, f, g);
      var b := ApplyFrames(sc, before).value;
      hide ApplyFrame;
      CollectOfTwo(b.events, ApplyFrame(sc, b.state, last).value.events, f);
    }
  }

  /** The start of the stream, if it was missing, and one event. */
  lemma StartAnd<T>(sc: Scope, s: StreamState, e: ModelStreamEvent, f: ModelStreamEvent -> seq<T>)
    requires f(Started(FallbackStreamId(sc))) == []
    ensures Collect(EnsureStarted(sc, s).events + [e], f) == f(e)
  {
    hide FallbackStreamId;
    CollectFromOne(Started(FallbackStreamId(sc)), f);
    CollectOfTwo(EnsureStarted(sc, s).events, [e], f);
    CollectFromOne(e, f);
    assert [] + f(e) == f(e) && Collect([], f) == [];
  }

  /** A frame that may only emit what `f` passes over. */
  lemma NothingToCollect<T>(sc: Scope, s: StreamState, frame: Frame, f: ModelStreamEvent -> seq<T>)
    requires ApplyFrame(sc, s, frame).Ok?
    requires forall e: ModelStreamEvent ::
               e.Started? || e.Finished? || e.FailedEvent? || e.ToolCallEvent? || IsItemEvent(e) ==> f(e) == []
    requires forall e: ModelStreamEvent :: IsEventOf(frame, e) ==> f(e) == []
    ensures Collect(ApplyFrame(sc, s, frame).value.events, f) == []
  {
    var events := ApplyFrame(sc, s, frame).value.events;
    FrameEvents(sc, s, frame);
    hide ApplyFrame, IsEventOf, IsItemEvent;
    CollectNothing(events, f);
  }

  lemma FrameEvents(sc: Scope, s: StreamState, frame: Frame)
    requires ApplyFrame(sc, s, frame).Ok?
    ensures forall i :: 0 <= i < |ApplyFrame(sc, s, frame).value.events| ==>
              var e := ApplyFrame(sc, s, frame).value.events[i];
              || e.Started? || e.Finished? || e.FailedEvent? || e.ToolCallEvent? || IsItemEvent(e)
              || IsEventOf(frame, e)
  {
    hide IsItemEvent, IsEventOf, FallbackStreamId, Complete;
    if frame.ResponseCompleted? {
      var middle := CompleteShape(sc, s, frame.output);
    } else if frame.ResponseIncomplete? {
      var middle := CompleteShape(sc, s.(stopReason := Some(IncompleteReason(frame.reason))), frame.output);
    } else if IsDelta(frame) {
      var tail := DeltaShape(sc, s, frame);
      hide ApplyFrame;
    }
  }

  lemma TextFrameEvents(sc: Scope, s: StreamState, frame: Frame)
    requires frame.OutputTextDelta? || frame.ContentPartDelta?
    ensures ApplyFrame(sc, s, frame).Ok?
    ensures ApplyFrame(sc, s, frame).value.events
         == if FrameText(frame) == "" then [] else EnsureStarted(sc, s).events + [TextDelta(FrameText(frame))]
  {
    hide EnsureStarted;
  }

  lemma ThoughtFrameEvents(sc: Scope, s: StreamState, frame: Frame)
    requires frame.ReasoningDelta?
    ensures ApplyFrame(sc, s, frame).Ok?
    ensures var events := ApplyFrame(sc, s, frame).value.events;
            if frame.delta.GetOr("") == "" then events == []
            else
              && IsAbout(frame.itemId, frame.outputIndex, ReasoningKey(frame.itemId, frame.outputIndex))
              && events == EnsureStarted(sc, s).events
                         + [ThinkingDelta(frame.thinking, frame.delta, None,
                                          Some(ReasoningKey(frame.itemId, frame.outputIndex)), false)]
    ensures forall key :: IsAbout(frame.itemId, frame.outputIndex, key) <==>
                          key == ReasoningKey(frame.itemId, frame.outputIndex)
  {
    hide FallbackStreamId, Numeral;
  }

  lemma FrameEmitsText(sc: Scope, s: StreamState, frame: Frame)
    requires ApplyFrame(sc, s, frame).Ok?
    ensures Collect(ApplyFrame(sc, s, frame).value.events, TextIn) == FrameText(frame)
  {
    if frame.OutputTextDelta? || frame.ContentPartDelta? {
      TextFrameEvents(sc, s, frame);
      StartAnd(sc, s, TextDelta(FrameText(frame)), TextIn);
    } else if frame.ReasoningDelta? {
      ThoughtFrameEvents(sc, s, frame);
      StartAnd(sc, s, ThinkingDelta(frame.thinking, frame.delta, None,
                                    Some(ReasoningKey(frame.itemId, frame.outputIndex)), false), TextIn);
    } else {
      NothingToCollect(sc, s, frame, TextIn);
    }
    hide ApplyFrame, FallbackStreamId, EnsureStarted, Collect;
  }

  lemma FrameEmitsThought(sc: Scope, s: StreamState, frame: Frame, key: string)
    requires ApplyFrame(sc, s, frame).Ok?
    ensures Collect(ApplyFrame(sc, s, frame).value.events, e => ThoughtIn(e, key)) == FrameThought(frame, key)
  {
    var f := (e: ModelStreamEvent) => ThoughtIn(e, key);
    if frame.OutputTextDelta? || frame.ContentPartDelta? {
      TextFrameEvents(sc, s, frame);
      StartAnd(sc, s, TextDelta(FrameText(frame)), f);
    } else if frame.ReasoningDelta? {
      ThoughtFrameEvents(sc, s, frame);
      StartAnd(sc, s, ThinkingDelta(frame.thinking, frame.delta, None,
                                    Some(ReasoningKey(frame.itemId, frame.outputIndex)), false), f);
      hide ReasoningKey, IsAbout;
    } else {
      NothingToCollect(sc, s, frame, f);
    }
    hide ApplyFrame, FallbackStreamId, EnsureStarted, Collect;
  }

  /** In every stream, the text events put together are the text of the frames. */
  lemma TextIsEmittedWhole(sc: Scope, frames: seq<Frame>)
    requires ApplyFrames(sc, frames).Ok?
    ensures Collect(ApplyFrames(sc, frames).value.events, TextIn) == Collect(frames, FrameText)
  {
    assert FrameByFrame(sc, TextIn, FrameText) by {
      forall s, frame | ApplyFrame(sc, s, frame).Ok?
        ensures Collect(ApplyFrame(sc, s, frame).value.events, TextIn) == FrameText(frame)
      {
        FrameEmitsText(sc, s, frame);
      }
      hide ApplyFrame, Collect;
    }
    EventsFollowFrames(sc, frames, TextIn, FrameText);
  }

  /** In every stream and for each key, the streamed thoughts put together are the deltas of the frames about it. */
  lemma ThoughtsAreEmittedWhole(sc: Scope, frames: seq<Frame>, key: string)
    requires ApplyFrames(sc, frames).Ok?
    ensures Collect(ApplyFrames(sc, frames).value.events, e => ThoughtIn(e, key))
         == Collect(frames, frame => FrameThought(frame, key))
  {
    var f, g := (e: ModelStreamEvent) => ThoughtIn(e, key), (frame: Frame) => FrameThought(frame, key);
    assert FrameByFrame(sc, f, g) by {
      forall s, frame | ApplyFrame(sc, s, frame).Ok?
        ensures Collect(ApplyFrame(sc, s, frame).value.events, f) == g(frame)
      {
        FrameEmitsThought(sc, s, frame, key);
      }
      hide ApplyFrame, Collect;
    }
    EventsFollowFrames(sc, frames, f, g);
  }

  // ---------------------------------------------------------------------------------------------
  // How a stream starts and ends
  // ---------------------------------------------------------------------------------------------

  /** The terminal event that a frame stands for, if it ends the stream. */
  function EndOf(frame: Frame): Option<ModelStreamEvent> {
    match frame
    case DoneMarker => Some(Finished(Stop))
    case ResponseCompleted(_) => Some(Finished(Stop))
    case ResponseIncomplete(reason, _) =>
      Some(Finished(if reason in {Some("max_output_tokens"), Some("max_tokens")} then Length else Error))
    case ResponseFailed(Some(error), _, _) => Some(FailedEvent(error))
    case ResponseFailed(None, Some(error), _) => Some(FailedEvent(error))
    case ResponseFailed(None, None, Some(message)) => Some(FailedEvent(message))
    case ResponseFailed(None, None, None) => Some(FailedEvent("responses api stream error"))
    case _ => None
  }

  /** In an open stream without a stop reason, a frame that stands for an end emits it last, and no other ends it. */
  lemma FrameEnds(sc: Scope, s: StreamState, frame: Frame)
    requires !s.finished && !s.done && s.stopReason.None? && ApplyFrame(sc, s, frame).Ok?
    ensures var step := ApplyFrame(sc, s, frame).value;
            && (step.state.done <==> EndOf(frame).Some?)
            && (step.state.done ==>
                 step.events != [] && step.events[|step.events| - 1] == EndOf(frame).value)
            && (!step.state.done ==> !step.state.finished && step.state.stopReason.None?)
  {
    hide FallbackStreamId, Complete;
    if frame.ResponseCompleted? {
      var middle := CompleteShape(sc, s, frame.output);
    } else if frame.ResponseIncomplete? {
      var middle := CompleteShape(sc, s.(stopReason := Some(IncompleteReason(frame.reason))), frame.output);
    } else if IsDelta(frame) {
      var tail := DeltaShape(sc, s, frame);
      hide ApplyFrame;
    }
  }

  /** No frame of the list stands for an end. */
  predicate NoEnd(frames: seq<Frame>) {
    forall i :: 0 <= i < |frames| ==> EndOf(frames[i]).None?
  }

  lemma {:induction false} OpenUntilEnd(sc: Scope, frames: seq<Frame>)
    requires ApplyFrames(sc, frames).Ok? && NoEnd(frames)
    ensures var s := ApplyFrames(sc, frames).value.state;
            !s.done && !s.finished && s.stopReason.None?
  {
    if frames != [] {
      var before := frames[..|frames| - 1];
      OpenUntilEnd(sc, before);
      FrameEnds(sc, ApplyFrames(sc, before).value.state, frames[|frames| - 1]);
      hide ApplyFrame, EndOf;
    }
  }

  /**
   A stream is fed until it is done exactly when it is read up to the first frame that stands for an end, and
   then its last event is that end.
   */
  lemma StreamEndsAs(sc: Scope, frames: seq<Frame>)
    requires ApplyFrames(sc, frames).Ok? && frames != [] && NoEnd(frames[..|frames| - 1])
    ensures var last := frames[|frames| - 1];
            var fed := ApplyFrames(sc, frames).value;
            var events := fed.events + FinishEvents(sc, fed.state).events;
            && (FedUntilDone(sc, frames) <==> EndOf(last).Some?)
            && (EndOf(last).Some? ==> events != [] && events[|events| - 1] == EndOf(last).value)
  {
    var before, last := frames[..|frames| - 1], frames[|frames| - 1];
    OpenUntilEnd(sc, before);
    var b := ApplyFrames(sc, before).value;
    FrameEnds(sc, b.state, last);
    forall n | 0 <= n < |frames| && ApplyFrames(sc, frames[..n]).Ok?
      ensures !ApplyFrames(sc, frames[..n]).value.state.done
    {
      assert NoEnd(frames[..n]) by {
        assert forall i :: 0 <= i < n ==> frames[..n][i] == before[i];
      }
      OpenUntilEnd(sc, frames[..n]);
    }
    if EndOf(last).Some? {
      FrameEndsWell(sc, b.state, last);
    }
    hide ApplyFrame, EndOf, FallbackStreamId;
  }

  /** The stream id of a created response. */
  function CreatedId(sc: Scope, frame: Frame): seq<string> {
    match frame
    case Created(Some(id)) => [id]
    case Created(None) => ["responses-api-" + sc.runId + "-" + Numeral(sc.turnId, 10)]
    case _ => []
  }

  lemma CompleteStarts(sc: Scope, s: StreamState, output: Option<seq<Item>>)
    requires Complete(sc, s, output).Ok?
    ensures Complete(sc, s, output).value.state.started
    ensures Collect(Complete(sc, s, output).value.events, StartIn) == if s.started then [] else [FallbackStreamId(sc)]
  {
    hide FallbackStreamId, Complete, EnsureStarted, Collect, IsItemEvent;
    var middle := CompleteShape(sc, s, output);
    var end := if s.finished then [] else [Finished(s.stopReason.GetOr(Stop))];
    assert EnsureStarted(sc, s).events + middle + end == EnsureStarted(sc, s).events + (middle + end);
    assert forall i :: 0 <= i < |middle + end| ==> !(middle + end)[i].Started? by {
      assert forall i :: 0 <= i < |middle| ==> IsItemEvent(middle[i]) ==> !middle[i].Started? by {
        ItemsAreNoStarts(middle);
      }
    }
    StartAndTail(sc, s, middle + end);
  }

  lemma ItemsAreNoStarts(events: seq<ModelStreamEvent>)
    ensures forall i :: 0 <= i < |events| && IsItemEvent(events[i]) ==> !events[i].Started?
  {
  }

  lemma StartAndTail(sc: Scope, s: StreamState, tail: seq<ModelStreamEvent>)
    requires forall i :: 0 <= i < |tail| ==> !tail[i].Started?
    ensures Collect(EnsureStarted(sc, s).events + tail, StartIn) == if s.started then [] else [FallbackStreamId(sc)]
  {
    hide FallbackStreamId;
    CollectNothing(tail, StartIn);
    CollectOfTwo(EnsureStarted(sc, s).events, tail, StartIn);
    CollectFromOne(Started(FallbackStreamId(sc)), StartIn);
    assert Collect([], StartIn) == [];
  }

  /** A created frame starts the stream anew; any other starts it at most once, when it was not started. */
  lemma FrameStarts(sc: Scope, s: StreamState, frame: Frame)
    requires ApplyFrame(sc, s, frame).Ok?
    ensures var step := ApplyFrame(sc, s, frame).value;
            && (s.started ==> step.state.started)
            && (frame.Created? ==> step.state.started)
            && Collect(step.events, StartIn)
               == if frame.Created? then CreatedId(sc, frame)
                  else if !s.started && step.state.started then [FallbackStreamId(sc)]
                  else []
  {
    hide FallbackStreamId, Complete, FinishEvents;
    if frame.ResponseCompleted? {
      CompleteStarts(sc, s, frame.output);
    } else if frame.ResponseIncomplete? {
      CompleteStarts(sc, s.(stopReason := Some(IncompleteReason(frame.reason))), frame.output);
    } else if frame.Created? {
      CreatedStarts(sc, s, frame);
    } else if IsDelta(frame) {
      var tail := DeltaShape(sc, s, frame);
      StartAndTail(sc, s, tail);
      hide ApplyFrame;
    } else if frame.DoneMarker? {
      DoneMarkerStarts(sc, s);
    } else {
      CollectNothing(ApplyFrame(sc, s, frame).value.events, StartIn);
    }
  }

  lemma CreatedStarts(sc: Scope, s: StreamState, frame: Frame)
    requires frame.Created?
    ensures ApplyFrame(sc, s, frame).Ok? && ApplyFrame(sc, s, frame).value.state.started
    ensures Collect(ApplyFrame(sc, s, frame).value.events, StartIn) == CreatedId(sc, frame)
  {
    CollectFromOne(Started(frame.responseId.GetOr(FallbackStreamId(sc))), StartIn);
  }

  lemma DoneMarkerStarts(sc: Scope, s: StreamState)
    ensures var step := FinishEvents(sc, s.(done := true));
            && (s.started ==> step.state.started)
            && Collect(step.events, StartIn) == if !s.started && step.state.started then [FallbackStreamId(sc)] else []
  {
    hide FallbackStreamId;
    if s.finished {
      assert Collect([], StartIn) == [];
    } else {
      StartAndTail(sc, s, [Finished(s.stopReason.GetOr(Stop))]);
    }
  }

  /**
   The starts of a stream: one for each created frame, with its id or the one made of run and turn, after one made
   of run and turn when something was emitted before the first of them.
   */
  lemma {:induction false} StartsAre(sc: Scope, frames: seq<Frame>)
    requires ApplyFrames(sc, frames).Ok?
    ensures var starts := Collect(ApplyFrames(sc, frames).value.events, StartIn);
            var created := Collect(frames, frame => CreatedId(sc, frame));
            && (ApplyFrames(sc, frames).value.state.started <==> starts != [])
            && (starts == created || starts == [FallbackStreamId(sc)] + created)
            && (frames != [] && frames[0].Created? ==> starts == created != [])
  {
    var f := (frame: Frame) => CreatedId(sc, frame);
    hide ApplyFrame, FallbackStreamId, CreatedId;
    if frames != [] {
      var before, last := frames[..|frames| - 1], frames[|frames| - 1];
      StartsAre(sc, before);
      var b := ApplyFrames(sc, before).value;
      FrameStarts(sc, b.state, last);
      CollectOfTwo(b.events, ApplyFrame(sc, b.state, last).value.events, StartIn);
      hide ApplyFrames;
      OneCreated(sc, last);
      StartsOneMore(Collect(b.events, StartIn), Collect(before, f), f(last), FallbackStreamId(sc));
    }
  }

  lemma OneCreated(sc: Scope, frame: Frame)
    ensures if frame.Created? then |CreatedId(sc, frame)| == 1 else CreatedId(sc, frame) == []
  {
  }

  lemma StartsOneMore(starts: seq<string>, created: seq<string>, more: seq<string>, fallback: string)
    requires starts == created || starts == [fallback] + created
    ensures starts + more == created + more || starts + more == [fallback] + (created + more)
    ensures starts == [] ==> created == [] && starts + [fallback] == [fallback] + (created + [])
  {
    assert [fallback] + (created + more) == ([fallback] + created) + more;
  }

  lemma FallbackIs(sc: Scope)
    ensures [FallbackStreamId(sc)] == CreatedId(sc, Created(None))
  {
  }

  // ---------------------------------------------------------------------------------------------
  // Snapshots of streamed reasoning
  // ---------------------------------------------------------------------------------------------

  lemma ReasoningKeyIs(itemId: Option<string>, outputIndex: Option<nat>)
    ensures forall key :: ReasoningKey(itemId, outputIndex) == key <==> IsAbout(itemId, outputIndex, key)
  {
  }

  /** The frame adds to the reasoning with this key. */
  predicate AddsThought(frame: Frame, key: string) {
    frame.ReasoningDelta? && IsAbout(frame.itemId, frame.outputIndex, key) && frame.delta.Some? && frame.delta.value != ""
  }

  /** The frame gives the whole text of the reasoning with this key. */
  predicate GivesThought(frame: Frame, key: string) {
    frame.ReasoningDone? && IsAbout(frame.itemId, frame.outputIndex, key) && frame.text.Some?
  }

  /** The text of the reasoning so far: the last one given as a whole, if any, and the deltas since. */
  function TextSoFar(frames: seq<Frame>, key: string): Option<string> {
    if frames == [] then None
    else
      var before, last := TextSoFar(frames[..|frames| - 1], key), frames[|frames| - 1];
      if GivesThought(last, key) then last.text
      else if AddsThought(last, key) then Some(before.GetOr("") + last.delta.value)
      else before
  }

  /** The kind of the last delta. */
  function KindSoFar(frames: seq<Frame>, key: string): ThinkingKind {
    if frames == [] then Raw
    else if AddsThought(frames[|frames| - 1], key) then frames[|frames| - 1].thinking
    else KindSoFar(frames[..|frames| - 1], key)
  }

  function StateOf(frames: seq<Frame>, key: string): Option<ReasoningState> {
    match TextSoFar(frames, key)
    case None => None
    case Some(text) => Some(ReasoningState(KindSoFar(frames, key), text))
  }

  function ReasoningAt(s: StreamState, key: string): Option<ReasoningState> {
    if key in s.reasoning then Some(s.reasoning[key]) else None
  }

  lemma OtherFrameKeepsReasoning(sc: Scope, s: StreamState, frame: Frame)
    requires ApplyFrame(sc, s, frame).Ok? && !frame.ReasoningDelta? && !frame.ReasoningDone?
    ensures ApplyFrame(sc, s, frame).value.state.reasoning == s.reasoning
  {
    hide FallbackStreamId, Complete;
    if frame.ResponseCompleted? {
      var middle := CompleteShape(sc, s, frame.output);
    } else if frame.ResponseIncomplete? {
      var middle := CompleteShape(sc, s.(stopReason := Some(IncompleteReason(frame.reason))), frame.output);
    } else if IsDelta(frame) {
      var tail := DeltaShape(sc, s, frame);
      hide ApplyFrame;
    }
  }

  /** What a frame does to the reasoning with a key. */
  lemma FrameOnReasoning(sc: Scope, s: StreamState, frame: Frame, key: string)
    requires ApplyFrame(sc, s, frame).Ok?
    ensures var before, after := ReasoningAt(s, key), ReasoningAt(ApplyFrame(sc, s, frame).value.state, key);
            after ==
            if GivesThought(frame, key) then Some(before.GetOr(NO_REASONING).(text := frame.text.value))
            else if AddsThought(frame, key) then
              Some(ReasoningState(frame.thinking, before.GetOr(NO_REASONING).text + frame.delta.value))
            else before
  {
    hide FallbackStreamId, ReasoningKey, IsAbout, TextSnapshot, EnsureStarted;
    hide ApplyFrame;
    if frame.ReasoningDelta? {
      DeltaFrameOnReasoning(sc, s, frame, key);
    } else if frame.ReasoningDone? {
      DoneFrameOnReasoning(sc, s, frame, key);
    } else {
      OtherFrameKeepsReasoning(sc, s, frame);
    }
  }

  lemma DeltaFrameOnReasoning(sc: Scope, s: StreamState, frame: Frame, key: string)
    requires frame.ReasoningDelta?
    ensures ApplyFrame(sc, s, frame).Ok?
    ensures ReasoningAt(ApplyFrame(sc, s, frame).value.state, key)
         == if AddsThought(frame, key) then
              Some(ReasoningState(frame.thinking, ReasoningAt(s, key).GetOr(NO_REASONING).text + frame.delta.value))
            else ReasoningAt(s, key)
  {
    hide ReasoningKey, IsAbout, FallbackStreamId;
    ReasoningKeyIs(frame.itemId, frame.outputIndex);
  }

  lemma DoneFrameOnReasoning(sc: Scope, s: StreamState, frame: Frame, key: string)
    requires frame.ReasoningDone?
    ensures ApplyFrame(sc, s, frame).Ok?
    ensures ReasoningAt(ApplyFrame(sc, s, frame).value.state, key)
         == if GivesThought(frame, key) then Some(ReasoningAt(s, key).GetOr(NO_REASONING).(text := frame.text.value))
            else ReasoningAt(s, key)
  {
    hide ReasoningKey, IsAbout, TextSnapshot, FallbackStreamId;
    ReasoningKeyIs(frame.itemId, frame.outputIndex);
  }

  lemma {:induction false} StateHoldsReasoning(sc: Scope, frames: seq<Frame>, key: string)
    requires ApplyFrames(sc, frames).Ok?
    ensures ReasoningAt(ApplyFrames(sc, frames).value.state, key) == StateOf(frames, key)
    ensures TextSoFar(frames, key).None? ==> KindSoFar(frames, key) == Raw
  {
    if frames != [] {
      var before, last := frames[..|frames| - 1], frames[|frames| - 1];
      StateHoldsReasoning(sc, before, key);
      FrameOnReasoning(sc, ApplyFrames(sc, before).value.state, last, key);
      hide ApplyFrame, ReasoningAt, IsAbout;
    }
  }

  /** A snapshot of streamed reasoning. */
  function SnapshotIn(e: ModelStreamEvent): seq<ModelStreamEvent> {
    if e.ThinkingDelta? && e.snapshot.Some? && !e.snapshot.value.WholeItem? then [e] else []
  }

  /** The snapshot that the last frame asks for: of the reasoning it is about, if anything is known of that. */
  function LastSnapshot(frames: seq<Frame>): seq<ModelStreamEvent>
    requires frames != []
  {
    var last := frames[|frames| - 1];
    if !last.ReasoningDone? then []
    else
      var key := ReasoningKey(last.itemId, last.outputIndex);
      match StateOf(frames, key)
      case None => []
      case Some(ReasoningState(kind, text)) =>
        [ThinkingDelta(kind, None, Some(if kind == Summary then SummaryText(key, text) else ReasoningText(key, text)),
                       Some(key), false)]
  }

  function Snapshots(frames: seq<Frame>): seq<ModelStreamEvent> {
    if frames == [] then [] else Snapshots(frames[..|frames| - 1]) + LastSnapshot(frames)
  }

  lemma DoneFrameEvents(sc: Scope, s: StreamState, frame: Frame)
    requires frame.ReasoningDone?
    ensures ApplyFrame(sc, s, frame).Ok?
    ensures var key := ReasoningKey(frame.itemId, frame.outputIndex);
            var r := ReasoningAt(ApplyFrame(sc, s, frame).value.state, key);
            ApplyFrame(sc, s, frame).value.events ==
            if r.None? then []
            else EnsureStarted(sc, s).events
                 + [ThinkingDelta(r.value.kind, None, Some(TextSnapshot(key, r.value)), Some(key), false)]
  {
    hide FallbackStreamId, ReasoningKey, TextSnapshot;
  }

  lemma FrameEmitsSnapshot(sc: Scope, before: seq<Frame>, last: Frame)
    requires ApplyFrames(sc, before).Ok? && ApplyFrame(sc, ApplyFrames(sc, before).value.state, last).Ok?
    requires ApplyFrames(sc, before + [last]).Ok?
    requires ApplyFrames(sc, before + [last]).value.state
          == ApplyFrame(sc, ApplyFrames(sc, before).value.state, last).value.state
    ensures Collect(ApplyFrame(sc, ApplyFrames(sc, before).value.state, last).value.events, SnapshotIn)
         == LastSnapshot(before + [last])
  {
    var s := ApplyFrames(sc, before).value.state;
    hide ApplyFrame, ApplyFrames, ReasoningKey, FallbackStreamId, EnsureStarted, TextSoFar, KindSoFar, StateOf;
    if last.ReasoningDone? {
      var key := ReasoningKey(last.itemId, last.outputIndex);
      StateHoldsReasoning(sc, before + [last], key);
      DoneFrameEvents(sc, s, last);
      var r := StateOf(before + [last], key);
      if r.Some? {
        StartAnd(sc, s, ThinkingDelta(r.value.kind, None, Some(TextSnapshot(key, r.value)), Some(key), false), SnapshotIn);
      } else {
        assert Collect([], SnapshotIn) == [];
      }
    } else {
      NothingToCollect(sc, s, last, SnapshotIn);
    }
  }

  /**
   In every stream, snapshots come exactly with the frames that end a reasoning of which something is known, and
   have its text: the last one given as a whole and the deltas since.
   */
  lemma {:induction false} SnapshotsAreTextSoFar(sc: Scope, frames: seq<Frame>)
    requires ApplyFrames(sc, frames).Ok?
    ensures Collect(ApplyFrames(sc, frames).value.events, SnapshotIn) == Snapshots(frames)
  {
    hide ApplyFrame, LastSnapshot, SnapshotIn;
    if frames != [] {
      var before, last := frames[..|frames| - 1], frames[|frames| - 1];
      SnapshotsAreTextSoFar(sc, before);
      var b := ApplyFrames(sc, before).value;
      assert before + [last] == frames;
      FrameEmitsSnapshot(sc, before, last);
      hide Collect;
      CollectOfTwo(b.events, ApplyFrame(sc, b.state, last).value.events, SnapshotIn);
    }
  }

  // ---------------------------------------------------------------------------------------------
  // Whole reasoning items
  // ---------------------------------------------------------------------------------------------

  /** An item is told by its id, or else by its JSON text. */
  function Identity(item: Item): string {
    match item.id
    case Some(id) => id
    case None => item.json
  }

  function ReasoningItems(items: seq<Item>): seq<Item> {
    Collect(items, (item: Item) => if item.kind == Reasoning then [item] else [])
  }

  /** The reasoning items in a frame. */
  function ItemsIn(frame: Frame): seq<Item> {
    match frame
    case OutputItemDone(Some(item), _, _) => if item.kind == Reasoning then [item] else []
    case ResponseCompleted(output) => ReasoningItems(output.GetOr([]))
    case ResponseIncomplete(_, output) => ReasoningItems(output.GetOr([]))
    case _ => []
  }

  function Identities(items: seq<Item>): set<string> {
    set item | item in items :: Identity(item)
  }

  /** The items that are the first ones with their identity. */
  function FirstOnes(items: seq<Item>): seq<Item> {
    if items == [] then []
    else
      var before, last := items[..|items| - 1], items[|items| - 1];
      FirstOnes(before) + if Identity(last) in Identities(before) then [] else [last]
  }

  /** An item as it came: encrypted, a summary or raw; what can be sent back depends on who keeps the state. */
  function ItemEvent(sc: Scope, item: Item): ModelStreamEvent {
    var kind := if item.hasEncryptedContent then Encrypted else if item.hasSummary then Summary else Raw;
    var needed := if sc.stateless then item.encryptedContent else item.id;
    ThinkingDelta(kind, None, Some(WholeItem(item.json)), item.id, needed.GetOr("") != "")
  }

  function ItemEvents(sc: Scope, items: seq<Item>): (events: seq<ModelStreamEvent>)
    ensures |events| == |items| && forall i :: 0 <= i < |items| ==> events[i] == ItemEvent(sc, items[i])
  {
    seq(|items|, i requires 0 <= i < |items| => ItemEvent(sc, items[i]))
  }

  function WholeIn(e: ModelStreamEvent): seq<ModelStreamEvent> {
    if e.ThinkingDelta? && e.snapshot.Some? && e.snapshot.value.WholeItem? then [e] else []
  }

  /** A step in which the reasoning items `more` arrive after `items`. */
  ghost predicate ItemsArrive(sc: Scope, s: StreamState, items: seq<Item>, more: seq<Item>, step: Step) {
    && step.state.emittedReasoningItems == Identities(items + more)
    && ItemEvents(sc, FirstOnes(items + more)) == ItemEvents(sc, FirstOnes(items)) + Collect(step.events, WholeIn)
  }

  lemma NothingArrives(sc: Scope, s: StreamState, items: seq<Item>, step: Step)
    requires s.emittedReasoningItems == Identities(items)
    requires step.state.emittedReasoningItems == s.emittedReasoningItems
    requires forall i :: 0 <= i < |step.events| ==> WholeIn(step.events[i]) == []
    ensures ItemsArrive(sc, s, items, [], step)
  {
    CollectNothing(step.events, WholeIn);
    assert items + [] == items;
  }

  lemma ArriveTogether(
      sc: Scope, s: StreamState, items: seq<Item>, some: seq<Item>, rest: seq<Item>, first: Step, second: Step)
    requires ItemsArrive(sc, s, items, some, first) && ItemsArrive(sc, first.state, items + some, rest, second)
    ensures ItemsArrive(sc, s, items, some + rest, second.After(first.events))
  {
    hide Identities, FirstOnes, ItemEvents, Collect, WholeIn;
    CollectOfTwo(first.events, second.events, WholeIn);
    assert items + (some + rest) == (items + some) + rest;
    Chained(ItemEvents(sc, FirstOnes(items)), Collect(first.events, WholeIn), Collect(second.events, WholeIn));
  }

  lemma FirstOnesOneMore(sc: Scope, items: seq<Item>, item: Item)
    ensures Identities(items + [item]) == Identities(items) + {Identity(item)}
    ensures ItemEvents(sc, FirstOnes(items + [item]))
         == ItemEvents(sc, FirstOnes(items)) + if Identity(item) in Identities(items) then [] else [ItemEvent(sc, item)]
  {
    var all := items + [item];
    assert all[..|items|] == items && all[|items|] == item;
    assert forall i :: i in all <==> i in items || i == item;
    hide Identity, ItemEvent;
  }

  lemma OneItemArrives(sc: Scope, s: StreamState, items: seq<Item>, item: Item)
    requires s.emittedReasoningItems == Identities(items)
    ensures ItemsArrive(sc, s, items, [item], EmitReasoningItem(sc, s, item))
  {
    hide *;
    ItemIsEmitted(sc, s, item);
    FirstOnesOneMore(sc, items, item);
    OneItemStep(sc, s, items, item, EmitReasoningItem(sc, s, item));
  }

  lemma ItemIsEmitted(sc: Scope, s: StreamState, item: Item)
    ensures EmitReasoningItem(sc, s, item) ==
            if Identity(item) in s.emittedReasoningItems then Step(s, [])
            else Step(s.(emittedReasoningItems := s.emittedReasoningItems + {Identity(item)}), [ItemEvent(sc, item)])
  {
  }

  lemma OneItemStep(sc: Scope, s: StreamState, items: seq<Item>, item: Item, step: Step)
    requires s.emittedReasoningItems == Identities(items)
    requires step == if Identity(item) in s.emittedReasoningItems then Step(s, [])
                     else Step(s.(emittedReasoningItems := s.emittedReasoningItems + {Identity(item)}),
                               [ItemEvent(sc, item)])
    requires Identities(items + [item]) == Identities(items) + {Identity(item)}
    requires ItemEvents(sc, FirstOnes(items + [item]))
          == ItemEvents(sc, FirstOnes(items)) + if Identity(item) in Identities(items) then [] else [ItemEvent(sc, item)]
    ensures ItemsArrive(sc, s, items, [item], step)
  {
    hide Identity, Identities, FirstOnes, ItemEvents;
    CollectFromOne(ItemEvent(sc, item), WholeIn);
    assert Collect([], WholeIn) == [];
    hide Collect;
  }

  lemma CallsAreNoItems(sc: Scope, s: StreamState, key: string)
    requires EmitToolCall(sc, s, key).Ok?
    ensures var step := EmitToolCall(sc, s, key).value;
            && step.state.emittedReasoningItems == s.emittedReasoningItems
            && forall i :: 0 <= i < |step.events| ==> WholeIn(step.events[i]) == []
  {
    hide FallbackStreamId;
  }

  lemma OneOutputArrives(sc: Scope, s: StreamState, items: seq<Item>, item: Item)
    requires s.emittedReasoningItems == Identities(items) && OutputItem(sc, s, item).Ok?
    ensures ItemsArrive(sc, s, items, if item.kind == Reasoning then [item] else [], OutputItem(sc, s, item).value)
  {
    match item.kind
    case Reasoning => OneItemArrives(sc, s, items, item);
    case FunctionCall =>
      if ItemKey(item) !in s.emittedToolCalls {
        CallsAreNoItems(sc, AbsorbItem(s, item, None), ItemKey(item));
      }
      hide EmitToolCall;
      NothingArrives(sc, s, items, OutputItem(sc, s, item).value);
    case OtherItem => NothingArrives(sc, s, items, OutputItem(sc, s, item).value);
  }

  lemma ReasoningOfMore(item: Item, rest: seq<Item>)
    ensures ReasoningItems([item] + rest) == (if item.kind == Reasoning then [item] else []) + ReasoningItems(rest)
  {
    var f := (item: Item) => if item.kind == Reasoning then [item] else [];
    CollectOfTwo([item], rest, f);
    CollectFromOne(item, f);
  }

  lemma {:induction false} OutputArrives(sc: Scope, s: StreamState, items: seq<Item>, output: seq<Item>)
    requires s.emittedReasoningItems == Identities(items) && OutputItems(sc, s, output).Ok?
    ensures ItemsArrive(sc, s, items, ReasoningItems(output), OutputItems(sc, s, output).value)
    decreases |output|
  {
    if output == [] {
      NothingArrives(sc, s, items, Step(s, []));
    } else {
      var first := OutputItem(sc, s, output[0]).value;
      var some := if output[0].kind == Reasoning then [output[0]] else [];
      OneOutputArrives(sc, s, items, output[0]);
      assert first.state.emittedReasoningItems == Identities(items + some);
      hide OutputItem, ReasoningItems;
      OutputArrives(sc, first.state, items + some, output[1..]);
      ReasoningOfMore(output[0], output[1..]);
      assert [output[0]] + output[1..] == output;
      hide ItemsArrive;
      ArriveTogether(sc, s, items, some, ReasoningItems(output[1..]), first,
                     OutputItems(sc, first.state, output[1..]).value);
    }
  }

  lemma CompleteArrives(sc: Scope, s: StreamState, items: seq<Item>, output: Option<seq<Item>>)
    requires s.emittedReasoningItems == Identities(items) && Complete(sc, s, output).Ok?
    ensures ItemsArrive(sc, s, items, ReasoningItems(output.GetOr([])), Complete(sc, s, output).value)
  {
    var start := EnsureStarted(sc, s);
    var told := OutputItems(sc, start.state, output.GetOr([])).value;
    var more := ReasoningItems(output.GetOr([]));
    var done := told.state.(done := true);
    StartArrives(sc, s, items);
    hide Identities, FirstOnes, ItemEvents, Collect, WholeIn, OutputItems, ReasoningItems, FallbackStreamId;
    OutputArrives(sc, start.state, items, output.GetOr([]));
    FinishArrives(sc, done, items + more);
    hide EnsureStarted, FinishEvents;
    assert items + [] == items && [] + more == more && more + [] == more;
    ArriveTogether(sc, s, items, [], more, start, told);
    assert (told.After(start.events)).state == told.state;
    ArriveTogether(sc, s, items, more, [], told.After(start.events), FinishEvents(sc, done));
  }

  lemma StartArrives(sc: Scope, s: StreamState, items: seq<Item>)
    requires s.emittedReasoningItems == Identities(items)
    ensures ItemsArrive(sc, s, items, [], EnsureStarted(sc, s))
    ensures EnsureStarted(sc, s).state.emittedReasoningItems == s.emittedReasoningItems
  {
    hide FallbackStreamId, Identities;
    NothingArrives(sc, s, items, EnsureStarted(sc, s));
  }

  lemma FinishArrives(sc: Scope, s: StreamState, items: seq<Item>)
    requires s.emittedReasoningItems == Identities(items)
    ensures ItemsArrive(sc, s, items, [], FinishEvents(sc, s))
  {
    hide FallbackStreamId, Identities;
    NothingArrives(sc, s, items, FinishEvents(sc, s));
  }

  lemma OtherFrameArrives(sc: Scope, s: StreamState, items: seq<Item>, frame: Frame)
    requires s.emittedReasoningItems == Identities(items) && ApplyFrame(sc, s, frame).Ok?
    requires !frame.ResponseCompleted? && !frame.ResponseIncomplete? && ItemsIn(frame) == []
    ensures ItemsArrive(sc, s, items, [], ApplyFrame(sc, s, frame).value)
  {
    hide FallbackStreamId, Identities;
    if IsDelta(frame) {
      var tail := DeltaShape(sc, s, frame);
      hide ApplyFrame;
    }
    NothingArrives(sc, s, items, ApplyFrame(sc, s, frame).value);
  }

  lemma FrameArrives(sc: Scope, s: StreamState, items: seq<Item>, frame: Frame)
    requires s.emittedReasoningItems == Identities(items) && ApplyFrame(sc, s, frame).Ok?
    ensures ItemsArrive(sc, s, items, ItemsIn(frame), ApplyFrame(sc, s, frame).value)
  {
    hide Complete, FallbackStreamId, Identities, FirstOnes, ItemEvents, Collect, WholeIn;
    if frame.ResponseCompleted? {
      CompleteArrives(sc, s, items, frame.output);
    } else if frame.ResponseIncomplete? {
      CompleteArrives(sc, s.(stopReason := Some(IncompleteReason(frame.reason))), items, frame.output);
    } else if frame.OutputItemDone? && ItemsIn(frame) != [] {
      ItemDoneArrives(sc, s, items, frame.item.value);
      hide ItemsArrive;
    } else {
      OtherFrameArrives(sc, s, items, frame);
    }
  }

  lemma ItemDoneArrives(sc: Scope, s: StreamState, items: seq<Item>, item: Item)
    requires s.emittedReasoningItems == Identities(items)
    ensures var start := EnsureStarted(sc, s);
            ItemsArrive(sc, s, items, [item], EmitReasoningItem(sc, start.state, item).After(start.events))
  {
    var start := EnsureStarted(sc, s);
    StartArrives(sc, s, items);
    assert items + [] == items && [] + [item] == [item];
    OneItemArrives(sc, start.state, items, item);
    hide ItemsArrive, EmitReasoningItem, FallbackStreamId;
    ArriveTogether(sc, s, items, [], [item], start, EmitReasoningItem(sc, start.state, item));
  }

  /**
   In every stream, the reasoning items that arrive as a whole, alone or in the output of the response, are emitted
   once each, where an item with their identity comes first, and as they came.
   */
  lemma {:induction false} ItemsAreEmittedOnce(sc: Scope, frames: seq<Frame>)
    requires ApplyFrames(sc, frames).Ok?
    ensures Collect(ApplyFrames(sc, frames).value.events, WholeIn) == ItemEvents(sc, FirstOnes(Collect(frames, ItemsIn)))
    ensures ApplyFrames(sc, frames).value.state.emittedReasoningItems == Identities(Collect(frames, ItemsIn))
  {
    hide ApplyFrame, ItemsIn, WholeIn;
    if frames != [] {
      var before, last := frames[..|frames| - 1], frames[|frames| - 1];
      ItemsAreEmittedOnce(sc, before);
      var b := ApplyFrames(sc, before).value;
      FrameArrives(sc, b.state, Collect(before, ItemsIn), last);
      hide Identities, FirstOnes, ItemEvents;
      CollectOfTwo(b.events, ApplyFrame(sc, b.state, last).value.events, WholeIn);
    }
  }
}
