/**
 What an Anthropic stream emits besides its tool calls: its text, its thinking, its start and its end, told by
 the frames.
 */
module AnthropicOutput {
  import opened Wrappers
  import opened Text
  import opened ModelEvents
  import opened Anthropic

  // ---------------------------------------------------------------------------------------------
  // Text, streamed thinking and starts
  // ---------------------------------------------------------------------------------------------

  function FrameText(frame: Frame): string {
    match frame
    case BlockPiece(Some(_), Some(TextPiece(Some(text)))) => text
    case _ => ""
  }

  function FrameThought(frame: Frame, index: nat): string {
    match frame
    case BlockPiece(Some(i), Some(ThinkingPiece(Some(text)))) => if i == index then text else ""
    case _ => ""
  }

  /** The stream id of a message that starts. */
  function StartedId(sc: Scope, frame: Frame): seq<string> {
    match frame
    case MessageStart(Some(id)) => [id]
    case MessageStart(None) => ["anthropic-messages-" + sc.runId + "-" + Numeral(sc.turnId, 10)]
    case _ => []
  }

  /** What the events say in `f` is what the frames say in `g`, frame by frame. */
  ghost predicate FrameByFrame<T(!new)>(sc: Scope, f: ModelStreamEvent -> seq<T>, g: Frame -> seq<T>) {
    forall s, frame :: ApplyFrame(sc, s, frame).Ok? ==> Collect(ApplyFrame(sc, s, frame).value.events, f) == g(frame)
  }

  lemma {:induction false} EventsFollowFrames<T(!new)>(
      sc: Scope, frames: seq<Frame>, f: ModelStreamEvent -> seq<T>, g: Frame -> seq<T>)
    requires FrameByFrame(sc, f, g) && ApplyFrames(sc, frames).Ok?
    ensures Collect(ApplyFrames(sc, frames).value.events, f) == Collect(frames, g)
  {
    hide ApplyFrame;
    if frames != [] {
      var before, last := frames[..|frames| - 1], frames[|frames| - 1];
      EventsFollowFrames(sc, before, f, g);
      var b := ApplyFrames(sc, before).value;
      CollectOfTwo(b.events, ApplyFrame(sc, b.state, last).value.events, f);
    }
  }

  /** A frame emits one event or none. */
  lemma FrameEvents(sc: Scope, s: StreamState, frame: Frame)
    requires ApplyFrame(sc, s, frame).Ok?
    ensures var events := ApplyFrame(sc, s, frame).value.events;
            && |events| <= 1
            && (events != [] ==>
                 match frame
                 case DoneMarker => events[0].Finished?
                 case MessageStop => events[0].Finished?
                 case ErrorFrame(_) => events[0].FailedEvent?
                 case MessageStart(_) => StartedId(sc, frame) == StartIn(events[0])
                 case BlockPiece(Some(i), Some(TextPiece(Some(text)))) => text != "" && events[0] == TextDelta(text)
                 case BlockPiece(Some(i), Some(ThinkingPiece(text))) =>
                   text.Some? && events[0] == ThinkingDelta(Raw, text, None, Some(Numeral(i, 10)), true)
                 case BlockPiece(Some(i), Some(SignaturePiece(_))) => events[0].ThinkingDelta? && events[0].textDelta.None?
                 case BlockStop(_) => events[0].ToolCallEvent? || (events[0].ThinkingDelta? && events[0].textDelta.None?)
                 case _ => false)
            && (events == [] ==>
                 FrameText(frame) == "" && StartedId(sc, frame) == [] && forall index :: FrameThought(frame, index) == "")
  {
    hide Numeral, MapStopReason, InitialArguments;
  }

  lemma FrameEmits(sc: Scope, s: StreamState, frame: Frame, index: nat)
    requires ApplyFrame(sc, s, frame).Ok?
    ensures var events := ApplyFrame(sc, s, frame).value.events;
            && Collect(events, TextIn) == FrameText(frame)
            && Collect(events, e => ThoughtIn(e, Numeral(index, 10))) == FrameThought(frame, index)
            && Collect(events, StartIn) == StartedId(sc, frame)
  {
    var events := ApplyFrame(sc, s, frame).value.events;
    FrameEvents(sc, s, frame);
    hide ApplyFrame, Numeral, Collect;
    CollectOneOrNone(events, TextIn);
    CollectOneOrNone(events, e => ThoughtIn(e, Numeral(index, 10)));
    CollectOneOrNone(events, StartIn);
    if frame.BlockPiece? && frame.index.Some? && Numeral(frame.index.value, 10) == Numeral(index, 10) {
      NumeralInjective(frame.index.value, index, 10);
    }
  }

  /**
   In every stream, the text events put together are the text of the frames, the streamed thoughts of each block are
   the pieces of that block, and there is a start for each message that starts.
   */
  lemma StreamIsEmittedWhole(sc: Scope, frames: seq<Frame>, index: nat)
    requires ApplyFrames(sc, frames).Ok?
    ensures var events := ApplyFrames(sc, frames).value.events;
            && Collect(events, TextIn) == Collect(frames, FrameText)
            && Collect(events, e => ThoughtIn(e, Numeral(index, 10))) == Collect(frames, frame => FrameThought(frame, index))
            && Collect(events, StartIn) == Collect(frames, frame => StartedId(sc, frame))
  {
    var f, g := (e: ModelStreamEvent) => ThoughtIn(e, Numeral(index, 10)), (frame: Frame) => FrameThought(frame, index);
    var ids := (frame: Frame) => StartedId(sc, frame);
    forall s, frame | ApplyFrame(sc, s, frame).Ok?
      ensures Collect(ApplyFrame(sc, s, frame).value.events, TextIn) == FrameText(frame)
      ensures Collect(ApplyFrame(sc, s, frame).value.events, f) == g(frame)
      ensures Collect(ApplyFrame(sc, s, frame).value.events, StartIn) == ids(frame)
    {
      FrameEmits(sc, s, frame, index);
    }
    hide ApplyFrame, Collect, ApplyFrames;
    EventsFollowFrames(sc, frames, TextIn, FrameText);
    EventsFollowFrames(sc, frames, f, g);
    EventsFollowFrames(sc, frames, StartIn, ids);
  }

  // ---------------------------------------------------------------------------------------------
  // How a stream ends
  // ---------------------------------------------------------------------------------------------

  function StopFor(reason: string): StopReason {
    if reason in {"end_turn", "stop_sequence"} then Stop
    else if reason == "max_tokens" then Length
    else if reason == "tool_use" then StopReason.ToolUse
    else Error
  }

  /** The reason a frame gives for the end of the message. */
  function ReasonIn(frame: Frame): Option<StopReason> {
    match frame
    case MessageDelta(Some(reason)) => Some(StopFor(reason))
    case _ => None
  }

  /** The last reason given, if any. */
  function LastReason(frames: seq<Frame>): Option<StopReason> {
    if frames == [] then None
    else if ReasonIn(frames[|frames| - 1]).Some? then ReasonIn(frames[|frames| - 1])
    else LastReason(frames[..|frames| - 1])
  }

  predicate IsEnd(frame: Frame) {
    frame.DoneMarker? || frame.MessageStop? || frame.ErrorFrame?
  }

  predicate NoEnd(frames: seq<Frame>) {
    forall i :: 0 <= i < |frames| ==> !IsEnd(frames[i])
  }

  /** The terminal event for the frame that ends the stream, with the last reason before it. */
  function EndOf(frame: Frame, reason: Option<StopReason>): ModelStreamEvent
    requires IsEnd(frame)
  {
    match frame
    case ErrorFrame(message) => FailedEvent(message.GetOr("anthropic messages stream error"))
    case _ => Finished(reason.GetOr(Stop))
  }

  lemma FrameEnds(sc: Scope, s: StreamState, frame: Frame)
    requires !s.finished && !s.done && ApplyFrame(sc, s, frame).Ok?
    ensures var step := ApplyFrame(sc, s, frame).value;
            && (step.state.done <==> IsEnd(frame))
            && (IsEnd(frame) ==> step.state.finished && step.events == [EndOf(frame, s.stopReason)])
            && (!IsEnd(frame) ==> !step.state.finished)
            && step.state.stopReason == if ReasonIn(frame).Some? then ReasonIn(frame) else s.stopReason
  {
    hide Numeral, InitialArguments, CallEvent, ThinkingEvent;
  }

  lemma {:induction false} OpenUntilEnd(sc: Scope, frames: seq<Frame>)
    requires ApplyFrames(sc, frames).Ok? && NoEnd(frames)
    ensures var s := ApplyFrames(sc, frames).value.state;
            !s.done && !s.finished && s.stopReason == LastReason(frames)
  {
    hide ApplyFrame, IsEnd, ReasonIn;
    if frames != [] {
      var before := frames[..|frames| - 1];
      OpenUntilEnd(sc, before);
      FrameEnds(sc, ApplyFrames(sc, before).value.state, frames[|frames| - 1]);
    }
  }

  /**
   A stream is fed until it is done exactly when it is read up to the first end of the message or error, and then
   its one terminal event is that error, or the end with the last reason given.
   */
  lemma StreamEndsAs(sc: Scope, frames: seq<Frame>)
    requires ApplyFrames(sc, frames).Ok? && frames != [] && NoEnd(frames[..|frames| - 1])
    ensures var before, last := frames[..|frames| - 1], frames[|frames| - 1];
            var fed := ApplyFrames(sc, frames).value;
            var events := fed.events + Finish(fed.state).events;
            && (FedUntilDone(sc, frames) <==> IsEnd(last))
            && (IsEnd(last) ==> events != [] && events[|events| - 1] == EndOf(last, LastReason(before)))
  {
    var before, last := frames[..|frames| - 1], frames[|frames| - 1];
    hide ApplyFrame, IsEnd, LastReason, EndOf;
    OpenUntilEnd(sc, before);
    var b := ApplyFrames(sc, before).value;
    FrameEnds(sc, b.state, last);
    forall n | 0 <= n < |frames| && ApplyFrames(sc, frames[..n]).Ok?
      ensures !ApplyFrames(sc, frames[..n]).value.state.done
    {
      assert NoEnd(frames[..n]) by {
        assert forall i :: 0 <= i < n ==> frames[..n][i] == before[i];
      }
      OpenUntilEnd(sc, frames[..n]);
    }
  }

  // ---------------------------------------------------------------------------------------------
  // Thinking blocks
  // ---------------------------------------------------------------------------------------------

  predicate StartsThinking(frame: Frame, index: nat) {
    frame == BlockStart(Some(index), Some(ThinkingBlock))
  }

  predicate AddsThought(frame: Frame, index: nat) {
    frame.BlockPiece? && frame.index == Some(index) && frame.piece.Some?
    && frame.piece.value.ThinkingPiece? && frame.piece.value.thinking.Some?
  }

  predicate Signs(frame: Frame, index: nat) {
    frame.BlockPiece? && frame.index == Some(index) && frame.piece.Some?
    && frame.piece.value.SignaturePiece? && frame.piece.value.signature.Some?
  }

  /** The thinking that block `index` has open, told by the frames of that block alone; a call is stopped before it. */
  function OpenThinking(frames: seq<Frame>, index: nat): Option<Thinking> {
    if frames == [] then None
    else
      var before, last := frames[..|frames| - 1], frames[|frames| - 1];
      var open := OpenThinking(before, index);
      if StartsThinking(last, index) then Some(open.GetOr(NO_THINKING))
      else if AddsThought(last, index) then
        var t := open.GetOr(NO_THINKING);
        Some(t.(text := t.text + last.piece.value.thinking.value))
      else if Signs(last, index) then Some(open.GetOr(NO_THINKING).(signature := last.piece.value.signature))
      else if last == BlockStop(Some(index)) && OpenCall(before, index).None? then None
      else open
  }

  function ThinkingIn(s: StreamState, index: nat): Option<Thinking> {
    if index in s.thinking then Some(s.thinking[index]) else None
  }

  lemma FrameOnThinking(sc: Scope, s: StreamState, frame: Frame, index: nat)
    requires ApplyFrame(sc, s, frame).Ok?
    ensures ThinkingIn(ApplyFrame(sc, s, frame).value.state, index) ==
            var open := ThinkingIn(s, index);
            if StartsThinking(frame, index) then Some(open.GetOr(NO_THINKING))
            else if AddsThought(frame, index) then
              var t := open.GetOr(NO_THINKING);
              Some(t.(text := t.text + frame.piece.value.thinking.value))
            else if Signs(frame, index) then Some(open.GetOr(NO_THINKING).(signature := frame.piece.value.signature))
            else if frame == BlockStop(Some(index)) && CallAt(s, index).None? then None
            else open
  {
    hide Numeral, MapStopReason, ThinkingEvent, CallEvent, InitialArguments;
  }

  lemma {:induction false} StateHoldsThinking(sc: Scope, frames: seq<Frame>, index: nat)
    requires ApplyFrames(sc, frames).Ok?
    ensures ThinkingIn(ApplyFrames(sc, frames).value.state, index) == OpenThinking(frames, index)
    ensures CallAt(ApplyFrames(sc, frames).value.state, index) == OpenCall(frames, index)
  {
    hide ApplyFrame, StartsThinking, AddsThought, Signs, OpenCall;
    ToolCallsFollowBlocks(sc, frames);
    if frames != [] {
      var before := frames[..|frames| - 1];
      StateHoldsThinking(sc, before, index);
      FrameOnThinking(sc, ApplyFrames(sc, before).value.state, frames[|frames| - 1], index);
    }
  }

  /** A thinking block as a whole, with its signature. */
  function SnapshotIn(e: ModelStreamEvent): seq<ModelStreamEvent> {
    if e.ThinkingDelta? && e.snapshot.Some? then [e] else []
  }

  function Snapshot(index: nat, t: Thinking): ModelStreamEvent {
    ThinkingDelta(Raw, None, Some(SignedThinking(t.text, t.signature)), Some(Numeral(index, 10)), true)
  }

  /** The snapshot that the last frame asks for: of the block that it signs or stops. */
  function LastSnapshot(frames: seq<Frame>): seq<ModelStreamEvent>
    requires frames != []
  {
    var before, last := frames[..|frames| - 1], frames[|frames| - 1];
    match last
    case BlockPiece(Some(index), Some(SignaturePiece(Some(_)))) =>
      (match OpenThinking(frames, index)
       case Some(t) => [Snapshot(index, t)]
       case None => [])
    case BlockStop(Some(index)) =>
      (match (OpenCall(before, index), OpenThinking(before, index))
       case (None, Some(t)) => [Snapshot(index, t)]
       case _ => [])
    case _ => []
  }

  function Snapshots(frames: seq<Frame>): seq<ModelStreamEvent> {
    if frames == [] then [] else Snapshots(frames[..|frames| - 1]) + LastSnapshot(frames)
  }

  lemma FrameEmitsSnapshot(sc: Scope, s: StreamState, frame: Frame)
    requires ApplyFrame(sc, s, frame).Ok?
    ensures var step := ApplyFrame(sc, s, frame).value;
            Collect(step.events, SnapshotIn) ==
            if frame.BlockPiece? && frame.index.Some? && Signs(frame, frame.index.value) then
              (match ThinkingIn(step.state, frame.index.value)
               case Some(t) => [Snapshot(frame.index.value, t)]
               case None => [])
            else if frame.BlockStop? && frame.index.Some? then
              (match (CallAt(s, frame.index.value), ThinkingIn(s, frame.index.value))
               case (None, Some(t)) => [Snapshot(frame.index.value, t)]
               case _ => [])
            else []
  {
    hide Numeral, MapStopReason, InitialArguments, Collect;
    FrameEvents(sc, s, frame);
    CollectOneOrNone(ApplyFrame(sc, s, frame).value.events, SnapshotIn);
  }

  /**
   In every stream, a thinking block is emitted as a whole exactly when it is signed and when it stops, with the
   text and the signature it has then.
   */
  lemma {:induction false} SnapshotsAreOpenThinking(sc: Scope, frames: seq<Frame>)
    requires ApplyFrames(sc, frames).Ok?
    ensures Collect(ApplyFrames(sc, frames).value.events, SnapshotIn) == Snapshots(frames)
  {
    hide ApplyFrame, OpenThinking, OpenCall, SnapshotIn, Snapshot;
    if frames != [] {
      var before, last := frames[..|frames| - 1], frames[|frames| - 1];
      SnapshotsAreOpenThinking(sc, before);
      var b := ApplyFrames(sc, before).value;
      FrameEmitsSnapshot(sc, b.state, last);
      if (last.BlockPiece? || last.BlockStop?) && last.index.Some? {
        StateHoldsThinking(sc, before, last.index.value);
        StateHoldsThinking(sc, frames, last.index.value);
      }
      CollectOfTwo(b.events, ApplyFrame(sc, b.state, last).value.events, SnapshotIn);
    }
  }

  /** All thinking pieces of a block, put together. */
  function Thoughts(frames: seq<Frame>, index: nat): string {
    Collect(frames, frame => FrameThought(frame, index))
  }

  /** Thinking that was started and not stopped has all its pieces in order. */
  lemma {:induction false} OpenThinkingIsItsPieces(frames: seq<Frame>, index: nat, start: nat)
    requires start < |frames| && StartsThinking(frames[start], index) && OpenThinking(frames[..start], index).None?
    requires forall j :: start < j < |frames| ==> frames[j] != BlockStop(Some(index))
    ensures OpenThinking(frames, index).Some?
    ensures OpenThinking(frames, index).value.text == Thoughts(frames[start + 1..], index)
    decreases |frames|
  {
    var n := |frames| - 1;
    var rest := frames[start + 1..];
    if start == n {
      assert rest == [];
    } else {
      assert frames[..n][..start] == frames[..start];
      OpenThinkingIsItsPieces(frames[..n], index, start);
      assert rest[..|rest| - 1] == frames[..n][start + 1..] && rest[|rest| - 1] == frames[n];
      var before := Thoughts(frames[..n][start + 1..], index);
      assert before + "" == before;
      hide OpenCall;
    }
  }
}
