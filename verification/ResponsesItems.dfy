/**
 Tool calls of responses streams that keep to the protocol: an item is added before its arguments are
 reported, and what a frame says about a call by item id and by output index agrees.

 In such streams every item that some frame reports done is called exactly once, and no other is.
 */
module ResponsesItems {
  import opened Wrappers
  import opened Text
  import opened ModelEvents
  import opened Responses
  import opened ResponsesToolCalls

  /** Which item's key an output index stands for. */
  type Indexing = map<nat, string>

  /** A frame names a call by the id of its item or by its output index; given both, they agree. */
  predicate Names(keyOf: Indexing, itemId: Option<string>, outputIndex: Option<nat>) {
    && (outputIndex.Some? ==> outputIndex.value in keyOf)
    && (itemId.Some? && outputIndex.Some? ==> itemId.value == keyOf[outputIndex.value])
    && (itemId.Some? || outputIndex.Some?)
  }

  function KeyNamed(keyOf: Indexing, itemId: Option<string>, outputIndex: Option<nat>): string
    requires Names(keyOf, itemId, outputIndex)
  {
    if itemId.Some? then itemId.value else keyOf[outputIndex.value]
  }

  /** An item is named by its own id, or else by its call id, or else it is `output-0`. */
  predicate IsNamed(item: Item, key: string) {
    match (item.id, item.callId)
    case (Some(id), _) => id == key
    case (None, Some(callId)) => callId == key
    case (None, None) => key == "output-0"
  }

  lemma ItemKeyIs(item: Item)
    ensures forall key :: ItemKey(item) == key <==> IsNamed(item, key)
  {
  }

  /** The item of a frame that tells a call; an arguments frame has no other items. */
  function CallIn(frame: Frame): Option<Item> {
    match frame
    case OutputItemAdded(Some(item), _) => if item.kind == FunctionCall then Some(item) else None
    case OutputItemDone(Some(item), _, _) => if item.kind == FunctionCall then Some(item) else None
    case ArgumentsDone(Some(item), _, _, _) => Some(item)
    case _ => None
  }

  lemma CallInIsTold(frame: Frame)
    ensures CallIn(frame) == ToldItem(frame)
    ensures CallIn(frame).Some? ==> forall key :: ItemKey(CallIn(frame).value) == key <==> IsNamed(CallIn(frame).value, key)
  {
    if CallIn(frame).Some? {
      ItemKeyIs(CallIn(frame).value);
    }
  }

  predicate IsAboutCall(frame: Frame) {
    frame.ArgumentsDelta? || frame.ArgumentsDone? || (frame.OutputItemDone? && CallIn(frame).Some?)
  }

  /** What the frame says by item, by id and by index is about the same call. */
  predicate Consistent(frame: Frame, keyOf: Indexing) {
    && (IsAboutCall(frame) ==> Names(keyOf, frame.itemId, frame.outputIndex))
    && (CallIn(frame).Some? ==>
         var item := CallIn(frame).value;
         && (frame.outputIndex.Some? ==>
              frame.outputIndex.value in keyOf && IsNamed(item, keyOf[frame.outputIndex.value]))
         && (IsAboutCall(frame) ==> IsNamed(item, KeyNamed(keyOf, frame.itemId, frame.outputIndex))))
  }

  /** The frame tells the item with this key, under this output index. */
  predicate Announces(frame: Frame, key: string, outputIndex: Option<nat>) {
    CallIn(frame).Some? && IsNamed(CallIn(frame).value, key) && frame.outputIndex == outputIndex
  }

  ghost predicate IsAnnounced(frames: seq<Frame>, key: string, outputIndex: Option<nat>) {
    exists m :: 0 <= m < |frames| && Announces(frames[m], key, outputIndex)
  }

  /** The frame keeps to the protocol after the frames before it. */
  ghost predicate Follows(before: seq<Frame>, frame: Frame, keyOf: Indexing) {
    && Consistent(frame, keyOf)
    && (IsAboutCall(frame) && CallIn(frame).None? ==>
         IsAnnounced(before, KeyNamed(keyOf, frame.itemId, frame.outputIndex), frame.outputIndex))
  }

  ghost predicate Orderly(frames: seq<Frame>, keyOf: Indexing) {
    frames == []
    || (Orderly(frames[..|frames| - 1], keyOf) && Follows(frames[..|frames| - 1], frames[|frames| - 1], keyOf))
  }

  /** The frame reports the call with this key done. */
  ghost predicate ReportsDone(frame: Frame, keyOf: Indexing, key: string) {
    match frame
    case ArgumentsDone(_, itemId, outputIndex, _) =>
      Names(keyOf, itemId, outputIndex) && KeyNamed(keyOf, itemId, outputIndex) == key
    case OutputItemDone(item, _, _) => item.Some? && IsCallItem(item.value, key)
    case ResponseCompleted(output) => IsInOutput(output.GetOr([]), key)
    case ResponseIncomplete(_, output) => IsInOutput(output.GetOr([]), key)
    case _ => false
  }

  predicate IsCallItem(item: Item, key: string) {
    item.kind == FunctionCall && IsNamed(item, key)
  }

  ghost predicate IsInOutput(output: seq<Item>, key: string) {
    exists item :: item in output && IsCallItem(item, key)
  }

  // ---------------------------------------------------------------------------------------------
  // Output indices stand for their items
  // ---------------------------------------------------------------------------------------------

  lemma {:induction false} KeysFollowIndexing(frames: seq<Frame>, keyOf: Indexing)
    requires Orderly(frames, keyOf)
    ensures forall i :: i in Keys(frames) ==> i in keyOf && Keys(frames)[i] == keyOf[i]
  {
    if frames != [] {
      KeysFollowIndexing(frames[..|frames| - 1], keyOf);
      CallInIsTold(frames[|frames| - 1]);
      hide Orderly, IsAnnounced, CallIn, ToldItem, IsNamed;
    }
  }

  lemma {:induction false} AnnouncedIsKnown(frames: seq<Frame>, key: string, outputIndex: Option<nat>)
    requires IsAnnounced(frames, key, outputIndex)
    ensures outputIndex.Some? ==> outputIndex.value in Keys(frames)
    ensures Mentioned(Reports(frames), key)
  {
    var m :| 0 <= m < |frames| && Announces(frames[m], key, outputIndex);
    var before, last := frames[..|frames| - 1], frames[|frames| - 1];
    CallInIsTold(frames[m]);
    if m == |frames| - 1 {
      ToldIsMentioned(Keys(before), last);
      MentionedInPart(Reports(before), FrameReports(Keys(before), last), key);
    } else {
      assert Announces(before[m], key, outputIndex);
      AnnouncedIsKnown(before, key, outputIndex);
      MentionedInPart(Reports(before), FrameReports(Keys(before), last), key);
      hide IsAnnounced, Announces, Mentioned, FrameReports;
    }
  }

  lemma ToldIsMentioned(keys: map<nat, string>, frame: Frame)
    requires ToldItem(frame).Some?
    ensures FrameReports(keys, frame) != []
    ensures FrameReports(keys, frame)[0] == ItemReport(ToldItem(frame).value)
    ensures Mentioned(FrameReports(keys, frame), ItemKey(ToldItem(frame).value))
  {
    hide EventKey, NextKeys;
    var report := FrameReports(keys, frame)[0];
    assert !report.Done? && report.key == ItemKey(ToldItem(frame).value);
  }

  lemma MentionedInPart(a: seq<Report>, b: seq<Report>, key: string)
    ensures Mentioned(a + b, key) <==> Mentioned(a, key) || Mentioned(b, key)
  {
    var all := a + b;
    if Mentioned(a, key) {
      var i :| 0 <= i < |a| && !a[i].Done? && a[i].key == key;
      assert all[i] == a[i];
    }
    if Mentioned(b, key) {
      var i :| 0 <= i < |b| && !b[i].Done? && b[i].key == key;
      assert all[|a| + i] == b[i];
    }
    if Mentioned(all, key) {
      var i :| 0 <= i < |all| && !all[i].Done? && all[i].key == key;
      assert all[i] == if i < |a| then a[i] else b[i - |a|];
    }
  }

  /** By id or by index, the frame is taken to be about the call it names. */
  lemma EventKeyIsNamed(before: seq<Frame>, frame: Frame, keyOf: Indexing)
    requires Orderly(before, keyOf) && Follows(before, frame, keyOf) && IsAboutCall(frame)
    ensures EventKey(NextKeys(Keys(before), frame), frame.itemId, frame.outputIndex)
         == KeyNamed(keyOf, frame.itemId, frame.outputIndex)
  {
    KeysFollowIndexing(before, keyOf);
    CallInIsTold(frame);
    if CallIn(frame).None? {
      AnnouncedIsKnown(before, KeyNamed(keyOf, frame.itemId, frame.outputIndex), frame.outputIndex);
    }
    hide Orderly, IsAnnounced, Keys, Mentioned, CallIn, ToldItem, IsNamed;
  }

  /** What an event without an item id is about when its index stands for no item: every index for a call of its own. */
  lemma UnknownIndexIsItsOwnKey(keys: map<nat, string>, i: nat, j: nat)
    requires i !in keys && j !in keys
    ensures EventKey(keys, None, Some(i)) == "output-" + Numeral(i, 10)
    ensures EventKey(keys, None, Some(i)) == EventKey(keys, None, Some(j)) ==> i == j
    ensures EventKey(keys, None, None) == "output-0"
  {
    if EventKey(keys, None, Some(i)) == EventKey(keys, None, Some(j)) {
      assert ("output-" + Numeral(i, 10))[7..] == Numeral(i, 10) && ("output-" + Numeral(j, 10))[7..] == Numeral(j, 10);
      NumeralInjective(i, j, 10);
    }
  }

  // ---------------------------------------------------------------------------------------------
  // Nothing is reported done before it is mentioned
  // ---------------------------------------------------------------------------------------------

  /** Every done report comes after something was said about its key, in `said` or in the list. */
  ghost predicate MentionsFirst(said: seq<Report>, reports: seq<Report>) {
    forall n :: 0 <= n < |reports| && reports[n].Done? ==>
      Mentioned(said, reports[n].key) || Mentioned(reports[..n], reports[n].key)
  }

  lemma MentionsFirstTogether(a: seq<Report>, b: seq<Report>)
    requires MentionsFirst([], a) && MentionsFirst(a, b)
    ensures MentionsFirst([], a + b)
  {
    var all := a + b;
    forall n | 0 <= n < |all| && all[n].Done?
      ensures Mentioned(all[..n], all[n].key)
    {
      if n < |a| {
        assert all[..n] == a[..n] && all[n] == a[n];
        assert !Mentioned([], a[n].key);
      } else {
        assert all[..n] == a + b[..n - |a|] && all[n] == b[n - |a|];
        MentionedInPart(a, b[..n - |a|], all[n].key);
      }
    }
  }

  lemma {:induction false} OutputMentionsFirst(said: seq<Report>, output: seq<Item>, key: string)
    ensures MentionsFirst(said, OutputReports(output))
    ensures Done(key) in OutputReports(output) <==> IsInOutput(output, key)
    decreases |output|
  {
    if output != [] {
      var first, rest := ItemReports(output[0]), OutputReports(output[1..]);
      OutputMentionsFirst(said, output[1..], key);
      ItemKeyIs(output[0]);
      hide ItemKey, IsNamed;
      assert forall item :: item in output <==> item == output[0] || item in output[1..];
      assert IsInOutput(output, key) <==> IsCallItem(output[0], key) || IsInOutput(output[1..], key);
      assert Done(key) in first <==> IsCallItem(output[0], key) by {
        assert first != [] ==> first == [ItemReport(output[0]), Done(ItemKey(output[0]))];
      }
      var all := first + rest;
      forall n | 0 <= n < |all| && all[n].Done?
        ensures Mentioned(said, all[n].key) || Mentioned(all[..n], all[n].key)
      {
        if n < |first| {
          assert all[..n][0] == ItemReport(output[0]);
        } else {
          assert all[n] == rest[n - |first|] && all[..n] == first + rest[..n - |first|];
          MentionedInPart(first, rest[..n - |first|], all[n].key);
        }
      }
    }
  }

  /** What an orderly frame reports done was mentioned before, and is what the frame names. */
  lemma FrameMentionsFirst(before: seq<Frame>, frame: Frame, keyOf: Indexing, key: string)
    requires Orderly(before, keyOf) && Follows(before, frame, keyOf)
    ensures MentionsFirst(Reports(before), FrameReports(Keys(before), frame))
    ensures Done(key) in FrameReports(Keys(before), frame) <==> ReportsDone(frame, keyOf, key)
  {
    match frame {
      case ResponseCompleted(output) => OutputMentionsFirst(Reports(before), output.GetOr([]), key);
      case ResponseIncomplete(_, output) => OutputMentionsFirst(Reports(before), output.GetOr([]), key);
      case ArgumentsDone(item, itemId, outputIndex, _) => DoneMentionsFirst(before, frame, keyOf, key);
      case OutputItemDone(item, itemId, outputIndex) =>
        CallInIsTold(frame);
        if CallIn(frame).Some? {
          DoneMentionsFirst(before, frame, keyOf, key);
        }
      case _ =>
    }
  }

  lemma DoneMentionsFirst(before: seq<Frame>, frame: Frame, keyOf: Indexing, key: string)
    requires Orderly(before, keyOf) && Follows(before, frame, keyOf) && IsAboutCall(frame) && !frame.ArgumentsDelta?
    ensures MentionsFirst(Reports(before), FrameReports(Keys(before), frame))
    ensures Done(key) in FrameReports(Keys(before), frame) <==> ReportsDone(frame, keyOf, key)
  {
    var named := KeyNamed(keyOf, frame.itemId, frame.outputIndex);
    EventKeyIsNamed(before, frame, keyOf);
    CallInIsTold(frame);
    assert CallIn(frame).Some? ==> IsNamed(CallIn(frame).value, named);
    if CallIn(frame).None? {
      AnnouncedIsKnown(before, named, frame.outputIndex);
    }
    hide Orderly, Follows, IsAnnounced, Keys, Reports, EventKey, NextKeys, IsNamed, ItemKey;
    var reports := FrameReports(Keys(before), frame);
    if ToldItem(frame).Some? {
      assert reports == [ItemReport(ToldItem(frame).value), Done(named)];
      LastIsDone(Reports(before), [ItemReport(ToldItem(frame).value)], named);
    } else if frame.arguments.Some? {
      assert reports == [Describes(named, None, None, frame.arguments), Done(named)];
      LastIsDone(Reports(before), [Describes(named, None, None, frame.arguments)], named);
    } else {
      assert reports == [] + [Done(named)];
      LastIsDone(Reports(before), [], named);
    }
  }

  lemma LastIsDone(said: seq<Report>, told: seq<Report>, key: string)
    requires forall n :: 0 <= n < |told| ==> !told[n].Done? && told[n].key == key
    requires told == [] ==> Mentioned(said, key)
    ensures MentionsFirst(said, told + [Done(key)])
    ensures forall other :: Done(other) in told + [Done(key)] <==> other == key
  {
    var reports := told + [Done(key)];
    assert reports[|told|] == Done(key) && reports[..|told|] == told;
    if told != [] {
      assert !told[0].Done? && told[0].key == key;
    }
  }

  /** Some frame reports the call with this key done. */
  ghost predicate IsReportedDone(frames: seq<Frame>, keyOf: Indexing, key: string) {
    exists n :: 0 <= n < |frames| && ReportsDone(frames[n], keyOf, key)
  }

  lemma OneMoreDone(frames: seq<Frame>, keyOf: Indexing, key: string)
    requires frames != []
    ensures IsReportedDone(frames, keyOf, key) <==>
              IsReportedDone(frames[..|frames| - 1], keyOf, key) || ReportsDone(frames[|frames| - 1], keyOf, key)
  {
    hide ReportsDone;
    var before := frames[..|frames| - 1];
    assert forall n :: 0 <= n < |before| ==> before[n] == frames[n];
  }

  lemma {:induction false} OrderlyMentionsFirst(frames: seq<Frame>, keyOf: Indexing, key: string)
    requires Orderly(frames, keyOf)
    ensures MentionsFirst([], Reports(frames))
    ensures Done(key) in Reports(frames) <==> IsReportedDone(frames, keyOf, key)
  {
    if frames != [] {
      var before, last := frames[..|frames| - 1], frames[|frames| - 1];
      OrderlyMentionsFirst(before, keyOf, key);
      FrameMentionsFirst(before, last, keyOf, key);
      MentionsFirstTogether(Reports(before), FrameReports(Keys(before), last));
      OneMoreDone(frames, keyOf, key);
      hide MentionsFirst, FrameReports, ReportsDone, IsReportedDone, Orderly;
    }
  }

  // ---------------------------------------------------------------------------------------------
  // Each item is called once
  // ---------------------------------------------------------------------------------------------

  /** The call is put together from these reports about the key. */
  predicate IsCallFrom(sc: Scope, reports: seq<Report>, key: string, call: ToolCall) {
    PartialOf(reports, key).name in sc.aliases && call == CallOf(sc, reports, key)
  }

  /**
   In every orderly stream that is read successfully, the `i`-th tool call is put together from the
   reports about one key; each key that some frame reports done has exactly one such call, and
   the others have none.
   */
  lemma EachItemIsCalledOnce(sc: Scope, frames: seq<Frame>, keyOf: Indexing, key: string)
    requires Orderly(frames, keyOf) && ApplyFrames(sc, frames).Ok?
    ensures var reports, calls := Reports(frames), ToolCalls(ApplyFrames(sc, frames).value.events);
            && |calls| == |CallPositions(reports)|
            && (forall i: nat :: IsCalledAt(reports, i, key) ==>
                 IsCallFrom(sc, reports[..CallPositions(reports)[i]], key, calls[i]))
            && ((exists i: nat :: IsCalledAt(reports, i, key)) <==> IsReportedDone(frames, keyOf, key))
            && (forall i: nat, j: nat :: IsCalledAt(reports, i, key) && IsCalledAt(reports, j, key) ==> i == j)
  {
    var reports := Reports(frames);
    var ps := CallPositions(reports);
    ToolCallsFollowReports(sc, frames);
    OrderlyMentionsFirst(frames, keyOf, key);
    hide Reports, ApplyFrames, Orderly, IsReportedDone, Keys, Agrees, ToolCalls;
    CallsAtPositions(sc, reports);
    EachKeyOnce(reports);
    KeyIsCalledIff(reports, key);
    assert !IsDoneEarly(reports, key) by {
      assert !Mentioned([], key);
    }
    hide CallPositions, IsDoneEarly, MentionsFirst;
  }

  // ---------------------------------------------------------------------------------------------
  // What the one call is made of
  // ---------------------------------------------------------------------------------------------

  /** The item of a frame that adds the call with this key. */
  function AddedItem(frame: Frame, key: string): seq<Item> {
    match frame
    case OutputItemAdded(Some(item), _) => if IsCallItem(item, key) then [item] else []
    case _ => []
  }

  /** All items that are added with this key, in order. */
  function AddedItems(frames: seq<Frame>, key: string): seq<Item> {
    if frames == [] then [] else AddedItems(frames[..|frames| - 1], key) + AddedItem(frames[|frames| - 1], key)
  }

  /** The first item of an output that is the call with this key. */
  function FirstInOutput(output: seq<Item>, key: string): Option<Item> {
    if output == [] then None
    else if IsCallItem(output[0], key) then Some(output[0])
    else FirstInOutput(output[1..], key)
  }

  /** The item that a frame carries when it reports the call with this key done. */
  function DoneItem(frame: Frame, key: string): Option<Item> {
    match frame
    case ArgumentsDone(item, _, _, _) => item
    case OutputItemDone(item, _, _) => item
    case ResponseCompleted(output) => FirstInOutput(output.GetOr([]), key)
    case ResponseIncomplete(_, output) => FirstInOutput(output.GetOr([]), key)
    case _ => None
  }

  /** The full arguments it carries, in its item or by themselves. */
  function DoneArguments(frame: Frame, key: string): Option<string> {
    match (DoneItem(frame, key), frame)
    case (Some(item), _) => item.arguments
    case (None, ArgumentsDone(_, _, _, arguments)) => arguments
    case _ => None
  }

  /** The last call id that is not empty. */
  function LastCallId(items: seq<Item>): string {
    if items == [] then ""
    else
      var last := items[|items| - 1];
      if last.callId.Some? && last.callId.value != "" then last.callId.value else LastCallId(items[..|items| - 1])
  }

  /** The last name that is not empty. */
  function LastName(items: seq<Item>): string {
    if items == [] then ""
    else
      var last := items[|items| - 1];
      if last.name.Some? && last.name.value != "" then last.name.value else LastName(items[..|items| - 1])
  }

  lemma LastOfMore(items: seq<Item>, item: Item)
    ensures LastCallId(items + [item])
         == if item.callId.Some? && item.callId.value != "" then item.callId.value else LastCallId(items)
    ensures LastName(items + [item])
         == if item.name.Some? && item.name.value != "" then item.name.value else LastName(items)
  {
    assert (items + [item])[..|items|] == items;
  }

  /** The item is added with full arguments. */
  predicate AddsArguments(frame: Frame, key: string) {
    AddedItem(frame, key) != [] && AddedItem(frame, key)[0].arguments.Some?
  }

  predicate AddsDelta(frame: Frame, keyOf: Indexing, key: string) {
    frame.ArgumentsDelta? && Names(keyOf, frame.itemId, frame.outputIndex)
    && KeyNamed(keyOf, frame.itemId, frame.outputIndex) == key && frame.delta.Some?
  }

  /** The arguments before the call is reported done: those it was last added with, and the deltas since. */
  function ArgumentsSoFar(frames: seq<Frame>, keyOf: Indexing, key: string): string {
    if frames == [] then ""
    else
      var before, last := ArgumentsSoFar(frames[..|frames| - 1], keyOf, key), frames[|frames| - 1];
      if AddsArguments(last, key) then AddedItem(last, key)[0].arguments.value
      else if AddsDelta(last, keyOf, key) then before + last.delta.value
      else before
  }

  /** The deltas about the call, put together in order. */
  function DeltasOf(frames: seq<Frame>, keyOf: Indexing, key: string): string {
    if frames == [] then ""
    else
      var last := frames[|frames| - 1];
      DeltasOf(frames[..|frames| - 1], keyOf, key) + if AddsDelta(last, keyOf, key) then last.delta.value else ""
  }

  /** An item that is added once, with its arguments so far, has these and all deltas about it. */
  lemma {:induction false} AddedArgumentsAndDeltas(frames: seq<Frame>, keyOf: Indexing, key: string, m: nat)
    requires m < |frames| && AddsArguments(frames[m], key)
    requires forall j :: m < j < |frames| ==> !AddsArguments(frames[j], key)
    ensures ArgumentsSoFar(frames, keyOf, key)
         == AddedItem(frames[m], key)[0].arguments.value + DeltasOf(frames[m + 1..], keyOf, key)
    decreases |frames|
  {
    hide AddedItem;
    var n := |frames| - 1;
    var given := AddedItem(frames[m], key)[0].arguments.value;
    if m == n {
      assert frames[m + 1..] == [] && given + "" == given;
    } else {
      AddedArgumentsAndDeltas(frames[..n], keyOf, key, m);
      var rest := frames[m + 1..];
      assert rest[..|rest| - 1] == frames[..n][m + 1..] && rest[|rest| - 1] == frames[n];
      var before := DeltasOf(rest[..|rest| - 1], keyOf, key);
      var delta := if AddsDelta(frames[n], keyOf, key) then frames[n].delta.value else "";
      assert (given + before) + delta == given + (before + delta) && before + "" == before;
    }
  }

  /** An item that is added without arguments has the deltas about it. */
  lemma {:induction false} ArgumentsAreDeltasOf(frames: seq<Frame>, keyOf: Indexing, key: string)
    requires forall j :: 0 <= j < |frames| ==> !AddsArguments(frames[j], key)
    ensures ArgumentsSoFar(frames, keyOf, key) == DeltasOf(frames, keyOf, key)
  {
    if frames != [] {
      var before := frames[..|frames| - 1];
      ArgumentsAreDeltasOf(before, keyOf, key);
      assert DeltasOf(before, keyOf, key) + "" == DeltasOf(before, keyOf, key);
    }
  }

  /** Nothing is said about the call, except that it is done. */
  predicate IsSilent(reports: seq<Report>, key: string) {
    forall i :: 0 <= i < |reports| && reports[i].key == key ==> reports[i].Done?
  }

  lemma {:induction false} SilenceChangesNothing(reports: seq<Report>, more: seq<Report>, key: string)
    requires IsSilent(more, key)
    ensures PartialOf(reports + more, key) == PartialOf(reports, key)
  {
    if more == [] {
      assert reports + more == reports;
    } else {
      var before, last := more[..|more| - 1], more[|more| - 1];
      SilenceChangesNothing(reports, before, key);
      assert reports + more == (reports + before) + [last];
      OneMoreReport(reports + before, last, key);
      hide PartialOf;
    }
  }

  lemma {:induction false} OutputIsSilent(output: seq<Item>, key: string)
    requires !IsInOutput(output, key)
    ensures IsSilent(OutputReports(output), key)
    decreases |output|
  {
    if output != [] {
      assert output[0] in output;
      assert forall item :: item in output[1..] ==> item in output;
      OutputIsSilent(output[1..], key);
      ItemKeyIs(output[0]);
      hide ItemKey, IsNamed;
      var first, rest := ItemReports(output[0]), OutputReports(output[1..]);
      assert forall i :: |first| <= i < |first + rest| ==> (first + rest)[i] == rest[i - |first|];
    }
  }

  /** What a frame that does not report the call done says about it. */
  lemma OpenFrameReports(before: seq<Frame>, frame: Frame, keyOf: Indexing, key: string)
    requires Orderly(before, keyOf) && Follows(before, frame, keyOf) && !ReportsDone(frame, keyOf, key)
    ensures var reports := FrameReports(Keys(before), frame);
            if AddedItem(frame, key) != [] then
              ItemKey(AddedItem(frame, key)[0]) == key && reports == [ItemReport(AddedItem(frame, key)[0])]
            else if AddsDelta(frame, keyOf, key) then reports == [Appends(key, frame.delta.value)]
            else IsSilent(reports, key)
  {
    if IsAboutCall(frame) {
      EventKeyIsNamed(before, frame, keyOf);
    }
    CallInIsTold(frame);
    hide Reports, Keys, Orderly, IsAnnounced, EventKey, NextKeys, IsNamed, ItemKey;
    match frame {
      case ResponseCompleted(output) => OutputIsSilent(output.GetOr([]), key);
      case ResponseIncomplete(_, output) => OutputIsSilent(output.GetOr([]), key);
      case _ =>
    }
  }

  /** The call that these items and arguments make. */
  function CallMade(items: seq<Item>, arguments: string): PartialToolCall {
    PartialToolCall(LastCallId(items), LastName(items), arguments)
  }

  lemma ItemMakes(said: seq<Report>, items: seq<Item>, arguments: string, item: Item, key: string)
    requires ItemKey(item) == key && PartialOf(said, key) == CallMade(items, arguments)
    ensures PartialOf(said + [ItemReport(item)], key) == CallMade(items + [item], item.arguments.GetOr(arguments))
  {
    OneMoreReport(said, ItemReport(item), key);
    LastOfMore(items, item);
    hide PartialOf, LastCallId, LastName, ItemKey;
  }

  lemma OpenFrameMakes(
      before: seq<Frame>, frame: Frame, keyOf: Indexing, key: string, said: seq<Report>, items: seq<Item>,
      arguments: string)
    requires Orderly(before, keyOf) && Follows(before, frame, keyOf) && !ReportsDone(frame, keyOf, key)
    requires PartialOf(said, key) == CallMade(items, arguments)
    ensures PartialOf(said + FrameReports(Keys(before), frame), key)
         == CallMade(items + AddedItem(frame, key),
                     if AddsArguments(frame, key) then AddedItem(frame, key)[0].arguments.value
                     else if AddsDelta(frame, keyOf, key) then arguments + frame.delta.value
                     else arguments)
  {
    OpenFrameReports(before, frame, keyOf, key);
    hide FrameReports, Orderly, Follows, ReportsDone, PartialOf, LastCallId, LastName, ItemKey;
    if AddedItem(frame, key) != [] {
      ItemMakes(said, items, arguments, AddedItem(frame, key)[0], key);
      assert AddedItem(frame, key) == [AddedItem(frame, key)[0]];
    } else {
      assert items + AddedItem(frame, key) == items;
      if AddsDelta(frame, keyOf, key) {
        OneMoreReport(said, Appends(key, frame.delta.value), key);
      } else {
        SilenceChangesNothing(said, FrameReports(Keys(before), frame), key);
      }
    }
  }

  lemma {:induction false} OpenCallIs(frames: seq<Frame>, keyOf: Indexing, key: string)
    requires Orderly(frames, keyOf) && !IsReportedDone(frames, keyOf, key)
    ensures PartialOf(Reports(frames), key) == CallMade(AddedItems(frames, key), ArgumentsSoFar(frames, keyOf, key))
  {
    if frames != [] {
      var before, last := frames[..|frames| - 1], frames[|frames| - 1];
      OneMoreDone(frames, keyOf, key);
      OpenCallIs(before, keyOf, key);
      hide PartialOf, FrameReports, IsReportedDone, AddsArguments, AddsDelta, AddedItem, CallMade;
      OpenFrameMakes(before, last, keyOf, key, Reports(before), AddedItems(before, key),
                     ArgumentsSoFar(before, keyOf, key));
    }
  }

  // The reports of the frame that first reports the call done

  function ListOf(item: Option<Item>): seq<Item> {
    match item
    case None => []
    case Some(i) => [i]
  }

  /** Up to the first done report of the key, these reports add the item and the arguments `given`, if any. */
  ghost predicate MakesUpToDone(
      said: seq<Report>, more: seq<Report>, m: nat, key: string, item: Option<Item>, given: Option<string>)
  {
    && m < |more| && more[m] == Done(key) && Done(key) !in more[..m]
    && forall items, arguments :: PartialOf(said, key) == CallMade(items, arguments) ==>
         PartialOf(said + more[..m], key) == CallMade(items + ListOf(item), given.GetOr(arguments))
  }

  lemma ItemMakesUpToDone(said: seq<Report>, item: Item, more: seq<Report>, key: string)
    requires ItemKey(item) == key && |more| >= 2 && more[0] == ItemReport(item) && more[1] == Done(key)
    ensures MakesUpToDone(said, more, 1, key, Some(item), item.arguments)
  {
    assert more[..1] == [ItemReport(item)];
    hide PartialOf, CallMade, ItemKey;
    forall items, arguments | PartialOf(said, key) == CallMade(items, arguments)
      ensures PartialOf(said + more[..1], key) == CallMade(items + [item], item.arguments.GetOr(arguments))
    {
      ItemMakes(said, items, arguments, item, key);
    }
  }

  lemma LaterItemMakes(
      said: seq<Report>, first: seq<Report>, rest: seq<Report>, m: nat, key: string, item: Option<Item>,
      given: Option<string>)
    requires MakesUpToDone(said + first, rest, m, key, item, given)
    requires IsSilent(first, key) && Done(key) !in first
    ensures MakesUpToDone(said, first + rest, |first| + m, key, item, given)
  {
    SilenceChangesNothing(said, first, key);
    hide PartialOf, IsSilent, CallMade;
    var all := first + rest;
    assert all[|first| + m] == rest[m];
    assert all[..|first| + m] == first + rest[..m];
    assert said + (first + rest[..m]) == (said + first) + rest[..m];
  }

  lemma {:induction false} OutputMakes(said: seq<Report>, output: seq<Item>, key: string) returns (m: nat)
    requires IsInOutput(output, key)
    ensures FirstInOutput(output, key).Some?
    ensures var item := FirstInOutput(output, key);
            MakesUpToDone(said, OutputReports(output), m, key, item, item.value.arguments)
    decreases |output|
  {
    hide MakesUpToDone, PartialOf;
    var first, rest := ItemReports(output[0]), OutputReports(output[1..]);
    ItemKeyIs(output[0]);
    hide IsNamed, ItemKey;
    if IsCallItem(output[0], key) {
      ItemMakesUpToDone(said, output[0], first + rest, key);
      m := 1;
    } else {
      assert IsInOutput(output[1..], key) by {
        var item :| item in output && IsCallItem(item, key);
        assert item in output[1..];
      }
      var later := OutputMakes(said + first, output[1..], key);
      m := |first| + later;
      var item := FirstInOutput(output[1..], key);
      LaterItemMakes(said, first, rest, later, key, item, item.value.arguments);
    }
  }

  /** The frame that reports the call done adds its item, and decides the arguments, when it carries them. */
  lemma DoneFrameMakes(before: seq<Frame>, frame: Frame, keyOf: Indexing, key: string, said: seq<Report>)
    returns (m: nat)
    requires Orderly(before, keyOf) && Follows(before, frame, keyOf) && ReportsDone(frame, keyOf, key)
    ensures MakesUpToDone(said, FrameReports(Keys(before), frame), m, key, DoneItem(frame, key), DoneArguments(frame, key))
  {
    if frame.ResponseCompleted? || frame.ResponseIncomplete? {
      hide MakesUpToDone, FirstInOutput, IsInOutput;
      m := OutputMakes(said, frame.output.GetOr([]), key);
    } else {
      m := CallFrameMakes(before, frame, keyOf, key, said);
    }
  }

  lemma CallFrameMakes(before: seq<Frame>, frame: Frame, keyOf: Indexing, key: string, said: seq<Report>)
    returns (m: nat)
    requires Orderly(before, keyOf) && Follows(before, frame, keyOf) && ReportsDone(frame, keyOf, key)
    requires frame.ArgumentsDone? || frame.OutputItemDone?
    ensures MakesUpToDone(said, FrameReports(Keys(before), frame), m, key, DoneItem(frame, key), DoneArguments(frame, key))
  {
    EventKeyIsNamed(before, frame, keyOf);
    CallInIsTold(frame);
    hide Keys, Orderly, IsAnnounced, EventKey, NextKeys, PartialOf, CallMade, IsNamed, ItemKey, MakesUpToDone;
    var reports := FrameReports(Keys(before), frame);
    if CallIn(frame).Some? {
      ItemMakesUpToDone(said, CallIn(frame).value, reports, key);
      m := 1;
    } else if frame.arguments.Some? {
      assert reports == [Describes(key, None, None, frame.arguments), Done(key)];
      ArgumentsMake(said, frame.arguments, key);
      m := 1;
    } else {
      assert reports == [Done(key)];
      NothingMakes(said, key);
      m := 0;
    }
  }

  lemma ArgumentsMake(said: seq<Report>, arguments: Option<string>, key: string)
    requires arguments.Some?
    ensures MakesUpToDone(said, [Describes(key, None, None, arguments), Done(key)], 1, key, None, arguments)
  {
    var report := Describes(key, None, None, arguments);
    assert [report, Done(key)][..1] == [report];
    OneMoreReport(said, report, key);
    hide PartialOf, LastCallId, LastName;
    assert forall items: seq<Item> :: items + [] == items;
  }

  lemma NothingMakes(said: seq<Report>, key: string)
    ensures MakesUpToDone(said, [Done(key)], 0, key, None, None)
  {
    hide PartialOf, CallMade;
    assert said + [Done(key)][..0] == said;
    assert forall items: seq<Item> :: items + [] == items;
  }

  /** Frame `n` is the first one that reports the call done. */
  ghost predicate IsFirstDone(frames: seq<Frame>, keyOf: Indexing, key: string, n: nat) {
    && n < |frames| && ReportsDone(frames[n], keyOf, key)
    && forall j :: 0 <= j < n ==> !ReportsDone(frames[j], keyOf, key)
  }

  lemma {:induction false} ReportsExtend(frames: seq<Frame>, n: nat)
    requires n <= |frames|
    ensures Reports(frames[..n]) <= Reports(frames)
    decreases |frames|
  {
    if n < |frames| {
      var before := frames[..|frames| - 1];
      ReportsExtend(before, n);
      assert before[..n] == frames[..n];
    } else {
      assert frames[..n] == frames;
    }
  }

  lemma {:induction false} OrderlyPrefix(frames: seq<Frame>, keyOf: Indexing, n: nat)
    requires Orderly(frames, keyOf) && n <= |frames|
    ensures Orderly(frames[..n], keyOf)
    decreases |frames|
  {
    if n < |frames| {
      var before := frames[..|frames| - 1];
      OrderlyPrefix(before, keyOf, n);
      assert before[..n] == frames[..n];
    } else {
      assert frames[..n] == frames;
    }
  }

  lemma FrameAt(frames: seq<Frame>, keyOf: Indexing, n: nat)
    requires Orderly(frames, keyOf) && n < |frames|
    ensures Orderly(frames[..n], keyOf) && Follows(frames[..n], frames[n], keyOf)
    ensures Reports(frames[..n]) + FrameReports(Keys(frames[..n]), frames[n]) <= Reports(frames)
  {
    var with := frames[..n + 1];
    OrderlyPrefix(frames, keyOf, n + 1);
    ReportsExtend(frames, n + 1);
    assert with[..n] == frames[..n] && with[n] == frames[n];
    hide Follows, FrameReports;
  }

  lemma NotDoneBefore(frames: seq<Frame>, keyOf: Indexing, key: string, n: nat)
    requires IsFirstDone(frames, keyOf, key, n)
    ensures !IsReportedDone(frames[..n], keyOf, key) && ReportsDone(frames[n], keyOf, key)
  {
    hide ReportsDone;
  }

  /** The items about the call up to the frame that first reports it done. */
  function ItemsUpTo(frames: seq<Frame>, key: string, n: nat): seq<Item>
    requires n < |frames|
  {
    AddedItems(frames[..n], key) + ListOf(DoneItem(frames[n], key))
  }

  /** The full arguments of that frame, or else those so far. */
  function ArgumentsUpTo(frames: seq<Frame>, keyOf: Indexing, key: string, n: nat): string
    requires n < |frames|
  {
    DoneArguments(frames[n], key).GetOr(ArgumentsSoFar(frames[..n], keyOf, key))
  }

  /** Where the first done report stands, and what the reports before it say about the call. */
  lemma FirstDoneMakes(frames: seq<Frame>, keyOf: Indexing, key: string, n: nat) returns (p: nat)
    requires Orderly(frames, keyOf) && IsFirstDone(frames, keyOf, key, n) && n < |frames|
    ensures var reports := Reports(frames);
            && p < |reports| && reports[p] == Done(key) && Done(key) !in reports[..p]
            && PartialOf(reports[..p], key)
               == CallMade(AddedItems(frames[..n], key) + ListOf(DoneItem(frames[n], key)),
                           DoneArguments(frames[n], key).GetOr(ArgumentsSoFar(frames[..n], keyOf, key)))
  {
    hide *;
    var before, frame := frames[..n], frames[n];
    NotDoneBefore(frames, keyOf, key, n);
    FrameAt(frames, keyOf, n);
    OrderlyMentionsFirst(before, keyOf, key);
    OpenCallIs(before, keyOf, key);
    var said, more := Reports(before), FrameReports(Keys(before), frame);
    var m := DoneFrameMakes(before, frame, keyOf, key, said);
    p := |said| + m;
    MadeAtDone(said, more, Reports(frames), m, key, AddedItems(before, key), ArgumentsSoFar(before, keyOf, key),
               DoneItem(frame, key), DoneArguments(frame, key));
  }

  lemma MadeAtDone(
      said: seq<Report>, more: seq<Report>, all: seq<Report>, m: nat, key: string, items: seq<Item>, arguments: string,
      item: Option<Item>, given: Option<string>)
    requires said + more <= all && Done(key) !in said
    requires PartialOf(said, key) == CallMade(items, arguments) && MakesUpToDone(said, more, m, key, item, given)
    ensures var p := |said| + m;
            && p < |all| && all[p] == Done(key) && Done(key) !in all[..p]
            && PartialOf(all[..p], key) == CallMade(items + ListOf(item), given.GetOr(arguments))
  {
    hide PartialOf, CallMade, ListOf;
    PositionOfDone(said, more, all, m, key);
  }

  lemma PositionOfDone(said: seq<Report>, more: seq<Report>, all: seq<Report>, m: nat, key: string)
    requires said + more <= all && m < |more| && more[m] == Done(key) && Done(key) !in more[..m]
    requires Done(key) !in said
    ensures all[|said| + m] == Done(key) && all[..|said| + m] == said + more[..m]
    ensures Done(key) !in all[..|said| + m]
  {
    assert (said + more)[|said| + m] == more[m];
    assert all[..|said| + m] == (said + more)[..|said| + m] == said + more[..m];
  }

  /** The call is made of these items and arguments; without a call id it goes by its key. */
  predicate IsCallMade(sc: Scope, call: ToolCall, items: seq<Item>, arguments: string, key: string) {
    && call.id == (if LastCallId(items) == "" then key else LastCallId(items))
    && LastName(items) in sc.aliases && call.name == sc.aliases[LastName(items)]
    && call.argumentsJson == arguments
  }

  /**
   In every orderly stream that is read successfully, a call that some frame reports done has the last call id and
   the tool of the last name among the items that added it and the item of the first such frame; and it has the
   full arguments of that frame, or, when it gives none, those it was last added with and the deltas since.
   */
  lemma CallHasItsParts(sc: Scope, frames: seq<Frame>, keyOf: Indexing, key: string, n: nat)
    requires Orderly(frames, keyOf) && ApplyFrames(sc, frames).Ok? && IsFirstDone(frames, keyOf, key, n)
    ensures var calls := ToolCalls(ApplyFrames(sc, frames).value.events);
            exists i: nat :: IsCalledAt(Reports(frames), i, key) && i < |calls|
              && IsCallMade(sc, calls[i], ItemsUpTo(frames, key, n), ArgumentsUpTo(frames, keyOf, key, n), key)
  {
    var reports := Reports(frames);
    var ps := CallPositions(reports);
    var p := FirstDoneMakes(frames, keyOf, key, n);
    assert IsReportedDone(frames, keyOf, key);
    EachItemIsCalledOnce(sc, frames, keyOf, key);
    EachKeyOnce(reports);
    hide Reports, Orderly, IsFirstDone, PartialOf, ItemsUpTo, ArgumentsUpTo, ApplyFrames, CallPositions;
    hide LastCallId, LastName;
    var i: nat :| IsCalledAt(reports, i, key);
    assert ps[i] in ps && CallAt(reports, ps[i]);
    OneFirstDone(reports, key, ps[i], p);
  }

  lemma OneFirstDone(reports: seq<Report>, key: string, m: nat, n: nat)
    requires m < |reports| && reports[m] == Done(key) && Done(key) !in reports[..m]
    requires n < |reports| && reports[n] == Done(key) && Done(key) !in reports[..n]
    ensures m == n
  {
    DoneStays(reports, m);
    DoneStays(reports, n);
  }
}
