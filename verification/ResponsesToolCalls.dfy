/**
 Which tool calls the responses stream emits, whatever frames arrive.

 Every frame says a few things about tool calls: it describes one, appends to its arguments, or reports
 it done.  `Reports` reads these off the frames alone; the only memory it needs is which output
 index stands for which key.  The tool calls of a stream are a function of the reports: one call for each
 key whose first done report comes after something was said about it.
 */
module ResponsesToolCalls {
  import opened Wrappers
  import opened ModelEvents
  import opened Responses

  datatype Report =
    | Describes(key: string, callId: Option<string>, name: Option<string>, arguments: Option<string>)
    | Appends(key: string, delta: string)
    | Done(key: string)

  function ItemReport(item: Item): Report {
    Describes(ItemKey(item), item.callId, item.name, item.arguments)
  }

  function ItemReports(item: Item): seq<Report> {
    if item.kind.FunctionCall? then [ItemReport(item), Done(ItemKey(item))] else []
  }

  function OutputReports(output: seq<Item>): seq<Report> {
    if output == [] then [] else ItemReports(output[0]) + OutputReports(output[1..])
  }

  /** The frame's item, when the frame records it as a tool call. */
  function ToldItem(frame: Frame): Option<Item> {
    match frame
    case OutputItemAdded(item, _) => if item.Some? && item.value.kind.FunctionCall? then item else None
    case OutputItemDone(item, _, _) => if item.Some? && item.value.kind.FunctionCall? then item else None
    case ArgumentsDone(item, _, _, _) => item
    case _ => None
  }

  function NextKeys(keys: map<nat, string>, frame: Frame): map<nat, string> {
    if ToldItem(frame).Some? && frame.outputIndex.Some?
    then keys[frame.outputIndex.value := ItemKey(ToldItem(frame).value)] else keys
  }

  function FrameReports(keys: map<nat, string>, frame: Frame): seq<Report> {
    var told := if ToldItem(frame).Some? then [ItemReport(ToldItem(frame).value)] else [];
    match frame
    case OutputItemAdded(_, _) => told
    case ArgumentsDelta(itemId, outputIndex, delta) =>
      if delta.Some? then [Appends(EventKey(keys, itemId, outputIndex), delta.value)] else []
    case ArgumentsDone(item, itemId, outputIndex, arguments) =>
      var key := EventKey(NextKeys(keys, frame), itemId, outputIndex);
      if item.None? && arguments.Some? then [Describes(key, None, None, arguments), Done(key)]
      else told + [Done(key)]
    case OutputItemDone(item, itemId, outputIndex) =>
      if told == [] then []
      else told + [Done(EventKey(NextKeys(keys, frame), itemId, outputIndex))]
    case ResponseCompleted(output) => OutputReports(output.GetOr([]))
    case ResponseIncomplete(_, output) => OutputReports(output.GetOr([]))
    case _ => []
  }

  function Keys(frames: seq<Frame>): map<nat, string> {
    if frames == [] then map[] else NextKeys(Keys(frames[..|frames| - 1]), frames[|frames| - 1])
  }

  function Reports(frames: seq<Frame>): seq<Report> {
    if frames == [] then []
    else var before := frames[..|frames| - 1];
         Reports(before) + FrameReports(Keys(before), frames[|frames| - 1])
  }

  // ---------------------------------------------------------------------------------------------
  // The calls a list of reports asks for
  // ---------------------------------------------------------------------------------------------

  predicate Mentioned(reports: seq<Report>, key: string) {
    exists i :: 0 <= i < |reports| && !reports[i].Done? && reports[i].key == key
  }

  function PartialOf(reports: seq<Report>, key: string): PartialToolCall {
    if reports == [] then NO_CALL
    else
      var p := PartialOf(reports[..|reports| - 1], key);
      match reports[|reports| - 1]
      case Describes(k, callId, name, arguments) => if k == key then Describe(p, callId, name, arguments) else p
      case Appends(k, delta) => if k == key then p.(argumentsJson := p.argumentsJson + delta) else p
      case Done(_) => p
  }

  /** Position `n` holds the first done report of its key, and the key was mentioned before. */
  predicate CallAt(reports: seq<Report>, n: nat) {
    && n < |reports| && reports[n].Done?
    && reports[n] !in reports[..n]
    && Mentioned(reports[..n], reports[n].key)
  }

  function CallOf(sc: Scope, before: seq<Report>, key: string): ToolCall
    requires PartialOf(before, key).name in sc.aliases
  {
    var p := PartialOf(before, key);
    ToolCall(if p.id == "" then key else p.id, sc.aliases[p.name], p.argumentsJson)
  }

  /** The calls in order, or nothing when one of them has a name the codec does not know. */
  function Calls(sc: Scope, reports: seq<Report>): Option<seq<ToolCall>> {
    if reports == [] then Some([])
    else
      var n := |reports| - 1;
      match Calls(sc, reports[..n])
      case None => None
      case Some(calls) =>
        if !CallAt(reports, n) then Some(calls)
        else if PartialOf(reports[..n], reports[n].key).name !in sc.aliases then None
        else Some(calls + [CallOf(sc, reports[..n], reports[n].key)])
  }

  // ---------------------------------------------------------------------------------------------
  // The stream state agrees with the reports
  // ---------------------------------------------------------------------------------------------

  ghost predicate SameTools(s: StreamState, t: StreamState) {
    && s.toolCalls == t.toolCalls && s.emittedToolCalls == t.emittedToolCalls
    && s.toolKeysByOutputIndex == t.toolKeysByOutputIndex
  }

  /** Key by key: emitted means reported done; before that, the state holds what the reports say. */
  ghost predicate KeyAgrees(s: StreamState, reports: seq<Report>, key: string) {
    && (key in s.emittedToolCalls <==> Done(key) in reports)
    && (key !in s.emittedToolCalls ==>
         && (key in s.toolCalls <==> Mentioned(reports, key))
         && PartialAt(s, key) == PartialOf(reports, key))
  }

  ghost predicate Agrees(s: StreamState, reports: seq<Report>) {
    forall key :: KeyAgrees(s, reports, key)
  }

  lemma OneMoreReport(reports: seq<Report>, r: Report, key: string)
    ensures Done(key) in reports + [r] <==> Done(key) in reports || r == Done(key)
    ensures Mentioned(reports + [r], key) <==> Mentioned(reports, key) || (!r.Done? && r.key == key)
    ensures (r.Done? || r.key != key) ==> PartialOf(reports + [r], key) == PartialOf(reports, key)
    ensures (r.Describes? && r.key == key) ==>
              PartialOf(reports + [r], key) == Describe(PartialOf(reports, key), r.callId, r.name, r.arguments)
    ensures (r.Appends? && r.key == key) ==>
              var p := PartialOf(reports, key);
              PartialOf(reports + [r], key) == p.(argumentsJson := p.argumentsJson + r.delta)
  {
    var all := reports + [r];
    assert all[..|all| - 1] == reports && all[|all| - 1] == r;
    if Mentioned(reports, key) {
      var i :| 0 <= i < |reports| && !reports[i].Done? && reports[i].key == key;
      assert all[i] == reports[i];
    }
    if !r.Done? && r.key == key {
      assert !all[|reports|].Done?;
    }
  }

  lemma CallsUnchanged(sc: Scope, reports: seq<Report>, r: Report)
    requires !r.Done? || r in reports || !Mentioned(reports, r.key)
    ensures Calls(sc, reports + [r]) == Calls(sc, reports)
  {
    var all := reports + [r];
    assert all[..|all| - 1] == reports && all[|all| - 1] == r;
  }

  lemma {:induction false} CallsNeverRecover(sc: Scope, reports: seq<Report>, more: seq<Report>)
    requires Calls(sc, reports).None?
    ensures Calls(sc, reports + more).None?
    decreases |more|
  {
    if more == [] {
      assert reports + more == reports;
    } else {
      CallsNeverRecover(sc, reports, more[..|more| - 1]);
      var all := reports + more;
      assert all[..|all| - 1] == reports + more[..|more| - 1];
    }
  }

  /** The state describes a call the way the report does. */
  lemma TellAgrees(sc: Scope, s: StreamState, t: StreamState, reports: seq<Report>, r: Report)
    requires Agrees(s, reports) && !r.Done?
    requires t.emittedToolCalls == s.emittedToolCalls
    requires t.toolCalls == s.toolCalls[r.key :=
               match r
               case Describes(_, callId, name, arguments) => Describe(PartialAt(s, r.key), callId, name, arguments)
               case Appends(_, delta) =>
                 var p := PartialAt(s, r.key); p.(argumentsJson := p.argumentsJson + delta)]
    ensures Agrees(t, reports + [r])
    ensures Calls(sc, reports + [r]) == Calls(sc, reports)
  {
    CallsUnchanged(sc, reports, r);
    forall key
      ensures KeyAgrees(t, reports + [r], key)
    {
      assert KeyAgrees(s, reports, key);
      OneMoreReport(reports, r, key);
    }
  }

  /** Reporting a call done emits it exactly when it is the first such report of a mentioned key. */
  lemma EmitAgrees(sc: Scope, s: StreamState, reports: seq<Report>, key: string)
    requires Agrees(s, reports) && Calls(sc, reports).Some?
    ensures match EmitToolCall(sc, s, key)
            case Err(_) => Calls(sc, reports + [Done(key)]).None?
            case Ok(step) =>
              && Agrees(step.state, reports + [Done(key)])
              && step.state.toolKeysByOutputIndex == s.toolKeysByOutputIndex
              && Calls(sc, reports + [Done(key)])
                 == Some(Calls(sc, reports).value + ToolCalls(step.events))
  {
    assert KeyAgrees(s, reports, key);
    var all := reports + [Done(key)];
    assert all[..|all| - 1] == reports && all[|all| - 1] == Done(key);
    var out := EmitToolCall(sc, s, key);
    EmitEvents(sc, s, key);
    if key in s.emittedToolCalls || key !in s.toolCalls {
      CallsUnchanged(sc, reports, Done(key));
      assert Calls(sc, reports).value + [] == Calls(sc, reports).value;
    }
    if out.Ok? {
      forall k
        ensures KeyAgrees(out.value.state, all, k)
      {
        assert KeyAgrees(s, reports, k);
        OneMoreReport(reports, Done(key), k);
      }
    }
  }

  lemma EmitEvents(sc: Scope, s: StreamState, key: string)
    ensures match EmitToolCall(sc, s, key)
            case Err(_) => key !in s.emittedToolCalls && key in s.toolCalls && s.toolCalls[key].name !in sc.aliases
            case Ok(step) =>
              && step.state.toolCalls == s.toolCalls
              && step.state.toolKeysByOutputIndex == s.toolKeysByOutputIndex
              && step.state.emittedToolCalls == s.emittedToolCalls + {key}
              && ToolCalls(step.events) ==
                 if key in s.emittedToolCalls || key !in s.toolCalls then []
                 else
                   var p := s.toolCalls[key];
                   [ToolCall(if p.id == "" then key else p.id,
                             if p.name in sc.aliases then sc.aliases[p.name] else "", p.argumentsJson)]
  {
    var out := EmitToolCall(sc, s, key);
    if out.Ok? && key !in s.emittedToolCalls && key in s.toolCalls {
      var start := EnsureStarted(sc, s.(emittedToolCalls := s.emittedToolCalls + {key}));
      var event := CallEvent(sc, key, s.toolCalls[key]).value;
      ToolCallsOfTwo(start.events, [event]);
      assert ToolCalls(start.events) == [];
    }
  }

  /** Reports about a call that was emitted before change nothing. */
  lemma LateReportAgrees(sc: Scope, s: StreamState, reports: seq<Report>, item: Item)
    requires Agrees(s, reports) && ItemKey(item) in s.emittedToolCalls
    ensures Agrees(s, reports + [ItemReport(item), Done(ItemKey(item))])
    ensures Calls(sc, reports + [ItemReport(item), Done(ItemKey(item))]) == Calls(sc, reports)
  {
    var k := ItemKey(item);
    var r := ItemReport(item);
    assert KeyAgrees(s, reports, k);
    assert reports + [r, Done(k)] == (reports + [r]) + [Done(k)];
    CallsUnchanged(sc, reports, r);
    OneMoreReport(reports, r, k);
    CallsUnchanged(sc, reports + [r], Done(k));
    forall key
      ensures KeyAgrees(s, reports + [r, Done(k)], key)
    {
      assert KeyAgrees(s, reports, key);
      OneMoreReport(reports, r, key);
      OneMoreReport(reports + [r], Done(k), key);
    }
  }

  /** What a step must be to agree with the reports that come with it. */
  ghost predicate StepAgrees(sc: Scope, s: StreamState, reports: seq<Report>, more: seq<Report>, out: Outcome) {
    match out
    case Err(_) => Calls(sc, reports + more).None?
    case Ok(step) =>
      && Agrees(step.state, reports + more)
      && Calls(sc, reports + more) == Some(Calls(sc, reports).GetOr([]) + ToolCalls(step.events))
  }

  lemma SameToolsAgree(s: StreamState, t: StreamState, reports: seq<Report>)
    requires Agrees(s, reports) && SameTools(s, t)
    ensures Agrees(t, reports)
  {
    forall key
      ensures KeyAgrees(t, reports, key)
    {
      assert KeyAgrees(s, reports, key);
    }
  }

  lemma QuietStepAgrees(
      sc: Scope, s: StreamState, t: StreamState, reports: seq<Report>, more: seq<Report>,
      events: seq<ModelStreamEvent>)
    requires Agrees(t, reports + more) && Calls(sc, reports).Some?
    requires Calls(sc, reports + more) == Calls(sc, reports) && NoCalls(events)
    ensures StepAgrees(sc, s, reports, more, Ok(Step(t, events)))
  {
    NoCallsIn(events);
    assert Calls(sc, reports).value + [] == Calls(sc, reports).value;
  }

  lemma OtherFrameIsQuiet(sc: Scope, s: StreamState, frame: Frame)
    requires !frame.Malformed? && !frame.OutputItemAdded? && !frame.ArgumentsDelta? && !frame.ArgumentsDone?
    requires !frame.ResponseCompleted? && !frame.ResponseIncomplete?
    requires frame.OutputItemDone? ==> ToldItem(frame).None?
    ensures ApplyFrame(sc, s, frame).Ok?
    ensures var step := ApplyFrame(sc, s, frame).value;
            SameTools(s, step.state) && NoCalls(step.events)
  {
    hide FallbackStreamId, IsReplayable, ItemThinkingKind;
    if frame.ReasoningDelta? {
      ReasoningDeltaIsQuiet(sc, s, frame);
      hide ApplyFrame;
    } else if frame.ReasoningDone? {
      ReasoningDoneIsQuiet(sc, s, frame);
      hide ApplyFrame;
    }
    hide Complete, EmitToolCall, AbsorbItem, SetArguments, AppendArguments, EventKey;
  }

  lemma StartIsQuiet(sc: Scope, s: StreamState, told: StreamState, event: ModelStreamEvent)
    requires SameTools(s, told) && !event.ToolCallEvent?
    ensures var start := EnsureStarted(sc, told);
            SameTools(s, start.state) && NoCalls(start.events + [event])
  {
  }

  lemma ReasoningDeltaIsQuiet(sc: Scope, s: StreamState, frame: Frame)
    requires frame.ReasoningDelta?
    ensures ApplyFrame(sc, s, frame).Ok?
    ensures var step := ApplyFrame(sc, s, frame).value;
            SameTools(s, step.state) && NoCalls(step.events)
  {
    if frame.delta.Some? && frame.delta.value != "" {
      var key := ReasoningKey(frame.itemId, frame.outputIndex);
      var r := if key in s.reasoning then s.reasoning[key] else NO_REASONING;
      var told := s.(reasoning := s.reasoning[key := ReasoningState(frame.thinking, r.text + frame.delta.value)]);
      StartIsQuiet(sc, s, told, ThinkingDelta(frame.thinking, frame.delta, None, Some(key), false));
      hide EnsureStarted, SameTools, NoCalls, ReasoningKey;
    }
  }

  lemma ReasoningDoneIsQuiet(sc: Scope, s: StreamState, frame: Frame)
    requires frame.ReasoningDone?
    ensures ApplyFrame(sc, s, frame).Ok?
    ensures var step := ApplyFrame(sc, s, frame).value;
            SameTools(s, step.state) && NoCalls(step.events)
  {
    var key := ReasoningKey(frame.itemId, frame.outputIndex);
    var r := if key in s.reasoning then s.reasoning[key] else NO_REASONING;
    var told := if frame.text.Some? then s.(reasoning := s.reasoning[key := r.(text := frame.text.value)]) else s;
    if key in told.reasoning {
      var r' := told.reasoning[key];
      StartIsQuiet(sc, s, told, ThinkingDelta(r'.kind, None, Some(TextSnapshot(key, r')), Some(key), false));
      hide EnsureStarted, SameTools, NoCalls, ReasoningKey, TextSnapshot;
    }
  }

  /** Frames that say nothing about tool calls emit none and leave the tool state alone. */
  lemma OtherFrameAgrees(sc: Scope, s: StreamState, reports: seq<Report>, frame: Frame)
    requires !frame.Malformed? && !frame.OutputItemAdded? && !frame.ArgumentsDelta? && !frame.ArgumentsDone?
    requires !frame.ResponseCompleted? && !frame.ResponseIncomplete?
    requires frame.OutputItemDone? ==> ToldItem(frame).None?
    requires Agrees(s, reports) && Calls(sc, reports).Some?
    ensures StepAgrees(sc, s, reports, [], ApplyFrame(sc, s, frame))
    ensures ApplyFrame(sc, s, frame).Ok?
    ensures ApplyFrame(sc, s, frame).value.state.toolKeysByOutputIndex == s.toolKeysByOutputIndex
  {
    OtherFrameIsQuiet(sc, s, frame);
    hide ApplyFrame, Agrees, Calls;
    assert reports + [] == reports;
    match ApplyFrame(sc, s, frame)
    case Err(_) =>
    case Ok(step) =>
      SameToolsAgree(s, step.state, reports);
      QuietStepAgrees(sc, s, step.state, reports, [], step.events);
  }

  lemma CallReportAgrees(
      sc: Scope, s: StreamState, told: StreamState, reports: seq<Report>, more: seq<Report>, key: string)
    requires Agrees(told, reports + more) && Calls(sc, reports).Some?
    requires Calls(sc, reports + more) == Calls(sc, reports)
    ensures StepAgrees(sc, s, reports, more + [Done(key)], EmitToolCall(sc, told, key))
    ensures EmitToolCall(sc, told, key).Ok? ==>
              EmitToolCall(sc, told, key).value.state.toolKeysByOutputIndex == told.toolKeysByOutputIndex
  {
    hide Agrees, Calls, EmitToolCall;
    EmitAgrees(sc, told, reports + more, key);
    assert reports + (more + [Done(key)]) == (reports + more) + [Done(key)];
  }

  lemma ItemAgrees(sc: Scope, s: StreamState, reports: seq<Report>, item: Item)
    requires Agrees(s, reports) && Calls(sc, reports).Some?
    ensures StepAgrees(sc, s, reports, ItemReports(item), OutputItem(sc, s, item))
    ensures OutputItem(sc, s, item).Ok? ==>
              OutputItem(sc, s, item).value.state.toolKeysByOutputIndex == s.toolKeysByOutputIndex
  {
    hide Agrees, StepAgrees, Calls, EmitToolCall, ItemKey;
    assert reports + [] == reports;
    match item.kind
    case FunctionCall =>
      var r, key := ItemReport(item), ItemKey(item);
      if key in s.emittedToolCalls {
        LateReportAgrees(sc, s, reports, item);
        QuietStepAgrees(sc, s, s, reports, [r, Done(key)], []);
      } else {
        var told := AbsorbItem(s, item, None);
        TellAgrees(sc, s, told, reports, r);
        CallReportAgrees(sc, s, told, reports, [r], key);
        assert [r] + [Done(key)] == [r, Done(key)];
      }
    case Reasoning =>
      var step := EmitReasoningItem(sc, s, item);
      SameToolsAgree(s, step.state, reports);
      QuietStepAgrees(sc, s, step.state, reports, [], step.events);
    case OtherItem =>
      QuietStepAgrees(sc, s, s, reports, [], []);
  }

  /** Two steps that agree with their reports agree together. */
  lemma StepsAgree(
      sc: Scope, s: StreamState, reports: seq<Report>, some: seq<Report>, rest: seq<Report>, first: Step, out: Outcome)
    requires Calls(sc, reports).Some?
    requires Calls(sc, reports + some) == Some(Calls(sc, reports).value + ToolCalls(first.events))
    requires StepAgrees(sc, first.state, reports + some, rest, out)
    ensures StepAgrees(sc, s, reports, some + rest, if out.Ok? then Ok(out.value.After(first.events)) else out)
  {
    hide Calls;
    assert reports + (some + rest) == (reports + some) + rest;
    if out.Ok? {
      ToolCallsOfTwo(first.events, out.value.events);
      var calls := Calls(sc, reports).value;
      assert (calls + ToolCalls(first.events)) + ToolCalls(out.value.events)
          == calls + (ToolCalls(first.events) + ToolCalls(out.value.events));
    }
  }

  lemma FailureAgrees(
      sc: Scope, s: StreamState, reports: seq<Report>, some: seq<Report>, rest: seq<Report>, e: StreamError)
    requires StepAgrees(sc, s, reports, some, Err(e))
    ensures StepAgrees(sc, s, reports, some + rest, Err(e))
  {
    CallsNeverRecover(sc, reports + some, rest);
    assert reports + (some + rest) == (reports + some) + rest;
  }

  lemma {:induction false} OutputAgrees(sc: Scope, s: StreamState, reports: seq<Report>, output: seq<Item>)
    requires Agrees(s, reports) && Calls(sc, reports).Some?
    ensures StepAgrees(sc, s, reports, OutputReports(output), OutputItems(sc, s, output))
    ensures OutputItems(sc, s, output).Ok? ==>
              OutputItems(sc, s, output).value.state.toolKeysByOutputIndex == s.toolKeysByOutputIndex
    decreases |output|
  {
    if output == [] {
      assert reports + [] == reports;
      QuietStepAgrees(sc, s, s, reports, [], []);
    } else {
      var some, rest := ItemReports(output[0]), OutputReports(output[1..]);
      ItemAgrees(sc, s, reports, output[0]);
      match OutputItem(sc, s, output[0])
      case Err(e) =>
        FailureAgrees(sc, s, reports, some, rest, e);
      case Ok(first) =>
        assert Agrees(first.state, reports + some) && Calls(sc, reports + some).Some?;
        OutputAgrees(sc, first.state, reports + some, output[1..]);
        StepsAgree(sc, s, reports, some, rest, first, OutputItems(sc, first.state, output[1..]));
    }
    hide Agrees, Calls, StepAgrees, OutputItem;
  }

  lemma CompleteAgrees(sc: Scope, s: StreamState, reports: seq<Report>, output: Option<seq<Item>>)
    requires Agrees(s, reports) && Calls(sc, reports).Some?
    ensures StepAgrees(sc, s, reports, OutputReports(output.GetOr([])), Complete(sc, s, output))
    ensures Complete(sc, s, output).Ok? ==>
              Complete(sc, s, output).value.state.toolKeysByOutputIndex == s.toolKeysByOutputIndex
  {
    var start := EnsureStarted(sc, s);
    var more := OutputReports(output.GetOr([]));
    assert SameTools(s, start.state) && NoCalls(start.events);
    SameToolsAgree(s, start.state, reports);
    OutputAgrees(sc, start.state, reports, output.GetOr([]));
    var items := OutputItems(sc, start.state, output.GetOr([]));
    hide OutputItems, EnsureStarted, Agrees, Calls;
    if items.Ok? {
      var finish := FinishEvents(sc, items.value.state.(done := true));
      FinishIsQuiet(sc, items.value.state.(done := true));
      SameToolsAgree(items.value.state, finish.state, reports + more);
      hide FinishEvents;
      CallsOfThree(start.events, items.value.events, finish.events);
    }
  }

  lemma FinishIsQuiet(sc: Scope, s: StreamState)
    ensures SameTools(s, FinishEvents(sc, s).state) && NoCalls(FinishEvents(sc, s).events)
  {
  }

  lemma CallsOfThree(a: seq<ModelStreamEvent>, b: seq<ModelStreamEvent>, c: seq<ModelStreamEvent>)
    requires NoCalls(a) && NoCalls(c)
    ensures ToolCalls(a + b + c) == ToolCalls(b)
  {
    NoCallsIn(a);
    NoCallsIn(c);
    ToolCallsOfTwo(a, b);
    ToolCallsOfTwo(a + b, c);
    assert [] + ToolCalls(b) + [] == ToolCalls(b);
  }

  /** A frame that tells an item and reports the call `named` done. */
  lemma ToldItemAgrees(
      sc: Scope, s: StreamState, reports: seq<Report>, item: Item, outputIndex: Option<nat>, named: string)
    requires Agrees(s, reports) && Calls(sc, reports).Some?
    ensures var told := AbsorbItem(s, item, outputIndex);
            && StepAgrees(sc, s, reports, [ItemReport(item), Done(named)], EmitToolCall(sc, told, named))
            && (EmitToolCall(sc, told, named).Ok? ==>
                 EmitToolCall(sc, told, named).value.state.toolKeysByOutputIndex == told.toolKeysByOutputIndex)
  {
    hide Agrees, StepAgrees, Calls, EmitToolCall, ItemKey;
    var told := AbsorbItem(s, item, outputIndex);
    TellAgrees(sc, s, told, reports, ItemReport(item));
    CallReportAgrees(sc, s, told, reports, [ItemReport(item)], named);
    assert [ItemReport(item)] + [Done(named)] == [ItemReport(item), Done(named)];
  }

  /** A frame that gives a call its full arguments and reports it done. */
  lemma SetArgumentsAgrees(sc: Scope, s: StreamState, reports: seq<Report>, key: string, arguments: string)
    requires Agrees(s, reports) && Calls(sc, reports).Some?
    ensures var told := SetArguments(s, key, arguments);
            && StepAgrees(sc, s, reports, [Describes(key, None, None, Some(arguments)), Done(key)],
                          EmitToolCall(sc, told, key))
            && (EmitToolCall(sc, told, key).Ok? ==>
                 EmitToolCall(sc, told, key).value.state.toolKeysByOutputIndex == s.toolKeysByOutputIndex)
  {
    hide Agrees, StepAgrees, Calls, EmitToolCall;
    var told, r := SetArguments(s, key, arguments), Describes(key, None, None, Some(arguments));
    TellAgrees(sc, s, told, reports, r);
    CallReportAgrees(sc, s, told, reports, [r], key);
    assert [r] + [Done(key)] == [r, Done(key)];
  }

  lemma ArgumentsDoneAgrees(sc: Scope, s: StreamState, reports: seq<Report>, frame: Frame)
    requires frame.ArgumentsDone? && Agrees(s, reports) && Calls(sc, reports).Some?
    ensures StepAgrees(sc, s, reports, FrameReports(s.toolKeysByOutputIndex, frame), ApplyFrame(sc, s, frame))
    ensures ApplyFrame(sc, s, frame).Ok? ==>
              ApplyFrame(sc, s, frame).value.state.toolKeysByOutputIndex == NextKeys(s.toolKeysByOutputIndex, frame)
  {
    hide Agrees, StepAgrees, Calls, EmitToolCall, EventKey, ItemKey;
    var key := EventKey(NextKeys(s.toolKeysByOutputIndex, frame), frame.itemId, frame.outputIndex);
    if frame.item.Some? {
      ToldItemAgrees(sc, s, reports, frame.item.value, frame.outputIndex, key);
      assert FrameReports(s.toolKeysByOutputIndex, frame) == [ItemReport(frame.item.value), Done(key)];
    } else if frame.arguments.Some? {
      SetArgumentsAgrees(sc, s, reports, key, frame.arguments.value);
      hide SetArguments;
    } else {
      assert reports + [] == reports && [] + [Done(key)] == [Done(key)];
      CallReportAgrees(sc, s, s, reports, [], key);
    }
  }

  lemma ItemDoneAgrees(sc: Scope, s: StreamState, reports: seq<Report>, frame: Frame)
    requires frame.OutputItemDone? && ToldItem(frame).Some?
    requires Agrees(s, reports) && Calls(sc, reports).Some?
    ensures StepAgrees(sc, s, reports, FrameReports(s.toolKeysByOutputIndex, frame), ApplyFrame(sc, s, frame))
    ensures ApplyFrame(sc, s, frame).Ok? ==>
              ApplyFrame(sc, s, frame).value.state.toolKeysByOutputIndex == NextKeys(s.toolKeysByOutputIndex, frame)
  {
    hide Agrees, StepAgrees, Calls, EmitToolCall, EventKey, ItemKey;
    var key := EventKey(NextKeys(s.toolKeysByOutputIndex, frame), frame.itemId, frame.outputIndex);
    ToldItemAgrees(sc, s, reports, frame.item.value, frame.outputIndex, key);
    assert FrameReports(s.toolKeysByOutputIndex, frame) == [ItemReport(frame.item.value), Done(key)];
  }

  lemma ItemAddedAgrees(sc: Scope, s: StreamState, reports: seq<Report>, frame: Frame)
    requires frame.OutputItemAdded? && Agrees(s, reports) && Calls(sc, reports).Some?
    ensures StepAgrees(sc, s, reports, FrameReports(s.toolKeysByOutputIndex, frame), ApplyFrame(sc, s, frame))
    ensures ApplyFrame(sc, s, frame).Ok? ==>
              ApplyFrame(sc, s, frame).value.state.toolKeysByOutputIndex == NextKeys(s.toolKeysByOutputIndex, frame)
  {
    hide Agrees, StepAgrees, Calls, ItemKey;
    if ToldItem(frame).Some? {
      var told := AbsorbItem(s, frame.item.value, frame.outputIndex);
      TellAgrees(sc, s, told, reports, ItemReport(frame.item.value));
      QuietStepAgrees(sc, s, told, reports, [ItemReport(frame.item.value)], []);
    } else {
      assert reports + [] == reports;
      QuietStepAgrees(sc, s, s, reports, [], []);
    }
  }

  lemma DeltaAgrees(sc: Scope, s: StreamState, reports: seq<Report>, frame: Frame)
    requires frame.ArgumentsDelta? && Agrees(s, reports) && Calls(sc, reports).Some?
    ensures StepAgrees(sc, s, reports, FrameReports(s.toolKeysByOutputIndex, frame), ApplyFrame(sc, s, frame))
    ensures ApplyFrame(sc, s, frame).Ok? ==>
              ApplyFrame(sc, s, frame).value.state.toolKeysByOutputIndex == NextKeys(s.toolKeysByOutputIndex, frame)
  {
    hide Agrees, StepAgrees, Calls, EventKey;
    if frame.delta.Some? {
      var key := EventKey(s.toolKeysByOutputIndex, frame.itemId, frame.outputIndex);
      var told := AppendArguments(s, key, frame.delta.value);
      TellAgrees(sc, s, told, reports, Appends(key, frame.delta.value));
      QuietStepAgrees(sc, s, told, reports, [Appends(key, frame.delta.value)], []);
    } else {
      assert reports + [] == reports;
      QuietStepAgrees(sc, s, s, reports, [], []);
    }
  }

  lemma FrameAgrees(sc: Scope, s: StreamState, reports: seq<Report>, frame: Frame)
    requires !frame.Malformed? && Agrees(s, reports) && Calls(sc, reports).Some?
    ensures StepAgrees(sc, s, reports, FrameReports(s.toolKeysByOutputIndex, frame), ApplyFrame(sc, s, frame))
    ensures ApplyFrame(sc, s, frame).Ok? ==>
              ApplyFrame(sc, s, frame).value.state.toolKeysByOutputIndex == NextKeys(s.toolKeysByOutputIndex, frame)
  {
    hide Agrees, StepAgrees, Calls, SameTools, EventKey, ItemKey, FallbackStreamId, Complete;
    assert reports + [] == reports;
    match frame
    case OutputItemAdded(_, _) => ItemAddedAgrees(sc, s, reports, frame);
    case ArgumentsDelta(_, _, _) => DeltaAgrees(sc, s, reports, frame);
    case ArgumentsDone(_, _, _, _) => ArgumentsDoneAgrees(sc, s, reports, frame);
    case ResponseCompleted(output) => CompleteAgrees(sc, s, reports, output);
    case ResponseIncomplete(reason, output) =>
      IncompleteAgrees(sc, s, reports, reason, output);
    case _ =>
      if frame.OutputItemDone? && ToldItem(frame).Some? {
        ItemDoneAgrees(sc, s, reports, frame);
      } else {
        OtherFrameAgrees(sc, s, reports, frame);
      }
  }

  lemma IncompleteAgrees(
      sc: Scope, s: StreamState, reports: seq<Report>, reason: Option<string>, output: Option<seq<Item>>)
    requires Agrees(s, reports) && Calls(sc, reports).Some?
    ensures var told := s.(stopReason := Some(IncompleteReason(reason)));
            && StepAgrees(sc, s, reports, OutputReports(output.GetOr([])), Complete(sc, told, output))
            && (Complete(sc, told, output).Ok? ==>
                 Complete(sc, told, output).value.state.toolKeysByOutputIndex == s.toolKeysByOutputIndex)
  {
    var told := s.(stopReason := Some(IncompleteReason(reason)));
    SameToolsAgree(s, told, reports);
    CompleteAgrees(sc, told, reports, output);
  }

  /** What is known of a whole stream: when it fails, and that its state and its calls follow the reports. */
  ghost predicate FollowsReports(sc: Scope, frames: seq<Frame>) {
    && (ApplyFrames(sc, frames).Ok? <==> Malformed !in frames && Calls(sc, Reports(frames)).Some?)
    && (ApplyFrames(sc, frames).Ok? ==>
         && Calls(sc, Reports(frames)) == Some(ToolCalls(ApplyFrames(sc, frames).value.events))
         && Agrees(ApplyFrames(sc, frames).value.state, Reports(frames))
         && ApplyFrames(sc, frames).value.state.toolKeysByOutputIndex == Keys(frames))
  }

  lemma OneMoreFrame(sc: Scope, before: seq<Frame>, last: Frame)
    ensures Reports(before + [last]) == Reports(before) + FrameReports(Keys(before), last)
    ensures Keys(before + [last]) == NextKeys(Keys(before), last)
    ensures Malformed in before + [last] <==> Malformed in before || last == Malformed
    ensures ApplyFrames(sc, before).Err? ==> ApplyFrames(sc, before + [last]).Err?
    ensures ApplyFrames(sc, before).Ok? ==>
              var b := ApplyFrames(sc, before).value;
              var step := ApplyFrame(sc, b.state, last);
              ApplyFrames(sc, before + [last])
                == if step.Err? then Err(step.error) else Ok(step.value.After(b.events))
  {
    var all := before + [last];
    assert all[..|all| - 1] == before && all[|all| - 1] == last;
    hide ApplyFrame, FrameReports, NextKeys;
  }

  lemma FrameFollows(sc: Scope, before: seq<Frame>, last: Frame)
    requires FollowsReports(sc, before)
    ensures FollowsReports(sc, before + [last])
  {
    OneMoreFrame(sc, before, last);
    var said, more := Reports(before), FrameReports(Keys(before), last);
    hide Agrees, Calls, FrameReports, NextKeys, Reports, Keys, ApplyFrames;
    if Calls(sc, said).None? {
      CallsNeverRecover(sc, said, more);
    } else if ApplyFrames(sc, before).Ok? && last != Malformed {
      var b := ApplyFrames(sc, before).value;
      FrameAgrees(sc, b.state, said, last);
      hide ApplyFrame;
      if ApplyFrame(sc, b.state, last).Ok? {
        ToolCallsOfTwo(b.events, ApplyFrame(sc, b.state, last).value.events);
      }
    }
  }

  /**
   For every frame sequence: the stream fails exactly when a frame is not JSON or a call's name is unknown,
   and otherwise its tool-call events are exactly the calls the reports ask for, in order.
   */
  lemma {:induction false} ToolCallsFollowReports(sc: Scope, frames: seq<Frame>)
    ensures ApplyFrames(sc, frames).Ok? <==> Malformed !in frames && Calls(sc, Reports(frames)).Some?
    ensures ApplyFrames(sc, frames).Ok? ==>
              && Calls(sc, Reports(frames)) == Some(ToolCalls(ApplyFrames(sc, frames).value.events))
              && Agrees(ApplyFrames(sc, frames).value.state, Reports(frames))
              && ApplyFrames(sc, frames).value.state.toolKeysByOutputIndex == Keys(frames)
  {
    if frames == [] {
      assert forall key :: KeyAgrees(INITIAL, [], key);
    } else {
      var before, last := frames[..|frames| - 1], frames[|frames| - 1];
      ToolCallsFollowReports(sc, before);
      hide ApplyFrames, Agrees, Calls, Reports, Keys;
      FrameFollows(sc, before, last);
      assert frames == before + [last];
    }
  }

  // ---------------------------------------------------------------------------------------------
  // What the calls of a list of reports are
  // ---------------------------------------------------------------------------------------------

  function CallPositions(reports: seq<Report>): seq<nat> {
    if reports == [] then []
    else
      var n := |reports| - 1;
      CallPositions(reports[..n]) + if CallAt(reports, n) then [n] else []
  }

  /**
   One call per key: the positions of the calls are exactly the first done reports of mentioned keys,
   in order, and no two of them have the same key.
   */
  lemma {:induction false} EachKeyOnce(reports: seq<Report>)
    ensures var ps := CallPositions(reports);
            && (forall n :: n in ps <==> CallAt(reports, n))
            && (forall i, j :: 0 <= i < j < |ps| ==>
                 ps[i] < ps[j] < |reports| && reports[ps[i]].key != reports[ps[j]].key)
  {
    if reports != [] {
      var n := |reports| - 1;
      var before := CallPositions(reports[..n]);
      EachKeyOnce(reports[..n]);
      assert forall m :: 0 <= m < n ==> reports[..n][..m] == reports[..m];
      assert forall m :: 0 <= m < n ==> (CallAt(reports[..n], m) <==> CallAt(reports, m));
      forall i | 0 <= i < |before|
        ensures before[i] < n && (CallAt(reports, n) ==> reports[before[i]].key != reports[n].key)
      {
        assert before[i] in before;
        assert CallAt(reports[..n], before[i]);
        assert reports[before[i]] in reports[..n];
      }
    }
  }

  /** The `i`-th tool call of the reports is the one of `key`. */
  predicate IsCalledAt(reports: seq<Report>, i: nat, key: string) {
    i < |CallPositions(reports)| && CallPositions(reports)[i] < |reports|
    && reports[CallPositions(reports)[i]].key == key
  }

  lemma {:induction false} FirstDone(reports: seq<Report>, key: string)
    requires Done(key) in reports
    ensures exists n :: 0 <= n < |reports| && reports[n] == Done(key) && Done(key) !in reports[..n]
  {
    var before := reports[..|reports| - 1];
    if Done(key) in before {
      FirstDone(before, key);
      var n :| 0 <= n < |before| && before[n] == Done(key) && Done(key) !in before[..n];
      assert reports[..n] == before[..n] && reports[n] == before[n];
    } else {
      assert reports[|reports| - 1] == Done(key);
    }
  }

  /** The key is reported done before anything was said about it. */
  ghost predicate IsDoneEarly(reports: seq<Report>, key: string) {
    exists n :: 0 <= n < |reports| && reports[n] == Done(key) && !Mentioned(reports[..n], key)
  }

  /** A key has a call if and only if it is reported done, and not before it is mentioned. */
  lemma KeyIsCalledIff(reports: seq<Report>, key: string)
    ensures (exists i: nat :: IsCalledAt(reports, i, key)) <==> Done(key) in reports && !IsDoneEarly(reports, key)
  {
    var ps := CallPositions(reports);
    EachKeyOnce(reports);
    hide CallPositions;
    forall i: nat | IsCalledAt(reports, i, key)
      ensures Done(key) in reports && !IsDoneEarly(reports, key)
    {
      assert ps[i] in ps && CallAt(reports, ps[i]);
      forall n | 0 <= n < |reports| && reports[n] == Done(key)
        ensures Mentioned(reports[..n], key)
      {
        DoneStays(reports, n);
        MentionStays(reports, ps[i], n, key);
      }
    }
    if Done(key) in reports && !IsDoneEarly(reports, key) {
      FirstDone(reports, key);
      var n :| 0 <= n < |reports| && reports[n] == Done(key) && Done(key) !in reports[..n];
      assert CallAt(reports, n) && n in ps;
      var i :| 0 <= i < |ps| && ps[i] == n;
      assert IsCalledAt(reports, i, key);
    }
  }

  lemma DoneStays(reports: seq<Report>, n: nat)
    requires n < |reports|
    ensures forall m :: n < m <= |reports| ==> reports[n] in reports[..m]
  {
    forall m | n < m <= |reports|
      ensures reports[n] in reports[..m]
    {
      assert reports[..m][n] == reports[n];
    }
  }

  lemma MentionStays(reports: seq<Report>, m: nat, n: nat, key: string)
    requires m <= n <= |reports| && Mentioned(reports[..m], key)
    ensures Mentioned(reports[..n], key)
  {
    var i :| 0 <= i < m && !reports[..m][i].Done? && reports[..m][i].key == key;
    assert reports[..n][i] == reports[..m][i];
  }

  /** Each call is put together from the reports before its position. */
  lemma {:induction false} CallsAtPositions(sc: Scope, reports: seq<Report>)
    requires Calls(sc, reports).Some?
    ensures var ps := CallPositions(reports);
            var calls := Calls(sc, reports).value;
            && |calls| == |ps|
            && (forall i :: 0 <= i < |ps| ==>
                 && CallAt(reports, ps[i])
                 && var before := reports[..ps[i]];
                    var key := reports[ps[i]].key;
                    PartialOf(before, key).name in sc.aliases && calls[i] == CallOf(sc, before, key))
  {
    EachKeyOnce(reports);
    if reports != [] {
      var n := |reports| - 1;
      CallsAtPositions(sc, reports[..n]);
      assert forall m :: 0 <= m <= n ==> reports[..n][..m] == reports[..m];
    }
  }

  /** The last call id that is not empty in the descriptions of the call. */
  function LastIdSaid(reports: seq<Report>, key: string): string {
    if reports == [] then ""
    else
      var r := reports[|reports| - 1];
      if r.Describes? && r.key == key && r.callId.Some? && r.callId.value != "" then r.callId.value
      else LastIdSaid(reports[..|reports| - 1], key)
  }

  /** The last name that is not empty in the descriptions of the call. */
  function LastNameSaid(reports: seq<Report>, key: string): string {
    if reports == [] then ""
    else
      var r := reports[|reports| - 1];
      if r.Describes? && r.key == key && r.name.Some? && r.name.value != "" then r.name.value
      else LastNameSaid(reports[..|reports| - 1], key)
  }

  /** Id and name are the last ones that descriptions give; what gives none leaves them. */
  lemma {:induction false} IdAndNameAreLast(reports: seq<Report>, key: string)
    ensures PartialOf(reports, key).id == LastIdSaid(reports, key)
    ensures PartialOf(reports, key).name == LastNameSaid(reports, key)
  {
    if reports != [] {
      IdAndNameAreLast(reports[..|reports| - 1], key);
    }
  }

  /** Every call has the last id that was said before its position, or else its key, and the tool of the last name. */
  lemma CallsHaveLastNames(sc: Scope, reports: seq<Report>)
    requires Calls(sc, reports).Some?
    ensures var ps, calls := CallPositions(reports), Calls(sc, reports).value;
            && |calls| == |ps|
            && forall i :: 0 <= i < |ps| ==>
                 && ps[i] < |reports|
                 && var before, key := reports[..ps[i]], reports[ps[i]].key;
                    && calls[i].id == (if LastIdSaid(before, key) == "" then key else LastIdSaid(before, key))
                    && LastNameSaid(before, key) in sc.aliases
                    && calls[i].name == sc.aliases[LastNameSaid(before, key)]
  {
    var ps := CallPositions(reports);
    CallsAtPositions(sc, reports);
    hide CallPositions, PartialOf, Calls, LastIdSaid, LastNameSaid, Mentioned;
    forall i | 0 <= i < |ps|
      ensures ps[i] < |reports|
      ensures PartialOf(reports[..ps[i]], reports[ps[i]].key).id == LastIdSaid(reports[..ps[i]], reports[ps[i]].key)
      ensures PartialOf(reports[..ps[i]], reports[ps[i]].key).name == LastNameSaid(reports[..ps[i]], reports[ps[i]].key)
    {
      assert CallAt(reports, ps[i]);
      IdAndNameAreLast(reports[..ps[i]], reports[ps[i]].key);
    }
  }

  function Deltas(reports: seq<Report>, key: string): string {
    if reports == [] then ""
    else
      var last := reports[|reports| - 1];
      Deltas(reports[..|reports| - 1], key) + if last.Appends? && last.key == key then last.delta else ""
  }

  predicate GivesArguments(r: Report, key: string) {
    r.Describes? && r.key == key && r.arguments.Some?
  }

  /** Position `i` gives full arguments and nothing after it does. */
  predicate IsLastFull(reports: seq<Report>, key: string, i: nat)
    requires i < |reports|
  {
    GivesArguments(reports[i], key) && forall j :: i < j < |reports| ==> !GivesArguments(reports[j], key)
  }

  predicate NoFullArguments(reports: seq<Report>, key: string) {
    forall i :: 0 <= i < |reports| ==> !GivesArguments(reports[i], key)
  }

  /** A done report that carries full arguments decides them, whatever deltas came before. */
  lemma DoneReportDecidesArguments(reports: seq<Report>, r: Report)
    requires r.Describes? && r.arguments.Some?
    ensures PartialOf(reports + [r], r.key).argumentsJson == r.arguments.value
  {
    OneMoreReport(reports, r, r.key);
  }

  lemma DeltasOneMore(reports: seq<Report>, r: Report, key: string)
    ensures Deltas(reports + [r], key)
         == Deltas(reports, key) + if r.Appends? && r.key == key then r.delta else ""
  {
    var all := reports + [r];
    assert all[..|all| - 1] == reports;
  }

  lemma ArgumentsOneMore(reports: seq<Report>, r: Report, key: string)
    requires !GivesArguments(r, key)
    ensures PartialOf(reports + [r], key).argumentsJson
         == PartialOf(reports, key).argumentsJson + if r.Appends? && r.key == key then r.delta else ""
  {
    OneMoreReport(reports, r, key);
    var before := PartialOf(reports, key).argumentsJson;
    assert before + "" == before;
  }

  lemma ArgumentsStepAfterFull(before: seq<Report>, last: Report, key: string, i: nat)
    requires i < |before| && IsLastFull(before + [last], key, i)
    ensures IsLastFull(before, key, i) && !GivesArguments(last, key)
    ensures Deltas((before + [last])[i + 1..], key)
         == Deltas(before[i + 1..], key) + if last.Appends? && last.key == key then last.delta else ""
  {
    var all := before + [last];
    assert all[|before|] == last && forall j :: 0 <= j < |before| ==> all[j] == before[j];
    assert all[i + 1..] == before[i + 1..] + [last];
    DeltasOneMore(before[i + 1..], last, key);
    hide Deltas;
  }

  /** The arguments are the last full arguments reported, followed by the deltas reported after them. */
  lemma {:induction false} ArgumentsAfterFull(reports: seq<Report>, key: string, i: nat)
    requires i < |reports| && IsLastFull(reports, key, i)
    ensures PartialOf(reports, key).argumentsJson == reports[i].arguments.value + Deltas(reports[i + 1..], key)
    decreases |reports|
  {
    var n := |reports| - 1;
    var before, last := reports[..n], reports[n];
    assert reports == before + [last];
    if i == n {
      DoneReportDecidesArguments(before, last);
      assert reports[i + 1..] == [];
      hide PartialOf;
    } else {
      var full := reports[i].arguments.value;
      hide PartialOf, Deltas, IsLastFull;
      ArgumentsStepAfterFull(before, last, key, i);
      ArgumentsAfterFull(before, key, i);
      ArgumentsOneMore(before, last, key);
      var delta := if last.Appends? && last.key == key then last.delta else "";
      assert full + (Deltas(before[i + 1..], key) + delta) == (full + Deltas(before[i + 1..], key)) + delta;
    }
  }

  /** Without full arguments they are the deltas. */
  lemma {:induction false} ArgumentsAreDeltas(reports: seq<Report>, key: string)
    requires NoFullArguments(reports, key)
    ensures PartialOf(reports, key).argumentsJson == Deltas(reports, key)
  {
    if reports != [] {
      ArgumentsAreDeltas(reports[..|reports| - 1], key);
    }
  }

  lemma NoCallAfterEarlyDone(sc: Scope, r: Report)
    requires !r.Done?
    ensures Calls(sc, [Done(r.key), r, Done(r.key)]) == Some([])
  {
    var d := Done(r.key);
    assert [] + [d] == [d] && [d] + [r] == [d, r] && [d, r] + [d] == [d, r, d];
    CallsUnchanged(sc, [], d);
    CallsUnchanged(sc, [d], r);
    CallsUnchanged(sc, [d, r], d);
  }

  /**
   A done report that comes before anything was said about its key uses the key up: a call that is
   described and reported done only later is lost.
   */
  lemma EarlyDoneReportLosesCall(sc: Scope)
    ensures var item := Item(FunctionCall, Some("a"), Some("c"), Some("lookup"), Some("{}"), false, None, false, "");
            var late := [ArgumentsDone(None, Some("a"), None, None), OutputItemDone(Some(item), Some("a"), Some(0))];
            ApplyFrames(sc, late).Ok? && ToolCalls(ApplyFrames(sc, late).value.events) == []
  {
    var item := Item(FunctionCall, Some("a"), Some("c"), Some("lookup"), Some("{}"), false, None, false, "");
    var first := ArgumentsDone(None, Some("a"), None, None);
    var late := [first, OutputItemDone(Some(item), Some("a"), Some(0))];
    assert late[..1] == [first] && [first][..0] == [];
    assert Reports([first]) == [Done("a")] by {
      assert Reports([first][..0]) == [];
    }
    assert Reports(late) == [Done("a"), ItemReport(item), Done("a")];
    ToolCallsFollowReports(sc, late);
    NoCallAfterEarlyDone(sc, ItemReport(item));
  }
}
