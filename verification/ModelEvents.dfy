/** The events every model provider turns its stream into, and what a well-formed stream of them is. */
module ModelEvents {
  import opened Wrappers

  datatype StopReason = Stop | Length | ToolUse | Error | Aborted

  /** Arguments are kept as the JSON text they arrive in. */
  datatype ToolCall = ToolCall(id: string, name: string, argumentsJson: string)

  datatype ThinkingKind = Raw | Summary | Encrypted

  /** A snapshot is either built from streamed text or the provider's item as it came. */
  datatype RawSnapshot =
    | SummaryText(id: string, text: string)
    | ReasoningText(id: string, text: string)
    | SignedThinking(text: string, signature: Option<string>)
    | WholeItem(json: string)

  datatype ModelStreamEvent =
    | Started(streamId: string)
    | TextDelta(text: string)
    | ThinkingDelta(kind: ThinkingKind, textDelta: Option<string>, snapshot: Option<RawSnapshot>,
                    itemId: Option<string>, replayable: bool)
    | MediaDelta(media: string)
    | ToolCallEvent(call: ToolCall)
    | Finished(stopReason: StopReason)
    | FailedEvent(error: string)

  datatype StreamError = MalformedFrame | UnknownAlias(name: string)

  predicate IsTerminal(e: ModelStreamEvent) {
    e.Finished? || e.FailedEvent?
  }

  predicate NoTerminal(events: seq<ModelStreamEvent>) {
    forall i :: 0 <= i < |events| ==> !IsTerminal(events[i])
  }

  /** Exactly one terminal event, in the last place. */
  predicate OneTerminalLast(events: seq<ModelStreamEvent>) {
    events != [] && IsTerminal(events[|events| - 1]) && NoTerminal(events[..|events| - 1])
  }

  function ToolCalls(events: seq<ModelStreamEvent>): seq<ToolCall> {
    if events == [] then []
    else (if events[0].ToolCallEvent? then [events[0].call] else []) + ToolCalls(events[1..])
  }

  lemma {:induction false} ToolCallsOfTwo(a: seq<ModelStreamEvent>, b: seq<ModelStreamEvent>)
    ensures ToolCalls(a + b) == ToolCalls(a) + ToolCalls(b)
  {
    if a == [] {
      assert a + b == b;
    } else {
      var head := if a[0].ToolCallEvent? then [a[0].call] else [];
      assert (a + b)[0] == a[0] && (a + b)[1..] == a[1..] + b;
      ToolCallsOfTwo(a[1..], b);
      assert head + (ToolCalls(a[1..]) + ToolCalls(b)) == (head + ToolCalls(a[1..])) + ToolCalls(b);
    }
  }

  /** What `f` makes of the elements, put together. */
  function Collect<A, T>(xs: seq<A>, f: A -> seq<T>): seq<T> {
    if xs == [] then [] else Collect(xs[..|xs| - 1], f) + f(xs[|xs| - 1])
  }

  lemma CollectOneMore<A, T>(xs: seq<A>, x: A, f: A -> seq<T>)
    ensures Collect(xs + [x], f) == Collect(xs, f) + f(x)
  {
    assert (xs + [x])[..|xs|] == xs;
  }

  lemma {:induction false} CollectOfTwo<A, T>(xs: seq<A>, ys: seq<A>, f: A -> seq<T>)
    ensures Collect(xs + ys, f) == Collect(xs, f) + Collect(ys, f)
    decreases |ys|
  {
    if ys == [] {
      assert xs + ys == xs && Collect(xs, f) + [] == Collect(xs, f);
    } else {
      var before, last := ys[..|ys| - 1], ys[|ys| - 1];
      CollectOfTwo(xs, before, f);
      assert xs + ys == (xs + before) + [last];
      CollectOneMore(xs + before, last, f);
      assert Collect(xs, f) + (Collect(before, f) + f(last)) == (Collect(xs, f) + Collect(before, f)) + f(last);
    }
  }

  lemma {:induction false} CollectNothing<A, T>(xs: seq<A>, f: A -> seq<T>)
    requires forall i :: 0 <= i < |xs| ==> f(xs[i]) == []
    ensures Collect(xs, f) == []
  {
    if xs != [] {
      CollectNothing(xs[..|xs| - 1], f);
    }
  }

  lemma CollectFromOne<A, T>(x: A, f: A -> seq<T>)
    ensures Collect([x], f) == f(x)
  {
    assert [x][..0] == [] && [] + f(x) == f(x);
  }

  lemma CollectOneOrNone<A, T>(xs: seq<A>, f: A -> seq<T>)
    requires |xs| <= 1
    ensures Collect(xs, f) == if xs == [] then [] else f(xs[0])
  {
    if xs != [] {
      assert xs == [xs[0]];
      CollectFromOne(xs[0], f);
    }
  }

  lemma Chained<T>(a: seq<T>, b: seq<T>, c: seq<T>)
    ensures (a + b) + c == a + (b + c)
  {
  }

  /** The text of a text event. */
  function TextIn(e: ModelStreamEvent): string {
    if e.TextDelta? then e.text else ""
  }

  /** The text of a thinking event about this item that was streamed, not given as a whole. */
  function ThoughtIn(e: ModelStreamEvent, itemId: string): string {
    if e.ThinkingDelta? && e.itemId == Some(itemId) && e.textDelta.Some? then e.textDelta.value else ""
  }

  /** The stream id of a start. */
  function StartIn(e: ModelStreamEvent): seq<string> {
    if e.Started? then [e.streamId] else []
  }

  predicate NoCalls(events: seq<ModelStreamEvent>) {
    forall i :: 0 <= i < |events| ==> !events[i].ToolCallEvent?
  }

  lemma {:induction false} NoCallsIn(events: seq<ModelStreamEvent>)
    requires NoCalls(events)
    ensures ToolCalls(events) == []
  {
    if events != [] {
      NoCallsIn(events[1..]);
    }
  }

  lemma TerminalAfter(a: seq<ModelStreamEvent>, b: seq<ModelStreamEvent>)
    requires NoTerminal(a)
    ensures NoTerminal(b) ==> NoTerminal(a + b)
    ensures OneTerminalLast(b) ==> OneTerminalLast(a + b)
  {
    if OneTerminalLast(b) {
      assert (a + b)[..|a + b| - 1] == a + b[..|b| - 1];
    }
  }
}
