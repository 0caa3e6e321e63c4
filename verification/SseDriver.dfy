/**
 The retry loop around the decoder: one driver call sends a request, reads the response stream, and
 sends again as long as nothing has reached the handler.  Above it, a provider calls the driver once
 more after a 401 when refreshed credentials are available.

 The network, the clock and the credentials are a `World`: it fixes what every attempt meets, so a
 statement about all worlds is a statement about all network behaviours.
 */
module SseDriver {
  import opened Wrappers
  import opened SseDecoder
  import opened SseStandard
  import opened Text

  /** How reading a response stops when no terminal frame stops it. */
  datatype Ending = End | ChunkError | IdleTimeout | CancelledReading

  /** What one attempt meets. `Responded` gives the status, the chunks of the body and its ending. */
  datatype Attempt =
    | CancelledBefore
    | BuildFailed
    | SendFailed
    | CancelledSending
    | RequestTimeout
    | Responded(status: nat, bodyCancelled: bool, chunks: seq<Bytes>, ending: Ending)

  datatype DriverError = Aborted | Request | Provider | HttpStatus(status: nat) | Sink

  datatype Verdict = Terminal | RetryableBeforeData

  datatype Config = Config(maxReconnects: nat, initialBackoff: nat, maxBackoff: nat)

  /**
   `attempts(k)` is what the k-th attempt of all meets; `emitOk(log)` says whether the events of
   the frames in `log` reach the event sink; `sleepCancelled(k)` whether the pause after attempt `k` is
   cancelled.
   */
  datatype World = World(
    env: Env,
    config: Config,
    attempts: nat -> Attempt,
    emitOk: seq<Bytes> -> bool,
    sleepCancelled: nat -> bool)

  predicate IsSuccess(status: nat) {
    200 <= status < 300
  }

  predicate IsRetryableStatus(status: nat) {
    status == 408 || status == 429 || 500 <= status < 600
  }

  const DURATION_MAX: nat := 0xFFFF_FFFF_FFFF_FFFF * 1_000_000_000 + 999_999_999

  /** Backoff in nanoseconds; a product no duration can hold falls back to the maximum. */
  function ReconnectDelay(config: Config, reconnects: nat): nat {
    var multiplier := Power(2, if reconnects < 31 then reconnects else 31);
    var product := config.initialBackoff * multiplier;
    var delay := if product <= DURATION_MAX then product else config.maxBackoff;
    if delay <= config.maxBackoff then delay else config.maxBackoff
  }

  // ---------------------------------------------------------------------------------------------
  // What one attempt, one driver call and one provider call come to
  // ---------------------------------------------------------------------------------------------

  /** The log afterwards and the result, and whether a request went out. */
  datatype Report<T> = Report(log: seq<Bytes>, result: Result<T, DriverError>)

  function BrokenStream(delivered: bool): Result<Verdict, DriverError> {
    if delivered then Err(Provider) else Ok(RetryableBeforeData)
  }

  /** After a drain: a failure ends the attempt, then the new events must reach the sink. */
  function AfterDrain(w: World, before: seq<Bytes>, p: Progress): Option<Result<Verdict, DriverError>> {
    if p.outcome.Failed? then Some(Err(Provider))
    else if |p.log| > |before| && !w.emitOk(p.log) then Some(Err(Sink))
    else if p.outcome.Stopped? then Some(Ok(Terminal))
    else None
  }

  function Read(w: World, chunks: seq<Bytes>, ending: Ending, buffer: Bytes, delivered: bool, log: seq<Bytes>)
    : Report<Verdict>
    decreases |chunks|
  {
    if chunks == [] then
      match ending
      case CancelledReading => Report(log, Err(Aborted))
      case ChunkError => Report(log, BrokenStream(delivered))
      case IdleTimeout => Report(log, BrokenStream(delivered))
      case End =>
        var p := Drain(w.env, Closed(buffer), log);
        match AfterDrain(w, log, p)
        case Some(result) => Report(p.log, result)
        case None => Report(p.log, BrokenStream(delivered || |p.log| > |log|))
    else
      var p := Drain(w.env, buffer + chunks[0], log);
      match AfterDrain(w, log, p)
      case Some(result) => Report(p.log, result)
      case None => Read(w, chunks[1..], ending, p.buffer, delivered || |p.log| > |log|, p.log)
  }

  predicate SendsRequest(attempt: Attempt) {
    !attempt.CancelledBefore? && !attempt.BuildFailed?
  }

  function Try(w: World, k: nat, log: seq<Bytes>): Report<Verdict> {
    match w.attempts(k)
    case CancelledBefore => Report(log, Err(Aborted))
    case BuildFailed => Report(log, Err(Request))
    case SendFailed => Report(log, Ok(RetryableBeforeData))
    case CancelledSending => Report(log, Err(Aborted))
    case RequestTimeout => Report(log, Err(Provider))
    case Responded(status, bodyCancelled, chunks, ending) =>
      if IsSuccess(status) then Read(w, chunks, ending, [], false, log)
      else if bodyCancelled then Report(log, Err(Aborted))
      else if IsRetryableStatus(status) then Report(log, Ok(RetryableBeforeData))
      else Report(log, Err(HttpStatus(status)))
  }

  /** The attempts a driver call makes, as the numbers of the first and of the one after the last. */
  datatype Call = Call(log: seq<Bytes>, result: Result<(), DriverError>, next: nat)

  function Drive(w: World, k: nat, reconnects: nat, log: seq<Bytes>): Call
    decreases w.config.maxReconnects - reconnects
  {
    var t := Try(w, k, log);
    match t.result
    case Err(e) => Call(t.log, Err(e), k + 1)
    case Ok(Terminal) => Call(t.log, Ok(()), k + 1)
    case Ok(RetryableBeforeData) =>
      if reconnects >= w.config.maxReconnects then Call(t.log, Err(Provider), k + 1)
      else if ReconnectDelay(w.config, reconnects) > 0 && w.sleepCancelled(k) then Call(t.log, Err(Aborted), k + 1)
      else Drive(w, k + 1, reconnects + 1, t.log)
  }

  /** The credentials: whether headers resolve on each round, and what a refresh after a 401 gives. */
  datatype Refresh = NoAuthProvider | RefreshFailed | NotRefreshed | Refreshed(retry: bool)
  datatype Auth = Auth(headersOk: nat -> bool, refresh: Refresh)

  function StreamModel(w: World, auth: Auth, log: seq<Bytes>): Call {
    if !auth.headersOk(0) then Call(log, Err(Request), 0)
    else
      var first := Drive(w, 0, 0, log);
      if first.result != Err(HttpStatus(401)) then first
      else match auth.refresh
        case RefreshFailed => Call(first.log, Err(Request), first.next)
        case Refreshed(true) =>
          if !auth.headersOk(1) then Call(first.log, Err(Request), first.next)
          else Drive(w, first.next, 0, first.log)
        case _ => first
  }

  // ---------------------------------------------------------------------------------------------
  // The running driver
  // ---------------------------------------------------------------------------------------------

  /** The requests sent so far: for each, how many frames the handler had been given when it left. */
  class Transport {
    const world: World
    var attempts: nat
    var sent: seq<nat>

    constructor (world: World)
      ensures this.world == world && attempts == 0 && sent == []
    {
      this.world := world;
      attempts := 0;
      sent := [];
    }

    method NextAttempt(sink: FrameSink) returns (attempt: Attempt)
      modifies this
      ensures attempt == world.attempts(old(attempts)) && attempts == old(attempts) + 1
      ensures sent == old(sent) + if SendsRequest(attempt) then [|sink.log|] else []
    {
      attempt := world.attempts(attempts);
      attempts := attempts + 1;
      if SendsRequest(attempt) {
        sent := sent + [|sink.log|];
      }
    }
  }

  /** The requests sent by attempts `from` to `end` (exclusive), each with `n` frames handed over before it. */
  ghost function Requests(w: World, from: nat, end: nat, n: nat): seq<nat>
    requires from <= end
    decreases end - from
  {
    if from == end then []
    else Requests(w, from, end - 1, n) + if SendsRequest(w.attempts(end - 1)) then [n] else []
  }

  method ReadSseResponse(w: World, chunks: seq<Bytes>, ending: Ending, sink: FrameSink)
    returns (result: Result<Verdict, DriverError>)
    requires sink.env == w.env
    requires !sink.dataDelivered && !sink.terminal
    modifies sink
    ensures Report(sink.log, result) == Read(w, chunks, ending, [], false, old(sink.log))
  {
    hide Drain;
    var decoder := new SseDecoder();
    ghost var goal := Read(w, chunks, ending, [], false, sink.log);
    var i := 0;
    while i < |chunks|
      invariant 0 <= i <= |chunks| && !sink.terminal && fresh(decoder)
      invariant goal == Read(w, chunks[i..], ending, decoder.buffer, sink.dataDelivered, sink.log)
      modifies sink, decoder
    {
      assert chunks[i..][1..] == chunks[i + 1..];
      var before := |sink.log|;
      var outcome := decoder.Push(chunks[i], sink);
      if outcome.Failed? {
        return Err(Provider);
      }
      if |sink.log| > before && !w.emitOk(sink.log) {
        return Err(Sink);
      }
      if sink.terminal {
        return Ok(Terminal);
      }
      i := i + 1;
    }
    assert chunks[i..] == [];
    result := EndOfBody(w, ending, decoder, sink);
  }

  method EndOfBody(w: World, ending: Ending, decoder: SseDecoder, sink: FrameSink)
    returns (result: Result<Verdict, DriverError>)
    requires sink.env == w.env && !sink.terminal
    modifies sink, decoder
    ensures Report(sink.log, result)
         == Read(w, [], ending, old(decoder.buffer), old(sink.dataDelivered), old(sink.log))
  {
    match ending {
      case CancelledReading => return Err(Aborted);
      case ChunkError => return BrokenStream(sink.dataDelivered);
      case IdleTimeout => return BrokenStream(sink.dataDelivered);
      case End =>
    }
    var before := |sink.log|;
    var outcome := decoder.Finish(sink);
    if outcome.Failed? {
      return Err(Provider);
    }
    if |sink.log| > before && !w.emitOk(sink.log) {
      return Err(Sink);
    }
    if sink.terminal {
      return Ok(Terminal);
    }
    return BrokenStream(sink.dataDelivered);
  }

  method RunSseAttempt(transport: Transport, sink: FrameSink)
    returns (result: Result<Verdict, DriverError>)
    requires sink.env == transport.world.env
    requires !sink.dataDelivered && !sink.terminal
    modifies transport, sink
    ensures Report(sink.log, result) == Try(transport.world, old(transport.attempts), old(sink.log))
    ensures transport.attempts == old(transport.attempts) + 1
    ensures transport.sent == old(transport.sent)
              + if SendsRequest(transport.world.attempts(old(transport.attempts)))
                then [|old(sink.log)|] else []
  {
    var attempt := transport.NextAttempt(sink);
    match attempt {
      case CancelledBefore => return Err(Aborted);
      case BuildFailed => return Err(Request);
      case SendFailed => return Ok(RetryableBeforeData);
      case CancelledSending => return Err(Aborted);
      case RequestTimeout => return Err(Provider);
      case Responded(status, bodyCancelled, chunks, ending) =>
        if !IsSuccess(status) {
          if bodyCancelled {
            return Err(Aborted);
          }
          return if IsRetryableStatus(status) then Ok(RetryableBeforeData) else Err(HttpStatus(status));
        }
        result := ReadSseResponse(transport.world, chunks, ending, sink);
    }
  }

  /** A retryable attempt has handed nothing to the handler. */
  lemma {:induction false} RetryableReadKeepsLog(
      w: World, chunks: seq<Bytes>, ending: Ending, buffer: Bytes, delivered: bool, log: seq<Bytes>)
    ensures var r := Read(w, chunks, ending, buffer, delivered, log);
            && log <= r.log
            && (r.result == Ok(RetryableBeforeData) ==> r.log == log && !delivered)
    decreases |chunks|
  {
    var drained := if chunks == [] then Closed(buffer) else buffer + chunks[0];
    DrainExtendsLog(w.env, drained, log);
    if chunks != [] {
      var p := Drain(w.env, drained, log);
      RetryableReadKeepsLog(w, chunks[1..], ending, p.buffer, delivered || |p.log| > |log|, p.log);
    }
  }

  lemma {:induction false} DrainExtendsLog(env: Env, buffer: Bytes, log: seq<Bytes>)
    ensures log <= Drain(env, buffer, log).log
    decreases |buffer|
  {
    match FrameBoundary(buffer)
    case None =>
    case Some(frame) =>
      var (log', outcome) := Emit(env, FrameData(buffer[..frame.end]), log);
      if outcome.Open? {
        DrainExtendsLog(env, buffer[frame.next..], log');
      }
  }

  lemma RetryableTryKeepsLog(w: World, k: nat, log: seq<Bytes>)
    ensures var t := Try(w, k, log);
            log <= t.log && (t.result == Ok(RetryableBeforeData) ==> t.log == log)
  {
    match w.attempts(k)
    case Responded(status, bodyCancelled, chunks, ending) =>
      RetryableReadKeepsLog(w, chunks, ending, [], false, log);
    case _ =>
  }

  method RunSseModelStream(transport: Transport, sink: FrameSink) returns (result: Result<(), DriverError>)
    requires sink.env == transport.world.env
    requires !sink.dataDelivered && !sink.terminal
    modifies transport, sink
    ensures Call(sink.log, result, transport.attempts)
         == Drive(transport.world, old(transport.attempts), 0, old(sink.log))
    ensures transport.attempts > old(transport.attempts)
    ensures transport.sent == old(transport.sent)
              + Requests(transport.world, old(transport.attempts), transport.attempts, |old(sink.log)|)
  {
    hide Try;
    var w := transport.world;
    var reconnects := 0;
    ghost var goal := Drive(w, transport.attempts, 0, sink.log);
    ghost var start := transport.attempts;
    while true
      invariant start <= transport.attempts && reconnects <= w.config.maxReconnects
      invariant sink.log == old(sink.log) && !sink.dataDelivered && !sink.terminal
      invariant goal == Drive(w, transport.attempts, reconnects, sink.log)
      invariant transport.sent == old(transport.sent) + Requests(w, start, transport.attempts, |sink.log|)
      decreases w.config.maxReconnects - reconnects
    {
      ghost var k := transport.attempts;
      RetryableTryKeepsLog(w, k, sink.log);
      var attempt := RunSseAttempt(transport, sink);
      assert transport.sent == old(transport.sent) + Requests(w, start, k + 1, |old(sink.log)|);
      match attempt {
        case Err(e) => return Err(e);
        case Ok(Terminal) => return Ok(());
        case Ok(RetryableBeforeData) =>
          if reconnects >= w.config.maxReconnects {
            return Err(Provider);
          }
          if ReconnectDelay(w.config, reconnects) > 0 && w.sleepCancelled(transport.attempts - 1) {
            return Err(Aborted);
          }
          reconnects := reconnects + 1;
          sink.dataDelivered, sink.terminal := false, false;
      }
    }
  }

  method RunStreamModel(transport: Transport, auth: Auth, sink: FrameSink)
    returns (result: Result<(), DriverError>)
    requires sink.env == transport.world.env
    requires !sink.dataDelivered && !sink.terminal && transport.attempts == 0 && transport.sent == []
    modifies transport, sink
    ensures Call(sink.log, result, transport.attempts)
         == StreamModel(transport.world, auth, old(sink.log))
    ensures transport.sent == Requests(transport.world, 0, transport.attempts, |old(sink.log)|)
  {
    var attempt := 0;
    while true
      invariant attempt <= 1 && sink.log == old(sink.log) && !sink.dataDelivered && !sink.terminal
      invariant transport.sent == Requests(transport.world, 0, transport.attempts, |sink.log|)
      invariant attempt == 0 ==> transport.attempts == 0
      invariant attempt == 1 ==>
        var first := Drive(transport.world, 0, 0, sink.log);
        && auth.headersOk(0) && first.result == Err(HttpStatus(401)) && auth.refresh == Refreshed(true)
        && transport.attempts == first.next && first.log == sink.log
      decreases 1 - attempt
    {
      if !auth.headersOk(attempt) {
        return Err(Request);
      }
      ghost var k := transport.attempts;
      RefusedCallKeepsLog(transport.world, k, 0, sink.log);
      var call := RunSseModelStream(transport, sink);
      RequestsOfTwoCalls(transport.world, 0, k, transport.attempts, |old(sink.log)|);
      if call != Err(HttpStatus(401)) || attempt != 0 {
        return call;
      }
      match auth.refresh {
        case RefreshFailed => return Err(Request);
        case NotRefreshed => return call;
        case NoAuthProvider => return call;
        case Refreshed(retry) =>
          if !retry {
            return call;
          }
      }
      attempt := 1;
      sink.dataDelivered, sink.terminal := false, false;
    }
  }

  lemma {:induction false} RequestsOfTwoCalls(w: World, from: nat, mid: nat, end: nat, n: nat)
    requires from <= mid <= end
    ensures Requests(w, from, end, n) == Requests(w, from, mid, n) + Requests(w, mid, end, n)
    decreases end - mid
  {
    if mid < end {
      RequestsOfTwoCalls(w, from, mid, end - 1, n);
    }
  }

  // ---------------------------------------------------------------------------------------------
  // Retry safety
  // ---------------------------------------------------------------------------------------------

  /** The handler was given `added` after `log`: it asked to continue after each of them but the last. */
  ghost predicate HandledInOrder(env: Env, log: seq<Bytes>, after: seq<Bytes>) {
    && log <= after
    && forall i :: |log| < i < |after| ==> env.reply(after[..i]) == Continue
  }

  /** The same, and whether the handler's last answer is known from how decoding stands. */
  ghost predicate Handles(env: Env, log: seq<Bytes>, after: seq<Bytes>, outcome: Outcome) {
    && HandledInOrder(env, log, after)
    && (outcome.Stopped? ==> |after| > |log| && env.reply(after) == Stop)
    && (outcome.Open? && |after| > |log| ==> env.reply(after) == Continue)
  }

  lemma EmitHandles(env: Env, data: Bytes, log: seq<Bytes>)
    ensures var (log', outcome) := Emit(env, data, log);
            Handles(env, log, log', outcome)
  {
  }

  lemma {:induction false} DrainHandles(env: Env, buffer: Bytes, log: seq<Bytes>)
    ensures var p := Drain(env, buffer, log);
            Handles(env, log, p.log, p.outcome)
    decreases |buffer|
  {
    match FrameBoundary(buffer)
    case None =>
    case Some(frame) =>
      var data := FrameData(buffer[..frame.end]);
      var (log', outcome) := Emit(env, data, log);
      EmitHandles(env, data, log);
      if outcome.Open? {
        var p := Drain(env, buffer[frame.next..], log');
        DrainHandles(env, buffer[frame.next..], log');
        HandledTogether(env, log, log', p.log);
        assert Handles(env, log, p.log, p.outcome) by {
          if p.log == log' && |log'| > |log| {
            assert env.reply(log') == Continue;
          }
        }
      }
  }

  lemma HandledTogether(env: Env, log: seq<Bytes>, mid: seq<Bytes>, after: seq<Bytes>)
    requires HandledInOrder(env, log, mid) && HandledInOrder(env, mid, after)
    requires |mid| > |log| ==> env.reply(mid) == Continue
    ensures HandledInOrder(env, log, after)
  {
    forall i | |log| < i < |after|
      ensures env.reply(after[..i]) == Continue
    {
      if i <= |mid| {
        assert after[..i] == mid[..i];
        assert mid[..|mid|] == mid;
      }
    }
  }

  lemma {:induction false} ReadHandles(
      w: World, chunks: seq<Bytes>, ending: Ending, buffer: Bytes, delivered: bool, log: seq<Bytes>)
    ensures var r := Read(w, chunks, ending, buffer, delivered, log);
            && HandledInOrder(w.env, log, r.log)
            && (r.result == Ok(Terminal) ==> |r.log| > |log| && w.env.reply(r.log) == Stop && w.emitOk(r.log))
    decreases |chunks|
  {
    DrainHandles(w.env, if chunks == [] then Closed(buffer) else buffer + chunks[0], log);
    if chunks != [] {
      var p := Drain(w.env, buffer + chunks[0], log);
      if AfterDrain(w, log, p).None? {
        ReadHandles(w, chunks[1..], ending, p.buffer, delivered || |p.log| > |log|, p.log);
        HandledTogether(w.env, log, p.log,
          Read(w, chunks[1..], ending, p.buffer, delivered || |p.log| > |log|, p.log).log);
      }
    }
  }

  lemma TryHandles(w: World, k: nat, log: seq<Bytes>)
    ensures var t := Try(w, k, log);
            && HandledInOrder(w.env, log, t.log)
            && (t.result == Ok(Terminal) ==> |t.log| > |log| && w.env.reply(t.log) == Stop && w.emitOk(t.log))
  {
    match w.attempts(k)
    case Responded(status, bodyCancelled, chunks, ending) =>
      ReadHandles(w, chunks, ending, [], false, log);
    case _ =>
  }

  /** Attempts `k` to `last - 1` hand nothing over and may be retried; attempt `last` is the one that counts. */
  ghost predicate OnlyLastCounts(w: World, k: nat, last: nat, log: seq<Bytes>) {
    forall j :: k <= j < last ==> Try(w, j, log) == Report(log, Ok(RetryableBeforeData))
  }

  /**
   A safe driver call: at most `budget` attempts; every attempt but the last handed nothing over; the
   handler is not called after it stopped or failed; and success means that its last call asked to stop.
   */
  ghost predicate SafeCall(w: World, k: nat, log: seq<Bytes>, c: Call, budget: nat) {
    && k < c.next <= k + budget
    && OnlyLastCounts(w, k, c.next - 1, log)
    && c.log == Try(w, c.next - 1, log).log
    && HandledInOrder(w.env, log, c.log)
    && (c.result.Ok? ==> |c.log| > |log| && w.env.reply(c.log) == Stop)
    && (c.result.Ok? <==> Try(w, c.next - 1, log).result == Ok(Terminal))
  }

  lemma {:induction false} DriverIsSafe(w: World, k: nat, reconnects: nat, log: seq<Bytes>)
    requires reconnects <= w.config.maxReconnects
    ensures SafeCall(w, k, log, Drive(w, k, reconnects, log), w.config.maxReconnects - reconnects + 1)
    decreases w.config.maxReconnects - reconnects
  {
    TryHandles(w, k, log);
    RetryableTryKeepsLog(w, k, log);
    hide Try;
    var t := Try(w, k, log);
    if t.result == Ok(RetryableBeforeData) && reconnects < w.config.maxReconnects
       && !(ReconnectDelay(w.config, reconnects) > 0 && w.sleepCancelled(k)) {
      DriverIsSafe(w, k + 1, reconnects + 1, log);
    }
  }

  lemma RefusedTryKeepsLog(w: World, k: nat, log: seq<Bytes>)
    ensures var t := Try(w, k, log);
            t.result.Err? && t.result.error.HttpStatus? ==> t.log == log
  {
    if w.attempts(k).Responded? {
      ReadNeverRefused(w, w.attempts(k).chunks, w.attempts(k).ending, [], false, log);
      hide Read;
    }
  }

  /** A call that ends in a 401 has handed nothing to the handler. */
  lemma {:induction false} RefusedCallKeepsLog(w: World, k: nat, reconnects: nat, log: seq<Bytes>)
    ensures var c := Drive(w, k, reconnects, log);
            c.result.Err? && c.result.error.HttpStatus? ==> c.log == log
    decreases w.config.maxReconnects - reconnects
  {
    hide Try;
    RetryableTryKeepsLog(w, k, log);
    RefusedTryKeepsLog(w, k, log);
    var t := Try(w, k, log);
    if t.result == Ok(RetryableBeforeData) && reconnects < w.config.maxReconnects
       && !(ReconnectDelay(w.config, reconnects) > 0 && w.sleepCancelled(k)) {
      RefusedCallKeepsLog(w, k + 1, reconnects + 1, t.log);
    }
  }

  lemma {:induction false} ReadNeverRefused(
      w: World, chunks: seq<Bytes>, ending: Ending, buffer: Bytes, delivered: bool, log: seq<Bytes>)
    ensures var r := Read(w, chunks, ending, buffer, delivered, log).result;
            r.Err? ==> !r.error.HttpStatus?
    decreases |chunks|
  {
    if chunks != [] {
      var p := Drain(w.env, buffer + chunks[0], log);
      ReadNeverRefused(w, chunks[1..], ending, p.buffer, delivered || |p.log| > |log|, p.log);
    }
  }

  lemma {:induction false} RequestsAreEarly(w: World, from: nat, end: nat, n: nat)
    requires from <= end
    ensures |Requests(w, from, end, n)| <= end - from
    ensures forall i :: 0 <= i < |Requests(w, from, end, n)| ==> Requests(w, from, end, n)[i] == n
    decreases end - from
  {
    if from < end {
      RequestsAreEarly(w, from, end - 1, n);
    }
  }

  // ---------------------------------------------------------------------------------------------
  // What an attempt comes to, told by what it meets
  // ---------------------------------------------------------------------------------------------

  /** The payloads of a body: at its end an open block is closed, a body that breaks off leaves it. */
  function BodyPayloads(body: Bytes, ending: Ending): seq<Bytes> {
    if ending.End? then DecodedPayloads(body) else PayloadsIn(body)
  }

  function PayloadsIn(body: Bytes): seq<Bytes> {
    NonEmpty(AllReadData(Blocks(Lines(body))))
  }

  /** Nothing was handed over, and decoding goes on. */
  predicate IsQuiet(env: Env, buffer: Bytes, log: seq<Bytes>) {
    Drain(env, buffer, log).log == log && Drain(env, buffer, log).outcome.Open?
  }

  lemma QuietIff(env: Env, buffer: Bytes, log: seq<Bytes>)
    ensures IsQuiet(env, buffer, log) <==> PayloadsIn(buffer) == []
  {
    DrainDeliversBlocks(env, buffer, log);
    NonEmptyIsText(AllReadData(Blocks(Lines(buffer))));
    DeliveredNothingIff(env, PayloadsIn(buffer), log);
    hide Deliver, Drain, PayloadsIn;
  }

  lemma DeliveredNothingIff(env: Env, payloads: seq<Bytes>, log: seq<Bytes>)
    requires forall i :: 0 <= i < |payloads| ==> payloads[i] != []
    ensures Deliver(env, payloads, log) == (log, Open) <==> payloads == []
  {
    if payloads != [] {
      DeliveryIs(env, payloads, log);
      hide Deliver;
      var (after, outcome) := Deliver(env, payloads, log);
      if outcome.Open? {
        assert after == log + payloads[..|payloads|];
      }
    }
  }

  /** Bytes pushed after a drain add nothing exactly when neither the drain nor they did. */
  lemma QuietTogether(env: Env, first: Bytes, more: Bytes, log: seq<Bytes>)
    ensures var p := Drain(env, first, log);
            IsQuiet(env, first + more, log) <==> IsQuiet(env, first, log) && IsQuiet(env, p.buffer + more, log)
  {
    DrainInTwoSteps(env, first, more, log);
    DrainExtendsLog(env, first, log);
    var p := Drain(env, first, log);
    DrainExtendsLog(env, p.buffer + more, p.log);
    hide Drain;
  }

  lemma QuietAtEnd(env: Env, buffer: Bytes, log: seq<Bytes>)
    ensures IsQuiet(env, Closed(buffer), log) <==> IsQuiet(env, buffer + [LF, LF], log)
  {
    ClosedOrNot(env, buffer, log);
    hide Drain, Closed;
  }

  /** What is added to a body before its last frames are decoded. */
  function Closing(ending: Ending): Bytes {
    if ending.End? then [LF, LF] else []
  }

  lemma PayloadsOfBody(body: Bytes, ending: Ending)
    ensures BodyPayloads(body, ending) == PayloadsIn(body + Closing(ending))
  {
    assert body + [] == body;
  }

  lemma BodySplits(buffer: Bytes, chunks: seq<Bytes>, tail: Bytes)
    ensures buffer + Concat(chunks) + tail
         == if chunks == [] then buffer + tail else (buffer + chunks[0]) + (Concat(chunks[1..]) + tail)
  {
  }

  lemma RetryableEndIff(w: World, ending: Ending, buffer: Bytes, delivered: bool, log: seq<Bytes>)
    requires FrameBoundary(buffer) == None
    ensures Read(w, [], ending, buffer, delivered, log).result == Ok(RetryableBeforeData) <==>
              !delivered && !ending.CancelledReading? && IsQuiet(w.env, buffer + Closing(ending), log)
  {
    DrainExtendsLog(w.env, Closed(buffer), log);
    QuietAtEnd(w.env, buffer, log);
    assert IsQuiet(w.env, buffer, log) && buffer + [] == buffer;
    hide Drain, Closed;
  }

  lemma {:induction false} RetryableReadIff(
      w: World, chunks: seq<Bytes>, ending: Ending, buffer: Bytes, delivered: bool, log: seq<Bytes>)
    requires FrameBoundary(buffer) == None
    ensures Read(w, chunks, ending, buffer, delivered, log).result == Ok(RetryableBeforeData) <==>
              !delivered && !ending.CancelledReading?
              && IsQuiet(w.env, buffer + Concat(chunks) + Closing(ending), log)
    decreases |chunks|
  {
    hide Drain, Closed, Concat, Closing, FrameBoundary;
    BodySplits(buffer, chunks, Closing(ending));
    if chunks == [] {
      RetryableEndIff(w, ending, buffer, delivered, log);
    } else {
      var p := Drain(w.env, buffer + chunks[0], log);
      var rest := Concat(chunks[1..]) + Closing(ending);
      assert p.buffer + rest == p.buffer + Concat(chunks[1..]) + Closing(ending);
      QuietTogether(w.env, buffer + chunks[0], rest, log);
      DrainLeavesNoFrame(w.env, buffer + chunks[0], log);
      DrainExtendsLog(w.env, buffer + chunks[0], log);
      if p.outcome.Open? {
        RetryableReadIff(w, chunks[1..], ending, p.buffer, delivered || |p.log| > |log|, p.log);
      }
    }
  }

  /** The response was refused for good, with this status. */
  predicate IsRefused(attempt: Attempt, status: nat) {
    && attempt.Responded? && attempt.status == status && !attempt.bodyCancelled
    && !(200 <= status < 300) && status != 408 && status != 429 && !(500 <= status < 600)
  }

  /**
   The attempt may be repeated: it could not send; or the response was a timeout, a complaint about too many
   requests or a server error; or a successful response broke off without a payload.
   */
  predicate MayRetry(attempt: Attempt) {
    match attempt
    case SendFailed => true
    case Responded(status, bodyCancelled, chunks, ending) =>
      if 200 <= status < 300 then !ending.CancelledReading? && BodyPayloads(Concat(chunks), ending) == []
      else !bodyCancelled && (status == 408 || status == 429 || 500 <= status <= 599)
    case _ => false
  }

  lemma RetryableTryIff(w: World, k: nat, log: seq<Bytes>)
    ensures Try(w, k, log).result == Ok(RetryableBeforeData) <==> MayRetry(w.attempts(k))
  {
    match w.attempts(k)
    case Responded(status, bodyCancelled, chunks, ending) =>
      RetryableReadIff(w, chunks, ending, [], false, log);
      PayloadsOfBody(Concat(chunks), ending);
      QuietIff(w.env, Concat(chunks) + Closing(ending), log);
      assert [] + Concat(chunks) == Concat(chunks);
      hide Read, BodyPayloads, IsQuiet, PayloadsIn;
    case _ =>
  }

  lemma RefusedTryIff(w: World, k: nat, status: nat, log: seq<Bytes>)
    ensures Try(w, k, log).result == Err(HttpStatus(status)) <==> IsRefused(w.attempts(k), status)
  {
    if w.attempts(k).Responded? {
      ReadNeverRefused(w, w.attempts(k).chunks, w.attempts(k).ending, [], false, log);
      hide Read;
    }
  }

  /** The sink takes the events of every frame from `log` to `end`. */
  ghost predicate SinkTakes(w: World, log: seq<Bytes>, end: seq<Bytes>) {
    forall l :: log < l <= end ==> w.emitOk(l)
  }

  /** What reading comes to when the payloads led to `after` and the sink took their events. */
  function ReadingEnds(ending: Ending, log: seq<Bytes>, after: seq<Bytes>, outcome: Outcome)
    : Report<Verdict>
  {
    Report(after, match outcome
                  case Failed => Err(Provider)
                  case Stopped => Ok(Terminal)
                  case Open =>
                    if ending.CancelledReading? then Err(Aborted)
                    else if |after| > |log| then Err(Provider)
                    else Ok(RetryableBeforeData))
  }

  lemma LaterLogs(w: World, log: seq<Bytes>, mid: seq<Bytes>, end: seq<Bytes>)
    requires SinkTakes(w, log, end) && log <= mid <= end
    ensures SinkTakes(w, mid, end) && (|mid| > |log| ==> w.emitOk(mid))
  {
  }

  lemma EndIsDrain(w: World, ending: Ending, buffer: Bytes, start: seq<Bytes>, log: seq<Bytes>)
    requires FrameBoundary(buffer) == None && start <= log
    requires SinkTakes(w, log, Drain(w.env, buffer + Closing(ending), log).log)
    ensures var p := Drain(w.env, buffer + Closing(ending), log);
            Read(w, [], ending, buffer, |log| > |start|, log) == ReadingEnds(ending, start, p.log, p.outcome)
  {
    hide Drain, SinkTakes, Closed;
    if ending.End? {
      ClosedOrNot(w.env, buffer, log);
      DrainExtendsLog(w.env, Closed(buffer), log);
      LaterLogs(w, log, Drain(w.env, Closed(buffer), log).log, Drain(w.env, Closed(buffer), log).log);
    } else {
      NothingToDrain(w.env, buffer, log);
      assert buffer + [] == buffer;
    }
  }

  lemma NothingToDrain(env: Env, buffer: Bytes, log: seq<Bytes>)
    requires FrameBoundary(buffer) == None
    ensures Drain(env, buffer, log) == Progress(log, buffer, Open)
  {
  }

  lemma {:induction false} ReadIsDrain(
      w: World, chunks: seq<Bytes>, ending: Ending, buffer: Bytes, start: seq<Bytes>, log: seq<Bytes>)
    requires FrameBoundary(buffer) == None && start <= log
    requires SinkTakes(w, log, Drain(w.env, buffer + Concat(chunks) + Closing(ending), log).log)
    ensures var p := Drain(w.env, buffer + Concat(chunks) + Closing(ending), log);
            Read(w, chunks, ending, buffer, |log| > |start|, log) == ReadingEnds(ending, start, p.log, p.outcome)
    decreases |chunks|
  {
    hide Drain, Closed, Concat, Closing, FrameBoundary, SinkTakes;
    BodySplits(buffer, chunks, Closing(ending));
    if chunks == [] {
      EndIsDrain(w, ending, buffer, start, log);
    } else {
      var whole := Drain(w.env, buffer + Concat(chunks) + Closing(ending), log);
      var p := Drain(w.env, buffer + chunks[0], log);
      var rest := Concat(chunks[1..]) + Closing(ending);
      assert p.buffer + rest == p.buffer + Concat(chunks[1..]) + Closing(ending);
      DrainInTwoSteps(w.env, buffer + chunks[0], rest, log);
      DrainLeavesNoFrame(w.env, buffer + chunks[0], log);
      DrainExtendsLog(w.env, buffer + chunks[0], log);
      DrainExtendsLog(w.env, p.buffer + rest, p.log);
      LaterLogs(w, log, p.log, whole.log);
      if p.outcome.Open? {
        ReadIsDrain(w, chunks[1..], ending, p.buffer, start, p.log);
      }
    }
  }

  /**
   As long as the sink takes the events: however the body arrives, reading hands over its payloads in order,
   and comes to what the handler made of them and to how the body ended.
   */
  lemma ReadIsDelivery(w: World, chunks: seq<Bytes>, ending: Ending, log: seq<Bytes>)
    requires SinkTakes(w, log, Deliver(w.env, BodyPayloads(Concat(chunks), ending), log).0)
    ensures var (after, outcome) := Deliver(w.env, BodyPayloads(Concat(chunks), ending), log);
            Read(w, chunks, ending, [], false, log) == ReadingEnds(ending, log, after, outcome)
  {
    var body := Concat(chunks) + Closing(ending);
    assert [] + Concat(chunks) + Closing(ending) == body;
    PayloadsOfBody(Concat(chunks), ending);
    DrainDeliversBlocks(w.env, body, log);
    hide Read, Drain, Deliver, SinkTakes, BodyPayloads;
    ReadIsDrain(w, chunks, ending, [], log, log);
  }

  /** How the body is cut into chunks makes no difference, as long as the sink takes its events. */
  lemma ReadIsChunkIndependent(w: World, chunks: seq<Bytes>, ending: Ending, log: seq<Bytes>)
    requires SinkTakes(w, log, Deliver(w.env, BodyPayloads(Concat(chunks), ending), log).0)
    ensures Read(w, chunks, ending, [], false, log) == Read(w, [Concat(chunks)], ending, [], false, log)
  {
    var body := Concat(chunks);
    assert Concat([body]) == body + Concat([]) == body;
    hide Read, Deliver, SinkTakes;
    ReadIsDelivery(w, chunks, ending, log);
    ReadIsDelivery(w, [body], ending, log);
  }

  /** How decoding stands after the first `n` chunks, if nothing stopped it before. */
  ghost function AfterChunks(w: World, chunks: seq<Bytes>, n: nat, log: seq<Bytes>): Progress
    requires n <= |chunks|
  {
    if n == 0 then Progress(log, [], Open)
    else
      var p := AfterChunks(w, chunks, n - 1, log);
      Drain(w.env, p.buffer + chunks[n - 1], p.log)
  }

  /** Reading goes on after chunk `i`: decoding is open, and the sink took what the chunk added. */
  ghost predicate IsRead(w: World, chunks: seq<Bytes>, i: nat, log: seq<Bytes>)
    requires i < |chunks|
  {
    var before, after := AfterChunks(w, chunks, i, log), AfterChunks(w, chunks, i + 1, log);
    after.outcome.Open? && (|after.log| > |before.log| ==> w.emitOk(after.log))
  }

  ghost predicate AreRead(w: World, chunks: seq<Bytes>, n: nat, log: seq<Bytes>)
    requires n <= |chunks|
  {
    forall i :: 0 <= i < n ==> IsRead(w, chunks, i, log)
  }

  lemma {:induction false} ReadFrom(w: World, chunks: seq<Bytes>, ending: Ending, n: nat, log: seq<Bytes>)
    requires n <= |chunks| && AreRead(w, chunks, n, log)
    ensures var p := AfterChunks(w, chunks, n, log);
            && |p.log| >= |log|
            && Read(w, chunks, ending, [], false, log)
               == Read(w, chunks[n..], ending, p.buffer, |p.log| > |log|, p.log)
  {
    hide Drain;
    if n > 0 {
      var p := AfterChunks(w, chunks, n - 1, log);
      ReadFrom(w, chunks, ending, n - 1, log);
      assert IsRead(w, chunks, n - 1, log);
      hide AreRead;
      DrainExtendsLog(w.env, p.buffer + chunks[n - 1], p.log);
      ReadOneChunk(w, chunks, ending, n - 1, p.buffer, |p.log| > |log|, p.log);
      hide Read;
    } else {
      assert chunks[0..] == chunks;
    }
  }

  lemma ReadOneChunk(
      w: World, chunks: seq<Bytes>, ending: Ending, i: nat, buffer: Bytes, delivered: bool, log: seq<Bytes>)
    requires i < |chunks|
    ensures var p := Drain(w.env, buffer + chunks[i], log);
            Read(w, chunks[i..], ending, buffer, delivered, log) ==
            match AfterDrain(w, log, p)
            case Some(result) => Report(p.log, result)
            case None => Read(w, chunks[i + 1..], ending, p.buffer, delivered || |p.log| > |log|, p.log)
  {
    hide Drain;
    assert chunks[i..][0] == chunks[i] && chunks[i..][1..] == chunks[i + 1..];
  }

  /** The events are handed to the sink after every chunk, and the first time it fails ends the attempt. */
  lemma SinkFailureEndsReading(w: World, chunks: seq<Bytes>, ending: Ending, n: nat, log: seq<Bytes>)
    requires n < |chunks| && AreRead(w, chunks, n, log)
    requires var before, after := AfterChunks(w, chunks, n, log), AfterChunks(w, chunks, n + 1, log);
             !after.outcome.Failed? && |after.log| > |before.log| && !w.emitOk(after.log)
    ensures Read(w, chunks, ending, [], false, log) == Report(AfterChunks(w, chunks, n + 1, log).log, Err(Sink))
  {
    hide Drain, AreRead, Read;
    var p := AfterChunks(w, chunks, n, log);
    ReadFrom(w, chunks, ending, n, log);
    ReadOneChunk(w, chunks, ending, n, p.buffer, |p.log| > |log|, p.log);
  }

  // ---------------------------------------------------------------------------------------------
  // Where a driver call ends, told by the attempts
  // ---------------------------------------------------------------------------------------------

  /**
   In a driver call that begins with attempt `origin`, attempt `k` is followed by another: it may be repeated,
   reconnects are left, and the pause is not cancelled.
   */
  predicate GoesOn(w: World, origin: nat, k: nat)
    requires origin <= k
  {
    && MayRetry(w.attempts(k)) && k - origin < w.config.maxReconnects
    && !(ReconnectDelay(w.config, k - origin) > 0 && w.sleepCancelled(k))
  }

  /**
   A driver call ends with the first attempt that is not followed by another: with its verdict, or, when it
   could have been repeated, because the reconnects are used up or the pause was cancelled.
   */
  ghost predicate EndsAt(w: World, origin: nat, last: nat, log: seq<Bytes>, c: Call)
    requires origin <= last
  {
    && c.next == last + 1 && !GoesOn(w, origin, last)
    && if !MayRetry(w.attempts(last)) then
         var t := Try(w, last, log);
         c.log == t.log && c.result == if t.result.Ok? then Ok(()) else Err(t.result.error)
       else
         && c.log == log
         && c.result == Err(if last - origin >= w.config.maxReconnects then Provider else Aborted)
  }

  lemma DriverStep(w: World, origin: nat, k: nat, log: seq<Bytes>)
    requires origin <= k
    ensures var c := Drive(w, k, k - origin, log);
            if GoesOn(w, origin, k) then
              c == Drive(w, k + 1, k + 1 - origin, log) && k - origin < w.config.maxReconnects
            else EndsAt(w, origin, k, log, c) && c.next == k + 1
  {
    RetryableTryIff(w, k, log);
    RetryableTryKeepsLog(w, k, log);
    hide Try, ReconnectDelay, MayRetry;
  }

  lemma {:induction false} DriverGoesOn(w: World, origin: nat, k: nat, last: nat, log: seq<Bytes>)
    requires origin <= k <= last && forall j :: k <= j < last ==> GoesOn(w, origin, j)
    ensures Drive(w, k, k - origin, log) == Drive(w, last, last - origin, log)
    decreases last - k
  {
    hide Drive, GoesOn;
    if k < last {
      DriverStep(w, origin, k, log);
      DriverGoesOn(w, origin, k + 1, last, log);
    }
  }

  lemma {:induction false} DriverEndsFrom(w: World, origin: nat, k: nat, log: seq<Bytes>) returns (last: nat)
    requires origin <= k
    ensures k <= last && forall j :: k <= j < last ==> GoesOn(w, origin, j)
    ensures EndsAt(w, origin, last, log, Drive(w, k, k - origin, log))
    ensures Drive(w, k, k - origin, log).next == last + 1
    decreases origin + w.config.maxReconnects - k
  {
    hide Drive, GoesOn, EndsAt;
    DriverStep(w, origin, k, log);
    last := k;
    if GoesOn(w, origin, k) {
      last := DriverEndsFrom(w, origin, k + 1, log);
    }
  }

  lemma DriverEndsAt(w: World, origin: nat, last: nat, log: seq<Bytes>)
    requires origin <= last && forall j :: origin <= j < last ==> GoesOn(w, origin, j)
    ensures var c := Drive(w, origin, 0, log);
            if GoesOn(w, origin, last) then c.next > last + 1 else EndsAt(w, origin, last, log, c)
  {
    hide Drive, GoesOn, EndsAt;
    DriverGoesOn(w, origin, origin, last, log);
    DriverStep(w, origin, last, log);
    if GoesOn(w, origin, last) {
      var end := DriverEndsFrom(w, origin, last + 1, log);
    }
  }

  /** The attempt is a successful response on whose payloads the handler stops, and the sink takes the events. */
  ghost predicate IsTerminal(w: World, k: nat, log: seq<Bytes>) {
    var a := w.attempts(k);
    && a.Responded? && 200 <= a.status < 300
    && Delivery(w, k, log).1.Stopped? && SinkTakes(w, log, Delivery(w, k, log).0)
  }

  /** What the handler makes of the payloads of a response. */
  function Delivery(w: World, k: nat, log: seq<Bytes>): (seq<Bytes>, Outcome)
    requires w.attempts(k).Responded?
  {
    Deliver(w.env, BodyPayloads(Concat(w.attempts(k).chunks), w.attempts(k).ending), log)
  }

  /** The attempt is cancelled while it sends, waits, or reads on. */
  ghost predicate IsCancelled(w: World, k: nat, log: seq<Bytes>) {
    var a := w.attempts(k);
    || a.CancelledBefore? || a.CancelledSending?
    || (a.Responded? && if 200 <= a.status < 300 then a.ending.CancelledReading? && Delivery(w, k, log).1.Open?
                        else a.bodyCancelled)
  }

  /** As long as the sink takes the events: exactly a cancelled attempt is aborted. */
  lemma AbortedTryIff(w: World, k: nat, log: seq<Bytes>)
    requires w.attempts(k).Responded? ==> SinkTakes(w, log, Delivery(w, k, log).0)
    ensures Try(w, k, log).result == Err(Aborted) <==> IsCancelled(w, k, log)
    ensures Try(w, k, log).result == Err(Request) <==> w.attempts(k).BuildFailed?
  {
    hide Read, Delivery, SinkTakes;
    if w.attempts(k).Responded? {
      AttemptIsDelivery(w, k, log);
    }
  }

  lemma AttemptIsDelivery(w: World, k: nat, log: seq<Bytes>)
    requires w.attempts(k).Responded? && SinkTakes(w, log, Delivery(w, k, log).0)
    ensures var a := w.attempts(k);
            Read(w, a.chunks, a.ending, [], false, log)
              == ReadingEnds(a.ending, log, Delivery(w, k, log).0, Delivery(w, k, log).1)
  {
    hide Read, Deliver, BodyPayloads, SinkTakes;
    ReadIsDelivery(w, w.attempts(k).chunks, w.attempts(k).ending, log);
  }

  lemma TerminalTry(w: World, k: nat, log: seq<Bytes>)
    requires IsTerminal(w, k, log)
    ensures Try(w, k, log) == Report(Delivery(w, k, log).0, Ok(Terminal))
    ensures !MayRetry(w.attempts(k))
  {
    hide Read, Delivery, SinkTakes, MayRetry;
    AttemptIsDelivery(w, k, log);
    RetryableTryIff(w, k, log);
  }

  /**
   Attempts that may be repeated are, so a terminal one within reach makes the call succeed with the payloads
   that lead to it.
   */
  lemma DriverReachesTerminal(w: World, origin: nat, last: nat, log: seq<Bytes>)
    requires origin <= last && forall j :: origin <= j < last ==> GoesOn(w, origin, j)
    requires IsTerminal(w, last, log)
    ensures Drive(w, origin, 0, log) == Call(Delivery(w, last, log).0, Ok(()), last + 1)
  {
    TerminalTry(w, last, log);
    DriverEndsAt(w, origin, last, log);
    hide Drive, Try, Delivery, MayRetry, IsTerminal;
  }

  /** A driver call fails with a status exactly when its last attempt was refused with it. */
  lemma RefusedCallIff(w: World, origin: nat, status: nat, log: seq<Bytes>)
    ensures var c := Drive(w, origin, 0, log);
            c.next > origin && (c.result == Err(HttpStatus(status)) <==> IsRefused(w.attempts(c.next - 1), status))
  {
    var last := DriverEndsFrom(w, origin, origin, log);
    RefusedTryIff(w, last, status, log);
    assert IsRefused(w.attempts(last), status) ==> !MayRetry(w.attempts(last));
    hide Drive, Try, MayRetry, IsRefused, ReconnectDelay;
  }

  /** The driver call of a provider was refused with a 401, and a refresh was asked for. */
  ghost predicate AsksRefresh(w: World, log: seq<Bytes>) {
    Drive(w, 0, 0, log).next > 0 && IsRefused(w.attempts(Drive(w, 0, 0, log).next - 1), 401)
  }

  /**
   Credentials are refreshed and the call made once more exactly after a 401; when the refresh or the headers fail the
   request fails, and otherwise the first driver call stands.
   */
  lemma RefreshedIff(w: World, auth: Auth, log: seq<Bytes>)
    ensures var first, c := Drive(w, 0, 0, log), StreamModel(w, auth, log);
            && (c.next > first.next <==>
                 auth.headersOk(0) && AsksRefresh(w, log) && auth.refresh == Refreshed(true) && auth.headersOk(1))
            && (!auth.headersOk(0) ==> c == Call(log, Err(Request), 0))
            && (auth.headersOk(0) && !AsksRefresh(w, log) ==> c == first)
            && (auth.headersOk(0) && AsksRefresh(w, log) ==>
                 match auth.refresh
                 case RefreshFailed => c == Call(log, Err(Request), first.next)
                 case Refreshed(retry) =>
                   if !retry then c == first
                   else if auth.headersOk(1) then c == Drive(w, first.next, 0, log)
                   else c == Call(log, Err(Request), first.next)
                 case _ => c == first)
  {
    hide Drive, IsRefused;
    RefusedCallIff(w, 0, 401, log);
    RefusedCallKeepsLog(w, 0, 0, log);
    var first := Drive(w, 0, 0, log);
    RefusedCallIff(w, first.next, 401, first.log);
  }

  /**
   A call that is refused with a 401 recovers: with refreshed credentials its attempts start anew, and a
   terminal one within reach makes it succeed.
   */
  lemma ProviderCallRecovers(
      w: World, auth: Auth, refused: nat, origin: nat, last: nat, log: seq<Bytes>)
    requires auth.headersOk(0) && auth.headersOk(1) && auth.refresh == Refreshed(true)
    requires forall j :: 0 <= j < refused ==> GoesOn(w, 0, j)
    requires IsRefused(w.attempts(refused), 401)
    requires origin == refused + 1 <= last && forall j :: origin <= j < last ==> GoesOn(w, origin, j)
    requires IsTerminal(w, last, log)
    ensures StreamModel(w, auth, log) == Call(Delivery(w, last, log).0, Ok(()), last + 1)
  {
    hide *;
    CallIsRefusedAt(w, refused, 401, log);
    SecondCall(w, auth, origin, log);
    DriverReachesTerminal(w, origin, last, log);
  }

  lemma SecondCall(w: World, auth: Auth, origin: nat, log: seq<Bytes>)
    requires auth.headersOk(0) && auth.headersOk(1) && auth.refresh == Refreshed(true)
    requires Drive(w, 0, 0, log) == Call(log, Err(HttpStatus(401)), origin)
    ensures StreamModel(w, auth, log) == Drive(w, origin, 0, log)
  {
    hide Drive;
  }

  lemma CallIsRefusedAt(w: World, refused: nat, status: nat, log: seq<Bytes>)
    requires (forall j :: 0 <= j < refused ==> GoesOn(w, 0, j)) && IsRefused(w.attempts(refused), status)
    ensures Drive(w, 0, 0, log) == Call(log, Err(HttpStatus(status)), refused + 1)
  {
    assert !MayRetry(w.attempts(refused));
    hide Drive, MayRetry, Try;
    assert !GoesOn(w, 0, refused);
    DriverEndsAt(w, 0, refused, log);
    hide GoesOn;
    RefusedTryIff(w, refused, status, log);
    RefusedTryKeepsLog(w, refused, log);
  }

  /** The attempts of a provider call: at most two driver calls, and only the last attempt counts. */
  lemma ProviderCallIsSafe(w: World, auth: Auth, log: seq<Bytes>)
    ensures var c := StreamModel(w, auth, log);
            && c.next <= 2 * (w.config.maxReconnects + 1)
            && (forall j :: 0 <= j < c.next - 1 ==> Try(w, j, log).log == log)
            && c.log == (if c.next == 0 then log else Try(w, c.next - 1, log).log)
            && (c.result.Ok? ==> c.next > 0 && Try(w, c.next - 1, log).result == Ok(Terminal))
  {
    hide Try, Drive, HandledInOrder;
    var first := Drive(w, 0, 0, log);
    DriverIsSafe(w, 0, 0, log);
    RefusedCallKeepsLog(w, 0, 0, log);
    if first.result == Err(HttpStatus(401)) {
      DriverIsSafe(w, first.next, 0, log);
    }
  }

  /** Every attempt that is followed by another could be repeated or was refused with a 401. */
  lemma EarlierAttempts(w: World, auth: Auth, log: seq<Bytes>)
    ensures forall j :: 0 <= j < StreamModel(w, auth, log).next - 1 ==>
              && (MayRetry(w.attempts(j)) || IsRefused(w.attempts(j), 401))
              && SendsRequest(w.attempts(j))
  {
    RetriedWasSent();
    hide MayRetry, IsRefused, Drive, SendsRequest;
    var first := Drive(w, 0, 0, log);
    EarlierInCall(w, 0, log);
    RefusedCallIff(w, 0, 401, log);
    EarlierInCall(w, first.next, first.log);
  }

  lemma RetriedWasSent()
    ensures forall attempt :: MayRetry(attempt) || IsRefused(attempt, 401) ==> SendsRequest(attempt)
  {
  }

  lemma EarlierInCall(w: World, origin: nat, log: seq<Bytes>)
    ensures forall j :: origin <= j < Drive(w, origin, 0, log).next - 1 ==> MayRetry(w.attempts(j))
  {
    var last := DriverEndsFrom(w, origin, origin, log);
    hide Drive, MayRetry, EndsAt;
    forall j | origin <= j < last
      ensures MayRetry(w.attempts(j))
    {
      assert GoesOn(w, origin, j);
    }
  }

  /** The attempt was given up before its request left. */
  predicate IsUnsent(attempt: Attempt) {
    attempt in {CancelledBefore, BuildFailed}
  }

  lemma {:induction false} RequestsOfAll(w: World, end: nat, n: nat)
    requires forall j :: 0 <= j < end ==> SendsRequest(w.attempts(j))
    ensures |Requests(w, 0, end, n)| == end
    ensures |Requests(w, 0, end + 1, n)| == if IsUnsent(w.attempts(end)) then end else end + 1
  {
    if end > 0 {
      RequestsOfAll(w, end - 1, n);
    }
  }

  /**
   A whole provider call, for every network: every request leaves before the handler has been given
   anything, there are at most 2 * (max_reconnects + 1) of them, one for each attempt, unless the last one was given
   up before, all frames come from the last attempt,
   none is handled after the handler stopped or failed, and success means that the last one was terminal and
   its events reached the sink.
   */
  lemma RetrySafety(w: World, auth: Auth, log: seq<Bytes>)
    ensures var c := StreamModel(w, auth, log);
            var sent := Requests(w, 0, c.next, |log|);
            && c.next <= 2 * (w.config.maxReconnects + 1)
            && |sent| == (if c.next > 0 && IsUnsent(w.attempts(c.next - 1)) then c.next - 1 else c.next)
            && (forall i :: 0 <= i < |sent| ==> sent[i] == |log|)
            && (forall j :: 0 <= j < c.next - 1 ==> Try(w, j, log).log == log)
            && c.log == (if c.next == 0 then log else Try(w, c.next - 1, log).log)
            && HandledInOrder(w.env, log, c.log)
            && (c.result.Ok? ==> |c.log| > |log| && w.env.reply(c.log) == Stop && w.emitOk(c.log))
  {
    hide StreamModel, Try, Requests, MayRetry, SendsRequest, IsRefused, IsUnsent;
    ProviderCallIsSafe(w, auth, log);
    EarlierAttempts(w, auth, log);
    var c := StreamModel(w, auth, log);
    RequestsAreEarly(w, 0, c.next, |log|);
    if c.next > 0 {
      TryHandles(w, c.next - 1, log);
      RequestsOfAll(w, c.next - 1, |log|);
    }
  }

  lemma {:induction false} PowerGrows(m: nat, n: nat)
    requires m <= n
    ensures Power(2, m) <= Power(2, n)
  {
    if m < n {
      PowerGrows(m, n - 1);
    }
  }

  /** The pauses never shrink from one reconnect to the next and never pass the maximum. */
  lemma ReconnectDelayGrows(config: Config, m: nat, n: nat)
    requires m <= n && config.maxBackoff <= DURATION_MAX
    ensures ReconnectDelay(config, m) <= ReconnectDelay(config, n) <= config.maxBackoff
  {
    var i, j := if m < 31 then m else 31, if n < 31 then n else 31;
    PowerGrows(i, j);
    hide Power;
    ProductGrows(config.initialBackoff, Power(2, i), Power(2, j));
  }

  function Capped(delay: nat, max: nat): nat {
    if delay <= max then delay else max
  }

  /** The first pause is the initial one, and each is twice the one before, up to the maximum and 31 doublings. */
  lemma ReconnectDelayDoubles(config: Config, n: nat)
    requires config.maxBackoff <= DURATION_MAX
    ensures ReconnectDelay(config, 0) == Capped(config.initialBackoff, config.maxBackoff)
    ensures n < 31 ==> ReconnectDelay(config, n + 1) == Capped(2 * ReconnectDelay(config, n), config.maxBackoff)
    ensures n >= 31 ==> ReconnectDelay(config, n) == ReconnectDelay(config, 31)
  {
    assert Power(2, 0) == 1;
    if n < 31 {
      var p := config.initialBackoff * Power(2, n);
      Twice(config.initialBackoff, Power(2, n));
      assert Power(2, n + 1) == 2 * Power(2, n);
    }
    hide Power;
  }

  lemma Twice(a: nat, x: nat)
    ensures a * (2 * x) == 2 * (a * x)
  {
  }
}
