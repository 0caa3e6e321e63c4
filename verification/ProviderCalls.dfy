/**
 A provider's call from the network to the events: the driver hands frames to a stream state and stops
 when the state is done, and after a successful call the state is closed.

 How bytes become frames is a parameter.  The handler the driver is given answers with what the stream
 state makes of all frames so far, so its answers are those of the state that is updated in place.
 */
module ProviderCalls {
  import opened Wrappers
  import opened SseDecoder
  import opened SseStandard
  import opened SseDriver
  import opened ModelEvents
  import Responses
  import ChatCompletions
  import Anthropic

  /** The frames in the data handed over. */
  function Parsed<F>(parse: Bytes -> F, log: seq<Bytes>): (frames: seq<F>)
    ensures |frames| == |log|
  {
    seq(|log|, i requires 0 <= i < |log| => parse(log[i]))
  }

  lemma ParsedPrefix<F>(parse: Bytes -> F, log: seq<Bytes>, n: nat)
    requires n <= |log|
    ensures Parsed(parse, log)[..n] == Parsed(parse, log[..n])
  {
  }

  /** What the handler answers: a failure of the stream state, whether it is done, or neither. */
  function ReplyTo<E>(done: Result<bool, E>): Reply {
    match done
    case Err(_) => Fail
    case Ok(d) => if d then Reply.Stop else Continue
  }

  function ResponsesDone(sc: Responses.Scope, frames: seq<Responses.Frame>): Result<bool, StreamError> {
    var fed :- Responses.ApplyFrames(sc, frames);
    Ok(fed.state.done)
  }

  function AnthropicDone(sc: Anthropic.Scope, frames: seq<Anthropic.Frame>): Result<bool, StreamError> {
    var fed :- Anthropic.ApplyFrames(sc, frames);
    Ok(fed.state.done)
  }

  function ChatDone(sc: ChatCompletions.Scope, frames: seq<ChatCompletions.Frame>): Result<bool, StreamError> {
    var fed :- ChatCompletions.HandleAll(sc, frames);
    Ok(fed.state.done)
  }

  /** The handler of the world is the stream state behind `done`. */
  ghost predicate Handler<F>(w: World, parse: Bytes -> F, done: seq<F> -> Result<bool, StreamError>) {
    forall log :: w.env.reply(log) == ReplyTo(done(Parsed(parse, log)))
  }

  /** The frames are accepted, done with the last one, and not done before. */
  predicate EndsWithDone<F>(frames: seq<F>, done: seq<F> -> Result<bool, StreamError>) {
    && frames != [] && done(frames) == Ok(true)
    && forall n :: 0 < n < |frames| ==> done(frames[..n]) == Ok(false)
  }

  /** A handler that was stopped after continuing was fed until it was done. */
  lemma StoppedWhenDone<F>(w: World, parse: Bytes -> F, done: seq<F> -> Result<bool, StreamError>, log: seq<Bytes>)
    requires Handler(w, parse, done)
    requires HandledInOrder(w.env, [], log) && log != [] && w.env.reply(log) == Reply.Stop
    ensures EndsWithDone(Parsed(parse, log), done)
  {
    forall n | 0 < n < |log|
      ensures done(Parsed(parse, log)[..n]) == Ok(false)
    {
      ParsedPrefix(parse, log, n);
      assert w.env.reply(log[..n]) == Continue;
    }
  }

  /** For every network: the frames of a successful call, with its refresh after a 401, end with the done one. */
  lemma CallEndsWithDone<F>(w: World, auth: Auth, parse: Bytes -> F, done: seq<F> -> Result<bool, StreamError>)
    requires Handler(w, parse, done) && StreamModel(w, auth, []).result.Ok?
    ensures EndsWithDone(Parsed(parse, StreamModel(w, auth, []).log), done)
  {
    RetrySafety(w, auth, []);
    hide StreamModel, Handler, EndsWithDone;
    StoppedWhenDone(w, parse, done, StreamModel(w, auth, []).log);
  }

  /** The same for a call without refresh. */
  lemma DriveEndsWithDone<F>(w: World, parse: Bytes -> F, done: seq<F> -> Result<bool, StreamError>)
    requires Handler(w, parse, done) && Drive(w, 0, 0, []).result.Ok?
    ensures EndsWithDone(Parsed(parse, Drive(w, 0, 0, []).log), done)
  {
    DriverIsSafe(w, 0, 0, []);
    hide Drive, Handler, EndsWithDone;
    StoppedWhenDone(w, parse, done, Drive(w, 0, 0, []).log);
  }

  /**
   For every network: a successful responses call has one terminal event, last, and its first event
   is the start of the stream or its failure.
   */
  lemma ResponsesCallIsWellFormed(w: World, auth: Auth, sc: Responses.Scope, parse: Bytes -> Responses.Frame)
    requires Handler(w, parse, (frames: seq<Responses.Frame>) => ResponsesDone(sc, frames))
    requires StreamModel(w, auth, []).result.Ok?
    ensures var frames := Parsed(parse, StreamModel(w, auth, []).log);
            && Responses.FedUntilDone(sc, frames)
            && var fed := Responses.ApplyFrames(sc, frames).value;
               var events := fed.events + Responses.FinishEvents(sc, fed.state).events;
               OneTerminalLast(events) && (events[0].Started? || events[0].FailedEvent?)
  {
    var frames := Parsed(parse, StreamModel(w, auth, []).log);
    var done := (frames: seq<Responses.Frame>) => ResponsesDone(sc, frames);
    CallEndsWithDone(w, auth, parse, done);
    hide StreamModel, Handler;
    ResponsesAreFed(sc, frames, done);
    Responses.StreamIsWellFormed(sc, frames);
  }

  lemma ResponsesAreFed(
      sc: Responses.Scope, frames: seq<Responses.Frame>, done: seq<Responses.Frame> -> Result<bool, StreamError>)
    requires forall fs :: done(fs) == ResponsesDone(sc, fs)
    requires EndsWithDone(frames, done)
    ensures Responses.FedUntilDone(sc, frames)
  {
    assert done(frames) == ResponsesDone(sc, frames);
    forall n | 0 <= n < |frames| && Responses.ApplyFrames(sc, frames[..n]).Ok?
      ensures !Responses.ApplyFrames(sc, frames[..n]).value.state.done
    {
      if n > 0 {
        assert done(frames[..n]) == ResponsesDone(sc, frames[..n]);
      }
    }
  }

  /** For every network: a successful Anthropic call has one terminal event, last. */
  lemma AnthropicCallIsWellFormed(w: World, sc: Anthropic.Scope, parse: Bytes -> Anthropic.Frame)
    requires Handler(w, parse, (frames: seq<Anthropic.Frame>) => AnthropicDone(sc, frames))
    requires Drive(w, 0, 0, []).result.Ok?
    ensures var frames := Parsed(parse, Drive(w, 0, 0, []).log);
            && Anthropic.FedUntilDone(sc, frames)
            && var fed := Anthropic.ApplyFrames(sc, frames).value;
               OneTerminalLast(fed.events + Anthropic.Finish(fed.state).events)
  {
    var frames := Parsed(parse, Drive(w, 0, 0, []).log);
    var done := (frames: seq<Anthropic.Frame>) => AnthropicDone(sc, frames);
    DriveEndsWithDone(w, parse, done);
    hide Drive, Handler;
    AnthropicIsFed(sc, frames, done);
    Anthropic.StreamIsWellFormed(sc, frames);
  }

  lemma AnthropicIsFed(
      sc: Anthropic.Scope, frames: seq<Anthropic.Frame>, done: seq<Anthropic.Frame> -> Result<bool, StreamError>)
    requires forall fs :: done(fs) == AnthropicDone(sc, fs)
    requires EndsWithDone(frames, done)
    ensures Anthropic.FedUntilDone(sc, frames)
  {
    assert done(frames) == AnthropicDone(sc, frames);
    forall n | 0 <= n < |frames| && Anthropic.ApplyFrames(sc, frames[..n]).Ok?
      ensures !Anthropic.ApplyFrames(sc, frames[..n]).value.state.done
    {
      if n > 0 {
        assert done(frames[..n]) == AnthropicDone(sc, frames[..n]);
      }
    }
  }

  /**
   For every network: a chat call whose frames are read and whose state is closed successfully starts with
   its start and has one terminal event, last.
   */
  lemma ChatCallIsWellFormed(w: World, auth: Auth, sc: ChatCompletions.Scope, parse: Bytes -> ChatCompletions.Frame)
    requires Handler(w, parse, (frames: seq<ChatCompletions.Frame>) => ChatDone(sc, frames))
    requires StreamModel(w, auth, []).result.Ok?
    ensures var frames := Parsed(parse, StreamModel(w, auth, []).log);
            && frames != [] && ChatCompletions.HandleAll(sc, frames).Ok?
            && var fed := ChatCompletions.HandleAll(sc, frames).value;
               var finish := ChatCompletions.Finish(sc, fed.state);
               finish.Ok? ==>
                 var events := fed.events + finish.value.events;
                 OneTerminalLast(events) && events[|events| - 1].Finished? && events[0].Started?
  {
    var frames := Parsed(parse, StreamModel(w, auth, []).log);
    var done := (frames: seq<ChatCompletions.Frame>) => ChatDone(sc, frames);
    CallEndsWithDone(w, auth, parse, done);
    hide StreamModel, Handler;
    assert done(frames) == ChatDone(sc, frames);
    if ChatCompletions.Finish(sc, ChatCompletions.HandleAll(sc, frames).value.state).Ok? {
      ChatCompletions.StreamIsWellFormed(sc, frames);
    }
  }

  // ---------------------------------------------------------------------------------------------
  // A stream that gets done makes the call succeed
  // ---------------------------------------------------------------------------------------------

  lemma {:induction false} DeliveredUntilStop(env: Env, payloads: seq<Bytes>, log: seq<Bytes>, n: nat)
    requires 0 < n <= |payloads|
    requires forall i :: 0 <= i < n ==> payloads[i] != [] && env.utf8(payloads[i])
    requires forall i :: 0 < i < n ==> env.reply(log + payloads[..i]) == Continue
    requires env.reply(log + payloads[..n]) == Reply.Stop
    ensures Deliver(env, payloads, log) == (log + payloads[..n], Stopped)
    decreases n
  {
    var first, rest := log + [payloads[0]], payloads[1..];
    assert payloads[..1] == [payloads[0]];
    if n > 1 {
      assert env.reply(log + payloads[..1]) == Continue;
      forall i | 0 < i <= n - 1
        ensures first + rest[..i] == log + payloads[..i + 1]
      {
      }
      DeliveredUntilStop(env, rest, first, n - 1);
    }
  }

  /**
   For every network: when a successful response within reach holds payloads of which the first `n` bring the state to
   its end, no sooner, the call succeeds, and these are the frames it was given.
   */
  lemma CallSucceeds<F>(
      w: World, auth: Auth, parse: Bytes -> F, done: seq<F> -> Result<bool, StreamError>, last: nat, n: nat)
    requires Handler(w, parse, done) && auth.headersOk(0)
    requires forall j :: 0 <= j < last ==> GoesOn(w, 0, j)
    requires w.attempts(last).Responded? && 200 <= w.attempts(last).status < 300
    requires var payloads := BodyPayloads(Concat(w.attempts(last).chunks), w.attempts(last).ending);
             && n <= |payloads| && EndsWithDone(Parsed(parse, payloads[..n]), done)
             && (forall i :: 0 <= i < n ==> w.env.utf8(payloads[i]))
             && SinkTakes(w, [], payloads[..n])
    ensures var payloads := BodyPayloads(Concat(w.attempts(last).chunks), w.attempts(last).ending);
            StreamModel(w, auth, []) == Call(payloads[..n], Ok(()), last + 1)
  {
    var payloads := BodyPayloads(Concat(w.attempts(last).chunks), w.attempts(last).ending);
    PayloadsAreText(Concat(w.attempts(last).chunks), w.attempts(last).ending);
    RepliesUntilDone(w, parse, done, payloads[..n]);
    hide BodyPayloads, Handler, EndsWithDone, SinkTakes, GoesOn, Drive;
    forall i | 0 < i <= n
      ensures [] + payloads[..i] == payloads[..n][..i]
    {
    }
    assert [] + payloads[..n] == payloads[..n];
    DeliveredUntilStop(w.env, payloads, [], n);
    hide Deliver;
    DriverReachesTerminal(w, 0, last, []);
  }

  lemma PayloadsAreText(body: Bytes, ending: Ending)
    ensures forall i :: 0 <= i < |BodyPayloads(body, ending)| ==> BodyPayloads(body, ending)[i] != []
  {
    NonEmptyIsText(AllReadData(StreamBlocks(body)));
    NonEmptyIsText(AllReadData(Blocks(Lines(body))));
    hide Blocks, Lines, AllReadData, NonEmpty;
  }

  lemma RepliesUntilDone<F>(
      w: World, parse: Bytes -> F, done: seq<F> -> Result<bool, StreamError>, log: seq<Bytes>)
    requires Handler(w, parse, done) && EndsWithDone(Parsed(parse, log), done)
    ensures log != [] && w.env.reply(log) == Reply.Stop
    ensures forall i :: 0 < i < |log| ==> w.env.reply(log[..i]) == Continue
  {
    forall i | 0 < i < |log|
      ensures w.env.reply(log[..i]) == Continue
    {
      ParsedPrefix(parse, log, i);
    }
  }
}
