/**
 How the bridge finds the message that a run answers.  Prompts of a chat wait in a queue; a run that
 starts takes the front of it, and what the run says answers that message.

 Requests to the server are left out: a prompt is pushed, and pushed back out when the request fails.
 `State` is the value of the bridge's state, `TelegramBridgeState` the state that is updated in place.
 */
module Bridge {
  import opened Wrappers

  datatype SessionKey = SessionKey(chatId: int, threadId: Option<int>)

  datatype Status = Idle | Running | Paused | Completed | Aborted | Failed

  datatype Session = Session(sessionId: string, status: Status)

  datatype RunKey = RunKey(chat: SessionKey, runId: string)

  /** What the server displays; only the kinds that matter to reply targets are told apart. */
  datatype Event =
    | RunStarted(runId: string)
    | AssistantMessageDelta(runId: string)
    | AssistantMessageFinal(runId: string)
    | RunCompleted(runId: string)
    | RunAborted(runId: string)
    | RunFailed(runId: string)
    | OtherEvent
  {
    predicate IsMessage() {
      AssistantMessageDelta? || AssistantMessageFinal?
    }

    predicate IsEnd() {
      RunCompleted? || RunAborted? || RunFailed?
    }
  }

  datatype State = State(
    sessions: map<SessionKey, Session>,
    displayRoutes: map<string, SessionKey>,
    pending: map<SessionKey, seq<int>>,
    targets: map<RunKey, int>)

  datatype SubmitError = MissingSession | RequestFailed

  // ---------------------------------------------------------------------------------------------
  // Steps on the value of the state
  // ---------------------------------------------------------------------------------------------

  datatype Step =
    | RecordSession(key: SessionKey, session: Session)
    | RecordRoute(key: SessionKey, sessionId: string)
    | Push(key: SessionKey, messageId: int)
    | Rollback(key: SessionKey, messageId: int)
    | Observe(key: SessionKey, event: Event)
    | RemoveSession(key: SessionKey, sessionId: string)

  /** The prompts of a chat that wait for a run. */
  function Waiting(s: State, key: SessionKey): seq<int> {
    if key in s.pending then s.pending[key] else []
  }

  function WithWaiting(s: State, key: SessionKey, queue: seq<int>): State {
    s.(pending := if queue == [] then s.pending - {key} else s.pending[key := queue])
  }

  function TargetOf(s: State, key: SessionKey, runId: string): Option<int> {
    if RunKey(key, runId) in s.targets then Some(s.targets[RunKey(key, runId)]) else None
  }

  predicate IsActive(s: State, key: SessionKey, sessionId: string) {
    key in s.sessions && s.sessions[key].sessionId == sessionId
  }

  function Pushed(s: State, key: SessionKey, messageId: int): State {
    WithWaiting(s, key, Waiting(s, key) + [messageId])
  }

  function RolledBack(s: State, key: SessionKey, messageId: int): State {
    var queue := Waiting(s, key);
    WithWaiting(s, key, if queue != [] && queue[|queue| - 1] == messageId then queue[..|queue| - 1] else queue)
  }

  function Started(s: State, key: SessionKey, runId: string): State {
    var queue := Waiting(s, key);
    if queue == [] then WithWaiting(s, key, [])
    else WithWaiting(s, key, queue[1..]).(targets := s.targets[RunKey(key, runId) := queue[0]])
  }

  function Observed(s: State, key: SessionKey, event: Event): State {
    if event.RunStarted? then Started(s, key, event.runId)
    else if event.IsEnd() then s.(targets := s.targets - {RunKey(key, event.runId)})
    else s
  }

  function TargetsWithout(targets: map<RunKey, int>, key: SessionKey): map<RunKey, int> {
    map run | run in targets && run.chat != key :: targets[run]
  }

  function Removed(s: State, key: SessionKey, sessionId: string): State {
    var routed := s.(displayRoutes := s.displayRoutes - {sessionId});
    if IsActive(s, key, sessionId) then
      routed.(sessions := s.sessions - {key}, pending := s.pending - {key}, targets := TargetsWithout(s.targets, key))
    else routed
  }

  function Do(s: State, step: Step): State {
    match step
    case RecordSession(key, session) => s.(sessions := s.sessions[key := session])
    case RecordRoute(key, sessionId) => s.(displayRoutes := s.displayRoutes[sessionId := key])
    case Push(key, messageId) => Pushed(s, key, messageId)
    case Rollback(key, messageId) => RolledBack(s, key, messageId)
    case Observe(key, event) => Observed(s, key, event)
    case RemoveSession(key, sessionId) => Removed(s, key, sessionId)
  }

  /** The message that an event answers. */
  function Answer(s: State, key: SessionKey, event: Event): Option<int> {
    if event.IsMessage() then TargetOf(s, key, event.runId) else None
  }

  /** No queue is stored that is empty. */
  ghost predicate QueuesNonEmpty(s: State) {
    forall key :: key in s.pending ==> s.pending[key] != []
  }

  // ---------------------------------------------------------------------------------------------
  // The state that is updated in place
  // ---------------------------------------------------------------------------------------------

  class TelegramBridgeState {
    var sessions: map<SessionKey, Session>
    var displayRoutes: map<string, SessionKey>
    var pendingRunReplyTargets: map<SessionKey, seq<int>>
    var runReplyTargets: map<RunKey, int>

    function Value(): State
      reads this
    {
      State(sessions, displayRoutes, pendingRunReplyTargets, runReplyTargets)
    }

    constructor ()
      ensures Value() == State(map[], map[], map[], map[])
    {
      sessions, displayRoutes, pendingRunReplyTargets, runReplyTargets := map[], map[], map[], map[];
    }

    method PushPendingRunReplyTarget(key: SessionKey, messageId: int)
      modifies this`pendingRunReplyTargets
      ensures Value() == Do(old(Value()), Push(key, messageId))
    {
      var queue := if key in pendingRunReplyTargets then pendingRunReplyTargets[key] else [];
      pendingRunReplyTargets := pendingRunReplyTargets[key := queue + [messageId]];
    }

    method RollbackPendingRunReplyTarget(key: SessionKey, messageId: int)
      modifies this`pendingRunReplyTargets
      ensures Value() == Do(old(Value()), Rollback(key, messageId))
    {
      if key !in pendingRunReplyTargets {
        assert pendingRunReplyTargets - {key} == pendingRunReplyTargets;
        return;
      }
      var queue := pendingRunReplyTargets[key];
      if queue != [] && queue[|queue| - 1] == messageId {
        queue := queue[..|queue| - 1];
      }
      pendingRunReplyTargets := pendingRunReplyTargets[key := queue];
      if queue == [] {
        pendingRunReplyTargets := pendingRunReplyTargets - {key};
      }
    }

    method ObserveDisplayReplyTarget(key: SessionKey, event: Event) returns (target: Option<int>)
      modifies this`pendingRunReplyTargets, this`runReplyTargets
      ensures target == Answer(old(Value()), key, event)
      ensures Value() == Do(old(Value()), Observe(key, event))
    {
      match event {
        case RunStarted(runId) =>
          if key in pendingRunReplyTargets {
            var queue := pendingRunReplyTargets[key];
            if queue != [] {
              runReplyTargets := runReplyTargets[RunKey(key, runId) := queue[0]];
              queue := queue[1..];
              pendingRunReplyTargets := pendingRunReplyTargets[key := queue];
            }
            if queue == [] {
              pendingRunReplyTargets := pendingRunReplyTargets - {key};
            }
          } else {
            assert pendingRunReplyTargets - {key} == pendingRunReplyTargets;
          }
          return None;
        case AssistantMessageDelta(runId) =>
          return if RunKey(key, runId) in runReplyTargets then Some(runReplyTargets[RunKey(key, runId)]) else None;
        case AssistantMessageFinal(runId) =>
          return if RunKey(key, runId) in runReplyTargets then Some(runReplyTargets[RunKey(key, runId)]) else None;
        case OtherEvent =>
          return None;
        case _ =>
          runReplyTargets := runReplyTargets - {RunKey(key, event.runId)};
          return None;
      }
    }

    method RemoveSessionIfActive(key: SessionKey, sessionId: string)
      modifies this
      ensures Value() == Do(old(Value()), Step.RemoveSession(key, sessionId))
    {
      displayRoutes := displayRoutes - {sessionId};
      if key in sessions && sessions[key].sessionId == sessionId {
        sessions := sessions - {key};
        pendingRunReplyTargets := pendingRunReplyTargets - {key};
        runReplyTargets := map run | run in runReplyTargets && run.chat != key :: runReplyTargets[run];
      }
    }

    /**
     A message of the user, with what the server replied: the status of the session, or nothing when the
     request failed.  Only a message that starts a run is bound to one, and a failed request leaves
     everything as it was.
     */
    method SubmitUserMessage(key: SessionKey, messageId: int, reply: Option<Status>)
      returns (result: Result<Status, SubmitError>)
      requires QueuesNonEmpty(Value())
      modifies this
      ensures QueuesNonEmpty(Value())
      ensures result.Ok? <==> key in old(sessions) && reply.Some?
      ensures result.Err? ==> Value() == old(Value())
      ensures result == Err(MissingSession) <==> key !in old(sessions)
      ensures result.Ok? ==>
                && result.value == reply.value
                && sessions == old(sessions)[key := old(sessions)[key].(status := reply.value)]
                && displayRoutes == old(displayRoutes) && runReplyTargets == old(runReplyTargets)
      ensures result.Ok? && old(sessions)[key].status in {Running, Paused} ==>
                pendingRunReplyTargets == old(pendingRunReplyTargets)
      ensures result.Ok? && old(sessions)[key].status !in {Running, Paused} ==>
                pendingRunReplyTargets == Pushed(old(Value()), key, messageId).pending
    {
      if key !in sessions {
        return Err(MissingSession);
      }
      var isPrompt := sessions[key].status !in {Running, Paused};
      if isPrompt {
        PushPendingRunReplyTarget(key, messageId);
      }
      if reply.None? {
        if isPrompt {
          RollbackPendingRunReplyTarget(key, messageId);
          RollbackUndoesPush(old(Value()), key, messageId);
        }
        return Err(RequestFailed);
      }
      sessions := sessions[key := sessions[key].(status := reply.value)];
      return Ok(reply.value);
    }
  }

  // ---------------------------------------------------------------------------------------------
  // Runs of steps
  // ---------------------------------------------------------------------------------------------

  /** The state after the first `n` steps. */
  function After(s: State, steps: seq<Step>, n: nat): State
    requires n <= |steps|
  {
    if n == 0 then s else Do(After(s, steps, n - 1), steps[n - 1])
  }

  lemma DoKeepsQueuesNonEmpty(s: State, step: Step)
    requires QueuesNonEmpty(s)
    ensures QueuesNonEmpty(Do(s, step))
  {
  }

  /** In every run, no stored queue is empty. */
  lemma {:induction false} QueuesAreNeverEmpty(s: State, steps: seq<Step>, n: nat)
    requires QueuesNonEmpty(s) && n <= |steps|
    ensures QueuesNonEmpty(After(s, steps, n))
  {
    if n > 0 {
      QueuesAreNeverEmpty(s, steps, n - 1);
      DoKeepsQueuesNonEmpty(After(s, steps, n - 1), steps[n - 1]);
    }
  }

  lemma RestoredWaiting(s: State, key: SessionKey, longer: seq<int>)
    requires key in s.pending ==> s.pending[key] != []
    requires longer != []
    ensures Waiting(WithWaiting(s, key, longer), key) == longer
    ensures WithWaiting(WithWaiting(s, key, longer), key, Waiting(s, key)) == s
  {
    if key in s.pending {
      assert s.pending[key := longer][key := s.pending[key]] == s.pending;
    } else {
      assert s.pending[key := longer] - {key} == s.pending;
    }
  }

  /** Taking back a prompt that was just pushed leaves no trace. */
  lemma RollbackUndoesPush(s: State, key: SessionKey, messageId: int)
    requires QueuesNonEmpty(s)
    ensures Do(Do(s, Push(key, messageId)), Rollback(key, messageId)) == s
  {
    var queue := Waiting(s, key);
    RestoredWaiting(s, key, queue + [messageId]);
    assert (queue + [messageId])[..|queue|] == queue;
    hide WithWaiting, Waiting;
  }

  // ---------------------------------------------------------------------------------------------
  // Chats do not disturb each other
  // ---------------------------------------------------------------------------------------------

  /** What the state holds for one chat. */
  datatype Chat = Chat(sessionId: Option<string>, waiting: seq<int>, targets: map<RunKey, int>)

  function TargetsOf(targets: map<RunKey, int>, key: SessionKey): map<RunKey, int> {
    map run | run in targets && run.chat == key :: targets[run]
  }

  function SessionIdOf(s: State, key: SessionKey): Option<string> {
    if key in s.sessions then Some(s.sessions[key].sessionId) else None
  }

  function ChatOf(s: State, key: SessionKey): Chat {
    Chat(SessionIdOf(s, key), Waiting(s, key), TargetsOf(s.targets, key))
  }

  /** A step of the chat, seen from the chat. */
  function ChatDo(c: Chat, step: Step): Chat {
    match step
    case RecordSession(_, session) => c.(sessionId := Some(session.sessionId))
    case RecordRoute(_, _) => c
    case Push(_, messageId) => c.(waiting := c.waiting + [messageId])
    case Rollback(_, messageId) =>
      if c.waiting != [] && c.waiting[|c.waiting| - 1] == messageId then c.(waiting := c.waiting[..|c.waiting| - 1])
      else c
    case Observe(key, event) =>
      if event.RunStarted? && c.waiting != [] then
        c.(waiting := c.waiting[1..], targets := c.targets[RunKey(key, event.runId) := c.waiting[0]])
      else if event.IsEnd() then c.(targets := c.targets - {RunKey(key, event.runId)})
      else c
    case RemoveSession(_, sessionId) => if c.sessionId == Some(sessionId) then Chat(None, [], map[]) else c
  }

  lemma WithWaitingIsLocal(s: State, key: SessionKey, queue: seq<int>, other: SessionKey)
    ensures ChatOf(WithWaiting(s, key, queue), other)
         == if other == key then ChatOf(s, other).(waiting := queue) else ChatOf(s, other)
  {
    hide TargetsOf;
  }

  lemma SetTargetIsLocal(targets: map<RunKey, int>, run: RunKey, messageId: int, key: SessionKey)
    ensures TargetsOf(targets[run := messageId], key)
         == if run.chat == key then TargetsOf(targets, key)[run := messageId] else TargetsOf(targets, key)
    ensures TargetsOf(targets - {run}, key)
         == if run.chat == key then TargetsOf(targets, key) - {run} else TargetsOf(targets, key)
  {
  }

  lemma TargetsWithoutIsLocal(targets: map<RunKey, int>, without: SessionKey, key: SessionKey)
    ensures TargetsOf(TargetsWithout(targets, without), key) == if key == without then map[] else TargetsOf(targets, key)
  {
  }

  lemma ObservedIsLocal(s: State, own: SessionKey, event: Event, key: SessionKey)
    ensures ChatOf(Observed(s, own, event), key)
         == if own == key then ChatDo(ChatOf(s, key), Observe(own, event)) else ChatOf(s, key)
  {
    var queue := Waiting(s, own);
    WithWaitingIsLocal(s, own, if queue == [] then [] else queue[1..], key);
    if event.RunStarted? && queue != [] {
      SetTargetIsLocal(s.targets, RunKey(own, event.runId), queue[0], key);
    } else if event.IsEnd() {
      SetTargetIsLocal(s.targets, RunKey(own, event.runId), 0, key);
    }
    hide WithWaiting, TargetsOf;
    if event.RunStarted? {
      StartedParts(s, own, event.runId, key);
    }
  }

  lemma StartedParts(s: State, own: SessionKey, runId: string, key: SessionKey)
    ensures var queue := Waiting(s, own);
      && Waiting(Started(s, own, runId), key) == Waiting(WithWaiting(s, own, if queue == [] then [] else queue[1..]), key)
      && SessionIdOf(Started(s, own, runId), key) == SessionIdOf(s, key)
      && Started(s, own, runId).targets
           == if queue == [] then s.targets else s.targets[RunKey(own, runId) := queue[0]]
  {
  }

  lemma RemovedIsLocal(s: State, own: SessionKey, sessionId: string, key: SessionKey)
    ensures ChatOf(Removed(s, own, sessionId), key)
         == if own == key then ChatDo(ChatOf(s, key), RemoveSession(own, sessionId)) else ChatOf(s, key)
  {
    TargetsWithoutIsLocal(s.targets, own, key);
    hide TargetsOf, TargetsWithout;
  }

  /** A step is a step of its own chat, and changes nothing for the others. */
  lemma StepIsLocal(s: State, step: Step, key: SessionKey)
    ensures ChatOf(Do(s, step), key) == if step.key == key then ChatDo(ChatOf(s, key), step) else ChatOf(s, key)
  {
    hide TargetsOf;
    match step {
      case Push(own, messageId) =>
        WithWaitingIsLocal(s, own, Waiting(s, own) + [messageId], key);
        hide WithWaiting;
      case Rollback(own, messageId) =>
        var queue := Waiting(s, own);
        WithWaitingIsLocal(s, own, queue, key);
        if queue != [] {
          WithWaitingIsLocal(s, own, queue[..|queue| - 1], key);
        }
        hide WithWaiting;
      case Observe(own, event) =>
        ObservedIsLocal(s, own, event, key);
        hide Observed, ChatDo, ChatOf;
      case RemoveSession(own, sessionId) =>
        RemovedIsLocal(s, own, sessionId, key);
        hide Removed, ChatDo, ChatOf;
      case _ =>
    }
  }

  function ChatAfter(c: Chat, steps: seq<Step>): Chat {
    if steps == [] then c else ChatDo(ChatAfter(c, steps[..|steps| - 1]), steps[|steps| - 1])
  }

  /** The steps of a chat among the first `n`. */
  function Own(steps: seq<Step>, n: nat, key: SessionKey): seq<Step>
    requires n <= |steps|
  {
    if n == 0 then []
    else if steps[n - 1].key == key then Own(steps, n - 1, key) + [steps[n - 1]]
    else Own(steps, n - 1, key)
  }

  /** In every run each chat is a machine of its own: the steps of the other chats do not matter to it. */
  lemma {:induction false} ChatsAreIndependent(s: State, steps: seq<Step>, n: nat, key: SessionKey)
    requires n <= |steps|
    ensures ChatOf(After(s, steps, n), key) == ChatAfter(ChatOf(s, key), Own(steps, n, key))
  {
    if n > 0 {
      var own := Own(steps, n - 1, key);
      ChatsAreIndependent(s, steps, n - 1, key);
      StepIsLocal(After(s, steps, n - 1), steps[n - 1], key);
      assert (own + [steps[n - 1]])[..|own|] == own;
      hide ChatOf, ChatDo, Do;
    }
  }

  lemma {:induction false} NoOwnSteps(steps: seq<Step>, n: nat, key: SessionKey)
    requires n <= |steps| && forall i :: 0 <= i < n ==> steps[i].key != key
    ensures Own(steps, n, key) == []
  {
    if n > 0 {
      NoOwnSteps(steps, n - 1, key);
    }
  }

  /**
   A prompt that is taken back while only other chats were busy leaves its chat as it was, and the other
   chats as if it had never been pushed.
   */
  lemma RollbackAmongOtherChats(s: State, key: SessionKey, messageId: int, others: seq<Step>, other: SessionKey)
    requires other != key
    requires forall i :: 0 <= i < |others| ==> others[i].key != key
    ensures
      var pushed := Do(s, Push(key, messageId));
      var end := Do(After(pushed, others, |others|), Rollback(key, messageId));
      && ChatOf(end, key) == ChatOf(s, key)
      && ChatOf(end, other) == ChatOf(After(s, others, |others|), other)
  {
    var push, rollback := Push(key, messageId), Rollback(key, messageId);
    var pushed := Do(s, push);
    var busy := After(pushed, others, |others|);
    StepIsLocal(s, push, key);
    StepIsLocal(s, push, other);
    StepIsLocal(busy, rollback, key);
    StepIsLocal(busy, rollback, other);
    ChatsAreIndependent(pushed, others, |others|, key);
    ChatsAreIndependent(pushed, others, |others|, other);
    ChatsAreIndependent(s, others, |others|, other);
    NoOwnSteps(others, |others|, key);
    hide Do, After, Own;
    assert (ChatOf(s, key).waiting + [messageId])[..|ChatOf(s, key).waiting|] == ChatOf(s, key).waiting;
    assert ChatDo(ChatDo(ChatOf(s, key), push), rollback) == ChatOf(s, key);
  }

  // ---------------------------------------------------------------------------------------------
  // Prompts are taken in order
  // ---------------------------------------------------------------------------------------------

  /** The prompts of a chat in order, and how many of them runs have taken. */
  datatype Ledger = Ledger(prompts: seq<int>, taken: nat)

  function Booked(l: Ledger, s: State, key: SessionKey, step: Step): Ledger {
    if step.key != key then l
    else
      match step
      case Push(_, messageId) => l.(prompts := l.prompts + [messageId])
      case Rollback(_, messageId) =>
        if l.taken < |l.prompts| && l.prompts[|l.prompts| - 1] == messageId then
          l.(prompts := l.prompts[..|l.prompts| - 1])
        else l
      case Observe(_, RunStarted(_)) => if l.taken < |l.prompts| then l.(taken := l.taken + 1) else l
      case RemoveSession(_, sessionId) =>
        if IsActive(s, key, sessionId) && l.taken <= |l.prompts| then l.(prompts := l.prompts[..l.taken]) else l
      case _ => l
  }

  function LedgerAfter(s: State, steps: seq<Step>, n: nat, key: SessionKey): Ledger
    requires n <= |steps|
  {
    if n == 0 then Ledger([], 0)
    else Booked(LedgerAfter(s, steps, n - 1, key), After(s, steps, n - 1), key, steps[n - 1])
  }

  /** The prompt that a step hands to a run of the chat. */
  function Taken(s: State, step: Step, key: SessionKey): seq<int> {
    if step.Observe? && step.key == key && step.event.RunStarted? && Waiting(s, key) != [] then
      [Waiting(s, key)[0]]
    else []
  }

  function AllTaken(s: State, steps: seq<Step>, n: nat, key: SessionKey): seq<int>
    requires n <= |steps|
  {
    if n == 0 then [] else AllTaken(s, steps, n - 1, key) + Taken(After(s, steps, n - 1), steps[n - 1], key)
  }

  ghost predicate Agrees(l: Ledger, waiting: seq<int>) {
    l.taken <= |l.prompts| && waiting == l.prompts[l.taken..]
  }

  /** The ledger of a chat whose prompts in waiting are `waiting`. */
  lemma PushAgrees(l: Ledger, waiting: seq<int>, messageId: int)
    requires Agrees(l, waiting)
    ensures var pushed := l.(prompts := l.prompts + [messageId]);
            Agrees(pushed, waiting + [messageId]) && pushed.prompts[..l.taken] == l.prompts[..l.taken]
  {
  }

  lemma RollbackAgrees(l: Ledger, waiting: seq<int>)
    requires Agrees(l, waiting) && waiting != []
    ensures l.taken < |l.prompts| && l.prompts[|l.prompts| - 1] == waiting[|waiting| - 1]
    ensures var fewer := l.(prompts := l.prompts[..|l.prompts| - 1]);
            Agrees(fewer, waiting[..|waiting| - 1]) && fewer.prompts[..l.taken] == l.prompts[..l.taken]
  {
  }

  lemma TakeAgrees(l: Ledger, waiting: seq<int>)
    requires Agrees(l, waiting) && waiting != []
    ensures l.taken < |l.prompts| && Agrees(l.(taken := l.taken + 1), waiting[1..])
    ensures l.prompts[..l.taken] + [waiting[0]] == l.prompts[..l.taken + 1]
  {
  }

  /** What a step does to the queue of a chat and to its ledger. */
  lemma StepAgrees(l: Ledger, s: State, key: SessionKey, step: Step)
    requires Agrees(l, Waiting(s, key))
    ensures Agrees(Booked(l, s, key, step), Waiting(Do(s, step), key))
    ensures l.prompts[..l.taken] + Taken(s, step, key)
         == Booked(l, s, key, step).prompts[..Booked(l, s, key, step).taken]
  {
    StepIsLocal(s, step, key);
    SessionIsActive(s, key);
    var c, waiting := ChatOf(s, key), Waiting(s, key);
    assert Waiting(Do(s, step), key) == (if step.key == key then ChatDo(c, step) else c).waiting;
    assert l.prompts[..l.taken] + [] == l.prompts[..l.taken];
    assert waiting == [] <==> l.taken == |l.prompts|;
    hide Do, SessionIdOf, IsActive, TargetsOf, Waiting;
    if step.key == key {
      match step {
        case Push(_, messageId) => PushAgrees(l, waiting, messageId);
        case Rollback(_, messageId) =>
          if waiting != [] {
            RollbackAgrees(l, waiting);
          }
        case Observe(_, event) =>
          if event.RunStarted? && waiting != [] {
            TakeAgrees(l, waiting);
          }
        case RemoveSession(_, _) => assert l.prompts[..l.taken][l.taken..] == [];
        case _ =>
      }
    }
  }

  lemma SessionIsActive(s: State, key: SessionKey)
    ensures forall sessionId :: IsActive(s, key, sessionId) <==> SessionIdOf(s, key) == Some(sessionId)
  {
  }

  lemma NothingWaits(s: State, key: SessionKey)
    requires s.pending == map[]
    ensures Waiting(s, key) == []
  {
  }

  lemma AgreesAddsUp(l: Ledger, waiting: seq<int>)
    requires Agrees(l, waiting)
    ensures l.prompts[..l.taken] + waiting == l.prompts
  {
  }

  /**
   Runs take the prompts of a chat in order: the prompts taken so far and those waiting are the prompts of
   the ledger, to which a push adds at the end, and from which a rollback removes the last one only while
   it waits.
   */
  lemma {:induction false} PromptsAreTakenInOrder(s: State, steps: seq<Step>, n: nat, key: SessionKey)
    requires s.pending == map[] && n <= |steps|
    ensures Agrees(LedgerAfter(s, steps, n, key), Waiting(After(s, steps, n), key))
    ensures AllTaken(s, steps, n, key)
         == LedgerAfter(s, steps, n, key).prompts[..LedgerAfter(s, steps, n, key).taken]
    ensures AllTaken(s, steps, n, key) + Waiting(After(s, steps, n), key) == LedgerAfter(s, steps, n, key).prompts
  {
    hide Booked, Do, Taken, Waiting;
    if n == 0 {
      assert Waiting(s, key) == [] by { NothingWaits(s, key); }
    } else {
      PromptsAreTakenInOrder(s, steps, n - 1, key);
      StepAgrees(LedgerAfter(s, steps, n - 1, key), After(s, steps, n - 1), key, steps[n - 1]);
    }
    AgreesAddsUp(LedgerAfter(s, steps, n, key), Waiting(After(s, steps, n), key));
  }

  /** The messages pushed for a chat, in order. */
  function PushedFor(steps: seq<Step>, n: nat, key: SessionKey): seq<int>
    requires n <= |steps|
  {
    if n == 0 then [] else PushedFor(steps, n - 1, key) + PushedBy(steps[n - 1], key)
  }

  function PushedBy(step: Step, key: SessionKey): seq<int> {
    if step.Push? && step.key == key then [step.messageId] else []
  }

  /** Without rollbacks and deletions, the prompts taken and those waiting are those pushed, in order. */
  lemma {:induction false} PromptsAreConserved(s: State, steps: seq<Step>, n: nat, key: SessionKey)
    requires s.pending == map[] && n <= |steps|
    requires forall i :: 0 <= i < n && steps[i].key == key ==> !steps[i].Rollback? && !steps[i].RemoveSession?
    ensures AllTaken(s, steps, n, key) + Waiting(After(s, steps, n), key) == PushedFor(steps, n, key)
  {
    hide Do, Taken, Waiting, PushedBy;
    if n == 0 {
      NothingWaits(s, key);
    } else {
      var before, step := After(s, steps, n - 1), steps[n - 1];
      PromptsAreConserved(s, steps, n - 1, key);
      StepConserves(before, step, key);
      assert AllTaken(s, steps, n - 1, key) + (Taken(before, step, key) + Waiting(Do(before, step), key))
          == (AllTaken(s, steps, n - 1, key) + Waiting(before, key)) + PushedBy(step, key);
    }
  }

  lemma StepConserves(s: State, step: Step, key: SessionKey)
    requires step.key == key ==> !step.Rollback? && !step.RemoveSession?
    ensures Taken(s, step, key) + Waiting(Do(s, step), key)
         == Waiting(s, key) + PushedBy(step, key)
  {
  }

  // ---------------------------------------------------------------------------------------------
  // A run answers the prompt it took
  // ---------------------------------------------------------------------------------------------

  /** Step `i` starts the run and hands it the message. */
  ghost predicate Binds(s: State, steps: seq<Step>, i: nat, key: SessionKey, runId: string, messageId: int)
    requires i < |steps|
  {
    steps[i] == Observe(key, RunStarted(runId)) && Taken(After(s, steps, i), steps[i], key) == [messageId]
  }

  /** Step `i` gives the run another message, ends the run, or deletes the active session of the chat. */
  ghost predicate Changes(s: State, steps: seq<Step>, i: nat, key: SessionKey, runId: string)
    requires i < |steps|
  {
    && steps[i].key == key
    && match steps[i]
       case Observe(_, event) =>
         (event == RunStarted(runId) && Waiting(After(s, steps, i), key) != [])
         || event in {RunCompleted(runId), RunAborted(runId), RunFailed(runId)}
       case RemoveSession(_, sessionId) => IsActive(After(s, steps, i), key, sessionId)
       case _ => false
  }

  ghost predicate BoundAt(s: State, steps: seq<Step>, n: nat, i: nat, key: SessionKey, runId: string, messageId: int)
    requires i < n <= |steps|
  {
    Binds(s, steps, i, key, runId, messageId) && forall j :: i < j < n ==> !Changes(s, steps, j, key, runId)
  }

  /** A step handed the message to the run, and nothing changed that since. */
  ghost predicate Bound(s: State, steps: seq<Step>, n: nat, key: SessionKey, runId: string, messageId: int)
    requires n <= |steps|
  {
    exists i :: 0 <= i < n && BoundAt(s, steps, n, i, key, runId, messageId)
  }

  lemma StepOnTarget(s: State, steps: seq<Step>, i: nat, key: SessionKey, runId: string, messageId: int)
    requires i < |steps|
    ensures !Changes(s, steps, i, key, runId) ==>
              TargetOf(After(s, steps, i + 1), key, runId) == TargetOf(After(s, steps, i), key, runId)
    ensures Changes(s, steps, i, key, runId) ==>
              (TargetOf(After(s, steps, i + 1), key, runId) == Some(messageId)
               <==> Binds(s, steps, i, key, runId, messageId))
  {
  }

  /**
   At every moment of every run of steps, a run of a chat has a target exactly when it was started with
   that message waiting first, and since then has neither ended, nor been started again with a message
   waiting, nor lost its session.
   */
  lemma {:induction false} RunHasThePromptItTook(s: State, steps: seq<Step>, n: nat, key: SessionKey, runId: string,
                                                messageId: int)
    requires s.targets == map[] && n <= |steps|
    ensures TargetOf(After(s, steps, n), key, runId) == Some(messageId)
       <==> Bound(s, steps, n, key, runId, messageId)
  {
    hide After, TargetOf, Binds, Changes, Bound;
    if n == 0 {
      NothingAtStart(s, steps, key, runId, messageId);
    } else {
      RunHasThePromptItTook(s, steps, n - 1, key, runId, messageId);
      StepOnTarget(s, steps, n - 1, key, runId, messageId);
      StepOnBound(s, steps, n, key, runId, messageId);
    }
  }

  lemma NothingAtStart(s: State, steps: seq<Step>, key: SessionKey, runId: string, messageId: int)
    requires s.targets == map[]
    ensures TargetOf(After(s, steps, 0), key, runId) == None && !Bound(s, steps, 0, key, runId, messageId)
  {
  }

  lemma StepOnBound(s: State, steps: seq<Step>, n: nat, key: SessionKey, runId: string, messageId: int)
    requires 0 < n <= |steps|
    ensures Changes(s, steps, n - 1, key, runId) ==>
              (Bound(s, steps, n, key, runId, messageId) <==> Binds(s, steps, n - 1, key, runId, messageId))
    ensures !Changes(s, steps, n - 1, key, runId) ==>
              (Bound(s, steps, n, key, runId, messageId) <==> Bound(s, steps, n - 1, key, runId, messageId))
  {
    assert Binds(s, steps, n - 1, key, runId, messageId) ==> Changes(s, steps, n - 1, key, runId);
    hide Changes, Binds;
    if Changes(s, steps, n - 1, key, runId) {
      if Binds(s, steps, n - 1, key, runId, messageId) {
        assert BoundAt(s, steps, n, n - 1, key, runId, messageId);
      }
    } else {
      forall i | 0 <= i < n - 1
        ensures BoundAt(s, steps, n, i, key, runId, messageId) <==> BoundAt(s, steps, n - 1, i, key, runId, messageId)
      {
      }
      if Bound(s, steps, n - 1, key, runId, messageId) {
        var i :| 0 <= i < n - 1 && BoundAt(s, steps, n - 1, i, key, runId, messageId);
        assert BoundAt(s, steps, n, i, key, runId, messageId);
      }
      if Bound(s, steps, n, key, runId, messageId) {
        var i :| 0 <= i < n && BoundAt(s, steps, n, i, key, runId, messageId);
        assert BoundAt(s, steps, n - 1, i, key, runId, messageId);
      }
    }
  }

  /** What a run says, in part or at last, answers the message it took, and no other event answers any. */
  lemma MessagesAnswerThePrompt(s: State, steps: seq<Step>, n: nat, key: SessionKey, event: Event, messageId: int)
    requires s.targets == map[] && n <= |steps|
    ensures Answer(After(s, steps, n), key, event) == Some(messageId)
       <==> (event.AssistantMessageDelta? || event.AssistantMessageFinal?) && Bound(s, steps, n, key, event.runId, messageId)
  {
    if event.IsMessage() {
      RunHasThePromptItTook(s, steps, n, key, event.runId, messageId);
    }
  }

  // ---------------------------------------------------------------------------------------------
  // Sessions and display routes are the last ones recorded
  // ---------------------------------------------------------------------------------------------

  /** Step `i` is `step`, and no step after it among the first `n` undoes it. */
  ghost predicate StandsFrom(steps: seq<Step>, n: nat, i: nat, step: Step, undoes: Step -> bool) {
    i < n <= |steps| && steps[i] == step && forall j :: i < j < n ==> !undoes(steps[j])
  }

  ghost predicate Stands(steps: seq<Step>, n: nat, step: Step, undoes: Step -> bool) {
    exists i: nat :: StandsFrom(steps, n, i, step, undoes)
  }

  lemma StandsOneMore(steps: seq<Step>, n: nat, step: Step, undoes: Step -> bool)
    requires 0 < n <= |steps|
    ensures Stands(steps, n, step, undoes) <==>
              steps[n - 1] == step || (Stands(steps, n - 1, step, undoes) && !undoes(steps[n - 1]))
  {
    if i: nat :| StandsFrom(steps, n, i, step, undoes) {
      if i < n - 1 {
        assert StandsFrom(steps, n - 1, i, step, undoes);
      }
    }
    if steps[n - 1] == step {
      assert StandsFrom(steps, n, n - 1, step, undoes);
    } else if Stands(steps, n - 1, step, undoes) && !undoes(steps[n - 1]) {
      var i: nat :| StandsFrom(steps, n - 1, i, step, undoes);
      assert StandsFrom(steps, n, i, step, undoes);
    }
  }

  /** What a step does to the route of a session and to the session of a chat. */
  lemma StepOnRoutes(s: State, step: Step, key: SessionKey, sessionId: string)
    ensures var route := RouteOf(s, sessionId);
            RouteOf(Do(s, step), sessionId) ==
            match step
            case RecordRoute(k, id) => if id == sessionId then Some(k) else route
            case RemoveSession(_, id) => if id == sessionId then None else route
            case _ => route
    ensures var session := SessionOf(s, key);
            SessionOf(Do(s, step), key) ==
            match step
            case RecordSession(k, recorded) => if k == key then Some(recorded) else session
            case RemoveSession(k, id) => if k == key && session.Some? && session.value.sessionId == id then None else session
            case _ => session
  {
    hide WithWaiting, TargetsWithout;
    match step
    case Push(k, m) => WaitingOnly(s, k, Waiting(s, k) + [m]);
    case Rollback(k, m) =>
      var queue := Waiting(s, k);
      WaitingOnly(s, k, if queue != [] && queue[|queue| - 1] == m then queue[..|queue| - 1] else queue);
    case Observe(k, event) =>
      var queue := Waiting(s, k);
      WaitingOnly(s, k, if queue == [] then [] else queue[1..]);
    case _ =>
  }

  lemma WaitingOnly(s: State, key: SessionKey, queue: seq<int>)
    ensures WithWaiting(s, key, queue).sessions == s.sessions && WithWaiting(s, key, queue).displayRoutes == s.displayRoutes
  {
  }

  function RouteOf(s: State, sessionId: string): Option<SessionKey> {
    if sessionId in s.displayRoutes then Some(s.displayRoutes[sessionId]) else None
  }

  function SessionOf(s: State, key: SessionKey): Option<Session> {
    if key in s.sessions then Some(s.sessions[key]) else None
  }

  /** The step records another route of the session, or deletes it. */
  function UndoesRoute(sessionId: string): Step -> bool {
    (step: Step) => (step.RecordRoute? || step.RemoveSession?) && step.sessionId == sessionId
  }

  /** The step records another session of the chat, or deletes this one from it. */
  function UndoesSession(key: SessionKey, sessionId: string): Step -> bool {
    (step: Step) => step.key == key && (step.RecordSession? || (step.RemoveSession? && step.sessionId == sessionId))
  }

  lemma NothingStands(steps: seq<Step>, step: Step, undoes: Step -> bool)
    ensures !Stands(steps, 0, step, undoes)
  {
  }

  /** Over every run, a session is displayed in a chat exactly when that was recorded last and it was not deleted since. */
  lemma {:induction false} RouteIsLastRecorded(s: State, steps: seq<Step>, n: nat, key: SessionKey, sessionId: string)
    requires s.displayRoutes == map[] && n <= |steps|
    ensures RouteOf(After(s, steps, n), sessionId) == Some(key) <==>
              Stands(steps, n, RecordRoute(key, sessionId), UndoesRoute(sessionId))
  {
    hide Do, Stands;
    if n == 0 {
      NothingStands(steps, RecordRoute(key, sessionId), UndoesRoute(sessionId));
    } else {
      RouteIsLastRecorded(s, steps, n - 1, key, sessionId);
      StepOnRoutes(After(s, steps, n - 1), steps[n - 1], key, sessionId);
      StandsOneMore(steps, n, RecordRoute(key, sessionId), UndoesRoute(sessionId));
      hide RouteOf;
    }
  }

  /** Over every run, a chat has the session that was recorded for it last, if that was not deleted since. */
  lemma {:induction false} SessionIsLastRecorded(s: State, steps: seq<Step>, n: nat, key: SessionKey, session: Session)
    requires s.sessions == map[] && n <= |steps|
    ensures SessionOf(After(s, steps, n), key) == Some(session) <==>
              Stands(steps, n, RecordSession(key, session), UndoesSession(key, session.sessionId))
  {
    hide Do, Stands;
    if n == 0 {
      NothingStands(steps, RecordSession(key, session), UndoesSession(key, session.sessionId));
    } else {
      SessionIsLastRecorded(s, steps, n - 1, key, session);
      StepOnRoutes(After(s, steps, n - 1), steps[n - 1], key, session.sessionId);
      StandsOneMore(steps, n, RecordSession(key, session), UndoesSession(key, session.sessionId));
      hide SessionOf;
    }
  }
}
