/**
 The reducer: the single replay function of the event-sourced agent state.

 `AgentState` is the state that is updated in place; `Snapshot` is its value, `Reduced` the effect
 of one event on it, and `Replay` that of a log.
 */
module Reducer {
  import opened Wrappers
  import opened Text
  import opened Messages

  datatype RunStatus = Idle | Running | Completed | RunAborted | Failed | Paused

  datatype ToolSpec = ToolSpec(name: string, description: string)
  datatype Approval = Approval(approvalId: string, toolCall: string)

  datatype ContextPatch = Set(key: string, value: string) | Remove(key: string)

  datatype MessageCompaction = MessageCompaction(
    summaryMessage: AgentMessage,
    retainedMessageIds: seq<string>,
    droppedMessageIds: seq<string>)

  datatype MessageReplacement = MessageReplacement(
    replacementMessages: seq<AgentMessage>,
    replacedMessageIds: seq<string>)

  datatype AgentEffect =
    | AppendMessage(message: AgentMessage)
    | PatchContext(patch: ContextPatch)
    | SetAvailableTools(tools: seq<ToolSpec>)
    | CompactMessages(compaction: MessageCompaction)
    | ReplaceMessages(replacement: MessageReplacement)

  /** `Observed` stands for the kinds that leave the state as it is. */
  datatype EventKind =
    | RunStarted
    | RunCompleted
    | RunWasAborted
    | RunFailed(error: string)
    | RunPaused(phase: string)
    | RunResumed
    | TurnCompleted
    | PhaseStarted(phase: string)
    | PhaseCompleted(phase: string)
    | PhaseFailed(error: string)
    | EffectCommitted(effect: AgentEffect)
    | ToolApprovalRequested(approval: Approval)
    | ToolApprovalResolved(approvalId: string)
    | ToolApprovalExpired(approvalId: string)
    | Observed

  datatype AgentEvent = AgentEvent(runId: string, kind: EventKind)

  datatype InvalidEffect =
    | EmptyMessageId
    | EmptyContextKey
    | EmptyToolName
    | DuplicateToolName
    | DuplicateRetainedId
    | DuplicateDroppedId
    | DuplicateReplacementId
    | DuplicateReplacedId
    | SummaryNotSystem
    | RetainedAndDroppedOverlap
    | SummaryIdNotNew
    | UnknownMessageId
    | NotCovering
    | NoReplacement

  datatype Snapshot = Snapshot(
    runId: Option<string>,
    status: RunStatus,
    messages: seq<AgentMessage>,
    context: map<string, string>,
    availableTools: map<string, ToolSpec>,
    pendingToolApprovals: map<string, Approval>,
    activePhase: Option<string>,
    completedTurns: nat,
    lastError: Option<string>)

  const DEFAULT_STATE: Snapshot := Snapshot(None, Idle, [], map[], map[], map[], None, 0, None)

  // ---------------------------------------------------------------------------------------------
  // Validation
  // ---------------------------------------------------------------------------------------------

  /** The set of the given names, or the first complaint: a blank one or one seen before. */
  function DistinctNames(names: seq<string>, seen: set<string>, blank: InvalidEffect, duplicate: InvalidEffect)
    : Result<set<string>, InvalidEffect>
    decreases |names|
  {
    if names == [] then Ok(seen)
    else if IsBlank(names[0]) then Err(blank)
    else if names[0] in seen then Err(duplicate)
    else DistinctNames(names[1..], seen + {names[0]}, blank, duplicate)
  }

  method CollectDistinct(names: seq<string>, blank: InvalidEffect, duplicate: InvalidEffect)
    returns (r: Result<set<string>, InvalidEffect>)
    ensures r == DistinctNames(names, {}, blank, duplicate)
  {
    var unique := {};
    for i := 0 to |names|
      invariant DistinctNames(names, {}, blank, duplicate) == DistinctNames(names[i..], unique, blank, duplicate)
    {
      if IsBlank(names[i]) {
        return Err(blank);
      }
      if names[i] in unique {
        return Err(duplicate);
      }
      unique := unique + {names[i]};
    }
    return Ok(unique);
  }

  predicate NamesAreValid(names: seq<string>) {
    Distinct(names) && forall i :: 0 <= i < |names| ==> !IsBlank(names[i])
  }

  predicate NewTo(names: seq<string>, seen: set<string>) {
    forall i :: 0 <= i < |names| ==> names[i] !in seen
  }

  lemma NamesAreValidFrom(names: seq<string>, seen: set<string>)
    requires names != []
    ensures NamesAreValid(names) && NewTo(names, seen) <==>
            && !IsBlank(names[0]) && names[0] !in seen
            && NamesAreValid(names[1..]) && NewTo(names[1..], seen + {names[0]})
  {
    hide IsBlank;
    var rest := names[1..];
    assert forall i :: 1 <= i < |names| ==> names[i] == rest[i - 1];
  }

  /** Accepted exactly when no name is blank, repeated or seen before; then all of them are added. */
  lemma {:induction false} DistinctNamesIff(
      names: seq<string>, seen: set<string>, blank: InvalidEffect, duplicate: InvalidEffect)
    ensures var r := DistinctNames(names, seen, blank, duplicate);
            && (r.Ok? <==> NamesAreValid(names) && NewTo(names, seen))
            && (r.Ok? ==> r.value == seen + IdSet(names))
    decreases |names|
  {
    if names != [] {
      NamesAreValidFrom(names, seen);
      DistinctNamesIff(names[1..], seen + {names[0]}, blank, duplicate);
      hide NamesAreValid, NewTo, IsBlank;
      assert IdSet(names) == {names[0]} + IdSet(names[1..]);
    }
  }

  /** Position `i` holds the first name that is blank or was seen before. */
  predicate IsFirstComplaint(names: seq<string>, seen: set<string>, i: nat) {
    && i < |names| && NamesAreValid(names[..i]) && NewTo(names[..i], seen)
    && (IsBlank(names[i]) || names[i] in seen || names[i] in names[..i])
  }

  /** Names are rejected for the first of them that is blank or repeated. */
  lemma {:induction false} FirstComplaint(
      names: seq<string>, seen: set<string>, blank: InvalidEffect, duplicate: InvalidEffect) returns (i: nat)
    requires DistinctNames(names, seen, blank, duplicate).Err?
    ensures IsFirstComplaint(names, seen, i)
    ensures DistinctNames(names, seen, blank, duplicate).error == if IsBlank(names[i]) then blank else duplicate
    decreases |names|
  {
    hide IsBlank;
    if IsBlank(names[0]) || names[0] in seen {
      i := 0;
      assert names[..0] == [];
    } else {
      var j := FirstComplaint(names[1..], seen + {names[0]}, blank, duplicate);
      i := j + 1;
      assert names[..i][1..] == names[1..][..j];
      NamesAreValidFrom(names[..i], seen);
    }
  }

  function ToolNames(tools: seq<ToolSpec>): (names: seq<string>)
    ensures |names| == |tools| && forall i :: 0 <= i < |names| ==> names[i] == tools[i].name
  {
    seq(|tools|, i requires 0 <= i < |tools| => tools[i].name)
  }

  function ValidateCompaction(c: MessageCompaction): Result<(), InvalidEffect> {
    if IsBlank(c.summaryMessage.id) then Err(EmptyMessageId)
    else if !c.summaryMessage.role.System? then Err(SummaryNotSystem)
    else
      var retained :- DistinctNames(c.retainedMessageIds, {}, EmptyMessageId, DuplicateRetainedId);
      var dropped :- DistinctNames(c.droppedMessageIds, {}, EmptyMessageId, DuplicateDroppedId);
      if retained * dropped != {} then Err(RetainedAndDroppedOverlap)
      else if c.summaryMessage.id in retained + dropped then Err(SummaryIdNotNew)
      else Ok(())
  }

  function ValidateCompactionFor(messages: seq<AgentMessage>, c: MessageCompaction): Result<(), InvalidEffect> {
    var existing := IdSet(Ids(messages));
    var covered := IdSet(c.retainedMessageIds) + IdSet(c.droppedMessageIds);
    if !(covered <= existing) then Err(UnknownMessageId)
    else if c.summaryMessage.id in existing then Err(SummaryIdNotNew)
    else if covered != existing then Err(NotCovering)
    else Ok(())
  }

  function ValidateReplacement(r: MessageReplacement): Result<(), InvalidEffect> {
    if r.replacementMessages == [] then Err(NoReplacement)
    else
      var replacement :- DistinctNames(Ids(r.replacementMessages), {}, EmptyMessageId, DuplicateReplacementId);
      var replaced :- DistinctNames(r.replacedMessageIds, {}, EmptyMessageId, DuplicateReplacedId);
      Ok(())
  }

  function ValidateEffect(effect: AgentEffect): Result<(), InvalidEffect> {
    match effect
    case AppendMessage(message) => if IsBlank(message.id) then Err(EmptyMessageId) else Ok(())
    case PatchContext(patch) => if IsBlank(patch.key) then Err(EmptyContextKey) else Ok(())
    case SetAvailableTools(tools) =>
      var names :- DistinctNames(ToolNames(tools), {}, EmptyToolName, DuplicateToolName);
      Ok(())
    case CompactMessages(compaction) => ValidateCompaction(compaction)
    case ReplaceMessages(replacement) => ValidateReplacement(replacement)
  }

  function ValidateEffectFor(messages: seq<AgentMessage>, effect: AgentEffect): Result<(), InvalidEffect> {
    var valid :- ValidateEffect(effect);
    match effect
    case CompactMessages(compaction) => ValidateCompactionFor(messages, compaction)
    case ReplaceMessages(replacement) =>
      if IdSet(replacement.replacedMessageIds) != IdSet(Ids(messages)) then Err(NotCovering) else Ok(())
    case _ => Ok(())
  }

  /** A compaction is accepted exactly when retained and dropped ids partition the current ones. */
  lemma CompactionAcceptedIff(messages: seq<AgentMessage>, c: MessageCompaction)
    ensures ValidateEffectFor(messages, CompactMessages(c)).Ok? <==>
            && !IsBlank(c.summaryMessage.id) && c.summaryMessage.role.System?
            && NamesAreValid(c.retainedMessageIds) && NamesAreValid(c.droppedMessageIds)
            && IdSet(c.retainedMessageIds) !! IdSet(c.droppedMessageIds)
            && IdSet(c.retainedMessageIds) + IdSet(c.droppedMessageIds) == IdSet(Ids(messages))
            && c.summaryMessage.id !in Ids(messages)
  {
    DistinctNamesIff(c.retainedMessageIds, {}, EmptyMessageId, DuplicateRetainedId);
    DistinctNamesIff(c.droppedMessageIds, {}, EmptyMessageId, DuplicateDroppedId);
    assert {} + IdSet(c.retainedMessageIds) == IdSet(c.retainedMessageIds);
    assert {} + IdSet(c.droppedMessageIds) == IdSet(c.droppedMessageIds);
  }

  /** The other effects: what must not be blank or repeated, and that a replacement covers all messages. */
  lemma EffectAcceptedIff(messages: seq<AgentMessage>, effect: AgentEffect)
    requires !effect.CompactMessages?
    ensures ValidateEffectFor(messages, effect).Ok? <==>
              match effect
              case AppendMessage(m) => !IsBlank(m.id)
              case PatchContext(patch) => !IsBlank(patch.key)
              case SetAvailableTools(tools) => NamesAreValid(ToolNames(tools))
              case ReplaceMessages(r) =>
                && r.replacementMessages != [] && NamesAreValid(Ids(r.replacementMessages))
                && NamesAreValid(r.replacedMessageIds) && IdSet(r.replacedMessageIds) == IdSet(Ids(messages))
  {
    hide IsBlank, NamesAreValid;
    match effect
    case SetAvailableTools(tools) => DistinctNamesIff(ToolNames(tools), {}, EmptyToolName, DuplicateToolName);
    case ReplaceMessages(r) =>
      DistinctNamesIff(Ids(r.replacementMessages), {}, EmptyMessageId, DuplicateReplacementId);
      DistinctNamesIff(r.replacedMessageIds, {}, EmptyMessageId, DuplicateReplacedId);
    case _ =>
  }

  // ---------------------------------------------------------------------------------------------
  // The effect of one event
  // ---------------------------------------------------------------------------------------------

  function ToolMap(tools: seq<ToolSpec>): map<string, ToolSpec> {
    if tools == [] then map[]
    else var last := tools[|tools| - 1]; ToolMap(tools[..|tools| - 1])[last.name := last]
  }

  /** The messages whose ids are in the set, in order. */
  function Kept(messages: seq<AgentMessage>, ids: set<string>): seq<AgentMessage> {
    if messages == [] then []
    else (if messages[0].id in ids then [messages[0]] else []) + Kept(messages[1..], ids)
  }

  function CompactedMessages(summary: AgentMessage, retained: seq<AgentMessage>): seq<AgentMessage> {
    [summary] + retained
  }

  function WithEffect(s: Snapshot, effect: AgentEffect): Result<Snapshot, InvalidEffect> {
    var valid :- ValidateEffectFor(s.messages, effect);
    Ok(match effect
       case AppendMessage(message) => s.(messages := s.messages + [message])
       case PatchContext(Set(key, value)) => s.(context := s.context[key := value])
       case PatchContext(Remove(key)) => s.(context := s.context - {key})
       case SetAvailableTools(tools) => s.(availableTools := ToolMap(tools))
       case CompactMessages(c) =>
         s.(messages := CompactedMessages(c.summaryMessage, Kept(s.messages, IdSet(c.retainedMessageIds))))
       case ReplaceMessages(r) => s.(messages := r.replacementMessages))
  }

  function Reduced(s: Snapshot, event: AgentEvent): Result<Snapshot, InvalidEffect> {
    match event.kind
    case RunStarted => Ok(s.(runId := Some(event.runId), status := Running, lastError := None))
    case RunCompleted => Ok(s.(status := Completed, activePhase := None, pendingToolApprovals := map[]))
    case RunWasAborted => Ok(s.(status := RunAborted, activePhase := None, pendingToolApprovals := map[]))
    case RunFailed(error) =>
      Ok(s.(status := Failed, lastError := Some(error), activePhase := None, pendingToolApprovals := map[]))
    case RunPaused(phase) => Ok(s.(status := Paused, activePhase := Some(phase)))
    case RunResumed => Ok(s.(status := Running, lastError := None))
    case TurnCompleted => Ok(s.(completedTurns := s.completedTurns + 1))
    case PhaseStarted(phase) => Ok(s.(activePhase := Some(phase)))
    case PhaseCompleted(phase) => Ok(if s.activePhase == Some(phase) then s.(activePhase := None) else s)
    case PhaseFailed(error) => Ok(s.(status := Failed, lastError := Some(error), activePhase := None))
    case EffectCommitted(effect) => WithEffect(s, effect)
    case ToolApprovalRequested(approval) =>
      Ok(s.(pendingToolApprovals := s.pendingToolApprovals[approval.approvalId := approval]))
    case ToolApprovalResolved(id) => Ok(s.(pendingToolApprovals := s.pendingToolApprovals - {id}))
    case ToolApprovalExpired(id) => Ok(s.(pendingToolApprovals := s.pendingToolApprovals - {id}))
    case Observed => Ok(s)
  }

  /** The state a log leads to, or the complaint about its first unacceptable event. */
  function Replay(events: seq<AgentEvent>): Result<Snapshot, InvalidEffect> {
    if events == [] then Ok(DEFAULT_STATE)
    else
      var s :- Replay(events[..|events| - 1]);
      Reduced(s, events[|events| - 1])
  }

  // ---------------------------------------------------------------------------------------------
  // The state that is updated in place
  // ---------------------------------------------------------------------------------------------

  class AgentState {
    var runId: Option<string>
    var status: RunStatus
    var messages: seq<AgentMessage>
    var context: map<string, string>
    var availableTools: map<string, ToolSpec>
    var pendingToolApprovals: map<string, Approval>
    var activePhase: Option<string>
    var completedTurns: nat
    var lastError: Option<string>

    function Value(): Snapshot
      reads this
    {
      Snapshot(runId, status, messages, context, availableTools, pendingToolApprovals, activePhase,
               completedTurns, lastError)
    }

    constructor ()
      ensures Value() == DEFAULT_STATE
    {
      runId, status, messages := None, Idle, [];
      context, availableTools, pendingToolApprovals := map[], map[], map[];
      activePhase, completedTurns, lastError := None, 0, None;
    }

    /** An accepted event has its effect; a rejected one leaves the state as it was. */
    method ApplyEvent(event: AgentEvent) returns (r: Result<(), InvalidEffect>)
      modifies this
      ensures match Reduced(old(Value()), event)
              case Ok(s) => r == Ok(()) && Value() == s
              case Err(e) => r == Err(e) && Value() == old(Value())
    {
      hide WithEffect;
      match event.kind {
        case RunStarted =>
          runId, status, lastError := Some(event.runId), Running, None;
        case RunCompleted =>
          status, activePhase, pendingToolApprovals := Completed, None, map[];
        case RunWasAborted =>
          status, activePhase, pendingToolApprovals := RunAborted, None, map[];
        case RunFailed(error) =>
          status, lastError, activePhase, pendingToolApprovals := Failed, Some(error), None, map[];
        case RunPaused(phase) =>
          status, activePhase := Paused, Some(phase);
        case RunResumed =>
          status, lastError := Running, None;
        case TurnCompleted =>
          completedTurns := completedTurns + 1;
        case PhaseStarted(phase) =>
          activePhase := Some(phase);
        case PhaseCompleted(phase) =>
          if activePhase == Some(phase) {
            activePhase := None;
          }
        case PhaseFailed(error) =>
          status, lastError, activePhase := Failed, Some(error), None;
        case EffectCommitted(effect) =>
          r := ApplyEffect(effect);
          return;
        case ToolApprovalRequested(approval) =>
          pendingToolApprovals := pendingToolApprovals[approval.approvalId := approval];
        case ToolApprovalResolved(id) =>
          pendingToolApprovals := pendingToolApprovals - {id};
        case ToolApprovalExpired(id) =>
          pendingToolApprovals := pendingToolApprovals - {id};
        case Observed =>
      }
      return Ok(());
    }

    method ApplyEffect(effect: AgentEffect) returns (r: Result<(), InvalidEffect>)
      modifies this
      ensures match WithEffect(old(Value()), effect)
              case Ok(s) => r == Ok(()) && Value() == s
              case Err(e) => r == Err(e) && Value() == old(Value())
    {
      r := ValidateEffectForState(effect);
      if r.Err? {
        return;
      }
      match effect {
        case AppendMessage(message) =>
          messages := messages + [message];
        case PatchContext(patch) =>
          match patch {
            case Set(key, value) => context := context[key := value];
            case Remove(key) => context := context - {key};
          }
        case SetAvailableTools(tools) =>
          availableTools := map[];
          for i := 0 to |tools|
            invariant Value() == old(Value()).(availableTools := ToolMap(tools[..i]))
          {
            assert tools[..i + 1][..i] == tools[..i];
            availableTools := availableTools[tools[i].name := tools[i]];
          }
          assert tools[..|tools|] == tools;
        case CompactMessages(compaction) =>
          messages := CompactedMessages(compaction.summaryMessage,
                                        Kept(messages, IdSet(compaction.retainedMessageIds)));
        case ReplaceMessages(replacement) =>
          messages := replacement.replacementMessages;
      }
    }

    method ValidateEffectForState(effect: AgentEffect) returns (r: Result<(), InvalidEffect>)
      ensures r == ValidateEffectFor(messages, effect)
    {
      match effect {
        case AppendMessage(message) =>
          r := ValidateEffectFor(messages, effect);
        case PatchContext(patch) =>
          r := ValidateEffectFor(messages, effect);
        case SetAvailableTools(tools) =>
          var names := CollectDistinct(ToolNames(tools), EmptyToolName, DuplicateToolName);
          r := if names.Err? then Err(names.error) else Ok(());
        case CompactMessages(c) =>
          if IsBlank(c.summaryMessage.id) {
            return Err(EmptyMessageId);
          }
          if !c.summaryMessage.role.System? {
            return Err(SummaryNotSystem);
          }
          var retained :- CollectDistinct(c.retainedMessageIds, EmptyMessageId, DuplicateRetainedId);
          var dropped :- CollectDistinct(c.droppedMessageIds, EmptyMessageId, DuplicateDroppedId);
          if retained * dropped != {} {
            return Err(RetainedAndDroppedOverlap);
          }
          if c.summaryMessage.id in retained || c.summaryMessage.id in dropped {
            return Err(SummaryIdNotNew);
          }
          r := ValidateCompactionFor(messages, c);
        case ReplaceMessages(replacement) =>
          if replacement.replacementMessages == [] {
            return Err(NoReplacement);
          }
          var ids :- CollectDistinct(Ids(replacement.replacementMessages), EmptyMessageId, DuplicateReplacementId);
          var replaced :- CollectDistinct(replacement.replacedMessageIds, EmptyMessageId, DuplicateReplacedId);
          r := if IdSet(replacement.replacedMessageIds) != IdSet(Ids(messages)) then Err(NotCovering) else Ok(());
      }
    }
  }

  method ReduceEvents(events: seq<AgentEvent>) returns (r: Result<Snapshot, InvalidEffect>)
    ensures r == Replay(events)
  {
    var state := new AgentState();
    for i := 0 to |events|
      invariant Replay(events[..i]) == Ok(state.Value())
      invariant fresh(state)
    {
      assert events[..i + 1][..i] == events[..i];
      var applied := state.ApplyEvent(events[i]);
      if applied.Err? {
        ReplayStopsAtError(events, i + 1);
        return Err(applied.error);
      }
    }
    assert events[..|events|] == events;
    return Ok(state.Value());
  }

  lemma {:induction false} ReplayStopsAtError(events: seq<AgentEvent>, n: nat)
    requires n <= |events| && Replay(events[..n]).Err?
    ensures Replay(events) == Replay(events[..n])
    decreases |events| - n
  {
    if n < |events| {
      assert events[..n + 1][..n] == events[..n];
      ReplayStopsAtError(events, n + 1);
    } else {
      assert events[..n] == events;
    }
  }

  // ---------------------------------------------------------------------------------------------
  // Replay agrees with the log
  // ---------------------------------------------------------------------------------------------

  predicate ClearsApprovals(kind: EventKind) {
    kind.RunCompleted? || kind.RunWasAborted? || kind.RunFailed?
  }

  /** The event neither settles the approval nor asks for it again. */
  predicate LeavesApproval(kind: EventKind, id: string) {
    && !ClearsApprovals(kind)
    && kind != ToolApprovalResolved(id) && kind != ToolApprovalExpired(id)
    && !(kind.ToolApprovalRequested? && kind.approval.approvalId == id)
  }

  /** The log asks for `approval` at position `i`, and nothing after that touches it. */
  ghost predicate StillPending(events: seq<AgentEvent>, approval: Approval, i: nat) {
    && i < |events| && events[i].kind == ToolApprovalRequested(approval)
    && forall j :: i < j < |events| ==> LeavesApproval(events[j].kind, approval.approvalId)
  }

  ghost predicate IsPending(events: seq<AgentEvent>, approval: Approval) {
    exists i :: StillPending(events, approval, i)
  }

  lemma PendingAfterEvent(events: seq<AgentEvent>, approval: Approval)
    requires events != []
    ensures var last := events[|events| - 1].kind;
            var before := IsPending(events[..|events| - 1], approval);
            IsPending(events, approval) <==>
              last == ToolApprovalRequested(approval) ||
              (before && LeavesApproval(last, approval.approvalId))
  {
    var n := |events| - 1;
    if i: nat :| StillPending(events, approval, i) {
      if i < n {
        assert StillPending(events[..n], approval, i);
      }
    }
    if events[n].kind == ToolApprovalRequested(approval) {
      assert StillPending(events, approval, n);
    } else if IsPending(events[..n], approval) && LeavesApproval(events[n].kind, approval.approvalId) {
      var i :| StillPending(events[..n], approval, i);
      assert StillPending(events, approval, i);
    }
  }

  function PendingAfter(pending: map<string, Approval>, kind: EventKind): map<string, Approval> {
    if ClearsApprovals(kind) then map[]
    else match kind
      case ToolApprovalRequested(a) => pending[a.approvalId := a]
      case ToolApprovalResolved(id) => pending - {id}
      case ToolApprovalExpired(id) => pending - {id}
      case _ => pending
  }

  /** Only the approval and run-ending events touch the approvals, only turn events the turn count. */
  lemma EventOnApprovalsAndTurns(s: Snapshot, event: AgentEvent)
    requires Reduced(s, event).Ok?
    ensures Reduced(s, event).value.pendingToolApprovals == PendingAfter(s.pendingToolApprovals, event.kind)
    ensures Reduced(s, event).value.completedTurns
         == s.completedTurns + if event.kind.TurnCompleted? then 1 else 0
  {
    hide ValidateEffectFor;
  }

  /** The approvals are filed under their ids, and are those the log leaves open. */
  ghost predicate AreOpen(pending: map<string, Approval>, events: seq<AgentEvent>) {
    && (forall id :: id in pending ==> pending[id].approvalId == id)
    && (forall a: Approval :: a.approvalId in pending && pending[a.approvalId] == a <==> IsPending(events, a))
  }

  lemma OpenAfterEvent(pending: map<string, Approval>, events: seq<AgentEvent>)
    requires events != [] && AreOpen(pending, events[..|events| - 1])
    ensures AreOpen(PendingAfter(pending, events[|events| - 1].kind), events)
  {
    var after := PendingAfter(pending, events[|events| - 1].kind);
    hide IsPending;
    forall a: Approval
      ensures a.approvalId in after && after[a.approvalId] == a <==> IsPending(events, a)
    {
      PendingAfterEvent(events, a);
    }
  }

  /** After an accepted log, the pending approvals are exactly those the log leaves open. */
  lemma {:induction false} ReplayKeepsOpenApprovals(events: seq<AgentEvent>)
    requires Replay(events).Ok?
    ensures var pending := Replay(events).value.pendingToolApprovals;
            && (forall id :: id in pending ==> pending[id].approvalId == id)
            && (forall a: Approval ::
                 a.approvalId in pending && pending[a.approvalId] == a <==> IsPending(events, a))
  {
    OpenApprovals(events);
    hide Replay, IsPending;
  }

  lemma {:induction false} OpenApprovals(events: seq<AgentEvent>)
    requires Replay(events).Ok?
    ensures AreOpen(Replay(events).value.pendingToolApprovals, events)
  {
    if events != [] {
      var before := events[..|events| - 1];
      OpenApprovals(before);
      EventOnApprovalsAndTurns(Replay(before).value, events[|events| - 1]);
      OpenAfterEvent(Replay(before).value.pendingToolApprovals, events);
      hide Reduced, AreOpen, PendingAfter;
    }
  }

  function TurnPositions(events: seq<AgentEvent>): set<nat> {
    set i: nat | i < |events| && events[i].kind.TurnCompleted?
  }

  function TurnsCompleted(events: seq<AgentEvent>): nat {
    |TurnPositions(events)|
  }

  lemma TurnPositionsOneMore(events: seq<AgentEvent>)
    requires events != []
    ensures var n := |events| - 1;
            && n !in TurnPositions(events[..n])
            && TurnPositions(events)
               == TurnPositions(events[..n]) + if events[n].kind.TurnCompleted? then {n} else {}
  {
    var n := |events| - 1;
    assert forall i :: 0 <= i < n ==> events[..n][i] == events[i];
  }

  lemma TurnsCompletedOneMore(events: seq<AgentEvent>)
    requires events != []
    ensures var n := |events| - 1;
            TurnsCompleted(events) == TurnsCompleted(events[..n]) + if events[n].kind.TurnCompleted? then 1 else 0
  {
    TurnPositionsOneMore(events);
    hide TurnPositions;
  }

  lemma {:induction false} ReplayCountsTurns(events: seq<AgentEvent>)
    requires Replay(events).Ok?
    ensures Replay(events).value.completedTurns == TurnsCompleted(events)
  {
    if events != [] {
      ReplayCountsTurns(events[..|events| - 1]);
      TurnsCompletedOneMore(events);
      EventOnApprovalsAndTurns(Replay(events[..|events| - 1]).value, events[|events| - 1]);
      hide TurnsCompleted, Reduced;
    }
  }

  /** Ids and keys are never blank, and tools and approvals are filed under their own name. */
  ghost predicate WellFiled(
      messages: seq<AgentMessage>, context: map<string, string>, tools: map<string, ToolSpec>)
  {
    && (forall i :: 0 <= i < |messages| ==> !IsBlank(messages[i].id))
    && (forall key :: key in context ==> !IsBlank(key))
    && (forall name :: name in tools ==> !IsBlank(name) && tools[name].name == name)
  }

  /** Well filed; approvals are filed under their own id; and a failed run has an error to show. */
  ghost predicate WellFormed(s: Snapshot) {
    && WellFiled(s.messages, s.context, s.availableTools)
    && (forall id :: id in s.pendingToolApprovals ==> s.pendingToolApprovals[id].approvalId == id)
    && (s.status == Failed ==> s.lastError.Some?)
  }

  lemma {:induction false} ToolMapIsKeyed(tools: seq<ToolSpec>)
    ensures forall name :: name in ToolMap(tools) ==>
              ToolMap(tools)[name].name == name && ToolMap(tools)[name] in tools
  {
    if tools != [] {
      ToolMapIsKeyed(tools[..|tools| - 1]);
    }
  }

  lemma {:induction false} KeptFrom(messages: seq<AgentMessage>, ids: set<string>)
    ensures forall i :: 0 <= i < |Kept(messages, ids)| ==> Kept(messages, ids)[i] in messages
  {
    if messages != [] {
      KeptFrom(messages[1..], ids);
      assert forall m :: m in messages[1..] ==> m in messages;
    }
  }

  lemma ToolsAreFiled(tools: seq<ToolSpec>)
    requires DistinctNames(ToolNames(tools), {}, EmptyToolName, DuplicateToolName).Ok?
    ensures forall name :: name in ToolMap(tools) ==> !IsBlank(name) && ToolMap(tools)[name].name == name
  {
    ToolMapIsKeyed(tools);
    DistinctNamesIff(ToolNames(tools), {}, EmptyToolName, DuplicateToolName);
    hide IsBlank;
    forall name | name in ToolMap(tools)
      ensures !IsBlank(name)
    {
      var i :| 0 <= i < |tools| && tools[i] == ToolMap(tools)[name];
      assert ToolNames(tools)[i] == name;
    }
  }

  lemma ReplacementIsFiled(messages: seq<AgentMessage>)
    requires DistinctNames(Ids(messages), {}, EmptyMessageId, DuplicateReplacementId).Ok?
    ensures forall i :: 0 <= i < |messages| ==> !IsBlank(messages[i].id)
  {
    DistinctNamesIff(Ids(messages), {}, EmptyMessageId, DuplicateReplacementId);
    hide IsBlank;
    assert forall i :: 0 <= i < |messages| ==> messages[i].id == Ids(messages)[i];
  }

  lemma EffectKeepsWellFormed(s: Snapshot, effect: AgentEffect)
    requires WellFormed(s) && WithEffect(s, effect).Ok?
    ensures WellFormed(WithEffect(s, effect).value)
  {
    hide IsBlank, DistinctNames, ToolMap;
    match effect
    case SetAvailableTools(tools) => ToolsAreFiled(tools);
    case CompactMessages(c) =>
      KeptFrom(s.messages, IdSet(c.retainedMessageIds));
      var kept := Kept(s.messages, IdSet(c.retainedMessageIds));
      assert forall i :: 0 <= i < |kept| ==> !IsBlank(kept[i].id);
      hide Kept, ValidateCompactionFor;
    case ReplaceMessages(r) => ReplacementIsFiled(r.replacementMessages);
    case _ =>
  }

  lemma EventKeepsFiles(s: Snapshot, event: AgentEvent)
    requires Reduced(s, event).Ok? && !event.kind.EffectCommitted?
    ensures var r := Reduced(s, event).value;
            r.messages == s.messages && r.context == s.context && r.availableTools == s.availableTools
  {
    hide WithEffect;
  }

  lemma EventExplainsFailure(s: Snapshot, event: AgentEvent)
    requires Reduced(s, event).Ok? && !event.kind.EffectCommitted? && (s.status == Failed ==> s.lastError.Some?)
    ensures Reduced(s, event).value.status == Failed ==> Reduced(s, event).value.lastError.Some?
  {
    hide WithEffect;
  }

  lemma EventKeepsWellFormed(s: Snapshot, event: AgentEvent)
    requires WellFormed(s) && Reduced(s, event).Ok?
    ensures WellFormed(Reduced(s, event).value)
  {
    hide WithEffect, WellFiled;
    if event.kind.EffectCommitted? {
      EffectKeepsWellFormed(s, event.kind.effect);
      assert Reduced(s, event) == WithEffect(s, event.kind.effect);
      hide WellFormed;
    } else {
      EventKeepsFiles(s, event);
      EventExplainsFailure(s, event);
      EventOnApprovalsAndTurns(s, event);
      hide Reduced;
    }
  }

  /** Every state an accepted log leads to is well formed. */
  lemma {:induction false} ReplayIsWellFormed(events: seq<AgentEvent>)
    requires Replay(events).Ok?
    ensures WellFormed(Replay(events).value)
  {
    if events != [] {
      ReplayIsWellFormed(events[..|events| - 1]);
      EventKeepsWellFormed(Replay(events[..|events| - 1]).value, events[|events| - 1]);
      hide WellFormed, Reduced;
    }
  }

  // ---------------------------------------------------------------------------------------------
  // Each part of the state is what the last event said about it
  // ---------------------------------------------------------------------------------------------

  /** What the last event of the log that says something says, or `initial` if none does. */
  function LastSaid<T>(events: seq<AgentEvent>, says: AgentEvent -> Option<T>, initial: T): T {
    if events == [] then initial
    else
      var last := events[|events| - 1];
      if says(last).Some? then says(last).value else LastSaid(events[..|events| - 1], says, initial)
  }

  lemma {:induction false} FollowsLast<T>(
      events: seq<AgentEvent>, view: Snapshot -> T, says: AgentEvent -> Option<T>, initial: T)
    requires Replay(events).Ok? && view(DEFAULT_STATE) == initial
    requires forall s, e :: Reduced(s, e).Ok? ==>
               view(Reduced(s, e).value) == if says(e).Some? then says(e).value else view(s)
    ensures view(Replay(events).value) == LastSaid(events, says, initial)
  {
    hide Reduced;
    if events != [] {
      FollowsLast(events[..|events| - 1], view, says, initial);
    }
  }

  function SaysStatus(e: AgentEvent): Option<RunStatus> {
    match e.kind
    case RunStarted => Some(Running)
    case RunResumed => Some(Running)
    case RunPaused(_) => Some(Paused)
    case RunCompleted => Some(Completed)
    case RunWasAborted => Some(RunAborted)
    case RunFailed(_) => Some(Failed)
    case PhaseFailed(_) => Some(Failed)
    case _ => None
  }

  function SaysRun(e: AgentEvent): Option<Option<string>> {
    if e.kind.RunStarted? then Some(Some(e.runId)) else None
  }

  /** A failure leaves its error; a run that starts or goes on clears it. */
  function SaysError(e: AgentEvent): Option<Option<string>> {
    match e.kind
    case RunFailed(error) => Some(Some(error))
    case PhaseFailed(error) => Some(Some(error))
    case RunStarted => Some(None)
    case RunResumed => Some(None)
    case _ => None
  }

  /** Whether `phase` is the active one: it is since it started or a run paused in it, until anything else is said. */
  function SaysActive(e: AgentEvent, phase: string): Option<bool> {
    match e.kind
    case PhaseStarted(p) => Some(p == phase)
    case RunPaused(p) => Some(p == phase)
    case PhaseCompleted(p) => if p == phase then Some(false) else None
    case PhaseFailed(_) => Some(false)
    case RunCompleted => Some(false)
    case RunWasAborted => Some(false)
    case RunFailed(_) => Some(false)
    case _ => None
  }

  function Committed(kind: EventKind): Option<AgentEffect> {
    match kind
    case EffectCommitted(effect) => Some(effect)
    case _ => None
  }

  function SaysValue(e: AgentEvent, key: string): Option<Option<string>> {
    match Committed(e.kind)
    case Some(PatchContext(Set(k, value))) => if k == key then Some(Some(value)) else None
    case Some(PatchContext(Remove(k))) => if k == key then Some(None) else None
    case _ => None
  }

  function SaysTools(e: AgentEvent): Option<seq<ToolSpec>> {
    match Committed(e.kind)
    case Some(SetAvailableTools(tools)) => Some(tools)
    case _ => None
  }

  function ValueAt(s: Snapshot, key: string): Option<string> {
    if key in s.context then Some(s.context[key]) else None
  }

  /** Exactly these tools are available, each under its name. */
  ghost predicate Offers(available: map<string, ToolSpec>, tools: seq<ToolSpec>) {
    && (forall tool :: tool in tools <==> tool.name in available && available[tool.name] == tool)
    && (forall name :: name in available ==> available[name].name == name)
  }

  lemma {:induction false} ToolMapOffers(tools: seq<ToolSpec>)
    requires Distinct(ToolNames(tools))
    ensures Offers(ToolMap(tools), tools)
  {
    if tools != [] {
      var before, last := tools[..|tools| - 1], tools[|tools| - 1];
      assert forall i :: 0 <= i < |before| ==> ToolNames(before)[i] == ToolNames(tools)[i];
      ToolMapOffers(before);
      assert forall tool :: tool in tools <==> tool in before || tool == last;
      forall tool | tool in before
        ensures tool.name != last.name
      {
        var i :| 0 <= i < |before| && before[i] == tool;
        assert ToolNames(tools)[i] == tool.name;
      }
    }
  }

  lemma EventOnStatus(s: Snapshot, e: AgentEvent)
    requires Reduced(s, e).Ok?
    ensures var r := Reduced(s, e).value;
            && r.status == (if SaysStatus(e).Some? then SaysStatus(e).value else s.status)
            && r.lastError == (if SaysError(e).Some? then SaysError(e).value else s.lastError)
            && r.runId == if SaysRun(e).Some? then SaysRun(e).value else s.runId
  {
    hide ValidateEffectFor, Kept, ToolMap;
  }

  lemma EventOnPhase(s: Snapshot, e: AgentEvent, phase: string)
    requires Reduced(s, e).Ok?
    ensures var r := Reduced(s, e).value;
            (r.activePhase == Some(phase)) ==
            if SaysActive(e, phase).Some? then SaysActive(e, phase).value else s.activePhase == Some(phase)
  {
    hide ValidateEffectFor, Kept, ToolMap;
  }

  lemma EventOnContext(s: Snapshot, e: AgentEvent, key: string)
    requires Reduced(s, e).Ok?
    ensures ValueAt(Reduced(s, e).value, key)
         == if SaysValue(e, key).Some? then SaysValue(e, key).value else ValueAt(s, key)
  {
    hide ValidateEffectFor, Kept, ToolMap;
  }

  /** After an accepted log, run, status and error are what the last event about them said. */
  lemma ReplayHasLastStatus(events: seq<AgentEvent>)
    requires Replay(events).Ok?
    ensures Replay(events).value.runId == LastSaid(events, SaysRun, None)
    ensures Replay(events).value.status == LastSaid(events, SaysStatus, Idle)
    ensures Replay(events).value.lastError == LastSaid(events, SaysError, None)
  {
    forall s, e | Reduced(s, e).Ok?
      ensures var r := Reduced(s, e).value;
              && r.status == (if SaysStatus(e).Some? then SaysStatus(e).value else s.status)
              && r.lastError == (if SaysError(e).Some? then SaysError(e).value else s.lastError)
              && r.runId == if SaysRun(e).Some? then SaysRun(e).value else s.runId
    {
      EventOnStatus(s, e);
    }
    hide Reduced, Replay, LastSaid, SaysStatus, SaysError, SaysRun;
    FollowsLast(events, (s: Snapshot) => s.runId, SaysRun, None);
    FollowsLast(events, (s: Snapshot) => s.status, SaysStatus, Idle);
    FollowsLast(events, (s: Snapshot) => s.lastError, SaysError, None);
  }

  /** After an accepted log, a phase is active if and only if the last event about that says so. */
  lemma ReplayHasActivePhase(events: seq<AgentEvent>, phase: string)
    requires Replay(events).Ok?
    ensures Replay(events).value.activePhase == Some(phase) <==>
              LastSaid(events, e => SaysActive(e, phase), false)
  {
    forall s, e | Reduced(s, e).Ok?
      ensures (Reduced(s, e).value.activePhase == Some(phase)) ==
              if SaysActive(e, phase).Some? then SaysActive(e, phase).value else s.activePhase == Some(phase)
    {
      EventOnPhase(s, e, phase);
    }
    hide Reduced, Replay, LastSaid, SaysActive;
    FollowsLast(events, (s: Snapshot) => s.activePhase == Some(phase), e => SaysActive(e, phase), false);
  }

  /** After an accepted log, a context key has the value that was set last, unless it was removed since. */
  lemma ReplayHasLastValue(events: seq<AgentEvent>, key: string)
    requires Replay(events).Ok?
    ensures ValueAt(Replay(events).value, key) == LastSaid(events, e => SaysValue(e, key), None)
  {
    forall s, e | Reduced(s, e).Ok?
      ensures ValueAt(Reduced(s, e).value, key)
           == if SaysValue(e, key).Some? then SaysValue(e, key).value else ValueAt(s, key)
    {
      EventOnContext(s, e, key);
    }
    hide Reduced, Replay, LastSaid, SaysValue, ValueAt;
    assert ValueAt(DEFAULT_STATE, key) == None by {
      NoValueYet(key);
    }
    FollowsLast(events, (s: Snapshot) => ValueAt(s, key), e => SaysValue(e, key), None);
  }

  lemma NoValueYet(key: string)
    ensures ValueAt(DEFAULT_STATE, key) == None
  {
  }

  /** After an accepted log, exactly the tools of the last list are available. */
  lemma {:induction false} ReplayOffersLastTools(events: seq<AgentEvent>)
    requires Replay(events).Ok?
    ensures Offers(Replay(events).value.availableTools, LastSaid(events, SaysTools, []))
  {
    if events != [] {
      var n := |events| - 1;
      ReplayOffersLastTools(events[..n]);
      EventOnTools(Replay(events[..n]).value, events[n]);
      hide Reduced, Offers, SaysTools;
    }
  }

  lemma EventOnTools(s: Snapshot, e: AgentEvent)
    requires Reduced(s, e).Ok?
    ensures if SaysTools(e).Some? then Offers(Reduced(s, e).value.availableTools, SaysTools(e).value)
            else Reduced(s, e).value.availableTools == s.availableTools
  {
    hide Kept, IsBlank, Offers, ToolMap;
    if SaysTools(e).Some? {
      EffectAcceptedIff(s.messages, e.kind.effect);
      ToolMapOffers(SaysTools(e).value);
    }
  }

  // Messages

  function AppendedBy(kind: EventKind): seq<AgentMessage> {
    match Committed(kind)
    case Some(AppendMessage(m)) => [m]
    case _ => []
  }

  predicate Rewrites(kind: EventKind) {
    Committed(kind).Some? && (Committed(kind).value.CompactMessages? || Committed(kind).value.ReplaceMessages?)
  }

  /** The messages that a log appends, in order. */
  function AllAppended(events: seq<AgentEvent>): seq<AgentMessage> {
    if events == [] then []
    else AllAppended(events[..|events| - 1]) + AppendedBy(events[|events| - 1].kind)
  }

  lemma EventOnMessages(s: Snapshot, e: AgentEvent)
    requires Reduced(s, e).Ok? && !Rewrites(e.kind)
    ensures Reduced(s, e).value.messages == s.messages + AppendedBy(e.kind)
  {
    hide ValidateEffectFor, Kept, ToolMap;
  }

  /** As long as no event rewrites them, messages are only appended, in the order of the log. */
  lemma {:induction false} MessagesAreAppended(events: seq<AgentEvent>, from: nat)
    requires from <= |events| && Replay(events).Ok?
    requires forall i :: from <= i < |events| ==> !Rewrites(events[i].kind)
    ensures Replay(events[..from]).Ok?
    ensures Replay(events).value.messages == Replay(events[..from]).value.messages + AllAppended(events[from..])
    decreases |events|
  {
    hide Reduced, Rewrites, AppendedBy;
    if from == |events| {
      assert events[..from] == events && events[from..] == [];
    } else {
      var n := |events| - 1;
      MessagesAreAppended(events[..n], from);
      EventOnMessages(Replay(events[..n]).value, events[n]);
      assert events[..n][..from] == events[..from] && events[..n][from..] == events[from..n];
      AppendedOneMore(events, from);
      hide AllAppended;
    }
  }

  lemma AppendedOneMore(events: seq<AgentEvent>, from: nat)
    requires from < |events|
    ensures var n := |events| - 1;
            AllAppended(events[from..]) == AllAppended(events[from..n]) + AppendedBy(events[n].kind)
  {
    var rest := events[from..];
    assert rest[..|rest| - 1] == events[from..|events| - 1];
    hide AppendedBy;
  }

  lemma {:induction false} KeptIn(messages: seq<AgentMessage>, ids: set<string>, m: AgentMessage)
    ensures m in Kept(messages, ids) <==> m in messages && m.id in ids
  {
    if messages != [] {
      KeptIn(messages[1..], ids, m);
      assert m in messages <==> m == messages[0] || m in messages[1..];
    }
  }

  lemma KeptFirst(first: AgentMessage, rest: seq<AgentMessage>, ids: set<string>)
    ensures Kept([first] + rest, ids) == (if first.id in ids then [first] else []) + Kept(rest, ids)
  {
    assert ([first] + rest)[1..] == rest;
  }

  lemma {:induction false} KeptOneMore(messages: seq<AgentMessage>, ids: set<string>, m: AgentMessage)
    ensures Kept(messages + [m], ids) == Kept(messages, ids) + if m.id in ids then [m] else []
    decreases |messages|
  {
    hide Kept;
    if messages == [] {
      KeptFirst(m, [], ids);
      KeptNothing(ids);
      assert messages + [m] == [m] + [];
    } else {
      var rest := messages[1..];
      KeptOneMore(rest, ids, m);
      KeptFirst(messages[0], rest, ids);
      KeptFirst(messages[0], rest + [m], ids);
      assert messages == [messages[0]] + rest && messages + [m] == [messages[0]] + (rest + [m]);
    }
  }

  lemma KeptNothing(ids: set<string>)
    ensures Kept([], ids) == []
  {
  }

  /** Exactly the messages with these ids stay, in their order. */
  lemma KeptAre(messages: seq<AgentMessage>, ids: set<string>, m: AgentMessage)
    ensures m in Kept(messages, ids) <==> m in messages && m.id in ids
    ensures Kept(messages + [m], ids) == Kept(messages, ids) + if m.id in ids then [m] else []
  {
    hide Kept;
    KeptIn(messages, ids, m);
    KeptOneMore(messages, ids, m);
  }

  lemma EventRewrites(s: Snapshot, e: AgentEvent)
    requires Rewrites(e.kind) && Reduced(s, e).Ok?
    ensures Reduced(s, e).value.messages ==
            if e.kind.effect.ReplaceMessages? then e.kind.effect.replacement.replacementMessages
            else [e.kind.effect.compaction.summaryMessage]
                 + Kept(s.messages, IdSet(e.kind.effect.compaction.retainedMessageIds))
  {
    hide ValidateEffectFor, Kept, ToolMap, IdSet;
  }

  /** A compaction leaves its summary and the retained messages, a replacement leaves its messages. */
  lemma RewrittenMessages(events: seq<AgentEvent>)
    requires events != [] && Replay(events).Ok? && Rewrites(events[|events| - 1].kind)
    ensures Replay(events[..|events| - 1]).Ok?
    ensures var before, effect := Replay(events[..|events| - 1]).value.messages, events[|events| - 1].kind.effect;
            Replay(events).value.messages ==
            if effect.ReplaceMessages? then effect.replacement.replacementMessages
            else [effect.compaction.summaryMessage] + Kept(before, IdSet(effect.compaction.retainedMessageIds))
  {
    hide Reduced, Kept, IdSet;
    EventRewrites(Replay(events[..|events| - 1]).value, events[|events| - 1]);
  }
}
