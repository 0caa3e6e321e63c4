/**
 The agent: its queues of pending messages, and the slot that lets one run at a time work on the state.

 The slot is a machine of the steps that `run_exclusive` takes one by one while other callers take
 theirs; the class `Agent` has the same steps on fields that are updated in place.
 */
module Agent {
  import opened Wrappers
  import opened Messages
  import opened Reducer

  // ---------------------------------------------------------------------------------------------
  // Queues of pending messages
  // ---------------------------------------------------------------------------------------------

  datatype QueueMode = All | OneAtATime

  datatype QueuedAgentMessage = QueuedAgentMessage(message: AgentMessage, isUserInput: bool)

  datatype Queue = Queue(mode: QueueMode, messages: seq<QueuedAgentMessage>)

  datatype QueueStep =
    | Enqueue(message: QueuedAgentMessage)
    | Prepend(messages: seq<QueuedAgentMessage>)
    | Clear
    | SetMode(mode: QueueMode)
    | Drain

  /** How many messages a drain takes. */
  function DrainSize(q: Queue): (n: nat)
    ensures n <= |q.messages|
  {
    if q.mode == All || q.messages == [] then |q.messages| else 1
  }

  function DoQueue(q: Queue, step: QueueStep): Queue {
    match step
    case Enqueue(message) => q.(messages := q.messages + [message])
    case Prepend(messages) => q.(messages := messages + q.messages)
    case Clear => q.(messages := [])
    case SetMode(mode) => q.(mode := mode)
    case Drain => q.(messages := q.messages[DrainSize(q)..])
  }

  function Drained(q: Queue, step: QueueStep): seq<QueuedAgentMessage> {
    if step == Drain then q.messages[..DrainSize(q)] else []
  }

  class PendingMessageQueue {
    var mode: QueueMode
    var messages: seq<QueuedAgentMessage>

    function Value(): Queue
      reads this
    {
      Queue(mode, messages)
    }

    constructor (mode: QueueMode)
      ensures Value() == Queue(mode, [])
    {
      this.mode, messages := mode, [];
    }

    method Enqueue(message: QueuedAgentMessage)
      modifies this`messages
      ensures Value() == DoQueue(old(Value()), QueueStep.Enqueue(message))
    {
      messages := messages + [message];
    }

    method Prepend(batch: seq<QueuedAgentMessage>)
      modifies this`messages
      ensures Value() == DoQueue(old(Value()), QueueStep.Prepend(batch))
    {
      for i := |batch| downto 0
        invariant messages == batch[i..] + old(messages)
      {
        messages := [batch[i]] + messages;
      }
    }

    method Clear()
      modifies this`messages
      ensures Value() == DoQueue(old(Value()), QueueStep.Clear)
    {
      messages := [];
    }

    method Drain() returns (batch: seq<QueuedAgentMessage>)
      modifies this`messages
      ensures batch == Drained(old(Value()), QueueStep.Drain)
      ensures Value() == DoQueue(old(Value()), QueueStep.Drain)
    {
      match mode {
        case All =>
          batch, messages := messages, [];
        case OneAtATime =>
          if messages == [] {
            return [];
          }
          batch, messages := [messages[0]], messages[1..];
      }
    }
  }

  /** The queue after the first `n` steps. */
  function QueueAfter(q: Queue, steps: seq<QueueStep>, n: nat): Queue
    requires n <= |steps|
  {
    if n == 0 then q else DoQueue(QueueAfter(q, steps, n - 1), steps[n - 1])
  }

  /** All messages that were drained, in order. */
  function AllDrained(q: Queue, steps: seq<QueueStep>, n: nat): seq<QueuedAgentMessage>
    requires n <= |steps|
  {
    if n == 0 then [] else AllDrained(q, steps, n - 1) + Drained(QueueAfter(q, steps, n - 1), steps[n - 1])
  }

  /** All messages that were put at the end of the queue, in order. */
  function AllEnqueued(steps: seq<QueueStep>, n: nat): seq<QueuedAgentMessage>
    requires n <= |steps|
  {
    if n == 0 then [] else AllEnqueued(steps, n - 1) + Enqueued(steps[n - 1])
  }

  function Enqueued(step: QueueStep): seq<QueuedAgentMessage> {
    if step.Enqueue? then [step.message] else []
  }

  lemma QueueStepConserves(q: Queue, step: QueueStep)
    requires !step.Prepend? && !step.Clear?
    ensures Drained(q, step) + DoQueue(q, step).messages == q.messages + Enqueued(step)
  {
  }

  /**
   For any mix of enqueues, mode switches and drains, the messages drained and those that remain are those
   that were there and those enqueued, in the order of their arrival.
   */
  lemma {:induction false} QueueConservesOrder(q: Queue, steps: seq<QueueStep>, n: nat)
    requires n <= |steps| && forall i :: 0 <= i < n ==> !steps[i].Prepend? && !steps[i].Clear?
    ensures AllDrained(q, steps, n) + QueueAfter(q, steps, n).messages == q.messages + AllEnqueued(steps, n)
  {
    if n > 0 {
      QueueConservesOrder(q, steps, n - 1);
      var was, step := QueueAfter(q, steps, n - 1), steps[n - 1];
      QueueStepConserves(was, step);
      hide DoQueue, Drained, Enqueued;
      Regroup(AllDrained(q, steps, n - 1), Drained(was, step), DoQueue(was, step).messages,
              was.messages, Enqueued(step), q.messages + AllEnqueued(steps, n - 1));
    }
  }

  lemma Regroup<T>(drained: seq<T>, batch: seq<T>, rest: seq<T>, was: seq<T>, added: seq<T>, all: seq<T>)
    requires batch + rest == was + added && drained + was == all
    ensures (drained + batch) + rest == all + added
  {
    assert (drained + batch) + rest == drained + (batch + rest);
    assert drained + (was + added) == (drained + was) + added;
  }

  /** A drain takes all messages, or only the first, as the last mode switch says. */
  lemma DrainTakes(q: Queue)
    ensures Drained(q, Drain) == (if q.mode == OneAtATime && q.messages != [] then [q.messages[0]] else q.messages)
    ensures Drained(q, Drain) + DoQueue(q, Drain).messages == q.messages
  {
  }

  /** The mode of the last switch among the first `n` steps. */
  function LastMode(mode: QueueMode, steps: seq<QueueStep>, n: nat): QueueMode
    requires n <= |steps|
  {
    if n == 0 then mode
    else if steps[n - 1].SetMode? then steps[n - 1].mode
    else LastMode(mode, steps, n - 1)
  }

  lemma {:induction false} ModeIsLastSet(q: Queue, steps: seq<QueueStep>, n: nat)
    requires n <= |steps|
    ensures QueueAfter(q, steps, n).mode == LastMode(q.mode, steps, n)
  {
    if n > 0 {
      ModeIsLastSet(q, steps, n - 1);
    }
  }

  /** The messages put at the end of the queue from step `i` on. */
  function AllEnqueuedFrom(steps: seq<QueueStep>, i: nat, n: nat): seq<QueuedAgentMessage>
    requires i <= n <= |steps|
    decreases n - i
  {
    if i == n then [] else AllEnqueuedFrom(steps, i, n - 1) + Enqueued(steps[n - 1])
  }

  /** What came before a clearing is gone: from then on the queue holds and gives out what was enqueued since, in order. */
  lemma {:induction false} ClearStartsAnew(q: Queue, steps: seq<QueueStep>, i: nat, n: nat)
    requires i < n <= |steps| && steps[i] == Clear
    requires forall j :: i < j < n ==> !steps[j].Prepend? && !steps[j].Clear?
    ensures AllDrained(q, steps, n) + QueueAfter(q, steps, n).messages
         == AllDrained(q, steps, i) + AllEnqueuedFrom(steps, i, n)
    decreases n
  {
    hide QueueAfter, AllDrained, DoQueue, Drained, Enqueued;
    AfterOneMore(q, steps, n);
    if n == i + 1 {
      JustCleared(q, steps, i);
    } else {
      var was, step := QueueAfter(q, steps, n - 1), steps[n - 1];
      ClearStartsAnew(q, steps, i, n - 1);
      QueueStepConserves(was, step);
      Regroup(AllDrained(q, steps, n - 1), Drained(was, step), DoQueue(was, step).messages,
              was.messages, Enqueued(step), AllDrained(q, steps, i) + AllEnqueuedFrom(steps, i, n - 1));
    }
  }

  lemma AfterOneMore(q: Queue, steps: seq<QueueStep>, n: nat)
    requires 0 < n <= |steps|
    ensures QueueAfter(q, steps, n) == DoQueue(QueueAfter(q, steps, n - 1), steps[n - 1])
    ensures AllDrained(q, steps, n) == AllDrained(q, steps, n - 1) + Drained(QueueAfter(q, steps, n - 1), steps[n - 1])
  {
    hide DoQueue, Drained;
  }

  lemma JustCleared(q: Queue, steps: seq<QueueStep>, i: nat)
    requires i < |steps| && steps[i] == Clear
    ensures AllDrained(q, steps, i + 1) == AllDrained(q, steps, i) && QueueAfter(q, steps, i + 1).messages == []
    ensures AllEnqueuedFrom(steps, i, i + 1) == []
  {
    assert AllEnqueuedFrom(steps, i, i) == [];
    assert AllDrained(q, steps, i) + [] == AllDrained(q, steps, i);
  }

  /**
   A batch that was drained and is prepended again, after any enqueues and mode switches in between, is
   back in its place: the queue holds what it would hold without the drain.
   */
  lemma PrependUndoesDrain(q: Queue, steps: seq<QueueStep>)
    requires forall i :: 0 <= i < |steps| ==> steps[i].Enqueue? || steps[i].SetMode?
    ensures DoQueue(QueueAfter(DoQueue(q, Drain), steps, |steps|), Prepend(Drained(q, Drain)))
         == QueueAfter(q, steps, |steps|)
  {
    var rest, batch, added := DoQueue(q, Drain), Drained(q, Drain), AllEnqueued(steps, |steps|);
    DrainSplits(q);
    hide QueueAfter, AllEnqueued, DrainSize, Drained;
    EnqueuesOnly(q, steps, |steps|);
    EnqueuesOnly(rest, steps, |steps|);
    ModeOnly(q, rest, steps, |steps|);
    assert batch + (rest.messages + added) == (batch + rest.messages) + added;
  }

  lemma DrainSplits(q: Queue)
    ensures Drained(q, Drain) + DoQueue(q, Drain).messages == q.messages && DoQueue(q, Drain).mode == q.mode
  {
  }

  lemma {:induction false} EnqueuesOnly(q: Queue, steps: seq<QueueStep>, n: nat)
    requires n <= |steps| && forall i :: 0 <= i < n ==> steps[i].Enqueue? || steps[i].SetMode?
    ensures QueueAfter(q, steps, n).messages == q.messages + AllEnqueued(steps, n)
  {
    if n > 0 {
      EnqueuesOnly(q, steps, n - 1);
    }
  }

  lemma {:induction false} ModeOnly(q: Queue, r: Queue, steps: seq<QueueStep>, n: nat)
    requires n <= |steps| && q.mode == r.mode
    ensures QueueAfter(q, steps, n).mode == QueueAfter(r, steps, n).mode
  {
    if n > 0 {
      ModeOnly(q, r, steps, n - 1);
    }
  }

  // ---------------------------------------------------------------------------------------------
  // The run slot, step by step
  // ---------------------------------------------------------------------------------------------

  type Caller = nat

  /**
   How far a caller is.  A caller that works keeps the state it started from and the events it emitted;
   the outcome is the state in its report, or nothing when the operation failed.
   */
  datatype Stage =
    | Outside
    | Claimed
    | Working(initial: Snapshot, emitted: seq<AgentEvent>)
    | Finished(initial: Snapshot, emitted: seq<AgentEvent>, outcome: Option<Snapshot>)
    | Saved(initial: Snapshot, emitted: seq<AgentEvent>, outcome: Option<Snapshot>)

  datatype World = World(active: bool, state: Snapshot, stages: map<Caller, Stage>)

  /**
   The steps of the callers; a step that its caller is not ready for does nothing.  `Reset` and `Stray`
   change the state without the slot: a reset, and an event of the abort of a paused run.
   */
  datatype Step =
    | Claim(caller: Caller)
    | Look(caller: Caller)
    | Emit(caller: Caller, event: AgentEvent)
    | Finish(caller: Caller, outcome: Option<Snapshot>)
    | Save(caller: Caller)
    | Release(caller: Caller)
    | Reset
    | Stray(event: AgentEvent)
  {
    predicate NeedsNoSlot() {
      Reset? || Stray?
    }
  }

  function StageOf(w: World, caller: Caller): Stage {
    if caller in w.stages then w.stages[caller] else Outside
  }

  function At(w: World, caller: Caller, stage: Stage): World {
    w.(stages := w.stages[caller := stage])
  }

  /** The state after an event; a rejected event leaves it as it was. */
  function Sunk(s: Snapshot, event: AgentEvent): Snapshot {
    Reduced(s, event).GetOr(s)
  }

  function Do(w: World, step: Step): World {
    match step
    case Claim(c) => if StageOf(w, c).Outside? && !w.active then At(w, c, Claimed).(active := true) else w
    case Look(c) => if StageOf(w, c).Claimed? then At(w, c, Working(w.state, [])) else w
    case Emit(c, event) =>
      (match StageOf(w, c)
       case Working(initial, emitted) =>
         At(w, c, Working(initial, emitted + [event])).(state := Sunk(w.state, event))
       case _ => w)
    case Finish(c, outcome) =>
      (match StageOf(w, c)
       case Working(initial, emitted) => At(w, c, Finished(initial, emitted, outcome))
       case _ => w)
    case Save(c) =>
      (match StageOf(w, c)
       case Finished(initial, emitted, outcome) =>
         At(w, c, Saved(initial, emitted, outcome)).(state := outcome.GetOr(w.state))
       case _ => w)
    case Release(c) => if StageOf(w, c).Saved? then At(w, c, Outside).(active := false) else w
    case Reset => w.(state := DEFAULT_STATE)
    case Stray(event) => w.(state := Sunk(w.state, event))
  }

  function After(w: World, steps: seq<Step>, n: nat): World
    requires n <= |steps|
  {
    if n == 0 then w else Do(After(w, steps, n - 1), steps[n - 1])
  }

  predicate Holds(w: World, caller: Caller) {
    !StageOf(w, caller).Outside?
  }

  /** The flag is set exactly while a caller holds the slot, and at most one does. */
  ghost predicate AtMostOneHolder(w: World) {
    && (w.active <==> exists c :: Holds(w, c))
    && forall c, d :: Holds(w, c) && Holds(w, d) ==> c == d
  }

  /** An unused agent. */
  ghost predicate Unused(w: World) {
    !w.active && forall c :: !Holds(w, c)
  }

  lemma StepKeepsOneHolder(w: World, step: Step)
    requires AtMostOneHolder(w)
    ensures AtMostOneHolder(Do(w, step))
  {
    var after := Do(w, step);
    if step.NeedsNoSlot() {
      assert after.active == w.active && forall c :: Holds(after, c) <==> Holds(w, c);
    } else {
      StepOnStages(w, step);
      hide StageOf, Do;
      if step.Claim? && !w.active && !Holds(w, step.caller) {
        forall c | Holds(after, c)
          ensures c == step.caller
        {
          assert !Holds(w, c);
        }
        assert Holds(after, step.caller);
      } else if step.Release? && StageOf(w, step.caller).Saved? {
        assert Holds(w, step.caller);
        forall c
          ensures !Holds(after, c)
        {
          assert c != step.caller ==> !Holds(w, c);
        }
      } else {
        assert forall c :: Holds(after, c) <==> Holds(w, c);
      }
    }
  }

  lemma StepOnStages(w: World, step: Step)
    requires !step.NeedsNoSlot()
    ensures forall c :: c != step.caller ==> StageOf(Do(w, step), c) == StageOf(w, c)
    ensures Holds(Do(w, step), step.caller) <==>
              if step.Claim? then Holds(w, step.caller) || !w.active
              else Holds(w, step.caller) && !(step.Release? && StageOf(w, step.caller).Saved?)
    ensures Do(w, step).active <==>
              if step.Claim? then w.active || !Holds(w, step.caller)
              else w.active && !(step.Release? && StageOf(w, step.caller).Saved?)
  {
  }

  /** In every interleaving, resets and aborts included, at most one caller holds the slot. */
  lemma {:induction false} MutualExclusion(w: World, steps: seq<Step>, n: nat)
    requires Unused(w) && n <= |steps|
    ensures AtMostOneHolder(After(w, steps, n))
  {
    if n > 0 {
      MutualExclusion(w, steps, n - 1);
      StepKeepsOneHolder(After(w, steps, n - 1), steps[n - 1]);
      hide AtMostOneHolder, Do;
    }
  }

  /** A caller outside is refused exactly while another holds the slot, and then nothing changes at all. */
  lemma RefusedIffHeld(w: World, caller: Caller)
    requires AtMostOneHolder(w) && !Holds(w, caller)
    ensures Do(w, Claim(caller)) == w <==> exists other :: other != caller && Holds(w, other)
    ensures Do(w, Claim(caller)) != w ==> StageOf(Do(w, Claim(caller)), caller) == Claimed
  {
  }

  /** While a caller holds the slot, no step of another caller changes anything. */
  lemma OthersChangeNothing(w: World, holder: Caller, step: Step)
    requires AtMostOneHolder(w) && Holds(w, holder)
    requires !step.NeedsNoSlot() && step.caller != holder
    ensures Do(w, step) == w
  {
    assert !Holds(w, step.caller);
  }

  /** The steps among the first `n` that are the caller's own or need no slot. */
  function OwnSteps(steps: seq<Step>, n: nat, caller: Caller): (own: seq<Step>)
    requires n <= |steps|
  {
    if n == 0 then []
    else
      var before, last := OwnSteps(steps, n - 1, caller), steps[n - 1];
      if last.NeedsNoSlot() || last.caller == caller then before + [last] else before
  }

  /**
   In every interleaving, resets and aborts included: as long as a caller holds the slot, everything is as
   if no other caller were there.
   */
  lemma {:induction false} HolderIsAlone(w: World, holder: Caller, steps: seq<Step>, n: nat)
    requires AtMostOneHolder(w) && n <= |steps|
    requires forall i :: 0 <= i < n ==> Holds(After(w, steps, i), holder)
    ensures AtMostOneHolder(After(w, steps, n))
    ensures var own := OwnSteps(steps, n, holder);
            After(w, steps, n) == After(w, own, |own|)
  {
    if n > 0 {
      var before, last := After(w, steps, n - 1), steps[n - 1];
      var own := OwnSteps(steps, n - 1, holder);
      HolderIsAlone(w, holder, steps, n - 1);
      StepKeepsOneHolder(before, last);
      hide AtMostOneHolder, Do, Holds;
      if last.NeedsNoSlot() || last.caller == holder {
        AfterPrefix(w, own, [last], |own|);
      } else {
        OthersChangeNothing(before, holder, last);
      }
    }
  }

  lemma {:induction false} AfterPrefix(w: World, steps: seq<Step>, more: seq<Step>, n: nat)
    requires n <= |steps|
    ensures After(w, steps + more, n) == After(w, steps, n)
  {
    hide Do;
    if n > 0 {
      AfterPrefix(w, steps, more, n - 1);
    }
  }

  // ---------------------------------------------------------------------------------------------
  // Interleaved runs are as good as one after another
  // ---------------------------------------------------------------------------------------------

  function Applied(s: Snapshot, events: seq<AgentEvent>): Snapshot {
    if events == [] then s else Sunk(Applied(s, events[..|events| - 1]), events[|events| - 1])
  }

  /** What a run makes of the state when nothing comes between. */
  function Outcome(s: Snapshot, emitted: seq<AgentEvent>, outcome: Option<Snapshot>): Snapshot {
    outcome.GetOr(Applied(s, emitted))
  }

  /** The runs released among the first `n` steps, and the resets and aborts, one after another. */
  function Serial(w: World, steps: seq<Step>, n: nat): Snapshot
    requires n <= |steps|
  {
    if n == 0 then w.state else Released(Serial(w, steps, n - 1), After(w, steps, n - 1), steps[n - 1])
  }

  function Released(serial: Snapshot, w: World, step: Step): Snapshot {
    match step
    case Release(c) =>
      (match StageOf(w, c)
       case Saved(_, emitted, outcome) => Outcome(serial, emitted, outcome)
       case _ => serial)
    case Reset => DEFAULT_STATE
    case Stray(event) => Reduced(serial, event).GetOr(serial)
    case _ => serial
  }

  /** What the holder at this stage has made of the state so far. */
  ghost predicate StageFits(stage: Stage, state: Snapshot, serial: Snapshot) {
    match stage
    case Outside => true
    case Claimed => state == serial
    case Working(initial, emitted) => initial == serial && state == Applied(serial, emitted)
    case Finished(initial, emitted, _) => initial == serial && state == Applied(serial, emitted)
    case Saved(initial, emitted, outcome) => initial == serial && state == Outcome(serial, emitted, outcome)
  }

  ghost predicate Fits(w: World, serial: Snapshot) {
    && AtMostOneHolder(w)
    && (!w.active ==> w.state == serial)
    && forall c :: StageFits(StageOf(w, c), w.state, serial)
  }

  /** The step of a holder, seen from its stage. */
  lemma HolderStepFits(w: World, step: Step, serial: Snapshot)
    requires !step.NeedsNoSlot() && !step.Claim?
    requires StageFits(StageOf(w, step.caller), w.state, serial)
    ensures StageFits(StageOf(Do(w, step), step.caller), Do(w, step).state, Released(serial, w, step))
    ensures step.Release? && StageOf(w, step.caller).Saved? ==> Do(w, step).state == Released(serial, w, step)
    ensures !Holds(w, step.caller) ==> Do(w, step) == w && Released(serial, w, step) == serial
  {
    hide Sunk, Outcome;
    if step.Emit? && StageOf(w, step.caller).Working? {
      var emitted := StageOf(w, step.caller).emitted;
      assert (emitted + [step.event])[..|emitted|] == emitted;
    }
    if step.Save? && StageOf(w, step.caller).Finished? {
      OutcomeIsSaved(serial, StageOf(w, step.caller).emitted, StageOf(w, step.caller).outcome);
    }
  }

  lemma OutcomeIsSaved(s: Snapshot, emitted: seq<AgentEvent>, outcome: Option<Snapshot>)
    ensures Outcome(s, emitted, outcome) == outcome.GetOr(Applied(s, emitted))
  {
  }

  /** A reset or an abort while the slot is free. */
  lemma FreeStepFits(w: World, step: Step, serial: Snapshot)
    requires Fits(w, serial) && step.NeedsNoSlot() && !w.active
    ensures Fits(Do(w, step), Released(serial, w, step))
  {
    StepKeepsOneHolder(w, step);
    hide Reduced;
    var after := Do(w, step);
    assert after.stages == w.stages && after.active == w.active && after.state == Released(serial, w, step);
    forall c
      ensures StageOf(after, c) == Outside
    {
      assert !Holds(w, c) && StageOf(after, c) == StageOf(w, c);
    }
  }

  lemma StepFits(w: World, step: Step, serial: Snapshot)
    requires Fits(w, serial) && !step.NeedsNoSlot()
    ensures Fits(Do(w, step), Released(serial, w, step))
  {
    StepKeepsOneHolder(w, step);
    StepOnStages(w, step);
    var after := Do(w, step);
    if step.Claim? {
      assert after.state == w.state;
    } else {
      HolderStepFits(w, step, serial);
    }
    hide Do, Released, StageFits, At;
    if Holds(w, step.caller) {
      forall c | c != step.caller
        ensures StageOf(after, c) == Outside
      {
        assert !Holds(w, c);
      }
    }
  }

  /**
   In every interleaving of callers, with resets and aborts while the slot is free, the state is what the released
   runs, resets and aborts make of it one after another, and a run in progress sees what was there when it claimed
   the slot and its own events, nothing else.
   */
  lemma {:induction false} RunsAreSerial(w: World, steps: seq<Step>, n: nat)
    requires Unused(w) && n <= |steps|
    requires forall i :: 0 <= i < n && steps[i].NeedsNoSlot() ==> !After(w, steps, i).active
    ensures Fits(After(w, steps, n), Serial(w, steps, n))
  {
    hide *;
    if n == 0 {
      FitsAtFirst(w, steps);
    } else {
      var before, step := After(w, steps, n - 1), steps[n - 1];
      SerialOneMore(w, steps, n);
      RunsAreSerial(w, steps, n - 1);
      if step.NeedsNoSlot() {
        FreeStepFits(before, step, Serial(w, steps, n - 1));
      } else {
        StepFits(before, step, Serial(w, steps, n - 1));
      }
    }
  }

  lemma SerialOneMore(w: World, steps: seq<Step>, n: nat)
    requires 0 < n <= |steps|
    ensures After(w, steps, n) == Do(After(w, steps, n - 1), steps[n - 1])
    ensures Serial(w, steps, n) == Released(Serial(w, steps, n - 1), After(w, steps, n - 1), steps[n - 1])
  {
    hide Do, Released;
  }

  lemma FitsAtFirst(w: World, steps: seq<Step>)
    requires Unused(w)
    ensures Fits(After(w, steps, 0), Serial(w, steps, 0))
  {
    forall c
      ensures StageOf(w, c) == Outside
    {
      assert !Holds(w, c);
    }
  }

  // ---------------------------------------------------------------------------------------------
  // A run without interruption
  // ---------------------------------------------------------------------------------------------

  function Emits(caller: Caller, events: seq<AgentEvent>): seq<Step> {
    if events == [] then [] else Emits(caller, events[..|events| - 1]) + [Emit(caller, events[|events| - 1])]
  }

  lemma {:induction false} AfterAll(w: World, steps: seq<Step>, more: seq<Step>, n: nat)
    requires n <= |more|
    ensures After(w, steps + more, |steps| + n) == After(After(w, steps, |steps|), more, n)
  {
    if n == 0 {
      AfterPrefix(w, steps, more, |steps|);
    } else {
      AfterAll(w, steps, more, n - 1);
    }
  }

  lemma EmitApplies(w: World, caller: Caller, initial: Snapshot, emitted: seq<AgentEvent>, event: AgentEvent)
    requires StageOf(w, caller) == Working(initial, emitted) && w.state == Applied(initial, emitted)
    ensures var after := Do(w, Emit(caller, event));
            && StageOf(after, caller) == Working(initial, emitted + [event])
            && after.state == Applied(initial, emitted + [event]) && after.active == w.active
  {
    hide Sunk;
    assert (emitted + [event])[..|emitted|] == emitted;
  }

  lemma OneStepAfter(w: World, steps: seq<Step>, last: Step)
    ensures After(w, steps + [last], |steps + [last]|) == Do(After(w, steps, |steps|), last)
  {
    hide Do;
    AfterPrefix(w, steps, [last], |steps|);
  }

  lemma {:induction false} EmitsApply(w: World, caller: Caller, events: seq<AgentEvent>)
    requires StageOf(w, caller) == Working(w.state, [])
    ensures var end := After(w, Emits(caller, events), |Emits(caller, events)|);
            && StageOf(end, caller) == Working(w.state, events)
            && end.state == Applied(w.state, events) && end.active == w.active
  {
    if events != [] {
      var before, last := events[..|events| - 1], events[|events| - 1];
      var steps := Emits(caller, before);
      var emitted := After(w, steps, |steps|);
      assert Emits(caller, events) == steps + [Emit(caller, last)] && before + [last] == events;
      hide Do, Applied, StageOf, Emits;
      EmitsApply(w, caller, before);
      OneStepAfter(w, steps, Emit(caller, last));
      EmitApplies(emitted, caller, w.state, before, last);
      hide After;
    }
  }

  /** A caller that finds the slot free and is not interrupted has its outcome and leaves the slot free. */
  lemma UninterruptedRun(w: World, caller: Caller, events: seq<AgentEvent>, outcome: Option<Snapshot>)
    requires Unused(w)
    ensures var steps := [Claim(caller), Look(caller)] + Emits(caller, events)
                       + [Finish(caller, outcome), Save(caller), Release(caller)];
            var end := After(w, steps, |steps|);
            !end.active && end.state == Outcome(w.state, events, outcome) && !Holds(end, caller)
  {
    var start, emits := [Claim(caller), Look(caller)], Emits(caller, events);
    var finish := [Finish(caller, outcome), Save(caller), Release(caller)];
    StartedRun(w, caller);
    var working := After(w, start, 2);
    EmitsApply(working, caller, events);
    AfterAll(w, start, emits, |emits|);
    AfterAll(w, start + emits, finish, 3);
    FinishedRun(After(working, emits, |emits|), caller, w.state, events, outcome);
    hide Applied, Emits, After, Outcome;
  }

  lemma StartedRun(w: World, caller: Caller)
    requires Unused(w)
    ensures var working := After(w, [Claim(caller), Look(caller)], 2);
            StageOf(working, caller) == Working(w.state, []) && working.state == w.state
  {
    var steps := [Claim(caller), Look(caller)];
    assert !Holds(w, caller);
    var claimed := Do(w, Claim(caller));
    assert After(w, steps, 1) == claimed by {
      assert After(w, steps, 0) == w;
    }
    assert StageOf(claimed, caller) == Claimed;
    assert After(w, steps, 2) == Do(claimed, Look(caller));
  }

  lemma FinishedRun(w: World, caller: Caller, initial: Snapshot, emitted: seq<AgentEvent>, outcome: Option<Snapshot>)
    requires StageOf(w, caller) == Working(initial, emitted) && w.state == Applied(initial, emitted)
    ensures var end := After(w, [Finish(caller, outcome), Save(caller), Release(caller)], 3);
            !end.active && end.state == Outcome(initial, emitted, outcome) && !Holds(end, caller)
  {
    hide Applied;
    var steps := [Finish(caller, outcome), Save(caller), Release(caller)];
    var finished := Do(w, Finish(caller, outcome));
    var saved := Do(finished, Save(caller));
    assert StageOf(finished, caller) == Finished(initial, emitted, outcome);
    assert StageOf(saved, caller) == Saved(initial, emitted, outcome);
    assert After(w, steps, 0) == w;
    assert After(w, steps, 1) == finished;
    assert After(w, steps, 2) == saved;
    assert After(w, steps, 3) == Do(saved, Release(caller));
  }

  // ---------------------------------------------------------------------------------------------
  // The agent that is updated in place
  // ---------------------------------------------------------------------------------------------

  class Agent {
    var activeRun: bool
    const state: AgentState

    constructor ()
      ensures !activeRun && fresh(state) && state.Value() == DEFAULT_STATE
    {
      activeRun := false;
      state := new AgentState();
    }

    method SaveReport(report: Snapshot)
      modifies state
      ensures state.Value() == report
    {
      state.runId, state.status, state.messages := report.runId, report.status, report.messages;
      state.context, state.availableTools := report.context, report.availableTools;
      state.pendingToolApprovals, state.activePhase := report.pendingToolApprovals, report.activePhase;
      state.completedTurns, state.lastError := report.completedTurns, report.lastError;
    }

    /**
     A run without interruption, given the events its operation emits and the state it reports, if it
     succeeds.  It is refused, with nothing changed, exactly when another run is active.
     */
    method RunExclusive(events: seq<AgentEvent>, outcome: Option<Snapshot>) returns (claimed: bool, succeeded: bool)
      modifies this, state
      ensures claimed == !old(activeRun) && succeeded == (claimed && outcome.Some?)
      ensures !claimed ==> activeRun && state.Value() == old(state.Value())
      ensures claimed ==> !activeRun && state.Value() == Outcome(old(state.Value()), events, outcome)
    {
      if activeRun {
        return false, false;
      }
      activeRun := true;
      for i := 0 to |events|
        invariant state.Value() == Applied(old(state.Value()), events[..i])
      {
        var sunk := state.ApplyEvent(events[i]);
        assert events[..i + 1][..i] == events[..i];
      }
      assert events[..|events|] == events;
      if outcome.Some? {
        SaveReport(outcome.value);
      }
      activeRun := false;
      return true, outcome.Some?;
    }
  }
}
