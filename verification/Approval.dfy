/**
 Approvals waiting for an answer: each has an Allow and a Deny button whose data names a short key, and
 can be answered by a button or by its id.
 */
module Approval {
  import opened Wrappers
  import opened Text
  import opened Callback

  const ALLOW_PREFIX := "ap:a:"
  const DENY_PREFIX := "ap:d:"

  /** The most bytes that the data of a button may have. */
  const MAX_CALLBACK_DATA: nat := 64

  datatype Outcome = Allow | Deny

  datatype MessageHandle = MessageHandle(chatId: int, messageId: int)

  datatype Target = Target(sessionId: string, approvalId: string, message: MessageHandle)

  datatype Selection = Selection(outcome: Outcome, target: Target)

  // ---------------------------------------------------------------------------------------------
  // The data of a button
  // ---------------------------------------------------------------------------------------------

  function CallbackData(outcome: Outcome, key: string): string {
    (if outcome == Allow then ALLOW_PREFIX else DENY_PREFIX) + key
  }

  function StripPrefix(s: string, prefix: string): Option<string> {
    if prefix <= s then Some(s[|prefix|..]) else None
  }

  function CallbackOutcome(data: string): Option<(Outcome, string)> {
    match StripPrefix(data, ALLOW_PREFIX)
    case Some(key) => Some((Allow, key))
    case None =>
      match StripPrefix(data, DENY_PREFIX)
      case Some(key) => Some((Deny, key))
      case None => None
  }

  /** The data of a button is read back to its outcome and its key, and no other data is. */
  lemma CallbackDataRoundTrip(data: string, outcome: Outcome, key: string)
    ensures CallbackOutcome(data) == Some((outcome, key)) <==> data == CallbackData(outcome, key)
    ensures CallbackData(outcome, key) == (if outcome == Allow then "ap:a:" else "ap:d:") + key
  {
    var prefix := if outcome == Allow then ALLOW_PREFIX else DENY_PREFIX;
    if prefix <= data {
      assert data == prefix + data[|prefix|..];
    }
    assert CallbackData(outcome, key)[5..] == key;
    assert ALLOW_PREFIX[3] != DENY_PREFIX[3];
  }

  /** The data of a button with a reserved key fits: every character is a single byte. */
  lemma CallbackDataFits(id: nat, outcome: Outcome)
    requires id < U64
    ensures |CallbackData(outcome, Numeral(id, 36))| <= 18 <= MAX_CALLBACK_DATA
    ensures forall c :: c in CallbackData(outcome, Numeral(id, 36)) ==> (c as int) < 0x80
  {
    KeysAreShortAndDistinct(id, id);
    NumeralIsAscii(id);
  }

  lemma {:induction false} NumeralIsAscii(n: nat)
    ensures forall c :: c in Numeral(n, 36) ==> (c as int) < 0x80
    decreases n
  {
    if n >= 36 {
      NumeralIsAscii(Quotient(n, 36));
    }
  }

  // ---------------------------------------------------------------------------------------------
  // Steps on the value of the store
  // ---------------------------------------------------------------------------------------------

  function HasId(approvalId: string): Target -> bool {
    (target: Target) => target.approvalId == approvalId
  }

  function Selected(outcome: Outcome, target: Option<Target>): Option<Selection> {
    match target
    case None => None
    case Some(t) => Some(Selection(outcome, t))
  }

  datatype Action =
    | AllocateButtons(now: nat)
    | InsertTarget(now: nat, key: string, target: Target)
    | Resolve(now: nat, data: string)
    | LookupCallback(now: nat, data: string)
    | LookupApprovalId(now: nat, approvalId: string, outcome: Outcome)
    | ResolveApprovalId(now: nat, approvalId: string, outcome: Outcome)

  datatype Answer = Answer(store: Store<Target>, selection: Option<Selection>)

  function Act(s: Store<Target>, action: Action): Answer {
    match action
    case AllocateButtons(now) => Answer(Callback.Reserve(s, now).0, None)
    case InsertTarget(now, key, target) => Answer(InsertAt(s, key, target, now, now), None)
    case Resolve(now, data) =>
      (match CallbackOutcome(data)
       case None => Answer(s, None)
       case Some((outcome, key)) => Answer(Without(s, key, now), Selected(outcome, Get(s, key, now))))
    case LookupCallback(now, data) =>
      (match CallbackOutcome(data)
       case None => Answer(s, None)
       case Some((outcome, key)) => Answer(Sweep(s, now), Selected(outcome, Get(s, key, now))))
    case LookupApprovalId(now, approvalId, outcome) =>
      (match FirstMatch(s, HasId(approvalId), now)
       case None => Answer(Sweep(s, now), None)
       case Some(key) => Answer(Sweep(s, now), Selected(outcome, Get(s, key, now))))
    case ResolveApprovalId(now, approvalId, outcome) =>
      (match FirstMatch(s, HasId(approvalId), now)
       case None => Answer(Sweep(s, now), None)
       case Some(key) => Answer(Without(s, key, now), Selected(outcome, Get(s, key, now))))
  }

  // ---------------------------------------------------------------------------------------------
  // The store that is updated in place
  // ---------------------------------------------------------------------------------------------

  class TelegramApprovalStore {
    const approvals: ShortCallbackStore<Target>

    constructor (ttl: nat, maxEntries: nat)
      ensures fresh(approvals) && approvals.Value() == Store(0, map[], ttl, maxEntries)
    {
      approvals := new ShortCallbackStore.WithLimits(ttl, maxEntries);
    }

    method Allocate(now: nat) returns (key: string)
      requires approvals.nextId + 1 < U64
      modifies approvals
      ensures approvals.Value() == Act(old(approvals.Value()), AllocateButtons(now)).store
      ensures key == Numeral(old(approvals.nextId) + 1, 36)
    {
      key := approvals.ReserveKey(now);
    }

    method Insert(key: string, target: Target, now: nat)
      modifies approvals
      ensures approvals.Value() == Act(old(approvals.Value()), InsertTarget(now, key, target)).store
    {
      approvals.InsertReserved(key, target, now, now);
    }

    method ResolveCallback(data: string, now: nat) returns (selection: Option<Selection>)
      modifies approvals
      ensures Answer(approvals.Value(), selection) == Act(old(approvals.Value()), Resolve(now, data))
    {
      match CallbackOutcome(data) {
        case None => return None;
        case Some((outcome, key)) =>
          var target := approvals.Remove(key, now);
          return Selected(outcome, target);
      }
    }

    method Lookup(data: string, now: nat) returns (selection: Option<Selection>)
      modifies approvals
      ensures Answer(approvals.Value(), selection) == Act(old(approvals.Value()), LookupCallback(now, data))
    {
      match CallbackOutcome(data) {
        case None => return None;
        case Some((outcome, key)) =>
          var target := approvals.Lookup(key, now);
          return Selected(outcome, target);
      }
    }

    method LookupId(approvalId: string, outcome: Outcome, now: nat) returns (selection: Option<Selection>)
      modifies approvals
      ensures Answer(approvals.Value(), selection)
           == Act(old(approvals.Value()), LookupApprovalId(now, approvalId, outcome))
    {
      var target := approvals.Find(HasId(approvalId), now);
      return Selected(outcome, target);
    }

    method ResolveId(approvalId: string, outcome: Outcome, now: nat) returns (selection: Option<Selection>)
      modifies approvals
      ensures Answer(approvals.Value(), selection)
           == Act(old(approvals.Value()), ResolveApprovalId(now, approvalId, outcome))
    {
      var target := approvals.RemoveWhere(HasId(approvalId), now);
      return Selected(outcome, target);
    }
  }

  // ---------------------------------------------------------------------------------------------
  // Lookups consume nothing
  // ---------------------------------------------------------------------------------------------

  lemma SweptLater<T>(entries: Entries<T>, now: nat, later: nat, ttl: nat)
    requires now <= later
    ensures Swept(Swept(entries, now, ttl), later, ttl) == Swept(entries, later, ttl)
  {
  }

  /** The same store as far as anything at this time or later can tell. */
  predicate SameFrom(s: Store<Target>, t: Store<Target>, now: nat) {
    s.nextId == t.nextId && s.ttl == t.ttl && s.maxEntries == t.maxEntries
    && Swept(s.entries, now, s.ttl) == Swept(t.entries, now, t.ttl)
  }

  lemma SameFromLater(s: Store<Target>, t: Store<Target>, now: nat, later: nat)
    requires SameFrom(s, t, now) && now <= later
    ensures SameFrom(s, t, later)
  {
    SweptLater(s.entries, now, later, s.ttl);
    SweptLater(t.entries, now, later, t.ttl);
  }

  /** A lookup cannot be noticed afterwards. */
  lemma LookupIsInvisible(s: Store<Target>, lookup: Action)
    requires lookup.LookupCallback? || lookup.LookupApprovalId?
    ensures SameFrom(Act(s, lookup).store, s, lookup.now)
  {
    SweptLater(s.entries, lookup.now, lookup.now, s.ttl);
  }

  /** The same action on stores that are the same from then on has the same answer. */
  lemma SameAnswer(s: Store<Target>, t: Store<Target>, action: Action)
    requires SameFrom(s, t, action.now)
    ensures Act(s, action).selection == Act(t, action).selection
    ensures SameFrom(Act(s, action).store, Act(t, action).store, action.now)
  {
    hide Swept, CallbackOutcome, Evicted;
    assert forall p: Target -> bool :: FirstMatch(s, p, action.now) == FirstMatch(t, p, action.now);
  }

  function ActAll(s: Store<Target>, actions: seq<Action>): Store<Target> {
    if actions == [] then s else Act(ActAll(s, actions[..|actions| - 1]), actions[|actions| - 1]).store
  }

  /** What each of the actions answered. */
  function Answers(s: Store<Target>, actions: seq<Action>): (answers: seq<Option<Selection>>)
    ensures |answers| == |actions|
  {
    if actions == [] then []
    else
      var before := actions[..|actions| - 1];
      Answers(s, before) + [Act(ActAll(s, before), actions[|actions| - 1]).selection]
  }

  /** Times never go back, from `now` on. */
  ghost predicate Monotone(now: nat, actions: seq<Action>) {
    && (forall i :: 0 <= i < |actions| ==> now <= actions[i].now)
    && (forall i, j :: 0 <= i < j < |actions| ==> actions[i].now <= actions[j].now)
  }

  lemma {:induction false} SameAnswers(s: Store<Target>, t: Store<Target>, now: nat, actions: seq<Action>)
    requires SameFrom(s, t, now) && Monotone(now, actions)
    ensures Answers(s, actions) == Answers(t, actions)
    ensures SameFrom(ActAll(s, actions), ActAll(t, actions), if actions == [] then now else actions[|actions| - 1].now)
  {
    if actions != [] {
      var before, last := actions[..|actions| - 1], actions[|actions| - 1];
      SameAnswers(s, t, now, before);
      SameFromLater(ActAll(s, before), ActAll(t, before), if before == [] then now else before[|before| - 1].now, last.now);
      SameAnswer(ActAll(s, before), ActAll(t, before), last);
    }
  }

  /** Lookups never consume: without a lookup, everything after it is answered the same. */
  lemma LookupsNeverConsume(s: Store<Target>, lookup: Action, after: seq<Action>)
    requires (lookup.LookupCallback? || lookup.LookupApprovalId?) && Monotone(lookup.now, after)
    ensures Answers(Act(s, lookup).store, after) == Answers(s, after)
  {
    LookupIsInvisible(s, lookup);
    SameAnswers(Act(s, lookup).store, s, lookup.now, after);
  }

  // ---------------------------------------------------------------------------------------------
  // An approval is resolved at most once
  // ---------------------------------------------------------------------------------------------

  /** The keys under which an approval is held. */
  function HeldKeys(s: Store<Target>, approvalId: string): set<string> {
    set key | key in s.entries && s.entries[key].value.approvalId == approvalId
  }

  /** The resolution hands out a target of the approval. */
  predicate Succeeds(s: Store<Target>, action: Action, approvalId: string) {
    var selection := Act(s, action).selection;
    (action.Resolve? || action.ResolveApprovalId?) && selection.Some? && selection.value.target.approvalId == approvalId
  }

  predicate Inserts(action: Action, approvalId: string) {
    action.InsertTarget? && action.target.approvalId == approvalId
  }

  /** The resolutions of the approval that succeeded. */
  function Successes(s: Store<Target>, actions: seq<Action>, approvalId: string): set<nat> {
    set i: nat | i < |actions| && Succeeds(ActAll(s, actions[..i]), actions[i], approvalId)
  }

  /** The insertions of a target of the approval. */
  function Insertions(actions: seq<Action>, approvalId: string): set<nat> {
    set i: nat | i < |actions| && Inserts(actions[i], approvalId)
  }

  lemma OneMoreInsertion(actions: seq<Action>, approvalId: string)
    requires actions != []
    ensures var n := |actions| - 1;
            |Insertions(actions, approvalId)|
              == |Insertions(actions[..n], approvalId)| + if Inserts(actions[n], approvalId) then 1 else 0
  {
    hide Inserts;
    var n := |actions| - 1;
    var before := Insertions(actions[..n], approvalId);
    assert Insertions(actions, approvalId) == before + if Inserts(actions[n], approvalId) then {n} else {};
    assert n !in before;
    hide Insertions;
  }

  lemma OneMoreSuccess(s: Store<Target>, actions: seq<Action>, approvalId: string)
    requires actions != []
    ensures var n := |actions| - 1;
            |Successes(s, actions, approvalId)|
              == |Successes(s, actions[..n], approvalId)|
                 + if Succeeds(ActAll(s, actions[..n]), actions[n], approvalId) then 1 else 0
  {
    hide ActAll, Succeeds;
    var n := |actions| - 1;
    var before := Successes(s, actions[..n], approvalId);
    assert forall i :: 0 <= i < n ==> actions[..n][..i] == actions[..i];
    assert Successes(s, actions, approvalId)
        == before + if Succeeds(ActAll(s, actions[..n]), actions[n], approvalId) then {n} else {};
    assert n !in before;
    hide Successes;
  }

  /** An action takes a held key away when it succeeds, and adds at most the inserted one. */
  lemma ActOnHeldKeys(s: Store<Target>, action: Action, approvalId: string)
    ensures !Inserts(action, approvalId) ==> HeldKeys(Act(s, action).store, approvalId) <= HeldKeys(s, approvalId)
    ensures Inserts(action, approvalId) ==>
              HeldKeys(Act(s, action).store, approvalId) <= HeldKeys(s, approvalId) + {action.key}
    ensures Succeeds(s, action, approvalId) ==>
              exists key :: key in HeldKeys(s, approvalId) && key !in HeldKeys(Act(s, action).store, approvalId)
  {
    hide CallbackOutcome;
    match action {
      case InsertTarget(now, key, target) =>
        EvictedIsPart(Swept(s.entries, now, s.ttl)[key := Entry(target, now)], s.maxEntries);
        hide Evicted;
      case Resolve(now, data) =>
        if Succeeds(s, action, approvalId) {
          var key := CallbackOutcome(data).value.1;
          assert key in HeldKeys(s, approvalId) && key !in HeldKeys(Act(s, action).store, approvalId);
        }
      case ResolveApprovalId(now, id, _) =>
        if Succeeds(s, action, approvalId) {
          var key := FirstMatch(s, HasId(id), now).value;
          assert key in HeldKeys(s, approvalId) && key !in HeldKeys(Act(s, action).store, approvalId);
        }
      case _ =>
    }
  }

  lemma ActBalance(s: Store<Target>, action: Action, approvalId: string)
    ensures (if Succeeds(s, action, approvalId) then 1 else 0) + |HeldKeys(Act(s, action).store, approvalId)|
         <= |HeldKeys(s, approvalId)| + if Inserts(action, approvalId) then 1 else 0
  {
    ActOnHeldKeys(s, action, approvalId);
    var held, holds := HeldKeys(s, approvalId), HeldKeys(Act(s, action).store, approvalId);
    hide Act, HeldKeys;
    if Inserts(action, approvalId) {
      FewerKeys(holds, held + {action.key});
    } else if Succeeds(s, action, approvalId) {
      var key :| key in held && key !in holds;
      FewerKeys(holds, held - {key});
    } else {
      FewerKeys(holds, held);
    }
  }

  /**
   Over every run, the resolutions of an approval that succeed, by Allow, by Deny or by its id, and the
   targets still held for it are together no more than those held at first and inserted since.
   */
  lemma {:induction false} ResolutionsAreCovered(s: Store<Target>, actions: seq<Action>, approvalId: string)
    ensures |Successes(s, actions, approvalId)| + |HeldKeys(ActAll(s, actions), approvalId)|
         <= |HeldKeys(s, approvalId)| + |Insertions(actions, approvalId)|
  {
    hide Act, HeldKeys, Succeeds, Inserts;
    if actions != [] {
      var before, last := actions[..|actions| - 1], actions[|actions| - 1];
      ResolutionsAreCovered(s, before, approvalId);
      ActBalance(ActAll(s, before), last, approvalId);
      OneMoreInsertion(actions, approvalId);
      OneMoreSuccess(s, actions, approvalId);
    }
    hide Successes, Insertions;
  }

  /** An approval that is inserted once is resolved at most once. */
  lemma ResolvedAtMostOnce(s: Store<Target>, actions: seq<Action>, approvalId: string)
    requires s.entries == map[] && |Insertions(actions, approvalId)| <= 1
    ensures |Successes(s, actions, approvalId)| <= 1
  {
    ResolutionsAreCovered(s, actions, approvalId);
    assert HeldKeys(s, approvalId) == {};
  }

  // ---------------------------------------------------------------------------------------------
  // A fresh button works until it expires
  // ---------------------------------------------------------------------------------------------

  /** What a button answers: the target under its key, with the outcome of the button, unless it is too old. */
  lemma ButtonAnswers(s: Store<Target>, key: string, outcome: Outcome, now: nat)
    ensures Act(s, Resolve(now, CallbackData(outcome, key))).selection == Selected(outcome, Get(s, key, now))
  {
    CallbackDataRoundTrip(CallbackData(outcome, key), outcome, key);
    hide CallbackData, CallbackOutcome, Get, Selected;
  }

  /** A live target of the approval. */
  predicate IsLive(s: Store<Target>, key: string, approvalId: string, now: nat) {
    && key in s.entries && s.entries[key].value.approvalId == approvalId
    && now - s.entries[key].createdAt <= s.ttl
  }

  ghost predicate IsFirstLive(s: Store<Target>, key: string, approvalId: string, now: nat) {
    IsLive(s, key, approvalId, now) && forall other :: IsLive(s, other, approvalId, now) ==> AtMost(key, other)
  }

  /**
   A resolution by id answers with the target of the first live key of the approval and the outcome asked for, and
   takes that key away; without a live target it answers nothing.
   */
  lemma ResolutionById(s: Store<Target>, approvalId: string, outcome: Outcome, now: nat, key: string)
    ensures var answer := Act(s, ResolveApprovalId(now, approvalId, outcome));
            && (answer.selection.None? <==> forall k :: !IsLive(s, k, approvalId, now))
            && (IsFirstLive(s, key, approvalId, now) ==>
                 && answer.selection == Some(Selection(outcome, s.entries[key].value))
                 && answer.store == Without(s, key, now))
  {
    var found := FirstMatch(s, HasId(approvalId), now);
    SearchReturnsFirstFit(s, HasId(approvalId), now);
    assert forall k :: Fits(s, k, HasId(approvalId), now) <==> IsLive(s, k, approvalId, now);
    hide FirstMatch, Without, Sweep, Fits;
    if found.Some? {
      NothingStaleIsReturned(s, found.value, now);
      hide Get;
      if IsFirstLive(s, key, approvalId, now) {
        AtMostTotal(key, found.value);
      }
    }
  }

  /** A lookup, by button or by id, answers what the resolution would answer. */
  lemma LookupsAnswerAlike(s: Store<Target>, data: string, approvalId: string, outcome: Outcome, now: nat)
    ensures Act(s, LookupCallback(now, data)).selection == Act(s, Resolve(now, data)).selection
    ensures Act(s, LookupApprovalId(now, approvalId, outcome)).selection
         == Act(s, ResolveApprovalId(now, approvalId, outcome)).selection
  {
  }

  /** The entry comes first in the order of the store and would be the one too many. */
  predicate IsOneTooMany(entries: Entries<Target>, key: string, max: nat) {
    |entries| > max && IsOldest(entries, key)
  }

  lemma EvictsOldest(entries: Entries<Target>, max: nat)
    requires |entries| <= max + 1
    ensures Evicted(entries, max) == if |entries| > max then entries - {Oldest(entries)} else entries
  {
    if |entries| > max {
      var rest := entries - {Oldest(entries)};
      assert entries.Keys == rest.Keys + {Oldest(entries)};
      assert |entries.Keys| == |rest.Keys| + 1;
      hide Oldest, IsOldest;
    }
  }

  /** An insertion into a store within its capacity evicts at most one entry: the first in order. */
  lemma InsertedIsHeldIff(s: Store<Target>, key: string, target: Target, now: nat)
    requires |s.entries| <= s.maxEntries
    ensures var t := InsertAt(s, key, target, now, now);
            var with := Swept(s.entries, now, s.ttl)[key := Entry(target, now)];
            if IsOneTooMany(with, key, s.maxEntries) then key !in t.entries
            else key in t.entries && t.entries[key] == Entry(target, now)
  {
    var kept := Swept(s.entries, now, s.ttl);
    var with := kept[key := Entry(target, now)];
    SweptIsSmaller(s.entries, now, s.ttl);
    assert with.Keys == kept.Keys + {key};
    assert |with.Keys| <= |kept.Keys| + 1;
    hide Swept;
    EvictsOldest(with, s.maxEntries);
    OldestIsUnique(with);
    hide IsOldest, Evicted;
  }

  /**
   The target just inserted is resolved by each of its buttons, with the outcome of the button, if and
   only if it has not expired, and it was not the first in order of one too many entries.
   */
  lemma FreshButtonResolvesIff(
      s: Store<Target>, key: string, target: Target, now: nat, later: nat, outcome: Outcome)
    requires |s.entries| <= s.maxEntries && now <= later
    ensures var with := Swept(s.entries, now, s.ttl)[key := Entry(target, now)];
            Act(Act(s, InsertTarget(now, key, target)).store, Resolve(later, CallbackData(outcome, key))).selection
              == if later - now <= s.ttl && !IsOneTooMany(with, key, s.maxEntries)
                 then Some(Selection(outcome, target)) else None
  {
    var t := InsertAt(s, key, target, now, now);
    InsertedIsHeldIff(s, key, target, now);
    ButtonAnswers(t, key, outcome, later);
    NothingStaleIsReturned(t, key, later);
    InsertKeepsLimits(s, key, target, now);
    hide InsertAt, CallbackData, Get, IsOneTooMany, Swept;
  }

  /** The newest of several entries is never the first in order. */
  lemma NewestIsKept(entries: Entries<Target>, key: string, max: nat)
    requires key in entries && max > 0
    requires forall other :: other in entries && other != key ==> entries[other].createdAt < entries[key].createdAt
    ensures !IsOneTooMany(entries, key, max)
  {
    if |entries| > 1 {
      var others := entries.Keys - {key};
      assert entries.Keys == others + {key};
      assert others != {};
      var other :| other in others;
      assert !Precedes(entries, key, other);
    }
  }

  /** On a clock that moves on, a fresh button works until it expires. */
  lemma FreshButtonResolves(s: Store<Target>, key: string, target: Target, now: nat, later: nat, outcome: Outcome)
    requires |s.entries| <= s.maxEntries && s.maxEntries > 0 && now <= later
    requires forall other :: other in s.entries && other != key ==> s.entries[other].createdAt < now
    ensures Act(Act(s, InsertTarget(now, key, target)).store, Resolve(later, CallbackData(outcome, key))).selection
         == if later - now <= s.ttl then Some(Selection(outcome, target)) else None
  {
    FreshButtonResolvesIff(s, key, target, now, later, outcome);
    NewestIsKept(Swept(s.entries, now, s.ttl)[key := Entry(target, now)], key, s.maxEntries);
    hide IsOneTooMany, Act;
  }

  lemma InsertKeepsLimits<T>(s: Store<T>, key: string, value: T, now: nat)
    ensures InsertAt(s, key, value, now, now).ttl == s.ttl
  {
  }
}
