/**
 The compaction planner: it decides whether the history is long enough to be compacted and where to
 cut it, and the effect it leads to replaces everything before the cut by one summary message.
 */
module Compaction {
  import opened Wrappers
  import opened Text
  import opened Messages
  import opened Reducer

  const COMPACTION_KEY: string := "noloong.compaction"

  type Estimator = AgentMessage -> nat

  /** `ratioValid` and `triggerThreshold` stand for the floating-point trigger ratio. */
  datatype Config = Config(
    inputLimitTokens: nat,
    ratioValid: bool,
    triggerThreshold: nat,
    summaryBudgetTokens: nat,
    keepRecentTokens: nat)
  {
    predicate Valid() {
      inputLimitTokens > 0 && ratioValid && summaryBudgetTokens > 0 && keepRecentTokens > 0
    }
  }

  datatype Plan = Plan(
    previousSummary: Option<string>,
    messagesToSummarize: seq<AgentMessage>,
    turnPrefixMessages: seq<AgentMessage>,
    retainedMessages: seq<AgentMessage>,
    tokensBefore: nat,
    estimatedRetainedTokens: nat,
    isSplitTurn: bool,
    retainedMessageIds: seq<string>,
    droppedMessageIds: seq<string>)

  datatype Decision = Skip(estimatedTokens: nat) | Compact(plan: Plan)

  datatype CutPoint = CutPoint(firstKept: nat, turnStart: nat, isSplitTurn: bool)

  // ---------------------------------------------------------------------------------------------
  // Searching the history
  // ---------------------------------------------------------------------------------------------

  predicate IsSummary(m: AgentMessage) {
    m.role.System? && COMPACTION_KEY in m.metadata
  }

  predicate IsValidCut(m: AgentMessage) {
    m.role.User? || m.role.Assistant?
  }

  /** The first index in `from..end` that satisfies `p`. */
  function FindFirst(ms: seq<AgentMessage>, p: AgentMessage -> bool, from: nat): (r: Option<nat>)
    requires from <= |ms|
    ensures r.Some? ==> from <= r.value < |ms| && p(ms[r.value])
    ensures r.Some? ==> forall j :: from <= j < r.value ==> !p(ms[j])
    ensures r.None? ==> forall j :: from <= j < |ms| ==> !p(ms[j])
    decreases |ms| - from
  {
    if from == |ms| then None else if p(ms[from]) then Some(from) else FindFirst(ms, p, from + 1)
  }

  /** The last index in `start..end` that satisfies `p`. */
  function FindLast(ms: seq<AgentMessage>, p: AgentMessage -> bool, start: nat, end: nat): (r: Option<nat>)
    requires start <= end <= |ms|
    ensures r.Some? ==> start <= r.value < end && p(ms[r.value])
    ensures r.Some? ==> forall j :: r.value < j < end ==> !p(ms[j])
    ensures r.None? ==> forall j :: start <= j < end ==> !p(ms[j])
    decreases end
  {
    if start == end then None else if p(ms[end - 1]) then Some(end - 1) else FindLast(ms, p, start, end - 1)
  }

  function Sum(tokens: seq<nat>): nat {
    if tokens == [] then 0 else tokens[0] + Sum(tokens[1..])
  }

  /** Index `i` is where the tokens from there on first reach `keep`, seen from the end. */
  predicate IsTarget(tokens: seq<nat>, start: nat, keep: nat, i: nat) {
    start <= i < |tokens| && Sum(tokens[i..]) >= keep && Sum(tokens[i + 1..]) < keep
  }

  function TargetIndex(tokens: seq<nat>, start: nat, end: nat, keep: nat): (r: Option<nat>)
    requires start <= end <= |tokens| && Sum(tokens[end..]) < keep
    ensures r.Some? ==> IsTarget(tokens, start, keep, r.value)
    ensures r.None? ==> Sum(tokens[start..]) < keep
    decreases end
  {
    if start == end then None
    else if Sum(tokens[end - 1..]) >= keep then Some(end - 1)
    else TargetIndex(tokens, start, end - 1, keep)
  }

  function CutPointOf(ms: seq<AgentMessage>, tokens: seq<nat>, start: nat, keep: nat): Option<CutPoint>
    requires start <= |ms| == |tokens| && keep > 0
  {
    match FindFirst(ms, IsValidCut, start)
    case None => None
    case Some(firstValidCut) =>
      assert tokens[|tokens|..] == [];
      var cut := CutIndex(ms, TargetIndex(tokens, start, |tokens|, keep), start, firstValidCut);
      if ms[cut].role.User? then Some(CutPoint(cut, cut, false))
      else match FindLast(ms, (m: AgentMessage) => m.role.User?, start, cut + 1)
        case None => None
        case Some(turnStart) => Some(CutPoint(cut, turnStart, true))
  }

  /** The valid cut at or after the target, or else the one before it, or else the first. */
  function CutIndex(ms: seq<AgentMessage>, target: Option<nat>, start: nat, firstValidCut: nat): (cut: nat)
    requires start <= firstValidCut < |ms| && IsValidCut(ms[firstValidCut])
    requires target.Some? ==> start <= target.value < |ms|
    ensures start <= cut < |ms| && IsValidCut(ms[cut])
  {
    if target.None? then firstValidCut
    else match FindFirst(ms, IsValidCut, target.value)
      case Some(cut) => cut
      case None => FindLast(ms, IsValidCut, start, target.value + 1).GetOr(firstValidCut)
  }

  method FindCutPoint(ms: seq<AgentMessage>, tokens: seq<nat>, start: nat, keep: nat)
    returns (r: Option<CutPoint>)
    requires start <= |ms| == |tokens| && keep > 0
    ensures r == CutPointOf(ms, tokens, start, keep)
  {
    var firstValidCut := FindFirst(ms, IsValidCut, start);
    if firstValidCut.None? {
      return None;
    }
    var accumulatedTokens := 0;
    var targetIndex: Option<nat> := None;
    var index := |ms|;
    assert tokens[|ms|..] == [];
    while index > start && targetIndex.None?
      invariant start <= index <= |ms|
      invariant accumulatedTokens == Sum(tokens[index..])
      invariant targetIndex.None? ==>
        && accumulatedTokens < keep
        && TargetIndex(tokens, start, |ms|, keep) == TargetIndex(tokens, start, index, keep)
      invariant targetIndex.Some? ==> TargetIndex(tokens, start, |ms|, keep) == targetIndex
      decreases index
    {
      index := index - 1;
      assert tokens[index..][1..] == tokens[index + 1..];
      accumulatedTokens := accumulatedTokens + tokens[index];
      if accumulatedTokens >= keep {
        targetIndex := Some(index);
      }
    }
    var cut := CutIndex(ms, targetIndex, start, firstValidCut.value);
    if ms[cut].role.User? {
      return Some(CutPoint(cut, cut, false));
    }
    var turnStart := FindLast(ms, (m: AgentMessage) => m.role.User?, start, cut + 1);
    return if turnStart.None? then None else Some(CutPoint(cut, turnStart.value, true));
  }

  // ---------------------------------------------------------------------------------------------
  // The plan
  // ---------------------------------------------------------------------------------------------

  function Estimates(est: Estimator, ms: seq<AgentMessage>): (tokens: seq<nat>)
    ensures |tokens| == |ms| && forall i :: 0 <= i < |ms| ==> tokens[i] == est(ms[i])
  {
    seq(|ms|, i requires 0 <= i < |ms| => est(ms[i]))
  }

  /** The text blocks joined by line breaks; there is no text when that is blank. */
  function VisibleText(content: seq<ContentBlock>): Option<string> {
    var text := JoinText(TextBlocks(content));
    if IsBlank(text) then None else Some(text)
  }

  function TextBlocks(content: seq<ContentBlock>): seq<string> {
    if content == [] then []
    else (match content[0]
          case TextBlock(text) => [text]
          case _ => []) + TextBlocks(content[1..])
  }

  function JoinText(parts: seq<string>): string {
    if |parts| == 0 then []
    else if |parts| == 1 then parts[0]
    else parts[0] + "\n" + JoinText(parts[1..])
  }

  function WithoutSummaries(ms: seq<AgentMessage>): seq<AgentMessage> {
    if ms == [] then []
    else (if IsSummary(ms[0]) then [] else [ms[0]]) + WithoutSummaries(ms[1..])
  }

  /** Where the part of the history starts that no summary covers yet. */
  function BoundaryStart(ms: seq<AgentMessage>): (b: nat)
    ensures b <= |ms|
    ensures b > 0 ==> IsSummary(ms[b - 1])
    ensures forall i :: b <= i < |ms| ==> !IsSummary(ms[i])
  {
    match FindLast(ms, IsSummary, 0, |ms|)
    case Some(index) => index + 1
    case None => 0
  }

  function PreviousSummary(ms: seq<AgentMessage>): Option<string> {
    var b := BoundaryStart(ms);
    if b > 0 then VisibleText(ms[b - 1].content) else None
  }

  function PlanCompaction(config: Config, est: Estimator, ms: seq<AgentMessage>): Option<Decision> {
    if !config.Valid() then None
    else if ms == [] then Some(Skip(0))
    else
      var tokens := Estimates(est, ms);
      var tokensBefore := Sum(tokens);
      var start := BoundaryStart(ms);
      if tokensBefore < config.triggerThreshold then Some(Skip(tokensBefore))
      else if start >= |ms| then Some(Skip(tokensBefore))
      else match CutPointOf(ms, tokens, start, config.keepRecentTokens)
        case None => Some(Skip(tokensBefore))
        case Some(cut) =>
          if cut.firstKept == 0 then Some(Skip(tokensBefore))
          else
            var plan := PlanAt(ms, tokens, start, cut);
            if plan.messagesToSummarize == [] && plan.turnPrefixMessages == [] && plan.previousSummary.None?
            then Some(Skip(tokensBefore))
            else Some(Compact(plan))
  }

  predicate CutFits(ms: seq<AgentMessage>, start: nat, cut: CutPoint) {
    && start <= cut.turnStart <= cut.firstKept < |ms|
    && cut.isSplitTurn == !ms[cut.firstKept].role.User?
    && (!cut.isSplitTurn ==> cut.turnStart == cut.firstKept)
  }

  function PlanAt(ms: seq<AgentMessage>, tokens: seq<nat>, start: nat, cut: CutPoint): Plan
    requires |tokens| == |ms| && CutFits(ms, start, cut)
  {
    var historyEnd := if cut.isSplitTurn then cut.turnStart else cut.firstKept;
    Plan(
      PreviousSummary(ms),
      WithoutSummaries(ms[start..historyEnd]),
      if cut.isSplitTurn then ms[cut.turnStart..cut.firstKept] else [],
      ms[cut.firstKept..],
      Sum(tokens),
      Sum(tokens[cut.firstKept..]),
      cut.isSplitTurn,
      Ids(ms[cut.firstKept..]),
      Ids(ms[..cut.firstKept]))
  }

  // ---------------------------------------------------------------------------------------------
  // What every plan is
  // ---------------------------------------------------------------------------------------------

  lemma {:induction false} NothingToFilter(ms: seq<AgentMessage>)
    requires forall i :: 0 <= i < |ms| ==> !IsSummary(ms[i])
    ensures WithoutSummaries(ms) == ms
  {
    if ms != [] {
      NothingToFilter(ms[1..]);
    }
  }

  /** The cut behind a plan. */
  lemma PlanHasCut(config: Config, est: Estimator, ms: seq<AgentMessage>, plan: Plan) returns (cut: CutPoint)
    requires PlanCompaction(config, est, ms) == Some(Compact(plan))
    ensures config.Valid() && BoundaryStart(ms) < |ms|
    ensures CutPointOf(ms, Estimates(est, ms), BoundaryStart(ms), config.keepRecentTokens) == Some(cut)
    ensures CutFits(ms, BoundaryStart(ms), cut) && cut.firstKept > 0
    ensures plan == PlanAt(ms, Estimates(est, ms), BoundaryStart(ms), cut)
    ensures Sum(Estimates(est, ms)) >= config.triggerThreshold
  {
    cut := CutPointOf(ms, Estimates(est, ms), BoundaryStart(ms), config.keepRecentTokens).value;
  }

  lemma SlicesOfHistory(ms: seq<AgentMessage>, start: nat, mid: nat, kept: nat)
    requires start <= mid <= kept <= |ms|
    ensures ms == ms[..start] + ms[start..mid] + ms[mid..kept] + ms[kept..]
    ensures Ids(ms[..kept]) + Ids(ms[kept..]) == Ids(ms)
  {
  }

  /** A plan's lists are consecutive slices: filtering summaries out removes nothing. */
  lemma PlanSlices(ms: seq<AgentMessage>, tokens: seq<nat>, cut: CutPoint)
    requires |tokens| == |ms| && CutFits(ms, BoundaryStart(ms), cut)
    ensures var plan := PlanAt(ms, tokens, BoundaryStart(ms), cut);
            && plan.messagesToSummarize == ms[BoundaryStart(ms)..cut.turnStart]
            && plan.turnPrefixMessages == ms[cut.turnStart..cut.firstKept]
            && plan.retainedMessages == ms[cut.firstKept..]
            && plan.retainedMessageIds == Ids(ms[cut.firstKept..])
            && plan.droppedMessageIds == Ids(ms[..cut.firstKept])
            && plan.previousSummary == PreviousSummary(ms)
            && plan.tokensBefore == Sum(tokens)
            && plan.estimatedRetainedTokens == Sum(tokens[cut.firstKept..])
  {
    NothingToFilter(ms[BoundaryStart(ms)..cut.turnStart]);
  }

  /**
   A plan loses nothing: what the last summary covers, the messages to summarize, the prefix of the
   split turn and the retained messages are the history, and something is dropped.
   */
  lemma PlanConservesHistory(config: Config, est: Estimator, ms: seq<AgentMessage>, plan: Plan)
    requires PlanCompaction(config, est, ms) == Some(Compact(plan))
    ensures ms == ms[..BoundaryStart(ms)]
                  + plan.messagesToSummarize + plan.turnPrefixMessages + plan.retainedMessages
    ensures plan.droppedMessageIds + plan.retainedMessageIds == Ids(ms)
    ensures plan.retainedMessageIds == Ids(plan.retainedMessages)
    ensures plan.droppedMessageIds != [] && plan.retainedMessages != []
  {
    var cut := PlanHasCut(config, est, ms, plan);
    PlanSlices(ms, Estimates(est, ms), cut);
    SlicesOfHistory(ms, BoundaryStart(ms), cut.turnStart, cut.firstKept);
    hide PlanCompaction, CutPointOf, PlanAt, Sum, Estimates, PreviousSummary, BoundaryStart;
  }

  /** The sums of a plan are those of the whole history and of the retained part. */
  lemma PlanCountsTokens(config: Config, est: Estimator, ms: seq<AgentMessage>, plan: Plan)
    requires PlanCompaction(config, est, ms) == Some(Compact(plan))
    ensures plan.tokensBefore == Sum(Estimates(est, ms)) >= config.triggerThreshold
    ensures plan.estimatedRetainedTokens == Sum(Estimates(est, plan.retainedMessages))
    ensures plan.previousSummary == PreviousSummary(ms)
  {
    var cut := PlanHasCut(config, est, ms, plan);
    PlanSlices(ms, Estimates(est, ms), cut);
    hide PlanCompaction, CutPointOf, PlanAt, PreviousSummary, Sum, BoundaryStart;
    assert Estimates(est, ms)[cut.firstKept..] == Estimates(est, ms[cut.firstKept..]);
  }

  lemma {:induction false} LaterSumsAreSmaller(tokens: seq<nat>, i: nat, j: nat)
    requires i <= j <= |tokens|
    ensures Sum(tokens[j..]) <= Sum(tokens[i..])
    decreases j - i
  {
    if i < j {
      LaterSumsAreSmaller(tokens, i + 1, j);
      assert tokens[i..][1..] == tokens[i + 1..];
    }
  }

  lemma CutPointSplit(ms: seq<AgentMessage>, tokens: seq<nat>, start: nat, keep: nat, cut: CutPoint)
    requires start <= |ms| == |tokens| && keep > 0
    requires CutPointOf(ms, tokens, start, keep) == Some(cut)
    ensures CutFits(ms, start, cut) && IsValidCut(ms[cut.firstKept])
    ensures cut.isSplitTurn ==> cut.turnStart < cut.firstKept
    ensures cut.isSplitTurn ==>
              forall i :: cut.turnStart <= i < cut.firstKept ==> (ms[i].role.User? <==> i == cut.turnStart)
  {
    hide TargetIndex, CutIndex, Sum;
  }

  // ---------------------------------------------------------------------------------------------
  // Exactly where the history is cut, and when
  // ---------------------------------------------------------------------------------------------

  /** Retained messages may start with this one. */
  predicate MayStart(m: AgentMessage) {
    m.role in {User, Assistant}
  }

  /** No message of `ms[from..end]` may be the first one retained. */
  predicate NoStart(ms: seq<AgentMessage>, from: nat, end: nat) {
    forall j :: from <= j < end && j < |ms| ==> !MayStart(ms[j])
  }

  /**
   The cut, for a target: the first start at or after it, or else the last one before it.
   */
  predicate CutsFor(ms: seq<AgentMessage>, target: nat, c: nat) {
    if NoStart(ms, target, |ms|) then NoStart(ms, c + 1, |ms|) else target <= c && NoStart(ms, target, c)
  }

  /** The cut, for a history from `start` on: that for the target, or the first start when there is no target. */
  ghost predicate IsCut(ms: seq<AgentMessage>, tokens: seq<nat>, start: nat, keep: nat, c: nat)
    requires start <= |ms| == |tokens|
  {
    && start <= c < |ms| && MayStart(ms[c])
    && ((Sum(tokens[start..]) < keep && NoStart(ms, start, c))
        || exists target: nat :: IsTarget(tokens, start, keep, target) && CutsFor(ms, target, c))
  }

  lemma OneTarget(tokens: seq<nat>, start: nat, keep: nat, i: nat, j: nat)
    requires IsTarget(tokens, start, keep, i)
    ensures Sum(tokens[start..]) >= keep
    ensures IsTarget(tokens, start, keep, j) ==> i == j
  {
    LaterSumsAreSmaller(tokens, start, i);
    hide Sum;
    if IsTarget(tokens, start, keep, j) && i < j {
      LaterSumsAreSmaller(tokens, i + 1, j);
    } else if IsTarget(tokens, start, keep, j) && j < i {
      LaterSumsAreSmaller(tokens, j + 1, i);
    }
  }

  lemma OneCutFor(ms: seq<AgentMessage>, target: nat, c: nat, d: nat)
    requires c < |ms| && MayStart(ms[c]) && CutsFor(ms, target, c)
    requires d < |ms| && MayStart(ms[d]) && CutsFor(ms, target, d)
    ensures c == d
  {
  }

  lemma OneCut(ms: seq<AgentMessage>, tokens: seq<nat>, start: nat, keep: nat, c: nat, d: nat)
    requires start <= |ms| == |tokens|
    requires IsCut(ms, tokens, start, keep, c) && IsCut(ms, tokens, start, keep, d)
    ensures c == d
  {
    hide Sum, MayStart, CutsFor;
    if t: nat :| IsTarget(tokens, start, keep, t) && CutsFor(ms, t, c) {
      OneTarget(tokens, start, keep, t, t);
      var u: nat :| IsTarget(tokens, start, keep, u) && CutsFor(ms, u, d);
      OneTarget(tokens, start, keep, t, u);
      OneCutFor(ms, t, c, d);
    } else if u: nat :| IsTarget(tokens, start, keep, u) && CutsFor(ms, u, d) {
      OneTarget(tokens, start, keep, u, u);
    }
  }

  lemma CutIndexCuts(ms: seq<AgentMessage>, target: nat, start: nat, firstValidCut: nat)
    requires start <= firstValidCut < |ms| && IsValidCut(ms[firstValidCut]) && start <= target < |ms|
    ensures CutsFor(ms, target, CutIndex(ms, Some(target), start, firstValidCut))
  {
    var c := CutIndex(ms, Some(target), start, firstValidCut);
    match FindFirst(ms, IsValidCut, target)
    case Some(found) => assert MayStart(ms[found]);
    case None =>
      assert NoStart(ms, target, |ms|);
  }

  lemma CutIndexIsCut(ms: seq<AgentMessage>, tokens: seq<nat>, start: nat, keep: nat, firstValidCut: nat)
    requires start <= |ms| == |tokens| && keep > 0 && FindFirst(ms, IsValidCut, start) == Some(firstValidCut)
    ensures Sum(tokens[|tokens|..]) < keep
    ensures IsCut(ms, tokens, start, keep, CutIndex(ms, TargetIndex(tokens, start, |tokens|, keep), start, firstValidCut))
  {
    assert tokens[|tokens|..] == [];
    var target := TargetIndex(tokens, start, |tokens|, keep);
    var c := CutIndex(ms, target, start, firstValidCut);
    assert MayStart(ms[c]);
    hide TargetIndex, Sum;
    if target.Some? {
      CutIndexCuts(ms, target.value, start, firstValidCut);
      hide CutsFor, CutIndex;
    }
  }

  /** The turn of the message starts at or before it, in the part of the history that no summary covers. */
  predicate HasTurn(ms: seq<AgentMessage>, start: nat, c: nat)
    requires c < |ms|
  {
    exists j :: start <= j <= c && ms[j].role.User?
  }

  /** There is a cut point exactly at the cut, and only if the turn that is cut has a start. */
  lemma CutPointIff(ms: seq<AgentMessage>, tokens: seq<nat>, start: nat, keep: nat, c: nat)
    requires start <= |ms| == |tokens| && keep > 0
    ensures var cut := CutPointOf(ms, tokens, start, keep);
            cut.Some? && cut.value.firstKept == c <==>
              IsCut(ms, tokens, start, keep, c) && HasTurn(ms, start, c)
  {
    match FindFirst(ms, IsValidCut, start)
    case None =>
      assert start <= c < |ms| ==> !IsValidCut(ms[c]);
    case Some(firstValidCut) =>
      CutIndexIsCut(ms, tokens, start, keep, firstValidCut);
      hide IsCut, CutIndex, TargetIndex, Sum;
      var cut := CutIndex(ms, TargetIndex(tokens, start, |tokens|, keep), start, firstValidCut);
      if IsCut(ms, tokens, start, keep, c) {
        OneCut(ms, tokens, start, keep, c, cut);
      }
  }

  /** The history covered by a summary ends with the last message of the system that carries the mark. */
  lemma CoveredPart(ms: seq<AgentMessage>, b: nat)
    ensures BoundaryStart(ms) == b <==>
              && b <= |ms|
              && (b > 0 ==> ms[b - 1].role == System && "noloong.compaction" in ms[b - 1].metadata)
              && forall i :: b <= i < |ms| ==> ms[i].role != System || "noloong.compaction" !in ms[i].metadata
  {
    if BoundaryStart(ms) > 0 {
      assert IsSummary(ms[BoundaryStart(ms) - 1]);
    }
    if 0 < b <= |ms| {
      assert IsSummary(ms[b - 1]) <==> ms[b - 1].role == System && "noloong.compaction" in ms[b - 1].metadata;
    }
  }

  /** The history is long enough and has a cut that leaves something out, new or summarized before. */
  ghost predicate IsWorthIt(config: Config, est: Estimator, ms: seq<AgentMessage>, c: nat) {
    && config.Valid() && Sum(Estimates(est, ms)) >= config.triggerThreshold
    && IsCut(ms, Estimates(est, ms), BoundaryStart(ms), config.keepRecentTokens, c)
    && HasTurn(ms, BoundaryStart(ms), c)
    && c > 0 && (c > BoundaryStart(ms) || PreviousSummary(ms).Some?)
  }

  /**
   A valid configuration leads to a plan exactly when the history is worth it, and the plan retains the messages
   from the cut on; otherwise the planner skips and says how many tokens there are.
   */
  lemma CompactsIff(config: Config, est: Estimator, ms: seq<AgentMessage>, c: nat)
    ensures PlanCompaction(config, est, ms).None? <==>
              || config.inputLimitTokens == 0 || !config.ratioValid
              || config.summaryBudgetTokens == 0 || config.keepRecentTokens == 0
    ensures PlanCompaction(config, est, ms).Some? && PlanCompaction(config, est, ms).value.Skip? ==>
              PlanCompaction(config, est, ms).value.estimatedTokens == Sum(Estimates(est, ms))
    ensures IsWorthIt(config, est, ms, c) <==>
              && PlanCompaction(config, est, ms).Some? && PlanCompaction(config, est, ms).value.Compact?
              && |PlanCompaction(config, est, ms).value.plan.retainedMessages| == |ms| - c
  {
    if config.Valid() && ms != [] && BoundaryStart(ms) < |ms| {
      var tokens, start := Estimates(est, ms), BoundaryStart(ms);
      CutPointIff(ms, tokens, start, config.keepRecentTokens, c);
      hide IsCut, HasTurn, PreviousSummary, BoundaryStart, Sum, Estimates;
      var cut := CutPointOf(ms, tokens, start, config.keepRecentTokens);
      if cut.Some? {
        CutPointSplit(ms, tokens, start, config.keepRecentTokens, cut.value);
        PlanSlices(ms, tokens, cut.value);
        hide CutPointOf, PlanAt;
      }
    } else {
      hide IsCut, PreviousSummary;
    }
  }

  /** A plan retains the messages from the cut on. */
  lemma PlanIsAtCut(config: Config, est: Estimator, ms: seq<AgentMessage>, plan: Plan) returns (c: nat)
    requires PlanCompaction(config, est, ms) == Some(Compact(plan))
    ensures config.Valid()
    ensures IsCut(ms, Estimates(est, ms), BoundaryStart(ms), config.keepRecentTokens, c)
    ensures c < |ms| && plan.retainedMessages == ms[c..]
    ensures plan.estimatedRetainedTokens == Sum(Estimates(est, ms)[c..])
  {
    hide CutPointOf, PreviousSummary, Sum, Estimates, BoundaryStart, IsCut;
    var cut := PlanHasCut(config, est, ms, plan);
    c := cut.firstKept;
    CutPointIff(ms, Estimates(est, ms), BoundaryStart(ms), config.keepRecentTokens, c);
    hide PlanCompaction, PlanAt, HasTurn;
    PlanSlices(ms, Estimates(est, ms), cut);
  }

  /** When the message at the target may start the retained ones, these reach the tokens to keep. */
  lemma RetainedReachesBudget(config: Config, est: Estimator, ms: seq<AgentMessage>, plan: Plan, target: nat)
    requires PlanCompaction(config, est, ms) == Some(Compact(plan))
    requires IsTarget(Estimates(est, ms), BoundaryStart(ms), config.keepRecentTokens, target)
    requires MayStart(ms[target])
    ensures plan.retainedMessages == ms[target..]
    ensures plan.estimatedRetainedTokens >= config.keepRecentTokens
  {
    var c := PlanIsAtCut(config, est, ms, plan);
    var tokens, start := Estimates(est, ms), BoundaryStart(ms);
    assert CutsFor(ms, target, target) && target < |ms| && start <= target;
    hide Sum, Estimates, BoundaryStart, PlanCompaction, CutsFor;
    assert IsCut(ms, tokens, start, config.keepRecentTokens, target);
    OneCut(ms, tokens, start, config.keepRecentTokens, c, target);
  }

  /**
   The cut: retained messages start with a user or an assistant message, and a split turn has a
   non-empty prefix that starts with its only user message.
   */
  lemma CutShape(config: Config, est: Estimator, ms: seq<AgentMessage>, plan: Plan)
    requires PlanCompaction(config, est, ms) == Some(Compact(plan))
    ensures plan.retainedMessages != [] && MayStart(plan.retainedMessages[0])
    ensures plan.isSplitTurn == plan.retainedMessages[0].role.Assistant?
    ensures plan.isSplitTurn <==> plan.turnPrefixMessages != []
    ensures var prefix := plan.turnPrefixMessages;
            forall i :: 0 <= i < |prefix| ==> (prefix[i].role.User? <==> i == 0)
  {
    var cut := PlanHasCut(config, est, ms, plan);
    CutPointSplit(ms, Estimates(est, ms), BoundaryStart(ms), config.keepRecentTokens, cut);
    PlanSlices(ms, Estimates(est, ms), cut);
    hide PlanCompaction, PlanAt, CutPointOf, PreviousSummary, BoundaryStart, Sum, Estimates;
  }

  /** At or after the target, if there is one, some message may start the retained ones. */
  ghost predicate HasRoom(ms: seq<AgentMessage>, tokens: seq<nat>, start: nat, keep: nat)
    requires start <= |ms| == |tokens|
  {
    forall target: nat :: IsTarget(tokens, start, keep, target) ==> !NoStart(ms, target, |ms|)
  }

  lemma RoomIff(ms: seq<AgentMessage>, tokens: seq<nat>, start: nat, keep: nat, c: nat)
    requires start <= |ms| == |tokens| && IsCut(ms, tokens, start, keep, c)
    ensures HasRoom(ms, tokens, start, keep) <==> Sum(tokens[c + 1..]) < keep
  {
    hide Sum;
    if target: nat :| IsTarget(tokens, start, keep, target) && CutsFor(ms, target, c) {
      forall other: nat | IsTarget(tokens, start, keep, other)
        ensures other == target
      {
        OneTarget(tokens, start, keep, target, other);
      }
      hide IsCut;
      if target <= c {
        LaterSumsAreSmaller(tokens, target + 1, c + 1);
      } else {
        LaterSumsAreSmaller(tokens, c + 1, target);
      }
    } else {
      forall other: nat
        ensures !IsTarget(tokens, start, keep, other)
      {
        OneTargetAtMost(tokens, start, keep, other);
      }
      LaterSumsAreSmaller(tokens, start, c + 1);
    }
  }

  lemma OneTargetAtMost(tokens: seq<nat>, start: nat, keep: nat, i: nat)
    requires start <= |tokens|
    ensures IsTarget(tokens, start, keep, i) ==> Sum(tokens[start..]) >= keep
  {
    hide Sum;
    if IsTarget(tokens, start, keep, i) {
      OneTarget(tokens, start, keep, i, i);
    }
  }

  /** What follows the first retained message is under the budget exactly when the cut had room. */
  lemma RetainedBudget(config: Config, est: Estimator, ms: seq<AgentMessage>, plan: Plan)
    requires PlanCompaction(config, est, ms) == Some(Compact(plan))
    ensures config.Valid() && plan.retainedMessages != []
    ensures HasRoom(ms, Estimates(est, ms), BoundaryStart(ms), config.keepRecentTokens) <==>
              Sum(Estimates(est, plan.retainedMessages[1..])) < config.keepRecentTokens
  {
    var c := PlanIsAtCut(config, est, ms, plan);
    hide *;
    RoomIff(ms, Estimates(est, ms), BoundaryStart(ms), config.keepRecentTokens, c);
    EstimatesOfRest(est, ms, c);
  }

  lemma EstimatesOfRest(est: Estimator, ms: seq<AgentMessage>, k: nat)
    requires k < |ms|
    ensures Estimates(est, ms[k..][1..]) == Estimates(est, ms)[k + 1..]
  {
    assert ms[k..][1..] == ms[k + 1..];
    assert Estimates(est, ms[k + 1..]) == Estimates(est, ms)[k + 1..];
  }

  // ---------------------------------------------------------------------------------------------
  // The effect of a plan
  // ---------------------------------------------------------------------------------------------

  /** Every summary of run `runId` and turn `turnId` has this id. */
  function SummaryId(runId: string, turnId: nat): (id: string)
    ensures !IsBlank(id)
  {
    var id := "compaction-summary-" + runId + "-" + Numeral(turnId, 10);
    assert id[0] == 'c';
    id
  }

  function SummaryMessage(runId: string, turnId: nat, summary: string, metadata: map<string, string>)
    : (m: AgentMessage)
    ensures IsSummary(m) && m.content == [TextBlock(summary)]
    ensures m.metadata - {COMPACTION_KEY} == metadata - {COMPACTION_KEY}
  {
    AgentMessage(SummaryId(runId, turnId), System, [TextBlock(summary)],
                 metadata[COMPACTION_KEY := runId + "/" + Numeral(turnId, 10)])
  }

  function CompactionEffect(plan: Plan, summary: AgentMessage): AgentEffect {
    CompactMessages(MessageCompaction(summary, plan.retainedMessageIds, plan.droppedMessageIds))
  }

  lemma {:induction false} KeptIsSuffix(dropped: seq<AgentMessage>, retained: seq<AgentMessage>, ids: set<string>)
    requires forall i :: 0 <= i < |dropped| ==> dropped[i].id !in ids
    requires forall i :: 0 <= i < |retained| ==> retained[i].id in ids
    ensures Kept(dropped + retained, ids) == retained
  {
    if dropped != [] {
      assert (dropped + retained)[1..] == dropped[1..] + retained;
      KeptIsSuffix(dropped[1..], retained, ids);
    } else {
      assert dropped + retained == retained;
      if retained != [] {
        assert [] + retained[1..] == retained[1..];
        KeptIsSuffix([], retained[1..], ids);
      }
    }
  }

  /**
   A planned compaction is always accepted when the ids are distinct and not blank and the summary's
   id is new, and what it leaves is exactly the summary followed by the retained messages.
   */
  lemma PlannedCompactionIsAccepted(
      s: Snapshot, config: Config, est: Estimator, plan: Plan, summary: AgentMessage)
    requires PlanCompaction(config, est, s.messages) == Some(Compact(plan))
    requires NamesAreValid(Ids(s.messages))
    requires IsSummary(summary) && !IsBlank(summary.id) && summary.id !in Ids(s.messages)
    ensures WithEffect(s, CompactionEffect(plan, summary))
         == Ok(s.(messages := [summary] + plan.retainedMessages))
  {
    PlanConservesHistory(config, est, s.messages, plan);
    hide PlanCompaction, BoundaryStart, IsBlank;
    var dropped := s.messages[..BoundaryStart(s.messages)] + plan.messagesToSummarize + plan.turnPrefixMessages;
    PartsOfDistinct(plan.droppedMessageIds, plan.retainedMessageIds, Ids(s.messages));
    IdsOfTwo(dropped, plan.retainedMessages, plan.droppedMessageIds);
    hide NamesAreValid, IdSet;
    AcceptedCompactionKeeps(s, dropped, plan.retainedMessages,
      MessageCompaction(summary, plan.retainedMessageIds, plan.droppedMessageIds));
  }

  /** An accepted compaction whose retained ids are those of a suffix leaves the summary and the suffix. */
  lemma AcceptedCompactionKeeps(
      s: Snapshot, dropped: seq<AgentMessage>, retained: seq<AgentMessage>, c: MessageCompaction)
    requires s.messages == dropped + retained
    requires c.retainedMessageIds == Ids(retained) && c.droppedMessageIds == Ids(dropped)
    requires NamesAreValid(Ids(retained)) && NamesAreValid(Ids(dropped))
    requires IdSet(Ids(dropped)) !! IdSet(Ids(retained))
    requires c.summaryMessage.role.System? && !IsBlank(c.summaryMessage.id)
    requires c.summaryMessage.id !in Ids(s.messages)
    ensures WithEffect(s, CompactMessages(c)) == Ok(s.(messages := [c.summaryMessage] + retained))
  {
    assert Ids(s.messages) == Ids(dropped) + Ids(retained);
    IdSetOfTwo(Ids(dropped), Ids(retained));
    CompactionAcceptedIff(s.messages, c);
    assert forall i :: 0 <= i < |dropped| ==> Ids(dropped)[i] in IdSet(Ids(dropped));
    assert forall i :: 0 <= i < |retained| ==> Ids(retained)[i] in IdSet(Ids(retained));
    KeptIsSuffix(dropped, retained, IdSet(Ids(retained)));
    hide ValidateEffectFor, NamesAreValid, Kept;
  }

  lemma IdsOfTwo(a: seq<AgentMessage>, b: seq<AgentMessage>, idsOfA: seq<string>)
    requires Ids(a + b) == idsOfA + Ids(b)
    ensures Ids(a) == idsOfA
  {
    assert |Ids(a + b)| == |a| + |b|;
    assert forall i :: 0 <= i < |a| ==> Ids(a)[i] == Ids(a + b)[i];
  }

  lemma IdSetOfTwo(a: seq<string>, b: seq<string>)
    ensures IdSet(a + b) == IdSet(a) + IdSet(b)
  {
  }

  lemma PartsOfDistinct(a: seq<string>, b: seq<string>, whole: seq<string>)
    requires whole == a + b && NamesAreValid(whole)
    ensures NamesAreValid(a) && NamesAreValid(b) && IdSet(a) !! IdSet(b)
  {
    hide IsBlank;
    assert forall i :: 0 <= i < |a| ==> whole[i] == a[i];
    assert forall i :: 0 <= i < |b| ==> whole[|a| + i] == b[i];
  }

  // ---------------------------------------------------------------------------------------------
  // Runs of appends and compactions
  // ---------------------------------------------------------------------------------------------

  /** What a run does to the messages; a compaction plans first and does nothing when the plan is to skip. */
  datatype Step =
    | Append(message: AgentMessage)
    | CompactNow(config: Config, est: Estimator, runId: string, turnId: nat, summary: string,
                 metadata: map<string, string>)

  /** The event a step commits, if any. */
  function StepEffect(ms: seq<AgentMessage>, step: Step): Option<AgentEffect> {
    match step
    case Append(message) => Some(AppendMessage(message))
    case CompactNow(config, est, runId, turnId, summary, metadata) =>
      match PlanCompaction(config, est, ms)
      case Some(Compact(plan)) =>
        Some(CompactionEffect(plan, SummaryMessage(runId, turnId, summary, metadata)))
      case _ => None
  }

  function Took(s: Snapshot, step: Step): Result<Snapshot, InvalidEffect> {
    match StepEffect(s.messages, step)
    case None => Ok(s)
    case Some(effect) => WithEffect(s, effect)
  }

  function Ran(s: Snapshot, steps: seq<Step>): Result<Snapshot, InvalidEffect> {
    if steps == [] then Ok(s)
    else
      var before :- Ran(s, steps[..|steps| - 1]);
      Took(before, steps[|steps| - 1])
  }

  /** Appended messages are no summaries, and ids that enter the history are new and not blank. */
  predicate StepIsFresh(ms: seq<AgentMessage>, step: Step) {
    match step
    case Append(m) => !IsSummary(m) && !IsBlank(m.id) && m.id !in Ids(ms)
    case CompactNow(config, est, runId, turnId, summary, metadata) => SummaryId(runId, turnId) !in Ids(ms)
  }

  predicate RunIsFresh(s: Snapshot, steps: seq<Step>) {
    forall n :: 0 <= n < |steps| ==>
      Ran(s, steps[..n]).Ok? ==> StepIsFresh(Ran(s, steps[..n]).value.messages, steps[n])
  }

  /** All messages a run appends, in order. */
  function Appended(steps: seq<Step>): seq<AgentMessage> {
    if steps == [] then []
    else Appended(steps[..|steps| - 1]) + match steps[|steps| - 1]
      case Append(m) => [m]
      case _ => []
  }

  /** The step compacts when it is taken after `steps`. */
  predicate Compacts(s: Snapshot, steps: seq<Step>, n: nat)
    requires n < |steps|
  {
    steps[n].CompactNow? && Ran(s, steps[..n]).Ok? && StepEffect(Ran(s, steps[..n]).value.messages, steps[n]).Some?
  }

  /** The summary of the last step that compacts, if one does. */
  function LastSummary(s: Snapshot, steps: seq<Step>): Option<string> {
    if steps == [] then None
    else
      var n := |steps| - 1;
      if Compacts(s, steps, n) then Some(steps[n].summary) else LastSummary(s, steps[..n])
  }

  predicate NoSummaries(ms: seq<AgentMessage>) {
    forall i :: 0 <= i < |ms| ==> !IsSummary(ms[i])
  }

  predicate IsSuffix(a: seq<AgentMessage>, b: seq<AgentMessage>) {
    |a| <= |b| && b[|b| - |a|..] == a
  }

  /** The history is a suffix of everything appended, after the last summary once a compaction happened. */
  ghost predicate IsSummaryPlusSuffix(ms: seq<AgentMessage>, appended: seq<AgentMessage>, summary: Option<string>) {
    match summary
    case Some(text) =>
      && ms != [] && IsSummary(ms[0]) && ms[0].content == [TextBlock(text)]
      && NoSummaries(ms[1..]) && IsSuffix(ms[1..], appended)
    case None => NoSummaries(ms) && ms == appended
  }

  lemma AppendKeepsShape(ms: seq<AgentMessage>, appended: seq<AgentMessage>, summary: Option<string>, m: AgentMessage)
    requires IsSummaryPlusSuffix(ms, appended, summary) && !IsSummary(m)
    ensures IsSummaryPlusSuffix(ms + [m], appended + [m], summary)
  {
    if summary.Some? {
      assert (ms + [m])[1..] == ms[1..] + [m];
      assert (appended + [m])[|appended| - |ms[1..]|..] == appended[|appended| - |ms[1..]|..] + [m];
    }
  }

  lemma SuffixOfHistory(ms: seq<AgentMessage>, appended: seq<AgentMessage>, summary: Option<string>, k: nat)
    requires IsSummaryPlusSuffix(ms, appended, summary) && 0 < k <= |ms|
    ensures NoSummaries(ms[k..]) && IsSuffix(ms[k..], appended)
  {
    if summary.Some? {
      var suffix := ms[1..];
      assert ms[k..] == suffix[k - 1..];
      assert suffix[k - 1..] == appended[|appended| - |suffix|..][k - 1..];
    }
  }

  /** What a plan retains has no summary and ends like the history. */
  lemma RetainedIsSuffix(
      config: Config, est: Estimator, ms: seq<AgentMessage>, appended: seq<AgentMessage>, last: Option<string>, plan: Plan)
    requires PlanCompaction(config, est, ms) == Some(Compact(plan))
    requires IsSummaryPlusSuffix(ms, appended, last)
    ensures NoSummaries(plan.retainedMessages) && IsSuffix(plan.retainedMessages, appended)
  {
    var cut := PlanHasCut(config, est, ms, plan);
    var k := cut.firstKept;
    assert plan.retainedMessages == ms[k..];
    hide PlanCompaction, CutPointOf, PlanAt, BoundaryStart;
    SuffixOfHistory(ms, appended, last, k);
  }

  lemma NewIdIsValid(ms: seq<AgentMessage>, m: AgentMessage)
    requires NamesAreValid(Ids(ms)) && !IsBlank(m.id) && m.id !in Ids(ms)
    ensures NamesAreValid(Ids(ms + [m])) && NamesAreValid(Ids([m] + ms))
  {
    assert Ids(ms + [m]) == Ids(ms) + [m.id];
    assert Ids([m] + ms) == [m.id] + Ids(ms);
  }

  lemma StepKeepsShape(s: Snapshot, step: Step, appended: seq<AgentMessage>, last: Option<string>)
    requires NamesAreValid(Ids(s.messages)) && StepIsFresh(s.messages, step)
    requires IsSummaryPlusSuffix(s.messages, appended, last)
    ensures Took(s, step).Ok?
    ensures var after := Took(s, step).value.messages;
            && NamesAreValid(Ids(after))
            && IsSummaryPlusSuffix(after,
                                   appended + (if step.Append? then [step.message] else []),
                                   if step.CompactNow? && StepEffect(s.messages, step).Some? then Some(step.summary)
                                   else last)
  {
    hide PlanCompaction, NamesAreValid, IsSummaryPlusSuffix, IsBlank, CompactionEffect;
    match step
    case Append(m) =>
      NewIdIsValid(s.messages, m);
      AppendKeepsShape(s.messages, appended, last, m);
    case CompactNow(config, est, runId, turnId, summary, metadata) =>
      assert appended + [] == appended;
      match PlanCompaction(config, est, s.messages)
      case Some(Compact(plan)) =>
        PlanKeepsShape(s, config, est, plan, SummaryMessage(runId, turnId, summary, metadata),
                       summary, appended, last);
        hide WithEffect;
      case _ =>
  }

  lemma PlanKeepsShape(
      s: Snapshot, config: Config, est: Estimator, plan: Plan, summary: AgentMessage,
      text: string, appended: seq<AgentMessage>, last: Option<string>)
    requires PlanCompaction(config, est, s.messages) == Some(Compact(plan))
    requires NamesAreValid(Ids(s.messages)) && IsSummaryPlusSuffix(s.messages, appended, last)
    requires IsSummary(summary) && summary.content == [TextBlock(text)]
    requires !IsBlank(summary.id) && summary.id !in Ids(s.messages)
    ensures WithEffect(s, CompactionEffect(plan, summary)).Ok?
    ensures var after := WithEffect(s, CompactionEffect(plan, summary)).value.messages;
            NamesAreValid(Ids(after)) && IsSummaryPlusSuffix(after, appended, Some(text))
  {
    PlannedCompactionIsAccepted(s, config, est, plan, summary);
    RetainedIsSuffix(config, est, s.messages, appended, last, plan);
    PlanConservesHistory(config, est, s.messages, plan);
    hide PlanCompaction, IsBlank, WithEffect, BoundaryStart;
    PartsOfDistinct(plan.droppedMessageIds, plan.retainedMessageIds, Ids(s.messages));
    assert summary.id !in plan.retainedMessageIds;
    NewIdIsValid(plan.retainedMessages, summary);
    assert ([summary] + plan.retainedMessages)[1..] == plan.retainedMessages;
  }

  /**
   Over every run of fresh appends and planned compactions, nothing is ever rejected; the history is what
   was appended until the first compaction, and from then on the last summary at index 0 followed by a
   suffix of what was appended.
   */
  lemma {:induction false} RunIsSummaryPlusSuffix(steps: seq<Step>)
    requires RunIsFresh(DEFAULT_STATE, steps)
    ensures Ran(DEFAULT_STATE, steps).Ok?
    ensures NamesAreValid(Ids(Ran(DEFAULT_STATE, steps).value.messages))
    ensures IsSummaryPlusSuffix(Ran(DEFAULT_STATE, steps).value.messages, Appended(steps),
                                LastSummary(DEFAULT_STATE, steps))
  {
    if steps != [] {
      var n := |steps| - 1;
      var before := steps[..n];
      FreshBefore(DEFAULT_STATE, steps);
      RunIsSummaryPlusSuffix(before);
      StepKeepsShape(Ran(DEFAULT_STATE, before).value, steps[n], Appended(before), LastSummary(DEFAULT_STATE, before));
      hide IsSummaryPlusSuffix, NamesAreValid, RunIsFresh, StepEffect;
    }
  }

  lemma FreshBefore(s: Snapshot, steps: seq<Step>)
    requires RunIsFresh(s, steps) && steps != []
    ensures RunIsFresh(s, steps[..|steps| - 1])
    ensures Ran(s, steps[..|steps| - 1]).Ok? ==>
              StepIsFresh(Ran(s, steps[..|steps| - 1]).value.messages, steps[|steps| - 1])
  {
    hide Ran, StepIsFresh;
    assert forall i :: 0 <= i < |steps| - 1 ==> steps[..|steps| - 1][..i] == steps[..i];
  }

  // ---------------------------------------------------------------------------------------------
  // Summaries are carried on
  // ---------------------------------------------------------------------------------------------

  lemma {:induction false} JoinOneMore(parts: seq<string>, part: string)
    ensures JoinText(parts + [part]) == if parts == [] then part else JoinText(parts) + "\n" + part
  {
    if |parts| >= 2 {
      assert (parts + [part])[1..] == parts[1..] + [part];
      JoinOneMore(parts[1..], part);
    }
  }

  /** The texts of a message in order; its other blocks are passed over. */
  lemma {:induction false} TextsOneMore(content: seq<ContentBlock>, block: ContentBlock)
    ensures TextBlocks(content + [block]) == TextBlocks(content) + if block.TextBlock? then [block.text] else []
    decreases |content|
  {
    if content != [] {
      assert (content + [block])[1..] == content[1..] + [block];
      TextsOneMore(content[1..], block);
    }
  }

  /** A visible text goes on with a line break and the next block's text. */
  lemma VisibleTextOneMore(content: seq<ContentBlock>, block: ContentBlock)
    ensures var text, before := JoinText(TextBlocks(content + [block])), JoinText(TextBlocks(content));
            text == if !block.TextBlock? then before
                    else if TextBlocks(content) == [] then block.text
                    else before + "\n" + block.text
  {
    TextsOneMore(content, block);
    hide JoinText, TextBlocks;
    if block.TextBlock? {
      JoinOneMore(TextBlocks(content), block.text);
    } else {
      assert TextBlocks(content) + [] == TextBlocks(content);
    }
  }

  lemma VisibleTextOfOne(text: string)
    ensures VisibleText([TextBlock(text)]) == if IsBlank(text) then None else Some(text)
  {
    assert [TextBlock(text)][1..] == [];
    assert TextBlocks([TextBlock(text)]) == [text] + [];
  }

  /**
   Over every run: the next plan carries on the summary of the last compaction, unless that is blank, and what
   it drops or keeps besides is what was appended.
   */
  lemma NextPlanCarriesSummary(steps: seq<Step>, config: Config, est: Estimator, plan: Plan)
    requires RunIsFresh(DEFAULT_STATE, steps) && Ran(DEFAULT_STATE, steps).Ok?
    requires PlanCompaction(config, est, Ran(DEFAULT_STATE, steps).value.messages) == Some(Compact(plan))
    ensures plan.previousSummary == match LastSummary(DEFAULT_STATE, steps)
                                    case None => None
                                    case Some(text) => if IsBlank(text) then None else Some(text)
    ensures IsSuffix(plan.messagesToSummarize + plan.turnPrefixMessages + plan.retainedMessages, Appended(steps))
  {
    RunIsSummaryPlusSuffix(steps);
    hide *;
    PlanOfShape(Ran(DEFAULT_STATE, steps).value.messages, Appended(steps), LastSummary(DEFAULT_STATE, steps),
                config, est, plan);
  }

  lemma PlanOfShape(
      ms: seq<AgentMessage>, appended: seq<AgentMessage>, last: Option<string>,
      config: Config, est: Estimator, plan: Plan)
    requires IsSummaryPlusSuffix(ms, appended, last) && PlanCompaction(config, est, ms) == Some(Compact(plan))
    ensures plan.previousSummary == match last
                                    case None => None
                                    case Some(text) => if IsBlank(text) then None else Some(text)
    ensures IsSuffix(plan.messagesToSummarize + plan.turnPrefixMessages + plan.retainedMessages, appended)
  {
    hide *;
    PlanConservesHistory(config, est, ms, plan);
    PlanCountsTokens(config, est, ms, plan);
    PreviousOfShape(ms, appended, last);
    var rest := plan.messagesToSummarize + plan.turnPrefixMessages + plan.retainedMessages;
    Regrouped(ms[..BoundaryStart(ms)], plan.messagesToSummarize, plan.turnPrefixMessages, plan.retainedMessages);
    RestOfShape(ms, appended, last, rest);
  }

  lemma Regrouped<T>(a: seq<T>, b: seq<T>, c: seq<T>, d: seq<T>)
    ensures a + b + c + d == a + (b + c + d)
  {
  }

  lemma PreviousOfShape(ms: seq<AgentMessage>, appended: seq<AgentMessage>, last: Option<string>)
    requires IsSummaryPlusSuffix(ms, appended, last)
    ensures PreviousSummary(ms) == match last
                                   case None => None
                                   case Some(text) => if IsBlank(text) then None else Some(text)
  {
    hide BoundaryStart, VisibleText, IsBlank;
    BoundaryOfShape(ms, appended, last);
    if last.Some? {
      VisibleTextOfOne(last.value);
    }
  }

  lemma RestOfShape(ms: seq<AgentMessage>, appended: seq<AgentMessage>, last: Option<string>, rest: seq<AgentMessage>)
    requires IsSummaryPlusSuffix(ms, appended, last) && ms == ms[..BoundaryStart(ms)] + rest
    ensures IsSuffix(rest, appended)
  {
    hide BoundaryStart;
    BoundaryOfShape(ms, appended, last);
    assert rest == ms[BoundaryStart(ms)..] && ms[0..] == ms;
  }

  lemma BoundaryOfShape(ms: seq<AgentMessage>, appended: seq<AgentMessage>, last: Option<string>)
    requires IsSummaryPlusSuffix(ms, appended, last)
    ensures BoundaryStart(ms) == if last.Some? then 1 else 0
  {
    var b := BoundaryStart(ms);
    if last.Some? {
      assert forall i :: 1 <= i < |ms| ==> ms[i] == ms[1..][i - 1];
    }
  }

  lemma SplitsAtLast(c: char, a: string, p: string, b: string, q: string)
    requires a + [c] + p == b + [c] + q && c !in p && c !in q
    ensures a == b && p == q
  {
    var s := a + [c] + p;
    assert s == b + [c] + q;
    assert s[|a|] == c && s[|b|] == c;
    assert |p| == |q|;
    assert p == s[|a| + 1..] && q == s[|b| + 1..];
    assert a == s[..|a|] && b == s[..|b|];
  }

  lemma {:induction false} NumeralHasOnlyDigits(n: nat)
    ensures '-' !in Numeral(n, 10) && '/' !in Numeral(n, 10)
    decreases n
  {
    if n >= 10 {
      NumeralHasOnlyDigits(Quotient(n, 10));
    }
  }

  /** Summaries of different turns or runs have different ids and different marks. */
  lemma SummariesDiffer(a: AgentMessage, b: AgentMessage, runId: string, turnId: nat, otherRun: string, otherTurn: nat,
                        text: string, metadata: map<string, string>)
    requires a == SummaryMessage(runId, turnId, text, metadata) && b == SummaryMessage(otherRun, otherTurn, text, metadata)
    requires a.id == b.id || a.metadata[COMPACTION_KEY] == b.metadata[COMPACTION_KEY]
    ensures runId == otherRun && turnId == otherTurn
  {
    var start, p, q := "compaction-summary-", Numeral(turnId, 10), Numeral(otherTurn, 10);
    NumeralHasOnlyDigits(turnId);
    NumeralHasOnlyDigits(otherTurn);
    hide Numeral;
    if a.id == b.id {
      assert a.id == (start + runId) + ['-'] + p && b.id == (start + otherRun) + ['-'] + q;
      SplitsAtLast('-', start + runId, p, start + otherRun, q);
      assert (start + runId)[|start|..] == runId && (start + otherRun)[|start|..] == otherRun;
    } else {
      assert a.metadata[COMPACTION_KEY] == runId + ['/'] + p && b.metadata[COMPACTION_KEY] == otherRun + ['/'] + q;
      SplitsAtLast('/', runId, p, otherRun, q);
    }
    NumeralInjective(turnId, otherTurn, 10);
  }
}
