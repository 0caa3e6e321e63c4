/**
 Reasoning in chat-completions streams: chunks carry either the next piece of a value or the whole
 value so far; the state merges them, and emits what the rendered text gained.
 */
module ChatReasoning {
  import opened Wrappers

  datatype Json =
    | Null
    | Bool(flag: bool)
    | Num(number: nat)
    | OtherNumber(text: string)
    | Str(text: string)
    | Arr(items: seq<Json>)
    | Obj(fields: map<string, Json>)
  {
    function Field(key: string): Option<Json> {
      if Obj? && key in fields then Some(fields[key]) else None
    }

    function Text(key: string): Option<string> {
      match Field(key)
      case Some(Str(text)) => Some(text)
      case _ => None
    }
  }

  datatype ReasoningField = ReasoningContent | Reasoning | ReasoningText | ReasoningDetails

  // ---------------------------------------------------------------------------------------------
  // Merging
  // ---------------------------------------------------------------------------------------------

  /** A cumulative text or list replaces what it starts with, any other is appended. */
  function MergeCumulative<T(==)>(existing: seq<T>, incoming: seq<T>): (merged: seq<T>)
    ensures existing <= merged
  {
    if existing <= incoming then incoming else existing + incoming
  }

  function MergeField(key: string, previous: Option<Json>, value: Json): Json {
    match (previous, value)
    case (Some(Str(before)), Str(text)) =>
      if key == "text" || key == "data" || key == "summary" then Str(MergeCumulative(before, text)) else value
    case (Some(Arr(before)), Arr(items)) =>
      if key == "summary" then Arr(MergeCumulative(before, items)) else value
    case _ => value
  }

  function Lookup(fields: map<string, Json>, key: string): Option<Json> {
    if key in fields then Some(fields[key]) else None
  }

  /** The fields of `incoming` named in `keys` merged into `existing`. */
  function MergeFields(existing: map<string, Json>, incoming: map<string, Json>, keys: set<string>)
    : map<string, Json>
    requires keys <= incoming.Keys
  {
    map key | key in existing.Keys + keys ::
      if key in keys then MergeField(key, Lookup(existing, key), incoming[key]) else existing[key]
  }

  function MergeDetail(existing: map<string, Json>, incoming: map<string, Json>): map<string, Json> {
    MergeFields(existing, incoming, incoming.Keys)
  }

  lemma MergeOneField(existing: map<string, Json>, incoming: map<string, Json>, keys: set<string>, key: string)
    requires keys <= incoming.Keys && key in incoming && key !in keys
    ensures var merged := MergeFields(existing, incoming, keys);
            MergeFields(existing, incoming, keys + {key})
              == merged[key := MergeField(key, Lookup(merged, key), incoming[key])]
  {
    hide MergeField;
  }

  method MergeDetailLoop(existing: map<string, Json>, incoming: map<string, Json>)
    returns (merged: map<string, Json>)
    ensures merged == MergeDetail(existing, incoming)
  {
    hide MergeField;
    merged := existing;
    var rest := incoming.Keys;
    ghost var done: set<string> := {};
    assert merged == MergeFields(existing, incoming, done);
    while rest != {}
      invariant done <= incoming.Keys && rest == incoming.Keys - done
      invariant merged == MergeFields(existing, incoming, done)
      decreases rest
    {
      hide MergeFields;
      var key :| key in rest;
      MergeOneField(existing, incoming, done, key);
      merged := merged[key := MergeField(key, Lookup(merged, key), incoming[key])];
      rest := rest - {key};
      done := done + {key};
    }
    assert done == incoming.Keys;
  }

  predicate SameIndex(detail: Json, index: Json) {
    detail.Field("index") == Some(index)
  }

  predicate SameId(detail: Json, id: string) {
    detail.Text("id") == Some(id)
  }

  function FindFirst(details: seq<Json>, p: Json -> bool, from: nat): (r: Option<nat>)
    requires from <= |details|
    ensures r.Some? ==> from <= r.value < |details| && p(details[r.value])
    ensures r.Some? ==> forall i :: from <= i < r.value ==> !p(details[i])
    ensures r.None? ==> forall i :: from <= i < |details| ==> !p(details[i])
    decreases |details| - from
  {
    if from == |details| then None
    else if p(details[from]) then Some(from) else FindFirst(details, p, from + 1)
  }

  /** The entry an update belongs to: the one with its index, or else the one with its id. */
  function FindDetail(details: seq<Json>, needle: Json): (r: Option<nat>)
    ensures r.Some? ==> r.value < |details|
  {
    var byIndex := match needle.Field("index")
      case Some(Num(n)) => FindFirst(details, (d: Json) => SameIndex(d, Num(n)), 0)
      case _ => None;
    if byIndex.Some? then byIndex
    else match needle.Text("id")
      case Some(id) => FindFirst(details, (d: Json) => SameId(d, id), 0)
      case None => None
  }

  function FieldsOf(value: Json): map<string, Json> {
    if value.Obj? then value.fields else map[]
  }

  /** One update of the list: into the entry it belongs to, or as a new entry at the end. */
  function MergeOne(details: seq<Json>, update: Json): seq<Json> {
    if !update.Obj? then details
    else match FindDetail(details, update)
      case Some(i) => details[i := Obj(MergeDetail(FieldsOf(details[i]), update.fields))]
      case None => details + [update]
  }

  function MergeDetails(existing: seq<Json>, incoming: seq<Json>): seq<Json>
    decreases |incoming|
  {
    if incoming == [] then existing else MergeDetails(MergeOne(existing, incoming[0]), incoming[1..])
  }

  method MergeDetailsLoop(existing: seq<Json>, incoming: seq<Json>) returns (merged: seq<Json>)
    ensures merged == MergeDetails(existing, incoming)
  {
    merged := existing;
    for i := 0 to |incoming|
      invariant MergeDetails(existing, incoming) == MergeDetails(merged, incoming[i..])
    {
      assert incoming[i..][1..] == incoming[i + 1..];
      if incoming[i].Obj? {
        var index := FindDetail(merged, incoming[i]);
        if index.Some? {
          var detail := MergeDetailLoop(FieldsOf(merged[index.value]), incoming[i].fields);
          merged := merged[index.value := Obj(detail)];
        } else {
          merged := merged + [incoming[i]];
        }
      }
    }
  }

  function MergeValue(field: ReasoningField, existing: Json, incoming: Json): Json {
    match (existing, incoming)
    case (Obj(before), Obj(fields)) => Obj(MergeDetail(before, fields))
    case (Str(before), Str(text)) => if field.ReasoningDetails? then incoming else Str(MergeCumulative(before, text))
    case (Arr(before), Arr(items)) => if field.ReasoningDetails? then Arr(MergeDetails(before, items)) else incoming
    case _ => incoming
  }

  // What merging comes to

  /** A text or list that goes on from the one before replaces it; any other is put behind it. */
  function GoneOn<T(==)>(before: seq<T>, next: seq<T>): seq<T> {
    if |before| <= |next| && next[..|before|] == before then next else before + next
  }

  lemma CumulativeIsGoneOn<T>(before: seq<T>, next: seq<T>)
    ensures MergeCumulative(before, next) == GoneOn(before, next)
  {
  }

  /** The field of a merged entry. */
  function FieldMerged(key: string, before: Option<Json>, next: Option<Json>): Option<Json> {
    match (before, next)
    case (_, None) => before
    case (Some(Str(b)), Some(Str(n))) => if key in {"text", "data", "summary"} then Some(Str(GoneOn(b, n))) else next
    case (Some(Arr(b)), Some(Arr(n))) => if key == "summary" then Some(Arr(GoneOn(b, n))) else next
    case _ => next
  }

  /** An update goes on with texts, data and summaries, replaces the other fields it has, and leaves the rest. */
  lemma MergedFieldIs(existing: map<string, Json>, incoming: map<string, Json>, key: string)
    ensures Obj(MergeDetail(existing, incoming)).Field(key)
         == FieldMerged(key, Obj(existing).Field(key), Obj(incoming).Field(key))
  {
    match (Obj(existing).Field(key), Obj(incoming).Field(key))
    case (Some(Str(b)), Some(Str(n))) => CumulativeIsGoneOn(b, n);
    case (Some(Arr(b)), Some(Arr(n))) => CumulativeIsGoneOn(b, n);
    case _ =>
  }

  /** Entry `i` is the first one for which `p` holds. */
  predicate IsFirst(details: seq<Json>, p: Json -> bool, i: nat) {
    i < |details| && p(details[i]) && forall j :: 0 <= j < i ==> !p(details[j])
  }

  predicate HasIndex(detail: Json, index: nat) {
    detail.Obj? && "index" in detail.fields && detail.fields["index"] == Num(index)
  }

  predicate HasId(detail: Json, id: string) {
    detail.Obj? && "id" in detail.fields && detail.fields["id"] == Str(id)
  }

  /** The update has this number as its index, and some entry has it, too. */
  predicate IsIndexed(details: seq<Json>, update: Json, index: nat) {
    HasIndex(update, index) && exists j :: 0 <= j < |details| && HasIndex(details[j], index)
  }

  /** An update belongs to the first entry with its number, or else to the first with its id. */
  lemma FindDetailIff(details: seq<Json>, update: Json, i: nat)
    ensures FindDetail(details, update) == Some(i) <==>
              || (exists n :: IsIndexed(details, update, n) && IsFirst(details, d => HasIndex(d, n), i))
              || ((forall n :: !IsIndexed(details, update, n))
                  && exists id :: HasId(update, id) && IsFirst(details, d => HasId(d, id), i))
  {
    forall n, d: Json
      ensures SameIndex(d, Num(n)) <==> HasIndex(d, n)
    {
    }
    forall id, d: Json
      ensures SameId(d, id) <==> HasId(d, id)
    {
    }
    IndexedIff(details, update);
    IdIff(update);
    if n :| IsIndexed(details, update, n) {
      FirstIs(details, d => SameIndex(d, Num(n)), d => HasIndex(d, n), i);
    } else if id :| HasId(update, id) {
      FirstIs(details, d => SameId(d, id), d => HasId(d, id), i);
    }
  }

  lemma IndexedIff(details: seq<Json>, update: Json)
    ensures forall n :: HasIndex(update, n) <==> update.Field("index") == Some(Num(n))
    ensures forall n :: IsIndexed(details, update, n) <==>
              update.Field("index") == Some(Num(n)) && FindFirst(details, (d: Json) => SameIndex(d, Num(n)), 0).Some?
  {
    forall n
      ensures IsIndexed(details, update, n) <==>
                update.Field("index") == Some(Num(n)) && FindFirst(details, (d: Json) => SameIndex(d, Num(n)), 0).Some?
    {
      assert forall d: Json :: SameIndex(d, Num(n)) <==> HasIndex(d, n);
    }
  }

  lemma IdIff(update: Json)
    ensures forall id :: HasId(update, id) <==> update.Text("id") == Some(id)
  {
  }

  lemma FirstIs(details: seq<Json>, p: Json -> bool, q: Json -> bool, i: nat)
    requires forall d :: p(d) <==> q(d)
    ensures FindFirst(details, p, 0) == Some(i) <==> IsFirst(details, q, i)
  {
  }

  /** An update changes only the entry it belongs to, or adds one at the end; what is no object adds nothing. */
  lemma MergeOneIs(details: seq<Json>, update: Json)
    ensures var merged := MergeOne(details, update);
            if !update.Obj? then merged == details
            else if FindDetail(details, update).None? then merged == details + [update]
            else
              var i := FindDetail(details, update).value;
              && |merged| == |details| && (forall j :: 0 <= j < |details| && j != i ==> merged[j] == details[j])
              && merged[i].Obj?
              && forall key :: merged[i].Field(key) == FieldMerged(key, details[i].Field(key), update.Field(key))
  {
    if update.Obj? && FindDetail(details, update).Some? {
      var i := FindDetail(details, update).value;
      forall key
        ensures MergeOne(details, update)[i].Field(key) == FieldMerged(key, details[i].Field(key), update.Field(key))
      {
        MergedFieldIs(FieldsOf(details[i]), update.fields, key);
      }
    }
  }

  /** Later updates come after earlier ones. */
  lemma {:induction false} MergeDetailsOneMore(details: seq<Json>, updates: seq<Json>, update: Json)
    ensures MergeDetails(details, []) == details
    ensures MergeDetails(details, updates + [update]) == MergeOne(MergeDetails(details, updates), update)
    decreases |updates|
  {
    hide MergeOne;
    if updates == [] {
      assert updates + [update] == [update] && [update][1..] == [];
    } else {
      assert (updates + [update])[1..] == updates[1..] + [update];
      MergeDetailsOneMore(MergeOne(details, updates[0]), updates[1..], update);
    }
  }

  /** Texts go on in the text fields, lists of details and objects are merged, any other value replaces the one before. */
  lemma MergeValueIs(field: ReasoningField, existing: Json, incoming: Json)
    ensures existing.Str? && incoming.Str? && field != ReasoningDetails ==>
              MergeValue(field, existing, incoming) == Str(GoneOn(existing.text, incoming.text))
    ensures existing.Arr? && incoming.Arr? && field == ReasoningDetails ==>
              MergeValue(field, existing, incoming) == Arr(MergeDetails(existing.items, incoming.items))
    ensures existing.Obj? && incoming.Obj? ==>
              MergeValue(field, existing, incoming) == Obj(MergeDetail(existing.fields, incoming.fields))
    ensures !(existing.Str? && incoming.Str? && field != ReasoningDetails)
            && !(existing.Arr? && incoming.Arr? && field == ReasoningDetails) && !(existing.Obj? && incoming.Obj?) ==>
              MergeValue(field, existing, incoming) == incoming
  {
    if existing.Str? && incoming.Str? {
      CumulativeIsGoneOn(existing.text, incoming.text);
    }
    hide MergeDetails, MergeDetail, GoneOn, MergeCumulative;
  }

  // ---------------------------------------------------------------------------------------------
  // Rendering
  // ---------------------------------------------------------------------------------------------

  const BREAK: string := "\n\n"

  function JoinParts(parts: seq<string>): string {
    if |parts| == 0 then ""
    else if |parts| == 1 then parts[0]
    else JoinParts(parts[..|parts| - 1]) + BREAK + parts[|parts| - 1]
  }

  function NonEmptyParts(parts: seq<string>): seq<string> {
    if parts == [] then []
    else NonEmptyParts(parts[..|parts| - 1]) + if parts[|parts| - 1] == "" then [] else [parts[|parts| - 1]]
  }

  function SummaryTexts(parts: seq<Json>): seq<string> {
    if parts == [] then []
    else SummaryTexts(parts[..|parts| - 1]) + [parts[|parts| - 1].Text("text").GetOr("")]
  }

  function DetailText(detail: Json): string {
    match detail.Text("text")
    case Some(text) => text
    case None =>
      match detail.Field("summary")
      case Some(Str(summary)) => summary
      case Some(Arr(parts)) => JoinParts(NonEmptyParts(SummaryTexts(parts)))
      case _ => ""
  }

  function DetailTexts(details: seq<Json>): (texts: seq<string>)
    ensures |texts| == |details|
    ensures forall i :: 0 <= i < |details| ==> texts[i] == if details[i].Obj? then DetailText(details[i]) else ""
  {
    seq(|details|, i requires 0 <= i < |details| => if details[i].Obj? then DetailText(details[i]) else "")
  }

  function Render(value: Json): string {
    match value
    case Str(text) => text
    case Obj(_) => DetailText(value)
    case Arr(details) => JoinParts(NonEmptyParts(DetailTexts(details)))
    case _ => ""
  }

  function DeltaFromCumulative(previous: string, current: string): string {
    if previous <= current then current[|previous|..] else current
  }

  // ---------------------------------------------------------------------------------------------
  // The replay state of one field
  // ---------------------------------------------------------------------------------------------

  datatype Replay = Replay(value: Json, rendered: string)

  const FRESH: Replay := Replay(Null, "")

  /** The state after one more value, and the text it adds. */
  function Advance(field: ReasoningField, r: Replay, incoming: Json): (Replay, string) {
    var value := MergeValue(field, r.value, incoming);
    (Replay(value, Render(value)), DeltaFromCumulative(r.rendered, Render(value)))
  }

  function After(field: ReasoningField, values: seq<Json>): Replay {
    if values == [] then FRESH
    else Advance(field, After(field, values[..|values| - 1]), values[|values| - 1]).0
  }

  /** All text emitted for a field, put together. */
  function Emitted(field: ReasoningField, values: seq<Json>): string {
    if values == [] then ""
    else
      var before := values[..|values| - 1];
      Emitted(field, before) + Advance(field, After(field, before), values[|values| - 1]).1
  }

  /** The `n`-th value only adds to the rendered text. */
  predicate OnlyAdds(field: ReasoningField, values: seq<Json>, n: nat)
    requires n < |values|
  {
    After(field, values[..n]).rendered <= After(field, values[..n + 1]).rendered
  }

  predicate AlwaysAdds(field: ReasoningField, values: seq<Json>) {
    forall n :: 0 <= n < |values| ==> OnlyAdds(field, values, n)
  }

  lemma AlwaysAddsFrom(field: ReasoningField, values: seq<Json>)
    requires values != []
    ensures var before := values[..|values| - 1];
            AlwaysAdds(field, values) <==>
              AlwaysAdds(field, before) && After(field, before).rendered <= After(field, values).rendered
  {
    var n := |values| - 1;
    hide After;
    assert forall i :: 0 <= i <= n ==> values[..n][..i] == values[..i];
    assert values[..n + 1] == values;
    assert forall i :: 0 <= i < n ==> (OnlyAdds(field, values[..n], i) <==> OnlyAdds(field, values, i));
    assert OnlyAdds(field, values, n) <==> After(field, values[..n]).rendered <= After(field, values).rendered;
  }

  /**
   The emitted text put together is the rendered value exactly when every value only added to it.
   Once a value changed what was shown before, the two never agree again.
   */
  lemma {:induction false} EmittedIsRenderedIff(field: ReasoningField, values: seq<Json>)
    ensures Emitted(field, values) == After(field, values).rendered <==> AlwaysAdds(field, values)
    ensures |Emitted(field, values)| >= |After(field, values).rendered|
  {
    if values != [] {
      var before := values[..|values| - 1];
      EmittedIsRenderedIff(field, before);
      AlwaysAddsFrom(field, values);
      EmitOneMore(Emitted(field, before), After(field, before).rendered, After(field, values).rendered);
    }
  }

  lemma EmitOneMore(emitted: string, previous: string, current: string)
    requires |emitted| >= |previous|
    ensures var now := emitted + DeltaFromCumulative(previous, current);
            && |now| >= |current|
            && (now == current <==> emitted == previous && previous <= current)
  {
    var now := emitted + DeltaFromCumulative(previous, current);
    if previous <= current {
      assert current == previous + current[|previous|..];
      if now == current {
        assert |emitted| == |previous|;
        assert now[..|emitted|] == emitted && current[..|previous|] == previous;
      }
    }
  }

  // ---------------------------------------------------------------------------------------------
  // Streams that always add
  // ---------------------------------------------------------------------------------------------

  lemma AfterOneMore(field: ReasoningField, values: seq<Json>, n: nat)
    requires n < |values|
    ensures After(field, values[..n + 1]) == Advance(field, After(field, values[..n]), values[n]).0
  {
    assert values[..n + 1][..n] == values[..n];
  }

  lemma {:induction false} StringsStayStrings(field: ReasoningField, values: seq<Json>)
    requires !field.ReasoningDetails? && forall i :: 0 <= i < |values| ==> values[i].Str?
    ensures var r := After(field, values);
            if values == [] then r == FRESH else r.value.Str? && r.rendered == r.value.text
  {
    if values != [] {
      StringsStayStrings(field, values[..|values| - 1]);
    }
  }

  lemma StringOnlyAdds(field: ReasoningField, r: Replay, text: string)
    requires !field.ReasoningDetails? && (r == FRESH || (r.value.Str? && r.rendered == r.value.text))
    ensures r.rendered <= Advance(field, r, Str(text)).0.rendered
  {
    if r.value.Str? && !(r.value.text <= text) {
      assert r.value.text <= r.value.text + text;
    }
  }

  /** String fields: any mix of pieces and cumulative texts is emitted exactly as accumulated. */
  lemma StringFieldsAreEmittedWhole(field: ReasoningField, values: seq<Json>)
    requires !field.ReasoningDetails? && forall i :: 0 <= i < |values| ==> values[i].Str?
    ensures Emitted(field, values) == After(field, values).rendered
    ensures values != [] ==> After(field, values).value == Str(Emitted(field, values))
  {
    forall n | 0 <= n < |values|
      ensures OnlyAdds(field, values, n)
    {
      AfterOneMore(field, values, n);
      StringsStayStrings(field, values[..n]);
      StringOnlyAdds(field, After(field, values[..n]), values[n].text);
      hide After, Advance;
    }
    EmittedIsRenderedIff(field, values);
    StringsStayStrings(field, values);
    hide After, Emitted, OnlyAdds, Advance;
  }

  /** The pieces put together. */
  function PiecesJoined(pieces: seq<string>): string {
    if pieces == [] then "" else PiecesJoined(pieces[..|pieces| - 1]) + pieces[|pieces| - 1]
  }

  function Strings(texts: seq<string>): (values: seq<Json>)
    ensures |values| == |texts| && forall i :: 0 <= i < |values| ==> values[i] == Str(texts[i])
  {
    seq(|texts|, i requires 0 <= i < |texts| => Str(texts[i]))
  }

  lemma FirstText(field: ReasoningField, text: string)
    requires !field.ReasoningDetails?
    ensures After(field, Strings([text])).value == Str(text)
  {
    var values := Strings([text]);
    assert values[..0] == [] && values[0] == Str(text);
  }

  lemma OneMoreText(field: ReasoningField, texts: seq<string>, before: string)
    requires !field.ReasoningDetails? && texts != []
    requires After(field, Strings(texts[..|texts| - 1])).value == Str(before)
    ensures After(field, Strings(texts)).value == Str(GoneOn(before, texts[|texts| - 1]))
  {
    hide Render, MergeValue, GoneOn;
    var n := |texts| - 1;
    assert Strings(texts)[..n] == Strings(texts[..n]) && Strings(texts)[n] == Str(texts[n]);
    MergeValueIs(field, Str(before), Str(texts[n]));
  }

  /** Pieces, none of which goes on from all before it, add up to their concatenation. */
  lemma {:induction false} PiecesAddUp(field: ReasoningField, pieces: seq<string>)
    requires !field.ReasoningDetails? && pieces != []
    requires forall n :: 0 < n < |pieces| ==> !(PiecesJoined(pieces[..n]) <= pieces[n])
    ensures After(field, Strings(pieces)).value == Str(PiecesJoined(pieces))
  {
    hide After;
    var n := |pieces| - 1;
    if n == 0 {
      assert pieces == [pieces[0]] && PiecesJoined(pieces) == pieces[0];
      FirstText(field, pieces[0]);
    } else {
      assert forall i :: 0 <= i <= n ==> pieces[..n][..i] == pieces[..i];
      PiecesAddUp(field, pieces[..n]);
      OneMoreText(field, pieces, PiecesJoined(pieces[..n]));
    }
  }

  /** Texts that each go on from the one before end up as the last one. */
  lemma {:induction false} LastTextStands(field: ReasoningField, texts: seq<string>)
    requires !field.ReasoningDetails? && texts != []
    requires forall n :: 0 < n < |texts| ==> texts[n - 1] <= texts[n]
    ensures After(field, Strings(texts)).value == Str(texts[|texts| - 1])
  {
    hide After;
    var n := |texts| - 1;
    if n == 0 {
      assert texts == [texts[0]];
      FirstText(field, texts[0]);
    } else {
      LastTextStands(field, texts[..n]);
      OneMoreText(field, texts, texts[n - 1]);
    }
  }

  /** An entry shows its text, or else its summary, or else the texts of its summary's parts, set apart by blank lines. */
  lemma DetailTextIs(detail: Json)
    ensures match detail.Field("text")
            case Some(Str(text)) => DetailText(detail) == text
            case _ =>
              match detail.Field("summary")
              case Some(Str(summary)) => DetailText(detail) == summary
              case Some(Arr(parts)) => DetailText(detail) == JoinParts(NonEmptyParts(SummaryTexts(parts)))
              case _ => DetailText(detail) == ""
  {
  }

  lemma SummaryTextsOneMore(parts: seq<Json>, part: Json)
    ensures SummaryTexts(parts + [part])
         == SummaryTexts(parts) + [match part.Field("text") case Some(Str(text)) => text case _ => ""]
  {
    assert (parts + [part])[..|parts|] == parts;
  }

  /** An entry whose text is a string, updated by one that has a string text or none. */
  predicate IsTextUpdate(entry: Json, update: Json) {
    entry.Text("text").Some? && (update.Field("text").Some? ==> update.Text("text").Some?)
  }

  /** The update belongs to the last entry, which is a text entry, or to none. */
  predicate UpdatesEnd(details: seq<Json>, update: Json) {
    update.Obj? ==>
      match FindDetail(details, update)
      case None => true
      case Some(i) => i == |details| - 1 && IsTextUpdate(details[i], update)
  }

  predicate AllUpdateEnd(details: seq<Json>, updates: seq<Json>)
    decreases |updates|
  {
    updates == [] || (UpdatesEnd(details, updates[0]) && AllUpdateEnd(MergeOne(details, updates[0]), updates[1..]))
  }

  lemma JoinGrows(parts: seq<string>, part: string)
    ensures JoinParts(NonEmptyParts(parts)) <= JoinParts(NonEmptyParts(parts + [part]))
    ensures JoinParts(NonEmptyParts(parts + [part]))
         == if part == "" then JoinParts(NonEmptyParts(parts))
            else if NonEmptyParts(parts) == [] then part
            else JoinParts(NonEmptyParts(parts)) + "\n\n" + part
  {
    var all := parts + [part];
    assert all[..|all| - 1] == parts;
    var kept := NonEmptyParts(parts);
    if part == "" {
      assert kept + [] == kept;
    } else {
      var longer := kept + [part];
      assert NonEmptyParts(all) == longer;
      assert longer[..|longer| - 1] == kept && longer[|longer| - 1] == part;
    }
  }

  lemma LongerLastPart(parts: seq<string>, part: string, longer: string)
    requires part <= longer
    ensures JoinParts(NonEmptyParts(parts + [part])) <= JoinParts(NonEmptyParts(parts + [longer]))
  {
    JoinGrows(parts, part);
    JoinGrows(parts, longer);
    var before := JoinParts(NonEmptyParts(parts)) + BREAK;
    if part != "" {
      assert (before + longer)[..|before + part|] == before + part;
    }
  }

  lemma NewDetailExtends(details: seq<Json>, update: Json)
    requires update.Obj?
    ensures Render(Arr(details)) <= Render(Arr(details + [update]))
  {
    assert DetailTexts(details + [update]) == DetailTexts(details) + [DetailText(update)];
    JoinGrows(DetailTexts(details), DetailText(update));
    hide JoinParts, NonEmptyParts, DetailText;
  }

  lemma LastDetailExtends(details: seq<Json>, last: Json)
    requires details != [] && last.Obj?
    requires DetailTexts(details)[|details| - 1] <= DetailText(last)
    ensures Render(Arr(details)) <= Render(Arr(details[|details| - 1 := last]))
  {
    hide JoinParts, NonEmptyParts, DetailText;
    var n := |details| - 1;
    var texts, before := DetailTexts(details), DetailTexts(details)[..n];
    assert texts == before + [texts[n]];
    assert DetailTexts(details[n := last]) == before + [DetailText(last)];
    LongerLastPart(before, texts[n], DetailText(last));
  }

  /** A text entry, updated by a text or none, has the same text or a longer one. */
  lemma MergedTextExtends(entry: Json, update: Json)
    requires IsTextUpdate(entry, update) && update.Obj?
    ensures entry.Obj? && DetailText(entry) <= DetailText(Obj(MergeDetail(FieldsOf(entry), update.fields)))
  {
    var merged := Obj(MergeDetail(FieldsOf(entry), update.fields));
    var text := entry.Text("text").value;
    assert DetailText(entry) == text;
    if "text" in update.fields {
      assert merged.fields["text"] == MergeField("text", Some(Str(text)), update.fields["text"]);
    } else {
      assert merged.fields["text"] == Str(text);
    }
    hide MergeDetail, FieldsOf;
  }

  lemma UpdateExtends(details: seq<Json>, update: Json)
    requires UpdatesEnd(details, update)
    ensures Render(Arr(details)) <= Render(Arr(MergeOne(details, update)))
  {
    hide Render, FindDetail, DetailText, MergeDetail, IsTextUpdate;
    if update.Obj? {
      match FindDetail(details, update) {
        case None => NewDetailExtends(details, update);
        case Some(i) =>
          MergedTextExtends(details[i], update);
          LastDetailExtends(details, MergeOne(details, update)[i]);
      }
    }
  }

  lemma {:induction false} UpdatesExtend(details: seq<Json>, updates: seq<Json>)
    requires AllUpdateEnd(details, updates)
    ensures Render(Arr(details)) <= Render(Arr(MergeDetails(details, updates)))
    decreases |updates|
  {
    if updates != [] {
      UpdateExtends(details, updates[0]);
      UpdatesExtend(MergeOne(details, updates[0]), updates[1..]);
    }
  }

  /** Every value is a list whose updates go to the end of what is there. */
  ghost predicate GrowsAtEnd(values: seq<Json>) {
    forall n :: 0 <= n < |values| ==>
      && values[n].Arr?
      && var before := After(ReasoningDetails, values[..n]).value;
         before.Arr? ==> AllUpdateEnd(before.items, values[n].items)
  }

  lemma {:induction false} ListsStayLists(values: seq<Json>)
    requires forall i :: 0 <= i < |values| ==> values[i].Arr?
    ensures var r := After(ReasoningDetails, values);
            r.rendered == Render(r.value) && (if values == [] then r == FRESH else r.value.Arr?)
  {
    if values != [] {
      ListsStayLists(values[..|values| - 1]);
    }
  }

  lemma ListOnlyAdds(r: Replay, items: seq<Json>)
    requires r.rendered == Render(r.value)
    requires r == FRESH || (r.value.Arr? && AllUpdateEnd(r.value.items, items))
    ensures r.rendered <= Advance(ReasoningDetails, r, Arr(items)).0.rendered
  {
    if r.value.Arr? {
      UpdatesExtend(r.value.items, items);
      hide Render, MergeDetails;
    }
  }

  lemma GrowthOnlyAdds(values: seq<Json>, n: nat)
    requires GrowsAtEnd(values) && n < |values|
    ensures OnlyAdds(ReasoningDetails, values, n)
  {
    AfterOneMore(ReasoningDetails, values, n);
    ListsStayLists(values[..n]);
    hide After, Render, Advance;
    ListOnlyAdds(After(ReasoningDetails, values[..n]), values[n].items);
  }

  /** Lists of details that grow at the end are emitted exactly as rendered. */
  lemma GrowingDetailsAreEmittedWhole(values: seq<Json>)
    requires GrowsAtEnd(values)
    ensures Emitted(ReasoningDetails, values) == After(ReasoningDetails, values).rendered
  {
    hide GrowsAtEnd, OnlyAdds, After, Emitted;
    forall n | 0 <= n < |values|
      ensures OnlyAdds(ReasoningDetails, values, n)
    {
      GrowthOnlyAdds(values, n);
    }
    EmittedIsRenderedIff(ReasoningDetails, values);
  }

  function Entry(index: nat, text: string): Json {
    Obj(map["index" := Num(index), "text" := Str(text)])
  }

  lemma EntryMerges(index: nat, x: string, y: string)
    ensures MergeDetail(Entry(index, x).fields, Entry(index, y).fields) == Entry(index, MergeCumulative(x, y)).fields
  {
    hide MergeCumulative;
    var merged := MergeDetail(Entry(index, x).fields, Entry(index, y).fields);
    assert merged.Keys == {"index", "text"};
    assert merged["text"] == MergeField("text", Some(Str(x)), Str(y));
    assert merged["index"] == MergeField("index", Some(Num(index)), Num(index));
  }

  lemma EarlierEntryMerges()
    ensures MergeDetails([Entry(0, "a"), Entry(1, "b")], [Entry(0, "c")]) == [Entry(0, "ac"), Entry(1, "b")]
  {
    var a, b, c := Entry(0, "a"), Entry(1, "b"), Entry(0, "c");
    EntryMerges(0, "a", "c");
    assert MergeCumulative("a", "c") == "ac" by {
      assert "a"[0] != "c"[0] && "a" + "c" == "ac";
    }
    assert FindDetail([a, b], c) == Some(0);
    hide MergeDetail, FindDetail, MergeCumulative;
    var merged := MergeOne([a, b], c);
    assert merged == [a, b][0 := Entry(0, "ac")];
    assert merged == [Entry(0, "ac"), b];
    var rest := [c][1..];
    assert rest == [] && MergeDetails(merged, rest) == merged;
  }

  lemma TwoEntriesRender(x: string, y: string)
    requires x != "" && y != ""
    ensures Render(Arr([Entry(0, x), Entry(1, y)])) == x + BREAK + y
  {
    assert DetailTexts([Entry(0, x), Entry(1, y)]) == [x] + [y];
    JoinGrows([], x);
    JoinGrows([x], y);
    assert [] + [x] == [x];
  }

  lemma NotAPrefix(x: string, y: string)
    requires |x| > 1 && |y| > 1 && x[1] != y[1]
    ensures !(x <= y)
  {
  }

  lemma SecondValueAdds(field: ReasoningField, first: Json, second: Json)
    ensures var r := Advance(field, FRESH, first).0;
            Emitted(field, [first, second]) == Advance(field, r, second).0.rendered ==>
              r.rendered <= Advance(field, r, second).0.rendered
  {
    var values := [first, second];
    assert values[..1] == [first] && [first][..0] == [] && values[..2] == values;
    hide MergeValue, Render;
    EmittedIsRenderedIff(field, values);
    AlwaysAddsFrom(field, values);
  }

  lemma ChangedTextIsEmittedAgain(first: Json, second: Json, merged: Json)
    requires MergeValue(ReasoningDetails, Null, first) == first
    requires MergeValue(ReasoningDetails, first, second) == merged
    requires !(Render(first) <= Render(merged))
    ensures var shown := Advance(ReasoningDetails, FRESH, first).0;
            Emitted(ReasoningDetails, [first, second]) != Advance(ReasoningDetails, shown, second).0.rendered
  {
    hide MergeValue, Render, Emitted;
    SecondValueAdds(ReasoningDetails, first, second);
  }

  lemma ShownThenChanged()
    ensures !(Render(Arr([Entry(0, "a"), Entry(1, "b")])) <= Render(Arr([Entry(0, "ac"), Entry(1, "b")])))
  {
    TwoEntriesRender("a", "b");
    TwoEntriesRender("ac", "b");
    hide Render, Entry;
    NotAPrefix("a" + BREAK + "b", "ac" + BREAK + "b");
  }

  /** An update of an earlier entry changes text already shown: everything is emitted again. */
  lemma EarlierEntryIsEmittedAgain()
    ensures var first := Arr([Entry(0, "a"), Entry(1, "b")]);
            var second := Arr([Entry(0, "c")]);
            var shown := Advance(ReasoningDetails, FRESH, first).0;
            Emitted(ReasoningDetails, [first, second]) != Advance(ReasoningDetails, shown, second).0.rendered
  {
    EarlierEntryMerges();
    ShownThenChanged();
    hide Render, MergeDetails, Entry, Emitted, Advance;
    ChangedTextIsEmittedAgain(Arr([Entry(0, "a"), Entry(1, "b")]), Arr([Entry(0, "c")]),
                              Arr([Entry(0, "ac"), Entry(1, "b")]));
  }
}
