/**
 The codec between canonical tool names and the aliases a model provider accepts.

 A provider allows 64 characters of [A-Za-z0-9_-].  Names that collide after the offending characters
 are replaced get a hash suffix, and names that still collide get a counter.
 The hash is a parameter: nothing below depends on it beyond its being a function of the name.
 */
module ToolNames {
  import opened Wrappers
  import opened Text
  import opened Messages

  const MAX_NAME_LENGTH: nat := 64
  const U32: nat := 0x1_0000_0000

  type Hash = string -> nat

  predicate IsSafeChar(c: char) {
    'a' <= c <= 'z' || 'A' <= c <= 'Z' || '0' <= c <= '9' || c == '_' || c == '-'
  }

  predicate AllSafe(s: string) {
    forall i :: 0 <= i < |s| ==> IsSafeChar(s[i])
  }

  predicate IsProviderName(s: string) {
    0 < |s| <= MAX_NAME_LENGTH && AllSafe(s)
  }

  /** The ASCII codes of the digits, the letters, the underscore and the hyphen. */
  lemma SafeCharacters(c: char)
    ensures var n := c as int;
            IsSafeChar(c) <==> 48 <= n <= 57 || 65 <= n <= 90 || 97 <= n <= 122 || n == 95 || n == 45
  {
  }

  /** Every character the provider does not allow becomes an underscore, the others stay. */
  function ReplaceUnsafe(s: string): (r: string)
    ensures AllSafe(r) && |r| == |s|
    ensures forall i :: 0 <= i < |s| ==> r[i] == if IsSafeChar(s[i]) then s[i] else '_'
  {
    if s == [] then [] else [if IsSafeChar(s[0]) then s[0] else '_'] + ReplaceUnsafe(s[1..])
  }

  function ProviderSafeBase(canonical: string): (base: string)
    ensures AllSafe(base) && base != []
    ensures canonical == [] ==> base == "tool"
    ensures canonical != [] ==> |base| == |canonical|
  {
    var encoded := ReplaceUnsafe(canonical);
    if encoded == [] then "tool" else encoded
  }

  /** The last `width` hexadecimal digits of a number. */
  function PaddedHex(n: nat, width: nat): (s: string)
    ensures |s| == width && AllSafe(s) && '_' !in s
  {
    if width == 0 then [] else PaddedHex(n / 16, width - 1) + [DigitChar(n % 16)]
  }

  function StableSuffix(hash: Hash, name: string): (s: string)
    ensures |s| == 8 && AllSafe(s)
  {
    PaddedHex(hash(name) % U32, 8)
  }

  lemma {:induction false} NumeralIsSafe(n: nat)
    ensures AllSafe(Numeral(n, 10))
  {
    if n >= 10 {
      NumeralIsSafe(Quotient(n, 10));
    }
  }

  function DecimalCounter(n: nat): (s: string)
    requires n < U32
    ensures 0 < |s| <= 10 && AllSafe(s)
  {
    NumeralFits(n);
    Numeral(n, 10)
  }

  /** The suffix and the counter, which an alias never loses. */
  function Tail(suffix: string, attempt: Option<nat>): string
    requires attempt.Some? ==> attempt.value < U32
  {
    "_" + suffix + if attempt.Some? then "_" + DecimalCounter(attempt.value) else ""
  }

  /** `attempt` is a 32-bit counter, so its numeral has at most ten digits. */
  function SuffixedProviderName(base: string, suffix: string, attempt: Option<nat>): (name: string)
    requires AllSafe(base) && AllSafe(suffix) && |suffix| == 8
    requires attempt.Some? ==> attempt.value < U32
    ensures IsProviderName(name)
  {
    var tail := Tail(suffix, attempt);
    var maxBase := MAX_NAME_LENGTH - |tail|;
    base[..if |base| < maxBase then |base| else maxBase] + tail
  }

  /**
   The alias ends with an underscore, the suffix and, if there is one, another underscore and the number of the
   attempt; it begins with what fits of the base, which is cut only to end up with 64 characters.
   */
  lemma SuffixedNameShape(base: string, suffix: string, attempt: Option<nat>)
    requires AllSafe(base) && AllSafe(suffix) && |suffix| == 8
    requires attempt.Some? ==> attempt.value < U32
    ensures var name := SuffixedProviderName(base, suffix, attempt);
            var end := "_" + suffix + if attempt.Some? then "_" + Numeral(attempt.value, 10) else "";
            && |end| <= |name| && name[|name| - |end|..] == end
            && name[..|name| - |end|] <= base
            && (name == base + end || |name| == 64 < |base + end|)
  {
    var tail := Tail(suffix, attempt);
    assert tail == "_" + suffix + "" || attempt.Some?;
    var kept := base[..if |base| < MAX_NAME_LENGTH - |tail| then |base| else MAX_NAME_LENGTH - |tail|];
    assert SuffixedProviderName(base, suffix, attempt) == kept + tail;
  }

  /** The suffix is the hash in hexadecimal: distinct for different values of its low 32 bits. */
  lemma SuffixIsHash(hash: Hash, name: string)
    ensures ValueOf(StableSuffix(hash, name), 16) == hash(name) % 0x1_0000_0000
  {
    assert Power(16, 4) == 0x1_0000;
    assert Power(16, 8) == 0x1_0000_0000;
    HexReadsBack(hash(name) % U32, 8);
  }

  lemma {:induction false} HexReadsBack(n: nat, width: nat)
    requires n < Power(16, width)
    ensures ValueOf(PaddedHex(n, width), 16) == n
    decreases width
  {
    if width > 0 {
      HexReadsBack(n / 16, width - 1);
      ValueOneMore(PaddedHex(n / 16, width - 1), n % 16, 16);
    }
  }

  lemma NumeralFits(n: nat)
    requires n < U32
    ensures |Numeral(n, 10)| <= 10 && AllSafe(Numeral(n, 10))
  {
    assert Power(10, 5) == 100_000;
    assert Power(10, 10) == 10_000_000_000;
    NumeralLength(n, 10, 10);
    NumeralIsSafe(n);
  }

  // ---------------------------------------------------------------------------------------------
  // The search for an alias that is not in use
  // ---------------------------------------------------------------------------------------------

  /** What the search needs to know about one name. */
  datatype Request = Request(base: string, suffix: string, needsSuffix: bool) {
    predicate Valid() {
      AllSafe(base) && base != [] && AllSafe(suffix) && |suffix| == 8
    }

    /** The k-th alias tried: first the preferred one, then the numbered ones from 2 on. */
    function Candidate(k: nat): (name: string)
      requires Valid() && k < U32 - 1
      ensures IsProviderName(name)
    {
      if k > 0 then SuffixedProviderName(base, suffix, Some(k + 1))
      else if needsSuffix || |base| > MAX_NAME_LENGTH then SuffixedProviderName(base, suffix, None)
      else base
    }
  }

  lemma LastPartIsUnique(x: string, p: string, y: string, q: string)
    requires x + ['_'] + p == y + ['_'] + q && '_' !in p && '_' !in q
    ensures p == q
  {
    var s := x + ['_'] + p;
    assert s == y + ['_'] + q;
    assert s[|x|] == '_' && s[|y|] == '_';
    assert |p| == |q|;
    assert p == s[|x| + 1..] && q == s[|y| + 1..];
  }

  /** Different attempt numbers give different aliases. */
  lemma AttemptsDiffer(r: Request, i: nat, j: nat)
    requires r.Valid() && 0 < i < U32 - 1 && 0 < j < U32 - 1
    requires r.Candidate(i) == r.Candidate(j)
    ensures i == j
  {
    var x, y := r.Candidate(i), r.Candidate(j);
    var p, q := Numeral(i + 1, 10), Numeral(j + 1, 10);
    assert x == x[..|x| - |p| - 1] + ['_'] + p;
    assert y == y[..|y| - |q| - 1] + ['_'] + q;
    LastPartIsUnique(x[..|x| - |p| - 1], p, y[..|y| - |q| - 1], q);
    NumeralInjective(i + 1, j + 1, 10);
  }

  ghost function Numbered(r: Request, n: nat): set<string>
    requires r.Valid() && n < U32 - 1
  {
    set k | 1 <= k <= n :: r.Candidate(k)
  }

  lemma {:induction false} NumberedCount(r: Request, n: nat)
    requires r.Valid() && n < U32 - 1
    ensures |Numbered(r, n)| == n
  {
    hide Request.Candidate;
    if n > 0 {
      NumberedCount(r, n - 1);
      assert Numbered(r, n) == Numbered(r, n - 1) + {r.Candidate(n)};
      if r.Candidate(n) in Numbered(r, n - 1) {
        var k :| 1 <= k <= n - 1 && r.Candidate(k) == r.Candidate(n);
        AttemptsDiffer(r, k, n);
      }
    } else {
      assert Numbered(r, 0) == {};
    }
  }

  ghost predicate Taken(r: Request, used: set<string>, k: nat)
    requires r.Valid() && k < U32 - 1
  {
    forall i :: 0 <= i < k ==> r.Candidate(i) in used
  }

  lemma TakenBound(r: Request, used: set<string>, k: nat)
    requires r.Valid() && k < U32 - 1 && Taken(r, used, k) && k > 0
    ensures k - 1 <= |used|
  {
    NumberedCount(r, k - 1);
    SubsetSize(Numbered(r, k - 1), used);
  }

  lemma {:induction false} SubsetSize<T>(a: set<T>, b: set<T>)
    requires a <= b
    ensures |a| <= |b|
  {
    assert b == a + (b - a);
  }

  /** The first alias not in use, from the k-th on. */
  function FirstFree(r: Request, used: set<string>, k: nat): (free: nat)
    requires r.Valid() && |used| < U32 - 4 && k <= |used| + 1 && Taken(r, used, k)
    ensures k <= free <= |used| + 1 && r.Candidate(free) !in used && Taken(r, used, free)
    decreases |used| + 1 - k
  {
    if r.Candidate(k) !in used then k
    else
      assert Taken(r, used, k + 1);
      TakenBound(r, used, k + 1);
      assert k <= |used|;
      FirstFree(r, used, k + 1)
  }

  function Alias(r: Request, used: set<string>): (name: string)
    requires r.Valid() && |used| < U32 - 4
    ensures IsProviderName(name) && name !in used
  {
    r.Candidate(FirstFree(r, used, 0))
  }

  /** The search; at most one more numbered alias is tried than there are aliases in use. */
  method UniqueProviderName(r: Request, used: set<string>)
    returns (name: string, used': set<string>, tries: nat)
    requires r.Valid() && |used| < U32 - 4
    ensures name == Alias(r, used) && used' == used + {name}
    ensures tries <= |used| + 1
  {
    name := if r.needsSuffix || |r.base| > MAX_NAME_LENGTH
            then SuffixedProviderName(r.base, r.suffix, None) else r.base;
    var attempt := 2;
    tries := 0;
    while name in used
      invariant 2 <= attempt == tries + 2 <= |used| + 3
      invariant Taken(r, used, tries) && name == r.Candidate(tries)
      invariant FirstFree(r, used, 0) == FirstFree(r, used, tries)
      decreases |used| + 1 - tries
    {
      assert Taken(r, used, tries + 1);
      TakenBound(r, used, tries + 1);
      name := SuffixedProviderName(r.base, r.suffix, Some(attempt));
      attempt := attempt + 1;
      tries := tries + 1;
    }
    used' := used + {name};
  }

  // ---------------------------------------------------------------------------------------------
  // The codec
  // ---------------------------------------------------------------------------------------------

  /** The two maps of the codec while it is built, and the aliases in use. */
  datatype Codec = Codec(
    canonicalToProvider: map<string, string>,
    providerToCanonical: map<string, string>,
    used: set<string>)
  {
    /** The maps are inverse to each other, and every alias is one a provider accepts. */
    ghost predicate Valid() {
      && providerToCanonical.Keys == used
      && (forall name :: name in canonicalToProvider ==>
           && IsProviderName(canonicalToProvider[name])
           && canonicalToProvider[name] in providerToCanonical
           && providerToCanonical[canonicalToProvider[name]] == name)
      && (forall alias :: alias in providerToCanonical ==>
           && providerToCanonical[alias] in canonicalToProvider
           && canonicalToProvider[providerToCanonical[alias]] == alias)
    }

    predicate Encodes(name: string) {
      name in canonicalToProvider
    }

    function Add(name: string, alias: string): Codec {
      Codec(canonicalToProvider[name := alias], providerToCanonical[alias := name], used + {alias})
    }

    function ProviderName(canonical: string): Option<string> {
      if canonical in canonicalToProvider then Some(canonicalToProvider[canonical]) else None
    }

    function CanonicalName(provider: string): Option<string> {
      if provider in providerToCanonical then Some(providerToCanonical[provider]) else None
    }
  }

  const EMPTY: Codec := Codec(map[], map[], {})

  function AddName(c: Codec, hash: Hash, base: string, needsSuffix: bool, name: string): Codec
    requires AllSafe(base) && base != [] && |c.used| < U32 - 4
  {
    c.Add(name, Alias(Request(base, StableSuffix(hash, name), needsSuffix), c.used))
  }

  /** The names of one group, in order. */
  function AddNames(c: Codec, hash: Hash, base: string, needsSuffix: bool, names: set<string>): (r: Codec)
    requires AllSafe(base) && base != [] && |c.used| + |names| < U32 - 4
    ensures |r.used| == |c.used| + |names|
    decreases |names|
  {
    if names == {} then c
    else
      var name := Least(names);
      AddNames(AddName(c, hash, base, needsSuffix, name), hash, base, needsSuffix, names - {name})
  }

  function Bases(names: set<string>): set<string> {
    set name | name in names :: ProviderSafeBase(name)
  }

  function Group(names: set<string>, base: string): set<string> {
    set name | name in names && ProviderSafeBase(name) == base
  }

  /** The groups with the bases `bases`, in order; `names` are the names not added yet. */
  function AddGroups(c: Codec, hash: Hash, bases: set<string>, names: set<string>): Codec
    requires bases == Bases(names) && |c.used| + |names| < U32 - 4
    decreases |bases|
  {
    if bases == {} then c
    else
      var base := Least(bases);
      var group := Group(names, base);
      SplitGroup(names, base);
      AddGroups(AddNames(c, hash, base, |group| > 1 || base in c.used, group), hash,
                bases - {base}, names - group)
  }

  lemma SplitGroup(names: set<string>, base: string)
    requires base in Bases(names)
    ensures AllSafe(base) && base != []
    ensures |Group(names, base)| + |names - Group(names, base)| == |names|
    ensures Bases(names - Group(names, base)) == Bases(names) - {base}
  {
    var group := Group(names, base);
    assert names == group + (names - group);
    forall b | b in Bases(names) - {base}
      ensures b in Bases(names - group)
    {
      var name :| name in names && ProviderSafeBase(name) == b;
      assert name in names - group;
    }
  }

  /** One group added: the first step for these names. */
  function WithGroup(c: Codec, hash: Hash, names: set<string>, base: string): (r: Codec)
    requires AllSafe(base) && base != [] && |c.used| + |Group(names, base)| < U32 - 4
    ensures |r.used| == |c.used| + |Group(names, base)|
  {
    var group := Group(names, base);
    AddNames(c, hash, base, |group| > 1 || base in c.used, group)
  }

  lemma FirstGroupOf(c: Codec, hash: Hash, names: set<string>, first: string)
    requires |c.used| + |names| < U32 - 4 && first in Bases(names) && IsLeast(first, Bases(names))
    ensures AllSafe(first) && first != [] && |Group(names, first)| + |names - Group(names, first)| == |names|
    ensures var rest := names - Group(names, first);
            AddGroups(c, hash, Bases(names), names)
              == AddGroups(WithGroup(c, hash, names, first), hash, Bases(rest), rest)
  {
    SplitGroup(names, first);
    LeastIsUnique(Bases(names));
    hide Bases, Group, IsLeast, AddNames;
  }

  /** The codec of a set of names. */
  function CodecOf(hash: Hash, names: set<string>): Codec
    requires |names| < U32 - 4
  {
    AddGroups(EMPTY, hash, Bases(names), names)
  }

  function BlockToolNames(blocks: seq<ContentBlock>): seq<string> {
    if blocks == [] then []
    else (match blocks[0]
          case ToolCallBlock(name) => [name]
          case ToolResultBlock(name) => [name]
          case _ => []) + BlockToolNames(blocks[1..])
  }

  function MessageToolNames(messages: seq<AgentMessage>): seq<string> {
    if messages == [] then []
    else BlockToolNames(messages[0].content) + MessageToolNames(messages[1..])
  }

  /** The message calls the tool or has a result of it. */
  predicate Mentions(message: AgentMessage, name: string) {
    ToolCallBlock(name) in message.content || ToolResultBlock(name) in message.content
  }

  lemma {:induction false} NamesInBlocks(blocks: seq<ContentBlock>, name: string)
    ensures name in BlockToolNames(blocks) <==> ToolCallBlock(name) in blocks || ToolResultBlock(name) in blocks
  {
    if blocks != [] {
      NamesInBlocks(blocks[1..], name);
      assert forall b :: b in blocks <==> b == blocks[0] || b in blocks[1..];
    }
  }

  /** Exactly the tools that some message calls or has a result of. */
  lemma {:induction false} NamesInMessages(messages: seq<AgentMessage>, name: string)
    ensures name in MessageToolNames(messages) <==> exists m :: m in messages && Mentions(m, name)
  {
    if messages != [] {
      NamesInBlocks(messages[0].content, name);
      NamesInMessages(messages[1..], name);
      assert Mentions(messages[0], name) <==> name in BlockToolNames(messages[0].content);
      hide Mentions, MessageToolNames, BlockToolNames;
      assert MessageToolNames(messages) == BlockToolNames(messages[0].content) + MessageToolNames(messages[1..]);
      assert forall m :: m in messages <==> m == messages[0] || m in messages[1..];
    }
  }

  function NameSet(names: seq<string>): set<string> {
    set name | name in names
  }

  /** The names by their base, as they are collected. */
  ghost predicate GroupedBy(groups: map<string, set<string>>, names: set<string>) {
    groups.Keys == Bases(names) && forall base :: base in groups ==> groups[base] == Group(names, base)
  }

  lemma CollectName(groups: map<string, set<string>>, names: set<string>, name: string)
    requires GroupedBy(groups, names)
    ensures var base := ProviderSafeBase(name);
            var group := if base in groups then groups[base] else {};
            GroupedBy(groups[base := group + {name}], names + {name})
  {
    hide ProviderSafeBase;
    var base := ProviderSafeBase(name);
    assert Bases(names + {name}) == Bases(names) + {base};
    assert base !in groups ==> Group(names, base) == {};
    assert forall b :: Group(names + {name}, b) == Group(names, b) + if b == base then {name} else {};
  }

  method CollectNames(groups: map<string, set<string>>, names: seq<string>, ghost known: set<string>)
    returns (groups': map<string, set<string>>)
    requires GroupedBy(groups, known)
    ensures GroupedBy(groups', known + NameSet(names))
  {
    groups' := groups;
    assert known + NameSet([]) == known;
    for i := 0 to |names|
      invariant GroupedBy(groups', known + NameSet(names[..i]))
    {
      var base := ProviderSafeBase(names[i]);
      CollectName(groups', known + NameSet(names[..i]), names[i]);
      assert known + NameSet(names[..i + 1]) == known + NameSet(names[..i]) + {names[i]};
      hide GroupedBy, ProviderSafeBase;
      groups' := groups'[base := (if base in groups' then groups'[base] else {}) + {names[i]}];
    }
    assert names[..|names|] == names;
  }

  lemma OtherGroupsStay(names: set<string>, base: string, groups: map<string, set<string>>)
    requires GroupedBy(groups, names) && base in groups
    ensures GroupedBy(groups - {base}, names - groups[base])
  {
    SplitGroup(names, base);
    hide ProviderSafeBase;
  }

  /** The groups are walked through in the order of their bases. */
  method AddInOrder(hash: Hash, groups: map<string, set<string>>, ghost names: set<string>) returns (codec: Codec)
    requires GroupedBy(groups, names) && |names| < U32 - 4
    ensures codec == CodecOf(hash, names)
  {
    codec := EMPTY;
    var left := groups;
    ghost var rest := names;
    while left.Keys != {}
      invariant GroupedBy(left, rest) && |codec.used| + |rest| < U32 - 4
      invariant CodecOf(hash, names) == AddGroups(codec, hash, Bases(rest), rest)
      decreases |left.Keys|
    {
      var base := Least(left.Keys);
      FirstGroupOf(codec, hash, rest, base);
      OtherGroupsStay(rest, base, left);
      hide AddGroups, CodecOf, Bases, Group, AddNames, IsLeast, ProviderSafeBase, AllSafe;
      codec := AddGroup(codec, hash, base, left[base]);
      rest := rest - left[base];
      left := left - {base};
    }
  }

  /** The codec for the declared tools and the tools mentioned in the message history. */
  method NewWithMessageHistory(hash: Hash, tools: seq<string>, messages: seq<AgentMessage>)
    returns (codec: Codec)
    requires |NameSet(tools) + NameSet(MessageToolNames(messages))| < U32 - 4
    ensures codec == CodecOf(hash, NameSet(tools) + NameSet(MessageToolNames(messages)))
    ensures forall name :: codec.ProviderName(name).Some? <==>
              name in tools || exists m :: m in messages && Mentions(m, name)
  {
    assert {} + NameSet(tools) == NameSet(tools);
    var groups := CollectNames(map[], tools, {});
    groups := CollectNames(groups, MessageToolNames(messages), NameSet(tools));
    codec := AddInOrder(hash, groups, NameSet(tools) + NameSet(MessageToolNames(messages)));
    CodecCovers(hash, tools, messages);
  }

  /** The codec encodes exactly the declared tools and those the messages mention. */
  lemma CodecCovers(hash: Hash, tools: seq<string>, messages: seq<AgentMessage>)
    requires |NameSet(tools) + NameSet(MessageToolNames(messages))| < U32 - 4
    ensures var codec := CodecOf(hash, NameSet(tools) + NameSet(MessageToolNames(messages)));
            forall name :: codec.ProviderName(name).Some? <==>
              name in tools || exists m :: m in messages && Mentions(m, name)
  {
    var names := NameSet(tools) + NameSet(MessageToolNames(messages));
    CodecIsBijection(hash, names);
    hide CodecOf, Mentions, Codec.ProviderName;
    forall name
      ensures name in names <==> name in tools || exists m :: m in messages && Mentions(m, name)
    {
      NamesInMessages(messages, name);
    }
  }

  method AddGroup(codec: Codec, hash: Hash, base: string, group: set<string>)
    returns (codec': Codec)
    requires AllSafe(base) && base != []
    requires |codec.used| + |group| < U32 - 4
    ensures codec' == AddNames(codec, hash, base, |group| > 1 || base in codec.used, group)
  {
    var needsSuffix := |group| > 1 || base in codec.used;
    codec' := codec;
    var rest := group;
    while rest != {}
      invariant |codec'.used| + |rest| < U32 - 4
      invariant AddNames(codec, hash, base, needsSuffix, group)
             == AddNames(codec', hash, base, needsSuffix, rest)
      decreases |rest|
    {
      var name := Least(rest);
      var r := Request(base, StableSuffix(hash, name), needsSuffix);
      var alias, used, _ := UniqueProviderName(r, codec'.used);
      codec' := Codec(codec'.canonicalToProvider[name := alias],
                      codec'.providerToCanonical[alias := name], used);
      rest := rest - {name};
    }
  }

  // ---------------------------------------------------------------------------------------------
  // The codec is a bijection
  // ---------------------------------------------------------------------------------------------

  lemma AddKeepsValid(c: Codec, name: string, alias: string)
    requires c.Valid() && !c.Encodes(name)
    requires IsProviderName(alias) && alias !in c.used
    ensures c.Add(name, alias).Valid()
    ensures forall n :: c.Add(name, alias).Encodes(n) <==> c.Encodes(n) || n == name
    ensures |c.Add(name, alias).used| == |c.used| + 1
  {
  }

  lemma {:induction false} AddNamesKeepsValid(
      c: Codec, hash: Hash, base: string, needsSuffix: bool, names: set<string>)
    requires AllSafe(base) && base != [] && |c.used| + |names| < U32 - 4
    requires c.Valid() && forall n :: n in names ==> !c.Encodes(n)
    ensures var r := AddNames(c, hash, base, needsSuffix, names);
            r.Valid() && forall n :: r.Encodes(n) <==> c.Encodes(n) || n in names
    decreases |names|
  {
    hide Alias, IsLeast, AllSafe, IsProviderName, Codec.Valid, StableSuffix;
    if names != {} {
      var name := Least(names);
      var alias := Alias(Request(base, StableSuffix(hash, name), needsSuffix), c.used);
      AddKeepsValid(c, name, alias);
      hide Codec.Add, Codec.Encodes;
      AddNamesKeepsValid(c.Add(name, alias), hash, base, needsSuffix, names - {name});
    }
  }

  lemma {:induction false} AddGroupsKeepsValid(c: Codec, hash: Hash, bases: set<string>, names: set<string>)
    requires bases == Bases(names) && |c.used| + |names| < U32 - 4
    requires c.Valid() && forall n :: n in names ==> !c.Encodes(n)
    ensures var r := AddGroups(c, hash, bases, names);
            r.Valid() && forall n :: r.Encodes(n) <==> c.Encodes(n) || n in names
    decreases |bases|
  {
    hide AddNames, Codec.Valid, Codec.Encodes, IsLeast, AllSafe;
    if bases != {} {
      var base := Least(bases);
      var group := Group(names, base);
      SplitGroup(names, base);
      assert group <= names;
      hide Bases, Group;
      AddNamesKeepsValid(c, hash, base, |group| > 1 || base in c.used, group);
      AddGroupsKeepsValid(AddNames(c, hash, base, |group| > 1 || base in c.used, group), hash,
                          bases - {base}, names - group);
    } else {
      assert forall name :: name in names ==> ProviderSafeBase(name) in Bases(names);
    }
  }

  /**
   The codec of a set of names is a bijection between the names and their aliases: exactly the names
   are encoded, decoding undoes encoding, encoding undoes decoding, and aliases fit the provider.
   */
  lemma CodecIsBijection(hash: Hash, names: set<string>)
    requires |names| < U32 - 4
    ensures var c := CodecOf(hash, names);
            && (forall name :: c.ProviderName(name).Some? <==> name in names)
            && (forall name :: name in names ==>
                 c.CanonicalName(c.ProviderName(name).value) == Some(name))
            && (forall alias :: c.CanonicalName(alias).Some? ==>
                 && c.ProviderName(c.CanonicalName(alias).value) == Some(alias)
                 && IsProviderName(alias))
  {
    AddGroupsKeepsValid(EMPTY, hash, Bases(names), names);
  }

  // ---------------------------------------------------------------------------------------------
  // Which names stay as they are
  // ---------------------------------------------------------------------------------------------

  lemma {:induction false} SafeNameIsItsBase(s: string)
    requires AllSafe(s)
    ensures ReplaceUnsafe(s) == s
  {
    if s != [] {
      SafeNameIsItsBase(s[1..]);
    }
  }

  /** The k-th alias tried for a name that needs a suffix: first without a number, then numbered from 2 on. */
  function SuffixedAlias(hash: Hash, name: string, k: nat): (alias: string)
    requires k < U32 - 1
    ensures IsProviderName(alias)
  {
    SuffixedProviderName(ProviderSafeBase(name), StableSuffix(hash, name), if k == 0 then None else Some(k + 1))
  }

  ghost predicate AllInUse(hash: Hash, name: string, used: set<string>, k: nat)
    requires k < U32 - 1
  {
    forall j :: 0 <= j < k ==> SuffixedAlias(hash, name, j) in used
  }

  /** The first suffixed alias that is not in use. */
  ghost predicate IsFirstSuffixed(hash: Hash, name: string, used: set<string>, alias: string) {
    alias !in used && exists k :: 0 <= k < U32 - 1 && AllInUse(hash, name, used, k) && SuffixedAlias(hash, name, k) == alias
  }

  lemma CandidateIsSuffixed(hash: Hash, name: string, needsSuffix: bool, k: nat)
    requires k < U32 - 1 && (needsSuffix || |ProviderSafeBase(name)| > MAX_NAME_LENGTH)
    ensures Request(ProviderSafeBase(name), StableSuffix(hash, name), needsSuffix).Candidate(k)
         == SuffixedAlias(hash, name, k)
  {
    hide SuffixedProviderName, ProviderSafeBase, StableSuffix;
  }

  lemma AliasIsFirstSuffixed(hash: Hash, name: string, needsSuffix: bool, used: set<string>, alias: string)
    requires |used| < U32 - 4 && (needsSuffix || |ProviderSafeBase(name)| > MAX_NAME_LENGTH)
    ensures Alias(Request(ProviderSafeBase(name), StableSuffix(hash, name), needsSuffix), used) == alias <==>
              IsFirstSuffixed(hash, name, used, alias)
  {
    var r := Request(ProviderSafeBase(name), StableSuffix(hash, name), needsSuffix);
    var free := FirstFree(r, used, 0);
    forall k | 0 <= k < U32 - 1
      ensures r.Candidate(k) == SuffixedAlias(hash, name, k)
    {
      CandidateIsSuffixed(hash, name, needsSuffix, k);
    }
    hide Request.Candidate, SuffixedAlias, FirstFree, ProviderSafeBase, StableSuffix;
    assert AllInUse(hash, name, used, free) && SuffixedAlias(hash, name, free) !in used;
    if IsFirstSuffixed(hash, name, used, alias) {
      var k :| 0 <= k < U32 - 1 && AllInUse(hash, name, used, k) && SuffixedAlias(hash, name, k) == alias;
      assert !(free < k) && !(k < free);
    }
  }

  /** Only a name of full length can be its own suffixed alias, and only one that ends with its own hash. */
  lemma OwnAliasIsFullLength(hash: Hash, name: string, used: set<string>)
    requires IsFirstSuffixed(hash, name, used, name) && IsProviderName(name)
    ensures |name| == MAX_NAME_LENGTH
    ensures exists attempt: Option<nat> | attempt.Some? ==> attempt.value < U32 ::
              var tail := Tail(StableSuffix(hash, name), attempt);
              |tail| <= |name| && name[|name| - |tail|..] == tail
  {
    SafeNameIsItsBase(name);
    var k :| 0 <= k < U32 - 1 && AllInUse(hash, name, used, k) && SuffixedAlias(hash, name, k) == name;
    var attempt := if k > 0 then Some(k + 1) else None;
    SuffixedNameShape(name, StableSuffix(hash, name), attempt);
    assert name == SuffixedProviderName(name, StableSuffix(hash, name), attempt);
  }

  lemma ShortNameIsNoSuffixedAlias(hash: Hash, name: string, used: set<string>)
    requires IsProviderName(name) && |name| < MAX_NAME_LENGTH
    ensures !IsFirstSuffixed(hash, name, used, name)
  {
    if IsFirstSuffixed(hash, name, used, name) {
      OwnAliasIsFullLength(hash, name, used);
    }
  }

  /** A name that is alone with its base. */
  lemma LoneName(c: Codec, hash: Hash, base: string, name: string)
    requires AllSafe(base) && base != [] && |c.used| + 1 < U32 - 4 && base !in c.used
    ensures AddNames(c, hash, base, false, {name}).ProviderName(name)
         == Some(if |base| <= MAX_NAME_LENGTH then base else Alias(Request(base, StableSuffix(hash, name), false), c.used))
  {
    assert Least({name}) == name && {name} - {name} == {};
  }

  lemma {:induction false} AddNamesKeepsOthers(
      c: Codec, hash: Hash, base: string, needsSuffix: bool, names: set<string>, name: string)
    requires AllSafe(base) && base != [] && |c.used| + |names| < U32 - 4 && name !in names
    ensures AddNames(c, hash, base, needsSuffix, names).ProviderName(name) == c.ProviderName(name)
    decreases |names|
  {
    hide Alias, IsLeast, AllSafe, StableSuffix;
    if names != {} {
      var next := Least(names);
      AddNamesKeepsOthers(AddName(c, hash, base, needsSuffix, next), hash, base, needsSuffix, names - {next}, name);
    }
  }

  /** The names of a group that come before `name`. */
  function Earlier(group: set<string>, name: string): set<string> {
    set n | n in group && n != name && AtMost(n, name)
  }

  lemma EarlierWithoutFirst(group: set<string>, first: string, name: string)
    requires name in group && IsLeast(first, group)
    ensures first == name ==> Earlier(group, name) == {}
    ensures first != name ==>
              && IsLeast(first, Earlier(group, name))
              && Earlier(group, name) - {first} == Earlier(group - {first}, name)
  {
    hide AtMost;
    forall n | n in group && AtMost(n, first)
      ensures n == first
    {
      AtMostTotal(n, first);
    }
  }

  /** A name of a group gets its alias when the earlier names of the group have theirs. */
  lemma {:induction false} AliasInGroup(c: Codec, hash: Hash, base: string, group: set<string>, name: string)
    requires AllSafe(base) && base != [] && |c.used| + |group| < U32 - 4 && name in group
    ensures |Earlier(group, name)| < |group|
    ensures AddNames(c, hash, base, true, group).ProviderName(name)
         == Some(Alias(Request(base, StableSuffix(hash, name), true),
                       AddNames(c, hash, base, true, Earlier(group, name)).used))
    decreases |group|
  {
    SizeOfParts(Earlier(group, name), {name}, group);
    var first := Least(group);
    var added := AddName(c, hash, base, true, first);
    EarlierWithoutFirst(group, first, name);
    hide Alias, IsLeast, AllSafe, StableSuffix, Earlier;
    if first == name {
      AddNamesKeepsOthers(added, hash, base, true, group - {name}, name);
    } else {
      LeastIsUnique(Earlier(group, name));
      AliasInGroup(added, hash, base, group - {first}, name);
    }
  }

  lemma {:induction false} AddGroupsKeepsOthers(
      c: Codec, hash: Hash, bases: set<string>, names: set<string>, name: string)
    requires bases == Bases(names) && |c.used| + |names| < U32 - 4 && name !in names
    ensures AddGroups(c, hash, bases, names).ProviderName(name) == c.ProviderName(name)
    decreases |bases|
  {
    hide AddNames, IsLeast, AllSafe, Codec.ProviderName;
    if bases != {} {
      var base := Least(bases);
      var group := Group(names, base);
      SplitGroup(names, base);
      assert name !in group && name !in names - group;
      hide Bases, Group;
      AddNamesKeepsOthers(c, hash, base, |group| > 1 || base in c.used, group, name);
      AddGroupsKeepsOthers(AddNames(c, hash, base, |group| > 1 || base in c.used, group), hash,
                           bases - {base}, names - group, name);
    }
  }

  /** The names whose base comes before `base`; their aliases are chosen before those of the group. */
  function Before(names: set<string>, base: string): set<string> {
    set name | name in names && ProviderSafeBase(name) != base && AtMost(ProviderSafeBase(name), base)
  }

  lemma BeforeWithoutGroup(names: set<string>, base: string, first: string)
    requires first in Bases(names) && IsLeast(first, Bases(names)) && base in Bases(names) && first != base
    ensures first in Bases(Before(names, base)) && IsLeast(first, Bases(Before(names, base)))
    ensures Group(Before(names, base), first) == Group(names, first)
    ensures Before(names, base) - Group(names, first) == Before(names - Group(names, first), base)
    ensures Group(names - Group(names, first), base) == Group(names, base)
  {
    hide ProviderSafeBase, AtMost;
    var name :| name in names && ProviderSafeBase(name) == first;
    assert name in Before(names, base);
    assert Bases(Before(names, base)) <= Bases(names);
  }

  /** The names of a group are encoded on top of the codec of the names before them. */
  lemma {:induction false} GroupOfCodec(c: Codec, hash: Hash, names: set<string>, name: string)
    requires |c.used| + |names| < U32 - 4 && name in names
    ensures var base := ProviderSafeBase(name);
            var before := Before(names, base);
            && |Group(names, base)| + |before| <= |names|
            && var b := AddGroups(c, hash, Bases(before), before);
               && |b.used| == |c.used| + |before|
               && AddGroups(c, hash, Bases(names), names).ProviderName(name)
                  == WithGroup(b, hash, names, base).ProviderName(name)
    decreases |names|
  {
    var base := ProviderSafeBase(name);
    assert base in Bases(names) && name in Group(names, base);
    SizeOfParts(Before(names, base), Group(names, base), names);
    var first := Least(Bases(names));
    FirstGroupOf(c, hash, names, first);
    if first == base {
      FirstGroupOfCodec(c, hash, names, name);
    } else {
      GroupOfCodecLater(c, hash, names, name, first);
    }
  }

  lemma FirstGroupOfCodec(c: Codec, hash: Hash, names: set<string>, name: string)
    requires |c.used| + |names| < U32 - 4 && name in names
    requires ProviderSafeBase(name) in Bases(names) && IsLeast(ProviderSafeBase(name), Bases(names))
    ensures var base := ProviderSafeBase(name);
            && Before(names, base) == {} && Bases({}) == {} && AddGroups(c, hash, {}, {}) == c
            && |Group(names, base)| <= |names|
            && AddGroups(c, hash, Bases(names), names).ProviderName(name)
               == WithGroup(c, hash, names, base).ProviderName(name)
  {
    var base := ProviderSafeBase(name);
    assert name in Group(names, base);
    NothingBefore(names, base);
    FirstGroupOf(c, hash, names, base);
    var rest := names - Group(names, base);
    hide WithGroup, Group, Before;
    AddGroupsKeepsOthers(WithGroup(c, hash, names, base), hash, Bases(rest), rest, name);
  }

  lemma {:induction false} GroupOfCodecLater(c: Codec, hash: Hash, names: set<string>, name: string, first: string)
    requires |c.used| + |names| < U32 - 4 && name in names
    requires first in Bases(names) && IsLeast(first, Bases(names)) && first != ProviderSafeBase(name)
    ensures var base := ProviderSafeBase(name);
            var before := Before(names, base);
            && |Group(names, base)| + |before| <= |names|
            && var b := AddGroups(c, hash, Bases(before), before);
               && |b.used| == |c.used| + |before|
               && AddGroups(c, hash, Bases(names), names).ProviderName(name)
                  == WithGroup(b, hash, names, base).ProviderName(name)
    decreases |names|, 0
  {
    var base := ProviderSafeBase(name);
    var before, group := Before(names, base), Group(names, first);
    assert base in Bases(names);
    assert name !in group && group != {} by {
      var other :| other in names && ProviderSafeBase(other) == first;
      assert other in group;
    }
    SizeOfParts(before, Group(names, base), names);
    BeforeWithoutGroup(names, base, first);
    hide Before, Group, Bases, IsLeast, AddGroups, WithGroup, ProviderSafeBase;
    FirstGroupOf(c, hash, names, first);
    FirstGroupOf(c, hash, before, first);
    SameGroup(c, hash, before, names, first);
    GroupOfCodec(WithGroup(c, hash, names, first), hash, names - group, name);
    var b := AddGroups(c, hash, Bases(before), before);
    SameGroup(b, hash, names - group, names, base);
  }

  lemma SameGroup(c: Codec, hash: Hash, m: set<string>, n: set<string>, base: string)
    requires AllSafe(base) && base != [] && |c.used| + |Group(n, base)| < U32 - 4
    requires Group(m, base) == Group(n, base)
    ensures WithGroup(c, hash, m, base) == WithGroup(c, hash, n, base)
  {
  }

  lemma SizeOfParts(a: set<string>, b: set<string>, all: set<string>)
    requires a <= all && b <= all && a !! b
    ensures |a| + |b| <= |all|
  {
    assert all == a + b + (all - a - b);
  }

  lemma NothingBefore(names: set<string>, base: string)
    requires IsLeast(base, Bases(names))
    ensures Before(names, base) == {}
  {
    forall name | name in names && AtMost(ProviderSafeBase(name), base)
      ensures ProviderSafeBase(name) == base
    {
      assert ProviderSafeBase(name) in Bases(names);
      AtMostTotal(ProviderSafeBase(name), base);
    }
  }

  /** The aliases in use when a name that needs a suffix gets its alias. */
  function UsedBefore(c: Codec, hash: Hash, names: set<string>, name: string): (used: set<string>)
    requires name in names && |c.used| + |Group(names, ProviderSafeBase(name))| < U32 - 4
    ensures |used| < U32 - 4
  {
    var group := Group(names, ProviderSafeBase(name));
    SizeOfParts(Earlier(group, name), {name}, group);
    AddNames(c, hash, ProviderSafeBase(name), true, Earlier(group, name)).used
  }

  /** The alias a name gets on top of the aliases of the groups before. */
  ghost predicate IsAliasOf(c: Codec, hash: Hash, names: set<string>, name: string, alias: string)
    requires name in names && |c.used| + |Group(names, ProviderSafeBase(name))| < U32 - 4
  {
    var base := ProviderSafeBase(name);
    if Group(names, base) == {name} && base !in c.used && |base| <= MAX_NAME_LENGTH then alias == base
    else IsFirstSuffixed(hash, name, UsedBefore(c, hash, names, name), alias)
  }

  lemma AliasByGroup(c: Codec, hash: Hash, names: set<string>, name: string)
    requires name in names && |c.used| + |Group(names, ProviderSafeBase(name))| < U32 - 4
    ensures var alias := WithGroup(c, hash, names, ProviderSafeBase(name)).ProviderName(name);
            alias.Some? && forall a :: alias.value == a <==> IsAliasOf(c, hash, names, name, a)
  {
    var base := ProviderSafeBase(name);
    var group := Group(names, base);
    assert name in group;
    OnlyMember(group, name);
    var used := UsedBefore(c, hash, names, name);
    hide Group, IsFirstSuffixed, ProviderSafeBase, AllSafe, Codec.ProviderName, Alias, StableSuffix;
    if group == {name} && base !in c.used {
      assert Earlier(group, name) == {} && used == c.used;
      LoneName(c, hash, base, name);
      hide AddNames;
      if |base| > MAX_NAME_LENGTH {
        forall a
          ensures Alias(Request(base, StableSuffix(hash, name), false), used) == a <==> IsFirstSuffixed(hash, name, used, a)
        {
          AliasIsFirstSuffixed(hash, name, false, used, a);
        }
      }
    } else {
      AliasInGroup(c, hash, base, group, name);
      hide AddNames;
      forall a
        ensures Alias(Request(base, StableSuffix(hash, name), true), used) == a <==> IsFirstSuffixed(hash, name, used, a)
      {
        AliasIsFirstSuffixed(hash, name, true, used, a);
      }
    }
  }

  lemma OnlyMember(group: set<string>, name: string)
    requires name in group
    ensures |group| > 1 <==> group != {name}
  {
    assert group == {name} + (group - {name});
  }

  /**
   The alias of a name in the finished codec: its base, if that fits, no other name has it, and no name before
   got it as an alias; otherwise the first of its suffixed aliases that none of the names before got.
   */
  lemma AliasIs(hash: Hash, names: set<string>, name: string)
    requires |names| < U32 - 4 && name in names
    ensures var base := ProviderSafeBase(name);
            var before := Before(names, base);
            && |before| + |Group(names, base)| <= |names|
            && var c := CodecOf(hash, before);
               && |c.used| == |before|
               && var alias := CodecOf(hash, names).ProviderName(name);
                  alias.Some? && forall a :: alias.value == a <==> IsAliasOf(c, hash, names, name, a)
  {
    var base := ProviderSafeBase(name);
    GroupOfCodec(EMPTY, hash, names, name);
    hide AddGroups, Before, Group, WithGroup, IsAliasOf, ProviderSafeBase, Codec.ProviderName;
    AliasByGroup(CodecOf(hash, Before(names, base)), hash, names, name);
  }

  /**
   A name stays as it is if and only if it fits the provider and either no other name has its base and no
   name before it has it as an alias, or it happens to be the suffixed alias it is due.
   */
  lemma NameIsKeptIff(hash: Hash, names: set<string>, name: string)
    requires |names| < U32 - 4 && name in names
    ensures var before := Before(names, name);
            && |before| <= |names|
            && (IsProviderName(name) ==>
                 ProviderSafeBase(name) == name && |CodecOf(hash, before).used| + |Group(names, name)| < U32 - 4)
            && (CodecOf(hash, names).ProviderName(name) == Some(name) <==>
                 && IsProviderName(name)
                 && var c := CodecOf(hash, before);
                    || (Group(names, name) == {name} && name !in c.used)
                    || IsFirstSuffixed(hash, name, UsedBefore(c, hash, names, name), name))
  {
    SizeOfParts(Before(names, name), {}, names);
    if IsProviderName(name) {
      SafeNameIsItsBase(name);
      assert ProviderSafeBase(name) == name && |name| <= MAX_NAME_LENGTH;
      hide *;
      AliasIs(hash, names, name);
      IsAliasOfSafeName(CodecOf(hash, Before(names, name)), hash, names, name);
    } else {
      NotKept(hash, names, name);
      hide *;
    }
  }

  lemma IsAliasOfSafeName(c: Codec, hash: Hash, names: set<string>, name: string)
    requires name in names && |c.used| + |Group(names, name)| < U32 - 4
    requires ProviderSafeBase(name) == name && |name| <= MAX_NAME_LENGTH
    ensures IsAliasOf(c, hash, names, name, name) <==>
              || (Group(names, name) == {name} && name !in c.used)
              || IsFirstSuffixed(hash, name, UsedBefore(c, hash, names, name), name)
  {
    hide Group, IsFirstSuffixed, UsedBefore, ProviderSafeBase;
  }

  lemma NotKept(hash: Hash, names: set<string>, name: string)
    requires |names| < U32 - 4 && name in names && !IsProviderName(name)
    ensures CodecOf(hash, names).ProviderName(name) != Some(name)
  {
    CodecIsBijection(hash, names);
    hide CodecOf;
    var alias := CodecOf(hash, names).ProviderName(name);
    assert alias.Some? && CodecOf(hash, names).CanonicalName(alias.value) == Some(name);
  }

  /** Below full length there is no accident: the name must be alone with its base, and not yet an alias. */
  lemma ShortNameIsKeptIff(hash: Hash, names: set<string>, name: string)
    requires |names| < U32 - 4 && name in names && |name| < MAX_NAME_LENGTH
    ensures |Before(names, name)| <= |names|
    ensures CodecOf(hash, names).ProviderName(name) == Some(name) <==>
            && IsProviderName(name) && Group(names, name) == {name}
            && name !in CodecOf(hash, Before(names, name)).used
  {
    hide CodecOf, Before, Group, IsFirstSuffixed, UsedBefore, Codec.ProviderName, AllSafe, ProviderSafeBase;
    NameIsKeptIff(hash, names, name);
    if IsProviderName(name) {
      ShortNameIsNoSuffixedAlias(hash, name, UsedBefore(CodecOf(hash, Before(names, name)), hash, names, name));
    }
  }
}
