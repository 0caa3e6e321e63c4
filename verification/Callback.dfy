/**
 The store of short callback keys: entries expire after a while, the oldest ones are dropped when there
 are too many, and keys are consecutive numbers in base 36.

 Time is a natural number that is passed in.  `Store` is the value of the store, `ShortCallbackStore`
 the store that is updated in place.
 */
module Callback {
  import opened Wrappers
  import opened Text

  const U64: nat := 0x1_0000_0000_0000_0000

  datatype Entry<T> = Entry(value: T, createdAt: nat)

  type Entries<T> = map<string, Entry<T>>

  datatype Store<T> = Store(nextId: nat, entries: Entries<T>, ttl: nat, maxEntries: nat)

  // ---------------------------------------------------------------------------------------------
  // Keys
  // ---------------------------------------------------------------------------------------------

  method Base36(value: nat) returns (s: string)
    ensures s == Numeral(value, 36)
  {
    if value == 0 {
      return "0";
    }
    var rest := value;
    var chars := "";
    while rest > 0
      invariant Numeral(value, 36) == if rest == 0 then Reverse(chars) else Numeral(rest, 36) + Reverse(chars)
      decreases rest
    {
      QuotientAndRemainder(rest, 36);
      var digit := Remainder(rest, 36);
      assert (chars + [DigitChar(digit)])[..|chars|] == chars;
      assert Numeral(rest, 36) + Reverse(chars)
          == if rest < 36 then Reverse(chars + [DigitChar(digit)])
             else Numeral(Quotient(rest, 36), 36) + Reverse(chars + [DigitChar(digit)]);
      chars := chars + [DigitChar(digit)];
      rest := Quotient(rest, 36);
    }
    return Reverse(chars);
  }

  /** Different numbers have different keys, and a key has at most 13 characters. */
  lemma KeysAreShortAndDistinct(m: nat, n: nat)
    requires m < U64 && n < U64
    ensures Numeral(m, 36) == Numeral(n, 36) ==> m == n
    ensures |Numeral(m, 36)| <= 13
  {
    if Numeral(m, 36) == Numeral(n, 36) {
      NumeralInjective(m, n, 36);
    }
    assert Power(36, 4) == 1_679_616;
    assert Power(36, 8) == 2_821_109_907_456;
    assert Power(36, 13) == 170_581_728_179_578_208_256;
    NumeralLength(m, 36, 13);
  }

  // ---------------------------------------------------------------------------------------------
  // Expiry and eviction
  // ---------------------------------------------------------------------------------------------

  predicate IsAlive<T>(e: Entry<T>, now: nat, ttl: nat) {
    now <= e.createdAt + ttl
  }

  function Swept<T>(entries: Entries<T>, now: nat, ttl: nat): Entries<T> {
    map key | key in entries && IsAlive(entries[key], now, ttl) :: entries[key]
  }

  /** The order of the entries: by time, and then by key. */
  predicate Precedes<T>(entries: Entries<T>, x: string, y: string)
    requires x in entries && y in entries
  {
    entries[x].createdAt < entries[y].createdAt || (entries[x].createdAt == entries[y].createdAt && AtMost(x, y))
  }

  lemma PrecedesIsTotal<T>(entries: Entries<T>, x: string, y: string, z: string)
    requires x in entries && y in entries && z in entries
    ensures Precedes(entries, x, y) || Precedes(entries, y, x)
    ensures Precedes(entries, x, y) && Precedes(entries, y, x) ==> x == y
    ensures Precedes(entries, x, y) && Precedes(entries, y, z) ==> Precedes(entries, x, z)
  {
    AtMostTotal(x, y);
    if AtMost(x, y) && AtMost(y, z) {
      AtMostTransitive(x, y, z);
    }
    hide AtMost;
  }

  predicate IsFirst<T>(entries: Entries<T>, key: string, keys: set<string>)
    requires keys <= entries.Keys
  {
    key in keys && forall other :: other in keys ==> Precedes(entries, key, other)
  }

  predicate IsOldest<T>(entries: Entries<T>, key: string) {
    IsFirst(entries, key, entries.Keys)
  }

  lemma {:induction false} FirstExists<T>(entries: Entries<T>, keys: set<string>)
    requires keys != {} && keys <= entries.Keys
    ensures exists key :: IsFirst(entries, key, keys)
    decreases |keys|
  {
    var x :| x in keys;
    var rest := keys - {x};
    PrecedesIsTotal(entries, x, x, x);
    if rest == {} {
      assert keys == {x} && IsFirst(entries, x, keys);
    } else {
      FirstExists(entries, rest);
      var y :| IsFirst(entries, y, rest);
      PrecedesIsTotal(entries, x, y, y);
      hide Precedes;
      if Precedes(entries, x, y) {
        forall other | other in rest
          ensures Precedes(entries, x, other)
        {
          PrecedesIsTotal(entries, x, y, other);
        }
        assert IsFirst(entries, x, keys);
      } else {
        assert IsFirst(entries, y, keys);
      }
    }
  }

  lemma OldestIsUnique<T>(entries: Entries<T>)
    ensures forall x, y :: IsOldest(entries, x) && IsOldest(entries, y) ==> x == y
  {
    forall x, y | IsOldest(entries, x) && IsOldest(entries, y)
      ensures x == y
    {
      PrecedesIsTotal(entries, x, y, y);
    }
  }

  function Oldest<T>(entries: Entries<T>): (key: string)
    requires |entries| > 0
    ensures key in entries && IsOldest(entries, key)
  {
    assert entries.Keys != {};
    FirstExists(entries, entries.Keys);
    OldestIsUnique(entries);
    assert exists key :: key in entries && IsOldest(entries, key) by {
      var key :| IsFirst(entries, key, entries.Keys);
      assert IsOldest(entries, key);
    }
    var key :| key in entries && IsOldest(entries, key);
    key
  }

  function Evicted<T>(entries: Entries<T>, max: nat): Entries<T>
    decreases |entries|
  {
    if |entries| <= max then entries else Evicted(entries - {Oldest(entries)}, max)
  }

  function Matching<T>(entries: Entries<T>, p: T -> bool): set<string> {
    set key | key in entries && p(entries[key].value)
  }

  // ---------------------------------------------------------------------------------------------
  // Operations on the value of a store
  // ---------------------------------------------------------------------------------------------

  function Sweep<T>(s: Store<T>, now: nat): Store<T> {
    s.(entries := Swept(s.entries, now, s.ttl))
  }

  function Reserve<T>(s: Store<T>, now: nat): (Store<T>, string) {
    (Sweep(s, now).(nextId := s.nextId + 1), Numeral(s.nextId + 1, 36))
  }

  function InsertAt<T>(s: Store<T>, key: string, value: T, sweptAt: nat, createdAt: nat): Store<T> {
    s.(entries := Evicted(Swept(s.entries, sweptAt, s.ttl)[key := Entry(value, createdAt)], s.maxEntries))
  }

  function Get<T>(s: Store<T>, key: string, now: nat): Option<T> {
    var alive := Swept(s.entries, now, s.ttl);
    if key in alive then Some(alive[key].value) else None
  }

  function Without<T>(s: Store<T>, key: string, now: nat): Store<T> {
    s.(entries := Swept(s.entries, now, s.ttl) - {key})
  }

  /** The first matching entry in the order of the keys. */
  function FirstMatch<T>(s: Store<T>, p: T -> bool, now: nat): Option<string> {
    var matching := Matching(Swept(s.entries, now, s.ttl), p);
    if matching == {} then None else Some(Least(matching))
  }

  // ---------------------------------------------------------------------------------------------
  // The store that is updated in place
  // ---------------------------------------------------------------------------------------------

  class ShortCallbackStore<T> {
    var nextId: nat
    var entries: Entries<T>
    const ttl: nat
    const maxEntries: nat

    function Value(): Store<T>
      reads this
    {
      Store(nextId, entries, ttl, maxEntries)
    }

    constructor WithLimits(ttl: nat, maxEntries: nat)
      ensures Value() == Store(0, map[], ttl, maxEntries)
    {
      this.ttl, this.maxEntries := ttl, maxEntries;
      nextId, entries := 0, map[];
    }

    method SweepExpired(now: nat)
      modifies this`entries
      ensures entries == Swept(old(entries), now, ttl)
    {
      entries := map key | key in entries && IsAlive(entries[key], now, ttl) :: entries[key];
    }

    method SweepOverflow()
      modifies this`entries
      ensures entries == Evicted(old(entries), maxEntries)
    {
      while |entries| > maxEntries
        invariant Evicted(entries, maxEntries) == Evicted(old(entries), maxEntries)
        decreases |entries|
      {
        entries := entries - {Oldest(entries)};
      }
    }

    method ReserveKey(now: nat) returns (key: string)
      requires nextId + 1 < U64
      modifies this
      ensures Value() == Did(old(Value()), ReserveCall(now)) && key == Reserve(old(Value()), now).1
    {
      SweepExpired(now);
      nextId := nextId + 1;
      key := Base36(nextId);
    }

    method InsertReserved(key: string, value: T, sweptAt: nat, createdAt: nat)
      modifies this`entries
      ensures Value() == InsertAt(old(Value()), key, value, sweptAt, createdAt)
      ensures sweptAt == createdAt ==> Value() == Did(old(Value()), InsertCall(createdAt, key, value))
    {
      SweepExpired(sweptAt);
      entries := entries[key := Entry(value, createdAt)];
      SweepOverflow();
    }

    method Insert(value: T, reservedAt: nat, sweptAt: nat, createdAt: nat) returns (key: string)
      requires nextId + 1 < U64
      modifies this
      ensures var (s, k) := Reserve(old(Value()), reservedAt);
              key == k && Value() == InsertAt(s, k, value, sweptAt, createdAt)
    {
      key := ReserveKey(reservedAt);
      InsertReserved(key, value, sweptAt, createdAt);
    }

    method Remove(key: string, now: nat) returns (value: Option<T>)
      modifies this`entries
      ensures value == Get(old(Value()), key, now) && Value() == Did(old(Value()), RemoveCall(now, key))
    {
      SweepExpired(now);
      value := if key in entries then Some(entries[key].value) else None;
      entries := entries - {key};
    }

    method Lookup(key: string, now: nat) returns (value: Option<T>)
      modifies this`entries
      ensures value == Get(old(Value()), key, now) && Value() == Did(old(Value()), LookupCall(now))
    {
      SweepExpired(now);
      value := if key in entries then Some(entries[key].value) else None;
    }

    method Find(p: T -> bool, now: nat) returns (value: Option<T>)
      modifies this`entries
      ensures Value() == Did(old(Value()), LookupCall(now))
      ensures match FirstMatch(old(Value()), p, now)
              case None => value == None
              case Some(key) => value == Get(old(Value()), key, now)
    {
      SweepExpired(now);
      var matching := Matching(entries, p);
      value := if matching == {} then None else Some(entries[Least(matching)].value);
    }

    method RemoveWhere(p: T -> bool, now: nat) returns (value: Option<T>)
      modifies this`entries
      ensures Value() == Did(old(Value()), RemoveWhereCall(now, p))
      ensures match FirstMatch(old(Value()), p, now)
              case None => value == None
              case Some(key) => value == Get(old(Value()), key, now)
    {
      SweepExpired(now);
      var matching := Matching(entries, p);
      if matching == {} {
        return None;
      }
      var key := Least(matching);
      value := Some(entries[key].value);
      entries := entries - {key};
    }
  }

  // ---------------------------------------------------------------------------------------------
  // The store is a queue in order of time
  // ---------------------------------------------------------------------------------------------

  datatype Item<T> = Item(key: string, entry: Entry<T>)

  ghost predicate HasKey<T>(q: seq<Item<T>>, key: string) {
    exists i :: 0 <= i < |q| && q[i].key == key
  }

  /** Times increase along the queue, and no key appears twice. */
  ghost predicate InOrder<T>(q: seq<Item<T>>) {
    forall i, j :: 0 <= i < j < |q| ==> q[i].entry.createdAt < q[j].entry.createdAt && q[i].key != q[j].key
  }

  /** The queue holds the entries of the store, each once, in order of time. */
  ghost predicate Represents<T>(q: seq<Item<T>>, entries: Entries<T>) {
    && InOrder(q)
    && (forall i :: 0 <= i < |q| ==> q[i].key in entries && entries[q[i].key] == q[i].entry)
    && (forall key :: key in entries ==> HasKey(q, key))
  }

  function DropExpired<T>(q: seq<Item<T>>, now: nat, ttl: nat): seq<Item<T>> {
    if q == [] || IsAlive(q[0].entry, now, ttl) then q else DropExpired(q[1..], now, ttl)
  }

  function LastItems<T>(q: seq<Item<T>>, max: nat): seq<Item<T>> {
    if |q| <= max then q else q[|q| - max..]
  }

  function DropKey<T>(q: seq<Item<T>>, key: string): seq<Item<T>> {
    if q == [] then [] else if q[0].key == key then q[1..] else [q[0]] + DropKey(q[1..], key)
  }

  lemma TailRepresents<T>(q: seq<Item<T>>, entries: Entries<T>)
    requires Represents(q, entries) && q != []
    ensures Represents(q[1..], entries - {q[0].key})
  {
    var tail, rest := q[1..], entries - {q[0].key};
    assert forall i :: 0 <= i < |tail| ==> tail[i] == q[i + 1];
    assert InOrder(tail);
    forall i | 0 <= i < |tail|
      ensures tail[i].key in rest && rest[tail[i].key] == tail[i].entry
    {
      assert q[0].key != q[i + 1].key;
    }
    forall key | key in rest
      ensures HasKey(tail, key)
    {
      assert HasKey(q, key);
      var i :| 0 <= i < |q| && q[i].key == key;
      assert tail[i - 1].key == key;
    }
  }

  lemma {:induction false} RepresentsSize<T>(q: seq<Item<T>>, entries: Entries<T>)
    requires Represents(q, entries)
    ensures |q| == |entries|
    decreases |q|
  {
    if q == [] {
      assert forall key :: key in entries ==> HasKey(q, key);
      assert entries == map[];
    } else {
      var rest := entries - {q[0].key};
      assert entries.Keys == rest.Keys + {q[0].key};
      TailRepresents(q, entries);
      RepresentsSize(q[1..], rest);
    }
  }

  /** The oldest entry is the front of the queue. */
  lemma FrontIsOldest<T>(q: seq<Item<T>>, entries: Entries<T>)
    requires Represents(q, entries) && |entries| > 0
    ensures q != [] && Oldest(entries) == q[0].key
  {
    RepresentsSize(q, entries);
    OldestIsUnique(entries);
    forall other | other in entries && other != q[0].key
      ensures q[0].entry.createdAt < entries[other].createdAt
    {
      assert HasKey(q, other);
      var i :| 0 <= i < |q| && q[i].key == other;
    }
    AtMostTotal(q[0].key, q[0].key);
    assert IsOldest(entries, q[0].key);
  }

  lemma LastItemsStep<T>(q: seq<Item<T>>, max: nat)
    requires |q| > max
    ensures LastItems(q, max) == LastItems(q[1..], max)
  {
  }

  lemma EvictedStep<T>(entries: Entries<T>, oldest: string, max: nat)
    requires |entries| > max && Oldest(entries) == oldest
    ensures Evicted(entries, max) == Evicted(entries - {oldest}, max)
  {
    hide Oldest, IsOldest;
  }

  lemma FrontIsEvicted<T>(q: seq<Item<T>>, entries: Entries<T>, max: nat)
    requires Represents(q, entries)
    ensures |entries| <= max ==> Evicted(entries, max) == entries && LastItems(q, max) == q
    ensures |entries| > max ==>
              && q != []
              && Represents(q[1..], entries - {q[0].key})
              && Evicted(entries, max) == Evicted(entries - {q[0].key}, max)
              && LastItems(q, max) == LastItems(q[1..], max)
  {
    RepresentsSize(q, entries);
    if |entries| > max {
      FrontIsOldest(q, entries);
      TailRepresents(q, entries);
      hide Represents, Evicted, LastItems;
      EvictedStep(entries, q[0].key, max);
      LastItemsStep(q, max);
    }
  }

  /** Eviction drops a prefix of the queue: the last items stay, as many as there is room for. */
  lemma {:induction false} EvictionDropsFront<T>(q: seq<Item<T>>, entries: Entries<T>, max: nat)
    requires Represents(q, entries)
    ensures Represents(LastItems(q, max), Evicted(entries, max))
    decreases |q|
  {
    hide Represents, Evicted, LastItems;
    FrontIsEvicted(q, entries, max);
    if |entries| > max {
      EvictionDropsFront(q[1..], entries - {q[0].key}, max);
    }
  }

  lemma SweptKeepsAll<T>(q: seq<Item<T>>, entries: Entries<T>, now: nat, ttl: nat)
    requires Represents(q, entries)
    requires q == [] || IsAlive(q[0].entry, now, ttl)
    ensures Swept(entries, now, ttl) == entries
  {
    forall key | key in entries
      ensures IsAlive(entries[key], now, ttl)
    {
      assert HasKey(q, key);
      var i :| 0 <= i < |q| && q[i].key == key;
    }
  }

  lemma SweptLosesKey<T>(entries: Entries<T>, key: string, now: nat, ttl: nat)
    requires key in entries && !IsAlive(entries[key], now, ttl)
    ensures Swept(entries, now, ttl) == Swept(entries - {key}, now, ttl)
  {
  }

  /** Expiry drops a prefix of the queue. */
  lemma {:induction false} ExpiryDropsPrefix<T>(q: seq<Item<T>>, entries: Entries<T>, now: nat, ttl: nat)
    requires Represents(q, entries)
    ensures Represents(DropExpired(q, now, ttl), Swept(entries, now, ttl))
    decreases |q|
  {
    if q == [] || IsAlive(q[0].entry, now, ttl) {
      SweptKeepsAll(q, entries, now, ttl);
    } else {
      TailRepresents(q, entries);
      SweptLosesKey(entries, q[0].key, now, ttl);
      hide Represents, Swept;
      ExpiryDropsPrefix(q[1..], entries - {q[0].key}, now, ttl);
    }
  }

  /** Insertion under a new key at a later time appends. */
  lemma InsertAppends<T>(q: seq<Item<T>>, entries: Entries<T>, item: Item<T>)
    requires Represents(q, entries) && item.key !in entries
    requires forall i :: 0 <= i < |q| ==> q[i].entry.createdAt < item.entry.createdAt
    ensures Represents(q + [item], entries[item.key := item.entry])
  {
    var longer := q + [item];
    forall key | key in entries || key == item.key
      ensures HasKey(longer, key)
    {
      if key == item.key {
        assert longer[|q|].key == key;
      } else {
        assert HasKey(q, key);
        var i :| 0 <= i < |q| && q[i].key == key;
        assert longer[i].key == key;
      }
    }
  }

  lemma HeadInOrder<T>(head: Item<T>, q: seq<Item<T>>)
    requires InOrder(q)
    requires forall i :: 0 <= i < |q| ==> head.entry.createdAt < q[i].entry.createdAt && head.key != q[i].key
    ensures InOrder([head] + q)
  {
    var longer := [head] + q;
    assert forall i :: 1 <= i < |longer| ==> longer[i] == q[i - 1];
  }

  lemma HeadHasKeys<T>(head: Item<T>, q: seq<Item<T>>, key: string)
    ensures HasKey([head] + q, key) <==> head.key == key || HasKey(q, key)
  {
    var longer := [head] + q;
    assert longer[0] == head && forall i :: 0 <= i < |q| ==> longer[i + 1] == q[i];
    assert forall i :: 1 <= i < |longer| ==> longer[i] == q[i - 1];
  }

  lemma HeadRepresents<T>(head: Item<T>, q: seq<Item<T>>, entries: Entries<T>)
    requires Represents(q, entries) && head.key !in entries
    requires forall i :: 0 <= i < |q| ==> head.entry.createdAt < q[i].entry.createdAt
    ensures Represents([head] + q, entries[head.key := head.entry])
  {
    var longer, more := [head] + q, entries[head.key := head.entry];
    HeadInOrder(head, q);
    hide InOrder, HasKey;
    forall key | key in more
      ensures HasKey(longer, key)
    {
      HeadHasKeys(head, q, key);
    }
    forall i | 0 <= i < |longer|
      ensures longer[i].key in more && more[longer[i].key] == longer[i].entry
    {
      assert longer[i] == if i == 0 then head else q[i - 1];
    }
  }

  lemma {:induction false} DropKeyKeepsItems<T>(q: seq<Item<T>>, key: string)
    ensures forall i :: 0 <= i < |DropKey(q, key)| ==> DropKey(q, key)[i] in q
  {
    if q != [] && q[0].key != key {
      DropKeyKeepsItems(q[1..], key);
    }
  }

  lemma {:induction false} DropExpiredIsSuffix<T>(q: seq<Item<T>>, now: nat, ttl: nat)
    ensures |DropExpired(q, now, ttl)| <= |q|
    ensures DropExpired(q, now, ttl) == q[|q| - |DropExpired(q, now, ttl)|..]
  {
    if q != [] && !IsAlive(q[0].entry, now, ttl) {
      DropExpiredIsSuffix(q[1..], now, ttl);
    }
  }

  /** Removal takes out the item with the key, if there is one. */
  lemma {:induction false} RemovalDropsKey<T>(q: seq<Item<T>>, entries: Entries<T>, key: string)
    requires Represents(q, entries)
    ensures Represents(DropKey(q, key), entries - {key})
    decreases |q|
  {
    if q == [] {
      assert forall other :: other in entries ==> HasKey(q, other);
      assert entries == map[] && entries - {key} == map[];
    } else {
      TailRepresents(q, entries);
      if q[0].key != key {
        RemovalDropsKeyInTail(q, entries, key);
      }
    }
  }

  lemma {:induction false} RemovalDropsKeyInTail<T>(q: seq<Item<T>>, entries: Entries<T>, key: string)
    requires Represents(q, entries) && q != [] && q[0].key != key
    ensures Represents(DropKey(q, key), entries - {key})
    decreases |q|, 0
  {
    var head, rest := q[0], DropKey(q[1..], key);
    var others := entries - {head.key} - {key};
    TailRepresents(q, entries);
    HeadIsFirst(q, entries, key);
    hide Represents, InOrder;
    assert others[head.key := head.entry] == entries - {key};
    RemovalDropsKey(q[1..], entries - {head.key}, key);
    HeadRepresents(head, rest, others);
  }

  lemma HeadIsFirst<T>(q: seq<Item<T>>, entries: Entries<T>, key: string)
    requires Represents(q, entries) && q != []
    ensures q[0].key in entries && entries[q[0].key] == q[0].entry
    ensures var rest := DropKey(q[1..], key);
            forall i :: 0 <= i < |rest| ==> q[0].entry.createdAt < rest[i].entry.createdAt
  {
    var rest := DropKey(q[1..], key);
    DropKeyKeepsItems(q[1..], key);
    hide DropKey, HasKey;
    forall i | 0 <= i < |rest|
      ensures q[0].entry.createdAt < rest[i].entry.createdAt
    {
      var j :| 0 <= j < |q[1..]| && q[1..][j] == rest[i];
      assert q[j + 1] == rest[i];
    }
  }

  // ---------------------------------------------------------------------------------------------
  // Runs
  // ---------------------------------------------------------------------------------------------

  /**
   A call at a time.  Inserting a value without a reserved key is a reservation and an insertion, and
   looking up by key or by a test only sweeps.
   */
  datatype Call<!T> =
    | ReserveCall(now: nat)
    | InsertCall(now: nat, key: string, value: T)
    | RemoveCall(now: nat, key: string)
    | RemoveWhereCall(now: nat, p: T -> bool)
    | LookupCall(now: nat)

  function Did<T>(s: Store<T>, call: Call<T>): Store<T> {
    match call
    case ReserveCall(now) => Reserve(s, now).0
    case InsertCall(now, key, value) => InsertAt(s, key, value, now, now)
    case RemoveCall(now, key) => Without(s, key, now)
    case RemoveWhereCall(now, p) =>
      (match FirstMatch(s, p, now)
       case None => Sweep(s, now)
       case Some(key) => Without(s, key, now))
    case LookupCall(now) => Sweep(s, now)
  }

  /** The same call on the queue. */
  function Queued<T>(q: seq<Item<T>>, s: Store<T>, call: Call<T>): seq<Item<T>> {
    var alive := DropExpired(q, call.now, s.ttl);
    match call
    case InsertCall(now, key, value) => LastItems(alive + [Item(key, Entry(value, now))], s.maxEntries)
    case RemoveCall(_, key) => DropKey(alive, key)
    case RemoveWhereCall(now, p) =>
      (match FirstMatch(s, p, now)
       case None => alive
       case Some(key) => DropKey(alive, key))
    case _ => alive
  }

  function DidAll<T>(s: Store<T>, calls: seq<Call<T>>): Store<T> {
    if calls == [] then s else Did(DidAll(s, calls[..|calls| - 1]), calls[|calls| - 1])
  }

  function QueuedAll<T>(s: Store<T>, calls: seq<Call<T>>): seq<Item<T>> {
    if calls == [] then []
    else var before := calls[..|calls| - 1];
         Queued(QueuedAll(s, before), DidAll(s, before), calls[|calls| - 1])
  }

  /** The clock moves on between calls, and no key is inserted twice. */
  ghost predicate ClockAndKeysAreFresh<T>(calls: seq<Call<T>>) {
    forall i, j :: 0 <= i < j < |calls| ==>
      && calls[i].now < calls[j].now
      && (calls[i].InsertCall? && calls[j].InsertCall? ==> calls[i].key != calls[j].key)
  }

  /** The item was put in the queue by one of the calls. */
  ghost predicate WasInserted<T>(item: Item<T>, calls: seq<Call<T>>) {
    exists i :: 0 <= i < |calls| && calls[i] == InsertCall(item.entry.createdAt, item.key, item.entry.value)
  }

  ghost predicate AllInserted<T>(q: seq<Item<T>>, calls: seq<Call<T>>) {
    forall item :: item in q ==> WasInserted(item, calls)
  }

  lemma CallOnQueueItems<T>(q: seq<Item<T>>, s: Store<T>, call: Call<T>)
    ensures forall item :: item in Queued(q, s, call) ==>
              item in q || call == InsertCall(item.entry.createdAt, item.key, item.entry.value)
  {
    var alive := DropExpired(q, call.now, s.ttl);
    DropExpiredIsSuffix(q, call.now, s.ttl);
    match call {
      case InsertCall(_, _, _) =>
      case RemoveCall(_, key) => DropKeyKeepsItems(alive, key);
      case RemoveWhereCall(now, p) =>
        match FirstMatch(s, p, now) {
          case None =>
          case Some(key) => DropKeyKeepsItems(alive, key);
        }
      case _ =>
    }
  }

  /** A call on the store is the call on the queue it holds. */
  lemma CallRefinesQueue<T>(s: Store<T>, q: seq<Item<T>>, call: Call<T>)
    requires Represents(q, s.entries)
    requires call.InsertCall? ==>
               call.key !in s.entries && forall i :: 0 <= i < |q| ==> q[i].entry.createdAt < call.now
    ensures Represents(Queued(q, s, call), Did(s, call).entries)
  {
    var now := call.now;
    var alive, kept := DropExpired(q, now, s.ttl), Swept(s.entries, now, s.ttl);
    DropExpiredIsSuffix(q, now, s.ttl);
    ExpiryDropsPrefix(q, s.entries, now, s.ttl);
    hide Represents, Evicted, DropExpired, LastItems, DropKey, FirstMatch;
    match call {
      case InsertCall(_, key, value) =>
        var item := Item(key, Entry(value, now));
        InsertAppends(alive, kept, item);
        EvictionDropsFront(alive + [item], kept[key := item.entry], s.maxEntries);
      case RemoveCall(_, key) => RemovalDropsKey(alive, kept, key);
      case RemoveWhereCall(_, p) =>
        match FirstMatch(s, p, now) {
          case None =>
          case Some(key) => RemovalDropsKey(alive, kept, key);
        }
      case _ =>
    }
  }

  /**
   Over every run on a strictly increasing clock with fresh keys, the store holds a queue in order of
   time: expiry drops a prefix, insertion appends and then drops from the front down to the capacity,
   and a removal takes out its key.
   */
  lemma {:induction false} StoreRefinesQueue<T>(s: Store<T>, calls: seq<Call<T>>)
    requires s.entries == map[] && ClockAndKeysAreFresh(calls)
    ensures Represents(QueuedAll(s, calls), DidAll(s, calls).entries)
    ensures AllInserted(QueuedAll(s, calls), calls)
    ensures DidAll(s, calls).ttl == s.ttl && DidAll(s, calls).maxEntries == s.maxEntries
  {
    if calls != [] {
      var before, last := calls[..|calls| - 1], calls[|calls| - 1];
      FreshBefore(calls);
      StoreRefinesQueue(s, before);
      var was, q := DidAll(s, before), QueuedAll(s, before);
      assert DidAll(s, calls) == Did(was, last) && QueuedAll(s, calls) == Queued(q, was, last);
      LimitsAreKept(was, last);
      hide DidAll, QueuedAll, Did, Queued, Represents, ClockAndKeysAreFresh, AllInserted;
      NewestIsFresh(q, was.entries, calls);
      CallRefinesQueue(was, q, last);
      InsertedOneMore(q, was, calls);
    }
  }

  lemma FreshBefore<T>(calls: seq<Call<T>>)
    requires ClockAndKeysAreFresh(calls) && calls != []
    ensures ClockAndKeysAreFresh(calls[..|calls| - 1])
  {
  }

  lemma LimitsAreKept<T>(s: Store<T>, call: Call<T>)
    ensures Did(s, call).ttl == s.ttl && Did(s, call).maxEntries == s.maxEntries
  {
    hide Swept, Evicted, FirstMatch;
  }

  lemma InsertedOneMore<T>(q: seq<Item<T>>, s: Store<T>, calls: seq<Call<T>>)
    requires calls != [] && AllInserted(q, calls[..|calls| - 1])
    ensures AllInserted(Queued(q, s, calls[|calls| - 1]), calls)
  {
    var before, last := calls[..|calls| - 1], calls[|calls| - 1];
    CallOnQueueItems(q, s, last);
    hide Queued;
    forall item | item in Queued(q, s, last)
      ensures WasInserted(item, calls)
    {
      if item in q {
        assert WasInserted(item, before);
        var i :| 0 <= i < |before| && before[i] == InsertCall(item.entry.createdAt, item.key, item.entry.value);
        assert calls[i] == before[i];
      } else {
        assert calls[|calls| - 1] == InsertCall(item.entry.createdAt, item.key, item.entry.value);
      }
    }
  }

  lemma NewestIsFresh<T>(q: seq<Item<T>>, entries: Entries<T>, calls: seq<Call<T>>)
    requires ClockAndKeysAreFresh(calls) && calls != []
    requires Represents(q, entries) && AllInserted(q, calls[..|calls| - 1])
    ensures forall i :: 0 <= i < |q| ==> q[i].entry.createdAt < calls[|calls| - 1].now
    ensures calls[|calls| - 1].InsertCall? ==> calls[|calls| - 1].key !in entries
  {
    var before, last := calls[..|calls| - 1], calls[|calls| - 1];
    forall i | 0 <= i < |q|
      ensures q[i].entry.createdAt < last.now
      ensures last.InsertCall? ==> q[i].key != last.key
    {
      var item := q[i];
      assert WasInserted(item, before);
      var j :| 0 <= j < |before| && before[j] == InsertCall(item.entry.createdAt, item.key, item.entry.value);
      assert calls[j] == before[j];
    }
    assert last.InsertCall? ==> !HasKey(q, last.key);
  }

  /** A store within its capacity stays there, whatever the keys and the clock. */
  lemma {:induction false} CapacityIsKept<T>(s: Store<T>, calls: seq<Call<T>>)
    requires |s.entries| <= s.maxEntries
    ensures DidAll(s, calls).maxEntries == s.maxEntries && DidAll(s, calls).ttl == s.ttl
    ensures |DidAll(s, calls).entries| <= s.maxEntries
  {
    if calls != [] {
      var before, last := calls[..|calls| - 1], calls[|calls| - 1];
      CapacityIsKept(s, before);
      var was := DidAll(s, before);
      SweptIsSmaller(was.entries, last.now, s.ttl);
      if last.InsertCall? {
        EvictedFits(Swept(was.entries, last.now, s.ttl)[last.key := Entry(last.value, last.now)], s.maxEntries);
      }
    }
  }

  lemma SweptIsSmaller<T>(entries: Entries<T>, now: nat, ttl: nat)
    ensures |Swept(entries, now, ttl)| <= |entries|
    ensures forall key :: |Swept(entries, now, ttl) - {key}| <= |entries|
  {
    Fewer(Swept(entries, now, ttl), entries);
    forall key
      ensures |Swept(entries, now, ttl) - {key}| <= |entries|
    {
      Fewer(Swept(entries, now, ttl) - {key}, entries);
    }
  }

  lemma {:induction false} FewerKeys(a: set<string>, b: set<string>)
    requires a <= b
    ensures |a| <= |b|
  {
    if a != {} {
      var x :| x in a;
      FewerKeys(a - {x}, b - {x});
    }
  }

  lemma Fewer<T>(a: Entries<T>, b: Entries<T>)
    requires a.Keys <= b.Keys
    ensures |a| <= |b|
  {
    FewerKeys(a.Keys, b.Keys);
  }

  lemma {:induction false} EvictedFits<T>(entries: Entries<T>, max: nat)
    ensures |Evicted(entries, max)| <= max
    decreases |entries|
  {
    if |entries| > max {
      EvictedFits(entries - {Oldest(entries)}, max);
    }
  }

  /** The key a reservation gives out. */
  function ReservedBy<T>(s: Store<T>, calls: seq<Call<T>>, i: nat): string
    requires i < |calls| && calls[i].ReserveCall?
  {
    Reserve(DidAll(s, calls[..i]), calls[i].now).1
  }

  lemma ReservedByCounter<T>(s: Store<T>, calls: seq<Call<T>>, i: nat)
    requires i < |calls| && calls[i].ReserveCall?
    ensures ReservedBy(s, calls, i) == Numeral(DidAll(s, calls[..i]).nextId + 1, 36)
  {
    hide Numeral, DidAll, Swept;
  }

  /** The counter is higher at a later reservation. */
  lemma CounterIsHigher<T>(s: Store<T>, calls: seq<Call<T>>, i: nat, j: nat)
    requires i < j < |calls| && calls[i].ReserveCall?
    ensures DidAll(s, calls[..i]).nextId < DidAll(s, calls[..j]).nextId <= s.nextId + j
  {
    ReservationCounts(s, calls, i);
    assert DidAll(s, calls[..0]) == s;
    hide DidAll;
    CounterGrows(s, calls, 0, j);
    CounterGrows(s, calls, i + 1, j);
  }

  /** Over every run in which the counter stays in 64 bits, no two reservations give out the same key. */
  lemma ReservedKeysNeverRepeat<T>(s: Store<T>, calls: seq<Call<T>>, i: nat, j: nat)
    requires i < j < |calls| && calls[i].ReserveCall? && calls[j].ReserveCall?
    requires s.nextId + |calls| < U64
    ensures ReservedBy(s, calls, i) != ReservedBy(s, calls, j)
    ensures |ReservedBy(s, calls, i)| <= 13
  {
    hide DidAll, Numeral, ReservedBy;
    ReservedByCounter(s, calls, i);
    ReservedByCounter(s, calls, j);
    CounterIsHigher(s, calls, i, j);
    KeysAreShortAndDistinct(DidAll(s, calls[..i]).nextId + 1, DidAll(s, calls[..j]).nextId + 1);
  }

  lemma ReservationCounts<T>(s: Store<T>, calls: seq<Call<T>>, i: nat)
    requires i < |calls| && calls[i].ReserveCall?
    ensures DidAll(s, calls[..i + 1]).nextId == DidAll(s, calls[..i]).nextId + 1
  {
    assert calls[..i + 1][..i] == calls[..i];
    hide Swept, Evicted;
  }

  lemma CounterStep<T>(s: Store<T>, calls: seq<Call<T>>, n: nat)
    requires n < |calls|
    ensures DidAll(s, calls[..n]).nextId <= DidAll(s, calls[..n + 1]).nextId <= DidAll(s, calls[..n]).nextId + 1
  {
    assert calls[..n + 1][..n] == calls[..n];
    hide Swept, Evicted, Matching;
  }

  lemma {:induction false} CounterGrows<T>(s: Store<T>, calls: seq<Call<T>>, i: nat, j: nat)
    requires i <= j <= |calls|
    ensures DidAll(s, calls[..i]).nextId <= DidAll(s, calls[..j]).nextId <= DidAll(s, calls[..i]).nextId + j - i
    decreases j
  {
    hide DidAll;
    if i < j {
      CounterGrows(s, calls, i, j - 1);
      CounterStep(s, calls, j - 1);
    }
  }

  /** No lookup and no removal ever returns an entry older than the time to live. */
  lemma NothingStaleIsReturned<T>(s: Store<T>, key: string, now: nat)
    ensures Get(s, key, now).Some? <==> key in s.entries && now - s.entries[key].createdAt <= s.ttl
    ensures Get(s, key, now).Some? ==> Get(s, key, now).value == s.entries[key].value
  {
  }

  /**
   After an insertion the store holds the value, from the time of its creation on, unless it was one too many, and
   besides it only what was alive when the store was swept; nothing but the capacity takes any of that away.
   */
  lemma InsertedEntries<T>(s: Store<T>, key: string, value: T, sweptAt: nat, createdAt: nat, other: string)
    ensures var t := InsertAt(s, key, value, sweptAt, createdAt);
            && t.nextId == s.nextId && t.ttl == s.ttl && t.maxEntries == s.maxEntries
            && (key in t.entries ==> t.entries[key] == Entry(value, createdAt))
            && (other != key && other in t.entries ==>
                 other in s.entries && t.entries[other] == s.entries[other]
                 && sweptAt - s.entries[other].createdAt <= s.ttl)
            && (|Swept(s.entries, sweptAt, s.ttl)| < s.maxEntries ==>
                 && key in t.entries
                 && (other in s.entries && sweptAt - s.entries[other].createdAt <= s.ttl ==> other in t.entries))
  {
    var kept := Swept(s.entries, sweptAt, s.ttl);
    var with := kept[key := Entry(value, createdAt)];
    EvictedIsPart(with, s.maxEntries);
    assert with.Keys == kept.Keys + {key} && |with.Keys| <= |kept.Keys| + 1;
    assert other in s.entries ==>
      (IsAlive(s.entries[other], sweptAt, s.ttl) <==> sweptAt - s.entries[other].createdAt <= s.ttl);
    hide IsAlive;
  }

  lemma {:induction false} EvictedIsPart<T>(entries: Entries<T>, max: nat)
    ensures forall key :: key in Evicted(entries, max) ==> key in entries && Evicted(entries, max)[key] == entries[key]
    decreases |entries|
  {
    if |entries| > max {
      EvictedIsPart(entries - {Oldest(entries)}, max);
    }
  }

  /** The entry can be returned: it is not too old and passes the test. */
  predicate Fits<T>(s: Store<T>, key: string, p: T -> bool, now: nat) {
    key in s.entries && now - s.entries[key].createdAt <= s.ttl && p(s.entries[key].value)
  }

  /** A search returns the first fitting entry in the order of the keys, and none only if there is none. */
  lemma SearchReturnsFirstFit<T>(s: Store<T>, p: T -> bool, now: nat)
    ensures FirstMatch(s, p, now).None? ==> forall key :: !Fits(s, key, p, now)
    ensures FirstMatch(s, p, now).Some? ==>
              var found := FirstMatch(s, p, now).value;
              Fits(s, found, p, now) && forall key :: Fits(s, key, p, now) ==> AtMost(found, key)
  {
    var matching := Matching(Swept(s.entries, now, s.ttl), p);
    forall key
      ensures Fits(s, key, p, now) <==> key in matching
    {
      if key in s.entries {
        assert IsAlive(s.entries[key], now, s.ttl) <==> now - s.entries[key].createdAt <= s.ttl;
      }
    }
  }
}
