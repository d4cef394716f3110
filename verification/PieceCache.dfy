/**
 The byte-budget cache of verified pieces: a map plus a recency list, refining one sequence
 of entries ordered from the most to the least recently used.
 */
module PieceCache {
  import opened Common

  datatype Key = Key(torrentId: string, piece: U32)
  type Data = seq<Byte>
  datatype Entry = Entry(key: Key, data: Data)

  // ----- the specification: one recency-ordered sequence -----

  function Keys(s: seq<Entry>): set<Key> {
    if s == [] then {} else Keys(s[..|s| - 1]) + {s[|s| - 1].key}
  }

  lemma {:induction false} KeysMember(s: seq<Entry>, i: nat)
    requires i < |s|
    ensures s[i].key in Keys(s)
  {
    if i < |s| - 1 {
      KeysMember(s[..|s| - 1], i);
    }
  }

  function Total(s: seq<Entry>): nat {
    if s == [] then 0 else Total(s[..|s| - 1]) + |s[|s| - 1].data|
  }

  ghost predicate DistinctKeys(s: seq<Entry>) {
    forall i, j :: 0 <= i < j < |s| ==> s[i].key != s[j].key
  }

  function Lookup(s: seq<Entry>, key: Key): Option<Data> {
    if s == [] then None else if s[0].key == key then Some(s[0].data) else Lookup(s[1..], key)
  }

  /** The entries whose keys are not in `gone`, in the same order. */
  function Without(s: seq<Entry>, gone: set<Key>): seq<Entry> {
    if s == [] then []
    else
      var n := |s| - 1;
      if s[n].key in gone then Without(s[..n], gone) else Without(s[..n], gone) + [s[n]]
  }

  /** Drops least recent entries until at most `budget` bytes are left. */
  function Trim(s: seq<Entry>, budget: nat): seq<Entry> {
    if Total(s) <= budget || s == [] then s else Trim(s[..|s| - 1], budget)
  }

  function AfterGet(s: seq<Entry>, key: Key): seq<Entry> {
    match Lookup(s, key)
    case None => s
    case Some(data) => [Entry(key, data)] + Without(s, {key})
  }

  predicate Storable(data: Option<Data>, capacity: nat) {
    data.Some? && 0 < |data.value| <= capacity
  }

  function AfterPut(s: seq<Entry>, key: Key, data: Option<Data>, capacity: nat): seq<Entry> {
    var kept := Without(s, {key});
    if Storable(data, capacity) then [Entry(key, data.value)] + Trim(kept, capacity - |data.value|) else kept
  }

  function OfTorrent(keys: set<Key>, torrentId: string): set<Key> {
    set k | k in keys && k.torrentId == torrentId
  }

  // ----- facts about the specification -----

  /** What is dropped is the shortest suffix that makes room. */
  lemma {:induction false} TrimDropsShortestSuffix(s: seq<Entry>, budget: nat)
    ensures var t := Trim(s, budget);
      && |t| <= |s| && t == s[..|t|]
      && (Total(t) <= budget)
      && (|t| < |s| ==> Total(s[..|t| + 1]) > budget)
  {
    if Total(s) > budget && s != [] {
      var n := |s| - 1;
      TrimDropsShortestSuffix(s[..n], budget);
      var t := Trim(s[..n], budget);
      assert s[..n][..|t|] == s[..|t|];
      if |t| < n {
        assert s[..n][..|t| + 1] == s[..|t| + 1];
      } else {
        assert s[..n + 1] == s;
      }
    }
  }

  lemma {:induction false} TotalPrepend(e: Entry, s: seq<Entry>)
    ensures Total([e] + s) == |e.data| + Total(s)
  {
    if s == [] {
      assert ([e] + s)[..0] == [];
    } else {
      TotalPrepend(e, s[..|s| - 1]);
      assert ([e] + s)[..|s|] == [e] + s[..|s| - 1];
    }
  }

  lemma {:induction false} WithoutMember(s: seq<Entry>, gone: set<Key>, e: Entry)
    ensures e in Without(s, gone) <==> e in s && e.key !in gone
  {
    if s != [] {
      WithoutMember(s[..|s| - 1], gone, e);
      assert s == s[..|s| - 1] + [s[|s| - 1]];
    }
  }

  lemma {:induction false} WithoutKeys(s: seq<Entry>, gone: set<Key>)
    ensures Keys(Without(s, gone)) == Keys(s) - gone
  {
    if s != [] {
      var n := |s| - 1;
      WithoutKeys(s[..n], gone);
      if s[n].key !in gone {
        var w := Without(s[..n], gone);
        assert (w + [s[n]])[..|w|] == w;
      }
    }
  }

  /** Distinct keys, stated entry by entry from the front of the list. */
  lemma {:induction false} DistinctIffNewLast(s: seq<Entry>, e: Entry)
    requires DistinctKeys(s)
    ensures DistinctKeys(s + [e]) <==> e.key !in Keys(s)
  {
    if s != [] {
      var n := |s| - 1;
      DistinctIffNewLast(s[..n], e);
      forall i | 0 <= i < |s| ensures s[i].key in Keys(s) {
        KeysMember(s, i);
      }
      if e.key != s[n].key {
        assert (s + [e])[|s|] == e;
        if DistinctKeys(s[..n] + [e]) {
          forall i | 0 <= i < n ensures s[i].key != e.key {
            assert (s[..n] + [e])[i] == s[i] && (s[..n] + [e])[n] == e;
          }
        } else {
          assert e.key in Keys(s[..n]);
        }
      }
      if DistinctKeys(s + [e]) {
        assert (s + [e])[n] == s[n] && (s + [e])[|s|] == e;
        forall i, j | 0 <= i < j < |s[..n] + [e]| ensures (s[..n] + [e])[i].key != (s[..n] + [e])[j].key {
          assert (s + [e])[i] == s[i];
          assert j < n ==> (s + [e])[j] == s[j];
        }
      }
    }
  }

  lemma {:induction false} WithoutDistinct(s: seq<Entry>, gone: set<Key>)
    requires DistinctKeys(s)
    ensures DistinctKeys(Without(s, gone))
  {
    if s != [] {
      var n := |s| - 1;
      WithoutDistinct(s[..n], gone);
      WithoutKeys(s[..n], gone);
      assert s == s[..n] + [s[n]];
      DistinctIffNewLast(s[..n], s[n]);
      DistinctIffNewLast(Without(s[..n], gone), s[n]);
    }
  }

  lemma {:induction false} WithoutTotal(s: seq<Entry>, gone: set<Key>)
    ensures Total(Without(s, gone)) <= Total(s)
  {
    if s != [] {
      var n := |s| - 1;
      WithoutTotal(s[..n], gone);
      if s[n].key !in gone {
        var w := Without(s[..n], gone);
        assert (w + [s[n]])[..|w|] == w;
      }
    }
  }

  lemma {:induction false} KeysFirst(s: seq<Entry>)
    requires s != []
    ensures Keys(s) == {s[0].key} + Keys(s[1..])
  {
    if |s| > 1 {
      var n := |s| - 1;
      KeysFirst(s[..n]);
      assert s[..n][1..] == s[1..][..n - 1];
    }
  }

  lemma {:induction false} LookupFinds(s: seq<Entry>, key: Key)
    ensures Lookup(s, key).Some? ==> Entry(key, Lookup(s, key).value) in s
    ensures Lookup(s, key).None? <==> key !in Keys(s)
  {
    if s != [] {
      LookupFinds(s[1..], key);
      KeysFirst(s);
      assert s == [s[0]] + s[1..];
    }
  }

  lemma {:induction false} LookupAt(s: seq<Entry>, i: nat)
    requires DistinctKeys(s) && i < |s|
    ensures Lookup(s, s[i].key) == Some(s[i].data)
  {
    if i > 0 {
      LookupAt(s[1..], i - 1);
      assert s[1..][i - 1] == s[i];
    }
  }

  lemma {:induction false} LookupWithout(s: seq<Entry>, gone: set<Key>, key: Key)
    requires DistinctKeys(s)
    ensures Lookup(Without(s, gone), key) == if key in gone then None else Lookup(s, key)
  {
    var t := Without(s, gone);
    WithoutDistinct(s, gone);
    WithoutKeys(s, gone);
    LookupFinds(s, key);
    LookupFinds(t, key);
    if key in Keys(t) {
      var e := Entry(key, Lookup(t, key).value);
      WithoutMember(s, gone, e);
      var i :| 0 <= i < |s| && s[i] == e;
      LookupAt(s, i);
    }
  }

  /**
   A piece that can be stored is found at once and is the most recent; of the others, in their order, as many
   stay as fit beside it.  One that cannot be stored leaves, and nobody else does.
   */
  lemma PutExactly(s: seq<Entry>, key: Key, data: Option<Data>, capacity: nat)
    requires DistinctKeys(s)
    ensures var t, others := AfterPut(s, key, data, capacity), Without(s, {key});
      && Lookup(t, key) == (if Storable(data, capacity) then data else None)
      && (!Storable(data, capacity) ==> forall k :: k != key ==> Lookup(t, k) == Lookup(s, k))
      && (Storable(data, capacity) ==>
          && t != [] && t[0] == Entry(key, data.value) && |t| <= |others| + 1 && t[1..] == others[..|t| - 1]
          && Total(t) <= capacity
          && (|t| <= |others| ==> |data.value| + Total(others[..|t|]) > capacity))
  {
    var t, others := AfterPut(s, key, data, capacity), Without(s, {key});
    if Storable(data, capacity) {
      var budget := capacity - |data.value|;
      TrimDropsShortestSuffix(others, budget);
      var rest := Trim(others, budget);
      assert t[1..] == rest;
      TotalPrepend(Entry(key, data.value), rest);
    } else {
      forall k ensures Lookup(t, k) == if k == key then None else Lookup(s, k) {
        LookupWithout(s, {key}, k);
      }
    }
  }

  ghost predicate Sound(s: seq<Entry>, capacity: nat) {
    DistinctKeys(s) && Total(s) <= capacity
  }

  lemma DistinctPrepend(e: Entry, s: seq<Entry>)
    requires DistinctKeys(s) && e.key !in Keys(s)
    ensures DistinctKeys([e] + s)
  {
    forall i | 0 <= i < |s| ensures s[i].key != e.key {
      KeysMember(s, i);
    }
  }

  lemma {:induction false} KeysPrefix(s: seq<Entry>, n: nat)
    requires n <= |s|
    ensures Keys(s[..n]) <= Keys(s)
  {
    if n == |s| {
      assert s[..n] == s;
    } else {
      assert s[..|s| - 1][..n] == s[..n];
      KeysPrefix(s[..|s| - 1], n);
    }
  }

  /** A put keeps keys distinct and the total within the capacity. */
  lemma PutKeepsSound(s: seq<Entry>, key: Key, data: Option<Data>, capacity: nat)
    requires Sound(s, capacity)
    ensures Sound(AfterPut(s, key, data, capacity), capacity)
  {
    var kept := Without(s, {key});
    WithoutDistinct(s, {key});
    WithoutTotal(s, {key});
    WithoutKeys(s, {key});
    if Storable(data, capacity) {
      var budget := capacity - |data.value|;
      TrimDropsShortestSuffix(kept, budget);
      KeysPrefix(kept, |Trim(kept, budget)|);
      DistinctPrepend(Entry(key, data.value), Trim(kept, budget));
      TotalPrepend(Entry(key, data.value), Trim(kept, budget));
    }
  }

  lemma PutMembers(s: seq<Entry>, key: Key, data: Option<Data>, capacity: nat, e: Entry)
    requires e in AfterPut(s, key, data, capacity)
    ensures (e.key == key && Storable(data, capacity) && e.data == data.value) || (e.key != key && e in s)
  {
    var kept := Without(s, {key});
    WithoutMember(s, {key}, e);
    if Storable(data, capacity) {
      TrimDropsShortestSuffix(kept, capacity - |data.value|);
      assert e == Entry(key, data.value) || e in kept;
    }
  }

  lemma {:induction false} TotalWithout(s: seq<Entry>, e: Entry)
    requires DistinctKeys(s) && e in s
    ensures Total(Without(s, {e.key})) + |e.data| == Total(s)
  {
    var n := |s| - 1;
    assert s == s[..n] + [s[n]];
    if s[n] == e {
      WithoutNothing(s[..n], {e.key});
    } else {
      assert e in s[..n];
      TotalWithout(s[..n], e);
      assert s[n].key != e.key;
      var w := Without(s[..n], {e.key});
      assert (w + [s[n]])[..|w|] == w;
    }
  }

  lemma {:induction false} WithoutNothing(s: seq<Entry>, gone: set<Key>)
    requires forall i :: 0 <= i < |s| ==> s[i].key !in gone
    ensures Without(s, gone) == s
  {
    if s != [] {
      WithoutNothing(s[..|s| - 1], gone);
      assert s == s[..|s| - 1] + [s[|s| - 1]];
    }
  }

  /** A get keeps exactly the same entries, puts the hit in front and leaves a miss alone. */
  lemma GetKeepsSound(s: seq<Entry>, key: Key, capacity: nat)
    requires Sound(s, capacity)
    ensures Sound(AfterGet(s, key), capacity) && Total(AfterGet(s, key)) == Total(s)
    ensures forall e :: e in AfterGet(s, key) <==> e in s
    ensures Lookup(s, key).Some? ==>
      AfterGet(s, key) != [] && AfterGet(s, key)[0] == Entry(key, Lookup(s, key).value)
    ensures Lookup(s, key).None? ==> AfterGet(s, key) == s
  {
    SameEntries(s, key);
    LookupFinds(s, key);
    if Lookup(s, key).Some? {
      var e := Entry(key, Lookup(s, key).value);
      WithoutKeys(s, {key});
      WithoutDistinct(s, {key});
      DistinctPrepend(e, Without(s, {key}));
      TotalWithout(s, e);
      TotalPrepend(e, Without(s, {key}));
    }
  }

  lemma SameEntries(s: seq<Entry>, key: Key)
    requires DistinctKeys(s)
    ensures forall e :: e in AfterGet(s, key) <==> e in s
  {
    LookupFinds(s, key);
    forall e ensures e in AfterGet(s, key) <==> e in s {
      WithoutMember(s, {key}, e);
      if e in s && e.key == key {
        var i :| 0 <= i < |s| && s[i] == e;
        LookupAt(s, i);
      }
    }
  }

  lemma GetMembers(s: seq<Entry>, key: Key, e: Entry)
    requires e in AfterGet(s, key)
    ensures e in s
  {
    LookupFinds(s, key);
    WithoutMember(s, {key}, e);
  }

  // ----- whole runs -----

  datatype Op = Get(key: Key) | Put(key: Key, data: Option<Data>) | EraseTorrent(torrentId: string) | Clear

  function Apply(s: seq<Entry>, op: Op, capacity: nat): seq<Entry> {
    match op
    case Get(key) => AfterGet(s, key)
    case Put(key, data) => AfterPut(s, key, data, capacity)
    case EraseTorrent(id) => Without(s, OfTorrent(Keys(s), id))
    case Clear => []
  }

  function After(ops: seq<Op>, capacity: nat): seq<Entry> {
    if ops == [] then [] else Apply(After(ops[..|ops| - 1], capacity), ops[|ops| - 1], capacity)
  }

  /** The last value stored under the key and not erased since. */
  function LatestPut(ops: seq<Op>, key: Key, capacity: nat): Option<Data> {
    if ops == [] then None
    else
      var before := LatestPut(ops[..|ops| - 1], key, capacity);
      match ops[|ops| - 1]
      case Get(_) => before
      case Put(k, data) => if k != key then before else if Storable(data, capacity) then data else None
      case EraseTorrent(id) => if key.torrentId == id then None else before
      case Clear => None
  }

  /** After any run: distinct keys, within capacity, and a hit is always the latest put. */
  lemma {:induction false} RunTheorem(ops: seq<Op>, capacity: nat)
    ensures Sound(After(ops, capacity), capacity)
    ensures forall e :: e in After(ops, capacity) ==> LatestPut(ops, e.key, capacity) == Some(e.data)
  {
    if ops != [] {
      var s, op := After(ops[..|ops| - 1], capacity), ops[|ops| - 1];
      RunTheorem(ops[..|ops| - 1], capacity);
      ApplyKeepsSound(s, op, capacity);
      forall e | e in After(ops, capacity) ensures LatestPut(ops, e.key, capacity) == Some(e.data) {
        match op {
          case Get(key) => GetMembers(s, key, e);
          case Put(key, data) => PutMembers(s, key, data, capacity, e);
          case EraseTorrent(id) =>
            WithoutMember(s, OfTorrent(Keys(s), id), e);
            var i :| 0 <= i < |s| && s[i] == e;
            KeysMember(s, i);
          case Clear =>
        }
      }
    }
  }

  lemma ApplyKeepsSound(s: seq<Entry>, op: Op, capacity: nat)
    requires Sound(s, capacity)
    ensures Sound(Apply(s, op, capacity), capacity)
  {
    match op
    case Get(key) => GetKeepsSound(s, key, capacity);
    case Put(key, data) => PutKeepsSound(s, key, data, capacity);
    case EraseTorrent(id) =>
      WithoutDistinct(s, OfTorrent(Keys(s), id));
      WithoutTotal(s, OfTorrent(Keys(s), id));
    case Clear =>
  }

  // ----- the cache object -----

  /** The map and the recency list together hold exactly the entries of `s`. */
  ghost predicate Represents(recency: seq<Key>, entries: map<Key, Data>, s: seq<Entry>) {
    && DistinctKeys(s) && Keys(s) == entries.Keys && |s| == |recency|
    && (forall i :: 0 <= i < |s| ==> recency[i] == s[i].key)
    && (forall i :: 0 <= i < |s| ==> s[i].key in entries && entries[s[i].key] == s[i].data)
  }

  function Removed(recency: seq<Key>, position: nat): seq<Key>
    requires position < |recency|
  {
    recency[..position] + recency[position + 1..]
  }

  lemma RemoveRepresents(recency: seq<Key>, entries: map<Key, Data>, s: seq<Entry>, position: nat)
    requires Represents(recency, entries, s) && position < |recency|
    ensures Represents(Removed(recency, position), entries - {recency[position]}, Without(s, {recency[position]}))
    ensures Total(Without(s, {recency[position]})) + |entries[recency[position]]| == Total(s)
  {
    var key := recency[position];
    RemoveAt(s, position);
    WithoutDistinct(s, {key});
    WithoutKeys(s, {key});
    TotalWithout(s, s[position]);
    RemovedEntries(recency, entries, s, position);
  }

  lemma RemovedEntries(recency: seq<Key>, entries: map<Key, Data>, s: seq<Entry>, position: nat)
    requires Represents(recency, entries, s) && position < |recency|
    requires Without(s, {recency[position]}) == s[..position] + s[position + 1..]
    requires Keys(Without(s, {recency[position]})) == (entries - {recency[position]}).Keys
    ensures var r, t, m := Removed(recency, position), Without(s, {recency[position]}), entries - {recency[position]};
      |t| == |r| && forall i :: 0 <= i < |t| ==> r[i] == t[i].key && t[i].key in m && m[t[i].key] == t[i].data
  {
    var key, t, r := recency[position], Without(s, {recency[position]}), Removed(recency, position);
    forall i | 0 <= i < |t| ensures r[i] == t[i].key && t[i].key in entries - {key} && entries[t[i].key] == t[i].data {
      var j := if i < position then i else i + 1;
      assert t[i] == s[j] && r[i] == recency[j];
      KeysMember(t, i);
    }
  }

  lemma PushRepresents(recency: seq<Key>, entries: map<Key, Data>, s: seq<Entry>, key: Key, data: Data)
    requires Represents(recency, entries, s) && key !in entries
    ensures Represents([key] + recency, entries[key := data], [Entry(key, data)] + s)
    ensures Total([Entry(key, data)] + s) == |data| + Total(s)
  {
    var e := Entry(key, data);
    TotalPrepend(e, s);
    DistinctPrepend(e, s);
    KeysFirst([e] + s);
    assert ([e] + s)[1..] == s;
  }

  /** Moving an entry to the front of the list is what a hit does to the sequence. */
  lemma TouchRepresents(recency: seq<Key>, entries: map<Key, Data>, s: seq<Entry>, position: nat)
    requires Represents(recency, entries, s) && position < |recency|
    ensures var key := recency[position];
      && Lookup(s, key) == Some(entries[key])
      && Represents([key] + Removed(recency, position), entries, AfterGet(s, key))
      && Total(AfterGet(s, key)) == Total(s)
  {
    var key := recency[position];
    LookupAt(s, position);
    RemoveRepresents(recency, entries, s, position);
    PushRepresents(Removed(recency, position), entries - {key}, Without(s, {key}), key, entries[key]);
    PutBack(entries, key);
  }

  lemma PutBack(entries: map<Key, Data>, key: Key)
    requires key in entries
    ensures (entries - {key})[key := entries[key]] == entries
  {
  }

  lemma MissRepresents(recency: seq<Key>, entries: map<Key, Data>, s: seq<Entry>, key: Key)
    requires Represents(recency, entries, s) && key !in entries
    ensures Lookup(s, key) == None && AfterGet(s, key) == s && Without(s, {key}) == s
  {
    LookupFinds(s, key);
    AbsentKey(s, key);
  }

  lemma DropLeastRecent(recency: seq<Key>, entries: map<Key, Data>, s: seq<Entry>, budget: nat)
    requires Represents(recency, entries, s) && recency != [] && Total(s) > budget
    ensures recency[|recency| - 1] in entries
    ensures Trim(Without(s, {recency[|recency| - 1]}), budget) == Trim(s, budget)
  {
    LastWithout(s);
  }

  lemma OneMoreOfTorrent(all: set<Key>, todo: set<Key>, key: Key, torrentId: string)
    requires key in todo && todo <= all
    ensures OfTorrent(all - (todo - {key}), torrentId) ==
      OfTorrent(all - todo, torrentId) + if key.torrentId == torrentId then {key} else {}
  {
  }

  function Incremented(counter: U64): U64 {
    if counter < U64_MAX then counter + 1 else counter
  }

  class VerifiedPieceCache {
    const capacity: U64
    var entries: map<Key, Data>
    var recency: seq<Key>
    var usedBytes: nat
    var hits: U64
    var misses: U64
    var evictions: U64

    /** The entries from the most to the least recently used. */
    ghost var contents: seq<Entry>

    ghost predicate Valid()
      reads this
    {
      && Represents(recency, entries, contents)
      && usedBytes == Total(contents) && usedBytes <= capacity
    }

    constructor (capacity: U64)
      ensures Valid() && contents == [] && this.capacity == capacity
    {
      this.capacity := capacity;
      entries, recency, usedBytes, contents := map[], [], 0, [];
      hits, misses, evictions := 0, 0, 0;
    }

    method FindGet(key: Key) returns (data: Option<Data>)
      requires Valid()
      modifies this
      ensures Valid() && contents == AfterGet(old(contents), key)
      ensures data == Lookup(old(contents), key)
      ensures hits == if data.Some? then Incremented(old(hits)) else old(hits)
      ensures misses == if data.None? then Incremented(old(misses)) else old(misses)
      ensures evictions == old(evictions)
    {
      if key !in entries {
        MissRepresents(recency, entries, contents, key);
        misses := Incremented(misses);
        return None;
      }
      data := Some(entries[key]);
      var position := FindKey(key);
      TouchRepresents(recency, entries, contents, position);
      recency := [key] + Removed(recency, position);
      contents := AfterGet(contents, key);
      hits := Incremented(hits);
    }

    method Store(key: Key, data: Option<Data>)
      requires Valid()
      modifies this
      ensures Valid() && contents == AfterPut(old(contents), key, data, capacity)
      ensures hits == old(hits) && misses == old(misses)
    {
      EraseIfPresent(key);
      if data.None? || |data.value| == 0 || |data.value| > capacity {
        return;
      }
      MakeRoom(key, capacity - |data.value|);
      Push(key, data.value);
    }

    method EraseIfPresent(key: Key)
      requires Valid()
      modifies this
      ensures Valid() && key !in entries && contents == Without(old(contents), {key})
      ensures hits == old(hits) && misses == old(misses)
    {
      if key in entries {
        Erase(key);
      } else {
        MissRepresents(recency, entries, contents, key);
      }
    }

    method Push(key: Key, data: Data)
      requires Valid() && key !in entries && usedBytes + |data| <= capacity
      modifies this
      ensures Valid() && contents == [Entry(key, data)] + old(contents)
      ensures hits == old(hits) && misses == old(misses)
    {
      PushRepresents(recency, entries, contents, key, data);
      recency := [key] + recency;
      usedBytes := usedBytes + |data|;
      entries := entries[key := data];
      contents := [Entry(key, data)] + contents;
    }

    /** Evicts the least recently used entries until at most `budget` bytes are used. */
    method MakeRoom(key: Key, budget: nat)
      requires Valid() && key !in entries
      modifies this
      ensures Valid() && key !in entries && usedBytes <= budget
      ensures contents == Trim(old(contents), budget)
      ensures hits == old(hits) && misses == old(misses)
    {
      while recency != [] && usedBytes > budget
        invariant Valid() && key !in entries && hits == old(hits) && misses == old(misses)
        invariant Trim(contents, budget) == Trim(old(contents), budget)
        decreases |recency|
      {
        DropLeastRecent(recency, entries, contents, budget);
        Erase(recency[|recency| - 1]);
        evictions := Incremented(evictions);
      }
    }

    method EraseAllOf(torrentId: string)
      requires Valid()
      modifies this
      ensures Valid() && contents == Without(old(contents), OfTorrent(Keys(old(contents)), torrentId))
      ensures hits == old(hits) && misses == old(misses) && evictions == old(evictions)
    {
      ghost var before := contents;
      ghost var gone: set<Key> := {};
      WithoutNothing(before, {});
      var todo := entries.Keys;
      while todo != {}
        invariant Valid() && hits == old(hits) && misses == old(misses) && evictions == old(evictions)
        invariant todo <= Keys(before) && todo <= entries.Keys
        invariant gone == OfTorrent(Keys(before) - todo, torrentId)
        invariant contents == Without(before, gone)
        decreases |todo|
      {
        var key :| key in todo;
        OneMoreOfTorrent(Keys(before), todo, key, torrentId);
        if key.torrentId == torrentId {
          WithoutTwice(before, gone, {key});
          Erase(key);
          gone := gone + {key};
        }
        todo := todo - {key};
      }
      assert Keys(before) - todo == Keys(before);
    }

    method Reset()
      requires Valid()
      modifies this
      ensures Valid() && contents == []
      ensures hits == old(hits) && misses == old(misses) && evictions == old(evictions)
    {
      entries, recency, usedBytes, contents := map[], [], 0, [];
    }

    /** Where the key stands in the recency list. */
    method FindKey(key: Key) returns (position: nat)
      requires Valid() && key in entries
      ensures position < |recency| && recency[position] == key
    {
      position := 0;
      NotAmongFirst(contents, key, 0);
      while recency[position] != key
        invariant position < |recency| && key !in Keys(contents[..position])
        decreases |recency| - position
      {
        NotAmongFirst(contents, key, position + 1);
        assert contents[..position + 1][..position] == contents[..position];
        position := position + 1;
      }
    }

    method Erase(key: Key)
      requires Valid() && key in entries
      modifies this
      ensures Valid() && contents == Without(old(contents), {key})
      ensures entries == old(entries) - {key} && |recency| == |old(recency)| - 1
      ensures hits == old(hits) && misses == old(misses) && evictions == old(evictions)
    {
      var position := FindKey(key);
      RemoveRepresents(recency, entries, contents, position);
      usedBytes := usedBytes - |entries[key]|;
      recency := Removed(recency, position);
      entries := entries - {key};
      contents := Without(contents, {key});
    }
  }

  lemma NotAmongFirst(s: seq<Entry>, key: Key, n: nat)
    requires key in Keys(s) && n <= |s|
    ensures key !in Keys(s[..n]) ==> n < |s|
  {
    assert s[..|s|] == s;
  }

  lemma AbsentKey(s: seq<Entry>, key: Key)
    requires key !in Keys(s)
    ensures Without(s, {key}) == s
  {
    forall i | 0 <= i < |s| ensures s[i].key !in {key} {
      KeysMember(s, i);
    }
    WithoutNothing(s, {key});
  }

  lemma {:induction false} RemoveAt(s: seq<Entry>, i: nat)
    requires DistinctKeys(s) && i < |s|
    ensures Without(s, {s[i].key}) == s[..i] + s[i + 1..]
  {
    var n := |s| - 1;
    if i == n {
      WithoutNothing(s[..n], {s[i].key});
    } else {
      assert s[..n][i] == s[i];
      RemoveAt(s[..n], i);
      assert s[..n][..i] == s[..i] && s[..n][i + 1..] + [s[n]] == s[i + 1..];
    }
  }

  lemma LastWithout(s: seq<Entry>)
    requires DistinctKeys(s) && s != []
    ensures Without(s, {s[|s| - 1].key}) == s[..|s| - 1]
  {
    RemoveAt(s, |s| - 1);
  }

  lemma {:induction false} WithoutTwice(s: seq<Entry>, a: set<Key>, b: set<Key>)
    ensures Without(Without(s, a), b) == Without(s, a + b)
  {
    if s != [] {
      var n := |s| - 1;
      WithoutTwice(s[..n], a, b);
      if s[n].key !in a {
        var w := Without(s[..n], a);
        assert (w + [s[n]])[..|w|] == w;
      }
    }
  }
}
