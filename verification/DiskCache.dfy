/**
 Keeping the payload directories within their disk budget: directories of torrents that nobody
 protects are evicted, least recently used first, until the target is met.
 */
module DiskCache {
  import opened Common
  import Sorting

  /** Canonical torrent ids, by their rank in the order in which the cache compares them. */
  type Id = nat

  datatype Directory = Directory(id: Id, lastUse: int, size: U64)

  /** What an attempt to delete a directory finds. */
  datatype Removal = Gone | Vanished | Refused

  datatype Stats = Stats(capacity: U64, used: U64, protectedBytes: U64, reclaimed: U64, evictions: U64, overBudget: bool)

  ghost predicate DistinctIds(dirs: seq<Directory>) {
    forall i, j :: 0 <= i < j < |dirs| ==> dirs[i].id != dirs[j].id
  }

  // ----- sizes -----

  function Total(dirs: seq<Directory>): nat {
    if dirs == [] then 0 else Total(dirs[..|dirs| - 1]) + dirs[|dirs| - 1].size
  }

  function Saturated(n: nat): U64 {
    Min(n, U64_MAX)
  }

  lemma TotalNext(dirs: seq<Directory>, i: nat)
    requires i < |dirs|
    ensures Total(dirs[..i + 1]) == Total(dirs[..i]) + dirs[i].size
  {
    assert dirs[..i + 1][..i] == dirs[..i];
  }

  function Unprotected(dirs: seq<Directory>, kept: set<Id>): seq<Directory> {
    if dirs == [] then []
    else
      var last := |dirs| - 1;
      Unprotected(dirs[..last], kept) + (if dirs[last].id in kept then [] else [dirs[last]])
  }

  function Protected(dirs: seq<Directory>, kept: set<Id>): seq<Directory> {
    if dirs == [] then []
    else
      var last := |dirs| - 1;
      Protected(dirs[..last], kept) + (if dirs[last].id in kept then [dirs[last]] else [])
  }

  lemma TotalAppend(dirs: seq<Directory>, d: Directory)
    ensures Total(dirs + [d]) == Total(dirs) + d.size
  {
    assert (dirs + [d])[..|dirs|] == dirs;
  }

  lemma {:induction false} SplitTotal(dirs: seq<Directory>, kept: set<Id>)
    ensures Total(dirs) == Total(Unprotected(dirs, kept)) + Total(Protected(dirs, kept))
  {
    if dirs != [] {
      var last := |dirs| - 1;
      var free, held := Unprotected(dirs[..last], kept), Protected(dirs[..last], kept);
      SplitTotal(dirs[..last], kept);
      TotalAppend(free, dirs[last]);
      TotalAppend(held, dirs[last]);
      assert free + [] == free && held + [] == held;
      assert Unprotected(dirs, kept) == if dirs[last].id in kept then free else free + [dirs[last]];
      assert Protected(dirs, kept) == if dirs[last].id in kept then held + [dirs[last]] else held;
    }
  }

  lemma {:induction false} UnprotectedMembers(dirs: seq<Directory>, kept: set<Id>)
    ensures forall d :: d in Unprotected(dirs, kept) <==> d in dirs && d.id !in kept
  {
    if dirs != [] {
      var last := |dirs| - 1;
      UnprotectedMembers(dirs[..last], kept);
      assert dirs == dirs[..last] + [dirs[last]];
    }
  }

  // ----- least recently used first -----

  predicate Before(a: Directory, b: Directory) {
    a.lastUse < b.lastUse || (a.lastUse == b.lastUse && a.id < b.id)
  }

  const BY_USE := (a: Directory, b: Directory) => Before(a, b)

  function SortByUse(s: seq<Directory>): (r: seq<Directory>)
    ensures |r| == |s|
  {
    Sorting.Sort(s, BY_USE)
  }

  lemma SortKeepsElements(s: seq<Directory>)
    ensures Sorting.Sorted(SortByUse(s), BY_USE) && multiset(SortByUse(s)) == multiset(s)
    ensures forall d :: d in SortByUse(s) <==> d in s
  {
    Sorting.SortSorts(s, BY_USE);
    Sorting.SortMembers(s, BY_USE);
  }

  lemma {:induction false} TotalRemove(s: seq<Directory>, i: nat)
    requires i < |s|
    ensures Total(s) == Total(s[..i] + s[i + 1..]) + s[i].size
  {
    var last := |s| - 1;
    var less := s[..i] + s[i + 1..];
    if i == last {
      assert less == s[..last];
    } else {
      TotalRemove(s[..last], i);
      assert less[..|less| - 1] == s[..last][..i] + s[..last][i + 1..];
    }
  }

  /** The total depends on the directories only, not on their order. */
  lemma {:induction false} TotalOfSame(s: seq<Directory>, t: seq<Directory>)
    requires multiset(s) == multiset(t)
    ensures Total(s) == Total(t)
  {
    if s == [] {
      assert |t| == |multiset(t)| == 0;
    } else {
      var last := |s| - 1;
      var d := s[last];
      assert d in multiset(t);
      var i :| 0 <= i < |t| && t[i] == d;
      TotalRemove(t, i);
      assert t == t[..i] + [d] + t[i + 1..];
      assert s == s[..last] + [d];
      assert multiset(s[..last]) == multiset(s) - multiset{d};
      assert multiset(t[..i] + t[i + 1..]) == multiset(t) - multiset{d};
      TotalOfSame(s[..last], t[..i] + t[i + 1..]);
    }
  }

  // ----- eviction -----

  /** The number of candidates that must go, oldest first, to bring `used` down to the target. */
  function Evictions(used: nat, target: nat, candidates: seq<Directory>): (k: nat)
    ensures k <= |candidates|
  {
    if used <= target || candidates == [] then 0
    else 1 + Evictions(if candidates[0].size > used then 0 else used - candidates[0].size, target, candidates[1..])
  }

  lemma {:induction false} TotalCons(s: seq<Directory>)
    requires s != []
    ensures Total(s) == s[0].size + Total(s[1..])
  {
    TotalRemove(s, 0);
    assert s[..0] + s[1..] == s[1..];
  }

  /** The evicted prefix is the shortest that reaches the target, or everything. */
  lemma {:induction false} EvictionsIsShortest(used: nat, target: nat, candidates: seq<Directory>)
    requires Total(candidates) <= used
    ensures var k := Evictions(used, target, candidates);
      && (k == |candidates| || used - Total(candidates[..k]) <= target)
      && (forall j :: 0 <= j < k ==> used - Total(candidates[..j]) > target)
    decreases |candidates|
  {
    var k := Evictions(used, target, candidates);
    if k > 0 {
      var rest, less := candidates[1..], used - candidates[0].size;
      TotalCons(candidates);
      EvictionsIsShortest(less, target, rest);
      forall j | 0 < j <= k ensures Total(candidates[..j]) == candidates[0].size + Total(rest[..j - 1]) {
        TotalCons(candidates[..j]);
        assert candidates[..j][1..] == rest[..j - 1];
      }
    }
  }

  lemma {:induction false} TotalSplit(s: seq<Directory>, k: nat)
    requires k <= |s|
    ensures Total(s) == Total(s[..k]) + Total(s[k..])
  {
    if k == |s| {
      assert s[..k] == s && s[k..] == [];
    } else {
      var last := |s| - 1;
      TotalSplit(s[..last], k);
      assert s[..last][..k] == s[..k] && s[..last][k..] == s[k..][..|s[k..]| - 1];
    }
  }

  /** Evicting the first `k` of `order` is what the budget asks for. */
  ghost predicate EvictsRightly(dirs: seq<Directory>, kept: set<Id>, target: nat, order: seq<Directory>, k: nat) {
    && k <= |order| && Sorting.Sorted(order, BY_USE) && multiset(order) == multiset(Unprotected(dirs, kept))
    && (forall d :: d in order[..k] ==> d in dirs && d.id !in kept)
    && (k < |order| ==> Total(dirs) - Total(order[..k]) <= target)
    && (forall j :: 0 <= j < k ==> Total(dirs) - Total(order[..j]) > target)
    && Total(dirs) - Total(order[..k]) <= Max(target, Total(Protected(dirs, kept)))
  }

  /**
   For every listing of the directories whose total fits in 64 bits: the directories evicted are
   unprotected ones, oldest first, no more of them than the target needs; what remains is at
   most the target or what is protected, whichever is larger.
   */
  lemma EnforceTheorem(dirs: seq<Directory>, kept: set<Id>, target: U64)
    requires Total(dirs) <= U64_MAX
    ensures var order := SortByUse(Unprotected(dirs, kept));
      EvictsRightly(dirs, kept, target, order, Evictions(Saturated(Total(dirs)), target, order))
  {
    var free := Unprotected(dirs, kept);
    SortKeepsElements(free);
    TotalOfSame(SortByUse(free), free);
    SplitTotal(dirs, kept);
    UnprotectedMembers(dirs, kept);
    RightPrefix(dirs, kept, target, SortByUse(free));
    assert Saturated(Total(dirs)) == Total(dirs);
  }

  lemma RightPrefix(dirs: seq<Directory>, kept: set<Id>, target: U64, order: seq<Directory>)
    requires Sorting.Sorted(order, BY_USE) && multiset(order) == multiset(Unprotected(dirs, kept))
    requires Total(dirs) == Total(order) + Total(Protected(dirs, kept))
    requires forall d :: d in order ==> d in dirs && d.id !in kept
    ensures EvictsRightly(dirs, kept, target, order, Evictions(Total(dirs), target, order))
  {
    ShortestPrefix(Total(dirs), target, order);
  }

  lemma ShortestPrefix(used: nat, target: nat, order: seq<Directory>)
    requires Total(order) <= used
    ensures var k := Evictions(used, target, order);
      var left := used - Total(order[..k]);
      && (k < |order| ==> left <= target)
      && (forall j :: 0 <= j < k ==> used - Total(order[..j]) > target)
      && left <= Max(target, used - Total(order))
  {
    EvictionsIsShortest(used, target, order);
    TotalSplit(order, Evictions(used, target, order));
    assert order[..|order|] == order;
  }

  lemma EvictedMembers(dirs: seq<Directory>, kept: set<Id>, k: nat)
    requires k <= |SortByUse(Unprotected(dirs, kept))|
    ensures forall d :: d in SortByUse(Unprotected(dirs, kept))[..k] ==> d in dirs && d.id !in kept
  {
    UnprotectedMembers(dirs, kept);
    SortKeepsElements(Unprotected(dirs, kept));
  }

  /**
   The first `k` candidates are the least recently used ones: no directory that goes was used later than
   an unprotected one that could be deleted and stays; used at the same time, the smaller id goes first.
   */
  lemma OldestGo(dirs: seq<Directory>, kept: set<Id>, removal: map<Id, Removal>, k: nat, e: Directory, d: Directory)
    requires k <= |SortByUse(Unprotected(dirs, kept))|
    requires var evicted := GoneOf(SortByUse(Unprotected(dirs, kept))[..k], removal);
      e in evicted && d !in evicted && d in dirs && d.id !in kept && Deletion(removal, d) == Gone
    ensures e.lastUse <= d.lastUse && (e.lastUse == d.lastUse ==> e.id <= d.id)
  {
    var order := SortByUse(Unprotected(dirs, kept));
    UnprotectedMembers(dirs, kept);
    SortKeepsElements(Unprotected(dirs, kept));
    GoneMembers(order[..k], removal);
    var i :| 0 <= i < |order[..k]| && order[..k][i] == e;
    var j :| 0 <= j < |order| && order[j] == d;
    assert forall x :: 0 <= x < k ==> order[x] in order[..k];
    assert !BY_USE(order[j], order[i]);
  }

  // ----- the manager -----

  class DiskCacheManager {
    var stats: Stats
    var measured: map<Id, U64>

    constructor (capacity: U64)
      ensures stats == Stats(capacity, 0, 0, 0, 0, false) && measured == map[]
    {
      stats, measured := Stats(capacity, 0, 0, 0, 0, false), map[];
    }

    /** Measures every directory and collects those that may be evicted. */
    method Scan(dirs: seq<Directory>, kept: set<Id>)
      returns (used: U64, protectedBytes: U64, candidates: seq<Directory>, sizes: map<Id, U64>)
      requires DistinctIds(dirs)
      ensures used == Saturated(Total(dirs)) && protectedBytes == Saturated(Total(Protected(dirs, kept)))
      ensures candidates == Unprotected(dirs, kept) && sizes == SizesOf(dirs)
    {
      used, protectedBytes, candidates, sizes := 0, 0, [], map[];
      for i := 0 to |dirs|
        invariant used == Saturated(Total(dirs[..i])) && protectedBytes == Saturated(Total(Protected(dirs[..i], kept)))
        invariant candidates == Unprotected(dirs[..i], kept) && sizes == SizesOf(dirs[..i])
      {
        var d := dirs[i];
        TotalNext(dirs, i);
        assert dirs[..i + 1][..i] == dirs[..i];
        TotalAppend(Protected(dirs[..i], kept), d);
        assert Protected(dirs[..i], kept) + [] == Protected(dirs[..i], kept);
        sizes := sizes[d.id := d.size];
        used := SaturatingAdd(used, d.size);
        if d.id in kept {
          protectedBytes := SaturatingAdd(protectedBytes, d.size);
        } else {
          candidates := candidates + [d];
        }
      }
      assert dirs[..|dirs|] == dirs;
    }

    method Count(d: Directory, ghost before: Stats, ghost evicted: seq<Directory>)
      requires stats == Counted(before, evicted)
      modifies this
      ensures stats == Counted(before, evicted + [d]) && measured == old(measured) - {d.id}
    {
      CountedNext(before, evicted, d);
      measured := measured - {d.id};
      stats := stats.(reclaimed := SaturatingAdd(stats.reclaimed, d.size), evictions := SaturatingAdd(stats.evictions, 1));
    }

    /**
     The eviction loop over the sorted candidates, for every outcome of the deletions: it stops at the
     first candidate at which the target is met or the deletion is refused, or after the last
     one, and it fails exactly if it stopped for a refusal.
     */
    method Evict(order: seq<Directory>, target: U64, start: U64, removal: map<Id, Removal>)
      returns (failed: bool, used: U64, evicted: seq<Directory>, stop: nat)
      modifies this
      ensures StopsAt(start, target, order, removal, stop)
      ensures evicted == GoneOf(order[..stop], removal) && used == After(start, evicted)
      ensures failed <==> stop < |order| && used > target
      ensures stats == Counted(old(stats), evicted)
      ensures measured == old(measured) - IdsOf(evicted)
    {
      failed, used, evicted, stop := false, start, [], 0;
      CountedNothing(stats);
      while stop < |order| && used > target
        invariant stop <= |order|
        invariant forall j :: 0 <= j < stop ==> Passes(start, target, order, removal, j)
        invariant evicted == GoneOf(order[..stop], removal) && used == After(start, evicted)
        invariant stats == Counted(old(stats), evicted)
        invariant measured == old(measured) - IdsOf(evicted)
        decreases |order| - stop
      {
        var d := order[stop];
        if Deletion(removal, d) == Refused {
          return true, used, evicted, stop;
        }
        OneMoreGone(start, order, removal, stop);
        if Deletion(removal, d) == Gone {
          Count(d, old(stats), evicted);
          IdsNext(old(measured), evicted, d);
          used := if d.size > used then 0 else used - d.size;
          evicted := evicted + [d];
        }
        stop := stop + 1;
      }
    }

    /**
     For every listing, every target and every outcome of the deletions.  A refused deletion that the
     target still needs is reported and leaves the last statistics; otherwise the usage
     reported is what remains after the deletions that succeeded.
     */
    method Enforce(dirs: seq<Directory>, kept: set<Id>, requested: U64, removal: map<Id, Removal>)
      returns (failed: bool, evicted: seq<Directory>, stop: nat)
      requires DistinctIds(dirs)
      modifies this
      ensures var order, target := SortByUse(Unprotected(dirs, kept)), Min(requested, old(stats).capacity);
        && StopsAt(Saturated(Total(dirs)), target, order, removal, stop) && evicted == GoneOf(order[..stop], removal)
        && (failed <==> stop < |order| && After(Saturated(Total(dirs)), evicted) > target)
      ensures measured == SizesOf(dirs) - IdsOf(evicted)
      ensures failed ==> stats == Counted(old(stats), evicted)
      ensures !failed ==> stats == Counted(old(stats), evicted).(
        used := After(Saturated(Total(dirs)), evicted),
        protectedBytes := Saturated(Total(Protected(dirs, kept))),
        overBudget := After(Saturated(Total(dirs)), evicted) > old(stats).capacity)
      ensures forall d :: d in evicted ==> d in dirs && d.id !in kept && Deletion(removal, d) == Gone
      ensures forall e, d :: e in evicted && d !in evicted && d in dirs && d.id !in kept && Deletion(removal, d) == Gone ==>
        e.lastUse <= d.lastUse && (e.lastUse == d.lastUse ==> e.id <= d.id)
    {
      var target := Min(requested, stats.capacity);
      var used, protectedBytes, candidates, sizes := Scan(dirs, kept);
      measured := sizes;
      var order := SortByUse(candidates);
      EvictedMembers(dirs, kept, |order|);
      assert order[..|order|] == order;
      var left: U64;
      failed, left, evicted, stop := Evict(order, target, used, removal);
      GoneMembers(order[..stop], removal);
      forall e, d | e in evicted && d !in evicted && d in dirs && d.id !in kept && Deletion(removal, d) == Gone
        ensures e.lastUse <= d.lastUse && (e.lastUse == d.lastUse ==> e.id <= d.id)
      {
        OldestGo(dirs, kept, removal, stop, e, d);
      }
      if !failed {
        stats := stats.(used := left, protectedBytes := protectedBytes, overBudget := left > stats.capacity);
      }
    }

    /** A cheaper total: sizes of unprotected directories are remembered from the last scan. */
    method Measure(dirs: seq<Directory>, kept: set<Id>)
      requires DistinctIds(dirs)
      modifies this
      ensures measured == SizesOf(Reported(dirs, kept, old(measured)))
      ensures stats.used == Saturated(Total(Reported(dirs, kept, old(measured))))
      ensures stats.protectedBytes == Saturated(Total(Protected(dirs, kept)))
      ensures stats.overBudget <==> stats.used > stats.capacity
      ensures stats.capacity == old(stats).capacity && stats.reclaimed == old(stats).reclaimed
    {
      var used, protectedBytes, sizes := MeasureAll(dirs, kept, measured);
      measured := sizes;
      stats := stats.(used := used, protectedBytes := protectedBytes, overBudget := used > stats.capacity);
    }
  }

  ghost predicate Totals(dirs: seq<Directory>, kept: set<Id>, known: map<Id, U64>, used: U64, protectedBytes: U64, sizes: map<Id, U64>) {
    && used == Saturated(Total(Reported(dirs, kept, known)))
    && protectedBytes == Saturated(Total(Protected(dirs, kept)))
    && sizes == SizesOf(Reported(dirs, kept, known))
  }

  lemma TotalsNext(dirs: seq<Directory>, i: nat, kept: set<Id>, known: map<Id, U64>, used: U64, protectedBytes: U64, sizes: map<Id, U64>)
    requires i < |dirs| && Totals(dirs[..i], kept, known, used, protectedBytes, sizes)
    ensures var d := dirs[i];
      var size := if d.id !in kept && d.id in known then known[d.id] else d.size;
      Totals(dirs[..i + 1], kept, known, SaturatingAdd(used, size),
             if d.id in kept then SaturatingAdd(protectedBytes, size) else protectedBytes, sizes[d.id := size])
  {
    MeasureNext(dirs, i, kept, known);
  }

  method MeasureAll(dirs: seq<Directory>, kept: set<Id>, known: map<Id, U64>)
    returns (used: U64, protectedBytes: U64, sizes: map<Id, U64>)
    requires DistinctIds(dirs)
    ensures used == Saturated(Total(Reported(dirs, kept, known)))
    ensures protectedBytes == Saturated(Total(Protected(dirs, kept)))
    ensures sizes == SizesOf(Reported(dirs, kept, known))
  {
    used, protectedBytes, sizes := 0, 0, map[];
    for i := 0 to |dirs|
      invariant Totals(dirs[..i], kept, known, used, protectedBytes, sizes)
    {
      var d := dirs[i];
      TotalsNext(dirs, i, kept, known, used, protectedBytes, sizes);
      var size := if d.id !in kept && d.id in known then known[d.id] else d.size;
      sizes := sizes[d.id := size];
      used := SaturatingAdd(used, size);
      if d.id in kept {
        protectedBytes := SaturatingAdd(protectedBytes, size);
      }
    }
    assert dirs[..|dirs|] == dirs;
  }

  function ToEvict(dirs: seq<Directory>, kept: set<Id>, target: U64): seq<Directory> {
    var order := SortByUse(Unprotected(dirs, kept));
    order[..Evictions(Saturated(Total(dirs)), target, order)]
  }

  /** What deleting the directory finds; deletions not listed succeed. */
  function Deletion(removal: map<Id, Removal>, d: Directory): Removal {
    if d.id in removal then removal[d.id] else Gone
  }

  predicate AllGone(dirs: seq<Directory>, removal: map<Id, Removal>) {
    forall d :: d in dirs ==> Deletion(removal, d) == Gone
  }

  /** The directories whose deletion succeeds. */
  function GoneOf(dirs: seq<Directory>, removal: map<Id, Removal>): seq<Directory>
  {
    if dirs == [] then []
    else
      var last := |dirs| - 1;
      GoneOf(dirs[..last], removal) + (if Deletion(removal, dirs[last]) == Gone then [dirs[last]] else [])
  }

  lemma {:induction false} GoneMembers(dirs: seq<Directory>, removal: map<Id, Removal>)
    ensures forall d :: d in GoneOf(dirs, removal) <==> d in dirs && Deletion(removal, d) == Gone
  {
    if dirs != [] {
      var last := |dirs| - 1;
      GoneMembers(dirs[..last], removal);
      assert dirs == dirs[..last] + [dirs[last]];
    }
  }

  /** At candidate `j` the target is not met yet, and its deletion is not refused. */
  predicate Passes(start: U64, target: int, order: seq<Directory>, removal: map<Id, Removal>, j: nat)
    requires j < |order|
  {
    After(start, GoneOf(order[..j], removal)) > target && Deletion(removal, order[j]) != Refused
  }

  /** The loop passes the first `k` candidates and no more. */
  ghost predicate StopsAt(start: U64, target: int, order: seq<Directory>, removal: map<Id, Removal>, k: nat)
  {
    && k <= |order| && (forall j :: 0 <= j < k ==> Passes(start, target, order, removal, j))
    && (k < |order| ==> !Passes(start, target, order, removal, k))
  }

  lemma OneMoreGone(start: U64, order: seq<Directory>, removal: map<Id, Removal>, k: nat)
    requires k < |order|
    ensures var gone, d := GoneOf(order[..k], removal), order[k];
      && GoneOf(order[..k + 1], removal) == (if Deletion(removal, d) == Gone then gone + [d] else gone)
      && After(start, gone + [d]) == (if d.size > After(start, gone) then 0 else After(start, gone) - d.size)
  {
    assert order[..k + 1][..k] == order[..k];
    AfterNext(start, GoneOf(order[..k], removal), order[k]);
    assert GoneOf(order[..k], removal) + [] == GoneOf(order[..k], removal);
  }

  /** With no deletion refused or overtaken, the loop stops where the shortest prefix ends. */
  lemma {:induction false} StopsAtShortest(start: U64, target: int, order: seq<Directory>, removal: map<Id, Removal>, k: nat)
    requires AllGone(order, removal) && Total(order) <= start && StopsAt(start, target, order, removal, k) && target >= 0
    ensures k == Evictions(start, target, order) && GoneOf(order[..k], removal) == order[..k]
  {
    forall j | 0 <= j <= |order|
      ensures GoneOf(order[..j], removal) == order[..j]
      ensures j < |order| ==> (Passes(start, target, order, removal, j) <==> start - Total(order[..j]) > target)
    {
      GoneIsAll(order[..j], removal);
      TotalSplit(order, j);
    }
    EvictionsIsShortest(start, target, order);
  }

  lemma {:induction false} GoneIsAll(dirs: seq<Directory>, removal: map<Id, Removal>)
    requires AllGone(dirs, removal)
    ensures GoneOf(dirs, removal) == dirs
  {
    if dirs != [] {
      var last := |dirs| - 1;
      GoneIsAll(dirs[..last], removal);
      assert dirs[last] in dirs;
      assert dirs == dirs[..last] + [dirs[last]];
    }
  }

  function IdsOf(dirs: seq<Directory>): set<Id> {
    set d | d in dirs :: d.id
  }

  /** The statistics with the evicted directories counted. */
  function Counted(s: Stats, evicted: seq<Directory>): Stats {
    s.(reclaimed := Saturated(s.reclaimed + Total(evicted)), evictions := Saturated(s.evictions + |evicted|))
  }

  lemma IdsNext(m: map<Id, U64>, evicted: seq<Directory>, d: Directory)
    ensures (m - IdsOf(evicted)) - {d.id} == m - IdsOf(evicted + [d])
  {
    assert IdsOf(evicted + [d]) == IdsOf(evicted) + {d.id};
  }

  lemma CountedNothing(s: Stats)
    ensures Counted(s, []) == s
  {
  }

  lemma CountedNext(s: Stats, evicted: seq<Directory>, d: Directory)
    ensures var t := Counted(s, evicted);
      Counted(s, evicted + [d]) ==
      t.(reclaimed := SaturatingAdd(t.reclaimed, d.size), evictions := SaturatingAdd(t.evictions, 1))
  {
    TotalAppend(evicted, d);
  }

  /**
   When every deletion succeeds and the total fits in 64 bits, the directories evicted are the ones of
   `EnforceTheorem`, and the usage is at most the target or what is protected.
   */
  lemma EnforceEvictsRightly(dirs: seq<Directory>, kept: set<Id>, target: U64, removal: map<Id, Removal>, stop: nat)
    requires AllGone(dirs, removal) && Total(dirs) <= U64_MAX
    requires StopsAt(Saturated(Total(dirs)), target, SortByUse(Unprotected(dirs, kept)), removal, stop)
    ensures var order := SortByUse(Unprotected(dirs, kept));
      && EvictsRightly(dirs, kept, target, order, stop)
      && After(Saturated(Total(dirs)), GoneOf(order[..stop], removal)) == Total(dirs) - Total(order[..stop])
  {
    var order := SortByUse(Unprotected(dirs, kept));
    EnforceTheorem(dirs, kept, target);
    SortedFits(dirs, kept);
    AllCandidatesGone(dirs, kept, removal);
    StopsAtShortest(Total(dirs), target, order, removal, stop);
    TotalSplit(order, stop);
  }

  lemma SortedFits(dirs: seq<Directory>, kept: set<Id>)
    ensures Total(SortByUse(Unprotected(dirs, kept))) <= Total(dirs)
  {
    SortKeepsElements(Unprotected(dirs, kept));
    TotalOfSame(SortByUse(Unprotected(dirs, kept)), Unprotected(dirs, kept));
    SplitTotal(dirs, kept);
  }

  lemma AllCandidatesGone(dirs: seq<Directory>, kept: set<Id>, removal: map<Id, Removal>)
    requires AllGone(dirs, removal)
    ensures AllGone(SortByUse(Unprotected(dirs, kept)), removal)
  {
    UnprotectedMembers(dirs, kept);
    SortKeepsElements(Unprotected(dirs, kept));
  }

  /** What is left of `used` after subtracting, never going below zero. */
  function After(used: nat, evicted: seq<Directory>): nat {
    if Total(evicted) > used then 0 else used - Total(evicted)
  }

  lemma AfterNext(used: nat, evicted: seq<Directory>, d: Directory)
    ensures After(used, evicted + [d]) == if d.size > After(used, evicted) then 0 else After(used, evicted) - d.size
  {
    TotalAppend(evicted, d);
  }

  function SizesOf(dirs: seq<Directory>): map<Id, U64> {
    if dirs == [] then map[] else SizesOf(dirs[..|dirs| - 1])[dirs[|dirs| - 1].id := dirs[|dirs| - 1].size]
  }

  lemma SizesAppend(dirs: seq<Directory>, d: Directory)
    ensures SizesOf(dirs + [d]) == SizesOf(dirs)[d.id := d.size]
  {
    assert (dirs + [d])[..|dirs|] == dirs;
  }

  function Reported(dirs: seq<Directory>, kept: set<Id>, known: map<Id, U64>): seq<Directory> {
    if dirs == [] then []
    else
      var d := dirs[|dirs| - 1];
      Reported(dirs[..|dirs| - 1], kept, known) +
      [if d.id !in kept && d.id in known then d.(size := known[d.id]) else d]
  }

  lemma MeasureNext(dirs: seq<Directory>, i: nat, kept: set<Id>, known: map<Id, U64>)
    requires i < |dirs|
    ensures var d := dirs[i];
      var size := if d.id !in kept && d.id in known then known[d.id] else d.size;
      && Total(Reported(dirs[..i + 1], kept, known)) == Total(Reported(dirs[..i], kept, known)) + size
      && SizesOf(Reported(dirs[..i + 1], kept, known)) == SizesOf(Reported(dirs[..i], kept, known))[d.id := size]
      && Total(Protected(dirs[..i + 1], kept)) == Total(Protected(dirs[..i], kept)) + if d.id in kept then size else 0
  {
    var d := dirs[i];
    var size := if d.id !in kept && d.id in known then known[d.id] else d.size;
    assert dirs[..i + 1][..i] == dirs[..i];
    TotalAppend(Protected(dirs[..i], kept), d);
    assert Protected(dirs[..i], kept) + [] == Protected(dirs[..i], kept);
    TotalAppend(Reported(dirs[..i], kept, known), d.(size := size));
    SizesAppend(Reported(dirs[..i], kept, known), d.(size := size));
  }

  /** Remembered sizes that are still right give the true total. */
  lemma {:induction false} MeasureIsExact(dirs: seq<Directory>, kept: set<Id>, known: map<Id, U64>)
    requires forall d :: d in dirs && d.id !in kept && d.id in known ==> known[d.id] == d.size
    ensures Reported(dirs, kept, known) == dirs
  {
    if dirs != [] {
      var last := |dirs| - 1;
      var rest, d := dirs[..last], dirs[last];
      assert dirs == rest + [d] && d in dirs;
      forall e | e in rest && e.id !in kept && e.id in known ensures known[e.id] == e.size {
        assert e in dirs;
      }
      MeasureIsExact(rest, kept, known);
      assert Reported(dirs, kept, known) == Reported(rest, kept, known) + [d];
    }
  }

  // ----- the order in which the file system lists the directories does not matter -----

  lemma {:induction false} UnprotectedCount(dirs: seq<Directory>, kept: set<Id>, d: Directory)
    ensures multiset(Unprotected(dirs, kept))[d] == if d.id in kept then 0 else multiset(dirs)[d]
  {
    if dirs != [] {
      var last := |dirs| - 1;
      UnprotectedCount(dirs[..last], kept, d);
      assert dirs == dirs[..last] + [dirs[last]];
    }
  }

  lemma EvictionIgnoresListing(dirs: seq<Directory>, relisted: seq<Directory>, kept: set<Id>, target: U64)
    requires multiset(dirs) == multiset(relisted) && DistinctIds(dirs)
    ensures ToEvict(dirs, kept, target) == ToEvict(relisted, kept, target)
  {
    var free, free' := Unprotected(dirs, kept), Unprotected(relisted, kept);
    forall d ensures multiset(free)[d] == multiset(free')[d] {
      UnprotectedCount(dirs, kept, d);
      UnprotectedCount(relisted, kept, d);
    }
    assert multiset(free) == multiset(free');
    UnprotectedMembers(dirs, kept);
    forall x, y | x in free && y in free && !BY_USE(x, y) && !BY_USE(y, x) ensures x == y {
      var i :| 0 <= i < |dirs| && dirs[i] == x;
      var j :| 0 <= j < |dirs| && dirs[j] == y;
    }
    Sorting.SortIgnoresOrder(free, free', BY_USE);
    TotalOfSame(dirs, relisted);
  }
}
