/** agentgenius/cache.py: a memo table for tool calls. Entries are keyed by
    the tool's name, its positional arguments and its keyword arguments in
    sorted order; they expire after a time-to-live, and storing past the
    size bound evicts the entry with the smallest timestamp. The clock is an
    integer passed in by the caller; the time-to-live is in the same unit. */
module Cache {
  import opened Base
  import opened Text

  // ---------------------------------------------------------------------
  // The key

  /** A keyword argument: its name and its value. */
  type Kwarg = (string, Value)

  /** The names of a Python `**kwargs` dict are pairwise distinct. */
  predicate DistinctNames(kw: seq<Kwarg>)
  {
    forall i, j :: 0 <= i < j < |kw| ==> kw[i].0 != kw[j].0
  }

  /** Strictly ascending by name: `sorted(kwargs.items())` on distinct names. */
  predicate Ascending(kw: seq<Kwarg>)
  {
    forall i, j :: 0 <= i < j < |kw| ==> StrLess(kw[i].0, kw[j].0)
  }

  /** Puts `x` in front of the first pair whose name is above its own. */
  function InsertKwarg(x: Kwarg, s: seq<Kwarg>): seq<Kwarg>
  {
    if s == [] || StrLess(x.0, s[0].0) then [x] + s else [s[0]] + InsertKwarg(x, s[1..])
  }

  /** `sorted(kwargs.items())`. */
  function SortKwargs(s: seq<Kwarg>): seq<Kwarg>
  {
    if s == [] then [] else InsertKwarg(s[0], SortKwargs(s[1..]))
  }

  lemma {:induction false} InsertKwargMultiset(x: Kwarg, s: seq<Kwarg>)
    ensures multiset(InsertKwarg(x, s)) == multiset(s) + multiset{x}
  {
    if s != [] && !StrLess(x.0, s[0].0) {
      InsertKwargMultiset(x, s[1..]);
      assert s == [s[0]] + s[1..];
    }
  }

  lemma {:induction false} InsertKwargAscending(x: Kwarg, s: seq<Kwarg>)
    requires Ascending(s)
    requires forall i :: 0 <= i < |s| ==> s[i].0 != x.0
    ensures Ascending(InsertKwarg(x, s))
  {
    if s == [] {
    } else if StrLess(x.0, s[0].0) {
      var r := [x] + s;
      forall i, j | 0 <= i < j < |r| ensures StrLess(r[i].0, r[j].0) {
        if i == 0 && j > 1 {
          StrLessTransitive(x.0, s[0].0, s[j - 1].0);
        }
      }
    } else {
      StrLessTotal(x.0, s[0].0);
      var t := InsertKwarg(x, s[1..]);
      InsertKwargAscending(x, s[1..]);
      InsertKwargMultiset(x, s[1..]);
      var r := [s[0]] + t;
      forall j | 0 < j < |r| ensures StrLess(r[0].0, r[j].0) {
        assert r[j] == t[j - 1];
        assert r[j] in multiset(s[1..]) + multiset{x};
        if r[j] != x {
          var m :| 0 <= m < |s[1..]| && s[1..][m] == r[j];
          assert StrLess(s[0].0, s[m + 1].0);
        }
      }
    }
  }

  /** The sort yields the pairs ascending by name, as a permutation. */
  lemma {:induction false} SortKwargsCorrect(s: seq<Kwarg>)
    requires DistinctNames(s)
    ensures Ascending(SortKwargs(s))
    ensures multiset(SortKwargs(s)) == multiset(s)
  {
    if s != [] {
      var rest := SortKwargs(s[1..]);
      SortKwargsCorrect(s[1..]);
      forall i | 0 <= i < |rest| ensures rest[i].0 != s[0].0 {
        assert rest[i] in multiset(s[1..]);
        var m :| 0 <= m < |s[1..]| && s[1..][m] == rest[i];
        assert s[m + 1] == rest[i];
      }
      InsertKwargAscending(s[0], rest);
      InsertKwargMultiset(s[0], rest);
      assert s == [s[0]] + s[1..];
    }
  }

  /** Two ascending sequences with the same elements start alike. */
  lemma AscendingHead(a: seq<Kwarg>, b: seq<Kwarg>)
    requires Ascending(a) && Ascending(b) && multiset(a) == multiset(b) && a != []
    ensures b != [] && a[0] == b[0]
  {
    assert a[0] in multiset(b);
    assert b != [];
    assert b[0] in multiset(a);
    var j :| 0 <= j < |b| && b[j] == a[0];
    var i :| 0 <= i < |a| && a[i] == b[0];
    if j != 0 {
      if i == 0 {
        StrLessIrreflexive(b[0].0);
      } else {
        StrLessAsymmetric(a[0].0, a[i].0);
      }
    }
  }

  lemma MultisetTail(s: seq<Kwarg>)
    requires s != []
    ensures multiset(s[1..]) == multiset(s) - multiset{s[0]}
  {
    assert s == [s[0]] + s[1..];
  }

  /** Two ascending sequences with the same elements are the same sequence. */
  lemma {:induction false} AscendingUnique(a: seq<Kwarg>, b: seq<Kwarg>)
    requires Ascending(a) && Ascending(b) && multiset(a) == multiset(b)
    ensures a == b
    decreases |a|
  {
    if a == [] {
      assert |multiset(b)| == 0;
    } else {
      AscendingHead(a, b);
      MultisetTail(a);
      MultisetTail(b);
      AscendingUnique(a[1..], b[1..]);
      assert a == [a[0]] + a[1..] && b == [b[0]] + b[1..];
    }
  }

  /** What `_make_key` hashes: the tool's name, its positional arguments and
      its keyword arguments sorted by name. */
  datatype Key = Key(toolName: string, args: seq<Value>, kwargs: seq<Kwarg>)

  function MakeKey(toolName: string, args: seq<Value>, kwargs: seq<Kwarg>): Key
  {
    Key(toolName, args, SortKwargs(kwargs))
  }

  /** Two calls share a key exactly when they name the same tool, pass the
      same positional arguments and the same keyword arguments, in whatever
      order. */
  lemma KeyIgnoresKwargsOrder(n1: string, a1: seq<Value>, kw1: seq<Kwarg>,
                              n2: string, a2: seq<Value>, kw2: seq<Kwarg>)
    requires DistinctNames(kw1) && DistinctNames(kw2)
    ensures MakeKey(n1, a1, kw1) == MakeKey(n2, a2, kw2)
            <==> n1 == n2 && a1 == a2 && multiset(kw1) == multiset(kw2)
  {
    SortKwargsCorrect(kw1);
    SortKwargsCorrect(kw2);
    if multiset(kw1) == multiset(kw2) {
      AscendingUnique(SortKwargs(kw1), SortKwargs(kw2));
    }
  }

  // ---------------------------------------------------------------------
  // The table: a dict in insertion order

  datatype CacheEntry = CacheEntry(result: Value, timestamp: int)

  type Slot = (Key, CacheEntry)

  /** A dict holds each key once. */
  ghost predicate KeysDistinct(entries: seq<Slot>)
  {
    forall i, j :: 0 <= i < j < |entries| ==> entries[i].0 != entries[j].0
  }

  /** Position of `k` in the dict. */
  function Find(entries: seq<Slot>, k: Key): (r: Option<nat>)
    ensures r.Some? ==> r.value < |entries| && entries[r.value].0 == k
    ensures r.Some? ==> forall j :: 0 <= j < r.value ==> entries[j].0 != k
    ensures r.None? ==> forall j :: 0 <= j < |entries| ==> entries[j].0 != k
  {
    if entries == [] then None
    else if entries[0].0 == k then Some(0)
    else match Find(entries[1..], k)
      case None => None
      case Some(i) => Some(i + 1)
  }

  /** `self.cache.get(key)`: the dict seen as a map. */
  function Lookup(entries: seq<Slot>, k: Key): Option<CacheEntry>
  {
    match Find(entries, k)
    case None => None
    case Some(i) => Some(entries[i].1)
  }

  /** In a dict, the entry at a position is what its key looks up. */
  lemma LookupAt(entries: seq<Slot>, i: nat)
    requires KeysDistinct(entries) && i < |entries|
    ensures Lookup(entries, entries[i].0) == Some(entries[i].1)
  {
    var f := Find(entries, entries[i].0);
    assert f.Some?;
  }

  /** `self.cache[key] = entry`: an existing key keeps its position, a new
      one goes last. */
  function Put(entries: seq<Slot>, k: Key, e: CacheEntry): seq<Slot>
  {
    match Find(entries, k)
    case Some(i) => entries[i := (k, e)]
    case None => entries + [(k, e)]
  }

  /** `del self.cache[key]` for the key at position `i`. */
  function RemoveAt(entries: seq<Slot>, i: nat): seq<Slot>
    requires i < |entries|
  {
    entries[..i] + entries[i + 1..]
  }

  /** Storing binds `k` to `e` and leaves every other key as it was. */
  lemma PutLookup(entries: seq<Slot>, k: Key, e: CacheEntry)
    requires KeysDistinct(entries)
    ensures KeysDistinct(Put(entries, k, e))
    ensures forall k' :: Lookup(Put(entries, k, e), k') == if k' == k then Some(e) else Lookup(entries, k')
    ensures |Put(entries, k, e)| == if Lookup(entries, k).Some? then |entries| else |entries| + 1
  {
    var p := Put(entries, k, e);
    forall k' ensures Lookup(p, k') == if k' == k then Some(e) else Lookup(entries, k') {
      match Find(entries, k') {
        case Some(j) =>
          LookupAt(p, j);
          assert p[j].0 == k';
        case None =>
          if k' == k {
            LookupAt(p, |entries|);
          } else {
            assert forall j :: 0 <= j < |p| ==> p[j].0 != k';
          }
      }
    }
  }

  /** Deleting the key at `i` removes it and leaves every other key as it was. */
  lemma RemoveLookup(entries: seq<Slot>, i: nat)
    requires KeysDistinct(entries) && i < |entries|
    ensures KeysDistinct(RemoveAt(entries, i))
    ensures forall k' :: Lookup(RemoveAt(entries, i), k') == if k' == entries[i].0 then None else Lookup(entries, k')
  {
    var r := RemoveAt(entries, i);
    assert forall j :: 0 <= j < |r| ==> r[j] == if j < i then entries[j] else entries[j + 1];
    forall k' ensures Lookup(r, k') == if k' == entries[i].0 then None else Lookup(entries, k') {
      match Find(entries, k') {
        case Some(j) =>
          if j != i {
            LookupAt(r, if j < i then j else j - 1);
          }
        case None =>
      }
    }
  }

  /** The key `min(self.cache.keys(), key=timestamp)` picks: the first entry,
      in dict order, with the smallest timestamp. */
  function FirstMinIndex(entries: seq<Slot>): (r: nat)
    requires entries != []
    ensures r < |entries|
    ensures forall j :: 0 <= j < |entries| ==> entries[r].1.timestamp <= entries[j].1.timestamp
    ensures forall j :: 0 <= j < r ==> entries[j].1.timestamp > entries[r].1.timestamp
  {
    if |entries| == 1 then 0
    else
      var m := FirstMinIndex(entries[1..]) + 1;
      if entries[0].1.timestamp <= entries[m].1.timestamp then 0 else m
  }

  /** `set` on the table: store, then evict the oldest entry if the table
      has outgrown its bound. */
  function SetSpec(entries: seq<Slot>, maxSize: int, k: Key, result: Value, now: int): seq<Slot>
  {
    var p := Put(entries, k, CacheEntry(result, now));
    if |p| > maxSize then RemoveAt(p, FirstMinIndex(p)) else p
  }

  /** `get` on the table: the returned value and the table after the call.
      A fresh entry is returned; an expired one is deleted. */
  function GetSpec(entries: seq<Slot>, ttl: int, k: Key, now: int): (Value, seq<Slot>)
  {
    match Find(entries, k)
    case None => (NoneValue, entries)
    case Some(i) =>
      if now - entries[i].1.timestamp < ttl then (entries[i].1.result, entries)
      else (NoneValue, RemoveAt(entries, i))
  }

  /** `get` returns the stored result exactly when the key is present and not
      expired, and None otherwise, so that a stored None looks like a miss.
      A hit or a miss leaves the table as it was; an expired entry is
      removed and nothing else changes. */
  lemma GetSpecCorrect(entries: seq<Slot>, ttl: int, k: Key, now: int)
    requires KeysDistinct(entries)
    ensures var (v, after) := GetSpec(entries, ttl, k, now);
            var live := Lookup(entries, k).Some? && now - Lookup(entries, k).value.timestamp < ttl;
            (live ==> v == Lookup(entries, k).value.result && after == entries)
            && (!live ==> v == NoneValue)
            && (Lookup(entries, k).None? ==> after == entries)
            && KeysDistinct(after)
            && forall k' :: Lookup(after, k') == if k' == k && !live then None else Lookup(entries, k')
  {
    match Find(entries, k) {
      case None =>
      case Some(i) =>
        RemoveLookup(entries, i);
    }
  }

  /** `set` keeps the keys distinct, and a table within its bound stays
      within it. */
  lemma SetSpecBounded(entries: seq<Slot>, maxSize: int, k: Key, result: Value, now: int)
    requires KeysDistinct(entries)
    ensures KeysDistinct(SetSpec(entries, maxSize, k, result, now))
    ensures |entries| <= maxSize ==> |SetSpec(entries, maxSize, k, result, now)| <= maxSize
  {
    var p := Put(entries, k, CacheEntry(result, now));
    PutLookup(entries, k, CacheEntry(result, now));
    if |p| > maxSize {
      RemoveLookup(p, FirstMinIndex(p));
    }
  }

  /** Without overflow, `set` binds the key to `(result, now)` and every
      other key is untouched. */
  lemma SetSpecStores(entries: seq<Slot>, maxSize: int, k: Key, result: Value, now: int)
    requires KeysDistinct(entries)
    requires |Put(entries, k, CacheEntry(result, now))| <= maxSize
    ensures forall k' :: Lookup(SetSpec(entries, maxSize, k, result, now), k')
                         == if k' == k then Some(CacheEntry(result, now)) else Lookup(entries, k')
  {
    PutLookup(entries, k, CacheEntry(result, now));
  }

  /** On overflow, `set` drops exactly one key of the stored-into table, one
      whose timestamp is the smallest, and keeps every other key. */
  lemma SetSpecEvictsOldest(entries: seq<Slot>, maxSize: int, k: Key, result: Value, now: int)
    requires KeysDistinct(entries)
    requires |Put(entries, k, CacheEntry(result, now))| > maxSize
    ensures var p := Put(entries, k, CacheEntry(result, now));
            var victim := p[FirstMinIndex(p)].0;
            var r := SetSpec(entries, maxSize, k, result, now);
            |r| == |p| - 1
            && Lookup(p, victim).Some?
            && (forall k' :: Lookup(p, k').Some? ==> Lookup(p, victim).value.timestamp <= Lookup(p, k').value.timestamp)
            && (forall k' :: Lookup(r, k') == if k' == victim then None else Lookup(p, k'))
  {
    var p := Put(entries, k, CacheEntry(result, now));
    PutLookup(entries, k, CacheEntry(result, now));
    var m := FirstMinIndex(p);
    RemoveLookup(p, m);
    LookupAt(p, m);
  }

  /** A value just stored is returned by a `get` within its time-to-live as
      long as the clock has not gone backwards and the bound leaves room for
      it: the entry stored now is never the first oldest one. A stored None
      is therefore also returned, and looks like a miss. */
  lemma SetThenGet(entries: seq<Slot>, maxSize: int, ttl: int, k: Key, result: Value, now: int, later: int)
    requires KeysDistinct(entries) && |entries| <= maxSize && 1 <= maxSize
    requires forall i :: 0 <= i < |entries| ==> entries[i].1.timestamp <= now
    requires later - now < ttl
    ensures GetSpec(SetSpec(entries, maxSize, k, result, now), ttl, k, later).0 == result
  {
    var e := CacheEntry(result, now);
    var p := Put(entries, k, e);
    PutLookup(entries, k, e);
    var r := SetSpec(entries, maxSize, k, result, now);
    if |p| > maxSize {
      // the key was new, so it sits last, behind an entry at least as old
      assert Find(entries, k).None?;
      assert p[|p| - 1] == (k, e) && p[0].1.timestamp <= now;
      var m := FirstMinIndex(p);
      assert m < |p| - 1;
      RemoveLookup(p, m);
      assert p[m].0 != k;
    }
    assert Lookup(r, k) == Some(e);
    GetSpecCorrect(r, ttl, k, later);
  }

  // ---------------------------------------------------------------------
  // The class

  class ToolCallCache {
    var entries: seq<Slot>
    var maxSize: int
    var ttl: int

    ghost predicate Valid()
      reads this
    {
      KeysDistinct(entries)
    }

    /** `ToolCallCache(max_size=..., ttl_minutes=...)`, 100 and 60 by default. */
    constructor (maxSize: int, ttl: int)
      ensures entries == [] && this.maxSize == maxSize && this.ttl == ttl
      ensures Valid()
    {
      entries := [];
      this.maxSize := maxSize;
      this.ttl := ttl;
    }

    /** `get(tool_name, args, kwargs)` at time `now`. */
    method Get(toolName: string, args: seq<Value>, kwargs: seq<Kwarg>, now: int) returns (r: Value)
      modifies this
      ensures (r, entries) == GetSpec(old(entries), ttl, MakeKey(toolName, args, kwargs), now)
      ensures maxSize == old(maxSize) && ttl == old(ttl)
      ensures old(Valid()) ==> Valid()
    {
      var key := MakeKey(toolName, args, kwargs);
      ghost var before := entries;
      match Find(entries, key) {
        case Some(i) =>
          var entry := entries[i].1;
          if now - entry.timestamp < ttl {
            return entry.result;
          }
          entries := RemoveAt(entries, i);
        case None =>
      }
      if KeysDistinct(before) {
        GetSpecCorrect(before, ttl, key, now);
      }
      return NoneValue;
    }

    /** `set(tool_name, args, kwargs, result)` at time `now`. */
    method Set(toolName: string, args: seq<Value>, kwargs: seq<Kwarg>, result: Value, now: int)
      modifies this
      ensures entries == SetSpec(old(entries), maxSize, MakeKey(toolName, args, kwargs), result, now)
      ensures maxSize == old(maxSize) && ttl == old(ttl)
      ensures old(Valid()) ==> Valid()
    {
      var key := MakeKey(toolName, args, kwargs);
      ghost var before := entries;
      entries := Put(entries, key, CacheEntry(result, now));
      if |entries| > maxSize {
        var oldest := FirstMinIndex(entries);
        entries := RemoveAt(entries, oldest);
      }
      if KeysDistinct(before) {
        SetSpecBounded(before, maxSize, key, result, now);
      }
    }
  }

  /** The memoising wrapper `CachedToolSet._wrap_tool` around `tool`, named
      `toolName`: a cached result other than None is returned without calling
      the tool; otherwise the tool is called once and its result stored under
      the same key. `now` and `later` are the clock at the lookup and at the
      store. */
  method CallCached(cache: ToolCallCache, toolName: string, tool: (seq<Value>, seq<Kwarg>) -> Value,
                    args: seq<Value>, kwargs: seq<Kwarg>, now: int, later: int)
    returns (r: Value, called: bool)
    modifies cache
    ensures var key := MakeKey(toolName, args, kwargs);
            var (hit, afterGet) := GetSpec(old(cache.entries), cache.ttl, key, now);
            (hit != NoneValue ==> r == hit && !called && cache.entries == afterGet)
            && (hit == NoneValue ==>
                  called && r == tool(args, kwargs) && cache.entries == SetSpec(afterGet, cache.maxSize, key, r, later))
    ensures cache.maxSize == old(cache.maxSize) && cache.ttl == old(cache.ttl)
    ensures old(cache.Valid()) ==> cache.Valid()
  {
    var cached := cache.Get(toolName, args, kwargs, now);
    if cached != NoneValue {
      return cached, false;
    }
    r := tool(args, kwargs);
    cache.Set(toolName, args, kwargs, r, later);
    called := true;
  }

  /** Storing a new key in a table with room appends it. */
  lemma SetNewKeyWithRoom(entries: seq<Slot>, maxSize: int, k: Key, result: Value, now: int)
    requires forall j :: 0 <= j < |entries| ==> entries[j].0 != k
    requires |entries| < maxSize
    ensures SetSpec(entries, maxSize, k, result, now) == entries + [(k, CacheEntry(result, now))]
  {
  }

  /** Storing a new key in a full table appends it and then evicts the
      first entry with the smallest timestamp. */
  lemma SetNewKeyWhenFull(entries: seq<Slot>, maxSize: int, k: Key, result: Value, now: int)
    requires forall j :: 0 <= j < |entries| ==> entries[j].0 != k
    requires |entries| == maxSize
    ensures var p := entries + [(k, CacheEntry(result, now))];
            SetSpec(entries, maxSize, k, result, now) == RemoveAt(p, FirstMinIndex(p))
  {
  }

  /** The fourth store of the size-limit scenario evicts the first one. */
  lemma FourthStoreEvictsFirst(s3: seq<Slot>, k4: Key, e4: CacheEntry)
    requires |s3| == 3 && s3[0].0 != k4 && s3[1].0 != k4 && s3[2].0 != k4
    requires s3[0].1.timestamp <= s3[1].1.timestamp <= s3[2].1.timestamp <= e4.timestamp
    ensures SetSpec(s3, 3, k4, e4.result, e4.timestamp) == s3[1..] + [(k4, e4)]
  {
    var p := s3 + [(k4, e4)];
    SetNewKeyWhenFull(s3, 3, k4, e4.result, e4.timestamp);
    var m := FirstMinIndex(p);
    assert p[m].1.timestamp <= p[0].1.timestamp;
    assert m == 0;
    assert RemoveAt(p, 0) == s3[1..] + [(k4, e4)];
  }

  /** The first three stores of the size-limit scenario: a table bounded by
      3 receives three tools with no arguments and keeps them in order. */
  method FillToBound(n1: string, n2: string, n3: string,
                     v1: Value, v2: Value, v3: Value,
                     t1: int, t2: int, t3: int, ttl: int)
    returns (c: ToolCallCache)
    requires n1 != n2 && n1 != n3 && n2 != n3
    ensures fresh(c) && c.maxSize == 3 && c.ttl == ttl
    ensures c.entries == [(Key(n1, [], []), CacheEntry(v1, t1)), (Key(n2, [], []), CacheEntry(v2, t2)),
                          (Key(n3, [], []), CacheEntry(v3, t3))]
  {
    var k1, k2, k3 := Key(n1, [], []), Key(n2, [], []), Key(n3, [], []);
    var e1, e2, e3 := CacheEntry(v1, t1), CacheEntry(v2, t2), CacheEntry(v3, t3);
    assert SortKwargs([]) == [];
    c := new ToolCallCache(3, ttl);
    SetNewKeyWithRoom([], 3, k1, v1, t1);
    c.Set(n1, [], [], v1, t1);
    assert c.entries == [(k1, e1)];
    SetNewKeyWithRoom([(k1, e1)], 3, k2, v2, t2);
    c.Set(n2, [], [], v2, t2);
    assert c.entries == [(k1, e1), (k2, e2)];
    SetNewKeyWithRoom([(k1, e1), (k2, e2)], 3, k3, v3, t3);
    c.Set(n3, [], [], v3, t3);
  }

  /** The stores of the size-limit scenario: a table bounded by 3 receives
      four tools with no arguments at increasing times and keeps the last
      three. */
  method FillPastBound(n1: string, n2: string, n3: string, n4: string,
                       v1: Value, v2: Value, v3: Value, v4: Value,
                       t1: int, t2: int, t3: int, t4: int, ttl: int)
    returns (c: ToolCallCache)
    requires n1 != n2 && n1 != n3 && n1 != n4 && n2 != n3 && n2 != n4 && n3 != n4
    requires t1 <= t2 <= t3 <= t4
    ensures fresh(c) && c.maxSize == 3 && c.ttl == ttl
    ensures c.entries == [(Key(n2, [], []), CacheEntry(v2, t2)), (Key(n3, [], []), CacheEntry(v3, t3)),
                          (Key(n4, [], []), CacheEntry(v4, t4))]
  {
    c := FillToBound(n1, n2, n3, v1, v2, v3, t1, t2, t3, ttl);
    ghost var s3 := c.entries;
    var k4, e4 := Key(n4, [], []), CacheEntry(v4, t4);
    assert SortKwargs([]) == [];
    FourthStoreEvictsFirst(s3, k4, e4);
    c.Set(n4, [], [], v4, t4);
    assert s3[1..] == [(Key(n2, [], []), CacheEntry(v2, t2)), (Key(n3, [], []), CacheEntry(v3, t3))];
  }

  /** The size-limit scenario: after those stores the first tool is a miss
      and the other three are still returned while they are fresh. */
  method SizeLimitScenario(n1: string, n2: string, n3: string, n4: string,
                           v1: Value, v2: Value, v3: Value, v4: Value,
                           t1: int, t2: int, t3: int, t4: int, now: int, ttl: int)
    returns (r1: Value, r2: Value, r3: Value, r4: Value)
    requires n1 != n2 && n1 != n3 && n1 != n4 && n2 != n3 && n2 != n4 && n3 != n4
    requires t1 <= t2 <= t3 <= t4 && now - t2 < ttl
    ensures r1 == NoneValue
    ensures r2 == v2 && r3 == v3 && r4 == v4
  {
    var c := FillPastBound(n1, n2, n3, n4, v1, v2, v3, v4, t1, t2, t3, t4, ttl);
    ghost var kept := c.entries;
    assert SortKwargs([]) == [];
    assert Find(kept, Key(n1, [], [])) == None;
    r1 := c.Get(n1, [], [], now);
    assert c.entries == kept;
    assert Find(kept, Key(n2, [], [])) == Some(0);
    r2 := c.Get(n2, [], [], now);
    assert c.entries == kept;
    assert kept[0].0 != Key(n3, [], []) && kept[1].0 == Key(n3, [], []);
    assert Find(kept, Key(n3, [], [])) == Some(1);
    r3 := c.Get(n3, [], [], now);
    assert c.entries == kept;
    assert kept[0].0 != Key(n4, [], []) && kept[1].0 != Key(n4, [], []) && kept[2].0 == Key(n4, [], []);
    assert Find(kept, Key(n4, [], [])) == Some(2);
    r4 := c.Get(n4, [], [], now);
  }
}
