/** The least-recently-used query cache (`core/db/cache.py`), as an ordered list
    of slots from least to most recently used, and its two whole-run theorems:
    inclusion (a smaller cache holds part of what a larger one holds) and
    residency (which keys are cached, told from the calls alone). */
module LruCache {
  import opened Wrappers

  datatype CacheEntry<+V> = CacheEntry(value: V, ttl: Option<real>, createdAt: real, accessedAt: real, accessCount: nat)

  predicate IsExpired<V>(e: CacheEntry<V>, now: real) {
    e.ttl.Some? && now - e.createdAt > e.ttl.value
  }

  function NewEntry<V>(v: V, ttl: Option<real>, now: real): CacheEntry<V> {
    CacheEntry(v, ttl, now, now, 0)
  }

  function RecordAccess<V>(e: CacheEntry<V>, now: real): CacheEntry<V> {
    e.(accessedAt := now, accessCount := e.accessCount + 1)
  }

  datatype Slot<+K, +V> = Slot(key: K, entry: CacheEntry<V>)

  // ---------------------------------------------------------------- ordered slots

  function Keys<K(==), V>(s: seq<Slot<K, V>>): set<K> {
    set i | 0 <= i < |s| :: s[i].key
  }

  /** No key twice: the list is an ordered dictionary. */
  ghost predicate Distinct<K, V>(s: seq<Slot<K, V>>) {
    forall i, j :: 0 <= i < j < |s| ==> s[i].key != s[j].key
  }

  /** The slots whose key lies in `d`, in their order. */
  function Keep<K(==), V>(s: seq<Slot<K, V>>, d: set<K>): (r: seq<Slot<K, V>>) {
    if s == [] then []
    else if s[0].key in d then [s[0]] + Keep(s[1..], d)
    else Keep(s[1..], d)
  }

  function Without<K(==), V>(s: seq<Slot<K, V>>, k: K): seq<Slot<K, V>> {
    Keep(s, Keys(s) - {k})
  }

  function Lookup<K(==), V>(s: seq<Slot<K, V>>, k: K): Option<CacheEntry<V>> {
    if s == [] then None
    else if s[0].key == k then Some(s[0].entry)
    else Lookup(s[1..], k)
  }

  lemma KeysSplit<K, V>(s: seq<Slot<K, V>>, t: seq<Slot<K, V>>)
    ensures Keys(s + t) == Keys(s) + Keys(t)
  {
    forall k | k in Keys(s) + Keys(t) ensures k in Keys(s + t) {
      var x :| (x in s || x in t) && x.key == k;
      assert x in s + t;
    }
  }

  lemma KeysOne<K, V>(x: Slot<K, V>)
    ensures Keys([x]) == {x.key}
  {
    assert [x][0] == x;
  }

  lemma {:induction false} KeepSplit<K, V>(s: seq<Slot<K, V>>, t: seq<Slot<K, V>>, d: set<K>)
    ensures Keep(s + t, d) == Keep(s, d) + Keep(t, d)
  {
    if s == [] {
      assert s + t == t;
    } else {
      assert (s + t)[1..] == s[1..] + t;
      KeepSplit(s[1..], t, d);
    }
  }

  lemma {:induction false} KeepIn<K, V>(s: seq<Slot<K, V>>, d: set<K>)
    ensures Keys(Keep(s, d)) == Keys(s) * d
    ensures |Keep(s, d)| <= |s|
  {
    if s != [] {
      KeepIn(s[1..], d);
      assert s == [s[0]] + s[1..];
      KeysSplit([s[0]], s[1..]);
      KeysSplit([s[0]], Keep(s[1..], d));
      KeysOne(s[0]);
    }
  }

  lemma {:induction false} KeepElements<K, V>(s: seq<Slot<K, V>>, d: set<K>)
    ensures forall x :: x in Keep(s, d) ==> x in s && x.key in d
  {
    if s != [] {
      KeepElements(s[1..], d);
    }
  }

  lemma {:induction false} KeepKeep<K, V>(s: seq<Slot<K, V>>, d: set<K>, e: set<K>)
    ensures Keep(Keep(s, d), e) == Keep(s, d * e)
  {
    if s != [] {
      KeepKeep(s[1..], d, e);
      if s[0].key in d {
        assert ([s[0]] + Keep(s[1..], d))[1..] == Keep(s[1..], d);
      }
    }
  }

  lemma {:induction false} KeepAll<K, V>(s: seq<Slot<K, V>>, d: set<K>)
    requires Keys(s) <= d
    ensures Keep(s, d) == s
  {
    if s != [] {
      assert s[0] in s;
      assert forall x :: x in s[1..] ==> x in s;
      KeepAll(s[1..], d);
    }
  }

  /** Only the keys that occur matter. */
  lemma KeepRelevant<K, V>(s: seq<Slot<K, V>>, d: set<K>, e: set<K>)
    requires d * Keys(s) == e * Keys(s)
    ensures Keep(s, d) == Keep(s, e)
  {
    KeepAll(s, Keys(s));
    KeepKeep(s, Keys(s), d);
    KeepKeep(s, Keys(s), e);
    assert Keys(s) * d == d * Keys(s) && Keys(s) * e == e * Keys(s);
  }

  lemma DistinctJoin<K, V>(s: seq<Slot<K, V>>, t: seq<Slot<K, V>>)
    requires Distinct(s) && Distinct(t) && Keys(s) !! Keys(t)
    ensures Distinct(s + t)
  {
    forall i, j | 0 <= i < j < |s + t| ensures (s + t)[i].key != (s + t)[j].key {
      if i < |s| && j >= |s| {
        assert s[i].key in Keys(s) && t[j - |s|].key in Keys(t);
      }
    }
  }

  lemma {:induction false} KeepDistinct<K, V>(s: seq<Slot<K, V>>, d: set<K>)
    requires Distinct(s)
    ensures Distinct(Keep(s, d))
  {
    if s != [] {
      var t := s[1..];
      assert forall i, j :: 0 <= i < j < |t| ==> t[i].key == s[i + 1].key && t[j].key == s[j + 1].key;
      KeepDistinct(t, d);
      KeepIn(t, d);
      if s[0].key in d {
        DistinctJoin([s[0]], Keep(t, d));
      }
    }
  }

  lemma {:induction false} DistinctLength<K, V>(s: seq<Slot<K, V>>)
    requires Distinct(s)
    ensures |Keys(s)| == |s|
  {
    if s != [] {
      DistinctLength(s[1..]);
      KeysSplit([s[0]], s[1..]);
      assert [s[0]] + s[1..] == s;
      KeysOne(s[0]);
      assert s[0].key !in Keys(s[1..]);
    }
  }

  lemma {:induction false} LookupIn<K, V>(s: seq<Slot<K, V>>, k: K)
    ensures Lookup(s, k).Some? <==> k in Keys(s)
    ensures Lookup(s, k).Some? ==> Slot(k, Lookup(s, k).value) in s
  {
    if s != [] {
      LookupIn(s[1..], k);
      assert s == [s[0]] + s[1..];
      KeysSplit([s[0]], s[1..]);
      KeysOne(s[0]);
    }
  }

  lemma {:induction false} LookupSplit<K, V>(s: seq<Slot<K, V>>, t: seq<Slot<K, V>>, k: K)
    ensures Lookup(s + t, k) == if k in Keys(s) then Lookup(s, k) else Lookup(t, k)
  {
    LookupIn(s, k);
    if s == [] {
      assert s + t == t;
    } else {
      assert (s + t)[1..] == s[1..] + t;
      LookupSplit(s[1..], t, k);
      LookupIn(s[1..], k);
    }
  }

  lemma {:induction false} LookupKeep<K, V>(s: seq<Slot<K, V>>, d: set<K>, k: K)
    ensures Lookup(Keep(s, d), k) == if k in d then Lookup(s, k) else None
  {
    if s != [] {
      LookupKeep(s[1..], d, k);
    }
  }

  // ---------------------------------------------------------------- operations

  datatype Lru<+K, +V> = Lru(order: seq<Slot<K, V>>, hits: nat, misses: nat)

  datatype Op<+K, +V> =
    | Get(key: K, now: real)
    | Put(key: K, value: V, ttl: Option<real>, now: real)
    | Invalidate(key: K)
    | Clear

  /** `OrderedDict.move_to_end` with a new entry. */
  function MoveToEnd<K(==), V>(s: seq<Slot<K, V>>, k: K, e: CacheEntry<V>): seq<Slot<K, V>> {
    Without(s, k) + [Slot(k, e)]
  }

  predicate Hit<K(==), V>(c: Lru<K, V>, k: K, now: real) {
    Lookup(c.order, k).Some? && !IsExpired(Lookup(c.order, k).value, now)
  }

  function GetResult<K(==), V>(c: Lru<K, V>, k: K, now: real): Option<V> {
    if Hit(c, k, now) then Some(Lookup(c.order, k).value.value) else None
  }

  function AfterGet<K(==), V>(c: Lru<K, V>, k: K, now: real): Lru<K, V> {
    match Lookup(c.order, k)
    case None => c.(misses := c.misses + 1)
    case Some(e) =>
      if IsExpired(e, now) then Lru(Without(c.order, k), c.hits, c.misses + 1)
      else Lru(MoveToEnd(c.order, k, RecordAccess(e, now)), c.hits + 1, c.misses)
  }

  /** The slots once room is made for a key that is not there. */
  function Evict<K, V>(s: seq<Slot<K, V>>, cap: nat): seq<Slot<K, V>>
    requires cap > 0
  {
    if |s| >= cap then s[1..] else s
  }

  function AfterPut<K(==), V>(c: Lru<K, V>, cap: nat, k: K, e: CacheEntry<V>): Lru<K, V>
    requires cap > 0
  {
    if k in Keys(c.order) then c.(order := MoveToEnd(c.order, k, e))
    else c.(order := Evict(c.order, cap) + [Slot(k, e)])
  }

  function Step<K(==), V>(cap: nat, c: Lru<K, V>, op: Op<K, V>): Lru<K, V>
    requires cap > 0
  {
    match op
    case Get(k, now) => AfterGet(c, k, now)
    case Put(k, v, ttl, now) => AfterPut(c, cap, k, NewEntry(v, ttl, now))
    case Invalidate(k) => c.(order := Without(c.order, k))
    case Clear => Lru([], 0, 0)
  }

  /** The state after the calls of `ops`, oldest first, on a fresh cache. */
  function Run<K(==), V>(cap: nat, ops: seq<Op<K, V>>): Lru<K, V>
    requires cap > 0
  {
    if ops == [] then Lru([], 0, 0)
    else Step(cap, Run(cap, ops[..|ops| - 1]), ops[|ops| - 1])
  }

  ghost predicate WellFormed<K, V>(cap: nat, c: Lru<K, V>) {
    Distinct(c.order) && |c.order| <= cap
  }

  lemma WithoutKeeps<K, V>(s: seq<Slot<K, V>>, k: K)
    requires Distinct(s)
    ensures Distinct(Without(s, k)) && Keys(Without(s, k)) == Keys(s) - {k}
    ensures |Without(s, k)| == if k in Keys(s) then |s| - 1 else |s|
    ensures k !in Keys(s) ==> Without(s, k) == s
  {
    KeepDistinct(s, Keys(s) - {k});
    KeepIn(s, Keys(s) - {k});
    DistinctLength(s);
    DistinctLength(Without(s, k));
    if k !in Keys(s) {
      KeepAll(s, Keys(s) - {k});
    }
  }

  lemma MoveToEndKeeps<K, V>(s: seq<Slot<K, V>>, k: K, e: CacheEntry<V>)
    requires Distinct(s)
    ensures Distinct(MoveToEnd(s, k, e)) && Keys(MoveToEnd(s, k, e)) == Keys(s) + {k}
    ensures k in Keys(s) ==> |MoveToEnd(s, k, e)| == |s|
  {
    WithoutKeeps(s, k);
    KeysSplit(Without(s, k), [Slot(k, e)]);
    KeysOne(Slot(k, e));
    DistinctJoin(Without(s, k), [Slot(k, e)]);
  }

  /** Every call keeps the keys distinct and the size within `max_size`. */
  lemma StepWellFormed<K, V>(cap: nat, c: Lru<K, V>, op: Op<K, V>)
    requires cap > 0 && WellFormed(cap, c)
    ensures WellFormed(cap, Step(cap, c, op))
  {
    match op
    case Get(k, now) =>
      LookupIn(c.order, k);
      WithoutKeeps(c.order, k);
      if Lookup(c.order, k).Some? {
        MoveToEndKeeps(c.order, k, RecordAccess(Lookup(c.order, k).value, now));
      }
    case Put(k, v, ttl, now) =>
      var e := NewEntry(v, ttl, now);
      if k in Keys(c.order) {
        MoveToEndKeeps(c.order, k, e);
      } else {
        DistinctJoin(Evict(c.order, cap), [Slot(k, e)]);
      }
    case Invalidate(k) =>
      WithoutKeeps(c.order, k);
    case Clear =>
  }

  lemma {:induction false} RunWellFormed<K, V>(cap: nat, ops: seq<Op<K, V>>)
    requires cap > 0
    ensures WellFormed(cap, Run(cap, ops))
  {
    if ops != [] {
      RunWellFormed(cap, ops[..|ops| - 1]);
      StepWellFormed(cap, Run(cap, ops[..|ops| - 1]), ops[|ops| - 1]);
    }
  }

  /** The same value of the same age. */
  predicate SameContent<V(==)>(a: CacheEntry<V>, b: CacheEntry<V>) {
    a.value == b.value && a.ttl == b.ttl && a.createdAt == b.createdAt
  }

  /** Nothing comes into the cache but what is put there. */
  lemma StepOrigin<K, V>(cap: nat, c: Lru<K, V>, op: Op<K, V>, x: Slot<K, V>)
    requires cap > 0 && x in Step(cap, c, op).order
    ensures (op.Put? && x == Slot(op.key, NewEntry(op.value, op.ttl, op.now)))
            || exists y :: y in c.order && y.key == x.key && SameContent(y.entry, x.entry)
  {
    match op
    case Get(k, now) =>
      LookupIn(c.order, k);
      KeepElements(c.order, Keys(c.order) - {k});
    case Put(k, v, ttl, now) =>
      KeepElements(c.order, Keys(c.order) - {k});
    case Invalidate(k) =>
      KeepElements(c.order, Keys(c.order) - {k});
    case Clear =>
  }

  /** How many gets since the last clear, and how many of them were answered. */
  function Gets<K(==), V>(cap: nat, ops: seq<Op<K, V>>): (nat, nat)
    requires cap > 0
  {
    if ops == [] then (0, 0)
    else
      var (asked, answered) := Gets(cap, ops[..|ops| - 1]);
      match ops[|ops| - 1]
      case Get(k, now) => (asked + 1, if GetResult(Run(cap, ops[..|ops| - 1]), k, now).Some? then answered + 1 else answered)
      case Clear => (0, 0)
      case _ => (asked, answered)
  }

  /** The counters tell every get since the last clear as a hit or a miss. */
  lemma {:induction false} CountersTrue<K, V>(cap: nat, ops: seq<Op<K, V>>)
    requires cap > 0
    ensures var (asked, answered) := Gets(cap, ops);
            Run(cap, ops).hits == answered && Run(cap, ops).misses == asked - answered
  {
    if ops != [] {
      CountersTrue(cap, ops[..|ops| - 1]);
    }
  }

  // ---------------------------------------------------------------- inclusion

  /** `s` is the part of `b` over its own keys: a subsequence in recency order
      with the very same entries. */
  ghost predicate Sub<K, V>(s: seq<Slot<K, V>>, b: seq<Slot<K, V>>) {
    s == Keep(b, Keys(s))
  }

  lemma SubKeys<K, V>(s: seq<Slot<K, V>>, b: seq<Slot<K, V>>)
    requires Sub(s, b)
    ensures Keys(s) <= Keys(b) && |s| <= |b|
  {
    KeepIn(b, Keys(s));
  }

  lemma SubWithoutBoth<K, V>(s: seq<Slot<K, V>>, b: seq<Slot<K, V>>, k: K)
    requires Sub(s, b)
    ensures Sub(Without(s, k), Without(b, k))
  {
    SubKeys(s, b);
    KeepIn(s, Keys(s) - {k});
    KeepKeep(b, Keys(s), Keys(s) - {k});
    KeepKeep(b, Keys(b) - {k}, Keys(s) - {k});
    assert Keys(s) * (Keys(s) - {k}) == Keys(s) - {k} == (Keys(b) - {k}) * (Keys(s) - {k});
  }

  lemma SubWithoutSmall<K, V>(s: seq<Slot<K, V>>, b: seq<Slot<K, V>>, k: K)
    requires Sub(s, b)
    ensures Sub(Without(s, k), b)
  {
    KeepIn(s, Keys(s) - {k});
    KeepKeep(b, Keys(s), Keys(s) - {k});
    assert Keys(s) * (Keys(s) - {k}) == Keys(s) - {k};
  }

  lemma SubAppend<K, V>(s: seq<Slot<K, V>>, b: seq<Slot<K, V>>, x: Slot<K, V>)
    requires Sub(s, b) && x.key !in Keys(b)
    ensures Sub(s, b + [x]) && Sub(s + [x], b + [x])
  {
    SubKeys(s, b);
    KeepSplit(b, [x], Keys(s));
    KeysSplit(s, [x]);
    KeysOne(x);
    KeepSplit(b, [x], Keys(s) + {x.key});
    KeepRelevant(b, Keys(s), Keys(s) + {x.key});
  }

  lemma DropFirst<K, V>(s: seq<Slot<K, V>>)
    requires s != [] && Distinct(s)
    ensures s[1..] == Without(s, s[0].key) && s[0].key !in Keys(s[1..])
    ensures Keys(s[1..]) == Keys(s) - {s[0].key}
  {
    KeysSplit([s[0]], s[1..]);
    KeysOne(s[0]);
    assert [s[0]] + s[1..] == s;
    KeepAll(s[1..], Keys(s) - {s[0].key});
  }

  /** Both caches make room: what the smaller one keeps, the larger one keeps. */
  lemma SubEvict<K, V>(s: seq<Slot<K, V>>, b: seq<Slot<K, V>>, k: nat, n: nat)
    requires 0 < k <= n && Distinct(s) && Distinct(b) && Sub(s, b)
    requires |s| <= k && |b| <= n && n - |b| >= k - |s|
    ensures Sub(Evict(s, k), Evict(b, n))
    ensures n - |Evict(b, n)| >= k - |Evict(s, k)|
  {
    SubKeys(s, b);
    if s != [] {
      DropFirst(s);
      SubWithoutSmall(s, b, s[0].key);
    }
    if |b| >= n {
      DropFirst(b);
      SubWithoutBoth(s, b, b[0].key);
      if b[0].key in Keys(s) {
        assert s[0] == b[0];
      } else {
        WithoutKeeps(s, b[0].key);
        SubWithoutSmall(s, b[1..], s[0].key);
      }
    }
  }

  /** The small cache against the large one: same entries in the same order where
      both hold a key, no less free room in the large one, and no more hits. */
  ghost predicate Included<K, V>(k: nat, small: Lru<K, V>, n: nat, big: Lru<K, V>) {
    && WellFormed(k, small) && WellFormed(n, big)
    && Sub(small.order, big.order)
    && n - |big.order| >= k - |small.order|
    && small.hits <= big.hits
    && small.hits + small.misses == big.hits + big.misses
  }

  lemma SubLookup<K, V>(s: seq<Slot<K, V>>, b: seq<Slot<K, V>>, key: K)
    requires Sub(s, b)
    ensures Lookup(s, key) == if key in Keys(s) then Lookup(b, key) else None
    ensures Lookup(s, key).Some? <==> key in Keys(s)
    ensures Lookup(b, key).Some? <==> key in Keys(b)
  {
    LookupKeep(b, Keys(s), key);
    LookupIn(s, key);
    LookupIn(b, key);
  }

  lemma IncludedPut<K, V>(k: nat, small: Lru<K, V>, n: nat, big: Lru<K, V>, key: K, e: CacheEntry<V>)
    requires 0 < k <= n && Included(k, small, n, big)
    ensures Sub(AfterPut(small, k, key, e).order, AfterPut(big, n, key, e).order)
    ensures n - |AfterPut(big, n, key, e).order| >= k - |AfterPut(small, k, key, e).order|
  {
    var (s, b) := (small.order, big.order);
    SubKeys(s, b);
    WithoutKeeps(s, key);
    WithoutKeeps(b, key);
    if key in Keys(b) {
      SubWithoutBoth(s, b, key);
      if key !in Keys(s) && |s| >= k {
        DropFirst(s);
        SubWithoutSmall(s, Without(b, key), s[0].key);
        SubAppend(s[1..], Without(b, key), Slot(key, e));
      } else {
        SubAppend(Without(s, key), Without(b, key), Slot(key, e));
      }
    } else {
      SubEvict(s, b, k, n);
      assert forall x :: x in Keys(Evict(b, n)) ==> x in Keys(b) by {
        if |b| >= n { DropFirst(b); }
      }
      SubAppend(Evict(s, k), Evict(b, n), Slot(key, e));
    }
  }

  lemma IncludedGet<K, V>(k: nat, small: Lru<K, V>, n: nat, big: Lru<K, V>, key: K, now: real)
    requires 0 < k <= n && Included(k, small, n, big)
    ensures Sub(AfterGet(small, key, now).order, AfterGet(big, key, now).order)
    ensures n - |AfterGet(big, key, now).order| >= k - |AfterGet(small, key, now).order|
    ensures Hit(small, key, now) ==> Hit(big, key, now) && GetResult(small, key, now) == GetResult(big, key, now)
  {
    var (s, b) := (small.order, big.order);
    SubKeys(s, b);
    SubLookup(s, b, key);
    WithoutKeeps(s, key);
    WithoutKeeps(b, key);
    if key in Keys(b) {
      SubWithoutBoth(s, b, key);
      SubAppend(Without(s, key), Without(b, key), Slot(key, RecordAccess(Lookup(b, key).value, now)));
    }
  }

  lemma IncludedStep<K, V>(k: nat, small: Lru<K, V>, n: nat, big: Lru<K, V>, op: Op<K, V>)
    requires 0 < k <= n && Included(k, small, n, big)
    ensures Included(k, Step(k, small, op), n, Step(n, big, op))
  {
    StepWellFormed(k, small, op);
    StepWellFormed(n, big, op);
    match op
    case Get(key, now) => IncludedGet(k, small, n, big, key, now);
    case Put(key, v, ttl, now) => IncludedPut(k, small, n, big, key, NewEntry(v, ttl, now));
    case Invalidate(key) =>
      SubKeys(small.order, big.order);
      SubWithoutBoth(small.order, big.order, key);
      WithoutKeeps(small.order, key);
      WithoutKeeps(big.order, key);
    case Clear =>
  }

  /** Inclusion. On the same calls at the same clock readings, a cache of size
      `k <= n` holds a recency-ordered part of what the cache of size `n` holds,
      entry for entry; so whatever the smaller one answers the larger one answers
      too, and it never has more hits. */
  lemma {:induction false} Inclusion<K, V>(k: nat, n: nat, ops: seq<Op<K, V>>)
    requires 0 < k <= n
    ensures Included(k, Run(k, ops), n, Run(n, ops))
    ensures forall key, now :: Hit(Run(k, ops), key, now) ==>
              Hit(Run(n, ops), key, now) && GetResult(Run(k, ops), key, now) == GetResult(Run(n, ops), key, now)
  {
    if ops != [] {
      Inclusion(k, n, ops[..|ops| - 1]);
      IncludedStep(k, Run(k, ops[..|ops| - 1]), n, Run(n, ops[..|ops| - 1]), ops[|ops| - 1]);
    }
    forall key, now | Hit(Run(k, ops), key, now)
      ensures Hit(Run(n, ops), key, now) && GetResult(Run(k, ops), key, now) == GetResult(Run(n, ops), key, now)
    {
      IncludedGet(k, Run(k, ops), n, Run(n, ops), key, now);
    }
  }

  /** Put and get, written out: a value is answered until more than its time to live has
      passed, for ever without one, and each answer counts an access. */
  lemma PutThenGet<K, V>(c: Lru<K, V>, cap: nat, k: K, v: V, ttl: Option<real>, now: real, later: real)
    requires cap > 0 && WellFormed(cap, c)
    ensures
      var t := AfterPut(c, cap, k, NewEntry(v, ttl, now));
      if ttl.Some? && later - now > ttl.value
      then GetResult(t, k, later) == None && Lookup(AfterGet(t, k, later).order, k) == None
      else GetResult(t, k, later) == Some(v) && Lookup(AfterGet(t, k, later).order, k) == Some(CacheEntry(v, ttl, now, later, 1))
  {
    var t := AfterPut(c, cap, k, NewEntry(v, ttl, now));
    PutPlaces(cap, c, k, NewEntry(v, ttl, now));
    StepWellFormed(cap, c, Put(k, v, ttl, now));
    GetPlaces(t, k, later);
    LookupIn(AfterGet(t, k, later).order, k);
  }

  // ---------------------------------------------------------------- residency

  /** What a dictionary with no size bound would hold for `k`: the entry of the
      latest put, unless the key was invalidated, cleared or found expired since. */
  function Unbounded<K(==), V>(ops: seq<Op<K, V>>, k: K): Option<CacheEntry<V>> {
    if ops == [] then None
    else
      var before := Unbounded(ops[..|ops| - 1], k);
      match ops[|ops| - 1]
      case Get(x, now) =>
        if x != k || before.None? then before
        else if IsExpired(before.value, now) then None
        else Some(RecordAccess(before.value, now))
      case Put(x, v, ttl, now) => if x == k then Some(NewEntry(v, ttl, now)) else before
      case Invalidate(x) => if x == k then None else before
      case Clear => None
  }

  /** Would a get after `ops` find `k`? The unbounded dictionary holds it, fresh, and it has
      not been overrun. */
  predicate Finds<K(==), V>(cap: nat, ops: seq<Op<K, V>>, k: K, now: real)
    requires cap > 0
    decreases |ops|, 3
  {
    var e := Unbounded(ops, k);
    e.Some? && !IsExpired(e.value, now) && !Overrun(cap, ops, k)
  }

  /** Does the last call of `ops` put `k` or find it? */
  predicate Touches<K(==), V>(cap: nat, ops: seq<Op<K, V>>, k: K)
    requires cap > 0 && ops != []
    decreases |ops|, 0
  {
    match ops[|ops| - 1]
    case Get(x, now) => x == k && Finds(cap, ops[..|ops| - 1], k, now)
    case Put(x, _, _, _) => x == k
    case Invalidate(_) => false
    case Clear => false
  }

  /** The other keys put or found since `k` was last put or found, less those
      invalidated, cleared or expired in the meantime. */
  function Rivals<K(==), V>(cap: nat, ops: seq<Op<K, V>>, k: K): set<K>
    requires cap > 0
    decreases |ops|, 1
  {
    if ops == [] then {}
    else if Touches(cap, ops, k) then {}
    else
      var earlier := ops[..|ops| - 1];
      var before := Rivals(cap, earlier, k);
      match ops[|ops| - 1]
      case Get(x, now) => if x != k && Finds(cap, earlier, x, now) then before + {x} else before - {x}
      case Put(x, _, _, _) => before + {x}
      case Invalidate(x) => before - {x}
      case Clear => {}
  }

  /** Has `k` had `cap` rivals at once since it was last put or found? */
  predicate Overrun<K(==), V>(cap: nat, ops: seq<Op<K, V>>, k: K)
    requires cap > 0
    decreases |ops|, 2
  {
    ops != [] && !Touches(cap, ops, k) && (Overrun(cap, ops[..|ops| - 1], k) || |Rivals(cap, ops, k)| >= cap)
  }

  /** The latest call, unfolded. */
  lemma LastCall<K, V>(cap: nat, ops: seq<Op<K, V>>, k: K)
    requires cap > 0 && ops != []
    ensures var earlier := ops[..|ops| - 1];
            var before := Rivals(cap, earlier, k);
            && Overrun(cap, ops, k) == (!Touches(cap, ops, k) && (Overrun(cap, earlier, k) || |Rivals(cap, ops, k)| >= cap))
            && Rivals(cap, ops, k) ==
                 if Touches(cap, ops, k) then {}
                 else
                   match ops[|ops| - 1]
                   case Get(x, now) => (if x != k && Finds(cap, earlier, x, now) then before + {x} else before - {x})
                   case Put(x, _, _, _) => before + {x}
                   case Invalidate(x) => before - {x}
                   case Clear => {}
  {
  }

  /** The slots more recent than the key's. */
  function After<K(==), V>(s: seq<Slot<K, V>>, k: K): seq<Slot<K, V>> {
    if s == [] then []
    else if s[0].key == k then s[1..]
    else After(s[1..], k)
  }

  lemma {:induction false} AfterSplit<K, V>(s: seq<Slot<K, V>>, t: seq<Slot<K, V>>, k: K)
    ensures After(s + t, k) == if k in Keys(s) then After(s, k) + t else After(t, k)
  {
    if s == [] {
      assert s + t == t;
    } else {
      assert (s + t)[1..] == s[1..] + t;
      AfterSplit(s[1..], t, k);
      assert [s[0]] + s[1..] == s;
      KeysSplit([s[0]], s[1..]);
      KeysOne(s[0]);
    }
  }

  lemma {:induction false} AfterKeep<K, V>(s: seq<Slot<K, V>>, d: set<K>, k: K)
    requires k in d
    ensures After(Keep(s, d), k) == Keep(After(s, k), d)
  {
    if s != [] && s[0].key != k {
      AfterKeep(s[1..], d, k);
    }
  }

  lemma {:induction false} AfterKeys<K, V>(s: seq<Slot<K, V>>, k: K)
    requires Distinct(s)
    ensures Distinct(After(s, k)) && k !in Keys(After(s, k)) && Keys(After(s, k)) <= Keys(s)
    ensures k in Keys(s) ==> |After(s, k)| < |s|
    ensures |Keys(After(s, k))| == |After(s, k)|
  {
    if s != [] {
      DropFirst(s);
      var t := s[1..];
      assert forall i, j :: 0 <= i < j < |t| ==> t[i].key == s[i + 1].key && t[j].key == s[j + 1].key;
      if s[0].key == k {
        DistinctLength(t);
      } else {
        AfterKeys(t, k);
      }
    }
  }

  lemma AfterWithout<K, V>(s: seq<Slot<K, V>>, x: K, k: K)
    requires Distinct(s) && x != k
    ensures k in Keys(s) ==> Keys(After(Without(s, x), k)) == Keys(After(s, k)) - {x}
    ensures Lookup(Without(s, x), k) == Lookup(s, k)
  {
    LookupKeep(s, Keys(s) - {x}, k);
    LookupIn(s, k);
    if k in Keys(s) {
      AfterKeep(s, Keys(s) - {x}, k);
      AfterKeys(s, k);
      KeepIn(After(s, k), Keys(s) - {x});
    }
  }

  lemma AfterMoved<K, V>(s: seq<Slot<K, V>>, x: K, e: CacheEntry<V>, k: K)
    requires Distinct(s)
    ensures x == k ==> After(MoveToEnd(s, x, e), k) == [] && Lookup(MoveToEnd(s, x, e), k) == Some(e)
    ensures x != k ==> Lookup(MoveToEnd(s, x, e), k) == Lookup(s, k)
    ensures x != k && k in Keys(s) ==> Keys(After(MoveToEnd(s, x, e), k)) == Keys(After(s, k)) + {x}
  {
    WithoutKeeps(s, x);
    AfterSplit(Without(s, x), [Slot(x, e)], k);
    LookupSplit(Without(s, x), [Slot(x, e)], k);
    if x != k {
      AfterWithout(s, x, k);
      LookupIn(s, k);
      KeysSplit(After(Without(s, x), k), [Slot(x, e)]);
      KeysOne(Slot(x, e));
    }
  }

  /** The inductive form of residency: while a key is there its entry is the
      unbounded one and the slots behind it are exactly its rivals. */
  ghost predicate Tracked<K, V>(cap: nat, ops: seq<Op<K, V>>, k: K)
    requires cap > 0
  {
    var s := Run(cap, ops).order;
    && (k in Keys(s) ==> Lookup(s, k) == Unbounded(ops, k) && Keys(After(s, k)) == Rivals(cap, ops, k) && !Overrun(cap, ops, k))
    && (Unbounded(ops, k).Some? && !Overrun(cap, ops, k) ==> k in Keys(s))
  }

  lemma FindsHit<K, V>(cap: nat, ops: seq<Op<K, V>>, k: K, now: real)
    requires cap > 0 && Tracked(cap, ops, k)
    ensures Finds(cap, ops, k, now) == Hit(Run(cap, ops), k, now)
  {
    LookupIn(Run(cap, ops).order, k);
  }

  lemma FewRivals<K, V>(cap: nat, c: Lru<K, V>, k: K)
    requires WellFormed(cap, c) && k in Keys(c.order)
    ensures |Keys(After(c.order, k))| < cap
  {
    AfterKeys(c.order, k);
  }

  /** What a put of `x` does to the place of `k`: making room for a new key removes
      `k` only when all the others are behind it. */
  lemma PutEffect<K, V>(cap: nat, c: Lru<K, V>, x: K, e: CacheEntry<V>, k: K)
    requires cap > 0 && WellFormed(cap, c) && x != k
    ensures
      var t := AfterPut(c, cap, x, e).order;
      && (k in Keys(t) ==> k in Keys(c.order) && Keys(After(t, k)) == Keys(After(c.order, k)) + {x} && Lookup(t, k) == Lookup(c.order, k))
      && (k in Keys(c.order) && k !in Keys(t) ==> |Keys(After(c.order, k)) + {x}| >= cap)
  {
    if x in Keys(c.order) {
      MoveToEndKeeps(c.order, x, e);
      AfterMoved(c.order, x, e, k);
    } else {
      var r := Evict(c.order, cap);
      AfterSplit(r, [Slot(x, e)], k);
      LookupSplit(r, [Slot(x, e)], k);
      KeysSplit(r, [Slot(x, e)]);
      KeysOne(Slot(x, e));
      KeysSplit(After(r, k), [Slot(x, e)]);
      AfterKeys(c.order, k);
      if |c.order| >= cap {
        DropFirst(c.order);
      }
    }
  }

  /** The key just put is last. */
  lemma PutPlaces<K, V>(cap: nat, c: Lru<K, V>, k: K, e: CacheEntry<V>)
    requires cap > 0 && WellFormed(cap, c)
    ensures
      var t := AfterPut(c, cap, k, e).order;
      k in Keys(t) && Keys(After(t, k)) == {} && Lookup(t, k) == Some(e)
  {
    var r := if k in Keys(c.order) then Without(c.order, k) else Evict(c.order, cap);
    WithoutKeeps(c.order, k);
    AfterSplit(r, [Slot(k, e)], k);
    LookupSplit(r, [Slot(k, e)], k);
    KeysSplit(r, [Slot(k, e)]);
    KeysOne(Slot(k, e));
    assert [Slot(k, e)][1..] == [];
  }

  lemma GetEffect<K, V>(c: Lru<K, V>, x: K, now: real, k: K)
    requires Distinct(c.order) && x != k
    ensures
      var t := AfterGet(c, x, now).order;
      && (k in Keys(t) <==> k in Keys(c.order))
      && Lookup(t, k) == Lookup(c.order, k)
      && (k in Keys(c.order) ==> Keys(After(t, k)) == if Hit(c, x, now) then Keys(After(c.order, k)) + {x} else Keys(After(c.order, k)) - {x})
  {
    LookupIn(c.order, x);
    WithoutKeeps(c.order, x);
    AfterWithout(c.order, x, k);
    AfterKeys(c.order, k);
    if Hit(c, x, now) {
      var e := RecordAccess(Lookup(c.order, x).value, now);
      MoveToEndKeeps(c.order, x, e);
      AfterMoved(c.order, x, e, k);
    }
  }

  lemma GetPlaces<K, V>(c: Lru<K, V>, k: K, now: real)
    requires Distinct(c.order)
    ensures
      var t := AfterGet(c, k, now).order;
      && (k in Keys(t) <==> Hit(c, k, now))
      && (Hit(c, k, now) ==> Keys(After(t, k)) == {} && Lookup(t, k) == Some(RecordAccess(Lookup(c.order, k).value, now)))
  {
    LookupIn(c.order, k);
    WithoutKeeps(c.order, k);
    if Hit(c, k, now) {
      var e := RecordAccess(Lookup(c.order, k).value, now);
      MoveToEndKeeps(c.order, k, e);
      AfterMoved(c.order, k, e, k);
    }
  }

  lemma TrackedGet<K, V>(cap: nat, ops: seq<Op<K, V>>, k: K)
    requires cap > 0 && ops != [] && ops[|ops| - 1].Get?
    requires Tracked(cap, ops[..|ops| - 1], k) && Tracked(cap, ops[..|ops| - 1], ops[|ops| - 1].key)
    ensures Tracked(cap, ops, k)
  {
    var earlier := ops[..|ops| - 1];
    var Get(x, now) := ops[|ops| - 1];
    var c := Run(cap, earlier);
    FindsHit(cap, earlier, x, now);
    LastCall(cap, ops, k);
    RunWellFormed(cap, earlier);
    RunWellFormed(cap, ops);
    if k in Keys(Run(cap, ops).order) {
      FewRivals(cap, Run(cap, ops), k);
    }
    if x == k {
      GetPlaces(c, k, now);
      LookupIn(c.order, k);
    } else {
      GetEffect(c, x, now, k);
    }
  }

  lemma TrackedPut<K, V>(cap: nat, ops: seq<Op<K, V>>, k: K)
    requires cap > 0 && ops != [] && ops[|ops| - 1].Put? && Tracked(cap, ops[..|ops| - 1], k)
    ensures Tracked(cap, ops, k)
  {
    var earlier := ops[..|ops| - 1];
    var Put(x, v, ttl, now) := ops[|ops| - 1];
    var (c, e) := (Run(cap, earlier), NewEntry(v, ttl, now));
    LastCall(cap, ops, k);
    RunWellFormed(cap, earlier);
    RunWellFormed(cap, ops);
    if k in Keys(Run(cap, ops).order) {
      FewRivals(cap, Run(cap, ops), k);
    }
    if x == k {
      PutPlaces(cap, c, k, e);
    } else {
      PutEffect(cap, c, x, e, k);
    }
  }

  lemma TrackedInvalidate<K, V>(cap: nat, ops: seq<Op<K, V>>, k: K)
    requires cap > 0 && ops != [] && ops[|ops| - 1].Invalidate? && Tracked(cap, ops[..|ops| - 1], k)
    ensures Tracked(cap, ops, k)
  {
    var earlier := ops[..|ops| - 1];
    var x := ops[|ops| - 1].key;
    var c := Run(cap, earlier);
    LastCall(cap, ops, k);
    RunWellFormed(cap, earlier);
    RunWellFormed(cap, ops);
    WithoutKeeps(c.order, x);
    if k in Keys(Run(cap, ops).order) {
      FewRivals(cap, Run(cap, ops), k);
    }
    if x != k {
      AfterWithout(c.order, x, k);
    }
  }

  lemma {:induction false} TrackedAlways<K, V>(cap: nat, ops: seq<Op<K, V>>, k: K)
    requires cap > 0
    ensures Tracked(cap, ops, k)
  {
    if ops != [] {
      TrackedAlways(cap, ops[..|ops| - 1], k);
      match ops[|ops| - 1]
      case Get(x, _) =>
        TrackedAlways(cap, ops[..|ops| - 1], x);
        TrackedGet(cap, ops, k);
      case Put(_, _, _, _) => TrackedPut(cap, ops, k);
      case Invalidate(_) => TrackedInvalidate(cap, ops, k);
      case Clear =>
    }
  }

  /** Residency and freshness. What the cache holds for a key is told by the calls
      alone: the unbounded dictionary's entry, unless since its last use the key has had
      `max_size` live rivals at once, in which case nothing. */
  lemma Residency<K, V>(cap: nat, ops: seq<Op<K, V>>, k: K, now: real)
    requires cap > 0
    ensures Lookup(Run(cap, ops).order, k) == if Overrun(cap, ops, k) then None else Unbounded(ops, k)
    ensures GetResult(Run(cap, ops), k, now) == if Finds(cap, ops, k, now) then Some(Unbounded(ops, k).value.value) else None
  {
    TrackedAlways(cap, ops, k);
    LookupIn(Run(cap, ops).order, k);
  }

  // ---------------------------------------------------------------- the class

  class LruQueryCache<K(==), V> {
    const maxSize: nat
    var cache: seq<Slot<K, V>>
    var hits: nat
    var misses: nat

    function State(): Lru<K, V> reads this { Lru(cache, hits, misses) }

    ghost predicate Valid() reads this { maxSize > 0 && WellFormed(maxSize, State()) }

    constructor (maxSize: nat)
      requires maxSize > 0
      ensures Valid() && State() == Lru([], 0, 0) && this.maxSize == maxSize
    {
      this.maxSize := maxSize;
      cache, hits, misses := [], 0, 0;
    }

    /** The entry must be there and fresh; one found expired is deleted. */
    method Get(k: K, now: real) returns (r: Option<V>)
      requires Valid()
      modifies this
      ensures Valid()
      ensures State() == AfterGet(old(State()), k, now)
      ensures r == GetResult(old(State()), k, now)
    {
      StepWellFormed(maxSize, State(), Op<K, V>.Get(k, now));
      var found := Lookup(cache, k);
      if found.None? {
        misses := misses + 1;
        return None;
      }
      var entry := found.value;
      if IsExpired(entry, now) {
        cache := Without(cache, k);
        misses := misses + 1;
        return None;
      }
      cache := Without(cache, k) + [Slot(k, RecordAccess(entry, now))];
      hits := hits + 1;
      return Some(entry.value);
    }

    method Put(k: K, v: V, ttl: Option<real>, now: real)
      requires Valid()
      modifies this
      ensures Valid()
      ensures State() == AfterPut(old(State()), maxSize, k, NewEntry(v, ttl, now))
    {
      StepWellFormed(maxSize, State(), Op.Put(k, v, ttl, now));
      if k in Keys(cache) {
        cache := Without(cache, k) + [Slot(k, NewEntry(v, ttl, now))];
        return;
      }
      if |cache| >= maxSize {
        cache := cache[1..];
      }
      cache := cache + [Slot(k, NewEntry(v, ttl, now))];
    }

    method Invalidate(k: K)
      requires Valid()
      modifies this
      ensures Valid()
      ensures State() == old(State()).(order := Without(old(cache), k))
    {
      WithoutKeeps(cache, k);
      if k in Keys(cache) {
        cache := Without(cache, k);
      }
    }

    method Clear()
      requires Valid()
      modifies this
      ensures Valid() && State() == Lru([], 0, 0)
    {
      cache, hits, misses := [], 0, 0;
    }
  }
}
