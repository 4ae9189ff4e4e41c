/** The time-to-live cache and the hybrid of both (`core/db/cache.py`). The hybrid is
    what the coordinator keeps as its first level. */
module HybridCache {
  import opened Wrappers
  import opened LruCache

  datatype Ttl<+K, +V> = Ttl(slots: seq<Slot<K, V>>, hits: nat, misses: nat)

  /** Python's `ttl or default`: no time to live, or zero, means the default. */
  function OrDefault(ttl: Option<real>, default: real): real {
    if ttl.Some? && ttl.value != 0.0 then ttl.value else default
  }

  function Deadline<V>(e: CacheEntry<V>, default: real): real {
    e.createdAt + OrDefault(e.ttl, default)
  }

  /** `min` over the dictionary: the first slot with the earliest deadline. */
  function Earliest<K, V>(s: seq<Slot<K, V>>, default: real): (i: nat)
    requires s != []
    ensures i < |s|
    ensures forall j :: 0 <= j < |s| ==> Deadline(s[i].entry, default) <= Deadline(s[j].entry, default)
    ensures forall j :: 0 <= j < i ==> Deadline(s[i].entry, default) < Deadline(s[j].entry, default)
  {
    if |s| == 1 then 0
    else
      var last := |s| - 1;
      var i := Earliest(s[..last], default);
      assert forall j :: 0 <= j < last ==> s[..last][j] == s[j];
      if Deadline(s[last].entry, default) < Deadline(s[i].entry, default) then last else i
  }

  /** Assigning to a dictionary key: in place when it is there, at the end when not. */
  function Assign<K(==), V>(s: seq<Slot<K, V>>, k: K, e: CacheEntry<V>): seq<Slot<K, V>> {
    if s == [] then [Slot(k, e)]
    else if s[0].key == k then [Slot(k, e)] + s[1..]
    else [s[0]] + Assign(s[1..], k, e)
  }

  /** `TTLQueryCache.put` makes room before it looks whether the key is there, so
      overwriting a key of a full cache deletes one as well. */
  function TtlRoom<K(==), V>(s: seq<Slot<K, V>>, cap: nat, default: real): seq<Slot<K, V>>
    requires cap > 0
  {
    if |s| >= cap then Without(s, s[Earliest(s, default)].key) else s
  }

  lemma {:induction false} AssignKeeps<K, V>(s: seq<Slot<K, V>>, k: K, e: CacheEntry<V>)
    requires Distinct(s)
    ensures Distinct(Assign(s, k, e)) && Keys(Assign(s, k, e)) == Keys(s) + {k}
    ensures forall x :: Lookup(Assign(s, k, e), x) == if x == k then Some(e) else Lookup(s, x)
  {
    if s == [] {
      KeysOne(Slot(k, e));
    } else {
      DropFirst(s);
      KeysOne(s[0]);
      var t := s[1..];
      assert forall i, j :: 0 <= i < j < |t| ==> t[i].key == s[i + 1].key && t[j].key == s[j + 1].key;
      if s[0].key == k {
        DistinctJoin([Slot(k, e)], t);
        KeysOne(Slot(k, e));
        KeysSplit([Slot(k, e)], t);
      } else {
        AssignKeeps(t, k, e);
        DistinctJoin([s[0]], Assign(t, k, e));
        KeysSplit([s[0]], Assign(t, k, e));
      }
    }
  }

  /** A put keeps the time-to-live cache within its size and its keys distinct. It
      loses exactly the earliest deadline when it was full, whether or not the key
      put was already there, and every other entry but the key's stays as it was. */
  lemma TtlPutKeeps<K, V>(s: seq<Slot<K, V>>, cap: nat, default: real, k: K, e: CacheEntry<V>)
    requires cap > 0 && Distinct(s) && |s| <= cap
    ensures
      var t := Assign(TtlRoom(s, cap, default), k, e);
      && Distinct(t) && |t| <= cap
      && Lookup(t, k) == Some(e)
      && forall x :: x != k ==>
           (Lookup(t, x) == if |s| == cap && x == s[Earliest(s, default)].key then None else Lookup(s, x))
  {
    var r := TtlRoom(s, cap, default);
    if |s| >= cap {
      var victim := s[Earliest(s, default)].key;
      WithoutKeeps(s, victim);
      forall x ensures Lookup(r, x) == if x == victim then None else Lookup(s, x) {
        LookupKeep(s, Keys(s) - {victim}, x);
        LookupIn(s, x);
      }
    }
    AssignKeeps(r, k, e);
    DistinctLength(r);
    DistinctLength(Assign(r, k, e));
  }

  function TtlGetResult<K(==), V>(c: Ttl<K, V>, k: K, now: real): Option<V> {
    match Lookup(c.slots, k)
    case None => None
    case Some(e) => if IsExpired(e, now) then None else Some(e.value)
  }

  /** Unlike the LRU cache's, a hit leaves the order alone. */
  function AfterTtlGet<K(==), V>(c: Ttl<K, V>, k: K, now: real): Ttl<K, V> {
    match Lookup(c.slots, k)
    case None => c.(misses := c.misses + 1)
    case Some(e) =>
      if IsExpired(e, now) then Ttl(Without(c.slots, k), c.hits, c.misses + 1)
      else Ttl(Assign(c.slots, k, RecordAccess(e, now)), c.hits + 1, c.misses)
  }

  function AfterTtlPut<K(==), V>(c: Ttl<K, V>, cap: nat, default: real, k: K, v: V, ttl: Option<real>, now: real): Ttl<K, V>
    requires cap > 0
  {
    c.(slots := Assign(TtlRoom(c.slots, cap, default), k, NewEntry(v, Some(OrDefault(ttl, default)), now)))
  }

  /** Put and get, written out: what was put is answered until its time to live is over, none
      or zero meaning the default; the entry a full cache loses is one whose creation time
      plus time to live is least. */
  lemma TtlPutThenGet<K, V>(c: Ttl<K, V>, cap: nat, default: real, k: K, v: V, ttl: Option<real>, now: real, later: real)
    requires cap > 0 && Distinct(c.slots)
    ensures
      var t := AfterTtlPut(c, cap, default, k, v, ttl, now);
      var life := if ttl.None? || ttl.value == 0.0 then default else ttl.value;
      TtlGetResult(t, k, later) == if later - now > life then None else Some(v)
    ensures |c.slots| >= cap ==>
              exists i :: 0 <= i < |c.slots| && TtlRoom(c.slots, cap, default) == Without(c.slots, c.slots[i].key)
                          && forall j :: 0 <= j < |c.slots| ==> DueAt(c.slots[i].entry, default) <= DueAt(c.slots[j].entry, default)
  {
    var r := TtlRoom(c.slots, cap, default);
    KeepDistinct(c.slots, Keys(c.slots) - {if |c.slots| > 0 then c.slots[Earliest(c.slots, default)].key else k});
    AssignKeeps(r, k, NewEntry(v, Some(OrDefault(ttl, default)), now));
    if |c.slots| >= cap {
      var i := Earliest(c.slots, default);
      assert TtlRoom(c.slots, cap, default) == Without(c.slots, c.slots[i].key);
    }
  }

  /** When an entry is due, written out. */
  function DueAt<V>(e: CacheEntry<V>, default: real): real {
    e.createdAt + match e.ttl { case None => default case Some(t) => if t == 0.0 then default else t }
  }

  /** A get changes at most the key it asks for: a hit counts an access and leaves the order
      alone, an expired entry goes. */
  lemma TtlGetKeeps<K, V>(c: Ttl<K, V>, k: K, now: real, x: K)
    requires Distinct(c.slots)
    ensures
      var (t, e) := (AfterTtlGet(c, k, now), Lookup(c.slots, x));
      && (x != k ==> Lookup(t.slots, x) == e)
      && (x == k && e.Some? ==>
            Lookup(t.slots, x) == if IsExpired(e.value, now) then None else Some(e.value.(accessedAt := now, accessCount := e.value.accessCount + 1)))
      && (TtlGetResult(c, k, now).Some? ==> |t.slots| == |c.slots| && forall i :: 0 <= i < |t.slots| ==> t.slots[i].key == c.slots[i].key)
      && t.hits + t.misses == c.hits + c.misses + 1 && (t.hits > c.hits <==> TtlGetResult(c, k, now).Some?)
  {
    LookupKeep(c.slots, Keys(c.slots) - {k}, x);
    LookupIn(c.slots, x);
    if Lookup(c.slots, k).Some? {
      var e := RecordAccess(Lookup(c.slots, k).value, now);
      AssignKeeps(c.slots, k, e);
      AssignInPlace(c.slots, k, e);
    }
  }

  lemma {:induction false} AssignInPlace<K, V>(s: seq<Slot<K, V>>, k: K, e: CacheEntry<V>)
    requires Lookup(s, k).Some?
    ensures |Assign(s, k, e)| == |s| && forall i :: 0 <= i < |s| ==> Assign(s, k, e)[i].key == s[i].key
  {
    if s[0].key != k {
      AssignInPlace(s[1..], k, e);
    }
  }

  class TtlQueryCache<K(==), V> {
    const maxSize: nat
    const defaultTtl: real
    var cache: seq<Slot<K, V>>
    var hits: nat
    var misses: nat

    function State(): Ttl<K, V> reads this { Ttl(cache, hits, misses) }

    ghost predicate Valid() reads this { maxSize > 0 && Distinct(cache) && |cache| <= maxSize }

    constructor (maxSize: nat, defaultTtl: real)
      requires maxSize > 0
      ensures Valid() && State() == Ttl([], 0, 0) && this.maxSize == maxSize && this.defaultTtl == defaultTtl
    {
      this.maxSize, this.defaultTtl := maxSize, defaultTtl;
      cache, hits, misses := [], 0, 0;
    }

    method Get(k: K, now: real) returns (r: Option<V>)
      requires Valid()
      modifies this
      ensures Valid()
      ensures r == TtlGetResult(old(State()), k, now) && State() == AfterTtlGet(old(State()), k, now)
    {
      WithoutKeeps(cache, k);
      LookupIn(cache, k);
      var found := Lookup(cache, k);
      if found.None? {
        misses := misses + 1;
        return None;
      }
      var entry := found.value;
      if IsExpired(entry, now) {
        cache := Without(cache, k);
        misses := misses + 1;
        return None;
      }
      AssignKeeps(cache, k, RecordAccess(entry, now));
      DistinctLength(cache);
      DistinctLength(Assign(cache, k, RecordAccess(entry, now)));
      assert Keys(cache) + {k} == Keys(cache);
      cache := Assign(cache, k, RecordAccess(entry, now));
      hits := hits + 1;
      return Some(entry.value);
    }

    method Put(k: K, v: V, ttl: Option<real>, now: real)
      requires Valid()
      modifies this
      ensures Valid()
      ensures State() == AfterTtlPut(old(State()), maxSize, defaultTtl, k, v, ttl, now)
    {
      var entry := NewEntry(v, Some(OrDefault(ttl, defaultTtl)), now);
      TtlPutKeeps(cache, maxSize, defaultTtl, k, entry);
      if |cache| >= maxSize {
        var i := FindEarliest();
        cache := Without(cache, cache[i].key);
      }
      cache := Assign(cache, k, entry);
    }

    method FindEarliest() returns (i: nat)
      requires cache != []
      ensures i < |cache| && i == Earliest(cache, defaultTtl)
    {
      i := 0;
      for n := 1 to |cache|
        invariant i < n
        invariant i == Earliest(cache[..n], defaultTtl)
      {
        assert cache[..n + 1][..n] == cache[..n];
        if Deadline(cache[n].entry, defaultTtl) < Deadline(cache[i].entry, defaultTtl) {
          i := n;
        }
      }
      assert cache[..|cache|] == cache;
    }

    method Invalidate(k: K)
      requires Valid()
      modifies this
      ensures Valid() && State() == old(State()).(slots := Without(old(cache), k))
    {
      WithoutKeeps(cache, k);
      if k in Keys(cache) {
        cache := Without(cache, k);
      }
    }

    method Clear()
      requires Valid()
      modifies this
      ensures Valid() && State() == Ttl([], 0, 0)
    {
      cache, hits, misses := [], 0, 0;
    }
  }

  /** Both caches side by side. Every answer is the LRU cache's: the time-to-live
      cache is written to but its content never reaches a caller. */
  class HybridQueryCache<K(==), V> {
    const lru: LruQueryCache<K, V>
    const ttl: TtlQueryCache<K, V>

    function State(): Lru<K, V> reads lru { lru.State() }

    ghost predicate Valid() reads lru, ttl { lru.Valid() && ttl.Valid() }

    constructor (maxSize: nat, defaultTtl: real)
      requires maxSize > 0
      ensures Valid() && State() == Lru([], 0, 0) && lru.maxSize == maxSize
      ensures fresh(lru) && fresh(ttl)
    {
      lru := new LruQueryCache(maxSize);
      ttl := new TtlQueryCache(maxSize, defaultTtl);
    }

    method Get(k: K, now: real) returns (r: Option<V>)
      requires Valid()
      modifies lru, ttl
      ensures Valid()
      ensures State() == AfterGet(old(State()), k, now)
      ensures ttl.State() == if r.Some? then AfterTtlGet(old(ttl.State()), k, now) else old(ttl.State())
      ensures r == GetResult(old(State()), k, now)
    {
      r := lru.Get(k, now);
      if r.Some? {
        var _ := ttl.Get(k, now);
      }
    }

    method Put(k: K, v: V, timeToLive: Option<real>, now: real)
      requires Valid()
      modifies lru, ttl
      ensures Valid()
      ensures State() == AfterPut(old(State()), lru.maxSize, k, NewEntry(v, timeToLive, now))
      ensures ttl.State() == AfterTtlPut(old(ttl.State()), ttl.maxSize, ttl.defaultTtl, k, v, timeToLive, now)
    {
      lru.Put(k, v, timeToLive, now);
      ttl.Put(k, v, timeToLive, now);
    }

    method Invalidate(k: K)
      requires Valid()
      modifies lru, ttl
      ensures Valid()
      ensures State() == old(State()).(order := Without(old(lru.cache), k))
      ensures ttl.State() == old(ttl.State()).(slots := Without(old(ttl.cache), k))
    {
      lru.Invalidate(k);
      ttl.Invalidate(k);
    }

    method Clear()
      requires Valid()
      modifies lru, ttl
      ensures Valid() && State() == Lru([], 0, 0) && ttl.State() == Ttl([], 0, 0)
    {
      lru.Clear();
      ttl.Clear();
    }
  }
}
