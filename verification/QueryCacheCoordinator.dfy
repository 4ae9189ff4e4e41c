/** The cache coordinator (`core/caching/query_cache_coordinator.py`): first level,
    second level and the table tags, with one read, one invalidation or one clear
    as a step. */
module CacheCoordinator {
  import opened Wrappers
  import opened LruCache
  import opened HybridCache
  import opened ResultCache

  type Table = string

  datatype Stack = Stack(l1: Lru<Key, Rows>, keyTables: map<Key, set<Table>>, tableKeys: map<Table, set<Key>>, l2: Table2)

  datatype Source = FromL1 | FromL2 | Fresh

  datatype Lookup2 = Lookup2(data: Rows, source: Source)

  /** What surrounds one read: the clock, the outcome of running the query (none if
      it raises), and whether the persistence queue takes and completes the jobs. */
  datatype Circumstances = Circumstances(now: real, executed: Option<Rows>, persisted: bool, accessRecorded: bool, userId: string)

  datatype Limits = Limits(l1Size: nat, l1Ttl: real)

  function Seconds(now: real): int { now.Floor }

  // ---------------------------------------------------------------- tagging

  function KeysOf(tableKeys: map<Table, set<Key>>, t: Table): set<Key> {
    if t in tableKeys then tableKeys[t] else {}
  }

  function Tag(s: Stack, k: Key, tables: set<Table>): Stack {
    if tables == {} then s
    else s.(keyTables := s.keyTables[k := tables],
            tableKeys := map t | t in s.tableKeys.Keys + tables :: KeysOf(s.tableKeys, t) + if t in tables then {k} else {})
  }

  // ---------------------------------------------------------------- one read

  function PutL1(s: Stack, lim: Limits, k: Key, data: Rows, now: real): Stack
    requires lim.l1Size > 0
  {
    s.(l1 := AfterPut(s.l1, lim.l1Size, k, NewEntry(data, Some(lim.l1Ttl), now)))
  }

  /** Whether the first or second level answers. */
  function Cached(s: Stack, k: Key, now: real): Option<Lookup2> {
    match GetResult(s.l1, k, now)
    case Some(data) => Some(Lookup2(data, FromL1))
    case None =>
      match Fetch(s.l2, k, Seconds(now))
      case Some(data) => Some(Lookup2(data, FromL2))
      case None => None
  }

  function ReadResult(s: Stack, k: Key, c: Circumstances): Option<Lookup2> {
    match Cached(s, k, c.now)
    case Some(hit) => Some(hit)
    case None => if c.executed.Some? then Some(Lookup2(c.executed.value, Fresh)) else None
  }

  function AfterRead(s: Stack, lim: Limits, k: Key, tables: set<Table>, c: Circumstances): Stack
    requires lim.l1Size > 0
  {
    var looked := s.(l1 := AfterGet(s.l1, k, c.now));
    match ReadResult(s, k, c)
    case None => looked
    case Some(Lookup2(data, FromL1)) => looked
    case Some(Lookup2(data, FromL2)) =>
      var tagged := Tag(PutL1(looked, lim, k, data, c.now), k, tables);
      if c.accessRecorded then tagged.(l2 := Touch(s.l2, k, Seconds(c.now))) else tagged
    case Some(Lookup2(data, Fresh)) =>
      var tagged := Tag(PutL1(looked, lim, k, data, c.now), k, tables);
      if c.persisted && data != [] then tagged.(l2 := Store(s.l2, k, data, c.userId, DEFAULT_TTL_SECONDS, Seconds(c.now))) else tagged
  }

  // ---------------------------------------------------------------- invalidation

  function KeysTagged(tableKeys: map<Table, set<Key>>, tables: set<Table>): set<Key> {
    set t, k | t in tables && t in tableKeys && k in tableKeys[t] :: k
  }

  /** The second-level rows no pattern of `tables` matches. */
  function Unmatched(rows: Table2, like: Like, tables: set<Table>): Table2 {
    map k | k in rows && !exists t :: t in tables && t != "" && like(t, rows[k].querySql) :: rows[k]
  }

  function Narrowed(s: Stack, tables: set<Table>): bool {
    tables != {} && KeysTagged(s.tableKeys, tables) != {}
  }

  function AfterInvalidate(s: Stack, like: Like, tables: set<Table>): Stack {
    var dropped := KeysTagged(s.tableKeys, tables);
    var untagged := s.(tableKeys := s.tableKeys - tables, keyTables := s.keyTables - dropped);
    if !Narrowed(s, tables) then untagged
    else untagged.(l1 := s.l1.(order := Keep(s.l1.order, Keys(s.l1.order) - dropped)),
                   l2 := Unmatched(s.l2, like, tables))
  }

  function Empty(): Stack { Stack(Lru([], 0, 0), map[], map[], map[]) }

  // ---------------------------------------------------------------- what a read leaves behind

  /** A read that went past the first level is answered from it for as long as the time
      to live lasts, with the same rows. */
  lemma ReadFillsL1(s: Stack, lim: Limits, k: Key, tables: set<Table>, c: Circumstances, next: Circumstances)
    requires lim.l1Size > 0 && WellFormed(lim.l1Size, s.l1) && next.now - c.now <= lim.l1Ttl
    requires var r := ReadResult(s, k, c); r.Some? && r.value.source != FromL1
    ensures ReadResult(AfterRead(s, lim, k, tables, c), k, next) == Some(Lookup2(ReadResult(s, k, c).value.data, FromL1))
  {
    StepWellFormed(lim.l1Size, s.l1, Get(k, c.now));
    PutPlaces(lim.l1Size, AfterGet(s.l1, k, c.now), k, NewEntry(ReadResult(s, k, c).value.data, Some(lim.l1Ttl), c.now));
  }

  /** And no longer than that: after the time to live the first level does not answer, but
      the second level does or the query is executed. */
  lemma ReadExpiresL1(s: Stack, lim: Limits, k: Key, tables: set<Table>, c: Circumstances, now: real)
    requires lim.l1Size > 0 && WellFormed(lim.l1Size, s.l1) && now - c.now > lim.l1Ttl
    requires var r := ReadResult(s, k, c); r.Some? && r.value.source != FromL1
    ensures GetResult(AfterRead(s, lim, k, tables, c).l1, k, now) == None
  {
    StepWellFormed(lim.l1Size, s.l1, Get(k, c.now));
    PutPlaces(lim.l1Size, AfterGet(s.l1, k, c.now), k, NewEntry(ReadResult(s, k, c).value.data, Some(lim.l1Ttl), c.now));
  }

  /** A hit in the second level counts as one access there if its job is recorded, and the
      rows are otherwise as they were. */
  lemma ReadCountsAccess(s: Stack, lim: Limits, k: Key, tables: set<Table>, c: Circumstances)
    requires lim.l1Size > 0 && GetResult(s.l1, k, c.now).None? && Fetch(s.l2, k, Seconds(c.now)).Some?
    ensures var t := AfterRead(s, lim, k, tables, c).l2;
            && t.Keys == s.l2.Keys && (forall j :: j in t && j != k ==> t[j] == s.l2[j])
            && (c.accessRecorded ==> t[k] == s.l2[k].(accessCount := s.l2[k].accessCount + 1, lastAccessedAt := Some(Seconds(c.now))))
            && (!c.accessRecorded ==> t == s.l2)
  {
  }

  /** A read that executed and was persisted is answered from the second level for an
      hour, also once the first level has lost it; nothing is persisted of no rows. */
  lemma ReadFillsL2(s: Stack, lim: Limits, k: Key, tables: set<Table>, c: Circumstances, next: Circumstances)
    requires lim.l1Size > 0 && ReadResult(s, k, c).Some? && ReadResult(s, k, c).value.source == Fresh
    ensures var t := AfterRead(s, lim, k, tables, c);
            var data := ReadResult(s, k, c).value.data;
            if !c.persisted || data == [] then t.l2 == s.l2
            else
              && k in t.l2 && t.l2[k].userId == c.userId && t.l2[k].querySql == k.sql
              && (Seconds(next.now) < Seconds(c.now) + DEFAULT_TTL_SECONDS ==>
                    ReadResult(t.(l1 := t.l1.(order := Without(t.l1.order, k))), k, next) == Some(Lookup2(data, FromL2)))
  {
    var t := AfterRead(s, lim, k, tables, c);
    LookupKeep(t.l1.order, Keys(t.l1.order) - {k}, k);
  }

  // ---------------------------------------------------------------- the tags as an index

  /** The tags against the tables each statement reads: every first-level key is
      listed under each of its tables, and nothing is listed under a table it does
      not read. Keys that left the first level may stay listed. */
  ghost predicate Indexed(s: Stack, tablesOf: string -> set<Table>) {
    && (forall k, t :: k in Keys(s.l1.order) && t in tablesOf(k.sql) ==> k in KeysOf(s.tableKeys, t))
    && (forall k, t :: k in KeysOf(s.tableKeys, t) ==> t in tablesOf(k.sql))
  }

  lemma KeysOfSlots(s: seq<Slot<Key, Rows>>)
    ensures forall k :: k in Keys(s) <==> exists x :: x in s && x.key == k
  {
    forall k | k in Keys(s) ensures exists x :: x in s && x.key == k {
      var i :| 0 <= i < |s| && s[i].key == k;
      assert s[i] in s;
    }
  }

  /** No step of the first level brings in a key but the one put. */
  lemma StepKeys(cap: nat, c: Lru<Key, Rows>, op: Op<Key, Rows>)
    requires cap > 0
    ensures Keys(Step(cap, c, op).order) <= Keys(c.order) + if op.Put? then {op.key} else {}
  {
    KeysOfSlots(Step(cap, c, op).order);
    KeysOfSlots(c.order);
    forall x | x in Step(cap, c, op).order ensures x.key in Keys(c.order) || (op.Put? && x.key == op.key) {
      StepOrigin(cap, c, op, x);
    }
  }

  /** Putting a key and tagging it keeps the index. */
  lemma TagKeeps(put: Stack, s: Stack, tablesOf: string -> set<Table>, k: Key)
    requires Indexed(s, tablesOf) && put.tableKeys == s.tableKeys
    requires Keys(put.l1.order) <= Keys(s.l1.order) + {k}
    ensures Indexed(Tag(put, k, tablesOf(k.sql)), tablesOf)
  {
    var s' := Tag(put, k, tablesOf(k.sql));
    forall t ensures KeysOf(s'.tableKeys, t) == KeysOf(s.tableKeys, t) + if t in tablesOf(k.sql) then {k} else {} {
    }
    forall x, t | x in Keys(s'.l1.order) && t in tablesOf(x.sql) ensures x in KeysOf(s'.tableKeys, t) {
      assert x == k || x in KeysOf(s.tableKeys, t);
    }
  }

  /** Reading keeps the index: the first level only gains the key it tags. */
  lemma ReadIndexed(s: Stack, lim: Limits, tablesOf: string -> set<Table>, k: Key, c: Circumstances)
    requires lim.l1Size > 0 && Indexed(s, tablesOf)
    ensures Indexed(AfterRead(s, lim, k, tablesOf(k.sql), c), tablesOf)
  {
    var tables := tablesOf(k.sql);
    var s' := AfterRead(s, lim, k, tables, c);
    var looked := s.(l1 := AfterGet(s.l1, k, c.now));
    StepKeys(lim.l1Size, s.l1, Get(k, c.now));
    assert Indexed(looked, tablesOf);
    var r := ReadResult(s, k, c);
    if r.Some? && r.value.source != FromL1 {
      StepKeys(lim.l1Size, looked.l1, Put(k, r.value.data, Some(lim.l1Ttl), c.now));
      var put := PutL1(looked, lim, k, r.value.data, c.now);
      TagKeeps(put, looked, tablesOf, k);
      assert s'.(l2 := put.l2) == Tag(put, k, tables);
    }
  }

  lemma InvalidateIndexed(s: Stack, tablesOf: string -> set<Table>, like: Like, tables: set<Table>)
    requires Indexed(s, tablesOf)
    ensures Indexed(AfterInvalidate(s, like, tables), tablesOf)
  {
    var s' := AfterInvalidate(s, like, tables);
    var dropped := KeysTagged(s.tableKeys, tables);
    KeepIn(s.l1.order, Keys(s.l1.order) - dropped);
    forall k, t | k in Keys(s'.l1.order) && t in tablesOf(k.sql) ensures k in KeysOf(s'.tableKeys, t) {
      assert k in KeysOf(s.tableKeys, t);
      assert t in tables ==> k in dropped;
      assert k in KeysOf(s.tableKeys - tables, t);
    }
    assert s'.tableKeys == s.tableKeys - tables;
    forall k, t | k in KeysOf(s'.tableKeys, t) ensures t in tablesOf(k.sql) {
      assert k in KeysOf(s.tableKeys, t);
    }
  }

  lemma NarrowedExactly(s: Stack, tablesOf: string -> set<Table>, like: Like, tables: set<Table>, k: Key)
    requires Indexed(s, tablesOf)
    ensures Narrowed(s, tables) ==>
              (k in Keys(AfterInvalidate(s, like, tables).l1.order) <==> k in Keys(s.l1.order) && tablesOf(k.sql) !! tables)
    ensures Narrowed(s, tables) && tablesOf(k.sql) !! tables ==>
              LruCache.Lookup(AfterInvalidate(s, like, tables).l1.order, k) == LruCache.Lookup(s.l1.order, k)
    ensures !Narrowed(s, tables) ==> k in Keys(s.l1.order) ==> tablesOf(k.sql) !! tables
  {
    var dropped := KeysTagged(s.tableKeys, tables);
    KeepIn(s.l1.order, Keys(s.l1.order) - dropped);
    if k in dropped {
      var t :| t in tables && t in s.tableKeys && k in s.tableKeys[t];
      assert k in KeysOf(s.tableKeys, t);
    }
    if k in Keys(s.l1.order) && !(tablesOf(k.sql) !! tables) {
      var t :| t in tablesOf(k.sql) && t in tables;
      assert k in KeysOf(s.tableKeys, t);
      assert k in dropped;
    }
    LookupKeep(s.l1.order, Keys(s.l1.order) - dropped, k);
    LookupIn(s.l1.order, k);
  }

  // ---------------------------------------------------------------- whole runs

  datatype Call =
    | Read(key: Key, circumstances: Circumstances)
    | Drop(key: Key)
    | DropTables(tables: set<Table>)
    | DropAll

  function AfterCall(s: Stack, lim: Limits, tablesOf: string -> set<Table>, like: Like, call: Call): Stack
    requires lim.l1Size > 0
  {
    match call
    case Read(k, c) => AfterRead(s, lim, k, tablesOf(k.sql), c)
    case Drop(k) => s.(l1 := s.l1.(order := Without(s.l1.order, k)))
    case DropTables(tables) => AfterInvalidate(s, like, tables)
    case DropAll => Empty()
  }

  /** The state after any calls on a fresh coordinator over the rows a
      previous process left in the table. */
  function AfterCalls(lim: Limits, tablesOf: string -> set<Table>, like: Like, rows: Table2, calls: seq<Call>): Stack
    requires lim.l1Size > 0
  {
    if calls == [] then Empty().(l2 := rows)
    else AfterCall(AfterCalls(lim, tablesOf, like, rows, calls[..|calls| - 1]), lim, tablesOf, like, calls[|calls| - 1])
  }

  lemma EmptyIndexed(tablesOf: string -> set<Table>, rows: Table2)
    ensures Indexed(Empty().(l2 := rows), tablesOf)
  {
    assert Keys<Key, Rows>([]) == {};
  }

  /** The index is right after any calls, whatever the engine and the extractor do. */
  lemma {:induction false} IndexedAlways(lim: Limits, tablesOf: string -> set<Table>, like: Like, rows: Table2, calls: seq<Call>)
    requires lim.l1Size > 0
    ensures Indexed(AfterCalls(lim, tablesOf, like, rows, calls), tablesOf)
  {
    if calls == [] {
      EmptyIndexed(tablesOf, rows);
    } else {
      var (s, call) := (AfterCalls(lim, tablesOf, like, rows, calls[..|calls| - 1]), calls[|calls| - 1]);
      IndexedAlways(lim, tablesOf, like, rows, calls[..|calls| - 1]);
      match call
      case Read(k, c) => ReadIndexed(s, lim, tablesOf, k, c);
      case Drop(k) => KeepIn(s.l1.order, Keys(s.l1.order) - {k});
      case DropTables(tables) => InvalidateIndexed(s, tablesOf, like, tables);
      case DropAll => EmptyIndexed(tablesOf, map[]);
    }
  }

  /** Exactness. After any calls, an invalidation that says it was narrowed leaves a key
      in the first level if and only if the key was there and reads none of the tables,
      although other tables' lists may still name keys dropped long ago, and leaves its
      entry as it was; one that says it was not had nothing there to drop. */
  lemma ExactInvalidation(lim: Limits, tablesOf: string -> set<Table>, like: Like, rows: Table2, calls: seq<Call>, tables: set<Table>, k: Key)
    requires lim.l1Size > 0
    ensures var s := AfterCalls(lim, tablesOf, like, rows, calls);
            var t := AfterInvalidate(s, like, tables);
            if Narrowed(s, tables)
            then LruCache.Lookup(t.l1.order, k) == if tablesOf(k.sql) !! tables then LruCache.Lookup(s.l1.order, k) else None
            else t.l1 == s.l1 && (LruCache.Lookup(s.l1.order, k).Some? ==> tablesOf(k.sql) !! tables)
  {
    var s := AfterCalls(lim, tablesOf, like, rows, calls);
    IndexedAlways(lim, tablesOf, like, rows, calls);
    NarrowedExactly(s, tablesOf, like, tables, k);
    LookupIn(s.l1.order, k);
    LookupIn(AfterInvalidate(s, like, tables).l1.order, k);
  }

  /** The second level after a narrowed invalidation holds exactly the rows no table's
      pattern matches, as they were; and narrowed means that some key is listed under one of
      the tables. */
  lemma ExactRows(s: Stack, like: Like, tables: set<Table>, k: Key)
    ensures Narrowed(s, tables) <==> exists t, j :: t in tables && t in s.tableKeys && j in s.tableKeys[t]
    ensures var l2 := AfterInvalidate(s, like, tables).l2;
            if Narrowed(s, tables)
            then (k in l2 <==> k in s.l2 && forall t :: t in tables && t != "" ==> !like(t, s.l2[k].querySql)) && (k in l2 ==> l2[k] == s.l2[k])
            else l2 == s.l2
  {
    if t, j :| t in tables && t in s.tableKeys && j in s.tableKeys[t] {
      assert j in KeysTagged(s.tableKeys, tables);
    }
    if j :| j in KeysTagged(s.tableKeys, tables) {
      var t :| t in tables && t in s.tableKeys && j in s.tableKeys[t];
    }
  }

  // ---------------------------------------------------------------- the tags by key

  /** The tags by key hold a key, with the tables of its statement, if and only if it has
      tables and is listed under every one of them. */
  ghost predicate KeyTagged(s: Stack, tablesOf: string -> set<Table>, k: Key) {
    && (k in s.keyTables <==> tablesOf(k.sql) != {} && forall t :: t in tablesOf(k.sql) ==> k in KeysOf(s.tableKeys, t))
    && (k in s.keyTables ==> s.keyTables[k] == tablesOf(k.sql))
  }

  lemma TagKeyTagged(s: Stack, t: Stack, tablesOf: string -> set<Table>, j: Key, k: Key)
    requires KeyTagged(s, tablesOf, k) && t.keyTables == s.keyTables && t.tableKeys == s.tableKeys
    ensures KeyTagged(Tag(t, j, tablesOf(j.sql)), tablesOf, k)
  {
    var u := Tag(t, j, tablesOf(j.sql));
    if tablesOf(j.sql) != {} {
      forall a ensures KeysOf(u.tableKeys, a) == KeysOf(s.tableKeys, a) + if a in tablesOf(j.sql) then {j} else {} {
      }
    }
  }

  lemma InvalidateKeyTagged(s: Stack, tablesOf: string -> set<Table>, like: Like, tables: set<Table>, k: Key)
    requires KeyTagged(s, tablesOf, k) && Indexed(s, tablesOf)
    ensures KeyTagged(AfterInvalidate(s, like, tables), tablesOf, k)
  {
    var (u, dropped) := (AfterInvalidate(s, like, tables), KeysTagged(s.tableKeys, tables));
    forall a ensures KeysOf(u.tableKeys, a) == if a in tables then {} else KeysOf(s.tableKeys, a) {
    }
    if k in dropped {
      var a :| a in tables && a in s.tableKeys && k in s.tableKeys[a];
      assert k in KeysOf(s.tableKeys, a) && a in tablesOf(k.sql) && k !in KeysOf(u.tableKeys, a);
    } else if a :| a in tablesOf(k.sql) && a in tables {
      assert k !in KeysOf(s.tableKeys, a);
    }
  }

  /** Both indexes agree after any calls. */
  lemma {:induction false} KeyTagsAlways(lim: Limits, tablesOf: string -> set<Table>, like: Like, rows: Table2, calls: seq<Call>, k: Key)
    requires lim.l1Size > 0
    ensures KeyTagged(AfterCalls(lim, tablesOf, like, rows, calls), tablesOf, k)
  {
    if calls == [] {
      assert tablesOf(k.sql) != {} ==> exists t :: t in tablesOf(k.sql) && k !in KeysOf(map[], t);
    } else {
      var (s, call) := (AfterCalls(lim, tablesOf, like, rows, calls[..|calls| - 1]), calls[|calls| - 1]);
      KeyTagsAlways(lim, tablesOf, like, rows, calls[..|calls| - 1], k);
      match call
      case Read(j, c) => ReadKeyTagged(s, lim, tablesOf, j, c, k);
      case Drop(j) =>
      case DropTables(tables) =>
        IndexedAlways(lim, tablesOf, like, rows, calls[..|calls| - 1]);
        InvalidateKeyTagged(s, tablesOf, like, tables, k);
      case DropAll =>
        assert tablesOf(k.sql) != {} ==> exists t :: t in tablesOf(k.sql) && k !in KeysOf(map[], t);
    }
  }

  lemma ReadKeyTagged(s: Stack, lim: Limits, tablesOf: string -> set<Table>, j: Key, c: Circumstances, k: Key)
    requires lim.l1Size > 0 && KeyTagged(s, tablesOf, k)
    ensures KeyTagged(AfterRead(s, lim, j, tablesOf(j.sql), c), tablesOf, k)
  {
    var (looked, r) := (s.(l1 := AfterGet(s.l1, j, c.now)), ReadResult(s, j, c));
    if r.Some? && r.value.source != FromL1 {
      TagKeyTagged(s, PutL1(looked, lim, j, r.value.data, c.now), tablesOf, j, k);
    }
  }

  // ---------------------------------------------------------------- where first-level answers come from

  /** Call `i` was a read of `k` at `at` that the first level did not answer, and it gave
      `data`. */
  ghost predicate ReadGave(lim: Limits, tablesOf: string -> set<Table>, like: Like, rows: Table2, calls: seq<Call>, k: Key, data: Rows, at: real, i: nat)
    requires lim.l1Size > 0
  {
    && i < |calls| && calls[i].Read? && calls[i].key == k && calls[i].circumstances.now == at
    && var (s, c) := (AfterCalls(lim, tablesOf, like, rows, calls[..i]), calls[i].circumstances);
       GetResult(s.l1, k, at) == None && ReadResult(s, k, c).Some? && ReadResult(s, k, c).value.data == data
  }

  ghost predicate Gave(lim: Limits, tablesOf: string -> set<Table>, like: Like, rows: Table2, calls: seq<Call>, k: Key, data: Rows, at: real)
    requires lim.l1Size > 0
  {
    exists i: nat :: ReadGave(lim, tablesOf, like, rows, calls, k, data, at, i)
  }

  ghost predicate FromReads(lim: Limits, tablesOf: string -> set<Table>, like: Like, rows: Table2, calls: seq<Call>, order: seq<Slot<Key, Rows>>)
    requires lim.l1Size > 0
  {
    forall x :: x in order ==>
      x.entry.ttl == Some(lim.l1Ttl) && Gave(lim, tablesOf, like, rows, calls, x.key, x.entry.value, x.entry.createdAt)
  }

  lemma FromReadsLater(lim: Limits, tablesOf: string -> set<Table>, like: Like, rows: Table2, calls: seq<Call>, call: Call, order: seq<Slot<Key, Rows>>)
    requires lim.l1Size > 0 && FromReads(lim, tablesOf, like, rows, calls, order)
    ensures FromReads(lim, tablesOf, like, rows, calls + [call], order)
  {
    forall x | x in order ensures Gave(lim, tablesOf, like, rows, calls + [call], x.key, x.entry.value, x.entry.createdAt) {
      var i: nat :| ReadGave(lim, tablesOf, like, rows, calls, x.key, x.entry.value, x.entry.createdAt, i);
      assert (calls + [call])[..i] == calls[..i];
      assert ReadGave(lim, tablesOf, like, rows, calls + [call], x.key, x.entry.value, x.entry.createdAt, i);
    }
  }

  lemma FromReadsStep(lim: Limits, tablesOf: string -> set<Table>, like: Like, rows: Table2, calls: seq<Call>, c: Lru<Key, Rows>, op: Op<Key, Rows>)
    requires lim.l1Size > 0 && FromReads(lim, tablesOf, like, rows, calls, c.order)
    requires op.Put? ==> op.ttl == Some(lim.l1Ttl) && Gave(lim, tablesOf, like, rows, calls, op.key, op.value, op.now)
    ensures FromReads(lim, tablesOf, like, rows, calls, Step(lim.l1Size, c, op).order)
  {
    forall x | x in Step(lim.l1Size, c, op).order
      ensures x.entry.ttl == Some(lim.l1Ttl) && Gave(lim, tablesOf, like, rows, calls, x.key, x.entry.value, x.entry.createdAt)
    {
      StepOrigin(lim.l1Size, c, op, x);
    }
  }

  lemma FromReadsRead(lim: Limits, tablesOf: string -> set<Table>, like: Like, rows: Table2, calls: seq<Call>, k: Key, c: Circumstances)
    requires lim.l1Size > 0 && FromReads(lim, tablesOf, like, rows, calls, AfterCalls(lim, tablesOf, like, rows, calls).l1.order)
    ensures var s := AfterCalls(lim, tablesOf, like, rows, calls);
            FromReads(lim, tablesOf, like, rows, calls + [Read(k, c)], AfterRead(s, lim, k, tablesOf(k.sql), c).l1.order)
  {
    var (s, all) := (AfterCalls(lim, tablesOf, like, rows, calls), calls + [Read(k, c)]);
    var r := ReadResult(s, k, c);
    FromReadsLater(lim, tablesOf, like, rows, calls, Read(k, c), s.l1.order);
    FromReadsStep(lim, tablesOf, like, rows, all, s.l1, Get(k, c.now));
    ReadSteps(s, lim, k, tablesOf(k.sql), c);
    if r.Some? && r.value.source != FromL1 {
      ReadGives(lim, tablesOf, like, rows, calls, k, c);
      FromReadsStep(lim, tablesOf, like, rows, all, AfterGet(s.l1, k, c.now), Put(k, r.value.data, Some(lim.l1Ttl), c.now));
    }
  }

  /** A read as steps of the first level. */
  lemma ReadSteps(s: Stack, lim: Limits, k: Key, tables: set<Table>, c: Circumstances)
    requires lim.l1Size > 0
    ensures var (r, looked) := (ReadResult(s, k, c), Step(lim.l1Size, s.l1, Get(k, c.now)));
            AfterRead(s, lim, k, tables, c).l1 ==
              if r.Some? && r.value.source != FromL1 then Step(lim.l1Size, looked, Put(k, r.value.data, Some(lim.l1Ttl), c.now)) else looked
  {
  }

  lemma ReadGives(lim: Limits, tablesOf: string -> set<Table>, like: Like, rows: Table2, calls: seq<Call>, k: Key, c: Circumstances)
    requires lim.l1Size > 0
    requires var r := ReadResult(AfterCalls(lim, tablesOf, like, rows, calls), k, c); r.Some? && r.value.source != FromL1
    ensures var r := ReadResult(AfterCalls(lim, tablesOf, like, rows, calls), k, c);
            Gave(lim, tablesOf, like, rows, calls + [Read(k, c)], k, r.value.data, c.now)
  {
    var (all, r) := (calls + [Read(k, c)], ReadResult(AfterCalls(lim, tablesOf, like, rows, calls), k, c));
    assert all[..|calls|] == calls;
    assert ReadGave(lim, tablesOf, like, rows, all, k, r.value.data, c.now, |calls|);
  }

  lemma {:induction false} FromReadsAlways(lim: Limits, tablesOf: string -> set<Table>, like: Like, rows: Table2, calls: seq<Call>)
    requires lim.l1Size > 0
    ensures FromReads(lim, tablesOf, like, rows, calls, AfterCalls(lim, tablesOf, like, rows, calls).l1.order)
  {
    if calls != [] {
      var (before, call) := (calls[..|calls| - 1], calls[|calls| - 1]);
      var s := AfterCalls(lim, tablesOf, like, rows, before);
      FromReadsAlways(lim, tablesOf, like, rows, before);
      assert calls == before + [call];
      FromReadsLater(lim, tablesOf, like, rows, before, call, s.l1.order);
      match call
      case Read(k, c) => FromReadsRead(lim, tablesOf, like, rows, before, k, c);
      case Drop(k) => KeepElements(s.l1.order, Keys(s.l1.order) - {k});
      case DropTables(tables) => KeepElements(s.l1.order, Keys(s.l1.order) - KeysTagged(s.tableKeys, tables));
      case DropAll =>
    }
  }

  /** Whatever the first level answers at `now`, after any calls, was given by a read of that
      key at `now - l1Ttl` or later that went past the first level. */
  lemma AnswersFromReads(lim: Limits, tablesOf: string -> set<Table>, like: Like, rows: Table2, calls: seq<Call>, k: Key, now: real)
    requires lim.l1Size > 0 && GetResult(AfterCalls(lim, tablesOf, like, rows, calls).l1, k, now).Some?
    ensures exists at :: now - lim.l1Ttl <= at
                         && Gave(lim, tablesOf, like, rows, calls, k, GetResult(AfterCalls(lim, tablesOf, like, rows, calls).l1, k, now).value, at)
  {
    var s := AfterCalls(lim, tablesOf, like, rows, calls);
    FromReadsAlways(lim, tablesOf, like, rows, calls);
    LookupIn(s.l1.order, k);
    var e := LruCache.Lookup(s.l1.order, k).value;
    assert Slot(k, e) in s.l1.order;
    assert Gave(lim, tablesOf, like, rows, calls, k, e.value, e.createdAt);
  }

  // ---------------------------------------------------------------- the class

  class QueryCacheCoordinator {
    const l1: HybridQueryCache<Key, Rows>
    const l2: QueryResultCache
    const lim: Limits
    var keyTables: map<Key, set<Table>>
    var tableKeys: map<Table, set<Key>>

    function State(): Stack reads this, l1.lru, l2 {
      Stack(l1.State(), keyTables, tableKeys, l2.rows)
    }

    ghost predicate Valid() reads this, l1.lru, l1.ttl, l2 {
      l1.Valid() && lim.l1Size > 0 && l1.lru.maxSize == lim.l1Size
    }

    constructor (l2: QueryResultCache, lim: Limits)
      requires lim.l1Size > 0
      ensures Valid() && State() == Empty().(l2 := l2.rows)
      ensures this.l2 == l2 && this.lim == lim && fresh(l1.lru) && fresh(l1.ttl)
    {
      this.l2, this.lim := l2, lim;
      keyTables, tableKeys := map[], map[];
      l1 := new HybridQueryCache(lim.l1Size, lim.l1Ttl);
    }

    method GetOrExecute(k: Key, tables: set<Table>, c: Circumstances) returns (r: Option<Lookup2>)
      requires Valid()
      modifies this, l1.lru, l1.ttl, l2
      ensures Valid()
      ensures State() == AfterRead(old(State()), lim, k, tables, c)
      ensures r == ReadResult(old(State()), k, c)
    {
      var hit := l1.Get(k, c.now);
      if hit.Some? {
        return Some(Lookup2(hit.value, FromL1));
      }
      r := Resolve(k, tables, c);
    }

    method Resolve(k: Key, tables: set<Table>, c: Circumstances) returns (r: Option<Lookup2>)
      requires Valid()
      modifies this, l1.lru, l1.ttl, l2
      ensures Valid()
      ensures
        var s := old(State());
        match Fetch(s.l2, k, Seconds(c.now))
        case Some(data) =>
          var tagged := Tag(PutL1(s, lim, k, data, c.now), k, tables);
          && r == Some(Lookup2(data, FromL2))
          && State() == if c.accessRecorded then tagged.(l2 := Touch(s.l2, k, Seconds(c.now))) else tagged
        case None =>
          if c.executed.None? then r == None && State() == s
          else
            var tagged := Tag(PutL1(s, lim, k, c.executed.value, c.now), k, tables);
            && r == Some(Lookup2(c.executed.value, Fresh))
            && State() == if c.persisted && c.executed.value != []
                          then tagged.(l2 := Store(s.l2, k, c.executed.value, c.userId, DEFAULT_TTL_SECONDS, Seconds(c.now)))
                          else tagged
    {
      var row := l2.GetCachedResult(k, Seconds(c.now));
      if row.Some? {
        l1.Put(k, row.value, Some(lim.l1Ttl), c.now);
        TagTables(k, tables);
        if c.accessRecorded {
          l2.RecordAccess(k, Seconds(c.now));
        }
        return Some(Lookup2(row.value, FromL2));
      }
      if c.executed.None? {
        return None;
      }
      var data := c.executed.value;
      l1.Put(k, data, Some(lim.l1Ttl), c.now);
      TagTables(k, tables);
      if c.persisted && data != [] {
        l2.CacheResult(k, data, c.userId, DEFAULT_TTL_SECONDS, Seconds(c.now));
      }
      return Some(Lookup2(data, Fresh));
    }

    method TagTables(k: Key, tables: set<Table>)
      modifies this
      ensures State() == Tag(old(State()), k, tables)
    {
      if tables == {} {
        return;
      }
      keyTables := keyTables[k := tables];
      var rest := tables;
      while rest != {}
        invariant rest <= tables
        invariant keyTables == old(keyTables)[k := tables]
        invariant tableKeys.Keys == old(tableKeys).Keys + (tables - rest)
        invariant forall t :: t in tableKeys ==> tableKeys[t] == KeysOf(old(tableKeys), t) + if t in tables - rest then {k} else {}
      {
        var table :| table in rest;
        tableKeys := tableKeys[table := KeysOf(tableKeys, table) + {k}];
        rest := rest - {table};
      }
      assert tableKeys == Tag(old(State()), k, tables).tableKeys;
    }

    /** Drops the key from the first level only; its tags stay. */
    method Invalidate(k: Key)
      requires Valid()
      modifies l1.lru, l1.ttl
      ensures Valid()
      ensures State() == old(State()).(l1 := old(State()).l1.(order := Without(old(State()).l1.order, k)))
    {
      l1.Invalidate(k);
    }

    method ClearAll()
      requires Valid()
      modifies this, l1.lru, l1.ttl, l2
      ensures Valid() && State() == Empty()
    {
      keyTables, tableKeys := map[], map[];
      l1.Clear();
      var _ := l2.ClearAll();
    }

    method InvalidateTables(tables: set<Table>) returns (narrowed: bool)
      requires Valid()
      modifies this, l1.lru, l1.ttl, l2
      ensures Valid()
      ensures narrowed == Narrowed(old(State()), tables)
      ensures narrowed <==> exists t, k :: t in tables && t in old(tableKeys) && k in old(tableKeys)[t]
      ensures State() == AfterInvalidate(old(State()), l2.like, tables)
    {
      ghost var s := State();
      ExactRows(s, l2.like, tables, Key("", []));
      if tables == {} {
        assert KeysTagged(s.tableKeys, tables) == {};
        return false;
      }
      var dropped := PopTags(tables);
      if dropped == {} {
        return false;
      }
      DropFromL1(dropped);
      DropFromL2(tables);
      return true;
    }

    method PopTags(tables: set<Table>) returns (dropped: set<Key>)
      modifies `keyTables, `tableKeys
      ensures dropped == KeysTagged(old(tableKeys), tables)
      ensures tableKeys == old(tableKeys) - tables && keyTables == old(keyTables) - dropped
    {
      dropped := {};
      var rest := tables;
      while rest != {}
        invariant rest <= tables && keyTables == old(keyTables)
        invariant tableKeys == old(tableKeys) - (tables - rest)
        invariant dropped == KeysTagged(old(tableKeys), tables - rest)
      {
        var table :| table in rest;
        assert tables - (rest - {table}) == (tables - rest) + {table};
        dropped := dropped + KeysOf(tableKeys, table);
        tableKeys := tableKeys - {table};
        rest := rest - {table};
      }
      assert tables - rest == tables;
      var keys := dropped;
      while keys != {}
        invariant keys <= dropped && tableKeys == old(tableKeys) - tables
        invariant keyTables == old(keyTables) - (dropped - keys)
      {
        var key :| key in keys;
        keyTables := keyTables - {key};
        keys := keys - {key};
      }
      assert dropped - keys == dropped;
    }

    method DropFromL1(dropped: set<Key>)
      requires Valid()
      modifies l1.lru, l1.ttl
      ensures Valid()
      ensures State() == old(State()).(l1 := old(State()).l1.(order := Keep(old(l1.lru.cache), Keys(old(l1.lru.cache)) - dropped)))
    {
      ghost var order := l1.lru.cache;
      var keys := dropped;
      KeepAll(order, Keys(order) - (dropped - keys));
      while keys != {}
        invariant keys <= dropped && Valid()
        invariant State() == old(State()).(l1 := old(State()).l1.(order := Keep(order, Keys(order) - (dropped - keys))))
      {
        var key :| key in keys;
        ghost var (d, e) := (Keys(order) - (dropped - keys), Keys(l1.lru.cache) - {key});
        KeepIn(order, d);
        KeepKeep(order, d, e);
        assert d * e == Keys(order) - (dropped - (keys - {key}));
        l1.Invalidate(key);
        keys := keys - {key};
      }
      assert dropped - keys == dropped;
    }

    method DropFromL2(tables: set<Table>)
      modifies l2
      ensures l2.rows == Unmatched(old(l2.rows), l2.like, tables)
    {
      var rest := tables;
      while rest != {}
        invariant rest <= tables
        invariant l2.rows == Unmatched(old(l2.rows), l2.like, tables - rest)
      {
        var table :| table in rest;
        assert Purge(l2.rows, l2.like, table, "") == Unmatched(old(l2.rows), l2.like, tables - rest + {table});
        assert tables - (rest - {table}) == (tables - rest) + {table};
        var _ := l2.InvalidateCache(table, "");
        rest := rest - {table};
      }
      assert tables - rest == tables;
    }
  }
}
