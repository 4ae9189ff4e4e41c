/** The query service (`core/services/query_service.py`) over the caches, and the
    proof that cached service is uncached service. */
module QueryServing {
  import opened Wrappers
  import opened LruCache
  import opened ResultCache
  import opened CacheCoordinator

  type Warehouse = map<Table, string>

  /** What the service takes from outside: the statement classifier, the table
      extractor, the engine's answer and effect, and the pattern matcher. */
  datatype Engine = Engine(isWrite: string -> bool, tablesOf: string -> set<Table>,
                           answer: (Key, Warehouse) -> Rows, effect: (Key, Warehouse) -> Warehouse, like: Like)

  datatype ResultLimits = ResultLimits(maxRows: nat, maxBytes: nat)

  datatype Config = Config(requireWriteScope: bool, precise: bool, caches: Limits, results: ResultLimits)

  /** `engineUp` is false when executing the statement raises. */
  datatype Request = Request(key: Key, hasWriteScope: bool, engineUp: bool, now: real, persisted: bool, accessRecorded: bool, userId: string)

  datatype Response = Unauthorized | Raised | Outcome(data: Rows, cached: bool, truncated: bool)

  // ---------------------------------------------------------------- what is assumed of the engine

  /** The same content, or the same absence, in every table of `tables`. */
  ghost predicate Agree(v: Warehouse, w: Warehouse, tables: set<Table>) {
    forall t :: t in tables ==> (t in v <==> t in w) && (t in v ==> v[t] == w[t])
  }

  /** A statement depends on the tables extracted from it only; a write with
      extracted tables changes no others; a table's pattern matches every statement
      it is extracted from, and no table has an empty name. */
  ghost predicate Lawful(e: Engine) {
    && (forall k: Key, v: Warehouse, w: Warehouse :: Agree(v, w, e.tablesOf(k.sql)) ==> e.answer(k, v) == e.answer(k, w))
    && (forall k: Key, w: Warehouse, tables: set<Table> :: e.tablesOf(k.sql) != {} && tables !! e.tablesOf(k.sql) ==> Agree(w, e.effect(k, w), tables))
    && (forall sql: string, t: Table :: t in e.tablesOf(sql) ==> t != "" && e.like(t, sql))
  }

  // ---------------------------------------------------------------- result limits

  function Bytes(rows: Rows): nat {
    if rows == [] then 0 else Bytes(rows[..|rows| - 1]) + |rows[|rows| - 1]|
  }

  function Fits(rows: Rows, n: nat, lim: ResultLimits): bool
    requires n <= |rows|
  {
    n <= lim.maxRows && Bytes(rows[..n]) <= lim.maxBytes
  }

  /** How many rows survive the limits: the longest prefix that fits. */
  function Kept(rows: Rows, lim: ResultLimits): (n: nat)
    ensures n <= |rows| && Fits(rows, n, lim)
    ensures forall m :: n < m <= |rows| ==> !Fits(rows, m, lim)
  {
    KeptFrom(rows, |rows|, lim)
  }

  function KeptFrom(rows: Rows, n: nat, lim: ResultLimits): (r: nat)
    requires n <= |rows|
    ensures r <= n && Fits(rows, r, lim)
    ensures forall m :: r < m <= n ==> !Fits(rows, m, lim)
  {
    if n == 0 || Fits(rows, n, lim) then n else KeptFrom(rows, n - 1, lim)
  }

  lemma {:induction false} BytesMonotone(rows: Rows, m: nat, n: nat)
    requires m <= n <= |rows|
    ensures Bytes(rows[..m]) <= Bytes(rows[..n])
  {
    if m < n {
      assert rows[..n][..n - 1] == rows[..n - 1];
      BytesMonotone(rows, m, n - 1);
    }
  }

  /** Cutting off at the row and byte limits keeps the longest prefix within both,
      and reports truncation exactly when something was cut. */
  method ApplyResultLimits(data: Rows, lim: ResultLimits) returns (out: Rows, truncated: bool)
    ensures out == data[..Kept(data, lim)]
    ensures out <= data && |out| <= lim.maxRows && Bytes(out) <= lim.maxBytes
    ensures |out| < |data| ==> |out| == lim.maxRows || Bytes(data[..|out| + 1]) > lim.maxBytes
    ensures truncated <==> out != data
  {
    var limited := data;
    truncated := false;
    if |data| > lim.maxRows {
      limited, truncated := data[..lim.maxRows], true;
    }
    out := [];
    var totalBytes := 0;
    for i := 0 to |limited|
      invariant out == data[..i]
      invariant totalBytes == Bytes(data[..i]) <= lim.maxBytes
      invariant truncated <==> |limited| < |data|
    {
      var row := limited[i];
      assert data[..i + 1][..i] == data[..i];
      if totalBytes + |row| > lim.maxBytes {
        truncated := true;
        forall m | i < m <= |data| ensures !Fits(data, m, lim) { BytesMonotone(data, i + 1, m); }
        assert Fits(data, i, lim) && |out| == i;
        return;
      }
      out := out + [row];
      totalBytes := totalBytes + |row|;
    }
    assert Fits(data, |limited|, lim);
  }

  function Limited(data: Rows, cached: bool, lim: ResultLimits): Response {
    var n := Kept(data, lim);
    Outcome(data[..n], cached, n < |data|)
  }

  // ---------------------------------------------------------------- the service with caches

  datatype Service = Service(stack: Stack, warehouse: Warehouse)

  function CircumstancesOf(e: Engine, w: Warehouse, q: Request): Circumstances {
    Circumstances(q.now, if q.engineUp then Some(e.answer(q.key, w)) else None, q.persisted, q.accessRecorded, q.userId)
  }

  predicate Refused(cfg: Config, e: Engine, q: Request) {
    e.isWrite(q.key.sql) && cfg.requireWriteScope && !q.hasWriteScope
  }

  /** After a write: narrowed to the written tables if configured and possible,
      everything otherwise. */
  function Invalidated(cfg: Config, e: Engine, s: Stack, sql: string): Stack {
    var tables := e.tablesOf(sql);
    if cfg.precise && Narrowed(s, tables) then AfterInvalidate(s, e.like, tables) else Empty()
  }

  function ServeState(cfg: Config, e: Engine, s: Service, q: Request): Service
    requires cfg.caches.l1Size > 0
  {
    if Refused(cfg, e, q) then s
    else if e.isWrite(q.key.sql) then
      if q.engineUp then Service(Invalidated(cfg, e, s.stack, q.key.sql), e.effect(q.key, s.warehouse)) else s
    else s.(stack := AfterRead(s.stack, cfg.caches, q.key, e.tablesOf(q.key.sql), CircumstancesOf(e, s.warehouse, q)))
  }

  function ServeResponse(cfg: Config, e: Engine, s: Service, q: Request): Response {
    if Refused(cfg, e, q) then Unauthorized
    else if e.isWrite(q.key.sql) then
      if q.engineUp then Outcome(e.answer(q.key, s.warehouse), false, false) else Raised
    else
      match ReadResult(s.stack, q.key, CircumstancesOf(e, s.warehouse, q))
      case None => Raised
      case Some(r) => Limited(r.data, r.source != Fresh, cfg.results)
  }

  /** The state after serving `qs` from `s`. */
  function Serve(cfg: Config, e: Engine, s: Service, qs: seq<Request>): Service
    requires cfg.caches.l1Size > 0
  {
    if qs == [] then s
    else ServeState(cfg, e, Serve(cfg, e, s, qs[..|qs| - 1]), qs[|qs| - 1])
  }

  // ---------------------------------------------------------------- the service without caches

  function DirectWarehouse(cfg: Config, e: Engine, w: Warehouse, q: Request): Warehouse {
    if !Refused(cfg, e, q) && e.isWrite(q.key.sql) && q.engineUp then e.effect(q.key, w) else w
  }

  function DirectResponse(cfg: Config, e: Engine, w: Warehouse, q: Request): Response {
    if Refused(cfg, e, q) then Unauthorized
    else if !q.engineUp then Raised
    else if e.isWrite(q.key.sql) then Outcome(e.answer(q.key, w), false, false)
    else Limited(e.answer(q.key, w), false, cfg.results)
  }

  function Direct(cfg: Config, e: Engine, w: Warehouse, qs: seq<Request>): Warehouse {
    if qs == [] then w
    else DirectWarehouse(cfg, e, Direct(cfg, e, w, qs[..|qs| - 1]), qs[|qs| - 1])
  }

  // ---------------------------------------------------------------- coherence

  /** Every entry of either level is what the engine would answer now. */
  ghost predicate Coherent(e: Engine, s: Service) {
    && Indexed(s.stack, e.tablesOf)
    && (forall x :: x in s.stack.l1.order ==> x.entry.value == e.answer(x.key, s.warehouse))
    && (forall k :: k in s.stack.l2 ==> s.stack.l2[k].data == e.answer(k, s.warehouse) && s.stack.l2[k].querySql == k.sql)
  }

  lemma ReadsTruth(e: Engine, s: Service, q: Request)
    requires Coherent(e, s)
    ensures var r := ReadResult(s.stack, q.key, CircumstancesOf(e, s.warehouse, q));
            && (r.Some? ==> r.value.data == e.answer(q.key, s.warehouse))
            && (q.engineUp ==> r.Some?)
            && (r.Some? && r.value.source == Fresh ==> q.engineUp)
  {
    LookupIn(s.stack.l1.order, q.key);
  }

  lemma StepValues(e: Engine, w: Warehouse, cap: nat, c: Lru<Key, Rows>, op: Op<Key, Rows>)
    requires cap > 0 && forall x :: x in c.order ==> x.entry.value == e.answer(x.key, w)
    requires op.Put? ==> op.value == e.answer(op.key, w)
    ensures forall x :: x in Step(cap, c, op).order ==> x.entry.value == e.answer(x.key, w)
  {
    forall x | x in Step(cap, c, op).order ensures x.entry.value == e.answer(x.key, w) {
      StepOrigin(cap, c, op, x);
    }
  }

  lemma ReadCoherent(cfg: Config, e: Engine, s: Service, q: Request)
    requires cfg.caches.l1Size > 0 && Coherent(e, s)
    ensures Coherent(e, s.(stack := AfterRead(s.stack, cfg.caches, q.key, e.tablesOf(q.key.sql), CircumstancesOf(e, s.warehouse, q))))
  {
    var (k, cap, c) := (q.key, cfg.caches.l1Size, CircumstancesOf(e, s.warehouse, q));
    ReadIndexed(s.stack, cfg.caches, e.tablesOf, k, c);
    ReadsTruth(e, s, q);
    StepValues(e, s.warehouse, cap, s.stack.l1, Get(k, q.now));
    var r := ReadResult(s.stack, k, c);
    if r.Some? {
      StepValues(e, s.warehouse, cap, AfterGet(s.stack.l1, k, q.now), Put(k, r.value.data, Some(cfg.caches.l1Ttl), q.now));
    }
  }

  lemma WriteCoherent(cfg: Config, e: Engine, s: Service, k: Key)
    requires Lawful(e) && Coherent(e, s)
    ensures Coherent(e, Service(Invalidated(cfg, e, s.stack, k.sql), e.effect(k, s.warehouse)))
  {
    var tables := e.tablesOf(k.sql);
    var (w, w') := (s.warehouse, e.effect(k, s.warehouse));
    EmptyIndexed(e.tablesOf, map[]);
    if cfg.precise && Narrowed(s.stack, tables) {
      var s' := AfterInvalidate(s.stack, e.like, tables);
      InvalidateIndexed(s.stack, e.tablesOf, e.like, tables);
      var order := s.stack.l1.order;
      KeepElements(order, Keys(order) - KeysTagged(s.stack.tableKeys, tables));
      KeysOfSlots(s'.l1.order);
      forall x | x in s'.l1.order ensures x.entry.value == e.answer(x.key, w') {
        NarrowedExactly(s.stack, e.tablesOf, e.like, tables, x.key);
        assert Agree(w, w', e.tablesOf(x.key.sql));
      }
      forall j | j in s'.l2 ensures s'.l2[j].data == e.answer(j, w') && s'.l2[j].querySql == j.sql {
        assert e.tablesOf(j.sql) !! tables;
        assert Agree(w, w', e.tablesOf(j.sql));
      }
    }
  }

  /** A service that starts with nothing cached is coherent; so is one that starts with
      an empty first level over second-level rows that are still true. */
  lemma StartCoherent(e: Engine, w: Warehouse, rows: Table2)
    requires forall k :: k in rows ==> rows[k].data == e.answer(k, w) && rows[k].querySql == k.sql
    ensures Coherent(e, Service(Empty().(l2 := rows), w))
  {
    EmptyIndexed(e.tablesOf, rows);
  }

  lemma {:induction false} CoherentAlways(cfg: Config, e: Engine, s: Service, qs: seq<Request>)
    requires cfg.caches.l1Size > 0 && Lawful(e) && Coherent(e, s)
    ensures Coherent(e, Serve(cfg, e, s, qs))
  {
    if qs != [] {
      var (t, q) := (Serve(cfg, e, s, qs[..|qs| - 1]), qs[|qs| - 1]);
      CoherentAlways(cfg, e, s, qs[..|qs| - 1]);
      if e.isWrite(q.key.sql) {
        WriteCoherent(cfg, e, t, q.key);
      } else {
        ReadCoherent(cfg, e, t, q);
      }
    }
  }

  /** The caches never change what the warehouse holds. */
  lemma {:induction false} SameWarehouse(cfg: Config, e: Engine, s: Service, qs: seq<Request>)
    requires cfg.caches.l1Size > 0
    ensures Serve(cfg, e, s, qs).warehouse == Direct(cfg, e, s.warehouse, qs)
  {
    if qs != [] {
      SameWarehouse(cfg, e, s, qs[..|qs| - 1]);
    }
  }

  /** The cached answer against the direct one: the same but for the `cached` mark,
      except that a read may be answered from the cache while the engine is down,
      and then it is what the engine would have said. */
  ghost predicate Transparent(cfg: Config, e: Engine, w: Warehouse, q: Request, cached: Response) {
    var direct := DirectResponse(cfg, e, w, q);
    if cached.Outcome? && !e.isWrite(q.key.sql)
    then cached.(cached := false) == Limited(e.answer(q.key, w), false, cfg.results)
    else cached == direct
  }

  lemma CoherentTransparent(cfg: Config, e: Engine, s: Service, q: Request)
    requires cfg.caches.l1Size > 0 && Coherent(e, s)
    ensures Transparent(cfg, e, s.warehouse, q, ServeResponse(cfg, e, s, q))
    ensures q.engineUp ==> ServeResponse(cfg, e, s, q) != Raised
  {
    ReadsTruth(e, s, q);
  }

  /** Transparency. Whatever was requested before, with entries lost to size or
      age, persistence jobs dropped, and invalidation precise or total, the next
      request is answered as the uncached service would answer it now. */
  lemma Transparency(cfg: Config, e: Engine, s: Service, qs: seq<Request>, q: Request)
    requires cfg.caches.l1Size > 0 && Lawful(e) && Coherent(e, s)
    ensures Transparent(cfg, e, Direct(cfg, e, s.warehouse, qs), q, ServeResponse(cfg, e, Serve(cfg, e, s, qs), q))
    ensures q.engineUp ==> ServeResponse(cfg, e, Serve(cfg, e, s, qs), q) != Raised
    ensures ServeState(cfg, e, Serve(cfg, e, s, qs), q).warehouse == DirectWarehouse(cfg, e, Direct(cfg, e, s.warehouse, qs), q)
  {
    CoherentAlways(cfg, e, s, qs);
    SameWarehouse(cfg, e, s, qs);
    CoherentTransparent(cfg, e, Serve(cfg, e, s, qs), q);
  }

  // ---------------------------------------------------------------- the mark, refusals and narrowness

  /** A response is marked as cached exactly if it is a read's that would have been answered
      without the engine. */
  lemma MarkedExactly(cfg: Config, e: Engine, s: Service, q: Request)
    requires ServeResponse(cfg, e, s, q).Outcome?
    ensures ServeResponse(cfg, e, s, q).cached <==> !e.isWrite(q.key.sql) && ServeResponse(cfg, e, s, q.(engineUp := false)).Outcome?
  {
  }

  /** The first read of a statement is not marked; its repetition within the time to live is,
      and whatever the engine does meanwhile it gives the same response otherwise. */
  lemma ReadTwice(cfg: Config, e: Engine, w: Warehouse, q: Request, again: Request)
    requires cfg.caches.l1Size > 0 && !e.isWrite(q.key.sql) && q.engineUp
    requires again.key == q.key && again.now - q.now <= cfg.caches.l1Ttl
    ensures var (s, r) := (Service(Empty(), w), Limited(e.answer(q.key, w), false, cfg.results));
            && ServeResponse(cfg, e, s, q) == r && !r.cached
            && ServeResponse(cfg, e, ServeState(cfg, e, s, q), again) == r.(cached := true)
  {
    var s := Service(Empty(), w);
    var (c, next) := (CircumstancesOf(e, w, q), CircumstancesOf(e, w, again));
    assert ReadResult(s.stack, q.key, c) == Some(Lookup2(e.answer(q.key, w), Fresh));
    ReadFillsL1(s.stack, cfg.caches, q.key, e.tablesOf(q.key.sql), c, next);
  }

  /** Refused are exactly the writes without the scope that the configuration asks for; they,
      and writes the engine fails, change nothing. */
  lemma RefusedExactly(cfg: Config, e: Engine, s: Service, q: Request)
    requires cfg.caches.l1Size > 0
    ensures ServeResponse(cfg, e, s, q) == Unauthorized <==> e.isWrite(q.key.sql) && cfg.requireWriteScope && !q.hasWriteScope
    ensures ServeResponse(cfg, e, s, q) == Unauthorized ==> ServeState(cfg, e, s, q) == s
    ensures e.isWrite(q.key.sql) && !q.engineUp ==> ServeState(cfg, e, s, q) == s
    ensures e.isWrite(q.key.sql) && ServeResponse(cfg, e, s, q) != Unauthorized ==>
              if q.engineUp then ServeResponse(cfg, e, s, q) == Outcome(e.answer(q.key, s.warehouse), false, false) else ServeResponse(cfg, e, s, q) == Raised
  {
  }

  /** A write drops no more than it must: with precise invalidation, and some key listed under
      a written table, statements that read no written table stay in the first level and rows
      no written table's pattern matches stay in the second; otherwise everything goes. */
  lemma WriteDropsExactly(cfg: Config, e: Engine, s: Service, q: Request, k: Key)
    requires cfg.caches.l1Size > 0 && Indexed(s.stack, e.tablesOf)
    requires e.isWrite(q.key.sql) && q.engineUp && ServeResponse(cfg, e, s, q) != Unauthorized
    ensures var (t, tables) := (ServeState(cfg, e, s, q).stack, e.tablesOf(q.key.sql));
            if cfg.precise && exists a, j :: a in tables && a in s.stack.tableKeys && j in s.stack.tableKeys[a]
            then
              && LruCache.Lookup(t.l1.order, k) == (if e.tablesOf(k.sql) !! tables then LruCache.Lookup(s.stack.l1.order, k) else None)
              && (k in t.l2 <==> k in s.stack.l2 && forall a :: a in tables && a != "" ==> !e.like(a, s.stack.l2[k].querySql))
            else t == Empty()
  {
    var tables := e.tablesOf(q.key.sql);
    ExactRows(s.stack, e.like, tables, k);
    NarrowedExactly(s.stack, e.tablesOf, e.like, tables, k);
    LookupIn(AfterInvalidate(s.stack, e.like, tables).l1.order, k);
  }

  // ---------------------------------------------------------------- a read that overlaps writes

  /** A read that executed earlier and fills the first level only now. */
  function LateFill(cfg: Config, e: Engine, s: Service, k: Key, data: Rows, now: real): Service
    requires cfg.caches.l1Size > 0
  {
    s.(stack := Tag(PutL1(s.stack, cfg.caches, k, data, now), k, e.tablesOf(k.sql)))
  }

  /** A persistence job queued earlier and run only now. */
  function LatePersist(s: Service, k: Key, data: Rows, userId: string, now: real): Service {
    s.(stack := s.stack.(l2 := Store(s.stack.l2, k, data, userId, DEFAULT_TTL_SECONDS, Seconds(now))))
  }

  lemma LateFillCoherent(cfg: Config, e: Engine, s: Service, k: Key, data: Rows, now: real)
    requires cfg.caches.l1Size > 0 && Coherent(e, s) && data == e.answer(k, s.warehouse)
    ensures Coherent(e, LateFill(cfg, e, s, k, data, now))
  {
    var cap := cfg.caches.l1Size;
    StepValues(e, s.warehouse, cap, s.stack.l1, Put(k, data, Some(cfg.caches.l1Ttl), now));
    StepKeys(cap, s.stack.l1, Put(k, data, Some(cfg.caches.l1Ttl), now));
    TagKeeps(PutL1(s.stack, cfg.caches, k, data, now), s.stack, e.tablesOf, k);
  }

  /** The request is no write, or cannot happen, or has tables and reads none of `tables`. */
  predicate Harmless(cfg: Config, isWrite: string -> bool, tablesOf: string -> set<Table>, q: Request, tables: set<Table>) {
    var written := tablesOf(q.key.sql);
    isWrite(q.key.sql) && q.engineUp && (cfg.requireWriteScope ==> q.hasWriteScope) ==> written != {} && written !! tables
  }

  ghost predicate AllHarmless(cfg: Config, isWrite: string -> bool, tablesOf: string -> set<Table>, qs: seq<Request>, k: Key) {
    forall i :: 0 <= i < |qs| ==> Harmless(cfg, isWrite, tablesOf, qs[i], tablesOf(k.sql))
  }

  lemma {:induction false} HarmlessAnswer(cfg: Config, e: Engine, s: Service, qs: seq<Request>, k: Key)
    requires cfg.caches.l1Size > 0 && Lawful(e) && AllHarmless(cfg, e.isWrite, e.tablesOf, qs, k)
    ensures e.answer(k, Serve(cfg, e, s, qs).warehouse) == e.answer(k, s.warehouse)
  {
    if qs != [] {
      var (t, q) := (Serve(cfg, e, s, qs[..|qs| - 1]), qs[|qs| - 1]);
      HarmlessAnswer(cfg, e, s, qs[..|qs| - 1], k);
      assert Harmless(cfg, e.isWrite, e.tablesOf, q, e.tablesOf(k.sql));
      if Serve(cfg, e, s, qs).warehouse != t.warehouse {
        assert Agree(t.warehouse, e.effect(q.key, t.warehouse), e.tablesOf(k.sql));
      }
    }
  }

  /** The caches stay true when `k` is executed in `s`, `qs` are served, and only then the
      result reaches the first level. */
  ghost predicate FillIsFine(cfg: Config, e: Engine, s: Service, qs: seq<Request>, k: Key, now: real)
    requires cfg.caches.l1Size > 0
  {
    Coherent(e, LateFill(cfg, e, Serve(cfg, e, s, qs), k, e.answer(k, s.warehouse), now))
  }

  /** And when only then its persistence job runs, which an empty result has none of. */
  ghost predicate PersistIsFine(cfg: Config, e: Engine, s: Service, qs: seq<Request>, k: Key, now: real)
    requires cfg.caches.l1Size > 0
  {
    var data := e.answer(k, s.warehouse);
    data != [] ==> forall user :: Coherent(e, LatePersist(Serve(cfg, e, s, qs), k, data, user, now))
  }

  lemma LateHarmless(cfg: Config, e: Engine, s: Service, qs: seq<Request>, k: Key, now: real)
    requires cfg.caches.l1Size > 0 && Lawful(e) && Coherent(e, s) && AllHarmless(cfg, e.isWrite, e.tablesOf, qs, k)
    ensures FillIsFine(cfg, e, s, qs, k, now) && PersistIsFine(cfg, e, s, qs, k, now)
  {
    var (t, data) := (Serve(cfg, e, s, qs), e.answer(k, s.warehouse));
    CoherentAlways(cfg, e, s, qs);
    HarmlessAnswer(cfg, e, s, qs, k);
    LateFillCoherent(cfg, e, t, k, data, now);
    forall user ensures Coherent(e, LatePersist(t, k, data, user, now)) {
      LatePersistCoherent(e, t, k, data, user, now);
    }
  }

  lemma LatePersistCoherent(e: Engine, s: Service, k: Key, data: Rows, user: string, now: real)
    requires Coherent(e, s) && data == e.answer(k, s.warehouse)
    ensures Coherent(e, LatePersist(s, k, data, user, now))
  {
  }

  // an engine that tells

  /** Every statement reads, and every write fills, table `t` alone; `first` is the answer
      before any write. */
  function TellTale(isWrite: string -> bool, tablesOf: string -> set<Table>, t: Table, first: Rows): Engine {
    Engine(isWrite, tablesOf,
           (k: Key, w: Warehouse) => if t in tablesOf(k.sql) && t in w then [w[t]] else first,
           (k: Key, w: Warehouse) => if tablesOf(k.sql) == {} || t in tablesOf(k.sql) then w[t := ""] else w,
           (pattern, sql) => true)
  }

  lemma TellTaleLawful(isWrite: string -> bool, tablesOf: string -> set<Table>, t: Table, first: Rows)
    requires forall sql :: "" !in tablesOf(sql)
    ensures Lawful(TellTale(isWrite, tablesOf, t, first))
  {
    var e := TellTale(isWrite, tablesOf, t, first);
    forall k: Key, v: Warehouse, w: Warehouse | Agree(v, w, e.tablesOf(k.sql)) ensures e.answer(k, v) == e.answer(k, w) {
    }
    forall k: Key, w: Warehouse, tables: set<Table> | e.tablesOf(k.sql) != {} && tables !! e.tablesOf(k.sql)
      ensures Agree(w, e.effect(k, w), tables)
    {
    }
  }

  /** Once filled, the table stays filled. */
  lemma {:induction false} TellTaleTells(cfg: Config, isWrite: string -> bool, tablesOf: string -> set<Table>, t: Table, first: Rows,
                                         s: Service, qs: seq<Request>, i: nat)
    requires cfg.caches.l1Size > 0 && i < |qs| && s.warehouse == map[]
    requires !Harmless(cfg, isWrite, tablesOf, qs[i], {t})
    ensures Serve(cfg, TellTale(isWrite, tablesOf, t, first), s, qs).warehouse == map[t := ""]
  {
    var e := TellTale(isWrite, tablesOf, t, first);
    TellTaleStates(cfg, isWrite, tablesOf, t, first, s, qs[..|qs| - 1]);
    var before := Serve(cfg, e, s, qs[..|qs| - 1]);
    var empty: Warehouse := map[];
    assert empty[t := ""] == map[t := ""] && map[t := ""][t := ""] == map[t := ""];
    if i < |qs| - 1 {
      TellTaleTells(cfg, isWrite, tablesOf, t, first, s, qs[..|qs| - 1], i);
    } else {
      assert qs[i] == qs[|qs| - 1] && ServeState(cfg, e, before, qs[i]).warehouse == before.warehouse[t := ""];
    }
  }

  lemma {:induction false} TellTaleStates(cfg: Config, isWrite: string -> bool, tablesOf: string -> set<Table>, t: Table, first: Rows,
                                          s: Service, qs: seq<Request>)
    requires cfg.caches.l1Size > 0 && s.warehouse == map[]
    ensures Serve(cfg, TellTale(isWrite, tablesOf, t, first), s, qs).warehouse in {map[], map[t := ""]}
  {
    if qs != [] {
      TellTaleStates(cfg, isWrite, tablesOf, t, first, s, qs[..|qs| - 1]);
      var before := Serve(cfg, TellTale(isWrite, tablesOf, t, first), s, qs[..|qs| - 1]).warehouse;
      assert before[t := ""] == map[t := ""];
    }
  }

  lemma HarmfulTable(cfg: Config, isWrite: string -> bool, tablesOf: string -> set<Table>, q: Request, k: Key) returns (t: Table)
    requires tablesOf(k.sql) != {} && !Harmless(cfg, isWrite, tablesOf, q, tablesOf(k.sql))
    ensures t in tablesOf(k.sql) && !Harmless(cfg, isWrite, tablesOf, q, {t})
  {
    if tablesOf(q.key.sql) == {} {
      t :| t in tablesOf(k.sql);
    } else {
      t :| t in tablesOf(k.sql) && t in tablesOf(q.key.sql);
    }
  }

  lemma PutFound(s: seq<Slot<Key, Rows>>, cap: nat, c: Lru<Key, Rows>, k: Key, e: CacheEntry<Rows>)
    requires cap > 0 && s == AfterPut(c, cap, k, e).order
    ensures LruCache.Lookup(s, k) == Some(e) && Slot(k, e) in s
  {
    var r := if k in Keys(c.order) then Without(c.order, k) else Evict(c.order, cap);
    KeepIn(c.order, Keys(c.order) - {k});
    LookupSplit(r, [Slot(k, e)], k);
    assert s == r + [Slot(k, e)] && Slot(k, e) in [Slot(k, e)];
  }

  lemma TellTaleStale(cfg: Config, isWrite: string -> bool, tablesOf: string -> set<Table>, qs: seq<Request>, i: nat, k: Key, first: Rows)
    returns (e: Engine, s: Service)
    requires cfg.caches.l1Size > 0 && tablesOf(k.sql) != {} && forall sql :: "" !in tablesOf(sql)
    requires i < |qs| && !Harmless(cfg, isWrite, tablesOf, qs[i], tablesOf(k.sql))
    ensures e.isWrite == isWrite && e.tablesOf == tablesOf && Lawful(e) && Coherent(e, s)
    ensures e.answer(k, s.warehouse) == first && e.answer(k, Serve(cfg, e, s, qs).warehouse) == [""]
  {
    var t := HarmfulTable(cfg, isWrite, tablesOf, qs[i], k);
    e, s := TellTale(isWrite, tablesOf, t, first), Service(Empty(), map[]);
    TellTaleLawful(isWrite, tablesOf, t, first);
    TellTaleTells(cfg, isWrite, tablesOf, t, first, s, qs, i);
    EmptyIndexed(tablesOf, map[]);
  }

  /** The exact condition for a late fill. When requests are served between a read's
      execution and the arrival of its rows in the first level, the caches stay true,
      whatever the engine, if and only if each write among them has known tables and none
      that the read uses. */
  lemma LateFillExactly(cfg: Config, isWrite: string -> bool, tablesOf: string -> set<Table>, qs: seq<Request>, k: Key, now: real)
    requires cfg.caches.l1Size > 0 && tablesOf(k.sql) != {} && forall sql :: "" !in tablesOf(sql)
    ensures AllHarmless(cfg, isWrite, tablesOf, qs, k) <==>
            forall e: Engine, s: Service :: e.isWrite == isWrite && e.tablesOf == tablesOf && Lawful(e) && Coherent(e, s) ==>
              FillIsFine(cfg, e, s, qs, k, now)
  {
    if AllHarmless(cfg, isWrite, tablesOf, qs, k) {
      forall e: Engine, s: Service | e.isWrite == isWrite && e.tablesOf == tablesOf && Lawful(e) && Coherent(e, s)
        ensures FillIsFine(cfg, e, s, qs, k, now)
      {
        LateHarmless(cfg, e, s, qs, k, now);
      }
    } else {
      var i :| 0 <= i < |qs| && !Harmless(cfg, isWrite, tablesOf, qs[i], tablesOf(k.sql));
      var e, s := TellTaleStale(cfg, isWrite, tablesOf, qs, i, k, []);
      var t := Serve(cfg, e, s, qs);
      var entry := NewEntry([], Some(cfg.caches.l1Ttl), now);
      PutFound(LateFill(cfg, e, t, k, [], now).stack.l1.order, cfg.caches.l1Size, t.stack.l1, k, entry);
      assert Slot(k, entry).entry.value != e.answer(k, t.warehouse);
      assert !FillIsFine(cfg, e, s, qs, k, now);
    }
  }

  /** The exact condition for a late persistence job: the same. */
  lemma LatePersistExactly(cfg: Config, isWrite: string -> bool, tablesOf: string -> set<Table>, qs: seq<Request>, k: Key, now: real)
    requires cfg.caches.l1Size > 0 && tablesOf(k.sql) != {} && forall sql :: "" !in tablesOf(sql)
    ensures AllHarmless(cfg, isWrite, tablesOf, qs, k) <==>
            forall e: Engine, s: Service :: e.isWrite == isWrite && e.tablesOf == tablesOf && Lawful(e) && Coherent(e, s) ==>
              PersistIsFine(cfg, e, s, qs, k, now)
  {
    if AllHarmless(cfg, isWrite, tablesOf, qs, k) {
      forall e: Engine, s: Service | e.isWrite == isWrite && e.tablesOf == tablesOf && Lawful(e) && Coherent(e, s)
        ensures PersistIsFine(cfg, e, s, qs, k, now)
      {
        LateHarmless(cfg, e, s, qs, k, now);
      }
    } else {
      var i :| 0 <= i < |qs| && !Harmless(cfg, isWrite, tablesOf, qs[i], tablesOf(k.sql));
      var e, s := TellTaleStale(cfg, isWrite, tablesOf, qs, i, k, ["none"]);
      var stored := LatePersist(Serve(cfg, e, s, qs), k, ["none"], "", now);
      assert stored.stack.l2[k].data != e.answer(k, stored.warehouse);
      assert !Coherent(e, stored);
      assert !PersistIsFine(cfg, e, s, qs, k, now);
    }
  }

  /** And one such write is enough for a caller to notice: under some engine the next
      read of the statement, while the entry lasts, is not what the warehouse holds. */
  lemma LateFillCanBeStale(cfg: Config, isWrite: string -> bool, tablesOf: string -> set<Table>, qs: seq<Request>, i: nat, q: Request, now: real)
    returns (e: Engine, s: Service)
    requires cfg.caches.l1Size > 0 && tablesOf(q.key.sql) != {} && forall sql :: "" !in tablesOf(sql)
    requires i < |qs| && !Harmless(cfg, isWrite, tablesOf, qs[i], tablesOf(q.key.sql))
    requires !isWrite(q.key.sql) && q.now - now <= cfg.caches.l1Ttl
    ensures e.isWrite == isWrite && e.tablesOf == tablesOf && Lawful(e) && Coherent(e, s)
    ensures var t := LateFill(cfg, e, Serve(cfg, e, s, qs), q.key, e.answer(q.key, s.warehouse), now);
            !Transparent(cfg, e, t.warehouse, q, ServeResponse(cfg, e, t, q))
  {
    var k := q.key;
    e, s := TellTaleStale(cfg, isWrite, tablesOf, qs, i, k, []);
    var t := Serve(cfg, e, s, qs);
    var filled := LateFill(cfg, e, t, k, [], now);
    PutFound(filled.stack.l1.order, cfg.caches.l1Size, t.stack.l1, k, NewEntry([], Some(cfg.caches.l1Ttl), now));
    assert ServeResponse(cfg, e, filled, q) == Limited([], true, cfg.results);
    assert Kept([], cfg.results) == 0;
  }

  /** So does a persistence job: unless responses are cut to no rows at all, a read within
      the hour that the first level does not answer is not what the warehouse holds. */
  lemma LatePersistCanBeStale(cfg: Config, isWrite: string -> bool, tablesOf: string -> set<Table>, qs: seq<Request>, i: nat, q: Request,
                              user: string, now: real)
    returns (e: Engine, s: Service)
    requires cfg.caches.l1Size > 0 && tablesOf(q.key.sql) != {} && forall sql :: "" !in tablesOf(sql)
    requires i < |qs| && !Harmless(cfg, isWrite, tablesOf, qs[i], tablesOf(q.key.sql))
    requires !isWrite(q.key.sql) && Seconds(q.now) < Seconds(now) + DEFAULT_TTL_SECONDS && cfg.results.maxRows > 0
    ensures e.isWrite == isWrite && e.tablesOf == tablesOf && Lawful(e) && Coherent(e, s) && e.answer(q.key, s.warehouse) != []
    ensures var t := LatePersist(Serve(cfg, e, s, qs), q.key, e.answer(q.key, s.warehouse), user, now);
            forall l1 :: GetResult(l1, q.key, q.now).None? ==>
              !Transparent(cfg, e, t.warehouse, q, ServeResponse(cfg, e, t.(stack := t.stack.(l1 := l1)), q))
  {
    e, s := TellTaleStale(cfg, isWrite, tablesOf, qs, i, q.key, ["none"]);
    var t := LatePersist(Serve(cfg, e, s, qs), q.key, ["none"], user, now);
    OneRow("none", cfg.results);
    OneRow("", cfg.results);
    forall l1 | GetResult(l1, q.key, q.now).None?
      ensures !Transparent(cfg, e, t.warehouse, q, ServeResponse(cfg, e, t.(stack := t.stack.(l1 := l1)), q))
    {
      assert ServeResponse(cfg, e, t.(stack := t.stack.(l1 := l1)), q) == Limited(["none"], true, cfg.results);
    }
  }

  lemma OneRow(row: Row, lim: ResultLimits)
    requires lim.maxRows > 0
    ensures Limited([row], false, lim) == if |row| <= lim.maxBytes then Outcome([row], false, false) else Outcome([], false, true)
  {
    assert [row][..0] == [] && [row][..1] == [row] && Bytes([row]) == |row|;
    assert Fits([row], 1, lim) <==> |row| <= lim.maxBytes;
  }

  // ---------------------------------------------------------------- an invalidation before the tags

  /** A read has put its rows in the first level, a write and its invalidation come next,
      and only then the key is tagged. */
  function GapFill(cfg: Config, e: Engine, s: Service, k: Key, now: real, write: Key): Service
    requires cfg.caches.l1Size > 0
  {
    var put := PutL1(s.stack, cfg.caches, k, e.answer(k, s.warehouse), now);
    Service(Tag(Invalidated(cfg, e, put, write.sql), k, e.tablesOf(k.sql)), e.effect(write, s.warehouse))
  }

  /** The invalidation is narrowed, the write's tables are among the read's, and the key is
      not listed under them from an earlier time. */
  predicate Missed(cfg: Config, tablesOf: string -> set<Table>, tags: map<Table, set<Key>>, write: Key, k: Key) {
    var listed := KeysTagged(tags, tablesOf(write.sql));
    cfg.precise && !(tablesOf(write.sql) !! tablesOf(k.sql)) && listed != {} && k !in listed
  }

  lemma GapCleared(e: Engine, k: Key, w: Warehouse)
    ensures Coherent(e, Service(Tag(Empty(), k, e.tablesOf(k.sql)), w))
  {
    EmptyIndexed(e.tablesOf, map[]);
    TagKeeps(Empty(), Empty(), e.tablesOf, k);
  }

  lemma GapNarrowed(cfg: Config, e: Engine, s: Service, k: Key, now: real, write: Key)
    requires cfg.caches.l1Size > 0 && Lawful(e) && Coherent(e, s) && cfg.precise && Narrowed(s.stack, e.tablesOf(write.sql))
    requires !Missed(cfg, e.tablesOf, s.stack.tableKeys, write, k)
    ensures Coherent(e, GapFill(cfg, e, s, k, now, write))
  {
    var (cap, tables, data) := (cfg.caches.l1Size, e.tablesOf(write.sql), e.answer(k, s.warehouse));
    var (w, w') := (s.warehouse, e.effect(write, s.warehouse));
    var put := PutL1(s.stack, cfg.caches, k, data, now);
    var (t, u) := (AfterInvalidate(put, e.like, tables), AfterInvalidate(s.stack, e.like, tables));
    var dropped := KeysTagged(s.stack.tableKeys, tables);
    StepKeys(cap, s.stack.l1, Put(k, data, Some(cfg.caches.l1Ttl), now));
    StepValues(e, w, cap, s.stack.l1, Put(k, data, Some(cfg.caches.l1Ttl), now));
    KeepIn(put.l1.order, Keys(put.l1.order) - dropped);
    KeepIn(s.stack.l1.order, Keys(s.stack.l1.order) - dropped);
    KeepElements(put.l1.order, Keys(put.l1.order) - dropped);
    InvalidateIndexed(s.stack, e.tablesOf, e.like, tables);
    TagKeeps(t, u, e.tablesOf, k);
    KeysOfSlots(put.l1.order);
    forall x | x in t.l1.order ensures x.entry.value == e.answer(x.key, w') {
      assert x.key == k || x.key in Keys(s.stack.l1.order);
      Unlisted(s.stack, e.tablesOf, tables, x.key);
      assert Agree(w, w', e.tablesOf(x.key.sql));
    }
    forall j | j in t.l2 ensures t.l2[j].data == e.answer(j, w') && t.l2[j].querySql == j.sql {
      assert e.tablesOf(j.sql) !! tables;
      assert Agree(w, w', e.tablesOf(j.sql));
    }
  }

  lemma Unlisted(s: Stack, tablesOf: string -> set<Table>, tables: set<Table>, k: Key)
    requires Indexed(s, tablesOf)
    ensures k in Keys(s.l1.order) && k !in KeysTagged(s.tableKeys, tables) ==> tablesOf(k.sql) !! tables
  {
    if k in Keys(s.l1.order) && !(tablesOf(k.sql) !! tables) {
      var t :| t in tablesOf(k.sql) && t in tables;
      assert k in KeysOf(s.tableKeys, t);
    }
  }

  /** The exact condition for the gap before the tags: under every engine the caches stay
      true if and only if the invalidation does not miss the key. */
  lemma GapExactly(cfg: Config, tablesOf: string -> set<Table>, tags: map<Table, set<Key>>, k: Key, now: real, write: Key)
    requires cfg.caches.l1Size > 0 && forall sql :: "" !in tablesOf(sql)
    requires forall t, j :: t in tags && j in tags[t] ==> t in tablesOf(j.sql)
    ensures !Missed(cfg, tablesOf, tags, write, k) <==>
            forall e: Engine, s: Service :: e.tablesOf == tablesOf && s.stack.tableKeys == tags && Lawful(e) && Coherent(e, s) ==>
              Coherent(e, GapFill(cfg, e, s, k, now, write))
  {
    if Missed(cfg, tablesOf, tags, write, k) {
      var t :| t in tablesOf(write.sql) && t in tablesOf(k.sql);
      var e, s := TellTale(sql => true, tablesOf, t, []), Service(Empty().(tableKeys := tags), map[]);
      TellTaleLawful(sql => true, tablesOf, t, []);
      GapStale(cfg, e, s, k, now, write, t);
      assert Coherent(e, s) && !Coherent(e, GapFill(cfg, e, s, k, now, write));
    } else {
      forall e: Engine, s: Service | e.tablesOf == tablesOf && s.stack.tableKeys == tags && Lawful(e) && Coherent(e, s)
        ensures Coherent(e, GapFill(cfg, e, s, k, now, write))
      {
        if cfg.precise && Narrowed(s.stack, tablesOf(write.sql)) {
          GapNarrowed(cfg, e, s, k, now, write);
        } else {
          GapCleared(e, k, e.effect(write, s.warehouse));
        }
      }
    }
  }

  lemma GapStale(cfg: Config, e: Engine, s: Service, k: Key, now: real, write: Key, t: Table)
    requires cfg.caches.l1Size > 0 && e == TellTale(e.isWrite, e.tablesOf, t, []) && t in e.tablesOf(write.sql) && t in e.tablesOf(k.sql)
    requires s == Service(Empty().(tableKeys := s.stack.tableKeys), map[]) && Missed(cfg, e.tablesOf, s.stack.tableKeys, write, k)
    requires forall a, j :: a in s.stack.tableKeys && j in s.stack.tableKeys[a] ==> a in e.tablesOf(j.sql)
    ensures Coherent(e, s) && !Coherent(e, GapFill(cfg, e, s, k, now, write))
  {
    var put := PutL1(s.stack, cfg.caches, k, [], now);
    var entry := NewEntry([], Some(cfg.caches.l1Ttl), now);
    var dropped := KeysTagged(s.stack.tableKeys, e.tablesOf(write.sql));
    PutFound(put.l1.order, cfg.caches.l1Size, s.stack.l1, k, entry);
    LookupKeep(put.l1.order, Keys(put.l1.order) - dropped, k);
    LookupIn(put.l1.order, k);
    LookupIn(Keep(put.l1.order, Keys(put.l1.order) - dropped), k);
    assert Slot(k, entry) in GapFill(cfg, e, s, k, now, write).stack.l1.order;
    assert Keys<Key, Rows>([]) == {};
  }

  // ---------------------------------------------------------------- the class

  class QueryService {
    const engine: Engine
    const cfg: Config
    const coordinator: QueryCacheCoordinator
    var warehouse: Warehouse

    function State(): Service reads this, coordinator, coordinator.l1.lru, coordinator.l2 {
      Service(coordinator.State(), warehouse)
    }

    ghost predicate Valid() reads this, coordinator, coordinator.l1.lru, coordinator.l1.ttl, coordinator.l2 {
      coordinator.Valid() && coordinator.lim == cfg.caches && coordinator.l2.like == engine.like
    }

    constructor (engine: Engine, cfg: Config, warehouse: Warehouse)
      requires cfg.caches.l1Size > 0
      ensures Valid() && State() == Service(Empty(), warehouse)
      ensures this.engine == engine && this.cfg == cfg
    {
      this.engine, this.cfg, this.warehouse := engine, cfg, warehouse;
      var l2 := new QueryResultCache(engine.like);
      coordinator := new QueryCacheCoordinator(l2, cfg.caches);
    }

    method Run(q: Request) returns (r: Response)
      requires Valid()
      modifies this, coordinator, coordinator.l1.lru, coordinator.l1.ttl, coordinator.l2
      ensures Valid()
      ensures State() == ServeState(cfg, engine, old(State()), q)
      ensures r == ServeResponse(cfg, engine, old(State()), q)
    {
      var isWrite := engine.isWrite(q.key.sql);
      if isWrite && cfg.requireWriteScope && !q.hasWriteScope {
        return Unauthorized;
      }
      var executed := if q.engineUp then Some(engine.answer(q.key, warehouse)) else None;
      if isWrite {
        if executed.None? {
          return Raised;
        }
        warehouse := engine.effect(q.key, warehouse);
        InvalidateAfterWrite(q.key.sql);
        return Outcome(executed.value, false, false);
      }
      var tables := engine.tablesOf(q.key.sql);
      var result := coordinator.GetOrExecute(q.key, tables, Circumstances(q.now, executed, q.persisted, q.accessRecorded, q.userId));
      if result.None? {
        return Raised;
      }
      var data, truncated := ApplyResultLimits(result.value.data, cfg.results);
      return Outcome(data, result.value.source != Fresh, truncated);
    }

    method InvalidateAfterWrite(sql: string)
      requires Valid()
      modifies coordinator, coordinator.l1.lru, coordinator.l1.ttl, coordinator.l2
      ensures Valid()
      ensures coordinator.State() == Invalidated(cfg, engine, old(coordinator.State()), sql)
    {
      if cfg.precise {
        var narrowed := coordinator.InvalidateTables(engine.tablesOf(sql));
        if narrowed {
          return;
        }
      }
      coordinator.ClearAll();
    }
  }
}
