/** Validated API keys (`core/auth/api_key_service.py`): a cache of recent successes in
    front of the `api_keys` table, filled by validations that may be in flight while a
    key is revoked or deleted. */
module ApiKeyCache {
  import opened Wrappers

  type Hash = string
  type KeyId = string
  type Owner = string

  const TTL := 30.0

  datatype Info = Info(keyId: KeyId, owner: Owner, createdAt: int, expiresAt: Option<int>, scopes: Option<string>)

  datatype Row = Row(hash: Hash, info: Info, active: bool)

  datatype Entry = Entry(info: Info, expires: real)

  /** A validation that missed: when it began on both clocks, and what the table has told
      it so far. */
  datatype Flight = Flight(hash: Hash, started: real, wall: int, answer: Option<Option<Info>>)

  datatype World = World(table: map<KeyId, Row>, cache: map<Hash, Entry>, flights: map<nat, Flight>, next: nat)

  /** The atomic pieces of the service: `validate_api_key` up to its await (`Begin`), the
      query it awaits (`Read`, with the row fetched), the rest of it (`Settle`), or an
      exception or cancellation instead (`Fail`); the statements of revoke and delete,
      and the eviction that follows them. */
  datatype Op =
    | Begin(hash: Hash, now: real, wall: int)
    | Read(id: nat, found: Option<KeyId>)
    | Settle(id: nat)
    | Fail(id: nat)
    | Insert(keyId: KeyId, row: Row)
    | Revoke(keyId: KeyId, owner: Owner)
    | Delete(keyId: KeyId, owner: Owner)
    | Evict(keyId: KeyId)

  // ---------------------------------------------------------------- one step

  predicate Usable(table: map<KeyId, Row>, h: Hash, k: KeyId) {
    k in table && table[k].hash == h && table[k].active
  }

  /** `found` is a row the query for `h` may return. */
  ghost predicate MayFetch(table: map<KeyId, Row>, h: Hash, found: Option<KeyId>) {
    match found
    case None => forall k :: k in table ==> !Usable(table, h, k)
    case Some(k) => Usable(table, h, k)
  }

  /** Expiry is checked only where it is set and not zero. */
  predicate Expired(info: Info, wall: int) {
    info.expiresAt.Some? && info.expiresAt.value != 0 && info.expiresAt.value < wall
  }

  function Answer(table: map<KeyId, Row>, found: Option<KeyId>, wall: int): Option<Info> {
    if found.Some? && found.value in table && !Expired(table[found.value].info, wall) then Some(table[found.value].info) else None
  }

  predicate Fresh(cache: map<Hash, Entry>, h: Hash, now: real) {
    h in cache && now < cache[h].expires
  }

  function Revoked(table: map<KeyId, Row>, k: KeyId, owner: Owner): map<KeyId, Row> {
    if k in table && table[k].info.owner == owner then table[k := table[k].(active := false)] else table
  }

  function Deleted(table: map<KeyId, Row>, k: KeyId, owner: Owner): map<KeyId, Row> {
    if k in table && table[k].info.owner == owner then table - {k} else table
  }

  function Evicted(cache: map<Hash, Entry>, k: KeyId): map<Hash, Entry> {
    map h | h in cache && cache[h].info.keyId != k :: cache[h]
  }

  function Settled(cache: map<Hash, Entry>, f: Flight): map<Hash, Entry> {
    match f.answer
    case Some(Some(info)) => cache[f.hash := Entry(info, f.started + TTL)]
    case _ => cache
  }

  /** Steps that cannot happen change nothing; so does a second row for a key. */
  ghost function Next(w: World, op: Op): World {
    match op
    case Begin(h, now, wall) =>
      if Fresh(w.cache, h, now) then w
      else World(w.table, w.cache - {h}, w.flights[w.next := Flight(h, now, wall, None)], w.next + 1)
    case Read(id, found) =>
      if id in w.flights && w.flights[id].answer.None? && MayFetch(w.table, w.flights[id].hash, found) then
        w.(flights := w.flights[id := w.flights[id].(answer := Some(Answer(w.table, found, w.flights[id].wall)))])
      else w
    case Settle(id) =>
      if id in w.flights && w.flights[id].answer.Some? then w.(cache := Settled(w.cache, w.flights[id]), flights := w.flights - {id})
      else w
    case Fail(id) => w.(flights := w.flights - {id})
    case Insert(k, row) => if k in w.table || row.info.keyId != k then w else w.(table := w.table[k := row])
    case Revoke(k, owner) => w.(table := Revoked(w.table, k, owner))
    case Delete(k, owner) => w.(table := Deleted(w.table, k, owner))
    case Evict(k) => w.(cache := Evicted(w.cache, k))
  }

  datatype Success = Success(hash: Hash, started: real, info: Info)

  /** The validation that succeeds in this step, if one does. */
  function Accepted(w: World, op: Op): Option<Success> {
    match op
    case Begin(h, now, wall) => if Fresh(w.cache, h, now) then Some(Success(h, now, w.cache[h].info)) else None
    case Settle(id) =>
      if id in w.flights && w.flights[id].answer.Some? && w.flights[id].answer.value.Some? then
        Some(Success(w.flights[id].hash, w.flights[id].started, w.flights[id].answer.value.value))
      else None
    case _ => None
  }

  const INITIAL := World(map[], map[], map[], 0)

  ghost function RunFrom(w: World, ops: seq<Op>): World {
    if ops == [] then w else Next(RunFrom(w, ops[..|ops| - 1]), ops[|ops| - 1])
  }

  ghost function Run(ops: seq<Op>): World { RunFrom(INITIAL, ops) }

  // ---------------------------------------------------------------- every success was read

  /** Step `r` of the run is a query, for a validation of `h` begun at `started`, that
      found a usable, unexpired key and returned `info`. */
  ghost predicate ReadAt(ops: seq<Op>, r: nat, s: Success) {
    && r < |ops| && ops[r].Read?
    && var w := Run(ops[..r]);
       && ops[r].id in w.flights
       && var f := w.flights[ops[r].id];
          && f.hash == s.hash && f.started == s.started
          && (exists k :: Usable(w.table, s.hash, k) && w.table[k].info == s.info)
          && !Expired(s.info, f.wall)
  }

  ghost predicate Backed(ops: seq<Op>, s: Success) { exists r: nat :: ReadAt(ops, r, s) }

  /** What a validation has been told, as a success it may still become. */
  ghost predicate FlightBacked(ops: seq<Op>, f: Flight) {
    f.answer.Some? && f.answer.value.Some? ==> Backed(ops, Success(f.hash, f.started, f.answer.value.value))
  }

  ghost predicate EntryBacked(ops: seq<Op>, h: Hash, e: Entry) {
    Backed(ops, Success(h, e.expires - TTL, e.info))
  }

  ghost predicate AllBacked(ops: seq<Op>, w: World) {
    && (forall h :: h in w.cache ==> EntryBacked(ops, h, w.cache[h]))
    && (forall id :: id in w.flights ==> FlightBacked(ops, w.flights[id]))
  }

  lemma BackedLater(ops: seq<Op>, op: Op, s: Success)
    requires Backed(ops, s)
    ensures Backed(ops + [op], s)
  {
    var r: nat :| ReadAt(ops, r, s);
    assert (ops + [op])[..r] == ops[..r];
    assert ReadAt(ops + [op], r, s);
  }

  lemma ReadBacked(ops: seq<Op>, id: nat, found: Option<KeyId>)
    requires var w := Run(ops); id in w.flights && w.flights[id].answer.None? && MayFetch(w.table, w.flights[id].hash, found)
    ensures var w := Run(ops);
            FlightBacked(ops + [Read(id, found)], w.flights[id].(answer := Some(Answer(w.table, found, w.flights[id].wall))))
  {
    var (f, all) := (Run(ops).flights[id], ops + [Read(id, found)]);
    var got := Answer(Run(ops).table, found, f.wall);
    if got.Some? {
      assert all[..|ops|] == ops;
      assert Usable(Run(ops).table, f.hash, found.value);
      assert ReadAt(all, |ops|, Success(f.hash, f.started, got.value));
    }
  }

  lemma AllBackedLater(ops: seq<Op>, op: Op, w: World)
    requires AllBacked(ops, w)
    ensures AllBacked(ops + [op], w)
  {
    forall h | h in w.cache ensures EntryBacked(ops + [op], h, w.cache[h]) {
      BackedLater(ops, op, Success(h, w.cache[h].expires - TTL, w.cache[h].info));
    }
    forall id | id in w.flights ensures FlightBacked(ops + [op], w.flights[id]) {
      var f := w.flights[id];
      if f.answer.Some? && f.answer.value.Some? {
        BackedLater(ops, op, Success(f.hash, f.started, f.answer.value.value));
      }
    }
  }

  /** Dropping entries and flights, or adding flights that know nothing, is harmless. */
  lemma BackedLess(ops: seq<Op>, v: World, w: World)
    requires AllBacked(ops, v)
    requires forall h :: h in w.cache ==> h in v.cache && w.cache[h] == v.cache[h]
    requires forall id :: id in w.flights ==> (id in v.flights && w.flights[id] == v.flights[id]) || w.flights[id].answer.None?
    ensures AllBacked(ops, w)
  {
    forall h | h in w.cache ensures EntryBacked(ops, h, w.cache[h]) {
      assert EntryBacked(ops, h, v.cache[h]);
    }
    forall id | id in w.flights ensures FlightBacked(ops, w.flights[id]) {
      assert id in v.flights ==> FlightBacked(ops, v.flights[id]);
    }
  }

  lemma BackedSettle(ops: seq<Op>, v: World, id: nat)
    requires AllBacked(ops, v) && id in v.flights && v.flights[id].answer.Some?
    ensures AllBacked(ops, v.(cache := Settled(v.cache, v.flights[id]), flights := v.flights - {id}))
  {
    var (f, cache) := (v.flights[id], Settled(v.cache, v.flights[id]));
    assert FlightBacked(ops, f);
    forall h | h in cache ensures EntryBacked(ops, h, cache[h]) {
      assert h in v.cache ==> EntryBacked(ops, h, v.cache[h]);
    }
  }

  lemma BackedStep(ops: seq<Op>, op: Op)
    requires AllBacked(ops, Run(ops))
    ensures AllBacked(ops + [op], Next(Run(ops), op))
  {
    var (v, w) := (Run(ops), Next(Run(ops), op));
    AllBackedLater(ops, op, v);
    if v != w {
      match op
      case Read(id, found) => ReadBacked(ops, id, found);
      case Settle(id) => BackedSettle(ops + [op], v, id);
      case _ => BackedLess(ops + [op], v, w);
    }
  }

  lemma {:induction false} BackedAlways(ops: seq<Op>)
    ensures AllBacked(ops, Run(ops))
  {
    if ops != [] {
      var (before, op) := (ops[..|ops| - 1], ops[|ops| - 1]);
      BackedAlways(before);
      BackedStep(before, op);
      assert ops == before + [op];
    }
  }

  /** In every interleaving, a validation that succeeds returns what a query found for
      the same hash, made for a validation begun less than 30 seconds before this one. */
  lemma EverySuccessWasRead(ops: seq<Op>, op: Op)
    requires Accepted(Run(ops), op).Some?
    ensures var s := Accepted(Run(ops), op).value;
            exists started :: Backed(ops, Success(s.hash, started, s.info)) && s.started < started + TTL
  {
    BackedAlways(ops);
    var (s, w) := (Accepted(Run(ops), op).value, Run(ops));
    var started := if op.Begin? then w.cache[s.hash].expires - TTL else s.started;
    assert op.Begin? ==> EntryBacked(ops, s.hash, w.cache[s.hash]);
    assert Backed(ops, Success(s.hash, started, s.info));
  }

  /** A validation that succeeds answers the next ones for the same hash until 30 seconds
      after it began, and no longer. */
  lemma CachedForThirty(w: World, id: nat, now: real, wall: int)
    requires Accepted(w, Settle(id)).Some?
    ensures var s := Accepted(w, Settle(id)).value;
            Accepted(Next(w, Settle(id)), Begin(s.hash, now, wall)) == if now < s.started + TTL then Some(s.(started := now)) else None
  {
  }

  /** A live key is accepted: once its query found a usable row of the hash, a validation
      succeeds, with that row's info, if and only if the row has no expiry, or zero, or one
      not before the wall clock the validation read; and with no row found it fails. */
  lemma AcceptedExactly(w: World, id: nat, found: Option<KeyId>)
    requires id in w.flights && w.flights[id].answer.None? && MayFetch(w.table, w.flights[id].hash, found)
    ensures
      var (f, v) := (w.flights[id], Next(w, Read(id, found)));
      match found
      case None => Accepted(v, Settle(id)) == None
      case Some(k) =>
        && k in w.table && w.table[k].hash == f.hash && w.table[k].active
        && var info := w.table[k].info;
           Accepted(v, Settle(id)) ==
             if info.expiresAt.None? || info.expiresAt.value == 0 || f.wall <= info.expiresAt.value then Some(Success(f.hash, f.started, info)) else None
  {
  }

  /** A validation that finds no fresh entry begins a flight that knows nothing, with the
      two clocks it read, and leaves no entry for its hash; a fresh one answers without. */
  lemma BeginExactly(w: World, h: Hash, now: real, wall: int)
    ensures
      var v := Next(w, Begin(h, now, wall));
      if h in w.cache && now < w.cache[h].expires
      then v == w && Accepted(w, Begin(h, now, wall)) == Some(Success(h, now, w.cache[h].info))
      else
        && Accepted(w, Begin(h, now, wall)) == None && v.table == w.table && v.next == w.next + 1
        && v.flights == w.flights[w.next := Flight(h, now, wall, None)]
        && v.cache.Keys == w.cache.Keys - {h} && forall j :: j in v.cache ==> v.cache[j] == w.cache[j]
  {
  }

  /** Only the owner's statements touch a key, and they touch no other; a revoked row stays,
      a deleted one goes. Evicting takes the entries of the key, and those only. */
  lemma WithdrawsExactly(w: World, k: KeyId, owner: Owner, j: KeyId, h: Hash)
    ensures
      var (r, d, v) := (Next(w, Revoke(k, owner)).table, Next(w, Delete(k, owner)).table, Next(w, Evict(k)));
      var hers := j == k && k in w.table && w.table[k].info.owner == owner;
      && (j in r <==> j in w.table) && (j in w.table ==> r[j] == if hers then w.table[j].(active := false) else w.table[j])
      && (j in d <==> j in w.table && !hers) && (j in d ==> d[j] == w.table[j])
      && v.table == w.table && v.flights == w.flights
      && (h in v.cache <==> h in w.cache && w.cache[h].info.keyId != k) && (h in v.cache ==> v.cache[h] == w.cache[h])
  {
  }

  // ---------------------------------------------------------------- revocation

  ghost predicate BeganBy(ops: seq<Op>, t: real) {
    forall j :: 0 <= j < |ops| && ops[j].Begin? ==> ops[j].now <= t
  }

  /** The hash is one key's and no other's. */
  ghost predicate Belongs(ops: seq<Op>, h: Hash, k: KeyId) {
    forall j :: 0 <= j < |ops| && ops[j].Insert? && ops[j].row.hash == h ==> ops[j].keyId == k
  }

  ghost predicate NotIssued(ops: seq<Op>, h: Hash) {
    forall j :: 0 <= j < |ops| && ops[j].Insert? ==> ops[j].row.hash != h
  }

  /** Nothing known dates from after `t`. */
  ghost predicate Known(w: World, t: real) {
    && (forall h :: h in w.cache ==> w.cache[h].expires <= t + TTL)
    && (forall id :: id in w.flights ==> w.flights[id].started <= t)
  }

  lemma {:induction false} KnownAlways(ops: seq<Op>, t: real)
    requires BeganBy(ops, t)
    ensures Known(Run(ops), t)
  {
    if ops != [] {
      KnownAlways(ops[..|ops| - 1], t);
    }
  }

  ghost predicate Bound(w: World, h: Hash, k: KeyId) {
    && (forall i :: i in w.table ==> w.table[i].info.keyId == i && (w.table[i].hash == h ==> i == k))
    && (h in w.cache ==> w.cache[h].info.keyId == k)
    && (forall id :: id in w.flights && w.flights[id].hash == h && w.flights[id].answer.Some? && w.flights[id].answer.value.Some? ==>
          w.flights[id].answer.value.value.keyId == k)
  }

  lemma BoundStep(w: World, op: Op, h: Hash, k: KeyId)
    requires Bound(w, h, k) && (op.Insert? && op.row.hash == h ==> op.keyId == k)
    ensures Bound(Next(w, op), h, k)
  {
  }

  lemma {:induction false} BoundAlways(w: World, ops: seq<Op>, h: Hash, k: KeyId)
    requires Bound(w, h, k) && Belongs(ops, h, k)
    ensures Bound(RunFrom(w, ops), h, k)
  {
    if ops != [] {
      BoundAlways(w, ops[..|ops| - 1], h, k);
      BoundStep(RunFrom(w, ops[..|ops| - 1]), ops[|ops| - 1], h, k);
    }
  }

  ghost predicate Withdrawn(w: World, h: Hash) {
    forall k :: k in w.table ==> !Usable(w.table, h, k)
  }

  predicate HoldsHit(f: Flight, h: Hash) { f.hash == h && f.answer.Some? && f.answer.value.Some? }

  /** The hash is withdrawn, and all that still vouches for it began by `t`. */
  ghost predicate Fading(w: World, h: Hash, t: real) {
    && Withdrawn(w, h)
    && (h in w.cache ==> w.cache[h].expires <= t + TTL)
    && (forall id :: id in w.flights && HoldsHit(w.flights[id], h) ==> w.flights[id].started <= t)
  }

  lemma FadingStep(w: World, op: Op, h: Hash, t: real)
    requires Fading(w, h, t) && (op.Insert? ==> op.row.hash != h)
    ensures Fading(Next(w, op), h, t)
    ensures var s := Accepted(w, op); s.Some? && s.value.hash == h ==> s.value.started < t + TTL
  {
    WithdrawnStep(w, op, h);
  }

  lemma WithdrawnStep(w: World, op: Op, h: Hash)
    requires Withdrawn(w, h) && (op.Insert? ==> op.row.hash != h)
    ensures Withdrawn(Next(w, op), h)
  {
    var v := Next(w, op);
    forall k | k in v.table ensures !Usable(v.table, h, k) {
      assert k in w.table ==> !Usable(w.table, h, k);
    }
  }

  lemma {:induction false} FadingAlways(w: World, ops: seq<Op>, h: Hash, t: real)
    requires Fading(w, h, t) && NotIssued(ops, h)
    ensures Fading(RunFrom(w, ops), h, t)
  {
    if ops != [] {
      FadingAlways(w, ops[..|ops| - 1], h, t);
      FadingStep(RunFrom(w, ops[..|ops| - 1]), ops[|ops| - 1], h, t);
    }
  }

  /** The statement of a revoke or a delete. */
  predicate Withdraws(op: Op, k: KeyId, owner: Owner) {
    op == Revoke(k, owner) || op == Delete(k, owner)
  }

  lemma WithdrawnAfter(ops: seq<Op>, op: Op, h: Hash, k: KeyId, owner: Owner)
    requires Belongs(ops, h, k) && Withdraws(op, k, owner)
    requires k in Run(ops).table ==> Run(ops).table[k].info.owner == owner
    ensures Withdrawn(Next(Run(ops), op), h) && Bound(Next(Run(ops), op), h, k)
  {
    BoundAlways(INITIAL, ops, h, k);
    BoundStep(Run(ops), op, h, k);
  }

  /** Bounded staleness. Whatever is in flight, once the owner's revocation or deletion of
      a key has committed at time `t`, every validation of it that still succeeds began
      before `t + 30`. */
  lemma RevocationBounded(ops: seq<Op>, op: Op, more: seq<Op>, last: Op, h: Hash, k: KeyId, owner: Owner, t: real)
    requires BeganBy(ops, t) && Belongs(ops, h, k) && NotIssued(more + [last], h)
    requires Withdraws(op, k, owner) && (k in Run(ops).table ==> Run(ops).table[k].info.owner == owner)
    ensures var s := Accepted(RunFrom(Next(Run(ops), op), more), last);
            s.Some? && s.value.hash == h ==> s.value.started < t + TTL
  {
    WithdrawnAfter(ops, op, h, k, owner);
    KnownAlways(ops, t);
    assert forall j :: 0 <= j < |more| ==> more[j] == (more + [last])[j];
    assert last == (more + [last])[|more|];
    FadingAlways(Next(Run(ops), op), more, h, t);
    FadingStep(RunFrom(Next(Run(ops), op), more), last, h, t);
  }

  /** Some validation of `h` was told yes and has not finished. */
  ghost predicate Lingering(w: World, h: Hash) {
    exists id :: id in w.flights && HoldsHit(w.flights[id], h)
  }

  /** No continuation in which the hash is not issued again lets it in. */
  ghost predicate Barred(w: World, h: Hash) {
    forall more: seq<Op>, last: Op :: NotIssued(more + [last], h) ==> Rejects(RunFrom(w, more), last, h)
  }

  predicate Rejects(w: World, op: Op, h: Hash) {
    var s := Accepted(w, op); s.None? || s.value.hash != h
  }

  ghost predicate Shut(w: World, h: Hash) { Withdrawn(w, h) && h !in w.cache && !Lingering(w, h) }

  lemma ShutStep(w: World, op: Op, h: Hash)
    requires Shut(w, h) && (op.Insert? ==> op.row.hash != h)
    ensures Shut(Next(w, op), h) && Rejects(w, op, h)
  {
    WithdrawnStep(w, op, h);
    var v := Next(w, op);
    forall id | id in v.flights ensures !HoldsHit(v.flights[id], h) {
      assert id in w.flights ==> !HoldsHit(w.flights[id], h);
    }
  }

  lemma {:induction false} ShutAlways(w: World, ops: seq<Op>, h: Hash)
    requires Shut(w, h) && NotIssued(ops, h)
    ensures Shut(RunFrom(w, ops), h)
  {
    if ops != [] {
      ShutAlways(w, ops[..|ops| - 1], h);
      ShutStep(RunFrom(w, ops[..|ops| - 1]), ops[|ops| - 1], h);
    }
  }

  /** From the eviction on nothing succeeds any more, not even what is in flight, exactly
      when no validation that was told yes is in flight at that moment. */
  lemma SilenceExactly(ops: seq<Op>, op: Op, between: seq<Op>, h: Hash, k: KeyId, owner: Owner)
    requires Belongs(ops, h, k) && NotIssued(between, h)
    requires Withdraws(op, k, owner) && (k in Run(ops).table ==> Run(ops).table[k].info.owner == owner)
    ensures var w := Next(RunFrom(Next(Run(ops), op), between), Evict(k));
            Barred(w, h) <==> !Lingering(w, h)
  {
    var committed := Next(Run(ops), op);
    var v := RunFrom(committed, between);
    var w := Next(v, Evict(k));
    WithdrawnAfter(ops, op, h, k, owner);
    BoundAlways(committed, between, h, k);
    WithdrawnAlways(committed, between, h);
    if Lingering(w, h) {
      var id :| id in w.flights && HoldsHit(w.flights[id], h);
      assert RunFrom(w, []) == w && NotIssued([] + [Settle(id)], h) && !Rejects(RunFrom(w, []), Settle(id), h);
    } else {
      forall more: seq<Op>, last: Op | NotIssued(more + [last], h) ensures Rejects(RunFrom(w, more), last, h) {
        assert forall j :: 0 <= j < |more| ==> more[j] == (more + [last])[j];
        assert last == (more + [last])[|more|];
        ShutAlways(w, more, h);
        ShutStep(RunFrom(w, more), last, h);
      }
    }
  }

  lemma {:induction false} WithdrawnAlways(w: World, ops: seq<Op>, h: Hash)
    requires Withdrawn(w, h) && NotIssued(ops, h)
    ensures Withdrawn(RunFrom(w, ops), h)
  {
    if ops != [] {
      WithdrawnAlways(w, ops[..|ops| - 1], h);
      WithdrawnStep(RunFrom(w, ops[..|ops| - 1]), ops[|ops| - 1], h);
    }
  }

  /** A validation told yes is in flight whose entry would outlive time `t`. */
  ghost predicate Outlives(w: World, h: Hash, t: real) {
    exists id :: id in w.flights && HoldsHit(w.flights[id], h) && t < w.flights[id].started + TTL
  }

  ghost predicate BeginsFrom(ops: seq<Op>, t: real) {
    forall j :: 0 <= j < |ops| && ops[j].Begin? ==> t <= ops[j].now
  }

  /** A validation of `h` succeeds in this step, numbered from `n` or never in flight. */
  predicate AdmitsNew(w: World, op: Op, h: Hash, n: nat) {
    !Rejects(w, op, h) && (op.Settle? ==> op.id >= n)
  }

  /** No validation of `h` that begins from `w` on, at `t` or later, succeeds. */
  ghost predicate Shuns(w: World, h: Hash, t: real) {
    forall more: seq<Op>, last: Op :: NotIssued(more + [last], h) && BeginsFrom(more + [last], t) ==>
      !AdmitsNew(RunFrom(w, more), last, h, w.next)
  }

  ghost predicate Numbered(w: World) { forall id :: id in w.flights ==> id < w.next }

  lemma {:induction false} NumberedAlways(w: World, ops: seq<Op>)
    requires Numbered(w)
    ensures Numbered(RunFrom(w, ops))
  {
    if ops != [] {
      NumberedAlways(w, ops[..|ops| - 1]);
    }
  }

  /** The hash is withdrawn, and whatever still vouches for it began before number `n`
      and is worth nothing from `t` on. */
  ghost predicate Spent(w: World, h: Hash, t: real, n: nat) {
    && Withdrawn(w, h) && n <= w.next
    && (h in w.cache ==> w.cache[h].expires <= t)
    && (forall id :: id in w.flights && HoldsHit(w.flights[id], h) ==> id < n && w.flights[id].started + TTL <= t)
  }

  lemma SpentStep(w: World, op: Op, h: Hash, t: real, n: nat)
    requires Spent(w, h, t, n) && (op.Insert? ==> op.row.hash != h) && (op.Begin? ==> t <= op.now)
    ensures Spent(Next(w, op), h, t, n) && !AdmitsNew(w, op, h, n)
  {
    WithdrawnStep(w, op, h);
  }

  lemma {:induction false} SpentAlways(w: World, ops: seq<Op>, h: Hash, t: real, n: nat)
    requires Spent(w, h, t, n) && NotIssued(ops, h) && BeginsFrom(ops, t)
    ensures Spent(RunFrom(w, ops), h, t, n)
  {
    if ops != [] {
      SpentAlways(w, ops[..|ops| - 1], h, t, n);
      SpentStep(RunFrom(w, ops[..|ops| - 1]), ops[|ops| - 1], h, t, n);
    }
  }

  lemma SpentShuns(w: World, h: Hash, t: real)
    requires Spent(w, h, t, w.next)
    ensures Shuns(w, h, t)
  {
    forall more: seq<Op>, last: Op | NotIssued(more + [last], h) && BeginsFrom(more + [last], t)
      ensures !AdmitsNew(RunFrom(w, more), last, h, w.next)
    {
      assert forall j :: 0 <= j < |more| ==> more[j] == (more + [last])[j];
      assert last == (more + [last])[|more|];
      SpentAlways(w, more, h, t, w.next);
      SpentStep(RunFrom(w, more), last, h, t, w.next);
    }
  }

  /** The validation finishes, and the next one finds its entry. */
  lemma OutlivesAdmits(w: World, h: Hash, t: real)
    requires Outlives(w, h, t)
    ensures !Shuns(w, h, t)
  {
    var id :| id in w.flights && HoldsHit(w.flights[id], h) && t < w.flights[id].started + TTL;
    var (more, last) := ([Settle(id)], Begin(h, t, 0));
    assert more[..0] == [] && RunFrom(w, []) == w && RunFrom(w, more) == Next(w, Settle(id));
    assert NotIssued(more + [last], h) && BeginsFrom(more + [last], t);
    assert AdmitsNew(RunFrom(w, more), last, h, w.next);
  }

  /** Rejection is immediate, for validations that begin after the eviction at time `t`,
      exactly when no validation that was told yes and began in the 30 seconds before is
      in flight at that moment. */
  lemma ImmediateExactly(ops: seq<Op>, op: Op, between: seq<Op>, h: Hash, k: KeyId, owner: Owner, t: real)
    requires Belongs(ops, h, k) && NotIssued(between, h)
    requires Withdraws(op, k, owner) && (k in Run(ops).table ==> Run(ops).table[k].info.owner == owner)
    ensures var w := Next(RunFrom(Next(Run(ops), op), between), Evict(k));
            Shuns(w, h, t) <==> !Outlives(w, h, t)
  {
    var committed := Next(Run(ops), op);
    var v := RunFrom(committed, between);
    var w := Next(v, Evict(k));
    WithdrawnAfter(ops, op, h, k, owner);
    BoundAlways(committed, between, h, k);
    WithdrawnAlways(committed, between, h);
    NumberedAlways(INITIAL, ops);
    NumberedAlways(committed, between);
    if Outlives(w, h, t) {
      OutlivesAdmits(w, h, t);
    } else {
      SpentShuns(w, h, t);
    }
  }

  /** The condition can fail: a validation told yes before the revocation finishes after
      the eviction and puts the key back in the cache. */
  lemma OneLingers(row: Row, owner: Owner)
    requires row.active && row.info.owner == owner && !Expired(row.info, 0)
    ensures var (k, h) := (row.info.keyId, row.hash);
            var w := Run([Insert(k, row), Begin(h, 0.0, 0), Read(0, Some(k)), Revoke(k, owner), Evict(k)]);
            Lingering(w, h) && Accepted(w, Settle(0)).Some? && Accepted(Next(w, Settle(0)), Begin(h, 29.0, 29)).Some?
  {
    var (k, h) := (row.info.keyId, row.hash);
    var ops := [Insert(k, row), Begin(h, 0.0, 0), Read(0, Some(k)), Revoke(k, owner), Evict(k)];
    var w1 := Next(INITIAL, ops[0]);
    var w2 := Next(w1, ops[1]);
    assert Usable(w2.table, h, k);
    var w3 := Next(w2, ops[2]);
    assert RunFrom(INITIAL, []) == INITIAL;
    assert ops[..1] == [] + [ops[0]] && Run(ops[..1]) == w1;
    assert ops[..2] == ops[..1] + [ops[1]] && Run(ops[..2]) == w2;
    assert ops[..3] == ops[..2] + [ops[2]] && Run(ops[..3]) == w3;
    assert ops[..4] == ops[..3] + [ops[3]] && Run(ops[..4]) == Next(w3, ops[3]);
    assert ops[..5] == ops && ops[..4] == ops[..5][..4] && Run(ops) == Next(Next(w3, ops[3]), ops[4]);
    assert HoldsHit(Run(ops).flights[0], h);
  }

  // ---------------------------------------------------------------- expiry

  /** Both clocks run together: the wall clock, cut to whole seconds, is `offset` ahead. */
  ghost predicate InStep(ops: seq<Op>, offset: real) {
    forall j :: 0 <= j < |ops| && ops[j].Begin? ==> ops[j].wall as real > ops[j].now + offset - 1.0
  }

  ghost predicate Due(info: Info, started: real, offset: real) {
    info.expiresAt.Some? && info.expiresAt.value != 0 ==> info.expiresAt.value as real > started + offset - 1.0
  }

  ghost predicate InTime(w: World, offset: real) {
    && (forall h :: h in w.cache ==> Due(w.cache[h].info, w.cache[h].expires - TTL, offset))
    && (forall id :: id in w.flights ==> FlightInTime(w.flights[id], offset))
  }

  ghost predicate FlightInTime(f: Flight, offset: real) {
    && f.wall as real > f.started + offset - 1.0
    && (f.answer.Some? && f.answer.value.Some? ==> Due(f.answer.value.value, f.started, offset))
  }

  lemma {:induction false} InTimeAlways(ops: seq<Op>, offset: real)
    requires InStep(ops, offset)
    ensures InTime(Run(ops), offset)
  {
    if ops != [] {
      InTimeAlways(ops[..|ops| - 1], offset);
      var (v, w) := (Run(ops[..|ops| - 1]), Run(ops));
      forall id | id in w.flights ensures FlightInTime(w.flights[id], offset) {
        assert id in v.flights ==> FlightInTime(v.flights[id], offset);
      }
    }
  }

  /** A key stops working at most 30 seconds after the second in which it expires. */
  lemma ExpiryBounded(ops: seq<Op>, op: Op, offset: real)
    requires InStep(ops, offset) && Accepted(Run(ops), op).Some?
    ensures var s := Accepted(Run(ops), op).value;
            s.info.expiresAt.Some? && s.info.expiresAt.value != 0 ==> s.started + offset < s.info.expiresAt.value as real + 1.0 + TTL
  {
    InTimeAlways(ops, offset);
    if op.Settle? {
      assert FlightInTime(Run(ops).flights[op.id], offset);
    }
  }

  // ---------------------------------------------------------------- the service

  /** The service's cache; `world` puts it beside the table and the validations in flight. */
  class APIKeyService {
    var validationCache: map<Hash, Entry>
    ghost var world: World

    ghost predicate Valid() reads this { world.cache == validationCache }

    constructor ()
      ensures Valid() && world == INITIAL
    {
      validationCache := map[];
      world := INITIAL;
    }

    /** `validate_api_key` up to its await: a fresh entry answers, a stale one goes. */
    method BeginValidation(h: Hash, now: real, wall: int) returns (hit: Option<Info>)
      requires Valid()
      modifies this
      ensures Valid() && world == Next(old(world), Begin(h, now, wall))
      ensures var s := Accepted(old(world), Begin(h, now, wall));
              hit == if s.Some? then Some(s.value.info) else None
    {
      ghost var was := world;
      world := Next(world, Begin(h, now, wall));
      if h in validationCache {
        var entry := validationCache[h];
        if now < entry.expires {
          return Some(entry.info);
        }
        validationCache := validationCache - {h};
      }
      assert validationCache == was.cache - {h};
      return None;
    }

    /** What `validate_api_key` does with the answer of the table. */
    method SettleValidation(ghost id: nat, h: Hash, started: real, answer: Option<Info>) returns (r: Option<Info>)
      requires Valid() && id in world.flights
      requires var f := world.flights[id]; f.hash == h && f.started == started && f.answer == Some(answer)
      modifies this
      ensures Valid() && world == Next(old(world), Settle(id))
      ensures var s := Accepted(old(world), Settle(id));
              r == if s.Some? then Some(s.value.info) else None
    {
      world := Next(world, Settle(id));
      if answer.None? {
        return None;
      }
      validationCache := validationCache[h := Entry(answer.value, started + TTL)];
      return answer;
    }

    /** `revoke_api_key` and `delete_api_key` once their statement has run (`committed`) or
        failed: the cached entries of the key go. */
    method AfterWithdrawal(k: KeyId, committed: bool) returns (result: bool)
      requires Valid()
      modifies this
      ensures Valid() && result == committed && world == if committed then Next(old(world), Evict(k)) else old(world)
    {
      if committed {
        EvictByKeyId(k);
      }
      return committed;
    }

    method EvictByKeyId(k: KeyId)
      requires Valid()
      modifies this
      ensures Valid() && world == Next(old(world), Evict(k))
    {
      ghost var cache := validationCache;
      var stale := set h | h in validationCache && validationCache[h].info.keyId == k;
      while stale != {}
        invariant validationCache.Keys <= cache.Keys && forall h :: h in validationCache ==> validationCache[h] == cache[h]
        invariant forall h :: h in stale ==> h in validationCache && cache[h].info.keyId == k
        invariant forall h :: h in cache && h !in validationCache ==> cache[h].info.keyId == k
        invariant forall h :: h in validationCache && cache[h].info.keyId == k ==> h in stale
        invariant world == old(world)
        decreases |stale|
      {
        var h :| h in stale;
        validationCache := validationCache - {h};
        stale := stale - {h};
      }
      world := Next(world, Evict(k));
      assert validationCache == Evicted(cache, k);
    }
  }
}
