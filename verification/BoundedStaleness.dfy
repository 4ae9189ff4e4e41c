/** How stale a cached answer can be when nothing is atomic: an execution, the filling of
    the first level, the persistence job, a fetch from the second level, writes and
    invalidations are steps of their own, in any interleaving, and invalidation may miss
    what is under way. Nothing is assumed of the engine. */
module BoundedStaleness {
  import opened Wrappers
  import opened LruCache
  import opened ResultCache
  import opened CacheCoordinator
  import opened QueryServing

  /** Rows on their way to the first level, and when they were got; `stored` says that
      they came from the second level. */
  datatype Flight = Flight(key: Key, data: Rows, got: real, stored: bool)

  datatype Job = Job(key: Key, data: Rows, executed: real)

  datatype World = World(l1: Lru<Key, Rows>, l2: Table2, warehouse: Warehouse, flights: map<nat, Flight>, jobs: map<nat, Job>)

  /** The caches' settings, and the longest times from getting rows to filling the first
      level with them, and from executing to persisting. */
  datatype Bounds = Bounds(l1Size: nat, l1Ttl: real, fillDelay: real, persistDelay: real)

  datatype Event =
    | Execute(id: nat, key: Key, now: real)
    | FetchStored(id: nat, key: Key, now: real)
    | Fill(id: nat, now: real)
    | Persist(id: nat, userId: string, now: real)
    | LoseJob(id: nat, now: real)
    | Look(key: Key, now: real)
    | Access(key: Key, now: real)
    | Change(write: Key, now: real)
    | Forget(fromL1: set<Key>, fromL2: set<Key>, now: real)

  function Filled(b: Bounds, w: World, id: nat, now: real): World
    requires b.l1Size > 0 && id in w.flights
  {
    var f := w.flights[id];
    w.(l1 := AfterPut(w.l1, b.l1Size, f.key, NewEntry(f.data, Some(b.l1Ttl), now)), flights := w.flights - {id},
       jobs := if f.stored || f.data == [] then w.jobs else w.jobs[id := Job(f.key, f.data, f.got)])
  }

  function Persisted(w: World, id: nat, userId: string, now: real): World
    requires id in w.jobs
  {
    w.(l2 := Store(w.l2, w.jobs[id].key, w.jobs[id].data, userId, DEFAULT_TTL_SECONDS, Seconds(now)), jobs := w.jobs - {id})
  }

  function AfterEvent(b: Bounds, e: Engine, w: World, event: Event): World
    requires b.l1Size > 0
  {
    match event
    case Execute(id, k, now) => w.(flights := w.flights[id := Flight(k, e.answer(k, w.warehouse), now, false)])
    case FetchStored(id, k, now) =>
      (match Fetch(w.l2, k, Seconds(now))
       case None => w
       case Some(data) => w.(flights := w.flights[id := Flight(k, data, now, true)]))
    case Fill(id, now) => if id in w.flights then Filled(b, w, id, now) else w
    case Persist(id, user, now) => if id in w.jobs then Persisted(w, id, user, now) else w
    case LoseJob(id, _) => w.(jobs := w.jobs - {id})
    case Look(k, now) => w.(l1 := AfterGet(w.l1, k, now))
    case Access(k, now) => w.(l2 := Touch(w.l2, k, Seconds(now)))
    case Change(k, _) => w.(warehouse := e.effect(k, w.warehouse))
    case Forget(a, r, _) => w.(l1 := w.l1.(order := Keep(w.l1.order, Keys(w.l1.order) - a)), l2 := w.l2 - r)
  }

  function AfterEvents(b: Bounds, e: Engine, w: Warehouse, events: seq<Event>): World
    requires b.l1Size > 0
  {
    if events == [] then World(Lru([], 0, 0), map[], w, map[], map[])
    else AfterEvent(b, e, AfterEvents(b, e, w, events[..|events| - 1]), events[|events| - 1])
  }

  /** Fills and persistence jobs keep to their delays. */
  predicate Prompt(b: Bounds, w: World, event: Event) {
    match event
    case Fill(id, now) => id in w.flights ==> now <= w.flights[id].got + b.fillDelay
    case Persist(id, _, now) => id in w.jobs ==> now <= w.jobs[id].executed + b.persistDelay
    case _ => true
  }

  ghost predicate PromptRun(b: Bounds, e: Engine, w: Warehouse, events: seq<Event>)
    requires b.l1Size > 0
  {
    forall i :: 0 <= i < |events| ==> Prompt(b, AfterEvents(b, e, w, events[..i]), events[i])
  }

  // ---------------------------------------------------------------- when an answer was true

  /** At step `i`, at `since` or later, the warehouse would have answered `k` so. */
  ghost predicate TrueAt(b: Bounds, e: Engine, w: Warehouse, events: seq<Event>, k: Key, data: Rows, since: real, i: nat)
    requires b.l1Size > 0
  {
    i < |events| && events[i].now >= since && e.answer(k, AfterEvents(b, e, w, events[..i]).warehouse) == data
  }

  ghost predicate WasTrue(b: Bounds, e: Engine, w: Warehouse, events: seq<Event>, k: Key, data: Rows, since: real)
    requires b.l1Size > 0
  {
    exists i: nat :: TrueAt(b, e, w, events, k, data, since, i)
  }

  lemma WasTrueSooner(b: Bounds, e: Engine, w: Warehouse, events: seq<Event>, k: Key, data: Rows, since: real, before: real)
    requires b.l1Size > 0 && WasTrue(b, e, w, events, k, data, since) && before <= since
    ensures WasTrue(b, e, w, events, k, data, before)
  {
    var i: nat :| TrueAt(b, e, w, events, k, data, since, i);
    assert TrueAt(b, e, w, events, k, data, before, i);
  }

  // ---------------------------------------------------------------- the ages of what is held

  const HOUR: real := DEFAULT_TTL_SECONDS as real

  /** How old rows can be when they are got. */
  function GotAge(b: Bounds, f: Flight): real { if f.stored then HOUR + b.persistDelay else 0.0 }

  ghost predicate EntryAged(b: Bounds, e: Engine, w: Warehouse, events: seq<Event>, x: Slot<Key, Rows>)
    requires b.l1Size > 0
  {
    && x.entry.ttl == Some(b.l1Ttl)
    && WasTrue(b, e, w, events, x.key, x.entry.value, x.entry.createdAt - b.fillDelay - HOUR - b.persistDelay)
  }

  ghost predicate RowAged(b: Bounds, e: Engine, w: Warehouse, events: seq<Event>, k: Key, r: CachedRow)
    requires b.l1Size > 0
  {
    && r.expiresAt == Some(r.createdAt + DEFAULT_TTL_SECONDS)
    && WasTrue(b, e, w, events, k, r.data, r.createdAt as real - b.persistDelay)
  }

  ghost predicate FlightAged(b: Bounds, e: Engine, w: Warehouse, events: seq<Event>, f: Flight)
    requires b.l1Size > 0
  {
    WasTrue(b, e, w, events, f.key, f.data, f.got - GotAge(b, f))
  }

  ghost predicate JobAged(b: Bounds, e: Engine, w: Warehouse, events: seq<Event>, j: Job)
    requires b.l1Size > 0
  {
    WasTrue(b, e, w, events, j.key, j.data, j.executed)
  }

  ghost predicate Aged(b: Bounds, e: Engine, w: Warehouse, events: seq<Event>, s: World)
    requires b.l1Size > 0
  {
    && (forall x :: x in s.l1.order ==> EntryAged(b, e, w, events, x))
    && (forall k :: k in s.l2 ==> RowAged(b, e, w, events, k, s.l2[k]))
    && (forall id :: id in s.flights ==> FlightAged(b, e, w, events, s.flights[id]))
    && (forall id :: id in s.jobs ==> JobAged(b, e, w, events, s.jobs[id]))
  }

  /** What has been dropped does not matter, nor what the warehouse holds. */
  lemma AgedLess(b: Bounds, e: Engine, w: Warehouse, events: seq<Event>, s: World, t: World)
    requires b.l1Size > 0 && Aged(b, e, w, events, s)
    requires (forall x :: x in t.l1.order ==> x in s.l1.order) && (forall k :: k in t.l2 ==> k in s.l2 && t.l2[k] == s.l2[k])
    requires t.flights == s.flights && forall id :: id in t.jobs ==> id in s.jobs && t.jobs[id] == s.jobs[id]
    ensures Aged(b, e, w, events, t)
  {
  }

  /** A row fetched in time was stored less than an hour before. */
  lemma FetchedAge(b: Bounds, e: Engine, w: Warehouse, events: seq<Event>, s: World, k: Key, now: real)
    requires b.l1Size > 0 && Aged(b, e, w, events, s) && Fetch(s.l2, k, Seconds(now)).Some?
    ensures WasTrue(b, e, w, events, k, Fetch(s.l2, k, Seconds(now)).value, now - HOUR - b.persistDelay)
  {
    var r := s.l2[k];
    assert RowAged(b, e, w, events, k, r);
    assert now < (Seconds(now) + 1) as real <= (r.createdAt + DEFAULT_TTL_SECONDS) as real;
    WasTrueSooner(b, e, w, events, k, r.data, r.createdAt as real - b.persistDelay, now - HOUR - b.persistDelay);
  }

  lemma FilledAged(b: Bounds, e: Engine, w: Warehouse, events: seq<Event>, s: World, id: nat, now: real)
    requires b.l1Size > 0 && b.persistDelay >= 0.0 && Aged(b, e, w, events, s) && id in s.flights && Prompt(b, s, Fill(id, now))
    ensures Aged(b, e, w, events, Filled(b, s, id, now))
  {
    var f := s.flights[id];
    var since := now - b.fillDelay - HOUR - b.persistDelay;
    assert FlightAged(b, e, w, events, f);
    WasTrueSooner(b, e, w, events, f.key, f.data, f.got - GotAge(b, f), since);
    PutAged(b, e, w, events, s, f.key, f.data, now);
  }

  lemma PutAged(b: Bounds, e: Engine, w: Warehouse, events: seq<Event>, s: World, k: Key, data: Rows, now: real)
    requires b.l1Size > 0 && Aged(b, e, w, events, s)
    requires WasTrue(b, e, w, events, k, data, now - b.fillDelay - HOUR - b.persistDelay)
    ensures forall x :: x in AfterPut(s.l1, b.l1Size, k, NewEntry(data, Some(b.l1Ttl), now)).order ==> EntryAged(b, e, w, events, x)
  {
    forall x | x in AfterPut(s.l1, b.l1Size, k, NewEntry(data, Some(b.l1Ttl), now)).order ensures EntryAged(b, e, w, events, x) {
      StepOrigin(b.l1Size, s.l1, Put(k, data, Some(b.l1Ttl), now), x);
      AgedAlike(b, e, w, events, s, x);
    }
  }

  /** An entry with the content of one of `s` is as old as that one. */
  lemma AgedAlike(b: Bounds, e: Engine, w: Warehouse, events: seq<Event>, s: World, x: Slot<Key, Rows>)
    requires b.l1Size > 0 && Aged(b, e, w, events, s)
    ensures (exists y :: y in s.l1.order && y.key == x.key && SameContent(y.entry, x.entry)) ==> EntryAged(b, e, w, events, x)
  {
    if y :| y in s.l1.order && y.key == x.key && SameContent(y.entry, x.entry) {
      assert EntryAged(b, e, w, events, y);
    }
  }

  lemma LookedAged(b: Bounds, e: Engine, w: Warehouse, events: seq<Event>, s: World, k: Key, now: real)
    requires b.l1Size > 0 && Aged(b, e, w, events, s)
    ensures Aged(b, e, w, events, s.(l1 := AfterGet(s.l1, k, now)))
  {
    forall x | x in AfterGet(s.l1, k, now).order ensures EntryAged(b, e, w, events, x) {
      StepOrigin(b.l1Size, s.l1, Get(k, now), x);
      AgedAlike(b, e, w, events, s, x);
    }
  }

  lemma PersistedAged(b: Bounds, e: Engine, w: Warehouse, events: seq<Event>, s: World, id: nat, user: string, now: real)
    requires b.l1Size > 0 && Aged(b, e, w, events, s) && id in s.jobs && Prompt(b, s, Persist(id, user, now))
    ensures Aged(b, e, w, events, Persisted(s, id, user, now))
  {
    var (j, t) := (s.jobs[id], Persisted(s, id, user, now));
    assert JobAged(b, e, w, events, j);
    WasTrueSooner(b, e, w, events, j.key, j.data, j.executed, Seconds(now) as real - b.persistDelay);
    forall k | k in t.l2 ensures RowAged(b, e, w, events, k, t.l2[k]) {
      assert k != j.key ==> RowAged(b, e, w, events, k, s.l2[k]);
    }
  }

  lemma GotAged(b: Bounds, e: Engine, w: Warehouse, events: seq<Event>, s: World, id: nat, f: Flight)
    requires b.l1Size > 0 && Aged(b, e, w, events, s) && FlightAged(b, e, w, events, f)
    ensures Aged(b, e, w, events, s.(flights := s.flights[id := f]))
  {
  }

  lemma AgedStep(b: Bounds, e: Engine, w: Warehouse, events: seq<Event>, s: World, event: Event)
    requires b.l1Size > 0 && b.persistDelay >= 0.0 && Aged(b, e, w, events, s) && Prompt(b, s, event)
    requires event.Execute? ==> FlightAged(b, e, w, events, Flight(event.key, e.answer(event.key, s.warehouse), event.now, false))
    ensures Aged(b, e, w, events, AfterEvent(b, e, s, event))
  {
    match event
    case Execute(id, k, now) => GotAged(b, e, w, events, s, id, Flight(k, e.answer(k, s.warehouse), now, false));
    case FetchStored(id, k, now) => StoredAged(b, e, w, events, s, id, k, now);
    case Fill(id, now) => if id in s.flights { FilledAged(b, e, w, events, s, id, now); }
    case Persist(id, user, now) => if id in s.jobs { PersistedAged(b, e, w, events, s, id, user, now); }
    case LoseJob(_, _) => AgedLess(b, e, w, events, s, AfterEvent(b, e, s, event));
    case Look(k, now) => LookedAged(b, e, w, events, s, k, now);
    case Access(k, now) => TouchedAged(b, e, w, events, s, k, Seconds(now));
    case Change(_, _) => AgedLess(b, e, w, events, s, AfterEvent(b, e, s, event));
    case Forget(a, _, _) =>
      KeepElements(s.l1.order, Keys(s.l1.order) - a);
      AgedLess(b, e, w, events, s, AfterEvent(b, e, s, event));
  }

  lemma StoredAged(b: Bounds, e: Engine, w: Warehouse, events: seq<Event>, s: World, id: nat, k: Key, now: real)
    requires b.l1Size > 0 && Aged(b, e, w, events, s)
    ensures Aged(b, e, w, events, AfterEvent(b, e, s, FetchStored(id, k, now)))
  {
    if Fetch(s.l2, k, Seconds(now)).Some? {
      FetchedAge(b, e, w, events, s, k, now);
      GotAged(b, e, w, events, s, id, Flight(k, Fetch(s.l2, k, Seconds(now)).value, now, true));
    }
  }

  lemma TouchedAged(b: Bounds, e: Engine, w: Warehouse, events: seq<Event>, s: World, k: Key, now: int)
    requires b.l1Size > 0 && Aged(b, e, w, events, s)
    ensures Aged(b, e, w, events, s.(l2 := Touch(s.l2, k, now)))
  {
    var t := Touch(s.l2, k, now);
    forall j | j in t ensures RowAged(b, e, w, events, j, t[j]) {
      assert RowAged(b, e, w, events, j, s.l2[j]);
    }
  }

  /** After any `n` of the events, everything held is as old as it may be. */
  lemma {:induction false} AgedAlways(b: Bounds, e: Engine, w: Warehouse, events: seq<Event>, n: nat)
    requires b.l1Size > 0 && b.persistDelay >= 0.0 && PromptRun(b, e, w, events) && n <= |events|
    ensures Aged(b, e, w, events, AfterEvents(b, e, w, events[..n]))
  {
    if n > 0 {
      var (s, event) := (AfterEvents(b, e, w, events[..n - 1]), events[n - 1]);
      AgedAlways(b, e, w, events, n - 1);
      if event.Execute? {
        assert TrueAt(b, e, w, events, event.key, e.answer(event.key, s.warehouse), event.now, n - 1);
      }
      AgedStep(b, e, w, events, s, event);
      assert events[..n][..n - 1] == events[..n - 1];
    }
  }

  lemma HitAge(b: Bounds, e: Engine, w: Warehouse, events: seq<Event>, s: World, k: Key, now: real)
    requires b.l1Size > 0 && Aged(b, e, w, events, s) && GetResult(s.l1, k, now).Some?
    ensures WasTrue(b, e, w, events, k, GetResult(s.l1, k, now).value, now - (b.l1Ttl + b.fillDelay + HOUR + b.persistDelay))
  {
    LookupIn(s.l1.order, k);
    var entry := LruCache.Lookup(s.l1.order, k).value;
    assert EntryAged(b, e, w, events, Slot(k, entry));
    WasTrueSooner(b, e, w, events, k, entry.value, entry.createdAt - b.fillDelay - HOUR - b.persistDelay,
                  now - (b.l1Ttl + b.fillDelay + HOUR + b.persistDelay));
  }

  lemma FlightAge(b: Bounds, e: Engine, w: Warehouse, events: seq<Event>, s: World, id: nat, now: real)
    requires b.l1Size > 0 && b.persistDelay >= 0.0 && Aged(b, e, w, events, s)
    requires id in s.flights && now <= s.flights[id].got + b.fillDelay
    ensures WasTrue(b, e, w, events, s.flights[id].key, s.flights[id].data, now - (b.fillDelay + HOUR + b.persistDelay))
  {
    var f := s.flights[id];
    assert FlightAged(b, e, w, events, f);
    WasTrueSooner(b, e, w, events, f.key, f.data, f.got - GotAge(b, f), now - (b.fillDelay + HOUR + b.persistDelay));
  }

  /** Bounded staleness. In every interleaving in which fills and persistence jobs keep to
      their delays, what the first level answers is what the warehouse would have answered
      at some moment no further back than both times to live and both delays; and rows on
      their way, or answered from the second level, no further back than that less the
      first level's share. */
  lemma StalenessBounded(b: Bounds, e: Engine, w: Warehouse, events: seq<Event>, k: Key, now: real, id: nat)
    requires b.l1Size > 0 && b.persistDelay >= 0.0 && PromptRun(b, e, w, events)
    ensures var hit := GetResult(AfterEvents(b, e, w, events).l1, k, now);
            hit.Some? ==> WasTrue(b, e, w, events, k, hit.value, now - (b.l1Ttl + b.fillDelay + HOUR + b.persistDelay))
    ensures var f := AfterEvents(b, e, w, events).flights;
            id in f && now <= f[id].got + b.fillDelay ==>
              WasTrue(b, e, w, events, f[id].key, f[id].data, now - (b.fillDelay + HOUR + b.persistDelay))
  {
    AgedAlways(b, e, w, events, |events|);
    assert events[..|events|] == events;
    var s := AfterEvents(b, e, w, events);
    if GetResult(s.l1, k, now).Some? {
      HitAge(b, e, w, events, s, k, now);
    }
    if id in s.flights && now <= s.flights[id].got + b.fillDelay {
      FlightAge(b, e, w, events, s, id, now);
    }
  }
}
