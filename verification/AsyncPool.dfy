/** The asynchronous connection pool (`core/db/pool/async_pool.py`): every section of
    `acquire` and `release` that runs under the lock is one step, and any number of
    calls interleave. */
module AsyncPooling {
  import opened Wrappers
  import opened AdaptiveSizing

  // ---------------------------------------------------------------- the pool object

  /** An entry of the idle heap; the stamp is when the connection was last checked out. */
  datatype Idle = Idle(stamp: real, seqNo: nat, conn: nat)

  predicate Before(a: Idle, b: Idle) {
    a.stamp < b.stamp || (a.stamp == b.stamp && a.seqNo <= b.seqNo)
  }

  /** `heapq.heappop` takes the least entry. */
  function First(idle: seq<Idle>): (i: nat)
    requires idle != []
    ensures i < |idle|
    ensures forall j :: 0 <= j < |idle| ==> Before(idle[i], idle[j])
  {
    if |idle| == 1 then 0
    else
      var last := |idle| - 1;
      var i := First(idle[..last]);
      assert forall j :: 0 <= j < last ==> idle[..last][j] == idle[j];
      if Before(idle[i], idle[last]) then i else last
  }

  function Removed<T>(s: seq<T>, i: nat): seq<T>
    requires i < |s|
  {
    s[..i] + s[i + 1..]
  }

  /** `inUse` maps a connection to its check-out time, and a placeholder to none. */
  datatype Pool = Pool(idle: seq<Idle>, inUse: map<nat, Option<real>>, waiters: seq<nat>, pushes: nat, sizer: Sizer,
                       requests: nat, hits: nat, misses: nat, timeouts: nat, successes: nat,
                       totalWaiters: nat, created: nat, evicted: nat)

  datatype Attempt = Got(conn: nat) | Reserved(key: nat) | Queued(event: nat)

  function NewPool(min: nat, max: nat): Pool {
    Pool([], map[], [], 0, AdaptiveSizing.Initial(min, max), 0, 0, 0, 0, 0, 0, 0, 0)
  }

  /** The locked part of one round of `acquire`; `token` is the identity of the
      placeholder or event the round may need. */
  function Attempted(p: Pool, now: real, token: nat): (Pool, Attempt) {
    if p.idle != [] then
      var i := First(p.idle);
      var conn := p.idle[i].conn;
      (p.(idle := Removed(p.idle, i), inUse := p.inUse[conn := Some(now)], hits := p.hits + 1, successes := p.successes + 1), Got(conn))
    else if |p.inUse| < p.sizer.current then
      (p.(inUse := p.inUse[token := None]), Reserved(token))
    else
      (p.(waiters := p.waiters + [token], totalWaiters := p.totalWaiters + 1), Queued(token))
  }

  function Finished(p: Pool, key: nat, conn: nat, now: real): Pool {
    p.(inUse := (p.inUse - {key})[conn := Some(now)], created := p.created + 1, misses := p.misses + 1, successes := p.successes + 1)
  }

  function Abandoned(p: Pool, key: nat): Pool { p.(inUse := p.inUse - {key}) }

  function Drop(s: seq<nat>, e: nat): seq<nat> {
    if s == [] then [] else if s[0] == e then s[1..] else [s[0]] + Drop(s[1..], e)
  }

  function LeftQueue(p: Pool, event: nat): Pool { p.(waiters := Drop(p.waiters, event)) }

  /** The pool after a release, and the event it sets. */
  function Released(p: Pool, conn: nat, broken: bool): (Pool, Option<nat>) {
    if conn !in p.inUse then (p, None)
    else if p.inUse[conn].None? then (p.(inUse := p.inUse - {conn}), None)
    else
      var q := p.(inUse := p.inUse - {conn});
      var r := if broken then q.(evicted := q.evicted + 1)
               else q.(idle := q.idle + [Idle(p.inUse[conn].value, q.pushes, conn)], pushes := q.pushes + 1);
      if r.waiters == [] then (r, None) else (r.(waiters := r.waiters[1..]), Some(r.waiters[0]))
  }

  // ---------------------------------------------------------------- the calls around it

  /** Where an `acquire` call stands, and afterwards that its caller holds the
      connection. `woken` marks a call resumed by its event. */
  datatype Phase = Entering(woken: bool) | Waiting(event: nat) | Creating(key: nat) | Holding(conn: nat)

  /** Tokens (events, placeholders, connections) are numbered by `next`; `owner` and
      `waiter` say which call a slot or an event was last handed to; `fired` are the
      events set. */
  datatype System = System(pool: Pool, calls: map<nat, Phase>, fired: set<nat>, owner: map<nat, nat>, waiter: map<nat, nat>, next: nat,
                           failed: nat, cancelled: nat, lost: nat)

  datatype Step =
    | Start(call: nat)
    | Contend(call: nat, now: real)
    | Wake(call: nat)
    | TimeOut(call: nat)
    | CancelWait(call: nat)
    | CreateDone(call: nat, now: real)
    | CreateFailed(call: nat)
    | Release(call: nat, broken: bool)
    | Observe(recentWaitMs: real)
    | Warm(target: nat)

  /** A timeout or a cancellation may also reach a call whose event is already set. */
  predicate Enabled(s: System, step: Step) {
    match step
    case Start(c) => c !in s.calls
    case Contend(c, _) => c in s.calls && s.calls[c].Entering?
    case Wake(c) => c in s.calls && s.calls[c].Waiting? && s.calls[c].event in s.fired
    case TimeOut(c) => c in s.calls && s.calls[c].Waiting?
    case CancelWait(c) => c in s.calls && s.calls[c].Waiting?
    case CreateDone(c, _) => c in s.calls && s.calls[c].Creating?
    case CreateFailed(c) => c in s.calls && s.calls[c].Creating?
    case Release(c, _) => c in s.calls && s.calls[c].Holding?
    case Observe(_) => true
    case Warm(_) => true
  }

  function AfterContend(s: System, c: nat, now: real): System {
    var (p, a) := Attempted(s.pool, now, s.next);
    match a
    case Got(conn) => s.(pool := p, calls := s.calls[c := Holding(conn)], owner := s.owner[conn := c])
    case Reserved(key) => s.(pool := p, calls := s.calls[c := Creating(key)], owner := s.owner[key := c], next := s.next + 1)
    case Queued(event) => s.(pool := p, calls := s.calls[c := Waiting(event)], waiter := s.waiter[event := c], next := s.next + 1)
  }

  function Leave(s: System, c: nat): System
    requires c in s.calls && s.calls[c].Waiting?
  {
    s.(pool := LeftQueue(s.pool, s.calls[c].event), calls := s.calls - {c},
       lost := if s.calls[c].event in s.fired then s.lost + 1 else s.lost)
  }

  function AfterRelease(s: System, c: nat, broken: bool): System
    requires c in s.calls && s.calls[c].Holding?
  {
    var (p, woken) := Released(s.pool, s.calls[c].conn, broken);
    s.(pool := p, calls := s.calls - {c}, fired := if woken.Some? then s.fired + {woken.value} else s.fired)
  }

  function Next(s: System, step: Step): System
    requires Enabled(s, step)
  {
    match step
    case Start(c) => s.(calls := s.calls[c := Entering(false)], pool := s.pool.(requests := s.pool.requests + 1))
    case Contend(c, now) => AfterContend(s, c, now)
    case Wake(c) => s.(calls := s.calls[c := Entering(true)])
    case TimeOut(c) => var t := Leave(s, c); t.(pool := t.pool.(timeouts := t.pool.timeouts + 1))
    case CancelWait(c) => Leave(s, c).(cancelled := s.cancelled + 1)
    case CreateDone(c, now) =>
      s.(pool := Finished(s.pool, s.calls[c].key, s.next, now), calls := s.calls[c := Holding(s.next)],
         owner := s.owner[s.next := c], next := s.next + 1)
    case CreateFailed(c) => s.(pool := Abandoned(s.pool, s.calls[c].key), calls := s.calls - {c}, failed := s.failed + 1)
    case Release(c, broken) => AfterRelease(s, c, broken)
    case Observe(ms) => s.(pool := s.pool.(sizer := Adjusted(s.pool.sizer, Signal(|s.pool.waiters|, ms))))
    case Warm(target) =>
      var z := s.pool.sizer;
      s.(pool := s.pool.(sizer := z.(current := Max(z.current, Min(target, z.max)))))
  }

  /** Any sequence of steps; one that is not enabled does nothing. */
  function Run(min: nat, max: nat, steps: seq<Step>): System {
    if steps == [] then System(NewPool(min, max), map[], {}, map[], map[], 0, 0, 0, 0)
    else
      var s := Run(min, max, steps[..|steps| - 1]);
      if Enabled(s, steps[|steps| - 1]) then Next(s, steps[|steps| - 1]) else s
  }

  // ---------------------------------------------------------------- what always holds

  ghost predicate Apart(idle: seq<Idle>) {
    forall i, j :: 0 <= i < j < |idle| ==> idle[i].conn != idle[j].conn
  }

  /** Every key of `inUse` is held or being created by one call, and every call holds
      what `inUse` says; no idle connection is in use or idle twice. */
  ghost predicate Ownership(s: System) { Matched(s) && Separate(s.pool, s.next) }

  ghost predicate Matched(s: System) {
    var p := s.pool;
    && (forall k :: k in p.inUse ==> k in s.owner && s.owner[k] in s.calls
                                     && s.calls[s.owner[k]] == if p.inUse[k].Some? then Holding(k) else Creating(k))
    && (forall c :: c in s.calls && s.calls[c].Holding? ==>
          var k := s.calls[c].conn; k in p.inUse && p.inUse[k].Some? && k in s.owner && s.owner[k] == c)
    && (forall c :: c in s.calls && s.calls[c].Creating? ==>
          var k := s.calls[c].key; k in p.inUse && p.inUse[k].None? && k in s.owner && s.owner[k] == c)
  }

  ghost predicate Separate(p: Pool, next: nat) {
    && Apart(p.idle)
    && (forall x :: x in p.idle ==> x.conn !in p.inUse && x.conn < next)
    && (forall k :: k in p.inUse ==> k < next)
  }

  ghost predicate Ascending(w: seq<nat>) {
    forall i, j :: 0 <= i < j < |w| ==> w[i] < w[j]
  }

  /** Every queued event is unset, queued once, in the order of queueing, and belongs
      to exactly one call still waiting for it; a waiting call's event is queued or,
      once a release took it off the queue, set. */
  ghost predicate Queueing(s: System) {
    var w := s.pool.waiters;
    && Ascending(w)
    && (forall e :: e in w ==> e < s.next && e !in s.fired && e in s.waiter && s.waiter[e] in s.calls && s.calls[s.waiter[e]] == Waiting(e))
    && (forall c :: c in s.calls && s.calls[c].Waiting? ==>
          var e := s.calls[c].event; e < s.next && e in s.waiter && s.waiter[e] == c && (e in w || e in s.fired))
    && (forall e :: e in s.fired ==> e < s.next)
  }

  /** Idle, checked-out and reserved connections never exceed the configured maximum,
      however the sizer moves. */
  ghost predicate WithinCapacity(s: System) {
    s.pool.sizer.current <= Ceiling(s.pool.sizer) && |s.pool.idle| + |s.pool.inUse| <= Ceiling(s.pool.sizer)
  }

  function Active(inUse: map<nat, Option<real>>): set<nat> { set k | k in inUse && inUse[k].Some? }

  function Acquiring(calls: map<nat, Phase>): set<nat> { set c | c in calls && !calls[c].Holding? }

  /** Every connection created is idle, checked out or evicted. */
  ghost predicate ConnectionsConserved(p: Pool) {
    p.created == |p.idle| + |Active(p.inUse)| + p.evicted && p.successes == p.hits + p.misses && p.misses == p.created
  }

  /** Every request has succeeded, timed out, been cancelled, failed to create, or is
      on its way. */
  ghost predicate RequestsConserved(s: System) {
    s.pool.requests == s.pool.successes + s.pool.timeouts + s.cancelled + s.failed + |Acquiring(s.calls)|
  }

  /** The calls whose event was set and that have not yet looked again. */
  predicate Resumes(p: Phase, fired: set<nat>) { p == Entering(true) || (p.Waiting? && p.event in fired) }

  function Resuming(calls: map<nat, Phase>, fired: set<nat>): set<nat> {
    set c | c in calls && Resumes(calls[c], fired)
  }

  /** While somebody is queued, the idle connections are spoken for by calls about to
      resume, but for the wake-ups lost on calls that timed out or were cancelled
      after their event was set. */
  ghost predicate SpokenFor(s: System) {
    s.pool.waiters != [] ==> |s.pool.idle| <= |Resuming(s.calls, s.fired)| + s.lost
  }

  ghost predicate Safe(s: System) {
    Ownership(s) && Queueing(s) && WithinCapacity(s) && ConnectionsConserved(s.pool) && RequestsConserved(s) && SpokenFor(s)
  }

  // ---------------------------------------------------------------- each step keeps it

  lemma PopApart(idle: seq<Idle>, i: nat)
    requires Apart(idle) && i < |idle|
    ensures Apart(Removed(idle, i))
    ensures forall x :: x in Removed(idle, i) ==> x in idle && x.conn != idle[i].conn
  {
    forall x | x in Removed(idle, i) ensures x in idle && x.conn != idle[i].conn {
      var j :| 0 <= j < |Removed(idle, i)| && Removed(idle, i)[j] == x;
      assert x == if j < i then idle[j] else idle[j + 1];
    }
  }

  lemma PushApart(idle: seq<Idle>, x: Idle)
    requires Apart(idle) && forall y :: y in idle ==> y.conn != x.conn
    ensures Apart(idle + [x])
    ensures forall y :: y in idle + [x] <==> y in idle || y == x
  {
    forall j | 0 <= j < |idle| ensures idle[j].conn != x.conn {
      assert idle[j] in idle;
    }
  }

  lemma {:induction false} DropKeeps(s: seq<nat>, e: nat)
    requires Ascending(s)
    ensures Ascending(Drop(s, e))
    ensures forall x :: x in Drop(s, e) <==> x in s && x != e
  {
    if s != [] {
      DropKeeps(s[1..], e);
      PopFirst(s);
      if s[0] != e {
        PushFirst(s[0], Drop(s[1..], e));
      }
    }
  }

  lemma PopFirst(s: seq<nat>)
    requires s != [] && Ascending(s)
    ensures Ascending(s[1..])
    ensures forall x :: x in s <==> x == s[0] || x in s[1..]
    ensures forall x :: x in s[1..] ==> s[0] < x
  {
    var t := s[1..];
    assert s == [s[0]] + t;
    forall x | x in t ensures s[0] < x {
      var i :| 0 <= i < |t| && t[i] == x;
      assert s[i + 1] == x;
    }
    forall i, j | 0 <= i < j < |t| ensures t[i] < t[j] {
      assert t[i] == s[i + 1] && t[j] == s[j + 1];
    }
  }

  lemma PushFirst(x: nat, s: seq<nat>)
    requires Ascending(s) && forall y :: y in s ==> x < y
    ensures Ascending([x] + s)
  {
    forall j | 0 <= j < |s| ensures x < s[j] {
      assert s[j] in s;
    }
  }

  lemma PushLast(s: seq<nat>, x: nat)
    requires Ascending(s) && forall y :: y in s ==> y < x
    ensures Ascending(s + [x])
    ensures forall y :: y in s + [x] <==> y in s || y == x
  {
    forall j | 0 <= j < |s| ensures s[j] < x {
      assert s[j] in s;
    }
  }

  /** Call `c`, which had no slot, gets slot `k`. */
  lemma MatchedGains(s: System, t: System, c: nat, k: nat, use: Option<real>)
    requires Matched(s) && k !in s.pool.inUse
    requires c in s.calls ==> !s.calls[c].Holding? && !s.calls[c].Creating?
    requires t.pool.inUse == s.pool.inUse[k := use] && t.owner == s.owner[k := c]
    requires t.calls == s.calls[c := if use.Some? then Holding(k) else Creating(k)]
    ensures Matched(t)
  {
  }

  /** Call `c` gives back its slot `k`, and then is without one. */
  lemma MatchedLoses(s: System, t: System, c: nat, k: nat)
    requires Matched(s) && c in s.calls && (s.calls[c] == Holding(k) || s.calls[c] == Creating(k))
    requires t.pool.inUse == s.pool.inUse - {k} && t.owner == s.owner && t.calls == s.calls - {c}
    ensures Matched(t)
  {
  }

  /** Only calls without slots came, went or moved. */
  lemma MatchedSame(s: System, t: System)
    requires Matched(s) && t.pool.inUse == s.pool.inUse && t.owner == s.owner
    requires forall c :: c in s.calls && (s.calls[c].Holding? || s.calls[c].Creating?) ==> c in t.calls && t.calls[c] == s.calls[c]
    requires forall c :: c in t.calls && (t.calls[c].Holding? || t.calls[c].Creating?) ==> c in s.calls && t.calls[c] == s.calls[c]
    ensures Matched(t)
  {
  }

  lemma HitOwnership(s: System, c: nat, now: real)
    requires Ownership(s) && Enabled(s, Contend(c, now)) && s.pool.idle != []
    ensures Ownership(AfterContend(s, c, now))
  {
    var i := First(s.pool.idle);
    PopApart(s.pool.idle, i);
    assert s.pool.idle[i] in s.pool.idle;
    MatchedGains(s, AfterContend(s, c, now), c, s.pool.idle[i].conn, Some(now));
  }

  lemma ReleaseOwnership(s: System, c: nat, broken: bool)
    requires Ownership(s) && Enabled(s, Release(c, broken))
    ensures Ownership(AfterRelease(s, c, broken))
  {
    var conn := s.calls[c].conn;
    MatchedLoses(s, AfterRelease(s, c, broken), c, conn);
    ReleaseSeparate(s.pool, conn, broken, s.next);
  }

  lemma ReleaseSeparate(p: Pool, conn: nat, broken: bool, next: nat)
    requires Separate(p, next) && conn in p.inUse && p.inUse[conn].Some?
    ensures Separate(Released(p, conn, broken).0, next)
  {
    PushApart(p.idle, Idle(p.inUse[conn].value, p.pushes, conn));
  }

  lemma MissOwnership(s: System, c: nat, now: real)
    requires Ownership(s) && Enabled(s, Contend(c, now)) && s.pool.idle == []
    ensures Ownership(AfterContend(s, c, now))
  {
    if |s.pool.inUse| < s.pool.sizer.current {
      MatchedGains(s, AfterContend(s, c, now), c, s.next, None);
    } else {
      MatchedSame(s, AfterContend(s, c, now));
    }
  }

  lemma CreateOwnership(s: System, c: nat, now: real)
    requires Ownership(s) && c in s.calls && s.calls[c].Creating?
    ensures Ownership(Next(s, CreateDone(c, now)))
  {
    var t := Next(s, CreateFailed(c));
    MatchedLoses(s, t, c, s.calls[c].key);
    MatchedGains(t, Next(s, CreateDone(c, now)), c, s.next, Some(now));
  }

  lemma FailureOwnership(s: System, c: nat)
    requires Ownership(s) && c in s.calls && s.calls[c].Creating?
    ensures Ownership(Next(s, CreateFailed(c)))
  {
    MatchedLoses(s, Next(s, CreateFailed(c)), c, s.calls[c].key);
  }

  lemma StepOwnership(s: System, step: Step)
    requires Ownership(s) && Enabled(s, step)
    ensures Ownership(Next(s, step))
  {
    match step
    case Contend(c, now) =>
      if s.pool.idle == [] { MissOwnership(s, c, now); } else { HitOwnership(s, c, now); }
    case CreateDone(c, now) => CreateOwnership(s, c, now);
    case CreateFailed(c) => FailureOwnership(s, c);
    case Release(c, broken) => ReleaseOwnership(s, c, broken);
    case _ => MatchedSame(s, Next(s, step));
  }

  lemma LeaveQueueing(s: System, c: nat)
    requires Queueing(s) && c in s.calls && s.calls[c].Waiting?
    ensures Queueing(Leave(s, c))
  {
    DropKeeps(s.pool.waiters, s.calls[c].event);
  }

  lemma ReleaseQueueing(s: System, c: nat, broken: bool)
    requires Queueing(s) && Ownership(s) && Enabled(s, Release(c, broken))
    ensures Queueing(AfterRelease(s, c, broken))
  {
    if s.pool.waiters != [] {
      PopFirst(s.pool.waiters);
    }
  }

  lemma ContendQueueing(s: System, c: nat, now: real)
    requires Queueing(s) && Enabled(s, Contend(c, now))
    ensures Queueing(AfterContend(s, c, now))
  {
    if s.pool.idle != [] || |s.pool.inUse| < s.pool.sizer.current {
      MoveQueueing(s, AfterContend(s, c, now), c);
    } else {
      PushLast(s.pool.waiters, s.next);
      QueueQueueing(s, AfterContend(s, c, now), c);
    }
  }

  /** A call that was not waiting goes on to something else than waiting. */
  lemma MoveQueueing(s: System, t: System, c: nat)
    requires Queueing(s) && c in s.calls && c in t.calls && !s.calls[c].Waiting? && !t.calls[c].Waiting?
    requires t.calls == s.calls[c := t.calls[c]] && t.pool.waiters == s.pool.waiters && t.fired == s.fired
    requires t.waiter == s.waiter && t.next >= s.next
    ensures Queueing(t)
  {
  }

  lemma QueueQueueing(s: System, t: System, c: nat)
    requires Queueing(s) && c in s.calls && !s.calls[c].Waiting?
    requires t.calls == s.calls[c := Waiting(s.next)] && t.fired == s.fired && t.waiter == s.waiter[s.next := c] && t.next == s.next + 1
    requires Ascending(t.pool.waiters) && forall e :: e in t.pool.waiters <==> e in s.pool.waiters || e == s.next
    ensures Queueing(t)
  {
  }

  lemma StepQueueing(s: System, step: Step)
    requires Queueing(s) && Ownership(s) && Enabled(s, step)
    ensures Queueing(Next(s, step))
  {
    match step
    case Start(_) =>
    case Contend(c, now) => ContendQueueing(s, c, now);
    case Wake(_) =>
    case TimeOut(c) => LeaveQueueing(s, c);
    case CancelWait(c) => LeaveQueueing(s, c);
    case CreateDone(_, _) =>
    case CreateFailed(_) =>
    case Release(c, broken) => ReleaseQueueing(s, c, broken);
    case Observe(_) =>
    case Warm(_) =>
  }

  // sizes

  lemma MapSizes<V>(m: map<nat, V>, k: nat, v: V)
    ensures |m[k := v]| == |m| + if k in m then 0 else 1
    ensures k in m ==> |m - {k}| == |m| - 1
  {
    assert (m - {k}).Keys == m.Keys - {k};
    assert m[k := v].Keys == m.Keys + {k};
  }

  lemma ActiveChange(m: map<nat, Option<real>>, k: nat, v: Option<real>)
    ensures Active(m[k := v]) == if v.Some? then Active(m) + {k} else Active(m) - {k}
    ensures Active(m - {k}) == Active(m) - {k}
  {
  }

  lemma AcquiringChange(m: map<nat, Phase>, c: nat, p: Phase)
    ensures Acquiring(m[c := p]) == if p.Holding? then Acquiring(m) - {c} else Acquiring(m) + {c}
    ensures Acquiring(m - {c}) == Acquiring(m) - {c}
  {
  }

  lemma ResumingChange(m: map<nat, Phase>, fired: set<nat>, c: nat, p: Phase)
    ensures Resuming(m[c := p], fired) == if Resumes(p, fired) then Resuming(m, fired) + {c} else Resuming(m, fired) - {c}
    ensures Resuming(m - {c}, fired) == Resuming(m, fired) - {c}
  {
  }

  lemma AttemptSizes(p: Pool, now: real, token: nat)
    requires token !in p.inUse && forall x :: x in p.idle ==> x.conn !in p.inUse
    ensures
      var q := Attempted(p, now, token).0;
      && |q.idle| == (if p.idle == [] then 0 else |p.idle| - 1)
      && |q.inUse| == (if p.idle != [] || |p.inUse| < p.sizer.current then |p.inUse| + 1 else |p.inUse|)
      && |Active(q.inUse)| == (if p.idle != [] then |Active(p.inUse)| + 1 else |Active(p.inUse)|)
  {
    if p.idle != [] {
      var x := p.idle[First(p.idle)];
      assert x in p.idle;
      UseSizes(p.inUse, x.conn, Some(now));
    } else {
      UseSizes(p.inUse, token, None);
    }
  }

  lemma UseSizes(m: map<nat, Option<real>>, k: nat, use: Option<real>)
    requires k !in m
    ensures |m[k := use]| == |m| + 1 && |Active(m[k := use])| == |Active(m)| + if use.Some? then 1 else 0
  {
    MapSizes(m, k, use);
    ActiveChange(m, k, use);
    assert k !in Active(m) && Active(m) - {k} == Active(m);
  }

  lemma FinishSizes(p: Pool, key: nat, conn: nat, now: real)
    requires key in p.inUse && p.inUse[key].None? && conn !in p.inUse
    ensures
      var (q, r) := (Finished(p, key, conn, now), Abandoned(p, key));
      && |q.inUse| == |p.inUse| && |r.inUse| == |p.inUse| - 1
      && |Active(q.inUse)| == |Active(p.inUse)| + 1 && |Active(r.inUse)| == |Active(p.inUse)|
  {
    var m := p.inUse - {key};
    MapSizes(p.inUse, key, None);
    MapSizes(m, conn, Some(now));
    ActiveChange(p.inUse, key, None);
    ActiveChange(m, conn, Some(now));
    assert key !in Active(p.inUse) && conn !in Active(m);
  }

  lemma ReleaseSizes(p: Pool, conn: nat, broken: bool)
    requires conn in p.inUse && p.inUse[conn].Some?
    ensures
      var q := Released(p, conn, broken).0;
      && |q.inUse| == |p.inUse| - 1 && |Active(q.inUse)| == |Active(p.inUse)| - 1
      && |q.idle| == |p.idle| + if broken then 0 else 1
  {
    MapSizes(p.inUse, conn, None);
    ActiveChange(p.inUse, conn, None);
    assert conn in Active(p.inUse);
  }

  lemma ReleaseConserved(s: System, c: nat, broken: bool)
    requires Ownership(s) && Enabled(s, Release(c, broken)) && WithinCapacity(s) && ConnectionsConserved(s.pool)
    ensures ConnectionsConserved(AfterRelease(s, c, broken).pool) && WithinCapacity(AfterRelease(s, c, broken))
  {
    ReleaseSizes(s.pool, s.calls[c].conn, broken);
  }

  /** Creations, releases and attempts conserve connections and keep the capacity. */
  lemma StepSizes(s: System, step: Step)
    requires Ownership(s) && Enabled(s, step) && WithinCapacity(s) && ConnectionsConserved(s.pool)
    ensures ConnectionsConserved(Next(s, step).pool) && WithinCapacity(Next(s, step))
  {
    match step
    case Start(_) =>
    case Contend(c, now) => ContendSizes(s, c, now);
    case Wake(_) =>
    case TimeOut(_) =>
    case CancelWait(_) =>
    case CreateDone(c, now) => CreateSizes(s, c, now);
    case CreateFailed(c) => CreateSizes(s, c, 0.0);
    case Release(c, broken) => ReleaseConserved(s, c, broken);
    case Observe(_) =>
    case Warm(_) =>
  }

  lemma ContendSizes(s: System, c: nat, now: real)
    requires Ownership(s) && Enabled(s, Contend(c, now)) && WithinCapacity(s) && ConnectionsConserved(s.pool)
    ensures ConnectionsConserved(AfterContend(s, c, now).pool) && WithinCapacity(AfterContend(s, c, now))
  {
    AttemptSizes(s.pool, now, s.next);
    var p := Attempted(s.pool, now, s.next).0;
    assert AfterContend(s, c, now).pool == p && p.sizer == s.pool.sizer && p.created == s.pool.created && p.evicted == s.pool.evicted;
  }

  lemma CreateSizes(s: System, c: nat, now: real)
    requires Ownership(s) && c in s.calls && s.calls[c].Creating? && WithinCapacity(s) && ConnectionsConserved(s.pool)
    ensures ConnectionsConserved(Next(s, CreateDone(c, now)).pool) && WithinCapacity(Next(s, CreateDone(c, now)))
    ensures ConnectionsConserved(Next(s, CreateFailed(c)).pool) && WithinCapacity(Next(s, CreateFailed(c)))
  {
    FinishSizes(s.pool, s.calls[c].key, s.next, now);
  }

  lemma ContendRequests(s: System, c: nat, now: real)
    requires RequestsConserved(s) && Enabled(s, Contend(c, now))
    ensures RequestsConserved(AfterContend(s, c, now))
  {
    var t := AfterContend(s, c, now);
    AttemptCounters(s.pool, now, s.next);
    MoveAcquiring(s.calls, c, t.calls[c]);
  }

  lemma AttemptCounters(p: Pool, now: real, token: nat)
    ensures var (q, a) := Attempted(p, now, token);
            q.requests == p.requests && q.timeouts == p.timeouts && q.successes == p.successes + if a.Got? then 1 else 0
  {
  }

  lemma MoveAcquiring(m: map<nat, Phase>, c: nat, p: Phase)
    requires c in m && !m[c].Holding?
    ensures |Acquiring(m[c := p])| == |Acquiring(m)| - if p.Holding? then 1 else 0
  {
    AcquiringChange(m, c, p);
    SameSize(Acquiring(m), c);
  }

  lemma SameSize(s: set<nat>, c: nat)
    requires c in s
    ensures s + {c} == s && |s - {c}| == |s| - 1
  {
  }

  lemma LeaveRequests(s: System, c: nat)
    requires RequestsConserved(s) && c in s.calls && s.calls[c].Waiting?
    ensures RequestsConserved(Next(s, TimeOut(c))) && RequestsConserved(Next(s, CancelWait(c)))
  {
    AcquiringChange(s.calls, c, Entering(true));
    SameSize(Acquiring(s.calls), c);
  }

  lemma ReleaseRequests(s: System, c: nat, broken: bool)
    requires RequestsConserved(s) && Enabled(s, Release(c, broken))
    ensures RequestsConserved(AfterRelease(s, c, broken))
  {
    AcquiringChange(s.calls, c, Entering(true));
    assert Acquiring(s.calls) - {c} == Acquiring(s.calls);
    var p := Released(s.pool, s.calls[c].conn, broken).0;
    assert p.requests == s.pool.requests && p.successes == s.pool.successes && p.timeouts == s.pool.timeouts;
  }

  lemma StepRequests(s: System, step: Step)
    requires RequestsConserved(s) && Enabled(s, step)
    ensures RequestsConserved(Next(s, step))
  {
    var a := s.calls;
    match step
    case Start(c) => AcquiringChange(a, c, Entering(false)); assert c !in Acquiring(a);
    case Contend(c, now) => ContendRequests(s, c, now);
    case Wake(c) => AcquiringChange(a, c, Entering(true)); SameSize(Acquiring(a), c);
    case TimeOut(c) => LeaveRequests(s, c);
    case CancelWait(c) => LeaveRequests(s, c);
    case CreateDone(c, now) => AcquiringChange(a, c, Holding(s.next)); SameSize(Acquiring(a), c);
    case CreateFailed(c) => AcquiringChange(a, c, Entering(true)); SameSize(Acquiring(a), c);
    case Release(c, broken) => ReleaseRequests(s, c, broken);
    case Observe(_) =>
    case Warm(_) =>
  }

  /** Setting the oldest queued event adds its call to those about to resume. */
  lemma FiringResumes(s: System, c: nat)
    requires Queueing(s) && c in s.calls && s.calls[c].Holding? && s.pool.waiters != []
    ensures
      var r := Resuming(s.calls, s.fired);
      |Resuming(s.calls - {c}, s.fired + {s.pool.waiters[0]})| == |r| + 1
  {
    var e := s.pool.waiters[0];
    assert e in s.pool.waiters;
    var (r, d) := (Resuming(s.calls, s.fired), s.waiter[e]);
    ResumingChange(s.calls, s.fired, c, s.calls[c]);
    assert Resuming(s.calls - {c}, s.fired + {e}) == r + {d};
    assert d !in r;
  }

  lemma ReleaseSpokenFor(s: System, c: nat, broken: bool)
    requires SpokenFor(s) && Ownership(s) && Queueing(s) && Enabled(s, Release(c, broken))
    ensures SpokenFor(AfterRelease(s, c, broken))
  {
    ReleaseSizes(s.pool, s.calls[c].conn, broken);
    if s.pool.waiters != [] {
      FiringResumes(s, c);
    }
  }

  lemma LeaveSpokenFor(s: System, c: nat)
    requires SpokenFor(s) && Queueing(s) && c in s.calls && s.calls[c].Waiting?
    ensures SpokenFor(Leave(s, c))
  {
    ResumingChange(s.calls, s.fired, c, Entering(true));
  }

  lemma ContendSpokenFor(s: System, c: nat, now: real)
    requires SpokenFor(s) && Ownership(s) && Queueing(s) && Enabled(s, Contend(c, now))
    ensures SpokenFor(AfterContend(s, c, now))
  {
    AttemptSizes(s.pool, now, s.next);
    var p := AfterContend(s, c, now).calls[c];
    ResumingChange(s.calls, s.fired, c, p);
    assert !Resumes(p, s.fired);
  }

  lemma CreateSpokenFor(s: System, c: nat, now: real)
    requires SpokenFor(s) && c in s.calls && s.calls[c].Creating?
    ensures SpokenFor(Next(s, CreateDone(c, now)))
  {
    NotResuming(s.calls, s.fired, c, Holding(s.next));
  }

  lemma FailureSpokenFor(s: System, c: nat)
    requires SpokenFor(s) && c in s.calls && s.calls[c].Creating?
    ensures SpokenFor(Next(s, CreateFailed(c)))
  {
    NotResuming(s.calls, s.fired, c, Entering(false));
  }

  lemma NotResuming(m: map<nat, Phase>, fired: set<nat>, c: nat, p: Phase)
    requires (c in m ==> !Resumes(m[c], fired)) && !Resumes(p, fired)
    ensures Resuming(m[c := p], fired) == Resuming(m, fired) == Resuming(m - {c}, fired)
  {
    ResumingChange(m, fired, c, p);
    assert c !in Resuming(m, fired);
  }

  lemma StepSpokenFor(s: System, step: Step)
    requires SpokenFor(s) && Ownership(s) && Queueing(s) && Enabled(s, step)
    ensures SpokenFor(Next(s, step))
  {
    var r := Resuming(s.calls, s.fired);
    match step
    case Start(c) => NotResuming(s.calls, s.fired, c, Entering(false));
    case Contend(c, now) => ContendSpokenFor(s, c, now);
    case Wake(c) => ResumingChange(s.calls, s.fired, c, Entering(true)); SameSize(r, c);
    case TimeOut(c) => LeaveSpokenFor(s, c);
    case CancelWait(c) => LeaveSpokenFor(s, c);
    case CreateDone(c, now) => CreateSpokenFor(s, c, now);
    case CreateFailed(c) => FailureSpokenFor(s, c);
    case Release(c, broken) => ReleaseSpokenFor(s, c, broken);
    case Observe(_) =>
    case Warm(_) =>
  }

  lemma StepSafe(s: System, step: Step)
    requires Safe(s) && Enabled(s, step)
    ensures Safe(Next(s, step))
  {
    StepOwnership(s, step);
    StepQueueing(s, step);
    StepSizes(s, step);
    StepRequests(s, step);
    StepSpokenFor(s, step);
  }

  /** No step moves the configured maximum. */
  lemma CeilingKept(s: System, step: Step)
    requires Enabled(s, step)
    ensures Ceiling(Next(s, step).pool.sizer) == Ceiling(s.pool.sizer)
  {
  }

  lemma InitialSafe(min: nat, max: nat)
    ensures Safe(Run(min, max, []))
  {
    assert Active(map[]) == {} && Acquiring(map[]) == {};
  }

  /** Safety. After any interleaving of calls, wake-ups, timeouts, cancellations,
      creations, failures, releases and sizer moves: no connection is both idle and in
      use or held twice, the configured maximum is never exceeded, connections and
      requests are conserved, the queue is exactly the unset events of waiting calls
      in order, and idle connections do not pile up beside waiters. */
  lemma {:induction false} PoolSafety(min: nat, max: nat, steps: seq<Step>)
    ensures Safe(Run(min, max, steps))
    ensures Ceiling(Run(min, max, steps).pool.sizer) == Max(min, max)
  {
    if steps == [] {
      InitialSafe(min, max);
    } else {
      var (s, step) := (Run(min, max, steps[..|steps| - 1]), steps[|steps| - 1]);
      PoolSafety(min, max, steps[..|steps| - 1]);
      if Enabled(s, step) {
        StepSafe(s, step);
        CeilingKept(s, step);
      }
    }
  }

  /** No two calls ever hold the same connection, and none held is idle. */
  lemma NeverShared(min: nat, max: nat, steps: seq<Step>, c: nat, d: nat)
    requires var s := Run(min, max, steps); c in s.calls && d in s.calls && c != d && s.calls[c].Holding? && s.calls[d].Holding?
    ensures var s := Run(min, max, steps);
            s.calls[c].conn != s.calls[d].conn && forall x :: x in s.pool.idle ==> x.conn != s.calls[c].conn
  {
    PoolSafety(min, max, steps);
  }

  /** Only a release sets an event: the oldest queued one, which leaves the queue with
      it. A timeout or cancellation takes at most its own call's event off the queue,
      and nothing else ever does. */
  lemma WakeOrder(s: System, step: Step)
    requires Safe(s) && Enabled(s, step)
    ensures
      var (w, t) := (s.pool.waiters, Next(s, step));
      && (t.fired != s.fired ==> step.Release? && w != [] && t.fired == s.fired + {w[0]} && t.pool.waiters == w[1..]
                                 && forall e :: e in w ==> w[0] <= e)
      && (forall e :: e in w && e !in t.pool.waiters ==>
            if step.Release? then e == w[0] && e in t.fired
            else (step.TimeOut? || step.CancelWait?) && s.calls[step.call] == Waiting(e))
  {
    if s.pool.waiters != [] {
      PopFirst(s.pool.waiters);
    }
    if step.TimeOut? || step.CancelWait? {
      DropKeeps(s.pool.waiters, s.calls[step.call].event);
    }
  }

  // ---------------------------------------------------------------- what is handed out and taken back

  /** A round of `acquire`, written out: it takes an idle connection whose stamp is least,
      and whose push number is least among those; with none idle it reserves a slot if one is
      free; otherwise it queues. */
  lemma AttemptExactly(p: Pool, now: real, token: nat)
    ensures
      var (q, a) := Attempted(p, now, token);
      if p.idle != [] then
        && a.Got? && q == p.(idle := q.idle, inUse := p.inUse[a.conn := Some(now)], hits := p.hits + 1, successes := p.successes + 1)
        && exists i :: 0 <= i < |p.idle| && p.idle[i].conn == a.conn && q.idle == p.idle[..i] + p.idle[i + 1..]
                       && forall j :: 0 <= j < |p.idle| ==>
                            p.idle[i].stamp < p.idle[j].stamp || (p.idle[i].stamp == p.idle[j].stamp && p.idle[i].seqNo <= p.idle[j].seqNo)
      else if |p.inUse| < p.sizer.current then
        a == Reserved(token) && q == p.(inUse := p.inUse[token := None])
      else a == Queued(token) && q == p.(waiters := p.waiters + [token], totalWaiters := p.totalWaiters + 1)
  {
    if p.idle != [] {
      var i := First(p.idle);
      assert p.idle[i].conn == Attempted(p, now, token).1.conn;
    }
  }

  /** A release of a connection that is checked out, written out: back among the idle with
      the stamp of its check-out and the next push number, or evicted if broken; and either
      way the oldest waiter is woken. */
  lemma ReleaseExactly(p: Pool, conn: nat, broken: bool)
    requires conn in p.inUse && p.inUse[conn].Some?
    ensures
      var (q, woken) := Released(p, conn, broken);
      && q.inUse == p.inUse - {conn}
      && q.idle == (if broken then p.idle else p.idle + [Idle(p.inUse[conn].value, p.pushes, conn)])
      && q.pushes == (if broken then p.pushes else p.pushes + 1) && q.evicted == (if broken then p.evicted + 1 else p.evicted)
      && (if p.waiters == [] then woken == None && q.waiters == [] else woken == Some(p.waiters[0]) && q.waiters == p.waiters[1..])
  {
  }

  /** When connection `k` was last checked out in the run: the time of the latest step that
      made a call its holder. */
  function CheckedOut(min: nat, max: nat, steps: seq<Step>, k: nat): Option<real> {
    if steps == [] then None
    else
      var (before, step) := (steps[..|steps| - 1], steps[|steps| - 1]);
      var s := Run(min, max, before);
      if (step.Contend? || step.CreateDone?) && Enabled(s, step) && Next(s, step).calls[step.call] == Holding(k) then Some(step.now)
      else CheckedOut(min, max, before, k)
  }

  /** Stamps are check-out times, and push numbers rise in the order of the releases. */
  ghost predicate Stamped(p: Pool, at: nat -> Option<real>) {
    && (forall x :: x in p.idle ==> at(x.conn) == Some(x.stamp))
    && (forall k :: k in p.inUse && p.inUse[k].Some? ==> at(k) == p.inUse[k])
    && (forall i, j :: 0 <= i < j < |p.idle| ==> p.idle[i].seqNo < p.idle[j].seqNo)
    && (forall x :: x in p.idle ==> x.seqNo < p.pushes)
  }

  lemma StampedContend(s: System, c: nat, now: real, at: nat -> Option<real>, at': nat -> Option<real>)
    requires Ownership(s) && Stamped(s.pool, at) && Enabled(s, Contend(c, now))
    requires forall k: nat :: at'(k) == if AfterContend(s, c, now).calls[c] == Holding(k) then Some(now) else at(k)
    ensures Stamped(AfterContend(s, c, now).pool, at')
  {
    if s.pool.idle != [] {
      var i := First(s.pool.idle);
      PopApart(s.pool.idle, i);
      assert s.pool.idle[i] in s.pool.idle;
    }
  }

  lemma StampedDone(s: System, c: nat, now: real, at: nat -> Option<real>, at': nat -> Option<real>)
    requires Ownership(s) && Stamped(s.pool, at) && Enabled(s, CreateDone(c, now))
    requires forall k: nat :: at'(k) == if k == s.next then Some(now) else at(k)
    ensures Stamped(Next(s, CreateDone(c, now)).pool, at')
  {
  }

  lemma StampedRelease(s: System, c: nat, broken: bool, at: nat -> Option<real>)
    requires Ownership(s) && Stamped(s.pool, at) && Enabled(s, Release(c, broken))
    ensures Stamped(AfterRelease(s, c, broken).pool, at)
  {
  }

  lemma StampedStep(s: System, step: Step, at: nat -> Option<real>, at': nat -> Option<real>)
    requires Ownership(s) && Stamped(s.pool, at) && Enabled(s, step)
    requires forall k: nat :: at'(k) ==
               if (step.Contend? || step.CreateDone?) && Next(s, step).calls[step.call] == Holding(k) then Some(step.now) else at(k)
    ensures Stamped(Next(s, step).pool, at')
  {
    match step
    case Contend(c, now) => StampedContend(s, c, now, at, at');
    case CreateDone(c, now) => StampedDone(s, c, now, at, at');
    case Release(c, broken) => StampedRelease(s, c, broken, at);
    case _ =>
  }

  /** In every reachable state an idle connection's stamp, and that of one in use, is the
      time of its last check-out, and push numbers rise in the order of the releases. */
  lemma {:induction false} StampedAlways(min: nat, max: nat, steps: seq<Step>)
    ensures Stamped(Run(min, max, steps).pool, (k: nat) => CheckedOut(min, max, steps, k))
  {
    if steps != [] {
      var (before, step) := (steps[..|steps| - 1], steps[|steps| - 1]);
      StampedAlways(min, max, before);
      PoolSafety(min, max, before);
      if Enabled(Run(min, max, before), step) {
        StampedStep(Run(min, max, before), step, (k: nat) => CheckedOut(min, max, before, k), (k: nat) => CheckedOut(min, max, steps, k));
      }
    }
  }

  /** `total_waiters_ever` counts the times a call was queued, each with an event of its
      own. */
  lemma {:induction false} WaitersCounted(min: nat, max: nat, steps: seq<Step>)
    ensures Run(min, max, steps).pool.totalWaiters == |Run(min, max, steps).waiter|
    ensures forall e :: e in Run(min, max, steps).waiter ==> e < Run(min, max, steps).next
  {
    if steps != [] {
      var (before, step) := (steps[..|steps| - 1], steps[|steps| - 1]);
      var s := Run(min, max, before);
      WaitersCounted(min, max, before);
      if Enabled(s, step) {
        WaiterStep(s, step);
      }
    }
  }

  lemma WaiterStep(s: System, step: Step)
    requires Enabled(s, step) && s.pool.totalWaiters == |s.waiter| && forall e :: e in s.waiter ==> e < s.next
    ensures Next(s, step).pool.totalWaiters == |Next(s, step).waiter| && forall e :: e in Next(s, step).waiter ==> e < Next(s, step).next
  {
    if step.Contend? {
      MapSizes(s.waiter, s.next, step.call);
    }
  }

  // ---------------------------------------------------------------- stranded waiters

  /** An idle connection beside a queued waiter, and nobody about to resume. */
  ghost predicate Stranded(s: System) {
    s.pool.waiters != [] && s.pool.idle != [] && Resuming(s.calls, s.fired) == {}
  }

  /** The step takes the last call about to resume away from others that wait beside an
      idle connection: it leaves, its event set, or takes one of several. */
  ghost predicate Strands(s: System, step: Step) {
    match step
    case TimeOut(c) => s.pool.waiters != [] && s.pool.idle != [] && Resuming(s.calls, s.fired) == {c}
    case CancelWait(c) => s.pool.waiters != [] && s.pool.idle != [] && Resuming(s.calls, s.fired) == {c}
    case Contend(c, _) => s.pool.waiters != [] && |s.pool.idle| > 1 && Resuming(s.calls, s.fired) == {c}
    case _ => false
  }

  /** The step helps a stranded pool: a release wakes a waiter, another call takes the
      last idle connection, or the last waiter leaves. */
  ghost predicate Rescues(s: System, step: Step) {
    match step
    case Release(_, _) => true
    case Contend(_, _) => |s.pool.idle| == 1
    case TimeOut(_) => |s.pool.waiters| == 1
    case CancelWait(_) => |s.pool.waiters| == 1
    case _ => false
  }

  lemma DropSize(w: seq<nat>, e: nat)
    requires Ascending(w)
    ensures e in w ==> |Drop(w, e)| == |w| - 1
    ensures e !in w ==> Drop(w, e) == w
  {
    if w != [] {
      PopFirst(w);
      DropSize(w[1..], e);
    }
  }

  /** After `c` is no longer about to resume, nobody is, if it was the only one. */
  lemma LastResumes(s: System, c: nat)
    ensures Resuming(s.calls, s.fired) - {c} == {} <==> Resuming(s.calls, s.fired) <= {c}
    ensures Resuming(s.calls, s.fired) <= {c} <==> Resuming(s.calls, s.fired) == {} || Resuming(s.calls, s.fired) == {c}
  {
  }

  lemma StrandLeave(s: System, c: nat)
    requires Queueing(s) && c in s.calls && s.calls[c].Waiting?
    ensures var t := Leave(s, c);
            Stranded(t) <==> if Stranded(s) then |s.pool.waiters| != 1 else Strands(s, TimeOut(c))
  {
    var (e, r) := (s.calls[c].event, Resuming(s.calls, s.fired));
    ResumingChange(s.calls, s.fired, c, Entering(true));
    LastResumes(s, c);
    LeaveWaiters(s, c);
    assert c in r <==> e in s.fired;
  }

  /** The waiters left are as many, or one fewer if the call was still to be woken. */
  lemma LeaveWaiters(s: System, c: nat)
    requires Queueing(s) && c in s.calls && s.calls[c].Waiting?
    ensures |Leave(s, c).pool.waiters| == |s.pool.waiters| - if s.calls[c].event in s.fired then 0 else 1
    ensures s.calls[c].event !in s.fired ==> s.pool.waiters != []
  {
    DropSize(s.pool.waiters, s.calls[c].event);
  }

  lemma StrandContend(s: System, c: nat, now: real)
    requires Enabled(s, Contend(c, now))
    ensures Stranded(AfterContend(s, c, now)) <==> if Stranded(s) then |s.pool.idle| != 1 else Strands(s, Contend(c, now))
  {
    ResumingChange(s.calls, s.fired, c, AfterContend(s, c, now).calls[c]);
    LastResumes(s, c);
    var t := AfterContend(s, c, now);
    assert |t.pool.idle| == (if s.pool.idle == [] then 0 else |s.pool.idle| - 1);
    assert s.pool.idle != [] ==> t.pool.waiters == s.pool.waiters && t.calls[c].Holding?;
  }

  lemma StrandRelease(s: System, c: nat, broken: bool)
    requires Safe(s) && Enabled(s, Release(c, broken))
    ensures !Stranded(AfterRelease(s, c, broken))
  {
    if s.pool.waiters != [] {
      FiringResumes(s, c);
    }
  }

  lemma StrandOther(s: System, t: System, c: nat)
    requires t.pool.waiters == s.pool.waiters && t.pool.idle == s.pool.idle && t.fired == s.fired
    requires t.calls == s.calls - {c} || (c in t.calls && t.calls == s.calls[c := t.calls[c]])
    requires (c in s.calls && Resumes(s.calls[c], s.fired)) == (c in t.calls && Resumes(t.calls[c], t.fired))
    ensures Stranded(t) == Stranded(s)
  {
    assert Resuming(t.calls, t.fired) == Resuming(s.calls, s.fired);
  }

  /** The exact condition, step by step: a pool becomes stranded, or stays so, exactly by
      these steps. */
  lemma StrandsExactly(s: System, step: Step)
    requires Safe(s) && Enabled(s, step)
    ensures Stranded(Next(s, step)) <==> if Stranded(s) then !Rescues(s, step) else Strands(s, step)
  {
    match step
    case Start(c) => StrandOther(s, Next(s, step), c);
    case Contend(c, now) => StrandContend(s, c, now);
    case Wake(c) => StrandOther(s, Next(s, step), c);
    case TimeOut(c) => StrandLeave(s, c);
    case CancelWait(c) => StrandLeave(s, c);
    case CreateDone(c, _) => StrandOther(s, Next(s, step), c);
    case CreateFailed(c) => StrandOther(s, Next(s, step), c);
    case Release(c, broken) => StrandRelease(s, c, broken);
    case Observe(_) =>
    case Warm(_) =>
  }

  /** Step `i` strands the run, and none after it rescues it. */
  ghost predicate StrandedSince(min: nat, max: nat, steps: seq<Step>, i: nat) {
    && i < |steps|
    && Enabled(Run(min, max, steps[..i]), steps[i]) && Strands(Run(min, max, steps[..i]), steps[i])
    && forall j :: i < j < |steps| ==>
         !(Enabled(Run(min, max, steps[..j]), steps[j]) && Rescues(Run(min, max, steps[..j]), steps[j]))
  }

  lemma SinceLater(min: nat, max: nat, steps: seq<Step>, i: nat)
    requires steps != [] && i < |steps| - 1
    ensures var (before, step) := (steps[..|steps| - 1], steps[|steps| - 1]);
            StrandedSince(min, max, steps, i) <==>
              StrandedSince(min, max, before, i) && !(Enabled(Run(min, max, before), step) && Rescues(Run(min, max, before), step))
  {
    var before := steps[..|steps| - 1];
    forall j | 0 <= j < |before| ensures before[..j] == steps[..j] && before[j] == steps[j] {
    }
  }

  lemma StrandedStep(min: nat, max: nat, steps: seq<Step>)
    requires steps != []
    ensures var (before, step) := (steps[..|steps| - 1], steps[|steps| - 1]);
            var s := Run(min, max, before);
            Stranded(Run(min, max, steps)) <==>
              if Stranded(s) then !(Enabled(s, step) && Rescues(s, step)) else Enabled(s, step) && Strands(s, step)
  {
    var s := Run(min, max, steps[..|steps| - 1]);
    PoolSafety(min, max, steps[..|steps| - 1]);
    if Enabled(s, steps[|steps| - 1]) {
      StrandsExactly(s, steps[|steps| - 1]);
    }
  }

  ghost predicate EverSince(min: nat, max: nat, steps: seq<Step>) {
    exists i: nat :: StrandedSince(min, max, steps, i)
  }

  lemma EverSinceLater(min: nat, max: nat, steps: seq<Step>)
    requires steps != []
    ensures var (before, step) := (steps[..|steps| - 1], steps[|steps| - 1]);
            var s := Run(min, max, before);
            EverSince(min, max, steps) <==>
              (Enabled(s, step) && Strands(s, step)) || (EverSince(min, max, before) && !(Enabled(s, step) && Rescues(s, step)))
  {
    var last := |steps| - 1;
    if i: nat :| StrandedSince(min, max, steps, i) {
      if i < last { SinceLater(min, max, steps, i); }
    }
    if i: nat :| StrandedSince(min, max, steps[..last], i) {
      SinceLater(min, max, steps, i);
    }
    if Enabled(Run(min, max, steps[..last]), steps[last]) && Strands(Run(min, max, steps[..last]), steps[last]) {
      assert StrandedSince(min, max, steps, last);
    }
  }

  /** The exact condition over whole runs: the pool is stranded exactly when some step
      took away the last call about to resume and no step since has helped. */
  lemma {:induction false} StrandedExactly(min: nat, max: nat, steps: seq<Step>)
    ensures Stranded(Run(min, max, steps)) <==> EverSince(min, max, steps)
  {
    if steps != [] {
      StrandedExactly(min, max, steps[..|steps| - 1]);
      StrandedStep(min, max, steps);
      EverSinceLater(min, max, steps);
    }
  }

  // ---------------------------------------------------------------- room left unused

  /** Is a connection idle, or may one more be created? */
  predicate Available(p: Pool) { p.idle != [] || |p.inUse| < p.sizer.current }

  /** A queued waiter beside an idle connection or room for a new one, and nobody about to
      resume. */
  ghost predicate Stalled(s: System) {
    s.pool.waiters != [] && Available(s.pool) && Resuming(s.calls, s.fired) == {}
  }

  /** Nobody but `c` is about to resume. */
  ghost predicate OnlyResumes(s: System, c: nat) { Resuming(s.calls, s.fired) <= {c} }

  /** What the step makes of it, told before it is taken. A call that looks must leave more
      than it takes, and one that leaves must not be the last waiter; a creation that fails
      and a sizer that grows make room that nobody is woken for. */
  ghost predicate Stalls(s: System, step: Step)
    requires Enabled(s, step)
  {
    var p := s.pool;
    match step
    case Start(_) => Stalled(s)
    case Wake(_) => Stalled(s)
    case CreateDone(_, _) => Stalled(s)
    case Contend(c, _) => p.waiters != [] && OnlyResumes(s, c) && (|p.idle| > 1 || |p.inUse| + 1 < p.sizer.current)
    case TimeOut(c) => |p.waiters| > (if s.calls[c].event in s.fired then 0 else 1) && OnlyResumes(s, c) && Available(p)
    case CancelWait(c) => |p.waiters| > (if s.calls[c].event in s.fired then 0 else 1) && OnlyResumes(s, c) && Available(p)
    case CreateFailed(_) => p.waiters != [] && Resuming(s.calls, s.fired) == {} && (p.idle != [] || |p.inUse| - 1 < p.sizer.current)
    case Release(_, _) => false
    case Observe(ms) => p.waiters != [] && Resuming(s.calls, s.fired) == {} && (p.idle != [] || |p.inUse| < Adjusted(p.sizer, Signal(|p.waiters|, ms)).current)
    case Warm(target) =>
      p.waiters != [] && Resuming(s.calls, s.fired) == {} && (p.idle != [] || |p.inUse| < Max(p.sizer.current, Min(target, p.sizer.max)))
  }

  lemma StallContend(s: System, c: nat, now: real)
    requires Ownership(s) && Enabled(s, Contend(c, now))
    ensures Stalled(AfterContend(s, c, now)) <==> Stalls(s, Contend(c, now))
  {
    AttemptRoom(s.pool, now, s.next);
    if Available(Attempted(s.pool, now, s.next).0) {
      StallLooked(s, AfterContend(s, c, now), c);
    }
  }

  lemma StallLooked(s: System, t: System, c: nat)
    requires Available(t.pool) && t.pool.waiters == s.pool.waiters && t.fired == s.fired
    requires c in t.calls && t.calls == s.calls[c := t.calls[c]] && !Resumes(t.calls[c], s.fired)
    ensures Stalled(t) <==> s.pool.waiters != [] && OnlyResumes(s, c)
  {
    ResumingChange(s.calls, s.fired, c, t.calls[c]);
    LastResumes(s, c);
  }

  /** The room after a round of `acquire`, and the waiters. */
  lemma AttemptRoom(p: Pool, now: real, token: nat)
    requires token !in p.inUse && forall x :: x in p.idle ==> x.conn !in p.inUse
    ensures var q := Attempted(p, now, token).0;
            && (Available(q) <==> |p.idle| > 1 || |p.inUse| + 1 < p.sizer.current)
            && (Available(q) ==> q.waiters == p.waiters)
  {
    AttemptSizes(p, now, token);
  }

  lemma StallLeave(s: System, c: nat)
    requires Queueing(s) && c in s.calls && s.calls[c].Waiting?
    ensures Stalled(Leave(s, c)) <==> Stalls(s, TimeOut(c))
  {
    ResumingChange(s.calls, s.fired, c, Entering(true));
    LastResumes(s, c);
    LeaveWaiters(s, c);
  }

  lemma StallFailed(s: System, c: nat)
    requires Ownership(s) && Enabled(s, CreateFailed(c))
    ensures Stalled(Next(s, CreateFailed(c))) <==> Stalls(s, CreateFailed(c))
  {
    NotResuming(s.calls, s.fired, c, Entering(false));
    MapSizes(s.pool.inUse, s.calls[c].key, None);
  }

  lemma StallDone(s: System, c: nat, now: real)
    requires Ownership(s) && Enabled(s, CreateDone(c, now))
    ensures Stalled(Next(s, CreateDone(c, now))) <==> Stalled(s)
  {
    NotResuming(s.calls, s.fired, c, Holding(s.next));
    FinishSizes(s.pool, s.calls[c].key, s.next, now);
  }

  lemma StallRelease(s: System, c: nat, broken: bool)
    requires Queueing(s) && Enabled(s, Release(c, broken)) && Ownership(s)
    ensures !Stalled(AfterRelease(s, c, broken))
  {
    if s.pool.waiters != [] {
      FiringResumes(s, c);
    }
  }

  lemma StallMoves(s: System, t: System, c: nat, p: Phase)
    requires t.pool.waiters == s.pool.waiters && t.pool.idle == s.pool.idle && t.pool.inUse == s.pool.inUse && t.pool.sizer == s.pool.sizer
    requires t.fired == s.fired && t.calls == s.calls[c := p]
    requires (c in s.calls && Resumes(s.calls[c], s.fired)) == Resumes(p, s.fired)
    ensures Stalled(t) <==> Stalled(s)
  {
    assert Resuming(t.calls, t.fired) == Resuming(s.calls, s.fired);
  }

  /** The exact condition for a waiter left beside room: after any run, the next step leaves
      one exactly when `Stalls` says so. */
  lemma StallsExactly(min: nat, max: nat, steps: seq<Step>, step: Step)
    requires Enabled(Run(min, max, steps), step)
    ensures var s := Run(min, max, steps);
            Stalled(Next(s, step)) <==> Stalls(s, step)
  {
    PoolSafety(min, max, steps);
    StallStep(Run(min, max, steps), step);
  }

  lemma StallStep(s: System, step: Step)
    requires Ownership(s) && Queueing(s) && Enabled(s, step)
    ensures Stalled(Next(s, step)) <==> Stalls(s, step)
  {
    match step
    case Start(c) => StallMoves(s, Next(s, step), c, Entering(false));
    case Wake(c) => StallMoves(s, Next(s, step), c, Entering(true));
    case Contend(c, now) => StallContend(s, c, now);
    case TimeOut(c) => StallLeave(s, c);
    case CancelWait(c) => StallLeave(s, c);
    case CreateDone(c, now) => StallDone(s, c, now);
    case CreateFailed(c) => StallFailed(s, c);
    case Release(c, broken) => StallRelease(s, c, broken);
    case Observe(_) =>
    case Warm(_) =>
  }

  /** When no wake-up was lost, an idle connection beside a waiter means that a call
      is about to resume. */
  lemma NoneStranded(min: nat, max: nat, steps: seq<Step>)
    ensures var s := Run(min, max, steps);
            s.lost == 0 && s.pool.waiters != [] && s.pool.idle != [] ==> Resuming(s.calls, s.fired) != {}
  {
    PoolSafety(min, max, steps);
  }

  /** And when one was lost it need not: the call woken by the release is cancelled
      before it resumes, and the second waiter stays queued beside an idle
      connection with nobody left to resume. */
  lemma OneStranded() returns (steps: seq<Step>)
    ensures var s := Run(1, 1, steps);
            s.lost == 1 && Stranded(s)
  {
    var s, a := TwoQueued();
    var t, b := Extend(a, s, Release(0, false));
    assert t.pool.waiters == [3] && t.pool.idle == [Idle(0.0, 0, 1)];
    assert t.calls == map[1 := Waiting(2), 2 := Waiting(3)] && t.fired == {2};
    var u, c := Extend(b, t, CancelWait(1));
    assert u.calls == map[2 := Waiting(3)];
    steps := c;
  }

  /** One connection, checked out by call 0, and calls 1 and 2 queued for it. */
  lemma TwoQueued() returns (s: System, steps: seq<Step>)
    ensures s == Run(1, 1, steps)
    ensures s.pool.waiters == [2, 3] && s.pool.idle == [] && s.pool.inUse == map[1 := Some(0.0)] && s.pool.pushes == 0
    ensures s.calls == map[0 := Holding(1), 1 := Waiting(2), 2 := Waiting(3)] && s.fired == {} && s.lost == 0
  {
    var r, a := OneHeld();
    s, steps := Extend(a, r, Start(1));
    s, steps := Extend(steps, s, Contend(1, 0.0));
    assert s.pool.waiters == [2] && s.calls == map[0 := Holding(1), 1 := Waiting(2)];
    s, steps := Extend(steps, s, Start(2));
    s, steps := Extend(steps, s, Contend(2, 0.0));
  }

  lemma OneHeld() returns (s: System, steps: seq<Step>)
    ensures s == Run(1, 1, steps)
    ensures s.pool.waiters == [] && s.pool.idle == [] && s.pool.inUse == map[1 := Some(0.0)] && s.pool.pushes == 0
    ensures s.pool.sizer.current == 1 && s.next == 2 && s.calls == map[0 := Holding(1)] && s.fired == {} && s.lost == 0
  {
    s, steps := Run(1, 1, []), [];
    s, steps := Extend(steps, s, Start(0));
    s, steps := Extend(steps, s, Contend(0, 0.0));
    assert s.pool.inUse == map[0 := None] && s.calls == map[0 := Creating(0)];
    s, steps := Extend(steps, s, CreateDone(0, 0.0));
    assert s.pool.inUse.Keys == {1};
  }

  lemma Extend(steps: seq<Step>, s: System, step: Step) returns (t: System, longer: seq<Step>)
    requires s == Run(1, 1, steps) && Enabled(s, step)
    ensures t == Next(s, step) && longer == steps + [step] && t == Run(1, 1, longer)
  {
    t, longer := Next(s, step), steps + [step];
    assert longer[..|longer| - 1] == steps;
  }

  // ---------------------------------------------------------------- the class

  class AsyncConnectionPool {
    var available: seq<Idle>
    var inUse: map<nat, Option<real>>
    var waiters: seq<nat>
    var counter: nat
    var requests: nat
    var hits: nat
    var misses: nat
    var timeouts: nat
    var successfulAcquires: nat
    var totalWaitersEver: nat
    var connectionCreationCount: nat
    var brokenEvicted: nat
    const sizer: AdaptiveSizer

    function State(): Pool reads this, sizer {
      Pool(available, inUse, waiters, counter, sizer.State(), requests, hits, misses, timeouts, successfulAcquires,
           totalWaitersEver, connectionCreationCount, brokenEvicted)
    }

    constructor (min: nat, max: nat)
      ensures State() == NewPool(min, max) && fresh(sizer)
    {
      available, inUse, waiters, counter := [], map[], [], 0;
      requests, hits, misses, timeouts, successfulAcquires := 0, 0, 0, 0, 0;
      totalWaitersEver, connectionCreationCount, brokenEvicted := 0, 0, 0;
      sizer := new AdaptiveSizer(min, max);
    }

    method Begin()
      modifies this
      ensures State() == old(State()).(requests := old(requests) + 1)
    {
      requests := requests + 1;
    }

    /** The locked section of one round of `acquire`. */
    method TryAcquire(now: real, token: nat) returns (a: Attempt)
      modifies this
      ensures (State(), a) == Attempted(old(State()), now, token)
    {
      if |available| > 0 {
        var i := FindFirst();
        var conn := available[i].conn;
        available := Removed(available, i);
        RecordAcquire(true);
        inUse := inUse[conn := Some(now)];
        return Got(conn);
      }
      if |inUse| < sizer.current {
        inUse := inUse[token := None];
        return Reserved(token);
      }
      waiters := waiters + [token];
      totalWaitersEver := totalWaitersEver + 1;
      return Queued(token);
    }

    method FindFirst() returns (i: nat)
      requires available != []
      ensures i < |available| && i == First(available)
    {
      i := 0;
      for n := 1 to |available|
        invariant i < n && i == First(available[..n])
      {
        assert available[..n + 1][..n] == available[..n];
        if !Before(available[i], available[n]) {
          i := n;
        }
      }
      assert available[..|available|] == available;
    }

    method RecordAcquire(hit: bool)
      modifies `successfulAcquires, `hits
      ensures successfulAcquires == old(successfulAcquires) + 1 && hits == old(hits) + if hit then 1 else 0
    {
      successfulAcquires := successfulAcquires + 1;
      if hit {
        hits := hits + 1;
      }
    }

    /** The locked section after a connection was created. */
    method FinishCreate(key: nat, conn: nat, now: real)
      modifies this
      ensures State() == Finished(old(State()), key, conn, now)
    {
      inUse := inUse - {key};
      connectionCreationCount := connectionCreationCount + 1;
      misses := misses + 1;
      RecordAcquire(false);
      inUse := inUse[conn := Some(now)];
    }

    /** The locked section after creation failed or was cancelled. */
    method AbandonCreate(key: nat)
      modifies this
      ensures State() == Abandoned(old(State()), key)
    {
      inUse := inUse - {key};
    }

    /** A waiter's own event leaves the queue, after a timeout or a cancellation. */
    method LeaveQueue(event: nat, timedOut: bool)
      modifies this
      ensures State() == LeftQueue(old(State()), event).(timeouts := old(timeouts) + if timedOut then 1 else 0)
    {
      DropAbsent(waiters, event);
      if event in waiters {
        waiters := Drop(waiters, event);
      }
      if timedOut {
        timeouts := timeouts + 1;
      }
    }

    method Release(conn: nat, broken: bool) returns (woken: Option<nat>)
      modifies this
      ensures (State(), woken) == Released(old(State()), conn, broken)
    {
      if conn !in inUse {
        return None;
      }
      var checkedOut := inUse[conn];
      inUse := inUse - {conn};
      if checkedOut.None? {
        return None;
      }
      if broken {
        brokenEvicted := brokenEvicted + 1;
      } else {
        available := available + [Idle(checkedOut.value, counter, conn)];
        counter := counter + 1;
      }
      if |waiters| > 0 {
        woken := Some(waiters[0]);
        waiters := waiters[1..];
      } else {
        woken := None;
      }
    }

    /** The part of `metrics` that has an effect. */
    method Observe(recentWaitMs: real)
      modifies sizer
      ensures State() == old(State()).(sizer := Adjusted(old(State()).sizer, Signal(|waiters|, recentWaitMs)))
    {
      var _ := sizer.Adjust(|waiters|, recentWaitMs);
    }
  }

  lemma {:induction false} DropAbsent(s: seq<nat>, e: nat)
    ensures e !in s ==> Drop(s, e) == s
  {
    if s != [] {
      DropAbsent(s[1..], e);
    }
  }
}
