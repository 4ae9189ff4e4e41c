/** The blocking connection pool (`core/db/pool/sync_pool.py`): threads waiting on one
    condition variable. The idle heap and the slots are those of the asynchronous
    pool, and every step is one of its steps or leaves them alone. */
module SyncPooling {
  import opened Wrappers
  import opened AdaptiveSizing
  import A = AsyncPooling

  /** `counted` says whether the thread was added to the waiter counter. A blocked
      thread is in the condition's queue, and so is an expired one, whose wait timed
      out, until it takes the lock or a notification taken from the queue finds it; a
      notified one has left it and still has to take the lock; a finishing one has its
      outcome but has not yet taken itself off the counter. */
  datatype Phase =
    | Entering
    | Blocked
    | Notified
    | Expired
    | Creating(key: nat, counted: bool)
    | Finishing(result: Option<nat>, counted: bool)
    | Holding(conn: nat)

  datatype System = System(pool: A.Pool, currentWaiters: int, queue: seq<nat>, threads: map<nat, Phase>, owner: map<nat, nat>, next: nat,
                           failed: nat)

  datatype Step =
    | Start(thread: nat)
    | Contend(thread: nat, now: real, pastDeadline: bool)
    | Expire(thread: nat)
    | CreateDone(thread: nat, now: real)
    | CreateFailed(thread: nat)
    | Leave(thread: nat)
    | Release(thread: nat, broken: bool)
    | Observe(recentWaitMs: real)
    | Warm(target: nat)

  predicate Looking(p: Phase) { p.Entering? || p.Notified? }

  predicate Contending(p: Phase) { Looking(p) || p.Expired? }

  predicate Enabled(s: System, step: Step) {
    match step
    case Start(t) => t !in s.threads
    case Contend(t, _, _) => t in s.threads && Contending(s.threads[t])
    case Expire(t) => t in s.threads && s.threads[t].Blocked?
    case CreateDone(t, _) => t in s.threads && s.threads[t].Creating?
    case CreateFailed(t) => t in s.threads && s.threads[t].Creating?
    case Leave(t) => t in s.threads && s.threads[t].Finishing?
    case Release(t, _) => t in s.threads && s.threads[t].Holding?
    case Observe(_) => true
    case Warm(_) => true
  }

  /** A thread whose wait timed out takes itself off the condition's queue once it has
      the lock, and is then like a notified one. */
  function Reentered(s: System, t: nat): System
    requires t in s.threads
  {
    if s.threads[t].Expired? then s.(queue := A.Drop(s.queue, t), threads := s.threads[t := Notified]) else s
  }

  function AfterContend(s: System, t: nat, now: real, pastDeadline: bool): System
    requires t in s.threads
  {
    AfterLook(Reentered(s, t), t, now, pastDeadline)
  }

  /** One locked round of `acquire`. With nothing available the thread counts itself
      as waiting, then blocks, or raises when its deadline has passed. */
  function AfterLook(s: System, t: nat, now: real, pastDeadline: bool): System
    requires t in s.threads
  {
    var counted := !s.threads[t].Entering?;
    if A.Available(s.pool) then
      var (p, a) := A.Attempted(s.pool, now, s.next);
      match a
      case Got(conn) => s.(pool := p, threads := s.threads[t := Finishing(Some(conn), counted)], owner := s.owner[conn := t])
      case Reserved(key) => s.(pool := p, threads := s.threads[t := Creating(key, counted)], owner := s.owner[key := t], next := s.next + 1)
      case Queued(_) => s
    else
      var c := if counted then s
               else s.(currentWaiters := s.currentWaiters + 1, pool := s.pool.(totalWaiters := s.pool.totalWaiters + 1));
      if pastDeadline then c.(threads := s.threads[t := Finishing(None, true)], pool := c.pool.(timeouts := c.pool.timeouts + 1))
      else c.(threads := s.threads[t := Blocked], queue := s.queue + [t])
  }

  /** `notify` takes the oldest thread off the condition's queue, expired or not. */
  function AfterRelease(s: System, t: nat, broken: bool): System
    requires t in s.threads && s.threads[t].Holding?
  {
    var gone := s.(pool := A.Released(s.pool, s.threads[t].conn, broken).0, threads := s.threads - {t});
    if s.queue == [] then gone
    else gone.(queue := s.queue[1..], threads := gone.threads[s.queue[0] := Notified])
  }

  function Next(s: System, step: Step): System
    requires Enabled(s, step)
  {
    match step
    case Start(t) => s.(threads := s.threads[t := Entering], pool := s.pool.(requests := s.pool.requests + 1))
    case Contend(t, now, past) => AfterContend(s, t, now, past)
    case Expire(t) => s.(threads := s.threads[t := Expired])
    case CreateDone(t, now) =>
      var Creating(key, counted) := s.threads[t];
      s.(pool := A.Finished(s.pool, key, s.next, now), threads := s.threads[t := Finishing(Some(s.next), counted)],
         owner := s.owner[s.next := t], next := s.next + 1)
    case CreateFailed(t) =>
      var Creating(key, counted) := s.threads[t];
      s.(pool := A.Abandoned(s.pool, key), threads := s.threads[t := Finishing(None, counted)], failed := s.failed + 1)
    case Leave(t) =>
      var Finishing(result, counted) := s.threads[t];
      s.(currentWaiters := if counted then s.currentWaiters - 1 else s.currentWaiters,
         threads := if result.Some? then s.threads[t := Holding(result.value)] else s.threads - {t})
    case Release(t, broken) => AfterRelease(s, t, broken)
    case Observe(ms) =>
      s.(pool := s.pool.(sizer := Adjusted(s.pool.sizer, Signal(if s.currentWaiters > 0 then s.currentWaiters else 0, ms))))
    case Warm(target) =>
      var z := s.pool.sizer;
      s.(pool := s.pool.(sizer := z.(current := Max(z.current, Min(target, z.max)))))
  }

  function Run(min: nat, max: nat, steps: seq<Step>): System {
    if steps == [] then System(A.NewPool(min, max), 0, [], map[], map[], 0, 0)
    else
      var s := Run(min, max, steps[..|steps| - 1]);
      if Enabled(s, steps[|steps| - 1]) then Next(s, steps[|steps| - 1]) else s
  }

  // ---------------------------------------------------------------- as an asynchronous pool

  function Call(p: Phase): A.Phase {
    match p
    case Creating(key, _) => A.Creating(key)
    case Finishing(Some(conn), _) => A.Holding(conn)
    case Holding(conn) => A.Holding(conn)
    case _ => A.Entering(false)
  }

  predicate Present(p: Phase) { p != Finishing(None, true) && p != Finishing(None, false) }

  function Calls(m: map<nat, Phase>): map<nat, A.Phase> {
    map t | t in m && Present(m[t]) :: Call(m[t])
  }

  /** The same slots and the same holders; blocked threads are calls yet to contend. */
  function Abstract(s: System): A.System {
    A.System(s.pool, Calls(s.threads), {}, s.owner, map[], s.next, 0, 0, 0)
  }

  lemma CallsChange(m: map<nat, Phase>, t: nat, p: Phase)
    ensures Calls(m[t := p]) == if Present(p) then Calls(m)[t := Call(p)] else Calls(m) - {t}
    ensures Calls(m - {t}) == Calls(m) - {t}
  {
  }

  /** The slots are safe: owned by exactly one thread, conserved, within capacity. */
  ghost predicate SlotsSafe(s: System) {
    && s.pool.waiters == []
    && A.Ownership(Abstract(s)) && A.WithinCapacity(Abstract(s)) && A.ConnectionsConserved(s.pool)
  }

  // ---------------------------------------------------------------- waiting

  function NotifiedIn(m: map<nat, Phase>): set<nat> { set t | t in m && m[t].Notified? }

  predicate Queued(p: Phase) { p.Blocked? || p.Expired? }

  function QueuedIn(m: map<nat, Phase>): set<nat> { set t | t in m && Queued(m[t]) }

  predicate Counts(p: Phase) {
    p.Blocked? || p.Notified? || p.Expired? || (p.Creating? && p.counted) || (p.Finishing? && p.counted)
  }

  function Counted(m: map<nat, Phase>): set<nat> { set t | t in m && Counts(m[t]) }

  ghost predicate NoRepeats(q: seq<nat>) { forall i, j :: 0 <= i < j < |q| ==> q[i] != q[j] }

  /** The condition's queue is exactly the blocked and expired threads, and the counter
      counts the threads that waited and have not left. */
  ghost predicate Waiting(s: System) {
    && NoRepeats(s.queue)
    && (forall t :: t in s.queue <==> t in QueuedIn(s.threads))
    && s.currentWaiters == |Counted(s.threads)|
  }

  /** Either nobody is blocked, or there are no more idle connections than threads
      notified and about to look. */
  ghost predicate NoLostWakeup(s: System) {
    s.queue != [] ==> |s.pool.idle| <= |NotifiedIn(s.threads)|
  }

  predicate UnderWay(p: Phase) { Contending(p) || p.Blocked? || p.Creating? }

  function UnderWayIn(m: map<nat, Phase>): set<nat> { set t | t in m && UnderWay(m[t]) }

  /** Every request has got a connection, raised, failed to create one, or is on its way. */
  ghost predicate RequestsConserved(s: System) {
    s.pool.requests == s.pool.successes + s.pool.timeouts + s.failed + |UnderWayIn(s.threads)|
  }

  lemma NotifiedChange(m: map<nat, Phase>, t: nat, p: Phase)
    ensures NotifiedIn(m[t := p]) == if p.Notified? then NotifiedIn(m) + {t} else NotifiedIn(m) - {t}
    ensures NotifiedIn(m - {t}) == NotifiedIn(m) - {t}
  {
  }

  lemma QueuedChange(m: map<nat, Phase>, t: nat, p: Phase)
    ensures QueuedIn(m[t := p]) == if Queued(p) then QueuedIn(m) + {t} else QueuedIn(m) - {t}
    ensures QueuedIn(m - {t}) == QueuedIn(m) - {t}
  {
  }

  /** How the number of counted threads moves with one thread. */
  lemma CountedChange(m: map<nat, Phase>, t: nat, p: Phase)
    ensures |Counted(m[t := p])| == |Counted(m - {t})| + if Counts(p) then 1 else 0
    ensures |Counted(m)| == |Counted(m - {t})| + if t in m && Counts(m[t]) then 1 else 0
  {
    var c := Counted(m - {t});
    assert Counted(m[t := p]) == if Counts(p) then c + {t} else c;
    assert Counted(m) == if t in m && Counts(m[t]) then c + {t} else c;
    assert t !in c;
  }

  /** How the number of requests on their way moves with one thread. */
  lemma UnderWayChange(m: map<nat, Phase>, t: nat, p: Phase)
    ensures |UnderWayIn(m[t := p])| == |UnderWayIn(m - {t})| + if UnderWay(p) then 1 else 0
    ensures |UnderWayIn(m)| == |UnderWayIn(m - {t})| + if t in m && UnderWay(m[t]) then 1 else 0
  {
    var c := UnderWayIn(m - {t});
    assert UnderWayIn(m[t := p]) == if UnderWay(p) then c + {t} else c;
    assert UnderWayIn(m) == if t in m && UnderWay(m[t]) then c + {t} else c;
    assert t !in c;
  }

  // ---------------------------------------------------------------- each step keeps the slots safe

  /** Only holding and creating calls matter to the slots. */
  lemma SlotsFrame(a: A.System, b: A.System)
    requires A.Ownership(a)
    requires b.pool.idle == a.pool.idle && b.pool.inUse == a.pool.inUse && b.owner == a.owner && b.next == a.next
    requires forall c :: c in a.calls && (a.calls[c].Holding? || a.calls[c].Creating?) ==> c in b.calls && b.calls[c] == a.calls[c]
    requires forall c :: c in b.calls && (b.calls[c].Holding? || b.calls[c].Creating?) ==> c in a.calls && b.calls[c] == a.calls[c]
    ensures A.Ownership(b)
  {
  }

  lemma ReenteredAbstract(s: System, t: nat)
    requires t in s.threads
    ensures Abstract(Reentered(s, t)) == Abstract(s) && Reentered(s, t).pool == s.pool
  {
    CallsChange(s.threads, t, Notified);
    assert s.threads[t].Expired? ==> Calls(s.threads)[t := A.Entering(false)] == Calls(s.threads);
  }

  lemma ContendAbstract(s: System, t: nat, now: real, past: bool)
    requires Enabled(s, Contend(t, now, past)) && A.Available(s.pool)
    ensures A.Enabled(Abstract(s), A.Contend(t, now))
    ensures Abstract(AfterContend(s, t, now, past)) == A.AfterContend(Abstract(s), t, now)
  {
    ReenteredAbstract(s, t);
    if s.pool.idle != [] {
      HitAbstract(Reentered(s, t), t, now, past);
    } else {
      MissAbstract(Reentered(s, t), t, now, past);
    }
  }

  lemma HitAbstract(s: System, t: nat, now: real, past: bool)
    requires t in s.threads && s.pool.idle != []
    ensures Abstract(AfterLook(s, t, now, past)) == A.AfterContend(Abstract(s), t, now)
  {
    var (p, conn) := (A.Attempted(s.pool, now, s.next).0, s.pool.idle[A.First(s.pool.idle)].conn);
    var phase := Finishing(Some(conn), !s.threads[t].Entering?);
    assert AfterLook(s, t, now, past) == s.(pool := p, threads := s.threads[t := phase], owner := s.owner[conn := t]);
    CallsChange(s.threads, t, phase);
  }

  lemma MissAbstract(s: System, t: nat, now: real, past: bool)
    requires t in s.threads && s.pool.idle == [] && |s.pool.inUse| < s.pool.sizer.current
    ensures Abstract(AfterLook(s, t, now, past)) == A.AfterContend(Abstract(s), t, now)
  {
    var phase := Creating(s.next, !s.threads[t].Entering?);
    MissLook(s, t, now, past);
    MissContend(Abstract(s), t, now);
    CallsChange(s.threads, t, phase);
  }

  lemma MissLook(s: System, t: nat, now: real, past: bool)
    requires t in s.threads && s.pool.idle == [] && |s.pool.inUse| < s.pool.sizer.current
    ensures AfterLook(s, t, now, past)
         == s.(pool := s.pool.(inUse := s.pool.inUse[s.next := None]), threads := s.threads[t := Creating(s.next, !s.threads[t].Entering?)],
               owner := s.owner[s.next := t], next := s.next + 1)
  {
  }

  lemma MissContend(a: A.System, c: nat, now: real)
    requires a.pool.idle == [] && |a.pool.inUse| < a.pool.sizer.current
    ensures A.AfterContend(a, c, now)
         == a.(pool := a.pool.(inUse := a.pool.inUse[a.next := None]), calls := a.calls[c := A.Creating(a.next)],
               owner := a.owner[a.next := c], next := a.next + 1)
  {
  }

  lemma ContendSlots(s: System, t: nat, now: real, past: bool)
    requires SlotsSafe(s) && Enabled(s, Contend(t, now, past)) && A.Available(s.pool)
    ensures SlotsSafe(AfterContend(s, t, now, past))
  {
    ContendAbstract(s, t, now, past);
    A.StepOwnership(Abstract(s), A.Contend(t, now));
    A.ContendSizes(Abstract(s), t, now);
    assert A.Attempted(s.pool, now, s.next).0.waiters == s.pool.waiters;
  }

  /** With nothing available the slots stay as they are. */
  lemma WaitSlots(s: System, t: nat, now: real, past: bool)
    requires SlotsSafe(s) && Enabled(s, Contend(t, now, past)) && !A.Available(s.pool)
    ensures SlotsSafe(AfterContend(s, t, now, past))
  {
    ReenteredAbstract(s, t);
    SameSlots(Reentered(s, t), AfterContend(s, t, now, past), t);
  }

  /** A thread with no slot moves on without one. */
  lemma SameSlots(s: System, s': System, t: nat)
    requires SlotsSafe(s) && t in s'.threads && s'.threads == s.threads[t := s'.threads[t]]
    requires t in s.threads ==> Contending(s.threads[t]) || s.threads[t].Blocked?
    requires Contending(s'.threads[t]) || s'.threads[t].Blocked? || s'.threads[t] == Finishing(None, true)
    requires s'.owner == s.owner && s'.next == s.next && s'.pool.idle == s.pool.idle && s'.pool.inUse == s.pool.inUse
    requires s'.pool.waiters == [] && s'.pool.sizer == s.pool.sizer && A.ConnectionsConserved(s'.pool)
    ensures SlotsSafe(s')
  {
    CallsChange(s.threads, t, s'.threads[t]);
    SlotsFrame(Abstract(s), Abstract(s'));
  }

  lemma CreateDoneSlots(s: System, t: nat, now: real)
    requires SlotsSafe(s) && Enabled(s, CreateDone(t, now))
    ensures SlotsSafe(Next(s, CreateDone(t, now)))
  {
    var (a, s') := (Abstract(s), Next(s, CreateDone(t, now)));
    CallsChange(s.threads, t, s'.threads[t]);
    assert Abstract(s') == A.Next(a, A.CreateDone(t, now));
    A.CreateOwnership(a, t, now);
    A.CreateSizes(a, t, now);
  }

  lemma CreateFailedSlots(s: System, t: nat)
    requires SlotsSafe(s) && Enabled(s, CreateFailed(t))
    ensures SlotsSafe(Next(s, CreateFailed(t)))
  {
    var (a, s') := (Abstract(s), Next(s, CreateFailed(t)));
    CallsChange(s.threads, t, s'.threads[t]);
    var b := A.Next(a, A.CreateFailed(t));
    assert Abstract(s') == b.(failed := 0);
    A.FailureOwnership(a, t);
    A.CreateSizes(a, t, 0.0);
    SlotsFrame(b, Abstract(s'));
  }

  /** Who is notified was waiting and has no slot either way. */
  lemma ReleaseCalls(s: System, t: nat, broken: bool)
    requires Waiting(s) && Enabled(s, Release(t, broken))
    ensures Calls(AfterRelease(s, t, broken).threads) == Calls(s.threads) - {t}
  {
    CallsChange(s.threads, t, Entering);
    if s.queue != [] {
      assert s.queue[0] in s.queue;
      CallsChange(s.threads - {t}, s.queue[0], Notified);
      assert Calls(s.threads - {t})[s.queue[0] := A.Entering(false)] == Calls(s.threads - {t});
    }
  }

  lemma ReleaseAbstract(s: System, t: nat, broken: bool)
    requires Waiting(s) && Enabled(s, Release(t, broken)) && s.pool.waiters == []
    ensures A.Enabled(Abstract(s), A.Release(t, broken))
    ensures Abstract(AfterRelease(s, t, broken)) == A.AfterRelease(Abstract(s), t, broken)
  {
    ReleaseCalls(s, t, broken);
    assert A.Released(s.pool, s.threads[t].conn, broken).1 == None;
  }

  lemma ReleaseSlots(s: System, t: nat, broken: bool)
    requires SlotsSafe(s) && Waiting(s) && Enabled(s, Release(t, broken))
    ensures SlotsSafe(AfterRelease(s, t, broken))
  {
    ReleaseAbstract(s, t, broken);
    A.ReleaseOwnership(Abstract(s), t, broken);
    A.ReleaseConserved(Abstract(s), t, broken);
    assert A.Released(s.pool, s.threads[t].conn, broken).0.waiters == [];
  }

  lemma LeaveAbstract(s: System, t: nat)
    requires Enabled(s, Leave(t))
    ensures Abstract(Next(s, Leave(t))) == Abstract(s)
  {
    var Finishing(result, counted) := s.threads[t];
    if result.Some? {
      CallsChange(s.threads, t, Holding(result.value));
      assert Calls(s.threads)[t := A.Holding(result.value)] == Calls(s.threads);
    } else {
      CallsChange(s.threads, t, Entering);
      assert Calls(s.threads) - {t} == Calls(s.threads);
    }
  }

  lemma LeaveSlots(s: System, t: nat)
    requires SlotsSafe(s) && Enabled(s, Leave(t))
    ensures SlotsSafe(Next(s, Leave(t)))
  {
    LeaveAbstract(s, t);
    assert Next(s, Leave(t)).pool == s.pool;
  }

  lemma ExpireSlots(s: System, t: nat)
    requires SlotsSafe(s) && Enabled(s, Expire(t))
    ensures SlotsSafe(Next(s, Expire(t)))
  {
    SameSlots(s, Next(s, Expire(t)), t);
  }

  lemma StartSlots(s: System, t: nat)
    requires SlotsSafe(s) && Enabled(s, Start(t))
    ensures SlotsSafe(Next(s, Start(t)))
  {
    SameSlots(s, Next(s, Start(t)), t);
  }

  lemma SizerSlots(s: System, z: Sizer)
    requires SlotsSafe(s) && Ceiling(z) == Ceiling(s.pool.sizer) && z.current <= Ceiling(z)
    ensures SlotsSafe(s.(pool := s.pool.(sizer := z)))
  {
    SlotsFrame(Abstract(s), Abstract(s.(pool := s.pool.(sizer := z))));
  }

  lemma StepSlots(s: System, step: Step)
    requires SlotsSafe(s) && Waiting(s) && Enabled(s, step)
    ensures SlotsSafe(Next(s, step))
  {
    match step
    case Start(t) => StartSlots(s, t);
    case Contend(t, now, past) =>
      if A.Available(s.pool) { ContendSlots(s, t, now, past); } else { WaitSlots(s, t, now, past); }
    case Expire(t) => ExpireSlots(s, t);
    case CreateDone(t, now) => CreateDoneSlots(s, t, now);
    case CreateFailed(t) => CreateFailedSlots(s, t);
    case Leave(t) => LeaveSlots(s, t);
    case Release(t, broken) => ReleaseSlots(s, t, broken);
    case Observe(_) => SizerSlots(s, Next(s, step).pool.sizer);
    case Warm(_) => SizerSlots(s, Next(s, step).pool.sizer);
  }

  // ---------------------------------------------------------------- each step keeps the waiting discipline

  lemma PopOne(q: seq<nat>)
    requires q != [] && NoRepeats(q)
    ensures NoRepeats(q[1..]) && forall x :: x in q[1..] <==> x in q && x != q[0]
  {
    assert q == [q[0]] + q[1..];
    forall i, j | 0 <= i < j < |q[1..]| ensures q[1..][i] != q[1..][j] {
      assert q[i + 1] != q[j + 1];
    }
    forall i | 0 <= i < |q[1..]| ensures q[1..][i] != q[0] {
      assert q[i + 1] != q[0];
    }
  }

  lemma JoinOne(a: seq<nat>, b: seq<nat>)
    requires NoRepeats(a) && NoRepeats(b) && forall x :: x in a ==> x !in b
    ensures NoRepeats(a + b) && forall x :: x in a + b <==> x in a || x in b
  {
    forall i, j | 0 <= i < j < |a + b| ensures (a + b)[i] != (a + b)[j] {
      if i < |a| && j >= |a| {
        assert a[i] in a && b[j - |a|] in b;
      }
    }
  }

  lemma {:induction false} DropOne(q: seq<nat>, t: nat)
    requires NoRepeats(q)
    ensures NoRepeats(A.Drop(q, t)) && forall x :: x in A.Drop(q, t) <==> x in q && x != t
  {
    if q != [] {
      PopOne(q);
      DropOne(q[1..], t);
      if q[0] != t {
        JoinOne([q[0]], A.Drop(q[1..], t));
      }
    }
  }

  /** Moving one thread between phases that are not blocked. */
  lemma MoveWaiting(s: System, s': System, t: nat, p: Phase)
    requires Waiting(s) && s'.queue == s.queue && s'.threads == s.threads[t := p]
    requires !Queued(p) && t !in QueuedIn(s.threads)
    requires s'.currentWaiters == s.currentWaiters + (if Counts(p) then 1 else 0) - (if t in s.threads && Counts(s.threads[t]) then 1 else 0)
    ensures Waiting(s')
  {
    QueuedChange(s.threads, t, p);
    CountedChange(s.threads, t, p);
  }

  lemma BlockWaiting(s: System, t: nat, now: real)
    requires Waiting(s) && t in s.threads && Looking(s.threads[t]) && !A.Available(s.pool)
    ensures Waiting(AfterLook(s, t, now, false))
  {
    QueuedChange(s.threads, t, Blocked);
    CountedChange(s.threads, t, Blocked);
    assert t !in s.queue;
    JoinOne(s.queue, [t]);
  }

  lemma ContendWaiting(s: System, t: nat, now: real, past: bool)
    requires Waiting(s) && Enabled(s, Contend(t, now, past))
    ensures Waiting(AfterContend(s, t, now, past))
  {
    ReenteredWaiting(s, t);
    var r := Reentered(s, t);
    if A.Available(s.pool) || past {
      var s' := AfterLook(r, t, now, past);
      MoveWaiting(r, s', t, s'.threads[t]);
    } else {
      BlockWaiting(r, t, now);
    }
  }

  lemma ReenteredWaiting(s: System, t: nat)
    requires Waiting(s) && t in s.threads
    ensures Waiting(Reentered(s, t))
  {
    if s.threads[t].Expired? {
      DropOne(s.queue, t);
      QueuedChange(s.threads, t, Notified);
      CountedChange(s.threads, t, Notified);
    }
  }

  lemma ExpireWaiting(s: System, t: nat)
    requires Waiting(s) && Enabled(s, Expire(t))
    ensures Waiting(Next(s, Expire(t)))
  {
    QueuedChange(s.threads, t, Expired);
    CountedChange(s.threads, t, Expired);
    assert QueuedIn(s.threads) + {t} == QueuedIn(s.threads);
  }

  lemma ReleaseWaiting(s: System, t: nat, broken: bool)
    requires Waiting(s) && Enabled(s, Release(t, broken))
    ensures Waiting(AfterRelease(s, t, broken))
  {
    var m := s.threads - {t};
    QueuedChange(s.threads, t, Entering);
    CountedChange(s.threads, t, Entering);
    assert QueuedIn(m) == QueuedIn(s.threads);
    if s.queue != [] {
      var u := s.queue[0];
      assert u in s.queue;
      PopOne(s.queue);
      QueuedChange(m, u, Notified);
      CountedChange(m, u, Notified);
    }
  }

  lemma LeaveWaiting(s: System, t: nat)
    requires Waiting(s) && Enabled(s, Leave(t))
    ensures Waiting(Next(s, Leave(t)))
  {
    var p := if s.threads[t].result.Some? then Holding(s.threads[t].result.value) else Entering;
    QueuedChange(s.threads, t, p);
    CountedChange(s.threads, t, p);
    assert QueuedIn(s.threads) - {t} == QueuedIn(s.threads);
  }

  lemma StepWaiting(s: System, step: Step)
    requires Waiting(s) && Enabled(s, step)
    ensures Waiting(Next(s, step))
  {
    match step
    case Start(t) => MoveWaiting(s, Next(s, step), t, Entering);
    case Contend(t, now, past) => ContendWaiting(s, t, now, past);
    case Expire(t) => ExpireWaiting(s, t);
    case CreateDone(t, _) => MoveWaiting(s, Next(s, step), t, Next(s, step).threads[t]);
    case CreateFailed(t) => MoveWaiting(s, Next(s, step), t, Next(s, step).threads[t]);
    case Leave(t) => LeaveWaiting(s, t);
    case Release(t, broken) => ReleaseWaiting(s, t, broken);
    case Observe(_) =>
    case Warm(_) =>
  }

  lemma ReenteredWakeup(s: System, t: nat)
    requires NoLostWakeup(s) && t in s.threads
    ensures NoLostWakeup(Reentered(s, t))
  {
    if s.threads[t].Expired? {
      NotifiedChange(s.threads, t, Notified);
      assert t !in NotifiedIn(s.threads) && |NotifiedIn(s.threads) + {t}| == |NotifiedIn(s.threads)| + 1;
    }
  }

  lemma LookWakeup(s: System, t: nat, now: real, past: bool)
    requires NoLostWakeup(s) && t in s.threads && Looking(s.threads[t])
    ensures NoLostWakeup(AfterLook(s, t, now, past))
  {
    if s.pool.idle != [] {
      HitWakeup(s, t, now, past);
    }
  }

  lemma HitWakeup(s: System, t: nat, now: real, past: bool)
    requires NoLostWakeup(s) && t in s.threads && Looking(s.threads[t]) && s.pool.idle != []
    ensures NoLostWakeup(AfterLook(s, t, now, past))
  {
    var (n, s') := (NotifiedIn(s.threads), AfterLook(s, t, now, past));
    assert s'.queue == s.queue && |s'.pool.idle| == |s.pool.idle| - 1;
    NotifiedChange(s.threads, t, s'.threads[t]);
    assert |n - {t}| >= |n| - 1;
  }

  lemma ContendWakeup(s: System, t: nat, now: real, past: bool)
    requires NoLostWakeup(s) && Enabled(s, Contend(t, now, past))
    ensures NoLostWakeup(AfterContend(s, t, now, past))
  {
    ReenteredWakeup(s, t);
    LookWakeup(Reentered(s, t), t, now, past);
  }

  lemma IdleByOne(p: A.Pool, conn: nat, broken: bool)
    ensures |A.Released(p, conn, broken).0.idle| <= |p.idle| + 1
  {
  }

  lemma ReleaseWakeup(s: System, t: nat, broken: bool)
    requires NoLostWakeup(s) && Waiting(s) && Enabled(s, Release(t, broken))
    ensures NoLostWakeup(AfterRelease(s, t, broken))
  {
    IdleByOne(s.pool, s.threads[t].conn, broken);
    NotifiedChange(s.threads, t, Entering);
    var n := NotifiedIn(s.threads);
    assert n - {t} == n;
    if s.queue != [] {
      assert s.queue[0] in s.queue && s.queue[0] !in n;
      NotifiedChange(s.threads - {t}, s.queue[0], Notified);
    }
  }

  lemma OtherWakeup(s: System, s': System, t: nat)
    requires NoLostWakeup(s) && s'.pool.idle == s.pool.idle && (s'.queue != [] ==> s.queue != [])
    requires forall u :: u != t ==> (u in s.threads <==> u in s'.threads) && (u in s.threads ==> s'.threads[u] == s.threads[u])
    requires t in s.threads ==> !s.threads[t].Notified?
    requires t in s'.threads ==> !s'.threads[t].Notified?
    ensures NoLostWakeup(s')
  {
    assert NotifiedIn(s'.threads) == NotifiedIn(s.threads);
  }

  lemma StepWakeup(s: System, step: Step)
    requires NoLostWakeup(s) && Waiting(s) && Enabled(s, step)
    ensures NoLostWakeup(Next(s, step))
  {
    match step
    case Start(t) => OtherWakeup(s, Next(s, step), t);
    case Contend(t, now, past) => ContendWakeup(s, t, now, past);
    case Expire(t) => OtherWakeup(s, Next(s, step), t);
    case CreateDone(t, _) => OtherWakeup(s, Next(s, step), t);
    case CreateFailed(t) => OtherWakeup(s, Next(s, step), t);
    case Leave(t) => OtherWakeup(s, Next(s, step), t);
    case Release(t, broken) => ReleaseWakeup(s, t, broken);
    case Observe(_) =>
    case Warm(_) =>
  }

  /** One thread moves, and the counters with it. */
  lemma MoveRequests(s: System, s': System, t: nat, p: Phase)
    requires RequestsConserved(s) && s'.threads == s.threads[t := p]
    requires s'.pool.requests - s'.pool.successes - s'.pool.timeouts - s'.failed
          == s.pool.requests - s.pool.successes - s.pool.timeouts - s.failed
             + (if UnderWay(p) then 1 else 0) - (if t in s.threads && UnderWay(s.threads[t]) then 1 else 0)
    ensures RequestsConserved(s')
  {
    UnderWayChange(s.threads, t, p);
  }

  lemma ContendRequests(s: System, t: nat, now: real, past: bool)
    requires RequestsConserved(s) && Enabled(s, Contend(t, now, past))
    ensures RequestsConserved(AfterContend(s, t, now, past))
  {
    var r := Reentered(s, t);
    MoveRequests(s, r, t, r.threads[t]);
    var s' := AfterLook(r, t, now, past);
    MoveRequests(r, s', t, s'.threads[t]);
  }

  lemma ReleaseRequests(s: System, t: nat, broken: bool)
    requires RequestsConserved(s) && Waiting(s) && Enabled(s, Release(t, broken))
    ensures RequestsConserved(AfterRelease(s, t, broken))
  {
    UnderWayChange(s.threads, t, Entering);
    var p := A.Released(s.pool, s.threads[t].conn, broken).0;
    assert p.requests == s.pool.requests && p.successes == s.pool.successes && p.timeouts == s.pool.timeouts;
    if s.queue != [] {
      assert s.queue[0] in s.queue;
      UnderWayChange(s.threads - {t}, s.queue[0], Notified);
    }
  }

  lemma LeaveRequests(s: System, t: nat)
    requires RequestsConserved(s) && Enabled(s, Leave(t))
    ensures RequestsConserved(Next(s, Leave(t)))
  {
    UnderWayChange(s.threads, t, if s.threads[t].result.Some? then Holding(s.threads[t].result.value) else Entering);
  }

  lemma StepRequests(s: System, step: Step)
    requires RequestsConserved(s) && Waiting(s) && Enabled(s, step)
    ensures RequestsConserved(Next(s, step))
  {
    match step
    case Start(t) => MoveRequests(s, Next(s, step), t, Entering);
    case Contend(t, now, past) => ContendRequests(s, t, now, past);
    case Expire(t) => MoveRequests(s, Next(s, step), t, Expired);
    case CreateDone(t, _) => MoveRequests(s, Next(s, step), t, Next(s, step).threads[t]);
    case CreateFailed(t) => MoveRequests(s, Next(s, step), t, Next(s, step).threads[t]);
    case Leave(t) => LeaveRequests(s, t);
    case Release(t, broken) => ReleaseRequests(s, t, broken);
    case Observe(_) =>
    case Warm(_) =>
  }

  ghost predicate Safe(s: System) { SlotsSafe(s) && Waiting(s) && NoLostWakeup(s) && RequestsConserved(s) }

  lemma InitialSafe(min: nat, max: nat)
    ensures Safe(Run(min, max, []))
  {
    assert UnderWayIn(map[]) == {};
    assert A.Active(map[]) == {} && Counted(map[]) == {};
    assert A.Ownership(Abstract(Run(min, max, [])));
  }

  lemma StepSafe(s: System, step: Step)
    requires Safe(s) && Enabled(s, step)
    ensures Safe(Next(s, step))
  {
    StepRequests(s, step);
    StepSlots(s, step);
    StepWaiting(s, step);
    StepWakeup(s, step);
  }

  /** No step moves the configured maximum. */
  lemma CeilingKept(s: System, step: Step)
    requires Enabled(s, step)
    ensures Ceiling(Next(s, step).pool.sizer) == Ceiling(s.pool.sizer)
  {
    if step.Contend? {
      assert A.Attempted(s.pool, step.now, s.next).0.sizer == s.pool.sizer;
    }
  }

  /** Wake-ups. In every reachable state either nobody is blocked or there are no more
      idle connections than threads notified and about to look; the counter reported
      as queue depth is the number of threads that waited and have not left; requests
      are conserved; and the slots are as safe as the asynchronous pool's, within the
      configured maximum. */
  lemma {:induction false} SyncSafety(min: nat, max: nat, steps: seq<Step>)
    ensures Safe(Run(min, max, steps))
    ensures Ceiling(Run(min, max, steps).pool.sizer) == Max(min, max)
  {
    if steps == [] {
      InitialSafe(min, max);
    } else {
      var (s, step) := (Run(min, max, steps[..|steps| - 1]), steps[|steps| - 1]);
      SyncSafety(min, max, steps[..|steps| - 1]);
      if Enabled(s, step) {
        StepSafe(s, step);
        CeilingKept(s, step);
      }
    }
  }

  /** A step raises the pool-exhausted error only at an instant with nothing idle and
      no room to create, past the thread's deadline; and at such an instant it does. */
  lemma RaisesOnlyWhenFull(s: System, step: Step)
    requires Enabled(s, step)
    ensures Next(s, step).pool.timeouts > s.pool.timeouts <==>
            step.Contend? && step.pastDeadline && s.pool.idle == [] && |s.pool.inUse| >= s.pool.sizer.current
    ensures Next(s, step).pool.timeouts > s.pool.timeouts ==> Next(s, step).threads[step.thread] == Finishing(None, true)
  {
    if step.Contend? {
      LookRaises(Reentered(s, step.thread), step.thread, step.now, step.pastDeadline);
    }
  }

  lemma LookRaises(s: System, t: nat, now: real, past: bool)
    requires t in s.threads
    ensures var s' := AfterLook(s, t, now, past);
            if past && !A.Available(s.pool) then s'.pool.timeouts == s.pool.timeouts + 1 && s'.threads[t] == Finishing(None, true)
            else s'.pool.timeouts == s.pool.timeouts
  {
  }

  /** Reading the metrics and warming up move the sizer alone: the one by a check with the
      threads counted as waiting, the other up to the target or the maximum. */
  lemma SizerMoves(s: System, ms: real, target: nat)
    ensures
      var (o, w) := (Next(s, Observe(ms)), Next(s, Warm(target)));
      var (y, z) := (o.pool.sizer, w.pool.sizer);
      && o == s.(pool := s.pool.(sizer := y)) && w == s.(pool := s.pool.(sizer := z))
      && (s.currentWaiters > 0 || ms > 5.0 ==> y.idleStreak == 0 && y.current == if s.pool.sizer.current < s.pool.sizer.max then s.pool.sizer.current + 1 else s.pool.sizer.current)
      && (s.currentWaiters <= 0 && ms <= 5.0 ==> y.current <= s.pool.sizer.current)
      && z == s.pool.sizer.(current := z.current) && z.current == Max(s.pool.sizer.current, Min(target, s.pool.sizer.max))
  {
  }

  // ---------------------------------------------------------------- what is handed out and taken back

  /** A round that finds a connection idle hands out one whose stamp is least, and whose push
      number is least among those; one that finds none but a free slot reserves it. */
  lemma RoundExactly(s: System, t: nat, now: real, past: bool)
    requires t in s.threads && Looking(s.threads[t]) && A.Available(s.pool)
    ensures
      var (s', counted) := (AfterLook(s, t, now, past), !s.threads[t].Entering?);
      var p := s.pool;
      if p.idle != [] then
        exists i :: 0 <= i < |p.idle| && s'.threads[t] == Finishing(Some(p.idle[i].conn), counted) && s'.pool.idle == p.idle[..i] + p.idle[i + 1..]
                    && p.idle[i].conn in s'.pool.inUse && s'.pool.inUse[p.idle[i].conn] == Some(now)
                    && forall j :: 0 <= j < |p.idle| ==>
                         p.idle[i].stamp < p.idle[j].stamp || (p.idle[i].stamp == p.idle[j].stamp && p.idle[i].seqNo <= p.idle[j].seqNo)
      else s'.threads[t] == Creating(s.next, counted) && s'.pool.inUse == p.inUse[s.next := None]
  {
    A.AttemptExactly(s.pool, now, s.next);
    if s.pool.idle != [] {
      var i := A.First(s.pool.idle);
      assert AfterLook(s, t, now, past).threads[t] == Finishing(Some(s.pool.idle[i].conn), !s.threads[t].Entering?);
    }
  }

  /** A release notifies the oldest thread of the queue, whether the connection is broken or
      not, and does to the slots what the asynchronous pool's does. */
  lemma ReleaseNotifies(s: System, t: nat, broken: bool)
    requires Waiting(s) && Enabled(s, Release(t, broken))
    ensures var s' := AfterRelease(s, t, broken);
            && s'.pool == A.Released(s.pool, s.threads[t].conn, broken).0 && t !in s'.threads
            && (if s.queue == [] then s'.queue == [] else s'.queue == s.queue[1..] && s.queue[0] in s'.threads && s'.threads[s.queue[0]] == Notified)
  {
    if s.queue != [] {
      assert s.queue[0] in s.queue;
    }
  }

  /** A thread is counted as waiting, now and ever, in the first round that finds nothing. */
  lemma CountsWaitersOnce(s: System, step: Step)
    requires Enabled(s, step)
    ensures Next(s, step).pool.totalWaiters ==
            s.pool.totalWaiters + if step.Contend? && s.threads[step.thread].Entering? && !A.Available(s.pool) then 1 else 0
  {
    if step.Contend? {
      LookCounts(Reentered(s, step.thread), step.thread, step.now, step.pastDeadline);
    }
  }

  lemma LookCounts(s: System, t: nat, now: real, past: bool)
    requires t in s.threads
    ensures AfterLook(s, t, now, past).pool.totalWaiters
         == s.pool.totalWaiters + if s.threads[t].Entering? && !A.Available(s.pool) then 1 else 0
  {
  }

  /** When connection `k` was last checked out in the run. */
  function CheckedOut(min: nat, max: nat, steps: seq<Step>, k: nat): Option<real> {
    if steps == [] then None
    else
      var (before, step) := (steps[..|steps| - 1], steps[|steps| - 1]);
      var s := Run(min, max, before);
      if (step.Contend? || step.CreateDone?) && Enabled(s, step) && Obtains(Next(s, step), step.thread, k) then Some(step.now)
      else CheckedOut(min, max, before, k)
  }

  predicate Obtains(s: System, t: nat, k: nat) {
    t in s.threads && s.threads[t].Finishing? && s.threads[t].result == Some(k)
  }

  lemma StampedContend(s: System, t: nat, now: real, past: bool, at: nat -> Option<real>, at': nat -> Option<real>)
    requires SlotsSafe(s) && A.Stamped(s.pool, at) && Enabled(s, Contend(t, now, past))
    requires forall k: nat :: at'(k) == if Obtains(AfterContend(s, t, now, past), t, k) then Some(now) else at(k)
    ensures A.Stamped(AfterContend(s, t, now, past).pool, at')
  {
    if A.Available(s.pool) {
      var (r, a) := (AfterContend(s, t, now, past), A.AfterContend(Abstract(s), t, now));
      ContendAbstract(s, t, now, past);
      assert r.pool == a.pool && a.calls[t] == Call(r.threads[t]);
      A.StampedContend(Abstract(s), t, now, at, at');
    }
  }

  lemma StampedStep(s: System, step: Step, at: nat -> Option<real>, at': nat -> Option<real>)
    requires SlotsSafe(s) && Waiting(s) && A.Stamped(s.pool, at) && Enabled(s, step)
    requires forall k: nat :: at'(k) ==
               if (step.Contend? || step.CreateDone?) && Obtains(Next(s, step), step.thread, k) then Some(step.now) else at(k)
    ensures A.Stamped(Next(s, step).pool, at')
  {
    match step
    case Contend(t, now, past) => StampedContend(s, t, now, past, at, at');
    case CreateDone(t, now) => StampedDone(s, t, now, at, at');
    case Release(t, broken) => A.StampedRelease(Abstract(s), t, broken, at);
    case _ =>
  }

  lemma StampedDone(s: System, t: nat, now: real, at: nat -> Option<real>, at': nat -> Option<real>)
    requires SlotsSafe(s) && A.Stamped(s.pool, at) && Enabled(s, CreateDone(t, now))
    requires forall k: nat :: at'(k) == if k == s.next then Some(now) else at(k)
    ensures A.Stamped(Next(s, CreateDone(t, now)).pool, at')
  {
    assert A.Enabled(Abstract(s), A.CreateDone(t, now));
    A.StampedDone(Abstract(s), t, now, at, at');
  }

  /** In every reachable state an idle connection's stamp, and that of one in use, is the
      time of its last check-out, and push numbers rise in the order of the releases. */
  lemma {:induction false} StampedAlways(min: nat, max: nat, steps: seq<Step>)
    ensures A.Stamped(Run(min, max, steps).pool, (k: nat) => CheckedOut(min, max, steps, k))
  {
    if steps != [] {
      var (before, step) := (steps[..|steps| - 1], steps[|steps| - 1]);
      StampedAlways(min, max, before);
      SyncSafety(min, max, before);
      if Enabled(Run(min, max, before), step) {
        StampedStep(Run(min, max, before), step, (k: nat) => CheckedOut(min, max, before, k), (k: nat) => CheckedOut(min, max, steps, k));
      }
    }
  }

  // ---------------------------------------------------------------- the class

  datatype Round = Got(conn: nat) | Reserved(key: nat) | MustWait | Exhausted

  /** The pool's fields, with the condition's queue of blocked threads. */
  class SyncConnectionPool {
    var available: seq<A.Idle>
    var inUse: map<nat, Option<real>>
    var counter: nat
    var currentWaiters: int
    var totalWaitersEver: nat
    var requests: nat
    var hits: nat
    var misses: nat
    var timeouts: nat
    var successfulAcquires: nat
    var connectionCreationCount: nat
    var brokenEvicted: nat
    var notEmpty: seq<nat>
    const sizer: AdaptiveSizer

    function State(): A.Pool reads this, sizer {
      A.Pool(available, inUse, [], counter, sizer.State(), requests, hits, misses, timeouts, successfulAcquires,
             totalWaitersEver, connectionCreationCount, brokenEvicted)
    }

    constructor (min: nat, max: nat)
      ensures State() == A.NewPool(min, max) && currentWaiters == 0 && notEmpty == [] && fresh(sizer)
    {
      available, inUse, counter, notEmpty := [], map[], 0, [];
      currentWaiters, totalWaitersEver, requests, hits, misses := 0, 0, 0, 0, 0;
      timeouts, successfulAcquires, connectionCreationCount, brokenEvicted := 0, 0, 0, 0;
      sizer := new AdaptiveSizer(min, max);
    }

    /** The state a system's pool, counter and queue describe. */
    ghost predicate Represents(s: System) reads this, sizer {
      State() == s.pool && currentWaiters == s.currentWaiters && notEmpty == s.queue
    }

    /** One pass of `acquire`'s loop, for a thread of `s`; a wait that timed out first
        leaves the condition's queue. */
    method Contend(ghost s: System, thread: nat, expired: bool, counted: bool, now: real, pastDeadline: bool, token: nat) returns (r: Round)
      requires Represents(s) && Enabled(s, Step.Contend(thread, now, pastDeadline))
      requires expired == s.threads[thread].Expired?
      requires counted == !s.threads[thread].Entering? && token == s.next
      modifies this
      ensures Represents(AfterContend(s, thread, now, pastDeadline))
      ensures AfterContend(s, thread, now, pastDeadline).threads[thread] ==
              match r
              case Got(conn) => Finishing(Some(conn), counted)
              case Reserved(key) => Creating(key, counted)
              case MustWait => Blocked
              case Exhausted => Finishing(None, true)
    {
      if expired {
        notEmpty := A.Drop(notEmpty, thread);
      }
      r := Look(Reentered(s, thread), thread, counted, now, pastDeadline, token);
    }

    method Look(ghost s: System, thread: nat, counted: bool, now: real, pastDeadline: bool, token: nat) returns (r: Round)
      requires Represents(s) && thread in s.threads && counted == !s.threads[thread].Entering? && token == s.next
      modifies this
      ensures Represents(AfterLook(s, thread, now, pastDeadline))
      ensures AfterLook(s, thread, now, pastDeadline).threads[thread] ==
              match r
              case Got(conn) => Finishing(Some(conn), counted)
              case Reserved(key) => Creating(key, counted)
              case MustWait => Blocked
              case Exhausted => Finishing(None, true)
    {
      if |available| > 0 {
        var i := A.First(available);
        var conn := available[i].conn;
        available := A.Removed(available, i);
        RecordAcquire(true);
        inUse := inUse[conn := Some(now)];
        return Got(conn);
      }
      if |inUse| < sizer.current {
        inUse := inUse[token := None];
        return Reserved(token);
      }
      if !counted {
        currentWaiters := currentWaiters + 1;
        totalWaitersEver := totalWaitersEver + 1;
      }
      if pastDeadline {
        timeouts := timeouts + 1;
        return Exhausted;
      }
      notEmpty := notEmpty + [thread];
      return MustWait;
    }

    method RecordAcquire(hit: bool)
      modifies `successfulAcquires, `hits
      ensures successfulAcquires == old(successfulAcquires) + 1 && hits == old(hits) + if hit then 1 else 0
    {
      successfulAcquires := successfulAcquires + 1;
      if hit {
        hits := hits + 1;
      }
    }

    method FinishCreate(key: nat, conn: nat, now: real)
      modifies this
      ensures State() == A.Finished(old(State()), key, conn, now)
      ensures currentWaiters == old(currentWaiters) && notEmpty == old(notEmpty)
    {
      inUse := inUse - {key};
      connectionCreationCount := connectionCreationCount + 1;
      misses := misses + 1;
      RecordAcquire(false);
      inUse := inUse[conn := Some(now)];
    }

    method AbandonCreate(key: nat)
      modifies `inUse
      ensures State() == A.Abandoned(old(State()), key)
    {
      inUse := inUse - {key};
    }

    /** `acquire`'s `finally`. */
    method Leave(counted: bool)
      modifies `currentWaiters
      ensures currentWaiters == old(currentWaiters) - if counted then 1 else 0
    {
      if counted {
        currentWaiters := currentWaiters - 1;
      }
    }

    /** Returns the thread notified, if any; a connection not checked out is ignored. */
    method Release(conn: nat, broken: bool) returns (notified: Option<nat>)
      modifies this
      ensures State() == A.Released(old(State()), conn, broken).0 && currentWaiters == old(currentWaiters)
      ensures
        var held := conn in old(inUse) && old(inUse)[conn].Some?;
        if held && old(notEmpty) != [] then notified == Some(old(notEmpty)[0]) && notEmpty == old(notEmpty)[1..]
        else notified == None && notEmpty == old(notEmpty)
    {
      if conn !in inUse {
        return None;
      }
      var checkedOut := inUse[conn];
      inUse := inUse - {conn};
      if checkedOut.None? {
        return None;
      }
      if broken {
        brokenEvicted := brokenEvicted + 1;
      } else {
        available := available + [A.Idle(checkedOut.value, counter, conn)];
        counter := counter + 1;
      }
      if |notEmpty| > 0 {
        notified := Some(notEmpty[0]);
        notEmpty := notEmpty[1..];
      } else {
        notified := None;
      }
    }

    /** The part of `metrics` that has an effect. */
    method Observe(recentWaitMs: real)
      modifies sizer
      ensures State() == old(State()).(sizer := Adjusted(old(State()).sizer, Signal(if currentWaiters > 0 then currentWaiters else 0, recentWaitMs)))
    {
      var _ := sizer.Adjust(if currentWaiters > 0 then currentWaiters else 0, recentWaitMs);
    }
  }
}
