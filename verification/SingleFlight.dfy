/** Single flight (`core/caching/query_cache_coordinator.py`, `get_or_execute` past the
    first level): callers of one key share the future of whoever came first. */
module SingleFlights {
  type Key = string

  /** What resolving a key comes to, an exception included. */
  datatype Outcome = Value(rows: seq<string>) | Failure(error: string)

  const CANCELLED := Failure("CancelledError")

  datatype Future = Pending | Settled(outcome: Outcome) | Cancelled

  // ---------------------------------------------------------------- the shared registry

  datatype Registry = Registry(inflight: map<Key, nat>, futures: map<nat, Future>)

  /** Joins the flight of `k`, or opens flight `next` and leads it. */
  function Joined(r: Registry, k: Key, next: nat): (Registry, nat, bool) {
    if k in r.inflight then (r, r.inflight[k], false)
    else (Registry(r.inflight[k := next], r.futures[next := Pending]), next, true)
  }

  /** `set_result` or `set_exception`, unless the future is done already. */
  function Settle(r: Registry, f: nat, o: Outcome): Registry {
    if f in r.futures && r.futures[f].Pending? then r.(futures := r.futures[f := Settled(o)]) else r
  }

  /** The leader's way out: its entry goes, and only its own. */
  function Closed(r: Registry, k: Key, f: nat): Registry {
    if k in r.inflight && r.inflight[k] == f then r.(inflight := r.inflight - {k}) else r
  }

  /** Cancelling a task that awaits a future cancels the future with it. */
  function Spoil(r: Registry, f: nat): Registry {
    if f in r.futures && r.futures[f].Pending? then r.(futures := r.futures[f := Cancelled]) else r
  }

  function OutcomeOf(f: Future): Outcome
    requires !f.Pending?
  {
    if f.Cancelled? then CANCELLED else f.outcome
  }

  // ---------------------------------------------------------------- the callers around it

  datatype Phase =
    | Looking(key: Key)
    | Leading(key: Key, flight: nat)
    | Leaving(key: Key, flight: nat, outcome: Outcome)
    | Following(key: Key, flight: nat)
    | Led(key: Key, flight: nat, outcome: Outcome)
    | Followed(key: Key, flight: nat, outcome: Outcome)
    | Abandoned(key: Key, flight: nat)

  /** `leader` is who opened each flight, `resolved` what its leader came to, `spoiled`
      the flights whose future a follower's cancellation cancelled. */
  datatype System = System(registry: Registry, callers: map<nat, Phase>, next: nat,
                           leader: map<nat, nat>, resolved: map<nat, Outcome>, spoiled: set<nat>)

  datatype Step =
    | Arrive(caller: nat, key: Key)
    | Join(caller: nat)
    | Resolve(caller: nat, outcome: Outcome)
    | Leave(caller: nat)
    | Return(caller: nat)
    | CancelFollower(caller: nat)

  predicate Enabled(s: System, step: Step) {
    match step
    case Arrive(c, _) => c !in s.callers
    case Join(c) => c in s.callers && s.callers[c].Looking?
    case Resolve(c, _) => c in s.callers && s.callers[c].Leading?
    case Leave(c) => c in s.callers && s.callers[c].Leaving?
    case Return(c) => c in s.callers && s.callers[c].Following? && var f := s.callers[c].flight; f in s.registry.futures && !s.registry.futures[f].Pending?
    case CancelFollower(c) => c in s.callers && s.callers[c].Following?
  }

  function AfterJoin(s: System, c: nat): System
    requires c in s.callers && s.callers[c].Looking?
  {
    var k := s.callers[c].key;
    var (r, f, leads) := Joined(s.registry, k, s.next);
    if leads then s.(registry := r, callers := s.callers[c := Leading(k, f)], next := s.next + 1, leader := s.leader[f := c])
    else s.(callers := s.callers[c := Following(k, f)])
  }

  function Next(s: System, step: Step): System
    requires Enabled(s, step)
  {
    match step
    case Arrive(c, k) => s.(callers := s.callers[c := Looking(k)])
    case Join(c) => AfterJoin(s, c)
    case Resolve(c, o) =>
      var Leading(k, f) := s.callers[c];
      s.(registry := Settle(s.registry, f, o), callers := s.callers[c := Leaving(k, f, o)], resolved := s.resolved[f := o])
    case Leave(c) =>
      var Leaving(k, f, o) := s.callers[c];
      s.(registry := Closed(s.registry, k, f), callers := s.callers[c := Led(k, f, o)])
    case Return(c) =>
      var Following(k, f) := s.callers[c];
      s.(callers := s.callers[c := Followed(k, f, OutcomeOf(s.registry.futures[f]))])
    case CancelFollower(c) =>
      var Following(k, f) := s.callers[c];
      s.(registry := Spoil(s.registry, f), callers := s.callers[c := Abandoned(k, f)],
         spoiled := if f in s.registry.futures && s.registry.futures[f].Pending? then s.spoiled + {f} else s.spoiled)
  }

  function Run(steps: seq<Step>): System {
    if steps == [] then System(Registry(map[], map[]), map[], 0, map[], map[], {})
    else
      var s := Run(steps[..|steps| - 1]);
      if Enabled(s, steps[|steps| - 1]) then Next(s, steps[|steps| - 1]) else s
  }

  // ---------------------------------------------------------------- what always holds

  /** In progress: from opening the flight until its entry is removed. */
  predicate InProgress(p: Phase) { p.Leading? || p.Leaving? }

  /** The registry lists exactly the keys with a leader in progress, each with that
      leader's flight. */
  ghost predicate OneLeader(s: System) {
    && (forall k :: k in s.registry.inflight ==>
          var f := s.registry.inflight[k];
          f in s.leader && s.leader[f] in s.callers && InProgress(s.callers[s.leader[f]])
          && s.callers[s.leader[f]].key == k && s.callers[s.leader[f]].flight == f)
    && (forall c :: c in s.callers && InProgress(s.callers[c]) ==>
          var p := s.callers[c];
          p.key in s.registry.inflight && s.registry.inflight[p.key] == p.flight && p.flight in s.leader && s.leader[p.flight] == c)
  }

  /** A future is settled with its leader's outcome, unless a follower's cancellation
      came first; until one or the other it is pending. */
  ghost predicate FuturesTrue(s: System) {
    && (forall f: nat :: f in s.registry.futures <==> f < s.next)
    && (forall f :: f in s.leader || f in s.resolved || f in s.spoiled ==> f < s.next)
    && (forall f :: f in s.registry.futures ==>
          match s.registry.futures[f]
          case Pending => f !in s.resolved && f !in s.spoiled
          case Settled(o) => f in s.resolved && s.resolved[f] == o && f !in s.spoiled
          case Cancelled => f in s.spoiled)
  }

  /** What a caller's phase says about its flight: the leader resolves it once and
      leaves with what it resolved; a follower that returned has what its future
      held. */
  ghost predicate PhaseTrue(s: System, p: Phase) {
    match p
    case Looking(_) => true
    case Leading(_, f) => f < s.next && f !in s.resolved
    case Leaving(_, f, o) => f < s.next && f in s.resolved && s.resolved[f] == o
    case Led(_, f, o) => f < s.next && f in s.resolved && s.resolved[f] == o
    case Following(_, f) => f < s.next
    case Followed(_, f, o) => f in s.registry.futures && !s.registry.futures[f].Pending? && o == OutcomeOf(s.registry.futures[f])
    case Abandoned(_, f) => f < s.next
  }

  ghost predicate PhasesTrue(s: System) {
    forall c :: c in s.callers ==> PhaseTrue(s, s.callers[c])
  }

  ghost predicate Sound(s: System) { OneLeader(s) && FuturesTrue(s) && PhasesTrue(s) }

  // ---------------------------------------------------------------- each step keeps it

  lemma JoinLeader(s: System, c: nat)
    requires OneLeader(s) && FuturesTrue(s) && Enabled(s, Join(c))
    ensures OneLeader(AfterJoin(s, c))
  {
  }

  lemma JoinFutures(s: System, c: nat)
    requires FuturesTrue(s) && Enabled(s, Join(c))
    ensures FuturesTrue(AfterJoin(s, c))
  {
  }

  lemma JoinPhases(s: System, c: nat)
    requires Sound(s) && Enabled(s, Join(c))
    ensures PhasesTrue(AfterJoin(s, c))
  {
    var t := AfterJoin(s, c);
    forall d | d in t.callers ensures PhaseTrue(t, t.callers[d]) {
      assert d != c ==> PhaseTrue(s, s.callers[d]);
    }
  }

  lemma ResolveSound(s: System, c: nat, o: Outcome)
    requires Sound(s) && Enabled(s, Resolve(c, o))
    ensures Sound(Next(s, Resolve(c, o)))
  {
    var t := Next(s, Resolve(c, o));
    assert PhaseTrue(s, s.callers[c]);
    forall d | d in t.callers ensures PhaseTrue(t, t.callers[d]) {
      assert PhaseTrue(s, s.callers[d]);
    }
  }

  /** One caller moves on and no future changes. */
  lemma MoveSound(s: System, t: System, c: nat)
    requires Sound(s) && c in t.callers && t.callers == s.callers[c := t.callers[c]]
    requires t.registry.futures == s.registry.futures && t.next == s.next && t.leader == s.leader
    requires t.resolved == s.resolved && t.spoiled == s.spoiled && OneLeader(t) && PhaseTrue(s, t.callers[c])
    ensures Sound(t)
  {
    forall d | d in t.callers ensures PhaseTrue(t, t.callers[d]) {
      assert d != c ==> PhaseTrue(s, s.callers[d]);
    }
  }

  lemma CancelSound(s: System, c: nat)
    requires Sound(s) && Enabled(s, CancelFollower(c))
    ensures Sound(Next(s, CancelFollower(c)))
  {
    var t := Next(s, CancelFollower(c));
    assert PhaseTrue(s, s.callers[c]);
    forall d | d in t.callers ensures PhaseTrue(t, t.callers[d]) {
      assert PhaseTrue(s, s.callers[d]);
    }
  }

  lemma StepSound(s: System, step: Step)
    requires Sound(s) && Enabled(s, step)
    ensures Sound(Next(s, step))
  {
    match step
    case Arrive(c, k) => MoveSound(s, Next(s, step), c);
    case Join(c) => JoinLeader(s, c); JoinFutures(s, c); JoinPhases(s, c);
    case Resolve(c, o) => ResolveSound(s, c, o);
    case Leave(c) => assert PhaseTrue(s, s.callers[c]); MoveSound(s, Next(s, step), c);
    case Return(c) => MoveSound(s, Next(s, step), c);
    case CancelFollower(c) => CancelSound(s, c);
  }

  lemma {:induction false} AlwaysSound(steps: seq<Step>)
    ensures Sound(Run(steps))
  {
    if steps != [] {
      AlwaysSound(steps[..|steps| - 1]);
      var (s, step) := (Run(steps[..|steps| - 1]), steps[|steps| - 1]);
      if Enabled(s, step) {
        StepSound(s, step);
      }
    }
  }

  // ---------------------------------------------------------------- single flight

  /** At most one leader per key is in progress at any time, and a key with no leader
      in progress has no entry. */
  lemma SingleLeader(steps: seq<Step>, c: nat, d: nat, k: Key)
    ensures var s := Run(steps);
            && ((c in s.callers && d in s.callers && InProgress(s.callers[c]) && InProgress(s.callers[d])
                 && s.callers[c].key == s.callers[d].key) ==> c == d)
            && (k in s.registry.inflight <==> exists x :: x in s.callers && InProgress(s.callers[x]) && s.callers[x].key == k)
  {
    AlwaysSound(steps);
    var s := Run(steps);
    if k in s.registry.inflight {
      var x := s.leader[s.registry.inflight[k]];
      assert x in s.callers && InProgress(s.callers[x]) && s.callers[x].key == k;
    }
  }

  /** A follower that was not itself cancelled comes back with what its leader came to
      if and only if no other follower's cancellation cancelled the shared future
      before the leader resolved it, or the leader came to a cancellation too. */
  lemma FollowersShare(steps: seq<Step>, c: nat)
    ensures var s := Run(steps);
            c in s.callers && s.callers[c].Followed? ==>
              var Followed(_, f, o) := s.callers[c];
              && (f !in s.spoiled ==> f in s.resolved && o == s.resolved[f])
              && (f in s.resolved ==> (o == s.resolved[f] <==> f !in s.spoiled || s.resolved[f] == CANCELLED))
              && (f in s.spoiled ==> o == CANCELLED)
  {
    AlwaysSound(steps);
    var s := Run(steps);
    if c in s.callers && s.callers[c].Followed? {
      assert PhaseTrue(s, s.callers[c]);
    }
  }

  /** The step cancels a follower of flight `f` while its future is pending. */
  predicate Spoils(s: System, step: Step, f: nat) {
    && step.CancelFollower? && Enabled(s, step) && s.callers[step.caller].flight == f
    && f in s.registry.futures && s.registry.futures[f].Pending?
  }

  ghost predicate SpoiledIn(steps: seq<Step>, f: nat) {
    exists i :: 0 <= i < |steps| && Spoils(Run(steps[..i]), steps[i], f)
  }

  /** A future is spoiled if and only if the run cancels one of its followers while it is
      pending. */
  lemma {:induction false} SpoiledExactly(steps: seq<Step>, f: nat)
    ensures f in Run(steps).spoiled <==> SpoiledIn(steps, f)
  {
    if steps != [] {
      var (before, last) := (steps[..|steps| - 1], |steps| - 1);
      SpoiledExactly(before, f);
      forall i | 0 <= i < last ensures before[..i] == steps[..i] && before[i] == steps[i] {
      }
      if SpoiledIn(before, f) {
        var i :| 0 <= i < last && Spoils(Run(before[..i]), before[i], f);
        assert Spoils(Run(steps[..i]), steps[i], f);
      }
      assert SpoiledIn(steps, f) <==> SpoiledIn(before, f) || Spoils(Run(before), steps[last], f);
      if Enabled(Run(before), steps[last]) {
        SpoilStep(Run(before), steps[last], f);
      }
    }
  }

  lemma SpoilStep(s: System, step: Step, f: nat)
    requires Enabled(s, step)
    ensures f in Next(s, step).spoiled <==> f in s.spoiled || Spoils(s, step, f)
  {
  }

  /** Without cancelled followers no future is ever spoiled. */
  lemma {:induction false} NoneSpoiled(steps: seq<Step>)
    requires forall i :: 0 <= i < |steps| ==> !steps[i].CancelFollower?
    ensures Run(steps).spoiled == {}
  {
    if steps != [] {
      NoneSpoiled(steps[..|steps| - 1]);
    }
  }

  /** With one, a follower that nobody cancelled can be handed a cancellation while its
      leader comes to a value. */
  lemma OneSpoiled() returns (steps: seq<Step>)
    ensures var s := Run(steps);
            && s.callers.Keys == {0, 1, 2} && s.callers[0].Led? && s.callers[0].outcome == Value([])
            && s.callers[2].Followed? && s.callers[2].outcome == CANCELLED
  {
    var s;
    s, steps := TwoFollow();
    s, steps := Extend(steps, s, CancelFollower(1));
    s, steps := Extend(steps, s, Return(2));
    assert s.callers[2] == Followed("k", 0, CANCELLED);
    s, steps := Extend(steps, s, Resolve(0, Value([])));
    s, steps := Extend(steps, s, Leave(0));
    assert s.callers.Keys == {0, 1, 2};
  }

  lemma TwoFollow() returns (s: System, steps: seq<Step>)
    ensures s == Run(steps)
    ensures s.callers == map[0 := Leading("k", 0), 1 := Following("k", 0), 2 := Following("k", 0)]
    ensures s.registry.futures == map[0 := Pending]
  {
    s, steps := Run([]), [];
    s, steps := Extend(steps, s, Arrive(0, "k"));
    s, steps := Extend(steps, s, Join(0));
    assert s.callers == map[0 := Leading("k", 0)] && s.registry.inflight == map["k" := 0];
    s, steps := Extend(steps, s, Arrive(1, "k"));
    s, steps := Extend(steps, s, Join(1));
    assert s.callers == map[0 := Leading("k", 0), 1 := Following("k", 0)];
    s, steps := Extend(steps, s, Arrive(2, "k"));
    s, steps := Extend(steps, s, Join(2));
  }

  lemma Extend(steps: seq<Step>, s: System, step: Step) returns (t: System, longer: seq<Step>)
    requires s == Run(steps) && Enabled(s, step)
    ensures t == Next(s, step) && longer == steps + [step] && t == Run(longer)
  {
    t, longer := Next(s, step), steps + [step];
    assert longer[..|longer| - 1] == steps;
  }

  /** What happens to the registry, written out: a leader's way out removes its entry alone,
      and not a later leader's; a settled or cancelled future keeps what it has. */
  lemma RegistryExactly(r: Registry, k: Key, f: nat, o: Outcome, j: Key)
    ensures j in Closed(r, k, f).inflight <==> j in r.inflight && !(j == k && r.inflight[k] == f)
    ensures j in Closed(r, k, f).inflight ==> Closed(r, k, f).inflight[j] == r.inflight[j]
    ensures Closed(r, k, f).futures == r.futures && Settle(r, f, o).inflight == r.inflight
    ensures f in r.futures ==> Settle(r, f, o).futures == r.futures[f := if r.futures[f] == Pending then Settled(o) else r.futures[f]]
  {
  }

  // ---------------------------------------------------------------- the class

  /** The coordinator's `_inflight`, with the futures it holds. */
  class SingleFlight {
    var inflight: map<Key, nat>
    var futures: map<nat, Future>

    function State(): Registry reads this { Registry(inflight, futures) }

    constructor ()
      ensures State() == Registry(map[], map[])
    {
      inflight, futures := map[], map[];
    }

    method Join(k: Key, next: nat) returns (flight: nat, isLeader: bool)
      modifies this
      ensures (State(), flight, isLeader) == Joined(old(State()), k, next)
    {
      if k in inflight {
        return inflight[k], false;
      }
      futures := futures[next := Pending];
      inflight := inflight[k := next];
      return next, true;
    }

    method SetOutcome(flight: nat, o: Outcome)
      modifies this
      ensures State() == Settle(old(State()), flight, o)
    {
      if flight in futures && futures[flight].Pending? {
        futures := futures[flight := Settled(o)];
      }
    }

    method Close(k: Key, flight: nat)
      modifies this
      ensures State() == Closed(old(State()), k, flight)
    {
      if k in inflight && inflight[k] == flight {
        inflight := inflight - {k};
      }
    }
  }
}
