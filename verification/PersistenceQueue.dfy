/** The bounded queue of cache writes (`core/caching/persistence_queue.py`): jobs are
    taken in order by a few workers, dropped when there is no room, and drained or
    cancelled at shutdown. */
module PersistenceQueueing {

  /** `maxsize` as given to `asyncio.Queue`: no bound unless positive. */
  datatype Config = Config(maxsize: int, workers: int)

  /** Where `stop` is: waiting on `join` (`drained` once all was done), or on the workers
      it has cancelled. */
  datatype Stopping = No | Draining(drained: bool) | Cancelling(awaited: set<nat>)

  datatype Counters = Counters(submitted: nat, enqueued: nat, dropped: nat, completed: nat, failed: nat)

  /** Jobs are numbered as they are enqueued; `completed`, `failed` and `aborted` are the
      jobs that ended so. `tasks` are the workers `stop` knows of. */
  datatype Queue = Queue(accepting: bool, waiting: seq<nat>, busy: map<nat, nat>, idle: set<nat>,
                         tasks: set<nat>, cancelled: set<nat>, nextWorker: nat, stopping: Stopping,
                         counters: Counters, completed: set<nat>, failed: set<nat>, aborted: set<nat>)

  /** Atomic steps. `Raise` is a job that raises `CancelledError` itself; `Exit` a cancelled
      worker ending; `Cancel` is `join` returning or timing out. */
  datatype Op =
    | Begin
    | Submit
    | Take(w: nat)
    | Complete(w: nat)
    | Fail(w: nat)
    | Raise(w: nat)
    | Stop
    | Cancel
    | Exit(w: nat)
    | Stopped

  const EMPTY := Queue(false, [], map[], {}, {}, {}, 0, No, Counters(0, 0, 0, 0, 0), {}, {}, {})

  // ---------------------------------------------------------------- one step

  predicate Full(c: Config, s: Queue) { c.maxsize > 0 && |s.waiting| >= c.maxsize }

  predicate Idle(s: Queue) { s.waiting == [] && s.busy == map[] }

  function Started(c: Config, s: Queue): Queue {
    if s.accepting then s
    else
      var n := if c.workers > 0 then c.workers else 0;
      var crew := Crew(s.nextWorker, n);
      s.(accepting := true, idle := s.idle + crew, tasks := crew, nextWorker := s.nextWorker + n)
  }

  /** The workers numbered from `first`, `n` of them. */
  function Crew(first: nat, n: nat): (crew: set<nat>)
    ensures forall w: nat :: w in crew <==> first <= w < first + n
  {
    if n == 0 then {} else Crew(first, n - 1) + {first + n - 1}
  }

  function Submitted(c: Config, s: Queue): Queue {
    var t := s.counters;
    if s.accepting && !Full(c, s) then
      s.(waiting := s.waiting + [t.enqueued], counters := t.(submitted := t.submitted + 1, enqueued := t.enqueued + 1))
    else s.(counters := t.(submitted := t.submitted + 1, dropped := t.dropped + 1))
  }

  function Taken(s: Queue, w: nat): Queue
    requires s.waiting != []
  {
    s.(waiting := s.waiting[1..], idle := s.idle - {w}, busy := s.busy[w := s.waiting[0]])
  }

  /** Worker `w` is done with its job (`task_done`), which may end the drain. */
  function Released(s: Queue, w: nat): Queue {
    var t := s.(busy := s.busy - {w});
    t.(stopping := if Idle(t) && s.stopping.Draining? then Draining(true) else s.stopping)
  }

  /** The next job is up; a cancellation that the job swallowed is forgotten. */
  function Resumed(s: Queue, w: nat): Queue {
    Released(s, w).(idle := s.idle + {w}, cancelled := s.cancelled - {w})
  }

  function Completed(s: Queue, w: nat): Queue
    requires w in s.busy
  {
    Resumed(s, w).(completed := s.completed + {s.busy[w]}, counters := s.counters.(completed := s.counters.completed + 1))
  }

  function Failed(s: Queue, w: nat): Queue
    requires w in s.busy
  {
    Resumed(s, w).(failed := s.failed + {s.busy[w]}, counters := s.counters.(failed := s.counters.failed + 1))
  }

  function Aborted(s: Queue, w: nat): Queue
    requires w in s.busy
  {
    Released(s, w).(aborted := s.aborted + {s.busy[w]}, cancelled := s.cancelled - {w})
  }

  /** A cancelled worker ends, and with it the job it is at. */
  function Exited(s: Queue, w: nat): Queue {
    if w in s.busy then Aborted(s, w) else s.(idle := s.idle - {w}, cancelled := s.cancelled - {w})
  }

  function Live(s: Queue): set<nat> { s.idle + s.busy.Keys }

  /** One `stop` at a time; with no workers there is nothing to wait for. */
  function Closing(s: Queue): Queue {
    if !s.stopping.No? then s
    else s.(accepting := false, stopping := if s.tasks == {} then No else Draining(Idle(s)))
  }

  /** Steps that cannot happen change nothing. */
  function Next(c: Config, s: Queue, op: Op): Queue {
    match op
    case Begin => Started(c, s)
    case Submit => Submitted(c, s)
    case Take(w) => if w in s.idle && w !in s.cancelled && s.waiting != [] then Taken(s, w) else s
    case Complete(w) => if w in s.busy then Completed(s, w) else s
    case Fail(w) => if w in s.busy then Failed(s, w) else s
    case Raise(w) => if w in s.busy then Aborted(s, w) else s
    case Stop => Closing(s)
    case Cancel => if s.stopping.Draining? then s.(cancelled := s.cancelled + s.tasks * Live(s), stopping := Cancelling(s.tasks)) else s
    case Exit(w) => if w in s.cancelled then Exited(s, w) else s
    case Stopped => if s.stopping.Cancelling? && s.stopping.awaited !! Live(s) then s.(tasks := {}, stopping := No) else s
  }

  function Run(c: Config, ops: seq<Op>): Queue {
    if ops == [] then EMPTY else Next(c, Run(c, ops[..|ops| - 1]), ops[|ops| - 1])
  }

  // ---------------------------------------------------------------- conservation

  /** How a job that has been taken can have fared. */
  datatype Fate = Done | Broken | Lost | Underway(w: nat)

  predicate Fares(s: Queue, job: nat, f: Fate) {
    match f
    case Done => job in s.completed
    case Broken => job in s.failed
    case Lost => job in s.aborted
    case Underway(w) => w in s.busy && s.busy[w] == job
  }

  function FirstWaiting(s: Queue): int { s.counters.enqueued - |s.waiting| }

  /** What waits is the newest jobs, in order. */
  ghost predicate InOrder(s: Queue) {
    FirstWaiting(s) >= 0 && forall i :: 0 <= i < |s.waiting| ==> s.waiting[i] == FirstWaiting(s) + i
  }

  ghost predicate OneFate(s: Queue, job: nat) {
    && (job < FirstWaiting(s) <==> exists f :: Fares(s, job, f))
    && forall f, g :: Fares(s, job, f) && Fares(s, job, g) ==> f == g
  }

  ghost predicate Accounted(s: Queue) { InOrder(s) && forall job: nat :: OneFate(s, job) }

  /** A worker has one job or none. */
  ghost predicate Staffed(s: Queue) {
    s.idle !! s.busy.Keys && forall w :: w in Live(s) ==> w < s.nextWorker
  }

  predicate Counted(s: Queue) {
    var t := s.counters;
    && t.completed == |s.completed| && t.failed == |s.failed|
    && t.submitted == t.enqueued + t.dropped
    && t.enqueued == t.completed + t.failed + |s.aborted| + |s.busy| + |s.waiting|
  }

  predicate Bounded(c: Config, s: Queue) { c.maxsize > 0 ==> |s.waiting| <= c.maxsize }

  lemma OneFateTaken(s: Queue, w: nat, job: nat)
    requires Accounted(s) && s.waiting != [] && w !in s.busy
    ensures OneFate(Taken(s, w), job) && InOrder(Taken(s, w))
  {
    var t := Taken(s, w);
    assert OneFate(s, job) && OneFate(s, s.waiting[0]);
    forall f ensures Fares(t, job, f) <==> Fares(s, job, f) || (f == Underway(w) && job == s.waiting[0]) {
    }
    if job == s.waiting[0] {
      assert Fares(t, job, Underway(w));
    } else if job < FirstWaiting(t) {
      var f :| Fares(s, job, f);
      assert Fares(t, job, f);
    }
  }

  /** A step that moves the job of worker `w` from underway to fate `g`, and nothing else. */
  lemma OneFateMoved(s: Queue, t: Queue, w: nat, g: Fate, job: nat)
    requires Accounted(s) && w in s.busy && !g.Underway? && FirstWaiting(t) == FirstWaiting(s)
    requires forall j, f :: Fares(t, j, f) <==> (Fares(s, j, f) && f != Underway(w)) || (j == s.busy[w] && f == g)
    ensures OneFate(t, job)
  {
    assert OneFate(s, job);
    assert Fares(s, s.busy[w], Underway(w));
    if job == s.busy[w] {
      assert Fares(t, job, g);
    } else if job < FirstWaiting(t) {
      var f :| Fares(s, job, f);
      assert Fares(t, job, f);
    }
  }

  lemma AccountedMoved(s: Queue, w: nat, g: Fate, t: Queue)
    requires Accounted(s) && w in s.busy
    requires (g == Done && t == Completed(s, w)) || (g == Broken && t == Failed(s, w)) || (g == Lost && t == Aborted(s, w))
    ensures Accounted(t)
  {
    forall j, f ensures Fares(t, j, f) <==> (Fares(s, j, f) && f != Underway(w)) || (j == s.busy[w] && f == g) {
    }
    forall job: nat ensures OneFate(t, job) {
      OneFateMoved(s, t, w, g, job);
    }
  }

  /** Neither the jobs nor how they fared changed. */
  lemma AccountedSame(s: Queue, t: Queue)
    requires Accounted(s) && t.busy == s.busy && t.completed == s.completed && t.failed == s.failed && t.aborted == s.aborted
    requires InOrder(t) && FirstWaiting(t) == FirstWaiting(s)
    ensures Accounted(t)
  {
    forall job: nat ensures OneFate(t, job) {
      assert OneFate(s, job);
      forall f ensures Fares(t, job, f) == Fares(s, job, f) {
      }
      if job < FirstWaiting(t) {
        var f :| Fares(s, job, f);
        assert Fares(t, job, f);
      }
    }
  }

  lemma StaffedStep(c: Config, s: Queue, op: Op)
    requires Staffed(s)
    ensures Staffed(Next(c, s, op))
  {
    var t := Next(c, s, op);
    forall w | w in Live(t) ensures w < t.nextWorker && !(w in t.idle && w in t.busy) {
      assert w in s.idle ==> w in Live(s);
      assert w in s.busy ==> w in Live(s);
    }
  }

  lemma AccountedStep(c: Config, s: Queue, op: Op)
    requires Accounted(s) && Staffed(s)
    ensures Accounted(Next(c, s, op))
  {
    var t := Next(c, s, op);
    if t != s {
      match op
      case Take(w) => forall job: nat ensures OneFate(t, job) && InOrder(t) { OneFateTaken(s, w, job); }
      case Complete(w) => AccountedMoved(s, w, Done, t);
      case Fail(w) => AccountedMoved(s, w, Broken, t);
      case Raise(w) => AccountedMoved(s, w, Lost, t);
      case Exit(w) => if w in s.busy { AccountedMoved(s, w, Lost, t); } else { AccountedSame(s, t); }
      case _ => AccountedSame(s, t);
    }
  }

  lemma CountedMoved(s: Queue, w: nat)
    requires Accounted(s) && w in s.busy
    ensures var job := s.busy[w];
            |s.completed + {job}| == |s.completed| + 1 && |s.failed + {job}| == |s.failed| + 1 && |s.aborted + {job}| == |s.aborted| + 1
    ensures |s.busy - {w}| == |s.busy| - 1
  {
    var job := s.busy[w];
    assert OneFate(s, job) && Fares(s, job, Underway(w));
    assert Fares(s, job, Done) == (job in s.completed) && Fares(s, job, Broken) == (job in s.failed) && Fares(s, job, Lost) == (job in s.aborted);
    assert s.busy == (s.busy - {w})[w := job];
  }

  lemma CountedTaken(s: Queue, w: nat)
    requires Counted(s) && s.waiting != [] && w !in s.busy
    ensures Counted(Taken(s, w))
  {
  }

  lemma CountedReleased(s: Queue, w: nat)
    requires Accounted(s) && Counted(s) && w in s.busy
    ensures Counted(Completed(s, w)) && Counted(Failed(s, w)) && Counted(Aborted(s, w))
  {
    CountedMoved(s, w);
  }

  lemma CountedSubmitted(c: Config, s: Queue)
    requires Counted(s)
    ensures Counted(Submitted(c, s))
  {
  }

  /** Neither the counters nor the jobs changed. */
  lemma CountedSame(s: Queue, t: Queue)
    requires Counted(s) && t.counters == s.counters && t.waiting == s.waiting && t.busy == s.busy
    requires t.completed == s.completed && t.failed == s.failed && t.aborted == s.aborted
    ensures Counted(t)
  {
  }

  lemma CountedExited(s: Queue, w: nat)
    requires Accounted(s) && Counted(s)
    ensures Counted(Exited(s, w))
  {
    if w in s.busy {
      CountedReleased(s, w);
    } else {
      CountedSame(s, Exited(s, w));
    }
  }

  /** `Begin`, `Stop`, `Cancel` and `Stopped` move no job. */
  lemma CountedQuiet(c: Config, s: Queue, op: Op)
    requires Counted(s) && (op.Begin? || op.Stop? || op.Cancel? || op.Stopped?)
    ensures Counted(Next(c, s, op))
  {
    CountedSame(s, Next(c, s, op));
  }

  lemma CountedJob(c: Config, s: Queue, op: Op)
    requires Accounted(s) && Counted(s) && (op.Complete? || op.Fail? || op.Raise?)
    ensures Counted(Next(c, s, op))
  {
    if op.w in s.busy {
      CountedReleased(s, op.w);
    }
  }

  lemma CountedStep(c: Config, s: Queue, op: Op)
    requires Accounted(s) && Counted(s) && Staffed(s)
    ensures Counted(Next(c, s, op))
  {
    match op
    case Submit => CountedSubmitted(c, s);
    case Take(w) => if w in s.idle && s.waiting != [] { CountedTaken(s, w); }
    case Complete(_) => CountedJob(c, s, op);
    case Fail(_) => CountedJob(c, s, op);
    case Raise(_) => CountedJob(c, s, op);
    case Exit(w) => CountedExited(s, w);
    case _ => CountedQuiet(c, s, op);
  }

  ghost predicate Sound(c: Config, s: Queue) { Accounted(s) && Counted(s) && Bounded(c, s) && Staffed(s) }

  lemma SoundStep(c: Config, s: Queue, op: Op)
    requires Sound(c, s)
    ensures Sound(c, Next(c, s, op))
  {
    StaffedStep(c, s, op);
    AccountedStep(c, s, op);
    CountedStep(c, s, op);
  }

  lemma UntakenSound(c: Config, s: Queue)
    requires s.busy == map[] && s.completed == {} && s.failed == {} && s.aborted == {} && s.waiting == [] && s.idle == {}
    requires s.counters == Counters(0, 0, 0, 0, 0)
    ensures Sound(c, s)
  {
    forall job: nat ensures OneFate(s, job) {
      assert forall f :: !Fares(s, job, f);
    }
  }

  /** Conservation, whatever the interleaving: every submission is enqueued or dropped, the
      bound holds, jobs are taken in the order they were enqueued, every job taken fares
      in exactly one way, and the counters add up. */
  lemma {:induction false} Conservation(c: Config, ops: seq<Op>)
    ensures Sound(c, Run(c, ops))
  {
    if ops == [] {
      UntakenSound(c, EMPTY);
    } else {
      Conservation(c, ops[..|ops| - 1]);
      SoundStep(c, Run(c, ops[..|ops| - 1]), ops[|ops| - 1]);
    }
  }

  /** A submission is dropped exactly while the queue is closed or has no room; otherwise it
      is the newest to wait. A start that finds the queue closed adds the configured number
      of workers, all idle. */
  lemma SubmitExactly(c: Config, s: Queue)
    ensures
      var t := Next(c, s, Submit);
      if !s.accepting || (c.maxsize > 0 && |s.waiting| >= c.maxsize)
      then t == s.(counters := t.counters) && t.counters.dropped == s.counters.dropped + 1 && t.counters.enqueued == s.counters.enqueued
      else
        && t == s.(counters := t.counters, waiting := s.waiting + [s.counters.enqueued])
        && t.counters.dropped == s.counters.dropped && t.counters.enqueued == s.counters.enqueued + 1
  {
  }

  lemma StartExactly(c: Config, s: Queue)
    requires Staffed(s)
    ensures
      var t := Next(c, s, Begin);
      && t.accepting && (s.accepting ==> t == s)
      && (!s.accepting ==> |t.idle| == |s.idle| + (if c.workers > 0 then c.workers else 0) && s.idle <= t.idle && t.tasks == t.idle - s.idle)
      && t.waiting == s.waiting && t.busy == s.busy && t.counters == s.counters
  {
    if !s.accepting {
      var n := if c.workers > 0 then c.workers else 0;
      CrewSize(s.nextWorker, n);
      assert forall w :: w in s.idle ==> w in Live(s);
      assert s.idle !! Crew(s.nextWorker, n);
    }
  }

  lemma {:induction false} CrewSize(first: nat, n: nat)
    ensures |Crew(first, n)| == n
  {
    if n > 0 {
      CrewSize(first, n - 1);
    }
  }

  // ---------------------------------------------------------------- draining

  /** No job raises cancellation, `join` does not time out, and the queue is not started
      again before `stop` is through. */
  predicate Graceful(s: Queue, op: Op) {
    match op
    case Raise(_) => false
    case Cancel => s.stopping.Draining? ==> s.stopping.drained
    case Begin => s.stopping.No?
    case _ => true
  }

  ghost predicate GracefulRun(c: Config, ops: seq<Op>) {
    forall j :: 0 <= j < |ops| ==> Graceful(Run(c, ops[..j]), ops[j])
  }

  /** Workers are cancelled, and `stop` is through, only when nothing is left. */
  ghost predicate Orderly(s: Queue) {
    && s.aborted == {}
    && (s.accepting ==> s.tasks != {} && s.stopping.No?)
    && s.cancelled <= (if s.stopping.Cancelling? then s.stopping.awaited * Live(s) else {})
    && (!s.accepting && s.stopping != Draining(false) ==> Idle(s))
  }

  lemma OrderlyStep(c: Config, s: Queue, op: Op)
    requires Orderly(s) && Graceful(s, op) && c.workers > 0
    ensures Orderly(Next(c, s, op))
  {
    if op.Begin? && !s.accepting {
      assert s.nextWorker in Next(c, s, op).tasks;
    }
  }

  lemma {:induction false} OrderlyAlways(c: Config, ops: seq<Op>)
    requires GracefulRun(c, ops) && c.workers > 0
    ensures Orderly(Run(c, ops))
  {
    if ops != [] {
      var before := ops[..|ops| - 1];
      forall j | 0 <= j < |before| ensures Graceful(Run(c, before[..j]), before[j]) {
        assert before[..j] == ops[..j];
      }
      OrderlyAlways(c, before);
      OrderlyStep(c, Run(c, before), ops[|ops| - 1]);
    }
  }

  /** A queue with workers that is stopped and drains in time loses nothing it accepted. */
  lemma DrainedStop(c: Config, ops: seq<Op>)
    requires GracefulRun(c, ops) && c.workers > 0
    ensures var s := Run(c, ops);
            && s.counters.enqueued == s.counters.completed + s.counters.failed + |s.busy| + |s.waiting|
            && (!s.accepting && s.stopping.No? ==> s.counters.completed + s.counters.failed == s.counters.enqueued)
  {
    OrderlyAlways(c, ops);
    Conservation(c, ops);
  }

  // ---------------------------------------------------------------- what a stop loses

  /** The queue is not started while a stop is under way, no job raises cancellation, and
      none withstands it. */
  predicate Ordinary(s: Queue, op: Op) {
    match op
    case Begin => s.stopping.No?
    case Raise(_) => false
    case Complete(w) => w !in s.cancelled
    case Fail(w) => w !in s.cancelled
    case _ => true
  }

  ghost predicate OrdinaryRun(c: Config, ops: seq<Op>) {
    ops != [] ==> OrdinaryRun(c, ops[..|ops| - 1]) && Ordinary(Run(c, ops[..|ops| - 1]), ops[|ops| - 1])
  }

  /** The drain gives up: `join` has not returned and the workers are cancelled. */
  predicate GivesUp(s: Queue, op: Op) { op.Cancel? && s.stopping == Draining(false) }

  /** A drain was given up while a job was under way. */
  ghost predicate CutOff(c: Config, ops: seq<Op>) {
    && ops != []
    && (CutOff(c, ops[..|ops| - 1]) || (GivesUp(Run(c, ops[..|ops| - 1]), ops[|ops| - 1]) && Run(c, ops[..|ops| - 1]).busy != map[]))
  }

  /** A drain was given up, and the queue not started again since. */
  ghost predicate LeftBehind(c: Config, ops: seq<Op>) {
    && ops != [] && !ops[|ops| - 1].Begin?
    && (LeftBehind(c, ops[..|ops| - 1]) || GivesUp(Run(c, ops[..|ops| - 1]), ops[|ops| - 1]))
  }

  /** The workers alive are those of the latest start, and cancelled only by a stop that
      waits for them. */
  ghost predicate OneCrew(s: Queue) {
    && (s.accepting ==> s.tasks != {} && s.stopping.No?)
    && (s.stopping.No? && !s.accepting ==> Live(s) == {} && s.tasks == {})
    && Live(s) <= (if s.stopping.Cancelling? then s.stopping.awaited else s.tasks)
    && s.cancelled <= (if s.stopping.Cancelling? then Live(s) else {})
  }

  /** A job is aborted, or about to be. */
  ghost predicate Doomed(s: Queue) { s.aborted != {} || !(s.busy.Keys !! s.cancelled) }

  /** The queue is closed for good only when nothing is left. */
  ghost predicate Hopeful(s: Queue) {
    && (s.stopping == Draining(false) ==> !Idle(s))
    && (!s.accepting && s.stopping != Draining(false) ==> Idle(s))
  }

  /** Whoever lives is cancelled, and something stays undone. */
  ghost predicate Hopeless(s: Queue) {
    && !s.accepting && !s.stopping.Draining?
    && Live(s) <= s.cancelled
    && (s.aborted != {} || !Idle(s))
  }

  lemma OneCrewStep(c: Config, s: Queue, op: Op)
    requires OneCrew(s) && Staffed(s) && Ordinary(s, op) && c.workers > 0
    ensures OneCrew(Next(c, s, op))
  {
    if op.Begin? && !s.accepting {
      assert s.nextWorker in Next(c, s, op).tasks;
    }
  }

  lemma HopefulStep(c: Config, s: Queue, op: Op)
    requires OneCrew(s) && Hopeful(s) && Staffed(s) && Ordinary(s, op) && !GivesUp(s, op)
    ensures Hopeful(Next(c, s, op))
  {
    var t := Next(c, s, op);
    if op.Take? && t != s {
      assert op.w in t.busy;
    }
  }

  lemma HopelessStep(c: Config, s: Queue, op: Op)
    requires OneCrew(s) && Hopeless(s) && Staffed(s) && Ordinary(s, op)
    ensures if op.Begin? then Hopeful(Next(c, s, op)) else Hopeless(Next(c, s, op))
  {
  }

  lemma DoomedStep(c: Config, s: Queue, op: Op)
    requires Doomed(s) && Ordinary(s, op)
    ensures Doomed(Next(c, s, op))
  {
    if w :| w in s.busy && w in s.cancelled {
      var t := Next(c, s, op);
      assert t.aborted == {} ==> w in t.busy && w in t.cancelled;
    }
  }

  /** Nothing is doomed but by giving up while a job is under way. */
  lemma NotDoomedStep(c: Config, s: Queue, op: Op)
    requires OneCrew(s) && Staffed(s) && (Hopeful(s) || Hopeless(s)) && !Doomed(s) && Ordinary(s, op)
    ensures Doomed(Next(c, s, op)) <==> GivesUp(s, op) && s.busy != map[]
  {
    if GivesUp(s, op) && s.busy != map[] {
      var w :| w in s.busy;
      assert w in Next(c, s, op).cancelled;
    }
  }

  ghost predicate Standing(s: Queue, cut: bool, left: bool) {
    OneCrew(s) && (cut <==> Doomed(s)) && if left then Hopeless(s) else Hopeful(s)
  }

  lemma {:induction false} CrewAlways(c: Config, ops: seq<Op>)
    requires OrdinaryRun(c, ops) && c.workers > 0
    ensures Standing(Run(c, ops), CutOff(c, ops), LeftBehind(c, ops))
  {
    if ops != [] {
      var (before, op) := (ops[..|ops| - 1], ops[|ops| - 1]);
      var s := Run(c, before);
      CrewAlways(c, before);
      Conservation(c, before);
      OneCrewStep(c, s, op);
      if Doomed(s) {
        DoomedStep(c, s, op);
      } else {
        NotDoomedStep(c, s, op);
      }
      if LeftBehind(c, before) {
        HopelessStep(c, s, op);
      } else if !GivesUp(s, op) {
        HopefulStep(c, s, op);
      }
    }
  }

  lemma ThroughCounts(s: Queue, cut: bool, left: bool)
    requires Counted(s) && Standing(s, cut, left) && s.stopping.No? && !s.accepting
    ensures s.counters.completed + s.counters.failed == s.counters.enqueued <==> !cut && !left
  {
    assert s.busy.Keys <= Live(s) && |s.busy| == |s.busy.Keys| == 0;
    assert s.aborted != {} <==> |s.aborted| > 0;
  }

  lemma ThroughRun(c: Config, ops: seq<Op>, s: Queue, cut: bool, left: bool)
    requires OrdinaryRun(c, ops) && c.workers > 0 && s == Run(c, ops) && cut == CutOff(c, ops) && left == LeftBehind(c, ops)
    requires s.stopping.No? && !s.accepting
    ensures s.counters.completed + s.counters.failed == s.counters.enqueued <==> !cut && !left
  {
    CrewAlways(c, ops);
    Conservation(c, ops);
    ThroughCounts(s, cut, left);
  }

  /** The exact condition. Once `stop` is through, every job the queue took on has
      completed or failed if and only if no drain was ever given up over a job under way,
      and none at all since the queue was last started. */
  lemma StopLosesExactly(c: Config, ops: seq<Op>)
    requires OrdinaryRun(c, ops) && c.workers > 0
    requires Run(c, ops).stopping.No? && !Run(c, ops).accepting
    ensures var t := Run(c, ops).counters;
            t.completed + t.failed == t.enqueued <==> !CutOff(c, ops) && !LeftBehind(c, ops)
  {
    ThroughRun(c, ops, Run(c, ops), CutOff(c, ops), LeftBehind(c, ops));
  }

  ghost predicate Unmanned(s: Queue) {
    && s.idle == {} && s.busy == map[] && s.completed == {} && s.failed == {} && s.aborted == {}
    && s.counters.completed == 0 && s.counters.failed == 0 && |s.waiting| == s.counters.enqueued
  }

  lemma UnmannedStep(c: Config, s: Queue, op: Op)
    requires Unmanned(s) && c.workers <= 0
    ensures Unmanned(Next(c, s, op))
  {
    assert Live(s) == {} && Crew(s.nextWorker, 0) == {};
  }

  /** Without workers every job stays behind, so nothing is lost only if nothing was
      enqueued. */
  lemma {:induction false} NoWorkersNoWork(c: Config, ops: seq<Op>)
    requires c.workers <= 0
    ensures Unmanned(Run(c, ops))
    ensures var t := Run(c, ops).counters; t.completed + t.failed == t.enqueued <==> t.enqueued == 0
  {
    if ops != [] {
      NoWorkersNoWork(c, ops[..|ops| - 1]);
      UnmannedStep(c, Run(c, ops[..|ops| - 1]), ops[|ops| - 1]);
    }
  }

  /** Without the grace it can lose jobs: one is aborted by a drain that times out, one
      stays behind where there are no workers to wait for. */
  lemma HastyStops()
    ensures var s := Run(Config(1000, 1), [Begin, Submit, Take(0)] + [Stop, Cancel, Exit(0)] + [Stopped]);
            s.stopping.No? && !s.accepting && s.counters.enqueued == 1 && s.aborted == {0}
    ensures var s := Run(Config(1000, 0), [Begin, Submit, Stop]);
            s.stopping.No? && !s.accepting && s.counters.enqueued == 1 && s.waiting == [0]
  {
    var (c, d) := (Config(1000, 1), Config(1000, 0));
    assert Crew(0, 1) == {0} && Crew(0, 0) == {};
    RunThree(c, [], Begin, Submit, Take(0));
    RunThree(d, [], Begin, Submit, Stop);
    RunThree(c, [Begin, Submit, Take(0)], Stop, Cancel, Exit(0));
    RunOn(c, [Begin, Submit, Take(0)] + [Stop, Cancel, Exit(0)], Stopped);
    OneTaken(c);
    OneAborted(c, Run(c, [Begin, Submit, Take(0)]));
  }

  lemma OneTaken(c: Config)
    requires c == Config(1000, 1)
    ensures var s := Next(c, Next(c, Next(c, EMPTY, Begin), Submit), Take(0));
            s.busy == map[0 := 0] && s.idle == {} && s.tasks == {0} && s.stopping.No? && s.aborted == {} && s.cancelled == {}
            && s.counters.enqueued == 1
  {
    assert Crew(0, 1) == {0};
    assert Started(c, EMPTY).idle == {0};
    assert Submitted(c, Started(c, EMPTY)).waiting == [0];
  }

  lemma OneAborted(c: Config, s: Queue)
    requires s.busy == map[0 := 0] && s.idle == {} && s.tasks == {0} && s.stopping.No? && s.aborted == {} && s.cancelled == {}
    ensures var t := Next(c, Next(c, Next(c, Next(c, s, Stop), Cancel), Exit(0)), Stopped);
            t.stopping.No? && !t.accepting && t.counters == s.counters && t.aborted == {0}
  {
    assert 0 in s.busy;
    assert Next(c, Next(c, s, Stop), Cancel).cancelled == {0};
  }

  lemma RunThree(c: Config, ops: seq<Op>, o: Op, p: Op, q: Op)
    ensures Run(c, ops + [o, p, q]) == Next(c, Next(c, Next(c, Run(c, ops), o), p), q)
  {
    assert ops + [o] + [p] + [q] == ops + [o, p, q];
    RunOn(c, ops + [o] + [p], q);
    RunOn(c, ops + [o], p);
    RunOn(c, ops, o);
  }

  lemma RunOn(c: Config, ops: seq<Op>, op: Op)
    ensures Run(c, ops + [op]) == Next(c, Run(c, ops), op)
  {
    assert (ops + [op])[..|ops|] == ops;
  }

  // ---------------------------------------------------------------- the queue

  /** The queue object; `view` adds what its worker tasks and a running `stop` are at. */
  class CachePersistenceQueue {
    const config: Config
    var waiting: seq<nat>
    var accepting: bool
    var workerTasks: set<nat>
    var nextWorker: nat
    var enqueued: nat
    var completed: nat
    var failed: nat
    var dropped: nat
    ghost var view: Queue

    ghost predicate Valid() reads this {
      && view.waiting == waiting && view.accepting == accepting && view.tasks == workerTasks && view.nextWorker == nextWorker
      && view.counters == Counters(enqueued + dropped, enqueued, dropped, completed, failed)
    }

    constructor (maxsize: int, workers: int)
      ensures Valid() && config == Config(maxsize, workers) && view == EMPTY
    {
      config := Config(maxsize, workers);
      waiting, accepting, enqueued, completed, failed, dropped := [], false, 0, 0, 0, 0;
      workerTasks, nextWorker := {}, 0;
      view := EMPTY;
    }

    method Start()
      requires Valid()
      modifies this
      ensures Valid() && view == Next(config, old(view), Begin)
    {
      view := Next(config, view, Begin);
      if accepting {
        return;
      }
      accepting := true;
      var n := if config.workers > 0 then config.workers else 0;
      workerTasks, nextWorker := Crew(nextWorker, n), nextWorker + n;
    }

    /** Never blocks: without room, or while not accepting, the job is dropped. */
    method Enqueue() returns (ok: bool)
      requires Valid()
      modifies this
      ensures Valid() && view == Next(config, old(view), Submit)
      ensures ok == (old(view).accepting && !Full(config, old(view)))
      ensures ok ==> enqueued == old(enqueued) + 1 && dropped == old(dropped)
      ensures !ok ==> dropped == old(dropped) + 1 && waiting == old(waiting)
    {
      view := Next(config, view, Submit);
      if !accepting {
        dropped := dropped + 1;
        return false;
      }
      if config.maxsize > 0 && |waiting| >= config.maxsize {
        dropped := dropped + 1;
        return false;
      }
      waiting := waiting + [enqueued];
      enqueued := enqueued + 1;
      return true;
    }

    /** A worker's `get`. */
    method TakeJob(ghost w: nat) returns (job: nat)
      requires Valid() && w in view.idle && w !in view.cancelled && waiting != []
      modifies this
      ensures Valid() && view == Next(config, old(view), Take(w))
      ensures w in view.busy && view.busy[w] == job && job == old(waiting)[0]
    {
      view := Next(config, view, Take(w));
      job := waiting[0];
      waiting := waiting[1..];
    }

    /** What a worker does when its job returns (`ok`) or raises. */
    method FinishJob(ghost w: nat, ok: bool)
      requires Valid() && w in view.busy
      modifies this
      ensures Valid() && view == Next(config, old(view), if ok then Complete(w) else Fail(w))
    {
      if ok {
        view := Next(config, view, Complete(w));
        completed := completed + 1;
      } else {
        view := Next(config, view, Fail(w));
        failed := failed + 1;
      }
    }

    /** `stop` up to its wait on `join`, which there is only where there are workers. */
    method BeginStop() returns (waits: bool)
      requires Valid() && view.stopping.No?
      modifies this
      ensures Valid() && view == Next(config, old(view), Stop)
      ensures waits <==> view.stopping.Draining?
    {
      view := Next(config, view, Stop);
      accepting := false;
      return workerTasks != {};
    }

    /** `stop` once `join` has returned or timed out: the workers it cancels. */
    method CancelWorkers() returns (cancelled: set<nat>)
      requires Valid() && view.stopping.Draining?
      modifies this
      ensures Valid() && view == Next(config, old(view), Cancel)
      ensures cancelled == view.stopping.awaited
    {
      view := Next(config, view, Cancel);
      return workerTasks;
    }

    /** `stop` once the workers it cancelled have ended. */
    method EndStop()
      requires Valid() && view.stopping.Cancelling? && view.stopping.awaited !! Live(view)
      modifies this
      ensures Valid() && view == Next(config, old(view), Stopped)
    {
      view := Next(config, view, Stopped);
      workerTasks := {};
    }
  }
}
