/** The sliding-window limiter (`core/auth/rate_limiter.py`): per key, the times of the
    attempts allowed so far, oldest first, forgotten once they leave the window. */
module RateLimiting {
  import opened Ordering

  type Buckets = map<string, seq<real>>

  datatype Op =
    | Check(key: string, now: real, maxAttempts: int, window: real)
    | Reset(key: string)

  // ---------------------------------------------------------------- one call

  function Bucket(b: Buckets, k: string): seq<real> { if k in b then b[k] else [] }

  function Pruned(bucket: seq<real>, cutoff: real): seq<real> {
    if bucket != [] && bucket[0] < cutoff then Pruned(bucket[1..], cutoff) else bucket
  }

  predicate Allows(b: Buckets, k: string, now: real, maxAttempts: int, window: real) {
    |Pruned(Bucket(b, k), now - window)| < maxAttempts
  }

  function AfterCheck(b: Buckets, k: string, now: real, maxAttempts: int, window: real): Buckets {
    var kept := Pruned(Bucket(b, k), now - window);
    b[k := if |kept| < maxAttempts then kept + [now] else kept]
  }

  function Step(b: Buckets, op: Op): Buckets {
    match op
    case Check(k, now, m, w) => AfterCheck(b, k, now, m, w)
    case Reset(k) => b - {k}
  }

  function Run(ops: seq<Op>): Buckets {
    if ops == [] then map[] else Step(Run(ops[..|ops| - 1]), ops[|ops| - 1])
  }

  // ---------------------------------------------------------------- the full history

  /** When attempts of `k` were allowed since its last reset, none forgotten. */
  function Log(ops: seq<Op>, k: string): seq<real> {
    if ops == [] then []
    else
      var (before, op) := (ops[..|ops| - 1], ops[|ops| - 1]);
      if op.key != k then Log(before, k)
      else
        match op
        case Reset(_) => []
        case Check(_, now, m, w) => if Allows(Run(before), k, now, m, w) then Log(before, k) + [now] else Log(before, k)
  }

  /** How many of the times lie in the closed interval. */
  function Within(times: seq<real>, lo: real, hi: real): nat {
    if times == [] then 0
    else Within(times[..|times| - 1], lo, hi) + if lo <= times[|times| - 1] <= hi then 1 else 0
  }

  predicate CheckOf(op: Op, k: string) { op.Check? && op.key == k }

  /** The call, if it checks `k`, read the clock by `now` and its window began by `cutoff`. */
  predicate Before(op: Op, k: string, now: real, cutoff: real) {
    CheckOf(op, k) ==> op.now <= now && op.now - op.window <= cutoff
  }

  /** On `k`, neither the clock nor the start of the window goes back. */
  ghost predicate Forward(ops: seq<Op>, k: string) {
    forall i, j :: 0 <= i < j < |ops| && CheckOf(ops[j], k) ==> Before(ops[i], k, ops[j].now, ops[j].now - ops[j].window)
  }

  /** Every check of `k` uses these limits. */
  ghost predicate Uniform(ops: seq<Op>, k: string, maxAttempts: int, window: real) {
    forall i :: 0 <= i < |ops| && ops[i].Check? && ops[i].key == k ==> ops[i].maxAttempts == maxAttempts && ops[i].window == window
  }

  ghost predicate MonotoneClock(ops: seq<Op>) {
    forall i, j :: 0 <= i < j < |ops| && ops[i].Check? && ops[j].Check? ==> ops[i].now <= ops[j].now
  }

  // ---------------------------------------------------------------- counting

  lemma {:induction false} WithinConcat(s: seq<real>, t: seq<real>, lo: real, hi: real)
    ensures Within(s + t, lo, hi) == Within(s, lo, hi) + Within(t, lo, hi)
  {
    if t == [] {
      assert s + t == s;
    } else {
      WithinConcat(s, t[..|t| - 1], lo, hi);
      assert (s + t)[..|s + t| - 1] == s + t[..|t| - 1];
    }
  }

  lemma {:induction false} WithinNone(s: seq<real>, lo: real, hi: real)
    requires forall i :: 0 <= i < |s| ==> s[i] < lo
    ensures Within(s, lo, hi) == 0
  {
    if s != [] {
      WithinNone(s[..|s| - 1], lo, hi);
    }
  }

  lemma {:induction false} WithinAll(s: seq<real>, lo: real, hi: real)
    requires forall i :: 0 <= i < |s| ==> lo <= s[i] <= hi
    ensures Within(s, lo, hi) == |s|
  {
    if s != [] {
      WithinAll(s[..|s| - 1], lo, hi);
    }
  }

  // ---------------------------------------------------------------- what is forgotten

  /** The bucket is the end of the log, and all that is missing lies before `bound`. */
  ghost predicate Forgotten(log: seq<real>, bucket: seq<real>, bound: real) {
    && |bucket| <= |log| && bucket == log[|log| - |bucket|..]
    && forall i :: 0 <= i < |log| - |bucket| ==> log[i] < bound
  }

  lemma {:induction false} PrunedIsSuffix(bucket: seq<real>, cutoff: real)
    ensures Forgotten(bucket, Pruned(bucket, cutoff), cutoff)
  {
    if bucket != [] && bucket[0] < cutoff {
      PrunedIsSuffix(bucket[1..], cutoff);
    }
  }

  lemma ForgottenTwice(log: seq<real>, bucket: seq<real>, kept: seq<real>, bound: real, cutoff: real)
    requires Forgotten(log, bucket, bound) && Forgotten(bucket, kept, cutoff) && cutoff <= bound
    ensures Forgotten(log, kept, bound)
  {
    var (d, e) := (|log| - |bucket|, |log| - |kept|);
    forall i | d <= i < e ensures log[i] < bound {
      assert bucket[i - d] == log[i];
    }
  }

  lemma ForgottenGrown(log: seq<real>, bucket: seq<real>, x: real, bound: real)
    requires Forgotten(log, bucket, bound)
    ensures Forgotten(log + [x], bucket + [x], bound)
  {
    assert (log + [x])[|log| - |bucket|..] == log[|log| - |bucket|..] + [x];
  }

  lemma {:induction false} ForgottenAlways(ops: seq<Op>, k: string, bound: real)
    requires forall i :: 0 <= i < |ops| && CheckOf(ops[i], k) ==> ops[i].now - ops[i].window <= bound
    ensures Forgotten(Log(ops, k), Bucket(Run(ops), k), bound)
  {
    if ops != [] {
      var (before, op) := (ops[..|ops| - 1], ops[|ops| - 1]);
      ForgottenAlways(before, k, bound);
      if CheckOf(op, k) {
        var (log, bucket, cutoff) := (Log(before, k), Bucket(Run(before), k), op.now - op.window);
        var kept := Pruned(bucket, cutoff);
        PrunedIsSuffix(bucket, cutoff);
        ForgottenTwice(log, bucket, kept, bound, cutoff);
        ForgottenGrown(log, kept, op.now, bound);
      }
    }
  }

  /** Of times in order, pruning drops exactly those before the cutoff. */
  lemma {:induction false} PrunedIsRest(bucket: seq<real>, cutoff: real)
    requires Sorted(bucket)
    ensures Forgotten(bucket, Pruned(bucket, cutoff), cutoff) && forall i :: 0 <= i < |Pruned(bucket, cutoff)| ==> cutoff <= Pruned(bucket, cutoff)[i]
  {
    if bucket != [] && bucket[0] < cutoff {
      PrunedIsRest(bucket[1..], cutoff);
    }
  }

  /** The times logged are in order, and none after `now`. */
  lemma {:induction false} LogSorted(ops: seq<Op>, k: string, now: real, cutoff: real)
    requires Forward(ops, k) && forall i :: 0 <= i < |ops| ==> Before(ops[i], k, now, cutoff)
    ensures Sorted(Log(ops, k)) && forall i :: 0 <= i < |Log(ops, k)| ==> Log(ops, k)[i] <= now
  {
    if ops != [] {
      var (before, op) := (ops[..|ops| - 1], ops[|ops| - 1]);
      if CheckOf(op, k) {
        LogSorted(before, k, op.now, op.now - op.window);
      } else {
        LogSorted(before, k, now, cutoff);
      }
    }
  }

  /** What pruning keeps is what the window holds of the whole log. */
  lemma Counted(ops: seq<Op>, k: string, now: real, cutoff: real)
    requires Forward(ops, k) && forall i :: 0 <= i < |ops| ==> Before(ops[i], k, now, cutoff)
    ensures Within(Log(ops, k), cutoff, now) == |Pruned(Bucket(Run(ops), k), cutoff)|
  {
    var (log, bucket) := (Log(ops, k), Bucket(Run(ops), k));
    var kept := Pruned(bucket, cutoff);
    LogSorted(ops, k, now, cutoff);
    ForgottenAlways(ops, k, cutoff);
    PrunedIsRest(bucket, cutoff);
    ForgottenTwice(log, bucket, kept, cutoff, cutoff);
    var gone := log[..|log| - |kept|];
    assert log == gone + kept;
    WithinConcat(gone, kept, cutoff, now);
    WithinNone(gone, cutoff, now);
    WithinAll(kept, cutoff, now);
  }

  lemma ForwardPrefix(ops: seq<Op>, last: Op)
    requires Forward(ops + [last], last.key) && last.Check?
    ensures Forward(ops, last.key)
    ensures forall i :: 0 <= i < |ops| ==> Before(ops[i], last.key, last.now, last.now - last.window)
  {
    var (all, k) := (ops + [last], last.key);
    assert all[|ops|] == last && CheckOf(all[|ops|], k);
    forall i | 0 <= i < |ops| ensures Before(ops[i], k, last.now, last.now - last.window) {
      assert all[i] == ops[i];
    }
    forall i, j | 0 <= i < j < |ops| && CheckOf(ops[j], k) ensures Before(ops[i], k, ops[j].now, ops[j].now - ops[j].window) {
      assert all[i] == ops[i] && all[j] == ops[j];
    }
  }

  // ---------------------------------------------------------------- main results

  /** A check is refused exactly when `maxAttempts` attempts allowed since the last reset
      lie in `[now - window, now]`, however many have been forgotten. */
  lemma RefusedExactly(ops: seq<Op>, k: string, now: real, maxAttempts: int, window: real)
    requires Forward(ops + [Check(k, now, maxAttempts, window)], k)
    ensures Allows(Run(ops), k, now, maxAttempts, window) <==> Within(Log(ops, k), now - window, now) < maxAttempts
  {
    ForwardPrefix(ops, Check(k, now, maxAttempts, window));
    Counted(ops, k, now, now - window);
  }

  // ---------------------------------------------------------------- checks out of clock order

  /** A check may read the clock, then wait for the lock while others that read it later
      go first: checks run at most `skew` behind the latest reading. */
  ghost predicate Skewed(ops: seq<Op>, k: string, skew: real) {
    forall i, j :: 0 <= i < j < |ops| && CheckOf(ops[i], k) && CheckOf(ops[j], k) ==> ops[i].now - skew <= ops[j].now
  }

  lemma {:induction false} WithinAtMost(s: seq<real>, lo: real, hi: real)
    ensures Within(s, lo, hi) <= |s|
  {
    if s != [] {
      WithinAtMost(s[..|s| - 1], lo, hi);
    }
  }

  lemma ForgottenCount(log: seq<real>, kept: seq<real>, lo: real, hi: real)
    requires Forgotten(log, kept, lo)
    ensures Within(log, lo, hi) <= |kept|
  {
    var gone := log[..|log| - |kept|];
    assert log == gone + kept;
    WithinConcat(gone, kept, lo, hi);
    WithinNone(gone, lo, hi);
    WithinAtMost(kept, lo, hi);
  }

  lemma WithinGrown(s: seq<real>, x: real, lo: real, hi: real)
    ensures Within(s + [x], lo, hi) == Within(s, lo, hi) + if lo <= x <= hi then 1 else 0
  {
    assert (s + [x])[..|s|] == s;
  }

  /** An attempt allowed at `now` counts those in any window shorter by the skew. */
  lemma SkewedCount(ops: seq<Op>, k: string, now: real, window: real, skew: real, from: real)
    requires forall i :: 0 <= i < |ops| && CheckOf(ops[i], k) ==> ops[i].now - skew <= now && ops[i].window == window
    requires skew >= 0.0 && from <= now <= from + window - skew
    ensures Within(Log(ops, k), from, from + window - skew) <= |Pruned(Bucket(Run(ops), k), now - window)|
  {
    var (log, bucket) := (Log(ops, k), Bucket(Run(ops), k));
    ForgottenAlways(ops, k, from);
    PrunedIsSuffix(bucket, now - window);
    ForgottenTwice(log, bucket, Pruned(bucket, now - window), from, now - window);
    ForgottenCount(log, Pruned(bucket, now - window), from, from + window - skew);
  }

  /** With fixed limits, and checks at most `skew` out of clock order, no closed interval
      shorter than the window by the skew holds more than `maxAttempts` attempts allowed
      since the last reset. */
  lemma {:induction false} SkewedLimit(ops: seq<Op>, k: string, maxAttempts: int, window: real, skew: real, from: real)
    requires Uniform(ops, k, maxAttempts, window) && Skewed(ops, k, skew) && skew >= 0.0
    ensures Within(Log(ops, k), from, from + window - skew) <= if maxAttempts > 0 then maxAttempts else 0
  {
    if ops != [] {
      var (before, op) := (ops[..|ops| - 1], ops[|ops| - 1]);
      SkewedLimit(before, k, maxAttempts, window, skew, from);
      if CheckOf(op, k) && Allows(Run(before), k, op.now, maxAttempts, window) {
        WithinGrown(Log(before, k), op.now, from, from + window - skew);
        if from <= op.now <= from + window - skew {
          SkewedCount(before, k, op.now, window, skew, from);
        }
      }
    }
  }

  /** With a clock that never goes back between checks, every closed interval of the
      window's length is within the limit. */
  lemma WindowLimit(ops: seq<Op>, k: string, maxAttempts: int, window: real, from: real)
    requires Uniform(ops, k, maxAttempts, window) && MonotoneClock(ops)
    ensures Within(Log(ops, k), from, from + window) <= if maxAttempts > 0 then maxAttempts else 0
  {
    SkewedLimit(ops, k, maxAttempts, window, 0.0, from);
  }

  // ---------------------------------------------------------------- the exact limit

  /** With these limits and checks at most `skew` out of order, the interval of this length
      from `from` on is within the limit. */
  ghost predicate Holds(ops: seq<Op>, k: string, m: int, w: real, skew: real, from: real, length: real) {
    Uniform(ops, k, m, w) && Skewed(ops, k, skew) ==> Within(Log(ops, k), from, from + length) <= m
  }

  lemma {:induction false} WithinShorter(s: seq<real>, lo: real, hi: real, hi': real)
    requires hi <= hi'
    ensures Within(s, lo, hi) <= Within(s, lo, hi')
  {
    if s != [] {
      WithinShorter(s[..|s| - 1], lo, hi, hi');
    }
  }

  /** One check more, after calls whose log and bucket are known. */
  lemma Checked(ops: seq<Op>, k: string, log: seq<real>, bucket: seq<real>, now: real, m: int, w: real)
    requires Log(ops, k) == log && Bucket(Run(ops), k) == bucket
    ensures var (kept, all) := (Pruned(bucket, now - w), ops + [Check(k, now, m, w)]);
            if |kept| < m then Log(all, k) == log + [now] && Bucket(Run(all), k) == kept + [now]
            else Log(all, k) == log && Bucket(Run(all), k) == kept
  {
    assert (ops + [Check(k, now, m, w)])[..|ops|] == ops;
  }

  function Zeros(n: nat): seq<real> { seq(n, _ => 0.0) }

  function ChecksAtZero(k: string, n: nat, m: int, w: real): seq<Op> { seq(n, _ => Check(k, 0.0, m, w)) }

  lemma {:induction false} ZerosPruned(n: nat, cutoff: real)
    ensures Pruned(Zeros(n), cutoff) == if cutoff > 0.0 then [] else Zeros(n)
  {
    if n > 0 && cutoff > 0.0 {
      assert Zeros(n)[1..] == Zeros(n - 1);
      ZerosPruned(n - 1, cutoff);
    }
  }

  lemma {:induction false} ZerosLogged(k: string, n: nat, m: int, w: real)
    requires n <= m && w >= 0.0
    ensures Log(ChecksAtZero(k, n, m, w), k) == Bucket(Run(ChecksAtZero(k, n, m, w)), k) == Zeros(n)
  {
    if n > 0 {
      ZerosLogged(k, n - 1, m, w);
      ZerosPruned(n - 1, 0.0 - w);
      Checked(ChecksAtZero(k, n - 1, m, w), k, Zeros(n - 1), Zeros(n - 1), 0.0, m, w);
      assert ChecksAtZero(k, n - 1, m, w) + [Check(k, 0.0, m, w)] == ChecksAtZero(k, n, m, w);
      assert Zeros(n - 1) + [0.0] == Zeros(n);
    }
  }

  /** `m` checks at zero, one when they are just forgotten, and one that read the clock
      `skew` before that. */
  function LateRun(k: string, m: nat, w: real, skew: real, length: real): seq<Op> {
    ChecksAtZero(k, m, m, w) + [Check(k, length + skew, m, w)] + [Check(k, length, m, w)]
  }

  lemma LateRunLog(k: string, m: nat, w: real, skew: real, length: real)
    requires m >= 2 && w >= 0.0 && skew >= 0.0 && length + skew > w
    ensures Log(LateRun(k, m, w, skew, length), k) == Zeros(m) + [length + skew] + [length]
  {
    var (ops, at) := (ChecksAtZero(k, m, m, w), length + skew);
    ZerosLogged(k, m, m, w);
    ZerosPruned(m, at - w);
    Checked(ops, k, Zeros(m), Zeros(m), at, m, w);
    assert [] + [at] == [at];
    Checked(ops + [Check(k, at, m, w)], k, Zeros(m) + [at], [at], length, m, w);
  }

  lemma LateRunSkewed(k: string, m: nat, w: real, skew: real, length: real)
    requires skew >= 0.0 && length >= 0.0
    ensures Uniform(LateRun(k, m, w, skew, length), k, m, w) && Skewed(LateRun(k, m, w, skew, length), k, skew)
  {
    var ops := LateRun(k, m, w, skew, length);
    forall i | 0 <= i < |ops| ensures ops[i] == Check(k, if i < m then 0.0 else if i == m then length + skew else length, m, w) {
    }
  }

  lemma LateRunExceeds(k: string, m: nat, w: real, skew: real, length: real)
    requires m >= 2 && w >= 0.0 && skew >= 0.0 && length >= 0.0 && length + skew > w
    ensures !Holds(LateRun(k, m, w, skew, length), k, m, w, skew, 0.0, length)
  {
    LateRunLog(k, m, w, skew, length);
    LateRunSkewed(k, m, w, skew, length);
    WithinGrown(Zeros(m) + [length + skew], length, 0.0, length);
    WithinGrown(Zeros(m), length + skew, 0.0, length);
    WithinAll(Zeros(m), 0.0, length);
  }

  /** The exact limit. Whatever the run, no interval of this length is over a limit of two
      or more, if and only if the window is longer by the skew. */
  lemma LimitExactly(k: string, m: int, w: real, skew: real, length: real)
    requires m >= 2 && w >= 0.0 && skew >= 0.0 && length >= 0.0
    ensures (forall ops, from :: Holds(ops, k, m, w, skew, from, length)) <==> length + skew <= w
  {
    if length + skew <= w {
      forall ops, from ensures Holds(ops, k, m, w, skew, from, length) {
        if Uniform(ops, k, m, w) && Skewed(ops, k, skew) {
          SkewedLimit(ops, k, m, w, skew, from);
          WithinShorter(Log(ops, k), from, from + length, from + w - skew);
        }
      }
    } else {
      LateRunExceeds(k, m, w, skew, length);
    }
  }

  /** A bucket with a limit of one holds the latest attempt alone, and that one came more
      than a window after the one before. */
  ghost predicate Single(log: seq<real>, bucket: seq<real>, w: real) {
    && (forall i :: 0 <= i < |log| - 1 ==> log[i] + w < log[i + 1])
    && (bucket == [] || (log != [] && bucket == [log[|log| - 1]]))
    && (bucket == [] <==> log == [])
  }

  /** Each refused check leaves the bucket as it is, or the bucket was empty. */
  lemma SingleStep(log: seq<real>, bucket: seq<real>, now: real, w: real)
    requires Single(log, bucket, w)
    ensures var kept := Pruned(bucket, now - w);
            if |kept| < 1 then Single(log + [now], kept + [now], w) else Single(log, kept, w)
  {
    if bucket != [] {
      assert bucket[1..] == [];
    }
  }

  lemma {:induction false} SingleAlways(ops: seq<Op>, k: string, w: real)
    requires Uniform(ops, k, 1, w)
    ensures Single(Log(ops, k), Bucket(Run(ops), k), w)
  {
    if ops != [] {
      var (before, op) := (ops[..|ops| - 1], ops[|ops| - 1]);
      SingleAlways(before, k, w);
      if CheckOf(op, k) {
        SingleStep(Log(before, k), Bucket(Run(before), k), op.now, w);
      }
    }
  }

  lemma {:induction false} SpacedCount(log: seq<real>, w: real, from: real)
    requires w >= 0.0 && forall n :: 0 <= n < |log| - 1 ==> log[n] + w < log[n + 1]
    ensures Within(log, from, from + w) <= 1
    ensures log != [] && log[|log| - 1] < from ==> Within(log, from, from + w) == 0
  {
    if log != [] {
      var (before, last) := (log[..|log| - 1], log[|log| - 1]);
      SpacedCount(before, w, from);
      if before != [] {
        assert before[|before| - 1] + w < last;
      }
    }
  }

  /** With a limit of one the skew does not matter: in any order of checks, intervals hold
      at most one allowed attempt if and only if they are no longer than the window. */
  lemma LimitOfOne(k: string, w: real, skew: real, length: real)
    requires w >= 0.0 && skew >= 0.0 && length >= 0.0
    ensures (forall ops, from :: Holds(ops, k, 1, w, skew, from, length)) <==> length <= w
  {
    if length <= w {
      forall ops, from ensures Holds(ops, k, 1, w, skew, from, length) {
        if Uniform(ops, k, 1, w) {
          SingleAlways(ops, k, w);
          SpacedCount(Log(ops, k), w, from);
          WithinShorter(Log(ops, k), from, from + length, from + w);
        }
      }
    } else {
      var one := ChecksAtZero(k, 1, 1, w);
      ZerosLogged(k, 1, 1, w);
      ZerosPruned(1, length - w);
      Checked(one, k, Zeros(1), Zeros(1), length, 1, w);
      WithinGrown(Zeros(1), length, 0.0, length);
      WithinAll(Zeros(1), 0.0, length);
      assert !Holds(one + [Check(k, length, 1, w)], k, 1, w, skew, 0.0, length);
    }
  }

  // ---------------------------------------------------------------- the limiter

  /** The process-wide table of attempts and its two operations, each under the lock. */
  class RateLimiter {
    var attempts: Buckets

    constructor ()
      ensures attempts == map[]
    {
      attempts := map[];
    }

    method CheckAndRecord(k: string, now: real, maxAttempts: int, window: real) returns (allowed: bool)
      modifies this
      ensures attempts == Step(old(attempts), Check(k, now, maxAttempts, window))
      ensures allowed == Allows(old(attempts), k, now, maxAttempts, window)
    {
      var cutoff := now - window;
      var bucket := if k in attempts then attempts[k] else [];
      while bucket != [] && bucket[0] < cutoff
        invariant Pruned(bucket, cutoff) == Pruned(Bucket(old(attempts), k), cutoff)
        decreases |bucket|
      {
        bucket := bucket[1..];
      }
      if |bucket| >= maxAttempts {
        attempts := attempts[k := bucket];
        return false;
      }
      attempts := attempts[k := bucket + [now]];
      return true;
    }

    /** Forgets the key's attempts, if there are any. */
    method ResetKey(k: string)
      modifies this
      ensures attempts == Step(old(attempts), Reset(k))
    {
      attempts := attempts - {k};
    }
  }
}
