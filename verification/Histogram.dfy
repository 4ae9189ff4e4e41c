/** The bucketed histogram (`core/performance/histogram.py`). */
module BucketHistogram {
  import opened Wrappers
  import opened Ordering
  import opened StreamingPercentile

  datatype Label = Bound(bound: real) | PlusInf

  /** How many of `xs` are at most `b`. */
  function CountAtMost(xs: seq<real>, b: real): nat {
    if xs == [] then 0
    else CountAtMost(xs[..|xs| - 1], b) + if xs[|xs| - 1] <= b then 1 else 0
  }

  function Sum(s: seq<nat>): nat {
    if s == [] then 0 else Sum(s[..|s| - 1]) + s[|s| - 1]
  }

  /** The bucket counters after observing `xs`. */
  function Tally(bounds: seq<real>, xs: seq<real>): (r: seq<nat>)
    ensures |r| == |bounds| + 1
  {
    if xs == [] then seq(|bounds| + 1, _ => 0)
    else
      var before := Tally(bounds, xs[..|xs| - 1]);
      var i := BisectLeft(bounds, xs[|xs| - 1]);
      before[i := before[i] + 1]
  }

  lemma {:induction false} SumZero(s: seq<nat>)
    requires forall i :: 0 <= i < |s| ==> s[i] == 0
    ensures Sum(s) == 0
  {
    if s != [] {
      SumZero(s[..|s| - 1]);
    }
  }

  lemma {:induction false} SumBump(s: seq<nat>, i: nat)
    requires i < |s|
    ensures Sum(s[i := s[i] + 1]) == Sum(s) + 1
  {
    var last := |s| - 1;
    if i == last {
      assert s[i := s[i] + 1][..last] == s[..last];
    } else {
      SumBump(s[..last], i);
      assert s[i := s[i] + 1][..last] == s[..last][i := s[i] + 1];
    }
  }

  /** The running total of the counters up to a bound is the number of observed
      values at most that bound, repeated bounds included; over all counters it is
      the number of observations. */
  lemma {:induction false} CumulativeIsRank(bounds: seq<real>, xs: seq<real>, n: nat)
    requires Sorted(bounds) && 0 < n <= |bounds| + 1
    ensures Sum(Tally(bounds, xs)[..n]) == if n <= |bounds| then CountAtMost(xs, bounds[n - 1]) else |xs|
  {
    var t := Tally(bounds, xs);
    if xs == [] {
      SumZero(t[..n]);
    } else {
      var (ys, x) := (xs[..|xs| - 1], xs[|xs| - 1]);
      var (u, i) := (Tally(bounds, ys), BisectLeft(bounds, x));
      CumulativeIsRank(bounds, ys, n);
      if i < n {
        assert t[..n] == u[..n][i := u[i] + 1];
        SumBump(u[..n], i);
      } else {
        assert t[..n] == u[..n];
      }
    }
  }

  lemma NextTotal(t: seq<nat>, bounds: seq<real>, xs: seq<real>, n: nat)
    requires Sorted(bounds) && n <= |bounds| && t == Tally(bounds, xs)
    ensures Sum(t[..n + 1]) == Sum(t[..n]) + t[n] == if n < |bounds| then CountAtMost(xs, bounds[n]) else |xs|
  {
    assert t[..n + 1][..n] == t[..n];
    CumulativeIsRank(bounds, xs, n + 1);
  }

  lemma {:induction false} RankMonotone(xs: seq<real>, b: real, c: real)
    requires b <= c
    ensures CountAtMost(xs, b) <= CountAtMost(xs, c)
  {
    if xs != [] {
      RankMonotone(xs[..|xs| - 1], b, c);
    }
  }

  function Labels(bounds: seq<real>): set<Label> {
    set b | b in bounds :: Bound(b)
  }

  /** The labelled running totals of `xs` for these bounds. */
  ghost predicate Ranks(r: map<Label, nat>, bounds: seq<real>, xs: seq<real>) {
    r.Keys == Labels(bounds) && forall b :: b in bounds ==> r[Bound(b)] == CountAtMost(xs, b)
  }

  lemma RanksGrow(r: map<Label, nat>, bounds: seq<real>, xs: seq<real>, b: real)
    requires Ranks(r, bounds, xs)
    ensures Ranks(r[Bound(b) := CountAtMost(xs, b)], bounds + [b], xs)
  {
    assert forall y :: y in bounds + [b] <==> y in bounds || y == b;
    assert Labels(bounds + [b]) == Labels(bounds) + {Bound(b)};
  }

  class Histogram {
    const bucketBounds: seq<real>
    var bucketCounts: seq<nat>
    var count: nat
    var total: real
    var minimum: Option<real>
    var maximum: Option<real>
    ghost var observed: seq<real>

    ghost predicate Valid() reads this {
      && Sorted(bucketBounds)
      && bucketCounts == Tally(bucketBounds, observed)
      && count == |observed|
      && (observed == [] ==> minimum == None && maximum == None)
      && (observed != [] ==> minimum.Some? && IsMin(minimum.value, observed) && maximum.Some? && IsMax(maximum.value, observed))
    }

    constructor (bounds: seq<real>)
      requires Sorted(bounds)
      ensures Valid() && observed == [] && bucketBounds == bounds && total == 0.0
    {
      bucketBounds := bounds;
      bucketCounts := seq(|bounds| + 1, _ => 0);
      count, total, minimum, maximum, observed := 0, 0.0, None, None, [];
    }

    /** Bounds out of order are refused. */
    static method Create(bounds: seq<real>) returns (r: Result<Histogram, string>)
      ensures r.Ok? <==> Sorted(bounds)
      ensures r.Ok? ==> fresh(r.value) && r.value.Valid() && r.value.observed == [] && r.value.bucketBounds == bounds
    {
      SortedMeansUnchanged(bounds);
      if bounds != Sort(bounds) {
        return Err("bucket_bounds must be sorted ascending");
      }
      var h := new Histogram(bounds);
      return Ok(h);
    }

    method Observe(x: real)
      requires Valid()
      modifies this
      ensures Valid() && observed == old(observed) + [x] && total == old(total) + x
    {
      ghost var before := observed;
      observed := observed + [x];
      assert observed[..|observed| - 1] == before;
      assert forall y :: y in observed <==> y in before || y == x;
      count := count + 1;
      total := total + x;
      minimum := Some(if minimum.None? || x < minimum.value then x else minimum.value);
      maximum := Some(if maximum.None? || x > maximum.value then x else maximum.value);
      var index := BisectLeft(bucketBounds, x);
      bucketCounts := bucketCounts[index := bucketCounts[index] + 1];
    }

    /** Labels repeated in the bounds keep the last running total. */
    method CumulativeCounts() returns (r: map<Label, nat>)
      requires Valid()
      ensures r.Keys == Labels(bucketBounds) + {PlusInf}
      ensures forall b :: b in bucketBounds ==> r[Bound(b)] == CountAtMost(observed, b)
      ensures r[PlusInf] == count
    {
      var running := 0;
      r := map[];
      for n := 0 to |bucketBounds|
        invariant running == Sum(bucketCounts[..n])
        invariant Ranks(r, bucketBounds[..n], observed)
      {
        running := running + bucketCounts[n];
        NextTotal(bucketCounts, bucketBounds, observed, n);
        RanksGrow(r, bucketBounds[..n], observed, bucketBounds[n]);
        assert bucketBounds[..n] + [bucketBounds[n]] == bucketBounds[..n + 1];
        r := r[Bound(bucketBounds[n]) := running];
      }
      var n := |bucketBounds|;
      NextTotal(bucketCounts, bucketBounds, observed, n);
      assert bucketBounds[..n] == bucketBounds;
      r := r[PlusInf := running + bucketCounts[n]];
    }
  }

  lemma {:induction false} SortedMeansUnchanged(s: seq<real>)
    ensures s == Sort(s) <==> Sorted(s)
  {
    SortSorts(s);
    if s != [] && Sorted(s) {
      SortedMeansUnchanged(s[1..]);
    }
  }
}
