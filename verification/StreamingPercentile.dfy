/** The P-square streaming quantile estimator (`core/performance/histogram.py`) over
    the reals: the shape of its five markers after every sample, and its
    behaviour when the whole stream is rescaled. */
module StreamingPercentile {
  import opened Wrappers
  import opened Ordering

  const MARKER_COUNT := 5

  datatype Markers = Markers(heights: seq<real>, positions: seq<int>, desired: seq<real>)

  predicate Increasing(s: seq<int>) {
    forall i, j :: 0 <= i < j < |s| ==> s[i] < s[j]
  }

  /** Five of each, and no two positions equal: enough for every division below. */
  predicate Spaced(m: Markers) {
    |m.heights| == |m.positions| == |m.desired| == MARKER_COUNT && Increasing(m.positions)
  }

  // ---------------------------------------------------------------- library routines

  function Insert(x: real, s: seq<real>): (r: seq<real>)
    ensures |r| == |s| + 1
  {
    if s == [] || x <= s[0] then [x] + s else [s[0]] + Insert(x, s[1..])
  }

  /** `list.sort`. */
  function Sort(s: seq<real>): (r: seq<real>)
    ensures |r| == |s|
  {
    if s == [] then [] else Insert(s[0], Sort(s[1..]))
  }

  lemma {:induction false} InsertAdds(x: real, s: seq<real>)
    ensures multiset(Insert(x, s)) == multiset(s) + multiset{x}
  {
    if s != [] && x > s[0] {
      InsertAdds(x, s[1..]);
      assert s == [s[0]] + s[1..];
    }
  }

  lemma {:induction false} InsertSorted(x: real, s: seq<real>)
    requires Sorted(s)
    ensures Sorted(Insert(x, s))
  {
    if s != [] && x > s[0] {
      var r := Insert(x, s[1..]);
      InsertSorted(x, s[1..]);
      InsertAdds(x, s[1..]);
      forall i | 0 <= i < |r| ensures s[0] <= r[i] {
        assert r[i] in multiset(r);
      }
    }
  }

  lemma {:induction false} SortSorts(s: seq<real>)
    ensures Sorted(Sort(s)) && multiset(Sort(s)) == multiset(s)
  {
    if s != [] {
      SortSorts(s[1..]);
      InsertAdds(s[0], Sort(s[1..]));
      InsertSorted(s[0], Sort(s[1..]));
      assert s == [s[0]] + s[1..];
    }
  }

  lemma SameMembers(s: seq<real>, t: seq<real>)
    requires multiset(s) == multiset(t)
    ensures forall y :: y in s <==> y in t
  {
    forall y ensures y in s <==> y in t {
      assert y in s <==> y in multiset(s);
      assert y in t <==> y in multiset(t);
    }
  }

  /** `bisect.bisect_left`: the first index not below `x`. */
  function BisectLeft(s: seq<real>, x: real): (r: nat)
    ensures r <= |s|
    ensures forall i :: 0 <= i < r ==> s[i] < x
    ensures r < |s| ==> x <= s[r]
  {
    if s == [] || x <= s[0] then 0 else 1 + BisectLeft(s[1..], x)
  }

  // ---------------------------------------------------------------- one update

  function Increment(q: real, i: nat): real
    requires i < MARKER_COUNT
  {
    [0.0, q / 2.0, q, (1.0 + q) / 2.0, 1.0][i]
  }

  /** `c * x / g`, where `c` and `g` are differences of positions. */
  function Ratio(c: int, x: real, g: int): real
    requires g != 0
  {
    c as real * x / g as real
  }

  function Parabolic(h: seq<real>, n: seq<int>, i: nat, d: int): real
    requires |h| == |n| && 0 < i < |n| - 1 && n[i - 1] < n[i] < n[i + 1]
  {
    var termA := Ratio(n[i] - n[i - 1] + d, h[i + 1] - h[i], n[i + 1] - n[i]);
    var termB := Ratio(n[i + 1] - n[i] - d, h[i] - h[i - 1], n[i] - n[i - 1]);
    h[i] + Ratio(d, termA + termB, n[i + 1] - n[i - 1])
  }

  function Linear(h: seq<real>, n: seq<int>, i: nat, d: int): real
    requires |h| == |n| && 0 < i < |n| - 1 && n[i - 1] < n[i] < n[i + 1] && (d == 1 || d == -1)
  {
    h[i] + Ratio(d, h[i + d] - h[i], n[i + d] - n[i])
  }

  /** Which way marker `i` has to move: 1, -1, or 0 when it is close enough or has
      no room. */
  function Direction(m: Markers, i: nat): int
    requires Spaced(m) && 0 < i < MARKER_COUNT - 1
  {
    var diff := m.desired[i] - m.positions[i] as real;
    if diff >= 1.0 && m.positions[i + 1] - m.positions[i] > 1 then 1
    else if diff <= -1.0 && m.positions[i] - m.positions[i - 1] > 1 then -1
    else 0
  }

  function AdjustedHeight(m: Markers, i: nat, d: int): real
    requires Spaced(m) && 0 < i < MARKER_COUNT - 1 && (d == 1 || d == -1)
  {
    var p := Parabolic(m.heights, m.positions, i, d);
    if m.heights[i - 1] < p < m.heights[i + 1] then p else Linear(m.heights, m.positions, i, d)
  }

  function Adjust(m: Markers, i: nat): (r: Markers)
    requires Spaced(m) && 0 < i < MARKER_COUNT - 1
    ensures Spaced(r)
  {
    var d := Direction(m, i);
    if d == 0 then m
    else m.(heights := m.heights[i := AdjustedHeight(m, i, d)], positions := m.positions[i := m.positions[i] + d])
  }

  /** The middle markers `1 .. k - 1`, adjusted one after the other. */
  function AdjustBelow(m: Markers, k: nat): (r: Markers)
    requires Spaced(m) && 0 < k < MARKER_COUNT
    ensures Spaced(r)
  {
    if k == 1 then m else Adjust(AdjustBelow(m, k - 1), k - 1)
  }

  function Clamp(c: int): nat {
    if c < 0 then 0 else if c > 3 then 3 else c
  }

  function Cell(h: seq<real>, x: real): (c: nat)
    requires |h| == MARKER_COUNT
    ensures c <= 3
  {
    if x < h[0] then 0
    else if x >= h[4] then 3
    else Clamp(BisectLeft(h, x) - 1)
  }

  function Stretch(h: seq<real>, x: real): seq<real>
    requires |h| == MARKER_COUNT
  {
    if x < h[0] then h[0 := x] else if x >= h[4] then h[4 := x] else h
  }

  /** Everything but the adjustments: the extremes, the positions right of the cell,
      the desired positions. */
  function Place(q: real, m: Markers, x: real): (r: Markers)
    requires Spaced(m)
    ensures Spaced(r)
  {
    var c := Cell(m.heights, x);
    Markers(Stretch(m.heights, x),
            seq(MARKER_COUNT, i requires 0 <= i < MARKER_COUNT => if i > c then m.positions[i] + 1 else m.positions[i]),
            seq(MARKER_COUNT, i requires 0 <= i < MARKER_COUNT => m.desired[i] + Increment(q, i)))
  }

  function UpdateMarkers(q: real, m: Markers, x: real): (r: Markers)
    requires Spaced(m)
    ensures Spaced(r)
  {
    AdjustBelow(Place(q, m, x), MARKER_COUNT - 1)
  }

  function InitialMarkers(q: real, s: seq<real>): (r: Markers)
    requires |s| == MARKER_COUNT
    ensures Spaced(r)
  {
    Markers(Sort(s), [1, 2, 3, 4, 5], [1.0, 1.0 + 2.0 * q, 1.0 + 4.0 * q, 3.0 + 2.0 * q, 5.0])
  }

  // ---------------------------------------------------------------- whole streams

  /** The markers after the stream `xs`, oldest sample first. */
  function Feed(q: real, xs: seq<real>): (r: Markers)
    requires |xs| >= MARKER_COUNT
    ensures Spaced(r)
  {
    if |xs| == MARKER_COUNT then InitialMarkers(q, xs)
    else UpdateMarkers(q, Feed(q, xs[..|xs| - 1]), xs[|xs| - 1])
  }

  function SmallIndex(q: real, n: nat): nat
    requires n > 0 && 0.0 < q < 1.0
  {
    var i := (q * (n - 1) as real).Floor;
    assert q * (n - 1) as real >= 0.0;
    if i < n - 1 then i else n - 1
  }

  function Estimate(q: real, xs: seq<real>): Option<real>
    requires 0.0 < q < 1.0
  {
    if xs == [] then None
    else if |xs| < MARKER_COUNT then
      Some(Sort(xs)[SmallIndex(q, |xs|)])
    else Some(Feed(q, xs).heights[2])
  }

  // ---------------------------------------------------------------- shape

  lemma ShareBounds(a: real, g: int)
    requires g >= 1 && a >= 0.0
    ensures 0.0 <= Ratio(1, a, g) <= a
  {
    var s := a / g as real;
    assert s * g as real == a;
    assert s < 0.0 ==> s * g as real < 0.0;
    assert s >= 0.0 ==> s * g as real >= s;
  }

  lemma SignsCancel(x: real, g: int)
    requires g != 0
    ensures Ratio(-1, -x, -g) == -Ratio(1, x, g)
  {
    var (u, v) := (x / (-g) as real, x / g as real);
    assert u * (-g) as real == x && v * g as real == x;
    assert (-g) as real == -(g as real);
    assert (u + v) * g as real == 0.0;
  }

  /** The fallback stays between its two neighbours. */
  lemma LinearBetween(h: seq<real>, n: seq<int>, i: nat, d: int)
    requires |h| == |n| && 0 < i < |n| - 1 && n[i - 1] < n[i] < n[i + 1] && (d == 1 || d == -1)
    requires h[i - 1] <= h[i] <= h[i + 1]
    ensures h[i - 1] <= Linear(h, n, i, d) <= h[i + 1]
  {
    if d == 1 {
      ShareBounds(h[i + 1] - h[i], n[i + 1] - n[i]);
    } else {
      ShareBounds(h[i] - h[i - 1], n[i] - n[i - 1]);
      SignsCancel(h[i] - h[i - 1], n[i] - n[i - 1]);
      assert h[i - 1] - h[i] == -(h[i] - h[i - 1]) && n[i - 1] - n[i] == -(n[i] - n[i - 1]);
    }
  }

  lemma AdjustSorted(m: Markers, i: nat)
    requires Spaced(m) && 0 < i < MARKER_COUNT - 1 && Sorted(m.heights)
    ensures Sorted(Adjust(m, i).heights)
    ensures Adjust(m, i).desired == m.desired
    ensures forall k :: 0 <= k < MARKER_COUNT && k != i ==> Adjust(m, i).heights[k] == m.heights[k] && Adjust(m, i).positions[k] == m.positions[k]
  {
    var d := Direction(m, i);
    if d != 0 {
      LinearBetween(m.heights, m.positions, i, d);
    }
  }

  lemma {:induction false} AdjustBelowSorted(m: Markers, k: nat)
    requires Spaced(m) && 0 < k < MARKER_COUNT && Sorted(m.heights)
    ensures Sorted(AdjustBelow(m, k).heights)
    ensures AdjustBelow(m, k).desired == m.desired
    ensures forall j :: j == 0 || j == 4 ==> AdjustBelow(m, k).heights[j] == m.heights[j] && AdjustBelow(m, k).positions[j] == m.positions[j]
  {
    if k > 1 {
      AdjustBelowSorted(m, k - 1);
      AdjustSorted(AdjustBelow(m, k - 1), k - 1);
    }
  }

  // ---------------------------------------------------------------- the two predictions

  function Quadratic(a: real, b: real, c: real, x: real): real { a * x * x + b * x + c }

  lemma QuadraticStep(a: real, b: real, c: real, x: real, g: real)
    ensures Quadratic(a, b, c, x + g) - Quadratic(a, b, c, x) == g * (a * (2.0 * x + g) + b)
  {
  }

  lemma RatioCancels(c: int, g: int, x: real, y: real)
    requires g != 0 && x == g as real * y
    ensures Ratio(c, x, g) == c as real * y
  {
    assert c as real * x == g as real * (c as real * y);
  }

  /** Two slopes of a parabola, weighted by the opposite gaps. */
  lemma SlopesMeet(a: real, b: real, x: real, l: real, r: real, d: real)
    ensures (l + d) * (a * (2.0 * x + r) + b) + (r - d) * (a * (2.0 * x - l) + b) == (l + r) * (a * (2.0 * x + d) + b)
  {
  }

  lemma ThreePoints(a: real, b: real, c: real, x: real, l: int, r: int, d: int, up: real, down: real)
    requires l > 0 && r > 0
    requires up == Quadratic(a, b, c, x + r as real) - Quadratic(a, b, c, x)
    requires down == Quadratic(a, b, c, x) - Quadratic(a, b, c, x - l as real)
    ensures Quadratic(a, b, c, x) + Ratio(d, Ratio(l + d, up, r) + Ratio(r - d, down, l), l + r) == Quadratic(a, b, c, x + d as real)
  {
    var (right, left, slope) := (a * (2.0 * x + r as real) + b, a * (2.0 * x - l as real) + b, a * (2.0 * x + d as real) + b);
    QuadraticStep(a, b, c, x, r as real);
    QuadraticStep(a, b, c, x, -(l as real));
    QuadraticStep(a, b, c, x, d as real);
    assert down == l as real * left;
    RatioCancels(l + d, r, up, right);
    RatioCancels(r - d, l, down, left);
    SlopesMeet(a, b, x, l as real, r as real, d as real);
    RatioCancels(d, l + r, (l + r) as real * slope, slope);
  }

  /** The parabolic prediction is the parabola through the marker and its two neighbours,
      read at the marker's new position. */
  lemma ParabolicInterpolates(h: seq<real>, n: seq<int>, i: nat, d: int, a: real, b: real, c: real)
    requires |h| == |n| && 0 < i < |n| - 1 && n[i - 1] < n[i] < n[i + 1]
    requires forall j :: i - 1 <= j <= i + 1 ==> h[j] == Quadratic(a, b, c, n[j] as real)
    ensures Parabolic(h, n, i, d) == Quadratic(a, b, c, (n[i] + d) as real)
  {
    var (l, r) := (n[i] - n[i - 1], n[i + 1] - n[i]);
    assert n[i] as real + r as real == n[i + 1] as real && n[i] as real - l as real == n[i - 1] as real;
    assert n[i] as real + d as real == (n[i] + d) as real && n[i + 1] - n[i - 1] == l + r;
    ThreePoints(a, b, c, n[i] as real, l, r, d, h[i + 1] - h[i], h[i] - h[i - 1]);
  }

  /** The linear one is the line through the marker and the neighbour it moves towards. */
  lemma LinearInterpolates(h: seq<real>, n: seq<int>, i: nat, d: int, b: real, c: real)
    requires |h| == |n| && 0 < i < |n| - 1 && n[i - 1] < n[i] < n[i + 1] && (d == 1 || d == -1)
    requires h[i] == b * n[i] as real + c && h[i + d] == b * n[i + d] as real + c
    ensures Linear(h, n, i, d) == b * (n[i] + d) as real + c
  {
    RatioCancels(d, n[i + d] - n[i], h[i + d] - h[i], b);
  }

  ghost predicate IsMin(x: real, xs: seq<real>) { x in xs && forall y :: y in xs ==> x <= y }

  ghost predicate IsMax(x: real, xs: seq<real>) { x in xs && forall y :: y in xs ==> y <= x }

  /** Where marker `i` ideally stands after `n` samples. */
  function DesiredPosition(q: real, n: int, i: nat): real
    requires i < MARKER_COUNT
  {
    1.0 + (n - 1) as real * Increment(q, i)
  }

  ghost predicate OnSchedule(q: real, desired: seq<real>, n: int) {
    |desired| == MARKER_COUNT && forall i :: 0 <= i < MARKER_COUNT ==> desired[i] == DesiredPosition(q, n, i)
  }

  /** The markers' shape after `xs`. */
  ghost predicate Shape(q: real, m: Markers, xs: seq<real>) {
    && Spaced(m) && Sorted(m.heights)
    && m.positions[0] == 1 && m.positions[4] == |xs|
    && OnSchedule(q, m.desired, |xs|)
    && IsMin(m.heights[0], xs) && IsMax(m.heights[4], xs)
  }

  lemma InitialShape(q: real, xs: seq<real>)
    requires |xs| == MARKER_COUNT
    ensures Shape(q, InitialMarkers(q, xs), xs)
  {
    SortSorts(xs);
    var h := Sort(xs);
    SameMembers(h, xs);
    assert h[0] in h && h[4] in h;
    forall y | y in xs ensures h[0] <= y <= h[4] {
      assert y in h;
    }
    assert 4.0 * (q / 2.0) == 2.0 * q && 4.0 * ((1.0 + q) / 2.0) == 2.0 + 2.0 * q;
  }

  lemma PlaceSchedule(q: real, m: Markers, n: int, x: real)
    requires Spaced(m) && OnSchedule(q, m.desired, n)
    ensures OnSchedule(q, Place(q, m, x).desired, n + 1)
  {
    forall i | 0 <= i < MARKER_COUNT ensures Place(q, m, x).desired[i] == DesiredPosition(q, n + 1, i) {
      var f := Increment(q, i);
      assert (n - 1) as real + 1.0 == n as real;
      assert ((n - 1) as real + 1.0) * f == (n - 1) as real * f + f;
    }
  }

  lemma PlaceShape(q: real, m: Markers, xs: seq<real>, x: real)
    requires Shape(q, m, xs)
    ensures Shape(q, Place(q, m, x), xs + [x])
  {
    PlaceSchedule(q, m, |xs|, x);
    assert forall y :: y in xs + [x] <==> y in xs || y == x;
  }

  /** Shape. After every sample the heights are sorted, the positions strictly
      increase from 1 to the number of samples (so no division above is by zero),
      the desired positions are where their closed form says, and the end markers
      are the exact extremes of the stream. */
  lemma {:induction false} ShapeAlways(q: real, xs: seq<real>)
    requires |xs| >= MARKER_COUNT
    ensures Shape(q, Feed(q, xs), xs)
  {
    if |xs| == MARKER_COUNT {
      InitialShape(q, xs);
    } else {
      var (ys, x) := (xs[..|xs| - 1], xs[|xs| - 1]);
      ShapeAlways(q, ys);
      PlaceShape(q, Feed(q, ys), ys, x);
      assert ys + [x] == xs;
      AdjustBelowSorted(Place(q, Feed(q, ys), x), MARKER_COUNT - 1);
    }
  }

  // ---------------------------------------------------------------- where the middle markers go

  /** One turn of marker `i`, written out: at least one below its desired position and with
      room on the right it goes one right, at least one above and with room on the left one
      left, and otherwise nothing changes. Its new height is the parabola's where that lies
      strictly between its neighbours', and the line's where not. */
  lemma AdjustExactly(m: Markers, i: nat)
    requires Spaced(m) && 0 < i < MARKER_COUNT - 1
    ensures
      var (h, n, r, diff) := (m.heights, m.positions, Adjust(m, i), m.desired[i] - m.positions[i] as real);
      var d := if diff >= 1.0 && n[i + 1] - n[i] > 1 then 1 else if diff <= -1.0 && n[i] - n[i - 1] > 1 then -1 else 0;
      && r.desired == m.desired && r.positions == n[i := n[i] + d]
      && (d == 0 ==> r.heights == h)
      && (d != 0 ==>
            var p := Parabolic(h, n, i, d);
            r.heights == h[i := if h[i - 1] < p < h[i + 1] then p else Linear(h, n, i, d)])
  {
  }

  /** Placing `x`, written out: the last marker always moves up one, and a middle one does if
      `x` is below the greatest height and not above its own; the extremes take `x` in. */
  lemma PlaceExactly(q: real, m: Markers, x: real)
    requires Spaced(m) && Sorted(m.heights)
    ensures
      var (h, n, r) := (m.heights, m.positions, Place(q, m, x));
      && (forall i :: 0 <= i < MARKER_COUNT ==>
            r.positions[i] == n[i] + if i == 4 || (i > 0 && x < h[4] && x <= h[i]) then 1 else 0)
      && (forall i :: 0 <= i < MARKER_COUNT ==>
            r.heights[i] == if (i == 0 && x < h[0]) || (i == 4 && x >= h[0] && x >= h[4]) then x else h[i])
      && (forall i :: 0 <= i < MARKER_COUNT ==> r.desired[i] == m.desired[i] + Increment(q, i))
  {
  }

  /** How far marker `i` lags behind where it is wanted. */
  function Lag(m: Markers, i: nat): real
    requires Spaced(m) && i < MARKER_COUNT
  {
    m.desired[i] - m.positions[i] as real
  }

  /** Less than one off, or up against the neighbour it should pass. */
  predicate Settled(m: Markers, i: nat)
    requires Spaced(m) && 0 < i < MARKER_COUNT - 1
  {
    var (n, lag) := (m.positions, Lag(m, i));
    -1.0 < lag < 1.0 || (lag >= 1.0 && n[i + 1] - n[i] == 1) || (lag <= -1.0 && n[i] - n[i - 1] == 1)
  }

  /** A turn settles the marker exactly if it is less than two off, or at most two places
      from the neighbour on the side it should go to. */
  lemma TurnExactly(m: Markers, i: nat)
    requires Spaced(m) && 0 < i < MARKER_COUNT - 1
    ensures
      var (n, lag) := (m.positions, Lag(m, i));
      Settled(Adjust(m, i), i) <==>
        -2.0 < lag < 2.0 || (lag >= 2.0 && n[i + 1] - n[i] <= 2) || (lag <= -2.0 && n[i] - n[i - 1] <= 2)
  {
    AdjustExactly(m, i);
  }

  /** The bounds on the lags after `n + 1` samples, with `u` for `n * q`: constant ones, and
      ones that close in on a lag of one as `u` and `n - u` grow. */
  predicate Close(e1: real, e2: real, e3: real, n: real, u: real) {
    && -1.0 < e1 < 5.0 && -2.0 < e2 < 3.0 && -3.0 < e3 < 1.0
    && (e1 < 1.0 || e1 < 9.0 - u / 2.0)
    && (e2 < 1.0 || e2 < 11.0 - (n - u)) && (e2 > -1.0 || e2 > u - 4.0)
    && (e3 > -1.0 || e3 > (n - u) / 2.0 - 5.0)
  }

  /** Where the markers are wanted, with `n` for one less than the samples and `u` for the
      quantile's share of that. */
  predicate WantedAt(d: seq<real>, n: real, u: real) {
    |d| == MARKER_COUNT && d[1] == 1.0 + u / 2.0 && d[2] == 1.0 + u && d[3] == 1.0 + (n + u) / 2.0
  }

  ghost predicate OnTrack(m: Markers, n: real, u: real) {
    && Spaced(m) && WantedAt(m.desired, n, u) && m.positions[0] == 1 && m.positions[4] as real == n + 1.0
    && Close(Lag(m, 1), Lag(m, 2), Lag(m, 3), n, u)
  }

  /** Where a turn takes a marker at `p` between `l` and `r` that is wanted at `d`. */
  function Turned(l: int, p: int, r: int, d: real): int {
    if d - p as real >= 1.0 && r - p > 1 then p + 1 else if d - p as real <= -1.0 && p - l > 1 then p - 1 else p
  }

  /** The first marker: nothing ever holds it back on the left. */
  lemma FirstTurn(q: real, n: real, u: real, e1: real, e2: real, e3: real, p: seq<int>, t: int)
    requires 0.0 < q < 1.0 && n >= 4.0 && 0.0 < u < n && Close(e1, e2, e3, n, u)
    requires |p| == MARKER_COUNT && Increasing(p) && p[0] == 1
    requires var (w1, w2) := (1.0 + (u + q) / 2.0, 1.0 + u + q);
             && e1 + q / 2.0 - 1.0 <= w1 - p[1] as real <= e1 + q / 2.0 && w2 - p[2] as real <= e2 + q
             && t == Turned(p[0], p[1], p[2], w1)
    ensures var f1 := 1.0 + (u + q) / 2.0 - t as real;
            -1.0 < f1 < 5.0 && (f1 < 1.0 || f1 < 9.0 - (u + q) / 2.0)
  {
  }

  lemma SecondTurn(q: real, n: real, u: real, e1: real, e2: real, e3: real, f1: real, p: seq<int>, l: int, t: int)
    requires 0.0 < q < 1.0 && n >= 4.0 && 0.0 < u < n && Close(e1, e2, e3, n, u)
    requires |p| == MARKER_COUNT && l < p[2] < p[3] && f1 == 1.0 + (u + q) / 2.0 - l as real && f1 > -1.0
    requires var (w2, w3) := (1.0 + u + q, 1.0 + (n + 1.0 + u + q) / 2.0);
             && e2 + q - 1.0 <= w2 - p[2] as real <= e2 + q && w3 - p[3] as real <= e3 + (1.0 + q) / 2.0
             && t == Turned(l, p[2], p[3], w2)
    ensures var f2 := 1.0 + u + q - t as real;
            -2.0 < f2 < 3.0 && (f2 < 1.0 || f2 < 11.0 - (n + 1.0 - u - q)) && (f2 > -1.0 || f2 > u + q - 4.0)
  {
  }

  /** The third marker: nothing ever holds it back on the right. */
  lemma ThirdTurn(q: real, n: real, u: real, e1: real, e2: real, e3: real, f2: real, p: seq<int>, l: int, t: int)
    requires 0.0 < q < 1.0 && n >= 4.0 && 0.0 < u < n && Close(e1, e2, e3, n, u)
    requires |p| == MARKER_COUNT && l < p[3] < p[4] && p[4] as real == n + 2.0 && f2 == 1.0 + u + q - l as real && f2 > -2.0
    requires var w3 := 1.0 + (n + 1.0 + u + q) / 2.0;
             && e3 + (1.0 + q) / 2.0 - 1.0 <= w3 - p[3] as real <= e3 + (1.0 + q) / 2.0
             && t == Turned(l, p[3], p[4], w3)
    ensures var f3 := 1.0 + (n + 1.0 + u + q) / 2.0 - t as real;
            -3.0 < f3 < 1.0 && (f3 > -1.0 || f3 > (n + 1.0 - u - q) / 2.0 - 5.0)
  {
  }

  /** A turn in these terms, and what it leaves alone. */
  lemma TurnGoes(m: Markers, i: nat)
    requires Spaced(m) && 0 < i < MARKER_COUNT - 1
    ensures var n := m.positions;
            Adjust(m, i).positions == n[i := Turned(n[i - 1], n[i], n[i + 1], m.desired[i])] && Adjust(m, i).desired == m.desired
  {
    AdjustExactly(m, i);
  }

  lemma ThreeTurns(q: real, m: Markers, x: real)
    requires Spaced(m)
    ensures UpdateMarkers(q, m, x) == Adjust(Adjust(Adjust(Place(q, m, x), 1), 2), 3)
  {
    var a := Place(q, m, x);
    assert AdjustBelow(a, 1) == a && AdjustBelow(a, 2) == Adjust(a, 1) && AdjustBelow(a, 3) == Adjust(Adjust(a, 1), 2);
  }

  lemma TurnsGo(a: Markers)
    requires Spaced(a)
    ensures
      var (p, d, r) := (a.positions, a.desired, Adjust(Adjust(Adjust(a, 1), 2), 3));
      var t1 := Turned(p[0], p[1], p[2], d[1]);
      var t2 := Turned(t1, p[2], p[3], d[2]);
      && t1 < p[2] && t2 < p[3]
      && r.desired == d && r.positions == [p[0], t1, t2, Turned(t2, p[3], p[4], d[3]), p[4]]
  {
    var b := Adjust(a, 1);
    TurnGoes(a, 1);
    TurnGoes(b, 2);
    TurnGoes(Adjust(b, 2), 3);
  }

  lemma UpdateTurns(q: real, m: Markers, x: real)
    requires Spaced(m)
    ensures
      var (a, r) := (Place(q, m, x), UpdateMarkers(q, m, x));
      var (p, d) := (a.positions, a.desired);
      var t1 := Turned(p[0], p[1], p[2], d[1]);
      var t2 := Turned(t1, p[2], p[3], d[2]);
      && t1 < p[2] && t2 < p[3]
      && r.desired == d && r.positions == [p[0], t1, t2, Turned(t2, p[3], p[4], d[3]), p[4]]
  {
    ThreeTurns(q, m, x);
    TurnsGo(Place(q, m, x));
  }

  /** The lags once the sample is placed, before any turn. */
  ghost predicate Placed(q: real, m: Markers, a: Markers, n: real, u: real) {
    && Spaced(m) && Spaced(a) && WantedAt(a.desired, n + 1.0, u + q)
    && a.positions[0] == 1 && a.positions[4] as real == n + 2.0
    && Lag(m, 1) + q / 2.0 - 1.0 <= Lag(a, 1) <= Lag(m, 1) + q / 2.0
    && Lag(m, 2) + q - 1.0 <= Lag(a, 2) <= Lag(m, 2) + q
    && Lag(m, 3) + (1.0 + q) / 2.0 - 1.0 <= Lag(a, 3) <= Lag(m, 3) + (1.0 + q) / 2.0
  }

  lemma PlaceLags(q: real, m: Markers, x: real, n: real, u: real)
    requires OnTrack(m, n, u)
    ensures Placed(q, m, Place(q, m, x), n, u)
  {
    var a := Place(q, m, x);
    assert a.desired[1] == m.desired[1] + q / 2.0 && a.desired[2] == m.desired[2] + q && a.desired[3] == m.desired[3] + (1.0 + q) / 2.0;
    assert forall i :: 0 <= i < MARKER_COUNT ==> m.positions[i] <= a.positions[i] <= m.positions[i] + 1;
  }

  lemma TrackStep(q: real, m: Markers, x: real, n: real, u: real)
    requires 0.0 < q < 1.0 && n >= 4.0 && 0.0 < u < n && OnTrack(m, n, u)
    ensures OnTrack(UpdateMarkers(q, m, x), n + 1.0, u + q)
  {
    PlaceLags(q, m, x, n, u);
    UpdateTurns(q, m, x);
    var (a, r) := (Place(q, m, x), UpdateMarkers(q, m, x));
    TurnsClose(q, n, u, Lag(m, 1), Lag(m, 2), Lag(m, 3), a.positions, r.positions);
  }

  lemma TurnsClose(q: real, n: real, u: real, e1: real, e2: real, e3: real, p: seq<int>, t: seq<int>)
    requires 0.0 < q < 1.0 && n >= 4.0 && 0.0 < u < n && Close(e1, e2, e3, n, u)
    requires |p| == |t| == MARKER_COUNT && Increasing(p) && p[0] == 1 && p[4] as real == n + 2.0
    requires var (w1, w2, w3) := (1.0 + (u + q) / 2.0, 1.0 + u + q, 1.0 + (n + 1.0 + u + q) / 2.0);
             && e1 + q / 2.0 - 1.0 <= w1 - p[1] as real <= e1 + q / 2.0
             && e2 + q - 1.0 <= w2 - p[2] as real <= e2 + q
             && e3 + (1.0 + q) / 2.0 - 1.0 <= w3 - p[3] as real <= e3 + (1.0 + q) / 2.0
             && t[1] == Turned(p[0], p[1], p[2], w1) < p[2] && t[2] == Turned(t[1], p[2], p[3], w2) < p[3]
             && t[3] == Turned(t[2], p[3], p[4], w3)
    ensures var (w1, w2, w3) := (1.0 + (u + q) / 2.0, 1.0 + u + q, 1.0 + (n + 1.0 + u + q) / 2.0);
            Close(w1 - t[1] as real, w2 - t[2] as real, w3 - t[3] as real, n + 1.0, u + q)
  {
    FirstTurn(q, n, u, e1, e2, e3, p, t[1]);
    SecondTurn(q, n, u, e1, e2, e3, 1.0 + (u + q) / 2.0 - t[1] as real, p, t[1], t[2]);
    ThirdTurn(q, n, u, e1, e2, e3, 1.0 + u + q - t[2] as real, p, t[2], t[3]);
  }

  lemma InitialTrack(q: real, xs: seq<real>)
    requires 0.0 < q < 1.0 && |xs| == MARKER_COUNT
    ensures OnTrack(InitialMarkers(q, xs), 4.0, 4.0 * q)
  {
  }

  /** `n * q`, added up sample by sample. */
  function Share(q: real, n: nat): real { if n == 0 then 0.0 else Share(q, n - 1) + q }

  lemma {:induction false} ShareIsProduct(q: real, n: nat)
    ensures Share(q, n) == n as real * q
  {
    if n > 0 {
      ShareIsProduct(q, n - 1);
      var x := (n - 1) as real;
      assert (x + 1.0) * q == x * q + q && n as real == x + 1.0;
    }
  }

  lemma {:induction false} ShareIsPart(q: real, n: nat)
    requires 0.0 < q < 1.0 && n > 0
    ensures 0.0 < Share(q, n) < n as real
  {
    if n > 1 {
      ShareIsPart(q, n - 1);
    } else {
      assert Share(q, 0) == 0.0;
    }
  }

  /** Tracking. After every sample of every stream the middle markers are off where they are
      wanted by bounded distances: the first lags by less than 5 and leads by less than 1,
      the second lags by less than 3 and leads by less than 2, the third lags by less than 1
      and leads by less than 3. */
  lemma {:induction false} TrackAlways(q: real, xs: seq<real>)
    requires 0.0 < q < 1.0 && |xs| >= MARKER_COUNT
    ensures var m := Feed(q, xs);
            -1.0 < Lag(m, 1) < 5.0 && -2.0 < Lag(m, 2) < 3.0 && -3.0 < Lag(m, 3) < 1.0
    ensures OnTrack(Feed(q, xs), (|xs| - 1) as real, Share(q, |xs| - 1))
  {
    if |xs| == MARKER_COUNT {
      InitialTrack(q, xs);
      ShareIsProduct(q, 4);
    } else {
      ShareIsPart(q, |xs| - 2);
      TrackAlways(q, xs[..|xs| - 1]);
      TrackStep(q, Feed(q, xs[..|xs| - 1]), xs[|xs| - 1], (|xs| - 2) as real, Share(q, |xs| - 2));
    }
  }

  /** On target. Once the stream is long enough for the quantile, every middle marker stands
      less than one off where it is wanted, whatever the samples; and the estimate is the
      height of the one that is wanted at the quantile's rank, `1 + (n - 1) * q`. */
  lemma OnTarget(q: real, xs: seq<real>)
    requires 0.0 < q < 1.0 && |xs| >= MARKER_COUNT
    requires Share(q, |xs| - 1) >= 16.0 && (|xs| - 1) as real - Share(q, |xs| - 1) >= 10.0
    ensures var m := Feed(q, xs);
            && (forall i :: 0 < i < MARKER_COUNT - 1 ==> -1.0 < Lag(m, i) < 1.0)
            && m.desired[2] == 1.0 + Share(q, |xs| - 1) && Estimate(q, xs) == Some(m.heights[2])
  {
    TrackAlways(q, xs);
    CloseEnough(Feed(q, xs), (|xs| - 1) as real, Share(q, |xs| - 1));
  }

  lemma CloseEnough(m: Markers, n: real, u: real)
    requires OnTrack(m, n, u) && u >= 16.0 && n - u >= 10.0
    ensures -1.0 < Lag(m, 1) < 1.0 && -1.0 < Lag(m, 2) < 1.0 && -1.0 < Lag(m, 3) < 1.0
  {
  }

  /** In short streams it need not be settled: at six rising samples the marker for 0.9 is
      two and a half behind with room to go. */
  lemma LagsUnblocked()
    ensures var m := Feed(0.9, [1.0, 2.0, 3.0, 4.0, 5.0, 6.0]);
            Lag(m, 2) == 2.5 && m.positions[2] == 3 && m.positions[3] == 5 && !Settled(m, 2)
  {
    var xs := [1.0, 2.0, 3.0, 4.0, 5.0];
    var m := InitialMarkers(0.9, xs);
    InitialShape(0.9, xs);
    assert m.heights[4] in xs;
    assert [1.0, 2.0, 3.0, 4.0, 5.0, 6.0][..5] == xs;
    SixthSample(m);
  }

  lemma SixthSample(m: Markers)
    requires Spaced(m) && m.positions == [1, 2, 3, 4, 5] && m.desired == [1.0, 2.8, 4.6, 4.8, 5.0] && m.heights[0] <= m.heights[4] < 6.0
    ensures var r := UpdateMarkers(0.9, m, 6.0); Lag(r, 2) == 2.5 && r.positions[2] == 3 && r.positions[3] == 5
  {
    UpdateTurns(0.9, m, 6.0);
    var a := Place(0.9, m, 6.0);
    assert a.positions == [1, 2, 3, 4, 6];
    assert a.desired[1] == 3.25 && a.desired[2] == 5.5 && a.desired[3] == 5.75;
  }

  /** So the estimate never leaves the range of what was seen. */
  lemma EstimateInRange(q: real, xs: seq<real>)
    requires 0.0 < q < 1.0 && xs != []
    ensures Estimate(q, xs).Some?
    ensures exists lo, hi :: IsMin(lo, xs) && IsMax(hi, xs) && lo <= Estimate(q, xs).value <= hi
    ensures |xs| < MARKER_COUNT ==> Estimate(q, xs).value in xs
  {
    var e := Estimate(q, xs).value;
    if |xs| < MARKER_COUNT {
      var s := Sort(xs);
      SortSorts(xs);
      SameMembers(Sort(xs), xs);
      assert e in s && s[0] in s && s[|s| - 1] in s;
      assert IsMin(s[0], xs) && IsMax(s[|s| - 1], xs);
    } else {
      ShapeAlways(q, xs);
      var h := Feed(q, xs).heights;
      assert IsMin(h[0], xs) && IsMax(h[4], xs) && h[0] <= e <= h[4];
    }
  }

  /** Before there are five samples the estimate is one of them in order, the one at
      `q * (n - 1)` cut to an integer, as `SmallPlace` says of its index. */
  lemma SmallStreams(q: real, xs: seq<real>)
    requires 0.0 < q < 1.0 && 0 < |xs| < MARKER_COUNT
    ensures exists s: seq<real> :: Sorted(s) && multiset(s) == multiset(xs) && |s| == |xs| && Estimate(q, xs) == Some(s[SmallIndex(q, |xs|)])
  {
    SortSorts(xs);
    assert Estimate(q, xs) == Some(Sort(xs)[SmallIndex(q, |xs|)]);
  }

  /** With five the heights are the samples in order. */
  lemma FiveSamples(q: real, xs: seq<real>)
    requires |xs| == MARKER_COUNT
    ensures Sorted(Feed(q, xs).heights) && multiset(Feed(q, xs).heights) == multiset(xs)
  {
    SortSorts(xs);
  }

  /** The index before there are five samples: `q * (n - 1)` cut to an integer. */
  lemma SmallPlace(q: real, n: nat)
    requires 0.0 < q < 1.0 && n > 0
    ensures SmallIndex(q, n) as real <= q * (n - 1) as real < SmallIndex(q, n) as real + 1.0
  {
    PartOf(q, (n - 1) as real);
  }

  lemma PartOf(q: real, x: real)
    requires 0.0 < q < 1.0 && x >= 0.0
    ensures 0.0 <= q * x <= x && (x > 0.0 ==> q * x < x)
  {
    assert (1.0 - q) * x == x - q * x;
    if x > 0.0 {
      assert (1.0 - q) * x > 0.0;
    }
  }

  // ---------------------------------------------------------------- equivariance

  function Affine(a: real, b: real, x: real): real { a * x + b }

  function Scale(a: real, b: real, s: seq<real>): seq<real> {
    seq(|s|, i requires 0 <= i < |s| => Affine(a, b, s[i]))
  }

  function ScaleMarkers(a: real, b: real, m: Markers): Markers {
    m.(heights := Scale(a, b, m.heights))
  }

  lemma ScaleOrder(a: real, b: real, x: real, y: real)
    requires a > 0.0
    ensures Affine(a, b, x) < Affine(a, b, y) <==> x < y
    ensures Affine(a, b, x) <= Affine(a, b, y) <==> x <= y
  {
    ScaleDifference(a, b, x, y);
    if x < y { assert a * (y - x) > 0.0; assert a * (y - x) == -(a * (x - y)); }
    if y < x { assert a * (x - y) > 0.0; }
  }

  lemma ScaleDifference(a: real, b: real, x: real, y: real)
    ensures Affine(a, b, x) - Affine(a, b, y) == a * (x - y)
  {
  }

  lemma ScaleJoin(a: real, b: real, x: real, s: seq<real>)
    ensures Scale(a, b, [x] + s) == [Affine(a, b, x)] + Scale(a, b, s)
    ensures s != [] ==> Scale(a, b, s)[1..] == Scale(a, b, s[1..])
  {
  }

  lemma {:induction false} ScaleInsert(a: real, b: real, x: real, s: seq<real>)
    requires a > 0.0
    ensures Insert(Affine(a, b, x), Scale(a, b, s)) == Scale(a, b, Insert(x, s))
  {
    ScaleJoin(a, b, x, s);
    if s != [] {
      ScaleOrder(a, b, x, s[0]);
      if x > s[0] {
        ScaleInsert(a, b, x, s[1..]);
        ScaleJoin(a, b, s[0], Insert(x, s[1..]));
      }
    }
  }

  lemma {:induction false} ScaleSort(a: real, b: real, s: seq<real>)
    requires a > 0.0
    ensures Sort(Scale(a, b, s)) == Scale(a, b, Sort(s))
  {
    if s != [] {
      ScaleJoin(a, b, s[0], s);
      ScaleSort(a, b, s[1..]);
      ScaleInsert(a, b, s[0], Sort(s[1..]));
    }
  }

  lemma {:induction false} ScaleBisect(a: real, b: real, s: seq<real>, x: real)
    requires a > 0.0
    ensures BisectLeft(Scale(a, b, s), Affine(a, b, x)) == BisectLeft(s, x)
  {
    if s != [] {
      ScaleOrder(a, b, x, s[0]);
      ScaleJoin(a, b, x, s);
      ScaleBisect(a, b, s[1..], x);
    }
  }

  lemma ScaleRatio(a: real, c: int, x: real, g: int, y: real)
    requires g != 0 && y == a * x
    ensures Ratio(c, y, g) == a * Ratio(c, x, g)
  {
    var (u, w) := (c as real, g as real);
    assert u * (a * x) == a * (u * x);
    assert (a * (u * x)) / w == a * ((u * x) / w);
  }

  lemma ScaleSum(a: real, x: real, y: real)
    ensures a * x + a * y == a * (x + y)
  {
  }

  lemma ScaleParabolic(a: real, b: real, h: seq<real>, n: seq<int>, i: nat, d: int)
    requires |h| == |n| && 0 < i < |n| - 1 && n[i - 1] < n[i] < n[i + 1]
    ensures Parabolic(Scale(a, b, h), n, i, d) == Affine(a, b, Parabolic(h, n, i, d))
  {
    var z := Scale(a, b, h);
    var gap := n[i + 1] - n[i - 1];
    var termA := Ratio(n[i] - n[i - 1] + d, h[i + 1] - h[i], n[i + 1] - n[i]);
    var termB := Ratio(n[i + 1] - n[i] - d, h[i] - h[i - 1], n[i] - n[i - 1]);
    ScaleDifference(a, b, h[i + 1], h[i]);
    ScaleDifference(a, b, h[i], h[i - 1]);
    ScaleRatio(a, n[i] - n[i - 1] + d, h[i + 1] - h[i], n[i + 1] - n[i], z[i + 1] - z[i]);
    ScaleRatio(a, n[i + 1] - n[i] - d, h[i] - h[i - 1], n[i] - n[i - 1], z[i] - z[i - 1]);
    ScaleSum(a, termA, termB);
    ScaleRatio(a, d, termA + termB, gap, a * termA + a * termB);
    ScaleSum(a, h[i], Ratio(d, termA + termB, gap));
  }

  lemma ScaleLinear(a: real, b: real, h: seq<real>, n: seq<int>, i: nat, d: int)
    requires |h| == |n| && 0 < i < |n| - 1 && n[i - 1] < n[i] < n[i + 1] && (d == 1 || d == -1)
    ensures Linear(Scale(a, b, h), n, i, d) == Affine(a, b, Linear(h, n, i, d))
  {
    var z := Scale(a, b, h);
    var j := i + d;
    var (x, g) := (h[j] - h[i], n[j] - n[i]);
    ScaleDifference(a, b, h[j], h[i]);
    assert z[j] - z[i] == a * x;
    ScaleRatio(a, d, x, g, z[j] - z[i]);
    ScaleSum(a, h[i], Ratio(d, x, g));
  }

  lemma ScaleAdjust(a: real, b: real, m: Markers, i: nat)
    requires a > 0.0 && Spaced(m) && 0 < i < MARKER_COUNT - 1
    ensures Adjust(ScaleMarkers(a, b, m), i) == ScaleMarkers(a, b, Adjust(m, i))
  {
    var d := Direction(m, i);
    assert Direction(ScaleMarkers(a, b, m), i) == d;
    if d != 0 {
      var p := Parabolic(m.heights, m.positions, i, d);
      ScaleParabolic(a, b, m.heights, m.positions, i, d);
      ScaleLinear(a, b, m.heights, m.positions, i, d);
      ScaleOrder(a, b, m.heights[i - 1], p);
      ScaleOrder(a, b, p, m.heights[i + 1]);
      var e := AdjustedHeight(m, i, d);
      assert AdjustedHeight(ScaleMarkers(a, b, m), i, d) == Affine(a, b, e);
      assert Scale(a, b, m.heights)[i := Affine(a, b, e)] == Scale(a, b, m.heights[i := e]);
    }
  }

  lemma {:induction false} ScaleAdjustBelow(a: real, b: real, m: Markers, k: nat)
    requires a > 0.0 && Spaced(m) && 0 < k < MARKER_COUNT
    ensures AdjustBelow(ScaleMarkers(a, b, m), k) == ScaleMarkers(a, b, AdjustBelow(m, k))
  {
    if k > 1 {
      ScaleAdjustBelow(a, b, m, k - 1);
      ScaleAdjust(a, b, AdjustBelow(m, k - 1), k - 1);
    }
  }

  lemma ScalePlace(a: real, b: real, q: real, m: Markers, x: real)
    requires a > 0.0 && Spaced(m)
    ensures Place(q, ScaleMarkers(a, b, m), Affine(a, b, x)) == ScaleMarkers(a, b, Place(q, m, x))
  {
    var h := m.heights;
    ScaleOrder(a, b, x, h[0]);
    ScaleOrder(a, b, h[4], x);
    ScaleBisect(a, b, h, x);
    assert Scale(a, b, h[0 := x]) == Scale(a, b, h)[0 := Affine(a, b, x)];
    assert Scale(a, b, h[4 := x]) == Scale(a, b, h)[4 := Affine(a, b, x)];
    assert Cell(Scale(a, b, h), Affine(a, b, x)) == Cell(h, x);
  }

  lemma ScaleUpdate(a: real, b: real, q: real, m: Markers, x: real)
    requires a > 0.0 && Spaced(m)
    ensures UpdateMarkers(q, ScaleMarkers(a, b, m), Affine(a, b, x)) == ScaleMarkers(a, b, UpdateMarkers(q, m, x))
  {
    ScalePlace(a, b, q, m, x);
    ScaleAdjustBelow(a, b, Place(q, m, x), MARKER_COUNT - 1);
  }

  /** Equivariance. Feeding `a * x + b` instead of `x`, with `a > 0`, drives the same
      positions after every sample and scales every height the same way. */
  lemma {:induction false} Equivariance(a: real, b: real, q: real, xs: seq<real>)
    requires a > 0.0 && |xs| >= MARKER_COUNT
    ensures Feed(q, Scale(a, b, xs)) == ScaleMarkers(a, b, Feed(q, xs))
  {
    var zs := Scale(a, b, xs);
    if |xs| == MARKER_COUNT {
      ScaleSort(a, b, xs);
    } else {
      var (ys, x) := (xs[..|xs| - 1], xs[|xs| - 1]);
      Equivariance(a, b, q, ys);
      assert zs[..|zs| - 1] == Scale(a, b, ys) && zs[|zs| - 1] == Affine(a, b, x);
      ScaleUpdate(a, b, q, Feed(q, ys), x);
    }
  }

  lemma EstimateEquivariance(a: real, b: real, q: real, xs: seq<real>)
    requires a > 0.0 && 0.0 < q < 1.0 && xs != []
    ensures Estimate(q, xs).Some? && Estimate(q, Scale(a, b, xs)) == Some(Affine(a, b, Estimate(q, xs).value))
  {
    if |xs| < MARKER_COUNT {
      ScaleSort(a, b, xs);
    } else {
      Equivariance(a, b, q, xs);
    }
  }

  // ---------------------------------------------------------------- the class

  /** The estimator's fields; `stream` records what it was fed. */
  class StreamingPercentileEstimator {
    const quantile: real
    var heights: seq<real>
    var positions: seq<int>
    var desiredPositions: seq<real>
    var increments: seq<real>
    var initialSamples: seq<real>
    var observationCount: nat
    ghost var stream: seq<real>

    ghost predicate Valid() reads this {
      && 0.0 < quantile < 1.0
      && observationCount == |stream|
      && (|stream| < MARKER_COUNT ==> initialSamples == stream)
      && (|stream| >= MARKER_COUNT ==>
            && |initialSamples| == MARKER_COUNT
            && HasIncrements()
            && State() == Feed(quantile, stream))
    }

    function State(): Markers reads this { Markers(heights, positions, desiredPositions) }

    constructor (quantile: real)
      requires 0.0 < quantile < 1.0
      ensures Valid() && stream == [] && this.quantile == quantile
    {
      this.quantile := quantile;
      heights, positions, desiredPositions, increments := [], [], [], [];
      initialSamples, observationCount, stream := [], 0, [];
    }

    /** A quantile that is no proper probability is refused. */
    static method Create(quantile: real) returns (r: Result<StreamingPercentileEstimator, string>)
      ensures r.Ok? <==> 0.0 < quantile < 1.0
      ensures r.Ok? ==> fresh(r.value) && r.value.Valid() && r.value.stream == [] && r.value.quantile == quantile
    {
      if !(0.0 < quantile < 1.0) {
        return Err("quantile must be strictly between 0 and 1");
      }
      var e := new StreamingPercentileEstimator(quantile);
      return Ok(e);
    }

    method Observe(x: real)
      requires Valid()
      modifies this
      ensures Valid() && stream == old(stream) + [x]
    {
      ghost var before := stream;
      stream := stream + [x];
      assert stream[..|stream| - 1] == before;
      observationCount := observationCount + 1;
      if |initialSamples| < MARKER_COUNT {
        initialSamples := initialSamples + [x];
        if |initialSamples| == MARKER_COUNT {
          InitializeMarkers();
        }
        return;
      }
      Update(x);
    }

    method InitializeMarkers()
      requires |initialSamples| == MARKER_COUNT
      modifies `initialSamples, `heights, `positions, `desiredPositions, `increments
      ensures |initialSamples| == MARKER_COUNT && State() == InitialMarkers(quantile, old(initialSamples))
      ensures HasIncrements()
    {
      initialSamples := Sort(initialSamples);
      heights := initialSamples;
      positions := [1, 2, 3, 4, 5];
      var p := quantile;
      desiredPositions := [1.0, 1.0 + 2.0 * p, 1.0 + 4.0 * p, 3.0 + 2.0 * p, 5.0];
      increments := [0.0, p / 2.0, p, (1.0 + p) / 2.0, 1.0];
    }

    ghost predicate HasIncrements() reads this {
      |increments| == MARKER_COUNT && forall i :: 0 <= i < MARKER_COUNT ==> increments[i] == Increment(quantile, i)
    }

    method Update(x: real)
      requires Spaced(State()) && HasIncrements()
      modifies `heights, `positions, `desiredPositions
      ensures State() == UpdateMarkers(quantile, old(State()), x)
    {
      var cell := StretchTo(x);
      for i := cell + 1 to MARKER_COUNT
        invariant heights == Stretch(old(heights), x) && desiredPositions == old(desiredPositions)
        invariant |positions| == MARKER_COUNT
        invariant forall k :: 0 <= k < MARKER_COUNT ==> positions[k] == if cell < k < i then old(positions)[k] + 1 else old(positions)[k]
      {
        positions := positions[i := positions[i] + 1];
      }
      ghost var placed := Place(quantile, old(State()), x);
      assert positions == placed.positions;
      AdvanceDesired();
      assert desiredPositions == placed.desired;
      AdjustMiddle();
    }

    method StretchTo(x: real) returns (cell: nat)
      requires |heights| == MARKER_COUNT
      modifies `heights
      ensures heights == Stretch(old(heights), x) && cell == Cell(old(heights), x)
    {
      if x < heights[0] {
        heights := heights[0 := x];
        return 0;
      }
      if x >= heights[4] {
        heights := heights[4 := x];
        return 3;
      }
      return Clamp(BisectLeft(heights, x) - 1);
    }

    method AdvanceDesired()
      requires |desiredPositions| == MARKER_COUNT && HasIncrements()
      modifies `desiredPositions
      ensures |desiredPositions| == MARKER_COUNT
      ensures forall k :: 0 <= k < MARKER_COUNT ==> desiredPositions[k] == old(desiredPositions)[k] + Increment(quantile, k)
    {
      for i := 0 to MARKER_COUNT
        invariant |desiredPositions| == MARKER_COUNT
        invariant forall k :: 0 <= k < i ==> desiredPositions[k] == old(desiredPositions)[k] + Increment(quantile, k)
        invariant forall k :: i <= k < MARKER_COUNT ==> desiredPositions[k] == old(desiredPositions)[k]
      {
        desiredPositions := desiredPositions[i := desiredPositions[i] + increments[i]];
      }
    }

    method AdjustMiddle()
      requires Spaced(State())
      modifies `heights, `positions
      ensures State() == AdjustBelow(old(State()), MARKER_COUNT - 1)
    {
      for i := 1 to MARKER_COUNT - 1
        invariant State() == AdjustBelow(old(State()), i)
      {
        AdjustOne(i);
      }
    }

    method AdjustOne(i: nat)
      requires Spaced(State()) && 0 < i < MARKER_COUNT - 1
      modifies `heights, `positions
      ensures State() == Adjust(old(State()), i)
    {
      var diff := desiredPositions[i] - positions[i] as real;
      var rightGap := positions[i + 1] - positions[i];
      var leftGap := positions[i] - positions[i - 1];
      if (diff >= 1.0 && rightGap > 1) || (diff <= -1.0 && leftGap > 1) {
        var direction := if diff >= 1.0 then 1 else -1;
        var adjusted := Parabolic(heights, positions, i, direction);
        if !(heights[i - 1] < adjusted < heights[i + 1]) {
          adjusted := Linear(heights, positions, i, direction);
        }
        heights := heights[i := adjusted];
        positions := positions[i := positions[i] + direction];
      }
    }

    method Value() returns (r: Option<real>)
      requires Valid()
      ensures r == Estimate(quantile, stream)
    {
      if observationCount == 0 {
        return None;
      }
      if |initialSamples| < MARKER_COUNT {
        return Some(Sort(initialSamples)[SmallIndex(quantile, |initialSamples|)]);
      }
      return Some(heights[2]);
    }
  }
}
