/** Request-local traces (`core/performance/trace.py`): a tree of timed nodes grown by
    `start` and closed by `finish`, and the accounting of its time. */
module Tracing {
  import opened Wrappers

  // ---------------------------------------------------------------- the tree as a list of records

  /** A node's fields, with nodes named by their order of creation. */
  datatype Record = Record(started: int, finished: Option<int>, duration: Option<int>, parent: Option<nat>, children: seq<nat>)

  datatype View = View(nodes: seq<Record>, current: Option<nat>)

  datatype TraceError = AlreadyFinished | NoActiveNode | ChildHasParent | FinishBeforeStart

  datatype Op = Start(now: int) | Finish(now: int)

  function Started(v: View, now: int): View
    requires v.current.Some? ==> v.current.value < |v.nodes|
  {
    var n := |v.nodes|;
    var grown := match v.current
                 case None => v.nodes
                 case Some(c) => v.nodes[c := v.nodes[c].(children := v.nodes[c].children + [n])];
    View(grown + [Record(now, None, None, v.current, [])], Some(n))
  }

  /** The view after `start`; a finished trace accepts no more nodes. */
  function AfterStart(v: View, now: int): Result<View, TraceError>
    requires v.current.Some? ==> v.current.value < |v.nodes|
  {
    if v.nodes != [] && v.current.None? then Err(AlreadyFinished) else Ok(Started(v, now))
  }

  function AfterNodeFinish(r: Record, now: int): Result<Record, TraceError> {
    if r.duration.Some? then Ok(r)
    else if now < r.started then Err(FinishBeforeStart)
    else Ok(r.(finished := Some(now), duration := Some(now - r.started)))
  }

  /** The view after `finish`: the active node is closed and its parent resumes. */
  function AfterFinish(v: View, now: int): Result<View, TraceError>
    requires v.current.Some? ==> v.current.value < |v.nodes|
  {
    match v.current
    case None => Err(NoActiveNode)
    case Some(c) =>
      match AfterNodeFinish(v.nodes[c], now)
      case Err(e) => Err(e)
      case Ok(r) => Ok(View(v.nodes[c := r], r.parent))
  }

  /** Parents are older than their children, and the active node exists. */
  ghost predicate Rooted(v: View) {
    && (v.current.Some? ==> v.current.value < |v.nodes|)
    && forall i :: 0 <= i < |v.nodes| && v.nodes[i].parent.Some? ==> v.nodes[i].parent.value < i
  }

  lemma StartedRooted(v: View, now: int)
    requires Rooted(v)
    ensures Rooted(Started(v, now))
  {
  }

  /** Closing every open node from the active one up, the k-th at reading `clock(k)`;
      the first that cannot be closed stops it. */
  ghost function AfterFinishAll(v: View, clock: nat -> int, k: nat): (View, Option<TraceError>)
    requires Rooted(v)
    decreases if v.current.Some? then v.current.value + 1 else 0
  {
    if v.current.None? then (v, None)
    else
      match AfterFinish(v, clock(k))
      case Err(e) => (v, Some(e))
      case Ok(w) => AfterFinishAll(w, clock, k + 1)
  }

  function Duration(r: Record): int { if r.duration.Some? then r.duration.value else 0 }

  /** The time the children among `kids` took. */
  function Busy(nodes: seq<Record>, kids: seq<nat>): int
    requires forall a :: 0 <= a < |kids| ==> kids[a] < |nodes|
  {
    if kids == [] then 0 else Busy(nodes, kids[..|kids| - 1]) + Duration(nodes[kids[|kids| - 1]])
  }

  ghost predicate Closed(nodes: seq<Record>) {
    forall i, a :: 0 <= i < |nodes| && 0 <= a < |nodes[i].children| ==> nodes[i].children[a] < |nodes|
  }

  /** `exclusive_duration_ns`, clamp included. */
  function Exclusive(nodes: seq<Record>, i: nat): Option<int>
    requires i < |nodes| && forall a :: 0 <= a < |nodes[i].children| ==> nodes[i].children[a] < |nodes|
  {
    if nodes[i].duration.None? then None
    else
      var own := nodes[i].duration.value - Busy(nodes, nodes[i].children);
      Some(if own > 0 then own else 0)
  }

  // ---------------------------------------------------------------- what always holds

  predicate Done(r: Record) { r.duration.Some? }

  function LastOf(s: seq<nat>): nat
    requires s != []
  {
    s[|s| - 1]
  }

  /** Node `i` hangs under an older node that lists it, or is the first; its children
      are newer, in order of creation, and name it as their parent. */
  ghost predicate NodeTree(nodes: seq<Record>, i: nat)
    requires i < |nodes|
  {
    var (r, kids) := (nodes[i], nodes[i].children);
    && (r.parent.None? <==> i == 0)
    && (i > 0 ==> r.parent.value < i && i in nodes[r.parent.value].children)
    && (forall a :: 0 <= a < |kids| ==> i < kids[a] < |nodes| && nodes[kids[a]].parent == Some(i))
    && (forall a, b :: 0 <= a < b < |kids| ==> kids[a] < kids[b])
  }

  ghost predicate Tree(nodes: seq<Record>) {
    forall i :: 0 <= i < |nodes| ==> NodeTree(nodes, i)
  }

  lemma TreeClosed(nodes: seq<Record>)
    requires Tree(nodes)
    ensures Closed(nodes)
  {
    forall i, a | 0 <= i < |nodes| && 0 <= a < |nodes[i].children| ensures nodes[i].children[a] < |nodes| {
      assert NodeTree(nodes, i);
    }
  }

  /** In a closed node all children are closed; in the active node too; in any other
      open node all but the last, and that one is open. */
  ghost predicate NodePath(v: View, i: nat)
    requires i < |v.nodes|
  {
    var (r, kids) := (v.nodes[i], v.nodes[i].children);
    && (forall a :: 0 <= a < |kids| - 1 ==> kids[a] < |v.nodes| && Done(v.nodes[kids[a]]))
    && (kids != [] && (Done(r) || v.current == Some(i)) ==> LastOf(kids) < |v.nodes| && Done(v.nodes[LastOf(kids)]))
    && (!Done(r) && v.current != Some(i) ==> kids != [] && LastOf(kids) < |v.nodes| && !Done(v.nodes[LastOf(kids)]))
  }

  /** The open nodes are the active node and its ancestors. */
  ghost predicate OpenPath(v: View) {
    && (v.current.Some? <==> v.nodes != [] && !Done(v.nodes[0]))
    && (v.current.Some? ==> v.current.value < |v.nodes| && !Done(v.nodes[v.current.value]))
    && (forall i :: 0 <= i < |v.nodes| ==> NodePath(v, i))
  }

  /** The times of a node agree with each other and the clock. */
  predicate Timed(r: Record, clock: int) {
    && r.started <= clock
    && (Done(r) <==> r.finished.Some?)
    && (Done(r) ==> r.started <= r.finished.value <= clock && r.duration.value == r.finished.value - r.started)
  }

  /** The interval of `k` lies within that of `r`, as far as they are known. */
  predicate Inside(k: Record, r: Record) {
    r.started <= k.started && (r.finished.Some? ==> k.finished.Some? && k.finished.value <= r.finished.value)
  }

  /** `k` was over when `l` started. */
  predicate Precedes(k: Record, l: Record) {
    k.finished.Some? && k.finished.value <= l.started
  }

  /** The children of node `i` lie within it, one after the other. */
  ghost predicate NodeNested(nodes: seq<Record>, i: nat, clock: int)
    requires i < |nodes|
  {
    var kids := nodes[i].children;
    && Timed(nodes[i], clock)
    && (forall a :: 0 <= a < |kids| ==> kids[a] < |nodes| && Inside(nodes[kids[a]], nodes[i]))
    && (forall a, b :: 0 <= a < b < |kids| ==> kids[a] < |nodes| && kids[b] < |nodes| && Precedes(nodes[kids[a]], nodes[kids[b]]))
  }

  ghost predicate Nested(nodes: seq<Record>, clock: int) {
    forall i :: 0 <= i < |nodes| ==> NodeNested(nodes, i, clock)
  }

  /** Up to when the children of node `i` can have been busy. */
  function Horizon(v: View, i: nat, clock: int): int
    requires i < |v.nodes|
  {
    var r := v.nodes[i];
    if r.finished.Some? then r.finished.value
    else if v.current != Some(i) && r.children != [] && LastOf(r.children) < |v.nodes| then v.nodes[LastOf(r.children)].started
    else clock
  }

  ghost predicate WithinHorizon(v: View, clock: int)
    requires Closed(v.nodes)
  {
    forall i :: 0 <= i < |v.nodes| ==> Busy(v.nodes, v.nodes[i].children) <= Horizon(v, i, clock) - v.nodes[i].started
  }

  /** Over the first `n` nodes, durations less the children's durations. */
  function Balance(nodes: seq<Record>, n: nat): int
    requires n <= |nodes| && Closed(nodes)
  {
    if n == 0 then 0 else Balance(nodes, n - 1) + Duration(nodes[n - 1]) - Busy(nodes, nodes[n - 1].children)
  }

  ghost predicate Balanced(nodes: seq<Record>)
    requires Closed(nodes)
  {
    Balance(nodes, |nodes|) == if nodes == [] then 0 else Duration(nodes[0])
  }

  // ---------------------------------------------------------------- sums

  lemma {:induction false} BusySame(a: seq<Record>, b: seq<Record>, kids: seq<nat>)
    requires forall j :: 0 <= j < |kids| ==> kids[j] < |a| && kids[j] < |b| && Duration(a[kids[j]]) == Duration(b[kids[j]])
    ensures Busy(a, kids) == Busy(b, kids)
  {
    if kids != [] {
      BusySame(a, b, kids[..|kids| - 1]);
    }
  }

  /** Node `c` takes `d` in `b` where it took nothing in `a`; as the last of `kids` it
      adds `d` to their time. */
  lemma BusyLast(a: seq<Record>, b: seq<Record>, kids: seq<nat>, c: nat, d: int)
    requires |a| == |b| && forall j :: 0 <= j < |kids| ==> kids[j] < |a|
    requires kids != [] && LastOf(kids) == c && Duration(a[c]) == 0 && Duration(b[c]) == d
    requires forall j :: 0 <= j < |kids| - 1 ==> Duration(a[kids[j]]) == Duration(b[kids[j]])
    ensures Busy(b, kids) == Busy(a, kids) + d
  {
    BusySame(a, b, kids[..|kids| - 1]);
  }

  lemma {:induction false} BalanceShift(a: seq<Record>, b: seq<Record>, n: nat, c: nat, p: int, d: int)
    requires n <= |a| && n <= |b| && Closed(a) && Closed(b)
    requires forall i :: 0 <= i < n ==> Duration(b[i]) == Duration(a[i]) + (if i == c then d else 0)
    requires forall i :: 0 <= i < n ==> Busy(b, b[i].children) == Busy(a, a[i].children) + (if i == p then d else 0)
    ensures Balance(b, n) == Balance(a, n) + (if c < n then d else 0) - (if 0 <= p < n then d else 0)
  {
    if n > 0 {
      BalanceShift(a, b, n - 1, c, p, d);
    }
  }

  ghost predicate Sound(v: View, clock: int) {
    Tree(v.nodes) && Closed(v.nodes) && OpenPath(v) && Nested(v.nodes, clock) && WithinHorizon(v, clock) && Balanced(v.nodes)
  }

  // ---------------------------------------------------------------- start keeps it

  /** A trace that can take another node. */
  ghost predicate Growing(v: View) { Tree(v.nodes) && OpenPath(v) && (v.nodes != [] ==> v.current.Some?) }

  lemma StartedNodeTree(v: View, now: int, i: nat)
    requires Growing(v) && i <= |v.nodes|
    ensures NodeTree(Started(v, now).nodes, i)
  {
    var (w, n) := (Started(v, now).nodes, |v.nodes|);
    if i == n {
      if n > 0 {
        var c := v.current.value;
        assert w[c].children[|v.nodes[c].children|] == n;
      }
    } else {
      assert NodeTree(v.nodes, i);
      if i > 0 {
        var p := v.nodes[i].parent.value;
        var a :| 0 <= a < |v.nodes[p].children| && v.nodes[p].children[a] == i;
        assert w[p].children[a] == i;
      }
    }
  }

  lemma StartedNodePath(v: View, now: int, i: nat)
    requires Growing(v) && i <= |v.nodes|
    ensures NodePath(Started(v, now), i)
  {
    if i < |v.nodes| {
      assert NodeTree(v.nodes, i) && NodePath(v, i);
    }
  }

  /** The children of the active node are over by now. */
  lemma ActiveKidsOver(v: View, clock: int, now: int, a: nat)
    requires Growing(v) && Nested(v.nodes, clock) && clock <= now && v.current.Some?
    requires a < |v.nodes[v.current.value].children|
    ensures var k := v.nodes[v.current.value].children[a];
            k < |v.nodes| && v.nodes[k].finished.Some? && v.nodes[k].finished.value <= now
  {
    var c := v.current.value;
    assert NodeTree(v.nodes, c) && NodePath(v, c);
    assert NodeNested(v.nodes, v.nodes[c].children[a], clock);
  }

  lemma StartedNodeNested(v: View, clock: int, now: int, i: nat)
    requires Growing(v) && Nested(v.nodes, clock) && clock <= now && i <= |v.nodes|
    ensures NodeNested(Started(v, now).nodes, i, now)
  {
    var w := Started(v, now).nodes;
    if i < |v.nodes| {
      assert NodeTree(v.nodes, i) && NodeNested(v.nodes, i, clock);
      forall j | 0 <= j < |v.nodes| ensures SameTimes(v.nodes[j], w[j]) {
      }
      if v.current == Some(i) {
        forall a | 0 <= a < |v.nodes[i].children| ensures Precedes(v.nodes[v.nodes[i].children[a]], w[|v.nodes|]) {
          ActiveKidsOver(v, clock, now, a);
        }
        NestedGrown(v.nodes, w, i, clock, now);
      } else {
        NestedSame(v.nodes, w, i, clock, now);
      }
    }
  }

  predicate SameTimes(a: Record, b: Record) {
    b.started == a.started && b.finished == a.finished && b.duration == a.duration
  }

  lemma NestedSame(a: seq<Record>, b: seq<Record>, i: nat, clock: int, now: int)
    requires i < |a| <= |b| && NodeNested(a, i, clock) && clock <= now && b[i].children == a[i].children
    requires forall j :: 0 <= j < |a| ==> SameTimes(a[j], b[j])
    ensures NodeNested(b, i, now)
  {
  }

  /** A newest child starts when the others are over. */
  lemma NestedGrown(a: seq<Record>, b: seq<Record>, i: nat, clock: int, now: int)
    requires i < |a| < |b| && NodeNested(a, i, clock) && clock <= now && b[i].children == a[i].children + [|a|]
    requires forall j :: 0 <= j < |a| ==> SameTimes(a[j], b[j])
    requires forall j :: 0 <= j < |a[i].children| ==> Precedes(a[a[i].children[j]], b[|a|])
    requires Inside(b[|a|], b[i])
    ensures NodeNested(b, i, now)
  {
    var kids := b[i].children;
    forall j, k | 0 <= j < k < |kids| ensures Precedes(b[kids[j]], b[kids[k]]) {
      assert kids[j] == a[i].children[j];
    }
  }

  lemma StartedBusy(v: View, now: int, i: nat)
    requires Growing(v) && i < |v.nodes|
    requires Closed(v.nodes) && Closed(Started(v, now).nodes)
    ensures Busy(Started(v, now).nodes, Started(v, now).nodes[i].children) == Busy(v.nodes, v.nodes[i].children)
  {
    var w := Started(v, now).nodes;
    BusySame(v.nodes, w, v.nodes[i].children);
    if v.current == Some(i) {
      var kids := w[i].children;
      assert kids[..|kids| - 1] == v.nodes[i].children;
    }
  }

  lemma StartedHorizon(v: View, clock: int, now: int, i: nat)
    requires Growing(v) && Closed(v.nodes) && Closed(Started(v, now).nodes) && i < |v.nodes|
    requires Timed(v.nodes[i], clock) && NodePath(v, i) && NodeTree(v.nodes, i)
    requires Busy(v.nodes, v.nodes[i].children) <= Horizon(v, i, clock) - v.nodes[i].started && clock <= now
    ensures var w := Started(v, now); Busy(w.nodes, w.nodes[i].children) <= Horizon(w, i, now) - w.nodes[i].started
  {
    StartedBusy(v, now, i);
  }

  lemma StartedBalanced(v: View, now: int)
    requires Growing(v) && Closed(v.nodes) && Balanced(v.nodes) && Closed(Started(v, now).nodes)
    ensures Balanced(Started(v, now).nodes)
  {
    var (w, n) := (Started(v, now).nodes, |v.nodes|);
    forall i | 0 <= i < n ensures Busy(w, w[i].children) == Busy(v.nodes, v.nodes[i].children) && Duration(w[i]) == Duration(v.nodes[i]) {
      StartedBusy(v, now, i);
    }
    BalanceGrown(v.nodes, w);
  }

  /** One more node, childless and untimed. */
  lemma BalanceGrown(a: seq<Record>, b: seq<Record>)
    requires |b| == |a| + 1 && Closed(a) && Closed(b) && Balanced(a) && Duration(b[|a|]) == 0 && b[|a|].children == []
    requires forall i :: 0 <= i < |a| ==> Duration(b[i]) == Duration(a[i]) && Busy(b, b[i].children) == Busy(a, a[i].children)
    ensures Balanced(b)
  {
    BalanceShift(a, b, |a|, 0, 0, 0);
  }

  lemma StartedSound(v: View, clock: int, now: int)
    requires Sound(v, clock) && clock <= now && (v.nodes != [] ==> v.current.Some?)
    ensures Sound(Started(v, now), now)
  {
    var w := Started(v, now);
    forall i | 0 <= i < |w.nodes| ensures NodeTree(w.nodes, i) && NodePath(w, i) && NodeNested(w.nodes, i, now) {
      StartedNodeTree(v, now, i);
      StartedNodePath(v, now, i);
      StartedNodeNested(v, clock, now, i);
    }
    TreeClosed(w.nodes);
    forall i | 0 <= i < |w.nodes| ensures Busy(w.nodes, w.nodes[i].children) <= Horizon(w, i, now) - w.nodes[i].started {
      if i < |v.nodes| {
        assert NodeNested(v.nodes, i, clock) && NodePath(v, i) && NodeTree(v.nodes, i);
        StartedHorizon(v, clock, now, i);
      }
    }
    StartedBalanced(v, now);
  }

  // ---------------------------------------------------------------- finish keeps it

  /** The view after the active node finished at `now`. */
  function Finished(v: View, now: int): View
    requires v.current.Some? && v.current.value < |v.nodes|
  {
    var r := v.nodes[v.current.value];
    View(v.nodes[v.current.value := r.(finished := Some(now), duration := Some(now - r.started))], r.parent)
  }

  /** The active node is the last child of its parent. */
  lemma ActiveIsLast(v: View)
    requires Tree(v.nodes) && OpenPath(v) && v.current.Some? && v.nodes[v.current.value].parent.Some?
    ensures var (c, p) := (v.current.value, v.nodes[v.current.value].parent.value);
            p < c && !Done(v.nodes[p]) && v.nodes[p].children != [] && LastOf(v.nodes[p].children) == c
  {
    var c := v.current.value;
    var p := v.nodes[c].parent.value;
    assert NodeTree(v.nodes, c) && NodeTree(v.nodes, p) && NodePath(v, p);
    var kids := v.nodes[p].children;
    var a :| 0 <= a < |kids| && kids[a] == c;
    assert a == |kids| - 1;
  }

  lemma FinishedNodeTree(v: View, now: int, i: nat)
    requires Tree(v.nodes) && OpenPath(v) && v.current.Some? && i < |v.nodes|
    ensures NodeTree(Finished(v, now).nodes, i)
  {
    assert NodeTree(v.nodes, i);
  }

  /** No node but the parent lists the active node. */
  lemma ActiveElsewhere(v: View, i: nat)
    requires Tree(v.nodes) && OpenPath(v) && v.current.Some? && i < |v.nodes| && v.nodes[v.current.value].parent != Some(i)
    ensures forall a :: 0 <= a < |v.nodes[i].children| ==> v.nodes[i].children[a] != v.current.value
  {
    assert NodeTree(v.nodes, i);
  }

  lemma FinishedNodePath(v: View, now: int, i: nat)
    requires Tree(v.nodes) && OpenPath(v) && v.current.Some? && i < |v.nodes|
    ensures NodePath(Finished(v, now), i)
  {
    assert NodeTree(v.nodes, i) && NodePath(v, i);
    if v.nodes[v.current.value].parent == Some(i) {
      ActiveIsLast(v);
    } else {
      ActiveElsewhere(v, i);
    }
  }

  lemma FinishedNodeNested(v: View, clock: int, now: int, i: nat)
    requires Growing(v) && Nested(v.nodes, clock) && clock <= now && v.current.Some? && i < |v.nodes|
    ensures NodeNested(Finished(v, now).nodes, i, now)
  {
    assert NodeTree(v.nodes, i) && NodeNested(v.nodes, i, clock);
    var (w, c, kids) := (Finished(v, now).nodes, v.current.value, v.nodes[i].children);
    if c == i {
      forall a | 0 <= a < |kids| ensures Inside(w[kids[a]], w[i]) {
        ActiveKidsOver(v, clock, now, a);
      }
    } else if v.nodes[c].parent == Some(i) {
      ActiveIsLast(v);
    } else {
      ActiveElsewhere(v, i);
    }
  }

  lemma FinishedBusy(v: View, now: int, i: nat)
    requires Tree(v.nodes) && OpenPath(v) && v.current.Some? && i < |v.nodes|
    requires Closed(v.nodes) && Closed(Finished(v, now).nodes)
    ensures var (c, w) := (v.current.value, Finished(v, now).nodes);
            Busy(w, w[i].children) == Busy(v.nodes, v.nodes[i].children)
              + if v.nodes[c].parent == Some(i) then now - v.nodes[c].started else 0
  {
    var (c, w, kids) := (v.current.value, Finished(v, now).nodes, v.nodes[i].children);
    if v.nodes[c].parent == Some(i) {
      ActiveIsLast(v);
      assert NodeTree(v.nodes, i);
      BusyLast(v.nodes, w, kids, c, now - v.nodes[c].started);
    } else {
      ActiveElsewhere(v, i);
      BusySame(v.nodes, w, kids);
    }
  }

  lemma FinishedHorizon(v: View, clock: int, now: int, i: nat)
    requires Tree(v.nodes) && OpenPath(v) && v.current.Some? && Closed(v.nodes) && Closed(Finished(v, now).nodes)
    requires Nested(v.nodes, clock) && WithinHorizon(v, clock) && clock <= now && i < |v.nodes|
    ensures var w := Finished(v, now); Busy(w.nodes, w.nodes[i].children) <= Horizon(w, i, now) - w.nodes[i].started
  {
    FinishedBusy(v, now, i);
    assert NodeTree(v.nodes, i) && NodePath(v, i) && NodeNested(v.nodes, i, clock);
    if v.nodes[v.current.value].parent == Some(i) {
      ActiveIsLast(v);
    }
  }

  lemma FinishedBalanced(v: View, now: int)
    requires Tree(v.nodes) && OpenPath(v) && v.current.Some? && Closed(v.nodes) && Balanced(v.nodes) && Closed(Finished(v, now).nodes)
    ensures Balanced(Finished(v, now).nodes)
  {
    var (w, c) := (Finished(v, now).nodes, v.current.value);
    forall i | 0 <= i < |w| ensures Busy(w, w[i].children) == Busy(v.nodes, v.nodes[i].children)
              + if v.nodes[c].parent == Some(i) then now - v.nodes[c].started else 0 {
      FinishedBusy(v, now, i);
    }
    assert NodeTree(v.nodes, c);
    BalanceShift(v.nodes, w, |w|, c, if c == 0 then -1 else v.nodes[c].parent.value, now - v.nodes[c].started);
  }

  lemma FinishedSound(v: View, clock: int, now: int)
    requires Sound(v, clock) && clock <= now && v.current.Some?
    ensures Sound(Finished(v, now), now)
    ensures AfterFinish(v, now) == Ok(Finished(v, now))
  {
    var w := Finished(v, now);
    assert NodeNested(v.nodes, v.current.value, clock) && NodeTree(v.nodes, v.current.value);
    forall i | 0 <= i < |w.nodes| ensures NodeTree(w.nodes, i) && NodePath(w, i) && NodeNested(w.nodes, i, now) {
      FinishedNodeTree(v, now, i);
      FinishedNodePath(v, now, i);
      FinishedNodeNested(v, clock, now, i);
    }
    TreeClosed(w.nodes);
    forall i | 0 <= i < |w.nodes| ensures Busy(w.nodes, w.nodes[i].children) <= Horizon(w, i, now) - w.nodes[i].started {
      FinishedHorizon(v, clock, now, i);
    }
    FinishedBalanced(v, now);
    FinishedPath(v, now);
  }

  lemma FinishedPath(v: View, now: int)
    requires Tree(v.nodes) && OpenPath(v) && v.current.Some?
    ensures OpenPath(Finished(v, now))
  {
    forall i | 0 <= i < |v.nodes| ensures NodePath(Finished(v, now), i) {
      FinishedNodePath(v, now, i);
    }
    var c := v.current.value;
    assert NodeTree(v.nodes, c);
    if c > 0 {
      ActiveIsLast(v);
    }
  }

  // ---------------------------------------------------------------- whole runs

  /** One call; one that raises changes nothing. */
  function Exec(v: View, op: Op): (w: View)
    requires Rooted(v)
    ensures Rooted(w)
  {
    var r := match op
             case Start(now) => AfterStart(v, now)
             case Finish(now) => AfterFinish(v, now);
    if r.Ok? then r.value else v
  }

  function Run(ops: seq<Op>): (v: View)
    ensures Rooted(v)
  {
    if ops == [] then View([], None) else Exec(Run(ops[..|ops| - 1]), ops[|ops| - 1])
  }

  ghost predicate MonotoneClock(ops: seq<Op>) {
    forall i, j :: 0 <= i < j < |ops| ==> ops[i].now <= ops[j].now
  }

  function ClockAfter(ops: seq<Op>): int { if ops == [] then 0 else ops[|ops| - 1].now }

  lemma {:induction false} SoundAlways(ops: seq<Op>)
    requires MonotoneClock(ops)
    ensures Sound(Run(ops), ClockAfter(ops))
  {
    if ops != [] {
      var (before, op) := (ops[..|ops| - 1], ops[|ops| - 1]);
      SoundAlways(before);
      ExecSound(Run(before), if before == [] then op.now else ClockAfter(before), op);
    }
  }

  lemma ClockPasses(v: View, clock: int, now: int)
    requires Sound(v, clock) && clock <= now
    ensures Sound(v, now)
  {
    forall i | 0 <= i < |v.nodes| ensures NodeNested(v.nodes, i, now) {
      assert NodeNested(v.nodes, i, clock);
    }
  }

  lemma ExecSound(v: View, clock: int, op: Op)
    requires Rooted(v) && (v.nodes == [] || Sound(v, clock)) && (v.nodes == [] ==> v.current == None) && clock <= op.now
    ensures Sound(Exec(v, op), op.now)
  {
    ClockPasses(v, clock, op.now);
    match op
    case Start(now) => if v.nodes == [] || v.current.Some? { StartedSound(v, clock, now); }
    case Finish(now) => if v.current.Some? { FinishedSound(v, clock, now); }
  }

  lemma {:induction false} AllDone(v: View, i: nat)
    requires Tree(v.nodes) && OpenPath(v) && v.nodes != [] && v.current.None? && i < |v.nodes|
    ensures Done(v.nodes[i])
    decreases i
  {
    if i > 0 {
      assert NodeTree(v.nodes, i);
      var p := v.nodes[i].parent.value;
      AllDone(v, p);
      assert NodePath(v, p);
      var kids := v.nodes[p].children;
      var a :| 0 <= a < |kids| && kids[a] == i;
    }
  }

  /** The sum of the exclusive durations of the first `n` nodes. */
  function TotalExclusive(nodes: seq<Record>, n: nat): int
    requires n <= |nodes| && Closed(nodes)
  {
    if n == 0 then 0
    else
      var x := Exclusive(nodes, n - 1);
      TotalExclusive(nodes, n - 1) + if x.Some? then x.value else 0
  }

  lemma {:induction false} TotalIsBalance(nodes: seq<Record>, n: nat)
    requires Closed(nodes) && n <= |nodes|
    requires forall i :: 0 <= i < n ==> Exclusive(nodes, i) == Some(Duration(nodes[i]) - Busy(nodes, nodes[i].children))
    ensures TotalExclusive(nodes, n) == Balance(nodes, n)
  {
    if n > 0 {
      TotalIsBalance(nodes, n - 1);
    }
  }

  lemma TotalIsRoot(v: View, clock: int)
    requires Sound(v, clock) && v.nodes != [] && v.current.None?
    ensures TotalExclusive(v.nodes, |v.nodes|) == Duration(v.nodes[0])
  {
    forall i | 0 <= i < |v.nodes| ensures Exclusive(v.nodes, i) == Some(Duration(v.nodes[i]) - Busy(v.nodes, v.nodes[i].children)) {
      AllDone(v, i);
      NoClamp(v, clock, i);
    }
    TotalIsBalance(v.nodes, |v.nodes|);
  }

  lemma NoClamp(v: View, clock: int, i: nat)
    requires Sound(v, clock) && i < |v.nodes| && Done(v.nodes[i])
    ensures Exclusive(v.nodes, i) == Some(v.nodes[i].duration.value - Busy(v.nodes, v.nodes[i].children))
  {
    assert NodeNested(v.nodes, i, clock);
  }

  /** Time conservation. Under a clock that never goes back, after any calls: children
      lie inside their parents and siblings do not overlap, and once the trace is
      finished its exclusive durations add up to the duration of its root. */
  lemma TimeConservation(ops: seq<Op>)
    requires MonotoneClock(ops)
    ensures var v := Run(ops);
            && Tree(v.nodes) && OpenPath(v) && Nested(v.nodes, ClockAfter(ops)) && Closed(v.nodes)
            && (v.nodes != [] && v.current.None? ==> TotalExclusive(v.nodes, |v.nodes|) == Duration(v.nodes[0]))
  {
    SoundAlways(ops);
    if Run(ops).nodes != [] && Run(ops).current.None? {
      TotalIsRoot(Run(ops), ClockAfter(ops));
    }
  }

  /** The clamp at zero never takes effect. */
  lemma ClampNeverFires(ops: seq<Op>, i: nat)
    requires MonotoneClock(ops) && i < |Run(ops).nodes| && Done(Run(ops).nodes[i])
    ensures Closed(Run(ops).nodes)
    ensures var n := Run(ops).nodes; Exclusive(n, i) == Some(n[i].duration.value - Busy(n, n[i].children))
  {
    SoundAlways(ops);
    NoClamp(Run(ops), ClockAfter(ops), i);
  }

  /** The only failures are finishing with no active node and starting in a finished
      trace. */
  lemma FewFailures(ops: seq<Op>, now: int)
    requires MonotoneClock(ops) && (ops != [] ==> ClockAfter(ops) <= now)
    ensures AfterStart(Run(ops), now).Err? == (Run(ops).nodes != [] && Run(ops).current.None?)
    ensures AfterFinish(Run(ops), now).Err? == Run(ops).current.None?
  {
    SoundAlways(ops);
    var v := Run(ops);
    if v.current.Some? {
      assert NodeNested(v.nodes, v.current.value, ClockAfter(ops));
    }
  }

  /** Under a clock that never goes back, `finish_all` never fails and leaves a
      finished trace whose exclusive durations add up to that of its root. */
  lemma {:induction false} FinishAllCloses(v: View, clock: nat -> int, k: nat, from: int)
    requires Rooted(v) && Sound(v, from) && from <= clock(k) && forall a, b :: k <= a <= b ==> clock(a) <= clock(b)
    ensures var (w, failed) := AfterFinishAll(v, clock, k);
            && failed == None && w.current == None && Closed(w.nodes) && |w.nodes| == |v.nodes|
            && (w.nodes != [] ==> TotalExclusive(w.nodes, |w.nodes|) == Duration(w.nodes[0]))
    decreases if v.current.Some? then v.current.value + 1 else 0
  {
    if v.current.Some? {
      FinishedSound(v, from, clock(k));
      FinishAllCloses(Finished(v, clock(k)), clock, k + 1, clock(k));
    } else if v.nodes != [] {
      TotalIsRoot(v, from);
    }
  }

  // ---------------------------------------------------------------- the classes

  class TraceNode {
    ghost const id: nat
    const startedNs: int
    var finishedNs: Option<int>
    var durationNs: Option<int>
    var parent: TraceNode?
    var children: seq<TraceNode>

    constructor (ghost id: nat, now: int)
      ensures this.id == id && startedNs == now && finishedNs == None && durationNs == None && parent == null && children == []
    {
      this.id, startedNs := id, now;
      finishedNs, durationNs, parent, children := None, None, null, [];
    }

    /** This node is what record `r` describes. */
    ghost predicate Shows(r: Record) reads this {
      && r.started == startedNs && r.finished == finishedNs && r.duration == durationNs
      && r.parent == (if parent == null then None else Some(parent.id))
      && |r.children| == |children| && forall a :: 0 <= a < |children| ==> r.children[a] == children[a].id
    }

    /** Idempotent: a finished node keeps its duration. */
    method Finish(ghost was: Record, now: int) returns (r: Result<int, TraceError>)
      requires Shows(was)
      modifies `finishedNs, `durationNs
      ensures match AfterNodeFinish(was, now)
              case Err(e) => r == Err(e) && Shows(was)
              case Ok(rec) => r == Ok(rec.duration.value) && Shows(rec)
    {
      if durationNs.Some? {
        return Ok(durationNs.value);
      }
      if now < startedNs {
        return Err(FinishBeforeStart);
      }
      finishedNs := Some(now);
      durationNs := Some(now - startedNs);
      return Ok(now - startedNs);
    }

    method AddChild(child: TraceNode) returns (r: Result<(), TraceError>)
      modifies `children, child`parent
      ensures r.Ok? <==> old(child.parent) == null
      ensures r.Ok? ==> children == old(children) + [child] && child.parent == this
      ensures r.Err? ==> children == old(children) && child.parent == old(child.parent) && r == Err(ChildHasParent)
    {
      if child.parent != null {
        return Err(ChildHasParent);
      }
      children := children + [child];
      child.parent := this;
      return Ok(());
    }
  }

  class Trace {
    var root: TraceNode?
    var current: TraceNode?
    ghost var nodes: seq<TraceNode>
    ghost var view: View

    ghost predicate Known(n: TraceNode) reads this { n.id < |nodes| && nodes[n.id] == n }

    /** The node is listed, and so are its neighbours. */
    ghost predicate Linked(n: TraceNode) reads this, n {
      && (n.parent == null || Known(n.parent))
      && forall a :: 0 <= a < |n.children| ==> Known(n.children[a])
    }

    ghost predicate Listed(i: nat)
      requires i < |nodes| && |nodes| == |view.nodes|
      reads this, nodes[i]
    {
      nodes[i].id == i && Linked(nodes[i]) && nodes[i].Shows(view.nodes[i])
    }

    /** `nodes` lists every node of the tree in order of creation, and `view` is what
        they show. */
    ghost predicate Valid() reads this, nodes {
      && |nodes| == |view.nodes|
      && (forall i :: 0 <= i < |nodes| ==> Listed(i))
      && (current != null ==> Known(current))
      && view.current == (if current == null then None else Some(current.id))
      && (root == null <==> nodes == []) && (nodes != [] ==> root == nodes[0])
      && Rooted(view)
    }

    constructor ()
      ensures Valid() && view == View([], None)
    {
      root, current, nodes, view := null, null, [], View([], None);
    }

    method Start(now: int) returns (r: Result<TraceNode, TraceError>)
      requires Valid()
      modifies this, current
      ensures Valid()
      ensures match AfterStart(old(view), now)
              case Err(e) => r == Err(e) && view == old(view)
              case Ok(w) => view == w && r.Ok? && fresh(r.value) && current == r.value
    {
      if root != null && current == null {
        return Err(AlreadyFinished);
      }
      var node := new TraceNode(|nodes|, now);
      if root == null {
        root, nodes, current := node, [node], node;
        view := View([Record(now, None, None, None, [])], Some(0));
      } else {
        Attach(node);
      }
      return Ok(node);
    }

    /** A new node becomes the newest child of the active node, and the active node. */
    method Attach(node: TraceNode)
      requires Valid() && current != null && node !in nodes
      requires node.id == |nodes| && node.Shows(Record(node.startedNs, None, None, None, []))
      modifies `current, `nodes, `view, current`children, node`parent
      ensures Valid() && current == node && view == Started(old(view), node.startedNs)
    {
      ghost var (before, was, c) := (nodes, view, current.id);
      var added := current.AddChild(node);
      nodes, view := nodes + [node], Started(view, node.startedNs);
      assert node.parent == current && Known(current) && Known(node);
      assert Listed(|before|);
      forall i | 0 <= i < |before| ensures nodes[i].id == i && Linked(nodes[i]) {
        assert nodes[i] == before[i] && nodes[i] != node && old(Listed(i));
        assert old(Linked(before[i])) && nodes[i].parent == old(before[i].parent);
        assert nodes[i].children == old(before[i].children) + if i == c then [node] else [];
      }
      forall i | 0 <= i < |before| ensures nodes[i].Shows(view.nodes[i]) {
        assert nodes[i] == before[i] && old(Listed(i)) && old(before[i].Shows(view.nodes[i]));
        assert i != c ==> view.nodes[i] == was.nodes[i] && nodes[i] != current;
      }
      StartedRooted(was, node.startedNs);
      current := node;
    }

    method Finish(now: int) returns (r: Result<int, TraceError>)
      requires Valid()
      modifies this, current
      ensures Valid()
      ensures match AfterFinish(old(view), now)
              case Err(e) => r == Err(e) && view == old(view)
              case Ok(w) => view == w && r.Ok? && w.nodes[old(view).current.value].duration == Some(r.value)
      ensures nodes == old(nodes)
    {
      if current == null {
        return Err(NoActiveNode);
      }
      var node := current;
      assert Listed(node.id);
      r := node.Finish(view.nodes[node.id], now);
      if r.Err? {
        return;
      }
      ghost var was := view;
      current := node.parent;
      view := AfterFinish(view, now).value;
      forall i | 0 <= i < |nodes| ensures nodes[i].id == i && Linked(nodes[i]) {
        assert old(Listed(i)) && old(nodes[i].id == i && Linked(nodes[i]));
      }
      forall i | 0 <= i < |nodes| ensures nodes[i].Shows(view.nodes[i]) {
        assert old(Listed(i)) && old(nodes[i].Shows(view.nodes[i])) && (i != node.id ==> nodes[i] != node && view.nodes[i] == was.nodes[i]);
      }
    }

    /** Reading `k` of the clock closes the k-th node on the way up. */
    method FinishAll(clock: nat -> int) returns (r: Result<(), TraceError>)
      requires Valid()
      modifies this, nodes
      ensures Valid()
      ensures var (w, failed) := AfterFinishAll(old(view), clock, 0);
              view == w && r == if failed.Some? then Err(failed.value) else Ok(())
      ensures nodes == old(nodes)
    {
      var k := 0;
      while current != null
        invariant Valid() && nodes == old(nodes)
        invariant AfterFinishAll(view, clock, k) == AfterFinishAll(old(view), clock, 0)
        decreases if current == null then 0 else current.id + 1
      {
        var step := Finish(clock(k));
        if step.Err? {
          return Err(step.error);
        }
        k := k + 1;
      }
      return Ok(());
    }
  }

  /** A node's own time, read off its children as `exclusive_duration_ns` does. */
  method ExclusiveDurationNs(node: TraceNode, ghost trace: Trace) returns (r: Option<int>)
    requires trace.Valid() && trace.Known(node) && Closed(trace.view.nodes)
    ensures r == Exclusive(trace.view.nodes, node.id)
  {
    ghost var v := trace.view.nodes;
    ghost var kids := v[node.id].children;
    assert trace.Listed(node.id);
    if node.durationNs.None? {
      return None;
    }
    var total := 0;
    for a := 0 to |node.children|
      invariant total == Busy(v, kids[..a])
    {
      var child := node.children[a];
      assert trace.Known(child) && trace.Listed(child.id);
      assert kids[..a + 1][..a] == kids[..a];
      total := total + if child.durationNs.Some? then child.durationNs.value else 0;
    }
    assert kids[..|kids|] == kids;
    var own := node.durationNs.value - total;
    return Some(if own > 0 then own else 0);
  }
}
