/**
 * Directed graphs of workflow stages, as adjacency lists over stage indexes:
 * the cycle check and the closure that the workflow compiler runs on them,
 * and the path-based notions both are proved against.
 */
module Graph {
  type Edges = seq<seq<nat>>

  predicate WellFormed(g: Edges) {
    forall i, k :: 0 <= i < |g| && 0 <= k < |g[i]| ==> g[i][k] < |g|
  }

  predicate IsPath(g: Edges, p: seq<nat>) {
    && |p| > 0
    && (forall k :: 0 <= k < |p| ==> p[k] < |g|)
    && (forall j, k :: 0 <= j && k == j + 1 < |p| ==> p[k] in g[p[j]])
  }

  predicate Connects(g: Edges, p: seq<nat>, a: nat, b: nat) {
    IsPath(g, p) && p[0] == a && p[|p| - 1] == b
  }

  /** b can be reached from a by following zero or more edges. */
  ghost predicate Reaches(g: Edges, a: nat, b: nat) {
    exists p :: Connects(g, p, a, b)
  }

  predicate IsCycle(g: Edges, p: seq<nat>) {
    IsPath(g, p) && |p| > 1 && p[0] == p[|p| - 1]
  }

  ghost predicate HasCycle(g: Edges) {
    exists p :: IsCycle(g, p)
  }

  /** `back` holds the edges of g turned round. */
  ghost predicate Inverse(g: Edges, back: Edges) {
    && |g| == |back|
    && forall i, j {:trigger j in g[i]} {:trigger i in back[j]} ::
         0 <= i < |g| && 0 <= j < |g| ==> (j in g[i] <==> i in back[j])
  }

  // ---- Reachability ----

  lemma ReachesSelf(g: Edges, a: nat)
    requires a < |g|
    ensures Reaches(g, a, a)
  {
    assert Connects(g, [a], a, a);
  }

  lemma ReachesStep(g: Edges, a: nat, b: nat, c: nat)
    requires WellFormed(g) && Reaches(g, a, b) && c in g[b]
    ensures Reaches(g, a, c)
  {
    var p :| Connects(g, p, a, b);
    var k :| 0 <= k < |g[b]| && g[b][k] == c;
    assert Connects(g, p + [c], a, c);
  }

  /** A set that is closed under the edges keeps every path that starts in it. */
  lemma {:induction false} ClosedKeepsPath(g: Edges, s: set<nat>, p: seq<nat>)
    requires IsPath(g, p) && p[0] in s
    requires forall a, b :: a in s && a < |g| && b in g[a] ==> b in s
    ensures forall k :: 0 <= k < |p| ==> p[k] in s
  {
    if |p| > 1 {
      assert p[1] in g[p[0]];
      ClosedKeepsPath(g, s, p[1..]);
      forall k | 0 <= k < |p| ensures p[k] in s {
        if k > 0 { assert p[1..][k - 1] == p[k]; }
      }
    }
  }

  ghost function Reversed(p: seq<nat>): (r: seq<nat>)
    ensures |r| == |p|
    ensures forall k :: 0 <= k < |p| ==> r[k] == p[|p| - 1 - k]
  {
    seq(|p|, k requires 0 <= k < |p| => p[|p| - 1 - k])
  }

  lemma ReversedPath(g: Edges, back: Edges, p: seq<nat>, a: nat, b: nat)
    requires Inverse(g, back) && Connects(g, p, a, b)
    ensures Connects(back, Reversed(p), b, a)
  {
    var r := Reversed(p);
    forall k | 0 <= k < |r| - 1 ensures r[k + 1] in back[r[k]] {
      var m := |p| - 2 - k;
      assert p[m + 1] in g[p[m]];
      assert r[k] == p[m + 1] && r[k + 1] == p[m];
    }
  }

  /** i comes before j along the edges exactly when j comes before i along the inverse ones. */
  lemma ReachesInverse(g: Edges, back: Edges, a: nat, b: nat)
    requires Inverse(g, back)
    ensures Reaches(g, a, b) <==> Reaches(back, b, a)
  {
    if Reaches(g, a, b) {
      var p :| Connects(g, p, a, b);
      ReversedPath(g, back, p, a, b);
    }
    if Reaches(back, b, a) {
      var p :| Connects(back, p, b, a);
      ReversedPath(back, g, p, b, a);
    }
  }

  predicate StrictlySorted(r: seq<nat>) {
    forall j, k :: 0 <= j < k < |r| ==> r[j] < r[k]
  }

  ghost function Below(n: nat): (s: set<nat>)
    ensures |s| == n && forall x: nat :: x in s <==> x < n
  {
    if n == 0 then {} else Below(n - 1) + {n - 1}
  }

  /** The members of s below n, in ascending order. */
  method SortedKeys(s: set<nat>, n: nat) returns (r: seq<nat>)
    requires forall x :: x in s ==> x < n
    ensures StrictlySorted(r)
    ensures forall x :: x in r <==> x in s
  {
    r := [];
    for x := 0 to n
      invariant StrictlySorted(r)
      invariant forall y :: y in r <==> y in s && y < x
    {
      if x in s {
        assert forall k :: 0 <= k < |r| ==> r[k] in r;
        r := r + [x];
      }
    }
  }

  /** Breadth-first search: exactly the nodes reachable from i, in ascending order. */
  method Closure(g: Edges, i: nat) returns (r: seq<nat>)
    requires WellFormed(g) && i < |g|
    ensures StrictlySorted(r)
    ensures forall b :: b in r <==> Reaches(g, i, b)
  {
    var seen: set<nat> := {i};
    var queue: seq<nat> := [i];
    ReachesSelf(g, i);
    while queue != []
      invariant i in seen
      invariant forall b :: b in queue ==> b in seen
      invariant forall b :: b in seen ==> b < |g| && Reaches(g, i, b)
      invariant forall a, b :: a in seen && a !in queue && b in g[a] ==> b in seen
      decreases Below(|g|) - seen, |queue|
    {
      var cur := queue[0];
      assert cur in queue;
      ghost var before := seen;
      ghost var rest := queue[1..];
      assert queue == [cur] + rest;
      queue := queue[1..];
      for k := 0 to |g[cur]|
        invariant before <= seen
        invariant before == seen ==> queue == rest
        invariant forall b :: b in rest ==> b in queue
        invariant forall b :: b in queue ==> b in seen
        invariant forall b :: b in seen ==> b < |g| && Reaches(g, i, b)
        invariant forall b :: b in g[cur][..k] ==> b in seen
        invariant forall b :: b in seen && b !in before ==> b in queue
      {
        var next := g[cur][k];
        if next !in seen {
          ReachesStep(g, i, cur, next);
          seen := seen + {next};
          queue := queue + [next];
        }
        assert g[cur][..k + 1] == g[cur][..k] + [next];
      }
      assert g[cur][..|g[cur]|] == g[cur];
    }
    r := SortedKeys(seen, |g|);
    forall b | Reaches(g, i, b) ensures b in r {
      var p :| Connects(g, p, i, b);
      ClosedKeepsPath(g, seen, p);
    }
  }

  // ---- Cycles ----

  datatype Colour = Unvisited | Visiting | Visited

  /** Every node listed comes after all the nodes it has edges to. */
  ghost predicate Ordered(g: Edges, order: seq<nat>) {
    forall k :: 0 <= k < |order| ==> order[k] < |g| && forall d :: d in g[order[k]] ==> d in order[..k]
  }

  function FirstIndex(order: seq<nat>, x: nat): (k: nat)
    requires x in order
    ensures k < |order| && order[k] == x && x !in order[..k]
  {
    if order[0] == x then 0 else 1 + FirstIndex(order[1..], x)
  }

  lemma {:induction false} FirstIndexBound(order: seq<nat>, x: nat, k: nat)
    requires k <= |order| && x in order[..k]
    ensures FirstIndex(order, x) < k
  {
    if order[0] != x {
      assert order[..k] == [order[0]] + order[1..][..k - 1];
      FirstIndexBound(order[1..], x, k - 1);
    }
  }

  lemma OrderedAppend(g: Edges, order: seq<nat>, i: nat)
    requires Ordered(g, order) && i < |g| && forall d :: d in g[i] ==> d in order
    ensures Ordered(g, order + [i])
  {
    var longer := order + [i];
    forall k | 0 <= k < |longer| ensures longer[k] < |g| && forall d :: d in g[longer[k]] ==> d in longer[..k] {
      assert longer[..k] == order[..k];
      assert k == |order| ==> order[..k] == order;
    }
  }

  lemma {:induction false} OrderedPathDescends(g: Edges, order: seq<nat>, p: seq<nat>)
    requires Ordered(g, order) && IsPath(g, p)
    requires forall x :: 0 <= x < |g| ==> x in order
    ensures FirstIndex(order, p[|p| - 1]) <= FirstIndex(order, p[0])
    ensures |p| > 1 ==> FirstIndex(order, p[|p| - 1]) < FirstIndex(order, p[0])
  {
    if |p| > 1 {
      OrderedPathDescends(g, order, p[1..]);
      var k := FirstIndex(order, p[0]);
      assert p[1] in g[order[k]];
      assert p[1] in order[..k];
      FirstIndexBound(order, p[1], k);
    }
  }

  lemma OrderedIsAcyclic(g: Edges, order: seq<nat>)
    requires Ordered(g, order)
    requires forall x :: 0 <= x < |g| ==> x in order
    ensures !HasCycle(g)
  {
    if p :| IsCycle(g, p) {
      OrderedPathDescends(g, order, p);
    }
  }

  /** The search has finished the nodes of `order` and is inside those of `stack`. */
  ghost predicate Searching(g: Edges, state: seq<Colour>, stack: seq<nat>, order: seq<nat>) {
    && |state| == |g|
    && Ordered(g, order)
    && (stack != [] ==> IsPath(g, stack))
    && (forall x :: 0 <= x < |g| ==> (state[x] == Visited <==> x in order))
    && (forall x :: 0 <= x < |g| ==> (state[x] == Visiting <==> x in stack))
  }

  lemma StackCloses(g: Edges, stack: seq<nat>, i: nat)
    requires IsPath(g, stack) && i in stack && i in g[stack[|stack| - 1]]
    ensures HasCycle(g)
  {
    var k :| 0 <= k < |stack| && stack[k] == i;
    var p := stack[k..] + [i];
    assert IsCycle(g, p);
  }

  method Visit(g: Edges, state: array<Colour>, i: nat, ghost stack: seq<nat>, ghost order: seq<nat>)
    returns (cycle: bool, ghost finished: seq<nat>)
    requires WellFormed(g) && i < |g| && state.Length == |g|
    requires Searching(g, state[..], stack, order)
    requires stack != [] ==> i in g[stack[|stack| - 1]]
    modifies state
    ensures cycle ==> HasCycle(g)
    ensures !cycle ==> Searching(g, state[..], stack, finished) && i in finished
    ensures !cycle ==> forall x :: x in order ==> x in finished
    ensures forall x :: 0 <= x < |g| && state[x] == Unvisited ==> old(state[x]) == Unvisited
    decreases set x | 0 <= x < |g| && state[x] == Unvisited
  {
    finished := order;
    if state[i] == Visiting {
      StackCloses(g, stack, i);
      return true, finished;
    }
    if state[i] == Visited {
      return false, finished;
    }
    ghost var unvisited := set x | 0 <= x < |g| && state[x] == Unvisited;
    assert i in unvisited;
    state[i] := Visiting;
    ghost var inner := stack + [i];
    assert forall x :: 0 <= x < |g| ==> state[..][x] == state[x];
    for k := 0 to |g[i]|
      invariant state.Length == |g|
      invariant Searching(g, state[..], inner, finished)
      invariant forall x :: x in order ==> x in finished
      invariant forall d :: d in g[i][..k] ==> d in finished
      invariant forall x :: 0 <= x < |g| && state[x] == Unvisited ==> old(state[x]) == Unvisited && x != i
    {
      var d := g[i][k];
      assert (set x | 0 <= x < |g| && state[x] == Unvisited) <= unvisited - {i};
      var c;
      c, finished := Visit(g, state, d, inner, finished);
      if c {
        return true, finished;
      }
      assert g[i][..k + 1] == g[i][..k] + [d];
    }
    assert g[i][..|g[i]|] == g[i];
    assert state[..][i] == Visiting && i !in finished;
    state[i] := Visited;
    OrderedAppend(g, finished, i);
    finished := finished + [i];
    assert forall x :: 0 <= x < |g| ==> state[..][x] == state[x];
    assert i !in stack by {
      assert old(state[..])[i] == Unvisited;
    }
    return false, finished;
  }

  /** Three-colour depth-first search: true exactly when some path returns to its start. */
  method Cyclic(g: Edges) returns (cycle: bool)
    requires WellFormed(g)
    ensures cycle <==> HasCycle(g)
  {
    var state := new Colour[|g|](_ => Unvisited);
    ghost var order: seq<nat> := [];
    for i := 0 to |g|
      invariant state.Length == |g|
      invariant Searching(g, state[..], [], order)
      invariant forall x :: 0 <= x < i ==> x in order
    {
      var c;
      c, order := Visit(g, state, i, [], order);
      if c {
        return true;
      }
    }
    OrderedIsAcyclic(g, order);
    return false;
  }

  // ---- Acyclic graphs have sources ----

  lemma {:induction false} DistinctFill(p: seq<nat>, s: set<nat>)
    requires forall k :: 0 <= k < |p| ==> p[k] in s
    requires forall j, k :: 0 <= j < k < |p| ==> p[j] != p[k]
    ensures |p| <= |s|
  {
    if p != [] {
      var last := |p| - 1;
      DistinctFill(p[..last], s - {p[last]});
    }
  }

  ghost predicate EdgeInto(g: Edges, x: nat, s: set<nat>)
    requires x < |g|
  {
    exists d :: d in g[x] && d in s
  }

  ghost predicate Sinkless(g: Edges, s: set<nat>) {
    forall x {:trigger EdgeInto(g, x, s)} :: x in s && x < |g| ==> EdgeInto(g, x, s)
  }

  lemma {:induction false} WalkInside(g: Edges, s: set<nat>, m: nat) returns (p: seq<nat>)
    requires s != {} && (forall x :: x in s ==> x < |g|) && Sinkless(g, s)
    ensures IsPath(g, p) && |p| == m + 1 && forall k :: 0 <= k < |p| ==> p[k] in s
  {
    if m == 0 {
      var x :| x in s;
      p := [x];
    } else {
      var q := WalkInside(g, s, m - 1);
      assert EdgeInto(g, q[|q| - 1], s);
      var d :| d in g[q[|q| - 1]] && d in s;
      p := q + [d];
    }
  }

  lemma SinklessHasCycle(g: Edges, s: set<nat>)
    requires s != {} && (forall x :: x in s ==> x < |g|) && Sinkless(g, s)
    ensures HasCycle(g)
  {
    var p := WalkInside(g, s, |g|);
    if forall j, k :: 0 <= j < k < |p| ==> p[j] != p[k] {
      DistinctFill(p, Below(|g|));
    }
    var j, k :| 0 <= j < k < |p| && p[j] == p[k];
    var c := p[j..k + 1];
    assert IsCycle(g, c);
  }

  /** Without a cycle, some node of every non-empty set has no edge into the set. */
  lemma AcyclicHasSource(g: Edges, s: set<nat>)
    requires !HasCycle(g) && s != {} && forall x :: x in s ==> x < |g|
    ensures exists x :: x in s && !EdgeInto(g, x, s)
  {
    if Sinkless(g, s) {
      SinklessHasCycle(g, s);
    }
  }
}
