/** Directed multigraphs as sequences of edges: walks, reachability, cycles. */
module Graph {

  datatype Edge<V> = Edge(src: V, dst: V)

  ghost predicate Distinct<T>(s: seq<T>) {
    forall i, j :: 0 <= i < j < |s| ==> s[i] != s[j]
  }

  ghost function Elements<T>(s: seq<T>): set<T> {
    set x | x in s
  }

  /** `p` lists the vertices of a walk; a single vertex is a walk of length 0. */
  ghost predicate IsWalk<V>(edges: seq<Edge<V>>, p: seq<V>) {
    && |p| > 0
    && forall i :: 0 <= i < |p| - 1 ==> Edge(p[i], p[i + 1]) in edges
  }

  ghost predicate WalkFromTo<V>(edges: seq<Edge<V>>, p: seq<V>, u: V, v: V) {
    IsWalk(edges, p) && p[0] == u && p[|p| - 1] == v
  }

  /** `v` can be reached from `u` by zero or more edges. */
  ghost predicate Reaches<V(!new)>(edges: seq<Edge<V>>, u: V, v: V) {
    exists p :: WalkFromTo(edges, p, u, v)
  }

  /** `v` can be reached from itself by one or more edges. */
  ghost predicate OnCycle<V(!new)>(edges: seq<Edge<V>>, v: V) {
    exists p :: WalkFromTo(edges, p, v, v) && |p| >= 2
  }

  ghost predicate Acyclic<V(!new)>(edges: seq<Edge<V>>) {
    forall v :: !OnCycle(edges, v)
  }

  /** `v` lies on a cycle or downstream of one. */
  ghost predicate BehindCycle<V(!new)>(edges: seq<Edge<V>>, v: V) {
    exists c :: OnCycle(edges, c) && Reaches(edges, c, v)
  }

  ghost predicate EndpointsIn<V>(edges: seq<Edge<V>>, nodes: set<V>) {
    forall e :: e in edges ==> e.src in nodes && e.dst in nodes
  }

  lemma ConcatWalks<V>(edges: seq<Edge<V>>, p: seq<V>, q: seq<V>)
    requires IsWalk(edges, p) && IsWalk(edges, q) && p[|p| - 1] == q[0]
    ensures IsWalk(edges, p + q[1..])
    ensures (p + q[1..])[|p + q[1..]| - 1] == q[|q| - 1]
  {
    var r := p + q[1..];
    forall i | 0 <= i < |r| - 1 ensures Edge(r[i], r[i + 1]) in edges {
      if i < |p| - 1 {
        assert Edge(p[i], p[i + 1]) in edges;
      } else {
        assert r[i] == q[i - |p| + 1] && r[i + 1] == q[i - |p| + 2];
      }
    }
  }

  lemma ReachesTransitive<V(!new)>(edges: seq<Edge<V>>, u: V, v: V, w: V)
    requires Reaches(edges, u, v) && Reaches(edges, v, w)
    ensures Reaches(edges, u, w)
  {
    var p :| WalkFromTo(edges, p, u, v);
    var q :| WalkFromTo(edges, q, v, w);
    ConcatWalks(edges, p, q);
    assert WalkFromTo(edges, p + q[1..], u, w);
  }

  lemma ReachesEdge<V(!new)>(edges: seq<Edge<V>>, e: Edge<V>)
    requires e in edges
    ensures Reaches(edges, e.src, e.dst)
  {
    assert WalkFromTo(edges, [e.src, e.dst], e.src, e.dst);
  }

  lemma ReachesSelf<V(!new)>(edges: seq<Edge<V>>, v: V)
    ensures Reaches(edges, v, v)
  {
    assert WalkFromTo(edges, [v], v, v);
  }

  /** A vertex that reaches itself through an edge out of it lies on a cycle. */
  lemma CycleThroughEdge<V(!new)>(edges: seq<Edge<V>>, e: Edge<V>)
    requires e in edges && Reaches(edges, e.dst, e.src)
    ensures OnCycle(edges, e.src)
  {
    var p :| WalkFromTo(edges, p, e.dst, e.src);
    ConcatWalks(edges, [e.src, e.dst], p);
    assert WalkFromTo(edges, [e.src, e.dst] + p[1..], e.src, e.src);
  }

  lemma SubgraphWalk<V>(small: seq<Edge<V>>, big: seq<Edge<V>>, p: seq<V>)
    requires forall e :: e in small ==> e in big
    requires IsWalk(small, p)
    ensures IsWalk(big, p)
  {
  }

  /** Dropping edges cannot create a cycle. */
  lemma SubgraphAcyclic<V(!new)>(small: seq<Edge<V>>, big: seq<Edge<V>>)
    requires forall e :: e in small ==> e in big
    requires Acyclic(big)
    ensures Acyclic(small)
  {
    forall v | OnCycle(small, v) ensures false {
      var p :| WalkFromTo(small, p, v, v) && |p| >= 2;
      SubgraphWalk(small, big, p);
      assert WalkFromTo(big, p, v, v);
      assert OnCycle(big, v);
    }
  }

  /** More positions than values: some value repeats. */
  lemma {:induction false} Pigeonhole<V>(p: seq<V>, vals: set<V>)
    requires forall i :: 0 <= i < |p| ==> p[i] in vals
    requires |p| > |vals|
    ensures exists i, j :: 0 <= i < j < |p| && p[i] == p[j]
  {
    var x := p[0];
    if exists j :: 0 < j < |p| && p[j] == x {
    } else {
      forall i | 0 <= i < |p[1..]| ensures p[1..][i] in vals - {x} {
        assert p[1..][i] == p[i + 1];
      }
      Pigeonhole(p[1..], vals - {x});
      var i, j :| 0 <= i < j < |p[1..]| && p[1..][i] == p[1..][j];
      assert p[i + 1] == p[j + 1];
    }
  }

  lemma {:induction false} DistinctSize<T>(s: seq<T>)
    requires Distinct(s)
    ensures |Elements(s)| == |s|
  {
    if s != [] {
      var n := |s| - 1;
      DistinctSize(s[..n]);
      assert s == s[..n] + [s[n]];
      assert Elements(s) == Elements(s[..n]) + {s[n]};
    }
  }

  ghost predicate HasSourceIn<V>(edges: seq<Edge<V>>, stuck: set<V>, v: V) {
    exists e :: e in edges && e.dst == v && e.src in stuck
  }

  /** Walking backwards inside a set in which every vertex has a predecessor. */
  lemma {:induction false} BackwardWalk<V>(edges: seq<Edge<V>>, stuck: set<V>, v: V, n: nat) returns (p: seq<V>)
    requires v in stuck
    requires forall u :: u in stuck ==> HasSourceIn(edges, stuck, u)
    ensures IsWalk(edges, p) && |p| == n + 1 && p[n] == v
    ensures forall i :: 0 <= i < |p| ==> p[i] in stuck
  {
    if n == 0 {
      p := [v];
    } else {
      var e :| e in edges && e.dst == v && e.src in stuck;
      var q := BackwardWalk(edges, stuck, e.src, n - 1);
      p := q + [v];
      forall i | 0 <= i < |p| - 1 ensures Edge(p[i], p[i + 1]) in edges {
        if i < |q| - 1 {
          assert Edge(q[i], q[i + 1]) in edges;
        } else {
          assert Edge(p[i], p[i + 1]) == e;
        }
      }
    }
  }

  lemma SliceOfWalk<V>(edges: seq<Edge<V>>, p: seq<V>, i: nat, j: nat)
    requires IsWalk(edges, p) && i < j <= |p|
    ensures IsWalk(edges, p[i..j])
  {
    var r := p[i..j];
    forall k | 0 <= k < |r| - 1 ensures Edge(r[k], r[k + 1]) in edges {
      assert Edge(p[i + k], p[i + k + 1]) in edges;
    }
  }

  /** A walk that visits a vertex twice ends behind a cycle. */
  lemma RepeatIsCycle<V(!new)>(edges: seq<Edge<V>>, p: seq<V>, i: nat, j: nat)
    requires IsWalk(edges, p) && i < j < |p| && p[i] == p[j]
    ensures BehindCycle(edges, p[|p| - 1])
  {
    SliceOfWalk(edges, p, i, j + 1);
    assert WalkFromTo(edges, p[i..j + 1], p[i], p[i]) && |p[i..j + 1]| >= 2;
    SliceOfWalk(edges, p, i, |p|);
    assert WalkFromTo(edges, p[i..|p|], p[i], p[|p| - 1]);
    assert OnCycle(edges, p[i]) && Reaches(edges, p[i], p[|p| - 1]);
  }

  /** In a finite set where every vertex has a predecessor, every vertex is behind a cycle. */
  lemma StuckIsBehindCycle<V(!new)>(edges: seq<Edge<V>>, stuck: set<V>, v: V)
    requires v in stuck
    requires forall u :: u in stuck ==> HasSourceIn(edges, stuck, u)
    ensures BehindCycle(edges, v)
  {
    var p := BackwardWalk(edges, stuck, v, |stuck|);
    Pigeonhole(p, stuck);
    var i, j :| 0 <= i < j < |p| && p[i] == p[j];
    RepeatIsCycle(edges, p, i, j);
  }

  /** Every edge into a listed vertex comes from a vertex listed earlier. */
  ghost predicate SourcesFirst<V>(edges: seq<Edge<V>>, order: seq<V>) {
    forall e, j :: e in edges && 0 <= j < |order| && order[j] == e.dst ==> e.src in order[..j]
  }

  /** Following a walk backwards from a listed vertex stays in the list and moves to smaller positions. */
  lemma {:induction false} WalkIntoOrder<V>(edges: seq<Edge<V>>, order: seq<V>, p: seq<V>, j: nat) returns (i: nat)
    requires SourcesFirst(edges, order) && IsWalk(edges, p)
    requires j < |order| && order[j] == p[|p| - 1]
    ensures i <= j && order[i] == p[0]
    ensures |p| >= 2 ==> i < j
    decreases |p|
  {
    if |p| == 1 {
      i := j;
    } else {
      var n := |p| - 1;
      assert Edge(p[n - 1], p[n]) in edges;
      var k :| 0 <= k < j && order[k] == p[n - 1];
      i := WalkIntoOrder(edges, order, p[..n], k);
    }
  }

  /** A vertex of a sources-first list without repeats is not behind any cycle. */
  lemma OrderedIsNotBehindCycle<V(!new)>(edges: seq<Edge<V>>, order: seq<V>, v: V)
    requires Distinct(order) && SourcesFirst(edges, order) && v in order
    ensures !BehindCycle(edges, v)
  {
    if BehindCycle(edges, v) {
      var c :| OnCycle(edges, c) && Reaches(edges, c, v);
      var p :| WalkFromTo(edges, p, c, v);
      var q :| WalkFromTo(edges, q, c, c) && |q| >= 2;
      var j :| 0 <= j < |order| && order[j] == v;
      var i := WalkIntoOrder(edges, order, p, j);
      var k := WalkIntoOrder(edges, order, q, i);
      assert false;
    }
  }

  /** A cycle is behind itself, so a graph has a cycle exactly when some vertex is behind one. */
  lemma OnCycleIsBehindCycle<V(!new)>(edges: seq<Edge<V>>, v: V)
    requires OnCycle(edges, v)
    ensures BehindCycle(edges, v)
  {
    ReachesSelf(edges, v);
  }

  lemma AcyclicHasNothingBehind<V(!new)>(edges: seq<Edge<V>>, v: V)
    requires Acyclic(edges)
    ensures !BehindCycle(edges, v)
  {
  }

  /** A vertex behind a cycle is the target of an edge. */
  lemma BehindCycleHasEdge<V(!new)>(edges: seq<Edge<V>>, v: V)
    requires BehindCycle(edges, v)
    ensures exists e :: e in edges && e.dst == v
  {
    var c :| OnCycle(edges, c) && Reaches(edges, c, v);
    var p :| WalkFromTo(edges, p, c, v);
    if |p| >= 2 {
      assert Edge(p[|p| - 2], p[|p| - 1]) in edges;
    } else {
      var q :| WalkFromTo(edges, q, c, c) && |q| >= 2;
      assert Edge(q[|q| - 2], q[|q| - 1]) in edges;
    }
  }
}
