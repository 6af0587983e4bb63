/** Kahn's algorithm: the loop shared by the definition validators and the task-dependency check. */
module Kahn {
  import opened Graph

  /** Targets of the edges that leave `v`, in edge order, with repeats. */
  ghost function Targets<V>(edges: seq<Edge<V>>, v: V): seq<V> {
    if edges == [] then []
    else
      var last := edges[|edges| - 1];
      Targets(edges[..|edges| - 1], v) + if last.src == v then [last.dst] else []
  }

  /** Number of edges into `v` whose source is not in `done`, counted with repeats. */
  ghost function OpenInEdges<V>(edges: seq<Edge<V>>, done: set<V>, v: V): nat {
    if edges == [] then 0
    else
      var last := edges[|edges| - 1];
      OpenInEdges(edges[..|edges| - 1], done, v) + if last.dst == v && last.src !in done then 1 else 0
  }

  lemma {:induction false} CloseSource<V>(edges: seq<Edge<V>>, done: set<V>, u: V, v: V)
    requires u !in done
    ensures OpenInEdges(edges, done, v) == OpenInEdges(edges, done + {u}, v) + multiset(Targets(edges, u))[v]
  {
    if edges != [] {
      CloseSource(edges[..|edges| - 1], done, u, v);
    }
  }

  lemma {:induction false} NoOpenInEdges<V>(edges: seq<Edge<V>>, done: set<V>, v: V)
    ensures OpenInEdges(edges, done, v) == 0 <==> forall e :: e in edges && e.dst == v ==> e.src in done
  {
    if edges != [] {
      var front := edges[..|edges| - 1];
      NoOpenInEdges(front, done, v);
      assert edges == front + [edges[|edges| - 1]];
    }
  }

  lemma {:induction false} TargetsAreNodes<V>(edges: seq<Edge<V>>, nodes: set<V>, v: V)
    requires EndpointsIn(edges, nodes)
    ensures forall t :: t in Targets(edges, v) ==> t in nodes
  {
    if edges != [] {
      TargetsAreNodes(edges[..|edges| - 1], nodes, v);
    }
  }

  /** The in-degree table and adjacency lists that the loop starts from. */
  method BuildTables<V(==)>(nodes: seq<V>, edges: seq<Edge<V>>) returns (inDegree: map<V, int>, adjacency: map<V, seq<V>>)
    requires EndpointsIn(edges, Elements(nodes))
    ensures inDegree.Keys == adjacency.Keys == Elements(nodes)
    ensures forall v :: v in nodes ==> inDegree[v] == OpenInEdges(edges, {}, v)
    ensures forall v :: v in nodes ==> adjacency[v] == Targets(edges, v)
  {
    inDegree := map v | v in nodes :: 0;
    adjacency := map v | v in nodes :: [];
    for i := 0 to |edges|
      invariant inDegree.Keys == adjacency.Keys == Elements(nodes)
      invariant forall v :: v in nodes ==> inDegree[v] == OpenInEdges(edges[..i], {}, v)
      invariant forall v :: v in nodes ==> adjacency[v] == Targets(edges[..i], v)
    {
      var e := edges[i];
      assert edges[..i + 1][..i] == edges[..i];
      inDegree := inDegree[e.dst := inDegree[e.dst] + 1];
      adjacency := adjacency[e.src := adjacency[e.src] + [e.dst]];
    }
    assert edges[..|edges|] == edges;
  }

  /** Each in-degree counts the edges from vertices not yet done, plus the decrements still `pending`. */
  ghost predicate Counts<V>(nodes: seq<V>, edges: seq<Edge<V>>, done: set<V>, pending: multiset<V>, inDegree: map<V, int>) {
    && inDegree.Keys == Elements(nodes)
    && forall v :: v in nodes ==> inDegree[v] == OpenInEdges(edges, done, v) + pending[v]
  }

  /** `listed` has, once each, the vertices with no open edge into them. */
  ghost predicate ListsReady<V>(nodes: seq<V>, inDegree: map<V, int>, listed: seq<V>) {
    && inDegree.Keys == Elements(nodes)
    && Distinct(listed)
    && (forall v :: v in listed ==> v in nodes)
    && forall v :: v in nodes ==> (inDegree[v] == 0 <==> v in listed)
  }

  /** What the loop knows between two vertices: `order` is done, `queue` is ready, the rest still waits. */
  ghost predicate LoopInv<V>(nodes: seq<V>, edges: seq<Edge<V>>, inDegree: map<V, int>, order: seq<V>, queue: seq<V>) {
    && Counts(nodes, edges, Elements(order), multiset{}, inDegree)
    && ListsReady(nodes, inDegree, order + queue)
    && SourcesFirst(edges, order)
  }

  /** Taking the front of the queue: it is new, its sources are done, its targets are owed a decrement. */
  lemma VisitFront<V>(nodes: seq<V>, edges: seq<Edge<V>>, inDegree: map<V, int>, order: seq<V>, queue: seq<V>)
    requires LoopInv(nodes, edges, inDegree, order, queue) && queue != []
    ensures queue[0] in nodes && queue[0] !in order
    ensures SourcesFirst(edges, order + [queue[0]])
    ensures Counts(nodes, edges, Elements(order + [queue[0]]), multiset(Targets(edges, queue[0])), inDegree)
    ensures ListsReady(nodes, inDegree, (order + [queue[0]]) + queue[1..])
  {
    var node := queue[0];
    var all := order + queue;
    assert all[|order|] == node;
    assert node !in order by {
      forall i | 0 <= i < |order| ensures order[i] != node {
        assert all[i] != all[|order|];
      }
    }
    NoOpenInEdges(edges, Elements(order), node);
    AppendSourcesFirst(edges, order, node);
    assert Elements(order + [node]) == Elements(order) + {node};
    forall v ensures OpenInEdges(edges, Elements(order), v) == OpenInEdges(edges, Elements(order) + {node}, v) + multiset(Targets(edges, node))[v] {
      CloseSource(edges, Elements(order), node, v);
    }
    assert (order + [node]) + queue[1..] == all;
  }

  lemma AppendSourcesFirst<V>(edges: seq<Edge<V>>, order: seq<V>, node: V)
    requires SourcesFirst(edges, order)
    requires forall e :: e in edges && e.dst == node ==> e.src in Elements(order)
    ensures SourcesFirst(edges, order + [node])
  {
    var next := order + [node];
    forall e, j | e in edges && 0 <= j < |next| && next[j] == e.dst
      ensures e.src in next[..j]
    {
      if j < |order| {
        assert next[..j] == order[..j];
      } else {
        assert next[..j] == order;
      }
    }
  }

  /** One decrement; a vertex whose count drops to zero joins the list. */
  lemma DecrementOne<V>(nodes: seq<V>, edges: seq<Edge<V>>, done: set<V>, pending: multiset<V>, inDegree: map<V, int>, listed: seq<V>, next: V)
    requires Counts(nodes, edges, done, pending, inDegree) && ListsReady(nodes, inDegree, listed)
    requires next in nodes && pending[next] > 0
    ensures var after := inDegree[next := inDegree[next] - 1];
            && Counts(nodes, edges, done, pending - multiset{next}, after)
            && ListsReady(nodes, after, if after[next] == 0 then listed + [next] else listed)
  {
    assert inDegree[next] > 0 && next !in listed;
  }

  /** The loop ends with an order that has exactly the vertices not behind a cycle. */
  lemma AtEnd<V(!new)>(nodes: seq<V>, edges: seq<Edge<V>>, inDegree: map<V, int>, order: seq<V>)
    requires EndpointsIn(edges, Elements(nodes))
    requires LoopInv(nodes, edges, inDegree, order, [])
    ensures forall v :: v in order ==> v in nodes
    ensures forall v :: v in nodes ==> (v in order <==> !BehindCycle(edges, v))
    ensures forall v :: v in nodes ==> (inDegree[v] > 0 <==> BehindCycle(edges, v))
  {
    assert order + [] == order;
    var stuck := Elements(nodes) - Elements(order);
    forall v | v in stuck ensures HasSourceIn(edges, stuck, v) {
      NoOpenInEdges(edges, Elements(order), v);
    }
    forall v | v in nodes ensures v in order <==> !BehindCycle(edges, v) {
      if v in order {
        OrderedIsNotBehindCycle(edges, order, v);
      } else {
        StuckIsBehindCycle(edges, stuck, v);
      }
    }
  }

  lemma RelaxStep<V>(nodes: seq<V>, edges: seq<Edge<V>>, order: seq<V>, targets: seq<V>, j: nat,
                     inDegree: map<V, int>, queue: seq<V>)
    requires j < |targets| && targets[j] in nodes
    requires Counts(nodes, edges, Elements(order), multiset(targets[j..]), inDegree) && ListsReady(nodes, inDegree, order + queue)
    ensures var next := targets[j];
            var after := inDegree[next := inDegree[next] - 1];
            && Counts(nodes, edges, Elements(order), multiset(targets[j + 1..]), after)
            && ListsReady(nodes, after, order + if after[next] == 0 then queue + [next] else queue)
  {
    hide OpenInEdges, ListsReady;
    DropFirst(targets, j);
    AppendLast(order, queue, targets[j]);
    DecrementOne(nodes, edges, Elements(order), multiset(targets[j..]), inDegree, order + queue, targets[j]);
  }

  lemma DropFirst<V>(s: seq<V>, j: nat)
    requires j < |s|
    ensures multiset(s[j..])[s[j]] > 0
    ensures multiset(s[j..]) - multiset{s[j]} == multiset(s[j + 1..])
  {
    assert s[j..] == [s[j]] + s[j + 1..];
  }

  lemma AppendLast<V>(s: seq<V>, t: seq<V>, x: V)
    ensures s + (t + [x]) == (s + t) + [x]
  {
  }

  /** One pass over the adjacency list of the vertex just taken from the queue. */
  method Relax<V(==)>(ghost nodes: seq<V>, ghost edges: seq<Edge<V>>, ghost order: seq<V>, targets: seq<V>,
                      inDegree0: map<V, int>, queue0: seq<V>)
    returns (inDegree: map<V, int>, queue: seq<V>)
    requires forall t :: t in targets ==> t in nodes
    requires Counts(nodes, edges, Elements(order), multiset(targets), inDegree0)
    requires ListsReady(nodes, inDegree0, order + queue0)
    ensures Counts(nodes, edges, Elements(order), multiset{}, inDegree)
    ensures ListsReady(nodes, inDegree, order + queue)
  {
    hide OpenInEdges, ListsReady;
    inDegree, queue := inDegree0, queue0;
    assert targets[0..] == targets;
    for j := 0 to |targets|
      invariant Counts(nodes, edges, Elements(order), multiset(targets[j..]), inDegree)
      invariant ListsReady(nodes, inDegree, order + queue)
    {
      var next := targets[j];
      RelaxStep(nodes, edges, order, targets, j, inDegree, queue);
      inDegree := inDegree[next := inDegree[next] - 1];
      if inDegree[next] == 0 {
        queue := queue + [next];
      }
    }
    assert multiset(targets[|targets|..]) == multiset{};
  }

  /** The vertices without edges into them, in table order. */
  method InitialQueue<V(==)>(nodes: seq<V>, inDegree: map<V, int>) returns (queue: seq<V>)
    requires Distinct(nodes) && inDegree.Keys == Elements(nodes)
    ensures ListsReady(nodes, inDegree, queue)
  {
    queue := [];
    for i := 0 to |nodes|
      invariant Distinct(queue)
      invariant forall v :: v in queue <==> v in nodes[..i] && inDegree[v] == 0
    {
      if inDegree[nodes[i]] == 0 {
        assert nodes[i] !in nodes[..i];
        queue := queue + [nodes[i]];
      }
    }
  }

  /**
   * The main loop. `nodes` is the order in which the in-degree table is filled, so it is also
   * the order of the initial queue. The result lists exactly the vertices that no cycle leads to,
   * each after all its sources; the final in-degrees are positive exactly on the other vertices.
   */
  method TopologicalSort<V(==, !new)>(nodes: seq<V>, edges: seq<Edge<V>>) returns (order: seq<V>, inDegree: map<V, int>)
    requires Distinct(nodes) && EndpointsIn(edges, Elements(nodes))
    ensures Distinct(order) && SourcesFirst(edges, order)
    ensures forall v :: v in order <==> v in nodes && !BehindCycle(edges, v)
    ensures inDegree.Keys == Elements(nodes)
    ensures forall v :: v in nodes ==> (inDegree[v] > 0 <==> BehindCycle(edges, v))
  {
    hide OpenInEdges, Targets, BehindCycle;
    var adjacency;
    inDegree, adjacency := BuildTables(nodes, edges);
    var queue := InitialQueue(nodes, inDegree);
    order := [];
    assert [] + queue == queue && Elements<V>([]) == {};
    while queue != []
      invariant LoopInv(nodes, edges, inDegree, order, queue)
      decreases Elements(nodes) - Elements(order)
    {
      var node := queue[0];
      VisitFront(nodes, edges, inDegree, order, queue);
      TargetsAreNodes(edges, Elements(nodes), node);
      ghost var before := order;
      order, queue := order + [node], queue[1..];
      assert node in Elements(nodes) - Elements(before) && Elements(order) == Elements(before) + {node};
      inDegree, queue := Relax(nodes, edges, order, adjacency[node], inDegree, queue);
    }
    AtEnd(nodes, edges, inDegree, order);
    assert order + [] == order;
  }

  /** A set lists its members in an order of its own. */
  method Enumerate<T(==)>(s: set<T>) returns (r: seq<T>)
    ensures Distinct(r) && Elements(r) == s
  {
    r := [];
    var rest := s;
    while rest != {}
      invariant Distinct(r) && rest <= s && Elements(r) == s - rest
    {
      var x :| x in rest;
      assert Elements(r + [x]) == Elements(r) + {x};
      r, rest := r + [x], rest - {x};
    }
  }

  /** The validators' test: the order has as many entries as there are vertices exactly when there is no cycle. */
  lemma CountsDecideAcyclicity<V(!new)>(nodes: seq<V>, edges: seq<Edge<V>>, order: seq<V>)
    requires Distinct(nodes) && EndpointsIn(edges, Elements(nodes)) && Distinct(order)
    requires forall v :: v in order <==> v in nodes && !BehindCycle(edges, v)
    ensures |order| == |nodes| <==> Acyclic(edges)
  {
    DistinctSize(nodes);
    DistinctSize(order);
    assert Elements(order) <= Elements(nodes);
    if |order| == |nodes| {
      SubsetOfSameSize(Elements(order), Elements(nodes));
      assert forall v :: v in nodes ==> v in Elements(order);
      forall v | OnCycle(edges, v) ensures false {
        OnCycleIsBehindCycle(edges, v);
        BehindCycleHasEdge(edges, v);
      }
    } else {
      assert Elements(nodes) != Elements(order);
      var v :| v in Elements(nodes) && v !in Elements(order);
      assert BehindCycle(edges, v);
    }
  }

  lemma SubsetOfSameSize<V>(a: set<V>, b: set<V>)
    requires a <= b && |a| == |b|
    ensures a == b
  {
    assert b == a + (b - a);
  }
}
