/** Typed process definitions: their own validator, their graph queries, and agreement with the loose check. */
module Definition {
  import opened Wrappers
  import opened Graph
  import opened Lists
  import Kahn
  import Dag

  datatype StepDef = StepDef(name: string, role: string, prompt: string, maxAttempts: Option<int>)
  datatype Definition = Definition(name: string, steps: seq<StepDef>, edges: seq<Edge<string>>)

  datatype DefinitionError =
    | BadField
    | DuplicateNames
    | UnknownStep(name: string)
    | ContainsCycle
    | SecondCheck(error: Dag.DagError)

  function StepNames(d: Definition): seq<string> {
    seq(|d.steps|, i requires 0 <= i < |d.steps| => d.steps[i].name)
  }

  // ----- Field constraints -----

  predicate IsIdentifier(s: string) {
    && 1 <= |s| <= 64
    && ('a' <= s[0] <= 'z' || 'A' <= s[0] <= 'Z' || s[0] == '_')
    && forall i :: 1 <= i < |s| ==> 'a' <= s[i] <= 'z' || '0' <= s[i] <= '9' || s[i] == '_'
  }

  predicate StepFieldsOk(s: StepDef) {
    && IsIdentifier(s.name) && 1 <= |s.role| <= 16 && 1 <= |s.prompt| <= 32000
    && (s.maxAttempts.Some? ==> 1 <= s.maxAttempts.value <= 20)
  }

  predicate FieldsOk(d: Definition) {
    && 1 <= |d.name| <= 255 && 1 <= |d.steps| <= 50
    && (forall s :: s in d.steps ==> StepFieldsOk(s))
    && forall e :: e in d.edges ==> e.src != "" && e.dst != ""
  }

  ghost predicate Valid(d: Definition) {
    && FieldsOk(d)
    && Distinct(StepNames(d))
    && EndpointsIn(d.edges, Elements(StepNames(d)))
    && Acyclic(d.edges)
  }

  // ----- The typed validator -----

  lemma {:induction false} SetSizeDecidesDistinct<T>(s: seq<T>)
    ensures |Elements(s)| <= |s|
    ensures |Elements(s)| == |s| <==> Distinct(s)
  {
    if s != [] {
      var n := |s| - 1;
      SetSizeDecidesDistinct(s[..n]);
      assert s == s[..n] + [s[n]];
      assert Elements(s) == Elements(s[..n]) + {s[n]};
      if Distinct(s[..n]) && s[n] !in s[..n] {
        assert Distinct(s);
      }
    }
  }

  /** Accepts exactly the valid definitions, whatever order the set of names is walked in. */
  method ValidateDefinition(d: Definition) returns (r: Result<(), DefinitionError>)
    ensures r.Ok? <==> Valid(d)
    ensures r.Err? ==> !r.error.SecondCheck?
    ensures r == Err(BadField) <==> !FieldsOk(d)
    ensures r == Err(DuplicateNames) <==> FieldsOk(d) && !Distinct(StepNames(d))
    ensures r.Err? && r.error.UnknownStep? ==>
              r.error.name !in StepNames(d) && exists e :: e in d.edges && (e.src == r.error.name || e.dst == r.error.name)
    ensures r == Err(ContainsCycle) ==> EndpointsIn(d.edges, Elements(StepNames(d))) && !Acyclic(d.edges)
  {
    if !FieldsOk(d) {
      return Err(BadField);
    }
    var names := set n | n in StepNames(d);
    assert names == Elements(StepNames(d));
    SetSizeDecidesDistinct(StepNames(d));
    if |names| != |d.steps| {
      return Err(DuplicateNames);
    }
    for i := 0 to |d.edges|
      invariant EndpointsIn(d.edges[..i], names)
    {
      assert d.edges[i] in d.edges;
      if d.edges[i].src !in names {
        return Err(UnknownStep(d.edges[i].src));
      }
      if d.edges[i].dst !in names {
        return Err(UnknownStep(d.edges[i].dst));
      }
    }
    assert d.edges[..|d.edges|] == d.edges;
    var tableOrder := Kahn.Enumerate(names);
    var order, _ := Kahn.TopologicalSort(tableOrder, d.edges);
    Kahn.CountsDecideAcyclicity(tableOrder, d.edges, order);
    DistinctSize(tableOrder);
    var visited := |order|;
    if visited != |names| {
      return Err(ContainsCycle);
    }
    r := Ok(());
  }

  // ----- Agreement of the two validators -----

  /** The dictionary form: edges carry the key `from_`, not `from`. */
  function Dump(d: Definition): Dag.RawDefinition {
    Dag.RawDefinition(
      seq(|d.steps|, i requires 0 <= i < |d.steps| => Dag.RawStep(Some(d.steps[i].name))),
      seq(|d.edges|, i requires 0 <= i < |d.edges| => Dag.RawEdge(None, Some(d.edges[i].src), Some(d.edges[i].dst))))
  }

  lemma DumpKeepsNamesAndEdges(d: Definition)
    requires FieldsOk(d)
    ensures Dag.Names(Dump(d)) == StepNames(d)
    ensures Dag.Edges(Dump(d).edges) == d.edges
  {
    forall i | 0 <= i < |d.steps| ensures Dag.Names(Dump(d))[i] == StepNames(d)[i] {
      assert d.steps[i] in d.steps;
      Dag.StripWithoutSpaces(d.steps[i].name);
    }
    forall i | 0 <= i < |d.edges| ensures Dag.Edges(Dump(d).edges)[i] == d.edges[i] {
      assert d.edges[i] in d.edges;
    }
  }

  /** On definitions whose fields pass, both validators accept the same ones. */
  lemma ValidatorsAgree(d: Definition)
    requires FieldsOk(d)
    ensures Valid(d) <==> Dag.WellFormed(Dump(d))
  {
    DumpKeepsNamesAndEdges(d);
    var names := StepNames(d);
    assert "" !in names by {
      forall n | n in names ensures n != "" {
        var i :| 0 <= i < |d.steps| && names[i] == n;
        assert d.steps[i] in d.steps;
      }
    }
    if Valid(d) {
      forall e | e in d.edges ensures Dag.EdgeOk(e, names) {
        if e.src == e.dst {
          ReachesSelf(d.edges, e.src);
          CycleThroughEdge(d.edges, e);
        }
      }
    }
    if Dag.WellFormed(Dump(d)) {
      assert forall e :: e in d.edges ==> Dag.EdgeOk(e, names);
    }
  }

  /** `create_process` runs both checks in turn; the second never rejects what the first accepted. */
  method CheckForCreation(d: Definition) returns (r: Result<Dag.ValidDag, DefinitionError>)
    ensures r.Ok? <==> Valid(d)
    ensures r.Err? ==> !r.error.SecondCheck?
    ensures r.Ok? ==> r.value.edges == d.edges && SourcesFirst(d.edges, r.value.topologicalOrder)
    ensures r.Ok? ==> multiset(r.value.topologicalOrder) == multiset(StepNames(d))
  {
    var typed := ValidateDefinition(d);
    if typed.Err? {
      return Err(typed.error);
    }
    ValidatorsAgree(d);
    DumpKeepsNamesAndEdges(d);
    var loose := Dag.ValidateDag(Dump(d));
    r := match loose
      case Ok(dag) => Ok(dag)
      case Err(e) => Err(SecondCheck(e));
  }

  // ----- Graph queries -----

  /** Sources of the edges into `n`, in edge order, with repeats. */
  function Upstream(edges: seq<Edge<string>>, n: string): (r: seq<string>)
    ensures forall u :: u in r <==> Edge(u, n) in edges
  {
    if edges == [] then []
    else
      var front, last := edges[..|edges| - 1], edges[|edges| - 1];
      assert edges == front + [last];
      Upstream(front, n) + if last.dst == n then [last.src] else []
  }

  /** Targets of the edges out of `n`, in edge order, with repeats. */
  function Downstream(edges: seq<Edge<string>>, n: string): (r: seq<string>)
    ensures forall t :: t in r <==> Edge(n, t) in edges
  {
    if edges == [] then []
    else
      var front, last := edges[..|edges| - 1], edges[|edges| - 1];
      assert edges == front + [last];
      Downstream(front, n) + if last.src == n then [last.dst] else []
  }

  ghost predicate IsFirstNamed(steps: seq<StepDef>, name: string, i: nat) {
    i < |steps| && steps[i].name == name && forall j :: 0 <= j < i ==> steps[j].name != name
  }

  /** Both queries go through the edges in order. */
  lemma {:induction false} QueriesFollowEdgeOrder(a: seq<Edge<string>>, b: seq<Edge<string>>, n: string)
    ensures Upstream(a + b, n) == Upstream(a, n) + Upstream(b, n)
    ensures Downstream(a + b, n) == Downstream(a, n) + Downstream(b, n)
  {
    if b == [] {
      assert a + b == a;
    } else {
      assert (a + b)[..|a + b| - 1] == a + b[..|b| - 1];
      QueriesFollowEdgeOrder(a, b[..|b| - 1], n);
    }
  }

  /** Both queries repeat a name as often as the edge is repeated. */
  lemma {:induction false} QueriesCountEdges(edges: seq<Edge<string>>, n: string, other: string)
    ensures multiset(Upstream(edges, n))[other] == multiset(edges)[Edge(other, n)]
    ensures multiset(Downstream(edges, n))[other] == multiset(edges)[Edge(n, other)]
  {
    if edges != [] {
      var front, last := edges[..|edges| - 1], edges[|edges| - 1];
      assert edges == front + [last];
      QueriesCountEdges(front, n, other);
    }
  }

  /** The first step definition with that name. */
  function StepByName(d: Definition, name: string): (r: Option<StepDef>)
    ensures r.Some? <==> name in StepNames(d)
    ensures r.Some? ==> r.value in d.steps && r.value.name == name
    ensures r.Some? ==> exists i: nat :: IsFirstNamed(d.steps, name, i) && d.steps[i] == r.value
  {
    assert name in StepNames(d) <==> exists s :: s in d.steps && s.name == name by {
      assert forall i :: 0 <= i < |d.steps| ==> StepNames(d)[i] == d.steps[i].name;
      if s :| s in d.steps && s.name == name {
        var i :| 0 <= i < |d.steps| && d.steps[i] == s;
        assert StepNames(d)[i] == name;
      }
    }
    FirstNamed(d.steps, name)
  }

  function FirstNamed(steps: seq<StepDef>, name: string): (r: Option<StepDef>)
    ensures r.Some? <==> exists s :: s in steps && s.name == name
    ensures r.Some? ==> r.value in steps && r.value.name == name
    ensures r.Some? ==> exists i: nat :: IsFirstNamed(steps, name, i) && steps[i] == r.value
  {
    if steps == [] then None
    else if steps[0].name == name then
      assert IsFirstNamed(steps, name, 0);
      Some(steps[0])
    else
      var r := FirstNamed(steps[1..], name);
      assert forall i: nat :: IsFirstNamed(steps[1..], name, i) ==> IsFirstNamed(steps, name, i + 1);
      r
  }

  predicate IsRoot(d: Definition, n: string) {
    n in StepNames(d) && forall e :: e in d.edges ==> e.dst != n
  }

  function RootSteps(d: Definition): (r: seq<string>)
    ensures forall n :: n in r <==> IsRoot(d, n)
  {
    Filter(StepNames(d), (n: string) => forall e :: e in d.edges ==> e.dst != n)
  }

  ghost predicate BelowRoot(d: Definition, n: string) {
    exists r :: IsRoot(d, r) && Reaches(d.edges, r, n)
  }

  /** Every step of a valid definition is reached from a root step, so there is something to start. */
  lemma EveryStepIsBelowARoot(d: Definition, n: string)
    requires Valid(d) && n in StepNames(d)
    ensures BelowRoot(d, n)
  {
    if !BelowRoot(d, n) {
      var stuck := set m | m in StepNames(d) && !BelowRoot(d, m);
      forall m | m in stuck ensures HasSourceIn(d.edges, stuck, m) {
        if IsRoot(d, m) {
          ReachesSelf(d.edges, m);
          assert false;
        }
        var e :| e in d.edges && e.dst == m;
        if BelowRoot(d, e.src) {
          var r :| IsRoot(d, r) && Reaches(d.edges, r, e.src);
          ReachesEdge(d.edges, e);
          ReachesTransitive(d.edges, r, e.src, m);
          assert false;
        }
        assert e.src in stuck;
      }
      StuckIsBehindCycle(d.edges, stuck, n);
      assert false;
    }
  }
}
