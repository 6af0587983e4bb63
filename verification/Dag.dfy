/** The structural check of a process definition that arrives as loosely typed data. */
module Dag {
  import opened Wrappers
  import opened Graph
  import opened Lists
  import Kahn

  /** A step and an edge as dictionaries: `None` is a missing key. */
  datatype RawStep = RawStep(name: Option<string>)
  datatype RawEdge = RawEdge(from: Option<string>, from_: Option<string>, to: Option<string>)
  datatype RawDefinition = RawDefinition(steps: seq<RawStep>, edges: seq<RawEdge>)

  datatype DagError =
    | EmptyName
    | DuplicateName(name: string)
    | MissingEndpoint
    | UnknownStep(name: string)
    | SelfLoop(name: string)
    | Cycle(involved: set<string>)

  datatype ValidDag = ValidDag(edges: seq<Edge<string>>, topologicalOrder: seq<string>)

  // ----- str.strip -----

  predicate IsSpace(c: char) {
    || '\U{9}' <= c <= '\U{d}' || '\U{1c}' <= c <= '\U{20}' || c == '\U{85}' || c == '\U{a0}'
    || c == '\U{1680}' || '\U{2000}' <= c <= '\U{200a}'
    || c == '\U{2028}' || c == '\U{2029}' || c == '\U{202f}' || c == '\U{205f}' || c == '\U{3000}'
  }

  function Strip(s: string): string {
    if s == "" then ""
    else if IsSpace(s[0]) then Strip(s[1..])
    else if IsSpace(s[|s| - 1]) then Strip(s[..|s| - 1])
    else s
  }

  /** Only whitespace goes, and none is left at either end. */
  lemma {:induction false} StripTrims(s: string) returns (front: string, rest: string)
    ensures s == front + Strip(s) + rest
    ensures forall c :: c in front || c in rest ==> IsSpace(c)
    ensures Strip(s) != "" ==> !IsSpace(Strip(s)[0]) && !IsSpace(Strip(s)[|Strip(s)| - 1])
    decreases |s|
  {
    hide IsSpace;
    front, rest := "", "";
    if s != "" && IsSpace(s[0]) {
      front, rest := StripTrims(s[1..]);
      front := [s[0]] + front;
    } else if s != "" && IsSpace(s[|s| - 1]) {
      front, rest := StripTrims(s[..|s| - 1]);
      rest := rest + [s[|s| - 1]];
    }
  }

  lemma {:induction false} StripWithoutSpaces(s: string)
    requires forall c :: c in s ==> !IsSpace(c)
    ensures Strip(s) == s
  {
    if s != "" {
      assert s[0] in s && s[|s| - 1] in s;
    }
  }

  // ----- Normalised views -----

  function NameOf(step: RawStep): string {
    match step.name
    case None => Strip("")
    case Some(n) => Strip(n)
  }

  function Or(first: Option<string>, second: string): string {
    if first.Some? && first.value != "" then first.value else second
  }

  /** The endpoint strings the check works with; the empty string stands for a missing one. */
  function SourceOf(edge: RawEdge): (s: string)
    ensures edge.from.Some? && edge.from.value != "" ==> s == edge.from.value
    ensures edge.from in {None, Some("")} && edge.from_.Some? ==> s == edge.from_.value
    ensures edge.from in {None, Some("")} && edge.from_.None? ==> s == ""
  {
    Or(edge.from, Or(edge.from_, ""))
  }

  function TargetOf(edge: RawEdge): string {
    Or(edge.to, "")
  }

  function Names(d: RawDefinition): seq<string> {
    seq(|d.steps|, i requires 0 <= i < |d.steps| => NameOf(d.steps[i]))
  }

  function Edges(edges: seq<RawEdge>): seq<Edge<string>> {
    seq(|edges|, i requires 0 <= i < |edges| => Edge(SourceOf(edges[i]), TargetOf(edges[i])))
  }

  // ----- What a valid definition is -----

  ghost predicate NamesOk(names: seq<string>) {
    "" !in names && Distinct(names)
  }

  ghost predicate EdgeOk(e: Edge<string>, names: seq<string>) {
    e.src != "" && e.dst != "" && e.src in names && e.dst in names && e.src != e.dst
  }

  ghost predicate EdgesOk(edges: seq<Edge<string>>, names: seq<string>) {
    forall e :: e in edges ==> EdgeOk(e, names)
  }

  ghost predicate WellFormed(d: RawDefinition) {
    NamesOk(Names(d)) && EdgesOk(Edges(d.edges), Names(d)) && Acyclic(Edges(d.edges))
  }

  /** What each rejection tells about the definition. */
  ghost predicate Justified(d: RawDefinition, error: DagError) {
    var names := Names(d);
    var edges := Edges(d.edges);
    match error
    case EmptyName => "" in names
    case DuplicateName(n) => exists i, j :: 0 <= i < j < |names| && names[i] == names[j] == n
    case MissingEndpoint => NamesOk(names) && exists e :: e in edges && (e.src == "" || e.dst == "")
    case UnknownStep(n) => NamesOk(names) && n !in names && exists e :: e in edges && (e.src == n || e.dst == n)
    case SelfLoop(n) => NamesOk(names) && n in names && Edge(n, n) in edges
    case Cycle(involved) =>
      && NamesOk(names) && EdgesOk(edges, names) && !Acyclic(edges) && involved != {}
      && (forall n :: n in involved <==> n in names && BehindCycle(edges, n))
  }

  lemma JustifiedMeansInvalid(d: RawDefinition, error: DagError)
    requires Justified(d, error)
    ensures !WellFormed(d)
  {
    if error.SelfLoop? {
      assert !EdgeOk(Edge(error.name, error.name), Names(d));
    }
  }

  // ----- The checks -----

  method CheckNames(steps: seq<RawStep>) returns (r: Result<seq<string>, DagError>)
    ensures r.Ok? <==> NamesOk(Names(RawDefinition(steps, [])))
    ensures r.Ok? ==> r.value == Names(RawDefinition(steps, []))
    ensures r.Err? ==> forall edges :: Justified(RawDefinition(steps, edges), r.error)
  {
    ghost var names := Names(RawDefinition(steps, []));
    var stepNames, seenNames := [], {};
    for i := 0 to |steps|
      invariant stepNames == names[..i] && NamesOk(stepNames)
      invariant seenNames == Elements(stepNames)
    {
      var name := NameOf(steps[i]);
      assert name == names[i];
      if name == "" {
        forall edges ensures Justified(RawDefinition(steps, edges), EmptyName) {
          assert Names(RawDefinition(steps, edges)) == names;
        }
        return Err(EmptyName);
      }
      if name in seenNames {
        ghost var k :| 0 <= k < i && names[k] == name;
        forall edges ensures Justified(RawDefinition(steps, edges), DuplicateName(name)) {
          assert Names(RawDefinition(steps, edges)) == names;
        }
        return Err(DuplicateName(name));
      }
      seenNames := seenNames + {name};
      stepNames := stepNames + [name];
    }
    r := Ok(stepNames);
  }

  method CheckEdges(d: RawDefinition) returns (r: Result<seq<Edge<string>>, DagError>)
    requires NamesOk(Names(d))
    ensures r.Ok? <==> EdgesOk(Edges(d.edges), Names(d))
    ensures r.Ok? ==> r.value == Edges(d.edges)
    ensures r.Err? ==> Justified(d, r.error)
  {
    ghost var edges := Edges(d.edges);
    var names := Names(d);
    var normalized := [];
    for i := 0 to |d.edges|
      invariant normalized == edges[..i] && EdgesOk(normalized, names)
    {
      var src, dst := SourceOf(d.edges[i]), TargetOf(d.edges[i]);
      var e := Edge(src, dst);
      assert edges[i] == e && e in edges;
      if src == "" || dst == "" {
        return Err(MissingEndpoint);
      }
      if src !in names {
        return Err(UnknownStep(src));
      }
      if dst !in names {
        return Err(UnknownStep(dst));
      }
      if src == dst {
        return Err(SelfLoop(src));
      }
      normalized := normalized + [e];
    }
    r := Ok(normalized);
  }

  /**
   * Accepts exactly the well-formed definitions. On success the order is a permutation of the step
   * names with every edge pointing forwards; a cycle is reported as the steps it leads to.
   */
  method ValidateDag(d: RawDefinition) returns (r: Result<ValidDag, DagError>)
    ensures r.Ok? <==> WellFormed(d)
    ensures r.Ok? ==> r.value.edges == Edges(d.edges)
    ensures r.Ok? ==> multiset(r.value.topologicalOrder) == multiset(Names(d))
    ensures r.Ok? ==> SourcesFirst(Edges(d.edges), r.value.topologicalOrder)
    ensures r.Err? ==> Justified(d, r.error)
  {
    var checkedNames := CheckNames(d.steps);
    assert Names(d) == Names(RawDefinition(d.steps, []));
    if checkedNames.Err? {
      return Err(checkedNames.error);
    }
    var stepNames := checkedNames.value;
    var checkedEdges := CheckEdges(d);
    if checkedEdges.Err? {
      return Err(checkedEdges.error);
    }
    var edges := checkedEdges.value;
    assert EndpointsIn(edges, Elements(stepNames)) by {
      assert forall e :: e in edges ==> EdgeOk(e, stepNames);
    }
    var order, inDegree := Kahn.TopologicalSort(stepNames, edges);
    Kahn.CountsDecideAcyclicity(stepNames, edges, order);
    if |order| != |stepNames| {
      var cycle := set n | n in inDegree && inDegree[n] > 0;
      assert cycle != {} by {
        var v :| OnCycle(edges, v);
        OnCycleIsBehindCycle(edges, v);
        BehindCycleHasEdge(edges, v);
        assert v in cycle;
      }
      return Err(Cycle(cycle));
    }
    assert forall v :: v in stepNames ==> v in order by {
      forall v | v in stepNames ensures v in order {
        AcyclicHasNothingBehind(edges, v);
      }
    }
    DistinctPermutation(order, stepNames);
    r := Ok(ValidDag(edges, order));
  }

  lemma {:induction false} DistinctMultiset<T>(s: seq<T>, x: T)
    requires Distinct(s)
    ensures multiset(s)[x] == if x in s then 1 else 0
  {
    if s != [] {
      var n := |s| - 1;
      assert s == s[..n] + [s[n]];
      DistinctMultiset(s[..n], x);
    }
  }

  lemma DistinctPermutation<T>(s: seq<T>, t: seq<T>)
    requires Distinct(s) && Distinct(t)
    requires forall x :: x in s <==> x in t
    ensures multiset(s) == multiset(t)
  {
    forall x: T ensures multiset(s)[x] == multiset(t)[x] {
      DistinctMultiset(s, x);
      DistinctMultiset(t, x);
    }
  }

  // ----- Entry points -----

  predicate IsRootStep(step: RawStep, edges: seq<RawEdge>) {
    step.name.Some? && step.name.value != "" && forall e :: e in edges ==> e.to != step.name
  }

  /** `find_root_steps`: the steps, in order, that no edge points to. */
  function FindRootSteps(d: RawDefinition): (roots: seq<string>)
    ensures forall n :: n in roots <==> n != "" && RawStep(Some(n)) in d.steps && forall e :: e in d.edges ==> e.to != Some(n)
  {
    var kept := Filter(d.steps, (s: RawStep) => IsRootStep(s, d.edges));
    assert forall s :: s in kept ==> s.name.Some? && s == RawStep(Some(s.name.value));
    var roots := seq(|kept|, i requires 0 <= i < |kept| => kept[i].name.value);
    assert forall n :: n in roots <==> RawStep(Some(n)) in kept by {
      assert forall i :: 0 <= i < |kept| ==> kept[i] in kept && roots[i] == kept[i].name.value;
    }
    roots
  }
}
