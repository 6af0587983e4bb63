/** The table of task dependencies: cycle-checked insertion, removal, cascade, and blocking. */
module TaskDependencies {
  import opened Wrappers
  import opened Graph
  import opened Lists
  import Kahn

  type TaskId = nat
  datatype TaskStatus = Todo | InProgress | Review | Done | Cancelled

  /** An edge goes from the blocker to the blocked task. */
  type Dep = Edge<TaskId>

  datatype Board = Board(tasks: map<TaskId, TaskStatus>, deps: seq<Dep>)

  datatype DependencyError =
    | SelfBlock
    | BlockerNotFound
    | BlockedNotFound
    | AlreadyExists
    | WouldCycle

  // ----- Operations on values -----

  datatype Op =
    | CreateTask(id: TaskId)
    | SetStatus(id: TaskId, status: TaskStatus)
    | DeleteTasks(ids: set<TaskId>)
    | Add(blocker: TaskId, blocked: TaskId)
    | Remove(blocker: TaskId, blocked: TaskId)

  /** The reasons for refusing a new dependency, in the order they are checked. */
  ghost function Refusal(b: Board, blocker: TaskId, blocked: TaskId): Option<DependencyError> {
    if blocker == blocked then Some(SelfBlock)
    else if blocker !in b.tasks then Some(BlockerNotFound)
    else if blocked !in b.tasks then Some(BlockedNotFound)
    else if Edge(blocker, blocked) in b.deps then Some(AlreadyExists)
    else if Reaches(b.deps, blocked, blocker) then Some(WouldCycle)
    else None
  }

  ghost function Apply(b: Board, op: Op): Board {
    match op
    case CreateTask(id) => if id in b.tasks then b else b.(tasks := b.tasks[id := Todo])
    case SetStatus(id, status) => if id in b.tasks then b.(tasks := b.tasks[id := status]) else b
    case DeleteTasks(ids) =>
      Board(b.tasks - ids, Filter(b.deps, (e: Dep) => e.src !in ids && e.dst !in ids))
    case Add(blocker, blocked) =>
      if Refusal(b, blocker, blocked).None? then b.(deps := b.deps + [Edge(blocker, blocked)]) else b
    case Remove(blocker, blocked) => b.(deps := Filter(b.deps, (e: Dep) => e != Edge(blocker, blocked)))
  }

  ghost function Run(b: Board, ops: seq<Op>): Board {
    if ops == [] then b else Apply(Run(b, ops[..|ops| - 1]), ops[|ops| - 1])
  }

  const EMPTY := Board(map[], [])

  ghost predicate Healthy(b: Board) {
    && Acyclic(b.deps)
    && Distinct(b.deps)
    && (forall e :: e in b.deps ==> e.src != e.dst)
    && EndpointsIn(b.deps, b.tasks.Keys)
  }

  // ----- The new edge closes a cycle exactly when its target already reaches its source -----

  /** A walk that may use the new edge either avoids it or enters and leaves through it. */
  lemma {:induction false} SplitAtNewEdge(deps: seq<Dep>, e: Dep, p: seq<TaskId>)
    requires IsWalk(deps + [e], p)
    ensures || Reaches(deps, p[0], p[|p| - 1])
            || (Reaches(deps, p[0], e.src) && Reaches(deps, e.dst, p[|p| - 1]))
    decreases |p|
  {
    if |p| == 1 {
      ReachesSelf(deps, p[0]);
    } else {
      var rest, first := p[1..], Edge(p[0], p[1]);
      assert first in deps + [e];
      forall i | 0 <= i < |rest| - 1 ensures Edge(rest[i], rest[i + 1]) in deps + [e] {
        assert Edge(p[i + 1], p[i + 2]) in deps + [e];
      }
      SplitAtNewEdge(deps, e, rest);
      if first in deps {
        ReachesEdge(deps, first);
        if Reaches(deps, rest[0], rest[|rest| - 1]) {
          ReachesTransitive(deps, p[0], p[1], p[|p| - 1]);
        } else {
          ReachesTransitive(deps, p[0], p[1], e.src);
        }
      } else {
        ReachesSelf(deps, e.src);
      }
    }
  }

  lemma ClosesCycleIffReachable(deps: seq<Dep>, e: Dep)
    requires Acyclic(deps)
    ensures Acyclic(deps + [e]) <==> !Reaches(deps, e.dst, e.src)
  {
    var more := deps + [e];
    if Reaches(deps, e.dst, e.src) {
      var p :| WalkFromTo(deps, p, e.dst, e.src);
      SubgraphWalk(deps, more, p);
      assert WalkFromTo(more, p, e.dst, e.src);
      assert e in more;
      CycleThroughEdge(more, e);
    } else {
      forall v | OnCycle(more, v) ensures false {
        var p :| WalkFromTo(more, p, v, v) && |p| >= 2;
        var first, rest := Edge(p[0], p[1]), p[1..];
        assert first in more;
        forall i | 0 <= i < |rest| - 1 ensures Edge(rest[i], rest[i + 1]) in more {
          assert Edge(p[i + 1], p[i + 2]) in more;
        }
        SplitAtNewEdge(deps, e, rest);
        if first in deps {
          ReachesEdge(deps, first);
          if Reaches(deps, p[1], v) {
            CycleThroughEdge(deps, first);
          } else {
            ReachesTransitive(deps, e.dst, v, p[1]);
            ReachesTransitive(deps, e.dst, p[1], e.src);
          }
        }
      }
    }
  }

  // ----- Safety over every run -----

  lemma ApplyKeepsHealthy(b: Board, op: Op)
    requires Healthy(b)
    ensures Healthy(Apply(b, op))
  {
    match op
    case CreateTask(_) =>
    case SetStatus(_, _) =>
    case DeleteTasks(ids) =>
      FilterDistinct(b.deps, (e: Dep) => e.src !in ids && e.dst !in ids);
      SubgraphAcyclic(Apply(b, op).deps, b.deps);
    case Add(blocker, blocked) =>
      ClosesCycleIffReachable(b.deps, Edge(blocker, blocked));
    case Remove(blocker, blocked) =>
      FilterDistinct(b.deps, (e: Dep) => e != Edge(blocker, blocked));
      SubgraphAcyclic(Apply(b, op).deps, b.deps);
  }

  /** A new dependency is accepted exactly when both tasks exist and differ, it is new, and it closes no cycle. */
  lemma AddedIff(b: Board, blocker: TaskId, blocked: TaskId)
    requires Healthy(b)
    ensures var accepted := && blocker != blocked && blocker in b.tasks && blocked in b.tasks
                            && Edge(blocker, blocked) !in b.deps && Acyclic(b.deps + [Edge(blocker, blocked)]);
            Apply(b, Add(blocker, blocked)) == if accepted then Board(b.tasks, b.deps + [Edge(blocker, blocked)]) else b
    ensures var r := Refusal(b, blocker, blocked);
            && (r == Some(SelfBlock) <==> blocker == blocked)
            && (r == Some(BlockerNotFound) <==> blocker != blocked && blocker !in b.tasks)
            && (r == Some(BlockedNotFound) <==> blocker in b.tasks && blocked !in b.tasks)
            && (r == Some(AlreadyExists) <==> Edge(blocker, blocked) in b.deps)
            && (r == Some(WouldCycle) <==>
                  && blocker != blocked && blocker in b.tasks && blocked in b.tasks
                  && Edge(blocker, blocked) !in b.deps && !Acyclic(b.deps + [Edge(blocker, blocked)]))
  {
    hide Reaches, Acyclic;
    ClosesCycleIffReachable(b.deps, Edge(blocker, blocked));
  }

  lemma {:induction false} FilterKeepsAll(deps: seq<Dep>, keep: Dep -> bool)
    requires forall d :: d in deps ==> keep(d)
    ensures Filter(deps, keep) == deps
  {
    if deps != [] {
      var front, last := deps[..|deps| - 1], deps[|deps| - 1];
      assert deps == front + [last];
      FilterKeepsAll(front, keep);
    }
  }

  lemma FilterNone(e: Dep, keep: Dep -> bool)
    requires !keep(e)
    ensures Filter([e], keep) == []
  {
  }

  lemma FilterDropsOne(a: seq<Dep>, e: Dep, c: seq<Dep>, keep: Dep -> bool)
    requires !keep(e) && (forall d :: d in a ==> keep(d)) && (forall d :: d in c ==> keep(d))
    ensures Filter(a + [e] + c, keep) == a + c
  {
    hide Filter;
    FilterInOrder(a + [e], c, keep);
    FilterInOrder(a, [e], keep);
    FilterKeepsAll(a, keep);
    FilterKeepsAll(c, keep);
    FilterNone(e, keep);
    assert a + [] + c == a + c;
  }

  lemma OnlyOnce(deps: seq<Dep>, i: nat)
    requires Distinct(deps) && i < |deps|
    ensures deps[i] !in deps[..i] && deps[i] !in deps[i + 1..] && deps == deps[..i] + [deps[i]] + deps[i + 1..]
  {
  }

  /** Removing a dependency takes out its entry, wherever it is, and nothing else. */
  lemma RemovedIsTakenOut(b: Board, blocker: TaskId, blocked: TaskId, i: nat)
    requires Healthy(b)
    ensures Edge(blocker, blocked) !in b.deps ==> Apply(b, Remove(blocker, blocked)) == b
    ensures i < |b.deps| && b.deps[i] == Edge(blocker, blocked) ==>
              Apply(b, Remove(blocker, blocked)) == Board(b.tasks, b.deps[..i] + b.deps[i + 1..])
  {
    hide Acyclic, Filter;
    if Edge(blocker, blocked) !in b.deps {
      FilterKeepsAll(b.deps, (e: Dep) => e != Edge(blocker, blocked));
    } else if i < |b.deps| && b.deps[i] == Edge(blocker, blocked) {
      OnlyOnce(b.deps, i);
      FilterDropsOne(b.deps[..i], b.deps[i], b.deps[i + 1..], (e: Dep) => e != Edge(blocker, blocked));
    }
  }

  /** Deleting tasks takes along the dependencies that mention one of them, and no other. */
  lemma DeletedTakeTheirsAlong(b: Board, ids: set<TaskId>)
    ensures Apply(b, DeleteTasks(ids)).tasks == b.tasks - ids
    ensures forall e :: e in Apply(b, DeleteTasks(ids)).deps <==> e in b.deps && e.src !in ids && e.dst !in ids
  {
  }

  /** No sequence of operations ever leaves a cycle, a self-loop, a duplicate or a dangling edge. */
  lemma {:induction false} EveryRunIsHealthy(ops: seq<Op>)
    ensures Healthy(Run(EMPTY, ops))
  {
    if ops == [] {
      forall v | OnCycle(EMPTY.deps, v) ensures false {
        OnCycleIsBehindCycle(EMPTY.deps, v);
        BehindCycleHasEdge(EMPTY.deps, v);
      }
    } else {
      EveryRunIsHealthy(ops[..|ops| - 1]);
      ApplyKeepsHealthy(Run(EMPTY, ops[..|ops| - 1]), ops[|ops| - 1]);
    }
  }

  // ----- Blocking -----

  predicate IsOpen(b: Board, t: TaskId) {
    t in b.tasks && b.tasks[t] != Done && b.tasks[t] != Cancelled
  }

  ghost predicate Blocked(b: Board, t: TaskId) {
    exists e :: e in b.deps && e.dst == t && IsOpen(b, e.src)
  }

  /** Every open blocker of a task in `group` is in `group` too. */
  ghost predicate HoldsItsOpenBlockers(b: Board, group: set<TaskId>) {
    forall e :: e in b.deps && e.dst in group && IsOpen(b, e.src) ==> e.src in group
  }

  lemma SomeTaskIsUnblocked(b: Board, group: set<TaskId>)
    requires Healthy(b) && group != {} && HoldsItsOpenBlockers(b, group)
    ensures exists t :: t in group && !Blocked(b, t)
  {
    SomeTaskHasNoSource(b.deps, group);
    var t :| t in group && !HasSourceIn(b.deps, group, t);
    if Blocked(b, t) {
      BlockerInGroup(b, group, t);
    }
  }

  lemma SomeTaskHasNoSource(deps: seq<Dep>, group: set<TaskId>)
    requires Acyclic(deps) && group != {}
    ensures exists t :: t in group && !HasSourceIn(deps, group, t)
  {
    var t :| t in group;
    if forall u :: u in group ==> HasSourceIn(deps, group, u) {
      StuckIsBehindCycle(deps, group, t);
      AcyclicHasNothingBehind(deps, t);
    }
  }

  lemma BlockerInGroup(b: Board, group: set<TaskId>, t: TaskId)
    requires HoldsItsOpenBlockers(b, group) && t in group && Blocked(b, t)
    ensures HasSourceIn(b.deps, group, t)
  {
    var e :| e in b.deps && e.dst == t && IsOpen(b, e.src);
    assert e.src in group;
  }

  /** Every task of the list is unblocked when its turn comes, and is then finished. */
  ghost predicate CanFinishInTurn(b: Board, order: seq<TaskId>)
    decreases |order|
  {
    order == [] || (!Blocked(b, order[0]) && CanFinishInTurn(Apply(b, SetStatus(order[0], Done)), order[1..]))
  }

  lemma FinishingShrinksTheGroup(b: Board, group: set<TaskId>, t: TaskId)
    requires Healthy(b) && HoldsItsOpenBlockers(b, group) && t in group
    ensures HoldsItsOpenBlockers(Apply(b, SetStatus(t, Done)), group - {t})
  {
    var b' := Apply(b, SetStatus(t, Done));
    forall e | e in b'.deps && e.dst in group - {t} && IsOpen(b', e.src) ensures e.src in group - {t} {
      assert IsOpen(b, e.src);
    }
  }

  /**
   * Blocking never deadlocks: an open group that holds its open blockers can be finished one by one,
   * each task being unblocked when its turn comes.
   */
  lemma {:induction false} GroupCanBeFinished(b: Board, group: set<TaskId>) returns (order: seq<TaskId>)
    requires Healthy(b) && HoldsItsOpenBlockers(b, group) && forall t :: t in group ==> IsOpen(b, t)
    ensures Distinct(order) && Elements(order) == group
    ensures CanFinishInTurn(b, order)
    decreases |group|
  {
    if group == {} {
      order := [];
    } else {
      SomeTaskIsUnblocked(b, group);
      var t :| t in group && !Blocked(b, t);
      var b' := Apply(b, SetStatus(t, Done));
      ApplyKeepsHealthy(b, SetStatus(t, Done));
      FinishingShrinksTheGroup(b, group, t);
      var rest := GroupCanBeFinished(b', group - {t});
      order := [t] + rest;
      assert order[0] == t && order[1..] == rest;
      Prepend(t, rest, group - {t});
    }
  }

  lemma Prepend(t: TaskId, rest: seq<TaskId>, members: set<TaskId>)
    requires Distinct(rest) && Elements(rest) == members && t !in members
    ensures Distinct([t] + rest) && Elements([t] + rest) == members + {t}
  {
    assert forall u :: u in rest ==> u in Elements(rest);
  }

  // ----- The table itself -----

  class DependencyTable {
    var tasks: map<TaskId, TaskStatus>
    var deps: seq<Dep>

    ghost function View(): Board
      reads this
    {
      Board(tasks, deps)
    }

    constructor ()
      ensures View() == EMPTY && Healthy(View())
    {
      tasks, deps := map[], [];
      new;
      EveryRunIsHealthy([]);
    }

    method CreateTask(id: TaskId)
      requires Healthy(View())
      modifies this
      ensures View() == Apply(old(View()), Op.CreateTask(id)) && Healthy(View())
    {
      ApplyKeepsHealthy(View(), Op.CreateTask(id));
      if id !in tasks {
        tasks := tasks[id := Todo];
      }
    }

    method SetStatus(id: TaskId, status: TaskStatus)
      requires Healthy(View())
      modifies this
      ensures View() == Apply(old(View()), Op.SetStatus(id, status)) && Healthy(View())
    {
      ApplyKeepsHealthy(View(), Op.SetStatus(id, status));
      if id in tasks {
        tasks := tasks[id := status];
      }
    }

    /** Sorts the graph with the candidate edge included and counts what the sort could not reach. */
    method WouldCreateCycle(blocker: TaskId, blocked: TaskId) returns (cycle: bool)
      ensures cycle <==> !Acyclic(deps + [Edge(blocker, blocked)])
      ensures Acyclic(deps) ==> (cycle <==> Reaches(deps, blocked, blocker))
    {
      var edges := deps + [Edge(blocker, blocked)];
      var nodes: set<TaskId> := {};
      for i := 0 to |edges|
        invariant EndpointsIn(edges[..i], nodes)
      {
        nodes := nodes + {edges[i].src, edges[i].dst};
      }
      assert edges[..|edges|] == edges;
      var tableOrder := Kahn.Enumerate(nodes);
      var order, _ := Kahn.TopologicalSort(tableOrder, edges);
      Kahn.CountsDecideAcyclicity(tableOrder, edges, order);
      DistinctSize(tableOrder);
      if Acyclic(deps) {
        ClosesCycleIffReachable(deps, Edge(blocker, blocked));
      }
      cycle := |order| != |nodes|;
    }

    method AddDependency(blocker: TaskId, blocked: TaskId) returns (r: Result<Dep, DependencyError>)
      requires Healthy(View())
      modifies this
      ensures View() == Apply(old(View()), Add(blocker, blocked)) && Healthy(View())
      ensures match Refusal(old(View()), blocker, blocked)
              case None => r == Ok(Edge(blocker, blocked))
              case Some(reason) => r == Err(reason)
    {
      ApplyKeepsHealthy(View(), Add(blocker, blocked));
      if blocker == blocked {
        return Err(SelfBlock);
      }
      if blocker !in tasks {
        return Err(BlockerNotFound);
      }
      if blocked !in tasks {
        return Err(BlockedNotFound);
      }
      var dep := Edge(blocker, blocked);
      if dep in deps {
        return Err(AlreadyExists);
      }
      var cycle := WouldCreateCycle(blocker, blocked);
      if cycle {
        return Err(WouldCycle);
      }
      deps := deps + [dep];
      r := Ok(dep);
    }

    method RemoveDependency(blocker: TaskId, blocked: TaskId) returns (removed: bool)
      requires Healthy(View())
      modifies this
      ensures View() == Apply(old(View()), Remove(blocker, blocked)) && Healthy(View())
      ensures removed <==> Edge(blocker, blocked) in old(deps)
    {
      ApplyKeepsHealthy(View(), Remove(blocker, blocked));
      var kept := Filter(deps, (e: Dep) => e != Edge(blocker, blocked));
      removed := |kept| < |deps|;
      deps := kept;
    }

    /** Deleting tasks takes every dependency that mentions one of them along. */
    method DeleteWithCascade(ids: set<TaskId>)
      requires Healthy(View())
      modifies this
      ensures View() == Apply(old(View()), DeleteTasks(ids)) && Healthy(View())
    {
      ApplyKeepsHealthy(View(), DeleteTasks(ids));
      tasks := tasks - ids;
      deps := Filter(deps, (e: Dep) => e.src !in ids && e.dst !in ids);
    }

    method GetBlockers(task: TaskId) returns (blockers: seq<TaskId>)
      requires Healthy(View())
      ensures Distinct(blockers)
      ensures forall t :: t in blockers <==> Edge(t, task) in deps
    {
      blockers := [];
      for i := 0 to |deps|
        invariant Distinct(blockers)
        invariant forall t :: t in blockers <==> Edge(t, task) in deps[..i]
      {
        if deps[i].dst == task {
          assert deps[i] !in deps[..i];
          assert Edge(deps[i].src, task) == deps[i];
          blockers := blockers + [deps[i].src];
        }
      }
    }

    method IsTaskBlocked(task: TaskId) returns (blocked: bool)
      requires Healthy(View())
      ensures blocked <==> Blocked(View(), task)
    {
      var blockers := GetBlockers(task);
      for i := 0 to |blockers|
        invariant forall j :: 0 <= j < i ==> !IsOpen(View(), blockers[j])
      {
        assert blockers[i] in blockers;
        assert Edge(blockers[i], task) in deps;
        if tasks[blockers[i]] != Done && tasks[blockers[i]] != Cancelled {
          return true;
        }
      }
      forall e | e in deps && e.dst == task ensures !IsOpen(View(), e.src) {
        assert Edge(e.src, task) == e;
        assert e.src in blockers;
      }
      return false;
    }
  }
}
