/** Runs in parts, and the shortest runs in which something happens to a step. */
module EngineRuns {
  import opened Wrappers
  import opened Graph
  import opened StateMachine
  import opened EngineSpec
  import opened EngineSafety
  import D = Definition

  lemma {:induction false} RunAppend(s: State, first: seq<Action>, then_: seq<Action>)
    ensures Run(s, first + then_) == Run(Run(s, first), then_)
  {
    hide Apply;
    if then_ == [] {
      assert first + then_ == first;
    } else {
      var n := |then_| - 1;
      assert (first + then_)[..|first + then_| - 1] == first + then_[..n];
      RunAppend(s, first, then_[..n]);
    }
  }

  lemma RunOne(s: State, a: Action)
    ensures Run(s, [a]) == Apply(s, a)
  {
    hide Apply;
    assert [a][..0] == [];
    assert Run(s, []) == s;
  }

  lemma RunOfThree(s: State, a: Action, b: Action, c: Action)
    ensures Run(s, [a, b, c]) == Apply(Apply(Apply(s, a), b), c)
  {
    hide Apply, Run;
    assert [a, b, c] == [a] + [b] + [c];
    RunAppend(s, [a] + [b], [c]);
    RunAppend(s, [a], [b]);
    RunOne(s, a);
    RunOne(Apply(s, a), b);
    RunOne(Apply(Apply(s, a), b), c);
  }

  /** Some worker number is free. */
  lemma {:induction false} FreshNumber(used: set<nat>) returns (n: nat)
    ensures forall m :: m in used ==> m < n
  {
    if used == {} {
      n := 0;
    } else {
      var m :| m in used;
      var rest := FreshNumber(used - {m});
      n := if m < rest then rest else m + 1;
      assert forall x :: x in used ==> x == m || x in used - {m};
    }
  }

  // ----- One worker claims one step -----

  function ClaimOne(worker: nat, key: StepKey): seq<Action> {
    [Scan(worker, 1, [key]), LockNext(worker), CommitClaims(worker)]
  }

  predicate CanClaimOne(s: State, worker: nat, key: StepKey) {
    worker !in s.workers && key in s.steps && Ready(s.steps[key], s.clock) && key !in s.locks
  }

  ghost predicate HoldsNoLock(s: State, worker: nat) {
    forall k :: k in s.locks ==> s.locks[k] != worker
  }

  function AfterClaimOne(s: State, key: StepKey): State
    requires key in s.steps
  {
    s.(steps := s.steps[key := AfterClaim(s.steps[key], s.clock)],
       executors := s.executors[s.nextExecutor := Executor(key, InFlight)],
       nextExecutor := s.nextExecutor + 1)
  }

  lemma ScanOne(s: State, worker: nat, key: StepKey)
    requires CanClaimOne(s, worker, key)
    ensures ApplyScan(s, worker, 1, [key]) == s.(workers := s.workers[worker := Worker(s.clock, 1, [key], [])])
  {
    assert CanScan(s, worker, 1, [key]);
  }

  lemma LockOne(s: State, worker: nat, key: StepKey)
    requires worker in s.workers && s.workers[worker] == Worker(s.clock, 1, [key], [])
    requires key in s.steps && Ready(s.steps[key], s.clock) && key !in s.locks
    ensures ApplyLockNext(s, worker)
            == s.(workers := s.workers[worker := Worker(s.clock, 1, [], [key])], locks := s.locks[key := worker])
  {
    assert [] + [key] == [key];
  }

  lemma SpawnedOne(n: nat, key: StepKey)
    ensures Spawned(n, [key]) == map[n := Executor(key, InFlight)]
  {
  }

  lemma CommitOneRow(s: State, worker: nat, key: StepKey)
    requires worker in s.workers && s.workers[worker] == Worker(s.clock, 1, [], [key]) && key in s.steps
    ensures ApplyCommit(s, worker).steps == s.steps[key := AfterClaim(s.steps[key], s.clock)]
  {
    hide AfterClaim, Spawned;
  }

  lemma CommitOneRest(s: State, worker: nat, key: StepKey)
    requires worker in s.workers && s.workers[worker] == Worker(s.clock, 1, [], [key]) && key in s.steps
    ensures ApplyCommit(s, worker)
            == s.(steps := ApplyCommit(s, worker).steps,
                  locks := map k | k in s.locks && s.locks[k] != worker :: s.locks[k],
                  workers := s.workers - {worker},
                  executors := s.executors[s.nextExecutor := Executor(key, InFlight)],
                  nextExecutor := s.nextExecutor + 1)
  {
    hide AfterClaim;
    SpawnedOne(s.nextExecutor, key);
    assert s.executors + map[s.nextExecutor := Executor(key, InFlight)]
        == s.executors[s.nextExecutor := Executor(key, InFlight)];
  }

  lemma CommitOne(s: State, locked: State, worker: nat, key: StepKey)
    requires CanClaimOne(s, worker, key) && HoldsNoLock(s, worker)
    requires locked == s.(workers := s.workers[worker := Worker(s.clock, 1, [], [key])], locks := s.locks[key := worker])
    ensures ApplyCommit(locked, worker) == AfterClaimOne(s, key)
  {
    hide ApplyCommit, AfterClaim, Ready;
    CommitOneRow(locked, worker, key);
    CommitOneRest(locked, worker, key);
    assert locked.workers - {worker} == s.workers;
    assert (map k | k in locked.locks && locked.locks[k] != worker :: locked.locks[k]) == s.locks;
  }

  lemma ClaimOneWorks(s: State, worker: nat, key: StepKey)
    requires CanClaimOne(s, worker, key) && HoldsNoLock(s, worker)
    ensures Run(s, ClaimOne(worker, key)) == AfterClaimOne(s, key)
  {
    hide Run, ApplyScan, ApplyLockNext, ApplyCommit, AfterClaimOne, HoldsNoLock, Ready;
    RunOfThree(s, Scan(worker, 1, [key]), LockNext(worker), CommitClaims(worker));
    ScanOne(s, worker, key);
    var scanned := ApplyScan(s, worker, 1, [key]);
    LockOne(scanned, worker, key);
    CommitOne(s, ApplyLockNext(scanned, worker), worker, key);
  }

  // ----- The first step of a new process -----

  function NewRow(d: D.Definition, name: string): Step
    requires name in D.StepNames(d)
  {
    FreshStep(D.StepByName(d, name).value)
  }

  function FirstClaim(pid: nat, d: D.Definition, name: string): seq<Action> {
    [Create(pid, d)] + ClaimOne(0, StepKey(pid, name))
  }

  /** The only process has one step in flight and all others pending. */
  ghost predicate JustClaimed(s: State, pid: nat, d: D.Definition, name: string)
    requires name in D.StepNames(d)
  {
    var key := StepKey(pid, name);
    && s.steps == NewRows(pid, d)[key := AfterClaim(NewRow(d, name), 0)]
    && s.executors == map[0 := Executor(key, InFlight)]
    && s.processes == map[pid := Process(d, ProcessStatus.Draft, map[], None, None)]
    && s.log == [CreatedEvent(pid)]
    && s.locks == map[] && s.workers == map[] && s.dlq == [] && s.clock == 0
  }

  lemma CreateFromNothing(pid: nat, d: D.Definition)
    requires CanCreate(EMPTY, pid, d)
    ensures ApplyCreate(EMPTY, pid, d).steps == NewRows(pid, d)
  {
    hide NewRows, D.Valid;
    assert map[] + NewRows(pid, d) == NewRows(pid, d);
  }

  lemma NewRowOf(pid: nat, d: D.Definition, name: string)
    requires name in D.StepNames(d)
    ensures StepKey(pid, name) in NewRows(pid, d) && NewRows(pid, d)[StepKey(pid, name)] == NewRow(d, name)
  {
    hide D.StepByName, FreshStep;
    assert StepKey(pid, name) in Keys(pid, D.StepNames(d));
  }

  lemma CreatedAlone(pid: nat, d: D.Definition, name: string)
    requires D.Valid(d) && name in D.StepNames(d)
    ensures var s := Run(EMPTY, [Create(pid, d)]);
            && s == ApplyCreate(EMPTY, pid, d) && CanCreate(EMPTY, pid, d)
            && s.steps == NewRows(pid, d) && StepKey(pid, name) in s.steps && s.steps[StepKey(pid, name)] == NewRow(d, name)
  {
    hide Run, NewRows, NewRow, D.Valid, D.StepNames;
    RunOne(EMPTY, Create(pid, d));
    CreateFromNothing(pid, d);
    NewRowOf(pid, d, name);
  }

  lemma FirstClaimWorks(pid: nat, d: D.Definition, name: string)
    requires D.Valid(d) && name in D.StepNames(d)
    ensures JustClaimed(Run(EMPTY, FirstClaim(pid, d, name)), pid, d, name)
  {
    hide Run, NewRows, RowsFit, ReferencesExist, ClaimsAreLocked;
    var s, key := Run(EMPTY, [Create(pid, d)]), StepKey(pid, name);
    CreatedAlone(pid, d, name);
    RunAppend(EMPTY, [Create(pid, d)], ClaimOne(0, key));
    ClaimOneWorks(s, 0, key);
  }

  /** A definition with a single step, for runs that need a particular one. */
  const SINGLE := D.Definition("single", [D.StepDef("only", "DEV_BE", "work", None)], [])

  lemma SingleIsValid()
    ensures D.Valid(SINGLE) && "only" in D.StepNames(SINGLE) && NewRow(SINGLE, "only").maxAttempts == 5
  {
    assert D.StepNames(SINGLE)[0] == "only";
    forall v | OnCycle(SINGLE.edges, v) ensures false {
      OnCycleIsBehindCycle(SINGLE.edges, v);
      BehindCycleHasEdge(SINGLE.edges, v);
    }
  }
}
