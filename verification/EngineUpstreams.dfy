/** Claiming looks at no upstream: when steps wait for their upstreams. */
module EngineUpstreams {
  import opened Graph
  import opened EngineSpec
  import opened EngineSafety
  import opened EngineWakeups
  import opened EngineRuns
  import opened EngineRevival
  import opened EngineQueued
  import D = Definition

  /** Claiming looks at no upstream: in every run, any step of a process just created can be claimed next. */
  lemma AnyStepCanRunFirst(actions: seq<Action>, pid: nat, d: D.Definition, name: string, worker: nat)
    requires CanCreate(Run(EMPTY, actions), pid, d) && name in D.StepNames(d) && worker !in Run(EMPTY, actions).workers
    ensures var t := Run(EMPTY, actions + [Create(pid, d)] + ClaimOne(worker, StepKey(pid, name)));
            && StepKey(pid, name) in t.steps && t.steps[StepKey(pid, name)].status.Running?
            && forall other :: other in D.StepNames(d) && other != name ==>
                 StepKey(pid, other) in t.steps && t.steps[StepKey(pid, other)].status.Pending?
  {
    hide Run, Safe, Apply, ApplyCreate;
    var s, key := Run(EMPTY, actions), StepKey(pid, name);
    EveryRunIsSafe(actions);
    var created := ApplyCreate(s, pid, d);
    CreatedRows(s, pid, d);
    RunAppend(EMPTY, actions, [Create(pid, d)]);
    CreateIsOneAction(s, pid, d);
    StrangersHoldNoLock(s, worker);
    ClaimOneWorks(created, worker, key);
    RunAppend(EMPTY, actions + [Create(pid, d)], ClaimOne(worker, key));
  }

  lemma CreateIsOneAction(s: State, pid: nat, d: D.Definition)
    ensures Run(s, [Create(pid, d)]) == ApplyCreate(s, pid, d)
  {
    RunOne(s, Create(pid, d));
  }

  lemma CreatedRows(s: State, pid: nat, d: D.Definition)
    requires Safe(s) && CanCreate(s, pid, d)
    ensures var t := ApplyCreate(s, pid, d);
            && t.workers == s.workers && t.locks == s.locks && t.clock == s.clock
            && forall name :: name in D.StepNames(d) ==>
                 && StepKey(pid, name) in t.steps && StepKey(pid, name) !in t.locks
                 && t.steps[StepKey(pid, name)].status.Pending? && t.steps[StepKey(pid, name)].nextRetryAt.None?
  {
    CreateAdds(s, pid, d);
    forall name | name in D.StepNames(d) ensures StepKey(pid, name) in Keys(pid, D.StepNames(d)) {
    }
  }

  /** Committing claims adds a claim to the row. */
  ghost predicate Claimed(s: State, t: State, k: StepKey) {
    k in s.steps && ClaimTimes(t, k) != ClaimTimes(s, k)
  }

  ghost predicate OfDefinition(s: State, pid: nat, d: D.Definition) {
    pid in s.processes && s.processes[pid].definition == d
  }

  /** In every run, whenever a step of such a process is claimed, its upstreams are all done. */
  ghost predicate ClaimsFindUpstreamsDone(pid: nat, d: D.Definition) {
    forall actions, worker: nat, name ::
      OfDefinition(Run(EMPTY, actions), pid, d)
      && Claimed(Run(EMPTY, actions), Run(EMPTY, actions + [CommitClaims(worker)]), StepKey(pid, name)) ==>
        UpstreamDone(Run(EMPTY, actions), d, pid, name)
  }

  /** Before the commit that claims it, the step of a new process waits for an upstream that is pending. */
  lemma UpstreamIgnored(pid: nat, d: D.Definition, name: string)
    requires D.Valid(d) && name in D.StepNames(d) && D.Upstream(d.edges, name) != []
    ensures var before := [Create(pid, d)] + [Scan(0, 1, [StepKey(pid, name)]), LockNext(0)];
            && OfDefinition(Run(EMPTY, before), pid, d)
            && Claimed(Run(EMPTY, before), Run(EMPTY, before + [CommitClaims(0)]), StepKey(pid, name))
            && !UpstreamDone(Run(EMPTY, before), d, pid, name)
  {
    hide Run, D.Valid, ApplyScan, ApplyLockNext, UpstreamDone, NewRows;
    var key := StepKey(pid, name);
    var opening := [Scan(0, 1, [key]), LockNext(0)];
    var before := [Create(pid, d)] + opening;
    CreatedAlone(pid, d, name);
    var created := Run(EMPTY, [Create(pid, d)]);
    UpstreamIsNotDone(pid, d, name);
    RunAppend(EMPTY, [Create(pid, d)], opening);
    assert opening == [opening[0]] + [opening[1]];
    RunAppend(created, [opening[0]], [opening[1]]);
    RunOne(created, opening[0]);
    RunOne(Apply(created, opening[0]), opening[1]);
    OpenClaimsWriteNoRow(created, opening[0]);
    OpenClaimsWriteNoRow(Apply(created, opening[0]), opening[1]);
    SameStepsSameUpstreams(created, Run(EMPTY, before), d, pid, name);
    FirstClaimWorks(pid, d, name);
    assert before + [CommitClaims(0)] == FirstClaim(pid, d, name);
  }

  lemma UpstreamIsNotDone(pid: nat, d: D.Definition, name: string)
    requires D.Valid(d) && name in D.StepNames(d) && D.Upstream(d.edges, name) != []
    ensures !UpstreamDone(ApplyCreate(EMPTY, pid, d), d, pid, name)
  {
    FreshUpstreamsAreNotDone(EMPTY, pid, d, StepKey(pid, name));
  }

  lemma SameStepsSameUpstreams(s: State, t: State, d: D.Definition, pid: nat, name: string)
    requires t.steps == s.steps
    ensures UpstreamDone(t, d, pid, name) <==> UpstreamDone(s, d, pid, name)
  {
  }

  /** Steps wait for their upstreams in every run exactly when nothing has an upstream. */
  lemma UpstreamsRespectedIff(pid: nat, d: D.Definition)
    requires D.Valid(d)
    ensures ClaimsFindUpstreamsDone(pid, d) <==> d.edges == []
  {
    hide Run, Claimed, OfDefinition;
    if d.edges != [] {
      var name := d.edges[0].dst;
      assert d.edges[0] in d.edges && Edge(d.edges[0].src, name) in d.edges;
      UpstreamIgnored(pid, d, name);
    } else {
      assert forall name :: D.Upstream(d.edges, name) == [];
    }
  }
}
