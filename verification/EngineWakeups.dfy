/** No join is forgotten: a step whose upstreams are all done has been queued or is about to be looked at. */
module EngineWakeups {
  import opened Graph
  import opened EngineSpec
  import opened EngineSafety
  import opened EngineRetries
  import D = Definition

  function DefinitionOf(s: State, k: StepKey): D.Definition
    requires k.pid in s.processes
  {
    s.processes[k.pid].definition
  }

  /** A step with upstreams that has never been claimed or queued. */
  ghost predicate Untouched(s: State, k: StepKey) {
    && k in s.steps && k.pid in s.processes && D.Upstream(DefinitionOf(s, k).edges, k.name) != []
    && s.steps[k].status.Pending? && s.steps[k].claimTimes == []
  }

  ghost predicate AllUpstreamsDone(s: State, k: StepKey)
    requires k.pid in s.processes
  {
    UpstreamDone(s, DefinitionOf(s, k), k.pid, k.name)
  }

  predicate BetweenCompletionAndEnqueue(phase: Phase) {
    phase.Announcing? || phase.Enqueueing?
  }

  /** Some upstream's executor has committed its completion and has not enqueued downstream steps yet. */
  ghost predicate WakeupComing(s: State, k: StepKey)
    requires k.pid in s.processes
  {
    exists x :: Wakes(s, x, k)
  }

  predicate Wakes(s: State, x: nat, k: StepKey)
    requires k.pid in s.processes
  {
    && x in s.executors && BetweenCompletionAndEnqueue(s.executors[x].phase)
    && s.executors[x].key.pid == k.pid
    && s.executors[x].key.name in D.Upstream(DefinitionOf(s, k).edges, k.name)
  }

  ghost predicate NoLostWakeup(s: State) {
    forall k :: Untouched(s, k) && AllUpstreamsDone(s, k) ==> WakeupComing(s, k)
  }

  /** No step becomes done, none becomes untouched, and wake-ups under way stay under way. */
  ghost predicate NothingCompletes(s: State, t: State) {
    && SameDefinitions(s, t) && t.steps.Keys == s.steps.Keys
    && (forall k :: k in s.steps && IsDone(t.steps[k].status) ==> IsDone(s.steps[k].status))
    && (forall k :: Untouched(t, k) ==> Untouched(s, k))
  }

  ghost predicate KeepsWakers(s: State, t: State) {
    forall x :: x in s.executors && BetweenCompletionAndEnqueue(s.executors[x].phase) ==>
      x in t.executors && BetweenCompletionAndEnqueue(t.executors[x].phase) && t.executors[x].key == s.executors[x].key
  }

  lemma NothingCompletesKeeps(s: State, t: State)
    requires NoLostWakeup(s) && NothingCompletes(s, t) && KeepsWakers(s, t)
    ensures NoLostWakeup(t)
  {
    forall k | Untouched(t, k) && AllUpstreamsDone(t, k) ensures WakeupComing(t, k) {
      assert Untouched(s, k);
      assert AllUpstreamsDone(s, k);
      var x :| Wakes(s, x, k);
      assert Wakes(t, x, k);
    }
  }

  lemma QuietCompletesNothing(s: State, t: State)
    requires RowsOk(s) && Quiet(s, t)
    ensures NothingCompletes(s, t)
  {
    forall k | k in s.steps
      ensures IsDone(t.steps[k].status) ==> IsDone(s.steps[k].status)
      ensures Untouched(t, k) ==> Untouched(s, k)
    {
      assert QuietChange(s.steps[k], t.steps[k]);
      assert RowOk(s.steps[k], s.clock);
      if t.steps[k] == AfterReplay(s.steps[k]) && s.steps[k].status.Failed? {
        assert |s.steps[k].claimTimes| >= 1 by {
          assert s.steps[k].maxAttempts * s.steps[k].replays >= 0;
        }
      }
    }
  }

  lemma CommitCompletesNothing(s: State, worker: nat)
    requires Safe(s) && CanCommit(s, worker)
    ensures NothingCompletes(s, ApplyCommit(s, worker))
  {
    assert ApplyCommit(s, worker).steps.Keys == s.steps.Keys;
  }

  lemma CommitKeepsWakers(s: State, worker: nat)
    requires ReferencesExist(s) && CanCommit(s, worker)
    ensures KeepsWakers(s, ApplyCommit(s, worker))
  {
    assert forall x :: x in s.executors ==> x < s.nextExecutor;
  }

  lemma FreshUpstreamsAreNotDone(s: State, pid: nat, d: D.Definition, k: StepKey)
    requires RowsFit(s) && CanCreate(s, pid, d) && k in Keys(pid, D.StepNames(d))
    requires D.Upstream(d.edges, k.name) != []
    ensures !UpstreamDone(ApplyCreate(s, pid, d), d, pid, k.name)
  {
    CreateAdds(s, pid, d);
    var u := D.Upstream(d.edges, k.name)[0];
    assert Edge(u, k.name) in d.edges;
    assert StepKey(pid, u) in Keys(pid, D.StepNames(d));
  }

  lemma CreateKeepsWakeups(s: State, pid: nat, d: D.Definition)
    requires Safe(s) && NoLostWakeup(s) && CanCreate(s, pid, d)
    ensures NoLostWakeup(ApplyCreate(s, pid, d))
  {
    var t := ApplyCreate(s, pid, d);
    CreateAdds(s, pid, d);
    forall k | Untouched(t, k) && AllUpstreamsDone(t, k) ensures WakeupComing(t, k) {
      if k in s.steps {
        assert Untouched(s, k) && AllUpstreamsDone(s, k);
        var x :| Wakes(s, x, k);
        assert Wakes(t, x, k);
      } else {
        FreshUpstreamsAreNotDone(s, pid, d, k);
      }
    }
  }

  /** A completion is followed by an executor that is about to wake whoever waits for it. */
  lemma CompletionKeepsWakeups(s: State, t: State, x: nat)
    requires NoLostWakeup(s) && KeepsWakers(s, t) && SameDefinitions(s, t) && t.steps.Keys == s.steps.Keys
    requires x in t.executors && t.executors[x].phase.Announcing?
    requires forall k :: k in s.steps && k != t.executors[x].key ==> t.steps[k] == s.steps[k]
    requires t.executors[x].key in t.steps && !t.steps[t.executors[x].key].status.Pending?
    ensures NoLostWakeup(t)
  {
    var key := t.executors[x].key;
    forall k | Untouched(t, k) && AllUpstreamsDone(t, k) ensures WakeupComing(t, k) {
      if key.pid == k.pid && key.name in D.Upstream(DefinitionOf(t, k).edges, k.name) {
        assert Wakes(t, x, k);
      } else {
        assert Untouched(s, k) && AllUpstreamsDone(s, k);
        var y :| Wakes(s, y, k);
        assert Wakes(t, y, k);
      }
    }
  }

  lemma OtherOutcomesCompleteNothing(s: State, t: State, x: nat, outcome: Outcome)
    requires CanSettle(s, x) && !outcome.Succeeded? && SettleEffect(s, t, x)
    requires t.steps == s.steps[s.executors[x].key := SettledRow(s.steps[s.executors[x].key], outcome, s.clock)]
    ensures NothingCompletes(s, t)
  {
  }

  lemma SettleKeepsWakeups(s: State, x: nat, outcome: Outcome)
    requires NoLostWakeup(s) && CanSettle(s, x)
    ensures NoLostWakeup(ApplySettle(s, x, outcome))
  {
    var t := ApplySettle(s, x, outcome);
    SettleWrites(s, x, outcome);
    SettleHasEffect(s, x, outcome);
    SettleKeepsWakers(s, x, outcome);
    if outcome.Succeeded? {
      CompletionKeepsWakeups(s, t, x);
    } else {
      OtherOutcomesCompleteNothing(s, t, x, outcome);
      NothingCompletesKeeps(s, t);
    }
  }

  lemma SettleKeepsWakers(s: State, x: nat, outcome: Outcome)
    requires CanSettle(s, x)
    ensures KeepsWakers(s, ApplySettle(s, x, outcome))
    ensures outcome.Succeeded? ==>
              && x in ApplySettle(s, x, outcome).executors
              && ApplySettle(s, x, outcome).executors[x] == s.executors[x].(phase := Announcing)
  {
  }

  /** Enqueueing queues every untouched step downstream of the completed one whose upstreams are all done. */
  lemma EnqueueQueues(s: State, x: nat, k: StepKey)
    requires CanEnqueue(s, x) && Untouched(s, k) && AllUpstreamsDone(s, k) && Wakes(s, x, k)
    ensures ApplyEnqueue(s, x).steps[k].status.Queued?
  {
    var key := s.executors[x].key;
    assert Edge(key.name, k.name) in DefinitionOf(s, k).edges;
    assert k.name in ToQueue(s, key);
    assert k in Keys(key.pid, ToQueue(s, key));
  }

  lemma EnqueueKeepsWakeups(s: State, x: nat)
    requires RowsOk(s) && NoLostWakeup(s) && CanEnqueue(s, x)
    ensures NoLostWakeup(ApplyEnqueue(s, x))
  {
    var t := ApplyEnqueue(s, x);
    EnqueueIsQuiet(s, x);
    QuietCompletesNothing(s, t);
    forall k | Untouched(t, k) && AllUpstreamsDone(t, k) ensures WakeupComing(t, k) {
      assert Untouched(s, k) && AllUpstreamsDone(s, k);
      var y :| Wakes(s, y, k);
      if y == x {
        EnqueueQueues(s, x, k);
      } else {
        assert Wakes(t, y, k);
      }
    }
  }

  lemma FinaliseKeepsWakers(s: State, x: nat)
    ensures KeepsWakers(s, ApplyFinalise(s, x))
  {
    if x in s.executors && s.executors[x].phase.Finalising? && s.executors[x].key.pid in s.processes {
      FinalisedWrites(s.(executors := s.executors - {x}, log := s.log + s.executors[x].phase.unsaved), s.executors[x].key.pid);
    }
  }

  lemma AnnounceKeepsWakers(s: State, x: nat)
    ensures KeepsWakers(s, ApplyAnnounce(s, x))
  {
  }

  lemma OtherQuietActionsKeepWakers(s: State, a: Action)
    requires IsQuiet(a) && !a.Enqueue?
    ensures KeepsWakers(s, Apply(s, a))
  {
    hide ApplyFinalise, ApplyAnnounce;
    match a
    case Finalise(x) => FinaliseKeepsWakers(s, x);
    case Announce(x) => AnnounceKeepsWakers(s, x);
    case _ =>
  }

  lemma IdleKeepsWakeups(s: State, t: State)
    requires NoLostWakeup(s) && t.steps == s.steps && t.processes == s.processes && t.executors == s.executors
    ensures NoLostWakeup(t)
  {
    forall k | Untouched(t, k) && AllUpstreamsDone(t, k) ensures WakeupComing(t, k) {
      assert Untouched(s, k) && AllUpstreamsDone(s, k);
      var x :| Wakes(s, x, k);
      assert Wakes(t, x, k);
    }
  }

  lemma QuietKeepsNoLostWakeup(s: State, a: Action)
    requires RowsOk(s) && NoLostWakeup(s) && IsQuiet(a) && !a.Enqueue?
    ensures NoLostWakeup(Apply(s, a))
  {
    QuietActions(s, a);
    QuietCompletesNothing(s, Apply(s, a));
    OtherQuietActionsKeepWakers(s, a);
    NothingCompletesKeeps(s, Apply(s, a));
  }

  lemma CommitKeepsNoLostWakeup(s: State, worker: nat)
    requires Safe(s) && NoLostWakeup(s)
    ensures NoLostWakeup(ApplyCommit(s, worker))
  {
    if CanCommit(s, worker) {
      CommitCompletesNothing(s, worker);
      CommitKeepsWakers(s, worker);
      NothingCompletesKeeps(s, ApplyCommit(s, worker));
    }
  }

  lemma ExecutorKeepsNoLostWakeup(s: State, a: Action)
    requires RowsOk(s) && NoLostWakeup(s) && (a.Settle? || a.Enqueue?)
    ensures NoLostWakeup(Apply(s, a))
  {
    if a.Settle? && CanSettle(s, a.executor) {
      SettleKeepsWakeups(s, a.executor, a.outcome);
    } else if a.Enqueue? && CanEnqueue(s, a.executor) {
      EnqueueKeepsWakeups(s, a.executor);
    }
  }

  lemma CreateKeepsNoLostWakeup(s: State, pid: nat, d: D.Definition)
    requires Safe(s) && NoLostWakeup(s)
    ensures NoLostWakeup(ApplyCreate(s, pid, d))
  {
    if CanCreate(s, pid, d) {
      CreateKeepsWakeups(s, pid, d);
    }
  }

  lemma OpenClaimKeepsNoLostWakeup(s: State, a: Action)
    requires NoLostWakeup(s) && (a.Scan? || a.LockNext?)
    ensures NoLostWakeup(Apply(s, a))
  {
    OpenClaimsWriteNoRow(s, a);
    IdleKeepsWakeups(s, Apply(s, a));
  }

  lemma KeepsNoLostWakeup(s: State, a: Action)
    requires Accounted(s) && NoLostWakeup(s)
    ensures NoLostWakeup(Apply(s, a))
  {
    if a.Settle? || a.Enqueue? {
      ExecutorKeepsNoLostWakeup(s, a);
    } else if IsQuiet(a) {
      QuietKeepsNoLostWakeup(s, a);
    } else if a.CommitClaims? {
      CommitKeepsNoLostWakeup(s, a.worker);
    } else if a.Create? {
      CreateKeepsNoLostWakeup(s, a.pid, a.definition);
    } else {
      OpenClaimKeepsNoLostWakeup(s, a);
    }
  }

  lemma {:induction false} EveryRunKeepsWakeups(actions: seq<Action>)
    ensures NoLostWakeup(Run(EMPTY, actions))
  {
    if actions != [] {
      var s := Run(EMPTY, actions[..|actions| - 1]);
      EveryRunIsAccounted(actions[..|actions| - 1]);
      EveryRunKeepsWakeups(actions[..|actions| - 1]);
      KeepsNoLostWakeup(s, actions[|actions| - 1]);
    }
  }

  /** When no executor is between its commits, no untouched step has all its upstreams done. */
  lemma NothingForgottenAtRest(actions: seq<Action>, k: StepKey)
    requires Run(EMPTY, actions).executors == map[]
    requires Untouched(Run(EMPTY, actions), k)
    ensures !AllUpstreamsDone(Run(EMPTY, actions), k)
  {
    EveryRunKeepsWakeups(actions);
  }
}
