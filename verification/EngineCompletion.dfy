/** A completed process is done for good: its steps succeeded, its outputs are theirs, and nothing changes again. */
module EngineCompletion {
  import opened StateMachine
  import opened EngineSpec
  import opened EngineSafety
  import D = Definition

  ghost predicate IsCompleted(s: State, pid: nat) {
    pid in s.processes && s.processes[pid].status.Completed?
  }

  ghost predicate OutputsOfSteps(s: State, pid: nat)
    requires pid in s.processes
  {
    AllSucceeded(s, pid) && s.processes[pid].outputs == CollectedOutputs(s, pid)
  }

  ghost predicate CompletedOk(s: State) {
    forall pid :: IsCompleted(s, pid) ==> OutputsOfSteps(s, pid)
  }

  /** The process row and all its step rows are the same. */
  ghost predicate Frozen(s: State, t: State, pid: nat) {
    && pid in s.processes && pid in t.processes && t.processes[pid] == s.processes[pid]
    && SameStepRows(s, t, pid)
  }

  ghost predicate SameStepRows(s: State, t: State, pid: nat) {
    forall k: StepKey :: k.pid == pid ==> (k in t.steps <==> k in s.steps) && (k in s.steps ==> t.steps[k] == s.steps[k])
  }

  lemma SameRowsSameStatuses(s: State, t: State, pid: nat)
    requires SameStepRows(s, t, pid)
    ensures AllSucceeded(t, pid) <==> AllSucceeded(s, pid)
  {
    assert forall k :: k in RowsOf(t, pid) <==> k in RowsOf(s, pid);
  }

  lemma SameRowsSameCollection(s: State, t: State, pid: nat)
    requires SameStepRows(s, t, pid)
    ensures CollectedOutputs(t, pid) == CollectedOutputs(s, pid)
  {
    assert NamesOf(t, pid) == NamesOf(s, pid);
  }

  lemma SameRowsSameOutputs(s: State, t: State, pid: nat)
    requires SameStepRows(s, t, pid)
    ensures AllSucceeded(t, pid) <==> AllSucceeded(s, pid)
    ensures CollectedOutputs(t, pid) == CollectedOutputs(s, pid)
  {
    SameRowsSameStatuses(s, t, pid);
    SameRowsSameCollection(s, t, pid);
  }

  // ----- No action touches a completed process -----

  lemma OperatorsLeaveItAlone(s: State, a: Action, pid: nat)
    requires IsCompleted(s, pid) && AllSucceeded(s, pid)
    requires a.Tick? || a.Start? || a.Cancel? || a.Resume? || a.Replay? || a.External?
    ensures Frozen(s, Apply(s, a), pid)
  {
    forall k | k in s.steps && k.pid == pid ensures IsDone(s.steps[k].status) {
      assert k in RowsOf(s, pid);
    }
    hide ApplyStart, ApplyCancel, ApplyResume, CanMove;
    match a
    case Start(p, order) => StartLeavesItAlone(s, p, order, pid);
    case Cancel(p, order) => CancelLeavesItAlone(s, p, order, pid);
    case Resume(p) => ResumeLeavesItAlone(s, p, pid);
    case External(p, target) => ExternalLeavesItAlone(s, p, target, pid);
    case _ =>
  }

  lemma StartLeavesItAlone(s: State, p: nat, order: seq<string>, pid: nat)
    requires IsCompleted(s, pid)
    ensures Frozen(s, ApplyStart(s, p, order), pid)
  {
  }

  lemma CancelLeavesItAlone(s: State, p: nat, order: seq<string>, pid: nat)
    requires IsCompleted(s, pid)
    ensures Frozen(s, ApplyCancel(s, p, order), pid)
  {
  }

  lemma ResumeLeavesItAlone(s: State, p: nat, pid: nat)
    requires IsCompleted(s, pid)
    ensures Frozen(s, ApplyResume(s, p), pid)
  {
  }

  lemma ExternalLeavesItAlone(s: State, p: nat, target: ProcessStatus, pid: nat)
    requires IsCompleted(s, pid)
    ensures Frozen(s, ApplyExternal(s, p, target), pid)
  {
  }

  lemma ClaimsLeaveItAlone(s: State, worker: nat, pid: nat)
    requires Safe(s) && IsCompleted(s, pid) && AllSucceeded(s, pid)
    ensures Frozen(s, ApplyCommit(s, worker), pid)
  {
    if CanCommit(s, worker) {
      assert WorkerHoldsClaims(s, worker);
      forall k | k in s.steps && k.pid == pid ensures k !in s.workers[worker].claimed {
        assert k in RowsOf(s, pid);
      }
    }
  }

  /** A completed process has no step in flight. */
  lemma NoFlightInCompleted(s: State, x: nat, pid: nat)
    requires FlightsHaveStatus(s) && AllSucceeded(s, pid) && x in s.executors && s.executors[x].phase.InFlight?
    ensures s.executors[x].key.pid != pid
  {
    var key := s.executors[x].key;
    assert InFlightOn(s, x, key);
    assert key.pid == pid ==> key in RowsOf(s, pid);
  }

  lemma SettlingLeavesItAlone(s: State, x: nat, outcome: Outcome, pid: nat)
    requires FlightsHaveStatus(s) && IsCompleted(s, pid) && AllSucceeded(s, pid)
    ensures Frozen(s, ApplySettle(s, x, outcome), pid)
  {
    if CanSettle(s, x) {
      NoFlightInCompleted(s, x, pid);
    }
  }

  lemma EnqueueingLeavesItAlone(s: State, x: nat, pid: nat)
    requires IsCompleted(s, pid) && AllSucceeded(s, pid)
    ensures Frozen(s, ApplyEnqueue(s, x), pid)
  {
    if CanEnqueue(s, x) {
      var key := s.executors[x].key;
      forall k | k in s.steps && k.pid == pid ensures k !in Keys(key.pid, ToQueue(s, key)) {
        assert k in RowsOf(s, pid);
      }
    }
  }

  lemma FinalisedLeavesOthersAlone(s: State, p: nat, pid: nat)
    requires p in s.processes && IsCompleted(s, pid) && p != pid
    ensures Frozen(s, Finalised(s, p), pid)
  {
  }

  /** A second finaliser saves the same outputs again and is refused the move. */
  lemma FinalisingAgainChangesNothing(s: State, pid: nat)
    requires IsCompleted(s, pid) && OutputsOfSteps(s, pid)
    ensures Frozen(s, Finalised(s, pid), pid)
  {
    var p := s.processes[pid];
    assert p.(outputs := CollectedOutputs(s, pid)) == p;
    assert SaveOutputs(s, pid, CollectedOutputs(s, pid)).processes == s.processes;
  }

  lemma FinalisingLeavesItAlone(s: State, x: nat, pid: nat)
    requires IsCompleted(s, pid) && OutputsOfSteps(s, pid)
    ensures Frozen(s, ApplyFinalise(s, x), pid)
  {
    if x in s.executors && s.executors[x].phase.Finalising? {
      var p := s.executors[x].key.pid;
      var logged := s.(executors := s.executors - {x}).(log := s.log + s.executors[x].phase.unsaved);
      SameRowsSameOutputs(s, logged, pid);
      if p in s.processes {
        if p == pid {
          FinalisingAgainChangesNothing(logged, pid);
        } else {
          FinalisedLeavesOthersAlone(logged, p, pid);
        }
      }
    }
  }

  lemma CompletedIsFrozen(s: State, a: Action, pid: nat)
    requires Safe(s) && IsCompleted(s, pid) && OutputsOfSteps(s, pid)
    ensures Frozen(s, Apply(s, a), pid)
  {
    hide RowsFit, ReferencesExist, ClaimsAreLocked, FlightsHaveStatus, OneExecutorPerStep, CollectedOutputs;
    hide ApplyStart, ApplyCancel, ApplyResume, ApplyCommit, ApplySettle, ApplyEnqueue, ApplyFinalise, ApplyCreate;
    match a
    case CommitClaims(worker) => ClaimsLeaveItAlone(s, worker, pid);
    case Settle(x, outcome) => SettlingLeavesItAlone(s, x, outcome, pid);
    case Enqueue(x) => EnqueueingLeavesItAlone(s, x, pid);
    case Finalise(x) => FinalisingLeavesItAlone(s, x, pid);
    case Create(p, d) => CreatingLeavesItAlone(s, p, d, pid);
    case Scan(_, _, _) => OpenClaimsWriteNoRow(s, a);
    case LockNext(_) => OpenClaimsWriteNoRow(s, a);
    case Announce(x) =>
    case _ => OperatorsLeaveItAlone(s, a, pid);
  }

  lemma CreatingLeavesItAlone(s: State, p: nat, d: D.Definition, pid: nat)
    requires RowsFit(s) && IsCompleted(s, pid)
    ensures Frozen(s, ApplyCreate(s, p, d), pid)
  {
    if CanCreate(s, p, d) {
      CreateAdds(s, p, d);
    }
  }

  // ----- How a process becomes completed -----

  lemma OnlyFinalisingCompletes(s: State, a: Action, pid: nat)
    requires !a.Finalise? && IsCompleted(Apply(s, a), pid)
    ensures IsCompleted(s, pid)
  {
  }

  lemma FinalisedIsOk(s: State, pid: nat)
    requires pid in s.processes && !IsCompleted(s, pid) && IsCompleted(Finalised(s, pid), pid)
    ensures OutputsOfSteps(Finalised(s, pid), pid)
  {
    FinalisedWrites(s, pid);
    SameRowsSameOutputs(s, Finalised(s, pid), pid);
  }

  lemma FinaliseTouchesOneProcess(s: State, x: nat, pid: nat)
    ensures pid in s.processes && !(x in s.executors && s.executors[x].key.pid == pid) ==>
              pid in ApplyFinalise(s, x).processes && ApplyFinalise(s, x).processes[pid] == s.processes[pid]
    ensures pid in ApplyFinalise(s, x).processes ==> pid in s.processes
  {
  }

  lemma FinaliseKeepsCompletedOk(s: State, x: nat, pid: nat)
    requires !IsCompleted(s, pid) && IsCompleted(ApplyFinalise(s, x), pid)
    ensures OutputsOfSteps(ApplyFinalise(s, x), pid)
  {
    FinaliseTouchesOneProcess(s, x, pid);
    FinalisedIsOk(s.(executors := s.executors - {x}).(log := s.log + s.executors[x].phase.unsaved), pid);
  }

  lemma KeepsCompletedOk(s: State, a: Action)
    requires Safe(s) && CompletedOk(s)
    ensures CompletedOk(Apply(s, a))
  {
    var t := Apply(s, a);
    forall pid | IsCompleted(t, pid) ensures OutputsOfSteps(t, pid) {
      if IsCompleted(s, pid) {
        CompletedIsFrozen(s, a, pid);
        SameRowsSameOutputs(s, t, pid);
      } else if a.Finalise? {
        FinaliseKeepsCompletedOk(s, a.executor, pid);
      } else {
        OnlyFinalisingCompletes(s, a, pid);
      }
    }
  }

  // ----- Every run -----

  lemma {:induction false} EveryRunIsCompletedOk(actions: seq<Action>)
    ensures CompletedOk(Run(EMPTY, actions))
  {
    if actions != [] {
      EveryRunIsSafe(actions[..|actions| - 1]);
      EveryRunIsCompletedOk(actions[..|actions| - 1]);
      KeepsCompletedOk(Run(EMPTY, actions[..|actions| - 1]), actions[|actions| - 1]);
    }
  }

  lemma FrozenTransitive(s: State, t: State, u: State, pid: nat)
    requires Frozen(s, t, pid) && Frozen(t, u, pid)
    ensures Frozen(s, u, pid)
  {
  }

  /**
   * Once a run has completed a process, every step of it is completed or skipped, its outputs are the
   * map of the steps' non-empty outputs, and no later action of anyone changes any of these rows.
   */
  lemma {:induction false} CompletedForGood(actions: seq<Action>, later: seq<Action>, pid: nat)
    requires IsCompleted(Run(EMPTY, actions), pid)
    ensures OutputsOfSteps(Run(EMPTY, actions), pid)
    ensures Frozen(Run(EMPTY, actions), Run(EMPTY, actions + later), pid)
  {
    hide Apply, Safe, CollectedOutputs, AllSucceeded;
    EveryRunIsCompletedOk(actions);
    var s := Run(EMPTY, actions);
    if later == [] {
      assert actions + later == actions;
    } else {
      var n := |later| - 1;
      var shorter := actions + later[..n];
      CompletedForGood(actions, later[..n], pid);
      assert (actions + later)[..|actions + later| - 1] == shorter;
      var t := Run(EMPTY, shorter);
      EveryRunIsSafe(shorter);
      EveryRunIsCompletedOk(shorter);
      CompletedIsFrozen(t, later[n], pid);
      FrozenTransitive(s, t, Apply(t, later[n]), pid);
    }
  }
}
