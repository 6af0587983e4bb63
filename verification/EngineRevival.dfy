/** What can still be made to happen to a step: claim transactions end, failures are replayed, and the step is claimed. */
module EngineRevival {
  import opened Graph
  import opened EngineSpec
  import opened EngineSafety
  import opened EngineRetries
  import opened EngineRuns

  ghost predicate BeingExecuted(s: State, k: StepKey) {
    exists x :: InFlightOn(s, x, k)
  }

  // ----- Open claim transactions go on until they end -----

  predicate IsClaimWork(a: Action) {
    a.LockNext? || a.CommitClaims?
  }

  ghost predicate OnlyClaimWork(actions: seq<Action>) {
    forall a :: a in actions ==> IsClaimWork(a)
  }

  /** The holder of a lock can look at its next candidate, or commit and let go. */
  lemma HolderGoesOn(s: State, w: nat, k: StepKey)
    requires Safe(s) && k in s.locks && s.locks[k] == w
    ensures w in s.workers
    ensures s.workers[w].candidates != [] ==>
              var t := ApplyLockNext(s, w);
              && k in t.locks && t.locks[k] == w && w in t.workers
              && |t.workers[w].candidates| < |s.workers[w].candidates|
    ensures s.workers[w].candidates == [] ==> k !in ApplyCommit(s, w).locks
  {
    if s.workers[w].candidates != [] {
      assert s.workers[w].candidates[0] in Elements(s.workers[w].candidates);
      LockNextEffect(s, w);
    } else {
      assert forall c :: c in s.workers[w].claimed ==> c in Elements(s.workers[w].claimed);
      assert CanCommit(s, w);
    }
  }

  lemma {:induction false} ReleaseLock(actions: seq<Action>, k: StepKey) returns (later: seq<Action>)
    ensures OnlyClaimWork(later) && k !in Run(EMPTY, actions + later).locks
    decreases var s := Run(EMPTY, actions);
              if k in s.locks && s.locks[k] in s.workers then |s.workers[s.locks[k]].candidates| else 0
  {
    hide Run, Safe, ApplyLockNext, ApplyCommit;
    var s := Run(EMPTY, actions);
    if k !in s.locks {
      later := [];
      assert actions + later == actions;
    } else {
      var w := s.locks[k];
      EveryRunIsSafe(actions);
      HolderGoesOn(s, w, k);
      var a := if s.workers[w].candidates == [] then CommitClaims(w) else LockNext(w);
      RunAppend(EMPTY, actions, [a]);
      RunOne(s, a);
      if a.CommitClaims? {
        later := [a];
      } else {
        var rest := ReleaseLock(actions + [a], k);
        assert actions + [a] + rest == actions + ([a] + rest);
        later := [a] + rest;
      }
    }
  }

  /** The row and its executors are as they were. */
  ghost predicate Undisturbed(s: State, t: State, k: StepKey) {
    && k in s.steps && k in t.steps && t.steps[k] == s.steps[k]
    && forall x :: InFlightOn(t, x, k) <==> InFlightOn(s, x, k)
  }

  /** The step was waiting and has been claimed once. */
  ghost predicate JustTaken(s: State, t: State, k: StepKey) {
    && k in s.steps && k in t.steps && Waiting(s.steps[k].status)
    && |t.steps[k].claimTimes| == |s.steps[k].claimTimes| + 1 && BeingExecuted(t, k)
  }

  lemma CommitTakesOrLeaves(s: State, w: nat, k: StepKey)
    requires Safe(s) && k in s.steps
    ensures Undisturbed(s, ApplyCommit(s, w), k) || JustTaken(s, ApplyCommit(s, w), k)
  {
    if CanCommit(s, w) {
      var worker, t := s.workers[w], ApplyCommit(s, w);
      assert WorkerHoldsClaims(s, w);
      FlightsAfterCommit(s, w);
      forall x ensures InFlightOn(t, x, k) <==> FlightAfterCommit(s, worker, x, k) {
      }
      if k in worker.claimed {
        var i :| 0 <= i < |worker.claimed| && worker.claimed[i] == k;
        assert FlightAfterCommit(s, worker, s.nextExecutor + i, k);
        assert InFlightOn(t, s.nextExecutor + i, k);
      }
    }
  }

  lemma ClaimWorkTakesOrLeaves(s: State, a: Action, k: StepKey)
    requires Safe(s) && IsClaimWork(a) && k in s.steps
    ensures Undisturbed(s, Apply(s, a), k) || JustTaken(s, Apply(s, a), k)
  {
    hide ApplyCommit, JustTaken;
    if a.CommitClaims? {
      CommitTakesOrLeaves(s, a.worker, k);
    } else {
      OpenClaimsWriteNoRow(s, a);
    }
  }

  lemma InFlightIsNotWaiting(s: State, k: StepKey)
    requires Safe(s) && BeingExecuted(s, k)
    ensures k in s.steps && !Waiting(s.steps[k].status) && !s.steps[k].status.Failed? && !IsDone(s.steps[k].status)
  {
  }

  lemma {:induction false} ClaimWorkRun(actions: seq<Action>, later: seq<Action>, k: StepKey)
    requires OnlyClaimWork(later) && k in Run(EMPTY, actions).steps
    ensures || Undisturbed(Run(EMPTY, actions), Run(EMPTY, actions + later), k)
            || JustTaken(Run(EMPTY, actions), Run(EMPTY, actions + later), k)
  {
    hide Safe, Apply, Run, IsClaimWork;
    var s := Run(EMPTY, actions);
    if later == [] {
      assert actions + later == actions;
    } else {
      var front, last := later[..|later| - 1], later[|later| - 1];
      assert last in later && forall a :: a in front ==> a in later;
      ClaimWorkRun(actions, front, k);
      var m := Run(EMPTY, actions + front);
      assert actions + later == actions + front + [last];
      RunAppend(EMPTY, actions + front, [last]);
      RunOne(m, last);
      EveryRunIsSafe(actions + front);
      ClaimWorkTakesOrLeaves(m, last, k);
      if BeingExecuted(m, k) {
        InFlightIsNotWaiting(m, k);
      }
    }
  }

  // ----- A waiting or failed step can be claimed -----

  /** The replay of a failed step, or the passing of its back-off. */
  function Readying(s: State, k: StepKey, row: nat): Action
    requires k in s.steps
  {
    var step := s.steps[k];
    if step.status.Failed? then Replay(row)
    else Tick(if step.nextRetryAt.Some? && step.nextRetryAt.value > s.clock then step.nextRetryAt.value - s.clock else 0)
  }

  lemma ReadyingWorks(s: State, k: StepKey, row: nat)
    requires k in s.steps && k !in s.locks
    requires Waiting(s.steps[k].status) || (s.steps[k].status.Failed? && OpenRow(s, row, k))
    ensures var t := Apply(s, Readying(s, k, row));
            && k in t.steps && Ready(t.steps[k], t.clock) && t.steps[k].claimTimes == s.steps[k].claimTimes
            && t.locks == s.locks && t.workers == s.workers
  {
  }

  lemma StrangersHoldNoLock(s: State, worker: nat)
    requires Safe(s) && worker !in s.workers
    ensures HoldsNoLock(s, worker)
  {
  }

  lemma OpenRowOfFailed(actions: seq<Action>, k: StepKey) returns (row: nat)
    ensures var s := Run(EMPTY, actions); k in s.steps && s.steps[k].status.Failed? ==> OpenRow(s, row, k)
  {
    hide Run, RowsOk, Safe, FlightsCounted;
    EveryRunIsAccounted(actions);
    var s := Run(EMPTY, actions);
    row := 0;
    if k in s.steps && s.steps[k].status.Failed? {
      row :| OpenRow(s, row, k);
    }
  }

  predicate IsGentle(a: Action) {
    a.Tick? || a.Scan? || a.LockNext? || a.CommitClaims? || a.Replay? || (a.Settle? && a.outcome.Succeeded?)
  }

  ghost predicate AllGentle(actions: seq<Action>) {
    forall a :: a in actions ==> IsGentle(a)
  }

  lemma ClaimWhenUnlocked(actions: seq<Action>, k: StepKey) returns (later: seq<Action>)
    requires k in Run(EMPTY, actions).steps && k !in Run(EMPTY, actions).locks
    requires Waiting(Run(EMPTY, actions).steps[k].status) || Run(EMPTY, actions).steps[k].status.Failed?
    ensures AllGentle(later)
    ensures var s, t := Run(EMPTY, actions), Run(EMPTY, actions + later);
            && k in t.steps && BeingExecuted(t, k) && k !in t.locks
            && |t.steps[k].claimTimes| == |s.steps[k].claimTimes| + 1
  {
    hide Run, Ready, Safe;
    var s := Run(EMPTY, actions);
    var row := OpenRowOfFailed(actions, k);
    var a := Readying(s, k, row);
    ReadyingWorks(s, k, row);
    RunAppend(EMPTY, actions, [a]);
    RunOne(s, a);
    var ready := Run(EMPTY, actions + [a]);
    var worker := FreshNumber(ready.workers.Keys);
    EveryRunIsSafe(actions + [a]);
    StrangersHoldNoLock(ready, worker);
    ClaimOneWorks(ready, worker, k);
    RunAppend(EMPTY, actions + [a], ClaimOne(worker, k));
    later := [a] + ClaimOne(worker, k);
    assert actions + later == actions + [a] + ClaimOne(worker, k);
    assert InFlightOn(Run(EMPTY, actions + later), ready.nextExecutor, k);
  }

  /** Any waiting, failed or executing step can be brought into flight, unlocked, without touching an execution. */
  lemma MakeInFlight(actions: seq<Action>, k: StepKey) returns (later: seq<Action>)
    requires k in Run(EMPTY, actions).steps
    requires var s := Run(EMPTY, actions); BeingExecuted(s, k) || Waiting(s.steps[k].status) || s.steps[k].status.Failed?
    ensures AllGentle(later)
    ensures var s, t := Run(EMPTY, actions), Run(EMPTY, actions + later);
            && k in t.steps && BeingExecuted(t, k) && k !in t.locks
            && (if BeingExecuted(s, k) then Undisturbed(s, t, k) else |t.steps[k].claimTimes| == |s.steps[k].claimTimes| + 1)
  {
    hide Run, Safe;
    var s := Run(EMPTY, actions);
    var waiting := ReleaseLock(actions, k);
    ClaimWorkRun(actions, waiting, k);
    var unlocked := Run(EMPTY, actions + waiting);
    if BeingExecuted(s, k) {
      EveryRunIsSafe(actions);
      InFlightIsNotWaiting(s, k);
    }
    if BeingExecuted(unlocked, k) {
      later := waiting;
    } else {
      var claiming := ClaimWhenUnlocked(actions + waiting, k);
      later := waiting + claiming;
      assert actions + later == actions + waiting + claiming;
    }
  }
}
