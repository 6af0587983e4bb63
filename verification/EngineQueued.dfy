/** Which steps can still be claimed: never again, exactly for those that nobody executes and nothing makes ready. */
module EngineQueued {
  import opened StateMachine
  import opened EngineSpec
  import opened EngineSafety
  import opened EngineRuns
  import opened EngineRevival

  predicate QueuedOrCancelled(status: StepStatus) {
    status.Queued? || status.Cancelled?
  }

  /** Nobody executes the step, and neither time nor a replay can make it ready. */
  ghost predicate Inert(s: State, k: StepKey) {
    k in s.steps && !Waiting(s.steps[k].status) && !s.steps[k].status.Failed? && !BeingExecuted(s, k)
  }

  /** The step is still inert and has not been worked on; if it is queued or cancelled, or not done, it stays so. */
  ghost predicate StillInert(s: State, t: State, k: StepKey) {
    && k in s.steps && Inert(t, k)
    && t.steps[k].claimTimes == s.steps[k].claimTimes
    && t.steps[k].attempt == s.steps[k].attempt
    && t.steps[k].outputs == s.steps[k].outputs
    && (QueuedOrCancelled(s.steps[k].status) ==> QueuedOrCancelled(t.steps[k].status))
    && (!IsDone(s.steps[k].status) ==> !IsDone(t.steps[k].status))
  }

  lemma QuietKeepsInert(s: State, t: State, k: StepKey)
    requires Inert(s, k) && Quiet(s, t)
    ensures StillInert(s, t, k)
  {
    assert QuietChange(s.steps[k], t.steps[k]);
    assert forall x :: InFlightOn(t, x, k) <==> InFlightOn(s, x, k);
  }

  lemma CommitKeepsInert(s: State, worker: nat, k: StepKey)
    requires Safe(s) && Inert(s, k)
    ensures StillInert(s, ApplyCommit(s, worker), k)
  {
    if CanCommit(s, worker) {
      var t, w := ApplyCommit(s, worker), s.workers[worker];
      assert WorkerHoldsClaims(s, worker);
      assert k !in w.claimed;
      FlightsAfterCommit(s, worker);
      forall x ensures !InFlightOn(t, x, k) {
        assert InFlightOn(t, x, k) ==> FlightAfterCommit(s, w, x, k);
      }
    }
  }

  lemma SettleKeepsInert(s: State, x: nat, outcome: Outcome, k: StepKey)
    requires Inert(s, k)
    ensures StillInert(s, ApplySettle(s, x, outcome), k)
  {
    if CanSettle(s, x) {
      SettleHasEffect(s, x, outcome);
      assert InFlightOn(s, x, s.executors[x].key);
    }
  }

  lemma IdleKeepsInert(s: State, t: State, k: StepKey)
    requires Inert(s, k) && Idle(s, t)
    ensures StillInert(s, t, k)
  {
    assert forall x :: InFlightOn(t, x, k) <==> InFlightOn(s, x, k);
  }

  lemma ActionKeepsInert(s: State, a: Action, k: StepKey)
    requires Safe(s) && Inert(s, k)
    ensures StillInert(s, Apply(s, a), k)
  {
    hide Quiet, Idle, StillInert, Inert;
    if IsQuiet(a) {
      QuietActions(s, a);
      QuietKeepsInert(s, Apply(s, a), k);
    } else if a.CommitClaims? {
      CommitKeepsInert(s, a.worker, k);
    } else if a.Settle? {
      SettleKeepsInert(s, a.executor, a.outcome, k);
    } else {
      IdleActions(s, a);
      IdleKeepsInert(s, Apply(s, a), k);
    }
  }

  /** An inert step is never claimed, whatever anyone does later. */
  lemma {:induction false} InertStepsNeverRun(actions: seq<Action>, later: seq<Action>, k: StepKey)
    requires Inert(Run(EMPTY, actions), k)
    ensures StillInert(Run(EMPTY, actions), Run(EMPTY, actions + later), k)
  {
    hide Apply, Safe, BeingExecuted;
    if later == [] {
      assert actions + later == actions;
    } else {
      var n := |later| - 1;
      var shorter := actions + later[..n];
      InertStepsNeverRun(actions, later[..n], k);
      assert (actions + later)[..|actions + later| - 1] == shorter;
      EveryRunIsSafe(shorter);
      ActionKeepsInert(Run(EMPTY, shorter), later[n], k);
    }
  }

  /** Enqueueing downstream steps always leaves them queued and inert. */
  lemma EnqueuedStepsAreInert(s: State, x: nat, name: string)
    requires Safe(s) && CanEnqueue(s, x) && name in ToQueue(s, s.executors[x].key)
    ensures var t, k := ApplyEnqueue(s, x), StepKey(s.executors[x].key.pid, name);
            Inert(t, k) && t.steps[k].status.Queued?
  {
    hide ApplyEnqueue, ToQueue, InFlightOn, FlightsHaveStatus, SameActivities, QuietRows, RowsFit;
    QueuedByEnqueue(s, x, name);
    EnqueueIsQuiet(s, x);
    PendingIsNotInFlight(s, ApplyEnqueue(s, x), StepKey(s.executors[x].key.pid, name));
  }

  lemma PendingIsNotInFlight(s: State, t: State, k: StepKey)
    requires FlightsHaveStatus(s) && SameActivities(s, t) && k in s.steps && s.steps[k].status.Pending?
    ensures forall x :: !InFlightOn(t, x, k)
  {
    forall x ensures !InFlightOn(t, x, k) {
      assert InFlightOn(t, x, k) <==> InFlightOn(s, x, k);
    }
  }

  lemma QueuedByEnqueue(s: State, x: nat, name: string)
    requires CanEnqueue(s, x) && name in ToQueue(s, s.executors[x].key)
    ensures var k := StepKey(s.executors[x].key.pid, name);
            && k in s.steps && s.steps[k].status.Pending?
            && k in ApplyEnqueue(s, x).steps && ApplyEnqueue(s, x).steps[k].status.Queued?
  {
    assert StepKey(s.executors[x].key.pid, name) in Keys(s.executors[x].key.pid, ToQueue(s, s.executors[x].key));
  }

  /** Starting a process leaves a root step queued, and inert exactly when no executor already works on it. */
  lemma StartedRootsAreInertIff(s: State, pid: nat, order: seq<string>, name: string)
    requires Safe(s) && CanStart(s, pid, order) && name in order
    ensures var t, k := ApplyStart(s, pid, order), StepKey(pid, name);
            && k in t.steps && t.steps[k].status.Queued?
            && (Inert(t, k) <==> !BeingExecuted(s, k))
  {
    var k, t := StepKey(pid, name), ApplyStart(s, pid, order);
    assert k in Keys(pid, order);
    assert forall x :: InFlightOn(t, x, k) <==> InFlightOn(s, x, k);
  }

  // ----- Never again -----

  function ClaimTimes(s: State, k: StepKey): seq<int> {
    if k in s.steps then s.steps[k].claimTimes else []
  }

  ghost predicate NeverClaimedAgain(actions: seq<Action>, k: StepKey) {
    forall later :: ClaimTimes(Run(EMPTY, actions + later), k) == ClaimTimes(Run(EMPTY, actions), k)
  }

  lemma CrashedStepComesBack(s: State, x: nat, k: StepKey)
    requires Safe(s) && InFlightOn(s, x, k) && k in s.steps && k !in s.locks
    ensures var t := ApplySettle(s, x, Crashed);
            && k in t.steps && (Waiting(t.steps[k].status) || t.steps[k].status.Failed?)
            && t.steps[k].claimTimes == s.steps[k].claimTimes && !BeingExecuted(t, k)
  {
    SettleHasEffect(s, x, Crashed);
    assert forall y :: InFlightOn(s, y, k) ==> y == x;
  }

  /** A step in flight can fail, be made ready and be claimed again. */
  lemma FlightsCanBeClaimedAgain(actions: seq<Action>, k: StepKey) returns (later: seq<Action>)
    requires BeingExecuted(Run(EMPTY, actions), k)
    ensures |ClaimTimes(Run(EMPTY, actions + later), k)| == |ClaimTimes(Run(EMPTY, actions), k)| + 1
  {
    hide Run, Safe, ApplySettle;
    EveryRunIsSafe(actions);
    InFlightIsNotWaiting(Run(EMPTY, actions), k);
    var waiting := MakeInFlight(actions, k);
    var held := Run(EMPTY, actions + waiting);
    var x :| InFlightOn(held, x, k);
    EveryRunIsSafe(actions + waiting);
    CrashedStepComesBack(held, x, k);
    RunAppend(EMPTY, actions + waiting, [Settle(x, Crashed)]);
    RunOne(held, Settle(x, Crashed));
    var claiming := MakeInFlight(actions + waiting + [Settle(x, Crashed)], k);
    later := waiting + [Settle(x, Crashed)] + claiming;
    assert actions + later == actions + waiting + [Settle(x, Crashed)] + claiming;
  }

  /** Any other step that is not inert can be made ready and claimed. */
  lemma ActiveStepsCanBeClaimedAgain(actions: seq<Action>, k: StepKey) returns (later: seq<Action>)
    requires k in Run(EMPTY, actions).steps && !Inert(Run(EMPTY, actions), k)
    ensures |ClaimTimes(Run(EMPTY, actions + later), k)| == |ClaimTimes(Run(EMPTY, actions), k)| + 1
  {
    hide Run, BeingExecuted;
    if BeingExecuted(Run(EMPTY, actions), k) {
      later := FlightsCanBeClaimedAgain(actions, k);
    } else {
      later := MakeInFlight(actions, k);
    }
  }

  /**
   * In every run, a step is never claimed again, in any continuation, exactly when no executor has it in
   * flight and it is neither waiting nor failed.
   */
  lemma NeverClaimedAgainIff(actions: seq<Action>, k: StepKey)
    requires k in Run(EMPTY, actions).steps
    ensures NeverClaimedAgain(actions, k) <==> Inert(Run(EMPTY, actions), k)
  {
    hide Run, Inert;
    var s := Run(EMPTY, actions);
    if Inert(s, k) {
      forall later ensures ClaimTimes(Run(EMPTY, actions + later), k) == ClaimTimes(s, k) {
        InertStepsNeverRun(actions, later, k);
        StillInertIsThere(s, Run(EMPTY, actions + later), k);
      }
    } else {
      var later := ActiveStepsCanBeClaimedAgain(actions, k);
    }
  }

  lemma StillInertIsThere(s: State, t: State, k: StepKey)
    requires StillInert(s, t, k)
    ensures ClaimTimes(t, k) == ClaimTimes(s, k)
  {
  }

  /** The same for all steps of a process. */
  ghost predicate ProcessNeverClaimedAgain(actions: seq<Action>, pid: nat) {
    forall k :: k in Run(EMPTY, actions).steps && k.pid == pid ==> NeverClaimedAgain(actions, k)
  }

  ghost predicate NothingInFlightOrFailed(s: State, pid: nat) {
    forall k :: k in s.steps && k.pid == pid ==> !BeingExecuted(s, k) && !s.steps[k].status.Failed?
  }

  lemma NothingWaitsAfterCancel(s: State, pid: nat, order: seq<string>, k: StepKey)
    requires CanCancel(s, pid, order) && k in ApplyCancel(s, pid, order).steps && k.pid == pid
    ensures !Waiting(ApplyCancel(s, pid, order).steps[k].status)
  {
  }

  /** Cancelling a process stops all claims of its steps exactly when none is left in flight and none has failed. */
  lemma CancelStopsClaimsIff(actions: seq<Action>, pid: nat, order: seq<string>)
    requires CanCancel(Run(EMPTY, actions), pid, order)
    ensures var after := actions + [Cancel(pid, order)];
            ProcessNeverClaimedAgain(after, pid) <==> NothingInFlightOrFailed(Run(EMPTY, after), pid)
  {
    hide Run, CanCancel, ApplyCancel, BeingExecuted, NeverClaimedAgain;
    var after := actions + [Cancel(pid, order)];
    RunAppend(EMPTY, actions, [Cancel(pid, order)]);
    RunOne(Run(EMPTY, actions), Cancel(pid, order));
    var t := Run(EMPTY, after);
    forall k | k in t.steps && k.pid == pid
      ensures NeverClaimedAgain(after, k) <==> !BeingExecuted(t, k) && !t.steps[k].status.Failed?
    {
      NothingWaitsAfterCancel(Run(EMPTY, actions), pid, order, k);
      NeverClaimedAgainIff(after, k);
    }
  }
}
