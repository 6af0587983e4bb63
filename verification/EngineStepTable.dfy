/** When the statuses of steps follow the step transition table, and when they bypass it. */
module EngineStepTable {
  import opened StateMachine
  import opened EngineSpec
  import opened EngineSafety
  import opened EngineRuns
  import D = Definition

  ghost predicate StatusChanges(s: State, t: State, k: StepKey) {
    k in s.steps && k in t.steps && t.steps[k].status != s.steps[k].status
  }

  ghost predicate ObeysTable(s: State, t: State, k: StepKey)
    requires k in s.steps && k in t.steps
  {
    CanTransitionStep(s.steps[k].status, t.steps[k].status)
  }

  /** The writes that do not ask the table and do not happen to agree with it. */
  predicate Bypasses(s: State, a: Action, k: StepKey)
    requires k in s.steps
  {
    match a
    case Start(_, _) => !s.steps[k].status.Pending?
    case Resume(_) => true
    case Replay(_) => true
    case CommitClaims(_) => s.steps[k].status.Retrying?
    case Settle(_, outcome) => outcome.AwaitingApproval? || !s.steps[k].status.Running?
    case _ => false
  }

  lemma StartBypassesIff(s: State, pid: nat, order: seq<string>, k: StepKey)
    requires StatusChanges(s, ApplyStart(s, pid, order), k)
    ensures ObeysTable(s, ApplyStart(s, pid, order), k) <==> s.steps[k].status.Pending?
  {
  }

  lemma CancelObeys(s: State, pid: nat, order: seq<string>, k: StepKey)
    requires StatusChanges(s, ApplyCancel(s, pid, order), k)
    ensures ObeysTable(s, ApplyCancel(s, pid, order), k)
  {
  }

  lemma ResumeBypasses(s: State, pid: nat, k: StepKey)
    requires StatusChanges(s, ApplyResume(s, pid), k)
    ensures !ObeysTable(s, ApplyResume(s, pid), k)
  {
  }

  lemma ReplayBypasses(s: State, row: nat, k: StepKey)
    requires StatusChanges(s, ApplyReplay(s, row), k)
    ensures !ObeysTable(s, ApplyReplay(s, row), k)
  {
  }

  lemma EnqueueObeys(s: State, x: nat, k: StepKey)
    requires StatusChanges(s, ApplyEnqueue(s, x), k)
    ensures ObeysTable(s, ApplyEnqueue(s, x), k)
  {
    var key := s.executors[x].key;
    assert k in Keys(key.pid, ToQueue(s, key));
  }

  lemma CommitBypassesIff(s: State, worker: nat, k: StepKey)
    requires ClaimsAreLocked(s) && StatusChanges(s, ApplyCommit(s, worker), k)
    ensures ObeysTable(s, ApplyCommit(s, worker), k) <==> !s.steps[k].status.Retrying?
  {
    assert WorkerHoldsClaims(s, worker);
  }

  lemma SettleBypassesIff(s: State, x: nat, outcome: Outcome, k: StepKey)
    requires FlightsHaveStatus(s) && StatusChanges(s, ApplySettle(s, x, outcome), k)
    ensures ObeysTable(s, ApplySettle(s, x, outcome), k)
            <==> !outcome.AwaitingApproval? && s.steps[k].status.Running?
  {
    assert InFlightOn(s, x, s.executors[x].key);
  }

  /** Only these actions change a status. */
  lemma OthersWriteNoStatus(s: State, a: Action, k: StepKey)
    requires RowsFit(s) && StatusChanges(s, Apply(s, a), k)
    ensures a.Start? || a.Cancel? || a.Resume? || a.Replay? || a.CommitClaims? || a.Settle? || a.Enqueue?
  {
    hide ApplyStart, ApplyCancel, ApplyResume, ApplyReplay, ApplyCommit, ApplySettle, ApplyEnqueue, ApplyFinalise;
    match a
    case Create(pid, d) => CreateIsIdle(s, pid, d);
    case Finalise(x) => FinaliseWritesNoRow(s, x);
    case _ =>
  }

  /** A change of status is one that the table allows exactly when none of the bypassing writes made it. */
  lemma TableObeyedIff(s: State, a: Action, k: StepKey)
    requires Safe(s) && StatusChanges(s, Apply(s, a), k)
    ensures ObeysTable(s, Apply(s, a), k) <==> !Bypasses(s, a, k)
  {
    hide ApplyStart, ApplyCancel, ApplyResume, ApplyReplay, ApplyCommit, ApplySettle, ApplyEnqueue, ApplyFinalise;
    hide ObeysTable, StatusChanges;
    OthersWriteNoStatus(s, a, k);
    match a
    case Start(pid, order) => StartBypassesIff(s, pid, order, k);
    case Cancel(pid, order) => CancelObeys(s, pid, order, k);
    case Resume(pid) => ResumeBypasses(s, pid, k);
    case Replay(row) => ReplayBypasses(s, row, k);
    case CommitClaims(worker) => CommitBypassesIff(s, worker, k);
    case Settle(x, outcome) => SettleBypassesIff(s, x, outcome, k);
    case Enqueue(x) => EnqueueObeys(s, x, k);
    case _ =>
  }

  /** The same for every action of every run. */
  lemma TableObeyedIffInEveryRun(actions: seq<Action>, a: Action, k: StepKey)
    requires StatusChanges(Run(EMPTY, actions), Run(EMPTY, actions + [a]), k)
    ensures ObeysTable(Run(EMPTY, actions), Run(EMPTY, actions + [a]), k) <==> !Bypasses(Run(EMPTY, actions), a, k)
  {
    hide Apply, Safe, StatusChanges, ObeysTable, Bypasses;
    EveryRunIsSafe(actions);
    RunAppend(EMPTY, actions, [a]);
    RunOne(Run(EMPTY, actions), a);
    TableObeyedIff(Run(EMPTY, actions), a, k);
  }

  /** A run whose last action moves a step from running to paused, which the table does not know. */
  lemma ApprovalBypassesTheTable()
    ensures var before := FirstClaim(0, SINGLE, "only");
            var s, t, k := Run(EMPTY, before), Run(EMPTY, before + [Settle(0, AwaitingApproval)]), StepKey(0, "only");
            && StatusChanges(s, t, k) && s.steps[k].status.Running? && t.steps[k].status.Paused? && !ObeysTable(s, t, k)
  {
    hide Run, D.Valid, NewRows;
    SingleIsValid();
    FirstClaimWorks(0, SINGLE, "only");
    var before := FirstClaim(0, SINGLE, "only");
    RunAppend(EMPTY, before, [Settle(0, AwaitingApproval)]);
    RunOne(Run(EMPTY, before), Settle(0, AwaitingApproval));
  }
}
