/** Retry accounting, the dead-letter queue, and how far apart the claims of a step are. */
module EngineRetries {
  import opened Wrappers
  import opened StateMachine
  import opened EngineSpec
  import opened EngineSafety
  import opened EngineRuns
  import D = Definition

  // ----- The account of one row -----

  ghost predicate Balanced(step: Step) {
    && 1 <= step.maxAttempts && step.attempt <= step.maxAttempts
    && (Waiting(step.status) ==> step.attempt < step.maxAttempts)
    && (step.status.Failed? ==> step.attempt == step.maxAttempts)
    && |step.claimTimes| == step.attempt + step.maxAttempts * step.replays
  }

  /** Without a replay, claim `i + 1` comes at least the back-off of attempt `i` after claim `i`. */
  ghost predicate Spaced(step: Step, clock: int) {
    && (forall i :: 0 <= i < |step.claimTimes| ==> step.claimTimes[i] <= clock)
    && (step.replays == 0 ==>
          && (forall i :: 0 < i < |step.claimTimes| ==>
                step.claimTimes[i] >= step.claimTimes[i - 1] + NextRetryDelay(i) * SECOND)
          && (step.status.Pending? ==> step.claimTimes == [])
          && (step.status.Retrying? ==>
                && step.claimTimes != [] && step.nextRetryAt.Some?
                && step.nextRetryAt.value >= step.claimTimes[|step.claimTimes| - 1] + NextRetryDelay(step.attempt) * SECOND))
  }

  ghost predicate RowOk(step: Step, clock: int) {
    Balanced(step) && Spaced(step, clock)
  }

  lemma QuietKeepsRow(before: Step, after: Step, clock: int, later: int)
    requires RowOk(before, clock) && QuietChange(before, after) && clock <= later
    ensures RowOk(after, later)
  {
    if after == AfterReplay(before) {
      assert before.maxAttempts * (before.replays + 1) == before.maxAttempts * before.replays + before.maxAttempts;
    }
  }

  lemma ClaimKeepsRow(step: Step, now: int, clock: int)
    requires RowOk(step, clock) && Ready(step, now) && now <= clock
    ensures RowOk(AfterClaim(step, now), clock)
  {
    NoReplaysNoBonus(step);
  }

  lemma NoReplaysNoBonus(step: Step)
    ensures step.replays == 0 ==> step.maxAttempts * step.replays == 0
  {
  }

  lemma FailureKeepsRow(step: Step, clock: int)
    requires RowOk(step, clock) && step.attempt >= 1
    ensures RowOk(AfterFailure(step, clock), clock)
  {
    NoReplaysNoBonus(step);
  }

  // ----- All rows, over every action -----

  ghost predicate RowsOk(s: State) {
    forall k :: k in s.steps ==> RowOk(s.steps[k], s.clock)
  }

  /** A step in flight has used at least one attempt. */
  ghost predicate FlightsCounted(s: State) {
    forall x, k :: InFlightOn(s, x, k) ==> k in s.steps && s.steps[k].attempt >= 1
  }

  lemma CreateKeepsRowsOk(s: State, pid: nat, d: D.Definition)
    requires Safe(s) && RowsOk(s) && CanCreate(s, pid, d)
    ensures RowsOk(ApplyCreate(s, pid, d))
  {
    CreateAdds(s, pid, d);
    forall k | k in Keys(pid, D.StepNames(d)) ensures RowOk(FreshStep(D.StepByName(d, k.name).value), s.clock) {
      assert D.StepFieldsOk(D.StepByName(d, k.name).value);
    }
  }

  lemma CommitKeepsRowsOk(s: State, worker: nat)
    requires Safe(s) && RowsOk(s) && CanCommit(s, worker)
    ensures RowsOk(ApplyCommit(s, worker))
  {
    var w, t := s.workers[worker], ApplyCommit(s, worker);
    assert WorkerHoldsClaims(s, worker);
    forall k | k in t.steps ensures RowOk(t.steps[k], t.clock) {
      if k in w.claimed {
        ClaimKeepsRow(s.steps[k], w.now, s.clock);
      }
    }
  }

  /** What settling does to the executor's own row. */
  ghost function SettledRow(step: Step, outcome: Outcome, clock: int): Step {
    match outcome
    case Crashed => AfterFailure(step, clock)
    case Unsuccessful => AfterFailure(step, clock)
    case Succeeded(outputs) => step.(status := StepStatus.Completed, outputs := outputs)
    case AwaitingApproval => step.(status := StepStatus.Paused)
  }

  ghost function SettledDlq(s: State, x: nat, outcome: Outcome): seq<DlqRow>
    requires CanSettle(s, x)
  {
    var key := s.executors[x].key;
    if (outcome.Crashed? || outcome.Unsuccessful?) && Exhausted(s.steps[key])
    then s.dlq + [DlqRow(key, s.steps[key].attempt, false)] else s.dlq
  }

  lemma SettleWrites(s: State, x: nat, outcome: Outcome)
    requires CanSettle(s, x)
    ensures var key, t := s.executors[x].key, ApplySettle(s, x, outcome);
            && t.steps == s.steps[key := SettledRow(s.steps[key], outcome, s.clock)]
            && t.dlq == SettledDlq(s, x, outcome)
  {
  }

  lemma SettledRowOk(step: Step, outcome: Outcome, clock: int)
    requires RowOk(step, clock) && step.attempt >= 1
    ensures RowOk(SettledRow(step, outcome, clock), clock)
  {
    FailureKeepsRow(step, clock);
  }

  lemma SettleKeepsRowsOk(s: State, x: nat, outcome: Outcome)
    requires RowsOk(s) && FlightsCounted(s) && CanSettle(s, x)
    ensures RowsOk(ApplySettle(s, x, outcome))
  {
    var key, t := s.executors[x].key, ApplySettle(s, x, outcome);
    SettleWrites(s, x, outcome);
    assert t.clock == s.clock;
    assert InFlightOn(s, x, key);
    SettledRowOk(s.steps[key], outcome, s.clock);
  }

  lemma QuietKeepsRowsOk(s: State, t: State)
    requires RowsOk(s) && Quiet(s, t)
    ensures RowsOk(t)
  {
    forall k | k in t.steps ensures RowOk(t.steps[k], t.clock) {
      QuietKeepsRow(s.steps[k], t.steps[k], s.clock, t.clock);
    }
  }

  lemma KeepsRowsOk(s: State, a: Action)
    requires Safe(s) && RowsOk(s) && FlightsCounted(s)
    ensures RowsOk(Apply(s, a))
  {
    hide FlightsCounted, Safe, Quiet;
    hide ApplyStart, ApplyCancel, ApplyResume, ApplyEnqueue, ApplyAnnounce, ApplyFinalise;
    if IsQuiet(a) {
      QuietActions(s, a);
      QuietKeepsRowsOk(s, Apply(s, a));
    } else if a.Create? && CanCreate(s, a.pid, a.definition) {
      CreateKeepsRowsOk(s, a.pid, a.definition);
    } else if a.CommitClaims? && CanCommit(s, a.worker) {
      CommitKeepsRowsOk(s, a.worker);
    } else if a.Settle? && CanSettle(s, a.executor) {
      SettleKeepsRowsOk(s, a.executor, a.outcome);
    }
  }

  lemma CommitKeepsCounted(s: State, worker: nat)
    requires Safe(s) && FlightsCounted(s) && CanCommit(s, worker)
    ensures FlightsCounted(ApplyCommit(s, worker))
  {
    var w, t := s.workers[worker], ApplyCommit(s, worker);
    FlightsAfterCommit(s, worker);
    forall x, k | InFlightOn(t, x, k) ensures k in t.steps && t.steps[k].attempt >= 1 {
      assert FlightAfterCommit(s, w, x, k);
    }
  }

  lemma SettleKeepsCounted(s: State, x: nat, outcome: Outcome)
    requires Safe(s) && FlightsCounted(s) && CanSettle(s, x)
    ensures FlightsCounted(ApplySettle(s, x, outcome))
  {
    SettleHasEffect(s, x, outcome);
    var t := ApplySettle(s, x, outcome);
    forall y, k | InFlightOn(t, y, k) ensures k in t.steps && t.steps[k].attempt >= 1 {
      assert InFlightOn(s, y, k) && y != x;
      assert InFlightOn(s, x, s.executors[x].key);
    }
  }

  lemma QuietKeepsCounted(s: State, t: State)
    requires FlightsCounted(s) && QuietRows(s, t) && SameActivities(s, t)
    requires FlightsHaveStatus(s)
    ensures FlightsCounted(t)
  {
    forall x, k | InFlightOn(t, x, k) ensures k in t.steps && t.steps[k].attempt >= 1 {
      assert InFlightOn(s, x, k);
      assert QuietChange(s.steps[k], t.steps[k]);
    }
  }

  lemma KeepsCounted(s: State, a: Action)
    requires Safe(s) && FlightsCounted(s)
    ensures FlightsCounted(Apply(s, a))
  {
    hide RowsFit, ReferencesExist, ClaimsAreLocked, FlightsHaveStatus, OneExecutorPerStep, QuietRows, SameActivities;
    var t := Apply(s, a);
    if IsQuiet(a) {
      QuietActions(s, a);
      QuietKeepsCounted(s, t);
    } else if a.CommitClaims? && CanCommit(s, a.worker) {
      CommitKeepsCounted(s, a.worker);
    } else if a.Settle? && CanSettle(s, a.executor) {
      SettleKeepsCounted(s, a.executor, a.outcome);
    } else if a.Create? || a.Scan? || a.LockNext? {
      IdleActions(s, a);
      SameRowsKeepCounted(s, t);
    }
  }

  lemma SameRowsKeepCounted(s: State, t: State)
    requires FlightsCounted(s) && t.executors == s.executors
    requires forall k :: k in s.steps ==> k in t.steps && t.steps[k] == s.steps[k]
    ensures FlightsCounted(t)
  {
    assert forall x, k :: InFlightOn(t, x, k) <==> InFlightOn(s, x, k);
  }

  // ----- The dead-letter queue -----

  ghost predicate OpenRow(s: State, i: nat, k: StepKey) {
    i < |s.dlq| && s.dlq[i].key == k && !s.dlq[i].resolved
  }

  /** Dead-letter rows record exhausted steps; a step has at most one open row, and one exactly when it failed. */
  ghost predicate DlqOk(s: State) {
    && (forall i :: 0 <= i < |s.dlq| ==> s.dlq[i].key in s.steps && s.dlq[i].retryCount == s.steps[s.dlq[i].key].maxAttempts)
    && (forall i, j, k :: OpenRow(s, i, k) && OpenRow(s, j, k) ==> i == j)
    && (forall k :: k in s.steps && s.steps[k].status.Failed? ==> exists i :: OpenRow(s, i, k))
    && (forall i, k :: OpenRow(s, i, k) ==> k in s.steps && !Waiting(s.steps[k].status))
    && (forall i, k, x :: OpenRow(s, i, k) ==> !InFlightOn(s, x, k))
  }

  ghost predicate RevivesNothing(s: State, t: State) {
    && t.dlq == s.dlq
    && forall k :: k in s.steps && k in t.steps ==> t.steps[k].replays == s.steps[k].replays
  }

  lemma HandlersReviveNothing(s: State, pid: nat, order: seq<string>)
    ensures RevivesNothing(s, ApplyStart(s, pid, order))
    ensures RevivesNothing(s, ApplyCancel(s, pid, order))
    ensures RevivesNothing(s, ApplyResume(s, pid))
  {
  }

  lemma EnqueueRevivesNothing(s: State, x: nat)
    ensures RevivesNothing(s, ApplyEnqueue(s, x))
  {
  }

  lemma FinaliseRevivesNothing(s: State, x: nat)
    ensures RevivesNothing(s, ApplyFinalise(s, x))
  {
    if x in s.executors && s.executors[x].phase.Finalising? && s.executors[x].key.pid in s.processes {
      FinalisedWrites(s.(executors := s.executors - {x}, log := s.log + s.executors[x].phase.unsaved), s.executors[x].key.pid);
    }
  }

  /** Only a replay touches the dead-letter queue or revives a row, apart from settling. */
  lemma OnlyReplayRevives(s: State, a: Action)
    requires IsQuiet(a) && !a.Replay?
    ensures RevivesNothing(s, Apply(s, a))
  {
    hide ApplyStart, ApplyCancel, ApplyResume, ApplyEnqueue, ApplyFinalise;
    match a
    case Start(pid, order) => HandlersReviveNothing(s, pid, order);
    case Cancel(pid, order) => HandlersReviveNothing(s, pid, order);
    case Resume(pid) => HandlersReviveNothing(s, pid, []);
    case Enqueue(x) => EnqueueRevivesNothing(s, x);
    case Finalise(x) => FinaliseRevivesNothing(s, x);
    case _ =>
  }

  lemma CalmKeepsDlq(s: State, t: State)
    requires DlqOk(s) && Quiet(s, t) && RevivesNothing(s, t)
    ensures DlqOk(t)
  {
    assert forall i, k :: OpenRow(t, i, k) <==> OpenRow(s, i, k);
    forall k | k in s.steps
      ensures t.steps[k].maxAttempts == s.steps[k].maxAttempts
      ensures Waiting(t.steps[k].status) ==> Waiting(s.steps[k].status)
      ensures t.steps[k].status.Failed? ==> s.steps[k].status.Failed?
    {
      assert QuietChange(s.steps[k], t.steps[k]);
    }
  }

  lemma ReplayKeepsDlq(s: State, row: nat)
    requires DlqOk(s) && CanReplay(s, row)
    ensures DlqOk(ApplyReplay(s, row))
  {
    var t, key := ApplyReplay(s, row), s.dlq[row].key;
    assert OpenRow(s, row, key);
    forall i, k ensures OpenRow(t, i, k) <==> OpenRow(s, i, k) && i != row {
    }
    forall k | k in t.steps && t.steps[k].status.Failed? ensures exists i :: OpenRow(t, i, k) {
      var i :| OpenRow(s, i, k);
      assert OpenRow(t, i, k);
    }
    assert forall x, k :: InFlightOn(t, x, k) <==> InFlightOn(s, x, k);
  }

  /** Claiming rewrites only waiting rows, and only those get a new executor. */
  lemma CommitTouchesWaitingRows(s: State, worker: nat, k: StepKey)
    requires Safe(s) && CanCommit(s, worker) && k in s.steps && !Waiting(s.steps[k].status)
    ensures var t := ApplyCommit(s, worker);
            && k in t.steps && t.steps[k] == s.steps[k]
            && forall x :: InFlightOn(t, x, k) <==> InFlightOn(s, x, k)
  {
    var w, t := s.workers[worker], ApplyCommit(s, worker);
    assert WorkerHoldsClaims(s, worker);
    assert k !in w.claimed;
    FlightsAfterCommit(s, worker);
    forall x ensures InFlightOn(t, x, k) <==> InFlightOn(s, x, k) {
      assert InFlightOn(t, x, k) <==> FlightAfterCommit(s, w, x, k);
    }
  }

  lemma CommitKeepsRows(s: State, worker: nat, k: StepKey)
    requires CanCommit(s, worker) && k in s.steps
    ensures var t := ApplyCommit(s, worker);
            && t.dlq == s.dlq && t.steps.Keys == s.steps.Keys
            && t.steps[k].maxAttempts == s.steps[k].maxAttempts
            && (t.steps[k].status.Failed? ==> s.steps[k].status.Failed?)
  {
  }

  lemma CommitKeepsDlq(s: State, worker: nat)
    requires Safe(s) && DlqOk(s) && CanCommit(s, worker)
    ensures DlqOk(ApplyCommit(s, worker))
  {
    hide ApplyCommit, Safe, InFlightOn;
    var t := ApplyCommit(s, worker);
    forall k | k in s.steps
      ensures t.dlq == s.dlq && t.steps.Keys == s.steps.Keys && t.steps[k].maxAttempts == s.steps[k].maxAttempts
      ensures t.steps[k].status.Failed? ==> s.steps[k].status.Failed?
    {
      CommitKeepsRows(s, worker, k);
    }
    CommitKeepsQueue(s, worker);
    assert forall i, k :: OpenRow(t, i, k) <==> OpenRow(s, i, k);
    forall i, k | OpenRow(s, i, k)
      ensures k in t.steps && !Waiting(t.steps[k].status) && forall x :: !InFlightOn(t, x, k)
    {
      CommitTouchesWaitingRows(s, worker, k);
    }
  }

  lemma CommitKeepsQueue(s: State, worker: nat)
    requires CanCommit(s, worker)
    ensures ApplyCommit(s, worker).dlq == s.dlq && ApplyCommit(s, worker).steps.Keys == s.steps.Keys
  {
  }

  /** Before settling, an in-flight step has no open row. */
  lemma SettleKeepsDlq(s: State, x: nat, outcome: Outcome)
    requires Safe(s) && RowsOk(s) && DlqOk(s) && CanSettle(s, x)
    ensures DlqOk(ApplySettle(s, x, outcome))
  {
    var key, t := s.executors[x].key, ApplySettle(s, x, outcome);
    SettleWrites(s, x, outcome);
    SettleHasEffect(s, x, outcome);
    assert InFlightOn(s, x, key);
    assert forall i :: !OpenRow(s, i, key);
    SettleDlqRows(s, t, x, outcome);
  }

  lemma SettleDlqRows(s: State, t: State, x: nat, outcome: Outcome)
    requires DlqOk(s) && CanSettle(s, x) && InFlightOn(s, x, s.executors[x].key) && OneExecutorPerStep(s)
    requires Balanced(s.steps[s.executors[x].key])
    requires t.steps == s.steps[s.executors[x].key := SettledRow(s.steps[s.executors[x].key], outcome, s.clock)]
    requires t.dlq == SettledDlq(s, x, outcome)
    requires forall y, k :: InFlightOn(t, y, k) <==> InFlightOn(s, y, k) && y != x
    ensures DlqOk(t)
  {
    var key := s.executors[x].key;
    assert forall i :: !OpenRow(s, i, key);
    forall i, k | OpenRow(t, i, k) ensures OpenRow(s, i, k) || (i == |s.dlq| && k == key && t.steps[key].status.Failed?) {
    }
    forall k | k in t.steps && t.steps[k].status.Failed? ensures exists i :: OpenRow(t, i, k) {
      if k == key {
        assert OpenRow(t, |s.dlq|, key);
      } else {
        var i :| OpenRow(s, i, k);
        assert OpenRow(t, i, k);
      }
    }
  }

  lemma IdleKeepsDlq(s: State, t: State)
    requires DlqOk(s) && Idle(s, t)
    requires forall k :: k in t.steps && k !in s.steps ==> t.steps[k].status.Pending?
    ensures DlqOk(t)
  {
    assert forall i, k :: OpenRow(t, i, k) <==> OpenRow(s, i, k);
    assert forall x, k :: InFlightOn(t, x, k) <==> InFlightOn(s, x, k);
    forall k | k in t.steps && t.steps[k].status.Failed? ensures exists i :: OpenRow(t, i, k) {
      var i :| OpenRow(s, i, k);
      assert OpenRow(t, i, k);
    }
  }

  // ----- Every run -----

  ghost predicate Accounted(s: State) {
    Safe(s) && RowsOk(s) && FlightsCounted(s) && DlqOk(s)
  }

  lemma KeepsDlqOk(s: State, a: Action)
    requires Accounted(s)
    ensures DlqOk(Apply(s, a))
  {
    hide DlqOk, RowsOk, FlightsCounted, RowsFit, ReferencesExist, ClaimsAreLocked, FlightsHaveStatus, OneExecutorPerStep;
    hide Idle, ApplyStart, ApplyCancel, ApplyResume, ApplyCreate, ApplyEnqueue, ApplyAnnounce, ApplyFinalise;
    var t := Apply(s, a);
    if a.Replay? {
      if CanReplay(s, a.row) {
        ReplayKeepsDlq(s, a.row);
      }
    } else if IsQuiet(a) {
      QuietActions(s, a);
      OnlyReplayRevives(s, a);
      CalmKeepsDlq(s, t);
    } else if a.CommitClaims? {
      if CanCommit(s, a.worker) {
        CommitKeepsDlq(s, a.worker);
      }
    } else if a.Settle? {
      if CanSettle(s, a.executor) {
        SettleKeepsDlq(s, a.executor, a.outcome);
      }
    } else {
      IdleActions(s, a);
      NewRowsArePending(s, a);
      IdleKeepsDlq(s, t);
    }
  }

  lemma NewRowsArePending(s: State, a: Action)
    requires RowsFit(s)
    ensures forall k :: k in Apply(s, a).steps && k !in s.steps ==> Apply(s, a).steps[k].status.Pending?
  {
    if a.Create? {
      if CanCreate(s, a.pid, a.definition) {
        CreateAdds(s, a.pid, a.definition);
      }
    } else if a.Settle? {
      if CanSettle(s, a.executor) {
        SettleHasEffect(s, a.executor, a.outcome);
      }
    } else if IsQuiet(a) {
      QuietActions(s, a);
    }
  }

  lemma {:induction false} EveryRunIsAccounted(actions: seq<Action>)
    ensures Accounted(Run(EMPTY, actions))
  {
    if actions != [] {
      var s := Run(EMPTY, actions[..|actions| - 1]);
      EveryRunIsAccounted(actions[..|actions| - 1]);
      KeepsSafe(s, actions[|actions| - 1]);
      KeepsRowsOk(s, actions[|actions| - 1]);
      KeepsCounted(s, actions[|actions| - 1]);
      KeepsDlqOk(s, actions[|actions| - 1]);
    }
  }

  /** In every run, a failed step has exactly one open dead-letter row, and no other step has a second one. */
  lemma FailedStepsAreInTheDlq(actions: seq<Action>, k: StepKey)
    ensures var s := Run(EMPTY, actions);
            k in s.steps && s.steps[k].status.Failed? ==>
              exists i :: OpenRow(s, i, k) && forall j :: OpenRow(s, j, k) ==> j == i
  {
    EveryRunIsAccounted(actions);
    var s := Run(EMPTY, actions);
    if k in s.steps && s.steps[k].status.Failed? {
      var i :| OpenRow(s, i, k);
      assert forall j :: OpenRow(s, j, k) ==> j == i;
    }
  }

  // ----- How many claims -----

  ghost function TotalClaims(s: State, rows: seq<StepKey>): nat
    requires forall k :: k in rows ==> k in s.steps
  {
    if rows == [] then 0 else |s.steps[rows[0]].claimTimes| + TotalClaims(s, rows[1..])
  }

  /** One set of attempts, and one more for each replay that revived the step. */
  ghost function Allowance(s: State, rows: seq<StepKey>): nat
    requires forall k :: k in rows ==> k in s.steps
  {
    if rows == [] then 0
    else s.steps[rows[0]].maxAttempts * (1 + s.steps[rows[0]].replays) + Allowance(s, rows[1..])
  }

  lemma BalancedRowIsWithinAllowance(step: Step)
    requires Balanced(step)
    ensures |step.claimTimes| <= step.maxAttempts * (1 + step.replays)
  {
    assert step.maxAttempts * (1 + step.replays) == step.maxAttempts + step.maxAttempts * step.replays;
  }

  lemma {:induction false} BalancedRowsAreWithinAllowance(s: State, rows: seq<StepKey>)
    requires forall k :: k in rows ==> k in s.steps && Balanced(s.steps[k])
    ensures TotalClaims(s, rows) <= Allowance(s, rows)
  {
    hide Balanced;
    if rows != [] {
      BalancedRowIsWithinAllowance(s.steps[rows[0]]);
      BalancedRowsAreWithinAllowance(s, rows[1..]);
    }
  }

  /** In every run, any steps together are claimed no more often than their attempts and replays allow. */
  lemma ClaimsWithinAllowance(actions: seq<Action>, rows: seq<StepKey>)
    requires forall k :: k in rows ==> k in Run(EMPTY, actions).steps
    ensures TotalClaims(Run(EMPTY, actions), rows) <= Allowance(Run(EMPTY, actions), rows)
  {
    hide Run, Balanced, Spaced, Safe, DlqOk, FlightsCounted;
    EveryRunIsAccounted(actions);
    BalancedRowsAreWithinAllowance(Run(EMPTY, actions), rows);
  }

  // ----- How far apart -----

  /** Least number of seconds from the first claim to the `n`-th. */
  function MinimalWait(n: nat): int
    requires n >= 1
  {
    if n <= 6 then (Power4(n - 1) - 1) / 3 else 341 + 256 * (n - 6)
  }

  lemma TimesFourModuloThree(x: nat)
    requires x % 3 == 1
    ensures (4 * x) % 3 == 1
  {
    assert 4 * x == 3 * (4 * (x / 3) + 1) + 1;
  }

  lemma {:induction false} Power4ModuloThree(n: nat)
    ensures Power4(n) % 3 == 1
  {
    if n > 0 {
      Power4ModuloThree(n - 1);
      TimesFourModuloThree(Power4(n - 1));
    }
  }

  lemma WaitGrowsByDelay(n: nat)
    requires n >= 1
    ensures MinimalWait(n + 1) == MinimalWait(n) + NextRetryDelay(n)
  {
    if n <= 5 {
      Power4ModuloThree(n - 1);
    } else if n == 6 {
      assert Power4(5) == 1024 by {
        assert Power4(1) == 4 && Power4(2) == 16 && Power4(3) == 64 && Power4(4) == 256;
      }
    }
  }

  lemma {:induction false} BackoffBound(step: Step, clock: int, n: nat)
    requires Spaced(step, clock) && step.replays == 0 && 1 <= n <= |step.claimTimes|
    ensures step.claimTimes[n - 1] - step.claimTimes[0] >= MinimalWait(n) * SECOND
  {
    if n == 1 {
      assert MinimalWait(1) == 0;
    } else {
      BackoffBound(step, clock, n - 1);
      WaitGrowsByDelay(n - 1);
    }
  }

  /** In every run, the n-th claim of a step that was never replayed keeps its distance from the first. */
  lemma ClaimsKeepTheirDistance(actions: seq<Action>, k: StepKey, n: nat)
    ensures var s := Run(EMPTY, actions);
            k in s.steps && s.steps[k].replays == 0 && 1 <= n <= |s.steps[k].claimTimes| ==>
              s.steps[k].claimTimes[n - 1] - s.steps[k].claimTimes[0] >= MinimalWait(n) * SECOND
  {
    var s := Run(EMPTY, actions);
    EveryRunIsAccounted(actions);
    if k in s.steps && s.steps[k].replays == 0 && 1 <= n <= |s.steps[k].claimTimes| {
      assert RowOk(s.steps[k], s.clock);
      BackoffBound(s.steps[k], s.clock, n);
    }
  }

  // ----- The bound is attained -----

  /** Nothing else goes on, and the row has just been claimed for the n-th time, as soon as it could. */
  ghost predicate ClaimedInTime(s: State, k: StepKey, n: nat, max: nat)
    requires n >= 1
  {
    && s.locks == map[] && s.workers == map[] && k in s.steps
    && (exists x :: x in s.executors && s.executors[x] == Executor(k, InFlight))
    && RowInTime(s.steps[k], s.clock, n, max)
  }

  ghost predicate RowInTime(row: Step, clock: int, n: nat, max: nat)
    requires n >= 1
  {
    && row.attempt == n && row.maxAttempts == max && row.replays == 0
    && |row.claimTimes| == n && row.claimTimes[n - 1] == clock
    && row.claimTimes[n - 1] - row.claimTimes[0] == MinimalWait(n) * SECOND
  }

  function Delayed(row: Step, clock: int, n: nat): Step {
    row.(status := StepStatus.Retrying, nextRetryAt := Some(clock + NextRetryDelay(n) * SECOND))
  }

  function Backoff(x: nat, k: StepKey, n: nat): seq<Action> {
    [Settle(x, Crashed), Tick(NextRetryDelay(n) * SECOND)]
  }

  lemma BackoffWorks(s: State, x: nat, k: StepKey, n: nat, max: nat)
    requires 1 <= n < max && ClaimedInTime(s, k, n, max) && x in s.executors && s.executors[x] == Executor(k, InFlight)
    ensures Run(s, Backoff(x, k, n))
            == s.(steps := s.steps[k := Delayed(s.steps[k], s.clock, n)], executors := s.executors - {x},
                  clock := s.clock + NextRetryDelay(n) * SECOND)
  {
    hide Run, MinimalWait, NextRetryDelay, Apply;
    var wait := NextRetryDelay(n) * SECOND;
    assert Backoff(x, k, n) == [Settle(x, Crashed)] + [Tick(wait)];
    RunAppend(s, [Settle(x, Crashed)], [Tick(wait)]);
    RunOne(s, Settle(x, Crashed));
    RunOne(Apply(s, Settle(x, Crashed)), Tick(wait));
    CrashThenWait(s, x, k, wait);
  }

  lemma CrashThenWait(s: State, x: nat, k: StepKey, wait: nat)
    requires k in s.steps && k !in s.locks && x in s.executors && s.executors[x] == Executor(k, InFlight)
    ensures Apply(Apply(s, Settle(x, Crashed)), Tick(wait))
            == MarkFailed(s, k).(executors := s.executors - {x}, clock := s.clock + wait)
  {
    hide AfterFailure;
  }

  lemma ClaimedOnceMore(row: Step, clock: int, n: nat, max: nat)
    requires 1 <= n && RowInTime(row, clock, n, max)
    ensures var later := clock + NextRetryDelay(n) * SECOND;
            RowInTime(AfterClaim(Delayed(row, clock, n), later), later, n + 1, max)
  {
    hide MinimalWait, NextRetryDelay;
    WaitGrowsByDelay(n);
  }

  /** Any step can be claimed n times, for every n that its attempts allow, with no more than the least wait. */
  lemma {:induction false} BoundIsAttained(pid: nat, d: D.Definition, name: string, n: nat) returns (actions: seq<Action>)
    requires D.Valid(d) && name in D.StepNames(d) && 1 <= n <= NewRow(d, name).maxAttempts
    ensures ClaimedInTime(Run(EMPTY, actions), StepKey(pid, name), n, NewRow(d, name).maxAttempts)
  {
    hide Run, NewRows, D.Valid, D.StepNames, D.StepByName, MinimalWait, NextRetryDelay, Ready, RowInTime;
    var k, max := StepKey(pid, name), NewRow(d, name).maxAttempts;
    if n == 1 {
      actions := FirstClaim(pid, d, name);
      FirstClaimWorks(pid, d, name);
      NewRowOf(pid, d, name);
      FirstClaimIsInTime(d, name);
      assert Run(EMPTY, actions).executors[0] == Executor(k, InFlight);
    } else {
      var before := BoundIsAttained(pid, d, name, n - 1);
      var s := Run(EMPTY, before);
      var x :| x in s.executors && s.executors[x] == Executor(k, InFlight);
      actions := before + (Backoff(x, k, n - 1) + ClaimOne(0, k));
      RunAppend(EMPTY, before, Backoff(x, k, n - 1) + ClaimOne(0, k));
      RunAppend(s, Backoff(x, k, n - 1), ClaimOne(0, k));
      BackoffWorks(s, x, k, n - 1, max);
      OnceMoreInTime(s, Run(s, Backoff(x, k, n - 1)), x, k, n - 1, max);
    }
  }

  lemma FirstClaimIsInTime(d: D.Definition, name: string)
    requires D.Valid(d) && name in D.StepNames(d)
    ensures RowInTime(AfterClaim(NewRow(d, name), 0), 0, 1, NewRow(d, name).maxAttempts)
  {
    hide D.Valid, D.StepByName;
  }

  lemma OnceMoreInTime(s: State, waited: State, x: nat, k: StepKey, n: nat, max: nat)
    requires 1 <= n < max && ClaimedInTime(s, k, n, max)
    requires waited == s.(steps := s.steps[k := Delayed(s.steps[k], s.clock, n)], executors := s.executors - {x},
                          clock := s.clock + NextRetryDelay(n) * SECOND)
    ensures ClaimedInTime(Run(waited, ClaimOne(0, k)), k, n + 1, max)
  {
    hide Run, MinimalWait, NextRetryDelay, RowInTime, AfterClaim;
    assert CanClaimOne(waited, 0, k);
    ClaimOneWorks(waited, 0, k);
    ClaimedOnceMore(s.steps[k], s.clock, n, max);
    assert AfterClaimOne(waited, k).executors[waited.nextExecutor] == Executor(k, InFlight);
  }
}
