/** What each action does, row by row and in terms of rows and statuses alone. */
module EngineEffects {
  import opened Wrappers
  import opened Graph
  import opened StateMachine
  import opened EngineSpec
  import opened EngineSafety
  import opened EngineRetries
  import opened EngineCompletion
  import opened EngineRuns
  import D = Definition

  // ----- When an action is accepted -----

  ghost predicate RowHas(s: State, pid: nat, name: string, statuses: set<StepStatus>) {
    StepKey(pid, name) in s.steps && s.steps[StepKey(pid, name)].status in statuses
  }

  ghost predicate NamesUnlocked(s: State, pid: nat, order: seq<string>) {
    forall n :: n in order ==> StepKey(pid, n) !in s.locks
  }

  /** A draft can be started; the rows to queue are those of the steps that no edge points to. */
  lemma StartAcceptedIff(s: State, pid: nat, order: seq<string>)
    ensures CanStart(s, pid, order)
            <==> && pid in s.processes && s.processes[pid].status == ProcessStatus.Draft
                 && Distinct(order) && NamesUnlocked(s, pid, order)
                 && (forall n :: n in order <==>
                       && n in D.StepNames(s.processes[pid].definition)
                       && forall e :: e in s.processes[pid].definition.edges ==> e.dst != n)
  {
    if pid in s.processes {
      SameKeysSameNames(pid, order, D.RootSteps(s.processes[pid].definition));
      UnlockedNames(s, pid, order);
    }
  }

  lemma SameKeysSameNames(pid: nat, a: seq<string>, b: seq<string>)
    ensures Keys(pid, a) == Keys(pid, b) <==> forall n :: n in a <==> n in b
  {
    if Keys(pid, a) == Keys(pid, b) {
      forall n ensures n in a <==> n in b {
        assert StepKey(pid, n) in Keys(pid, a) <==> StepKey(pid, n) in Keys(pid, b);
      }
    }
  }

  lemma UnlockedNames(s: State, pid: nat, order: seq<string>)
    ensures Unlocked(s, Keys(pid, order)) <==> NamesUnlocked(s, pid, order)
  {
    forall n ensures n in order <==> StepKey(pid, n) in Keys(pid, order) {
    }
  }

  const CANCELLABLE: set<StepStatus> := {StepStatus.Pending, StepStatus.Queued, StepStatus.Running, StepStatus.Retrying}

  /** Anything that is not final can be cancelled, with its pending, queued, running and retrying rows. */
  lemma CancelAcceptedIff(s: State, pid: nat, order: seq<string>)
    ensures CanCancel(s, pid, order)
            <==> && pid in s.processes
                 && s.processes[pid].status !in {ProcessStatus.Completed, ProcessStatus.Failed, ProcessStatus.Cancelled}
                 && Distinct(order) && NamesUnlocked(s, pid, order)
                 && (forall n :: n in order <==> RowHas(s, pid, n, CANCELLABLE))
  {
    var rows := CancellableRows(s, pid);
    assert forall n :: StepKey(pid, n) in rows <==> RowHas(s, pid, n, CANCELLABLE);
    assert Keys(pid, order) == rows <==> forall n :: n in order <==> StepKey(pid, n) in rows by {
      if forall n :: n in order <==> StepKey(pid, n) in rows {
        forall k ensures k in Keys(pid, order) <==> k in rows {
          assert k.pid == pid ==> k == StepKey(pid, k.name);
        }
      }
      if Keys(pid, order) == rows {
        forall n ensures n in order <==> StepKey(pid, n) in rows {
          assert StepKey(pid, n) in Keys(pid, order) <==> n in order;
        }
      }
    }
    UnlockedNames(s, pid, order);
  }

  /** A paused or stuck process can be resumed. */
  lemma ResumeAcceptedIff(s: State, pid: nat)
    ensures CanResume(s, pid)
            <==> && pid in s.processes && s.processes[pid].status in {ProcessStatus.Paused, ProcessStatus.Stuck}
                 && forall k :: k in s.steps && k.pid == pid && s.steps[k].status == StepStatus.Paused ==> k !in s.locks
  {
  }

  /** A scan lists at most three times the limit of rows, each pending or retrying and due by now. */
  lemma ScanAcceptedIff(s: State, worker: nat, limit: nat, candidates: seq<StepKey>)
    ensures var accepted := && worker !in s.workers && Distinct(candidates) && |candidates| <= 3 * limit
                            && forall k :: k in candidates ==>
                                 && RowHas(s, k.pid, k.name, {StepStatus.Pending, StepStatus.Retrying})
                                 && (s.steps[k].nextRetryAt.None? || s.steps[k].nextRetryAt.value <= s.clock);
            Apply(s, Scan(worker, limit, candidates))
            == if accepted then s.(workers := s.workers[worker := Worker(s.clock, limit, candidates, [])]) else s
  {
    assert forall k: StepKey :: k == StepKey(k.pid, k.name);
  }

  /** Enqueueing waits only for rows that it will write. */
  ghost predicate Ripe(s: State, from: StepKey, k: StepKey) {
    && from.pid in s.processes && k.pid == from.pid && k in s.steps && s.steps[k].status == StepStatus.Pending
    && Edge(from.name, k.name) in s.processes[from.pid].definition.edges
    && forall u :: Edge(u, k.name) in s.processes[from.pid].definition.edges && StepKey(k.pid, u) in s.steps ==>
         s.steps[StepKey(k.pid, u)].status in {StepStatus.Completed, StepStatus.Skipped}
  }

  lemma RipeIffToQueue(s: State, from: StepKey, k: StepKey)
    requires from.pid in s.processes
    ensures k in Keys(from.pid, ToQueue(s, from)) <==> Ripe(s, from, k)
  {
    var d := s.processes[from.pid].definition;
    assert forall u :: u in D.Upstream(d.edges, k.name) <==> Edge(u, k.name) in d.edges;
    assert k.name in D.Downstream(d.edges, from.name) <==> Edge(from.name, k.name) in d.edges;
    assert k.pid == from.pid ==> k == StepKey(from.pid, k.name);
  }

  lemma EnqueueAcceptedIff(s: State, x: nat)
    ensures CanEnqueue(s, x)
            <==> && x in s.executors && s.executors[x].phase == Enqueueing && s.executors[x].key.pid in s.processes
                 && forall k :: Ripe(s, s.executors[x].key, k) ==> k !in s.locks
  {
    if x in s.executors && s.executors[x].key.pid in s.processes {
      forall k ensures k in Keys(s.executors[x].key.pid, ToQueue(s, s.executors[x].key)) <==> Ripe(s, s.executors[x].key, k) {
        RipeIffToQueue(s, s.executors[x].key, k);
      }
    }
  }

  // ----- What it does to a row -----

  /** What a failed attempt leaves: the step fails with its last attempt, and otherwise waits 4^(a - 1) seconds, at most 256. */
  ghost predicate AttemptFailed(before: Step, after: Step, clock: int)
    requires before.attempt >= 1
  {
    if before.attempt >= before.maxAttempts then after == before.(status := StepStatus.Failed)
    else
      after == before.(
        status := StepStatus.Retrying,
        nextRetryAt := Some(clock + Power4(if before.attempt <= 5 then before.attempt - 1 else 4) * 1_000_000))
  }

  lemma FailureIsSpelledOut(step: Step, clock: int)
    requires step.attempt >= 1
    ensures AttemptFailed(step, AfterFailure(step, clock), clock)
  {
    assert Power4(4) == 256 by {
      assert Power4(1) == 4 && Power4(2) == 16 && Power4(3) == 64;
    }
  }

  /** The row of a step after an action, case by case. */
  ghost predicate RowRewritten(s: State, a: Action, k: StepKey, after: Step)
    requires k in s.steps
  {
    var row := s.steps[k];
    match a
    case Start(pid, order) =>
      after == if CanStart(s, pid, order) && k.pid == pid && k.name in order then row.(status := StepStatus.Queued) else row
    case Cancel(pid, order) =>
      after == if CanCancel(s, pid, order) && k.pid == pid && row.status in CANCELLABLE
               then row.(status := StepStatus.Cancelled) else row
    case Resume(pid) =>
      after == if CanResume(s, pid) && k.pid == pid && row.status == StepStatus.Paused
               then row.(status := StepStatus.Queued, nextRetryAt := None) else row
    case Replay(i) =>
      after == if i < |s.dlq| && !s.dlq[i].resolved && s.dlq[i].key == k && k !in s.locks && row.status == StepStatus.Failed
               then row.(status := StepStatus.Pending, attempt := 0, nextRetryAt := None, replays := row.replays + 1) else row
    case CommitClaims(w) =>
      after == if w in s.workers && s.workers[w].candidates == [] && k in s.workers[w].claimed
               then row.(status := StepStatus.Running, attempt := row.attempt + 1, nextRetryAt := None,
                         claimTimes := row.claimTimes + [s.workers[w].now])
               else row
    case Settle(x, outcome) =>
      if InFlightOn(s, x, k) && k !in s.locks then
        match outcome
        case Succeeded(outputs) => after == row.(status := StepStatus.Completed, outputs := outputs)
        case AwaitingApproval => after == row.(status := StepStatus.Paused)
        case _ => row.attempt >= 1 && AttemptFailed(row, after, s.clock)
      else after == row
    case Enqueue(x) =>
      after == if CanEnqueue(s, x) && Ripe(s, s.executors[x].key, k)
               then row.(status := StepStatus.Queued, nextRetryAt := None) else row
    case _ => after == row
  }

  lemma StartRewrites(s: State, pid: nat, order: seq<string>, k: StepKey)
    requires k in s.steps
    ensures k in ApplyStart(s, pid, order).steps && RowRewritten(s, Start(pid, order), k, ApplyStart(s, pid, order).steps[k])
  {
    hide CanStart;
  }

  lemma CancelRewrites(s: State, pid: nat, order: seq<string>, k: StepKey)
    requires k in s.steps
    ensures k in ApplyCancel(s, pid, order).steps && RowRewritten(s, Cancel(pid, order), k, ApplyCancel(s, pid, order).steps[k])
  {
  }

  lemma ResumeRewrites(s: State, pid: nat, k: StepKey)
    requires k in s.steps
    ensures k in ApplyResume(s, pid).steps && RowRewritten(s, Resume(pid), k, ApplyResume(s, pid).steps[k])
  {
  }

  lemma ReplayRewrites(s: State, row: nat, k: StepKey)
    requires k in s.steps
    ensures k in ApplyReplay(s, row).steps && RowRewritten(s, Replay(row), k, ApplyReplay(s, row).steps[k])
  {
  }

  lemma CommitRewrites(s: State, w: nat, k: StepKey)
    requires Safe(s) && k in s.steps
    ensures k in ApplyCommit(s, w).steps && RowRewritten(s, CommitClaims(w), k, ApplyCommit(s, w).steps[k])
  {
    if w in s.workers {
      assert WorkerHoldsClaims(s, w);
    }
  }

  lemma SettleRewrites(s: State, x: nat, outcome: Outcome, k: StepKey)
    requires FlightsCounted(s) && k in s.steps
    ensures k in ApplySettle(s, x, outcome).steps && RowRewritten(s, Settle(x, outcome), k, ApplySettle(s, x, outcome).steps[k])
  {
    hide AttemptFailed;
    if CanSettle(s, x) {
      SettleWrites(s, x, outcome);
      assert InFlightOn(s, x, s.executors[x].key);
      FailureIsSpelledOut(s.steps[s.executors[x].key], s.clock);
    }
  }

  lemma EnqueueRewrites(s: State, x: nat, k: StepKey)
    requires k in s.steps
    ensures k in ApplyEnqueue(s, x).steps && RowRewritten(s, Enqueue(x), k, ApplyEnqueue(s, x).steps[k])
  {
    hide Ripe, ToQueue;
    if CanEnqueue(s, x) {
      RipeIffToQueue(s, s.executors[x].key, k);
    }
  }

  lemma CreateLeavesRows(s: State, pid: nat, d: D.Definition, k: StepKey)
    requires RowsFit(s) && k in s.steps
    ensures k in ApplyCreate(s, pid, d).steps && ApplyCreate(s, pid, d).steps[k] == s.steps[k]
  {
    if CanCreate(s, pid, d) {
      CreateAdds(s, pid, d);
    }
  }

  ghost predicate WritesNoRow(a: Action) {
    a.Tick? || a.External? || a.Scan? || a.LockNext? || a.Announce?
  }

  lemma OthersWriteNoRow(s: State, a: Action)
    requires WritesNoRow(a)
    ensures Apply(s, a).steps == s.steps
  {
    hide CanMove, CanScan, Ready;
  }

  lemma UnwrittenRow(s: State, a: Action, k: StepKey)
    requires k in s.steps && (WritesNoRow(a) || a.Create? || a.Finalise?)
    ensures RowRewritten(s, a, k, s.steps[k])
  {
  }

  lemma OtherActionsLeaveRow(s: State, a: Action, k: StepKey)
    requires Safe(s) && k in s.steps && (WritesNoRow(a) || a.Create? || a.Finalise?)
    ensures k in Apply(s, a).steps && RowRewritten(s, a, k, Apply(s, a).steps[k])
  {
    hide RowRewritten, ApplyFinalise, ApplyCreate, ApplyExternal, ApplyScan, ApplyLockNext, ApplyAnnounce;
    UnwrittenRow(s, a, k);
    match a
    case Finalise(x) => FinaliseWritesNoRow(s, x);
    case Create(pid, d) => CreateLeavesRows(s, pid, d, k);
    case _ => OthersWriteNoRow(s, a);
  }

  /** Every action of every run does to every row exactly what the cases say. */
  lemma ActionRewritesRow(s: State, a: Action, k: StepKey)
    requires Safe(s) && FlightsCounted(s) && k in s.steps
    ensures k in Apply(s, a).steps && RowRewritten(s, a, k, Apply(s, a).steps[k])
  {
    hide ApplyStart, ApplyCancel, ApplyResume, ApplyReplay, ApplyCommit, ApplySettle, ApplyEnqueue, ApplyFinalise, ApplyCreate;
    hide RowRewritten, Safe, FlightsCounted;
    match a
    case Start(pid, order) => StartRewrites(s, pid, order, k);
    case Cancel(pid, order) => CancelRewrites(s, pid, order, k);
    case Resume(pid) => ResumeRewrites(s, pid, k);
    case Replay(row) => ReplayRewrites(s, row, k);
    case CommitClaims(w) => CommitRewrites(s, w, k);
    case Settle(x, outcome) => SettleRewrites(s, x, outcome, k);
    case Enqueue(x) => EnqueueRewrites(s, x, k);
    case _ => OtherActionsLeaveRow(s, a, k);
  }

  /** The same over runs. */
  lemma ActionRewritesRowInEveryRun(actions: seq<Action>, a: Action, k: StepKey)
    requires k in Run(EMPTY, actions).steps
    ensures var s, t := Run(EMPTY, actions), Run(EMPTY, actions + [a]);
            k in t.steps && RowRewritten(s, a, k, t.steps[k])
  {
    hide Apply, Run, Safe, FlightsCounted, RowsOk, DlqOk, RowRewritten;
    EveryRunIsAccounted(actions);
    RunAppend(EMPTY, actions, [a]);
    RunOne(Run(EMPTY, actions), a);
    ActionRewritesRow(Run(EMPTY, actions), a, k);
  }

  /** A failed attempt in terms of status and time alone. */
  lemma FailedAttemptInEveryRun(actions: seq<Action>, x: nat, outcome: Outcome)
    requires CanSettle(Run(EMPTY, actions), x) && (outcome.Crashed? || outcome.Unsuccessful?)
    ensures var s, t := Run(EMPTY, actions), Run(EMPTY, actions + [Settle(x, outcome)]);
            var k := s.executors[x].key;
            && k in t.steps && 1 <= s.steps[k].attempt <= s.steps[k].maxAttempts
            && (s.steps[k].attempt < s.steps[k].maxAttempts ==>
                  && t.steps[k].status == StepStatus.Retrying && t.dlq == s.dlq
                  && t.steps[k].nextRetryAt
                     == Some(s.clock + Power4(if s.steps[k].attempt <= 5 then s.steps[k].attempt - 1 else 4) * 1_000_000))
            && (s.steps[k].attempt == s.steps[k].maxAttempts ==>
                  && t.steps[k].status == StepStatus.Failed
                  && t.dlq == s.dlq + [DlqRow(k, s.steps[k].maxAttempts, false)])
  {
    hide Apply, Run, Safe, DlqOk, ApplySettle;
    var s := Run(EMPTY, actions);
    var k := s.executors[x].key;
    EveryRunIsAccounted(actions);
    ActionRewritesRowInEveryRun(actions, Settle(x, outcome), k);
    assert InFlightOn(s, x, k) && RowOk(s.steps[k], s.clock);
    RunAppend(EMPTY, actions, [Settle(x, outcome)]);
    SettleIsOneAction(s, x, outcome);
    SettleWrites(s, x, outcome);
  }

  lemma SettleIsOneAction(s: State, x: nat, outcome: Outcome)
    ensures Run(s, [Settle(x, outcome)]) == ApplySettle(s, x, outcome)
  {
    RunOne(s, Settle(x, outcome));
  }

  // ----- New rows -----

  /** Creating makes one row per step of the definition, pending and unused, with five attempts unless it says otherwise. */
  lemma CreateMakesRows(s: State, pid: nat, d: D.Definition)
    requires RowsFit(s) && pid !in s.processes && D.Valid(d)
    ensures var t := Apply(s, Create(pid, d));
            && (forall i :: 0 <= i < |d.steps| ==> NewRowIn(t, pid, d.steps[i]))
            && (forall k: StepKey :: k in t.steps <==> k in s.steps || (k.pid == pid && k.name in D.StepNames(d)))
            && t.processes == s.processes[pid := Process(d, ProcessStatus.Draft, map[], None, None)]
            && t.log == s.log + [Event(pid, None, "process.created", None)]
  {
    hide D.Valid, D.StepNames, D.StepByName, FreshStep, NewRowIn, RowsFit;
    CreateAdds(s, pid, d);
    forall i | 0 <= i < |d.steps|
      ensures NewRowIn(ApplyCreate(s, pid, d), pid, d.steps[i])
    {
      TheStepOfThatName(d, i);
      assert StepKey(pid, d.steps[i].name) in Keys(pid, D.StepNames(d));
      FreshRowIsNew(ApplyCreate(s, pid, d), pid, d.steps[i]);
    }
  }

  ghost predicate NewRowIn(t: State, pid: nat, def: D.StepDef) {
    StepKey(pid, def.name) in t.steps &&
    var row := t.steps[StepKey(pid, def.name)];
    && row.status == StepStatus.Pending && row.attempt == 0
    && row.maxAttempts == (if def.maxAttempts.Some? then def.maxAttempts.value else 5)
    && row.outputs == map[] && row.nextRetryAt == None && row.claimTimes == [] && row.replays == 0
  }

  lemma FreshRowIsNew(t: State, pid: nat, def: D.StepDef)
    requires D.StepFieldsOk(def)
    requires StepKey(pid, def.name) in t.steps && t.steps[StepKey(pid, def.name)] == FreshStep(def)
    ensures NewRowIn(t, pid, def)
  {
  }

  lemma TheStepOfThatName(d: D.Definition, i: nat)
    requires D.Valid(d) && i < |d.steps|
    ensures d.steps[i].name in D.StepNames(d) && D.StepByName(d, d.steps[i].name) == Some(d.steps[i])
    ensures D.StepFieldsOk(d.steps[i])
  {
    hide D.IsIdentifier, EndpointsIn, Acyclic, D.StepFieldsOk;
    var names := D.StepNames(d);
    assert names[i] == d.steps[i].name && d.steps[i] in d.steps;
    var r := D.StepByName(d, d.steps[i].name);
    var j: nat :| D.IsFirstNamed(d.steps, d.steps[i].name, j) && d.steps[j] == r.value;
    assert names[j] == names[i];
  }

  // ----- What an action does to a process -----

  /** Its rows are all completed, skipped, failed or cancelled. */
  ghost predicate RowsSettled(s: State, pid: nat) {
    forall k :: k in s.steps && k.pid == pid ==>
      s.steps[k].status in {StepStatus.Completed, StepStatus.Skipped, StepStatus.Failed, StepStatus.Cancelled}
  }

  ghost predicate SomeRowLost(s: State, pid: nat) {
    exists k :: k in s.steps && k.pid == pid && s.steps[k].status in {StepStatus.Failed, StepStatus.Cancelled}
  }

  ghost predicate Finalises(s: State, x: nat, pid: nat) {
    x in s.executors && s.executors[x].phase.Finalising? && s.executors[x].key.pid == pid
  }

  /** A non-empty output of a row of the process, by step name. */
  ghost predicate OutputsAreRows(s: State, pid: nat, outputs: map<string, Outputs>) {
    forall n ::
      (n in outputs <==> StepKey(pid, n) in s.steps && s.steps[StepKey(pid, n)].outputs != map[])
      && (n in outputs ==> outputs[n] == s.steps[StepKey(pid, n)].outputs)
  }

  /** Finalising, in terms of rows and status alone. */
  ghost predicate ProcessFinalised(s: State, pid: nat, before: Process, after: Process) {
    if !RowsSettled(s, pid) then after == before
    else if SomeRowLost(s, pid) then
      after == if before.status == ProcessStatus.Running
               then before.(status := ProcessStatus.Failed, finishedAt := Some(s.clock)) else before
    else
      && OutputsAreRows(s, pid, after.outputs)
      && after == if before.status == ProcessStatus.Running
                  then before.(outputs := after.outputs, status := ProcessStatus.Completed, finishedAt := Some(s.clock))
                  else before.(outputs := after.outputs)
  }

  lemma SettledRowsAreSettled(s: State, pid: nat)
    ensures AllSettled(s, pid) <==> RowsSettled(s, pid)
    ensures RowsSettled(s, pid) ==> (AllSucceeded(s, pid) <==> !SomeRowLost(s, pid))
  {
    assert forall k :: k in RowsOf(s, pid) <==> k in s.steps && k.pid == pid;
  }

  lemma CollectedAreRows(s: State, pid: nat)
    ensures OutputsAreRows(s, pid, CollectedOutputs(s, pid))
  {
  }

  lemma FinalisedIsSpelledOut(s: State, pid: nat)
    requires pid in s.processes && RowsSettled(s, pid)
    ensures pid in Finalised(s, pid).processes
    ensures ProcessFinalised(s, pid, s.processes[pid], Finalised(s, pid).processes[pid])
  {
    hide CollectedOutputs, OutputsAreRows, RowsSettled, SomeRowLost, AllSucceeded, MoveIfAllowed;
    SettledRowsAreSettled(s, pid);
    if SomeRowLost(s, pid) {
      EndsWhenRunning(s, pid, ProcessStatus.Failed);
    } else {
      CollectedAreRows(s, pid);
      EndsWhenRunning(SaveOutputs(s, pid, CollectedOutputs(s, pid)), pid, ProcessStatus.Completed);
    }
  }

  lemma EndsWhenRunning(s: State, pid: nat, target: ProcessStatus)
    requires pid in s.processes && (target.Completed? || target.Failed?)
    ensures pid in MoveIfAllowed(s, pid, target).processes
    ensures MoveIfAllowed(s, pid, target).processes[pid]
            == if s.processes[pid].status == ProcessStatus.Running
               then s.processes[pid].(status := target, finishedAt := Some(s.clock)) else s.processes[pid]
  {
    hide TransitionEvent;
  }

  lemma SameRowsSameOutcome(s: State, t: State, pid: nat, before: Process, after: Process)
    requires t.steps == s.steps && t.clock == s.clock && ProcessFinalised(s, pid, before, after)
    ensures ProcessFinalised(t, pid, before, after)
  {
  }

  /** What a finalising executor does to its process. */
  lemma FinaliseDecides(s: State, x: nat, pid: nat)
    requires Safe(s) && Finalises(s, x, pid)
    ensures pid in s.processes && pid in ApplyFinalise(s, x).processes
    ensures ProcessFinalised(s, pid, s.processes[pid], ApplyFinalise(s, x).processes[pid])
  {
    hide Finalised, ProcessFinalised, RowsSettled;
    assert s.executors[x].key in s.steps && s.executors[x].key in RowsOf(s, pid);
    SettledRowsAreSettled(s, pid);
    if RowsSettled(s, pid) {
      var logged := s.(executors := s.executors - {x}).(log := s.log + s.executors[x].phase.unsaved);
      SameRowsSettled(s, logged, pid);
      FinalisedIsSpelledOut(logged, pid);
      SameRowsSameOutcome(logged, s, pid, s.processes[pid], Finalised(logged, pid).processes[pid]);
    } else {
      UnsettledIsUnchanged(s, pid, s.processes[pid]);
    }
  }

  lemma SameRowsSettled(s: State, t: State, pid: nat)
    requires t.steps == s.steps
    ensures RowsSettled(t, pid) <==> RowsSettled(s, pid)
  {
  }

  lemma UnsettledIsUnchanged(s: State, pid: nat, p: Process)
    requires !RowsSettled(s, pid)
    ensures ProcessFinalised(s, pid, p, p)
  {
  }

  /** A move to a status: the first start is kept, and reaching an end or getting stuck is timed. */
  ghost predicate Becomes(before: Process, after: Process, status: ProcessStatus, clock: int) {
    after == before.(
      status := status,
      startedAt := if status == ProcessStatus.Running && before.startedAt == None then Some(clock) else before.startedAt,
      finishedAt := if status in {ProcessStatus.Completed, ProcessStatus.Failed, ProcessStatus.Cancelled, ProcessStatus.Stuck}
                    then Some(clock) else before.finishedAt)
  }

  ghost predicate AsksForApproval(s: State, x: nat, outcome: Outcome, pid: nat) {
    && CanSettle(s, x) && outcome.AwaitingApproval? && s.executors[x].key.pid == pid
    && pid in s.processes && s.processes[pid].status == ProcessStatus.Running
  }

  /** The process after an action, case by case. */
  ghost predicate ProcessRewritten(s: State, a: Action, pid: nat, after: Process)
    requires pid in s.processes
  {
    var p := s.processes[pid];
    match a
    case Start(q, order) =>
      if q == pid && CanStart(s, pid, order) then Becomes(p, after, ProcessStatus.Queued, s.clock) else after == p
    case Cancel(q, order) =>
      if q == pid && CanCancel(s, pid, order) then Becomes(p, after, ProcessStatus.Cancelled, s.clock) else after == p
    case Resume(q) =>
      if q == pid && CanResume(s, pid) then Becomes(p, after, ProcessStatus.Running, s.clock) else after == p
    case External(q, target) =>
      if q == pid && CanTransitionProcess(p.status, target) && target !in {ProcessStatus.Completed, ProcessStatus.Failed}
      then Becomes(p, after, target, s.clock) else after == p
    case Settle(x, outcome) =>
      if AsksForApproval(s, x, outcome, pid) then Becomes(p, after, ProcessStatus.Paused, s.clock) else after == p
    case Finalise(x) =>
      if Finalises(s, x, pid) then ProcessFinalised(s, pid, p, after) else after == p
    case _ => after == p
  }

  /** Every action does to every process exactly what the cases say. */
  lemma ActionRewritesProcess(s: State, a: Action, pid: nat)
    requires Safe(s) && pid in s.processes
    ensures pid in Apply(s, a).processes && ProcessRewritten(s, a, pid, Apply(s, a).processes[pid])
  {
    hide ProcessRewritten, Safe, ApplyFinalise;
    if a.Finalise? {
      FinaliseRewritesProcess(s, a.executor, pid);
    } else if a.Start? || a.Cancel? || a.Resume? || a.External? {
      OperatorRewritesProcess(s, a, pid);
    } else if a.Settle? {
      SettleRewritesProcess(s, a.executor, a.outcome, pid);
    } else {
      OthersLeaveProcess(s, a, pid);
    }
  }

  lemma FinaliseRewritesProcess(s: State, x: nat, pid: nat)
    requires Safe(s) && pid in s.processes
    ensures var t := ApplyFinalise(s, x); pid in t.processes && ProcessRewritten(s, Finalise(x), pid, t.processes[pid])
  {
    hide ProcessFinalised, ApplyFinalise, Safe;
    if Finalises(s, x, pid) {
      FinaliseDecides(s, x, pid);
    } else {
      NotFinalisingLeavesItAlone(s, x, pid);
    }
  }

  lemma NotFinalisingLeavesItAlone(s: State, x: nat, pid: nat)
    requires pid in s.processes && !Finalises(s, x, pid)
    ensures pid in ApplyFinalise(s, x).processes && ApplyFinalise(s, x).processes[pid] == s.processes[pid]
  {
    hide CollectedOutputs, AllSettled, AllSucceeded;
  }

  lemma OperatorRewritesProcess(s: State, a: Action, pid: nat)
    requires pid in s.processes && (a.Start? || a.Cancel? || a.Resume? || a.External?)
    ensures var t := Apply(s, a); pid in t.processes && ProcessRewritten(s, a, pid, t.processes[pid])
  {
    hide CanTransitionProcess, ProcessFinalised, StepEvents, Lists, Unlocked, CancellableRows, PausedRows;
  }

  lemma SettleRewritesProcess(s: State, x: nat, outcome: Outcome, pid: nat)
    requires pid in s.processes
    ensures var t := ApplySettle(s, x, outcome); pid in t.processes && ProcessRewritten(s, Settle(x, outcome), pid, t.processes[pid])
  {
    hide ProcessFinalised, AfterFailure, StepEvent, TransitionEvent;
  }

  lemma OthersLeaveProcess(s: State, a: Action, pid: nat)
    requires pid in s.processes
    requires a.Tick? || a.Create? || a.Replay? || a.Scan? || a.LockNext? || a.CommitClaims? || a.Announce? || a.Enqueue?
    ensures var t := Apply(s, a); pid in t.processes && ProcessRewritten(s, a, pid, t.processes[pid])
  {
    hide ProcessFinalised, NewRows, CanScan, CanCommit, CanReplay, ToQueue, StepEvents, Spawned, Ready, Unlocked;
  }

  /** A process becomes failed exactly when it is finalised while running, with all rows settled and one failed or cancelled. */
  lemma BecomesFailedIff(s: State, a: Action, pid: nat)
    requires Safe(s) && pid in s.processes && s.processes[pid].status != ProcessStatus.Failed
    ensures pid in Apply(s, a).processes
    ensures Apply(s, a).processes[pid].status == ProcessStatus.Failed
            <==> && a.Finalise? && Finalises(s, a.executor, pid)
                 && s.processes[pid].status == ProcessStatus.Running && RowsSettled(s, pid) && SomeRowLost(s, pid)
  {
    hide Apply, Safe, RowsSettled, SomeRowLost, OutputsAreRows, CanStart, CanCancel, CanResume, AsksForApproval;
    ActionRewritesProcess(s, a, pid);
  }

  /** It becomes completed exactly when it is finalised while running, with all rows completed or skipped. */
  lemma BecomesCompletedIff(s: State, a: Action, pid: nat)
    requires Safe(s) && pid in s.processes && s.processes[pid].status != ProcessStatus.Completed
    ensures pid in Apply(s, a).processes
    ensures Apply(s, a).processes[pid].status == ProcessStatus.Completed
            <==> && a.Finalise? && Finalises(s, a.executor, pid)
                 && s.processes[pid].status == ProcessStatus.Running && RowsSettled(s, pid) && !SomeRowLost(s, pid)
  {
    hide Apply, Safe, RowsSettled, SomeRowLost, OutputsAreRows, CanStart, CanCancel, CanResume, AsksForApproval;
    ActionRewritesProcess(s, a, pid);
  }

  ghost predicate HasStatus(s: State, pid: nat, status: ProcessStatus) {
    pid in s.processes && s.processes[pid].status == status
  }

  /** In every run, for every next action: who ends a process, and how it ends. */
  lemma EndsIffInEveryRun(actions: seq<Action>, a: Action, pid: nat)
    ensures var s, t := Run(EMPTY, actions), Run(EMPTY, actions + [a]);
            var finalised := a.Finalise? && Finalises(s, a.executor, pid) && RowsSettled(s, pid);
            && (HasStatus(t, pid, ProcessStatus.Failed) && !HasStatus(s, pid, ProcessStatus.Failed)
                <==> finalised && HasStatus(s, pid, ProcessStatus.Running) && SomeRowLost(s, pid))
            && (HasStatus(t, pid, ProcessStatus.Completed) && !HasStatus(s, pid, ProcessStatus.Completed)
                <==> finalised && HasStatus(s, pid, ProcessStatus.Running) && !SomeRowLost(s, pid))
  {
    hide Apply, Run, Safe, RowsSettled, SomeRowLost, Finalises;
    var s := Run(EMPTY, actions);
    EveryRunIsSafe(actions);
    RunAppend(EMPTY, actions, [a]);
    RunOne(s, a);
    if pid !in s.processes {
      NewProcessesAreDrafts(s, a, pid);
    } else {
      if s.processes[pid].status != ProcessStatus.Failed {
        BecomesFailedIff(s, a, pid);
      }
      if s.processes[pid].status != ProcessStatus.Completed {
        BecomesCompletedIff(s, a, pid);
      }
    }
  }

  lemma NewProcessesAreDrafts(s: State, a: Action, pid: nat)
    requires pid !in s.processes
    ensures pid in Apply(s, a).processes ==> Apply(s, a).processes[pid].status == ProcessStatus.Draft
  {
    hide ApplySettle, ApplyFinalise, ApplyStart, ApplyCancel, ApplyResume, ApplyExternal;
    hide NewRows, CanScan, CanCommit, CanReplay, ToQueue, StepEvents, Spawned, Ready, CanCreate;
    if a.Finalise? {
      FinaliseTouchesOneProcess(s, a.executor, pid);
    } else if a.Settle? || a.Start? || a.Cancel? || a.Resume? || a.External? {
      NoNewProcess(s, a, pid);
    }
  }

  lemma NoNewProcess(s: State, a: Action, pid: nat)
    requires pid !in s.processes && (a.Settle? || a.Start? || a.Cancel? || a.Resume? || a.External?)
    ensures pid !in Apply(s, a).processes
  {
    hide AfterFailure, StepEvent, StepEvents, Lists, Unlocked, CanTransitionProcess, Moved;
  }

  // ----- Where an executor goes -----

  /** The next phase, or none when the executor is done. */
  ghost predicate ExecutorMoved(s: State, a: Action, x: nat, next: Option<Executor>)
    requires x in s.executors
  {
    var now := s.executors[x];
    match a
    case Settle(y, Crashed) => next == if y == x && CanSettle(s, x) then None else Some(now)
    case Settle(y, AwaitingApproval) => next == if y == x && CanSettle(s, x) then None else Some(now)
    case Settle(y, Succeeded(_)) => next == Some(if y == x && CanSettle(s, x) then Executor(now.key, Announcing) else now)
    case Settle(y, Unsuccessful) =>
      next == Some(if y == x && CanSettle(s, x)
                   then Executor(now.key, Finalising([Event(now.key.pid, Some(now.key.name), "step.failed", None)])) else now)
    case Announce(y) => next == Some(if y == x && now.phase == Announcing then Executor(now.key, Enqueueing) else now)
    case Enqueue(y) => next == Some(if y == x && CanEnqueue(s, x) then Executor(now.key, Finalising([])) else now)
    case Finalise(y) => next == if y == x && now.phase.Finalising? then None else Some(now)
    case _ => next == Some(now)
  }

  function ExecutorIn(s: State, x: nat): Option<Executor> {
    if x in s.executors then Some(s.executors[x]) else None
  }

  /** Every executor goes from its claim to its end in this order. */
  lemma ExecutorsMove(s: State, a: Action, x: nat)
    requires Safe(s) && x in s.executors
    ensures ExecutorMoved(s, a, x, ExecutorIn(Apply(s, a), x))
  {
    hide Safe, ExecutorMoved, ApplyCommit, ApplyFinalise, ApplySettle, ApplyEnqueue, ApplyAnnounce;
    match a
    case Settle(y, outcome) => SettleMoves(s, y, outcome, x);
    case Finalise(y) => FinaliseMoves(s, y, x);
    case CommitClaims(w) => CommitLeavesExecutor(s, w, x);
    case Announce(y) => LaterPhasesMove(s, y, x);
    case Enqueue(y) => LaterPhasesMove(s, y, x);
    case _ => OthersLeaveExecutor(s, a, x);
  }

  lemma SettleMoves(s: State, y: nat, outcome: Outcome, x: nat)
    requires x in s.executors
    ensures ExecutorMoved(s, Settle(y, outcome), x, ExecutorIn(ApplySettle(s, y, outcome), x))
  {
    hide AfterFailure, CanTransitionProcess, Moved;
    assert "step." + "failed" == "step.failed";
  }

  lemma FinaliseMoves(s: State, y: nat, x: nat)
    requires x in s.executors
    ensures ExecutorMoved(s, Finalise(y), x, ExecutorIn(ApplyFinalise(s, y), x))
  {
    hide AllSettled, AllSucceeded, CollectedOutputs, CanMove, Moved, TransitionEvent;
  }

  lemma LaterPhasesMove(s: State, y: nat, x: nat)
    requires x in s.executors
    ensures ExecutorMoved(s, Announce(y), x, ExecutorIn(ApplyAnnounce(s, y), x))
    ensures ExecutorMoved(s, Enqueue(y), x, ExecutorIn(ApplyEnqueue(s, y), x))
  {
    hide StepEvents, Keys, Unlocked, StepEvent;
  }

  lemma CommitLeavesExecutor(s: State, worker: nat, x: nat)
    requires Safe(s) && x in s.executors
    ensures ExecutorMoved(s, CommitClaims(worker), x, ExecutorIn(ApplyCommit(s, worker), x))
  {
  }

  lemma OthersLeaveExecutor(s: State, a: Action, x: nat)
    requires x in s.executors
    requires a.Tick? || a.Create? || a.Start? || a.Cancel? || a.Resume? || a.Replay? || a.External? || a.Scan? || a.LockNext?
    ensures ExecutorMoved(s, a, x, ExecutorIn(Apply(s, a), x))
  {
    hide CanReplay, CanScan, Ready, NewRows, StepEvents, AfterReplay, Lists, Unlocked, CanTransitionProcess, StepEvents, Keys;
    hide CancellableRows, PausedRows, CreatedEvent, TransitionEvent, RowsOf;
  }

  // ----- What an action logs -----

  ghost predicate ProcessEventLogged(more: seq<Event>, p: Process, pid: nat, eventType: string, to: ProcessStatus) {
    more != [] && more[0] == Event(pid, None, eventType, Some(Change(p.status, to)))
  }

  /** One event of that type for each of the rows, in some order. */
  ghost predicate RowEventsLogged(more: seq<Event>, eventType: string, rows: set<StepKey>) {
    && (forall i :: 0 <= i < |more| ==> more[i].step.Some? && more[i] == Event(more[i].pid, more[i].step, eventType, None))
    && (forall i, j :: 0 <= i < j < |more| ==> more[i] != more[j])
    && (forall k: StepKey :: k in rows <==> Event(k.pid, Some(k.name), eventType, None) in more)
  }

  /** What starting, cancelling, resuming, announcing and enqueueing append to the log. */
  ghost predicate Reported(s: State, a: Action, more: seq<Event>) {
    match a
    case Start(pid, order) =>
      if CanStart(s, pid, order) then
        && ProcessEventLogged(more, s.processes[pid], pid, "process.queued", ProcessStatus.Queued)
        && RowEventsLogged(more[1..], "step.queued", Keys(pid, order))
      else more == []
    case Cancel(pid, order) =>
      if CanCancel(s, pid, order) then
        && ProcessEventLogged(more, s.processes[pid], pid, "process.cancelled", ProcessStatus.Cancelled)
        && RowEventsLogged(more[1..], "step.cancelled", Keys(pid, order))
      else more == []
    case Resume(pid) =>
      if CanResume(s, pid)
      then ProcessEventLogged(more, s.processes[pid], pid, "process.running", ProcessStatus.Running) && |more| == 1 else more == []
    case Announce(x) =>
      more == if x in s.executors && s.executors[x].phase == Announcing
              then [Event(s.executors[x].key.pid, Some(s.executors[x].key.name), "step.completed", None)] else []
    case Enqueue(x) =>
      if CanEnqueue(s, x) then
        && (forall k: StepKey :: Event(k.pid, Some(k.name), "step.queued", None) in more <==> Ripe(s, s.executors[x].key, k))
        && exists rows :: RowEventsLogged(more, "step.queued", rows)
      else more == []
    case _ => true
  }

  lemma StepEventsAreRowEvents(pid: nat, names: seq<string>, what: string)
    requires Distinct(names)
    ensures RowEventsLogged(StepEvents(pid, names, what), "step." + what, Keys(pid, names))
  {
    var more := StepEvents(pid, names, what);
    forall k: StepKey ensures k in Keys(pid, names) <==> Event(k.pid, Some(k.name), "step." + what, None) in more {
      if k in Keys(pid, names) {
        var i :| 0 <= i < |names| && names[i] == k.name;
        assert more[i] == Event(k.pid, Some(k.name), "step." + what, None);
      }
    }
  }

  lemma EventTypesAreSpelledOut()
    ensures "step." + "queued" == "step.queued" && "step." + "cancelled" == "step.cancelled" && "step." + "completed" == "step.completed"
    ensures PROCESS_PREFIX + StatusName(ProcessStatus.Queued) == "process.queued"
    ensures PROCESS_PREFIX + StatusName(ProcessStatus.Cancelled) == "process.cancelled"
    ensures PROCESS_PREFIX + StatusName(ProcessStatus.Running) == "process.running"
  {
  }

  lemma OperatorReports(s: State, a: Action) returns (more: seq<Event>)
    requires a.Start? || a.Cancel? || a.Resume?
    ensures Apply(s, a).log == s.log + more && Reported(s, a, more)
  {
    hide RowEventsLogged, StepEvents, Unlocked, CanTransitionProcess, PausedRows, Keys;
    EventTypesAreSpelledOut();
    match a {
      case Start(pid, order) =>
        if CanStart(s, pid, order) {
          StepEventsAreRowEvents(pid, order, "queued");
          more := [TransitionEvent(pid, s.processes[pid].status, ProcessStatus.Queued)] + StepEvents(pid, order, "queued");
          assert more[1..] == StepEvents(pid, order, "queued");
        } else {
          more := [];
        }
      case Cancel(pid, order) =>
        if CanCancel(s, pid, order) {
          StepEventsAreRowEvents(pid, order, "cancelled");
          more := [TransitionEvent(pid, s.processes[pid].status, ProcessStatus.Cancelled)] + StepEvents(pid, order, "cancelled");
          assert more[1..] == StepEvents(pid, order, "cancelled");
        } else {
          more := [];
        }
      case Resume(pid) =>
        more := if CanResume(s, pid) then [TransitionEvent(pid, s.processes[pid].status, ProcessStatus.Running)] else [];
    }
  }

  lemma ExecutorReports(s: State, a: Action) returns (more: seq<Event>)
    requires a.Announce? || a.Enqueue?
    ensures Apply(s, a).log == s.log + more && Reported(s, a, more)
  {
    hide RowEventsLogged, StepEvents, ToQueue, Ripe;
    EventTypesAreSpelledOut();
    if a.Announce? {
      var x := a.executor;
      more := if x in s.executors && s.executors[x].phase == Announcing
              then [StepEvent(s.executors[x].key.pid, s.executors[x].key.name, "completed")] else [];
    } else if CanEnqueue(s, a.executor) {
      more := EnqueueReports(s, a.executor);
    } else {
      more := [];
    }
  }

  lemma EnqueueReports(s: State, x: nat) returns (more: seq<Event>)
    requires CanEnqueue(s, x)
    ensures Apply(s, Enqueue(x)).log == s.log + more && Reported(s, Enqueue(x), more)
  {
    hide StepEvents, Ripe;
    var key := s.executors[x].key;
    var names := ToQueue(s, key);
    more := StepEvents(key.pid, names, "queued");
    StepEventsAreRowEvents(key.pid, names, "queued");
    EventTypesAreSpelledOut();
    forall k: StepKey ensures Event(k.pid, Some(k.name), "step.queued", None) in more <==> Ripe(s, key, k) {
      RipeIffToQueue(s, key, k);
    }
  }

  /** The log only grows, by exactly these events. */
  lemma ActionsReport(s: State, a: Action)
    requires a.Start? || a.Cancel? || a.Resume? || a.Announce? || a.Enqueue?
    ensures s.log <= Apply(s, a).log && Reported(s, a, Apply(s, a).log[|s.log|..])
  {
    hide Apply, Reported;
    var more;
    if a.Announce? || a.Enqueue? {
      more := ExecutorReports(s, a);
    } else {
      more := OperatorReports(s, a);
    }
    assert (s.log + more)[|s.log|..] == more;
  }
}
