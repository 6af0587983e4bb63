/** The database rows as mutable tables, and the handlers, workers and executors that write them. */
module Engine {
  import opened Wrappers
  import opened Graph
  import opened StateMachine
  import opened EngineSpec
  import opened EngineSafety
  import opened EngineEffects
  import L = Lists
  import Kahn
  import D = Definition

  datatype Response = Done | NotFound | Refused

  class Store {
    var clock: int
    var processes: map<nat, Process>
    var steps: map<StepKey, Step>
    var dlq: seq<DlqRow>
    var log: seq<Event>
    var locks: map<StepKey, nat>
    var workers: map<nat, Worker>
    var executors: map<nat, Executor>
    var nextExecutor: nat

    ghost function View(): State
      reads this
    {
      State(clock, processes, steps, dlq, log, locks, workers, executors, nextExecutor)
    }

    constructor ()
      ensures View() == EMPTY
    {
      clock, processes, steps, dlq, log := 0, map[], map[], [], [];
      locks, workers, executors, nextExecutor := map[], map[], map[], 0;
    }

    // ----- Shared helpers -----

    /** The names of some rows of a process, in the order the database happens to return them. */
    method NamesInRowOrder(pid: nat, rows: set<StepKey>) returns (order: seq<string>)
      requires forall k :: k in rows ==> k.pid == pid
      ensures Lists(order, pid, rows)
    {
      order := Kahn.Enumerate(set k | k in rows :: k.name);
      forall k ensures k in Keys(pid, order) <==> k in rows {
        assert k.name in order <==> k.name in Elements(order);
        if k.pid == pid && k.name in Elements(order) {
          var r :| r in rows && r.name == k.name;
          assert r == k;
        }
      }
    }

    /** Checks the transition, writes status and timestamps, appends the event; refuses otherwise. */
    method TransitionProcess(pid: nat, target: ProcessStatus) returns (ok: bool)
      requires pid in processes
      modifies this`processes, this`log
      ensures ok == CanMove(old(View()), pid, target)
      ensures View() == MoveIfAllowed(old(View()), pid, target)
    {
      var p := processes[pid];
      if !CanTransitionProcess(p.status, target) {
        return false;
      }
      var previous := p.status;
      p := p.(status := target);
      if target.Running? && p.startedAt.None? {
        p := p.(startedAt := Some(clock));
      }
      if target.Completed? || target.Failed? || target.Cancelled? || target.Stuck? {
        p := p.(finishedAt := Some(clock));
      }
      processes := processes[pid := p];
      log := log + [TransitionEvent(pid, previous, target)];
      ok := true;
    }

    // ----- Operators -----

    method CreateProcess(pid: nat, d: D.Definition) returns (r: Response)
      requires pid !in processes
      modifies this
      ensures r == if D.Valid(d) then Done else Refused
      ensures View() == ApplyCreate(old(View()), pid, d)
    {
      var checked := D.CheckForCreation(d);
      if checked.Err? {
        return Refused;
      }
      processes := processes[pid := Process(d, ProcessStatus.Draft, map[], None, None)];
      steps := steps + NewRows(pid, d);
      log := log + [CreatedEvent(pid)];
      r := Done;
    }

    method StartProcess(pid: nat) returns (r: Response, order: seq<string>)
      requires pid in processes ==> Unlocked(View(), Keys(pid, D.RootSteps(processes[pid].definition)))
      requires RowsFit(View())
      modifies this
      ensures r == if pid !in old(processes) then NotFound else if old(processes[pid].status).Draft? then Done else Refused
      ensures View() == ApplyStart(old(View()), pid, order)
      ensures r.Done? ==> CanStart(old(View()), pid, order)
    {
      order := [];
      if pid !in processes {
        return NotFound, order;
      }
      if !processes[pid].status.Draft? {
        return Refused, order;
      }
      var roots := Keys(pid, D.RootSteps(processes[pid].definition));
      var moved := TransitionProcess(pid, ProcessStatus.Queued);
      order := NamesInRowOrder(pid, roots);
      QueueRoots(pid, order);
      r := Done;
    }

    /** Every listed row becomes queued, with an event each. */
    method QueueRoots(pid: nat, order: seq<string>)
      requires Distinct(order) && forall k :: k in Keys(pid, order) ==> k in steps
      modifies this`steps, this`log
      ensures steps == Rewritten(old(steps), Keys(pid, order), StepStatus.Queued)
      ensures log == old(log) + StepEvents(pid, order, "queued")
    {
      for i := 0 to |order|
        invariant steps == Rewritten(old(steps), Keys(pid, order[..i]), StepStatus.Queued)
        invariant log == old(log) + StepEvents(pid, order[..i], "queued")
      {
        var key := StepKey(pid, order[i]);
        assert key in Keys(pid, order);
        MoreNames(old(steps), pid, order, i, StepStatus.Queued, "queued");
        steps := steps[key := steps[key].(status := StepStatus.Queued)];
        log := log + [StepEvent(pid, order[i], "queued")];
      }
      assert order[..|order|] == order;
    }

    /** Every listed row goes through the step transition to cancelled. */
    method CancelRows(pid: nat, order: seq<string>)
      requires Distinct(order) && forall k :: k in Keys(pid, order) ==> k in steps && Cancellable(steps[k].status)
      modifies this`steps, this`log
      ensures steps == Rewritten(old(steps), Keys(pid, order), StepStatus.Cancelled)
      ensures log == old(log) + StepEvents(pid, order, "cancelled")
    {
      for i := 0 to |order|
        invariant steps == Rewritten(old(steps), Keys(pid, order[..i]), StepStatus.Cancelled)
        invariant log == old(log) + StepEvents(pid, order[..i], "cancelled")
      {
        var key := StepKey(pid, order[i]);
        assert key in Keys(pid, order) && key !in Keys(pid, order[..i]);
        MoreNames(old(steps), pid, order, i, StepStatus.Cancelled, "cancelled");
        if CanTransitionStep(steps[key].status, StepStatus.Cancelled) {
          steps := steps[key := steps[key].(status := StepStatus.Cancelled)];
          log := log + [StepEvent(pid, order[i], "cancelled")];
        }
      }
      assert order[..|order|] == order;
    }

    method CancelProcess(pid: nat) returns (r: Response, order: seq<string>)
      requires Unlocked(View(), CancellableRows(View(), pid))
      modifies this
      ensures r == if pid !in old(processes) then NotFound
                   else if old(processes[pid].status) in {ProcessStatus.Completed, ProcessStatus.Failed, ProcessStatus.Cancelled}
                   then Refused else Done
      ensures View() == ApplyCancel(old(View()), pid, order)
      ensures r.Done? ==> CanCancel(old(View()), pid, order)
    {
      order := [];
      if pid !in processes {
        return NotFound, order;
      }
      var rows := set k | k in steps && k.pid == pid && Cancellable(steps[k].status);
      assert rows == CancellableRows(View(), pid);
      var moved := TransitionProcess(pid, ProcessStatus.Cancelled);
      if !moved {
        return Refused, order;
      }
      order := NamesInRowOrder(pid, rows);
      CancelRows(pid, order);
      r := Done;
    }

    method ResumeProcess(pid: nat) returns (r: Response)
      requires Unlocked(View(), PausedRows(View(), pid))
      modifies this
      ensures r == if pid !in old(processes) then NotFound
                   else if old(processes[pid].status) in {ProcessStatus.Paused, ProcessStatus.Stuck} then Done else Refused
      ensures View() == ApplyResume(old(View()), pid)
    {
      if pid !in processes {
        return NotFound;
      }
      if !processes[pid].status.Paused? && !processes[pid].status.Stuck? {
        return Refused;
      }
      var moved := TransitionProcess(pid, ProcessStatus.Running);
      RequeuePaused(pid);
      r := Done;
    }

    method RequeuePaused(pid: nat)
      modifies this`steps
      ensures steps == map k | k in old(steps) ::
        if k in PausedRows(old(View()), pid) then old(steps)[k].(status := StepStatus.Queued, nextRetryAt := None) else old(steps)[k]
    {
      var rows := set k | k in steps && k.pid == pid && steps[k].status.Paused?;
      assert rows == PausedRows(View(), pid);
      var rest := rows;
      while rest != {}
        invariant rest <= rows
        invariant steps.Keys == old(steps).Keys
        invariant forall k :: k in steps ==>
          steps[k] == if k in rows - rest then old(steps)[k].(status := StepStatus.Queued, nextRetryAt := None) else old(steps)[k]
      {
        var key :| key in rest;
        steps := steps[key := steps[key].(status := StepStatus.Queued, nextRetryAt := None)];
        rest := rest - {key};
      }
    }

    method ReplayDlq(row: nat) returns (r: Response)
      requires row < |dlq| ==> dlq[row].key in steps && dlq[row].key !in locks
      modifies this
      ensures r == if row >= |old(dlq)| then NotFound else if old(dlq)[row].resolved then Refused else Done
      ensures View() == ApplyReplay(old(View()), row)
    {
      if row >= |dlq| {
        return NotFound;
      }
      if dlq[row].resolved {
        return Refused;
      }
      var key := dlq[row].key;
      var step := steps[key];
      if step.status.Failed? {
        steps := steps[key := step.(status := StepStatus.Pending, attempt := 0, nextRetryAt := None, replays := step.replays + 1)];
      }
      dlq := dlq[row := dlq[row].(resolved := true)];
      r := Done;
    }

    // ----- Workers -----

    method ScanCandidates(worker: nat, limit: nat, candidates: seq<StepKey>)
      requires CanScan(View(), worker, limit, candidates)
      modifies this`workers
      ensures View() == ApplyScan(old(View()), worker, limit, candidates)
    {
      workers := workers[worker := Worker(clock, limit, candidates, [])];
    }

    /** One round of the claim loop: skip a locked row, otherwise lock it, look again, and claim it. */
    method TryNext(worker: nat)
      requires CanLockNext(View(), worker)
      modifies this`workers, this`locks
      ensures View() == ApplyLockNext(old(View()), worker)
    {
      var w := workers[worker];
      var key := w.candidates[0];
      w := w.(candidates := w.candidates[1..]);
      if key !in locks {
        locks := locks[key := worker];
        var step := steps[key];
        if Waiting(step.status) && !(step.nextRetryAt.Some? && step.nextRetryAt.value > w.now) {
          w := w.(claimed := w.claimed + [key]);
          if |w.claimed| >= w.limit {
            w := w.(candidates := []);
          }
        }
      }
      workers := workers[worker := w];
    }

    /** Marks every claimed row as running and bumps its attempt. */
    method MarkClaimed(claimed: seq<StepKey>, now: int)
      requires Distinct(claimed) && forall k :: k in claimed ==> k in steps
      modifies this`steps
      ensures steps == map k | k in old(steps) :: if k in claimed then AfterClaim(old(steps)[k], now) else old(steps)[k]
    {
      for i := 0 to |claimed|
        invariant steps.Keys == old(steps).Keys
        invariant forall k :: k in steps ==>
          steps[k] == if k in claimed[..i] then AfterClaim(old(steps)[k], now) else old(steps)[k]
      {
        var key := claimed[i];
        assert key !in claimed[..i];
        var step := steps[key];
        steps := steps[key := step.(status := StepStatus.Running, attempt := step.attempt + 1, nextRetryAt := None,
                                    claimTimes := step.claimTimes + [now])];
      }
    }

    method CommitClaimed(worker: nat) returns (claimed: seq<StepKey>)
      requires worker in workers && workers[worker].candidates == [] && ClaimsAreLocked(View())
      modifies this
      ensures claimed == old(workers[worker].claimed)
      ensures View() == ApplyCommit(old(View()), worker)
    {
      assert WorkerHoldsClaims(View(), worker);
      claimed := workers[worker].claimed;
      MarkClaimed(claimed, workers[worker].now);
      locks := map k | k in locks && locks[k] != worker :: locks[k];
      workers := workers - {worker};
      executors := executors + Spawned(nextExecutor, claimed);
      nextExecutor := nextExecutor + |claimed|;
    }

    /** The loop over the candidates, when nobody comes between. */
    method LockCandidates(worker: nat, candidates: seq<StepKey>, limit: nat)
      requires worker in workers && workers[worker] == Worker(clock, limit, candidates, [])
      requires Distinct(candidates) && |candidates| <= 3 * limit
      requires forall k :: k in candidates ==> k in steps && Ready(steps[k], clock)
      modifies this`workers, this`locks
      ensures View() == LockAll(old(View()), worker)
      ensures worker in workers && workers[worker].candidates == [] && workers[worker].now == clock
      ensures workers[worker].claimed == FirstUnlocked(old(locks), candidates, limit)
    {
      ghost var before := View();
      ghost var done: nat := 0;
      while workers[worker].candidates != []
        invariant worker in workers && LockAll(View(), worker) == LockAll(before, worker)
        invariant workers[worker].now == clock && workers[worker].limit == limit
        invariant ScanProgress(old(locks), locks, worker, candidates, limit, workers[worker], done)
        decreases |workers[worker].candidates|
      {
        assert workers[worker].candidates[0] == candidates[done];
        ProgressStep(before, View(), worker, candidates, limit, done);
        TryNext(worker);
        done := if workers[worker].candidates == [] then |candidates| else done + 1;
      }
      assert candidates[..|candidates|] == candidates;
    }

    /** `claim_ready_steps` when nobody comes between: the first `limit` unlocked candidates are claimed. */
    method ClaimReadySteps(worker: nat, limit: nat, candidates: seq<StepKey>) returns (claimed: seq<StepKey>)
      requires ClaimsAreLocked(View()) && CanScan(View(), worker, limit, candidates)
      modifies this
      ensures View() == ApplyCommit(LockAll(ApplyScan(old(View()), worker, limit, candidates), worker), worker)
      ensures claimed == FirstUnlocked(old(locks), candidates, limit)
    {
      ScanKeepsClaims(View(), worker, limit, candidates);
      ScanCandidates(worker, limit, candidates);
      LockAllKeepsClaims(View(), worker);
      LockCandidates(worker, candidates, limit);
      claimed := CommitClaimed(worker);
    }

    // ----- Executors -----

    method MarkStepFailed(key: StepKey)
      requires key in steps
      modifies this`steps, this`dlq
      ensures View() == MarkFailed(old(View()), key)
      ensures old(steps[key].attempt) >= 1 ==> AttemptFailed(old(steps[key]), steps[key], clock)
      ensures dlq == if old(steps[key].attempt) < old(steps[key].maxAttempts) then old(dlq)
                     else old(dlq) + [DlqRow(key, old(steps[key].attempt), false)]
    {
      var step := steps[key];
      if step.attempt >= 1 {
        FailureIsSpelledOut(step, clock);
      }
      if step.attempt >= step.maxAttempts {
        steps := steps[key := step.(status := StepStatus.Failed)];
        dlq := dlq + [DlqRow(key, step.attempt, false)];
      } else {
        steps := steps[key := step.(status := StepStatus.Retrying, nextRetryAt := Some(clock + NextRetryDelay(step.attempt) * SECOND))];
      }
    }

    method MarkStepCompleted(key: StepKey, outputs: Outputs)
      requires key in steps
      modifies this`steps
      ensures View() == old(View()).(steps := old(steps)[key := old(steps)[key].(status := StepStatus.Completed, outputs := outputs)])
    {
      steps := steps[key := steps[key].(status := StepStatus.Completed, outputs := outputs)];
    }

    /** What `execute` does once the agent loop, or an earlier failure, has decided the outcome. */
    method SettleStep(x: nat, outcome: Outcome)
      requires CanSettle(View(), x) && executors[x].key.pid in processes
      modifies this
      ensures View() == ApplySettle(old(View()), x, outcome)
    {
      var key := executors[x].key;
      match outcome {
        case Crashed =>
          MarkStepFailed(key);
          executors := executors - {x};
        case Unsuccessful =>
          MarkStepFailed(key);
          executors := executors[x := executors[x].(phase := Finalising([StepEvent(key.pid, key.name, "failed")]))];
        case Succeeded(outputs) =>
          MarkStepCompleted(key, outputs);
          executors := executors[x := executors[x].(phase := Announcing)];
        case AwaitingApproval =>
          steps := steps[key := steps[key].(status := StepStatus.Paused)];
          executors := executors - {x};
          if processes[key.pid].status.Running? {
            var _ := TransitionProcess(key.pid, ProcessStatus.Paused);
          }
      }
    }

    method AnnounceCompletion(x: nat)
      requires x in executors && executors[x].phase.Announcing?
      modifies this
      ensures View() == ApplyAnnounce(old(View()), x)
    {
      var key := executors[x].key;
      log := log + [StepEvent(key.pid, key.name, "completed")];
      executors := executors[x := executors[x].(phase := Enqueueing)];
    }

    /** True if every existing upstream row is completed or skipped. */
    method UpstreamsDone(pid: nat, upstreams: seq<string>) returns (done: bool)
      ensures done <==> forall u :: u in upstreams && StepKey(pid, u) in steps ==> IsDone(steps[StepKey(pid, u)].status)
    {
      for i := 0 to |upstreams|
        invariant forall u :: u in upstreams[..i] && StepKey(pid, u) in steps ==> IsDone(steps[StepKey(pid, u)].status)
      {
        var key := StepKey(pid, upstreams[i]);
        if key in steps && !IsDone(steps[key].status) {
          assert upstreams[i] in upstreams;
          return false;
        }
      }
      assert upstreams[..|upstreams|] == upstreams;
      done := true;
    }

    /** The loop over the steps that depend on the completed one. */
    method QueueReady(pid: nat, d: D.Definition, names: seq<string>)
      modifies this`steps, this`log
      ensures var queued := Queueable(old(View()), d, pid, names);
              && steps == Requeued(old(steps), Keys(pid, queued))
              && log == old(log) + StepEvents(pid, queued, "queued")
    {
      ghost var queued: seq<string> := [];
      for i := 0 to |names|
        invariant queued == Queueable(old(View()), d, pid, names[..i])
        invariant steps == Requeued(old(steps), Keys(pid, queued))
        invariant log == old(log) + StepEvents(pid, queued, "queued")
      {
        var nextName := names[i];
        assert names[..i + 1][..i] == names[..i];
        var done := UpstreamsDone(pid, D.Upstream(d.edges, nextName));
        SameDoneness(old(View()), View(), d, pid, queued, nextName);
        var nextKey := StepKey(pid, nextName);
        if done && nextKey in steps && steps[nextKey].status.Pending? {
          OneMoreQueued(old(steps), pid, queued, nextName);
          steps := steps[nextKey := steps[nextKey].(status := StepStatus.Queued, nextRetryAt := None)];
          log := log + [StepEvent(pid, nextName, "queued")];
          queued := queued + [nextName];
        }
      }
      assert names[..|names|] == names;
    }

    method EnqueueDownstream(x: nat)
      requires CanEnqueue(View(), x)
      modifies this
      ensures View() == ApplyEnqueue(old(View()), x)
    {
      var key := executors[x].key;
      var d := processes[key.pid].definition;
      QueueReady(key.pid, d, D.Downstream(d.edges, key.name));
      executors := executors[x := executors[x].(phase := Finalising([]))];
    }

    /** Saves the collected outputs, then tries to complete the process. */
    method CollectAndComplete(pid: nat)
      requires pid in processes && AllSucceeded(View(), pid)
      modifies this`processes, this`log
      ensures View() == Finalised(old(View()), pid)
    {
      var rows := set k | k in steps && k.pid == pid;
      var names := set k | k in rows :: k.name;
      assert forall n :: n in names <==> StepKey(pid, n) in steps by {
        forall n | StepKey(pid, n) in steps ensures n in names {
          assert StepKey(pid, n) in rows;
        }
      }
      var outputs := map n | n in names && steps[StepKey(pid, n)].outputs != map[] :: steps[StepKey(pid, n)].outputs;
      assert outputs == CollectedOutputs(View(), pid);
      processes := processes[pid := processes[pid].(outputs := outputs)];
      var _ := TransitionProcess(pid, ProcessStatus.Completed);
    }

    method StatusesOf(pid: nat) returns (statuses: set<StepStatus>)
      ensures statuses == {} <==> RowsOf(View(), pid) == {}
      ensures (forall status :: status in statuses ==> IsSettled(status)) <==> AllSettled(View(), pid)
      ensures (forall status :: status in statuses ==> IsDone(status)) <==> AllSucceeded(View(), pid)
    {
      var rows := set k | k in steps && k.pid == pid;
      assert rows == RowsOf(View(), pid);
      statuses := set k | k in rows :: steps[k].status;
      assert forall k :: k in rows ==> steps[k].status in statuses;
      assert statuses != {} ==> rows != {};
    }

    method MaybeCompleteOrFailProcess(x: nat)
      requires x in executors && executors[x].phase.Finalising? && executors[x].key.pid in processes
      modifies this
      ensures View() == ApplyFinalise(old(View()), x)
      ensures var pid := old(executors[x].key.pid);
              Safe(old(View())) ==> pid in processes && ProcessFinalised(old(View()), pid, old(processes)[pid], processes[pid])
    {
      hide ProcessFinalised, Safe, CollectedOutputs, SaveOutputs;
      var pid, unsaved := executors[x].key.pid, executors[x].phase.unsaved;
      if Safe(View()) {
        FinaliseDecides(View(), x, pid);
      }
      executors := executors - {x};
      var statuses := StatusesOf(pid);
      if statuses == {} {
        return;
      }
      var allDone := forall status :: status in statuses ==> IsSettled(status);
      if !allDone {
        return;
      }
      log := log + unsaved;
      var anyFailed := exists status :: status in statuses && (status.Failed? || status.Cancelled?);
      if anyFailed {
        var _ := TransitionProcess(pid, ProcessStatus.Failed);
      } else {
        CollectAndComplete(pid);
      }
    }
  }

  // ----- Rewriting rows one by one -----

  ghost function Rewritten(steps: map<StepKey, Step>, rows: set<StepKey>, status: StepStatus): map<StepKey, Step> {
    map k | k in steps :: if k in rows then steps[k].(status := status) else steps[k]
  }

  ghost function Requeued(steps: map<StepKey, Step>, rows: set<StepKey>): map<StepKey, Step> {
    map k | k in steps :: if k in rows then steps[k].(status := StepStatus.Queued, nextRetryAt := None) else steps[k]
  }

  lemma MoreNames(steps: map<StepKey, Step>, pid: nat, order: seq<string>, i: nat, status: StepStatus, what: string)
    requires i < |order| && StepKey(pid, order[i]) in steps
    ensures var key := StepKey(pid, order[i]);
            var before := Rewritten(steps, Keys(pid, order[..i]), status);
            key in before && Rewritten(steps, Keys(pid, order[..i + 1]), status) == before[key := before[key].(status := status)]
    ensures StepEvents(pid, order[..i + 1], what) == StepEvents(pid, order[..i], what) + [StepEvent(pid, order[i], what)]
  {
    assert order[..i + 1] == order[..i] + [order[i]];
  }

  lemma OneMoreQueued(steps: map<StepKey, Step>, pid: nat, queued: seq<string>, name: string)
    requires StepKey(pid, name) in steps && name !in queued
    ensures var key := StepKey(pid, name);
            var before := Requeued(steps, Keys(pid, queued));
            Requeued(steps, Keys(pid, queued + [name])) == before[key := before[key].(status := StepStatus.Queued, nextRetryAt := None)]
    ensures StepEvents(pid, queued + [name], "queued") == StepEvents(pid, queued, "queued") + [StepEvent(pid, name, "queued")]
  {
  }

  // ----- The claim loop as a whole -----

  ghost function LockAll(s: State, worker: nat): State
    decreases if worker in s.workers then |s.workers[worker].candidates| else 0
  {
    if CanLockNext(s, worker) then LockAll(ApplyLockNext(s, worker), worker) else s
  }

  /** The first `limit` candidates that are not locked. */
  function FirstUnlocked(locks: map<StepKey, nat>, candidates: seq<StepKey>, limit: nat): seq<StepKey> {
    if candidates == [] then []
    else
      var taken := FirstUnlocked(locks, candidates[..|candidates| - 1], limit);
      var last := candidates[|candidates| - 1];
      if |taken| < limit && last !in locks then taken + [last] else taken
  }

  function UnlockedOf(locks: map<StepKey, nat>, candidates: seq<StepKey>): seq<StepKey> {
    L.Filter(candidates, (k: StepKey) => k !in locks)
  }

  /** All unlocked candidates, in order, up to the limit. */
  lemma {:induction false} FirstUnlockedAreTheFirst(locks: map<StepKey, nat>, candidates: seq<StepKey>, limit: nat)
    ensures var all := UnlockedOf(locks, candidates);
            FirstUnlocked(locks, candidates, limit) == if |all| <= limit then all else all[..limit]
  {
    if candidates != [] {
      FirstUnlockedAreTheFirst(locks, candidates[..|candidates| - 1], limit);
    }
  }

  /** After `done` candidates: what is claimed, what remains, and which locks are the worker's own. */
  ghost predicate ScanProgress(locks0: map<StepKey, nat>, locks: map<StepKey, nat>, worker: nat, candidates: seq<StepKey>,
                               limit: nat, w: Worker, done: nat) {
    && done <= |candidates|
    && w.candidates == candidates[done..]
    && w.claimed == FirstUnlocked(locks0, candidates[..done], limit)
    && (w.candidates != [] ==> |w.claimed| < limit)
    && (forall k :: k in locks0 ==> k in locks)
    && (forall k :: k in locks ==> k in locks0 || k in candidates[..done])
  }

  lemma {:induction false} LockAllKeepsClaims(s: State, worker: nat)
    requires ClaimsAreLocked(s)
    ensures ClaimsAreLocked(LockAll(s, worker))
    decreases if worker in s.workers then |s.workers[worker].candidates| else 0
  {
    if CanLockNext(s, worker) {
      LockNextKeepsClaims(s, worker);
      LockAllKeepsClaims(ApplyLockNext(s, worker), worker);
    }
  }

  lemma ProgressStep(s0: State, s: State, worker: nat, candidates: seq<StepKey>, limit: nat, done: nat)
    requires Distinct(candidates) && |candidates| <= 3 * limit && CanLockNext(s, worker)
    requires s.steps == s0.steps && s.workers[worker].now == s0.clock && s.workers[worker].limit == limit
    requires forall k :: k in candidates ==> k in s.steps && Ready(s.steps[k], s0.clock)
    requires ScanProgress(s0.locks, s.locks, worker, candidates, limit, s.workers[worker], done)
    ensures var t := ApplyLockNext(s, worker);
            ScanProgress(s0.locks, t.locks, worker, candidates, limit, t.workers[worker],
                         if t.workers[worker].candidates == [] then |candidates| else done + 1)
  {
    hide ApplyLockNext, FirstUnlocked;
    LockNextEffect(s, worker);
    var w, t := s.workers[worker], ApplyLockNext(s, worker);
    var k := w.candidates[0];
    assert k == candidates[done] && k !in candidates[..done];
    OneMoreCandidate(s0.locks, candidates, limit, done);
    assert forall c :: c in candidates[..done + 1] <==> c in candidates[..done] || c == k;
    if t.workers[worker].candidates == [] {
      FullStays(s0.locks, candidates, limit, done + 1);
      assert candidates[..|candidates|] == candidates;
    }
  }

  lemma OneMoreCandidate(locks: map<StepKey, nat>, candidates: seq<StepKey>, limit: nat, done: nat)
    requires done < |candidates|
    ensures candidates[..done + 1] == candidates[..done] + [candidates[done]]
    ensures var taken := FirstUnlocked(locks, candidates[..done], limit);
            FirstUnlocked(locks, candidates[..done + 1], limit)
            == if |taken| < limit && candidates[done] !in locks then taken + [candidates[done]] else taken
  {
    assert candidates[..done + 1][..done] == candidates[..done];
  }

  /** Once the limit is reached, or the list is used up, the rest of the candidates adds nothing. */
  lemma {:induction false} FullStays(locks: map<StepKey, nat>, candidates: seq<StepKey>, limit: nat, done: nat)
    requires done <= |candidates|
    requires done == |candidates| || |FirstUnlocked(locks, candidates[..done], limit)| >= limit
    ensures FirstUnlocked(locks, candidates, limit) == FirstUnlocked(locks, candidates[..done], limit)
    decreases |candidates|
  {
    if done == |candidates| {
      assert candidates[..done] == candidates;
    } else {
      var front := candidates[..|candidates| - 1];
      assert front[..done] == candidates[..done];
      FullStays(locks, front, limit, done);
    }
  }

  /** Queueing pending rows makes no row done, so the later checks of the loop see the same upstreams. */
  lemma SameDoneness(s: State, t: State, d: D.Definition, pid: nat, queued: seq<string>, name: string)
    requires t.steps == Requeued(s.steps, Keys(pid, queued))
    requires forall n :: n in queued ==> CanQueue(s, d, pid, n)
    ensures UpstreamDone(t, d, pid, name) <==> UpstreamDone(s, d, pid, name)
    ensures CanQueue(t, d, pid, name) <==> CanQueue(s, d, pid, name) && name !in queued
  {
    forall k | k in s.steps ensures IsDone(t.steps[k].status) <==> IsDone(s.steps[k].status) {
      if k in Keys(pid, queued) {
        assert CanQueue(s, d, pid, k.name) && k == StepKey(pid, k.name);
      }
    }
  }
}
