/** What every interleaving keeps: rows fit their definitions, claims are exclusive, one executor per step. */
module EngineSafety {
  import opened Wrappers
  import opened Graph
  import opened StateMachine
  import opened EngineSpec
  import D = Definition

  // ----- Actions that neither claim nor settle a step -----

  predicate IsQuiet(a: Action) {
    !a.Create? && !a.Scan? && !a.LockNext? && !a.CommitClaims? && !a.Settle?
  }

  /** How such an action may change a row. */
  ghost predicate QuietChange(old_: Step, new_: Step) {
    || new_ == old_
    || new_ == old_.(status := StepStatus.Queued)
    || (Cancellable(old_.status) && new_ == old_.(status := StepStatus.Cancelled))
    || ((old_.status.Paused? || old_.status.Pending?) && new_ == old_.(status := StepStatus.Queued, nextRetryAt := None))
    || (old_.status.Failed? && new_ == AfterReplay(old_))
  }

  ghost predicate QuietRows(s: State, t: State) {
    && t.steps.Keys == s.steps.Keys
    && (forall k :: k in s.steps ==> QuietChange(s.steps[k], t.steps[k]))
    && (forall k :: k in s.steps && k in s.locks ==> t.steps[k] == s.steps[k])
  }

  ghost predicate SameActivities(s: State, t: State) {
    && t.workers == s.workers && t.locks == s.locks && t.nextExecutor == s.nextExecutor
    && (forall x :: x in t.executors ==> x in s.executors && t.executors[x].key == s.executors[x].key)
    && (forall x, k :: InFlightOn(t, x, k) <==> InFlightOn(s, x, k))
  }

  ghost predicate SameDefinitions(s: State, t: State) {
    && t.processes.Keys == s.processes.Keys
    && forall pid :: pid in s.processes ==> t.processes[pid].definition == s.processes[pid].definition
  }

  ghost predicate Quiet(s: State, t: State) {
    && QuietRows(s, t) && SameActivities(s, t) && SameDefinitions(s, t)
    && t.clock >= s.clock
    && |t.dlq| == |s.dlq|
    && forall i :: 0 <= i < |s.dlq| ==> t.dlq[i].key == s.dlq[i].key
  }

  lemma MoveIsQuiet(s: State, pid: nat, target: ProcessStatus)
    requires pid in s.processes
    ensures Quiet(s, Move(s, pid, target))
  {
  }

  lemma StartIsQuiet(s: State, pid: nat, order: seq<string>)
    ensures Quiet(s, ApplyStart(s, pid, order))
  {
    if CanStart(s, pid, order) {
      MoveIsQuiet(s, pid, ProcessStatus.Queued);
    }
  }

  lemma CancelIsQuiet(s: State, pid: nat, order: seq<string>)
    ensures Quiet(s, ApplyCancel(s, pid, order))
  {
    if CanCancel(s, pid, order) {
      MoveIsQuiet(s, pid, ProcessStatus.Cancelled);
    }
  }

  lemma ResumeIsQuiet(s: State, pid: nat)
    ensures Quiet(s, ApplyResume(s, pid))
  {
    if CanResume(s, pid) {
      MoveIsQuiet(s, pid, ProcessStatus.Running);
    }
  }

  lemma ReplayRows(s: State, row: nat)
    ensures QuietRows(s, ApplyReplay(s, row))
  {
  }

  lemma ReplayIsQuiet(s: State, row: nat)
    ensures Quiet(s, ApplyReplay(s, row))
  {
    ReplayRows(s, row);
    var t := ApplyReplay(s, row);
    assert t == s.(steps := t.steps, dlq := t.dlq);
  }

  lemma ExternalIsQuiet(s: State, pid: nat, target: ProcessStatus)
    ensures Quiet(s, ApplyExternal(s, pid, target))
  {
    if pid in s.processes {
      MoveIsQuiet(s, pid, target);
    }
  }

  /** Past the flight, changing the phase of an executor or ending it shows in no row. */
  lemma PhaseWritesAreQuiet(s: State, t: State, x: nat)
    requires x in s.executors && !s.executors[x].phase.InFlight?
    requires t == s.(executors := t.executors, log := t.log)
    requires || t.executors == s.executors - {x}
             || exists phase: Phase :: !phase.InFlight? && t.executors == s.executors[x := s.executors[x].(phase := phase)]
    ensures Quiet(s, t)
  {
  }

  lemma AnnounceIsQuiet(s: State, x: nat)
    ensures Quiet(s, ApplyAnnounce(s, x))
  {
    if x in s.executors && s.executors[x].phase.Announcing? {
      var t := ApplyAnnounce(s, x);
      assert t.executors == s.executors[x := s.executors[x].(phase := Enqueueing)];
      PhaseWritesAreQuiet(s, t, x);
    }
  }

  lemma EnqueueRows(s: State, x: nat)
    ensures QuietRows(s, ApplyEnqueue(s, x))
  {
  }

  lemma EnqueueIsQuiet(s: State, x: nat)
    ensures Quiet(s, ApplyEnqueue(s, x))
  {
    if CanEnqueue(s, x) {
      var t := ApplyEnqueue(s, x);
      assert t.executors == s.executors[x := s.executors[x].(phase := Finalising([]))];
      EnqueueRows(s, x);
    }
  }

  /** Only process rows and the log are written, and no definition changes. */
  ghost predicate WritesProcessesOnly(s: State, t: State) {
    t == s.(processes := t.processes, log := t.log) && SameDefinitions(s, t)
  }

  lemma MoveWrites(s: State, pid: nat, target: ProcessStatus)
    requires pid in s.processes
    ensures WritesProcessesOnly(s, MoveIfAllowed(s, pid, target))
  {
  }

  lemma SaveWrites(s: State, pid: nat, outputs: map<string, Outputs>)
    requires pid in s.processes
    ensures WritesProcessesOnly(s, SaveOutputs(s, pid, outputs))
  {
  }

  lemma FinalisedWrites(s: State, pid: nat)
    requires pid in s.processes
    ensures WritesProcessesOnly(s, Finalised(s, pid))
  {
    var outputs := CollectedOutputs(s, pid);
    SaveWrites(s, pid, outputs);
    MoveWrites(SaveOutputs(s, pid, outputs), pid, ProcessStatus.Completed);
    MoveWrites(s, pid, ProcessStatus.Failed);
  }

  lemma FinaliseWritesNoRow(s: State, x: nat)
    ensures ApplyFinalise(s, x).steps == s.steps
  {
    if x in s.executors && s.executors[x].phase.Finalising? && s.executors[x].key.pid in s.processes {
      FinalisedWrites(s.(executors := s.executors - {x}, log := s.log + s.executors[x].phase.unsaved), s.executors[x].key.pid);
    }
  }

  lemma FinaliseIsQuiet(s: State, x: nat)
    ensures Quiet(s, ApplyFinalise(s, x))
  {
    if x in s.executors && s.executors[x].phase.Finalising? {
      var pid := s.executors[x].key.pid;
      var ended := s.(executors := s.executors - {x});
      PhaseWritesAreQuiet(s, ended, x);
      if pid in s.processes {
        var logged := ended.(log := s.log + s.executors[x].phase.unsaved);
        PhaseWritesAreQuiet(s, logged, x);
        FinalisedWrites(logged, pid);
        FinalisingAddsProcessWrites(s, logged, Finalised(logged, pid));
      }
    }
  }

  lemma FinalisingAddsProcessWrites(s: State, t: State, u: State)
    requires Quiet(s, t) && WritesProcessesOnly(t, u)
    ensures Quiet(s, u)
  {
    assert forall x, k :: InFlightOn(u, x, k) <==> InFlightOn(t, x, k);
  }

  lemma QuietActions(s: State, a: Action)
    requires IsQuiet(a)
    ensures Quiet(s, Apply(s, a))
  {
    match a
    case Tick(_) =>
    case Start(pid, order) => StartIsQuiet(s, pid, order);
    case Cancel(pid, order) => CancelIsQuiet(s, pid, order);
    case Resume(pid) => ResumeIsQuiet(s, pid);
    case Replay(row) => ReplayIsQuiet(s, row);
    case External(pid, target) => ExternalIsQuiet(s, pid, target);
    case Announce(x) => AnnounceIsQuiet(s, x);
    case Enqueue(x) => EnqueueIsQuiet(s, x);
    case Finalise(x) => FinaliseIsQuiet(s, x);
    case _ =>
  }

  predicate InFlightOn(s: State, x: nat, k: StepKey) {
    x in s.executors && s.executors[x].phase.InFlight? && s.executors[x].key == k
  }

  // ----- Rows and references -----

  ghost predicate RowsFit(s: State) {
    && (forall k :: k in s.steps ==> k.pid in s.processes && k.name in D.StepNames(s.processes[k.pid].definition))
    && (forall k: StepKey :: k.pid in s.processes && k.name in D.StepNames(s.processes[k.pid].definition) ==> k in s.steps)
    && (forall pid :: pid in s.processes ==> D.Valid(s.processes[pid].definition))
  }

  ghost predicate ReferencesExist(s: State) {
    && (forall x :: x in s.executors ==> x < s.nextExecutor && s.executors[x].key in s.steps)
    && (forall w :: w in s.workers ==> Elements(s.workers[w].candidates) <= s.steps.Keys && Elements(s.workers[w].claimed) <= s.steps.Keys)
    && (forall k :: k in s.locks ==> k in s.steps && s.locks[k] in s.workers)
    && (forall i :: 0 <= i < |s.dlq| ==> s.dlq[i].key in s.steps)
  }

  /** A claimed row is locked by its claimer and stays exactly as ready as it was found. */
  ghost predicate ClaimsAreLocked(s: State) {
    forall w :: w in s.workers ==> WorkerHoldsClaims(s, w)
  }

  ghost predicate WorkerHoldsClaims(s: State, w: nat)
    requires w in s.workers
  {
    && s.workers[w].now <= s.clock
    && Distinct(s.workers[w].claimed)
    && forall k :: k in s.workers[w].claimed ==>
         k in s.locks && s.locks[k] == w && k in s.steps && Ready(s.steps[k], s.workers[w].now)
  }

  // ----- One executor per step -----

  predicate FlightStatus(status: StepStatus) {
    status.Running? || status.Queued? || status.Cancelled?
  }

  ghost predicate FlightsHaveStatus(s: State) {
    forall x, k :: InFlightOn(s, x, k) ==> k in s.steps && FlightStatus(s.steps[k].status)
  }

  ghost predicate OneExecutorPerStep(s: State) {
    forall x, y, k :: InFlightOn(s, x, k) && InFlightOn(s, y, k) ==> x == y
  }

  ghost predicate Safe(s: State) {
    RowsFit(s) && ReferencesExist(s) && ClaimsAreLocked(s) && FlightsHaveStatus(s) && OneExecutorPerStep(s)
  }

  lemma QuietKeepsRowsFit(s: State, t: State)
    requires RowsFit(s) && QuietRows(s, t) && SameDefinitions(s, t)
    ensures RowsFit(t)
  {
  }

  lemma QuietKeepsReferences(s: State, t: State)
    requires ReferencesExist(s) && Quiet(s, t)
    ensures ReferencesExist(t)
  {
  }

  lemma QuietKeepsClaims(s: State, t: State)
    requires ClaimsAreLocked(s) && QuietRows(s, t) && SameActivities(s, t) && t.clock >= s.clock
    ensures ClaimsAreLocked(t)
  {
    forall w | w in t.workers ensures WorkerHoldsClaims(t, w) {
      assert WorkerHoldsClaims(s, w);
    }
  }

  lemma QuietKeepsFlights(s: State, t: State)
    requires FlightsHaveStatus(s) && OneExecutorPerStep(s) && QuietRows(s, t) && SameActivities(s, t)
    ensures FlightsHaveStatus(t) && OneExecutorPerStep(t)
  {
    forall x, k | InFlightOn(t, x, k) ensures k in t.steps && FlightStatus(t.steps[k].status) {
      assert InFlightOn(s, x, k);
      assert QuietChange(s.steps[k], t.steps[k]);
    }
  }

  lemma QuietKeepsSafe(s: State, t: State)
    requires Safe(s) && Quiet(s, t)
    ensures Safe(t)
  {
    QuietKeepsRowsFit(s, t);
    QuietKeepsReferences(s, t);
    QuietKeepsClaims(s, t);
    QuietKeepsFlights(s, t);
  }

  // ----- Creating -----

  /** Creating adds rows for names of the new definition and touches nothing else. */
  lemma CreateAdds(s: State, pid: nat, d: D.Definition)
    requires RowsFit(s) && CanCreate(s, pid, d)
    ensures var t := ApplyCreate(s, pid, d);
            && (forall k :: k in t.steps <==> k in s.steps || k in Keys(pid, D.StepNames(d)))
            && (forall k :: k in s.steps ==> t.steps[k] == s.steps[k] && k.pid != pid)
            && (forall k :: k in Keys(pid, D.StepNames(d)) ==> t.steps[k] == FreshStep(D.StepByName(d, k.name).value))
  {
  }

  lemma CreateKeepsRowsFit(s: State, pid: nat, d: D.Definition)
    requires RowsFit(s) && CanCreate(s, pid, d)
    ensures RowsFit(ApplyCreate(s, pid, d))
  {
    CreateAdds(s, pid, d);
  }

  lemma CreateKeepsReferences(s: State, pid: nat, d: D.Definition)
    requires RowsFit(s) && ReferencesExist(s) && CanCreate(s, pid, d)
    ensures ReferencesExist(ApplyCreate(s, pid, d))
  {
    CreateAdds(s, pid, d);
  }

  lemma CreateKeepsSafe(s: State, pid: nat, d: D.Definition)
    requires Safe(s)
    ensures Safe(ApplyCreate(s, pid, d))
  {
    var t := ApplyCreate(s, pid, d);
    if CanCreate(s, pid, d) {
      CreateKeepsRowsFit(s, pid, d);
      CreateKeepsReferences(s, pid, d);
      CreateAdds(s, pid, d);
      SameFlights(s, t);
      SameClaims(s, t);
    }
  }

  /** Rows that flights refer to are unchanged: the flight facts carry over. */
  lemma SameFlights(s: State, t: State)
    requires FlightsHaveStatus(s) && OneExecutorPerStep(s)
    requires t.executors == s.executors
    requires forall k :: k in s.steps ==> k in t.steps && t.steps[k] == s.steps[k]
    ensures FlightsHaveStatus(t) && OneExecutorPerStep(t)
  {
    assert forall x, k :: InFlightOn(t, x, k) <==> InFlightOn(s, x, k);
  }

  lemma SameClaims(s: State, t: State)
    requires ClaimsAreLocked(s)
    requires t.workers == s.workers && t.locks == s.locks && t.clock >= s.clock
    requires forall k :: k in s.steps ==> k in t.steps && t.steps[k] == s.steps[k]
    ensures ClaimsAreLocked(t)
  {
    forall w | w in t.workers ensures WorkerHoldsClaims(t, w) {
      assert WorkerHoldsClaims(s, w);
    }
  }

  // ----- Claiming -----

  lemma ScanKeepsReferences(s: State, worker: nat, limit: nat, candidates: seq<StepKey>)
    requires ReferencesExist(s)
    ensures ReferencesExist(ApplyScan(s, worker, limit, candidates))
  {
    if CanScan(s, worker, limit, candidates) {
      assert Elements(candidates) <= s.steps.Keys;
    }
  }

  lemma ScanKeepsClaims(s: State, worker: nat, limit: nat, candidates: seq<StepKey>)
    requires ClaimsAreLocked(s)
    ensures ClaimsAreLocked(ApplyScan(s, worker, limit, candidates))
  {
    var t := ApplyScan(s, worker, limit, candidates);
    forall w | w in t.workers ensures WorkerHoldsClaims(t, w) {
      if w in s.workers {
        assert WorkerHoldsClaims(s, w);
      }
    }
  }

  /** Claim transactions that are still open write no row. */
  ghost predicate NoRowWritten(s: State, t: State) {
    t == s.(workers := t.workers, locks := t.locks)
  }

  lemma NoRowWrittenKeepsSafe(s: State, t: State)
    requires Safe(s) && NoRowWritten(s, t)
    requires ReferencesExist(t) && ClaimsAreLocked(t)
    ensures Safe(t)
  {
    SameFlights(s, t);
  }

  /** Looking at the next candidate either drops it, or locks it, or locks and claims it. */
  lemma LockNextEffect(s: State, worker: nat)
    requires CanLockNext(s, worker)
    ensures var t := ApplyLockNext(s, worker);
            var w := s.workers[worker];
            var k := w.candidates[0];
            && t == s.(workers := t.workers, locks := t.locks)
            && t.workers.Keys == s.workers.Keys
            && (forall v :: v in s.workers && v != worker ==> t.workers[v] == s.workers[v])
            && t.workers[worker].now == w.now && t.workers[worker].limit == w.limit
            && t.workers[worker].candidates
               == (if k !in s.locks && Ready(s.steps[k], w.now) && |w.claimed| + 1 >= w.limit then [] else w.candidates[1..])
            && t.locks == (if k in s.locks then s.locks else s.locks[k := worker])
            && t.workers[worker].claimed == (if k !in s.locks && Ready(s.steps[k], w.now) then w.claimed + [k] else w.claimed)
  {
  }

  lemma LockNextKeepsClaims(s: State, worker: nat)
    requires ClaimsAreLocked(s) && CanLockNext(s, worker)
    ensures ClaimsAreLocked(ApplyLockNext(s, worker))
  {
    LockNextEffect(s, worker);
    var t := ApplyLockNext(s, worker);
    forall w | w in t.workers ensures WorkerHoldsClaims(t, w) {
      assert WorkerHoldsClaims(s, w);
    }
  }

  lemma LockNextKeepsReferences(s: State, worker: nat)
    requires ReferencesExist(s) && CanLockNext(s, worker)
    ensures ReferencesExist(ApplyLockNext(s, worker))
  {
    LockNextEffect(s, worker);
    var w, t := s.workers[worker], ApplyLockNext(s, worker);
    assert Elements(t.workers[worker].claimed) <= Elements(w.claimed) + {w.candidates[0]};
  }

  // ----- Committing claims -----

  /** Two workers never claim the same row, and nobody claims a row that is in flight. */
  lemma ClaimsAreExclusive(s: State, w: nat, k: StepKey)
    requires Safe(s) && w in s.workers && k in s.workers[w].claimed
    ensures forall v :: v in s.workers && k in s.workers[v].claimed ==> v == w
    ensures forall x :: !InFlightOn(s, x, k)
  {
    assert WorkerHoldsClaims(s, w);
    forall v | v in s.workers && k in s.workers[v].claimed ensures v == w {
      assert WorkerHoldsClaims(s, v);
    }
  }

  ghost predicate FlightAfterCommit(s: State, w: Worker, x: nat, k: StepKey) {
    || InFlightOn(s, x, k)
    || (s.nextExecutor <= x < s.nextExecutor + |w.claimed| && w.claimed[x - s.nextExecutor] == k)
  }

  lemma FlightsAfterCommit(s: State, worker: nat)
    requires ReferencesExist(s) && CanCommit(s, worker)
    ensures forall x, k :: InFlightOn(ApplyCommit(s, worker), x, k) <==> FlightAfterCommit(s, s.workers[worker], x, k)
  {
    var w := s.workers[worker];
    var t := ApplyCommit(s, worker);
    assert t.executors == s.executors + Spawned(s.nextExecutor, w.claimed);
  }

  lemma CommitKeepsFlights(s: State, worker: nat)
    requires Safe(s) && CanCommit(s, worker)
    ensures FlightsHaveStatus(ApplyCommit(s, worker)) && OneExecutorPerStep(ApplyCommit(s, worker))
  {
    var w, t := s.workers[worker], ApplyCommit(s, worker);
    FlightsAfterCommit(s, worker);
    assert WorkerHoldsClaims(s, worker);
    forall k | k in w.claimed ensures forall x :: !InFlightOn(s, x, k) {
      ClaimsAreExclusive(s, worker, k);
    }
    forall x, k | InFlightOn(t, x, k) ensures k in t.steps && FlightStatus(t.steps[k].status) {
      assert FlightAfterCommit(s, w, x, k);
    }
    forall x, y, k | InFlightOn(t, x, k) && InFlightOn(t, y, k) ensures x == y {
      assert FlightAfterCommit(s, w, x, k) && FlightAfterCommit(s, w, y, k);
    }
  }

  lemma CommitKeepsClaims(s: State, worker: nat)
    requires Safe(s) && CanCommit(s, worker)
    ensures ClaimsAreLocked(ApplyCommit(s, worker))
  {
    var t := ApplyCommit(s, worker);
    forall v | v in t.workers ensures WorkerHoldsClaims(t, v) {
      assert WorkerHoldsClaims(s, v) && WorkerHoldsClaims(s, worker);
    }
  }

  lemma CommitKeepsReferences(s: State, worker: nat)
    requires ReferencesExist(s) && CanCommit(s, worker)
    ensures ReferencesExist(ApplyCommit(s, worker))
  {
    var t := ApplyCommit(s, worker);
    assert t.executors == s.executors + Spawned(s.nextExecutor, s.workers[worker].claimed);
    assert t.steps.Keys == s.steps.Keys;
  }

  lemma CommitKeepsSafe(s: State, worker: nat)
    requires Safe(s)
    ensures Safe(ApplyCommit(s, worker))
  {
    if CanCommit(s, worker) {
      CommitKeepsReferences(s, worker);
      CommitKeepsFlights(s, worker);
      CommitKeepsClaims(s, worker);
      assert ApplyCommit(s, worker).steps.Keys == s.steps.Keys;
    }
  }

  // ----- Settling a step -----

  /** Settling rewrites the executor's own unlocked row and takes the executor out of flight. */
  ghost predicate SettleEffect(s: State, t: State, x: nat)
    requires x in s.executors
  {
    SettleRows(s, t, s.executors[x].key) && SettleExecutors(s, t, x)
  }

  ghost predicate SettleRows(s: State, t: State, key: StepKey) {
    && t.steps.Keys == s.steps.Keys
    && (forall k :: k in s.steps && k != key ==> t.steps[k] == s.steps[k])
    && SameDefinitions(s, t)
    && s.dlq <= t.dlq && forall i :: |s.dlq| <= i < |t.dlq| ==> t.dlq[i].key == key
  }

  ghost predicate SettleExecutors(s: State, t: State, x: nat) {
    && t.workers == s.workers && t.locks == s.locks && t.nextExecutor == s.nextExecutor && t.clock == s.clock
    && (forall y :: y in t.executors ==> y in s.executors && t.executors[y].key == s.executors[y].key)
    && (forall y, k :: InFlightOn(t, y, k) <==> InFlightOn(s, y, k) && y != x)
  }

  lemma SettleWritesRows(s: State, x: nat, outcome: Outcome)
    requires CanSettle(s, x)
    ensures SettleRows(s, ApplySettle(s, x, outcome), s.executors[x].key)
  {
  }

  lemma SettleMovesExecutor(s: State, x: nat, outcome: Outcome)
    requires CanSettle(s, x)
    ensures SettleExecutors(s, ApplySettle(s, x, outcome), x)
  {
    var t := ApplySettle(s, x, outcome);
    assert t.workers == s.workers && t.locks == s.locks && t.nextExecutor == s.nextExecutor && t.clock == s.clock;
    assert outcome.Crashed? || outcome.AwaitingApproval? ==> t.executors == s.executors - {x};
    assert outcome.Unsuccessful? || outcome.Succeeded? ==>
      t.executors.Keys == s.executors.Keys && !t.executors[x].phase.InFlight?;
  }

  lemma SettleHasEffect(s: State, x: nat, outcome: Outcome)
    requires CanSettle(s, x)
    ensures SettleEffect(s, ApplySettle(s, x, outcome), x)
  {
    hide SettleRows, SettleExecutors, ApplySettle;
    SettleWritesRows(s, x, outcome);
    SettleMovesExecutor(s, x, outcome);
  }

  lemma SettleKeepsRowsFit(s: State, t: State, key: StepKey)
    requires RowsFit(s) && SettleRows(s, t, key)
    ensures RowsFit(t)
  {
    hide D.Valid;
  }

  lemma SettleKeepsReferences(s: State, t: State, x: nat)
    requires ReferencesExist(s) && x in s.executors && SettleEffect(s, t, x)
    ensures ReferencesExist(t)
  {
    hide InFlightOn;
  }

  lemma SettleKeepsClaims(s: State, t: State, x: nat)
    requires ClaimsAreLocked(s) && x in s.executors && SettleEffect(s, t, x) && s.executors[x].key !in s.locks
    ensures ClaimsAreLocked(t)
  {
    forall w | w in t.workers ensures WorkerHoldsClaims(t, w) {
      assert WorkerHoldsClaims(s, w);
    }
  }

  lemma SettleKeepsFlights(s: State, t: State, x: nat)
    requires FlightsHaveStatus(s) && OneExecutorPerStep(s) && x in s.executors && SettleEffect(s, t, x)
    requires InFlightOn(s, x, s.executors[x].key)
    ensures FlightsHaveStatus(t) && OneExecutorPerStep(t)
  {
    forall y, k | InFlightOn(t, y, k) ensures k in t.steps && FlightStatus(t.steps[k].status) {
      assert InFlightOn(s, y, k);
      assert InFlightOn(s, x, s.executors[x].key);
    }
  }

  lemma SettleKeepsSafe(s: State, x: nat, outcome: Outcome)
    requires Safe(s) && CanSettle(s, x)
    ensures Safe(ApplySettle(s, x, outcome))
  {
    var t := ApplySettle(s, x, outcome);
    SettleHasEffect(s, x, outcome);
    SettleKeepsRowsFit(s, t, s.executors[x].key);
    SettleKeepsReferences(s, t, x);
    SettleKeepsClaims(s, t, x);
    SettleKeepsFlights(s, t, x);
  }

  // ----- Actions that leave existing rows and executors alone -----

  lemma OpenClaimsWriteNoRow(s: State, a: Action)
    requires a.Scan? || a.LockNext?
    ensures NoRowWritten(s, Apply(s, a))
  {
    match a
    case Scan(_, _, _) =>
    case LockNext(_) =>
    case _ =>
  }

  lemma CreateIsIdle(s: State, pid: nat, d: D.Definition)
    requires RowsFit(s)
    ensures Idle(s, ApplyCreate(s, pid, d))
  {
    if CanCreate(s, pid, d) {
      CreateAdds(s, pid, d);
    }
  }

  ghost predicate Idle(s: State, t: State) {
    && t.executors == s.executors && t.dlq == s.dlq
    && forall k :: k in s.steps ==> k in t.steps && t.steps[k] == s.steps[k]
  }

  lemma IdleActions(s: State, a: Action)
    requires RowsFit(s) && (a.Create? || a.Scan? || a.LockNext?)
    ensures Idle(s, Apply(s, a))
  {
    match a
    case Create(pid, d) => CreateIsIdle(s, pid, d);
    case Scan(worker, limit, candidates) =>
    case LockNext(worker) =>
    case _ =>
  }

  // ----- Every run -----

  lemma KeepsSafe(s: State, a: Action)
    requires Safe(s)
    ensures Safe(Apply(s, a))
  {
    hide RowsFit, ReferencesExist, ClaimsAreLocked, FlightsHaveStatus, OneExecutorPerStep, Quiet, NoRowWritten;
    match a
    case Create(pid, d) => CreateKeepsSafe(s, pid, d);
    case Scan(worker, limit, candidates) =>
      ScanKeepsReferences(s, worker, limit, candidates);
      ScanKeepsClaims(s, worker, limit, candidates);
      OpenClaimsWriteNoRow(s, a);
      NoRowWrittenKeepsSafe(s, Apply(s, a));
    case LockNext(worker) =>
      if CanLockNext(s, worker) {
        LockNextEffect(s, worker);
        LockNextKeepsReferences(s, worker);
        LockNextKeepsClaims(s, worker);
        OpenClaimsWriteNoRow(s, a);
        NoRowWrittenKeepsSafe(s, Apply(s, a));
      }
    case CommitClaims(worker) => CommitKeepsSafe(s, worker);
    case Settle(x, outcome) =>
      if CanSettle(s, x) {
        SettleKeepsSafe(s, x, outcome);
      }
    case _ =>
      QuietActions(s, a);
      QuietKeepsSafe(s, Apply(s, a));
  }

  /**
   * In every interleaving of any number of workers, executors and operators, no row is claimed by
   * two workers and no step has two executors in flight.
   */
  lemma {:induction false} EveryRunIsSafe(actions: seq<Action>)
    ensures Safe(Run(EMPTY, actions))
  {
    if actions != [] {
      EveryRunIsSafe(actions[..|actions| - 1]);
      KeepsSafe(Run(EMPTY, actions[..|actions| - 1]), actions[|actions| - 1]);
    }
  }

  /** In every run, a step claimed by one worker is claimed by no other and executed by nobody. */
  lemma ClaimsAreExclusiveInEveryRun(actions: seq<Action>, w: nat, k: StepKey)
    requires w in Run(EMPTY, actions).workers && k in Run(EMPTY, actions).workers[w].claimed
    ensures var s := Run(EMPTY, actions);
            && (forall v :: v in s.workers && k in s.workers[v].claimed ==> v == w)
            && (forall x :: !InFlightOn(s, x, k))
  {
    hide Apply, Safe;
    EveryRunIsSafe(actions);
    ClaimsAreExclusive(Run(EMPTY, actions), w, k);
  }

  /** In every run, a step has at most one executor in flight, and is then running, queued or cancelled. */
  lemma OneExecutorInEveryRun(actions: seq<Action>, x: nat, y: nat, k: StepKey)
    requires InFlightOn(Run(EMPTY, actions), x, k) && InFlightOn(Run(EMPTY, actions), y, k)
    ensures x == y
    ensures var s := Run(EMPTY, actions); k in s.steps && FlightStatus(s.steps[k].status)
  {
    hide Apply, RowsFit, ReferencesExist, ClaimsAreLocked;
    EveryRunIsSafe(actions);
  }
}
