/** Which processes can still be completed, and the runs that complete them. */
module EngineProspects {
  import opened StateMachine
  import opened EngineSpec
  import opened EngineSafety
  import opened EngineRetries
  import opened EngineCompletion
  import opened EngineEvents
  import opened EngineRuns
  import opened EngineRevival
  import opened EngineQueued
  import opened EngineUpstreams
  import D = Definition

  /** The step is not done, and nothing can make it so. */
  ghost predicate Stranded(s: State, k: StepKey) {
    Inert(s, k) && !IsDone(s.steps[k].status)
  }

  ghost predicate NoneStranded(s: State, pid: nat) {
    forall k :: k in s.steps && k.pid == pid ==> !Stranded(s, k)
  }

  ghost predicate ExecutorLeft(s: State, pid: nat) {
    exists x :: x in s.executors && s.executors[x].key.pid == pid
  }

  ghost predicate GivenUp(s: State, pid: nat) {
    pid in s.processes && (s.processes[pid].status.Failed? || s.processes[pid].status.Cancelled?)
  }

  /** What is needed to complete the process: no dead end, and someone who will finalise it. */
  ghost predicate Promising(s: State, pid: nat) {
    && !GivenUp(s, pid) && NoneStranded(s, pid)
    && (IsCompleted(s, pid) || ExecutorLeft(s, pid) || !AllSucceeded(s, pid))
  }

  ghost predicate CanStillComplete(actions: seq<Action>, pid: nat) {
    exists later :: IsCompleted(Run(EMPTY, actions + later), pid)
  }

  // ----- Gentle actions strand nothing -----

  /** The step exists as before; it stays done if it was, and is stranded only if it was. */
  ghost predicate StepFollows(s: State, t: State, k: StepKey) {
    && k in s.steps && k in t.steps
    && (IsDone(s.steps[k].status) ==> IsDone(t.steps[k].status))
    && (Stranded(t, k) ==> Stranded(s, k))
  }

  lemma UndisturbedFollows(s: State, t: State, k: StepKey)
    requires Undisturbed(s, t, k)
    ensures StepFollows(s, t, k)
  {
  }

  lemma ExecutedFollows(s: State, t: State, k: StepKey)
    requires k in s.steps && !IsDone(s.steps[k].status) && k in t.steps && BeingExecuted(t, k)
    ensures StepFollows(s, t, k)
  {
  }

  lemma ReplayFollows(s: State, row: nat, k: StepKey)
    requires k in s.steps
    ensures StepFollows(s, ApplyReplay(s, row), k)
  {
    var t := ApplyReplay(s, row);
    assert forall x :: InFlightOn(t, x, k) <==> InFlightOn(s, x, k);
  }

  lemma SuccessFollows(s: State, x: nat, outputs: Outputs, k: StepKey)
    requires k in s.steps
    ensures StepFollows(s, ApplySettle(s, x, Succeeded(outputs)), k)
  {
    if CanSettle(s, x) {
      var t := ApplySettle(s, x, Succeeded(outputs));
      SettleHasEffect(s, x, Succeeded(outputs));
      if k != s.executors[x].key {
        forall y ensures InFlightOn(t, y, k) <==> InFlightOn(s, y, k) {
          assert InFlightOn(t, y, k) <==> InFlightOn(s, y, k) && y != x;
        }
      }
    }
  }

  lemma GentleActionFollows(s: State, a: Action, k: StepKey)
    requires Safe(s) && IsGentle(a) && k in s.steps
    ensures StepFollows(s, Apply(s, a), k)
  {
    hide StepFollows, ApplyCommit, ApplySettle, ApplyReplay, Safe;
    match a
    case Replay(row) => ReplayFollows(s, row, k);
    case Settle(x, outcome) => SuccessFollows(s, x, outcome.outputs, k);
    case CommitClaims(w) =>
      CommitTakesOrLeaves(s, w, k);
      if Undisturbed(s, ApplyCommit(s, w), k) {
        UndisturbedFollows(s, ApplyCommit(s, w), k);
      } else {
        ExecutedFollows(s, ApplyCommit(s, w), k);
      }
    case Tick(_) => UndisturbedFollows(s, Apply(s, a), k);
    case Scan(_, _, _) =>
      OpenClaimsWriteNoRow(s, a);
      UndisturbedFollows(s, Apply(s, a), k);
    case LockNext(_) =>
      OpenClaimsWriteNoRow(s, a);
      UndisturbedFollows(s, Apply(s, a), k);
    case _ =>
  }

  /** The process row is the same, it has the same steps, and executors of it are still there. */
  ghost predicate ProcessFollows(s: State, t: State, pid: nat) {
    && pid in s.processes && pid in t.processes && t.processes[pid] == s.processes[pid]
    && t.steps.Keys == s.steps.Keys
    && (ExecutorLeft(s, pid) ==> ExecutorLeft(t, pid))
  }

  ghost predicate ExecutorsRemain(s: State, t: State) {
    forall x :: x in s.executors ==> x in t.executors && t.executors[x].key == s.executors[x].key
  }

  lemma GentleActionKeepsTables(s: State, a: Action)
    requires ReferencesExist(s) && IsGentle(a)
    ensures Apply(s, a).processes == s.processes && Apply(s, a).steps.Keys == s.steps.Keys
    ensures ExecutorsRemain(s, Apply(s, a))
  {
    hide ApplyCommit, ApplySettle, ApplyReplay;
    match a
    case CommitClaims(w) => CommitKeepsTables(s, w);
    case Settle(x, outcome) => SuccessKeepsTables(s, x, outcome.outputs);
    case Replay(row) => ReplayKeepsTables(s, row);
    case _ =>
  }

  lemma SuccessKeepsTables(s: State, x: nat, outputs: Outputs)
    ensures var t := ApplySettle(s, x, Succeeded(outputs));
            t.processes == s.processes && t.steps.Keys == s.steps.Keys && ExecutorsRemain(s, t)
  {
  }

  lemma ReplayKeepsTables(s: State, row: nat)
    ensures var t := ApplyReplay(s, row);
            t.processes == s.processes && t.steps.Keys == s.steps.Keys && ExecutorsRemain(s, t)
  {
  }

  lemma CommitKeepsTables(s: State, w: nat)
    requires ReferencesExist(s)
    ensures ApplyCommit(s, w).processes == s.processes && ApplyCommit(s, w).steps.Keys == s.steps.Keys
    ensures ExecutorsRemain(s, ApplyCommit(s, w))
  {
  }

  lemma RemainingExecutorsAreLeft(s: State, t: State, pid: nat)
    requires ExecutorsRemain(s, t)
    ensures ExecutorLeft(s, pid) ==> ExecutorLeft(t, pid)
  {
    if x :| x in s.executors && s.executors[x].key.pid == pid {
      assert x in t.executors && t.executors[x].key.pid == pid;
    }
  }

  ghost predicate Follows(s: State, t: State, pid: nat) {
    ProcessFollows(s, t, pid) && forall k :: k in s.steps ==> StepFollows(s, t, k)
  }

  lemma {:induction false} GentleRunFollows(actions: seq<Action>, later: seq<Action>, pid: nat)
    requires AllGentle(later) && pid in Run(EMPTY, actions).processes
    ensures Follows(Run(EMPTY, actions), Run(EMPTY, actions + later), pid)
  {
    hide Run, Apply, Safe, Stranded, ExecutorLeft, IsGentle, ReferencesExist;
    var s := Run(EMPTY, actions);
    if later == [] {
      assert actions + later == actions;
    } else {
      var front, last := later[..|later| - 1], later[|later| - 1];
      assert last in later && forall a :: a in front ==> a in later;
      GentleRunFollows(actions, front, pid);
      var m := Run(EMPTY, actions + front);
      assert actions + later == actions + front + [last];
      RunAppend(EMPTY, actions + front, [last]);
      RunOne(m, last);
      EveryRunIsSafe(actions + front);
      SafeReferences(m);
      GentleActionKeepsTables(m, last);
      RemainingExecutorsAreLeft(m, Apply(m, last), pid);
      forall k | k in s.steps ensures StepFollows(s, Apply(m, last), k) {
        GentleActionFollows(m, last, k);
      }
    }
  }

  lemma SafeReferences(s: State)
    requires Safe(s)
    ensures ReferencesExist(s)
  {
  }

  // ----- Every step that is not stranded can be made to succeed -----

  lemma SucceedNow(s: State, x: nat, k: StepKey)
    requires InFlightOn(s, x, k) && k in s.steps && k !in s.locks
    ensures var t := ApplySettle(s, x, Succeeded(map[]));
            && k in t.steps && IsDone(t.steps[k].status)
            && x in t.executors && t.executors[x].key == k
  {
  }

  lemma DriveOne(actions: seq<Action>, k: StepKey) returns (later: seq<Action>)
    requires var s := Run(EMPTY, actions); k in s.steps && !IsDone(s.steps[k].status) && !Stranded(s, k)
    ensures AllGentle(later)
    ensures var t := Run(EMPTY, actions + later); k in t.steps && IsDone(t.steps[k].status) && ExecutorLeft(t, k.pid)
  {
    hide Run, BeingExecuted, ApplySettle;
    var claiming := MakeInFlight(actions, k);
    var held := Run(EMPTY, actions + claiming);
    var x := ExecutorOf(held, k);
    SucceedNow(held, x, k);
    RunAppend(EMPTY, actions + claiming, [Settle(x, Succeeded(map[]))]);
    RunOne(held, Settle(x, Succeeded(map[])));
    later := claiming + [Settle(x, Succeeded(map[]))];
    assert actions + later == actions + claiming + [Settle(x, Succeeded(map[]))];
  }

  lemma ExecutorOf(s: State, k: StepKey) returns (x: nat)
    requires BeingExecuted(s, k)
    ensures InFlightOn(s, x, k)
  {
    x :| InFlightOn(s, x, k);
  }

  ghost function Undone(s: State, pid: nat): set<StepKey> {
    set k | k in s.steps && k.pid == pid && !IsDone(s.steps[k].status)
  }

  lemma FollowingIsPromising(s: State, t: State, pid: nat)
    requires Follows(s, t, pid)
    ensures NoneStranded(s, pid) ==> NoneStranded(t, pid)
    ensures Undone(t, pid) <= Undone(s, pid)
  {
    hide Stranded, ExecutorLeft;
  }

  lemma FollowsTransitive(s: State, t: State, u: State, pid: nat)
    requires Follows(s, t, pid) && Follows(t, u, pid)
    ensures Follows(s, u, pid)
  {
    hide Stranded, ExecutorLeft;
  }

  lemma NothingUndoneIsSuccess(s: State, pid: nat)
    ensures Undone(s, pid) == {} <==> AllSucceeded(s, pid)
  {
    assert forall k :: k in s.steps && k.pid == pid ==> k in RowsOf(s, pid);
    assert forall k :: k in RowsOf(s, pid) && !IsDone(s.steps[k].status) ==> k in Undone(s, pid);
  }

  lemma {:induction false} DriveAll(actions: seq<Action>, pid: nat) returns (later: seq<Action>)
    requires pid in Run(EMPTY, actions).processes && NoneStranded(Run(EMPTY, actions), pid)
    ensures var s, t := Run(EMPTY, actions), Run(EMPTY, actions + later);
            && Follows(s, t, pid) && Undone(t, pid) == {}
            && (Undone(s, pid) != {} ==> ExecutorLeft(t, pid))
    decreases Undone(Run(EMPTY, actions), pid)
  {
    hide Run, Stranded, ExecutorLeft, IsGentle, StepFollows;
    var s := Run(EMPTY, actions);
    if Undone(s, pid) == {} {
      later := [];
      assert actions + later == actions;
      GentleRunFollows(actions, [], pid);
    } else {
      var k :| k in Undone(s, pid);
      var one := DriveOne(actions, k);
      var m := Run(EMPTY, actions + one);
      GentleRunFollows(actions, one, pid);
      FollowingIsPromising(s, m, pid);
      assert k !in Undone(m, pid);
      var rest := DriveAll(actions + one, pid);
      later := one + rest;
      assert actions + later == actions + one + rest;
      FollowsTransitive(s, m, Run(EMPTY, actions + later), pid);
    }
  }

  // ----- Then the process can be finalised -----

  /** The process runs, all its steps have succeeded, and the executor still has to do its part. */
  ghost predicate AboutToFinish(s: State, x: nat, pid: nat) {
    && pid in s.processes && s.processes[pid].status.Running? && Undone(s, pid) == {}
    && x in s.executors && s.executors[x].key.pid == pid && s.executors[x].key in s.steps
    && !s.executors[x].phase.InFlight?
  }

  function NextPart(s: State, x: nat): Action
    requires x in s.executors
  {
    match s.executors[x].phase
    case Announcing => Announce(x)
    case Enqueueing => Enqueue(x)
    case _ => Finalise(x)
  }

  lemma AnnouncingGoesOn(s: State, x: nat, pid: nat)
    requires AboutToFinish(s, x, pid) && s.executors[x].phase.Announcing?
    ensures AboutToFinish(ApplyAnnounce(s, x), x, pid) && ApplyAnnounce(s, x).executors[x].phase.Enqueueing?
  {
    assert Undone(ApplyAnnounce(s, x), pid) == Undone(s, pid);
  }

  lemma NoMembersIsEmpty(names: seq<string>)
    ensures (forall n :: n !in names) ==> names == []
  {
    if names != [] {
      assert names[0] in names;
    }
  }

  lemma EnqueueingGoesOn(s: State, x: nat, pid: nat)
    requires AboutToFinish(s, x, pid) && s.executors[x].phase.Enqueueing?
    ensures AboutToFinish(ApplyEnqueue(s, x), x, pid) && ApplyEnqueue(s, x).executors[x].phase.Finalising?
  {
    var names := ToQueue(s, s.executors[x].key);
    assert forall n :: n in names ==> StepKey(pid, n) in Undone(s, pid);
    NoMembersIsEmpty(names);
    assert Keys(pid, names) == {};
    assert ApplyEnqueue(s, x).steps == s.steps;
  }

  lemma FinalisingCompletes(s: State, x: nat, pid: nat)
    requires AboutToFinish(s, x, pid) && s.executors[x].phase.Finalising?
    ensures IsCompleted(ApplyFinalise(s, x), pid)
  {
    hide CollectedOutputs;
    NothingUndoneIsSuccess(s, pid);
    assert s.executors[x].key in RowsOf(s, pid);
    var logged := s.(executors := s.executors - {x}).(log := s.log + s.executors[x].phase.unsaved);
    assert RowsOf(logged, pid) == RowsOf(s, pid);
    assert AllSucceeded(logged, pid);
  }

  lemma {:induction false} FinishUp(actions: seq<Action>, x: nat, pid: nat) returns (later: seq<Action>)
    requires AboutToFinish(Run(EMPTY, actions), x, pid)
    ensures IsCompleted(Run(EMPTY, actions + later), pid)
    decreases match Run(EMPTY, actions).executors[x].phase case Announcing => 2 case Enqueueing => 1 case _ => 0
  {
    hide Run, ApplyAnnounce, ApplyEnqueue, ApplyFinalise, Undone;
    var s := Run(EMPTY, actions);
    var a := NextPart(s, x);
    RunAppend(EMPTY, actions, [a]);
    RunOne(s, a);
    match s.executors[x].phase {
      case Announcing =>
        AnnouncingGoesOn(s, x, pid);
        var rest := FinishUp(actions + [a], x, pid);
        later := [a] + rest;
        assert actions + later == actions + [a] + rest;
      case Enqueueing =>
        EnqueueingGoesOn(s, x, pid);
        var rest := FinishUp(actions + [a], x, pid);
        later := [a] + rest;
        assert actions + later == actions + [a] + rest;
      case Finalising(_) =>
        FinalisingCompletes(s, x, pid);
        later := [a];
    }
  }

  /** Other code can bring a process that is not finished to running, without touching its steps. */
  lemma {:induction false} BringToRunning(actions: seq<Action>, pid: nat) returns (later: seq<Action>)
    requires var s := Run(EMPTY, actions); pid in s.processes && !IsFinal(s.processes[pid].status)
    ensures var s, t := Run(EMPTY, actions), Run(EMPTY, actions + later);
            && pid in t.processes && t.processes[pid].status.Running?
            && t.steps == s.steps && t.executors == s.executors
    decreases match Run(EMPTY, actions).processes[pid].status case Draft => 2 case Running => 0 case _ => 1
  {
    hide Run;
    var s := Run(EMPTY, actions);
    var status := s.processes[pid].status;
    if status.Running? {
      later := [];
      assert actions + later == actions;
    } else {
      var a := External(pid, if status.Draft? then ProcessStatus.Queued else ProcessStatus.Running);
      RunAppend(EMPTY, actions, [a]);
      RunOne(s, a);
      var rest := BringToRunning(actions + [a], pid);
      later := [a] + rest;
      assert actions + later == actions + [a] + rest;
    }
  }

  lemma DoneIsNotInFlight(s: State, x: nat)
    requires Safe(s) && x in s.executors && Undone(s, s.executors[x].key.pid) == {}
    ensures s.executors[x].key in s.steps && !s.executors[x].phase.InFlight?
  {
    var k := s.executors[x].key;
    assert s.executors[x].phase.InFlight? ==> InFlightOn(s, x, k);
    assert InFlightOn(s, x, k) ==> k in Undone(s, k.pid);
  }

  /** A promising process that has not been completed yet can be. */
  lemma PromisingCanComplete(actions: seq<Action>, pid: nat)
    requires var s := Run(EMPTY, actions); pid in s.processes && Promising(s, pid)
    ensures CanStillComplete(actions, pid)
  {
    hide Run, NoneStranded, Safe, Follows, Undone;
    var s := Run(EMPTY, actions);
    if IsCompleted(s, pid) {
      assert actions + [] == actions;
      assert IsCompleted(Run(EMPTY, actions + []), pid);
    } else {
      var driving := DriveAll(actions, pid);
      var driven := Run(EMPTY, actions + driving);
      NothingUndoneIsSuccess(s, pid);
      FollowingKeepsProcess(s, driven, pid);
      var moving := BringToRunning(actions + driving, pid);
      var running := Run(EMPTY, actions + driving + moving);
      SameStepsSameUndone(driven, running, pid);
      var x :| x in running.executors && running.executors[x].key.pid == pid;
      EveryRunIsSafe(actions + driving + moving);
      DoneIsNotInFlight(running, x);
      var finishing := FinishUp(actions + driving + moving, x, pid);
      assert actions + (driving + moving + finishing) == actions + driving + moving + finishing;
    }
  }

  lemma FollowingKeepsProcess(s: State, t: State, pid: nat)
    requires Follows(s, t, pid)
    ensures pid in s.processes && pid in t.processes && t.processes[pid] == s.processes[pid]
    ensures ExecutorLeft(s, pid) ==> ExecutorLeft(t, pid)
  {
  }

  lemma SameStepsSameUndone(s: State, t: State, pid: nat)
    requires t.steps == s.steps
    ensures Undone(t, pid) == Undone(s, pid)
  {
  }

  // ----- What rules completion out -----

  lemma GivenUpStays(s: State, a: Action, pid: nat)
    requires EventSourced(s) && GivenUp(s, pid)
    ensures GivenUp(Apply(s, a), pid)
  {
    hide EventSourced, Logged, ApplyStart, ApplyCancel, ApplyResume, ApplyReplay, ApplyCommit, ApplySettle, ApplyEnqueue, ApplyFinalise;
    if !a.Create? {
      ActionsAreLogged(s, a);
      LoggedStepsStayGivenUp(s, Apply(s, a), pid);
    }
  }

  lemma LoggedStepsStayGivenUp(s: State, t: State, pid: nat)
    requires Logged(s, t) && GivenUp(s, pid)
    ensures GivenUp(t, pid)
  {
    hide History;
  }

  /** No step is left to be worked on, and nobody is left to finalise the process. */
  ghost predicate Spent(s: State, pid: nat) {
    && pid in s.processes && !IsCompleted(s, pid) && !ExecutorLeft(s, pid)
    && forall k :: k in s.steps && k.pid == pid ==> Inert(s, k)
  }

  lemma NoNewRows(s: State, a: Action, pid: nat)
    requires RowsFit(s) && pid in s.processes
    ensures forall k :: k in Apply(s, a).steps && k.pid == pid ==> k in s.steps
  {
    hide Quiet, ApplyCommit, ApplySettle;
    if IsQuiet(a) {
      QuietActions(s, a);
      QuietAddsNoRows(s, Apply(s, a));
    } else if a.CommitClaims? && CanCommit(s, a.worker) {
      CommitKeepsQueue(s, a.worker);
    } else if a.Settle? && CanSettle(s, a.executor) {
      SettleWrites(s, a.executor, a.outcome);
    } else if a.Create? && CanCreate(s, a.pid, a.definition) {
      CreateAdds(s, a.pid, a.definition);
    } else {
      DisabledChangesNoRow(s, a);
    }
  }

  lemma QuietAddsNoRows(s: State, t: State)
    requires Quiet(s, t)
    ensures t.steps.Keys == s.steps.Keys
  {
  }

  lemma DisabledChangesNoRow(s: State, a: Action)
    requires !IsQuiet(a)
    requires a.CommitClaims? ==> !CanCommit(s, a.worker)
    requires a.Settle? ==> !CanSettle(s, a.executor)
    requires a.Create? ==> !CanCreate(s, a.pid, a.definition)
    ensures Apply(s, a).steps == s.steps
  {
  }

  lemma NoNewExecutors(s: State, a: Action, pid: nat)
    requires Safe(s) && Spent(s, pid)
    ensures !ExecutorLeft(Apply(s, a), pid)
  {
    hide RowsFit, ReferencesExist, FlightsHaveStatus, OneExecutorPerStep;
    var t := Apply(s, a);
    if IsQuiet(a) {
      QuietActions(s, a);
    } else if a.CommitClaims? {
      NoNewExecutorsByClaiming(s, a.worker, pid);
    } else if a.Settle? {
      if CanSettle(s, a.executor) {
        SettleHasEffect(s, a.executor, a.outcome);
      }
    } else {
      IdleActions(s, a);
    }
  }

  lemma NoNewExecutorsByClaiming(s: State, w: nat, pid: nat)
    requires Safe(s) && Spent(s, pid)
    ensures !ExecutorLeft(ApplyCommit(s, w), pid)
  {
    if CanCommit(s, w) {
      assert WorkerHoldsClaims(s, w);
      assert forall k :: k in s.workers[w].claimed ==> k.pid != pid;
    }
  }

  lemma SpentIsNotCompleted(s: State, a: Action, pid: nat)
    requires Spent(s, pid)
    ensures !IsCompleted(Apply(s, a), pid)
  {
    hide ApplyFinalise, Inert;
    if a.Finalise? {
      FinaliseTouchesOneProcess(s, a.executor, pid);
    } else if IsCompleted(Apply(s, a), pid) {
      OnlyFinalisingCompletes(s, a, pid);
    }
  }

  lemma ProcessesStay(s: State, a: Action, pid: nat)
    requires EventSourced(s) && pid in s.processes
    ensures pid in Apply(s, a).processes
  {
    if !a.Create? {
      ActionsAreLogged(s, a);
    }
  }

  lemma SpentStays(s: State, a: Action, pid: nat)
    requires Safe(s) && EventSourced(s) && Spent(s, pid)
    ensures Spent(Apply(s, a), pid)
  {
    hide Apply, EventSourced, Inert, ExecutorLeft, IsCompleted, ReferencesExist, ClaimsAreLocked, FlightsHaveStatus;
    ProcessesStay(s, a, pid);
    NoNewRows(s, a, pid);
    NoNewExecutors(s, a, pid);
    SpentIsNotCompleted(s, a, pid);
    forall k | k in Apply(s, a).steps && k.pid == pid ensures Inert(Apply(s, a), k) {
      ActionKeepsInert(s, a, k);
      StillInertIsInert(s, Apply(s, a), k);
    }
  }

  lemma StillInertIsInert(s: State, t: State, k: StepKey)
    requires StillInert(s, t, k)
    ensures Inert(t, k)
  {
  }

  /** Given up, or spent: it stays so in every continuation. */
  lemma {:induction false} DeadEndsStay(actions: seq<Action>, later: seq<Action>, pid: nat)
    ensures GivenUp(Run(EMPTY, actions), pid) ==> GivenUp(Run(EMPTY, actions + later), pid)
    ensures Spent(Run(EMPTY, actions), pid) ==> Spent(Run(EMPTY, actions + later), pid)
  {
    hide Apply, Safe, EventSourced, GivenUp, Spent;
    if later == [] {
      assert actions + later == actions;
    } else {
      var n := |later| - 1;
      var shorter := actions + later[..n];
      DeadEndsStay(actions, later[..n], pid);
      assert (actions + later)[..|actions + later| - 1] == shorter;
      EveryRunIsSafe(shorter);
      EveryRunIsEventSourced(shorter);
      if GivenUp(Run(EMPTY, shorter), pid) {
        GivenUpStays(Run(EMPTY, shorter), later[n], pid);
      }
      if Spent(Run(EMPTY, shorter), pid) {
        SpentStays(Run(EMPTY, shorter), later[n], pid);
      }
    }
  }

  /** A process with a stranded step is never completed. */
  lemma StrandedNeverCompletes(actions: seq<Action>, later: seq<Action>, k: StepKey)
    requires Stranded(Run(EMPTY, actions), k)
    ensures !IsCompleted(Run(EMPTY, actions + later), k.pid)
  {
    hide Run, CollectedOutputs, BeingExecuted;
    InertStepsNeverRun(actions, later, k);
    EveryRunIsCompletedOk(actions + later);
    assert k in RowsOf(Run(EMPTY, actions + later), k.pid);
  }

  lemma NotPromisingIsSpent(s: State, pid: nat)
    requires Safe(s) && pid in s.processes && !Promising(s, pid) && !GivenUp(s, pid) && NoneStranded(s, pid)
    ensures Spent(s, pid)
  {
    forall k | k in s.steps && k.pid == pid ensures Inert(s, k) {
      assert k in RowsOf(s, pid) && IsDone(s.steps[k].status);
      if x :| InFlightOn(s, x, k) {
        InFlightIsNotWaiting(s, k);
      }
    }
  }

  lemma GivenUpIsNotCompleted(s: State, pid: nat)
    requires GivenUp(s, pid) || Spent(s, pid)
    ensures !IsCompleted(s, pid)
  {
  }

  /**
   * In every run, a process can still be completed exactly when it is neither failed nor cancelled, none of its
   * steps is stranded, and it is completed already or there is work or an executor left.
   */
  lemma CanStillCompleteIff(actions: seq<Action>, pid: nat)
    requires pid in Run(EMPTY, actions).processes
    ensures CanStillComplete(actions, pid) <==> Promising(Run(EMPTY, actions), pid)
  {
    hide Run, Safe, GivenUp, Spent, Stranded, IsCompleted, ExecutorLeft, AllSucceeded;
    var s := Run(EMPTY, actions);
    if Promising(s, pid) {
      PromisingCanComplete(actions, pid);
    } else {
      forall later ensures !IsCompleted(Run(EMPTY, actions + later), pid) {
        if !NoneStranded(s, pid) {
          var k :| k in s.steps && k.pid == pid && Stranded(s, k);
          StrandedNeverCompletes(actions, later, k);
        } else {
          if !GivenUp(s, pid) {
            EveryRunIsSafe(actions);
            NotPromisingIsSpent(s, pid);
          }
          DeadEndsStay(actions, later, pid);
          GivenUpIsNotCompleted(Run(EMPTY, actions + later), pid);
        }
      }
    }
  }

  /** Every process just created can be completed, in some continuation of any run. */
  lemma NewProcessCanComplete(actions: seq<Action>, pid: nat, d: D.Definition)
    requires CanCreate(Run(EMPTY, actions), pid, d)
    ensures CanStillComplete(actions + [Create(pid, d)], pid)
  {
    hide Run, Apply, ApplyCreate, Safe, Promising;
    var s := Run(EMPTY, actions);
    EveryRunIsSafe(actions);
    RunAppend(EMPTY, actions, [Create(pid, d)]);
    CreateIsOneAction(s, pid, d);
    NewProcessIsPromising(s, pid, d);
    CanStillCompleteIff(actions + [Create(pid, d)], pid);
  }

  lemma NewProcessIsPromising(s: State, pid: nat, d: D.Definition)
    requires Safe(s) && CanCreate(s, pid, d)
    ensures pid in ApplyCreate(s, pid, d).processes && Promising(ApplyCreate(s, pid, d), pid)
  {
    hide ApplyCreate, Safe;
    var t := ApplyCreate(s, pid, d);
    CreatedDraft(s, pid, d);
    var key := StepKey(pid, D.StepNames(d)[0]);
    assert key in RowsOf(t, pid);
  }

  lemma CreatedDraft(s: State, pid: nat, d: D.Definition)
    requires Safe(s) && CanCreate(s, pid, d)
    ensures var t := ApplyCreate(s, pid, d);
            && pid in t.processes && t.processes[pid].status.Draft?
            && D.StepNames(d) != [] && StepKey(pid, D.StepNames(d)[0]) in t.steps
            && forall k :: k in t.steps && k.pid == pid ==> t.steps[k].status.Pending?
  {
    CreateAdds(s, pid, d);
    assert StepKey(pid, D.StepNames(d)[0]) in Keys(pid, D.StepNames(d));
  }

  const RESULT: Outputs := map["summary" := "done"]

  /** The step was claimed before the process was started, and other code has set the process running. */
  const COMPLETING: seq<Action> :=
    FirstClaim(0, SINGLE, "only") + [Start(0, ["only"])] + [External(0, ProcessStatus.Running)]
    + [Settle(0, Succeeded(RESULT))] + [Announce(0)] + [Enqueue(0)] + [Finalise(0)]

  /** The only step is in flight while it is queued, and the process is running. */
  ghost predicate SingleRunning(s: State) {
    && s.steps.Keys == {StepKey(0, "only")} && s.steps[StepKey(0, "only")].status.Queued? && s.locks == map[]
    && s.executors == map[0 := Executor(StepKey(0, "only"), InFlight)]
    && 0 in s.processes && s.processes[0].definition == SINGLE && s.processes[0].status.Running?
  }

  lemma OnlyRoot()
    ensures Lists(["only"], 0, Keys(0, D.RootSteps(SINGLE))) && Keys(0, D.StepNames(SINGLE)) == {StepKey(0, "only")}
  {
    assert D.StepNames(SINGLE) == ["only"];
    assert D.IsRoot(SINGLE, "only");
    assert forall n :: n in D.RootSteps(SINGLE) <==> n in ["only"];
  }

  lemma SingleStarts(s: State)
    requires "only" in D.StepNames(SINGLE) && JustClaimed(s, 0, SINGLE, "only")
    ensures SingleRunning(ApplyExternal(ApplyStart(s, 0, ["only"]), 0, ProcessStatus.Running))
  {
    OnlyRoot();
    assert CanStart(s, 0, ["only"]);
  }

  lemma StartedWhileClaimed()
    ensures SingleRunning(Run(EMPTY, FirstClaim(0, SINGLE, "only") + [Start(0, ["only"])] + [External(0, ProcessStatus.Running)]))
  {
    hide Run, D.Valid, JustClaimed, SingleRunning, ApplyStart, ApplyExternal;
    SingleIsValid();
    FirstClaimWorks(0, SINGLE, "only");
    var claiming := FirstClaim(0, SINGLE, "only");
    var claimed := Run(EMPTY, claiming);
    SingleStarts(claimed);
    RunAppend(EMPTY, claiming, [Start(0, ["only"])]);
    RunOne(claimed, Start(0, ["only"]));
    RunAppend(EMPTY, claiming + [Start(0, ["only"])], [External(0, ProcessStatus.Running)]);
    RunOne(ApplyStart(claimed, 0, ["only"]), External(0, ProcessStatus.Running));
  }

  lemma SuccessIsAboutToFinish(s: State)
    requires SingleRunning(s)
    ensures var t := ApplySettle(s, 0, Succeeded(RESULT));
            AboutToFinish(t, 0, 0) && t.executors[0].phase.Announcing?
  {
    assert CanSettle(s, 0);
    assert forall k :: k in ApplySettle(s, 0, Succeeded(RESULT)).steps ==> k == StepKey(0, "only");
  }

  /** A run that completes its process, although the process was started while its step was at work. */
  lemma SomeRunCompletes()
    ensures IsCompleted(Run(EMPTY, COMPLETING), 0)
  {
    hide Run, SingleRunning, AboutToFinish, IsCompleted, ApplySettle, ApplyAnnounce, ApplyEnqueue, ApplyFinalise;
    StartedWhileClaimed();
    var running := FirstClaim(0, SINGLE, "only") + [Start(0, ["only"])] + [External(0, ProcessStatus.Running)];
    var s := Run(EMPTY, running);
    SuccessIsAboutToFinish(s);
    var settled := ApplySettle(s, 0, Succeeded(RESULT));
    AnnouncingGoesOn(settled, 0, 0);
    var announced := ApplyAnnounce(settled, 0);
    EnqueueingGoesOn(announced, 0, 0);
    var enqueued := ApplyEnqueue(announced, 0);
    FinalisingCompletes(enqueued, 0, 0);
    RunAppend(EMPTY, running, [Settle(0, Succeeded(RESULT))]);
    RunOne(s, Settle(0, Succeeded(RESULT)));
    RunAppend(EMPTY, running + [Settle(0, Succeeded(RESULT))], [Announce(0)]);
    RunOne(settled, Announce(0));
    RunAppend(EMPTY, running + [Settle(0, Succeeded(RESULT))] + [Announce(0)], [Enqueue(0)]);
    RunOne(announced, Enqueue(0));
    RunAppend(EMPTY, running + [Settle(0, Succeeded(RESULT))] + [Announce(0)] + [Enqueue(0)], [Finalise(0)]);
    RunOne(enqueued, Finalise(0));
  }

  // ----- Starting too early -----

  lemma UnclaimedIsNotInFlight(s: State, k: StepKey)
    requires Accounted(s) && k in s.steps && s.steps[k].claimTimes == []
    ensures !BeingExecuted(s, k)
  {
    assert RowOk(s.steps[k], s.clock);
    assert s.steps[k].maxAttempts * s.steps[k].replays >= 0;
  }

  /** A process that is started while one of its root steps has not been claimed yet never becomes completed. */
  lemma StartedTooEarlyNeverCompletes(actions: seq<Action>, pid: nat, order: seq<string>, later: seq<Action>, name: string)
    requires CanStart(Run(EMPTY, actions), pid, order) && name in order
    requires ClaimTimes(Run(EMPTY, actions), StepKey(pid, name)) == []
    ensures !IsCompleted(Run(EMPTY, actions + [Start(pid, order)] + later), pid)
  {
    hide Run, Apply, Accounted;
    var s, k := Run(EMPTY, actions), StepKey(pid, name);
    EveryRunIsAccounted(actions);
    EveryRunIsSafe(actions);
    assert k in Keys(pid, order) && k in s.steps by {
      RootsHaveRows(s, pid, order, name);
    }
    UnclaimedIsNotInFlight(s, k);
    StartedRootsAreInertIff(s, pid, order, name);
    RunAppend(EMPTY, actions, [Start(pid, order)]);
    StartIsOneAction(s, pid, order);
    StrandedNeverCompletes(actions + [Start(pid, order)], later, k);
  }

  lemma StartIsOneAction(s: State, pid: nat, order: seq<string>)
    ensures Run(s, [Start(pid, order)]) == ApplyStart(s, pid, order)
  {
    RunOne(s, Start(pid, order));
  }

  lemma RootsHaveRows(s: State, pid: nat, order: seq<string>, name: string)
    requires Safe(s) && CanStart(s, pid, order) && name in order
    ensures StepKey(pid, name) in Keys(pid, order) && StepKey(pid, name) in s.steps
  {
    assert StepKey(pid, name) in Keys(pid, D.RootSteps(s.processes[pid].definition));
  }

  /** So does one that is started before any root step has been claimed: it always has a root step. */
  lemma StartedFirstNeverCompletes(actions: seq<Action>, pid: nat, order: seq<string>, later: seq<Action>)
    requires CanStart(Run(EMPTY, actions), pid, order)
    requires forall name :: name in order ==> ClaimTimes(Run(EMPTY, actions), StepKey(pid, name)) == []
    ensures !IsCompleted(Run(EMPTY, actions + [Start(pid, order)] + later), pid)
  {
    hide Run, Apply, IsCompleted;
    var s := Run(EMPTY, actions);
    EveryRunIsSafe(actions);
    var root := SomeRoot(s.processes[pid].definition);
    assert StepKey(pid, root) in Keys(pid, order);
    StartedTooEarlyNeverCompletes(actions, pid, order, later, root);
  }

  lemma SomeRoot(d: D.Definition) returns (root: string)
    requires D.Valid(d)
    ensures root in D.RootSteps(d)
  {
    var name := D.StepNames(d)[0];
    D.EveryStepIsBelowARoot(d, name);
    root :| D.IsRoot(d, root);
  }
}
