/** The event log mirrors every process: replaying it gives the stored status. */
module EngineEvents {
  import opened Wrappers
  import opened StateMachine
  import opened EngineSpec
  import opened EngineSafety
  import opened EngineRuns
  import D = Definition

  ghost predicate EverRunning(h: seq<Event>) {
    exists i :: 0 <= i < |h| && StatusAfter(h, i).Running?
  }

  ghost predicate Mirrored(s: State, pid: nat)
    requires pid in s.processes
  {
    var h := History(s.log, pid);
    && LegalHistory(h, pid, s.processes[pid].status)
    && (s.processes[pid].startedAt.Some? <==> EverRunning(h))
  }

  ghost predicate OnlyStepEvents(events: seq<Event>) {
    forall e :: e in events ==> !IsProcessEvent(e)
  }

  ghost predicate EventSourced(s: State) {
    && (forall pid :: pid in s.processes ==> Mirrored(s, pid))
    && (forall pid :: pid !in s.processes ==> History(s.log, pid) == [])
    && UnsavedOk(s.executors)
  }

  // ----- What one action does to the history of one process -----

  ghost predicate Silent(s: State, t: State, pid: nat)
    requires pid in s.processes && pid in t.processes
  {
    && History(t.log, pid) == History(s.log, pid)
    && t.processes[pid].status == s.processes[pid].status
    && t.processes[pid].startedAt == s.processes[pid].startedAt
  }

  ghost predicate Transitions(s: State, t: State, pid: nat)
    requires pid in s.processes && pid in t.processes
  {
    var p, q := s.processes[pid], t.processes[pid];
    && History(t.log, pid) == History(s.log, pid) + [TransitionEvent(pid, p.status, q.status)]
    && CanTransitionProcess(p.status, q.status)
    && q.startedAt == if q.status.Running? && p.startedAt.None? then Some(s.clock) else p.startedAt
  }

  /** Every process is silent or makes one logged, allowed transition; strangers stay without history. */
  ghost predicate Logged(s: State, t: State) {
    && t.processes.Keys == s.processes.Keys
    && (forall pid :: pid in s.processes ==> Silent(s, t, pid) || Transitions(s, t, pid))
    && (forall pid :: pid !in s.processes ==> History(t.log, pid) == History(s.log, pid))
  }

  lemma StepEventIsNoProcessEvent(pid: nat, name: string, what: string)
    ensures !IsProcessEvent(StepEvent(pid, name, what))
  {
    assert StepEvent(pid, name, what).eventType[0] == 's' && PROCESS_PREFIX[0] == 'p';
  }

  lemma AppendStepEvents(log: seq<Event>, more: seq<Event>)
    requires OnlyStepEvents(more)
    ensures forall pid :: History(log + more, pid) == History(log, pid)
  {
    forall pid ensures History(log + more, pid) == History(log, pid) {
      HistoryAppend(log, more, pid);
      NoHistoryInStepEvents(more, pid);
      assert History(log, pid) + [] == History(log, pid);
    }
  }

  lemma StepEventsAreStepEvents(pid: nat, names: seq<string>, what: string)
    ensures OnlyStepEvents(StepEvents(pid, names, what))
  {
    forall e | e in StepEvents(pid, names, what) ensures !IsProcessEvent(e) {
      var i :| 0 <= i < |names| && e == StepEvent(pid, names[i], what);
      StepEventIsNoProcessEvent(pid, names[i], what);
    }
  }

  lemma AppendTransition(log: seq<Event>, pid: nat, from: ProcessStatus, to: ProcessStatus, p: nat)
    ensures var e := TransitionEvent(pid, from, to);
            History(log + [e], p) == if p == pid then History(log, p) + [e] else History(log, p)
  {
    NameAfterPrefix(StatusName(to));
    assert (log + [TransitionEvent(pid, from, to)])[..|log|] == log;
  }

  lemma MoveIsLogged(s: State, pid: nat, target: ProcessStatus)
    requires CanMove(s, pid, target)
    ensures Logged(s, Move(s, pid, target))
  {
    hide History, TransitionEvent, ProcessTargets;
    forall p {
      AppendTransition(s.log, pid, s.processes[pid].status, target, p);
    }
  }

  /** Only the log, by step events, and the other tables change. */
  lemma SilentIsLogged(s: State, t: State, more: seq<Event>)
    requires t.processes == s.processes && OnlyStepEvents(more) && t.log == s.log + more
    ensures Logged(s, t)
  {
    AppendStepEvents(s.log, more);
  }

  lemma UntouchedLogIsLogged(s: State, t: State)
    requires t.processes == s.processes && t.log == s.log
    ensures Logged(s, t)
  {
  }

  /** More step events after a logged step. */
  lemma ThenStepEvents(s: State, t: State, u: State, more: seq<Event>)
    requires Logged(s, t) && u.processes == t.processes && OnlyStepEvents(more) && u.log == t.log + more
    ensures Logged(s, u)
  {
    AppendStepEvents(t.log, more);
    forall pid | pid in s.processes ensures Silent(s, u, pid) || Transitions(s, u, pid) {
      assert Silent(s, t, pid) || Transitions(s, t, pid);
    }
  }

  lemma StartIsLogged(s: State, pid: nat, order: seq<string>)
    ensures Logged(s, ApplyStart(s, pid, order))
  {
    if CanStart(s, pid, order) {
      MoveIsLogged(s, pid, ProcessStatus.Queued);
      StepEventsAreStepEvents(pid, order, "queued");
      ThenStepEvents(s, Move(s, pid, ProcessStatus.Queued), ApplyStart(s, pid, order), StepEvents(pid, order, "queued"));
    } else {
      UntouchedLogIsLogged(s, s);
    }
  }

  lemma CancelIsLogged(s: State, pid: nat, order: seq<string>)
    ensures Logged(s, ApplyCancel(s, pid, order))
  {
    if CanCancel(s, pid, order) {
      MoveIsLogged(s, pid, ProcessStatus.Cancelled);
      StepEventsAreStepEvents(pid, order, "cancelled");
      ThenStepEvents(s, Move(s, pid, ProcessStatus.Cancelled), ApplyCancel(s, pid, order), StepEvents(pid, order, "cancelled"));
    } else {
      UntouchedLogIsLogged(s, s);
    }
  }

  lemma ResumeIsLogged(s: State, pid: nat)
    ensures Logged(s, ApplyResume(s, pid))
  {
    if CanResume(s, pid) {
      MoveIsLogged(s, pid, ProcessStatus.Running);
      ThenOtherTables(s, Move(s, pid, ProcessStatus.Running), ApplyResume(s, pid));
    } else {
      UntouchedLogIsLogged(s, s);
    }
  }

  lemma ThenOtherTables(s: State, t: State, u: State)
    requires Logged(s, t) && u.processes == t.processes && u.log == t.log
    ensures Logged(s, u)
  {
    forall pid | pid in s.processes ensures Silent(s, u, pid) || Transitions(s, u, pid) {
      assert Silent(s, t, pid) || Transitions(s, t, pid);
    }
  }

  lemma ExternalIsLogged(s: State, pid: nat, target: ProcessStatus)
    ensures Logged(s, ApplyExternal(s, pid, target))
  {
    if CanMove(s, pid, target) {
      MoveIsLogged(s, pid, target);
    }
    UntouchedLogIsLogged(s, s);
  }

  lemma SettleIsLogged(s: State, x: nat, outcome: Outcome)
    ensures Logged(s, ApplySettle(s, x, outcome))
  {
    var t := ApplySettle(s, x, outcome);
    if CanSettle(s, x) && outcome.AwaitingApproval? && CanMove(s, s.executors[x].key.pid, ProcessStatus.Paused)
       && s.processes[s.executors[x].key.pid].status.Running? {
      MoveIsLogged(s, s.executors[x].key.pid, ProcessStatus.Paused);
      ThenOtherTables(s, Move(s, s.executors[x].key.pid, ProcessStatus.Paused), t);
    } else {
      UntouchedLogIsLogged(s, t);
    }
  }

  lemma AnnounceIsLogged(s: State, x: nat)
    ensures Logged(s, ApplyAnnounce(s, x))
  {
    if x in s.executors && s.executors[x].phase.Announcing? {
      var key := s.executors[x].key;
      StepEventIsNoProcessEvent(key.pid, key.name, "completed");
      SilentIsLogged(s, ApplyAnnounce(s, x), [StepEvent(key.pid, key.name, "completed")]);
    } else {
      UntouchedLogIsLogged(s, s);
    }
  }

  lemma EnqueueIsLogged(s: State, x: nat)
    ensures Logged(s, ApplyEnqueue(s, x))
  {
    if CanEnqueue(s, x) {
      var key := s.executors[x].key;
      StepEventsAreStepEvents(key.pid, ToQueue(s, key), "queued");
      SilentIsLogged(s, ApplyEnqueue(s, x), StepEvents(key.pid, ToQueue(s, key), "queued"));
    } else {
      UntouchedLogIsLogged(s, s);
    }
  }

  /** Saving outputs shows neither in the log nor in the status. */
  lemma AroundSaving(s: State, t: State, u: State)
    requires t.log == s.log && t.clock == s.clock && t.processes.Keys == s.processes.Keys
    requires forall pid :: pid in s.processes ==>
               t.processes[pid].status == s.processes[pid].status && t.processes[pid].startedAt == s.processes[pid].startedAt
    requires Logged(t, u)
    ensures Logged(s, u)
  {
    forall pid | pid in s.processes ensures Silent(s, u, pid) || Transitions(s, u, pid) {
      assert Silent(t, u, pid) || Transitions(t, u, pid);
    }
  }

  lemma MoveIfAllowedIsLogged(s: State, pid: nat, target: ProcessStatus)
    ensures Logged(s, MoveIfAllowed(s, pid, target))
  {
    if CanMove(s, pid, target) {
      MoveIsLogged(s, pid, target);
    }
    UntouchedLogIsLogged(s, s);
  }

  lemma FinalisedIsLogged(s: State, pid: nat)
    requires pid in s.processes
    ensures Logged(s, Finalised(s, pid))
  {
    if AllSucceeded(s, pid) {
      var saved := SaveOutputs(s, pid, CollectedOutputs(s, pid));
      MoveIfAllowedIsLogged(saved, pid, ProcessStatus.Completed);
      AroundSaving(s, saved, Finalised(s, pid));
    } else {
      MoveIfAllowedIsLogged(s, pid, ProcessStatus.Failed);
    }
  }

  lemma AfterStepEvents(s: State, t: State, u: State, more: seq<Event>)
    requires t.processes == s.processes && t.clock == s.clock && OnlyStepEvents(more) && t.log == s.log + more && Logged(t, u)
    ensures Logged(s, u)
  {
    AppendStepEvents(s.log, more);
    forall pid | pid in s.processes ensures Silent(s, u, pid) || Transitions(s, u, pid) {
      assert Silent(t, u, pid) || Transitions(t, u, pid);
    }
  }

  lemma FinaliseIsLogged(s: State, x: nat)
    requires EventSourced(s)
    ensures Logged(s, ApplyFinalise(s, x))
  {
    if x in s.executors && s.executors[x].phase.Finalising? {
      var pid, unsaved := s.executors[x].key.pid, s.executors[x].phase.unsaved;
      UnsavedAreStepEvents(s.executors, x);
      var ended := s.(executors := s.executors - {x});
      var logged := ended.(log := s.log + unsaved);
      if pid !in s.processes || RowsOf(s, pid) == {} || !AllSettled(s, pid) {
        UntouchedLogIsLogged(s, ended);
      } else {
        FinalisedIsLogged(logged, pid);
        AfterStepEvents(s, logged, Finalised(logged, pid), unsaved);
      }
    } else {
      UntouchedLogIsLogged(s, s);
    }
  }

  lemma ActionsAreLogged(s: State, a: Action)
    requires EventSourced(s) && !a.Create?
    ensures Logged(s, Apply(s, a))
  {
    hide Logged, ApplyStart, ApplyCancel, ApplyResume, ApplyExternal, ApplySettle, ApplyAnnounce, ApplyEnqueue, ApplyFinalise;
    match a
    case Start(pid, order) => StartIsLogged(s, pid, order);
    case Cancel(pid, order) => CancelIsLogged(s, pid, order);
    case Resume(pid) => ResumeIsLogged(s, pid);
    case External(pid, target) => ExternalIsLogged(s, pid, target);
    case Settle(x, outcome) => SettleIsLogged(s, x, outcome);
    case Announce(x) => AnnounceIsLogged(s, x);
    case Enqueue(x) => EnqueueIsLogged(s, x);
    case Finalise(x) => FinaliseIsLogged(s, x);
    case Create(_, _) =>
    case _ => UntouchedLogIsLogged(s, Apply(s, a));
  }

  // ----- The log stays the mirror -----

  lemma TransitionKeepsMirror(s: State, t: State, pid: nat)
    requires pid in s.processes && pid in t.processes && Mirrored(s, pid)
    requires Silent(s, t, pid) || Transitions(s, t, pid)
    ensures Mirrored(t, pid)
  {
    if Transitions(s, t, pid) {
      var h, p, q := History(s.log, pid), s.processes[pid], t.processes[pid];
      var h' := h + [TransitionEvent(pid, p.status, q.status)];
      ExtendHistory(h, pid, p.status, q.status);
      forall i | 0 <= i < |h| ensures StatusAfter(h', i) == StatusAfter(h, i) {
      }
      assert StatusAfter(h', |h|) == q.status;
      if EverRunning(h) {
        var i :| 0 <= i < |h| && StatusAfter(h, i).Running?;
        assert StatusAfter(h', i).Running?;
      }
    }
  }

  function FailedEvent(key: StepKey): Event {
    StepEvent(key.pid, key.name, "failed")
  }

  /** What an executor may still have to save is the failure of its own step. */
  ghost predicate UnsavedOk(executors: map<nat, Executor>) {
    forall x :: x in executors && executors[x].phase.Finalising? && executors[x].phase.unsaved != [] ==>
      executors[x].phase.unsaved == [FailedEvent(executors[x].key)]
  }

  lemma UnsavedAreStepEvents(executors: map<nat, Executor>, x: nat)
    requires UnsavedOk(executors) && x in executors && executors[x].phase.Finalising?
    ensures OnlyStepEvents(executors[x].phase.unsaved)
  {
    StepEventIsNoProcessEvent(executors[x].key.pid, executors[x].key.name, "failed");
  }

  lemma SettleKeepsUnsaved(s: State, x: nat, outcome: Outcome)
    requires UnsavedOk(s.executors)
    ensures UnsavedOk(ApplySettle(s, x, outcome).executors)
  {
  }

  lemma FinaliseKeepsUnsaved(s: State, x: nat)
    requires UnsavedOk(s.executors)
    ensures UnsavedOk(ApplyFinalise(s, x).executors)
  {
    if x in s.executors && s.executors[x].phase.Finalising? && s.executors[x].key.pid in s.processes {
      FinalisedWrites(s.(executors := s.executors - {x}, log := s.log + s.executors[x].phase.unsaved), s.executors[x].key.pid);
    }
  }

  lemma CommitKeepsUnsaved(s: State, worker: nat)
    requires UnsavedOk(s.executors)
    ensures UnsavedOk(ApplyCommit(s, worker).executors)
  {
  }

  lemma OtherPhasesKeepUnsaved(s: State, x: nat)
    requires UnsavedOk(s.executors)
    ensures UnsavedOk(ApplyAnnounce(s, x).executors) && UnsavedOk(ApplyEnqueue(s, x).executors)
  {
  }

  lemma UnsavedStaysStepEvents(s: State, a: Action)
    requires UnsavedOk(s.executors)
    ensures UnsavedOk(Apply(s, a).executors)
  {
    hide ApplySettle, ApplyFinalise, ApplyCommit, ApplyEnqueue, ApplyAnnounce;
    match a
    case Settle(x, outcome) => SettleKeepsUnsaved(s, x, outcome);
    case Finalise(x) => FinaliseKeepsUnsaved(s, x);
    case CommitClaims(worker) => CommitKeepsUnsaved(s, worker);
    case Announce(x) => OtherPhasesKeepUnsaved(s, x);
    case Enqueue(x) => OtherPhasesKeepUnsaved(s, x);
    case _ =>
  }

  lemma CreateKeepsMirror(s: State, pid: nat, d: D.Definition)
    requires EventSourced(s) && CanCreate(s, pid, d)
    ensures var t := ApplyCreate(s, pid, d);
            && (forall p :: p in t.processes ==> Mirrored(t, p))
            && (forall p :: p !in t.processes ==> History(t.log, p) == [])
  {
    var t := ApplyCreate(s, pid, d);
    CreatedIsNoStatus(ProcessStatus.Draft);
    assert t.log[..|s.log|] == s.log;
    assert IsProcessEvent(CreatedEvent(pid));
    assert History(t.log, pid) == [CreatedEvent(pid)];
    forall p | p in t.processes && p != pid ensures Mirrored(t, p) {
      assert Mirrored(s, p);
      assert History(t.log, p) == History(s.log, p);
    }
  }

  lemma KeepsEventSourced(s: State, a: Action)
    requires EventSourced(s)
    ensures EventSourced(Apply(s, a))
  {
    var t := Apply(s, a);
    UnsavedStaysStepEvents(s, a);
    if a.Create? {
      if CanCreate(s, a.pid, a.definition) {
        CreateKeepsMirror(s, a.pid, a.definition);
      }
    } else {
      ActionsAreLogged(s, a);
      forall pid | pid in t.processes ensures Mirrored(t, pid) {
        TransitionKeepsMirror(s, t, pid);
      }
    }
  }

  lemma {:induction false} EveryRunIsEventSourced(actions: seq<Action>)
    ensures EventSourced(Run(EMPTY, actions))
  {
    if actions != [] {
      EveryRunIsEventSourced(actions[..|actions| - 1]);
      KeepsEventSourced(Run(EMPTY, actions[..|actions| - 1]), actions[|actions| - 1]);
    }
  }

  /**
   * In every run, replaying the events of a process gives its stored status exactly when the process
   * is no longer in draft; while it is, the replay says "created".
   */
  lemma ReplayGivesStoredStatus(actions: seq<Action>, pid: nat)
    requires pid in Run(EMPTY, actions).processes
    ensures var s := Run(EMPTY, actions);
            && (LatestStatus(EventsOf(s.log, pid)) == StatusName(s.processes[pid].status) <==> !s.processes[pid].status.Draft?)
            && (s.processes[pid].status.Draft? ==> LatestStatus(EventsOf(s.log, pid)) == "created")
  {
    var s := Run(EMPTY, actions);
    EveryRunIsEventSourced(actions);
    assert Mirrored(s, pid);
    StepEventsDoNotMatter(s.log, pid);
    ReplayIsExactAfterATransition(History(s.log, pid), pid, s.processes[pid].status);
  }

  /** A process that has just been created. */
  lemma FreshProcessReplaysAsCreated(pid: nat)
    ensures var s := Run(EMPTY, [Create(pid, SINGLE)]);
            && pid in s.processes && StatusName(s.processes[pid].status) == "draft"
            && LatestStatus(EventsOf(s.log, pid)) == "created"
  {
    hide Run, D.Valid;
    SingleIsValid();
    CreatedAlone(pid, SINGLE, "only");
    ReplayGivesStoredStatus([Create(pid, SINGLE)], pid);
  }

  /** No action overwrites the time of the first start. */
  lemma StartedOnce(s: State, a: Action, pid: nat)
    requires EventSourced(s) && pid in s.processes && s.processes[pid].startedAt.Some?
    ensures pid in Apply(s, a).processes && Apply(s, a).processes[pid].startedAt == s.processes[pid].startedAt
  {
    if !a.Create? {
      ActionsAreLogged(s, a);
    }
  }

  /** In every run, a completed, failed or cancelled event is the last process event and gives the stored status. */
  lemma FinalEventEndsEveryHistory(actions: seq<Action>, pid: nat, i: nat)
    requires pid in Run(EMPTY, actions).processes
    requires 1 <= i < |History(Run(EMPTY, actions).log, pid)|
    requires IsFinal(StatusAfter(History(Run(EMPTY, actions).log, pid), i))
    ensures var s := Run(EMPTY, actions);
            i == |History(s.log, pid)| - 1 && s.processes[pid].status == StatusAfter(History(s.log, pid), i)
  {
    hide Apply, History, LegalHistory, StatusAfter;
    var s := Run(EMPTY, actions);
    EveryRunIsEventSourced(actions);
    assert Mirrored(s, pid);
    FinalEventIsLast(History(s.log, pid), pid, s.processes[pid].status, i);
  }

  /** The time of the first start stays what it is in every continuation. */
  lemma {:induction false} StartedForGood(actions: seq<Action>, later: seq<Action>, pid: nat)
    requires pid in Run(EMPTY, actions).processes && Run(EMPTY, actions).processes[pid].startedAt.Some?
    ensures pid in Run(EMPTY, actions + later).processes
    ensures Run(EMPTY, actions + later).processes[pid].startedAt == Run(EMPTY, actions).processes[pid].startedAt
  {
    hide Apply, EventSourced;
    if later == [] {
      assert actions + later == actions;
    } else {
      var n := |later| - 1;
      StartedForGood(actions, later[..n], pid);
      assert (actions + later)[..|actions + later| - 1] == actions + later[..n];
      EveryRunIsEventSourced(actions + later[..n]);
      StartedOnce(Run(EMPTY, actions + later[..n]), later[n], pid);
    }
  }

  // ----- The event of a failed attempt -----

  ghost predicate HasUnsaved(s: State, x: nat) {
    x in s.executors && s.executors[x].phase.Finalising? && s.executors[x].phase.unsaved != []
  }

  /** Finalising appends the failure event exactly when all steps are settled; otherwise it is gone with the executor. */
  lemma FailureEventKeptIff(s: State, x: nat)
    requires Safe(s) && EventSourced(s) && HasUnsaved(s, x)
    ensures var t, key := ApplyFinalise(s, x), s.executors[x].key;
            && (s.log + [FailedEvent(key)] <= t.log <==> AllSettled(s, key.pid))
            && (!AllSettled(s, key.pid) ==> t.log == s.log && x !in t.executors)
  {
    var key := s.executors[x].key;
    assert key in RowsOf(s, key.pid);
    var logged := s.(executors := s.executors - {x}).(log := s.log + s.executors[x].phase.unsaved);
    FinalisedOnlyAppends(logged, key.pid);
  }

  lemma FinalisedOnlyAppends(s: State, pid: nat)
    requires pid in s.processes
    ensures s.log <= Finalised(s, pid).log
  {
    hide AllSucceeded, CollectedOutputs, Moved, TransitionEvent, CanMove;
  }

  /** The same in every run. */
  lemma FailureEventKeptIffInEveryRun(actions: seq<Action>, x: nat)
    requires HasUnsaved(Run(EMPTY, actions), x)
    ensures var s, t := Run(EMPTY, actions), Run(EMPTY, actions + [Finalise(x)]);
            var key := s.executors[x].key;
            && (s.log + [FailedEvent(key)] <= t.log <==> AllSettled(s, key.pid))
            && (!AllSettled(s, key.pid) ==> t.log == s.log && x !in t.executors)
  {
    hide Safe, EventSourced, ApplyFinalise, AllSettled;
    EveryRunIsSafe(actions);
    EveryRunIsEventSourced(actions);
    RunAppend(EMPTY, actions, [Finalise(x)]);
    RunOne(Run(EMPTY, actions), Finalise(x));
    FailureEventKeptIff(Run(EMPTY, actions), x);
  }

  /** An attempt that fails with attempts left makes its step retry, so that its process cannot be finalised. */
  lemma FailureWithAttemptsLeft(s: State, x: nat)
    requires Safe(s) && CanSettle(s, x) && !Exhausted(s.steps[s.executors[x].key])
    ensures var t, key := ApplySettle(s, x, Unsuccessful), s.executors[x].key;
            && t.log == s.log && HasUnsaved(t, x) && t.executors[x].key == key
            && key in t.steps && t.steps[key].status.Retrying? && !AllSettled(t, key.pid)
  {
    var t, key := ApplySettle(s, x, Unsuccessful), s.executors[x].key;
    assert key in RowsOf(t, key.pid);
  }

  /** A run in which an attempt has failed and its executor has ended, and the log knows only of the creation. */
  lemma FailureEventIsLost()
    ensures var s, key := Run(EMPTY, FirstClaim(0, SINGLE, "only") + [Settle(0, Unsuccessful)] + [Finalise(0)]), StepKey(0, "only");
            && key in s.steps && s.steps[key].status.Retrying? && s.steps[key].attempt == 1
            && 0 !in s.executors && s.log == [CreatedEvent(0)]
  {
    hide Run, D.Valid, NewRows, Safe, ApplyFinalise, AllSettled, HasUnsaved;
    SingleIsValid();
    FirstClaimWorks(0, SINGLE, "only");
    var claiming := FirstClaim(0, SINGLE, "only");
    var claimed := Run(EMPTY, claiming);
    EveryRunIsSafe(claiming);
    FailureWithAttemptsLeft(claimed, 0);
    RunAppend(EMPTY, claiming, [Settle(0, Unsuccessful)]);
    RunOne(claimed, Settle(0, Unsuccessful));
    FailureEventKeptIffInEveryRun(claiming + [Settle(0, Unsuccessful)], 0);
    RunAppend(EMPTY, claiming + [Settle(0, Unsuccessful)], [Finalise(0)]);
    RunOne(ApplySettle(claimed, 0, Unsuccessful), Finalise(0));
    FinaliseWritesNoRow(ApplySettle(claimed, 0, Unsuccessful), 0);
  }
}
