/** Process and step statuses, their transition tables, and the event log that mirrors them. */
module StateMachine {
  import opened Wrappers

  datatype ProcessStatus = Draft | Queued | Running | Completed | Failed | Paused | Cancelled | Stuck

  /** `Paused` is written by the executor although the step table does not know it. */
  datatype StepStatus = Pending | Queued | Running | Completed | Failed | Retrying | Skipped | Cancelled | Paused

  // ----- Allowed transitions -----

  function ProcessTargets(from: ProcessStatus): set<ProcessStatus> {
    match from
    case Draft => {ProcessStatus.Queued, ProcessStatus.Cancelled}
    case Queued => {ProcessStatus.Running, ProcessStatus.Cancelled, ProcessStatus.Stuck}
    case Running => {ProcessStatus.Completed, ProcessStatus.Failed, ProcessStatus.Paused, ProcessStatus.Cancelled, ProcessStatus.Stuck}
    case Paused => {ProcessStatus.Running, ProcessStatus.Cancelled}
    case Completed => {}
    case Failed => {}
    case Cancelled => {}
    case Stuck => {ProcessStatus.Running, ProcessStatus.Cancelled}
  }

  function StepTargets(from: StepStatus): set<StepStatus> {
    match from
    case Pending => {StepStatus.Queued, StepStatus.Running, StepStatus.Cancelled, StepStatus.Skipped}
    case Queued => {StepStatus.Running, StepStatus.Cancelled}
    case Running => {StepStatus.Completed, StepStatus.Failed, StepStatus.Retrying, StepStatus.Cancelled}
    case Retrying => {StepStatus.Pending, StepStatus.Cancelled, StepStatus.Failed}
    case Completed => {}
    case Failed => {}
    case Skipped => {}
    case Cancelled => {}
    case Paused => {}
  }

  predicate CanTransitionProcess(from: ProcessStatus, to: ProcessStatus) {
    to in ProcessTargets(from)
  }

  predicate CanTransitionStep(from: StepStatus, to: StepStatus) {
    to in StepTargets(from)
  }

  predicate IsFinal(status: ProcessStatus) {
    status.Completed? || status.Failed? || status.Cancelled?
  }

  /** Both tables read backwards: from where a status can be reached. */
  lemma TablesByTarget(from: ProcessStatus, to: ProcessStatus, stepFrom: StepStatus, stepTo: StepStatus)
    ensures CanTransitionProcess(from, to)
            <==> match to
                 case Draft => false
                 case Queued => from.Draft?
                 case Running => from.Queued? || from.Paused? || from.Stuck?
                 case Stuck => from.Queued? || from.Running?
                 case Cancelled => !from.Completed? && !from.Failed? && !from.Cancelled?
                 case _ => from.Running?
    ensures CanTransitionStep(stepFrom, stepTo)
            <==> match stepTo
                 case Pending => stepFrom.Retrying?
                 case Queued => stepFrom.Pending?
                 case Running => stepFrom.Pending? || stepFrom.Queued?
                 case Completed => stepFrom.Running?
                 case Retrying => stepFrom.Running?
                 case Failed => stepFrom.Running? || stepFrom.Retrying?
                 case Skipped => stepFrom.Pending?
                 case Cancelled => stepFrom.Pending? || stepFrom.Queued? || stepFrom.Running? || stepFrom.Retrying?
                 case Paused => false
  {
  }

  // ----- Events -----

  function StatusName(status: ProcessStatus): string {
    match status
    case Draft => "draft"
    case Queued => "queued"
    case Running => "running"
    case Completed => "completed"
    case Failed => "failed"
    case Paused => "paused"
    case Cancelled => "cancelled"
    case Stuck => "stuck"
  }

  datatype Change = Change(from: ProcessStatus, to: ProcessStatus)

  /** One row of the append-only log; `change` is the from/to pair in the payload of a transition event. */
  datatype Event = Event(pid: nat, step: Option<string>, eventType: string, change: Option<Change>)

  const PROCESS_PREFIX := "process."

  predicate IsProcessEvent(e: Event) {
    PROCESS_PREFIX <= e.eventType
  }

  function CreatedEvent(pid: nat): Event {
    Event(pid, None, "process.created", None)
  }

  function TransitionEvent(pid: nat, from: ProcessStatus, to: ProcessStatus): Event {
    Event(pid, None, PROCESS_PREFIX + StatusName(to), Some(Change(from, to)))
  }

  function StepEvent(pid: nat, step: string, what: string): Event {
    Event(pid, Some(step), "step." + what, None)
  }

  // ----- Replay -----

  /** What the last process event says, or "draft" when there is none. */
  function LatestStatus(events: seq<Event>): string {
    if events == [] then "draft"
    else
      var last := events[|events| - 1];
      if IsProcessEvent(last) then last.eventType[|PROCESS_PREFIX|..]
      else LatestStatus(events[..|events| - 1])
  }

  method DeriveProcessStatusFromEvents(events: seq<Event>) returns (latest: string)
    ensures latest == LatestStatus(events)
  {
    latest := "draft";
    for n := 0 to |events|
      invariant latest == LatestStatus(events[..n])
    {
      LatestAfterAppend(events[..n], events[n]);
      assert events[..n + 1] == events[..n] + [events[n]];
      if IsProcessEvent(events[n]) {
        latest := events[n].eventType[|PROCESS_PREFIX|..];
      }
    }
    assert events[..|events|] == events;
  }

  /** The last process event decides, whatever step events follow it. */
  lemma {:induction false} LastProcessEventDecides(events: seq<Event>, i: nat)
    requires i < |events| && IsProcessEvent(events[i])
    requires forall j :: i < j < |events| ==> !IsProcessEvent(events[j])
    ensures PROCESS_PREFIX + LatestStatus(events) == events[i].eventType
    decreases |events|
  {
    if i < |events| - 1 {
      LastProcessEventDecides(events[..|events| - 1], i);
    }
  }

  /** Without any process event the status is that of a draft. */
  lemma {:induction false} NoProcessEventMeansDraft(events: seq<Event>)
    requires forall e :: e in events ==> !IsProcessEvent(e)
    ensures LatestStatus(events) == "draft"
  {
    if events != [] {
      assert events[|events| - 1] in events;
      NoProcessEventMeansDraft(events[..|events| - 1]);
    }
  }

  /** The log rows of one process, in append order. */
  function EventsOf(log: seq<Event>, pid: nat): seq<Event> {
    if log == [] then []
    else
      var last := log[|log| - 1];
      var earlier := EventsOf(log[..|log| - 1], pid);
      if last.pid == pid then earlier + [last] else earlier
  }

  /** Its process events only. */
  function History(log: seq<Event>, pid: nat): seq<Event> {
    if log == [] then []
    else
      var last := log[|log| - 1];
      var earlier := History(log[..|log| - 1], pid);
      if last.pid == pid && IsProcessEvent(last) then earlier + [last] else earlier
  }

  lemma {:induction false} StepEventsDoNotMatter(log: seq<Event>, pid: nat)
    ensures LatestStatus(EventsOf(log, pid)) == LatestStatus(History(log, pid))
  {
    if log != [] {
      var front, last := log[..|log| - 1], log[|log| - 1];
      StepEventsDoNotMatter(front, pid);
      if last.pid == pid {
        LatestAfterAppend(EventsOf(front, pid), last);
        LatestAfterAppend(History(front, pid), last);
      }
    }
  }

  lemma LatestAfterAppend(events: seq<Event>, e: Event)
    ensures LatestStatus(events + [e]) == if IsProcessEvent(e) then e.eventType[|PROCESS_PREFIX|..] else LatestStatus(events)
  {
    assert (events + [e])[..|events + [e]| - 1] == events;
  }

  lemma {:induction false} HistoryAppend(log: seq<Event>, more: seq<Event>, pid: nat)
    ensures History(log + more, pid) == History(log, pid) + History(more, pid)
  {
    if more == [] {
      assert log + more == log;
    } else {
      var front, last := more[..|more| - 1], more[|more| - 1];
      assert (log + more)[..|log + more| - 1] == log + front;
      HistoryAppend(log, front, pid);
    }
  }

  lemma {:induction false} NoHistoryInStepEvents(events: seq<Event>, pid: nat)
    requires forall e :: e in events ==> !IsProcessEvent(e)
    ensures History(events, pid) == []
  {
    if events != [] {
      assert events[|events| - 1] in events;
      NoHistoryInStepEvents(events[..|events| - 1], pid);
    }
  }

  // ----- Legal histories -----

  /** Creation, then a path of allowed transitions that starts in draft and ends in `status`. */
  ghost predicate LegalHistory(h: seq<Event>, pid: nat, status: ProcessStatus) {
    && |h| >= 1 && h[0] == CreatedEvent(pid)
    && (forall i :: 1 <= i < |h| ==> LegalEntry(h, pid, i))
    && status == StatusAfter(h, |h| - 1)
  }

  ghost function StatusAfter(h: seq<Event>, i: nat): ProcessStatus
    requires i < |h|
  {
    if i == 0 || h[i].change.None? then ProcessStatus.Draft else h[i].change.value.to
  }

  ghost predicate LegalEntry(h: seq<Event>, pid: nat, i: nat)
    requires 1 <= i < |h|
  {
    && h[i].change.Some?
    && h[i] == TransitionEvent(pid, h[i].change.value.from, h[i].change.value.to)
    && CanTransitionProcess(h[i].change.value.from, h[i].change.value.to)
    && h[i].change.value.from == StatusAfter(h, i - 1)
  }

  lemma ExtendHistory(h: seq<Event>, pid: nat, from: ProcessStatus, to: ProcessStatus)
    requires LegalHistory(h, pid, from) && CanTransitionProcess(from, to)
    ensures LegalHistory(h + [TransitionEvent(pid, from, to)], pid, to)
  {
    var h' := h + [TransitionEvent(pid, from, to)];
    forall i | 1 <= i < |h'| ensures LegalEntry(h', pid, i) {
      if i < |h| {
        assert LegalEntry(h, pid, i);
      }
    }
  }

  lemma ReplayOfCreation(h: seq<Event>, pid: nat, status: ProcessStatus)
    requires LegalHistory(h, pid, status) && |h| == 1
    ensures status.Draft? && LatestStatus(h) == "created"
  {
    NameAfterPrefix("created");
    CreatedIsNoStatus(status);
  }

  lemma ReplayOfTransition(h: seq<Event>, pid: nat, status: ProcessStatus)
    requires LegalHistory(h, pid, status) && |h| >= 2
    ensures !status.Draft? && LatestStatus(h) == StatusName(status)
  {
    hide StatusName;
    NameAfterPrefix(StatusName(status));
    assert LegalEntry(h, pid, |h| - 1);
  }

  /**
   * Replay gives the stored status exactly when the process is no longer in draft, that is, when it has
   * made a transition: right after creation it gives "created".
   */
  lemma ReplayIsExactAfterATransition(h: seq<Event>, pid: nat, status: ProcessStatus)
    requires LegalHistory(h, pid, status)
    ensures LatestStatus(h) == StatusName(status) <==> !status.Draft?
    ensures |h| >= 2 <==> !status.Draft?
    ensures status.Draft? ==> LatestStatus(h) == "created"
  {
    hide LatestStatus, StatusName;
    if |h| == 1 {
      ReplayOfCreation(h, pid, status);
      CreatedIsNoStatus(status);
    } else {
      ReplayOfTransition(h, pid, status);
    }
  }

  lemma NameAfterPrefix(name: string)
    ensures PROCESS_PREFIX <= PROCESS_PREFIX + name
    ensures (PROCESS_PREFIX + name)[|PROCESS_PREFIX|..] == name
  {
  }

  lemma CreatedIsNoStatus(status: ProcessStatus)
    ensures StatusName(status) != "created"
    ensures CreatedEvent(0).eventType == PROCESS_PREFIX + "created"
  {
    assert status.Running? ==> StatusName(status)[0] != "created"[0];
    assert !status.Running? ==> |StatusName(status)| != |"created"|;
  }

  /** A completed, failed or cancelled event occurs at most once and only as the last process event. */
  lemma FinalEventIsLast(h: seq<Event>, pid: nat, status: ProcessStatus, i: nat)
    requires LegalHistory(h, pid, status) && 1 <= i < |h|
    requires IsFinal(StatusAfter(h, i))
    ensures i == |h| - 1 && status == StatusAfter(h, i)
  {
    if i < |h| - 1 {
      OnlyTheLastIsFinal(h, pid, status, i);
    }
  }

  lemma OnlyTheLastIsFinal(h: seq<Event>, pid: nat, status: ProcessStatus, i: nat)
    requires LegalHistory(h, pid, status) && 1 <= i < |h| - 1
    ensures !IsFinal(StatusAfter(h, i))
  {
    assert LegalEntry(h, pid, i + 1);
  }
}
