/**
 * The job engine as a transition system. A state holds the committed rows, the row locks of open
 * claim transactions, the claim transactions themselves, and the executors between two commits.
 * `Apply` is one atomic step of some worker, executor or operator; an action that is refused,
 * blocked on a row lock or not enabled leaves the state as it is.
 */
module EngineSpec {
  import opened Wrappers
  import opened Graph
  import opened StateMachine
  import D = Definition

  // ----- Rows -----

  type Outputs = map<string, string>

  /** Times are in microseconds. */
  const SECOND := 1_000_000

  datatype StepKey = StepKey(pid: nat, name: string)

  /** `claimTimes` and `replays` are history: the `now` of every claim, and how often the row was revived. */
  datatype Step = Step(
    status: StepStatus, attempt: nat, maxAttempts: nat, outputs: Outputs, nextRetryAt: Option<int>,
    claimTimes: seq<int>, replays: nat)

  datatype Process = Process(
    definition: D.Definition, status: ProcessStatus, outputs: map<string, Outputs>,
    startedAt: Option<int>, finishedAt: Option<int>)

  datatype DlqRow = DlqRow(key: StepKey, retryCount: nat, resolved: bool)

  // ----- Activities between commits -----

  /** An open claim transaction: `now` is its clock reading, `candidates` what it still has to look at. */
  datatype Worker = Worker(now: int, limit: nat, candidates: seq<StepKey>, claimed: seq<StepKey>)

  /**
   * Where an executor is: before the commit that settles its step, before the commit of the completion
   * event, before enqueueing downstream steps, or before finalising the process. `unsaved` events are
   * written only if finalising gets as far as its own commit.
   */
  datatype Phase = InFlight | Announcing | Enqueueing | Finalising(unsaved: seq<Event>)

  datatype Executor = Executor(key: StepKey, phase: Phase)

  datatype Outcome = Crashed | Unsuccessful | Succeeded(outputs: Outputs) | AwaitingApproval

  datatype State = State(
    clock: int,
    processes: map<nat, Process>,
    steps: map<StepKey, Step>,
    dlq: seq<DlqRow>,
    log: seq<Event>,
    locks: map<StepKey, nat>,
    workers: map<nat, Worker>,
    executors: map<nat, Executor>,
    nextExecutor: nat)

  const EMPTY := State(0, map[], map[], [], [], map[], map[], map[], 0)

  datatype Action =
    | Tick(elapsed: nat)
    | Create(pid: nat, definition: D.Definition)
    | Start(pid: nat, order: seq<string>)
    | Cancel(pid: nat, order: seq<string>)
    | Resume(pid: nat)
    | Replay(row: nat)
    | External(pid: nat, target: ProcessStatus)
    | Scan(worker: nat, limit: nat, candidates: seq<StepKey>)
    | LockNext(worker: nat)
    | CommitClaims(worker: nat)
    | Settle(executor: nat, outcome: Outcome)
    | Announce(executor: nat)
    | Enqueue(executor: nat)
    | Finalise(executor: nat)

  // ----- Steps -----

  const BACKOFF_SECONDS: seq<nat> := [1, 4, 16, 64, 256]

  function Power4(n: nat): nat {
    if n == 0 then 1 else 4 * Power4(n - 1)
  }

  /** Seconds to wait after the given attempt (counted from 1) has failed. */
  function NextRetryDelay(attempt: int): (seconds: nat)
    ensures attempt <= 0 ==> seconds == 0
    ensures 1 <= attempt <= 5 ==> seconds == Power4(attempt - 1)
    ensures attempt >= 5 ==> seconds == 256
  {
    if attempt <= 0 then 0
    else
      assert Power4(1) == 4 && Power4(2) == 16 && Power4(3) == 64 && Power4(4) == 256;
      BACKOFF_SECONDS[if attempt - 1 < |BACKOFF_SECONDS| - 1 then attempt - 1 else |BACKOFF_SECONDS| - 1]
  }

  predicate Waiting(status: StepStatus) {
    status.Pending? || status.Retrying?
  }

  predicate Ready(step: Step, now: int) {
    Waiting(step.status) && (step.nextRetryAt.Some? ==> step.nextRetryAt.value <= now)
  }

  function AfterClaim(step: Step, now: int): Step {
    step.(status := StepStatus.Running, attempt := step.attempt + 1, nextRetryAt := None, claimTimes := step.claimTimes + [now])
  }

  predicate Exhausted(step: Step) {
    step.attempt >= step.maxAttempts
  }

  function AfterFailure(step: Step, now: int): Step {
    if Exhausted(step) then step.(status := StepStatus.Failed)
    else step.(status := StepStatus.Retrying, nextRetryAt := Some(now + NextRetryDelay(step.attempt) * SECOND))
  }

  function AfterReplay(step: Step): Step {
    step.(status := StepStatus.Pending, attempt := 0, nextRetryAt := None, replays := step.replays + 1)
  }

  predicate IsDone(status: StepStatus) {
    status.Completed? || status.Skipped?
  }

  predicate IsSettled(status: StepStatus) {
    IsDone(status) || status.Failed? || status.Cancelled?
  }

  predicate Cancellable(status: StepStatus) {
    status.Pending? || status.Queued? || status.Running? || status.Retrying?
  }

  function FreshStep(def: D.StepDef): Step {
    Step(StepStatus.Pending, 0, if def.maxAttempts.Some? && def.maxAttempts.value > 0 then def.maxAttempts.value else 5,
         map[], None, [], 0)
  }

  // ----- Sets of rows -----

  function Keys(pid: nat, names: seq<string>): (r: set<StepKey>)
    ensures forall k :: k in r <==> k.pid == pid && k.name in names
  {
    var r := set n | n in names :: StepKey(pid, n);
    assert forall k: StepKey :: k.pid == pid && k.name in names ==> k == StepKey(pid, k.name);
    r
  }

  function RowsOf(s: State, pid: nat): set<StepKey> {
    set k | k in s.steps && k.pid == pid
  }

  ghost predicate Lists(order: seq<string>, pid: nat, rows: set<StepKey>) {
    Distinct(order) && Keys(pid, order) == rows
  }

  function StepEvents(pid: nat, names: seq<string>, what: string): seq<Event> {
    seq(|names|, i requires 0 <= i < |names| => StepEvent(pid, names[i], what))
  }

  predicate Unlocked(s: State, rows: set<StepKey>) {
    forall k :: k in rows ==> k !in s.locks
  }

  // ----- Process transitions -----

  predicate CanMove(s: State, pid: nat, target: ProcessStatus) {
    pid in s.processes && CanTransitionProcess(s.processes[pid].status, target)
  }

  function Moved(p: Process, target: ProcessStatus, now: int): Process {
    p.(status := target,
       startedAt := if target.Running? && p.startedAt.None? then Some(now) else p.startedAt,
       finishedAt := if IsFinal(target) || target.Stuck? then Some(now) else p.finishedAt)
  }

  function Move(s: State, pid: nat, target: ProcessStatus): State
    requires pid in s.processes
  {
    var p := s.processes[pid];
    s.(processes := s.processes[pid := Moved(p, target, s.clock)], log := s.log + [TransitionEvent(pid, p.status, target)])
  }

  // ----- Operator actions -----

  ghost predicate CanCreate(s: State, pid: nat, d: D.Definition) {
    pid !in s.processes && D.Valid(d)
  }

  function NewRows(pid: nat, d: D.Definition): map<StepKey, Step> {
    map k: StepKey | k in Keys(pid, D.StepNames(d)) :: FreshStep(D.StepByName(d, k.name).value)
  }

  ghost function ApplyCreate(s: State, pid: nat, d: D.Definition): State {
    if !CanCreate(s, pid, d) then s
    else
      s.(processes := s.processes[pid := Process(d, ProcessStatus.Draft, map[], None, None)],
         steps := s.steps + NewRows(pid, d),
         log := s.log + [CreatedEvent(pid)])
  }

  ghost predicate CanStart(s: State, pid: nat, order: seq<string>) {
    && pid in s.processes && s.processes[pid].status.Draft?
    && Lists(order, pid, Keys(pid, D.RootSteps(s.processes[pid].definition)))
    && Unlocked(s, Keys(pid, order))
  }

  /** The root rows become queued whatever their status is. */
  ghost function ApplyStart(s: State, pid: nat, order: seq<string>): State {
    if !CanStart(s, pid, order) then s
    else
      var t := Move(s, pid, ProcessStatus.Queued);
      t.(steps := map k | k in s.steps :: if k in Keys(pid, order) then s.steps[k].(status := StepStatus.Queued) else s.steps[k],
         log := t.log + StepEvents(pid, order, "queued"))
  }

  function CancellableRows(s: State, pid: nat): set<StepKey> {
    set k | k in s.steps && k.pid == pid && Cancellable(s.steps[k].status)
  }

  ghost predicate CanCancel(s: State, pid: nat, order: seq<string>) {
    && CanMove(s, pid, ProcessStatus.Cancelled)
    && Lists(order, pid, CancellableRows(s, pid))
    && Unlocked(s, CancellableRows(s, pid))
  }

  ghost function ApplyCancel(s: State, pid: nat, order: seq<string>): State {
    if !CanCancel(s, pid, order) then s
    else
      var t := Move(s, pid, ProcessStatus.Cancelled);
      t.(steps := map k | k in s.steps ::
           if k in CancellableRows(s, pid) then s.steps[k].(status := StepStatus.Cancelled) else s.steps[k],
         log := t.log + StepEvents(pid, order, "cancelled"))
  }

  function PausedRows(s: State, pid: nat): set<StepKey> {
    set k | k in s.steps && k.pid == pid && s.steps[k].status.Paused?
  }

  ghost predicate CanResume(s: State, pid: nat) {
    && pid in s.processes && (s.processes[pid].status.Paused? || s.processes[pid].status.Stuck?)
    && Unlocked(s, PausedRows(s, pid))
  }

  ghost function ApplyResume(s: State, pid: nat): State {
    if !CanResume(s, pid) then s
    else
      Move(s, pid, ProcessStatus.Running).(steps := map k | k in s.steps ::
        if k in PausedRows(s, pid) then s.steps[k].(status := StepStatus.Queued, nextRetryAt := None) else s.steps[k])
  }

  ghost predicate CanReplay(s: State, row: nat) {
    && row < |s.dlq| && !s.dlq[row].resolved
    && s.dlq[row].key in s.steps && s.dlq[row].key !in s.locks
  }

  /** The dead-letter row is resolved in any case; its step is revived only if it is still failed. */
  ghost function ApplyReplay(s: State, row: nat): State {
    if !CanReplay(s, row) then s
    else
      var key := s.dlq[row].key;
      s.(dlq := s.dlq[row := s.dlq[row].(resolved := true)],
         steps := if s.steps[key].status.Failed? then s.steps[key := AfterReplay(s.steps[key])] else s.steps)
  }

  /** Other code may move a process anywhere but into the two statuses that finalising writes. */
  ghost function ApplyExternal(s: State, pid: nat, target: ProcessStatus): State {
    if CanMove(s, pid, target) && !target.Completed? && !target.Failed? then Move(s, pid, target) else s
  }

  // ----- Worker actions -----

  ghost predicate CanScan(s: State, worker: nat, limit: nat, candidates: seq<StepKey>) {
    && worker !in s.workers && Distinct(candidates) && |candidates| <= 3 * limit
    && forall k :: k in candidates ==> k in s.steps && Ready(s.steps[k], s.clock)
  }

  ghost function ApplyScan(s: State, worker: nat, limit: nat, candidates: seq<StepKey>): State {
    if CanScan(s, worker, limit, candidates) then s.(workers := s.workers[worker := Worker(s.clock, limit, candidates, [])]) else s
  }

  ghost predicate CanLockNext(s: State, worker: nat) {
    && worker in s.workers && s.workers[worker].candidates != []
    && s.workers[worker].candidates[0] in s.steps
  }

  /** A locked row is skipped; otherwise the row is locked until commit and claimed if it is still ready. */
  ghost function ApplyLockNext(s: State, worker: nat): State {
    if !CanLockNext(s, worker) then s
    else
      var w := s.workers[worker];
      var k := w.candidates[0];
      if k in s.locks then s.(workers := s.workers[worker := w.(candidates := w.candidates[1..])])
      else if !Ready(s.steps[k], w.now) then
        s.(workers := s.workers[worker := w.(candidates := w.candidates[1..])], locks := s.locks[k := worker])
      else
        var rest := if |w.claimed| + 1 >= w.limit then [] else w.candidates[1..];
        s.(workers := s.workers[worker := w.(candidates := rest, claimed := w.claimed + [k])], locks := s.locks[k := worker])
  }

  ghost predicate CanCommit(s: State, worker: nat) {
    && worker in s.workers && s.workers[worker].candidates == []
    && forall k :: k in s.workers[worker].claimed ==> k in s.steps
  }

  /** One new executor per claimed step, numbered from `first`. */
  function Spawned(first: nat, claimed: seq<StepKey>): (r: map<nat, Executor>)
    ensures forall x :: x in r <==> first <= x < first + |claimed|
    ensures forall x :: x in r ==> r[x] == Executor(claimed[x - first], InFlight)
  {
    if claimed == [] then map[]
    else
      var n := |claimed| - 1;
      Spawned(first, claimed[..n])[first + n := Executor(claimed[n], InFlight)]
  }

  /** Claims become visible, locks are released, and every claimed step gets an executor. */
  ghost function ApplyCommit(s: State, worker: nat): State {
    if !CanCommit(s, worker) then s
    else
      var w := s.workers[worker];
      s.(steps := map k | k in s.steps :: if k in w.claimed then AfterClaim(s.steps[k], w.now) else s.steps[k],
         locks := map k | k in s.locks && s.locks[k] != worker :: s.locks[k],
         workers := s.workers - {worker},
         executors := s.executors + Spawned(s.nextExecutor, w.claimed),
         nextExecutor := s.nextExecutor + |w.claimed|)
  }

  // ----- Executor actions -----

  ghost predicate CanSettle(s: State, x: nat) {
    && x in s.executors && s.executors[x].phase.InFlight?
    && s.executors[x].key in s.steps && s.executors[x].key !in s.locks
  }

  function MarkFailed(s: State, key: StepKey): State
    requires key in s.steps
  {
    var step := s.steps[key];
    s.(steps := s.steps[key := AfterFailure(step, s.clock)],
       dlq := if Exhausted(step) then s.dlq + [DlqRow(key, step.attempt, false)] else s.dlq)
  }

  function WithPhase(s: State, x: nat, phase: Phase): State
    requires x in s.executors
  {
    s.(executors := s.executors[x := s.executors[x].(phase := phase)])
  }

  ghost function ApplySettle(s: State, x: nat, outcome: Outcome): State {
    if !CanSettle(s, x) then s
    else
      var key := s.executors[x].key;
      match outcome
      case Crashed => MarkFailed(s, key).(executors := s.executors - {x})
      case Unsuccessful => WithPhase(MarkFailed(s, key), x, Finalising([StepEvent(key.pid, key.name, "failed")]))
      case Succeeded(outputs) =>
        WithPhase(s.(steps := s.steps[key := s.steps[key].(status := StepStatus.Completed, outputs := outputs)]), x, Announcing)
      case AwaitingApproval =>
        var t := s.(steps := s.steps[key := s.steps[key].(status := StepStatus.Paused)], executors := s.executors - {x});
        if key.pid in s.processes && s.processes[key.pid].status.Running? then Move(t, key.pid, ProcessStatus.Paused) else t
  }

  ghost function ApplyAnnounce(s: State, x: nat): State {
    if x in s.executors && s.executors[x].phase.Announcing? then
      var key := s.executors[x].key;
      WithPhase(s.(log := s.log + [StepEvent(key.pid, key.name, "completed")]), x, Enqueueing)
    else s
  }

  /** All steps that `name` depends on have succeeded. */
  predicate UpstreamDone(s: State, d: D.Definition, pid: nat, name: string) {
    forall u :: u in D.Upstream(d.edges, name) && StepKey(pid, u) in s.steps ==> IsDone(s.steps[StepKey(pid, u)].status)
  }

  predicate CanQueue(s: State, d: D.Definition, pid: nat, name: string) {
    && UpstreamDone(s, d, pid, name)
    && StepKey(pid, name) in s.steps && s.steps[StepKey(pid, name)].status.Pending?
  }

  /** The names to queue, in edge order, without repeats. */
  function Queueable(s: State, d: D.Definition, pid: nat, names: seq<string>): (r: seq<string>)
    ensures forall n :: n in r <==> n in names && CanQueue(s, d, pid, n)
    ensures forall i, j :: 0 <= i < j < |r| ==> r[i] != r[j]
  {
    if names == [] then []
    else
      var front, last := names[..|names| - 1], names[|names| - 1];
      assert names == front + [last];
      var r := Queueable(s, d, pid, front);
      if CanQueue(s, d, pid, last) && last !in r then r + [last] else r
  }

  function ToQueue(s: State, key: StepKey): seq<string>
    requires key.pid in s.processes
  {
    var d := s.processes[key.pid].definition;
    Queueable(s, d, key.pid, D.Downstream(d.edges, key.name))
  }

  ghost predicate CanEnqueue(s: State, x: nat) {
    && x in s.executors && s.executors[x].phase.Enqueueing?
    && s.executors[x].key.pid in s.processes
    && Unlocked(s, Keys(s.executors[x].key.pid, ToQueue(s, s.executors[x].key)))
  }

  ghost function ApplyEnqueue(s: State, x: nat): State {
    if !CanEnqueue(s, x) then s
    else
      var key := s.executors[x].key;
      var names := ToQueue(s, key);
      WithPhase(s.(
        steps := map k | k in s.steps ::
          if k in Keys(key.pid, names) then s.steps[k].(status := StepStatus.Queued, nextRetryAt := None) else s.steps[k],
        log := s.log + StepEvents(key.pid, names, "queued")), x, Finalising([]))
  }

  predicate AllSettled(s: State, pid: nat) {
    forall k :: k in RowsOf(s, pid) ==> IsSettled(s.steps[k].status)
  }

  predicate AllSucceeded(s: State, pid: nat) {
    forall k :: k in RowsOf(s, pid) ==> IsDone(s.steps[k].status)
  }

  /** The non-empty outputs of the steps, by step name. */
  function CollectedOutputs(s: State, pid: nat): map<string, Outputs> {
    map n | n in NamesOf(s, pid) && s.steps[StepKey(pid, n)].outputs != map[] :: s.steps[StepKey(pid, n)].outputs
  }

  function NamesOf(s: State, pid: nat): (names: set<string>)
    ensures forall n :: n in names <==> StepKey(pid, n) in s.steps
  {
    var names := set k | k in s.steps && k.pid == pid :: k.name;
    assert forall n :: StepKey(pid, n) in s.steps ==> StepKey(pid, n).name in names;
    names
  }

  function MoveIfAllowed(s: State, pid: nat, target: ProcessStatus): State {
    if CanMove(s, pid, target) then Move(s, pid, target) else s
  }

  function SaveOutputs(s: State, pid: nat, outputs: map<string, Outputs>): State
    requires pid in s.processes
  {
    s.(processes := s.processes[pid := s.processes[pid].(outputs := outputs)])
  }

  /** The collected outputs are saved even when the move to completed is then refused. */
  ghost function Finalised(s: State, pid: nat): State
    requires pid in s.processes
  {
    if AllSucceeded(s, pid) then
      MoveIfAllowed(SaveOutputs(s, pid, CollectedOutputs(s, pid)), pid, ProcessStatus.Completed)
    else MoveIfAllowed(s, pid, ProcessStatus.Failed)
  }

  ghost function ApplyFinalise(s: State, x: nat): State {
    if !(x in s.executors && s.executors[x].phase.Finalising?) then s
    else
      var pid := s.executors[x].key.pid;
      var done := s.(executors := s.executors - {x});
      if pid !in s.processes || RowsOf(s, pid) == {} || !AllSettled(s, pid) then done
      else Finalised(done.(log := s.log + s.executors[x].phase.unsaved), pid)
  }

  // ----- Runs -----

  ghost function Apply(s: State, a: Action): State {
    match a
    case Tick(elapsed) => s.(clock := s.clock + elapsed)
    case Create(pid, d) => ApplyCreate(s, pid, d)
    case Start(pid, order) => ApplyStart(s, pid, order)
    case Cancel(pid, order) => ApplyCancel(s, pid, order)
    case Resume(pid) => ApplyResume(s, pid)
    case Replay(row) => ApplyReplay(s, row)
    case External(pid, target) => ApplyExternal(s, pid, target)
    case Scan(worker, limit, candidates) => ApplyScan(s, worker, limit, candidates)
    case LockNext(worker) => ApplyLockNext(s, worker)
    case CommitClaims(worker) => ApplyCommit(s, worker)
    case Settle(x, outcome) => ApplySettle(s, x, outcome)
    case Announce(x) => ApplyAnnounce(s, x)
    case Enqueue(x) => ApplyEnqueue(s, x)
    case Finalise(x) => ApplyFinalise(s, x)
  }

  ghost function Run(s: State, actions: seq<Action>): State {
    if actions == [] then s else Apply(Run(s, actions[..|actions| - 1]), actions[|actions| - 1])
  }
}
