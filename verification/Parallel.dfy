/** Bounded parallelism: tasks take a local, a global and a provider slot, run, and give them back. */
module Parallel {
  import opened Wrappers

  // ----- Tasks and semaphores -----

  /** `local_` is the semaphore of the gather call, if any; an empty provider name takes no provider slot. */
  datatype Task = Task(local_: Option<nat>, provider: string, outcome: Outcome)

  /** What the wrapped coroutine comes to: a value or an exception; both end up in the result list. */
  datatype Outcome = Value(v: int) | Raised(e: string)

  datatype Semaphore = Local(id: nat) | Global | Provider(name: string)

  /** How many slots a task holds and whether its body has run. */
  datatype Progress = Waiting(held: nat) | Body | Leaving(held: nat) | Finished

  datatype Config = Config(tasks: seq<Task>, caps: map<Semaphore, nat>)

  datatype State = State(progress: seq<Progress>, free: map<Semaphore, nat>, results: map<nat, Outcome>)

  /** How many semaphores a task takes, and which one at each position: local, global, provider. */
  function Count(t: Task): nat {
    (if t.local_.Some? then 1 else 0) + 1 + (if t.provider != "" then 1 else 0)
  }

  function NeedAt(t: Task, h: nat): Semaphore
    requires h < Count(t)
  {
    var first := if t.local_.Some? then 1 else 0;
    if h < first then Local(t.local_.value) else if h == first then Global else Provider(t.provider)
  }

  /** Where a task acquires `sem`, or -1. */
  function Position(t: Task, sem: Semaphore): int {
    var first := if t.local_.Some? then 1 else 0;
    match sem
    case Local(id) => if t.local_ == Some(id) then 0 else -1
    case Global => first
    case Provider(name) => if name == t.provider && name != "" then first + 1 else -1
  }

  lemma PositionInvertsNeedAt(t: Task)
    ensures forall h: nat :: h < Count(t) ==> Position(t, NeedAt(t, h)) == h
    ensures forall sem :: Position(t, sem) >= 0 ==> Position(t, sem) < Count(t) && NeedAt(t, Position(t, sem)) == sem
  {
  }

  ghost predicate WellConfigured(c: Config) {
    forall i, h: nat :: 0 <= i < |c.tasks| && h < Count(c.tasks[i]) ==> NeedAt(c.tasks[i], h) in c.caps
  }

  function Initial(c: Config): State {
    State(seq(|c.tasks|, _ => Waiting(0)), c.caps, map[])
  }

  /** How many of its semaphores task `i` holds. */
  function Held(c: Config, s: State, i: nat): nat
    requires i < |c.tasks| == |s.progress|
  {
    match s.progress[i]
    case Waiting(h) => h
    case Body => Count(c.tasks[i])
    case Leaving(h) => h
    case Finished => 0
  }

  predicate Holds(c: Config, s: State, i: nat, sem: Semaphore)
    requires i < |c.tasks| == |s.progress|
  {
    0 <= Position(c.tasks[i], sem) < Held(c, s, i)
  }

  // ----- Steps -----

  predicate Enabled(c: Config, s: State, i: nat)
    requires |c.tasks| == |s.progress|
  {
    && i < |c.tasks|
    && match s.progress[i]
       case Waiting(h) =>
         h < Count(c.tasks[i]) ==> NeedAt(c.tasks[i], h) in s.free && s.free[NeedAt(c.tasks[i], h)] > 0
       case Body => true
       case Leaving(h) => 1 <= h <= Count(c.tasks[i]) && NeedAt(c.tasks[i], h - 1) in s.free
       case Finished => false
  }

  /** Acquire the next slot, start the body, end the body with its outcome, or release the last slot. */
  function Step(c: Config, s: State, i: nat): State
    requires |c.tasks| == |s.progress| && Enabled(c, s, i)
  {
    var task := c.tasks[i];
    match s.progress[i]
    case Waiting(h) =>
      if h < Count(task) then
        s.(progress := s.progress[i := Waiting(h + 1)], free := s.free[NeedAt(task, h) := s.free[NeedAt(task, h)] - 1])
      else s.(progress := s.progress[i := Body])
    case Body => s.(progress := s.progress[i := Leaving(Count(task))], results := s.results[i := task.outcome])
    case Leaving(h) =>
      s.(progress := s.progress[i := if h == 1 then Finished else Leaving(h - 1)],
         free := s.free[NeedAt(task, h - 1) := s.free[NeedAt(task, h - 1)] + 1])
    case Finished => s
  }

  ghost predicate Reachable(c: Config, schedule: seq<nat>, s: State)
    decreases |schedule|
  {
    if schedule == [] then s == Initial(c)
    else
      exists r :: Reachable(c, schedule[..|schedule| - 1], r) && |r.progress| == |c.tasks|
                  && Enabled(c, r, schedule[|schedule| - 1]) && s == Step(c, r, schedule[|schedule| - 1])
  }

  // ----- Conservation: holders plus free permits equal the cap -----

  ghost function Holders(c: Config, s: State, sem: Semaphore): set<nat>
    requires |c.tasks| == |s.progress|
  {
    set i: nat | i < |c.tasks| && Holds(c, s, i, sem)
  }

  ghost function Bodies(c: Config, s: State, sem: Semaphore): set<nat>
    requires |c.tasks| == |s.progress|
  {
    set i: nat | i < |c.tasks| && s.progress[i].Body? && Position(c.tasks[i], sem) >= 0
  }

  ghost predicate ProgressOk(c: Config, s: State) {
    && |s.progress| == |c.tasks|
    && forall i :: 0 <= i < |c.tasks| ==>
         && (s.progress[i].Waiting? ==> s.progress[i].held <= Count(c.tasks[i]))
         && (s.progress[i].Leaving? ==> 1 <= s.progress[i].held <= Count(c.tasks[i]))
  }

  ghost predicate Conserved(c: Config, s: State)
    requires |c.tasks| == |s.progress|
  {
    s.free.Keys == c.caps.Keys && forall sem :: sem in c.caps ==> |Holders(c, s, sem)| + s.free[sem] == c.caps[sem]
  }

  ghost predicate ResultsOk(c: Config, s: State)
    requires |c.tasks| == |s.progress|
  {
    && (forall i :: i in s.results ==> i < |c.tasks| && s.results[i] == c.tasks[i].outcome)
    && (forall i: nat :: i < |c.tasks| ==> (i in s.results <==> s.progress[i].Leaving? || s.progress[i].Finished?))
  }

  ghost predicate Inv(c: Config, s: State) {
    ProgressOk(c, s) && Conserved(c, s) && ResultsOk(c, s)
  }

  lemma InitialInv(c: Config)
    requires WellConfigured(c)
    ensures Inv(c, Initial(c))
  {
    forall sem | sem in c.caps ensures Holders(c, Initial(c), sem) == {} {
    }
  }

  /** Taking a slot adds the task to the holders of exactly that semaphore. */
  lemma AcquireMovesHolder(c: Config, s: State, i: nat, sem: Semaphore)
    requires ProgressOk(c, s) && Enabled(c, s, i) && s.progress[i].Waiting? && s.progress[i].held < Count(c.tasks[i])
    ensures i !in Holders(c, s, NeedAt(c.tasks[i], s.progress[i].held))
    ensures Holders(c, Step(c, s, i), sem)
            == Holders(c, s, sem) + if sem == NeedAt(c.tasks[i], s.progress[i].held) then {i} else {}
  {
    PositionInvertsNeedAt(c.tasks[i]);
  }

  lemma ReleaseMovesHolder(c: Config, s: State, i: nat, sem: Semaphore)
    requires ProgressOk(c, s) && Enabled(c, s, i) && s.progress[i].Leaving?
    ensures i in Holders(c, s, NeedAt(c.tasks[i], s.progress[i].held - 1))
    ensures Holders(c, Step(c, s, i), sem)
            == Holders(c, s, sem) - if sem == NeedAt(c.tasks[i], s.progress[i].held - 1) then {i} else {}
  {
    PositionInvertsNeedAt(c.tasks[i]);
  }

  lemma BodyMovesNobody(c: Config, s: State, i: nat, sem: Semaphore)
    requires ProgressOk(c, s) && Enabled(c, s, i)
    requires s.progress[i].Body? || (s.progress[i].Waiting? && s.progress[i].held == Count(c.tasks[i]))
    ensures Holders(c, Step(c, s, i), sem) == Holders(c, s, sem)
  {
    PositionInvertsNeedAt(c.tasks[i]);
  }

  lemma StepConserves(c: Config, s: State, i: nat, sem: Semaphore)
    requires Inv(c, s) && Enabled(c, s, i) && sem in c.caps
    ensures |Holders(c, Step(c, s, i), sem)| + Step(c, s, i).free[sem] == c.caps[sem]
  {
    if s.progress[i].Leaving? {
      ReleaseMovesHolder(c, s, i, sem);
    } else if s.progress[i].Waiting? && s.progress[i].held < Count(c.tasks[i]) {
      AcquireMovesHolder(c, s, i, sem);
    } else {
      BodyMovesNobody(c, s, i, sem);
    }
  }

  lemma StepKeepsInv(c: Config, s: State, i: nat)
    requires Inv(c, s) && Enabled(c, s, i)
    ensures Inv(c, Step(c, s, i))
  {
    forall sem | sem in c.caps ensures |Holders(c, Step(c, s, i), sem)| + Step(c, s, i).free[sem] == c.caps[sem] {
      StepConserves(c, s, i, sem);
    }
  }

  lemma {:induction false} ReachableInv(c: Config, schedule: seq<nat>, s: State)
    requires WellConfigured(c) && Reachable(c, schedule, s)
    ensures Inv(c, s)
    decreases |schedule|
  {
    if schedule == [] {
      InitialInv(c);
    } else {
      var front, last := schedule[..|schedule| - 1], schedule[|schedule| - 1];
      var r :| Reachable(c, front, r) && |r.progress| == |c.tasks| && Enabled(c, r, last) && s == Step(c, r, last);
      ReachableInv(c, front, r);
      StepKeepsInv(c, r, last);
    }
  }

  /** Running bodies never exceed any cap. */
  lemma BodiesWithinCap(c: Config, schedule: seq<nat>, s: State, sem: Semaphore)
    requires WellConfigured(c) && Reachable(c, schedule, s) && sem in c.caps
    ensures |s.progress| == |c.tasks| && |Bodies(c, s, sem)| <= c.caps[sem]
  {
    ReachableInv(c, schedule, s);
    SubsetSize(Bodies(c, s, sem), Holders(c, s, sem));
  }

  lemma {:induction false} SubsetSize<T>(a: set<T>, b: set<T>)
    requires a <= b
    ensures |a| <= |b|
  {
    if a != {} {
      var x :| x in a;
      SubsetSize(a - {x}, b - {x});
    }
  }

  // ----- Termination: every schedule is as long as the work it has done -----

  function Remaining(t: Task, p: Progress): int {
    match p
    case Waiting(h) => 2 * Count(t) + 2 - h
    case Body => Count(t) + 1
    case Leaving(h) => h
    case Finished => 0
  }

  function Work(tasks: seq<Task>, progress: seq<Progress>): int
    requires |tasks| == |progress|
  {
    if tasks == [] then 0 else Remaining(tasks[0], progress[0]) + Work(tasks[1..], progress[1..])
  }

  lemma {:induction false} WorkAfterUpdate(tasks: seq<Task>, progress: seq<Progress>, i: nat, p: Progress)
    requires i < |tasks| == |progress|
    ensures Work(tasks, progress[i := p]) == Work(tasks, progress) - Remaining(tasks[i], progress[i]) + Remaining(tasks[i], p)
  {
    if i == 0 {
      assert progress[0 := p][1..] == progress[1..];
    } else {
      assert progress[i := p][1..] == progress[1..][i - 1 := p];
      WorkAfterUpdate(tasks[1..], progress[1..], i - 1, p);
    }
  }

  lemma {:induction false} WorkIsNatural(c: Config, tasks: seq<Task>, progress: seq<Progress>)
    requires |tasks| == |progress|
    requires forall i :: 0 <= i < |tasks| && progress[i].Waiting? ==> progress[i].held <= Count(tasks[i])
    ensures Work(tasks, progress) >= 0
  {
    if tasks != [] {
      WorkIsNatural(c, tasks[1..], progress[1..]);
    }
  }

  lemma StepDoesOneUnit(c: Config, s: State, i: nat)
    requires |c.tasks| == |s.progress| && Enabled(c, s, i)
    requires ProgressOk(c, s)
    ensures Work(c.tasks, Step(c, s, i).progress) == Work(c.tasks, s.progress) - 1
  {
    WorkAfterUpdate(c.tasks, s.progress, i, Step(c, s, i).progress[i]);
    assert s.progress[i := Step(c, s, i).progress[i]] == Step(c, s, i).progress;
  }

  /** Every schedule is finite: its length plus the work left is the work at the start. */
  lemma {:induction false} ScheduleLengthIsWorkDone(c: Config, schedule: seq<nat>, s: State)
    requires WellConfigured(c) && Reachable(c, schedule, s)
    ensures |s.progress| == |c.tasks|
    ensures |schedule| + Work(c.tasks, s.progress) == Work(c.tasks, Initial(c).progress) && Work(c.tasks, s.progress) >= 0
    decreases |schedule|
  {
    ReachableInv(c, schedule, s);
    WorkIsNatural(c, c.tasks, s.progress);
    if schedule != [] {
      var front, last := schedule[..|schedule| - 1], schedule[|schedule| - 1];
      var r :| Reachable(c, front, r) && |r.progress| == |c.tasks| && Enabled(c, r, last) && s == Step(c, r, last);
      ReachableInv(c, front, r);
      ScheduleLengthIsWorkDone(c, front, r);
      StepDoesOneUnit(c, r, last);
    }
  }

  // ----- Progress -----

  ghost predicate AllFinished(s: State) {
    forall i :: 0 <= i < |s.progress| ==> s.progress[i].Finished?
  }

  ghost predicate SomeCanMove(c: Config, s: State)
    requires |c.tasks| == |s.progress|
  {
    exists i :: Enabled(c, s, i)
  }

  /** Every semaphore that some task takes has at least one slot. */
  ghost predicate SlotsForAll(c: Config) {
    forall i, h: nat :: 0 <= i < |c.tasks| && h < Count(c.tasks[i]) ==>
      NeedAt(c.tasks[i], h) in c.caps && c.caps[NeedAt(c.tasks[i], h)] >= 1
  }

  function Rank(sem: Semaphore): nat {
    match sem
    case Local(_) => 0
    case Global => 1
    case Provider(_) => 2
  }

  /**
   * Follow the chain: a waiting task that cannot move waits for a slot whose holder, if it waits too,
   * waits for a semaphore of higher rank.
   */
  lemma {:induction false} FindMover(c: Config, s: State, i: nat) returns (j: nat)
    requires Inv(c, s) && SlotsForAll(c) && i < |c.tasks| && !s.progress[i].Finished?
    ensures Enabled(c, s, j)
    decreases if s.progress[i].Waiting? && s.progress[i].held < Count(c.tasks[i])
              then 3 - Rank(NeedAt(c.tasks[i], s.progress[i].held)) else 0
  {
    if Enabled(c, s, i) {
      j := i;
    } else {
      var sem := NeedAt(c.tasks[i], s.progress[i].held);
      var holders := Holders(c, s, sem);
      assert |holders| > 0;
      var k :| k in holders;
      PositionInvertsNeedAt(c.tasks[k]);
      j := FindMover(c, s, k);
    }
  }

  /** A task that needs a semaphore without slots never gets past it. */
  ghost predicate StuckBefore(c: Config, s: State, i: nat, sem: Semaphore)
    requires i < |c.tasks| == |s.progress|
  {
    s.progress[i].Waiting? && s.progress[i].held <= Position(c.tasks[i], sem)
  }

  lemma StuckStep(c: Config, s: State, i: nat, sem: Semaphore, j: nat)
    requires Inv(c, s) && i < |c.tasks| && StuckBefore(c, s, i, sem) && Enabled(c, s, j)
    requires sem in c.caps && c.caps[sem] == 0
    ensures |Step(c, s, j).progress| == |c.tasks| && StuckBefore(c, Step(c, s, j), i, sem)
  {
    assert s.free[sem] == 0;
    PositionInvertsNeedAt(c.tasks[i]);
  }

  lemma {:induction false} StaysStuck(c: Config, schedule: seq<nat>, s: State, i: nat, sem: Semaphore)
    requires WellConfigured(c) && Reachable(c, schedule, s) && i < |c.tasks|
    requires sem in c.caps && c.caps[sem] == 0 && Position(c.tasks[i], sem) >= 0
    ensures |s.progress| == |c.tasks| && StuckBefore(c, s, i, sem)
    decreases |schedule|
  {
    hide Inv, Enabled, Step, WellConfigured;
    if schedule != [] {
      var front, last := schedule[..|schedule| - 1], schedule[|schedule| - 1];
      var r :| Reachable(c, front, r) && |r.progress| == |c.tasks| && Enabled(c, r, last) && s == Step(c, r, last);
      StaysStuck(c, front, r, i, sem);
      ReachableInv(c, front, r);
      StuckStep(c, r, i, sem, last);
    }
  }

  /** From every reachable state, some schedule leads on to a state where nobody can move. */
  lemma {:induction false} RunToRest(c: Config, schedule: seq<nat>, s: State) returns (longer: seq<nat>, t: State)
    requires WellConfigured(c) && Reachable(c, schedule, s)
    ensures Reachable(c, longer, t) && |t.progress| == |c.tasks| && !SomeCanMove(c, t)
    decreases Work(c.tasks, Initial(c).progress) - |schedule|
  {
    ScheduleLengthIsWorkDone(c, schedule, s);
    if SomeCanMove(c, s) {
      var i :| Enabled(c, s, i);
      var next := Step(c, s, i);
      assert (schedule + [i])[..|schedule + [i]| - 1] == schedule;
      assert Reachable(c, schedule + [i], next);
      ScheduleLengthIsWorkDone(c, schedule + [i], next);
      longer, t := RunToRest(c, schedule + [i], next);
    } else {
      longer, t := schedule, s;
    }
  }

  ghost predicate NeverStuck(c: Config) {
    forall schedule, s :: Reachable(c, schedule, s) && |s.progress| == |c.tasks| && !AllFinished(s) ==> SomeCanMove(c, s)
  }

  /** Some task can always move until all are done exactly when every semaphore taken has a slot. */
  lemma NeverStuckIffSlotsForAll(c: Config)
    requires WellConfigured(c)
    ensures NeverStuck(c) <==> SlotsForAll(c)
  {
    if SlotsForAll(c) {
      forall schedule, s | Reachable(c, schedule, s) && |s.progress| == |c.tasks| && !AllFinished(s) ensures SomeCanMove(c, s) {
        ReachableInv(c, schedule, s);
        var i :| 0 <= i < |s.progress| && !s.progress[i].Finished?;
        var j := FindMover(c, s, i);
      }
    } else {
      var i, h: nat :| 0 <= i < |c.tasks| && h < Count(c.tasks[i]) && c.caps[NeedAt(c.tasks[i], h)] == 0;
      PositionInvertsNeedAt(c.tasks[i]);
      assert Reachable(c, [], Initial(c));
      var schedule, t := RunToRest(c, [], Initial(c));
      StaysStuck(c, schedule, t, i, NeedAt(c.tasks[i], h));
      assert !AllFinished(t);
    }
  }

  /** When all tasks are finished, result `i` is the outcome of task `i` and every slot is free again. */
  lemma AtTheEnd(c: Config, schedule: seq<nat>, s: State)
    requires WellConfigured(c) && Reachable(c, schedule, s) && AllFinished(s)
    ensures forall i: nat :: i < |c.tasks| <==> i in s.results
    ensures forall i: nat :: i < |c.tasks| ==> s.results[i] == c.tasks[i].outcome
    ensures s.free == c.caps
  {
    ReachableInv(c, schedule, s);
    forall sem | sem in c.caps ensures s.free[sem] == c.caps[sem] {
      assert Holders(c, s, sem) == {};
    }
  }

  // ----- The caps are reached -----

  ghost function Running(s: State): set<nat> {
    set i: nat | i < |s.progress| && s.progress[i].Body?
  }

  ghost function Below(n: nat): (r: set<nat>)
    ensures forall i: nat :: i in r <==> i < n
  {
    if n == 0 then {} else Below(n - 1) + {n - 1}
  }

  lemma {:induction false} SizeOfBelow(n: nat)
    ensures |Below(n)| == n
  {
    if n > 0 {
      SizeOfBelow(n - 1);
    }
  }

  /** Everything that the first `m` tasks take has at least `m` slots. */
  ghost predicate SlotsForFirst(c: Config, m: nat) {
    && m <= |c.tasks|
    && forall i, h: nat :: 0 <= i < m && h < Count(c.tasks[i]) ==>
         NeedAt(c.tasks[i], h) in c.caps && c.caps[NeedAt(c.tasks[i], h)] >= m
  }

  /** The first `m` tasks are running, the next has taken `h` slots, and the others have not begun. */
  ghost predicate Filling(c: Config, s: State, m: nat, h: nat) {
    && |s.progress| == |c.tasks|
    && forall i :: 0 <= i < |c.tasks| ==>
         s.progress[i] == if i < m then Body else if i == m then Waiting(h) else Waiting(0)
  }

  lemma NextCanTake(c: Config, s: State, m: nat, h: nat, all: nat)
    requires Inv(c, s) && SlotsForFirst(c, all) && m < all && h < Count(c.tasks[m]) && Filling(c, s, m, h)
    ensures Enabled(c, s, m)
  {
    var sem := NeedAt(c.tasks[m], h);
    PositionInvertsNeedAt(c.tasks[m]);
    assert Holders(c, s, sem) <= Below(m);
    SubsetSize(Holders(c, s, sem), Below(m));
    SizeOfBelow(m);
  }

  lemma ReachOneMore(c: Config, schedule: seq<nat>, s: State, i: nat)
    requires Reachable(c, schedule, s) && |s.progress| == |c.tasks| && Enabled(c, s, i)
    ensures Reachable(c, schedule + [i], Step(c, s, i))
  {
    assert (schedule + [i])[..|schedule + [i]| - 1] == schedule;
  }

  lemma {:induction false} Fill(c: Config, all: nat, m: nat, h: nat) returns (schedule: seq<nat>, s: State)
    requires WellConfigured(c) && SlotsForFirst(c, all)
    requires (m == all && h == 0) || (m < all && h <= Count(c.tasks[m]))
    ensures Reachable(c, schedule, s) && Filling(c, s, m, h)
    decreases m, h
  {
    hide Reachable, Inv, WellConfigured, SlotsForFirst;
    if m == 0 && h == 0 {
      schedule, s := [], Initial(c);
      StartIsReachable(c);
    } else {
      var before, i;
      if h > 0 {
        i := m;
        schedule, before := Fill(c, all, m, h - 1);
        ReachableInv(c, schedule, before);
        NextCanTake(c, before, m, h - 1, all);
      } else {
        i := m - 1;
        AllIsWithin(c, all);
        schedule, before := Fill(c, all, i, Count(c.tasks[i]));
      }
      s := Step(c, before, i);
      ReachOneMore(c, schedule, before, i);
      schedule := schedule + [i];
    }
  }

  lemma StartIsReachable(c: Config)
    ensures Reachable(c, [], Initial(c))
  {
  }

  lemma AllIsWithin(c: Config, all: nat)
    requires SlotsForFirst(c, all)
    ensures all <= |c.tasks|
  {
  }

  /** If all that `m` tasks take has `m` slots, these tasks can run at once. */
  lemma ManyRunAtOnce(c: Config, m: nat) returns (schedule: seq<nat>, s: State)
    requires WellConfigured(c) && SlotsForFirst(c, m)
    ensures Reachable(c, schedule, s) && |Running(s)| == m
  {
    schedule, s := Fill(c, m, m, 0);
    assert Running(s) == Below(m);
    SizeOfBelow(m);
  }

  // ----- One gather call -----

  /** `limit or MAX_PARALLEL`. */
  function LocalCap(limit: Option<int>, maxParallel: nat): int {
    if limit.Some? && limit.value != 0 then limit.value else maxParallel
  }

  function ProviderCap(configured: int): nat {
    if configured > 1 then configured else 1
  }

  function GatherConfig(outcomes: seq<Outcome>, provider: string, localCap: nat, maxParallel: nat, providerCap: nat): Config {
    Config(seq(|outcomes|, i requires 0 <= i < |outcomes| => Task(Some(0), provider, outcomes[i])),
           map[Local(0) := localCap, Global := maxParallel, Provider(provider) := providerCap])
  }

  /** A non-empty gather call cannot get stuck exactly when the global limit is at least one. */
  lemma GatherNeverStuckIff(outcomes: seq<Outcome>, provider: string, limit: Option<int>, maxParallel: nat, configured: int)
    requires outcomes != [] && LocalCap(limit, maxParallel) >= 0
    ensures NeverStuck(GatherConfig(outcomes, provider, LocalCap(limit, maxParallel), maxParallel, ProviderCap(configured)))
            <==> maxParallel >= 1
  {
    var c := GatherConfig(outcomes, provider, LocalCap(limit, maxParallel), maxParallel, ProviderCap(configured));
    NeverStuckIffSlotsForAll(c);
    assert NeedAt(c.tasks[0], 1) == Global;
  }

  /** In a reachable state no more coroutines run than any of the limits allows. */
  lemma RunningWithinCaps(outcomes: seq<Outcome>, provider: string, localCap: nat, maxParallel: nat, providerCap: nat, s: State)
    requires Inv(GatherConfig(outcomes, provider, localCap, maxParallel, providerCap), s)
    ensures |Running(s)| <= localCap && |Running(s)| <= maxParallel
    ensures provider != "" ==> |Running(s)| <= providerCap
  {
    var c := GatherConfig(outcomes, provider, localCap, maxParallel, providerCap);
    SubsetSize(Running(s), Holders(c, s, Local(0)));
    SubsetSize(Running(s), Holders(c, s, Global));
    if provider != "" {
      SubsetSize(Running(s), Holders(c, s, Provider(provider)));
    }
  }

  lemma EverySlotIsThere(outcomes: seq<Outcome>, provider: string, localCap: nat, maxParallel: nat, providerCap: nat)
    requires localCap >= 1 && maxParallel >= 1 && providerCap >= 1
    ensures SlotsForAll(GatherConfig(outcomes, provider, localCap, maxParallel, providerCap))
  {
  }

  /** The most coroutines that a call with these settings may run at once. */
  ghost predicate IsLeast(m: nat, coroutines: nat, limit: Option<int>, maxParallel: nat, provider: string, providerCap: nat) {
    && m <= coroutines && m <= maxParallel
    && (limit.Some? && limit.value > 0 ==> m <= limit.value)
    && (provider != "" ==> m <= providerCap)
    && (m == coroutines || m == maxParallel || (limit.Some? && limit.value > 0 && m == limit.value) || (provider != "" && m == providerCap))
  }

  /** That many do run at once under some schedule. */
  lemma LeastCapIsReached(outcomes: seq<Outcome>, provider: string, limit: Option<int>, maxParallel: nat, providerCap: nat, m: nat)
    returns (schedule: seq<nat>, s: State)
    requires LocalCap(limit, maxParallel) >= 0 && IsLeast(m, |outcomes|, limit, maxParallel, provider, providerCap)
    ensures Reachable(GatherConfig(outcomes, provider, LocalCap(limit, maxParallel), maxParallel, providerCap), schedule, s)
    ensures |Running(s)| == m
  {
    schedule, s := ManyRunAtOnce(GatherConfig(outcomes, provider, LocalCap(limit, maxParallel), maxParallel, providerCap), m);
  }

  ghost predicate Follows(c: Config, s: State, t: State) {
    |s.progress| == |c.tasks| && exists i :: Enabled(c, s, i) && t == Step(c, s, i)
  }

  /** The states that the tasks go through from their start on. */
  ghost predicate Trace(c: Config, states: seq<State>) {
    && states != [] && states[0] == Initial(c)
    && forall k :: 0 < k < |states| ==> Follows(c, states[k - 1], states[k])
  }

  lemma OneStepOn(c: Config, s: State, i: nat)
    requires Inv(c, s) && Enabled(c, s, i)
    ensures var t := Step(c, s, i);
            Inv(c, t) && Follows(c, s, t) && 0 <= Work(c.tasks, t.progress) == Work(c.tasks, s.progress) - 1
  {
    StepKeepsInv(c, s, i);
    StepDoesOneUnit(c, s, i);
    WorkIsNatural(c, c.tasks, Step(c, s, i).progress);
  }

  lemma ResultsAtTheEnd(c: Config, s: State)
    requires Inv(c, s) && AllFinished(s)
    ensures forall i: nat :: i < |c.tasks| ==> i in s.results && s.results[i] == c.tasks[i].outcome
  {
  }

  /** Lets the scheduler pick any task that can move until all are finished. */
  method RunToCompletion(c: Config) returns (s: State, ghost states: seq<State>)
    requires WellConfigured(c) && SlotsForAll(c)
    ensures Trace(c, states) && s == states[|states| - 1]
    ensures Inv(c, s) && AllFinished(s) && forall t :: t in states ==> Inv(c, t)
  {
    hide SlotsForAll, Step, Work, Conserved, ResultsOk;
    s := Initial(c);
    states := [s];
    InitialInv(c);
    WorkIsNatural(c, c.tasks, s.progress);
    while exists i :: 0 <= i < |c.tasks| && !s.progress[i].Finished?
      invariant Inv(c, s) && Work(c.tasks, s.progress) >= 0
      invariant Trace(c, states) && s == states[|states| - 1]
      invariant forall t :: t in states ==> Inv(c, t)
      decreases Work(c.tasks, s.progress)
    {
      ghost var unfinished :| 0 <= unfinished < |c.tasks| && !s.progress[unfinished].Finished?;
      ghost var mover := FindMover(c, s, unfinished);
      var i :| 0 <= i < |c.tasks| && Enabled(c, s, i);
      OneStepOn(c, s, i);
      s := Step(c, s, i);
      states := states + [s];
    }
  }

  /** `NeverReturns` stands for a call that waits for ever. */
  datatype GatherError = NegativeLimit | NeverReturns

  /** The module-level state: the global limit and the provider semaphores made so far. */
  class Pool {
    const maxParallel: nat
    var providerCaps: map<string, nat>

    constructor (maxParallel: nat)
      ensures this.maxParallel == maxParallel && providerCaps == map[]
    {
      this.maxParallel := maxParallel;
      providerCaps := map[];
    }

    /** Every provider semaphore made so far has a slot. */
    predicate Valid()
      reads this
    {
      forall p :: p in providerCaps ==> providerCaps[p] >= 1
    }

    /** Made on first use with at least one slot; later settings do not change it. */
    method GetProviderSem(provider: string, configured: int) returns (cap: nat)
      requires Valid()
      modifies this`providerCaps
      ensures Valid()
      ensures cap == if provider in old(providerCaps) then old(providerCaps)[provider] else if configured > 1 then configured else 1
      ensures providerCaps == old(providerCaps)[provider := cap]
    {
      if provider !in providerCaps {
        var limit := if configured > 1 then configured else 1;
        providerCaps := providerCaps[provider := limit];
      }
      cap := providerCaps[provider];
    }

    /**
     * Runs all coroutines in whatever order the scheduler chooses: result `i` is the outcome of
     * coroutine `i`, and in every state of the call each limit is respected. A negative limit is a value
     * error, and with a global limit of 0 nobody gets a slot (GatherNeverStuckIff).
     */
    method GatherWithLimit(outcomes: seq<Outcome>, provider: string, limit: Option<int>, configured: int)
      returns (r: Result<seq<Outcome>, GatherError>, ghost states: seq<State>)
      requires Valid()
      modifies this`providerCaps
      ensures Valid()
      ensures r == Err(NegativeLimit) <==> outcomes != [] && limit.Some? && limit.value < 0
      ensures r == Err(NeverReturns) <==> outcomes != [] && !(limit.Some? && limit.value < 0) && maxParallel == 0
      ensures r.Ok? ==> r.value == outcomes
      ensures r.Err? || outcomes == [] || provider == "" ==> providerCaps == old(providerCaps)
      ensures r.Ok? && outcomes != [] && provider != "" ==>
                && provider in providerCaps && providerCaps == old(providerCaps)[provider := providerCaps[provider]]
                && providerCaps[provider]
                   == (if provider in old(providerCaps) then old(providerCaps)[provider]
                       else if configured > 1 then configured else 1)
      ensures r.Ok? && outcomes != [] ==>
                && Trace(GatherConfig(outcomes, provider, LocalCap(limit, maxParallel), maxParallel,
                                      if provider != "" then providerCaps[provider] else 1), states)
                && AllFinished(states[|states| - 1])
      ensures forall s :: s in states ==>
                && |Running(s)| <= maxParallel
                && (limit.Some? && limit.value > 0 ==> |Running(s)| <= limit.value)
                && (provider != "" ==> provider in providerCaps && |Running(s)| <= providerCaps[provider])
    {
      hide Inv, Trace, Running, AllFinished, SlotsForAll;
      states := [];
      if outcomes == [] {
        return Ok([]), [];
      }
      var cap := if limit.Some? && limit.value != 0 then limit.value else maxParallel;
      if cap < 0 {
        return Err(NegativeLimit), [];
      }
      if maxParallel == 0 {
        return Err(NeverReturns), [];
      }
      var providerCap := 1;
      if provider != "" {
        providerCap := GetProviderSem(provider, configured);
      }
      var c := GatherConfig(outcomes, provider, cap, maxParallel, providerCap);
      EverySlotIsThere(outcomes, provider, cap, maxParallel, providerCap);
      var s;
      s, states := RunToCompletion(c);
      ResultsAtTheEnd(c, s);
      forall t | t in states
        ensures |Running(t)| <= cap && |Running(t)| <= maxParallel && (provider != "" ==> |Running(t)| <= providerCap)
      {
        RunningWithinCaps(outcomes, provider, cap, maxParallel, providerCap, t);
      }
      var results := [];
      for i := 0 to |outcomes|
        invariant results == outcomes[..i]
      {
        assert c.tasks[i].outcome == outcomes[i];
        results := results + [s.results[i]];
      }
      r := Ok(results);
    }
  }
}
