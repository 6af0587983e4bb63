/** The guards of the agent loop, each proved against the history of recorded tool calls. */
module Safety {
  import opened Wrappers

  /** One executed and recorded tool call; `args` is the hash of the arguments. */
  datatype Call = Call(tool: string, args: string, mutating: bool, ok: bool)

  function GetOr<K>(m: map<K, nat>, k: K): nat {
    if k in m then m[k] else 0
  }

  // ----- Circuit breaker -----

  /** Failures of the tool since its last success. */
  function Streak(h: seq<Call>, tool: string): nat {
    if h == [] then 0
    else
      var last := h[|h| - 1];
      var before := Streak(h[..|h| - 1], tool);
      if last.tool != tool then before else if last.ok then 0 else before + 1
  }

  /** Call `i` is a failure that brings its tool to the threshold or beyond. */
  predicate Trips(h: seq<Call>, max: nat, i: nat)
    requires i < |h|
  {
    !h[i].ok && Streak(h[..i + 1], h[i].tool) >= max
  }

  function TrippedFor(h: seq<Call>, max: nat): Option<string> {
    if h == [] then None
    else
      var last := h[|h| - 1];
      var before := TrippedFor(h[..|h| - 1], max);
      if !last.ok && Streak(h, last.tool) >= max then Some(last.tool)
      else if last.ok && before == Some(last.tool) then None
      else before
  }

  /** The breaker is tripped for the tool of the latest tripping call, unless that tool has succeeded since. */
  ghost predicate TrippedSince(h: seq<Call>, max: nat, i: nat) {
    && i < |h| && Trips(h, max, i)
    && (forall j :: i < j < |h| ==> !Trips(h, max, j))
    && (forall j :: i < j < |h| && h[j].tool == h[i].tool ==> !h[j].ok)
  }

  /** A tripped breaker names a tool that is on a losing streak. */
  lemma {:induction false} TrippedToolIsFailing(h: seq<Call>, max: nat)
    ensures TrippedFor(h, max).Some? ==> Streak(h, TrippedFor(h, max).value) >= max
  {
    if h != [] {
      TrippedToolIsFailing(h[..|h| - 1], max);
    }
  }

  lemma StreakStep(h: seq<Call>, call: Call, tool: string)
    ensures Streak(h + [call], tool)
            == if call.tool != tool then Streak(h, tool) else if call.ok then 0 else Streak(h, tool) + 1
  {
    assert (h + [call])[..|h|] == h;
  }

  /** The streak counts the calls of the tool since its last success, which are all failures. */
  lemma {:induction false} StreakIsSinceSuccess(h: seq<Call>, tool: string, p: nat)
    requires p <= |h| && (p > 0 ==> h[p - 1].tool == tool && h[p - 1].ok)
    requires forall i :: p <= i < |h| && h[i].tool == tool ==> !h[i].ok
    ensures Streak(h, tool) == |CallsFrom(h, tool, p)|
  {
    if p < |h| {
      hide CallsFrom;
      CallsFromGrow(h, tool, p);
      StreakIsSinceSuccess(h[..|h| - 1], tool, p);
    }
  }

  lemma CallsFromGrow(h: seq<Call>, tool: string, p: nat)
    requires p < |h|
    ensures var n := |h| - 1;
            |CallsFrom(h, tool, p)| == |CallsFrom(h[..n], tool, p)| + if h[n].tool == tool then 1 else 0
  {
    var n := |h| - 1;
    if n in CallsFrom(h, tool, p) {
      assert CallsFrom(h, tool, p) == CallsFrom(h[..n], tool, p) + {n};
    } else {
      assert CallsFrom(h, tool, p) == CallsFrom(h[..n], tool, p);
    }
  }

  ghost function CallsFrom(h: seq<Call>, tool: string, p: nat): set<int> {
    set i | p <= i < |h| && h[i].tool == tool
  }

  lemma TrippedStep(h: seq<Call>, max: nat, call: Call)
    ensures TrippedFor(h + [call], max)
            == if !call.ok && Streak(h, call.tool) + 1 >= max then Some(call.tool)
               else if call.ok && TrippedFor(h, max) == Some(call.tool) then None
               else TrippedFor(h, max)
  {
    assert (h + [call])[..|h|] == h;
    StreakStep(h, call, call.tool);
  }

  lemma TripsStep(h: seq<Call>, max: nat, call: Call, i: nat)
    requires i <= |h|
    ensures Trips(h + [call], max, i)
            <==> if i < |h| then Trips(h, max, i) else !call.ok && Streak(h, call.tool) + 1 >= max
  {
    if i < |h| {
      assert (h + [call])[..i + 1] == h[..i + 1];
    } else {
      assert (h + [call])[..i + 1] == h + [call];
      StreakStep(h, call, call.tool);
    }
  }

  lemma TrippedSinceStep(h: seq<Call>, max: nat, call: Call, i: nat)
    ensures TrippedSince(h + [call], max, i)
            <==> if Trips(h + [call], max, |h|) then i == |h|
                 else TrippedSince(h, max, i) && !(call.ok && call.tool == h[i].tool)
  {
    var longer := h + [call];
    forall j: nat | j < |h| ensures longer[j] == h[j] && (Trips(longer, max, j) <==> Trips(h, max, j)) {
      TripsStep(h, max, call, j);
    }
    assert longer[|h|] == call;
    assert forall j: nat :: j < |h| ==> h[j] == longer[j];
  }

  lemma {:induction false} TrippedIffLatestTripStands(h: seq<Call>, max: nat, tool: string)
    ensures TrippedFor(h, max) == Some(tool) <==> exists i: nat :: TrippedSince(h, max, i) && h[i].tool == tool
  {
    if h != [] {
      var n := |h| - 1;
      var front, last := h[..n], h[n];
      assert h == front + [last];
      TrippedIffLatestTripStands(front, max, tool);
      TrippedStep(front, max, last);
      TripsStep(front, max, last, n);
      forall i: nat ensures TrippedSince(h, max, i)
          <==> if Trips(h, max, n) then i == n else TrippedSince(front, max, i) && !(last.ok && last.tool == front[i].tool)
      {
        TrippedSinceStep(front, max, last, i);
      }
    }
  }

  ghost predicate SomeToolIsFailing(h: seq<Call>, max: nat) {
    exists tool :: Streak(h, tool) >= max
  }

  ghost predicate BreakerIsRight(h: seq<Call>, max: nat) {
    TrippedFor(h, max).Some? <==> SomeToolIsFailing(h, max)
  }

  ghost predicate AnotherIsFailing(h: seq<Call>, max: nat, tool: string) {
    exists other :: other != tool && Streak(h, other) >= max
  }

  /**
   * The converse of TrippedToolIsFailing fails: the breaker remembers one tool only. It goes wrong
   * exactly when the tool it is tripped for succeeds while another one is on a losing streak.
   */
  lemma BreakerGoesWrongIff(h: seq<Call>, max: nat, call: Call)
    requires max >= 1 && BreakerIsRight(h, max)
    ensures !BreakerIsRight(h + [call], max)
       <==> && call.ok && TrippedFor(h, max) == Some(call.tool)
            && AnotherIsFailing(h, max, call.tool)
  {
    var longer := h + [call];
    TrippedStep(h, max, call);
    TrippedToolIsFailing(longer, max);
    forall tool ensures Streak(longer, tool)
        == if call.tool != tool then Streak(h, tool) else if call.ok then 0 else Streak(h, tool) + 1
    {
      StreakStep(h, call, tool);
    }
    var others := AnotherIsFailing(h, max, call.tool);
    assert SomeToolIsFailing(longer, max) <==> Streak(longer, call.tool) >= max || others by {
      if others {
        var other :| other != call.tool && Streak(h, other) >= max;
        assert Streak(longer, other) >= max;
      }
    }
    assert SomeToolIsFailing(h, max) <==> Streak(h, call.tool) >= max || others;
  }

  /** The tool of the latest call that reached the threshold has succeeded since. */
  ghost predicate LatestTripForgiven(h: seq<Call>, max: nat) {
    exists i: nat :: ForgivenSince(h, max, i)
  }

  ghost predicate ForgivenSince(h: seq<Call>, max: nat, i: nat) {
    && i < |h| && Trips(h, max, i)
    && (forall j :: i < j < |h| ==> !Trips(h, max, j))
    && exists j :: i < j < |h| && h[j].tool == h[i].tool && h[j].ok
  }

  /** A tool that is failing has reached the threshold in some call. */
  lemma {:induction false} FailingToolTripped(h: seq<Call>, max: nat, tool: string) returns (i: nat)
    requires max >= 1 && Streak(h, tool) >= max
    ensures i < |h| && Trips(h, max, i)
  {
    var n := |h| - 1;
    assert h[..n + 1] == h;
    if h[n].tool == tool {
      i := n;
    } else {
      i := FailingToolTripped(h[..n], max, tool);
      assert h[..n][..i + 1] == h[..i + 1];
    }
  }

  lemma {:induction false} LatestTrip(h: seq<Call>, max: nat, i: nat) returns (latest: nat)
    requires i < |h| && Trips(h, max, i)
    ensures i <= latest < |h| && Trips(h, max, latest)
    ensures forall j :: latest < j < |h| ==> !Trips(h, max, j)
    decreases |h| - i
  {
    if j :| i < j < |h| && Trips(h, max, j) {
      latest := LatestTrip(h, max, j);
    } else {
      latest := i;
    }
  }

  /** Over all histories: the breaker is wrong exactly when some tool is failing and the latest trip is forgiven. */
  lemma BreakerIsWrongIff(h: seq<Call>, max: nat)
    requires max >= 1
    ensures !BreakerIsRight(h, max) <==> SomeToolIsFailing(h, max) && LatestTripForgiven(h, max)
  {
    hide Streak, Trips, TrippedFor;
    if TrippedFor(h, max).Some? {
      TrippedToolIsFailing(h, max);
      TrippedIffLatestTripStands(h, max, TrippedFor(h, max).value);
      var i: nat :| TrippedSince(h, max, i);
      assert forall j: nat :: ForgivenSince(h, max, j) ==> j == i;
    } else if tool :| Streak(h, tool) >= max {
      var i := FailingToolTripped(h, max, tool);
      var latest := LatestTrip(h, max, i);
      TrippedIffLatestTripStands(h, max, h[latest].tool);
      assert ForgivenSince(h, max, latest);
    }
  }

  function Failures(tool: string, n: nat): seq<Call> {
    if n == 0 then [] else Failures(tool, n - 1) + [Call(tool, "", false, false)]
  }

  lemma {:induction false} FailuresAreAStreak(h: seq<Call>, tool: string, n: nat)
    ensures Streak(h + Failures(tool, n), tool) == Streak(h, tool) + n
    ensures forall other :: other != tool ==> Streak(h + Failures(tool, n), other) == Streak(h, other)
  {
    if n == 0 {
      assert h + Failures(tool, n) == h;
    } else {
      FailuresAreAStreak(h, tool, n - 1);
      var call := Call(tool, "", false, false);
      var before := h + Failures(tool, n - 1);
      assert h + Failures(tool, n) == before + [call];
      forall t ensures Streak(before + [call], t) == Streak(before, t) + if t == tool then 1 else 0 {
        StreakStep(before, call, t);
      }
    }
  }

  /** A concrete history: three failures of one tool, three of another, then a success of the later one. */
  lemma LaterSuccessClearsTheTrip()
    ensures var h := Failures("read_file", 3) + Failures("grep_search", 3) + [Call("grep_search", "", false, true)];
            Streak(h, "read_file") == 3 && TrippedFor(h, 3) == None
  {
    var first, second := Failures("read_file", 3), Failures("grep_search", 3);
    FailuresAreAStreak([], "read_file", 3);
    assert [] + first == first;
    FailuresAreAStreak(first, "grep_search", 2);
    FailuresAreAStreak(first, "grep_search", 3);
    var before, last := first + Failures("grep_search", 2), Call("grep_search", "", false, false);
    assert first + second == before + [last];
    TrippedStep(before, 3, last);
    TrippedStep(first + second, 3, last.(ok := true));
    StreakStep(first + second, last.(ok := true), "read_file");
  }

  class CircuitBreaker {
    const maxConsecutive: nat
    var consecutive: map<string, nat>
    var trippedFor: Option<string>

    ghost predicate Tracks(h: seq<Call>)
      reads this
    {
      && (forall tool :: GetOr(consecutive, tool) == Streak(h, tool))
      && trippedFor == TrippedFor(h, maxConsecutive)
    }

    constructor (maxConsecutive: nat)
      ensures Tracks([]) && this.maxConsecutive == maxConsecutive
    {
      this.maxConsecutive := maxConsecutive;
      consecutive, trippedFor := map[], None;
    }

    method RecordFailure(tool: string, ghost h: seq<Call>, ghost call: Call)
      requires Tracks(h) && call.tool == tool && !call.ok
      modifies this
      ensures Tracks(h + [call])
    {
      consecutive := consecutive[tool := GetOr(consecutive, tool) + 1];
      if consecutive[tool] >= maxConsecutive {
        trippedFor := Some(tool);
      }
      TrippedStep(h, maxConsecutive, call);
      forall t ensures GetOr(consecutive, t) == Streak(h + [call], t) {
        StreakStep(h, call, t);
      }
    }

    method RecordSuccess(tool: string, ghost h: seq<Call>, ghost call: Call)
      requires Tracks(h) && call.tool == tool && call.ok
      modifies this
      ensures Tracks(h + [call])
    {
      consecutive := consecutive[tool := 0];
      if trippedFor == Some(tool) {
        trippedFor := None;
      }
      TrippedStep(h, maxConsecutive, call);
      forall t ensures GetOr(consecutive, t) == Streak(h + [call], t) {
        StreakStep(h, call, t);
      }
    }
  }

  // ----- Repetition detector -----

  const READ_LIMIT := 6
  const MUTATING_LIMIT := 12

  function ReadCount(h: seq<Call>, tool: string, args: string): nat {
    if h == [] then 0
    else
      var last := h[|h| - 1];
      ReadCount(h[..|h| - 1], tool, args) + if !last.mutating && last.tool == tool && last.args == args then 1 else 0
  }

  function MutationCount(h: seq<Call>, tool: string): nat {
    if h == [] then 0
    else
      var last := h[|h| - 1];
      MutationCount(h[..|h| - 1], tool) + if last.mutating && last.tool == tool then 1 else 0
  }

  ghost function Reads(h: seq<Call>, tool: string, args: string): set<int> {
    set i | 0 <= i < |h| && !h[i].mutating && h[i].tool == tool && h[i].args == args
  }

  ghost function Mutations(h: seq<Call>, tool: string): set<int> {
    set i | 0 <= i < |h| && h[i].mutating && h[i].tool == tool
  }

  lemma ReadsGrow(h: seq<Call>, tool: string, args: string)
    requires h != []
    ensures var n := |h| - 1;
            |Reads(h, tool, args)|
            == |Reads(h[..n], tool, args)| + if !h[n].mutating && h[n].tool == tool && h[n].args == args then 1 else 0
  {
    var n := |h| - 1;
    if n in Reads(h, tool, args) {
      assert Reads(h, tool, args) == Reads(h[..n], tool, args) + {n};
    } else {
      assert Reads(h, tool, args) == Reads(h[..n], tool, args);
    }
  }

  lemma {:induction false} ReadsAreCounted(h: seq<Call>, tool: string, args: string)
    ensures ReadCount(h, tool, args) == |Reads(h, tool, args)|
  {
    if h == [] {
      assert Reads(h, tool, args) == {};
    } else {
      hide Reads;
      ReadsGrow(h, tool, args);
      ReadsAreCounted(h[..|h| - 1], tool, args);
    }
  }

  lemma MutationsGrow(h: seq<Call>, tool: string)
    requires h != []
    ensures var n := |h| - 1;
            |Mutations(h, tool)| == |Mutations(h[..n], tool)| + if h[n].mutating && h[n].tool == tool then 1 else 0
  {
    var n := |h| - 1;
    if n in Mutations(h, tool) {
      assert Mutations(h, tool) == Mutations(h[..n], tool) + {n};
    } else {
      assert Mutations(h, tool) == Mutations(h[..n], tool);
    }
  }

  lemma {:induction false} MutationsAreCounted(h: seq<Call>, tool: string)
    ensures MutationCount(h, tool) == |Mutations(h, tool)|
  {
    if h == [] {
      assert Mutations(h, tool) == {};
    } else {
      hide Mutations;
      MutationsGrow(h, tool);
      MutationsAreCounted(h[..|h| - 1], tool);
    }
  }

  /** Some read was repeated with the same arguments, or some mutating tool was used, too often. */
  ghost predicate TooOften(h: seq<Call>) {
    || (exists tool, args :: ReadCount(h, tool, args) > 6)
    || (exists tool :: MutationCount(h, tool) > 12)
  }

  function RepeatedFor(h: seq<Call>): Option<string> {
    if h == [] then None
    else
      var last := h[|h| - 1];
      if last.mutating && MutationCount(h, last.tool) > MUTATING_LIMIT then Some(last.tool)
      else if !last.mutating && ReadCount(h, last.tool, last.args) > READ_LIMIT then Some(last.tool)
      else RepeatedFor(h[..|h| - 1])
  }

  lemma CountStep(h: seq<Call>, call: Call, tool: string, args: string)
    ensures ReadCount(h + [call], tool, args)
            == ReadCount(h, tool, args) + if !call.mutating && call.tool == tool && call.args == args then 1 else 0
    ensures MutationCount(h + [call], tool)
            == MutationCount(h, tool) + if call.mutating && call.tool == tool then 1 else 0
  {
    assert (h + [call])[..|h|] == h;
  }

  predicate GoesOver(h: seq<Call>, call: Call) {
    if call.mutating then MutationCount(h, call.tool) >= MUTATING_LIMIT
    else ReadCount(h, call.tool, call.args) >= READ_LIMIT
  }

  lemma RepeatedStep(h: seq<Call>, call: Call)
    ensures RepeatedFor(h + [call])
            == if GoesOver(h, call) then Some(call.tool) else RepeatedFor(h)
  {
    assert (h + [call])[..|h|] == h;
    CountStep(h, call, call.tool, call.args);
  }

  lemma TooOftenStep(h: seq<Call>, call: Call)
    ensures TooOften(h + [call]) <==> TooOften(h) || GoesOver(h, call)
  {
    var longer := h + [call];
    CountStep(h, call, call.tool, call.args);
    if TooOften(h) {
      if tool, args :| ReadCount(h, tool, args) > READ_LIMIT {
        CountStep(h, call, tool, args);
        assert ReadCount(longer, tool, args) > READ_LIMIT;
      } else if tool :| MutationCount(h, tool) > MUTATING_LIMIT {
        CountStep(h, call, tool, "");
        assert MutationCount(longer, tool) > MUTATING_LIMIT;
      }
    }
    if TooOften(longer) {
      if tool, args :| ReadCount(longer, tool, args) > READ_LIMIT {
        CountStep(h, call, tool, args);
      } else if tool :| MutationCount(longer, tool) > MUTATING_LIMIT {
        CountStep(h, call, tool, "");
      }
    }
  }

  /** Once tripped, the detector stays tripped: it is tripped exactly when some count is over its limit. */
  lemma {:induction false} RepeatedIffTooOften(h: seq<Call>)
    ensures RepeatedFor(h).Some? <==> TooOften(h)
  {
    if h == [] {
    } else {
      var front, call := h[..|h| - 1], h[|h| - 1];
      assert h == front + [call];
      RepeatedIffTooOften(front);
      RepeatedStep(front, call);
      TooOftenStep(front, call);
    }
  }

  class RepetitionDetector {
    var readCalls: map<(string, string), nat>
    var mutatingCalls: map<string, nat>
    var trippedFor: Option<string>

    ghost predicate Tracks(h: seq<Call>)
      reads this
    {
      && (forall tool, args :: GetOr(readCalls, (tool, args)) == ReadCount(h, tool, args))
      && (forall tool :: GetOr(mutatingCalls, tool) == MutationCount(h, tool))
      && trippedFor == RepeatedFor(h)
    }

    constructor ()
      ensures Tracks([])
    {
      readCalls, mutatingCalls, trippedFor := map[], map[], None;
    }

    method Record(tool: string, args: string, mutating: bool, ghost h: seq<Call>, ghost call: Call)
      requires Tracks(h) && call.tool == tool && call.args == args && call.mutating == mutating
      modifies this
      ensures Tracks(h + [call])
    {
      RepeatedStep(h, call);
      forall t, a
        ensures ReadCount(h + [call], t, a)
            == ReadCount(h, t, a) + if !call.mutating && call.tool == t && call.args == a then 1 else 0
        ensures MutationCount(h + [call], t) == MutationCount(h, t) + if call.mutating && call.tool == t then 1 else 0
      {
        CountStep(h, call, t, a);
      }
      if mutating {
        var count := GetOr(mutatingCalls, tool) + 1;
        mutatingCalls := mutatingCalls[tool := count];
        if count > MUTATING_LIMIT {
          trippedFor := Some(tool);
        }
      } else {
        var count := GetOr(readCalls, (tool, args)) + 1;
        readCalls := readCalls[(tool, args) := count];
        if count > READ_LIMIT {
          trippedFor := Some(tool);
        }
      }
    }
  }

  // ----- Edit failures -----

  predicate IsEditTool(tool: string) {
    tool == "write_file" || tool == "edit_file" || tool == "apply_patch"
  }

  const EDIT_FAILURE_LIMIT := 5

  function EditFailures(h: seq<Call>): nat {
    if h == [] then 0
    else
      var last := h[|h| - 1];
      EditFailures(h[..|h| - 1]) + if !last.ok && IsEditTool(last.tool) then 1 else 0
  }

  ghost function FailedEdits(h: seq<Call>): set<int> {
    set i | 0 <= i < |h| && !h[i].ok && h[i].tool in {"write_file", "edit_file", "apply_patch"}
  }

  lemma {:induction false} EditFailuresAreCounted(h: seq<Call>)
    ensures EditFailures(h) == |FailedEdits(h)|
  {
    if h != [] {
      var n := |h| - 1;
      EditFailuresAreCounted(h[..n]);
      assert FailedEdits(h) == FailedEdits(h[..n]) + if !h[n].ok && IsEditTool(h[n].tool) then {n} else {};
    }
  }

  lemma EditFailuresStep(h: seq<Call>, call: Call)
    ensures EditFailures(h + [call]) == EditFailures(h) + if !call.ok && IsEditTool(call.tool) then 1 else 0
  {
    assert (h + [call])[..|h|] == h;
  }

  class EditFailureTracker {
    var totalFailures: nat
    var tripped: bool

    ghost predicate Tracks(h: seq<Call>)
      reads this
    {
      totalFailures == EditFailures(h) && (tripped <==> EditFailures(h) >= 5)
    }

    constructor ()
      ensures Tracks([])
    {
      totalFailures, tripped := 0, false;
    }

    method RecordFailure(tool: string, ghost h: seq<Call>, ghost call: Call)
      requires Tracks(h) && call.tool == tool && !call.ok
      modifies this
      ensures Tracks(h + [call])
    {
      EditFailuresStep(h, call);
      if !IsEditTool(tool) {
        return;
      }
      totalFailures := totalFailures + 1;
      if totalFailures >= EDIT_FAILURE_LIMIT && !tripped {
        tripped := true;
      }
    }

    /** A success changes nothing: the count is cumulative. */
    method RecordSuccess(tool: string, ghost h: seq<Call>, ghost call: Call)
      requires Tracks(h) && call.tool == tool && call.ok
      ensures Tracks(h + [call])
    {
      EditFailuresStep(h, call);
    }
  }

  // ----- Token budget -----

  const RUN_LIMIT := 500_000

  class TokenBudgetEnforcer {
    var inputTokens: nat
    var outputTokens: nat

    constructor ()
      ensures inputTokens == outputTokens == 0
    {
      inputTokens, outputTokens := 0, 0;
    }

    method Record(input: nat, output: nat)
      modifies this
      ensures inputTokens == old(inputTokens) + input && outputTokens == old(outputTokens) + output
    {
      inputTokens := inputTokens + input;
      outputTokens := outputTokens + output;
    }

    /** False when the run limit, or the organisation's daily cap, is exceeded. */
    method Check(orgCapExceeded: bool) returns (ok: bool)
      ensures ok <==> inputTokens + outputTokens <= 500_000 && !orgCapExceeded
    {
      if inputTokens + outputTokens > RUN_LIMIT {
        return false;
      }
      ok := !orgCapExceeded;
    }
  }
}
