/** The agent loop of a fresh run: an arbitrary model and arbitrary tools, kept in check by the guards. */
module AgentLoop {
  import opened Wrappers
  import opened Memory
  import opened Safety

  /** `args` is the canonical form of the arguments, by which repeated reads are recognised. */
  datatype ToolCall = ToolCall(name: string, args: string)

  datatype Response =
    | Raises
    | ErrorReply
    | Reply(content: string, calls: seq<ToolCall>, inputTokens: nat, outputTokens: nat)

  datatype ToolResult = ToolResult(ok: bool, output: string)
  datatype Gate = Clear | Trips(guidance: string) | GateRaises

  /** Everything the loop does not control, by step, and by position in the step's list of calls. */
  datatype World = World(
    llm: nat -> Response,
    tools: (nat, nat) -> ToolResult,
    gate: (nat, nat) -> Gate,
    orgCapExceeded: nat -> bool,
    summarise: seq<Message> -> string,
    registry: map<string, bool>)  // tool name to is_mutating

  datatype Reason = Finished | MaxSteps | SafetyTripped | BudgetExceeded | AwaitingApproval | Error

  // ----- The tool calls of one step -----

  datatype Ending = RanOut | Finishes | Crashes | CommandDone | AsksApproval(guidance: string)

  function Outcome(w: World, step: nat, k: nat, call: ToolCall): ToolResult {
    if call.name in w.registry then w.tools(step, k) else ToolResult(false, "Unknown tool: " + call.name)
  }

  /** How the list of calls ends at position k, if it does. */
  function EndingAt(w: World, step: nat, calls: seq<ToolCall>, k: nat): Option<Ending> {
    if k >= |calls| then Some(RanOut)
    else if calls[k].name == "finish" then Some(Finishes)
    else if calls[k].name !in w.registry then Some(Crashes)
    else if calls[k].name == "run_command" && w.tools(step, k).ok then
      match w.gate(step, k)
      case Clear => Some(CommandDone)
      case Trips(guidance) => Some(AsksApproval(guidance))
      case GateRaises => Some(Crashes)
    else None
  }

  /** The first position at or after k where the list of calls ends. */
  function StopFrom(w: World, step: nat, calls: seq<ToolCall>, k: nat): (n: nat)
    requires k <= |calls|
    ensures k <= n <= |calls|
    ensures EndingAt(w, step, calls, n).Some?
    ensures forall j :: k <= j < n ==> EndingAt(w, step, calls, j).None?
    decreases |calls| - k
  {
    if EndingAt(w, step, calls, k).Some? then k else StopFrom(w, step, calls, k + 1)
  }

  function Stop(w: World, step: nat, calls: seq<ToolCall>): nat {
    StopFrom(w, step, calls, 0)
  }

  function EndingOf(w: World, step: nat, calls: seq<ToolCall>): Ending {
    EndingAt(w, step, calls, Stop(w, step, calls)).value
  }

  function ToolMessage(w: World, step: nat, k: nat, call: ToolCall): Message {
    if call.name == "finish" then Message(Tool, "finish accepted")
    else
      var result := Outcome(w, step, k, call);
      Message(Tool, if result.ok then result.output else "ERROR: " + result.output)
  }

  function ToolMessages(w: World, step: nat, calls: seq<ToolCall>, n: nat): (messages: seq<Message>)
    requires n <= |calls|
    ensures |messages| == n && forall m :: m in messages ==> m.role.Tool?
  {
    if n == 0 then [] else ToolMessages(w, step, calls, n - 1) + [ToolMessage(w, step, n - 1, calls[n - 1])]
  }

  function Approval(ending: Ending): seq<Message> {
    match ending
    case AsksApproval(guidance) => [Message(System, guidance)]
    case _ => []
  }

  /** The messages of one step's calls: one per call up to the end, then what the approval gate says. */
  function Said(w: World, step: nat, calls: seq<ToolCall>): seq<Message> {
    var n := Stop(w, step, calls);
    ToolMessages(w, step, calls, if n < |calls| then n + 1 else n) + Approval(EndingOf(w, step, calls))
  }

  function AsCall(w: World, step: nat, k: nat, call: ToolCall): Call {
    Call(call.name, call.args, call.name in w.registry && w.registry[call.name], Outcome(w, step, k, call).ok)
  }

  /** The history h followed by the first n calls. */
  function Extended(w: World, step: nat, calls: seq<ToolCall>, h: seq<Call>, n: nat): (longer: seq<Call>)
    requires n <= |calls|
    ensures |longer| == |h| + n
  {
    if n == 0 then h else Extended(w, step, calls, h, n - 1) + [AsCall(w, step, n - 1, calls[n - 1])]
  }

  /** The calls that reach the guards: a finish call never does, and a successful command is the last. */
  function Recorded(w: World, step: nat, calls: seq<ToolCall>, h: seq<Call>): seq<Call> {
    var n := Stop(w, step, calls);
    Extended(w, step, calls, h, if EndingOf(w, step, calls) in {RanOut, Finishes} then n else n + 1)
  }

  ghost predicate Tracked(circuit: CircuitBreaker, repetition: RepetitionDetector, edits: EditFailureTracker, h: seq<Call>)
    reads circuit, repetition, edits
  {
    circuit.Tracks(h) && repetition.Tracks(h) && edits.Tracks(h)
  }

  /** A call of an unknown tool counts as a failure, and then raises before it is counted as a repetition. */
  method RecordCall(w: World, call: ToolCall, ok: bool, circuit: CircuitBreaker, repetition: RepetitionDetector,
                    edits: EditFailureTracker, ghost h: seq<Call>, ghost now: Call)
    returns (raised: bool)
    requires Tracked(circuit, repetition, edits, h)
    requires now == Call(call.name, call.args, call.name in w.registry && w.registry[call.name], ok)
    modifies circuit, repetition, edits
    ensures raised <==> call.name !in w.registry
    ensures !raised ==> Tracked(circuit, repetition, edits, h + [now])
  {
    if ok {
      circuit.RecordSuccess(call.name, h, now);
      edits.RecordSuccess(call.name, h, now);
    } else {
      circuit.RecordFailure(call.name, h, now);
      edits.RecordFailure(call.name, h, now);
    }
    if call.name !in w.registry {
      return true;
    }
    repetition.Record(call.name, call.args, w.registry[call.name], h, now);
    raised := false;
  }

  /** One turn of the inner loop; `said` collects what goes to the conversation, in memory and in the store alike. */
  method ExecuteCall(w: World, step: nat, calls: seq<ToolCall>, k: nat, said0: seq<Message>, circuit: CircuitBreaker,
                     repetition: RepetitionDetector, edits: EditFailureTracker, ghost h: seq<Call>)
    returns (said: seq<Message>, ending: Option<Ending>)
    requires k < |calls|
    requires Tracked(circuit, repetition, edits, h)
    modifies circuit, repetition, edits
    ensures ending == EndingAt(w, step, calls, k)
    ensures ending.None? ==> said == said0 + [ToolMessage(w, step, k, calls[k])]
    ensures ending.Some? ==> said == said0 + [ToolMessage(w, step, k, calls[k])] + Approval(ending.value)
    ensures ending == Some(Finishes) ==> Tracked(circuit, repetition, edits, h)
    ensures ending !in {Some(Finishes), Some(Crashes)} ==>
              Tracked(circuit, repetition, edits, h + [AsCall(w, step, k, calls[k])])
  {
    var call := calls[k];
    if call.name == "finish" {
      return said0 + [Message(Tool, "finish accepted")], Some(Finishes);
    }
    var result := Outcome(w, step, k, call);
    said := said0 + [Message(Tool, if result.ok then result.output else "ERROR: " + result.output)];
    var raised := RecordCall(w, call, result.ok, circuit, repetition, edits, h, AsCall(w, step, k, call));
    if raised {
      return said, Some(Crashes);
    }
    if call.name == "run_command" && result.ok {
      match w.gate(step, k) {
        case Clear => ending := Some(CommandDone);
        case GateRaises => ending := Some(Crashes);
        case Trips(guidance) =>
          ending := Some(AsksApproval(guidance));
          said := said + [Message(System, guidance)];
      }
    } else {
      ending := None;
    }
  }

  method ExecuteCalls(w: World, step: nat, calls: seq<ToolCall>, circuit: CircuitBreaker,
                      repetition: RepetitionDetector, edits: EditFailureTracker, ghost h: seq<Call>)
    returns (said: seq<Message>, ending: Ending)
    requires Tracked(circuit, repetition, edits, h)
    modifies circuit, repetition, edits
    ensures ending == EndingOf(w, step, calls)
    ensures said == Said(w, step, calls)
    ensures !ending.Crashes? ==> Tracked(circuit, repetition, edits, Recorded(w, step, calls, h))
  {
    hide Tracked;
    said := [];
    var k := 0;
    ghost var longer, n := h, Stop(w, step, calls);
    while k < |calls|
      invariant k <= n
      invariant said == ToolMessages(w, step, calls, k)
      invariant longer == Extended(w, step, calls, h, k)
      invariant Tracked(circuit, repetition, edits, longer)
    {
      var end;
      said, end := ExecuteCall(w, step, calls, k, said, circuit, repetition, edits, longer);
      if end != Some(Finishes) {
        longer := longer + [AsCall(w, step, k, calls[k])];
      }
      if end.Some? {
        assert k == n;
        return said, end.value;
      }
      k := k + 1;
    }
    assert k == n;
    ending := RanOut;
  }

  // ----- The run -----

  /**
   * The state of the run between steps: the messages in memory, every system message that has ever
   * been in memory (summaries included), the stored conversation, the recorded calls and the tokens.
   */
  datatype State = State(messages: seq<Message>, everySystem: seq<Message>, stored: seq<Message>,
                         history: seq<Call>, inputTokens: nat, outputTokens: nat)
  {
    function Tokens(): nat {
      inputTokens + outputTokens
    }
  }

  function Start(systemPrompt: string, userPrompt: string): State {
    var system, user := Message(System, systemPrompt), Message(User, userPrompt);
    State([system, user], [system], [system, user], [], 0, 0)
  }

  /** Trimming and summarising before a call. */
  function Prepare(w: World, s: State): State {
    s.(messages := Prompt(s.messages, w.summarise), everySystem := s.everySystem + PromptSummary(s.messages, w.summarise))
  }

  function AfterReply(w: World, s: State, step: nat, reply: Response): State
    requires reply.Reply?
  {
    var assistant := Message(Assistant, reply.content);
    var said := if reply.calls == [] then [] else Said(w, step, reply.calls);
    State(s.messages + [assistant] + said,
          s.everySystem + if reply.calls == [] then [] else Approval(EndingOf(w, step, reply.calls)),
          s.stored + [assistant] + said,
          if reply.calls == [] then s.history else Recorded(w, step, reply.calls, s.history),
          s.inputTokens + reply.inputTokens,
          s.outputTokens + reply.outputTokens)
  }

  /** The state after the step whose call to the model is made in state s. */
  function AfterStep(w: World, s: State, step: nat): State {
    if w.llm(step).Reply? then AfterReply(w, s, step, w.llm(step)) else s
  }

  /** The state in which the model is called for the n-th time, if the run gets that far. */
  function AtCall(w: World, start: State, n: nat): State
    requires n >= 1
  {
    Prepare(w, if n == 1 then start else AfterStep(w, AtCall(w, start, n - 1), n - 1))
  }

  predicate GuardTripped(h: seq<Call>) {
    TrippedFor(h, 3).Some? || RepeatedFor(h).Some? || EditFailures(h) >= EDIT_FAILURE_LIMIT
  }

  /** Why the run stops after the n-th call, if it does. */
  function Verdict(w: World, start: State, n: nat): Option<Reason>
    requires n >= 1
  {
    match w.llm(n)
    case Raises => Some(Error)
    case ErrorReply => Some(Error)
    case Reply(_, calls, _, _) =>
      var after := AfterStep(w, AtCall(w, start, n), n);
      if calls == [] || EndingOf(w, n, calls).Finishes? then Some(Finished)
      else if EndingOf(w, n, calls).Crashes? then Some(Error)
      else if GuardTripped(after.history) then Some(SafetyTripped)
      else if after.Tokens() > RUN_LIMIT || w.orgCapExceeded(n) then Some(BudgetExceeded)
      else None
  }

  /** The run makes exactly n calls to the model. */
  ghost predicate Makes(w: World, start: State, maxSteps: int, n: nat) {
    && (n == 0 || n <= maxSteps)
    && (forall i :: 1 <= i < n ==> Verdict(w, start, i).None?)
    && (n < maxSteps ==> n >= 1 && Verdict(w, start, n).Some?)
  }

  predicate ApprovalAskedAt(w: World, step: nat) {
    w.llm(step).Reply? && w.llm(step).calls != [] && EndingOf(w, step, w.llm(step).calls).AsksApproval?
  }

  ghost predicate ApprovalAsked(w: World, n: nat) {
    exists i :: 1 <= i <= n && ApprovalAskedAt(w, i)
  }

  ghost function FinalReason(w: World, start: State, n: nat): Reason {
    if n == 0 then Finished
    else if Verdict(w, start, n).Some? then Verdict(w, start, n).value
    else if ApprovalAsked(w, n) then AwaitingApproval
    else MaxSteps
  }

  function Guidance(circuit: Option<string>, repetition: Option<string>): string {
    if circuit.Some? then "Failing: " + circuit.value
    else if repetition.Some? then "Repeated: " + repetition.value
    else "Edit failures"
  }

  ghost function FinalState(w: World, start: State, n: nat): State {
    if n == 0 then start
    else
      var after := AfterStep(w, AtCall(w, start, n), n);
      if Verdict(w, start, n) != Some(SafetyTripped) then after
      else
        var guidance := Message(System, Guidance(TrippedFor(after.history, 3), RepeatedFor(after.history)));
        after.(messages := after.messages + [guidance], stored := after.stored + [guidance])
  }

  datatype AgentResult = AgentResult(success: bool, steps: nat, inputTokens: nat, outputTokens: nat,
                                     reason: Reason, stored: seq<Message>)

  /** What the guards hold when the model is called. */
  datatype Counters = Counters(consecutive: map<string, nat>, readCalls: map<(string, string), nat>,
                               mutatingCalls: map<string, nat>, editFailures: nat)

  ghost predicate CountersAgree(c: Counters, h: seq<Call>) {
    && (forall tool :: GetOr(c.consecutive, tool) == Streak(h, tool))
    && (forall tool, args :: GetOr(c.readCalls, (tool, args)) == ReadCount(h, tool, args))
    && (forall tool :: GetOr(c.mutatingCalls, tool) == MutationCount(h, tool))
    && c.editFailures == EditFailures(h)
  }

  /** The text of the first guard that is tripped. */
  method TripGuidance(circuit: CircuitBreaker, repetition: RepetitionDetector, edits: EditFailureTracker, ghost h: seq<Call>)
    returns (guidance: Option<string>)
    requires Tracked(circuit, repetition, edits, h) && circuit.maxConsecutive == 3
    ensures guidance == if GuardTripped(h) then Some(Guidance(TrippedFor(h, 3), RepeatedFor(h))) else None
  {
    if circuit.trippedFor.Some? || repetition.trippedFor.Some? || edits.tripped {
      guidance := Some(Guidance(circuit.trippedFor, repetition.trippedFor));
    } else {
      guidance := None;
    }
  }

  /** From the call to the model to the checks at the end of the step. */
  method Turn(w: World, n: nat, messages0: seq<Message>, stored0: seq<Message>, circuit: CircuitBreaker,
              repetition: RepetitionDetector, edits: EditFailureTracker, budget: TokenBudgetEnforcer,
              ghost start: State)
    returns (messages: seq<Message>, stored: seq<Message>, approval: bool, verdict: Option<Reason>)
    requires n >= 1
    requires Tracked(circuit, repetition, edits, AtCall(w, start, n).history) && circuit.maxConsecutive == 3
    requires messages0 == AtCall(w, start, n).messages && stored0 == AtCall(w, start, n).stored
    requires budget.inputTokens == AtCall(w, start, n).inputTokens && budget.outputTokens == AtCall(w, start, n).outputTokens
    modifies circuit, repetition, edits, budget
    ensures verdict == Verdict(w, start, n)
    ensures approval <==> ApprovalAskedAt(w, n)
    ensures stored == FinalState(w, start, n).stored
    ensures budget.inputTokens == FinalState(w, start, n).inputTokens
    ensures budget.outputTokens == FinalState(w, start, n).outputTokens
    ensures verdict.None? ==> messages == FinalState(w, start, n).messages
    ensures verdict.None? ==> Tracked(circuit, repetition, edits, FinalState(w, start, n).history)
  {
    hide Tracked, Prepare, Makes;
    messages, stored, approval := messages0, stored0, false;
    ghost var s := AtCall(w, start, n);
    var response := w.llm(n);
    if !response.Reply? {
      return messages, stored, false, Some(Error);
    }
    budget.Record(response.inputTokens, response.outputTokens);
    messages := messages + [Message(Assistant, response.content)];
    stored := stored + [Message(Assistant, response.content)];
    if response.calls == [] {
      verdict := Some(Finished);
      return;
    }
    var said, ending := ExecuteCalls(w, n, response.calls, circuit, repetition, edits, s.history);
    messages, stored, approval := messages + said, stored + said, ending.AsksApproval?;
    if ending.Crashes? {
      return messages, stored, approval, Some(Error);
    }
    if ending.Finishes? {
      return messages, stored, approval, Some(Finished);
    }
    var guidance := TripGuidance(circuit, repetition, edits, Recorded(w, n, response.calls, s.history));
    if guidance.Some? {
      messages := messages + [Message(System, guidance.value)];
      stored := stored + [Message(System, guidance.value)];
      return messages, stored, approval, Some(SafetyTripped);
    }
    var withinBudget := budget.Check(w.orgCapExceeded(n));
    verdict := if withinBudget then None else Some(BudgetExceeded);
  }

  ghost function Report(w: World, start: State, n: nat): AgentResult {
    var last := FinalState(w, start, n);
    AgentResult(FinalReason(w, start, n) == Finished, n, last.inputTokens, last.outputTokens,
                FinalReason(w, start, n), last.stored)
  }

  ghost function Snapshot(circuit: CircuitBreaker, repetition: RepetitionDetector, edits: EditFailureTracker): Counters
    reads circuit, repetition, edits
  {
    Counters(circuit.consecutive, repetition.readCalls, repetition.mutatingCalls, edits.totalFailures)
  }

  lemma TrackedCountersAgree(circuit: CircuitBreaker, repetition: RepetitionDetector, edits: EditFailureTracker, h: seq<Call>)
    requires Tracked(circuit, repetition, edits, h)
    ensures CountersAgree(Snapshot(circuit, repetition, edits), h)
  {
  }

  lemma CallAfterFinal(w: World, start: State, n: nat)
    requires n >= 1 && (n == 1 || Verdict(w, start, n - 1).None?)
    ensures var before, s := FinalState(w, start, n - 1), AtCall(w, start, n);
            && s.messages == Prompt(before.messages, w.summarise) && s.stored == before.stored
            && s.history == before.history && s.inputTokens == before.inputTokens && s.outputTokens == before.outputTokens
  {
  }

  lemma StartIsFinal(w: World, start: State)
    ensures FinalState(w, start, 0) == start
  {
  }

  lemma NothingTracked(circuit: CircuitBreaker, repetition: RepetitionDetector, edits: EditFailureTracker)
    requires circuit.Tracks([]) && repetition.Tracks([]) && edits.Tracks([])
    ensures Tracked(circuit, repetition, edits, [])
  {
  }

  /** An unset or zero step limit falls back to the role's; `counters` are what the guards held at each call to the model. */
  method Run(w: World, systemPrompt: string, userPrompt: string, requestedSteps: Option<int>, roleSteps: int)
    returns (result: AgentResult, ghost counters: seq<Counters>)
    ensures Makes(w, Start(systemPrompt, userPrompt),
                  if requestedSteps.Some? && requestedSteps.value != 0 then requestedSteps.value else roleSteps, result.steps)
    ensures result == Report(w, Start(systemPrompt, userPrompt), result.steps)
    ensures |counters| == result.steps
    ensures forall i :: 1 <= i <= result.steps ==>
              CountersAgree(counters[i - 1], AtCall(w, Start(systemPrompt, userPrompt), i).history)
  {
    hide Tracked, Verdict, ApprovalAskedAt, CountersAgree, Prompt, AtCall, FinalState;
    var maxSteps := if requestedSteps.Some? && requestedSteps.value != 0 then requestedSteps.value else roleSteps;
    ghost var start := Start(systemPrompt, userPrompt);
    var messages := [Message(System, systemPrompt), Message(User, userPrompt)];
    var stored := messages;
    var circuit := new CircuitBreaker(3);
    var repetition := new RepetitionDetector();
    var edits := new EditFailureTracker();
    var budget := new TokenBudgetEnforcer();
    NothingTracked(circuit, repetition, edits);
    var steps, reason: Option<Reason> := 0, None;
    counters := [];
    assert FinalState(w, start, 0) == start by { StartIsFinal(w, start); }
    while steps < maxSteps
      invariant steps == 0 || steps <= maxSteps
      invariant forall i :: 1 <= i <= steps ==> Verdict(w, start, i).None?
      invariant messages == FinalState(w, start, steps).messages && stored == FinalState(w, start, steps).stored
      invariant budget.inputTokens == FinalState(w, start, steps).inputTokens
      invariant budget.outputTokens == FinalState(w, start, steps).outputTokens
      invariant Tracked(circuit, repetition, edits, FinalState(w, start, steps).history) && circuit.maxConsecutive == 3
      invariant fresh(circuit) && fresh(repetition) && fresh(edits) && fresh(budget)
      invariant reason == if steps == 0 then None
                          else if ApprovalAsked(w, steps) then Some(AwaitingApproval) else Some(MaxSteps)
      invariant |counters| == steps
      invariant forall i :: 1 <= i <= steps ==> CountersAgree(counters[i - 1], AtCall(w, start, i).history)
    {
      steps := steps + 1;
      messages := Prompt(messages, w.summarise);
      CallAfterFinal(w, start, steps);
      TrackedCountersAgree(circuit, repetition, edits, AtCall(w, start, steps).history);
      counters := counters + [Snapshot(circuit, repetition, edits)];
      var approval, verdict;
      messages, stored, approval, verdict := Turn(w, steps, messages, stored, circuit, repetition, edits, budget, start);
      if approval {
        reason := Some(AwaitingApproval);
      }
      if verdict.Some? {
        reason := verdict;
        break;
      }
      if reason.None? {
        reason := Some(MaxSteps);
      }
    }
    var final := if reason.Some? then reason.value else Finished;
    result := AgentResult(final == Finished, steps, budget.inputTokens, budget.outputTokens, final, stored);
  }

  // ----- What holds at every call to the model -----

  ghost predicate WithinLimits(h: seq<Call>, tokens: nat) {
    && TrippedFor(h, 3).None?
    && (forall tool, args :: ReadCount(h, tool, args) <= 6)
    && (forall tool :: MutationCount(h, tool) <= 12)
    && EditFailures(h) < 5
    && tokens <= 500_000
  }

  lemma NothingIsWrongAtFirst()
    ensures TrippedFor([], 3).None? && RepeatedFor([]).None? && EditFailures([]) == 0
    ensures !GuardTripped([])
  {
  }

  lemma PassingMeansWithinLimits(w: World, start: State, n: nat)
    requires n >= 1 && Verdict(w, start, n).None?
    ensures var s := AtCall(w, start, n + 1); !GuardTripped(s.history) && s.Tokens() <= RUN_LIMIT
  {
    hide GuardTripped, Prompt, PromptSummary, Said, Approval, EndingOf, Recorded;
  }

  lemma NotTrippedMeansWithinLimits(h: seq<Call>, tokens: nat)
    requires !GuardTripped(h) && tokens <= RUN_LIMIT
    ensures WithinLimits(h, tokens)
  {
    hide TrippedFor, RepeatedFor, ReadCount, MutationCount, EditFailures;
    RepeatedIffTooOften(h);
  }

  lemma GuardsHoldAtEveryCall(w: World, systemPrompt: string, userPrompt: string, maxSteps: int, n: nat, i: nat)
    requires Makes(w, Start(systemPrompt, userPrompt), maxSteps, n) && 1 <= i <= n
    ensures var s := AtCall(w, Start(systemPrompt, userPrompt), i); WithinLimits(s.history, s.Tokens())
  {
    hide GuardTripped, WithinLimits, Verdict, Prompt, PromptSummary, AfterStep;
    var start := Start(systemPrompt, userPrompt);
    if i == 1 {
      NothingIsWrongAtFirst();
    } else {
      PassingMeansWithinLimits(w, start, i - 1);
    }
    var s := AtCall(w, start, i);
    NotTrippedMeansWithinLimits(s.history, s.Tokens());
  }

  /** Memory holds every system message, and otherwise a suffix of the stored conversation. */
  ghost predicate MemoryIsRight(s: State) {
    Remembers(s.messages, s.everySystem, NonSystem(s.stored))
  }

  lemma {:induction false} ToolMessagesAreNotSystem(w: World, step: nat, calls: seq<ToolCall>, n: nat)
    requires n <= |calls|
    ensures forall m :: m in ToolMessages(w, step, calls, n) ==> !m.role.System?
  {
    if n > 0 {
      ToolMessagesAreNotSystem(w, step, calls, n - 1);
    }
  }

  lemma FiltersOfSaid(w: World, step: nat, calls: seq<ToolCall>)
    ensures SystemOnly(Said(w, step, calls)) == Approval(EndingOf(w, step, calls))
  {
    hide ToolMessages, EndingOf, SystemOnly, NonSystem;
    var n := Stop(w, step, calls);
    var tools, approval := ToolMessages(w, step, calls, if n < |calls| then n + 1 else n), Approval(EndingOf(w, step, calls));
    ToolMessagesAreNotSystem(w, step, calls, |tools|);
    FiltersDistribute(tools, approval);
    FiltersOfNonSystem(tools);
    FiltersOfSystem(approval);
  }

  /** Appending the same messages to memory and to the store keeps memory right. */
  lemma AppendingKeepsMemoryRight(messages: seq<Message>, everySystem: seq<Message>, stored: seq<Message>, more: seq<Message>)
    requires Remembers(messages, everySystem, NonSystem(stored))
    ensures Remembers(messages + more, everySystem + SystemOnly(more), NonSystem(stored + more))
  {
    FiltersDistribute(messages, more);
    FiltersDistribute(stored, more);
    SuffixPlus(NonSystem(messages), NonSystem(stored), NonSystem(more));
  }

  /** What a reply adds to memory it adds to the store, and none of it is lost before the next prompt. */
  lemma ReplyKeepsMemoryRight(w: World, s: State, step: nat, reply: Response)
    requires MemoryIsRight(s) && reply.Reply?
    ensures var after := AfterReply(w, s, step, reply);
            && MemoryIsRight(after)
            && |NonSystem(after.messages)| - |NonSystem(s.messages)| == |NonSystem(after.stored)| - |NonSystem(s.stored)| >= 1
  {
    hide SystemOnly, NonSystem, Said, EndingOf, Recorded, Remembers;
    var assistant := [Message(Assistant, reply.content)];
    AppendingKeepsMemoryRight(s.messages, s.everySystem, s.stored, assistant);
    FiltersOfNonSystem(assistant);
    FiltersDistribute(s.messages, assistant);
    FiltersDistribute(s.stored, assistant);
    assert s.everySystem + [] == s.everySystem;
    if reply.calls == [] {
      assert s.messages + assistant + [] == s.messages + assistant && s.stored + assistant + [] == s.stored + assistant;
    } else {
      var said := Said(w, step, reply.calls);
      FiltersOfSaid(w, step, reply.calls);
      AppendingKeepsMemoryRight(s.messages + assistant, s.everySystem, s.stored + assistant, said);
      FiltersDistribute(s.messages + assistant, said);
      FiltersDistribute(s.stored + assistant, said);
    }
  }

  /** The state between two steps: before the n-th prompt is made. */
  function BeforeCall(w: World, start: State, n: nat): State
    requires n >= 1
  {
    if n == 1 then start else AfterStep(w, AtCall(w, start, n - 1), n - 1)
  }

  lemma StartIsRight(systemPrompt: string, userPrompt: string)
    ensures MemoryIsRight(Start(systemPrompt, userPrompt))
    ensures NonSystem(Start(systemPrompt, userPrompt).messages) == NonSystem(Start(systemPrompt, userPrompt).stored)
  {
    hide SystemOnly, NonSystem;
    var system, user := [Message(System, systemPrompt)], [Message(User, userPrompt)];
    FiltersOfSplit(system, user);
    assert Start(systemPrompt, userPrompt).messages == system + user;
  }

  lemma {:induction false} MemoryAtEveryCall(w: World, systemPrompt: string, userPrompt: string, i: nat)
    requires i >= 1
    ensures var start := Start(systemPrompt, userPrompt);
            MemoryIsRight(BeforeCall(w, start, i)) && MemoryIsRight(AtCall(w, start, i))
    decreases i
  {
    hide MemoryIsRight, AfterReply, Start, NonSystem, Prompt, PromptSummary;
    var start := Start(systemPrompt, userPrompt);
    if i == 1 {
      StartIsRight(systemPrompt, userPrompt);
    } else {
      MemoryAtEveryCall(w, systemPrompt, userPrompt, i - 1);
      if w.llm(i - 1).Reply? {
        ReplyKeepsMemoryRight(w, AtCall(w, start, i - 1), i - 1, w.llm(i - 1));
      }
    }
    PreparingKeepsMemoryRight(w, BeforeCall(w, start, i));
  }

  lemma PreparingKeepsMemoryRight(w: World, s: State)
    requires MemoryIsRight(s)
    ensures MemoryIsRight(Prepare(w, s))
  {
    hide Prompt, PromptSummary, NonSystem, Remembers;
    PromptRemembers(s.messages, s.everySystem, NonSystem(s.stored), w.summarise);
  }

  /**
   * At every call the prompt holds every system message there has been, in order. The rest of it is a
   * suffix of the stored conversation: the last 30 of what was in memory before, which is what the
   * previous prompt held and all that was said since, less 25 if that makes more than 50 messages.
   */
  lemma PromptAtEveryCall(w: World, systemPrompt: string, userPrompt: string, i: nat)
    requires i >= 1
    ensures var start := Start(systemPrompt, userPrompt);
            var before, s := BeforeCall(w, start, i), AtCall(w, start, i);
            var others := |NonSystem(before.messages)|;
            var latest := if others < 30 then others else 30;
            && SystemOnly(s.messages) == s.everySystem && IsSuffix(NonSystem(s.messages), NonSystem(s.stored))
            && |NonSystem(s.messages)|
               == (if |before.everySystem| + latest <= 50 then latest else if latest <= 25 then 0 else latest - 25)
            && (i > 1 ==>
                  var last := AtCall(w, start, i - 1);
                  others - |NonSystem(last.messages)| == |NonSystem(s.stored)| - |NonSystem(last.stored)| >= 0)
  {
    hide AfterReply, Start, NonSystem, SystemOnly, Prompt, PromptSummary, IsSuffix;
    var start := Start(systemPrompt, userPrompt);
    var before := BeforeCall(w, start, i);
    MemoryAtEveryCall(w, systemPrompt, userPrompt, i);
    PromptRemembers(before.messages, before.everySystem, NonSystem(before.stored), w.summarise);
    if i > 1 {
      MemoryAtEveryCall(w, systemPrompt, userPrompt, i - 1);
      if w.llm(i - 1).Reply? {
        ReplyKeepsMemoryRight(w, AtCall(w, start, i - 1), i - 1, w.llm(i - 1));
      }
    }
  }

  /** As long as there are at most 20 system messages, the model is shown exactly the last 30 of all others ever said. */
  lemma {:induction false} PromptIsTheLatest(w: World, systemPrompt: string, userPrompt: string, i: nat)
    requires i >= 1 && |AtCall(w, Start(systemPrompt, userPrompt), i).everySystem| <= 20
    ensures var s := AtCall(w, Start(systemPrompt, userPrompt), i);
            var all := NonSystem(s.stored);
            NonSystem(s.messages) == if |all| <= 30 then all else all[|all| - 30..]
    decreases i
  {
    hide AfterStep, Start, NonSystem, SystemOnly, Prompt, PromptSummary;
    var start := Start(systemPrompt, userPrompt);
    PromptAtEveryCall(w, systemPrompt, userPrompt, i);
    assert AtCall(w, start, i) == Prepare(w, BeforeCall(w, start, i));
    if i == 1 {
      StartIsRight(systemPrompt, userPrompt);
    } else {
      var last := AtCall(w, start, i - 1);
      assert |NonSystem(last.messages)| == if |NonSystem(last.stored)| <= 30 then |NonSystem(last.stored)| else 30 by {
        NothingIsLost(w, start, i - 1, i);
        PromptIsTheLatest(w, systemPrompt, userPrompt, i - 1);
      }
    }
  }

  lemma {:induction false} ExtendedExtends(w: World, step: nat, calls: seq<ToolCall>, h: seq<Call>, n: nat)
    requires n <= |calls|
    ensures h <= Extended(w, step, calls, h, n)
  {
    if n > 0 {
      ExtendedExtends(w, step, calls, h, n - 1);
    }
  }

  lemma RecordedExtends(w: World, step: nat, calls: seq<ToolCall>, h: seq<Call>)
    ensures h <= Recorded(w, step, calls, h)
  {
    var n := Stop(w, step, calls);
    ExtendedExtends(w, step, calls, h, if EndingOf(w, step, calls) in {RanOut, Finishes} then n else n + 1);
  }

  ghost predicate Extends(later: State, earlier: State) {
    && earlier.everySystem <= later.everySystem
    && earlier.stored <= later.stored
    && earlier.history <= later.history
    && earlier.Tokens() <= later.Tokens()
  }

  lemma StepExtends(w: World, s: State, step: nat)
    ensures Extends(AfterStep(w, s, step), s)
  {
    hide Said, Approval, Recorded;
    if w.llm(step).Reply? {
      RecordedExtends(w, step, w.llm(step).calls, s.history);
    }
  }

  /** Nothing recorded, stored or said by the system is ever lost or reordered later on. */
  lemma {:induction false} NothingIsLost(w: World, start: State, i: nat, j: nat)
    requires 1 <= i <= j
    ensures Extends(AtCall(w, start, j), AtCall(w, start, i))
    decreases j
  {
    hide AfterStep, Prompt, PromptSummary;
    if i < j {
      NothingIsLost(w, start, i, j - 1);
      StepExtends(w, AtCall(w, start, j - 1), j - 1);
    }
  }

  // ----- What the run reports -----

  /** Input and output tokens over the first n responses, errors counting nothing. */
  function InputUpTo(w: World, n: nat): nat {
    if n == 0 then 0 else InputUpTo(w, n - 1) + if w.llm(n).Reply? then w.llm(n).inputTokens else 0
  }

  function OutputUpTo(w: World, n: nat): nat {
    if n == 0 then 0 else OutputUpTo(w, n - 1) + if w.llm(n).Reply? then w.llm(n).outputTokens else 0
  }

  lemma {:induction false} StateTokens(w: World, systemPrompt: string, userPrompt: string, n: nat)
    requires n >= 1
    ensures var after := AfterStep(w, AtCall(w, Start(systemPrompt, userPrompt), n), n);
            after.inputTokens == InputUpTo(w, n) && after.outputTokens == OutputUpTo(w, n)
  {
    hide Prompt, PromptSummary, Said, Approval, EndingOf, Recorded;
    if n > 1 {
      StateTokens(w, systemPrompt, userPrompt, n - 1);
    }
  }

  /** The tokens reported are those of the responses that were not errors. */
  lemma TokensAreTheSums(w: World, systemPrompt: string, userPrompt: string, n: nat)
    ensures var result := Report(w, Start(systemPrompt, userPrompt), n);
            result.inputTokens == InputUpTo(w, n) && result.outputTokens == OutputUpTo(w, n)
  {
    hide AfterStep, AtCall, Verdict, ApprovalAsked;
    if n > 0 {
      StateTokens(w, systemPrompt, userPrompt, n);
    }
  }

  /** A finish call is reached: no call before it ends the step. */
  ghost predicate ReachesFinish(w: World, step: nat, calls: seq<ToolCall>) {
    exists k :: 0 <= k < |calls| && calls[k].name == "finish" && NothingStops(w, step, calls, k)
  }

  ghost predicate NothingStops(w: World, step: nat, calls: seq<ToolCall>, k: nat)
    requires k <= |calls|
  {
    forall j :: 0 <= j < k ==>
      calls[j].name in w.registry && !(calls[j].name == "run_command" && w.tools(step, j).ok)
  }

  lemma FinishesIffReached(w: World, step: nat, calls: seq<ToolCall>)
    ensures EndingOf(w, step, calls).Finishes? <==> ReachesFinish(w, step, calls)
  {
    var n := Stop(w, step, calls);
    if EndingOf(w, step, calls).Finishes? {
      forall j | 0 <= j < n
        ensures calls[j].name in w.registry && !(calls[j].name == "run_command" && w.tools(step, j).ok)
      {
        assert EndingAt(w, step, calls, j).None?;
      }
      assert NothingStops(w, step, calls, n);
    }
    if ReachesFinish(w, step, calls) {
      var k :| 0 <= k < |calls| && calls[k].name == "finish" && NothingStops(w, step, calls, k);
      assert EndingAt(w, step, calls, k) == Some(Finishes);
    }
  }

  /** A negative step limit makes a run that does nothing succeed; every other success is the model's doing. */
  lemma SuccessIff(w: World, systemPrompt: string, userPrompt: string, maxSteps: int, n: nat)
    requires Makes(w, Start(systemPrompt, userPrompt), maxSteps, n)
    ensures Report(w, Start(systemPrompt, userPrompt), n).success
            <==> || n == 0
                 || (w.llm(n).Reply? && (w.llm(n).calls == [] || ReachesFinish(w, n, w.llm(n).calls)))
    ensures n == 0 <==> maxSteps <= 0
  {
    if n > 0 && w.llm(n).Reply? {
      FinishesIffReached(w, n, w.llm(n).calls);
    }
  }

  /** Asking for approval does not pause the run: it ends there only for a reason of its own. */
  lemma ApprovalEndsTheRunIff(w: World, start: State, maxSteps: int, n: nat, i: nat)
    requires Makes(w, start, maxSteps, n) && 1 <= i <= n && ApprovalAskedAt(w, i)
    ensures var after := AfterStep(w, AtCall(w, start, i), i);
            i == n <==> || GuardTripped(after.history) || after.Tokens() > RUN_LIMIT || w.orgCapExceeded(i)
                        || i == maxSteps
  {
    hide GuardTripped, AtCall, Said, Approval, Recorded;
    assert i < n ==> Verdict(w, start, i).None?;
  }

  // ----- A step, call by call -----

  predicate IsSuccessfulCommand(w: World, step: nat, calls: seq<ToolCall>, j: nat)
    requires j < |calls|
  {
    calls[j].name == "run_command" && calls[j].name in w.registry && w.tools(step, j).ok
  }

  /** The loop goes on to the next call. */
  predicate Passes(w: World, step: nat, calls: seq<ToolCall>, j: nat)
    requires j < |calls|
  {
    calls[j].name != "finish" && calls[j].name in w.registry && !IsSuccessfulCommand(w, step, calls, j)
  }

  /** The step handles exactly the first `m` of the calls. */
  ghost predicate Handles(w: World, step: nat, calls: seq<ToolCall>, m: nat) {
    && m <= |calls|
    && (forall j :: 0 <= j < m - 1 ==> Passes(w, step, calls, j))
    && (m < |calls| ==> m > 0 && !Passes(w, step, calls, m - 1))
  }

  lemma PassingIsNotEnding(w: World, step: nat, calls: seq<ToolCall>)
    ensures forall j: nat :: j < |calls| ==> (Passes(w, step, calls, j) <==> EndingAt(w, step, calls, j).None?)
  {
  }

  /** Some number of calls is handled, and no other. */
  lemma HandledCalls(w: World, step: nat, calls: seq<ToolCall>, m: nat)
    requires calls != []
    ensures Handles(w, step, calls, m)
            <==> m == if Stop(w, step, calls) < |calls| then Stop(w, step, calls) + 1 else Stop(w, step, calls)
  {
    hide Passes, EndingAt;
    PassingIsNotEnding(w, step, calls);
    assert EndingAt(w, step, calls, |calls|).Some? && EndingAt(w, step, calls, Stop(w, step, calls)).Some? by {
      EndsAtTheEnd(w, step, calls);
    }
  }

  lemma EndsAtTheEnd(w: World, step: nat, calls: seq<ToolCall>)
    ensures EndingAt(w, step, calls, |calls|) == Some(RanOut)
  {
  }

  /** The last call handled decides how the step ends. */
  lemma LastCallEndsTheStep(w: World, step: nat, calls: seq<ToolCall>, m: nat)
    requires calls != [] && Handles(w, step, calls, m)
    ensures var last := calls[m - 1];
            EndingOf(w, step, calls)
            == if Passes(w, step, calls, m - 1) then RanOut
               else if last.name == "finish" then Finishes
               else if last.name !in w.registry then Crashes
               else match w.gate(step, m - 1)
                    case Clear => CommandDone
                    case Trips(guidance) => AsksApproval(guidance)
                    case GateRaises => Crashes
  {
    HandledCalls(w, step, calls, m);
    PassingIsNotEnding(w, step, calls);
  }

  /** Each call handled is answered in order, and a request for approval comes last. */
  lemma EachCallIsAnswered(w: World, step: nat, calls: seq<ToolCall>, m: nat)
    requires calls != [] && Handles(w, step, calls, m)
    ensures var ending, said := EndingOf(w, step, calls), Said(w, step, calls);
            && |said| == m + (if ending.AsksApproval? then 1 else 0)
            && (forall j :: 0 <= j < m ==> Answers(w, step, calls[j], j, said[j]))
            && (ending.AsksApproval? ==> said[m] == Message(System, ending.guidance))
  {
    hide Handles, EndingOf, ToolMessages, Answers;
    HandledCalls(w, step, calls, m);
    MessagesAnswer(w, step, calls, m);
  }

  /** Each call handled is counted in order, but not a finish call. */
  lemma EachCallIsRecorded(w: World, step: nat, calls: seq<ToolCall>, h: seq<Call>, m: nat)
    requires calls != [] && Handles(w, step, calls, m) && !EndingOf(w, step, calls).Crashes?
    ensures var longer := Recorded(w, step, calls, h);
            && h <= longer
            && |longer| == |h| + (if calls[m - 1].name == "finish" then m - 1 else m)
            && forall j :: 0 <= j < |longer| - |h| ==> IsRecordOf(w, step, calls[j], j, longer[|h| + j])
  {
    hide Handles, Extended, AsCall, IsRecordOf;
    HandledCalls(w, step, calls, m);
    LastCallEndsTheStep(w, step, calls, m);
    var n := if EndingOf(w, step, calls) in {RanOut, Finishes} then Stop(w, step, calls) else Stop(w, step, calls) + 1;
    ExtendedIsInOrder(w, step, calls, h, n);
    ExtendedExtends(w, step, calls, h, n);
    forall j | 0 <= j < n ensures IsRecordOf(w, step, calls[j], j, AsCall(w, step, j, calls[j])) {
      AsCallIsRecord(w, step, calls[j], j);
    }
  }

  ghost predicate IsRecordOf(w: World, step: nat, call: ToolCall, j: nat, entry: Call) {
    && entry.tool == call.name && entry.args == call.args
    && (entry.mutating <==> call.name in w.registry && w.registry[call.name])
    && (entry.ok <==> call.name in w.registry && w.tools(step, j).ok)
  }

  lemma AsCallIsRecord(w: World, step: nat, call: ToolCall, j: nat)
    ensures IsRecordOf(w, step, call, j, AsCall(w, step, j, call))
  {
  }

  ghost predicate Answers(w: World, step: nat, call: ToolCall, j: nat, message: Message) {
    && message.role == Tool
    && message.content
       == if call.name == "finish" then "finish accepted"
          else if call.name !in w.registry then "ERROR: " + ("Unknown tool: " + call.name)
          else if w.tools(step, j).ok then w.tools(step, j).output
          else "ERROR: " + w.tools(step, j).output
  }

  lemma {:induction false} MessagesAnswer(w: World, step: nat, calls: seq<ToolCall>, m: nat)
    requires m <= |calls|
    ensures forall j :: 0 <= j < m ==> Answers(w, step, calls[j], j, ToolMessages(w, step, calls, m)[j])
  {
    hide Answers, ToolMessage;
    if m > 0 {
      MessagesAnswer(w, step, calls, m - 1);
      MessageAnswers(w, step, calls[m - 1], m - 1);
    }
  }

  lemma MessageAnswers(w: World, step: nat, call: ToolCall, j: nat)
    ensures Answers(w, step, call, j, ToolMessage(w, step, j, call))
  {
    assert call.name !in w.registry ==> Outcome(w, step, j, call).output == "Unknown tool: " + call.name;
  }

  lemma {:induction false} ExtendedIsInOrder(w: World, step: nat, calls: seq<ToolCall>, h: seq<Call>, n: nat)
    requires n <= |calls|
    ensures Extended(w, step, calls, h, n)[..|h|] == h
    ensures forall j :: 0 <= j < n ==> Extended(w, step, calls, h, n)[|h| + j] == AsCall(w, step, j, calls[j])
  {
    if n > 0 {
      ExtendedIsInOrder(w, step, calls, h, n - 1);
    }
  }

  // ----- The conversation and the finish reason -----

  /** What the n-th step adds to the conversation. */
  function Turned(w: World, n: nat): seq<Message> {
    match w.llm(n)
    case Reply(content, calls, _, _) => [Message(Assistant, content)] + if calls == [] then [] else Said(w, n, calls)
    case _ => []
  }

  /** The conversation starts with the two prompts and grows by what the steps say; tripping a guard adds its guidance. */
  lemma ConversationIsWhatWasSaid(w: World, systemPrompt: string, userPrompt: string, n: nat)
    requires n >= 1
    ensures var start := Start(systemPrompt, userPrompt);
            var s, result := AtCall(w, start, n), Report(w, start, n);
            && (n == 1 ==> s.stored == [Message(System, systemPrompt), Message(User, userPrompt)] && s.history == [])
            && AtCall(w, start, n + 1).stored == s.stored + Turned(w, n)
            && AtCall(w, start, n + 1).history
               == (if w.llm(n).Reply? && w.llm(n).calls != [] then Recorded(w, n, w.llm(n).calls, s.history) else s.history)
            && s.stored + Turned(w, n) <= result.stored
            && (if result.reason == SafetyTripped
                then |result.stored| == |s.stored| + |Turned(w, n)| + 1 && result.stored[|result.stored| - 1].role == System
                else |result.stored| == |s.stored| + |Turned(w, n)|)
  {
    hide Prompt, PromptSummary, Said, Approval, EndingOf, Recorded, GuardTripped, ApprovalAsked, Guidance;
  }

  /** A tool has failed three times in a row, or has been used too often, or five edits have failed. */
  ghost predicate TooMuch(h: seq<Call>) {
    TrippedFor(h, 3).Some? || TooOften(h) || |FailedEdits(h)| >= 5
  }

  lemma GuardTrippedIffTooMuch(h: seq<Call>)
    ensures GuardTripped(h) <==> TooMuch(h)
  {
    hide TrippedFor, TooOften, RepeatedFor, EditFailures, FailedEdits;
    RepeatedIffTooOften(h);
    EditFailuresAreCounted(h);
  }

  /** Over all runs that call the model: every finish reason, exactly when it is given. */
  lemma ReasonIsSpelledOut(w: World, systemPrompt: string, userPrompt: string, maxSteps: int, n: nat)
    requires Makes(w, Start(systemPrompt, userPrompt), maxSteps, n) && n >= 1
    ensures var start, reply := Start(systemPrompt, userPrompt), w.llm(n);
            var reason := Report(w, start, n).reason;
            var finished := reply.Reply? && (reply.calls == [] || EndingOf(w, n, reply.calls).Finishes?);
            var failed := !reply.Reply? || (reply.calls != [] && EndingOf(w, n, reply.calls).Crashes?);
            var tooMuch := TooMuch(AfterStep(w, AtCall(w, start, n), n).history);
            var spent := InputUpTo(w, n) + OutputUpTo(w, n) > 500_000 || w.orgCapExceeded(n);
            && (reason == Finished <==> finished)
            && (reason == Error <==> failed)
            && (reason == SafetyTripped <==> !finished && !failed && tooMuch)
            && (reason == BudgetExceeded <==> !finished && !failed && !tooMuch && spent)
            && (reason == AwaitingApproval <==> !finished && !failed && !tooMuch && !spent && ApprovalAsked(w, n))
            && (reason == MaxSteps <==> !finished && !failed && !tooMuch && !spent && !ApprovalAsked(w, n))
            && (reason in {AwaitingApproval, MaxSteps} ==> n == maxSteps)
  {
    hide Prompt, PromptSummary, Said, Approval, EndingOf, Recorded, GuardTripped, ApprovalAsked, TooMuch, AtCall, FinalState;
    var start := Start(systemPrompt, userPrompt);
    StateTokens(w, systemPrompt, userPrompt, n);
    GuardTrippedIffTooMuch(AfterStep(w, AtCall(w, start, n), n).history);
  }

  lemma OneSuccessTripsNothing(call: Call)
    requires call.ok
    ensures !GuardTripped([call])
  {
    hide TrippedFor, RepeatedFor, EditFailures, Streak;
    assert [] + [call] == [call];
    assert TrippedFor([], 3).None? && RepeatedFor([]).None? && EditFailures([]) == 0 by {
      NothingIsWrongAtFirst();
    }
    TrippedStep([], 3, call);
    RepeatedStep([], call);
    EditFailuresStep([], call);
  }

  const MIGRATION := [ToolCall("run_command", "")]

  /** The model always runs one command, which succeeds and needs approval. */
  function Migrating(): World {
    World(_ => Reply("", MIGRATION, 0, 0), (_, _) => ToolResult(true, ""), (_, _) => Trips("approve"),
          _ => false, _ => "", map["run_command" := true])
  }

  lemma MigratingStep(step: nat)
    ensures EndingOf(Migrating(), step, MIGRATION) == AsksApproval("approve")
    ensures Recorded(Migrating(), step, MIGRATION, []) == [Call("run_command", "", true, true)]
  {
    assert Extended(Migrating(), step, MIGRATION, [], 0) == [];
  }

  lemma FirstStepPasses(w: World, start: State, calls: seq<ToolCall>)
    requires w.llm(1) == Reply("", calls, 0, 0) && calls != [] && !w.orgCapExceeded(1)
    requires EndingOf(w, 1, calls).AsksApproval? && !GuardTripped(Recorded(w, 1, calls, start.history))
    requires start.Tokens() == 0
    ensures Verdict(w, start, 1).None?
  {
    hide Prompt, PromptSummary, GuardTripped, Said, Approval, EndingOf, Recorded;
    assert AtCall(w, start, 1).history == start.history;
  }

  /** A run that asks for approval in its first step and calls the model again. */
  lemma ApprovalIsIgnored()
    ensures Makes(Migrating(), Start("", ""), 2, 2) && ApprovalAskedAt(Migrating(), 1)
  {
    hide Verdict, GuardTripped, EndingOf, Recorded;
    MigratingStep(1);
    OneSuccessTripsNothing(Call("run_command", "", true, true));
    FirstStepPasses(Migrating(), Start("", ""), MIGRATION);
  }
}
