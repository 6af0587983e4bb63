/** The sliding window over the conversation: what trimming and summarising keep. */
module Memory {

  datatype Role = System | User | Assistant | Tool
  datatype Message = Message(role: Role, content: string)

  function SystemOnly(messages: seq<Message>): seq<Message> {
    if messages == [] then []
    else
      var front, last := SystemOnly(messages[..|messages| - 1]), messages[|messages| - 1];
      if last.role.System? then front + [last] else front
  }

  function NonSystem(messages: seq<Message>): seq<Message> {
    if messages == [] then []
    else
      var front, last := NonSystem(messages[..|messages| - 1]), messages[|messages| - 1];
      if last.role.System? then front else front + [last]
  }

  /** `s[-n:]`, which is the whole list for n = 0. */
  function LastN<T>(s: seq<T>, n: nat): seq<T> {
    if n == 0 || |s| <= n then s else s[|s| - n..]
  }

  function Trim(messages: seq<Message>, maxMessages: nat): seq<Message> {
    if |messages| <= maxMessages then messages
    else SystemOnly(messages) + LastN(NonSystem(messages), maxMessages)
  }

  /** `summarise` stands for the text that the rule-based summary makes of the dropped messages. */
  function MaybeSummarize(messages: seq<Message>, threshold: nat, summarise: seq<Message> -> string): seq<Message> {
    if |messages| <= threshold then messages
    else
      var nonSystem := NonSystem(messages);
      var cut := if threshold / 2 <= |nonSystem| then threshold / 2 else |nonSystem|;
      SystemOnly(messages) + [Message(System, summarise(nonSystem[..cut]))] + nonSystem[cut..]
  }

  /** The system message that summarising adds, if it does. */
  function AddedSummary(messages: seq<Message>, threshold: nat, summarise: seq<Message> -> string): seq<Message> {
    if |messages| <= threshold then []
    else
      var nonSystem := NonSystem(messages);
      [Message(System, summarise(nonSystem[..if threshold / 2 <= |nonSystem| then threshold / 2 else |nonSystem|]))]
  }

  ghost predicate IsSuffix<T>(a: seq<T>, b: seq<T>) {
    |a| <= |b| && a == b[|b| - |a|..]
  }

  lemma {:induction false} FiltersDistribute(a: seq<Message>, b: seq<Message>)
    ensures SystemOnly(a + b) == SystemOnly(a) + SystemOnly(b)
    ensures NonSystem(a + b) == NonSystem(a) + NonSystem(b)
  {
    if b == [] {
      assert a + b == a;
    } else {
      var n := |b| - 1;
      assert (a + b)[..|a + b| - 1] == a + b[..n];
      FiltersDistribute(a, b[..n]);
    }
  }

  lemma {:induction false} FiltersOfSystem(messages: seq<Message>)
    requires forall m :: m in messages ==> m.role.System?
    ensures SystemOnly(messages) == messages && NonSystem(messages) == []
  {
    if messages != [] {
      var front, last := messages[..|messages| - 1], messages[|messages| - 1];
      assert messages == front + [last];
      FiltersOfSystem(front);
    }
  }

  lemma {:induction false} FiltersOfNonSystem(messages: seq<Message>)
    requires forall m :: m in messages ==> !m.role.System?
    ensures SystemOnly(messages) == [] && NonSystem(messages) == messages
  {
    if messages != [] {
      var front, last := messages[..|messages| - 1], messages[|messages| - 1];
      assert messages == front + [last];
      FiltersOfNonSystem(front);
    }
  }

  lemma {:induction false} FilteredRoles(messages: seq<Message>)
    ensures forall m :: m in SystemOnly(messages) ==> m.role.System?
    ensures forall m :: m in NonSystem(messages) ==> !m.role.System?
    ensures |NonSystem(messages)| + |SystemOnly(messages)| == |messages|
  {
    if messages != [] {
      FilteredRoles(messages[..|messages| - 1]);
    }
  }

  /** System messages first, then others: filtering gives both parts back. */
  lemma FiltersOfSplit(system: seq<Message>, others: seq<Message>)
    requires forall m :: m in system ==> m.role.System?
    requires forall m :: m in others ==> !m.role.System?
    ensures SystemOnly(system + others) == system && NonSystem(system + others) == others
  {
    FiltersDistribute(system, others);
    FiltersOfSystem(system);
    FiltersOfNonSystem(others);
  }

  /** Trimming a list that is too long keeps the latest others, as many as the maximum allows; a maximum of 0 keeps all. */
  lemma TrimKeeps(messages: seq<Message>, maxMessages: nat)
    ensures SystemOnly(Trim(messages, maxMessages)) == SystemOnly(messages)
    ensures IsSuffix(NonSystem(Trim(messages, maxMessages)), NonSystem(messages))
    ensures |NonSystem(Trim(messages, maxMessages))|
            == if 0 < maxMessages < |NonSystem(messages)| then maxMessages else |NonSystem(messages)|
    ensures Trim(messages, maxMessages)
            == if |messages| <= maxMessages then messages
               else SystemOnly(messages) + NonSystem(Trim(messages, maxMessages))
  {
    FilteredRoles(messages);
    if |messages| > maxMessages {
      FiltersOfSplit(SystemOnly(messages), LastN(NonSystem(messages), maxMessages));
    }
  }

  lemma SummaryKeeps(messages: seq<Message>, threshold: nat, summarise: seq<Message> -> string)
    ensures SystemOnly(MaybeSummarize(messages, threshold, summarise))
            == SystemOnly(messages) + AddedSummary(messages, threshold, summarise)
    ensures IsSuffix(NonSystem(MaybeSummarize(messages, threshold, summarise)), NonSystem(messages))
    ensures |NonSystem(MaybeSummarize(messages, threshold, summarise))|
            == if |messages| <= threshold then |NonSystem(messages)|
               else if |NonSystem(messages)| <= threshold / 2 then 0
               else |NonSystem(messages)| - threshold / 2
    ensures var others, kept := NonSystem(messages), |NonSystem(MaybeSummarize(messages, threshold, summarise))|;
            && kept <= |others|
            && AddedSummary(messages, threshold, summarise)
               == if |messages| <= threshold then [] else [Message(System, summarise(others[..|others| - kept]))]
    ensures MaybeSummarize(messages, threshold, summarise)
            == if |messages| <= threshold then messages
               else SystemOnly(MaybeSummarize(messages, threshold, summarise)) + NonSystem(MaybeSummarize(messages, threshold, summarise))
  {
    FilteredRoles(messages);
    if |messages| > threshold {
      var nonSystem := NonSystem(messages);
      var cut := if threshold / 2 <= |nonSystem| then threshold / 2 else |nonSystem|;
      FiltersOfSplit(SystemOnly(messages) + AddedSummary(messages, threshold, summarise), nonSystem[cut..]);
    } else {
      assert SystemOnly(messages) + [] == SystemOnly(messages);
    }
  }

  const WINDOW: nat := 30
  const SUMMARY_THRESHOLD: nat := 50

  /** What the loop sends: trimmed to the window, then summarised if still too long. */
  function Prompt(messages: seq<Message>, summarise: seq<Message> -> string): seq<Message> {
    MaybeSummarize(Trim(messages, WINDOW), SUMMARY_THRESHOLD, summarise)
  }

  function PromptSummary(messages: seq<Message>, summarise: seq<Message> -> string): seq<Message> {
    AddedSummary(Trim(messages, WINDOW), SUMMARY_THRESHOLD, summarise)
  }

  /** The messages in memory: the latest part of everything said, and every system message there ever was. */
  ghost predicate Remembers(messages: seq<Message>, everySystem: seq<Message>, everyOther: seq<Message>) {
    SystemOnly(messages) == everySystem && IsSuffix(NonSystem(messages), everyOther)
  }

  lemma SuffixTransitive<T>(a: seq<T>, b: seq<T>, c: seq<T>)
    requires IsSuffix(a, b) && IsSuffix(b, c)
    ensures IsSuffix(a, c)
  {
  }

  lemma SuffixPlus<T>(a: seq<T>, b: seq<T>, more: seq<T>)
    requires IsSuffix(a, b)
    ensures IsSuffix(a + more, b + more)
  {
  }

  lemma LatestOfLatest<T>(kept: seq<T>, latest: seq<T>, all: seq<T>)
    requires IsSuffix(kept, latest) && IsSuffix(latest, all)
    ensures IsSuffix(kept, all)
    ensures latest[..|latest| - |kept|] == all[|all| - |latest|..|all| - |kept|]
  {
  }

  /**
   * Preparing a prompt keeps every system message, in order, and of the others exactly the last 30, or
   * all if there are fewer. If that is more than 50 messages with the system ones, the oldest 25 of these
   * others are replaced by one system message with their summary.
   */
  lemma PromptKeeps(messages: seq<Message>, summarise: seq<Message> -> string)
    ensures var system, others := SystemOnly(messages), NonSystem(messages);
            var kept, latest := NonSystem(Prompt(messages, summarise)), if |others| < 30 then |others| else 30;
            && SystemOnly(Prompt(messages, summarise)) == system + PromptSummary(messages, summarise)
            && IsSuffix(kept, others)
            && |kept| == (if |system| + latest <= 50 then latest else if latest <= 25 then 0 else latest - 25)
            && PromptSummary(messages, summarise)
               == if |system| + latest <= 50 then []
                  else [Message(System, summarise(others[|others| - latest..|others| - |kept|]))]
    ensures Prompt(messages, summarise)
            == if |messages| <= 30 then messages
               else SystemOnly(Prompt(messages, summarise)) + NonSystem(Prompt(messages, summarise))
  {
    hide SystemOnly, NonSystem, Trim, MaybeSummarize, AddedSummary, IsSuffix;
    var trimmed := Trim(messages, WINDOW);
    TrimKeeps(messages, WINDOW);
    SummaryKeeps(trimmed, SUMMARY_THRESHOLD, summarise);
    FilteredRoles(messages);
    FilteredRoles(trimmed);
    LatestOfLatest(NonSystem(Prompt(messages, summarise)), NonSystem(trimmed), NonSystem(messages));
  }

  /** Likewise for a memory that has lost some of the others, but no system message. */
  lemma PromptRemembers(messages: seq<Message>, everySystem: seq<Message>, everyOther: seq<Message>, summarise: seq<Message> -> string)
    requires Remembers(messages, everySystem, everyOther)
    ensures Remembers(Prompt(messages, summarise), everySystem + PromptSummary(messages, summarise), everyOther)
    ensures var others := |NonSystem(messages)|;
            var latest := if others < 30 then others else 30;
            |NonSystem(Prompt(messages, summarise))|
            == if |everySystem| + latest <= 50 then latest else if latest <= 25 then 0 else latest - 25
  {
    hide SystemOnly, NonSystem, Prompt, PromptSummary, IsSuffix;
    PromptKeeps(messages, summarise);
    SuffixTransitive(NonSystem(Prompt(messages, summarise)), NonSystem(messages), everyOther);
  }
}
