/** How a history is compacted: which messages are archived, and how the
    summary that replaces them is written and read back, agent/compactor.go. */
module Compactor {
  import opened Text
  import opened Truncation
  import opened Messages

  const COMPACTION_TOOL_NAME := "summary"
  const COMPACTION_TOOL_CALL_ID := "ollama_compaction"
  const DEFAULT_KEEP_USER_TURNS := 3
  const SUMMARY_ONLY_CONTEXT_TOKENS := 16000
  const MAX_SUMMARY_RUNES := 16 * 1024

  function SummaryPrefix(): string {
    "Conversation summary:\n"
  }

  /** In parts, since the proofs look at both of its ends. */
  function ContinueInstruction(): string {
    "continue the task in progress. " + "the history has been compacted, " + "do not mention compaction to the user"
  }

  predicate IsCompactionSummary(m: Message) {
    && (m.role == User || m.role == System || (m.role == Tool && m.toolName == COMPACTION_TOOL_NAME))
    && HasPrefix(m.content, SummaryPrefix())
  }

  predicate IsCompactionToolCall(m: Message) {
    m.role == Assistant && exists call <- m.toolCalls :: call.name == COMPACTION_TOOL_NAME
  }

  predicate IsCompaction(m: Message) {
    IsCompactionSummary(m) || IsCompactionToolCall(m)
  }

  // Writing and reading a summary

  function SummaryContent(summary: string, continueTask: bool): string {
    var content := SummaryPrefix() + TrimSpace(summary);
    if continueTask then TrimSpace(content) + "\n\n" + ContinueInstruction() else content
  }

  function SummaryCall(): ToolCall {
    ToolCall(COMPACTION_TOOL_CALL_ID, COMPACTION_TOOL_NAME, "{}")
  }

  function SummaryMessages(summary: string, continueTask: bool): seq<Message> {
    [ Message(Assistant, "", "", [SummaryCall()], "", ""),
      ToolResultMessage(COMPACTION_TOOL_NAME, COMPACTION_TOOL_CALL_ID, SummaryContent(summary, continueTask)) ]
  }

  function SummaryText(content: string): string {
    TrimSpace(TrimSuffix(TrimSpace(TrimPrefix(content, SummaryPrefix())), ContinueInstruction()))
  }

  lemma {:induction false} InstructionIsTrimmed()
    ensures ContinueInstruction() != "" && Trimmed(ContinueInstruction())
  {
    var s := ContinueInstruction();
    assert s[0] == 'c';
    assert s[|s| - 1] == "do not mention compaction to the user"[36] == 'r';
  }

  /** The prefix survives in both forms, also when the summary is empty. */
  lemma {:induction false} SummaryContentShape(summary: string)
    ensures SummaryContent(summary, false) == SummaryPrefix() + TrimSpace(summary)
    ensures var s := TrimSpace(summary);
            SummaryContent(summary, true)
            == SummaryPrefix() + (if s == "" then "\n" else s + "\n\n") + ContinueInstruction()
    ensures forall continueTask :: HasPrefix(SummaryContent(summary, continueTask), SummaryPrefix())
  {
    hide ContinueInstruction;
    hide TrimSpace;
    var s := TrimSpace(summary);
    var title := "Conversation summary:";
    assert SummaryPrefix() == title + "\n";
    if s == "" {
      TrimSpaceOfPadded("", title, "\n");
      assert "" + title + "\n" == SummaryPrefix() == SummaryPrefix() + s;
    } else {
      TrimSpaceOfTrimmed(SummaryPrefix() + s);
    }
  }

  /** Reading back what was written for a task to be continued always gives
      the trimmed summary. */
  lemma {:induction false} SummaryTextOfContinued(summary: string)
    ensures SummaryText(SummaryContent(summary, true)) == TrimSpace(summary)
  {
    SummaryContentShape(summary);
    InstructionIsTrimmed();
    hide TrimSpace;
    hide ContinueInstruction;
    hide SummaryPrefix;
    hide SummaryContent;
    var s := TrimSpace(summary);
    var gap := if s == "" then "\n" else "\n\n";
    var body := s + gap + ContinueInstruction();
    assert SummaryContent(summary, true) == SummaryPrefix() + body;
    assert TrimPrefix(SummaryPrefix() + body, SummaryPrefix()) == body;
    ReadBack(s, ContinueInstruction());
  }

  lemma {:induction false} ReadBack(s: string, instruction: string)
    requires Trimmed(s) && Trimmed(instruction) && instruction != ""
    ensures var body := s + (if s == "" then "\n" else "\n\n") + instruction;
            TrimSpace(TrimSuffix(TrimSpace(body), instruction)) == s
  {
    hide TrimSpace;
    if s == "" {
      TrimSpaceOfPadded("\n", instruction, "");
      assert "\n" + instruction + "" == s + "\n" + instruction;
      assert TrimSuffix(instruction, instruction) == "";
      TrimSpaceOfTrimmed("");
    } else {
      var body := s + "\n\n" + instruction;
      TrimSpaceOfTrimmed(body);
      assert TrimSuffix(body, instruction) == s + "\n\n";
      TrimSpaceOfPadded("", s, "\n\n");
      assert "" + s + "\n\n" == s + "\n\n";
    }
  }

  /** Without the instruction the summary is read back exactly when it does not
      itself end in the words of the instruction. */
  lemma {:induction false} SummaryTextOfPlain(summary: string)
    ensures SummaryText(SummaryContent(summary, false)) == TrimSpace(summary)
            <==> !HasSuffix(TrimSpace(summary), ContinueInstruction())
  {
    var s := TrimSpace(summary);
    InstructionIsTrimmed();
    hide TrimSpace;
    var instruction := ContinueInstruction();
    hide ContinueInstruction;
    hide SummaryPrefix;
    assert TrimPrefix(SummaryContent(summary, false), SummaryPrefix()) == s;
    TrimSpaceOfTrimmed(s);
    assert |TrimSpace(TrimSuffix(s, instruction))| <= |TrimSuffix(s, instruction)|;
  }

  /** How many user turns a compaction keeps: none in a small context. */
  function KeepUserTurns(contextWindow: int, configured: int): (keep: nat)
    ensures 0 < contextWindow < SUMMARY_ONLY_CONTEXT_TOKENS ==> keep == 0
    ensures !(0 < contextWindow < SUMMARY_ONLY_CONTEXT_TOKENS) ==> keep > 0
  {
    if 0 < contextWindow < SUMMARY_ONLY_CONTEXT_TOKENS then 0
    else if configured > 0 then configured
    else DEFAULT_KEEP_USER_TURNS
  }

  function TruncateSummary(summary: string): string {
    Truncate(summary, TruncateConfig(MAX_SUMMARY_RUNES, false, 0, "summary", "", ""))
  }

  // Splitting a history

  predicate LeadingSystem(m: Message) {
    m.role == System && !IsCompactionSummary(m)
  }

  /** The messages that are not part of an earlier compaction, in order. */
  function WithoutCompactions(ms: seq<Message>): seq<Message> {
    if ms == [] then []
    else (if IsCompaction(ms[0]) then [] else [ms[0]]) + WithoutCompactions(ms[1..])
  }

  /** The text of the last summary in ms, or earlier when there is none. */
  function LatestSummary(earlier: string, ms: seq<Message>): string
    decreases |ms|
  {
    if ms == [] then earlier
    else LatestSummary(if IsCompactionSummary(ms[0]) then SummaryText(ms[0].content) else earlier, ms[1..])
  }

  function UserTurns(ms: seq<Message>): nat {
    if ms == [] then 0 else (if ms[0].role == User then 1 else 0) + UserTurns(ms[1..])
  }

  datatype Split = Split(
    prefix: seq<Message>,
    previousSummary: string,
    archive: seq<Message>,
    suffix: seq<Message>,
    keptUserTurns: int,
    ok: bool)

  /** What a request to keep so many user turns comes to. */
  function KeptTurns(requested: int, users: nat): (kept: nat)
    ensures users > 0 ==> kept < users
  {
    Min(if requested < 0 then DEFAULT_KEEP_USER_TURNS else requested, Max(0, users - 1))
  }

  /** A split of a history, told by what it promises. */
  predicate IsSplit(messages: seq<Message>, keepUserTurns: int, s: Split) {
    var n := |s.prefix|;
    && n <= |messages| && s.prefix == messages[..n]
    && (forall m <- s.prefix :: LeadingSystem(m))
    && (n < |messages| ==> !LeadingSystem(messages[n]))
    && s.previousSummary == LatestSummary("", messages[n..])
    && var candidates := WithoutCompactions(messages[n..]);
    && s.keptUserTurns == KeptTurns(keepUserTurns, UserTurns(candidates))
    && (s.ok <==> candidates != [])
    && (!s.ok ==> s.archive == [] && s.suffix == [])
    && (s.ok ==>
          && s.archive + s.suffix == candidates
          && s.archive != []
          && (s.suffix == [] || s.suffix[0].role == User)
          && UserTurns(s.suffix) == s.keptUserTurns)
  }

  lemma {:induction false} WithoutCompactionsOfConcat(a: seq<Message>, b: seq<Message>)
    ensures WithoutCompactions(a + b) == WithoutCompactions(a) + WithoutCompactions(b)
  {
    if a == [] {
      assert a + b == b;
    } else {
      assert (a + b)[1..] == a[1..] + b;
      WithoutCompactionsOfConcat(a[1..], b);
    }
  }

  lemma {:induction false} WithoutCompactionsOfClean(ms: seq<Message>)
    requires forall m <- ms :: !IsCompaction(m)
    ensures WithoutCompactions(ms) == ms
  {
    if ms != [] {
      WithoutCompactionsOfClean(ms[1..]);
    }
  }

  lemma {:induction false} WithoutCompactionsIsClean(ms: seq<Message>)
    ensures forall m <- WithoutCompactions(ms) :: m in ms && !IsCompaction(m)
  {
    if ms != [] {
      WithoutCompactionsIsClean(ms[1..]);
    }
  }

  lemma {:induction false} UserTurnsOfConcat(a: seq<Message>, b: seq<Message>)
    ensures UserTurns(a + b) == UserTurns(a) + UserTurns(b)
  {
    if a == [] {
      assert a + b == b;
    } else {
      assert (a + b)[1..] == a[1..] + b;
      UserTurnsOfConcat(a[1..], b);
    }
  }

  lemma {:induction false} LatestSummaryOfClean(earlier: string, ms: seq<Message>)
    requires forall m <- ms :: !IsCompactionSummary(m)
    ensures LatestSummary(earlier, ms) == earlier
  {
    if ms != [] {
      LatestSummaryOfClean(earlier, ms[1..]);
    }
  }

  lemma {:induction false} LatestSummaryOfConcat(earlier: string, a: seq<Message>, b: seq<Message>)
    ensures LatestSummary(earlier, a + b) == LatestSummary(LatestSummary(earlier, a), b)
    decreases |a|
  {
    hide IsCompactionSummary;
    hide SummaryText;
    if a == [] {
      assert a + b == b;
    } else {
      assert (a + b)[1..] == a[1..] + b;
      LatestSummaryOfConcat(if IsCompactionSummary(a[0]) then SummaryText(a[0].content) else earlier, a[1..], b);
    }
  }

  /** A successful split loses, repeats and reorders nothing but the messages of
      earlier compactions. */
  lemma {:induction false} SplitConserves(messages: seq<Message>, keepUserTurns: int, s: Split)
    requires IsSplit(messages, keepUserTurns, s) && s.ok
    ensures s.prefix + s.archive + s.suffix == WithoutCompactions(messages)
  {
    var n := |s.prefix|;
    assert messages == messages[..n] + messages[n..];
    WithoutCompactionsOfConcat(messages[..n], messages[n..]);
    WithoutCompactionsOfClean(s.prefix);
    assert s.prefix + s.archive + s.suffix == s.prefix + (s.archive + s.suffix);
  }

  /** Whenever the conversation has a user turn, at least one is archived. */
  lemma {:induction false} SplitArchivesAUserTurn(messages: seq<Message>, keepUserTurns: int, s: Split)
    requires IsSplit(messages, keepUserTurns, s) && s.ok
    requires UserTurns(WithoutCompactions(messages)) > 0
    ensures UserTurns(s.archive) >= 1
    ensures UserTurns(s.archive) + UserTurns(s.suffix) == UserTurns(WithoutCompactions(messages))
  {
    hide IsCompactionSummary;
    hide LatestSummary;
    hide WithoutCompactions;
    hide UserTurns;
    SplitConserves(messages, keepUserTurns, s);
    assert s.prefix + s.archive + s.suffix == s.prefix + (s.archive + s.suffix);
    UserTurnsOfConcat(s.prefix, s.archive + s.suffix);
    UserTurnsOfConcat(s.archive, s.suffix);
    NoUserTurnsInPrefix(s.prefix);
  }

  lemma {:induction false} NoUserTurnsInPrefix(prefix: seq<Message>)
    requires forall m <- prefix :: LeadingSystem(m)
    ensures UserTurns(prefix) == 0
  {
    hide IsCompactionSummary;
    if prefix != [] {
      assert prefix[0] in prefix;
      NoUserTurnsInPrefix(prefix[1..]);
    }
  }

  /** A history has only one split for each request. */
  lemma {:induction false} SplitIsUnique(messages: seq<Message>, keepUserTurns: int, s: Split, t: Split)
    requires IsSplit(messages, keepUserTurns, s) && IsSplit(messages, keepUserTurns, t)
    ensures s == t
  {
    hide IsCompactionSummary;
    PrefixLength(messages, keepUserTurns, s, |t.prefix|);
    if s.ok {
      if |s.suffix| <= |t.suffix| {
        SuffixIsUnique(s.archive, s.suffix, t.archive, t.suffix);
      } else {
        SuffixIsUnique(t.archive, t.suffix, s.archive, s.suffix);
      }
    }
  }

  lemma {:induction false} PrefixLength(messages: seq<Message>, keepUserTurns: int, s: Split, n: nat)
    requires IsSplit(messages, keepUserTurns, s)
    requires n <= |messages| && forall m <- messages[..n] :: LeadingSystem(m)
    requires n < |messages| ==> !LeadingSystem(messages[n])
    ensures |s.prefix| == n
  {
    hide LeadingSystem;
    hide LatestSummary;
    hide WithoutCompactions;
    assert forall i | 0 <= i < n :: messages[i] in messages[..n];
    assert forall i | 0 <= i < |s.prefix| :: messages[i] in s.prefix;
  }

  lemma {:induction false} SuffixIsUnique(a: seq<Message>, b: seq<Message>, c: seq<Message>, d: seq<Message>)
    requires a + b == c + d && |b| <= |d| && UserTurns(b) == UserTurns(d)
    requires d == [] || d[0].role == User
    ensures a == c && b == d
  {
    var k := |d| - |b|;
    assert b == (a + b)[|a|..] == (c + d)[|a|..] == d[k..];
    assert d == d[..k] + d[k..];
    UserTurnsOfConcat(d[..k], d[k..]);
    assert k == 0;
    assert a == (a + b)[..|a|] == (c + d)[..|c|] == c;
  }

  /** What a compaction leaves of a history. */
  function CompactedHistory(s: Split, summary: string, continueTask: bool): seq<Message> {
    s.prefix + SummaryMessages(summary, continueTask) + s.suffix
  }

  /** Splitting a freshly compacted history gives back its parts: the same
      system prefix, the summary, and the kept turns as what can be archived. */
  lemma {:induction false} SplitOfCompacted(
    messages: seq<Message>, keep: int, s: Split, summary: string, continueTask: bool, keepAgain: int, t: Split)
    requires IsSplit(messages, keep, s) && s.ok
    requires IsSplit(CompactedHistory(s, summary, continueTask), keepAgain, t)
    ensures t.prefix == s.prefix
    ensures t.archive + t.suffix == s.suffix
    ensures t.previousSummary == TrimSpace(summary)
            <==> continueTask || !HasSuffix(TrimSpace(summary), ContinueInstruction())
  {
    hide TrimSpace;
    hide ContinueInstruction;
    hide SummaryContent;
    hide SummaryText;
    var compacted := CompactedHistory(s, summary, continueTask);
    var pair := SummaryMessages(summary, continueTask);
    var n := |s.prefix|;
    assert compacted[n..] == pair + s.suffix;
    assert compacted[n] == pair[0];
    assert compacted[..n] == s.prefix;
    PrefixLength(compacted, keepAgain, t, n);
    SummaryContentShape(summary);
    PairIsCompaction(summary, continueTask);
    SuffixIsClean(messages, keep, s);
    WithoutCompactionsOfConcat(pair, s.suffix);
    WithoutCompactionsOfClean(s.suffix);
    LatestSummaryOfClean(SummaryText(SummaryContent(summary, continueTask)), s.suffix);
    LatestSummaryOfConcat("", pair, s.suffix);
    if continueTask {
      SummaryTextOfContinued(summary);
    } else {
      SummaryTextOfPlain(summary);
    }
  }

  lemma {:induction false} PairIsCompaction(summary: string, continueTask: bool)
    ensures var pair := SummaryMessages(summary, continueTask);
            && IsCompactionToolCall(pair[0]) && IsCompactionSummary(pair[1])
            && WithoutCompactions(pair) == []
            && LatestSummary("", pair) == SummaryText(SummaryContent(summary, continueTask))
  {
    hide SummaryContent;
    SummaryContentShape(summary);
    var pair := SummaryMessages(summary, continueTask);
    assert SummaryCall() in pair[0].toolCalls;
    assert HasPrefix(pair[1].content, SummaryPrefix());
    assert IsCompaction(pair[0]) && IsCompaction(pair[1]);
    assert !IsCompactionSummary(pair[0]);
    hide IsCompaction;
    hide IsCompactionSummary;
    hide SummaryText;
    assert pair[1..] == [pair[1]];
    assert WithoutCompactions([pair[1]]) == [];
    assert LatestSummary("", pair) == LatestSummary("", [pair[1]]);
  }

  lemma {:induction false} SuffixIsClean(messages: seq<Message>, keep: int, s: Split)
    requires IsSplit(messages, keep, s) && s.ok
    ensures forall m <- s.archive + s.suffix :: !IsCompaction(m)
    ensures forall m <- s.suffix :: !IsCompaction(m)
  {
    WithoutCompactionsIsClean(messages[|s.prefix|..]);
    forall m | m in s.suffix ensures !IsCompaction(m) {
      assert m in s.archive + s.suffix;
    }
  }

  lemma {:induction false} PassOver(earlier: string, ms: seq<Message>, i: nat)
    requires i < |ms|
    ensures WithoutCompactions(ms[i..]) == (if IsCompaction(ms[i]) then [] else [ms[i]]) + WithoutCompactions(ms[i + 1..])
    ensures LatestSummary(earlier, ms[i..])
            == LatestSummary(if IsCompactionSummary(ms[i]) then SummaryText(ms[i].content) else earlier, ms[i + 1..])
    ensures IsCompactionToolCall(ms[i]) ==> !IsCompactionSummary(ms[i])
  {
    hide SummaryText;
    hide HasPrefix;
    assert ms[i..][1..] == ms[i + 1..];
  }

  /** The pass over a history that drops earlier compactions: a compaction call
      is skipped together with the summary right after it. */
  method CollectCandidates(messages: seq<Message>, start: nat)
    returns (candidates: seq<Message>, previousSummary: string)
    requires start <= |messages|
    ensures candidates == WithoutCompactions(messages[start..])
    ensures previousSummary == LatestSummary("", messages[start..])
  {
    hide SummaryText;
    hide IsCompactionSummary;
    hide IsCompactionToolCall;
    hide WithoutCompactions;
    hide LatestSummary;
    candidates, previousSummary := [], "";
    var i := start;
    assert [] + WithoutCompactions(messages[i..]) == WithoutCompactions(messages[i..]);
    while i < |messages|
      invariant start <= i <= |messages|
      invariant candidates + WithoutCompactions(messages[i..]) == WithoutCompactions(messages[start..])
      invariant LatestSummary(previousSummary, messages[i..]) == LatestSummary("", messages[start..])
    {
      var msg := messages[i];
      PassOver(previousSummary, messages, i);
      if IsCompactionSummary(msg) {
        previousSummary := SummaryText(msg.content);
      } else if IsCompactionToolCall(msg) {
        if i + 1 < |messages| && IsCompactionSummary(messages[i + 1]) {
          PassOver(previousSummary, messages, i + 1);
          previousSummary := SummaryText(messages[i + 1].content);
          i := i + 1;
        }
      } else {
        candidates := candidates + [msg];
      }
      i := i + 1;
    }
    assert WithoutCompactions([]) == [] && LatestSummary(previousSummary, []) == previousSummary by {
      EmptyPass(previousSummary);
    }
    assert messages[|messages|..] == [];
  }

  lemma {:induction false} EmptyPass(earlier: string)
    ensures WithoutCompactions([]) == [] && LatestSummary(earlier, []) == earlier
  {
  }

  /** The positions of the user turns, the last one first. */
  method UserTurnIndexes(candidates: seq<Message>) returns (indexes: seq<nat>)
    ensures |indexes| == UserTurns(candidates)
    ensures forall k | 0 <= k < |indexes| ::
              && indexes[k] < |candidates| && candidates[indexes[k]].role == User
              && UserTurns(candidates[indexes[k]..]) == k + 1
  {
    indexes := [];
    var i := |candidates|;
    while i > 0
      invariant 0 <= i <= |candidates|
      invariant |indexes| == UserTurns(candidates[i..])
      invariant forall k | 0 <= k < |indexes| ::
                  && indexes[k] < |candidates| && candidates[indexes[k]].role == User
                  && UserTurns(candidates[indexes[k]..]) == k + 1
    {
      i := i - 1;
      assert candidates[i..][1..] == candidates[i + 1..];
      if candidates[i].role == User {
        indexes := indexes + [i];
      }
    }
    assert candidates[0..] == candidates;
  }

  method SplitCompactionMessages(messages: seq<Message>, keepUserTurns: int) returns (s: Split)
    ensures IsSplit(messages, keepUserTurns, s)
  {
    hide IsCompactionSummary;
    hide LatestSummary;
    hide WithoutCompactions;
    var prefix: seq<Message>, start := [], 0;
    while start < |messages| && LeadingSystem(messages[start])
      invariant 0 <= start <= |messages|
      invariant prefix == messages[..start]
      invariant forall m <- prefix :: LeadingSystem(m)
    {
      prefix := prefix + [messages[start]];
      start := start + 1;
    }

    var candidates, previousSummary := CollectCandidates(messages, start);
    var indexes := UserTurnIndexes(candidates);
    var kept := if keepUserTurns < 0 then DEFAULT_KEEP_USER_TURNS else keepUserTurns;
    if |indexes| <= kept {
      kept := |indexes| - 1;
    }
    if kept < 0 {
      kept := 0;
    }

    var suffixStart := |candidates|;
    if kept > 0 {
      suffixStart := indexes[kept - 1];
      ArchiveIsNotEmpty(candidates, suffixStart);
    }
    assert candidates == candidates[..suffixStart] + candidates[suffixStart..];
    if suffixStart <= 0 || |candidates[..suffixStart]| == 0 {
      return Split(prefix, previousSummary, [], [], kept, false);
    }
    return Split(prefix, previousSummary, candidates[..suffixStart], candidates[suffixStart..], kept, true);
  }

  lemma {:induction false} ArchiveIsNotEmpty(candidates: seq<Message>, k: nat)
    requires k < |candidates| && UserTurns(candidates[k..]) < UserTurns(candidates)
    ensures k > 0
  {
    assert candidates[0..] == candidates;
  }

  ghost predicate CompactedBy(messages: seq<Message>, keep: int, kept: seq<Message>, s: Split, summary: string) {
    IsSplit(messages, keep, s) && s.ok && kept == CompactedHistory(s, summary, true)
  }

  /** A history in which an archive has given way to some summary. */
  ghost predicate IsCompacted(messages: seq<Message>, keep: int, kept: seq<Message>) {
    exists s, summary :: CompactedBy(messages, keep, kept, s, summary)
  }
}
