/** Every tool call in a history is answered, and every tool result answers a
    call: the contract that model requests rely on, and that compaction keeps. */
module Pairing {
  import opened Text
  import opened Truncation
  import opened Messages
  import opened ToolBudget
  import opened Compactor

  /** m is the result of a call. The results of a compaction call, and no
      others, are compaction summaries. */
  predicate Answers(call: ToolCall, m: Message, compaction: bool) {
    && m.role == Tool && m.toolCalls == [] && m.toolCallID == call.id
    && (IsCompactionSummary(m) <==> compaction)
  }

  predicate AnswersAll(calls: seq<ToolCall>, ms: seq<Message>, compaction: bool) {
    && |ms| == |calls|
    && forall i | 0 <= i < |calls| :: Answers(calls[i], ms[i], compaction)
  }

  /** A message with calls c1..cn comes from the assistant and is followed at
      once by n tool results with those IDs in order; there are no other tool
      results. */
  predicate Paired(ms: seq<Message>)
    decreases |ms|
  {
    if ms == [] then true
    else if ms[0].toolCalls == [] then ms[0].role != Tool && Paired(ms[1..])
    else
      var n := |ms[0].toolCalls|;
      && ms[0].role == Assistant
      && n < |ms|
      && AnswersAll(ms[0].toolCalls, ms[1..n + 1], IsCompactionToolCall(ms[0]))
      && Paired(ms[n + 1..])
  }

  lemma {:induction false} BatchFollows(ms: seq<Message>)
    requires Paired(ms) && ms != []
    ensures forall i | 1 <= i <= |ms[0].toolCalls| ::
              && i < |ms|
              && Answers(ms[0].toolCalls[i - 1], ms[i], IsCompactionToolCall(ms[0]))
  {
    hide Answers;
    hide IsCompactionToolCall;
    if ms[0].toolCalls != [] {
      var results := ms[1..|ms[0].toolCalls| + 1];
      assert forall i | 1 <= i <= |ms[0].toolCalls| :: results[i - 1] == ms[i];
    }
  }

  /** The same, message by message: calls are answered right after. */
  lemma {:induction false} PairedMeansAnswered(ms: seq<Message>, i: nat)
    requires Paired(ms) && i < |ms| && ms[i].toolCalls != []
    ensures ms[i].role == Assistant
    ensures i + |ms[i].toolCalls| < |ms|
    ensures AnswersAll(ms[i].toolCalls, ms[i + 1..i + 1 + |ms[i].toolCalls|], IsCompactionToolCall(ms[i]))
    decreases |ms|
  {
    hide IsCompactionToolCall;
    hide IsCompactionSummary;
    var n := |ms[0].toolCalls|;
    BatchFollows(ms);
    if i > 0 {
      hide AnswersAll;
      var k := i - n - 1;
      var rest := ms[n + 1..];
      assert rest[k] == ms[i];
      PairedMeansAnswered(rest, k);
      assert rest[k + 1..k + 1 + |ms[i].toolCalls|] == ms[i + 1..i + 1 + |ms[i].toolCalls|];
    }
  }

  /** And a tool result stands where a call put it. */
  lemma {:induction false} PairedMeansCalled(ms: seq<Message>, i: nat) returns (j: nat)
    requires Paired(ms) && i < |ms| && ms[i].role == Tool
    ensures j < i && i - j <= |ms[j].toolCalls| && ms[j].toolCalls[i - j - 1].id == ms[i].toolCallID
    decreases |ms|
  {
    hide IsCompactionToolCall;
    hide IsCompactionSummary;
    hide AnswersAll;
    var n := |ms[0].toolCalls|;
    BatchFollows(ms);
    if i <= n {
      j := 0;
    } else {
      hide Answers;
      var rest := ms[n + 1..];
      assert rest[i - n - 1] == ms[i];
      var k := PairedMeansCalled(rest, i - n - 1);
      j := k + n + 1;
    }
  }

  lemma {:induction false} PairedConcat(a: seq<Message>, b: seq<Message>)
    requires Paired(a) && Paired(b)
    ensures Paired(a + b)
    decreases |a|
  {
    hide AnswersAll;
    hide IsCompactionToolCall;
    if a == [] {
      assert a + b == b;
    } else {
      var n := |a[0].toolCalls|;
      assert (a + b)[n + 1..] == a[n + 1..] + b;
      assert (a + b)[1..n + 1] == a[1..n + 1];
      PairedConcat(a[n + 1..], b);
    }
  }

  /** A call message together with its results. */
  lemma {:induction false} PairedBatch(m: Message, results: seq<Message>)
    requires m.role == Assistant && m.toolCalls != []
    requires AnswersAll(m.toolCalls, results, IsCompactionToolCall(m))
    ensures Paired([m] + results)
  {
    hide Answers;
    var ms := [m] + results;
    assert ms[1..|m.toolCalls| + 1] == results;
    assert ms[|m.toolCalls| + 1..] == [];
  }

  lemma {:induction false} PairedAppend(ms: seq<Message>, m: Message)
    requires Paired(ms) && m.toolCalls == [] && m.role != Tool
    ensures Paired(ms + [m])
  {
    assert Paired([]);
    assert [m][1..] == [];
    PairedConcat(ms, [m]);
  }

  // Compaction keeps a history paired

  lemma {:induction false} WithoutCompactionsOfDirty(ms: seq<Message>)
    requires forall m <- ms :: IsCompaction(m)
    ensures WithoutCompactions(ms) == []
  {
    hide IsCompaction;
    if ms != [] {
      assert ms[0] in ms;
      WithoutCompactionsOfDirty(ms[1..]);
    }
  }

  /** A paired batch is kept or dropped as a whole. */
  lemma {:induction false} BatchStaysWhole(m: Message, results: seq<Message>)
    requires m.role == Assistant
    requires AnswersAll(m.toolCalls, results, IsCompactionToolCall(m))
    ensures WithoutCompactions([m] + results) == if IsCompactionToolCall(m) then [] else [m] + results
  {
    hide HasPrefix;
    var ms := [m] + results;
    assert !IsCompactionSummary(m);
    forall x | x in ms ensures IsCompaction(x) <==> IsCompactionToolCall(m) {
      if x != m {
        var i :| 0 <= i < |results| && results[i] == x;
        assert Answers(m.toolCalls[i], results[i], IsCompactionToolCall(m));
      }
    }
    if IsCompactionToolCall(m) {
      WithoutCompactionsOfDirty(ms);
    } else {
      WithoutCompactionsOfClean(ms);
    }
  }

  lemma {:induction false} PairedWithoutCompactions(ms: seq<Message>)
    requires Paired(ms)
    ensures Paired(WithoutCompactions(ms))
    decreases |ms|
  {
    hide IsCompactionSummary;
    hide IsCompactionToolCall;
    hide AnswersAll;
    if ms != [] {
      var n := |ms[0].toolCalls|;
      var first, rest := ms[..n + 1], ms[n + 1..];
      PairedWithoutCompactions(rest);
      assert ms == first + rest;
      WithoutCompactionsOfConcat(first, rest);
      PairedFirst(ms);
      hide Paired;
      hide WithoutCompactions;
      PairedConcat(WithoutCompactions(first), WithoutCompactions(rest));
    }
  }

  /** The first message of a history, together with its results if it has calls,
      comes out of compaction paired. */
  lemma {:induction false} PairedFirst(ms: seq<Message>)
    requires Paired(ms) && ms != []
    ensures |ms[0].toolCalls| < |ms|
    ensures Paired(WithoutCompactions(ms[..|ms[0].toolCalls| + 1]))
  {
    hide IsCompactionSummary;
    var n := |ms[0].toolCalls|;
    var first := ms[..n + 1];
    assert first == [ms[0]] + ms[1..n + 1];
    if n == 0 {
      hide IsCompaction;
      assert first[1..] == [];
      assert WithoutCompactions(first) == if IsCompaction(ms[0]) then [] else [ms[0]];
    } else {
      BatchStaysWhole(ms[0], ms[1..n + 1]);
      hide WithoutCompactions;
      hide IsCompactionToolCall;
      hide AnswersAll;
      PairedBatch(ms[0], ms[1..n + 1]);
    }
  }

  /** A user turn never stands between a call and its results. */
  lemma {:induction false} PairedFromUserTurn(ms: seq<Message>, k: nat)
    requires Paired(ms) && k < |ms| && ms[k].role == User
    ensures Paired(ms[k..])
    decreases |ms|
  {
    hide IsCompactionToolCall;
    hide IsCompactionSummary;
    if k > 0 {
      var n := |ms[0].toolCalls|;
      BatchFollows(ms);
      assert ms[n + 1..][k - n - 1..] == ms[k..];
      PairedFromUserTurn(ms[n + 1..], k - n - 1);
    }
  }

  lemma {:induction false} PairedAfterSystem(ms: seq<Message>, n: nat)
    requires Paired(ms) && n <= |ms| && forall m <- ms[..n] :: m.role == System
    ensures Paired(ms[..n]) && Paired(ms[n..])
    decreases |ms|
  {
    hide IsCompactionToolCall;
    hide AnswersAll;
    if n > 0 {
      assert ms[0] in ms[..n];
      assert ms[1..][..n - 1] == ms[..n][1..];
      assert ms[1..][n - 1..] == ms[n..];
      PairedAfterSystem(ms[1..], n - 1);
    }
  }

  lemma {:induction false} SummaryPairShape(summary: string, continueTask: bool)
    ensures var pair := SummaryMessages(summary, continueTask);
            && |pair| == 2 && pair[0].role == Assistant && |pair[0].toolCalls| == 1
            && IsCompactionToolCall(pair[0]) && Answers(pair[0].toolCalls[0], pair[1], true)
  {
    hide SummaryContent;
    hide SummaryText;
    hide IsCompactionSummary;
    hide IsCompactionToolCall;
    hide WithoutCompactions;
    hide LatestSummary;
    PairIsCompaction(summary, continueTask);
  }

  lemma {:induction false} SummaryMessagesArePaired(summary: string, continueTask: bool)
    ensures Paired(SummaryMessages(summary, continueTask))
  {
    hide SummaryMessages;
    hide IsCompactionToolCall;
    hide Paired;
    hide Answers;
    SummaryPairShape(summary, continueTask);
    var pair := SummaryMessages(summary, continueTask);
    PairedBatch(pair[0], [pair[1]]);
    assert pair == [pair[0]] + [pair[1]];
  }

  /** Compacting a paired history, however many turns are kept and whatever the
      summary says, leaves a paired history. */
  lemma {:induction false} CompactionKeepsPairing(
    messages: seq<Message>, keep: int, s: Split, summary: string, continueTask: bool)
    requires Paired(messages) && IsSplit(messages, keep, s) && s.ok
    ensures Paired(CompactedHistory(s, summary, continueTask))
  {
    hide IsCompactionSummary;
    hide LatestSummary;
    hide WithoutCompactions;
    hide UserTurns;
    hide SummaryMessages;
    hide Paired;
    var n := |s.prefix|;
    PairedAfterSystem(messages, n);
    PairedWithoutCompactions(messages[n..]);
    var candidates := s.archive + s.suffix;
    if s.suffix != [] {
      assert candidates[|s.archive|..] == s.suffix;
      PairedFromUserTurn(candidates, |s.archive|);
    }
    SummaryMessagesArePaired(summary, continueTask);
    PairedConcat(s.prefix, SummaryMessages(summary, continueTask));
    if s.suffix != [] {
      PairedConcat(s.prefix + SummaryMessages(summary, continueTask), s.suffix);
    } else {
      assert CompactedHistory(s, summary, continueTask) == s.prefix + SummaryMessages(summary, continueTask);
    }
  }

  /** The condition on summaries is what it takes: an answered batch comes
      through compaction whole exactly when its results are summaries if and
      only if its call is a compaction call. */
  lemma {:induction false} BatchStaysWholeIff(m: Message, results: seq<Message>)
    requires m.role == Assistant && results != []
    requires forall r <- results :: r.role == Tool
    ensures WithoutCompactions([m] + results) in {[], [m] + results}
            <==> forall r <- results :: IsCompactionSummary(r) <==> IsCompactionToolCall(m)
  {
    hide HasPrefix;
    var ms := [m] + results;
    assert ms[1..] == results;
    WithoutCompactionsLength(results);
    assert forall r <- results :: IsCompaction(r) <==> IsCompactionSummary(r);
    assert !IsCompactionSummary(m);
    hide IsCompactionSummary;
    hide IsCompactionToolCall;
    if IsCompactionToolCall(m) {
      assert WithoutCompactions(ms) == [] + WithoutCompactions(results) == WithoutCompactions(results);
      assert WithoutCompactions(results) == [] <==> forall r <- results :: IsCompaction(r);
      assert |WithoutCompactions(results)| < |ms|;
    } else {
      assert WithoutCompactions(ms) == [m] + WithoutCompactions(results);
      assert |WithoutCompactions(results)| == |results| <==> forall r <- results :: !IsCompaction(r);
      if forall r <- results :: !IsCompaction(r) {
        WithoutCompactionsOfClean(results);
      }
    }
  }

  lemma {:induction false} WithoutCompactionsLength(ms: seq<Message>)
    ensures |WithoutCompactions(ms)| <= |ms|
    ensures |WithoutCompactions(ms)| == |ms| <==> forall m <- ms :: !IsCompaction(m)
    ensures WithoutCompactions(ms) == [] <==> forall m <- ms :: IsCompaction(m)
  {
    hide IsCompaction;
    if ms != [] {
      assert ms == [ms[0]] + ms[1..];
      WithoutCompactionsLength(ms[1..]);
    }
  }

  /** A model that makes up a call to the summary tool is answered with an
      error, and a later compaction drops the call but not its answer. */
  lemma {:induction false} InventedSummaryCallIsTornApart()
    ensures var call := ToolCall("call_1", COMPACTION_TOOL_NAME, "{}");
            var m := Message(Assistant, "", "", [call], "", "");
            var answer := ToolResultMessage(COMPACTION_TOOL_NAME, "call_1", "Error: unknown tool: summary");
            WithoutCompactions([m] + [answer]) !in {[], [m] + [answer]}
  {
    var call := ToolCall("call_1", COMPACTION_TOOL_NAME, "{}");
    var m := Message(Assistant, "", "", [call], "", "");
    var answer := ToolResultMessage(COMPACTION_TOOL_NAME, "call_1", "Error: unknown tool: summary");
    assert call in m.toolCalls;
    assert answer.content[0] != SummaryPrefix()[0];
    assert answer in [answer];
    BatchStaysWholeIff(m, [answer]);
  }

  // What is sent to the model

  function SanitizeMessage(m: Message): Message {
    if m.role == Tool then m.(content := TruncateToolResult(m.content, MAX_TOOL_RESULT_RUNES)) else m
  }

  function SanitizeMessages(ms: seq<Message>): (r: seq<Message>)
    ensures |r| == |ms|
    ensures forall i | 0 <= i < |ms| :: r[i] == SanitizeMessage(ms[i])
  {
    seq(|ms|, i requires 0 <= i < |ms| => SanitizeMessage(ms[i]))
  }

  function RequestMessages(systemPrompt: string, ms: seq<Message>): seq<Message> {
    (if TrimSpace(systemPrompt) != "" then [Message(System, systemPrompt, "", [], "", "")] else [])
    + SanitizeMessages(ms)
  }

  lemma {:induction false} SanitizeKeepsSummaries(m: Message)
    ensures IsCompactionSummary(SanitizeMessage(m)) <==> IsCompactionSummary(m)
  {
    hide ToolHint;
    hide OmissionPrefix;
    hide Truncate;
    if m.role == Tool {
      var cfg := ToolConfig(MAX_TOOL_RESULT_RUNES);
      assert HeadRunes(cfg) == 45000;
      assert |SummaryPrefix()| == 22;
      TruncateKeepsPrefix(m.content, cfg, SummaryPrefix());
    }
  }

  lemma {:induction false} SanitizeKeepsPairing(ms: seq<Message>)
    requires Paired(ms)
    ensures Paired(SanitizeMessages(ms))
    decreases |ms|
  {
    hide IsCompactionSummary;
    hide IsCompactionToolCall;
    hide TruncateToolResult;
    if ms != [] {
      var n := |ms[0].toolCalls|;
      var r := SanitizeMessages(ms);
      assert r[n + 1..] == SanitizeMessages(ms[n + 1..]);
      SanitizeKeepsPairing(ms[n + 1..]);
      if n > 0 {
        forall i | 0 <= i < n ensures Answers(r[0].toolCalls[i], r[1..n + 1][i], IsCompactionToolCall(r[0])) {
          assert Answers(ms[0].toolCalls[i], ms[1..n + 1][i], IsCompactionToolCall(ms[0]));
          SanitizeKeepsSummaries(ms[i + 1]);
        }
      }
    }
  }

  /** What goes out to the model is as well paired as the history. */
  lemma {:induction false} RequestKeepsPairing(systemPrompt: string, ms: seq<Message>)
    requires Paired(ms)
    ensures Paired(RequestMessages(systemPrompt, ms))
  {
    hide SanitizeMessages;
    SanitizeKeepsPairing(ms);
    var r := RequestMessages(systemPrompt, ms);
    if TrimSpace(systemPrompt) != "" {
      assert r[1..] == SanitizeMessages(ms);
    } else {
      assert r == SanitizeMessages(ms);
    }
  }
}
