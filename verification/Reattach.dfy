/** Tool results put back behind a compaction that they had caused: the ones
    that had been left out are cut afresh from their original text,
    agent/session.go. */
module Reattach {
  import opened Text
  import opened Truncation
  import opened Messages
  import opened ToolBudget
  import opened Compactor
  import opened Pairing
  import opened ToolBatch
  import opened Options

  /** The overflow recorded last under an ID. */
  function LastOverflow(overflows: seq<Overflow>, id: string): Option<Overflow> {
    if overflows == [] then None
    else
      var last := overflows[|overflows| - 1];
      if last.toolCallID == id then Some(last) else LastOverflow(overflows[..|overflows| - 1], id)
  }

  function SourceName(m: Message, overflows: seq<Overflow>): string {
    match LastOverflow(overflows, m.toolCallID)
    case Some(o) => if o.toolName != "" then o.toolName else m.toolName
    case None => m.toolName
  }

  function SourceText(m: Message, overflows: seq<Overflow>): string {
    match LastOverflow(overflows, m.toolCallID)
    case Some(o) => o.content
    case None => m.content
  }

  /** A result cut to the window, behind the results put back before it. */
  function Refit(window: int, history: nat, overflows: seq<Overflow>, before: seq<Message>, m: Message): Message {
    ToolMessageWithBudget(
      SourceName(m, overflows), m.toolCallID, SourceText(m, overflows), window, history + MessagesTokens(before), window)
  }

  /** Every result is cut to the window at the running total. */
  ghost predicate WellRefitted(
    window: int, history: nat, toolMessages: seq<Message>, overflows: seq<Overflow>, refits: seq<Message>)
  {
    && |refits| <= |toolMessages|
    && forall i | 0 <= i < |refits| :: refits[i] == Refit(window, history, overflows, refits[..i], toolMessages[i])
  }

  lemma {:induction false} WellRefittedAppend(
    window: int, history: nat, toolMessages: seq<Message>, overflows: seq<Overflow>, refits: seq<Message>, refit: Message)
    requires WellRefitted(window, history, toolMessages, overflows, refits) && |refits| < |toolMessages|
    requires refit == Refit(window, history, overflows, refits, toolMessages[|refits|])
    ensures WellRefitted(window, history, toolMessages, overflows, refits + [refit])
  {
    hide Refit;
    var more := refits + [refit];
    forall i | 0 <= i < |more| ensures more[i] == Refit(window, history, overflows, more[..i], toolMessages[i]) {
      assert more[..i] == if i < |refits| then refits[..i] else refits;
    }
  }

  lemma {:induction false} LastOverflowIsRecorded(overflows: seq<Overflow>, id: string)
    ensures var o := LastOverflow(overflows, id);
            if o.Some? then o.value in overflows && o.value.toolCallID == id
            else forall x <- overflows :: x.toolCallID != id
  {
    if overflows != [] {
      LastOverflowIsRecorded(overflows[..|overflows| - 1], id);
    }
  }

  /** What is put back still answers the calls it answered before. */
  lemma {:induction false} RefitsArePaired(
    calls: seq<ToolCall>, window: int, history: nat, toolMessages: seq<Message>, overflows: seq<Overflow>, refits: seq<Message>)
    requires AnswersAll(calls, toolMessages, false)
    requires forall m <- toolMessages :: m.toolName != COMPACTION_TOOL_NAME
    requires forall o <- overflows :: o.toolName != COMPACTION_TOOL_NAME
    requires WellRefitted(window, history, toolMessages, overflows, refits) && |refits| == |toolMessages|
    ensures AnswersAll(calls, refits, false)
  {
    hide ToolMessageWithBudget;
    hide MessagesTokens;
    forall i | 0 <= i < |calls| ensures Answers(calls[i], refits[i], false) {
      var m := toolMessages[i];
      assert Answers(calls[i], m, false);
      assert m in toolMessages;
      LastOverflowIsRecorded(overflows, m.toolCallID);
      assert SourceName(m, overflows) != COMPACTION_TOOL_NAME;
    }
  }

  ghost predicate DistinctIDs(answers: seq<Answered>) {
    forall i, j | 0 <= i < j < |answers| :: answers[i].call.id != answers[j].call.id
  }

  predicate WasOmitted(a: Answered) {
    (a.Executed() || a.outcome == Unknown) && FullyOmitted(a.message.content)
  }

  lemma {:induction false} OverflowsComeFromAnswers(answers: seq<Answered>)
    ensures forall o <- OverflowsOf(answers) ::
              exists a <- answers :: a.call.id == o.toolCallID && a.call.name == o.toolName && a.raw == o.content
  {
    hide FullyOmitted;
    if answers != [] {
      OverflowsComeFromAnswers(answers[..|answers| - 1]);
      assert forall a <- answers[..|answers| - 1] :: a in answers;
      assert answers[|answers| - 1] in answers;
    }
  }

  lemma {:induction false} LastOverflowOfAppend(overflows: seq<Overflow>, o: Overflow, id: string)
    ensures LastOverflow(overflows + [o], id) == if o.toolCallID == id then Some(o) else LastOverflow(overflows, id)
  {
    assert (overflows + [o])[..|overflows|] == overflows;
  }

  lemma {:induction false} OverflowsOfLast(answers: seq<Answered>, id: string)
    requires answers != []
    ensures var last := answers[|answers| - 1];
            LastOverflow(OverflowsOf(answers), id)
            == if WasOmitted(last) && last.call.id == id then Some(Overflow(last.call.name, last.call.id, last.raw))
               else LastOverflow(OverflowsOf(answers[..|answers| - 1]), id)
  {
    hide FullyOmitted;
    hide LastOverflow;
    var front := OverflowsOf(answers[..|answers| - 1]);
    var last := answers[|answers| - 1];
    if WasOmitted(last) {
      LastOverflowOfAppend(front, Overflow(last.call.name, last.call.id, last.raw), id);
    } else {
      assert front + [] == front;
    }
  }

  /** With distinct call IDs, exactly the results that had been left out are cut
      from their original text again; every other one is cut from its message. */
  lemma {:induction false} RefitUsesOriginalText(answers: seq<Answered>, i: nat)
    requires i < |answers| && DistinctIDs(answers)
    ensures var a := answers[i];
            LastOverflow(OverflowsOf(answers), a.call.id)
            == if WasOmitted(a) then Some(Overflow(a.call.name, a.call.id, a.raw)) else None
  {
    hide WasOmitted;
    hide OverflowsOf;
    hide LastOverflow;
    var front := answers[..|answers| - 1];
    var id := answers[i].call.id;
    OverflowsOfLast(answers, id);
    if i < |front| {
      RefitUsesOriginalText(front, i);
    } else {
      OverflowsComeFromAnswers(front);
      LastOverflowIsRecorded(OverflowsOf(front), id);
    }
  }

  /** A result with no overflow under its ID keeps its message exactly when it is
      within the limit of the window and fits at the running total, or happens to
      carry the marker for its own length where the cut would put it. */
  lemma {:induction false} RefitKeepsMessageIff(
    window: int, history: nat, overflows: seq<Overflow>, before: seq<Message>, m: Message)
    requires m == ToolResultMessage(m.toolName, m.toolCallID, m.content)
    requires LastOverflow(overflows, m.toolCallID).None?
    ensures var base := history + MessagesTokens(before);
            Refit(window, history, overflows, before, m) == m
            <==> || (|m.content| <= ResultLimitRunes(window) && (window <= 0 || base + MessageTokens(m) < window))
                 || CarriesOwnMarker(m.content, CutSize(m.toolName, m.toolCallID, m.content, window, base, window))
  {
    hide Marker;
    hide CarriesOwnMarker;
    hide TextTokens;
    hide MessageTokens;
    hide MessagesTokens;
    var base := history + MessagesTokens(before);
    var size := CutSize(m.toolName, m.toolCallID, m.content, window, base, window);
    BudgetCutsToSize(m.toolName, m.toolCallID, m.content, window, base, window);
    CutChangesNothingIff(m.content, size);
    CutChangesNothingIff(m.content, ResultLimitRunes(window));
    hide Truncate;
    TokensAreOverheadPlusContent(m.toolName, m.toolCallID, m.content);
    assert TextTokens(m.content) <= ApproximateTokens(|m.content|);
  }

  /** In particular a result that had been cut by more than 224 runes, and not
      left out, does not keep its message where the whole cut fits: it is cut
      again, and its marker counts the first one. */
  lemma {:induction false} CutResultIsRecounted(
    window: int, history: nat, overflows: seq<Overflow>, before: seq<Message>, m: Message, raw: Content)
    requires m == ToolMessageWithLimit(m.toolName, m.toolCallID, raw, ResultLimitRunes(window))
    requires |raw| > ResultLimitRunes(window) + 224
    requires LastOverflow(overflows, m.toolCallID).None?
    requires CutSize(m.toolName, m.toolCallID, m.content, window, history + MessagesTokens(before), window)
             == ResultLimitRunes(window)
    ensures Refit(window, history, overflows, before, m) != m
  {
    hide Truncate;
    hide TruncateToolResult;
    hide CutSize;
    hide ResultLimitRunes;
    hide LastOverflow;
    hide MessagesTokens;
    hide ToolMessageWithBudget;
    BudgetCutsToSize(m.toolName, m.toolCallID, m.content, window, history + MessagesTokens(before), window);
    CutAgainDiffers(raw, ResultLimitRunes(window));
  }

  // A batch put back behind a compacted history

  ghost predicate ReattachedBy(
    window: int, estimate: seq<Message> -> nat, messages: seq<Message>, assistant: Message,
    toolMessages: seq<Message>, overflows: seq<Overflow>, kept: seq<Message>, s: Split, summary: string, refits: seq<Message>)
  {
    && IsSplit(messages, 0, s) && s.ok
    && var base := CompactedHistory(s, summary, true) + (if MessageEmpty(assistant) then [] else [assistant]);
    && kept == base + refits
    && |refits| == |toolMessages|
    && WellRefitted(window, estimate(base), toolMessages, overflows, refits)
  }

  /** A history in which everything has given way to some summary, with the last batch
      put back behind it. */
  ghost predicate IsReattached(
    window: int, estimate: seq<Message> -> nat, messages: seq<Message>, assistant: Message,
    toolMessages: seq<Message>, overflows: seq<Overflow>, kept: seq<Message>)
  {
    exists s, summary, refits ::
      ReattachedBy(window, estimate, messages, assistant, toolMessages, overflows, kept, s, summary, refits)
  }

  /** The batch stays whole and paired across the compaction that it caused. */
  lemma {:induction false} ReattachedIsPaired(
    window: int, estimate: seq<Message> -> nat, messages: seq<Message>, assistant: Message,
    toolMessages: seq<Message>, overflows: seq<Overflow>, kept: seq<Message>)
    requires IsReattached(window, estimate, messages, assistant, toolMessages, overflows, kept)
    requires Paired(messages)
    requires assistant.role == Assistant && assistant.toolCalls != [] && !IsCompactionToolCall(assistant)
    requires AnswersAll(assistant.toolCalls, toolMessages, false)
    requires forall m <- toolMessages :: m.toolName != COMPACTION_TOOL_NAME
    requires forall o <- overflows :: o.toolName != COMPACTION_TOOL_NAME
    ensures Paired(kept)
  {
    hide IsSplit;
    hide CompactedHistory;
    hide WellRefitted;
    hide Paired;
    hide AnswersAll;
    hide IsCompactionToolCall;
    var s, summary, refits :| ReattachedBy(
      window, estimate, messages, assistant, toolMessages, overflows, kept, s, summary, refits);
    var compacted := CompactedHistory(s, summary, true);
    CompactionKeepsPairing(messages, 0, s, summary, true);
    RefitsArePaired(assistant.toolCalls, window, estimate(compacted + [assistant]), toolMessages, overflows, refits);
    PairedBatch(assistant, refits);
    PairedConcat(compacted, [assistant] + refits);
    assert kept == compacted + ([assistant] + refits);
  }

  /** What is put back fits the window, or something in it has been left out visibly. */
  lemma {:induction false} RefitsFitOrSaySo(
    window: int, history: nat, toolMessages: seq<Message>, overflows: seq<Overflow>, refits: seq<Message>)
    requires window > 0 && |refits| == |toolMessages| && refits != []
    requires WellRefitted(window, history, toolMessages, overflows, refits)
    requires forall m <- toolMessages :: |m.content| <= MAX_INT
    ensures (exists m <- refits :: FullyOmitted(m.content)) || history + MessagesTokens(refits) < window
  {
    hide Refit;
    hide FullyOmitted;
    hide MessageTokens;
    hide MessagesTokens;
    var last := |refits| - 1;
    var front, m := refits[..last], toolMessages[last];
    assert refits[last] == Refit(window, history, overflows, front, m);
    hide WellRefitted;
    assert m in toolMessages;
    RefitFitsOrSaysSo(window, history, overflows, front, m);
    assert refits == front + [refits[last]];
    MessagesTokensOfAppend(front, refits[last]);
  }

  lemma {:induction false} RefitFitsOrSaysSo(
    window: int, history: nat, overflows: seq<Overflow>, before: seq<Message>, m: Message)
    requires window > 0 && |m.content| <= MAX_INT
    ensures var refit := Refit(window, history, overflows, before, m);
            FullyOmitted(refit.content) || history + MessagesTokens(before) + MessageTokens(refit) < window
  {
    hide ToolMessageWithBudget;
    hide FullyOmitted;
    hide MessageTokens;
    hide MessagesTokens;
    hide LastOverflow;
    ResultFitsOrIsOmitted(
      SourceName(m, overflows), m.toolCallID, SourceText(m, overflows), window, history + MessagesTokens(before), window);
  }

  /** The last n messages fit the window together with those before them, or one of
      them has been left out visibly. */
  predicate FitsOrSaysSo(window: int, estimate: seq<Message> -> nat, kept: seq<Message>, n: nat) {
    && n <= |kept|
    && var base, refits := kept[..|kept| - n], kept[|kept| - n..];
       (exists m <- refits :: FullyOmitted(m.content)) || estimate(base) + MessagesTokens(refits) < window
  }

  lemma {:induction false} ReattachmentFits(
    window: int, estimate: seq<Message> -> nat, messages: seq<Message>, assistant: Message,
    toolMessages: seq<Message>, overflows: seq<Overflow>, kept: seq<Message>)
    requires IsReattached(window, estimate, messages, assistant, toolMessages, overflows, kept)
    requires window > 0 && toolMessages != [] && forall m <- toolMessages :: |m.content| <= MAX_INT
    ensures FitsOrSaysSo(window, estimate, kept, |toolMessages|)
  {
    hide IsSplit;
    hide CompactedHistory;
    hide WellRefitted;
    hide MessageEmpty;
    hide FullyOmitted;
    hide MessagesTokens;
    var s, summary, refits :| ReattachedBy(
      window, estimate, messages, assistant, toolMessages, overflows, kept, s, summary, refits);
    var base := CompactedHistory(s, summary, true) + (if MessageEmpty(assistant) then [] else [assistant]);
    RefitsFitOrSaySo(window, estimate(base), toolMessages, overflows, refits);
    assert kept[..|kept| - |refits|] == base && kept[|kept| - |refits|..] == refits;
  }
}
