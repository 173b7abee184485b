/** Tool results cut to what the context still has room for, agent/session.go. */
module ToolBudget {
  import opened Text
  import opened Truncation
  import opened Messages

  const MAX_TOOL_RESULT_RUNES := 60000
  const SMALL_CONTEXT_TOOL_RESULT_RUNES := 6000
  const TINY_CONTEXT_TOOL_RESULT_RUNES := 3200
  const SMALL_CONTEXT_TOKEN_WINDOW := 8192
  const TINY_CONTEXT_TOKEN_WINDOW := 4096
  const MARKER_RESERVE_TOKENS := 64

  /** This text and the next are in parts, since the proofs look at both ends. */
  function OmissionPrefix(): string {
    "[tool output truncated: output omitted " + "because the context is full;"
  }

  function ToolHint(): string {
    "Use a narrower command, " + "line range, or search query " + "if more detail is needed" + "."
  }

  function ToolConfig(maxRunes: int): TruncateConfig {
    TruncateConfig(maxRunes, true, 75, "tool output", ToolHint(), OmissionPrefix())
  }

  function TruncateToolResult(content: string, maxRunes: int): string {
    Truncate(content, ToolConfig(maxRunes))
  }

  function SmallContextLimitRunes(contextWindow: int): int {
    if 0 < contextWindow <= TINY_CONTEXT_TOKEN_WINDOW then TINY_CONTEXT_TOOL_RESULT_RUNES
    else if 0 < contextWindow <= SMALL_CONTEXT_TOKEN_WINDOW then SMALL_CONTEXT_TOOL_RESULT_RUNES
    else 0
  }

  function ResultLimitRunes(contextWindow: int): (limit: int)
    ensures 0 < limit <= MAX_TOOL_RESULT_RUNES
  {
    var limit := SmallContextLimitRunes(contextWindow);
    if limit > 0 then Min(MAX_TOOL_RESULT_RUNES, limit) else MAX_TOOL_RESULT_RUNES
  }

  function ToolMessageWithLimit(toolName: string, toolCallID: string, content: string, maxRunes: int): Message {
    ToolResultMessage(toolName, toolCallID, TruncateToolResult(content, maxRunes))
  }

  function ToolMessage(toolName: string, toolCallID: string, content: string): Message {
    ToolMessageWithLimit(toolName, toolCallID, content, MAX_TOOL_RESULT_RUNES)
  }

  /** The runes that a result may still have, before the marker is added. */
  function AvailableRunes(toolName: string, toolCallID: string, base: int, budget: int): int {
    var overhead := MessageTokens(ToolResultMessage(toolName, toolCallID, ""));
    (budget - base - overhead - MARKER_RESERVE_TOKENS) * 4
  }

  /** The tool message that is put in the history when everything before it
      takes base tokens and the ceiling is budget (0 or less: no ceiling). */
  function ToolMessageWithBudget(
    toolName: string, toolCallID: string, content: string, contextWindow: int, base: int, budget: int
  ): (m: Message)
    ensures m.role == Tool && m.toolName == toolName && m.toolCallID == toolCallID && m.toolCalls == []
  {
    var maxRunes := ResultLimitRunes(contextWindow);
    var m := ToolMessageWithLimit(toolName, toolCallID, content, maxRunes);
    if budget <= 0 || base + MessageTokens(m) < budget then m
    else
      var available := AvailableRunes(toolName, toolCallID, base, budget);
      m.(content := TruncateToolResult(content, Min(maxRunes, Max(0, available))))
  }

  predicate FullyOmitted(content: string) {
    HasPrefix(content, OmissionPrefix())
  }

  // The two markers are shorter than the reserve

  lemma {:induction false} ToolHintText()
    ensures TruncHint(ToolHint()) == " " + ToolHint()
    ensures |TruncHint(ToolHint())| == 78
  {
    var hint := ToolHint();
    assert |hint| == 77;
    assert hint[0] == 'U';
    assert hint[76] == '.';
    TruncHintOfSentence(hint);
  }

  /** The marker inside a cut result has at most 223 runes. */
  lemma {:induction false} ToolMarkerLength(total: nat, maxRunes: int)
    requires 0 < maxRunes < total <= MAX_INT
    ensures |Marker(total, ToolConfig(maxRunes))| <= 223
  {
    hide ToolHint;
    hide OmissionPrefix;
    hide TruncMarker;
    hide FullOmission;
    hide TruncHint;
    hide TextTokens;
    var head := HeadRunes(ToolConfig(maxRunes));
    ToolHintText();
    TruncMarkerLength("tool output", head, maxRunes - head, total - maxRunes, ToolHint());
  }

  /** The text that replaces a result in full has at most 183 runes. */
  lemma {:induction false} ToolOmissionLength(total: nat)
    requires total <= MAX_INT
    ensures |FullOmission(OmissionPrefix(), total, ToolHint())| <= 183
    ensures FullyOmitted(FullOmission(OmissionPrefix(), total, ToolHint()))
  {
    ToolHintText();
    FullOmissionLength(OmissionPrefix(), total, ToolHint());
    assert |OmissionPrefix()| == 67;
  }

  /** Cutting to maxRunes runes costs at most 223 runes more than that. */
  lemma {:induction false} TruncatedLength(content: Content, maxRunes: int)
    requires maxRunes >= 0
    ensures |TruncateToolResult(content, maxRunes)| <= maxRunes + 223
  {
    hide ToolHint;
    hide OmissionPrefix;
    hide TruncMarker;
    hide FullOmission;
    hide TruncHint;
    hide TextTokens;
    if maxRunes == 0 {
      ToolOmissionLength(|content|);
    } else if maxRunes < |content| {
      TruncateKeepsBothEnds(content, ToolConfig(maxRunes));
      ToolMarkerLength(|content|, maxRunes);
    }
  }

  lemma {:induction false} TokensAreOverheadPlusContent(toolName: string, toolCallID: string, content: string)
    ensures MessageTokens(ToolResultMessage(toolName, toolCallID, content))
            == MessageTokens(ToolResultMessage(toolName, toolCallID, "")) + TextTokens(content)
  {
  }

  /** With at least the marker's reserve left, every result, whatever its size,
      ends up strictly below the budget. */
  lemma {:induction false} ResultStaysBelowBudget(
    toolName: string, toolCallID: string, content: Content, contextWindow: int, base: int, budget: int)
    ensures budget > 0 && AvailableRunes(toolName, toolCallID, base, budget) >= 0 ==>
              base + MessageTokens(ToolMessageWithBudget(toolName, toolCallID, content, contextWindow, base, budget)) < budget
  {
    hide ToolHint;
    hide OmissionPrefix;
    hide TruncMarker;
    hide FullOmission;
    hide TruncHint;
    hide TextTokens;
    var m := ToolMessageWithBudget(toolName, toolCallID, content, contextWindow, base, budget);
    var limit := ResultLimitRunes(contextWindow);
    var available := AvailableRunes(toolName, toolCallID, base, budget);
    if budget > 0 && available >= 0 && base + MessageTokens(ToolMessageWithLimit(toolName, toolCallID, content, limit)) >= budget {
      var maxRunes := Min(limit, Max(0, available));
      TruncatedLength(content, maxRunes);
      TokensAreOverheadPlusContent(toolName, toolCallID, m.content);
      assert TextTokens(m.content) <= ApproximateTokens(available + 223);
    }
  }

  /** Without the reserve the result is either small enough as it is, or it is
      omitted in full and says so. */
  lemma {:induction false} ResultWithoutReserve(
    toolName: string, toolCallID: string, content: Content, contextWindow: int, base: int, budget: int)
    ensures var m := ToolMessageWithBudget(toolName, toolCallID, content, contextWindow, base, budget);
            budget > 0 && AvailableRunes(toolName, toolCallID, base, budget) < 0 ==>
            || base + MessageTokens(m) < budget
            || (FullyOmitted(m.content) && m.content == FullOmission(OmissionPrefix(), |content|, ToolHint()))
  {
    hide ToolHint;
    hide OmissionPrefix;
    hide TruncMarker;
    hide FullOmission;
    hide TruncHint;
    hide TextTokens;
    ToolOmissionLength(|content|);
  }

  /** Whatever is left: below the budget, or visibly omitted. */
  lemma {:induction false} ResultFitsOrIsOmitted(
    toolName: string, toolCallID: string, content: Content, contextWindow: int, base: int, budget: int)
    requires budget > 0
    ensures var m := ToolMessageWithBudget(toolName, toolCallID, content, contextWindow, base, budget);
            base + MessageTokens(m) < budget || FullyOmitted(m.content)
  {
    if AvailableRunes(toolName, toolCallID, base, budget) >= 0 {
      ResultStaysBelowBudget(toolName, toolCallID, content, contextWindow, base, budget);
    } else {
      ResultWithoutReserve(toolName, toolCallID, content, contextWindow, base, budget);
    }
  }

  /** The exact condition: the result ends up below the budget when it is as it
      stands, when the reserve is there, or when the notice of omission fits. */
  lemma {:induction false} ResultBelowBudgetIff(
    toolName: string, toolCallID: string, content: Content, contextWindow: int, base: int, budget: int)
    requires budget > 0
    ensures var m := ToolMessageWithBudget(toolName, toolCallID, content, contextWindow, base, budget);
            var uncut := ToolMessageWithLimit(toolName, toolCallID, content, ResultLimitRunes(contextWindow));
            var overhead := MessageTokens(ToolResultMessage(toolName, toolCallID, ""));
            base + MessageTokens(m) < budget
            <==> || base + MessageTokens(uncut) < budget
                 || budget - base - overhead >= MARKER_RESERVE_TOKENS
                 || base + overhead + TextTokens(FullOmission(OmissionPrefix(), |content|, ToolHint())) < budget
  {
    hide ToolHint;
    hide OmissionPrefix;
    hide TruncMarker;
    hide FullOmission;
    hide TruncHint;
    hide TextTokens;
    hide MessageTokens;
    var m := ToolMessageWithBudget(toolName, toolCallID, content, contextWindow, base, budget);
    ResultStaysBelowBudget(toolName, toolCallID, content, contextWindow, base, budget);
    TokensAreOverheadPlusContent(toolName, toolCallID, m.content);
  }

  lemma {:induction false} OmissionTokens(total: nat)
    ensures TextTokens(FullOmission(OmissionPrefix(), total, ToolHint())) >= 42
  {
    ToolHintText();
    assert |OmissionPrefix()| == 67 && OmissionPrefix()[0] == '[';
    hide OmissionPrefix;
    hide ToolHint;
    hide TruncHint;
    hide FullOmission;
    FullOmissionTokens(OmissionPrefix(), total, ToolHint());
  }

  /** The reserve is needed: a result that does not fit as it is goes over the
      budget while there is still room, for up to 42 tokens, since the notice
      that replaces it does not fit either. */
  lemma {:induction false} ReserveIsNeeded(
    toolName: string, toolCallID: string, content: Content, contextWindow: int, base: int, budget: int)
    requires budget > 0
    ensures var m := ToolMessageWithBudget(toolName, toolCallID, content, contextWindow, base, budget);
            var uncut := ToolMessageWithLimit(toolName, toolCallID, content, ResultLimitRunes(contextWindow));
            var overhead := MessageTokens(ToolResultMessage(toolName, toolCallID, ""));
            0 <= budget - base - overhead <= 42 && base + MessageTokens(uncut) >= budget ==>
              base + MessageTokens(m) >= budget && FullyOmitted(m.content)
  {
    hide ToolHint;
    hide OmissionPrefix;
    hide FullOmission;
    hide TruncHint;
    hide TextTokens;
    hide MessageTokens;
    OmissionTokens(|content|);
    ResultBelowBudgetIff(toolName, toolCallID, content, contextWindow, base, budget);
    ResultFitsOrIsOmitted(toolName, toolCallID, content, contextWindow, base, budget);
  }

  /** The runes that the budget leaves a result. */
  function CutSize(
    toolName: string, toolCallID: string, content: string, contextWindow: int, base: int, budget: int): int
  {
    var limit := ResultLimitRunes(contextWindow);
    if budget <= 0 || base + MessageTokens(ToolMessageWithLimit(toolName, toolCallID, content, limit)) < budget then limit
    else Min(limit, Max(0, AvailableRunes(toolName, toolCallID, base, budget)))
  }

  lemma {:induction false} BudgetCutsToSize(
    toolName: string, toolCallID: string, content: string, contextWindow: int, base: int, budget: int)
    ensures ToolMessageWithBudget(toolName, toolCallID, content, contextWindow, base, budget)
            == ToolMessageWithLimit(toolName, toolCallID, content,
                                    CutSize(toolName, toolCallID, content, contextWindow, base, budget))
  {
  }

  /** A text that already carries, where the head of a cut to maxRunes ends, the
      marker for a text of its own length, or is the notice for its own length. */
  predicate CarriesOwnMarker(content: string, maxRunes: int) {
    if maxRunes <= 0 then content == FullOmission(OmissionPrefix(), |content|, ToolHint())
    else
      && maxRunes < |content|
      && var marker := Marker(|content|, ToolConfig(maxRunes));
         && |content| == maxRunes + |marker|
         && OccursAt(content, marker, HeadRunes(ToolConfig(maxRunes)))
  }

  /** A cut changes nothing exactly for a text that is short enough or carries
      its own marker. */
  lemma {:induction false} CutChangesNothingIff(content: string, maxRunes: int)
    ensures TruncateToolResult(content, maxRunes) == content
            <==> (maxRunes > 0 && |content| <= maxRunes) || CarriesOwnMarker(content, maxRunes)
  {
    hide ToolHint;
    hide OmissionPrefix;
    hide FullOmission;
    hide TruncMarker;
    hide HeadRunes;
    if 0 < maxRunes < |content| {
      TruncateIsEndsAndMarker(content, ToolConfig(maxRunes));
      TruncateKeepsBothEnds(content, ToolConfig(maxRunes));
      hide Truncate;
      hide Marker;
      var head := HeadRunes(ToolConfig(maxRunes));
      var marker := Marker(|content|, ToolConfig(maxRunes));
      if CarriesOwnMarker(content, maxRunes) {
        SplitInThree(content, head, |marker|);
      }
    }
  }

  /** A result more than 224 runes over its limit changes when it is cut again. */
  lemma {:induction false} CutAgainDiffers(content: Content, maxRunes: int)
    requires 0 < maxRunes && maxRunes + 224 < |content|
    ensures TruncateToolResult(TruncateToolResult(content, maxRunes), maxRunes) != TruncateToolResult(content, maxRunes)
  {
    hide ToolHint;
    hide OmissionPrefix;
    hide TruncMarker;
    hide FullOmission;
    hide TruncHint;
    hide Truncate;
    ToolMarkerLength(|content|, maxRunes);
    TruncateAgainIff(content, ToolConfig(maxRunes));
  }

  lemma {:induction false} CutSizeIsSmall(
    toolName: string, toolCallID: string, content: string, contextWindow: int, base: int, budget: int)
    ensures 0 <= CutSize(toolName, toolCallID, content, contextWindow, base, budget) <= MAX_TOOL_RESULT_RUNES
  {
  }

  lemma {:induction false} ResultIsShort(
    toolName: string, toolCallID: string, content: Content, contextWindow: int, base: int, budget: int)
    ensures |ToolMessage(toolName, toolCallID, content).content| <= MAX_TOOL_RESULT_RUNES + 223
    ensures |ToolMessageWithBudget(toolName, toolCallID, content, contextWindow, base, budget).content|
            <= MAX_TOOL_RESULT_RUNES + 223
  {
    hide TruncateToolResult;
    TruncatedLength(content, MAX_TOOL_RESULT_RUNES);
    CutSizeIsSmall(toolName, toolCallID, content, contextWindow, base, budget);
    BudgetCutsToSize(toolName, toolCallID, content, contextWindow, base, budget);
    TruncatedLength(content, CutSize(toolName, toolCallID, content, contextWindow, base, budget));
    hide ToolMessageWithBudget;
    hide CutSize;
  }
}
