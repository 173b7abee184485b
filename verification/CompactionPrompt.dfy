/** The prompt that asks for a summary, and how the archived messages are cut
    until it fits, agent/compactor.go. */
module CompactionPrompt {
  import opened Options
  import opened Text
  import opened Truncation
  import opened Messages
  import opened ToolBudget

  // JSON text of a string, as encoding/json writes it

  function HexDigit(d: nat): char
    requires d < 16
  {
    if d < 10 then '0' + d as char else 'a' + (d - 10) as char
  }

  function UnicodeEscape(c: char): (s: string)
    requires c as int < 0x1_0000
    ensures |s| == 6
  {
    var n := c as int;
    ['\\', 'u', HexDigit(n / 0x1000), HexDigit(n / 0x100 % 0x10), HexDigit(n / 0x10 % 0x10), HexDigit(n % 0x10)]
  }

  function EscapeRune(c: char): (s: string)
    ensures 1 <= |s| <= 6
  {
    if c == '"' || c == '\\' then ['\\', c]
    else if c == '\U{8}' then "\\b"
    else if c == '\U{C}' then "\\f"
    else if c == '\n' then "\\n"
    else if c == '\r' then "\\r"
    else if c == '\t' then "\\t"
    else if c < ' ' || c == '<' || c == '>' || c == '&' || c == '\U{2028}' || c == '\U{2029}' then UnicodeEscape(c)
    else [c]
  }

  function Escape(s: string): (e: string)
    ensures |e| >= |s|
  {
    if s == "" then "" else EscapeRune(s[0]) + Escape(s[1..])
  }

  lemma {:induction false} EscapeOfConcat(a: string, b: string)
    ensures Escape(a + b) == Escape(a) + Escape(b)
  {
    if a == "" {
      assert a + b == b;
    } else {
      assert (a + b)[1..] == a[1..] + b;
      EscapeOfConcat(a[1..], b);
    }
  }

  /** Runes that JSON writes as they are. */
  predicate PlainRune(c: char) {
    ' ' <= c <= '~' && c !in {'"', '\\', '<', '>', '&'}
  }

  predicate Plain(s: string) {
    forall c <- s :: PlainRune(c)
  }

  lemma {:induction false} EscapeOfPlain(s: string)
    requires Plain(s)
    ensures Escape(s) == s
  {
    if s != "" {
      assert s[0] in s;
      EscapeOfPlain(s[1..]);
    }
  }

  // The prompt

  /** How the tool calls, the tool name and the call ID of a message appear
      after its content; None when the arguments cannot be encoded. */
  type Fields = (seq<ToolCall>, string, string) -> Option<string>

  function RenderMessage(fields: Fields, m: Message): Option<string> {
    match fields(m.toolCalls, m.toolName, m.toolCallID)
    case None => None
    case Some(rest) =>
      Some("  {\n    \"role\": \"" + Escape(RoleName(m.role)) + "\",\n    \"content\": \"" + Escape(m.content)
           + "\"" + rest + "\n  }")
  }

  function RenderMessages(fields: Fields, ms: seq<Message>): Option<string> {
    if ms == [] then Some("")
    else
      match (RenderMessage(fields, ms[0]), RenderMessages(fields, ms[1..]))
      case (Some(first), Some(rest)) => Some((if |ms| == 1 then first else first + ",\n") + rest)
      case _ => None
  }

  function Heading(previousSummary: string): string {
    (if TrimSpace(previousSummary) != "" then "Previous summary:\n" + TrimSpace(previousSummary) + "\n\n" else "")
    + "Messages to archive as JSON:\n"
  }

  function RenderPrompt(fields: Fields, previousSummary: string, ms: seq<Message>): Option<string> {
    match RenderMessages(fields, ms)
    case None => None
    case Some(list) => Some(Heading(previousSummary) + (if ms == [] then "[]" else "[\n" + list + "\n]"))
  }

  function PromptTokens(fields: Fields, previousSummary: string, ms: seq<Message>): Option<nat> {
    match RenderPrompt(fields, previousSummary, ms)
    case None => None
    case Some(body) => Some(TextTokens(body))
  }

  // Fitting the messages to the budget

  /** The first of the longest contents, or -1 when every content is empty. */
  function LargestContent(ms: seq<Message>): (idx: int)
    ensures -1 <= idx < |ms|
    ensures idx == -1 ==> forall m <- ms :: m.content == ""
    ensures idx >= 0 ==> 0 < |ms[idx].content|
    ensures idx >= 0 ==> forall i | 0 <= i < |ms| :: |ms[i].content| <= |ms[idx].content|
    ensures idx >= 0 ==> forall i | 0 <= i < idx :: |ms[i].content| < |ms[idx].content|
  {
    if ms == [] then -1
    else
      var last := |ms| - 1;
      var idx := LargestContent(ms[..last]);
      if |ms[last].content| > (if idx < 0 then 0 else |ms[idx].content|) then last else idx
  }

  method LargestCompactionContentMessage(ms: seq<Message>) returns (idx: int)
    ensures idx == LargestContent(ms)
  {
    idx := -1;
    var size := 0;
    for i := 0 to |ms|
      invariant idx == LargestContent(ms[..i])
      invariant size == if idx < 0 then 0 else |ms[idx].content|
    {
      assert ms[..i + 1][..i] == ms[..i];
      var n := |ms[i].content|;
      if n > size {
        idx := i;
        size := n;
      }
    }
    assert ms[..|ms|] == ms;
  }

  function NextRunes(current: nat, overage: int): int {
    var next := current - overage * 4 - 256;
    if next >= current then current / 2 else next
  }

  function CutContent(m: Message, runes: int): Message {
    m.(content := TruncateToolResult(m.content, runes))
  }

  /** One round: cut the longest content by what the prompt is over, or leave
      everything as it is when there is nothing to cut or no need to. */
  function Shrink(fields: Fields, previousSummary: string, ms: seq<Message>, maxTokens: int): seq<Message> {
    match PromptTokens(fields, previousSummary, ms)
    case None => ms
    case Some(tokens) =>
      var idx := LargestContent(ms);
      if tokens <= maxTokens || idx < 0 then ms
      else ms[idx := CutContent(ms[idx], NextRunes(|ms[idx].content|, tokens - maxTokens))]
  }

  function Fit(fields: Fields, previousSummary: string, ms: seq<Message>, maxTokens: int, rounds: nat): seq<Message> {
    if rounds == 0 then ms
    else Shrink(fields, previousSummary, Fit(fields, previousSummary, ms, maxTokens, rounds - 1), maxTokens)
  }

  const FIT_ROUNDS := 16

  method FitCompactionMessagesToBudget(
    fields: Fields, previousSummary: string, messages: seq<Message>, maxTokens: int
  ) returns (fitted: seq<Message>)
    ensures fitted == if maxTokens <= 0 then messages else Fit(fields, previousSummary, messages, maxTokens, FIT_ROUNDS)
  {
    hide PromptTokens;
    hide CutContent;
    hide LargestContent;
    hide Fit;
    hide Shrink;
    if maxTokens <= 0 {
      return messages;
    }
    fitted := messages;
    FitUnfolds(fields, previousSummary, messages, maxTokens, 0);
    for round := 0 to FIT_ROUNDS
      invariant fitted == Fit(fields, previousSummary, messages, maxTokens, round)
    {
      FitUnfolds(fields, previousSummary, messages, maxTokens, round);
      var tokens := PromptTokens(fields, previousSummary, fitted);
      if tokens == None || tokens.value <= maxTokens {
        FitIsStable(fields, previousSummary, messages, maxTokens, round, FIT_ROUNDS);
        return fitted;
      }
      var idx := LargestCompactionContentMessage(fitted);
      if idx < 0 {
        FitIsStable(fields, previousSummary, messages, maxTokens, round, FIT_ROUNDS);
        return fitted;
      }
      var overage := tokens.value - maxTokens;
      var next := NextRunes(|fitted[idx].content|, overage);
      fitted := fitted[idx := CutContent(fitted[idx], next)];
    }
  }

  lemma {:induction false} FitUnfolds(
    fields: Fields, previousSummary: string, ms: seq<Message>, maxTokens: int, rounds: nat)
    ensures Fit(fields, previousSummary, ms, maxTokens, 0) == ms
    ensures var fitted := Fit(fields, previousSummary, ms, maxTokens, rounds);
            var tokens := PromptTokens(fields, previousSummary, fitted);
            var idx := LargestContent(fitted);
            Fit(fields, previousSummary, ms, maxTokens, rounds + 1) == Shrink(fields, previousSummary, fitted, maxTokens)
            == if tokens == None || tokens.value <= maxTokens || idx < 0 then fitted
               else fitted[idx := CutContent(fitted[idx], NextRunes(|fitted[idx].content|, tokens.value - maxTokens))]
  {
    hide PromptTokens;
    hide CutContent;
    hide LargestContent;
  }

  lemma {:induction false} FitIsStable(
    fields: Fields, previousSummary: string, ms: seq<Message>, maxTokens: int, done: nat, rounds: nat)
    requires done <= rounds
    requires var fitted := Fit(fields, previousSummary, ms, maxTokens, done);
             Shrink(fields, previousSummary, fitted, maxTokens) == fitted
    ensures Fit(fields, previousSummary, ms, maxTokens, rounds) == Fit(fields, previousSummary, ms, maxTokens, done)
  {
    hide Shrink;
    if done < rounds {
      FitIsStable(fields, previousSummary, ms, maxTokens, done, rounds - 1);
    }
  }

  /** Fitting only ever touches the contents. */
  lemma {:induction false} FitKeepsTheRest(
    fields: Fields, previousSummary: string, ms: seq<Message>, maxTokens: int, rounds: nat)
    ensures var fitted := Fit(fields, previousSummary, ms, maxTokens, rounds);
            && |fitted| == |ms|
            && forall i | 0 <= i < |ms| :: fitted[i] == ms[i].(content := fitted[i].content)
  {
    hide PromptTokens;
    hide TruncateToolResult;
    if rounds > 0 {
      FitKeepsTheRest(fields, previousSummary, ms, maxTokens, rounds - 1);
    }
  }

  // One round is enough when the longest content is long

  lemma {:induction false} RenderedLength(fields: Fields, ms: seq<Message>, idx: nat, content: string)
    requires idx < |ms|
    ensures var before := RenderMessages(fields, ms);
            var after := RenderMessages(fields, ms[idx := ms[idx].(content := content)]);
            && (before.Some? <==> after.Some?)
            && (before.Some? ==>
                  |after.value| - |before.value| == |Escape(content)| - |Escape(ms[idx].content)|)
  {
    hide Escape;
    var changed := ms[idx := ms[idx].(content := content)];
    if idx == 0 {
      assert changed[1..] == ms[1..];
    } else {
      assert changed[1..] == ms[1..][idx - 1 := ms[1..][idx - 1].(content := content)];
      RenderedLength(fields, ms[1..], idx - 1, content);
    }
  }

  /** Nothing of the prompt is trimmed away when its tokens are counted. */
  lemma {:induction false} PromptIsTrimmed(fields: Fields, previousSummary: string, ms: seq<Message>)
    ensures var body := RenderPrompt(fields, previousSummary, ms);
            body.Some? ==> TrimSpace(body.value) == body.value
  {
    hide RenderMessages;
    hide TrimSpace;
    var body := RenderPrompt(fields, previousSummary, ms);
    if body.Some? {
      assert body.value[|body.value| - 1] == ']';
      assert body.value[0] == 'P' || body.value[0] == 'M';
      TrimSpaceOfTrimmed(body.value);
    }
  }

  /** Of the marker only its four line breaks are escaped. */
  lemma {:induction false} EscapedMarkerLength(subject: string, head: nat, tail: nat, omitted: nat, hint: string)
    requires Plain(subject) && Plain(TruncHint(hint))
    ensures var marker := TruncMarker(subject, head, tail, omitted, true, hint);
            |Escape(marker)| == |marker| + 4
  {
    hide TruncHint;
    hide Escape;
    hide PlainRune;
    hide Decimal;
    var h, t, o := Decimal(ApproximateTokens(head)), Decimal(ApproximateTokens(tail)), Decimal(ApproximateTokens(omitted));
    var text := MarkerText(subject, h, t, o, TruncHint(hint));
    MarkerTextIsPlain(subject, h, t, o, TruncHint(hint));
    assert TruncMarker(subject, head, tail, omitted, true, hint) == "\n\n" + text + "\n\n";
    hide MarkerText;
    EscapeOfPlain(text);
    EscapeOfConcat("\n\n" + text, "\n\n");
    EscapeOfConcat("\n\n", text);
    EscapedLineBreaks();
  }

  function MarkerText(subject: string, head: string, tail: string, omitted: string, hint: string): string {
    "[" + subject + " truncated: " + ("showing first ~" + head + " tokens and last ~" + tail + " tokens; ")
    + "omitted ~" + omitted + " tokens." + hint + "]"
  }

  lemma {:induction false} MarkerTextIsPlain(subject: string, head: string, tail: string, omitted: string, hint: string)
    requires Plain(subject) && Plain(hint)
    requires forall c <- head + tail + omitted :: '0' <= c <= '9'
    ensures Plain(MarkerText(subject, head, tail, omitted, hint))
  {
    hide PlainRune;
    LiteralsArePlain();
    DigitsArePlain(head + tail + omitted);
    assert Plain(head) && Plain(tail) && Plain(omitted) by {
      forall c | c in head || c in tail || c in omitted ensures PlainRune(c) {
        assert c in head + tail + omitted;
      }
    }
  }

  lemma {:induction false} EscapedLineBreaks()
    ensures |Escape("\n\n")| == 4
  {
    assert "\n\n"[1..] == "\n";
    assert "\n"[1..] == "";
    assert Escape("\n") == "\\n" + "";
  }

  lemma {:induction false} DigitsArePlain(s: string)
    requires forall c <- s :: '0' <= c <= '9'
    ensures Plain(s)
  {
  }

  lemma {:induction false} LiteralsArePlain()
    ensures Plain("[") && Plain(" truncated: ") && Plain("showing first ~") && Plain(" tokens and last ~")
    ensures Plain(" tokens; ") && Plain("omitted ~") && Plain(" tokens.") && Plain("]")
  {
  }

  lemma {:induction false} ToolHintIsPlain()
    ensures Plain(TruncHint(ToolHint()))
  {
    hide PlainRune;
    ToolHintText();
    hide TruncHint;
    HintPartsArePlain();
  }

  lemma {:induction false} HintPartsArePlain()
    ensures Plain(" ") && Plain("Use a narrower command, ")
    ensures Plain("line range, or search query ")
    ensures Plain("if more detail is needed") && Plain(".")
  {
  }

  lemma {:induction false} ToolMarkerJson(total: nat, runes: int)
    requires 0 < runes < total <= MAX_INT
    ensures |Escape(Marker(total, ToolConfig(runes)))| <= 227
  {
    hide ToolHint;
    hide OmissionPrefix;
    hide TruncMarker;
    hide Escape;
    hide TruncHint;
    var head := HeadRunes(ToolConfig(runes));
    ToolMarkerLength(total, runes);
    ToolHintIsPlain();
    EscapedMarkerLength("tool output", head, runes - head, total - runes, ToolHint());
  }

  /** Cutting a content to fewer runes shortens its JSON text by at least the
      cut less 227, since every rune cut takes one character or more. */
  lemma {:induction false} CutShortensJson(content: Content, runes: int)
    requires 0 < runes < |content|
    ensures |Escape(TruncateToolResult(content, runes))| <= |Escape(content)| - (|content| - runes) + 227
  {
    hide ToolHint;
    hide OmissionPrefix;
    hide TruncMarker;
    hide Escape;
    var cfg := ToolConfig(runes);
    var marker := Marker(|content|, cfg);
    var head := HeadRunes(cfg);
    var tail := |content| - (runes - head);
    ToolMarkerJson(|content|, runes);
    assert TruncateToolResult(content, runes) == content[..head] + marker + content[tail..];
    JsonOfCut(content, head, tail, marker);
  }

  lemma {:induction false} JsonOfCut(content: string, head: nat, tail: nat, marker: string)
    requires head <= tail <= |content|
    ensures |Escape(content[..head] + marker + content[tail..])|
            <= |Escape(content)| - (tail - head) + |Escape(marker)|
  {
    hide Escape;
    assert content == content[..head] + content[head..tail] + content[tail..];
    EscapeOfConcat(content[..head] + content[head..tail], content[tail..]);
    EscapeOfConcat(content[..head], content[head..tail]);
    EscapeOfConcat(content[..head] + marker, content[tail..]);
    EscapeOfConcat(content[..head], marker);
  }

  /** When the longest content has more than 4 * overage + 256 runes, one round
      brings the whole prompt within the budget. */
  lemma {:induction false} OneRoundFits(fields: Fields, previousSummary: string, ms: seq<Message>, maxTokens: int)
    requires forall m <- ms :: |m.content| <= MAX_INT
    requires var tokens := PromptTokens(fields, previousSummary, ms);
             && tokens.Some?
             && tokens.value > maxTokens
             && LargestContent(ms) >= 0
             && |ms[LargestContent(ms)].content| > 4 * (tokens.value - maxTokens) + 256
    ensures var tokens := PromptTokens(fields, previousSummary, Shrink(fields, previousSummary, ms, maxTokens));
            tokens.Some? && tokens.value <= maxTokens
  {
    hide Escape;
    hide TruncateToolResult;
    hide LargestContent;
    hide PromptTokens;
    var tokens := PromptTokens(fields, previousSummary, ms).value;
    var idx := LargestContent(ms);
    var overage := tokens - maxTokens;
    var runes := |ms[idx].content| - overage * 4 - 256;
    assert ms[idx] in ms;
    CutShortensJson(ms[idx].content, runes);
    var cut := TruncateToolResult(ms[idx].content, runes);
    assert Shrink(fields, previousSummary, ms, maxTokens) == ms[idx := ms[idx].(content := cut)];
    ShorterPrompt(fields, previousSummary, ms, idx, cut, 4 * overage + 29);
  }

  /** What is saved in the JSON text of one content is saved in the prompt. */
  lemma {:induction false} ShorterPrompt(
    fields: Fields, previousSummary: string, ms: seq<Message>, idx: nat, content: string, saved: nat)
    requires idx < |ms| && |Escape(content)| + saved <= |Escape(ms[idx].content)|
    requires PromptTokens(fields, previousSummary, ms).Some?
    ensures var after := PromptTokens(fields, previousSummary, ms[idx := ms[idx].(content := content)]);
            after.Some? && 4 * after.value <= 4 * PromptTokens(fields, previousSummary, ms).value - saved + 3
  {
    hide Escape;
    hide TrimSpace;
    hide RenderMessages;
    hide Heading;
    var after := ms[idx := ms[idx].(content := content)];
    RenderedLength(fields, ms, idx, content);
    PromptIsTrimmed(fields, previousSummary, ms);
    PromptIsTrimmed(fields, previousSummary, after);
    var bodyBefore := RenderPrompt(fields, previousSummary, ms).value;
    var bodyAfter := RenderPrompt(fields, previousSummary, after).value;
    assert |bodyAfter| + saved <= |bodyBefore|;
  }

  predicate OverBudget(fields: Fields, previousSummary: string, ms: seq<Message>, maxTokens: int) {
    var tokens := PromptTokens(fields, previousSummary, ms);
    tokens.Some? && tokens.value > maxTokens
  }

  /** Nothing left to cut, or only contents short of 4 * overage + 256 runes. */
  predicate OnlyShortContents(fields: Fields, previousSummary: string, ms: seq<Message>, maxTokens: int)
    requires OverBudget(fields, previousSummary, ms, maxTokens)
  {
    forall m <- ms :: |m.content| <= 4 * (PromptTokens(fields, previousSummary, ms).value - maxTokens) + 256
  }

  lemma {:induction false} FitKeepsContentsSmall(
    fields: Fields, previousSummary: string, ms: seq<Message>, maxTokens: int, rounds: nat)
    requires forall m <- ms :: |m.content| <= MAX_INT
    ensures forall m <- Fit(fields, previousSummary, ms, maxTokens, rounds) :: |m.content| <= MAX_INT
  {
    hide PromptTokens;
    hide TruncateToolResult;
    if rounds > 0 {
      var before := Fit(fields, previousSummary, ms, maxTokens, rounds - 1);
      FitKeepsContentsSmall(fields, previousSummary, ms, maxTokens, rounds - 1);
      var idx := LargestContent(before);
      hide LargestContent;
      if OverBudget(fields, previousSummary, before, maxTokens) && idx >= 0 {
        var overage := PromptTokens(fields, previousSummary, before).value - maxTokens;
        var next := NextRunes(|before[idx].content|, overage);
        TruncatedLength(before[idx].content, Max(0, next));
        NonPositiveRunes(before[idx].content, next);
      }
    }
  }

  lemma {:induction false} NonPositiveRunes(content: string, runes: int)
    ensures TruncateToolResult(content, runes) == TruncateToolResult(content, Max(0, runes))
  {
    hide FullOmission;
    hide ToolHint;
    hide OmissionPrefix;
  }

  /** A round that still leaves the prompt over the budget had only short
      contents before it. */
  lemma {:induction false} RoundFailsOnlyOnShortContents(
    fields: Fields, previousSummary: string, ms: seq<Message>, maxTokens: int)
    requires forall m <- ms :: |m.content| <= MAX_INT
    requires OverBudget(fields, previousSummary, Shrink(fields, previousSummary, ms, maxTokens), maxTokens)
    ensures OverBudget(fields, previousSummary, ms, maxTokens)
    ensures OnlyShortContents(fields, previousSummary, ms, maxTokens)
  {
    hide PromptTokens;
    hide CutContent;
    hide LargestContent;
    var tokens := PromptTokens(fields, previousSummary, ms);
    var idx := LargestContent(ms);
    if tokens.Some? && tokens.value > maxTokens && idx >= 0
       && |ms[idx].content| > 4 * (tokens.value - maxTokens) + 256 {
      OneRoundFits(fields, previousSummary, ms, maxTokens);
    }
  }

  /** Fitting ends over the budget only when every single round, up to the
      last, found nothing but short contents. */
  lemma {:induction false} FitFailsOnlyOnShortContents(
    fields: Fields, previousSummary: string, ms: seq<Message>, maxTokens: int, rounds: nat, k: nat)
    requires forall m <- ms :: |m.content| <= MAX_INT
    requires k < rounds
    requires OverBudget(fields, previousSummary, Fit(fields, previousSummary, ms, maxTokens, rounds), maxTokens)
    ensures OverBudget(fields, previousSummary, Fit(fields, previousSummary, ms, maxTokens, k), maxTokens)
    ensures OnlyShortContents(fields, previousSummary, Fit(fields, previousSummary, ms, maxTokens, k), maxTokens)
    decreases rounds
  {
    hide OverBudget;
    hide OnlyShortContents;
    hide Shrink;
    var last := Fit(fields, previousSummary, ms, maxTokens, rounds - 1);
    FitKeepsContentsSmall(fields, previousSummary, ms, maxTokens, rounds - 1);
    RoundFailsOnlyOnShortContents(fields, previousSummary, last, maxTokens);
    if k < rounds - 1 {
      FitFailsOnlyOnShortContents(fields, previousSummary, ms, maxTokens, rounds - 1, k);
    }
  }

  // A round can make the prompt longer

  lemma {:induction false} NoticePartsArePlain()
    ensures Plain("[tool output truncated: output omitted ") && Plain("because the context is full;")
    ensures Plain(" omitted ~") && Plain(" tokens.") && Plain("]")
  {
  }

  /** The notice that replaces a content is written as it is. */
  lemma {:induction false} NoticeJson(total: nat)
    ensures |Escape(FullOmission(OmissionPrefix(), total, ToolHint()))| == 164 + |Decimal(ApproximateTokens(total))|
  {
    hide PlainRune;
    hide Decimal;
    hide Escape;
    var digits := Decimal(ApproximateTokens(total));
    NoticePartsArePlain();
    ToolHintIsPlain();
    ToolHintText();
    hide TruncHint;
    DigitsArePlain(digits);
    assert Plain(OmissionPrefix());
    assert |OmissionPrefix()| == 67;
    hide OmissionPrefix;
    var notice := FullOmission(OmissionPrefix(), total, ToolHint());
    assert notice == OmissionPrefix() + " omitted ~" + digits + " tokens." + TruncHint(ToolHint()) + "]";
    assert Plain(notice);
    EscapeOfPlain(notice);
  }

  /** The prompt grows by what the JSON text of the content grows. */
  lemma {:induction false} PromptLength(
    fields: Fields, previousSummary: string, ms: seq<Message>, idx: nat, content: string)
    requires idx < |ms|
    ensures var before := RenderPrompt(fields, previousSummary, ms);
            var after := RenderPrompt(fields, previousSummary, ms[idx := ms[idx].(content := content)]);
            && (before.Some? <==> after.Some?)
            && (before.Some? ==> |after.value| - |before.value| == |Escape(content)| - |Escape(ms[idx].content)|)
  {
    hide Escape;
    hide RenderMessages;
    hide Heading;
    RenderedLength(fields, ms, idx, content);
  }

  /** The content that a round cuts, and by how many tokens the prompt is over. */
  predicate RoundCuts(
    fields: Fields, previousSummary: string, ms: seq<Message>, maxTokens: int, content: string, overage: int)
  {
    && OverBudget(fields, previousSummary, ms, maxTokens)
    && overage == PromptTokens(fields, previousSummary, ms).value - maxTokens
    && LargestContent(ms) >= 0 && content == ms[LargestContent(ms)].content
  }

  /** A round does not lengthen the prompt exactly when the longest content has more
      than 4 * overage + 256 runes, or its JSON text is at least as long as the notice
      that takes its place. */
  lemma {:induction false} RoundDoesNotLengthenIff(
    fields: Fields, previousSummary: string, ms: seq<Message>, maxTokens: int, content: Content, overage: int)
    requires RoundCuts(fields, previousSummary, ms, maxTokens, content, overage)
    ensures var before := RenderPrompt(fields, previousSummary, ms);
            var after := RenderPrompt(fields, previousSummary, Shrink(fields, previousSummary, ms, maxTokens));
            && before.Some? && after.Some?
            && (|after.value| <= |before.value|
                <==> || |content| > 4 * overage + 256
                     || |Escape(content)| >= 164 + |Decimal(ApproximateTokens(|content|))|)
  {
    hide Escape;
    hide Decimal;
    hide LargestContent;
    hide RenderPrompt;
    hide TextTokens;
    var idx := LargestContent(ms);
    var runes := |content| - overage * 4 - 256;
    var cut := TruncateToolResult(content, runes);
    hide TruncateToolResult;
    assert Shrink(fields, previousSummary, ms, maxTokens) == ms[idx := ms[idx].(content := cut)];
    hide Shrink;
    PromptLength(fields, previousSummary, ms, idx, cut);
    if runes > 0 {
      CutShortensJson(content, runes);
    } else {
      CutToNothing(content, runes);
      NoticeJson(|content|);
    }
  }

  lemma {:induction false} CutToNothing(content: string, runes: int)
    requires runes <= 0
    ensures TruncateToolResult(content, runes) == FullOmission(OmissionPrefix(), |content|, ToolHint())
  {
    hide ToolHint;
    hide OmissionPrefix;
    hide FullOmission;
  }

  /** So a short content makes it longer, in tokens too: the notice takes more. */
  lemma {:induction false} ShortContentLengthens(
    fields: Fields, previousSummary: string, ms: seq<Message>, maxTokens: int, content: Content, overage: int)
    requires RoundCuts(fields, previousSummary, ms, maxTokens, content, overage)
    requires |content| <= 4 * overage + 256 && |Escape(content)| <= 161
    ensures var after := PromptTokens(fields, previousSummary, Shrink(fields, previousSummary, ms, maxTokens));
            after.Some? && after.value > PromptTokens(fields, previousSummary, ms).value
  {
    hide Escape;
    hide LargestContent;
    hide RenderMessages;
    hide Heading;
    hide TrimSpace;
    var idx := LargestContent(ms);
    var runes := |content| - overage * 4 - 256;
    var cut := TruncateToolResult(content, runes);
    CutToNothing(content, runes);
    hide TruncateToolResult;
    var after := ms[idx := ms[idx].(content := cut)];
    assert Shrink(fields, previousSummary, ms, maxTokens) == after;
    hide Shrink;
    PromptLength(fields, previousSummary, ms, idx, cut);
    NoticeJson(|content|);
    hide Decimal;
    PromptIsTrimmed(fields, previousSummary, ms);
    PromptIsTrimmed(fields, previousSummary, after);
    hide RenderPrompt;
  }
}
