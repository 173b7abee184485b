/** Size estimates and the truncation of long texts, agent/session.go. */
module Truncation {
  import opened Text

  /** About four characters to a token, rounded up. */
  function ApproximateTokens(n: int): (t: nat)
    ensures n > 0 ==> 4 * (t - 1) < n <= 4 * t
    ensures n <= 0 ==> t == 0
  {
    if n <= 0 then 0 else Max(1, (n + 3) / 4)
  }

  function Max(a: int, b: int): int {
    if a >= b then a else b
  }

  function Min(a: int, b: int): int {
    if a <= b then a else b
  }

  /** The tokens of a text, not counting the white space around it. */
  function TextTokens(s: string): (t: nat)
    ensures t <= ApproximateTokens(|s|)
  {
    ApproximateTokens(|TrimSpace(s)|)
  }

  datatype TruncateConfig = TruncateConfig(
    maxRunes: int,
    headTail: bool,
    headPct: nat,
    subject: string,
    hint: string,
    fullOmissionPrefix: string)

  function TruncHint(hint: string): string {
    var h := TrimSpace(hint);
    if h == "" then ""
    else if HasSuffix(h, ".") then " " + h
    else " " + h + "."
  }

  function TruncMarker(subject: string, head: nat, tail: nat, omitted: nat, headTail: bool, hint: string): string {
    "\n\n[" + subject + " truncated: "
    + (if headTail
       then "showing first ~" + Decimal(ApproximateTokens(head)) + " tokens and last ~"
            + Decimal(ApproximateTokens(tail)) + " tokens; "
       else "showing first ~" + Decimal(ApproximateTokens(head)) + " tokens; ")
    + "omitted ~" + Decimal(ApproximateTokens(omitted)) + " tokens." + TruncHint(hint) + "]"
    + (if headTail then "\n\n" else "")
  }

  function FullOmission(prefix: string, total: nat, hint: string): string {
    prefix + " omitted ~" + Decimal(ApproximateTokens(total)) + " tokens." + TruncHint(hint) + "]"
  }

  lemma {:induction false} TruncMarkerLength(subject: string, head: nat, tail: nat, omitted: nat, hint: string)
    requires head <= MAX_INT && tail <= MAX_INT && omitted <= MAX_INT
    ensures |TruncMarker(subject, head, tail, omitted, true, hint)| <= 134 + |subject| + |TruncHint(hint)|
  {
    DecimalWidthOfInt(ApproximateTokens(head));
    DecimalWidthOfInt(ApproximateTokens(tail));
    DecimalWidthOfInt(ApproximateTokens(omitted));
  }

  lemma {:induction false} FullOmissionLength(prefix: string, total: nat, hint: string)
    requires total <= MAX_INT
    ensures |FullOmission(prefix, total, hint)| <= 38 + |prefix| + |TruncHint(hint)|
    ensures HasPrefix(FullOmission(prefix, total, hint), prefix)
  {
    DecimalWidthOfInt(ApproximateTokens(total));
  }

  lemma {:induction false} FullOmissionTokens(prefix: string, total: nat, hint: string)
    requires prefix != "" && !IsSpace(prefix[0])
    ensures TextTokens(FullOmission(prefix, total, hint)) >= ApproximateTokens(20 + |prefix| + |TruncHint(hint)|)
  {
    hide TruncHint;
    hide Decimal;
    var notice := FullOmission(prefix, total, hint);
    assert notice[0] == prefix[0] && notice[|notice| - 1] == ']';
    TrimSpaceOfTrimmed(notice);
  }

  lemma {:induction false} TruncHintOfSentence(hint: string)
    requires hint != "" && Trimmed(hint) && hint[|hint| - 1] == '.'
    ensures TruncHint(hint) == " " + hint
  {
    TrimSpaceOfTrimmed(hint);
    assert hint[|hint| - 1..] == ".";
  }

  /** How many runes of the front survive a truncation to maxRunes. */
  function HeadRunes(cfg: TruncateConfig): (h: int)
    requires cfg.maxRunes > 0 && cfg.headPct <= 100
    ensures 0 <= h <= cfg.maxRunes
  {
    if cfg.headTail then
      PercentOf(cfg.maxRunes, cfg.headPct);
      cfg.maxRunes * cfg.headPct / 100
    else cfg.maxRunes
  }

  lemma {:induction false} PercentOf(n: nat, pct: nat)
    requires pct <= 100
    ensures 0 <= n * pct / 100 <= n
  {
    assert n * pct <= n * 100;
  }

  function Marker(total: nat, cfg: TruncateConfig): string
    requires 0 < cfg.maxRunes <= total && cfg.headPct <= 100
  {
    var head := HeadRunes(cfg);
    var tail := cfg.maxRunes - head;
    TruncMarker(cfg.subject, head, tail, total - head - tail, cfg.headTail, cfg.hint)
  }

  function Truncate(content: string, cfg: TruncateConfig): string
    requires cfg.headPct <= 100
  {
    var total := |content|;
    if cfg.maxRunes <= 0 then
      FullOmission(cfg.fullOmissionPrefix, total, cfg.hint)
    else if total <= cfg.maxRunes then
      content
    else if !cfg.headTail then
      var head := cfg.maxRunes;
      content[..head] + TruncMarker(cfg.subject, head, 0, total - head, false, cfg.hint)
    else
      var head := HeadRunes(cfg);
      var tail := cfg.maxRunes - head;
      content[..head]
      + TruncMarker(cfg.subject, head, tail, total - head - tail, true, cfg.hint)
      + content[total - tail..]
  }

  lemma {:induction false} TruncateIsEndsAndMarker(content: string, cfg: TruncateConfig)
    requires cfg.headPct <= 100 && 0 < cfg.maxRunes < |content|
    ensures var head := HeadRunes(cfg);
            Truncate(content, cfg)
            == content[..head] + Marker(|content|, cfg) + content[|content| - (cfg.maxRunes - head)..]
  {
  }

  /** A truncated text keeps exactly maxRunes runes of the original, those at its
      two ends, around one marker that tells how much is missing. */
  lemma {:induction false} TruncateKeepsBothEnds(content: string, cfg: TruncateConfig)
    requires cfg.headPct <= 100 && 0 < cfg.maxRunes < |content|
    ensures var t := Truncate(content, cfg);
            var head := HeadRunes(cfg);
            var marker := Marker(|content|, cfg);
            && |t| == cfg.maxRunes + |marker|
            && t[..head] == content[..head]
            && t[head..head + |marker|] == marker
            && t[head + |marker|..] == content[|content| - (cfg.maxRunes - head)..]
  {
    TruncateIsEndsAndMarker(content, cfg);
    hide Truncate;
    hide Marker;
    hide HeadRunes;
  }

  /** Truncating a second time drops the first marker and recounts what is
      missing as the size of that marker: the ends stay, the count is lost. */
  lemma {:induction false} TruncateAgain(content: string, cfg: TruncateConfig)
    requires cfg.headPct <= 100 && 0 < cfg.maxRunes < |content|
    ensures var marker := Marker(|content|, cfg);
            var head := HeadRunes(cfg);
            var tail := cfg.maxRunes - head;
            |marker| > 0 &&
            Truncate(Truncate(content, cfg), cfg)
            == content[..head] + Marker(cfg.maxRunes + |marker|, cfg) + content[|content| - tail..]
  {
    hide Marker;
    hide HeadRunes;
    hide Truncate;
    hide TruncMarker;
    MarkerIsNotEmpty(|content|, cfg);
    TruncateIsEndsAndMarker(content, cfg);
    var t := Truncate(content, cfg);
    var head := HeadRunes(cfg);
    var tail := cfg.maxRunes - head;
    TruncateIsEndsAndMarker(t, cfg);
    assert t[..head] == content[..head];
    assert t[|t| - tail..] == content[|content| - tail..];
  }

  lemma {:induction false} MarkerIsNotEmpty(total: nat, cfg: TruncateConfig)
    requires 0 < cfg.maxRunes <= total && cfg.headPct <= 100
    ensures |Marker(total, cfg)| > 0
  {
  }

  /** Two markers for the same ends are equal when they print the same count. */
  lemma {:induction false} MarkersAgreeIff(
    subject: string, head: nat, tail: nat, one: nat, other: nat, headTail: bool, hint: string)
    ensures TruncMarker(subject, head, tail, one, headTail, hint) == TruncMarker(subject, head, tail, other, headTail, hint)
            <==> ApproximateTokens(one) == ApproximateTokens(other)
  {
    var m, n := ApproximateTokens(one), ApproximateTokens(other);
    DecimalIsInjective(m, n);
    hide Decimal;
    hide TruncHint;
    hide ApproximateTokens;
    var front := "\n\n[" + subject + " truncated: "
               + (if headTail
                  then "showing first ~" + Decimal(ApproximateTokens(head)) + " tokens and last ~"
                       + Decimal(ApproximateTokens(tail)) + " tokens; "
                  else "showing first ~" + Decimal(ApproximateTokens(head)) + " tokens; ")
               + "omitted ~";
    var back := " tokens." + TruncHint(hint) + "]" + (if headTail then "\n\n" else "");
    assert TruncMarker(subject, head, tail, one, headTail, hint) == front + Decimal(m) + back;
    assert TruncMarker(subject, head, tail, other, headTail, hint) == front + Decimal(n) + back;
    BetweenAgrees(front, Decimal(m), Decimal(n), back);
  }

  lemma {:induction false} BetweenAgrees(front: string, one: string, other: string, back: string)
    ensures front + one + back == front + other + back <==> one == other
  {
    var x, y := front + one + back, front + other + back;
    assert x[|front|..|x| - |back|] == one;
    assert y[|front|..|y| - |back|] == other;
  }

  lemma {:induction false} SplitInThree(s: string, head: nat, size: nat)
    requires head + size <= |s|
    ensures s == s[..head] + s[head..head + size] + s[head + size..]
  {
  }

  /** Truncation is not idempotent: a second one changes nothing exactly when the
      marker prints as many tokens as it has itself. */
  lemma {:induction false} TruncateAgainIff(content: string, cfg: TruncateConfig)
    requires cfg.headPct <= 100 && 0 < cfg.maxRunes < |content|
    ensures Truncate(Truncate(content, cfg), cfg) == Truncate(content, cfg)
            <==> ApproximateTokens(|Marker(|content|, cfg)|) == ApproximateTokens(|content| - cfg.maxRunes)
  {
    hide Truncate;
    hide TruncMarker;
    hide ApproximateTokens;
    hide HeadRunes;
    var head := HeadRunes(cfg);
    var tail := cfg.maxRunes - head;
    var size := |Marker(|content|, cfg)|;
    TruncateIsEndsAndMarker(content, cfg);
    TruncateAgain(content, cfg);
    MarkersAgreeIff(cfg.subject, head, tail, |content| - cfg.maxRunes, size, cfg.headTail, cfg.hint);
    BetweenAgrees(
      content[..head], Marker(|content|, cfg), Marker(cfg.maxRunes + size, cfg), content[|content| - tail..]);
  }

  /** A short prefix of a text survives truncation, and none appears. */
  lemma {:induction false} TruncateKeepsPrefix(content: string, cfg: TruncateConfig, prefix: string)
    requires cfg.headPct <= 100 && cfg.maxRunes > 0 && |prefix| <= HeadRunes(cfg)
    ensures HasPrefix(Truncate(content, cfg), prefix) <==> HasPrefix(content, prefix)
  {
    if cfg.maxRunes < |content| {
      TruncateKeepsBothEnds(content, cfg);
      var t := Truncate(content, cfg);
      var head := HeadRunes(cfg);
      assert t[..head][..|prefix|] == t[..|prefix|];
      assert content[..head][..|prefix|] == content[..|prefix|];
    }
  }
}
