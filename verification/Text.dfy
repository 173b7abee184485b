/** Strings as sequences of code points, with the few string operations the
    agent relies on: trimming white space, prefixes and suffixes, decimals. */
module Text {

  /** The code points that Go's unicode.IsSpace accepts. */
  predicate IsSpace(c: char) {
    || c == ' ' || '\t' <= c <= '\r'
    || c == '\U{85}' || c == '\U{A0}' || c == '\U{1680}'
    || '\U{2000}' <= c <= '\U{200A}'
    || c == '\U{2028}' || c == '\U{2029}' || c == '\U{202F}' || c == '\U{205F}' || c == '\U{3000}'
  }

  function TrimLeft(s: string): (t: string)
    ensures |t| <= |s| && t == s[|s| - |t|..]
    ensures t != [] ==> !IsSpace(t[0])
  {
    if s != [] && IsSpace(s[0]) then TrimLeft(s[1..]) else s
  }

  function TrimRight(s: string): (t: string)
    ensures t <= s
    ensures t != [] ==> !IsSpace(t[|t| - 1])
  {
    if s != [] && IsSpace(s[|s| - 1]) then TrimRight(s[..|s| - 1]) else s
  }

  function TrimSpace(s: string): (t: string)
    ensures |t| <= |s|
    ensures t != [] ==> !IsSpace(t[0]) && !IsSpace(t[|t| - 1])
  {
    TrimRight(TrimLeft(s))
  }

  /** A text that neither begins nor ends with white space is its own trim. */
  predicate Trimmed(s: string) {
    s == [] || (!IsSpace(s[0]) && !IsSpace(s[|s| - 1]))
  }

  lemma {:induction false} TrimSpaceOfTrimmed(s: string)
    requires Trimmed(s)
    ensures TrimSpace(s) == s
  {
  }

  lemma {:induction false} TrimLeftOfPadded(pad: string, s: string)
    requires forall c <- pad :: IsSpace(c)
    requires s == [] || !IsSpace(s[0])
    ensures TrimLeft(pad + s) == s
  {
    if pad == [] {
      assert pad + s == s;
    } else {
      assert (pad + s)[1..] == pad[1..] + s;
      TrimLeftOfPadded(pad[1..], s);
    }
  }

  lemma {:induction false} TrimRightOfPadded(s: string, pad: string)
    requires forall c <- pad :: IsSpace(c)
    requires s == [] || !IsSpace(s[|s| - 1])
    ensures TrimRight(s + pad) == s
  {
    if pad == [] {
      assert s + pad == s;
    } else {
      var p := pad[..|pad| - 1];
      assert (s + pad)[..|s + pad| - 1] == s + p;
      TrimRightOfPadded(s, p);
    }
  }

  /** Padding a trimmed text with white space does not change its trim. */
  lemma {:induction false} TrimSpaceOfPadded(front: string, s: string, back: string)
    requires forall c <- front + back :: IsSpace(c)
    requires Trimmed(s)
    ensures TrimSpace(front + s + back) == s
  {
    forall c | c in front ensures IsSpace(c) { assert c in front + back; }
    forall c | c in back ensures IsSpace(c) { assert c in front + back; }
    if s == [] {
      assert front + s + back == (front + back) + [];
      TrimLeftOfPadded(front + back, []);
    } else {
      assert front + s + back == front + (s + back);
      TrimLeftOfPadded(front, s + back);
      TrimRightOfPadded(s, back);
    }
  }

  predicate HasPrefix(s: string, prefix: string) {
    prefix <= s
  }

  predicate HasSuffix(s: string, suffix: string) {
    |suffix| <= |s| && s[|s| - |suffix|..] == suffix
  }

  predicate OccursAt(s: string, part: string, i: nat) {
    i + |part| <= |s| && s[i..i + |part|] == part
  }

  predicate Contains(s: string, part: string) {
    exists i | 0 <= i <= |s| :: OccursAt(s, part, i)
  }

  function TrimPrefix(s: string, prefix: string): string {
    if HasPrefix(s, prefix) then s[|prefix|..] else s
  }

  function TrimSuffix(s: string, suffix: string): string {
    if HasSuffix(s, suffix) then s[..|s| - |suffix|] else s
  }

  /** The decimal digits of n, as %d prints them. */
  function Decimal(n: nat): (s: string)
    ensures |s| > 0
    ensures forall c <- s :: '0' <= c <= '9'
  {
    if n < 10 then [Digit(n)] else Decimal(n / 10) + [Digit(n % 10)]
  }

  function Digit(d: nat): (c: char)
    requires d < 10
    ensures '0' <= c <= '9'
  {
    '0' + d as char
  }

  /** Different numbers print differently. */
  lemma {:induction false} DecimalIsInjective(m: nat, n: nat)
    ensures Decimal(m) == Decimal(n) <==> m == n
  {
    var s, t := Decimal(m), Decimal(n);
    if s == t {
      LastDigit(m);
      LastDigit(n);
      if m >= 10 {
        DecimalIsInjective(m / 10, n / 10);
      }
    }
  }

  lemma {:induction false} LastDigit(n: nat)
    ensures var s := Decimal(n);
            && s[|s| - 1] == Digit(n % 10)
            && s[..|s| - 1] == (if n < 10 then "" else Decimal(n / 10))
  {
  }

  function Pow10(k: nat): nat {
    if k == 0 then 1 else 10 * Pow10(k - 1)
  }

  /** A number below 10^k prints in at most k digits. */
  lemma {:induction false} DecimalWidth(n: nat, k: nat)
    requires k > 0 && n < Pow10(k)
    ensures |Decimal(n)| <= k
  {
    assert Pow10(1) == 10;
    if n >= 10 {
      DecimalWidth(n / 10, k - 1);
    }
  }

  const MAX_INT := 0x7fff_ffff_ffff_ffff

  /** A text that fits in memory: its length is a 64-bit signed integer. */
  type Content = s: string | |s| <= MAX_INT

  /** A text short enough to be quoted inside another. */
  type Phrase = s: string | |s| <= MAX_INT / 2

  /** Any non-negative 64-bit signed integer prints in at most 19 digits. */
  lemma {:induction false} DecimalWidthOfInt(n: nat)
    requires n <= MAX_INT
    ensures |Decimal(n)| <= 19
  {
    assert Pow10(5) == 100_000;
    assert Pow10(10) == 10_000_000_000;
    assert Pow10(15) == 1_000_000_000_000_000;
    DecimalWidth(n, 19);
  }
}
