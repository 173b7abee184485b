/** Rewriting of non-finite JSON numbers, convert/json_compat.go. */
module JsonCompat {

  type Byte = c: char | c as int < 256 witness ' '

  predicate IsJsonWhitespace(b: Byte) {
    b == ' ' || b == '\t' || b == '\n' || b == '\r'
  }

  predicate IsValuePrefixBoundary(b: Byte) {
    IsJsonWhitespace(b) || b == ':' || b == ',' || b == '['
  }

  predicate IsValueSuffixBoundary(b: Byte) {
    IsJsonWhitespace(b) || b == ',' || b == ']' || b == '}'
  }

  /** hasToken: whether the whole token stands at the given place. */
  predicate HasToken(s: seq<Byte>, at: int, tok: seq<Byte>) {
    && 0 <= at && at + |tok| <= |s|
    && s[at..at + |tok|] == tok
    && (at > 0 ==> IsValuePrefixBoundary(s[at - 1]))
    && (at + |tok| < |s| ==> IsValueSuffixBoundary(s[at + |tok|]))
  }

  function NegativeInfinity(): seq<Byte> {
    "-Infinity"
  }

  function Infinity(): seq<Byte> {
    "Infinity"
  }

  function NotANumber(): seq<Byte> {
    "NaN"
  }

  predicate IsToken(tok: seq<Byte>) {
    tok == NegativeInfinity() || tok == Infinity() || tok == NotANumber()
  }

  // What the result is, place by place

  datatype Mode = Outside | InString | Escaped

  function Next(m: Mode, b: Byte): Mode {
    match m
    case Outside => if b == '"' then InString else Outside
    case InString => if b == '\\' then Escaped else if b == '"' then Outside else InString
    case Escaped => InString
  }

  /** Whether place i is in a string, read from the start. */
  function ModeAt(s: seq<Byte>, i: nat): Mode
    requires i <= |s|
    decreases i
  {
    if i == 0 then Outside else Next(ModeAt(s, i - 1), s[i - 1])
  }

  /** A whole token outside of strings starts at i. */
  ghost predicate Starts(s: seq<Byte>, i: nat, tok: seq<Byte>)
    requires i <= |s|
  {
    ModeAt(s, i) == Outside && IsToken(tok) && HasToken(s, i, tok)
  }

  ghost predicate IsStart(s: seq<Byte>, i: nat)
    requires i <= |s|
  {
    exists tok: seq<Byte> :: Starts(s, i, tok)
  }

  /** Place i is within such a token, but not where it starts. */
  ghost predicate IsInner(s: seq<Byte>, i: nat)
    requires i <= |s|
  {
    exists j: nat, tok: seq<Byte> :: j < i < j + |tok| && Starts(s, j, tok)
  }

  /** What place i contributes: 0 for the first byte of a token, nothing for the
      others, and elsewhere the byte itself. */
  ghost function Piece(s: seq<Byte>, i: nat): seq<Byte>
    requires i < |s|
  {
    if IsStart(s, i) then "0" else if IsInner(s, i) then [] else [s[i]]
  }

  ghost function Pieces(s: seq<Byte>, i: nat): (out: seq<Byte>)
    requires i <= |s|
    ensures |out| <= i
    decreases i
  {
    if i == 0 then [] else Pieces(s, i - 1) + Piece(s, i - 1)
  }

  ghost function Sanitized(s: seq<Byte>): (out: seq<Byte>)
    ensures |out| <= |s|
  {
    Pieces(s, |s|)
  }

  // Tokens

  lemma {:induction false} TokenBytes(tok: seq<Byte>, k: nat)
    requires IsToken(tok) && k < |tok|
    ensures tok[k] != '"' && tok[k] != '0'
    ensures !IsValuePrefixBoundary(tok[k])
    ensures k > 0 ==> !IsValuePrefixBoundary(tok[k - 1])
  {
  }

  lemma {:induction false} TokenIsLong(tok: seq<Byte>)
    requires IsToken(tok)
    ensures |tok| >= 3
  {
  }

  lemma {:induction false} OneToken(s: seq<Byte>, i: nat, tok: seq<Byte>, other: seq<Byte>)
    requires i <= |s| && Starts(s, i, tok) && Starts(s, i, other)
    ensures tok == other
  {
    TokenIsLong(tok);
    TokenIsLong(other);
    assert s[i] == s[i..i + |tok|][0] == tok[0];
    assert s[i] == s[i..i + |other|][0] == other[0];
    assert tok[0] == other[0];
  }

  /** The bytes of a token outside strings are outside strings, and no token starts
      at another one of them. */
  lemma {:induction false} WithinToken(s: seq<Byte>, j: nat, tok: seq<Byte>, k: nat)
    requires j <= |s| && Starts(s, j, tok) && k <= |tok|
    ensures j + k <= |s| && ModeAt(s, j + k) == Outside
    ensures k < |tok| ==> s[j + k] == tok[k] && s[j + k] != '"'
    ensures 0 < k < |tok| ==> !IsStart(s, j + k)
    decreases k
  {
    hide IsToken;
    if k < |tok| {
      assert s[j + k] == s[j..j + |tok|][k];
      TokenBytes(tok, k);
    }
    if k > 0 {
      WithinToken(s, j, tok, k - 1);
      assert s[j + k - 1] == s[j..j + |tok|][k - 1];
      TokenBytes(tok, k - 1);
    }
  }

  lemma {:induction false} InnerIsOutside(s: seq<Byte>, i: nat)
    requires i < |s| && IsInner(s, i)
    ensures ModeAt(s, i) == Outside && s[i] != '"' && !IsStart(s, i)
  {
    var j: nat, tok: seq<Byte> :| j < i < j + |tok| && Starts(s, j, tok);
    hide Starts;
    hide ModeAt;
    hide IsStart;
    WithinToken(s, j, tok, i - j);
  }

  /** Strings are copied, with their quotes. */
  lemma {:induction false} StringsAreCopied(s: seq<Byte>, i: nat)
    requires i < |s| && (ModeAt(s, i) != Outside || s[i] == '"')
    ensures Piece(s, i) == [s[i]]
  {
    hide HasToken;
    if IsInner(s, i) {
      InnerIsOutside(s, i);
    } else if IsStart(s, i) {
      StartIsOutside(s, i);
    }
  }

  lemma {:induction false} StartIsOutside(s: seq<Byte>, i: nat)
    requires i <= |s| && IsStart(s, i)
    ensures i < |s| && ModeAt(s, i) == Outside && s[i] != '"' && s[i] != '0'
  {
    var tok: seq<Byte> :| Starts(s, i, tok);
    TokenIsLong(tok);
    WithinToken(s, i, tok, 0);
    TokenBytes(tok, 0);
  }

  // Places of the output

  /** Behind a copied byte no token goes on; behind a token it has ended. */
  lemma {:induction false} NextPlace(s: seq<Byte>, i: nat)
    requires i < |s| && !IsInner(s, i) && !IsStart(s, i)
    ensures !IsInner(s, i + 1)
  {
    hide Starts;
  }

  lemma {:induction false} EndOfToken(s: seq<Byte>, i: nat, tok: seq<Byte>)
    requires i <= |s| && Starts(s, i, tok)
    ensures i + |tok| <= |s| && !IsInner(s, i + |tok|)
    ensures forall k | i < k < i + |tok| :: Piece(s, k) == []
  {
    hide IsToken;
    WithinToken(s, i, tok, |tok|);
    if IsInner(s, i + |tok|) {
      var j: nat, other: seq<Byte> :| j < i + |tok| < j + |other| && Starts(s, j, other);
      NoOverlap(s, i, tok, j, other);
    }
    forall k | i < k < i + |tok| ensures Piece(s, k) == [] {
      assert IsInner(s, k);
      InnerIsOutside(s, k);
    }
  }

  /** A token starts behind a boundary, so not within another token. */
  lemma {:induction false} NoOverlap(s: seq<Byte>, i: nat, tok: seq<Byte>, j: nat, other: seq<Byte>)
    requires i <= |s| && j <= |s| && Starts(s, i, tok) && Starts(s, j, other)
    ensures i < j ==> i + |tok| <= j
    ensures i > j ==> j + |other| <= i
    ensures i == j ==> tok == other
  {
    hide Starts;
    if i < j {
      assert IsStart(s, j);
      if j < i + |tok| {
        WithinToken(s, i, tok, j - i);
      }
    } else if j < i {
      assert IsStart(s, i);
      if i < j + |other| {
        WithinToken(s, j, other, i - j);
      }
    } else {
      OneToken(s, i, tok, other);
    }
  }

  lemma {:induction false} PiecesOverToken(s: seq<Byte>, i: nat, tok: seq<Byte>, k: nat)
    requires i <= |s| && Starts(s, i, tok) && 1 <= k <= |tok|
    ensures i + k <= |s| && Pieces(s, i + k) == Pieces(s, i) + "0"
    decreases k
  {
    hide Starts;
    EndOfToken(s, i, tok);
    assert IsStart(s, i);
    assert Piece(s, i) == "0";
    hide Piece;
    if k > 1 {
      PiecesOverToken(s, i, tok, k - 1);
      assert Piece(s, i + k - 1) == [];
    }
  }

  /** The rewritten text is read in the same mode. */
  lemma {:induction false} ModeIsKept(s: seq<Byte>, i: nat)
    requires i <= |s|
    ensures ModeAt(Pieces(s, i), |Pieces(s, i)|) == ModeAt(s, i)
    decreases i
  {
    hide IsStart;
    hide IsInner;
    if i > 0 {
      ModeIsKept(s, i - 1);
      var before := Pieces(s, i - 1);
      if IsStart(s, i - 1) {
        StartIsOutside(s, i - 1);
        ModeOfAppended(before, '0');
      } else if IsInner(s, i - 1) {
        InnerIsOutside(s, i - 1);
        assert Pieces(s, i) == before;
      } else {
        ModeOfAppended(before, s[i - 1]);
      }
    }
  }

  lemma {:induction false} ModeOfPrefix(s: seq<Byte>, t: seq<Byte>, i: nat)
    requires i <= |s| && i <= |t| && s[..i] == t[..i]
    ensures ModeAt(s, i) == ModeAt(t, i)
    decreases i
  {
    if i > 0 {
      assert s[..i][i - 1] == t[..i][i - 1];
      assert s[..i - 1] == s[..i][..i - 1] == t[..i][..i - 1] == t[..i - 1];
      ModeOfPrefix(s, t, i - 1);
    }
  }

  lemma {:induction false} ModeOfAppended(s: seq<Byte>, b: Byte)
    ensures ModeAt(s + [b], |s| + 1) == Next(ModeAt(s, |s|), b)
  {
    assert (s + [b])[..|s|] == s[..|s|];
    ModeOfPrefix(s + [b], s, |s|);
  }

  lemma {:induction false} PiecesGrow(s: seq<Byte>, i: nat, j: nat)
    requires i <= j <= |s|
    ensures Pieces(s, i) <= Pieces(s, j)
    decreases j
  {
    hide Piece;
    if i < j {
      PiecesGrow(s, i, j - 1);
    }
  }

  /** Every byte of the output is the piece of one place. */
  lemma {:induction false} PlaceOf(s: seq<Byte>, n: nat, p: nat) returns (i: nat)
    requires n <= |s| && p < |Pieces(s, n)|
    ensures i < n && |Pieces(s, i)| == p && Piece(s, i) == [Pieces(s, n)[p]]
    decreases n
  {
    hide IsStart;
    hide IsInner;
    assert |Piece(s, n - 1)| <= 1;
    hide Piece;
    if p < |Pieces(s, n - 1)| {
      i := PlaceOf(s, n - 1, p);
    } else {
      i := n - 1;
    }
  }

  lemma {:induction false} PieceOfPlace(s: seq<Byte>, i: nat)
    requires i < |s| && !IsInner(s, i)
    ensures Pieces(s, i + 1) == Pieces(s, i) + Piece(s, i) && |Piece(s, i)| == 1
    ensures IsStart(s, i) ==> Piece(s, i) == "0"
    ensures !IsStart(s, i) ==> Piece(s, i) == [s[i]]
  {
    hide IsStart;
    hide IsInner;
  }

  /** Bytes of the output that are no zeros were copied, and the place behind them
      is that of the next byte. */
  lemma {:induction false} CopiedByte(s: seq<Byte>, i: nat)
    requires i < |s| && !IsInner(s, i)
    ensures |Pieces(s, i)| < |Sanitized(s)|
    ensures Sanitized(s)[..|Pieces(s, i)|] == Pieces(s, i)
    ensures Piece(s, i) == [Sanitized(s)[|Pieces(s, i)|]]
    ensures Sanitized(s)[|Pieces(s, i)|] != '0' ==>
              && !IsStart(s, i) && s[i] == Sanitized(s)[|Pieces(s, i)|]
              && !IsInner(s, i + 1) && |Pieces(s, i + 1)| == |Pieces(s, i)| + 1
  {
    hide IsStart;
    hide IsInner;
    hide Piece;
    PiecesGrow(s, i, |s|);
    PiecesGrow(s, i + 1, |s|);
    PieceOfPlace(s, i);
    if !IsStart(s, i) {
      NextPlace(s, i);
    }
    hide Pieces;
  }

  lemma {:induction false} CopiedRun(s: seq<Byte>, i: nat, k: nat)
    requires i <= |s| && !IsInner(s, i) && |Pieces(s, i)| + k <= |Sanitized(s)|
    requires '0' !in Sanitized(s)[|Pieces(s, i)|..|Pieces(s, i)| + k]
    ensures i + k <= |s| && !IsInner(s, i + k) && |Pieces(s, i + k)| == |Pieces(s, i)| + k
    ensures s[i..i + k] == Sanitized(s)[|Pieces(s, i)|..|Pieces(s, i)| + k]
    decreases k
  {
    hide IsInner;
    hide Piece;
    if k > 0 {
      var p, t := |Pieces(s, i)|, Sanitized(s);
      assert t[p..p + k][..k - 1] == t[p..p + k - 1];
      CopiedRun(s, i, k - 1);
      assert t[p..p + k][k - 1] == t[p + k - 1];
      assert i + k - 1 < |s|;
      CopiedByte(s, i + k - 1);
      hide Pieces;
      hide Sanitized;
      hide IsStart;
      assert s[i..i + k] == s[i..i + k - 1] + [s[i + k - 1]];
      assert t[p..p + k] == t[p..p + k - 1] + [t[p + k - 1]];
    }
  }

  // What rewriting achieves

  /** The byte before a place of the input and the byte before it in the output are
      the same, unless the latter is a zero. */
  lemma {:induction false} LastByte(s: seq<Byte>, i: nat)
    requires 0 < i <= |s| && !IsInner(s, i)
    ensures |Pieces(s, i)| > 0
    ensures var last := Pieces(s, i)[|Pieces(s, i)| - 1]; last == '0' || last == s[i - 1]
  {
    hide IsStart;
    hide Piece;
    hide Pieces;
    if IsInner(s, i - 1) {
      var j, tok := TokenBefore(s, i);
      hide IsInner;
      PiecesOverToken(s, j, tok, |tok|);
    } else {
      hide IsInner;
      PieceOfPlace(s, i - 1);
    }
  }

  /** Behind the last inner byte the token has ended. */
  lemma {:induction false} TokenBefore(s: seq<Byte>, i: nat) returns (j: nat, tok: seq<Byte>)
    requires 0 < i <= |s| && IsInner(s, i - 1) && !IsInner(s, i)
    ensures j <= |s| && Starts(s, j, tok) && j + |tok| == i && |tok| > 0
  {
    hide Starts;
    j, tok :| j < i - 1 < j + |tok| && Starts(s, j, tok);
    assert !(j < i < j + |tok|);
  }

  lemma {:induction false} PrefixWasThere(s: seq<Byte>, i: nat)
    requires i <= |s| && !IsInner(s, i)
    ensures var p := |Pieces(s, i)|;
            && p <= |Sanitized(s)|
            && ModeAt(Sanitized(s), p) == ModeAt(s, i)
            && (i > 0 ==> p > 0)
            && (i > 0 && IsValuePrefixBoundary(Sanitized(s)[p - 1]) ==> IsValuePrefixBoundary(s[i - 1]))
  {
    hide ModeAt;
    hide IsInner;
    hide Piece;
    PiecesGrow(s, i, |s|);
    ModeIsKept(s, i);
    ModeOfPrefix(Sanitized(s), Pieces(s, i), |Pieces(s, i)|);
    hide Pieces;
    if i > 0 {
      LastByte(s, i);
    }
  }

  lemma {:induction false} SuffixWasThere(s: seq<Byte>, i: nat)
    requires i < |s| && !IsInner(s, i)
    ensures |Pieces(s, i)| < |Sanitized(s)|
    ensures IsValueSuffixBoundary(Sanitized(s)[|Pieces(s, i)|]) ==> IsValueSuffixBoundary(s[i])
  {
    CopiedByte(s, i);
  }

  /** A token of the output would have been one of the input. */
  lemma {:induction false} TokenWasThere(s: seq<Byte>, i: nat, tok: seq<Byte>)
    requires i <= |s| && !IsInner(s, i) && |Pieces(s, i)| <= |Sanitized(s)|
    requires Starts(Sanitized(s), |Pieces(s, i)|, tok)
    ensures IsStart(s, i)
  {
    hide IsToken;
    hide ModeAt;
    hide IsInner;
    hide Pieces;
    hide Sanitized;
    hide IsValuePrefixBoundary;
    hide IsValueSuffixBoundary;
    var t, p := Sanitized(s), |Pieces(s, i)|;
    NoZeroInToken(t, p, tok);
    CopiedRun(s, i, |tok|);
    PrefixWasThere(s, i);
    if i + |tok| < |s| {
      SuffixWasThere(s, i + |tok|);
    }
    assert s[i..i + |tok|] == tok;
    assert Starts(s, i, tok);
  }

  lemma {:induction false} NoZeroInToken(t: seq<Byte>, p: nat, tok: seq<Byte>)
    requires p <= |t| && Starts(t, p, tok)
    ensures p + |tok| <= |t| && '0' !in t[p..p + |tok|]
  {
    forall k | 0 <= k < |tok| ensures tok[k] != '0' {
      TokenBytes(tok, k);
    }
  }

  /** No token is left outside of strings. */
  lemma {:induction false} NoTokenIsLeft(s: seq<Byte>, p: nat)
    requires p <= |Sanitized(s)|
    ensures !IsStart(Sanitized(s), p)
  {
    var t := Sanitized(s);
    if IsStart(t, p) {
      var tok: seq<Byte> :| Starts(t, p, tok);
      StartIsOutside(t, p);
      var i := PlaceOf(s, |s|, p);
      hide Starts;
      hide Sanitized;
      hide Pieces;
      TokenWasThere(s, i, tok);
    }
  }

  /** Nothing happens exactly to texts without a token to rewrite. */
  lemma {:induction false} UnchangedIff(s: seq<Byte>)
    ensures Sanitized(s) == s <==> forall i: nat | i <= |s| :: !IsStart(s, i)
  {
    if Sanitized(s) == s {
      forall i: nat | i <= |s| ensures !IsStart(s, i) {
        NoTokenIsLeft(s, i);
      }
    }
    if forall i: nat | i <= |s| :: !IsStart(s, i) {
      PiecesWithoutTokens(s, |s|);
      assert s[..|s|] == s;
    }
  }

  lemma {:induction false} PiecesWithoutTokens(s: seq<Byte>, n: nat)
    requires n <= |s| && forall i: nat | i <= |s| :: !IsStart(s, i)
    ensures Pieces(s, n) == s[..n]
    decreases n
  {
    hide Starts;
    if n > 0 {
      PiecesWithoutTokens(s, n - 1);
      assert !IsInner(s, n - 1);
      assert s[..n] == s[..n - 1] + [s[n - 1]];
    }
  }

  /** Rewriting a second time changes nothing. */
  lemma {:induction false} Idempotent(s: seq<Byte>)
    ensures Sanitized(Sanitized(s)) == Sanitized(s)
  {
    var t := Sanitized(s);
    forall p: nat | p <= |t| ensures !IsStart(t, p) {
      NoTokenIsLeft(s, p);
    }
    UnchangedIff(t);
  }

  // The scanner

  function ModeOf(inString: bool, escape: bool): Mode {
    if !inString then Outside else if escape then Escaped else InString
  }

  /** One byte that is copied. */
  lemma {:induction false} Copied(s: seq<Byte>, i: nat)
    requires i < |s| && !IsInner(s, i) && !IsStart(s, i)
    ensures Pieces(s, i + 1) == Pieces(s, i) + [s[i]] && !IsInner(s, i + 1)
    ensures ModeAt(s, i + 1) == Next(ModeAt(s, i), s[i])
  {
    hide IsStart;
    hide IsInner;
    NextPlace(s, i);
    PieceOfPlace(s, i);
  }

  /** One token that is replaced. */
  lemma {:induction false} Replaced(s: seq<Byte>, i: nat, tok: seq<Byte>)
    requires i < |s| && !IsInner(s, i) && ModeAt(s, i) == Outside && IsToken(tok) && HasToken(s, i, tok)
    ensures i + |tok| <= |s| && |tok| > 0
    ensures Pieces(s, i + |tok|) == Pieces(s, i) + "0" && !IsInner(s, i + |tok|)
    ensures ModeAt(s, i + |tok|) == Outside
  {
    assert Starts(s, i, tok);
    TokenIsLong(tok);
    hide Starts;
    hide IsToken;
    WithinToken(s, i, tok, |tok|);
    EndOfToken(s, i, tok);
    PiecesOverToken(s, i, tok, |tok|);
  }

  lemma {:induction false} NothingStarts(s: seq<Byte>, i: nat)
    requires i < |s|
    requires ModeAt(s, i) != Outside || s[i] == '"' ||
             !(HasToken(s, i, NegativeInfinity()) || HasToken(s, i, Infinity()) || HasToken(s, i, NotANumber()))
    ensures !IsStart(s, i)
  {
    hide HasToken;
    hide ModeAt;
    if IsStart(s, i) {
      StartIsOutside(s, i);
    }
  }

  /** sanitizeNonFiniteJSON. */
  method SanitizeNonFiniteJson(input: seq<Byte>) returns (out: seq<Byte>)
    ensures out == Sanitized(input)
  {
    hide ModeAt;
    hide HasToken;
    hide IsInner;
    hide IsStart;
    hide Piece;
    if |input| == 0 {
      return input;
    }
    out := [];
    var inString, escape := false, false;
    var i := 0;
    NothingBefore(input);
    while i < |input|
      invariant 0 <= i <= |input| && !IsInner(input, i)
      invariant out == Pieces(input, i)
      invariant ModeAt(input, i) == ModeOf(inString, escape) && (escape ==> inString)
    {
      var c := input[i];
      if inString {
        NothingStarts(input, i);
        Copied(input, i);
        out := out + [c];
        if escape {
          escape := false;
        } else if c == '\\' {
          escape := true;
        } else if c == '"' {
          inString := false;
        }
        i := i + 1;
        continue;
      }
      if c == '"' {
        NothingStarts(input, i);
        Copied(input, i);
        inString := true;
        out := out + [c];
        i := i + 1;
        continue;
      }
      if HasToken(input, i, NegativeInfinity()) {
        Replaced(input, i, NegativeInfinity());
        out := out + "0";
        i := i + |NegativeInfinity()|;
        continue;
      }
      if HasToken(input, i, Infinity()) {
        Replaced(input, i, Infinity());
        out := out + "0";
        i := i + |Infinity()|;
        continue;
      }
      if HasToken(input, i, NotANumber()) {
        Replaced(input, i, NotANumber());
        out := out + "0";
        i := i + |NotANumber()|;
        continue;
      }
      NothingStarts(input, i);
      Copied(input, i);
      out := out + [c];
      i := i + 1;
    }
  }

  lemma {:induction false} NothingBefore(s: seq<Byte>)
    ensures !IsInner(s, 0) && ModeAt(s, 0) == Outside
  {
  }
}
