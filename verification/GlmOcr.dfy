/** The reordering of rotary rows from interleaved to split halves,
    convert/convert_glmocr.go. Weights have a row for every output feature and a
    column for every input feature, biases a single column. */
module GlmOcr {
  import opened RowMajor

  /** A head has headDim rows, of which the first 2 * half are rotary. */
  datatype Layout = Layout(rows: nat, cols: nat, headDim: nat, half: nat) {
    ghost predicate Valid() {
      headDim > 0 && 2 * half <= headDim
    }
  }

  /** Where row p of a head comes from: even rows first, then odd ones, and
      beyond the rotary part the row itself. */
  function SourceInHead(half: nat, p: nat): nat {
    if p < half then 2 * p
    else if p < 2 * half then 2 * (p - half) + 1
    else p
  }

  /** Where row p of a head goes to. */
  function TargetInHead(half: nat, p: nat): nat {
    if p >= 2 * half then p
    else if p % 2 == 0 then p / 2
    else half + p / 2
  }

  lemma {:induction false} InHeadInverse(headDim: nat, half: nat, p: nat)
    requires 2 * half <= headDim && p < headDim
    ensures SourceInHead(half, p) < headDim && TargetInHead(half, p) < headDim
    ensures TargetInHead(half, SourceInHead(half, p)) == p
    ensures SourceInHead(half, TargetInHead(half, p)) == p
  {
  }

  /** The same for a row of the whole matrix: heads stay where they are. */
  function SourceRow(headDim: nat, half: nat, r: nat): nat
    requires headDim > 0
  {
    At(headDim, r / headDim, SourceInHead(half, r % headDim))
  }

  function TargetRow(headDim: nat, half: nat, r: nat): nat
    requires headDim > 0
  {
    At(headDim, r / headDim, TargetInHead(half, r % headDim))
  }

  lemma {:induction false} RowOfHead(headDim: nat, half: nat, heads: nat, h: nat, p: nat)
    requires h < heads && p < headDim
    ensures At(headDim, h, p) < heads * headDim
    ensures At(headDim, h, p) / headDim == h && At(headDim, h, p) % headDim == p
    ensures SourceRow(headDim, half, At(headDim, h, p)) == At(headDim, h, SourceInHead(half, p))
    ensures TargetRow(headDim, half, At(headDim, h, p)) == At(headDim, h, TargetInHead(half, p))
  {
    hide SourceInHead;
    hide TargetInHead;
    AtInRange(headDim, heads, h, p);
    QuotientOfAt(headDim, h, p);
  }

  /** Rows are permuted within each head, and TargetRow undoes SourceRow. */
  lemma {:induction false} RowsArePermuted(headDim: nat, half: nat, heads: nat, r: nat)
    requires headDim > 0 && 2 * half <= headDim && r < heads * headDim
    ensures SourceRow(headDim, half, r) < heads * headDim
    ensures TargetRow(headDim, half, r) < heads * headDim
    ensures TargetRow(headDim, half, SourceRow(headDim, half, r)) == r
    ensures SourceRow(headDim, half, TargetRow(headDim, half, r)) == r
    ensures SourceRow(headDim, half, r) / headDim == r / headDim
  {
    hide SourceRow;
    hide TargetRow;
    hide SourceInHead;
    hide TargetInHead;
    hide At;
    var h, p := r / headDim, r % headDim;
    AtOfQuotient(headDim, heads, r);
    InHeadInverse(headDim, half, p);
    RowOfHead(headDim, half, heads, h, p);
    RowOfHead(headDim, half, heads, h, SourceInHead(half, p));
    RowOfHead(headDim, half, heads, h, TargetInHead(half, p));
  }

  /** The repacked matrix: the whole heads permuted, and zero in the rows that do
      not fill a head. */
  ghost predicate Repacked<T>(l: Layout, data: seq<T>, result: seq<T>, zero: T)
    requires l.Valid()
  {
    && |data| == |result| == l.rows * l.cols
    && forall r: nat, g: nat {:trigger At(l.cols, r, g)} | r < l.rows && g < l.cols ::
      && At(l.cols, r, g) < |result|
      && if r / l.headDim < l.rows / l.headDim then
        && At(l.cols, SourceRow(l.headDim, l.half, r), g) < |data|
        && result[At(l.cols, r, g)] == data[At(l.cols, SourceRow(l.headDim, l.half, r), g)]
      else
        result[At(l.cols, r, g)] == zero
  }

  /** When the heads fill all rows, nothing is lost: every element is found again
      at the target of its row. */
  lemma {:induction false} NothingIsLost<T>(l: Layout, data: seq<T>, result: seq<T>, zero: T, r: nat, g: nat)
    requires l.Valid() && Repacked(l, data, result, zero)
    requires l.rows % l.headDim == 0 && r < l.rows && g < l.cols
    ensures TargetRow(l.headDim, l.half, r) < l.rows
    ensures At(l.cols, r, g) < |data| && At(l.cols, TargetRow(l.headDim, l.half, r), g) < |result|
    ensures result[At(l.cols, TargetRow(l.headDim, l.half, r), g)] == data[At(l.cols, r, g)]
  {
    hide SourceRow;
    hide TargetRow;
    var heads := l.rows / l.headDim;
    var t := TargetRow(l.headDim, l.half, r);
    LeftOverRows(l.rows, l.headDim);
    RowsArePermuted(l.headDim, l.half, heads, r);
    RowsArePermuted(l.headDim, l.half, heads, t);
    AtInRange(l.cols, l.rows, r, g);
    AtInRange(l.cols, l.rows, t, g);
    AtOfQuotient(l.headDim, heads, t);
    hide At;
    assert At(l.cols, t, g) < |result|;
  }

  /** The result is determined by the input. */
  lemma {:induction false} RepackedDetermines<T>(l: Layout, data: seq<T>, one: seq<T>, other: seq<T>, zero: T)
    requires l.Valid() && Repacked(l, data, one, zero) && Repacked(l, data, other, zero)
    ensures one == other
  {
    hide SourceRow;
    forall i | 0 <= i < |one| ensures one[i] == other[i] {
      AtOfQuotient(l.cols, l.rows, i);
      hide At;
      assert At(l.cols, i / l.cols, i % l.cols) == i;
    }
  }

  /** Rows that do not fill a head are overwritten; there are none exactly when
      the head size divides the number of rows. */
  lemma {:induction false} LeftOverRows(rows: nat, headDim: nat)
    requires headDim > 0
    ensures rows / headDim * headDim == rows <==> rows % headDim == 0
    ensures rows / headDim * headDim <= rows < rows / headDim * headDim + headDim
  {
    assert rows == rows / headDim * headDim + rows % headDim;
  }

  /** Different matrices never have the same repacked one. */
  ghost predicate Lossless<T(!new)>(l: Layout, zero: T)
    requires l.Valid()
  {
    forall x: seq<T>, y: seq<T>, result: seq<T> | Repacked(l, x, result, zero) && Repacked(l, y, result, zero) :: x == y
  }

  lemma {:induction false} EqualResultsEqualInputs<T>(l: Layout, x: seq<T>, y: seq<T>, result: seq<T>, zero: T)
    requires l.Valid() && l.rows % l.headDim == 0
    requires Repacked(l, x, result, zero) && Repacked(l, y, result, zero)
    ensures x == y
  {
    forall i | 0 <= i < |x| ensures x[i] == y[i] {
      var r, g := i / l.cols, i % l.cols;
      AtOfQuotient(l.cols, l.rows, i);
      NothingIsLost(l, x, result, zero, r, g);
      NothingIsLost(l, y, result, zero, r, g);
      hide At;
      hide Repacked;
      assert At(l.cols, r, g) == i;
    }
  }

  /** A value in a row that fills no head is lost. */
  lemma {:induction false} LeftOverValueIsLost<T>(l: Layout, value: T, zero: T) returns (data: seq<T>)
    requires l.Valid() && l.rows > 0 && l.cols > 0 && l.rows % l.headDim != 0
    ensures |data| == l.rows * l.cols > At(l.cols, l.rows - 1, 0)
    ensures data[At(l.cols, l.rows - 1, 0)] == value
    ensures Repacked(l, data, seq(l.rows * l.cols, _ => zero), zero)
  {
    var n, place, heads := l.rows * l.cols, At(l.cols, l.rows - 1, 0), l.rows / l.headDim;
    var zeros := seq(n, _ => zero);
    AtInRange(l.cols, l.rows, l.rows - 1, 0);
    hide At;
    hide SourceRow;
    data := zeros[place := value];
    forall r: nat, g: nat | r < l.rows && g < l.cols
      ensures At(l.cols, r, g) < n && zeros[At(l.cols, r, g)] == zero
      ensures r / l.headDim < heads ==>
                var source := At(l.cols, SourceRow(l.headDim, l.half, r), g); source < n && data[source] == zero
    {
      AtInRange(l.cols, l.rows, r, g);
      if r / l.headDim < heads {
        SourceIsBefore(l, r, g);
      }
    }
  }

  lemma {:induction false} RowInWholeHead(l: Layout, r: nat)
    requires l.Valid() && r / l.headDim < l.rows / l.headDim
    ensures SourceRow(l.headDim, l.half, r) < l.rows / l.headDim * l.headDim
  {
    var heads := l.rows / l.headDim;
    assert (r / l.headDim + 1) * l.headDim <= heads * l.headDim;
    RowsArePermuted(l.headDim, l.half, heads, r);
  }

  lemma {:induction false} SourceIsBefore(l: Layout, r: nat, g: nat)
    requires l.Valid() && l.rows > 0 && l.rows % l.headDim != 0 && r / l.headDim < l.rows / l.headDim && g < l.cols
    ensures At(l.cols, SourceRow(l.headDim, l.half, r), g) < At(l.cols, l.rows - 1, 0)
  {
    LeftOverRows(l.rows, l.headDim);
    RowInWholeHead(l, r);
    RowsAreApart(l.cols, SourceRow(l.headDim, l.half, r), g, l.rows - 1, 0);
  }

  /** No matrix is lost in its repacked form exactly when the heads fill all rows. */
  lemma {:induction false} LosslessIff<T(!new)>(l: Layout, value: T, zero: T)
    requires l.Valid() && l.cols > 0 && value != zero
    ensures Lossless(l, zero) <==> l.rows % l.headDim == 0
  {
    if l.rows % l.headDim == 0 {
      forall x: seq<T>, y: seq<T>, result: seq<T> | Repacked(l, x, result, zero) && Repacked(l, y, result, zero)
        ensures x == y
      {
        EqualResultsEqualInputs(l, x, y, result, zero);
      }
    } else {
      var x := LeftOverValueIsLost(l, value, zero);
      var y := LeftOverValueIsLost(l, zero, zero);
      hide Repacked;
      assert x[At(l.cols, l.rows - 1, 0)] != y[At(l.cols, l.rows - 1, 0)];
    }
  }

  /** The position that the source computes for row p of head h. */
  lemma {:induction false} PositionOf(h: nat, headDim: nat, p: nat, cols: nat, f: nat)
    ensures h * headDim * cols + p * cols + f == At(cols, At(headDim, h, p), f)
  {
    assert (h * headDim + p) * cols == h * headDim * cols + p * cols;
  }

  // Progress of the three loops

  /** The places written so far: all of the heads before h, in head h the columns
      before f, and in column f the rows before a and from half up to b. */
  ghost predicate Written(l: Layout, h: nat, f: nat, a: nat, b: nat, r: nat, g: nat)
    requires l.Valid()
  {
    WrittenInHead(l.half, h, f, a, b, r / l.headDim, r % l.headDim, g)
  }

  ghost predicate WrittenInHead(half: nat, h: nat, f: nat, a: nat, b: nat, head: nat, p: nat, g: nat) {
    head < h || (head == h && (g < f || (g == f && (p < a || half <= p < b))))
  }

  ghost predicate Progress<T>(
    l: Layout, data: seq<T>, result: seq<T>, zero: T, h: nat, f: nat, a: nat, b: nat)
    requires l.Valid()
  {
    && |data| == |result| == l.rows * l.cols
    && forall r: nat, g: nat {:trigger At(l.cols, r, g)} | r < l.rows && g < l.cols ::
      && At(l.cols, r, g) < |result|
      && if Written(l, h, f, a, b, r, g) then
        && At(l.cols, SourceRow(l.headDim, l.half, r), g) < |data|
        && result[At(l.cols, r, g)] == data[At(l.cols, SourceRow(l.headDim, l.half, r), g)]
      else
        result[At(l.cols, r, g)] == zero
  }

  /** The next column of a head, and the next head. */
  lemma {:induction false} Carry(l: Layout, h: nat, f: nat, r: nat, g: nat)
    requires l.Valid() && r < l.rows && g < l.cols
    ensures Written(l, h, f, l.half, l.headDim, r, g) == Written(l, h, f + 1, 0, l.half, r, g)
    ensures Written(l, h, l.cols, 0, l.half, r, g) == Written(l, h + 1, 0, 0, l.half, r, g)
  {
  }

  lemma {:induction false} NextColumn<T>(l: Layout, data: seq<T>, result: seq<T>, zero: T, h: nat, f: nat)
    requires l.Valid() && Progress(l, data, result, zero, h, f, l.half, l.headDim)
    ensures Progress(l, data, result, zero, h, f + 1, 0, l.half)
  {
    hide At;
    hide SourceRow;
    hide Written;
    forall r: nat, g: nat | r < l.rows && g < l.cols
      ensures Written(l, h, f, l.half, l.headDim, r, g) == Written(l, h, f + 1, 0, l.half, r, g)
    {
      Carry(l, h, f, r, g);
    }
  }

  lemma {:induction false} NextHead<T>(l: Layout, data: seq<T>, result: seq<T>, zero: T, h: nat)
    requires l.Valid() && Progress(l, data, result, zero, h, l.cols, 0, l.half)
    ensures Progress(l, data, result, zero, h + 1, 0, 0, l.half)
  {
    hide At;
    hide SourceRow;
    hide Written;
    forall r: nat, g: nat | r < l.rows && g < l.cols
      ensures Written(l, h, l.cols, 0, l.half, r, g) == Written(l, h + 1, 0, 0, l.half, r, g)
    {
      Carry(l, h, 0, r, g);
    }
  }

  lemma {:induction false} AllHeads<T>(l: Layout, data: seq<T>, result: seq<T>, zero: T)
    requires l.Valid() && Progress(l, data, result, zero, l.rows / l.headDim, 0, 0, l.half)
    ensures Repacked(l, data, result, zero)
  {
    hide At;
    hide SourceRow;
    forall r: nat, g: nat | r < l.rows && g < l.cols
      ensures Written(l, l.rows / l.headDim, 0, 0, l.half, r, g) <==> r / l.headDim < l.rows / l.headDim
    {
    }
    hide Written;
  }

  /** Writing row p of column f of head h, where p is the next row of one half. */
  lemma {:induction false} Write<T>(
    l: Layout, data: seq<T>, result: seq<T>, zero: T, h: nat, f: nat, a: nat, b: nat, p: nat, a': nat, b': nat)
    requires l.Valid() && Progress(l, data, result, zero, h, f, a, b)
    requires h < l.rows / l.headDim && f < l.cols && p < l.headDim
    requires (p == a < l.half && a' == a + 1 && b' == b) || (p == b >= l.half && a' == a && b' == b + 1)
    ensures At(l.cols, At(l.headDim, h, p), f) < |result|
    ensures At(l.cols, At(l.headDim, h, SourceInHead(l.half, p)), f) < |data|
    ensures var v := data[At(l.cols, At(l.headDim, h, SourceInHead(l.half, p)), f)];
            Progress(l, data, result[At(l.cols, At(l.headDim, h, p), f) := v], zero, h, f, a', b')
  {
    var row, heads := At(l.headDim, h, p), l.rows / l.headDim;
    LeftOverRows(l.rows, l.headDim);
    InHeadInverse(l.headDim, l.half, p);
    RowOfHead(l.headDim, l.half, heads, h, p);
    RowOfHead(l.headDim, l.half, heads, h, SourceInHead(l.half, p));
    AtInRange(l.cols, l.rows, row, f);
    AtInRange(l.cols, l.rows, At(l.headDim, h, SourceInHead(l.half, p)), f);
    AtIsAlone(l.cols, row, f);
    hide SourceInHead;
    hide TargetInHead;
    hide SourceRow;
    hide TargetRow;
    forall r: nat, g: nat | r < l.rows && g < l.cols
      ensures Written(l, h, f, a', b', r, g) == (Written(l, h, f, a, b, r, g) || (r == row && g == f))
    {
      WrittenGrows(l, h, f, a, b, p, a', b', r, g);
    }
    hide Written;
    hide At;
  }

  lemma {:induction false} WrittenGrows(
    l: Layout, h: nat, f: nat, a: nat, b: nat, p: nat, a': nat, b': nat, r: nat, g: nat)
    requires l.Valid() && p < l.headDim
    requires (p == a < l.half && a' == a + 1 && b' == b) || (p == b >= l.half && a' == a && b' == b + 1)
    ensures Written(l, h, f, a', b', r, g) ==
            (Written(l, h, f, a, b, r, g) || (r == At(l.headDim, h, p) && g == f))
  {
    hide At;
    PlaceOf(l.headDim, h, p, r);
    var head, q := r / l.headDim, r % l.headDim;
    assert WrittenInHead(l.half, h, f, a', b', head, q, g) ==
           (WrittenInHead(l.half, h, f, a, b, head, q, g) || (head == h && q == p && g == f));
    hide WrittenInHead;
  }

  lemma {:induction false} NothingWritten<T>(l: Layout, data: seq<T>, result: seq<T>, zero: T)
    requires l.Valid() && |data| == |result| == l.rows * l.cols
    requires forall i | 0 <= i < |result| :: result[i] == zero
    ensures Progress(l, data, result, zero, 0, 0, 0, l.half)
  {
    hide SourceRow;
    forall r: nat, g: nat | r < l.rows && g < l.cols ensures At(l.cols, r, g) < |result| {
      AtInRange(l.cols, l.rows, r, g);
    }
    hide At;
  }

  /** Copies element f of row source of head h to row target. */
  method CopyElement<T>(ghost l: Layout, data: seq<T>, result: array<T>, ghost zero: T,
                        headDim: nat, inFeatures: nat, h: nat, f: nat, source: nat, target: nat,
                        ghost a: nat, ghost b: nat, ghost a': nat, ghost b': nat)
    requires l.Valid() && headDim == l.headDim && inFeatures == l.cols
    requires Progress(l, data, result[..], zero, h, f, a, b)
    requires h < l.rows / headDim && f < inFeatures && target < headDim && source == SourceInHead(l.half, target)
    requires (target == a < l.half && a' == a + 1 && b' == b) || (target == b >= l.half && a' == a && b' == b + 1)
    modifies result
    ensures Progress(l, data, result[..], zero, h, f, a', b')
  {
    hide SourceInHead;
    hide At;
    hide Progress;
    PositionOf(h, headDim, source, inFeatures, f);
    PositionOf(h, headDim, target, inFeatures, f);
    Write(l, data, result[..], zero, h, f, a, b, target, a', b');
    var srcIdx := h * headDim * inFeatures + source * inFeatures + f;
    var dstIdx := h * headDim * inFeatures + target * inFeatures + f;
    result[dstIdx] := data[srcIdx];
  }

  /** Column f of head h: even rows first, then odd ones, then the rest as is. */
  method CopyColumn<T>(ghost l: Layout, data: seq<T>, result: array<T>, ghost zero: T,
                       headDim: nat, inFeatures: nat, rotaryDim: nat, h: nat, f: nat)
    requires l.Valid() && headDim == l.headDim && inFeatures == l.cols && rotaryDim == 2 * l.half
    requires Progress(l, data, result[..], zero, h, f, 0, l.half)
    requires h < l.rows / headDim && f < inFeatures
    modifies result
    ensures Progress(l, data, result[..], zero, h, f + 1, 0, l.half)
  {
    hide Progress;
    var halfRotary := rotaryDim / 2;
    for i := 0 to halfRotary
      invariant Progress(l, data, result[..], zero, h, f, i, l.half + i)
    {
      CopyElement(l, data, result, zero, headDim, inFeatures, h, f, 2 * i, i, i, l.half + i, i + 1, l.half + i);
      CopyElement(l, data, result, zero, headDim, inFeatures, h, f, 2 * i + 1, halfRotary + i,
                  i + 1, l.half + i, i + 1, l.half + i + 1);
    }
    for i := rotaryDim to headDim
      invariant Progress(l, data, result[..], zero, h, f, l.half, i)
    {
      CopyElement(l, data, result, zero, headDim, inFeatures, h, f, i, i, l.half, i, l.half, i + 1);
    }
    NextColumn(l, data, result[..], zero, h, f);
  }

  /** normalToNeoXRepacker. The rotary size is given as a number instead of a
      fraction of the head size. */
  method NormalToNeoX<T>(data: seq<T>, shape: seq<nat>, zero: T, headDim: nat, rotary: nat)
    returns (repacked: seq<T>)
    requires |shape| == 1 || |shape| == 2
    requires |data| == shape[0] * (if |shape| == 1 then 1 else shape[1])
    requires headDim > 0 && rotary <= headDim
    ensures Repacked(Layout(shape[0], if |shape| == 1 then 1 else shape[1], headDim, rotary / 2), data, repacked, zero)
  {
    hide Progress;
    hide Repacked;
    var rotaryDim := rotary;
    if rotaryDim % 2 != 0 {
      rotaryDim := rotaryDim / 2 * 2;
    }
    var inFeatures := if |shape| == 1 then 1 else shape[1];
    var nHeads := shape[0] / headDim;
    ghost var l := Layout(shape[0], inFeatures, headDim, rotary / 2);
    var result := new T[|data|](_ => zero);
    NothingWritten(l, data, result[..], zero);
    for h := 0 to nHeads
      invariant Progress(l, data, result[..], zero, h, 0, 0, l.half)
    {
      for f := 0 to inFeatures
        invariant Progress(l, data, result[..], zero, h, f, 0, l.half)
      {
        CopyColumn(l, data, result, zero, headDim, inFeatures, rotaryDim, h, f);
      }
      NextHead(l, data, result[..], zero, h);
    }
    AllHeads(l, data, result[..], zero);
    repacked := result[..];
  }
}
