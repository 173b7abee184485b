/** The value heads within a joint Q/K/V matrix, convert/convert_qwen3next.go. */
module AttnQkv {
  import opened Options
  import opened RowMajor
  import opened Tensors
  import opened HeadLayout

  function QkDim(q: Heads): nat {
    q.headK * q.numK + q.headK * q.numK
  }

  function VDim(q: Heads): nat {
    q.headV * q.numV
  }

  /** Where feature x of the value part goes to. Value heads that do not divide
      among the key heads stay where they are. */
  function VFeature(q: Heads, x: nat): nat
    requires q.numK > 0
  {
    if q.headV > 0 && q.numV > 0 && q.numV % q.numK == 0 && q.numV / q.numK > 0 then
      Swap(q.numK, q.numV / q.numK, q.headV, x)
    else x
  }

  /** Where feature j goes to: query and key features stay. */
  function Feature(q: Heads, j: nat): nat
    requires q.numK > 0
  {
    if j < QkDim(q) then j else QkDim(q) + VFeature(q, j - QkDim(q))
  }

  lemma {:induction false} WholeGroups(q: Heads)
    requires q.numK > 0
    ensures q.headV > 0 && q.numV / q.numK > 0 ==>
              (VDim(q) == q.numK * (q.numV / q.numK) * q.headV <==> q.numV % q.numK == 0)
    ensures q.numV > 0 && q.numV % q.numK == 0 ==> q.numV / q.numK > 0
    ensures q.numV / q.numK > 0 ==> q.numV > 0
  {
    var g := q.numK * (q.numV / q.numK);
    assert q.numV == g + q.numV % q.numK;
    assert q.headV * q.numV == q.headV * g + q.headV * (q.numV % q.numK);
    assert q.numV % q.numK > 0 && q.headV > 0 ==> q.headV * (q.numV % q.numK) > 0;
    assert g * q.headV == q.headV * g;
  }

  /** Features are permuted within the value part: every target has one source. */
  lemma {:induction false} FeaturesArePermuted(q: Heads, j: nat)
    requires q.numK > 0 && j < QkDim(q) + VDim(q)
    ensures Feature(q, j) < QkDim(q) + VDim(q)
    ensures Feature(q, j) < QkDim(q) <==> j < QkDim(q)
    ensures j < QkDim(q) ==> Feature(q, j) == j
    ensures exists i :: 0 <= i < QkDim(q) + VDim(q) && Feature(q, i) == j
  {
    hide Swap;
    if j < QkDim(q) {
      assert Feature(q, j) == j;
    } else {
      var x := j - QkDim(q);
      WholeGroups(q);
      if q.headV > 0 && q.numV > 0 && q.numV % q.numK == 0 {
        var perKey := q.numV / q.numK;
        SwapInverse(q.numK, perKey, q.headV, x);
        ProductOfThree(q.numK, perKey, q.headV);
        SwapInverse(perKey, q.numK, q.headV, x);
        assert Feature(q, QkDim(q) + Swap(perKey, q.numK, q.headV, x)) == j;
      } else {
        assert Feature(q, j) == j;
      }
    }
  }

  /** The value part of one run of features, each of inner elements. */
  ghost predicate VReordered<T>(q: Heads, data: seq<T>, result: seq<T>, inner: nat)
    requires q.numK > 0
  {
    && |data| == |result| == VDim(q) * inner
    && forall x: nat, f: nat {:trigger VFeature(q, x), At(inner, x, f)} | x < VDim(q) && f < inner ::
      && At(inner, x, f) < |data|
      && At(inner, VFeature(q, x), f) < |result|
      && result[At(inner, VFeature(q, x), f)] == data[At(inner, x, f)]
  }

  /** What the head reordering leaves or moves, for a shape that starts with the
      value features. */
  lemma {:induction false} ReorderedIsVReordered<T>(q: Heads, data: seq<T>, result: seq<T>, inner: nat)
    requires q.numK > 0 && |data| == VDim(q) * inner
    requires q.headV > 0 && q.numV / q.numK > 0 && VDim(q) == q.numK * (q.numV / q.numK) * q.headV
    requires Reordered(data, result, 1, q.numK, q.numV / q.numK, q.headV, inner)
    ensures VReordered(q, data, result, inner)
  {
    hide Swap;
    var n := VDim(q);
    WholeGroups(q);
    forall x: nat, f: nat | x < n && f < inner
      ensures At(inner, x, f) < |data|
      ensures At(inner, VFeature(q, x), f) < |result|
      ensures result[At(inner, VFeature(q, x), f)] == data[At(inner, x, f)]
    {
      assert At(n, 0, x) == x;
      assert At(n, 0, Swap(q.numK, q.numV / q.numK, q.headV, x)) == VFeature(q, x);
      hide At;
      hide VFeature;
      assert At(inner, At(n, 0, x), f) < |data|;
    }
  }

  lemma {:induction false} UnchangedIsVReordered<T>(q: Heads, data: seq<T>, inner: nat)
    requires q.numK > 0 && |data| == VDim(q) * inner
    requires q.headV == 0 || q.numV / q.numK == 0 || VDim(q) != q.numK * (q.numV / q.numK) * q.headV
    ensures VReordered(q, data, data, inner)
  {
    WholeGroups(q);
    forall x: nat, f: nat | x < VDim(q) && f < inner
      ensures At(inner, x, f) < |data| && At(inner, VFeature(q, x), f) == At(inner, x, f)
    {
      AtInRange(inner, VDim(q), x, f);
      assert VFeature(q, x) == x;
    }
    hide VDim;
    hide At;
    hide VFeature;
  }

  /** Reorders the value part, given as a matrix or, with inner one, as a vector. */
  method ReorderV<T>(q: Heads, data: seq<T>, shape: seq<nat>, ghost inner: nat) returns (result: Option<seq<T>>)
    requires q.numK > 0
    requires (shape == [VDim(q)] && inner == 1) || shape == [VDim(q), inner]
    requires |data| == VDim(q) * inner
    ensures result.Some? && VReordered(q, data, result.value, inner)
  {
    hide Size;
    hide VReordered;
    hide Reordered;
    PositionOfVector(VDim(q), 0);
    PositionOfMatrix(VDim(q), inner, 0, 0);
    PositionOfVector(inner, 0);
    assert shape[..0] == [] && shape[1..] == if |shape| == 1 then [] else [inner];
    SizeOfNothing();
    result := ReorderHeadLayout(data, shape, 0, q.numK, q.numV / q.numK, q.headV);
    if Fits(shape, 0, q.numK, q.numV / q.numK, q.headV) {
      ReorderedIsVReordered(q, data, result.value, inner);
    } else {
      UnchangedIsVReordered(q, data, inner);
    }
  }

  lemma {:induction false} SizeOfNothing()
    ensures Size([]) == 1
  {
  }

  /** Copies the elements of source to out, starting at the given position. */
  method Copy<T>(out: array<T>, start: nat, source: seq<T>)
    requires start + |source| <= out.Length
    modifies out
    ensures out[..start] == old(out[..start])
    ensures out[start..start + |source|] == source
    ensures out[start + |source|..] == old(out[start + |source|..])
  {
    forall i | 0 <= i < |source| {
      out[start + i] := source[i];
    }
  }

  /** Rows are features: row j becomes row Feature(j). */
  ghost predicate RowsReordered<T>(q: Heads, data: seq<T>, result: seq<T>, cols: nat)
    requires q.numK > 0
  {
    && |data| == |result| == (QkDim(q) + VDim(q)) * cols
    && forall j: nat, f: nat {:trigger Feature(q, j), At(cols, j, f)} | j < QkDim(q) + VDim(q) && f < cols ::
      && At(cols, j, f) < |data|
      && At(cols, Feature(q, j), f) < |result|
      && result[At(cols, Feature(q, j), f)] == data[At(cols, j, f)]
  }

  lemma {:induction false} LineEnds(rows: nat, cols: nat, r: nat)
    requires r < rows
    ensures r * cols + cols <= rows * cols
  {
    assert (r + 1) * cols <= rows * cols;
  }

  /** Row r of a matrix. */
  function Line<T>(s: seq<T>, rows: nat, cols: nat, r: nat): (line: seq<T>)
    requires |s| == rows * cols && r < rows
    ensures |line| == cols
  {
    LineEnds(rows, cols, r);
    s[r * cols..r * cols + cols]
  }

  /** Columns are features: in every row, element j becomes element Feature(j). */
  ghost predicate ColumnsReordered<T>(q: Heads, data: seq<T>, result: seq<T>, rows: nat)
    requires q.numK > 0
  {
    var cols := QkDim(q) + VDim(q);
    && |data| == |result| == rows * cols
    && forall r: nat {:trigger Line(result, rows, cols, r)} | r < rows ::
      RowsReordered(q, Line(data, rows, cols, r), Line(result, rows, cols, r), 1)
  }

  /** The same for the single element. */
  lemma {:induction false} ColumnsReorderedAt<T>(q: Heads, data: seq<T>, result: seq<T>, rows: nat, r: nat, j: nat)
    requires q.numK > 0 && ColumnsReordered(q, data, result, rows)
    requires r < rows && j < QkDim(q) + VDim(q)
    ensures var cols := QkDim(q) + VDim(q);
            && At(cols, r, j) < |data| && At(cols, r, Feature(q, j)) < |result|
            && result[At(cols, r, Feature(q, j))] == data[At(cols, r, j)]
  {
    var cols := QkDim(q) + VDim(q);
    hide QkDim;
    hide VDim;
    hide Feature;
    LineEnds(rows, cols, r);
    var before, after := Line(data, rows, cols, r), Line(result, rows, cols, r);
    assert At(1, j, 0) == j && At(1, Feature(q, j), 0) == Feature(q, j);
    assert after[Feature(q, j)] == before[j];
  }

  /** Reordering before or after a transposition makes no difference. */
  lemma {:induction false} LayoutsAgree<T>(
    q: Heads, byRow: seq<T>, byRow': seq<T>, byColumn: seq<T>, byColumn': seq<T>, n: nat, j: nat, f: nat)
    requires q.numK > 0
    requires RowsReordered(q, byRow, byRow', n) && ColumnsReordered(q, byColumn, byColumn', n)
    requires j < QkDim(q) + VDim(q) && f < n
    requires forall i: nat {:trigger At(n, i, f)} | i < QkDim(q) + VDim(q) ::
               && At(n, i, f) < |byRow| && At(QkDim(q) + VDim(q), f, i) < |byColumn|
               && byRow[At(n, i, f)] == byColumn[At(QkDim(q) + VDim(q), f, i)]
    ensures At(n, j, f) < |byRow'| && At(QkDim(q) + VDim(q), f, j) < |byColumn'|
    ensures byRow'[At(n, j, f)] == byColumn'[At(QkDim(q) + VDim(q), f, j)]
  {
    FeaturesArePermuted(q, j);
    var i: nat :| i < QkDim(q) + VDim(q) && Feature(q, i) == j;
    ColumnsReorderedAt(q, byColumn, byColumn', n, f, i);
    hide ColumnsReordered;
    hide Feature;
    hide QkDim;
    hide VDim;
    hide At;
    assert byRow'[At(n, Feature(q, i), f)] == byRow[At(n, i, f)];
  }

  lemma {:induction false} AtOfSum(width: nat, a: nat, x: nat, f: nat)
    ensures At(width, a + x, f) == a * width + At(width, x, f)
  {
  }

  /** Unchanged query and key rows with reordered value rows behind them. */
  lemma {:induction false} RowsAssembled<T>(q: Heads, data: seq<T>, result: seq<T>, cols: nat)
    requires q.numK > 0 && |data| == |result| == (QkDim(q) + VDim(q)) * cols
    requires QkDim(q) * cols <= |data| && result[..QkDim(q) * cols] == data[..QkDim(q) * cols]
    requires VReordered(q, data[QkDim(q) * cols..], result[QkDim(q) * cols..], cols)
    ensures RowsReordered(q, data, result, cols)
  {
    var qk := QkDim(q);
    forall j: nat, f: nat | j < qk + VDim(q) && f < cols
      ensures At(cols, j, f) < |data| && At(cols, Feature(q, j), f) < |result|
      ensures result[At(cols, Feature(q, j), f)] == data[At(cols, j, f)]
    {
      RowAssembled(q, data, result, cols, j, f);
    }
  }

  lemma {:induction false} RowAssembled<T>(q: Heads, data: seq<T>, result: seq<T>, cols: nat, j: nat, f: nat)
    requires q.numK > 0 && |data| == |result| == (QkDim(q) + VDim(q)) * cols
    requires QkDim(q) * cols <= |data| && result[..QkDim(q) * cols] == data[..QkDim(q) * cols]
    requires VReordered(q, data[QkDim(q) * cols..], result[QkDim(q) * cols..], cols)
    requires j < QkDim(q) + VDim(q) && f < cols
    ensures At(cols, j, f) < |data| && At(cols, Feature(q, j), f) < |result|
    ensures result[At(cols, Feature(q, j), f)] == data[At(cols, j, f)]
  {
    hide VFeature;
    hide VDim;
    var qk := QkDim(q);
    hide QkDim;
    if j < qk {
      AtInRange(cols, qk, j, f);
      hide At;
      hide VReordered;
      assert result[..qk * cols][At(cols, j, f)] == data[..qk * cols][At(cols, j, f)];
    } else {
      var x := j - qk;
      AtOfSum(cols, qk, x, f);
      AtOfSum(cols, qk, VFeature(q, x), f);
      hide At;
      assert At(cols, x, f) < |data[qk * cols..]|;
    }
  }

  /** The output of the row layout: data up to start, then middle, then data from
      end on. */
  method Assemble<T>(data: seq<T>, zero: T, start: nat, middle: seq<T>, end: nat) returns (result: seq<T>)
    requires start + |middle| == end <= |data|
    ensures |result| == |data| && result[..start] == data[..start]
    ensures result[start..end] == middle && result[end..] == data[end..]
  {
    var out := new T[|data|](_ => zero);
    Copy(out, 0, data[..start]);
    Copy(out, start, middle);
    Copy(out, end, data[end..]);
    result := out[..];
    assert result[start..end] == out[start..][..end - start];
  }

  /** The repacking of matrices with a row for every feature. */
  method RepackRows<T>(q: Heads, data: seq<T>, zero: T, cols: nat) returns (result: Option<seq<T>>)
    requires q.numK > 0 && |data| == (QkDim(q) + VDim(q)) * cols
    ensures result.Some? && RowsReordered(q, data, result.value, cols)
  {
    hide VReordered;
    hide RowsReordered;
    var qkRows, vDim := QkDim(q), VDim(q);
    hide QkDim;
    hide VDim;
    var qkSize := qkRows * cols;
    var vStart := qkSize;
    var vEnd := vStart + vDim * cols;
    assert |data| == vEnd;
    var reorderedV := ReorderV(q, data[vStart..vEnd], [vDim, cols], cols);
    if reorderedV == None {
      return None;
    }
    LengthOfVReordered(q, data[vStart..vEnd], reorderedV.value, cols);
    var out := Assemble(data, zero, qkSize, reorderedV.value, vEnd);
    RowsFromParts(q, data, out, cols, qkSize, vEnd);
    result := Some(out);
  }

  lemma {:induction false} RowsFromParts<T>(
    q: Heads, data: seq<T>, result: seq<T>, cols: nat, qkSize: nat, end: nat)
    requires q.numK > 0 && |data| == |result| == (QkDim(q) + VDim(q)) * cols
    requires qkSize == QkDim(q) * cols <= |data| == end && result[..qkSize] == data[..qkSize]
    requires VReordered(q, data[qkSize..end], result[qkSize..end], cols)
    ensures RowsReordered(q, data, result, cols)
  {
    hide VReordered;
    hide RowsReordered;
    assert data[qkSize..end] == data[qkSize..] && result[qkSize..end] == result[qkSize..];
    RowsAssembled(q, data, result, cols);
  }

  lemma {:induction false} LengthOfVReordered<T>(q: Heads, data: seq<T>, result: seq<T>, inner: nat)
    requires q.numK > 0 && VReordered(q, data, result, inner)
    ensures |result| == VDim(q) * inner
  {
  }

  /** The rows before done are reordered, the others are as they were. */
  ghost predicate ColumnsDone<T>(q: Heads, data: seq<T>, now: seq<T>, rows: nat, done: nat)
    requires q.numK > 0
  {
    var cols := QkDim(q) + VDim(q);
    && |data| == |now| == rows * cols
    && done <= rows && done * cols <= rows * cols
    && now[done * cols..] == data[done * cols..]
    && forall r: nat {:trigger Line(now, rows, cols, r)} | r < done ::
      RowsReordered(q, Line(data, rows, cols, r), Line(now, rows, cols, r), 1)
  }

  /** The value features of one more row are replaced by reordered ones. */
  lemma {:induction false} NextRow<T>(
    q: Heads, data: seq<T>, was: seq<T>, now: seq<T>, rows: nat, done: nat, start: nat, end: nat)
    requires q.numK > 0 && done < rows && ColumnsDone(q, data, was, rows, done)
    requires |now| == |was| && start <= end <= |now|
    requires start == done * (QkDim(q) + VDim(q)) + QkDim(q) && end == start + VDim(q)
    requires now[..start] == was[..start] && now[end..] == was[end..]
    requires VReordered(q, was[start..end], now[start..end], 1)
    ensures ColumnsDone(q, data, now, rows, done + 1)
  {
    hide VReordered;
    hide RowsReordered;
    var qk, cols := QkDim(q), QkDim(q) + VDim(q);
    hide QkDim;
    hide VDim;
    LineEnds(rows, cols, done);
    assert (done + 1) * cols == done * cols + cols == end;
    TailsAgree(data, was, now, done * cols, end);
    hide Line;
    forall r: nat | r < done + 1 ensures RowsReordered(q, Line(data, rows, cols, r), Line(now, rows, cols, r), 1) {
      if r < done {
        EarlierLine(was, now, rows, cols, done, start, r);
      } else {
        LineIsReordered(q, data, was, now, rows, done, start, end);
      }
    }
  }

  lemma {:induction false} TailsAgree<T>(data: seq<T>, was: seq<T>, now: seq<T>, from: nat, end: nat)
    requires |data| == |was| == |now| && from <= end <= |now|
    requires was[from..] == data[from..] && now[end..] == was[end..]
    ensures now[end..] == data[end..]
  {
    assert was[end..] == was[from..][end - from..];
    assert data[end..] == data[from..][end - from..];
  }

  lemma {:induction false} EarlierLine<T>(
    was: seq<T>, now: seq<T>, rows: nat, cols: nat, done: nat, start: nat, r: nat)
    requires |was| == |now| == rows * cols && r < done < rows
    requires done * cols <= start <= |now| && now[..start] == was[..start]
    ensures Line(now, rows, cols, r) == Line(was, rows, cols, r)
  {
    LineEnds(done, cols, r);
    assert Line(now, rows, cols, r) == now[..start][r * cols..r * cols + cols];
    assert Line(was, rows, cols, r) == was[..start][r * cols..r * cols + cols];
  }

  lemma {:induction false} LineIsReordered<T>(
    q: Heads, data: seq<T>, was: seq<T>, now: seq<T>, rows: nat, done: nat, start: nat, end: nat)
    requires q.numK > 0 && done < rows && ColumnsDone(q, data, was, rows, done)
    requires |now| == |was| && start <= end <= |now|
    requires start == done * (QkDim(q) + VDim(q)) + QkDim(q) && end == start + VDim(q)
    requires now[..start] == was[..start] && now[end..] == was[end..]
    requires VReordered(q, was[start..end], now[start..end], 1)
    ensures var cols := QkDim(q) + VDim(q);
            RowsReordered(q, Line(data, rows, cols, done), Line(now, rows, cols, done), 1)
  {
    hide VReordered;
    hide RowsReordered;
    var qk, cols := QkDim(q), QkDim(q) + VDim(q);
    var before, after := Line(data, rows, cols, done), Line(now, rows, cols, done);
    LineEnds(rows, cols, done);
    assert before == data[done * cols..][..cols] == was[done * cols..][..cols];
    assert before[qk..] == was[start..end] && after[qk..] == now[start..end];
    assert after[..qk] == now[..start][done * cols..] == was[..start][done * cols..] == before[..qk];
    RowsAssembled(q, before, after, 1);
  }

  /** The repacking of matrices with a column for every feature, in place row by
      row. */
  method RepackColumns<T>(q: Heads, data: seq<T>, zero: T, rows: nat) returns (result: Option<seq<T>>)
    requires q.numK > 0 && |data| == rows * (QkDim(q) + VDim(q))
    ensures result.Some? && ColumnsReordered(q, data, result.value, rows)
  {
    hide VReordered;
    hide RowsReordered;
    hide ColumnsDone;
    var qkDim, vDim := QkDim(q), VDim(q);
    var cols := qkDim + vDim;
    var out := new T[|data|](_ => zero);
    Copy(out, 0, data);
    assert out[..] == data;
    NoneDone(q, data, rows);
    hide QkDim;
    hide VDim;
    for r := 0 to rows
      invariant ColumnsDone(q, data, out[..], rows, r)
    {
      ghost var was := out[..];
      var base := r * cols;
      var vStart := base + qkDim;
      var vEnd := vStart + vDim;
      LineEnds(rows, cols, r);
      var reorderedV := ReorderV(q, out[vStart..vEnd], [vDim], 1);
      if reorderedV == None {
        return None;
      }
      LengthOfVReordered(q, was[vStart..vEnd], reorderedV.value, 1);
      Copy(out, vStart, reorderedV.value);
      NextRow(q, data, was, out[..], rows, r, vStart, vEnd);
    }
    AllDone(q, data, out[..], rows);
    result := Some(out[..]);
  }

  lemma {:induction false} NoneDone<T>(q: Heads, data: seq<T>, rows: nat)
    requires q.numK > 0 && |data| == rows * (QkDim(q) + VDim(q))
    ensures ColumnsDone(q, data, data, rows, 0)
  {
  }

  lemma {:induction false} AllDone<T>(q: Heads, data: seq<T>, now: seq<T>, rows: nat)
    requires q.numK > 0 && ColumnsDone(q, data, now, rows, rows)
    ensures ColumnsReordered(q, data, now, rows)
  {
    hide RowsReordered;
  }

  /** repackAttnQKV. Whether the model wants the heads reordered is given. */
  method RepackAttnQkv<T>(q: Heads, reorderVHeads: bool, data: seq<T>, zero: T, shape: seq<nat>)
    returns (result: Option<seq<T>>)
    requires q.numK > 0
    requires |shape| == 2 ==> |data| == shape[0] * shape[1]
    ensures !reorderVHeads || |shape| != 2 ==> result == Some(data)
    ensures reorderVHeads && |shape| == 2 ==>
              && result.Some?
              && if shape[0] == QkDim(q) + VDim(q) then RowsReordered(q, data, result.value, shape[1])
                 else if shape[1] == QkDim(q) + VDim(q) then ColumnsReordered(q, data, result.value, shape[0])
                 else result == Some(data)
  {
    hide RowsReordered;
    hide ColumnsReordered;
    if !reorderVHeads || |shape| != 2 {
      return Some(data);
    }
    var rows, cols := shape[0], shape[1];
    var qkvDim := QkDim(q) + VDim(q);
    if rows == qkvDim {
      result := RepackRows(q, data, zero, cols);
    } else if cols == qkvDim {
      result := RepackColumns(q, data, zero, rows);
    } else {
      result := Some(data);
    }
  }
}
