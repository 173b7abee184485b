/** Splitting joint Q/K/V/Z projections into Q/K/V and a gate,
    convert/convert_qwen3next.go. */
module Qkvz {
  import opened Options
  import opened RowMajor
  import opened Tensors
  import opened HeadLayout

  datatype Spec = Spec(
    hidden: nat, headKDim: nat, headVDim: nat, numKHeads: nat, numVHeads: nat,
    qkvzDim: nat, qkvOut: nat, gateOut: nat)

  function VPerHead(spec: Spec): nat
    requires spec.numKHeads > 0
  {
    spec.headVDim * (spec.numVHeads / spec.numKHeads)
  }

  /** qkvzSpec: the split that the model's heads ask for, if the shape fits it: a
      row for every lane of all query, key, value and gate heads. */
  function QkvzSpec(q: Heads, shape: seq<nat>): (spec: Option<Spec>)
    ensures spec.Some? ==> FitsShape(spec.value, shape) && spec.value.headKDim > 0 && VPerHead(spec.value) > 0
    ensures spec.Some? ==> spec.value.numKHeads == q.numK && spec.value.numVHeads == q.numV
    ensures spec.Some? ==> spec.value.headKDim == q.headK && spec.value.headVDim == q.headV
    ensures spec.Some? <==>
              && |shape| == 2 && q.numK > 0 && q.numV > 0 && q.headK > 0 && q.headV > 0
              && q.numV % q.numK == 0 && shape[0] == 2 * (q.headK * q.numK) + 2 * (q.headV * q.numV)
  {
    if |shape| != 2 then None
    else if q.numK == 0 || q.numV == 0 || q.headK == 0 || q.headV == 0 then None
    else if q.numV % q.numK != 0 then None
    else
      var vPerHead := q.headV * (q.numV / q.numK);
      var qkvzDim := 2 * q.headK + 2 * vPerHead;
      if shape[0] != qkvzDim * q.numK then None
      else
        RowsAddUp(q.headK, q.headV, q.numK, q.numV);
        Some(Spec(shape[1], q.headK, q.headV, q.numK, q.numV, qkvzDim,
                  2 * q.headK * q.numK + q.headV * q.numV, q.headV * q.numV))
  }

  lemma {:induction false} RowsAddUp(hk: nat, hv: nat, numK: nat, numV: nat)
    requires numK > 0 && numV % numK == 0
    ensures hv * (numV / numK) * numK == hv * numV
    ensures (2 * hk + 2 * (hv * (numV / numK))) * numK == 2 * hk * numK + hv * numV + hv * numV
    ensures numV > 0 && hv > 0 ==> numV / numK > 0 && hv * (numV / numK) > 0
  {
    var per := numV / numK;
    assert numV == per * numK;
    assert hv * per * numK == hv * (per * numK);
  }

  /** The rows of both outputs add up to the input's exactly when the value heads
      divide evenly among the key heads, as the guard demands. */
  lemma {:induction false} RowsAddUpIff(hk: nat, hv: nat, numK: nat, numV: nat)
    requires numK > 0 && hv > 0
    ensures (2 * hk + 2 * (hv * (numV / numK))) * numK == (2 * hk * numK + hv * numV) + hv * numV
            <==> numV % numK == 0
  {
    var per, left := numV / numK, numV % numK;
    assert numV == per * numK + left;
    assert hv * numV == hv * (per * numK) + hv * left;
    assert hv * (per * numK) == hv * per * numK;
    assert left > 0 ==> hv * left > 0;
  }

  /** The shape has a block of rows for every key head, and the two outputs have
      as many rows together. */
  ghost predicate FitsShape(spec: Spec, shape: seq<nat>) {
    && |shape| == 2 && spec.hidden == shape[1]
    && spec.numKHeads > 0
    && spec.qkvzDim == 2 * spec.headKDim + 2 * VPerHead(spec)
    && spec.qkvzDim * spec.numKHeads == shape[0]
    && spec.gateOut == spec.numKHeads * VPerHead(spec)
    && spec.qkvOut == 2 * (spec.numKHeads * spec.headKDim) + spec.gateOut
    && spec.qkvOut + spec.gateOut == shape[0]
  }

  // The rows, named by the part they belong to

  datatype Part = Query | Key | Value | Gate

  /** Row index of one part of one key head. */
  datatype Lane = Lane(part: Part, head: nat, index: nat)

  function Width(spec: Spec, part: Part): nat
    requires spec.numKHeads > 0
  {
    if part.Query? || part.Key? then spec.headKDim else VPerHead(spec)
  }

  /** Where a part starts in the block of its key head. */
  function PartStart(spec: Spec, part: Part): nat
    requires spec.numKHeads > 0
  {
    match part
    case Query => 0
    case Key => spec.headKDim
    case Value => 2 * spec.headKDim
    case Gate => 2 * spec.headKDim + VPerHead(spec)
  }

  predicate IsLane(spec: Spec, l: Lane)
    requires spec.numKHeads > 0
  {
    l.head < spec.numKHeads && l.index < Width(spec, l.part)
  }

  function InputRow(spec: Spec, l: Lane): nat
    requires spec.numKHeads > 0
  {
    At(spec.qkvzDim, l.head, PartStart(spec, l.part) + l.index)
  }

  /** Where a part starts in its output. */
  function OutputStart(spec: Spec, part: Part): nat
  {
    match part
    case Query => 0
    case Key => spec.numKHeads * spec.headKDim
    case Value => 2 * (spec.numKHeads * spec.headKDim)
    case Gate => 0
  }

  function OutputRow(spec: Spec, l: Lane): nat
    requires spec.numKHeads > 0
  {
    OutputStart(spec, l.part) + At(Width(spec, l.part), l.head, l.index)
  }

  function OutputRows(spec: Spec, gate: bool): nat {
    if gate then spec.gateOut else spec.qkvOut
  }

  function PartAt(spec: Spec, z: nat): Part
    requires spec.numKHeads > 0
  {
    if z < spec.headKDim then Query
    else if z < 2 * spec.headKDim then Key
    else if z < 2 * spec.headKDim + VPerHead(spec) then Value
    else Gate
  }

  /** The lane of an input row. */
  function LaneOfInput(spec: Spec, r: nat): Lane
    requires spec.numKHeads > 0 && spec.qkvzDim > 0
    requires spec.qkvzDim == 2 * spec.headKDim + 2 * VPerHead(spec)
  {
    var z := Column(spec.qkvzDim, r);
    var part := PartAt(spec, z);
    Lane(part, Row(spec.qkvzDim, r), z - PartStart(spec, part))
  }

  lemma {:induction false} PartAtStart(spec: Spec, z: nat)
    requires spec.numKHeads > 0 && spec.qkvzDim == 2 * spec.headKDim + 2 * VPerHead(spec)
    ensures PartStart(spec, PartAt(spec, z)) <= z
    ensures z < spec.qkvzDim ==> z - PartStart(spec, PartAt(spec, z)) < Width(spec, PartAt(spec, z))
  {
    hide VPerHead;
  }

  lemma {:induction false} PartOfStart(spec: Spec, part: Part, i: nat)
    requires spec.numKHeads > 0 && spec.qkvzDim == 2 * spec.headKDim + 2 * VPerHead(spec)
    requires i < Width(spec, part)
    ensures PartStart(spec, part) + i < spec.qkvzDim && PartAt(spec, PartStart(spec, part) + i) == part
  {
    hide VPerHead;
  }

  /** Every input row is exactly one lane. */
  lemma {:induction false} InputRowsAreLanes(spec: Spec, shape: seq<nat>, r: nat, l: Lane)
    requires FitsShape(spec, shape) && r < shape[0]
    ensures spec.qkvzDim > 0 && IsLane(spec, LaneOfInput(spec, r)) && InputRow(spec, LaneOfInput(spec, r)) == r
    ensures IsLane(spec, l) ==> InputRow(spec, l) < shape[0] && LaneOfInput(spec, InputRow(spec, l)) == l
  {
    hide VPerHead;
    hide PartAt;
    hide PartStart;
    hide Width;
    AtOfQuotient(spec.qkvzDim, spec.numKHeads, r);
    PartAtStart(spec, r % spec.qkvzDim);
    if IsLane(spec, l) {
      var z := PartStart(spec, l.part) + l.index;
      PartOfStart(spec, l.part, l.index);
      AtInRange(spec.qkvzDim, spec.numKHeads, l.head, z);
      QuotientOfAt(spec.qkvzDim, l.head, z);
    }
  }

  /** The lane of a row of the gate, or of the Q/K/V output. */
  function LaneOfOutput(spec: Spec, gate: bool, r: nat): Lane
    requires spec.numKHeads > 0 && spec.headKDim > 0 && VPerHead(spec) > 0
  {
    var qs := spec.numKHeads * spec.headKDim;
    var part := if gate then Gate else if r < qs then Query else if r < 2 * qs then Key else Value;
    var i := if part.Gate? || r < qs then r else if r < 2 * qs then r - qs else r - 2 * qs;
    Lane(part, Row(Width(spec, part), i), Column(Width(spec, part), i))
  }

  lemma {:induction false} OutputRowInRange(spec: Spec, shape: seq<nat>, l: Lane)
    requires FitsShape(spec, shape) && IsLane(spec, l)
    ensures At(Width(spec, l.part), l.head, l.index) < spec.numKHeads * Width(spec, l.part)
    ensures OutputRow(spec, l) < OutputRows(spec, l.part.Gate?)
  {
    AtInRange(Width(spec, l.part), spec.numKHeads, l.head, l.index);
    hide At;
    hide VPerHead;
  }

  /** Every row of either output is exactly one lane: with the above, every input
      row is in exactly one place of one output. */
  lemma {:induction false} OutputRowsAreLanes(spec: Spec, shape: seq<nat>, r: nat, l: Lane, gate: bool)
    requires FitsShape(spec, shape) && spec.headKDim > 0 && VPerHead(spec) > 0
    requires r < OutputRows(spec, gate)
    ensures IsLane(spec, LaneOfOutput(spec, gate, r)) && LaneOfOutput(spec, gate, r).part.Gate? == gate
    ensures OutputRow(spec, LaneOfOutput(spec, gate, r)) == r
    ensures IsLane(spec, l) && l.part.Gate? == gate ==> LaneOfOutput(spec, gate, OutputRow(spec, l)) == l
  {
    OutputLane(spec, shape, r, gate);
    if IsLane(spec, l) && l.part.Gate? == gate {
      OutputRowInRange(spec, shape, l);
      QuotientOfAt(Width(spec, l.part), l.head, l.index);
      hide At;
      hide VPerHead;
    }
  }

  lemma {:induction false} OutputLane(spec: Spec, shape: seq<nat>, r: nat, gate: bool)
    requires FitsShape(spec, shape) && spec.headKDim > 0 && VPerHead(spec) > 0
    requires r < OutputRows(spec, gate)
    ensures IsLane(spec, LaneOfOutput(spec, gate, r)) && LaneOfOutput(spec, gate, r).part.Gate? == gate
    ensures OutputRow(spec, LaneOfOutput(spec, gate, r)) == r
  {
    var lane := LaneOfOutput(spec, gate, r);
    var i := r - OutputStart(spec, lane.part);
    hide VPerHead;
    assert 0 <= i < spec.numKHeads * Width(spec, lane.part);
    AtOfQuotient(Width(spec, lane.part), spec.numKHeads, i);
    hide At;
  }

  /** Each row of the output is the row of the input for the same lane. */
  ghost predicate Extracted<T>(spec: Spec, data: seq<T>, result: seq<T>, gate: bool)
    requires spec.numKHeads > 0
  {
    && |result| == OutputRows(spec, gate) * spec.hidden
    && forall l: Lane, c: nat {:trigger At(spec.hidden, OutputRow(spec, l), c)}
         | IsLane(spec, l) && l.part.Gate? == gate && c < spec.hidden ::
      && At(spec.hidden, OutputRow(spec, l), c) < |result|
      && At(spec.hidden, InputRow(spec, l), c) < |data|
      && result[At(spec.hidden, OutputRow(spec, l), c)] == data[At(spec.hidden, InputRow(spec, l), c)]
  }

  /** The two outputs together determine the input. */
  lemma {:induction false} NothingIsLost<T>(
    spec: Spec, shape: seq<nat>, data: seq<T>, other: seq<T>, qkv: seq<T>, gate: seq<T>)
    requires FitsShape(spec, shape) && |data| == |other| == shape[0] * shape[1]
    requires Extracted(spec, data, qkv, false) && Extracted(spec, data, gate, true)
    requires Extracted(spec, other, qkv, false) && Extracted(spec, other, gate, true)
    ensures data == other
  {
    forall i | 0 <= i < |data| ensures data[i] == other[i] {
      AtOfQuotient(spec.hidden, shape[0], i);
      var r, c := i / spec.hidden, i % spec.hidden;
      InputRowsAreLanes(spec, shape, r, Lane(Query, 0, 0));
      var l := LaneOfInput(spec, r);
      hide At;
      hide InputRow;
      hide OutputRow;
      hide LaneOfInput;
      assert At(spec.hidden, OutputRow(spec, l), c) < if l.part.Gate? then |gate| else |qkv|;
    }
  }

  // The chain of tensor operations, on matrices

  lemma {:induction false} MatrixElem<T>(m: Tensor<T>, rows: nat, cols: nat, x: nat, y: nat)
    requires Valid(m) && m.shape == [rows, cols] && x < rows && y < cols
    ensures At(cols, x, y) < |m.data| && IsIndex(m.shape, [x, y])
    ensures Elem(m, [x, y]) == m.data[At(cols, x, y)]
  {
    PositionOfMatrix(rows, cols, x, y);
    PositionInRange(m.shape, [x, y]);
  }

  lemma {:induction false} CubeElem<T>(m: Tensor<T>, a: nat, b: nat, c: nat, x: nat, y: nat, z: nat)
    requires Valid(m) && m.shape == [a, b, c] && x < a && y < b && z < c
    ensures At(c, At(b, x, y), z) < |m.data| && IsIndex(m.shape, [x, y, z])
    ensures Elem(m, [x, y, z]) == m.data[At(c, At(b, x, y), z)]
  {
    PositionOfCube(a, b, c, x, y, z);
    PositionInRange(m.shape, [x, y, z]);
  }

  lemma {:induction false} ExchangeIsPermutation()
    ensures IsPermutation([1, 0])
  {
    assert [1, 0][0] == 1 && [1, 0][1] == 0;
  }

  /** tensor.Transpose(t, 1, 0). */
  lemma {:induction false} TransposedMatrix<T>(m: Tensor<T>, rows: nat, cols: nat, x: nat, y: nat)
    requires Valid(m) && m.shape == [rows, cols] && x < rows && y < cols
    ensures IsPermutation([1, 0]) && Transpose(m, [1, 0]).shape == [cols, rows]
    ensures At(cols, x, y) < |m.data| && At(rows, y, x) < |Transpose(m, [1, 0]).data|
    ensures Transpose(m, [1, 0]).data[At(rows, y, x)] == m.data[At(cols, x, y)]
  {
    ExchangeIsPermutation();
    var t := Transpose(m, [1, 0]);
    assert Gather([1, 0], [rows, cols]) == [cols, rows];
    assert Gather([1, 0], [x, y]) == [y, x];
    MatrixElem(m, rows, cols, x, y);
    ElemOfTranspose(m, [1, 0], [x, y]);
    MatrixElem(t, cols, rows, y, x);
  }

  /** Row c holds element c of all input rows, in blocks of one key head. */
  ghost predicate Blocked<T>(spec: Spec, data: seq<T>, t: Tensor<T>)
    requires spec.numKHeads > 0
  {
    && Valid(t) && t.shape == [spec.hidden, spec.numKHeads, spec.qkvzDim]
    && forall c: nat, k: nat, z: nat {:trigger At(spec.hidden, At(spec.qkvzDim, k, z), c)}
         | c < spec.hidden && k < spec.numKHeads && z < spec.qkvzDim ::
      && At(spec.hidden, At(spec.qkvzDim, k, z), c) < |data|
      && IsIndex(t.shape, [c, k, z])
      && Elem(t, [c, k, z]) == data[At(spec.hidden, At(spec.qkvzDim, k, z), c)]
  }

  lemma {:induction false} TransposedIsBlocked<T>(spec: Spec, shape: seq<nat>, m: Tensor<T>, t: Tensor<T>)
    requires FitsShape(spec, shape) && Valid(m) && m.shape == shape
    requires IsPermutation([1, 0])
    requires Valid(t) && t.shape == [spec.hidden, spec.numKHeads, spec.qkvzDim]
    requires t.data == Transpose(m, [1, 0]).data
    ensures Blocked(spec, m.data, t)
  {
    forall c: nat, k: nat, z: nat | c < spec.hidden && k < spec.numKHeads && z < spec.qkvzDim
      ensures At(spec.hidden, At(spec.qkvzDim, k, z), c) < |m.data| && IsIndex(t.shape, [c, k, z])
      ensures Elem(t, [c, k, z]) == m.data[At(spec.hidden, At(spec.qkvzDim, k, z), c)]
    {
      hide Transpose;
      hide VPerHead;
      AtInRange(spec.qkvzDim, spec.numKHeads, k, z);
      assert spec.numKHeads * spec.qkvzDim == shape[0];
      TransposedMatrix(m, shape[0], spec.hidden, At(spec.qkvzDim, k, z), c);
      AtOfProduct(spec.numKHeads, spec.qkvzDim, c, k, z);
      CubeElem(t, spec.hidden, spec.numKHeads, spec.qkvzDim, c, k, z);
      hide At;
      hide Elem;
    }
  }

  /** Row c holds element c of the rows of one part. */
  ghost predicate HoldsPart<T>(spec: Spec, data: seq<T>, m: Tensor<T>, part: Part)
    requires spec.numKHeads > 0
  {
    var w := Width(spec, part);
    && Valid(m) && m.shape == [spec.hidden, spec.numKHeads * w]
    && forall l: Lane, c: nat {:trigger At(spec.hidden, InputRow(spec, l), c)}
         | l.part == part && IsLane(spec, l) && c < spec.hidden ::
      && At(spec.hidden, InputRow(spec, l), c) < |data|
      && At(spec.numKHeads * w, c, At(w, l.head, l.index)) < |m.data|
      && m.data[At(spec.numKHeads * w, c, At(w, l.head, l.index))] == data[At(spec.hidden, InputRow(spec, l), c)]
  }

  lemma {:induction false} SliceHoldsPart<T>(spec: Spec, shape: seq<nat>, data: seq<T>, t: Tensor<T>, part: Part,
                                             s: Tensor<T>, m: Tensor<T>)
    requires FitsShape(spec, shape) && Blocked(spec, data, t)
    requires var start := PartStart(spec, part);
             Slice(t, 2, start, start + Width(spec, part)) == Some(s)
    requires Valid(s) && s.shape == [spec.hidden, spec.numKHeads, Width(spec, part)]
    requires Reshape(s, [spec.hidden, spec.numKHeads * Width(spec, part)]) == Some(m)
    ensures HoldsPart(spec, data, m, part)
  {
    var w := Width(spec, part);
    forall l: Lane, c: nat | l.part == part && IsLane(spec, l) && c < spec.hidden
      ensures At(spec.hidden, InputRow(spec, l), c) < |data|
      ensures At(spec.numKHeads * w, c, At(w, l.head, l.index)) < |m.data|
      ensures m.data[At(spec.numKHeads * w, c, At(w, l.head, l.index))] == data[At(spec.hidden, InputRow(spec, l), c)]
    {
      PartElem(spec, shape, data, t, s, l, c);
    }
  }

  lemma {:induction false} PartElem<T>(
    spec: Spec, shape: seq<nat>, data: seq<T>, t: Tensor<T>, s: Tensor<T>, l: Lane, c: nat)
    requires FitsShape(spec, shape) && Blocked(spec, data, t)
    requires IsLane(spec, l) && c < spec.hidden
    requires var start := PartStart(spec, l.part);
             Slice(t, 2, start, start + Width(spec, l.part)) == Some(s)
    requires Valid(s) && s.shape == [spec.hidden, spec.numKHeads, Width(spec, l.part)]
    ensures var w := Width(spec, l.part);
            && At(spec.hidden, InputRow(spec, l), c) < |data|
            && At(spec.numKHeads * w, c, At(w, l.head, l.index)) < |s.data|
            && s.data[At(spec.numKHeads * w, c, At(w, l.head, l.index))] == data[At(spec.hidden, InputRow(spec, l), c)]
  {
    hide VPerHead;
    hide Slice;
    var w, start := Width(spec, l.part), PartStart(spec, l.part);
    PartOfStart(spec, l.part, l.index);
    assert start + w <= spec.qkvzDim;
    hide Width;
    hide PartStart;
    var i := [c, l.head, l.index];
    assert i[2 := start + i[2]] == [c, l.head, start + l.index];
    assert t.shape[2 := w] == s.shape;
    ElemOfSlice(t, 2, start, start + w, i);
    CubeElem(s, spec.hidden, spec.numKHeads, w, c, l.head, l.index);
    AtOfProduct(spec.numKHeads, w, c, l.head, l.index);
    hide At;
    hide Elem;
    assert At(spec.hidden, At(spec.qkvzDim, l.head, start + l.index), c) < |data|;
  }

  lemma {:induction false} FlattenedSize(a: nat, b: nat, w: nat)
    ensures Size([a, b, w]) == Size([a, b * w])
  {
    PositionOfCube(a, b, w, 0, 0, 0);
    PositionOfMatrix(a, b * w, 0, 0);
    hide Size;
    assert a * b * w == a * (b * w);
  }

  lemma {:induction false} CubeSlice<T>(t: Tensor<T>, a: nat, b: nat, n: nat, low: nat, w: nat)
    requires Valid(t) && t.shape == [a, b, n] && low + w <= n
    ensures Slice(t, 2, low, low + w).Some? && Slice(t, 2, low, low + w).value.shape == [a, b, w]
    ensures Reshape(Slice(t, 2, low, low + w).value, [a, b * w]).Some?
  {
    hide Size;
    FlattenedSize(a, b, w);
    assert t.shape[2] == n;
    assert t.shape[2 := w] == [a, b, w];
  }

  lemma {:induction false} PartIsDefined<T>(spec: Spec, shape: seq<nat>, t: Tensor<T>, part: Part)
    requires FitsShape(spec, shape)
    requires Valid(t) && t.shape == [spec.hidden, spec.numKHeads, spec.qkvzDim]
    ensures var start, w := PartStart(spec, part), Width(spec, part);
            var s := Slice(t, 2, start, start + w);
            && s.Some? && s.value.shape == [spec.hidden, spec.numKHeads, w]
            && Reshape(s.value, [spec.hidden, spec.numKHeads * w]).Some?
  {
    hide VPerHead;
    hide Slice;
    hide Reshape;
    CubeSlice(t, spec.hidden, spec.numKHeads, spec.qkvzDim, PartStart(spec, part), Width(spec, part));
  }

  /** One part of every key head, cut out and flattened. */
  method CutPart<T>(spec: Spec, ghost shape: seq<nat>, ghost data: seq<T>, tt: Tensor<T>,
                    ghost part: Part, offset: nat, width: nat)
    returns (m: Option<Tensor<T>>)
    requires spec.numKHeads > 0 && Valid(tt) && |tt.shape| == 3
    ensures m.Some? ==> Valid(m.value) && m.value.shape == [spec.hidden, spec.numKHeads * width]
    ensures FitsShape(spec, shape) && Blocked(spec, data, tt) &&
            offset == PartStart(spec, part) && width == Width(spec, part) ==>
              m.Some? && HoldsPart(spec, data, m.value, part)
  {
    hide Slice;
    hide HoldsPart;
    hide Width;
    hide PartStart;
    hide FitsShape;
    ghost var expected := FitsShape(spec, shape) && Blocked(spec, data, tt) &&
                          offset == PartStart(spec, part) && width == Width(spec, part);
    if expected {
      PartIsDefined(spec, shape, tt, part);
    }
    var s := Slice(tt, 2, offset, offset + width);
    if s == None {
      return None;
    }
    m := Reshape(s.value, [spec.hidden, spec.numKHeads * width]);
    if m == None {
      return None;
    }
    if expected {
      SliceHoldsPart(spec, shape, data, tt, part, s.value, m.value);
    }
  }

  /** Row c holds element c of the output rows. */
  ghost predicate HoldsOutput<T>(spec: Spec, data: seq<T>, m: Tensor<T>, gate: bool)
    requires spec.numKHeads > 0
  {
    var n := OutputRows(spec, gate);
    && Valid(m) && m.shape == [spec.hidden, n]
    && forall l: Lane, c: nat {:trigger At(spec.hidden, InputRow(spec, l), c)}
         | IsLane(spec, l) && l.part.Gate? == gate && c < spec.hidden ::
      && At(spec.hidden, InputRow(spec, l), c) < |data|
      && OutputRow(spec, l) < n
      && At(n, c, OutputRow(spec, l)) < |m.data|
      && m.data[At(n, c, OutputRow(spec, l))] == data[At(spec.hidden, InputRow(spec, l), c)]
  }

  lemma {:induction false} GateIsOutput<T>(spec: Spec, shape: seq<nat>, data: seq<T>, z: Tensor<T>)
    requires FitsShape(spec, shape) && HoldsPart(spec, data, z, Gate)
    ensures HoldsOutput(spec, data, z, true)
  {
    hide At;
    hide InputRow;
    hide VPerHead;
    forall l: Lane | IsLane(spec, l) && l.part.Gate?
      ensures OutputRow(spec, l) == At(Width(spec, Gate), l.head, l.index) && OutputRow(spec, l) < spec.gateOut
    {
      OutputRowInRange(spec, shape, l);
    }
  }

  /** tensor.Concat(1, a, b). */
  lemma {:induction false} ConcatMatrix<T>(a: Tensor<T>, b: Tensor<T>, rows: nat, n: nat, m: nat, x: nat, y: nat)
    requires Valid(a) && Valid(b) && a.shape == [rows, n] && b.shape == [rows, m]
    ensures Concat(1, a, b).Some? && Concat(1, a, b).value.shape == [rows, n + m]
    ensures x < rows && y < n ==>
              && At(n, x, y) < |a.data| && At(n + m, x, y) < |Concat(1, a, b).value.data|
              && Concat(1, a, b).value.data[At(n + m, x, y)] == a.data[At(n, x, y)]
    ensures x < rows && y < m ==>
              && At(m, x, y) < |b.data| && At(n + m, x, n + y) < |Concat(1, a, b).value.data|
              && Concat(1, a, b).value.data[At(n + m, x, n + y)] == b.data[At(m, x, y)]
  {
    assert a.shape[1 := b.shape[1]] == b.shape;
    assert a.shape[1 := a.shape[1] + b.shape[1]] == [rows, n + m];
    if x < rows && y < n {
      LeftOfConcat(a, b, rows, n, m, x, y);
    }
    if x < rows && y < m {
      RightOfConcat(a, b, rows, n, m, x, y);
    }
  }

  lemma {:induction false} LeftOfConcat<T>(a: Tensor<T>, b: Tensor<T>, rows: nat, n: nat, m: nat, x: nat, y: nat)
    requires Valid(a) && Valid(b) && a.shape == [rows, n] && b.shape == [rows, m] && x < rows && y < n
    ensures At(n, x, y) < |a.data| && Concat(1, a, b).Some? && At(n + m, x, y) < |Concat(1, a, b).value.data|
    ensures Concat(1, a, b).value.data[At(n + m, x, y)] == a.data[At(n, x, y)]
  {
    assert a.shape[1 := b.shape[1]] == b.shape;
    assert a.shape[1 := a.shape[1] + b.shape[1]] == [rows, n + m];
    ElemOfConcat(1, a, b, [x, y]);
    MatrixElem(a, rows, n, x, y);
    hide Concat;
    MatrixElem(Concat(1, a, b).value, rows, n + m, x, y);
    hide At;
    hide Elem;
  }

  lemma {:induction false} RightOfConcat<T>(a: Tensor<T>, b: Tensor<T>, rows: nat, n: nat, m: nat, x: nat, y: nat)
    requires Valid(a) && Valid(b) && a.shape == [rows, n] && b.shape == [rows, m] && x < rows && y < m
    ensures At(m, x, y) < |b.data| && Concat(1, a, b).Some? && At(n + m, x, n + y) < |Concat(1, a, b).value.data|
    ensures Concat(1, a, b).value.data[At(n + m, x, n + y)] == b.data[At(m, x, y)]
  {
    assert a.shape[1 := b.shape[1]] == b.shape;
    assert a.shape[1 := a.shape[1] + b.shape[1]] == [rows, n + m];
    assert [x, n + y][1 := n + y - n] == [x, y];
    ElemOfConcat(1, a, b, [x, n + y]);
    MatrixElem(b, rows, m, x, y);
    hide Concat;
    MatrixElem(Concat(1, a, b).value, rows, n + m, x, n + y);
    hide At;
    hide Elem;
  }

  lemma {:induction false} ConcatIsOutput<T>(
    spec: Spec, shape: seq<nat>, data: seq<T>, q: Tensor<T>, k: Tensor<T>, v: Tensor<T>)
    requires FitsShape(spec, shape)
    requires HoldsPart(spec, data, q, Query) && HoldsPart(spec, data, k, Key) && HoldsPart(spec, data, v, Value)
    ensures Concat(1, q, k).Some? && Concat(1, Concat(1, q, k).value, v).Some?
    ensures HoldsOutput(spec, data, Concat(1, Concat(1, q, k).value, v).value, false)
  {
    hide VPerHead;
    hide At;
    hide InputRow;
    hide Concat;
    hide OutputRow;
    var qs := spec.numKHeads * spec.headKDim;
    ConcatMatrix(q, k, spec.hidden, qs, qs, 0, 0);
    var qk := Concat(1, q, k).value;
    ConcatMatrix(qk, v, spec.hidden, 2 * qs, spec.gateOut, 0, 0);
    var out := Concat(1, qk, v).value;
    var n := OutputRows(spec, false);
    assert n == spec.qkvOut == 2 * qs + spec.gateOut;
    assert Valid(out);
    assert out.shape == [spec.hidden, n];
    hide OutputRows;
    forall l: Lane, c: nat | IsLane(spec, l) && l.part.Gate? == false && c < spec.hidden
      ensures At(spec.hidden, InputRow(spec, l), c) < |data|
      ensures OutputRow(spec, l) < n
      ensures At(n, c, OutputRow(spec, l)) < |out.data|
      ensures out.data[At(n, c, OutputRow(spec, l))] == data[At(spec.hidden, InputRow(spec, l), c)]
    {
      ConcatElem(spec, shape, data, q, k, v, l, c);
    }
  }

  lemma {:induction false} ConcatElem<T>(
    spec: Spec, shape: seq<nat>, data: seq<T>, q: Tensor<T>, k: Tensor<T>, v: Tensor<T>, l: Lane, c: nat)
    requires FitsShape(spec, shape)
    requires HoldsPart(spec, data, q, Query) && HoldsPart(spec, data, k, Key) && HoldsPart(spec, data, v, Value)
    requires Concat(1, q, k).Some? && Concat(1, Concat(1, q, k).value, v).Some?
    requires IsLane(spec, l) && !l.part.Gate? && c < spec.hidden
    ensures var out := Concat(1, Concat(1, q, k).value, v).value;
            && At(spec.hidden, InputRow(spec, l), c) < |data|
            && OutputRow(spec, l) < spec.qkvOut
            && At(spec.qkvOut, c, OutputRow(spec, l)) < |out.data|
            && out.data[At(spec.qkvOut, c, OutputRow(spec, l))] == data[At(spec.hidden, InputRow(spec, l), c)]
  {
    hide VPerHead;
    hide Concat;
    var qs := spec.numKHeads * spec.headKDim;
    var qk := Concat(1, q, k).value;
    OutputRowInRange(spec, shape, l);
    hide At;
    hide InputRow;
    assert At(spec.hidden, InputRow(spec, l), c) < |data|;
    var i := At(Width(spec, l.part), l.head, l.index);
    match l.part
    case Query =>
      ConcatMatrix(q, k, spec.hidden, qs, qs, c, i);
      ConcatMatrix(qk, v, spec.hidden, 2 * qs, spec.gateOut, c, i);
    case Key =>
      ConcatMatrix(q, k, spec.hidden, qs, qs, c, i);
      ConcatMatrix(qk, v, spec.hidden, 2 * qs, spec.gateOut, c, qs + i);
    case Value =>
      ConcatMatrix(q, k, spec.hidden, qs, qs, 0, 0);
      ConcatMatrix(qk, v, spec.hidden, 2 * qs, spec.gateOut, c, i);
  }

  lemma {:induction false} TransposedIsExtracted<T>(spec: Spec, shape: seq<nat>, data: seq<T>, m: Tensor<T>, gate: bool)
    requires FitsShape(spec, shape) && HoldsOutput(spec, data, m, gate)
    ensures IsPermutation([1, 0])
    ensures Extracted(spec, data, Transpose(m, [1, 0]).data, gate)
  {
    var n := OutputRows(spec, gate);
    ExchangeIsPermutation();
    var t := Transpose(m, [1, 0]);
    assert t.shape == [n, spec.hidden] by {
      assert Gather([1, 0], [spec.hidden, n]) == [n, spec.hidden];
    }
    PositionOfMatrix(n, spec.hidden, 0, 0);
    hide VPerHead;
    hide At;
    hide InputRow;
    hide OutputRow;
    hide Transpose;
    forall l: Lane, c: nat | IsLane(spec, l) && l.part.Gate? == gate && c < spec.hidden
      ensures At(spec.hidden, OutputRow(spec, l), c) < |t.data|
      ensures At(spec.hidden, InputRow(spec, l), c) < |data|
      ensures t.data[At(spec.hidden, OutputRow(spec, l), c)] == data[At(spec.hidden, InputRow(spec, l), c)]
    {
      assert At(spec.hidden, InputRow(spec, l), c) < |data|;
      TransposedMatrix(m, spec.hidden, n, c, OutputRow(spec, l));
    }
  }

  /** What a matrix of input rows becomes by transposing and cutting at the key
      heads. */
  lemma {:induction false} BlockedByReshape<T>(spec: Spec, m: Tensor<T>)
    requires FitsShape(spec, m.shape) && Valid(m)
    ensures IsPermutation([1, 0])
    ensures var t := Reshape(Transpose(m, [1, 0]), [spec.hidden, spec.numKHeads, spec.qkvzDim]);
            t.Some? && Blocked(spec, m.data, t.value)
  {
    ExchangeIsPermutation();
    var t := Transpose(m, [1, 0]);
    assert t.shape == [spec.hidden, m.shape[0]] by {
      assert Gather([1, 0], m.shape) == [spec.hidden, m.shape[0]];
    }
    hide VPerHead;
    hide Transpose;
    assert spec.numKHeads * spec.qkvzDim == m.shape[0];
    FlattenedSize(spec.hidden, spec.numKHeads, spec.qkvzDim);
    hide Size;
    TransposedIsBlocked(spec, m.shape, m, Tensor([spec.hidden, spec.numKHeads, spec.qkvzDim], t.data));
  }

  /** repackQKVZ: cuts the four parts of every key head apart and gives back the
      gate rows, or the query, key and value rows behind each other. */
  method RepackQkvz<T>(spec: Spec, extractGate: bool, data: seq<T>, shape: seq<nat>)
    returns (result: Option<seq<T>>)
    requires spec.numKHeads > 0 && |data| == Size(shape)
    ensures |shape| != 2 ==> result == None
    ensures FitsShape(spec, shape) ==> result.Some? && Extracted(spec, data, result.value, extractGate)
  {
    hide HoldsPart;
    hide HoldsOutput;
    hide Extracted;
    hide Concat;
    hide Transpose;
    hide Blocked;
    hide Size;
    var vPerHead := VPerHead(spec);
    var tt := Tensor(shape, data);
    if |shape| != 2 {
      return None;
    }
    hide FitsShape;
    ghost var fits := FitsShape(spec, shape);
    if fits {
      BlockedByReshape(spec, tt);
    }
    ExchangeIsPermutation();
    tt := Transpose(tt, [1, 0]);
    var cube := Reshape(tt, [spec.hidden, spec.numKHeads, spec.qkvzDim]);
    if cube == None {
      return None;
    }
    tt := cube.value;
    var offset := 0;
    var qMat := CutPart(spec, shape, data, tt, Query, offset, spec.headKDim);
    offset := offset + spec.headKDim;
    var kMat := CutPart(spec, shape, data, tt, Key, offset, spec.headKDim);
    offset := offset + spec.headKDim;
    var vMat := CutPart(spec, shape, data, tt, Value, offset, vPerHead);
    offset := offset + vPerHead;
    var zMat := CutPart(spec, shape, data, tt, Gate, offset, vPerHead);
    if qMat == None || kMat == None || vMat == None || zMat == None {
      return None;
    }
    var out := zMat.value;
    if extractGate {
      if fits {
        GateIsOutput(spec, shape, data, out);
      }
    } else {
      if fits {
        ConcatIsOutput(spec, shape, data, qMat.value, kMat.value, vMat.value);
      }
      var qkMat := Concat(1, qMat.value, kMat.value);
      if qkMat == None {
        return None;
      }
      var qkvMat := Concat(1, qkMat.value, vMat.value);
      if qkvMat == None {
        return None;
      }
      out := qkvMat.value;
    }
    if fits {
      TransposedIsExtracted(spec, shape, data, out, extractGate);
    }
    out := Transpose(out, [1, 0]);
    result := Some(out.data);
  }
}
