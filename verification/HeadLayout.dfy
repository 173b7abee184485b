/** The head reorderings of convert/convert_qwen3next.go: value heads stored
    group by group, key head outermost, are stored tile by tile instead. */
module HeadLayout {
  import opened Options
  import opened RowMajor
  import opened Tensors

  /** The head counts and sizes of the linear attention layers. */
  datatype Heads = Heads(numK: nat, numV: nat, headK: nat, headV: nat)

  /** Where feature x = (k, v, d) goes to: lane d of value head v of key head k
      becomes lane d of key head k of value head v. */
  function Swap(keys: nat, perKey: nat, lanes: nat, x: nat): nat
    requires perKey > 0 && lanes > 0
  {
    At(lanes, At(keys, Column(perKey, Row(lanes, x)), Row(perKey, Row(lanes, x))), Column(lanes, x))
  }

  lemma {:induction false} SwapsHeads(keys: nat, perKey: nat, lanes: nat, k: nat, v: nat, d: nat)
    requires k < keys && v < perKey && d < lanes
    ensures At(lanes, At(perKey, k, v), d) < keys * perKey * lanes
    ensures Swap(keys, perKey, lanes, At(lanes, At(perKey, k, v), d)) == At(lanes, At(keys, v, k), d)
  {
    AtInRange(perKey, keys, k, v);
    AtInRange(lanes, keys * perKey, At(perKey, k, v), d);
    QuotientOfAt(lanes, At(perKey, k, v), d);
    QuotientOfAt(perKey, k, v);
  }

  /** Every feature is one lane of one head. */
  lemma {:induction false} LaneOf(keys: nat, perKey: nat, lanes: nat, x: nat) returns (k: nat, v: nat, d: nat)
    requires x < keys * perKey * lanes
    ensures k < keys && v < perKey && d < lanes && x == At(lanes, At(perKey, k, v), d)
  {
    AtOfQuotient(lanes, keys * perKey, x);
    AtOfQuotient(perKey, keys, x / lanes);
    k, v, d := x / lanes / perKey, x / lanes % perKey, x % lanes;
  }

  lemma {:induction false} ProductOfThree(keys: nat, perKey: nat, lanes: nat)
    ensures keys * perKey * lanes == perKey * keys * lanes
  {
  }

  /** Swapping with the head counts exchanged swaps back, so no feature is lost. */
  lemma {:induction false} SwapInverse(keys: nat, perKey: nat, lanes: nat, x: nat)
    requires x < keys * perKey * lanes
    ensures keys > 0 && perKey > 0 && lanes > 0
    ensures Swap(keys, perKey, lanes, x) < keys * perKey * lanes
    ensures Swap(perKey, keys, lanes, Swap(keys, perKey, lanes, x)) == x
  {
    hide Swap;
    hide At;
    var k, v, d := LaneOf(keys, perKey, lanes, x);
    SwapsHeads(keys, perKey, lanes, k, v, d);
    SwapsHeads(perKey, keys, lanes, v, k, d);
    ProductOfThree(keys, perKey, lanes);
  }

  /** Every block of keys * perKey * lanes rows of inner elements is reordered. */
  ghost predicate Reordered<T>(
    data: seq<T>, result: seq<T>, outer: nat, keys: nat, perKey: nat, lanes: nat, inner: nat)
    requires keys > 0 && perKey > 0 && lanes > 0
  {
    var n := keys * perKey * lanes;
    && |data| == |result| == outer * n * inner
    && forall o: nat, x: nat, f: nat {:trigger At(inner, At(n, o, x), f)} | o < outer && x < n && f < inner ::
      && At(inner, At(n, o, x), f) < |data|
      && At(inner, At(n, o, Swap(keys, perKey, lanes, x)), f) < |result|
      && result[At(inner, At(n, o, Swap(keys, perKey, lanes, x)), f)] == data[At(inner, At(n, o, x), f)]
  }

  lemma {:induction false} PlaceOfPosition(outer: nat, n: nat, inner: nat, i: nat) returns (o: nat, x: nat, f: nat)
    requires i < outer * n * inner
    ensures o < outer && x < n && f < inner && i == At(inner, At(n, o, x), f)
  {
    o, x, f := LaneOf(outer, n, inner, i);
  }

  /** Exchanging the head counts undoes the reordering. */
  lemma {:induction false} ReorderingUndone<T>(
    data: seq<T>, there: seq<T>, back: seq<T>, outer: nat, keys: nat, perKey: nat, lanes: nat, inner: nat)
    requires keys > 0 && perKey > 0 && lanes > 0
    requires Reordered(data, there, outer, keys, perKey, lanes, inner)
    requires Reordered(there, back, outer, perKey, keys, lanes, inner)
    ensures back == data
  {
    var n := keys * perKey * lanes;
    ProductOfThree(keys, perKey, lanes);
    hide Swap;
    hide At;
    forall i | 0 <= i < |data| ensures back[i] == data[i] {
      var o, x, f := PlaceOfPosition(outer, n, inner, i);
      SwapInverse(keys, perKey, lanes, x);
      var y := Swap(keys, perKey, lanes, x);
      assert there[At(inner, At(n, o, y), f)] == data[At(inner, At(n, o, x), f)];
    }
  }

  /** The result of reordering is determined by the input. */
  lemma {:induction false} ReorderingDetermined<T>(
    data: seq<T>, one: seq<T>, other: seq<T>, outer: nat, keys: nat, perKey: nat, lanes: nat, inner: nat)
    requires keys > 0 && perKey > 0 && lanes > 0
    requires Reordered(data, one, outer, keys, perKey, lanes, inner)
    requires Reordered(data, other, outer, keys, perKey, lanes, inner)
    ensures one == other
  {
    var n := keys * perKey * lanes;
    ProductOfThree(keys, perKey, lanes);
    hide Swap;
    hide At;
    forall i | 0 <= i < |data| ensures one[i] == other[i] {
      var o, y, f := PlaceOfPosition(outer, n, inner, i);
      SwapInverse(perKey, keys, lanes, y);
      var x := Swap(perKey, keys, lanes, y);
      assert one[At(inner, At(n, o, y), f)] == data[At(inner, At(n, o, x), f)];
    }
  }

  // The tensor operations behind the reordering

  ghost predicate IsSwap(axes: seq<nat>, dim: nat) {
    && dim + 1 < |axes|
    && forall a | 0 <= a < |axes| :: axes[a] == if a == dim then dim + 1 else if a == dim + 1 then dim else a
  }

  lemma {:induction false} SwapIsPermutation(axes: seq<nat>, dim: nat)
    requires IsSwap(axes, dim)
    ensures IsPermutation(axes)
  {
    forall b | 0 <= b < |axes| ensures b in axes {
      assert axes[axes[b]] == b;
    }
  }

  lemma {:induction false} GatherOfSwap(axes: seq<nat>, before: seq<nat>, a: nat, b: nat, c: nat, after: seq<nat>)
    requires IsSwap(axes, |before|) && IsPermutation(axes) && |axes| == |before| + 3 + |after|
    ensures Gather(axes, before + [a, b, c] + after) == before + [b, a, c] + after
  {
  }

  /** The position of lane (k, v, d) between outer and inner coordinates. */
  lemma {:induction false} PositionOfLane(
    before: seq<nat>, keys: nat, perKey: nat, lanes: nat, after: seq<nat>,
    c: Index, k: nat, v: nat, d: nat, e: Index)
    requires |c| == |before| && |e| == |after|
    ensures Position(before + [keys, perKey, lanes] + after, c + [k, v, d] + e) ==
            At(Size(after), At(keys * perKey * lanes, Position(before, c), At(lanes, At(perKey, k, v), d)),
               Position(after, e))
  {
    PositionOfCube(keys, perKey, lanes, k, v, d);
    PositionOfConcat(before, [keys, perKey, lanes], c, [k, v, d]);
    PositionOfConcat(before + [keys, perKey, lanes], after, c + [k, v, d], e);
  }

  lemma {:induction false} LaneIsIndex(
    before: seq<nat>, keys: nat, perKey: nat, lanes: nat, after: seq<nat>,
    c: Index, k: nat, v: nat, d: nat, e: Index)
    requires IsIndex(before, c) && IsIndex(after, e) && k < keys && v < perKey && d < lanes
    ensures IsIndex(before + [keys, perKey, lanes] + after, c + [k, v, d] + e)
  {
  }

  /** Transposing the two head axes moves lane (k, v, d) to (v, k, d). */
  lemma {:induction false} LaneIsMoved<T>(
    t: Tensor<T>, axes: seq<nat>, before: seq<nat>, keys: nat, perKey: nat, lanes: nat, after: seq<nat>,
    o: nat, k: nat, v: nat, d: nat, f: nat)
    requires Valid(t) && t.shape == before + [keys, perKey, lanes] + after
    requires IsSwap(axes, |before|) && IsPermutation(axes) && |axes| == |t.shape|
    requires o < Size(before) && k < keys && v < perKey && d < lanes && f < Size(after)
    ensures var n := keys * perKey * lanes;
            var i := At(Size(after), At(n, o, At(lanes, At(perKey, k, v), d)), f);
            var j := At(Size(after), At(n, o, At(lanes, At(keys, v, k), d)), f);
            i < |t.data| && j < |Transpose(t, axes).data| && Transpose(t, axes).data[j] == t.data[i]
  {
    var c, e := IndexOf(before, o), IndexOf(after, f);
    PositionOfIndex(before, o);
    PositionOfIndex(after, f);
    PositionOfLane(before, keys, perKey, lanes, after, c, k, v, d, e);
    PositionOfLane(before, perKey, keys, lanes, after, c, v, k, d, e);
    ProductOfThree(keys, perKey, lanes);
    LaneIsIndex(before, keys, perKey, lanes, after, c, k, v, d, e);
    GatherOfSwap(axes, before, keys, perKey, lanes, after);
    GatherOfSwap(axes, c, k, v, d, e);
    ElemOfTranspose(t, axes, c + [k, v, d] + e);
    PositionInRange(t.shape, c + [k, v, d] + e);
    LaneIsIndex(before, perKey, keys, lanes, after, c, v, k, d, e);
    PositionInRange(before + [perKey, keys, lanes] + after, c + [v, k, d] + e);
    hide At;
    hide Transpose;
    hide IsSwap;
    hide IsPermutation;
    hide IsIndex;
    hide Position;
    hide Size;
    hide IndexOf;
    hide Gather;
  }

  lemma {:induction false} TransposeReorders<T>(
    t: Tensor<T>, axes: seq<nat>, before: seq<nat>, keys: nat, perKey: nat, lanes: nat, after: seq<nat>)
    requires Valid(t) && t.shape == before + [keys, perKey, lanes] + after
    requires IsSwap(axes, |before|) && IsPermutation(axes) && |axes| == |t.shape|
    requires keys > 0 && perKey > 0 && lanes > 0
    ensures Reordered(t.data, Transpose(t, axes).data, Size(before), keys, perKey, lanes, Size(after))
  {
    hide Transpose;
    hide Swap;
    hide At;
    hide IsPermutation;
    hide IsSwap;
    var n, r := keys * perKey * lanes, Transpose(t, axes);
    SizesAgree(t, axes, before, keys, perKey, lanes, after);
    forall o: nat, x: nat, f: nat | o < Size(before) && x < n && f < Size(after)
      ensures At(Size(after), At(n, o, x), f) < |t.data|
      ensures At(Size(after), At(n, o, Swap(keys, perKey, lanes, x)), f) < |r.data|
      ensures r.data[At(Size(after), At(n, o, Swap(keys, perKey, lanes, x)), f)] == t.data[At(Size(after), At(n, o, x), f)]
    {
      var k, v, d := LaneOf(keys, perKey, lanes, x);
      SwapsHeads(keys, perKey, lanes, k, v, d);
      LaneIsMoved(t, axes, before, keys, perKey, lanes, after, o, k, v, d, f);
    }
  }

  lemma {:induction false} SizesAgree<T>(
    t: Tensor<T>, axes: seq<nat>, before: seq<nat>, keys: nat, perKey: nat, lanes: nat, after: seq<nat>)
    requires Valid(t) && t.shape == before + [keys, perKey, lanes] + after
    requires IsSwap(axes, |before|) && IsPermutation(axes) && |axes| == |t.shape|
    ensures |t.data| == |Transpose(t, axes).data| == Size(before) * (keys * perKey * lanes) * Size(after)
  {
    hide Transpose;
    GatherOfSwap(axes, before, keys, perKey, lanes, after);
    SizeAround(before, keys, perKey, lanes, after);
    SizeAround(before, perKey, keys, lanes, after);
    ProductOfThree(keys, perKey, lanes);
    hide Size;
  }

  lemma {:induction false} SizeAround(before: seq<nat>, keys: nat, perKey: nat, lanes: nat, after: seq<nat>)
    ensures Size(before + [keys, perKey, lanes] + after) == Size(before) * (keys * perKey * lanes) * Size(after)
  {
    PositionOfCube(keys, perKey, lanes, 0, 0, 0);
    SizeOfConcat(before, [keys, perKey, lanes]);
    SizeOfConcat(before + [keys, perKey, lanes], after);
    hide Size;
  }

  // reorderHeadLayout

  function Axis(shape: seq<nat>, dim: int): int {
    if dim < 0 then dim + |shape| else dim
  }

  /** Whether the shape is the one that the head counts call for. */
  predicate Fits(shape: seq<nat>, dim: int, keys: int, perKey: int, lanes: int) {
    && keys > 0 && perKey > 0 && lanes > 0
    && 0 <= Axis(shape, dim) < |shape|
    && shape[Axis(shape, dim)] == keys * perKey * lanes
  }

  lemma {:induction false} SizeOfSplit(shape: seq<nat>, axis: nat, keys: nat, perKey: nat, lanes: nat)
    requires axis < |shape| && shape[axis] == keys * perKey * lanes
    ensures Size(shape[..axis] + [keys, perKey, lanes] + shape[axis + 1..]) == Size(shape)
  {
    SizeAround(shape[..axis], keys, perKey, lanes, shape[axis + 1..]);
    assert shape == shape[..axis] + [shape[axis]] + shape[axis + 1..];
    SizeOfConcat(shape[..axis], [shape[axis]]);
    SizeOfConcat(shape[..axis] + [shape[axis]], shape[axis + 1..]);
    PositionOfVector(shape[axis], 0);
  }

  lemma {:induction false} SizeOfPrefix(shape: seq<nat>, i: nat)
    requires i < |shape|
    ensures Size(shape[..i + 1]) == Size(shape[..i]) * shape[i]
  {
    assert shape[..i + 1] == shape[..i] + [shape[i]];
    SizeOfConcat(shape[..i], [shape[i]]);
    PositionOfVector(shape[i], 0);
  }

  /** The product of the dimensions. */
  method TotalOf(dims: seq<nat>) returns (total: nat)
    ensures total == Size(dims)
  {
    total := 1;
    for i := 0 to |dims|
      invariant total == Size(dims[..i])
    {
      SizeOfPrefix(dims, i);
      total := total * dims[i];
    }
    assert dims[..|dims|] == dims;
  }

  /** The axes in order, except that dim and the next one are exchanged. */
  method SwappedAxes(n: nat, dim: nat) returns (axes: seq<nat>)
    requires dim + 1 < n
    ensures |axes| == n && IsSwap(axes, dim)
  {
    var perm := new nat[n];
    for i := 0 to n
      invariant forall a | 0 <= a < i :: perm[a] == a
    {
      perm[i] := i;
    }
    perm[dim], perm[dim + 1] := perm[dim + 1], perm[dim];
    axes := perm[..];
  }

  /** Reorders the heads along the given axis, or returns the data as it is where
      the shape does not fit the head counts. */
  method ReorderHeadLayout<T>(data: seq<T>, shape: seq<nat>, dim: int, numKHeads: int, numVPerK: int, headDim: int)
    returns (result: Option<seq<T>>)
    requires Fits(shape, dim, numKHeads, numVPerK, headDim) ==> |data| == Size(shape)
    ensures !Fits(shape, dim, numKHeads, numVPerK, headDim) ==> result == Some(data)
    ensures Fits(shape, dim, numKHeads, numVPerK, headDim) ==>
              && result.Some?
              && Reordered(data, result.value, Size(shape[..Axis(shape, dim)]), numKHeads, numVPerK, headDim,
                           Size(shape[Axis(shape, dim) + 1..]))
  {
    hide Size;
    hide Transpose;
    hide Reordered;
    if |shape| == 0 || numKHeads <= 0 || numVPerK <= 0 || headDim <= 0 {
      return Some(data);
    }
    var dims, axis := shape, dim;
    if axis < 0 {
      axis := axis + |dims|;
    }
    if axis < 0 || axis >= |dims| {
      return Some(data);
    }
    var expected := numKHeads * numVPerK * headDim;
    if dims[axis] != expected {
      return Some(data);
    }
    var newShape := dims[..axis] + [numKHeads, numVPerK, headDim] + dims[axis + 1..];
    SizeOfSplit(dims, axis, numKHeads, numVPerK, headDim);
    var tt := Tensor(dims, data);
    var reshaped := Reshape(tt, newShape);
    if reshaped == None {
      return None;
    }
    tt := reshaped.value;
    var perm := SwappedAxes(|newShape|, axis);
    SwapIsPermutation(perm, axis);
    TransposeReorders(tt, perm, dims[..axis], numKHeads, numVPerK, headDim, dims[axis + 1..]);
    SizesAgree(tt, perm, dims[..axis], numKHeads, numVPerK, headDim, dims[axis + 1..]);
    tt := Transpose(tt, perm);
    var total := TotalOf(dims);
    PositionOfVector(total, 0);
    var flat := Reshape(tt, [total]);
    if flat == None {
      return None;
    }
    result := Some(flat.value.data);
  }
}
