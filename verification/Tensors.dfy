/** Dense tensors in row-major order, as far as the converters use them: reshape,
    transpose, slice and concat, given by the elements of their results. */
module Tensors {
  import opened Options
  import opened RowMajor

  type Index = seq<nat>

  datatype Tensor<T> = Tensor(shape: seq<nat>, data: seq<T>)

  function Size(shape: seq<nat>): nat {
    if shape == [] then 1 else shape[0] * Size(shape[1..])
  }

  predicate IsIndex(shape: seq<nat>, c: Index) {
    |c| == |shape| && forall a | 0 <= a < |c| :: c[a] < shape[a]
  }

  /** The row-major position of an element. */
  function Position(shape: seq<nat>, c: Index): nat
    requires |c| == |shape|
  {
    if shape == [] then 0 else At(Size(shape[1..]), c[0], Position(shape[1..], c[1..]))
  }

  lemma {:induction false} PositionInRange(shape: seq<nat>, c: Index)
    requires IsIndex(shape, c)
    ensures Position(shape, c) < Size(shape)
    decreases |shape|
  {
    if shape != [] {
      PositionInRange(shape[1..], c[1..]);
      AtInRange(Size(shape[1..]), shape[0], c[0], Position(shape[1..], c[1..]));
    }
  }

  /** The element at a position: the inverse of Position. */
  function IndexOf(shape: seq<nat>, i: nat): (c: Index)
    requires i < Size(shape)
    ensures IsIndex(shape, c)
    decreases |shape|
  {
    if shape == [] then []
    else
      SizeOfNonEmpty(shape, i);
      [Row(Size(shape[1..]), i)] + IndexOf(shape[1..], Column(Size(shape[1..]), i))
  }

  lemma {:induction false} SizeOfNonEmpty(shape: seq<nat>, i: nat)
    requires shape != [] && i < Size(shape)
    ensures Size(shape[1..]) > 0
    ensures Row(Size(shape[1..]), i) < shape[0] && Column(Size(shape[1..]), i) < Size(shape[1..])
  {
    QuotientInRange(Size(shape[1..]), shape[0], i);
  }

  lemma {:induction false} IndexOfPosition(shape: seq<nat>, c: Index)
    requires IsIndex(shape, c)
    ensures Position(shape, c) < Size(shape) && IndexOf(shape, Position(shape, c)) == c
    decreases |shape|
  {
    PositionInRange(shape, c);
    if shape != [] {
      IndexOfPosition(shape[1..], c[1..]);
      QuotientOfAt(Size(shape[1..]), c[0], Position(shape[1..], c[1..]));
      hide At;
      assert c == [c[0]] + c[1..];
    }
  }

  lemma {:induction false} PositionOfIndex(shape: seq<nat>, i: nat)
    requires i < Size(shape)
    ensures Position(shape, IndexOf(shape, i)) == i
    decreases |shape|
  {
    if shape != [] {
      AtOfQuotient(Size(shape[1..]), shape[0], i);
      hide At;
      PositionOfIndex(shape[1..], Column(Size(shape[1..]), i));
      assert IndexOf(shape, i)[1..] == IndexOf(shape[1..], Column(Size(shape[1..]), i));
    }
  }

  lemma {:induction false} AtOfProduct(a: nat, b: nat, x: nat, y: nat, z: nat)
    ensures At(a * b, x, At(b, y, z)) == At(b, At(a, x, y), z)
  {
    assert x * (a * b) == x * a * b;
    assert (x * a + y) * b == x * a * b + y * b;
  }

  lemma {:induction false} SizeOfConcat(s: seq<nat>, t: seq<nat>)
    ensures Size(s + t) == Size(s) * Size(t)
    decreases |s|
  {
    if s == [] {
      assert s + t == t;
    } else {
      SizeOfConcat(s[1..], t);
      assert (s + t)[1..] == s[1..] + t;
      assert s[0] * (Size(s[1..]) * Size(t)) == s[0] * Size(s[1..]) * Size(t);
    }
  }

  lemma {:induction false} PositionOfConcat(s: seq<nat>, t: seq<nat>, c: Index, d: Index)
    requires |c| == |s| && |d| == |t|
    ensures Position(s + t, c + d) == At(Size(t), Position(s, c), Position(t, d))
    decreases |s|
  {
    if s == [] {
      assert s + t == t && c + d == d;
    } else {
      assert (s + t)[1..] == s[1..] + t && (c + d)[1..] == c[1..] + d;
      PositionOfConcat(s[1..], t, c[1..], d);
      SizeOfConcat(s[1..], t);
      AtOfProduct(Size(s[1..]), Size(t), c[0], Position(s[1..], c[1..]), Position(t, d));
      hide At;
    }
  }

  lemma {:induction false} PositionOfVector(n: nat, x: nat)
    ensures Size([n]) == n && Position([n], [x]) == x
  {
    assert [n][1..] == [] && [x][1..] == [];
    assert Size([]) == 1;
    assert Position([], []) == 0;
  }

  lemma {:induction false} PositionOfMatrix(m: nat, n: nat, x: nat, y: nat)
    ensures Size([m, n]) == m * n && Position([m, n], [x, y]) == At(n, x, y)
  {
    PositionOfVector(m, x);
    PositionOfVector(n, y);
    assert [m, n] == [m] + [n] && [x, y] == [x] + [y];
    SizeOfConcat([m], [n]);
    PositionOfConcat([m], [n], [x], [y]);
  }

  lemma {:induction false} PositionOfCube(l: nat, m: nat, n: nat, x: nat, y: nat, z: nat)
    ensures Size([l, m, n]) == l * m * n
    ensures Position([l, m, n], [x, y, z]) == At(n, At(m, x, y), z)
  {
    PositionOfMatrix(l, m, x, y);
    PositionOfVector(n, z);
    assert [l, m, n] == [l, m] + [n] && [x, y, z] == [x, y] + [z];
    SizeOfConcat([l, m], [n]);
    PositionOfConcat([l, m], [n], [x, y], [z]);
  }

  ghost predicate Valid<T>(t: Tensor<T>) {
    |t.data| == Size(t.shape)
  }

  function Elem<T>(t: Tensor<T>, c: Index): T
    requires Valid(t) && IsIndex(t.shape, c)
  {
    PositionInRange(t.shape, c);
    t.data[Position(t.shape, c)]
  }

  /** The tensor with the given elements. */
  function Build<T>(shape: seq<nat>, f: Index --> T): (t: Tensor<T>)
    requires forall c | IsIndex(shape, c) :: f.requires(c)
    ensures Valid(t) && t.shape == shape
  {
    Tensor(shape, seq(Size(shape), i requires 0 <= i < Size(shape) => f(IndexOf(shape, i))))
  }

  lemma {:induction false} ElemOfBuild<T>(shape: seq<nat>, f: Index --> T, c: Index)
    requires forall d | IsIndex(shape, d) :: f.requires(d)
    requires IsIndex(shape, c)
    ensures Elem(Build(shape, f), c) == f(c)
  {
    IndexOfPosition(shape, c);
  }

  /** The same elements in the same order under another shape. */
  function Reshape<T>(t: Tensor<T>, shape: seq<nat>): (r: Option<Tensor<T>>)
    requires Valid(t)
    ensures r.Some? ==> Valid(r.value)
  {
    if Size(shape) == Size(t.shape) then Some(Tensor(shape, t.data)) else None
  }

  // Transposing

  predicate IsPermutation(axes: seq<nat>) {
    && (forall a | 0 <= a < |axes| :: axes[a] < |axes|)
    && (forall a, b | 0 <= a < b < |axes| :: axes[a] != axes[b])
    && (forall b | 0 <= b < |axes| :: b in axes)
  }

  function Find(axes: seq<nat>, b: nat): (a: nat)
    requires b in axes
    ensures a < |axes| && axes[a] == b
  {
    if axes[0] == b then 0 else 1 + Find(axes[1..], b)
  }

  /** Entry axes[a] of c becomes entry a. */
  function Gather(axes: seq<nat>, c: seq<nat>): (g: seq<nat>)
    requires IsPermutation(axes) && |c| == |axes|
    ensures |g| == |axes| && forall a | 0 <= a < |axes| :: g[a] == c[axes[a]]
  {
    seq(|axes|, a requires 0 <= a < |axes| => c[axes[a]])
  }

  /** Entry a of c becomes entry axes[a]: undoes Gather. */
  function Scatter(axes: seq<nat>, c: seq<nat>): (s: seq<nat>)
    requires IsPermutation(axes) && |c| == |axes|
    ensures |s| == |axes| && forall a | 0 <= a < |axes| :: s[axes[a]] == c[a]
  {
    seq(|axes|, b requires 0 <= b < |axes| => c[Find(axes, b)])
  }

  lemma {:induction false} ScatterGather(axes: seq<nat>, c: seq<nat>)
    requires IsPermutation(axes) && |c| == |axes|
    ensures Scatter(axes, Gather(axes, c)) == c
  {
    forall b | 0 <= b < |axes| ensures Scatter(axes, Gather(axes, c))[b] == c[b] {
      var a := Find(axes, b);
      assert axes[a] == b;
    }
  }

  lemma {:induction false} ScatterIsIndex(shape: seq<nat>, axes: seq<nat>, c: Index)
    requires IsPermutation(axes) && |axes| == |shape| && IsIndex(Gather(axes, shape), c)
    ensures IsIndex(shape, Scatter(axes, c))
  {
    var s := Scatter(axes, c);
    forall b | 0 <= b < |s| ensures s[b] < shape[b] {
      var a := Find(axes, b);
      assert s[axes[a]] == c[a] < Gather(axes, shape)[a];
    }
  }

  lemma {:induction false} GatherIsIndex(shape: seq<nat>, axes: seq<nat>, c: Index)
    requires IsPermutation(axes) && |axes| == |shape| && IsIndex(shape, c)
    ensures IsIndex(Gather(axes, shape), Gather(axes, c))
  {
  }

  function Transposed<T>(t: Tensor<T>, axes: seq<nat>, c: Index): T
    requires Valid(t) && IsPermutation(axes) && |axes| == |t.shape| && IsIndex(Gather(axes, t.shape), c)
  {
    ScatterIsIndex(t.shape, axes, c);
    Elem(t, Scatter(axes, c))
  }

  /** Axis a of the result is axis axes[a] of t. */
  function Transpose<T>(t: Tensor<T>, axes: seq<nat>): (r: Tensor<T>)
    requires Valid(t) && IsPermutation(axes) && |axes| == |t.shape|
    ensures Valid(r) && r.shape == Gather(axes, t.shape)
  {
    Build(Gather(axes, t.shape), c requires IsIndex(Gather(axes, t.shape), c) => Transposed(t, axes, c))
  }

  lemma {:induction false} ElemOfTranspose<T>(t: Tensor<T>, axes: seq<nat>, c: Index)
    requires Valid(t) && IsPermutation(axes) && |axes| == |t.shape| && IsIndex(t.shape, c)
    ensures IsIndex(Gather(axes, t.shape), Gather(axes, c))
    ensures Elem(Transpose(t, axes), Gather(axes, c)) == Elem(t, c)
  {
    hide IsPermutation;
    hide Elem;
    hide Build;
    GatherIsIndex(t.shape, axes, c);
    ScatterGather(axes, c);
    ElemOfBuild(Gather(axes, t.shape), c requires IsIndex(Gather(axes, t.shape), c) => Transposed(t, axes, c),
                Gather(axes, c));
  }

  // Slicing and joining along one axis

  /** The part of t whose entry on the axis is at least low and below high. */
  function Slice<T>(t: Tensor<T>, axis: nat, low: nat, high: nat): (r: Option<Tensor<T>>)
    requires Valid(t) && axis < |t.shape|
    ensures r.Some? ==> Valid(r.value) && low <= high && r.value.shape == t.shape[axis := high - low]
  {
    if low <= high <= t.shape[axis] then
      var shape := t.shape[axis := high - low];
      Some(Build(shape, c requires IsIndex(shape, c) => Elem(t, c[axis := low + c[axis]])))
    else None
  }

  lemma {:induction false} ElemOfSlice<T>(t: Tensor<T>, axis: nat, low: nat, high: nat, c: Index)
    requires Valid(t) && axis < |t.shape| && low <= high <= t.shape[axis]
    requires IsIndex(t.shape[axis := high - low], c)
    ensures Slice(t, axis, low, high).Some? && IsIndex(t.shape, c[axis := low + c[axis]])
    ensures Elem(Slice(t, axis, low, high).value, c) == Elem(t, c[axis := low + c[axis]])
  {
    var shape := t.shape[axis := high - low];
    ElemOfBuild(shape, c requires IsIndex(shape, c) => Elem(t, c[axis := low + c[axis]]), c);
  }

  /** b behind a along the axis. */
  function Concat<T>(axis: nat, a: Tensor<T>, b: Tensor<T>): (r: Option<Tensor<T>>)
    requires Valid(a) && Valid(b) && axis < |a.shape|
    ensures r.Some? ==> Valid(r.value) && |b.shape| == |a.shape| &&
                        r.value.shape == a.shape[axis := a.shape[axis] + b.shape[axis]]
  {
    if |b.shape| == |a.shape| && a.shape[axis := b.shape[axis]] == b.shape then
      var shape := a.shape[axis := a.shape[axis] + b.shape[axis]];
      Some(Build(shape, c requires IsIndex(shape, c) => Joined(axis, a, b, c)))
    else None
  }

  function Joined<T>(axis: nat, a: Tensor<T>, b: Tensor<T>, c: Index): T
    requires Valid(a) && Valid(b) && axis < |a.shape|
    requires |b.shape| == |a.shape| && a.shape[axis := b.shape[axis]] == b.shape
    requires IsIndex(a.shape[axis := a.shape[axis] + b.shape[axis]], c)
  {
    if c[axis] < a.shape[axis] then
      assert IsIndex(a.shape, c); Elem(a, c)
    else
      assert IsIndex(b.shape, c[axis := c[axis] - a.shape[axis]]); Elem(b, c[axis := c[axis] - a.shape[axis]])
  }

  lemma {:induction false} ElemOfConcat<T>(axis: nat, a: Tensor<T>, b: Tensor<T>, c: Index)
    requires Valid(a) && Valid(b) && axis < |a.shape|
    requires |b.shape| == |a.shape| && a.shape[axis := b.shape[axis]] == b.shape
    requires IsIndex(a.shape[axis := a.shape[axis] + b.shape[axis]], c)
    ensures Concat(axis, a, b).Some?
    ensures Elem(Concat(axis, a, b).value, c) == Joined(axis, a, b, c)
  {
    var shape := a.shape[axis := a.shape[axis] + b.shape[axis]];
    ElemOfBuild(shape, c requires IsIndex(shape, c) => Joined(axis, a, b, c), c);
  }
}
