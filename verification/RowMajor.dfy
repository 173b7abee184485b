/** Row-major positions in a flat array. */
module RowMajor {

  /** The position of column f of row r in rows of the given width. */
  function At(width: nat, r: nat, f: nat): nat {
    r * width + f
  }

  /** The row and the column that a position stands for. */
  function Row(width: nat, i: nat): nat
    requires width > 0
  {
    i / width
  }

  function Column(width: nat, i: nat): nat
    requires width > 0
  {
    i % width
  }

  lemma {:induction false} AtInRange(width: nat, rows: nat, r: nat, f: nat)
    requires r < rows && f < width
    ensures At(width, r, f) < rows * width
  {
    assert (r + 1) * width <= rows * width;
  }

  /** Positions in an earlier row are smaller. */
  lemma {:induction false} RowsAreApart(width: nat, r: nat, f: nat, s: nat, g: nat)
    requires f < width
    ensures r < s ==> At(width, r, f) < At(width, s, g)
  {
    if r < s {
      assert (r + 1) * width <= s * width;
    }
  }

  lemma {:induction false} AtInjective(width: nat, r: nat, f: nat, s: nat, g: nat)
    requires f < width && g < width && At(width, r, f) == At(width, s, g)
    ensures r == s && f == g
  {
    RowsAreApart(width, r, f, s, g);
    RowsAreApart(width, s, g, r, f);
  }

  /** No other place has the position of (r, f). */
  lemma {:induction false} AtIsAlone(width: nat, r: nat, f: nat)
    requires f < width
    ensures forall s: nat, g: nat | g < width && At(width, s, g) == At(width, r, f) :: s == r && g == f
  {
    forall s: nat, g: nat | g < width && At(width, s, g) == At(width, r, f) ensures s == r && g == f {
      AtInjective(width, r, f, s, g);
    }
  }

  /** Every position is that of a place. */
  lemma {:induction false} AtOfQuotient(width: nat, rows: nat, i: nat)
    requires i < rows * width
    ensures width > 0 && i / width < rows && i % width < width && At(width, i / width, i % width) == i
  {
    RowsAreApart(width, rows, 0, i / width, 0);
  }

  lemma {:induction false} QuotientInRange(width: nat, rows: nat, i: nat)
    requires i < rows * width
    ensures width > 0 && i / width < rows && i % width < width
  {
    AtOfQuotient(width, rows, i);
  }

  lemma {:induction false} QuotientOfAt(width: nat, r: nat, f: nat)
    requires f < width
    ensures At(width, r, f) / width == r && At(width, r, f) % width == f
  {
    var i := At(width, r, f);
    assert i == At(width, i / width, i % width);
    AtInjective(width, r, f, i / width, i % width);
  }

  lemma {:induction false} PlaceOf(width: nat, r: nat, f: nat, i: nat)
    requires f < width
    ensures i == At(width, r, f) <==> i / width == r && i % width == f
  {
    QuotientOfAt(width, r, f);
    assert i == At(width, i / width, i % width);
  }
}
