/**
 * Row-major layout of a matrix in a flat buffer.
 *
 * The C entry points of the three kernels receive matrices as a flat
 * buffer plus a row count and a row width, and read element (i, j) from
 * index i * width + j (dtw.cpp, hmm.cpp); the feature extractor's entry
 * point writes its feature rows back the same way (audio_processor.cpp).
 */
module Layout {

  /**
   * Where row i starts in a buffer of rows of width `cols`. It is i * cols
   * (RowStartIsProduct); it is written as a sum so that the proofs below
   * reason about offsets without multiplying two unknowns.
   */
  function RowStart(i: nat, cols: nat): nat
  {
    if i == 0 then 0 else RowStart(i - 1, cols) + cols
  }

  /** Where element (i, j) of a matrix of width `cols` lives in the buffer. */
  function Offset(i: nat, j: nat, cols: nat): nat
  {
    RowStart(i, cols) + j
  }

  lemma {:induction false} RowStartIsProduct(i: nat, cols: nat)
    ensures RowStart(i, cols) == i * cols
  {
    if i > 0 {
      RowStartIsProduct(i - 1, cols);
      assert (i - 1) * cols + cols == i * cols;
    }
  }

  /** Rows before `rows` end no later than row `rows` starts. */
  lemma {:induction false} RowFits(i: nat, rows: nat, cols: nat)
    requires i < rows
    ensures RowStart(i, cols) + cols <= RowStart(rows, cols)
    decreases rows
  {
    if i < rows - 1 {
      RowFits(i, rows - 1, cols);
    }
  }

  /** Every one of the first `rows` rows ends inside RowStart(rows). */
  lemma RowsFit(rows: nat, cols: nat)
    ensures forall i :: 0 <= i < rows ==> RowStart(i, cols) + cols <= RowStart(rows, cols)
  {
    forall i | 0 <= i < rows
      ensures RowStart(i, cols) + cols <= RowStart(rows, cols)
    {
      RowFits(i, rows, cols);
    }
  }

  /** Row i of a buffer of rows of width `cols`. */
  function Row(flat: seq<real>, i: nat, cols: nat): (r: seq<real>)
    requires RowStart(i, cols) + cols <= |flat|
    ensures |r| == cols
    ensures forall j :: 0 <= j < cols ==> r[j] == flat[Offset(i, j, cols)]
  {
    flat[RowStart(i, cols) .. RowStart(i, cols) + cols]
  }

  /** The matrix whose row i is flat[i * cols .. i * cols + cols]. */
  function Unflattened(flat: seq<real>, rows: nat, cols: nat): (m: seq<seq<real>>)
    requires RowStart(rows, cols) <= |flat|
    ensures |m| == rows
    ensures forall i :: 0 <= i < rows ==>
      RowStart(i, cols) + cols <= |flat| && m[i] == Row(flat, i, cols)
  {
    RowsFit(rows, cols);
    seq(rows, i requires 0 <= i < rows => Row(flat, i, cols))
  }

  /** Element (i, j) of the unflattened matrix is flat[i * cols + j]. */
  lemma UnflattenedAt(flat: seq<real>, rows: nat, cols: nat)
    requires RowStart(rows, cols) <= |flat|
    ensures forall i, j :: 0 <= i < rows && 0 <= j < cols ==>
      |Unflattened(flat, rows, cols)[i]| == cols &&
      Offset(i, j, cols) < |flat| && Unflattened(flat, rows, cols)[i][j] == flat[Offset(i, j, cols)]
  {
    var m := Unflattened(flat, rows, cols);
    forall i, j | 0 <= i < rows && 0 <= j < cols
      ensures |m[i]| == cols && Offset(i, j, cols) < |flat| && m[i][j] == flat[Offset(i, j, cols)]
    {
      assert m[i] == Row(flat, i, cols);
    }
  }

  /** Every row of `rows` has `cols` elements. */
  predicate Rectangular(rows: seq<seq<real>>, cols: nat)
  {
    forall i :: 0 <= i < |rows| ==> |rows[i]| == cols
  }

  /** The rows written one after the other. */
  function Flat(rows: seq<seq<real>>): seq<real>
  {
    if rows == [] then [] else Flat(rows[..|rows| - 1]) + rows[|rows| - 1]
  }

  /** Flattening a matrix of width `cols` puts element (i, j) at RowStart(i) + j. */
  lemma {:induction false} FlatLayout(rows: seq<seq<real>>, cols: nat)
    requires Rectangular(rows, cols)
    ensures |Flat(rows)| == RowStart(|rows|, cols)
    ensures forall i, j :: 0 <= i < |rows| && 0 <= j < cols ==>
      Offset(i, j, cols) < |Flat(rows)| && Flat(rows)[Offset(i, j, cols)] == rows[i][j]
  {
    if rows != [] {
      var n := |rows|;
      var init := rows[..n - 1];
      FlatLayout(init, cols);
      var f, g := Flat(rows), Flat(init);
      assert f == g + rows[n - 1];
      assert |g| == RowStart(n - 1, cols);
      assert RowStart(n, cols) == RowStart(n - 1, cols) + cols;
      forall i, j | 0 <= i < n && 0 <= j < cols
        ensures Offset(i, j, cols) < |f| && f[Offset(i, j, cols)] == rows[i][j]
      {
        if i < n - 1 {
          RowFits(i, n - 1, cols);
          assert init[i] == rows[i];
          assert f[Offset(i, j, cols)] == g[Offset(i, j, cols)];
        } else {
          assert f[Offset(i, j, cols)] == rows[n - 1][j];
        }
      }
    }
  }

  /** Unflattening what was flattened gives the matrix back. */
  lemma FlatThenUnflatten(rows: seq<seq<real>>, cols: nat)
    requires Rectangular(rows, cols)
    ensures RowStart(|rows|, cols) <= |Flat(rows)|
    ensures Unflattened(Flat(rows), |rows|, cols) == rows
  {
    FlatLayout(rows, cols);
    var m := Unflattened(Flat(rows), |rows|, cols);
    forall i | 0 <= i < |rows|
      ensures m[i] == rows[i]
    {
      RowFits(i, |rows|, cols);
      forall j | 0 <= j < cols
        ensures m[i][j] == rows[i][j]
      {
      }
    }
  }

  /** Every offset below RowStart(rows) lies in exactly one of the first `rows` rows. */
  lemma {:induction false} SplitOffset(k: nat, cols: nat, rows: nat) returns (i: nat, j: nat)
    requires k < RowStart(rows, cols)
    ensures i < rows && j < cols && k == Offset(i, j, cols)
    decreases rows
  {
    if k >= RowStart(rows - 1, cols) {
      i, j := rows - 1, k - RowStart(rows - 1, cols);
    } else {
      i, j := SplitOffset(k, cols, rows - 1);
    }
  }

  /** Flattening what was unflattened gives back the prefix of the buffer the matrix covers. */
  lemma UnflattenThenFlat(flat: seq<real>, rows: nat, cols: nat)
    requires RowStart(rows, cols) <= |flat|
    ensures Flat(Unflattened(flat, rows, cols)) == flat[..RowStart(rows, cols)]
  {
    var m := Unflattened(flat, rows, cols);
    UnflattenedAt(flat, rows, cols);
    assert Rectangular(m, cols);
    FlatLayout(m, cols);
    var f := Flat(m);
    assert |f| == RowStart(rows, cols);
    forall k | 0 <= k < RowStart(rows, cols)
      ensures f[k] == flat[k]
    {
      var i, j := SplitOffset(k, cols, rows);
      assert f[Offset(i, j, cols)] == m[i][j];
    }
  }

  /**
   * The nested copy loops of the DTW and HMM entry points:
   * element (i, j) of the result is flat[i * cols + j].
   */
  method Unflatten(flat: seq<real>, rows: int, cols: int) returns (m: seq<seq<real>>)
    requires 0 <= rows && 0 <= cols && rows * cols <= |flat|
    ensures RowStart(rows, cols) <= |flat| && m == Unflattened(flat, rows, cols)
    ensures |m| == rows && forall i :: 0 <= i < rows ==> |m[i]| == cols
    ensures forall i, j :: 0 <= i < rows && 0 <= j < cols ==>
      Offset(i, j, cols) < |flat| && m[i][j] == flat[Offset(i, j, cols)]
  {
    RowStartIsProduct(rows, cols);
    UnflattenedAt(flat, rows, cols);
    ghost var u := Unflattened(flat, rows, cols);
    m := seq(rows, _ => seq(cols, _ => 0.0));
    var i := 0;
    while i < rows
      invariant 0 <= i <= rows
      invariant |m| == rows && forall a :: 0 <= a < rows ==> |m[a]| == cols
      invariant forall a, b :: 0 <= a < i && 0 <= b < cols ==> m[a][b] == u[a][b]
    {
      RowFits(i, rows, cols);
      RowStartIsProduct(i, cols);
      var j := 0;
      while j < cols
        invariant 0 <= j <= cols
        invariant |m| == rows && forall a :: 0 <= a < rows ==> |m[a]| == cols
        invariant forall a, b :: 0 <= a < i && 0 <= b < cols ==> m[a][b] == u[a][b]
        invariant forall b :: 0 <= b < j ==> m[i][b] == u[i][b]
      {
        m := m[i := m[i][j := flat[i * cols + j]]];
        j := j + 1;
      }
      i := i + 1;
    }
    forall a | 0 <= a < rows
      ensures m[a] == u[a]
    {
    }
  }

  /**
   * The flattening loop of the feature extractor's entry point: the rows are
   * written one after the other, so a matrix of width `cols` occupies
   * |rows| * cols cells.
   */
  method Flatten(rows: seq<seq<real>>, ghost cols: nat) returns (out: seq<real>)
    ensures out == Flat(rows)
    ensures Rectangular(rows, cols) ==> |out| == |rows| * cols
    ensures Rectangular(rows, cols) ==>
      forall i, j :: 0 <= i < |rows| && 0 <= j < cols ==>
        Offset(i, j, cols) < |out| && out[Offset(i, j, cols)] == rows[i][j]
  {
    out := [];
    var k := 0;
    while k < |rows|
      invariant 0 <= k <= |rows|
      invariant out == Flat(rows[..k])
    {
      var j := 0;
      while j < |rows[k]|
        invariant 0 <= j <= |rows[k]|
        invariant out == Flat(rows[..k]) + rows[k][..j]
      {
        out := out + [rows[k][j]];
        j := j + 1;
      }
      assert rows[..k + 1][..k] == rows[..k];
      k := k + 1;
    }
    assert rows[..|rows|] == rows;
    if Rectangular(rows, cols) {
      FlatLayout(rows, cols);
      RowStartIsProduct(|rows|, cols);
    }
  }
}
