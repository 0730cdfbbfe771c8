/** The in-place operations on dense matrices that the builder applies:
    Eigen's `setIdentity`, `setZero`, corner and block assignment, column
    scaling and row copying, each on an `array2<real>` and each stated as the
    exact new content of the matrix in terms of its old content. */
module DenseMatrix {

  /** Entry (r, c) of an identity matrix of any shape. */
  function Identity(r: int, c: int): real
  {
    if r == c then 1.0 else 0.0
  }

  /** `m.setIdentity()`: ones on the main diagonal, zeros everywhere else
      (also for a matrix that is not square). */
  method SetIdentity(m: array2<real>)
    modifies m
    ensures forall r, c :: 0 <= r < m.Length0 && 0 <= c < m.Length1 ==> m[r, c] == Identity(r, c)
  {
    forall r, c | 0 <= r < m.Length0 && 0 <= c < m.Length1 {
      m[r, c] := Identity(r, c);
    }
  }

  /** `m.setZero()`. */
  method SetZero(m: array2<real>)
    modifies m
    ensures forall r, c :: 0 <= r < m.Length0 && 0 <= c < m.Length1 ==> m[r, c] == 0.0
  {
    forall r, c | 0 <= r < m.Length0 && 0 <= c < m.Length1 {
      m[r, c] := 0.0;
    }
  }

  /** `Identity() * factor` for an n×n matrix: a new matrix. */
  method ScaledIdentity(n: nat, factor: real) returns (m: array2<real>)
    ensures fresh(m) && m.Length0 == n && m.Length1 == n
    ensures forall r, c :: 0 <= r < n && 0 <= c < n ==> m[r, c] == factor * Identity(r, c)
  {
    m := new real[n, n];
    forall r, c | 0 <= r < n && 0 <= c < n {
      m[r, c] := factor * Identity(r, c);
    }
  }

  /** `m.topRightCorner(rows, cols).setIdentity()`: the corner made of the
      first `rows` rows and the last `cols` columns becomes an identity
      block; everything else keeps its value. */
  method SetTopRightCornerIdentity(m: array2<real>, rows: nat, cols: nat)
    requires rows <= m.Length0 && cols <= m.Length1
    modifies m
    ensures forall r, c :: 0 <= r < m.Length0 && 0 <= c < m.Length1 ==>
      m[r, c] == if r < rows && m.Length1 - cols <= c then Identity(r, c - (m.Length1 - cols)) else old(m[r, c])
  {
    var c0 := m.Length1 - cols;
    forall r, c | 0 <= r < rows && c0 <= c < m.Length1 {
      m[r, c] := Identity(r, c - c0);
    }
  }

  /** `m.rightCols(cols) *= factor`: every entry of the last `cols` columns
      is multiplied by `factor`; the other columns keep their values. */
  method ScaleRightCols(m: array2<real>, cols: nat, factor: real)
    requires cols <= m.Length1
    modifies m
    ensures forall r, c :: 0 <= r < m.Length0 && 0 <= c < m.Length1 ==>
      m[r, c] == if m.Length1 - cols <= c then old(m[r, c]) * factor else old(m[r, c])
  {
    var c0 := m.Length1 - cols;
    forall r, c | 0 <= r < m.Length0 && c0 <= c < m.Length1 {
      m[r, c] := m[r, c] * factor;
    }
  }

  /** `m.block(r0, c0, h, w) = src` with `src` of size h×w: the block whose
      top-left corner is (r0, c0) becomes a copy of `src`; everything else
      keeps its value. */
  method SetBlock(m: array2<real>, r0: nat, c0: nat, src: array2<real>)
    requires m != src
    requires r0 + src.Length0 <= m.Length0 && c0 + src.Length1 <= m.Length1
    modifies m
    ensures forall r, c :: 0 <= r < m.Length0 && 0 <= c < m.Length1 ==>
      m[r, c] == if r0 <= r < r0 + src.Length0 && c0 <= c < c0 + src.Length1 then src[r - r0, c - c0] else old(m[r, c])
  {
    forall r, c | r0 <= r < r0 + src.Length0 && c0 <= c < c0 + src.Length1 {
      m[r, c] := src[r - r0, c - c0];
    }
  }

  /** `m.bottomRows(rows) = m.topRows(rows)` for row ranges that do not
      overlap: the last `rows` rows become copies of the first `rows` rows;
      everything else keeps its value. */
  method CopyTopRowsToBottom(m: array2<real>, rows: nat)
    requires rows + rows <= m.Length0
    modifies m
    ensures forall r, c :: 0 <= r < m.Length0 && 0 <= c < m.Length1 ==>
      m[r, c] == if m.Length0 - rows <= r then old(m[r - (m.Length0 - rows), c]) else old(m[r, c])
  {
    var r0 := m.Length0 - rows;
    forall r, c | r0 <= r < m.Length0 && 0 <= c < m.Length1 {
      m[r, c] := m[r - r0, c];
    }
  }
}
