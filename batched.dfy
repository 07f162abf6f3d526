/** Batched linear algebra of mpc/util.py: every operation acts on a batch of vectors or
    matrices, one instance per batch element. Vectors are sequences of reals and a matrix is
    the sequence of its rows. */
module Batched {

  type Vec = seq<real>
  type Mat = seq<Vec>

  /** `m` has `rows` rows of `cols` entries each. */
  predicate IsMat(m: Mat, rows: nat, cols: nat) {
    |m| == rows && forall i :: 0 <= i < |m| ==> |m[i]| == cols
  }

  /** Every vector of the batch has `n` entries (a regular 2-D array). */
  predicate IsBatch(x: seq<Vec>, n: nat) {
    forall b :: 0 <= b < |x| ==> |x[b]| == n
  }

  function Zeros(n: nat): (z: Vec)
    ensures |z| == n && forall i :: 0 <= i < n ==> z[i] == 0.0
  {
    seq(n, _ => 0.0)
  }

  /** The i-th unit vector of length n. */
  function Unit(n: nat, i: nat): (e: Vec)
    ensures |e| == n && forall k :: 0 <= k < n ==> e[k] == if k == i then 1.0 else 0.0
  {
    seq(n, k => if k == i then 1.0 else 0.0)
  }

  function Add(a: Vec, b: Vec): (r: Vec)
    requires |a| == |b|
    ensures |r| == |a| && forall i :: 0 <= i < |a| ==> r[i] == a[i] + b[i]
  {
    seq(|a|, i requires 0 <= i < |a| => a[i] + b[i])
  }

  function Sub(a: Vec, b: Vec): (r: Vec)
    requires |a| == |b|
    ensures |r| == |a| && forall i :: 0 <= i < |a| ==> r[i] == a[i] - b[i]
  {
    seq(|a|, i requires 0 <= i < |a| => a[i] - b[i])
  }

  function Scale(s: real, a: Vec): (r: Vec)
    ensures |r| == |a| && forall i :: 0 <= i < |a| ==> r[i] == s * a[i]
  {
    seq(|a|, i requires 0 <= i < |a| => s * a[i])
  }

  /** Inner product, summed from the front. */
  function Dot(a: Vec, b: Vec): real
    requires |a| == |b|
  {
    if |a| == 0 then 0.0 else a[0] * b[0] + Dot(a[1..], b[1..])
  }

  /** Squared Euclidean norm. */
  function SqNorm(a: Vec): real {
    Dot(a, a)
  }

  /** Column j of a matrix. */
  function Column(m: Mat, j: nat): (col: Vec)
    requires forall i :: 0 <= i < |m| ==> j < |m[i]|
    ensures |col| == |m|
  {
    seq(|m|, i requires 0 <= i < |m| => m[i][j])
  }

  /** Matrix times column vector: entry i is row i dotted with v. */
  function MatVec(m: Mat, v: Vec): (r: Vec)
    requires IsMat(m, |m|, |v|)
    ensures |r| == |m|
  {
    seq(|m|, i requires 0 <= i < |m| => Dot(m[i], v))
  }

  /** Row vector times matrix: entry j is v dotted with column j. */
  function VecMat(v: Vec, m: Mat, cols: nat): (r: Vec)
    requires IsMat(m, |v|, cols)
    ensures |r| == cols
  {
    seq(cols, j requires 0 <= j < cols => Dot(v, Column(m, j)))
  }

  /** The quadratic form x^T Q x, evaluated in the order of `bquad`: (x^T Q) x. */
  function Quad(x: Vec, q: Mat): real
    requires IsMat(q, |x|, |x|)
  {
    Dot(VecMat(x, q, |x|), x)
  }

  /** The outer product x y^T. */
  function Outer(x: Vec, y: Vec): (m: Mat)
    ensures IsMat(m, |x|, |y|)
    ensures forall i, j :: 0 <= i < |x| && 0 <= j < |y| ==> m[i][j] == x[i] * y[j]
  {
    seq(|x|, i requires 0 <= i < |x| => seq(|y|, j requires 0 <= j < |y| => x[i] * y[j]))
  }

  /** The square matrix with d on its diagonal and 0 elsewhere. */
  function Diag(d: Vec): (m: Mat)
    ensures IsMat(m, |d|, |d|)
    ensures forall i, j :: 0 <= i < |d| && 0 <= j < |d| ==> m[i][j] == if i == j then d[i] else 0.0
  {
    seq(|d|, i requires 0 <= i < |d| => seq(|d|, j requires 0 <= j < |d| => if i == j then d[i] else 0.0))
  }

  // ---------------------------------------------------------------------------------------
  // The batched operations of mpc/util.py.

  /** `bmv`: a matrix-vector product per batch element. */
  function Bmv(xs: seq<Mat>, ys: seq<Vec>): (r: seq<Vec>)
    requires |xs| == |ys|
    requires forall b :: 0 <= b < |xs| ==> IsMat(xs[b], |xs[b]|, |ys[b]|)
    ensures |r| == |xs|
  {
    seq(|xs|, b requires 0 <= b < |xs| => MatVec(xs[b], ys[b]))
  }

  /** `bger`: an outer product per batch element. */
  function Bger(xs: seq<Vec>, ys: seq<Vec>): (r: seq<Mat>)
    requires |xs| == |ys|
    ensures |r| == |xs|
  {
    seq(|xs|, b requires 0 <= b < |xs| => Outer(xs[b], ys[b]))
  }

  /** `bquad`: a quadratic form per batch element. */
  function Bquad(xs: seq<Vec>, qs: seq<Mat>): (r: seq<real>)
    requires |xs| == |qs|
    requires forall b :: 0 <= b < |xs| ==> IsMat(qs[b], |xs[b]|, |xs[b]|)
    ensures |r| == |xs|
  {
    seq(|xs|, b requires 0 <= b < |xs| => Quad(xs[b], qs[b]))
  }

  /** `bdot`: an inner product per batch element. */
  function Bdot(xs: seq<Vec>, ys: seq<Vec>): (r: seq<real>)
    requires |xs| == |ys|
    requires forall b :: 0 <= b < |xs| ==> |xs[b]| == |ys[b]|
    ensures |r| == |xs|
  {
    seq(|xs|, b requires 0 <= b < |xs| => Dot(xs[b], ys[b]))
  }

  /** `bdiag`: a 2-D batch of diagonals becomes a batch of diagonal matrices. The input is
      2-D by its type; `IsBatch` states that it is a regular array. */
  function Bdiag(ds: seq<Vec>, size: nat): (r: seq<Mat>)
    requires IsBatch(ds, size)
    ensures |r| == |ds|
    ensures forall b :: 0 <= b < |r| ==> IsMat(r[b], size, size)
  {
    seq(|ds|, b requires 0 <= b < |ds| => Diag(ds[b]))
  }

  /** Entrywise sum of two batches of vectors of matching shapes (numpy `+`). */
  function BAdd(xs: seq<Vec>, ys: seq<Vec>): (r: seq<Vec>)
    requires |xs| == |ys|
    requires forall b :: 0 <= b < |xs| ==> |xs[b]| == |ys[b]|
    ensures |r| == |xs|
    ensures forall b :: 0 <= b < |xs| ==> r[b] == Add(xs[b], ys[b])
  {
    seq(|xs|, b requires 0 <= b < |xs| => Add(xs[b], ys[b]))
  }

  // ---------------------------------------------------------------------------------------
  // Algebra of the inner product.

  lemma {:induction false} DotAppend(a1: Vec, a2: Vec, b1: Vec, b2: Vec)
    requires |a1| == |b1| && |a2| == |b2|
    ensures Dot(a1 + a2, b1 + b2) == Dot(a1, b1) + Dot(a2, b2)
  {
    if |a1| > 0 {
      assert (a1 + a2)[1..] == a1[1..] + a2;
      assert (b1 + b2)[1..] == b1[1..] + b2;
      DotAppend(a1[1..], a2, b1[1..], b2);
    } else {
      assert a1 + a2 == a2;
      assert b1 + b2 == b2;
    }
  }

  lemma {:induction false} DotSymmetric(a: Vec, b: Vec)
    requires |a| == |b|
    ensures Dot(a, b) == Dot(b, a)
  {
    if |a| > 0 {
      DotSymmetric(a[1..], b[1..]);
    }
  }

  /** The inner product is linear in its left argument. */
  lemma {:induction false} DotAffineLeft(s: real, a: Vec, c: Vec, b: Vec)
    requires |a| == |b| && |c| == |b|
    ensures Dot(Add(Scale(s, a), c), b) == s * Dot(a, b) + Dot(c, b)
  {
    DotAddLeft(Scale(s, a), c, b);
    DotScaleLeft(s, a, b);
  }

  lemma {:induction false} DotAddLeft(a: Vec, c: Vec, b: Vec)
    requires |a| == |b| && |c| == |b|
    ensures Dot(Add(a, c), b) == Dot(a, b) + Dot(c, b)
  {
    if |a| > 0 {
      forall k | 0 <= k < |a| - 1 ensures Add(a, c)[1..][k] == Add(a[1..], c[1..])[k] {
        assert Add(a, c)[1..][k] == Add(a, c)[k + 1];
      }
      assert Add(a, c)[1..] == Add(a[1..], c[1..]);
      DotAddLeft(a[1..], c[1..], b[1..]);
    }
  }

  lemma {:induction false} DotSubLeft(a: Vec, c: Vec, b: Vec)
    requires |a| == |b| && |c| == |b|
    ensures Dot(Sub(a, c), b) == Dot(a, b) - Dot(c, b)
  {
    if |a| > 0 {
      forall k | 0 <= k < |a| - 1 ensures Sub(a, c)[1..][k] == Sub(a[1..], c[1..])[k] {
        assert Sub(a, c)[1..][k] == Sub(a, c)[k + 1];
      }
      assert Sub(a, c)[1..] == Sub(a[1..], c[1..]);
      DotSubLeft(a[1..], c[1..], b[1..]);
    }
  }

  lemma {:induction false} DotScaleLeft(s: real, a: Vec, b: Vec)
    requires |a| == |b|
    ensures Dot(Scale(s, a), b) == s * Dot(a, b)
  {
    if |a| > 0 {
      forall k | 0 <= k < |a| - 1 ensures Scale(s, a)[1..][k] == Scale(s, a[1..])[k] {
        assert Scale(s, a)[1..][k] == Scale(s, a)[k + 1];
      }
      assert Scale(s, a)[1..] == Scale(s, a[1..]);
      DotScaleLeft(s, a[1..], b[1..]);
      calc {
        Dot(Scale(s, a), b);
        (s * a[0]) * b[0] + Dot(Scale(s, a[1..]), b[1..]);
        (s * a[0]) * b[0] + s * Dot(a[1..], b[1..]);
        s * (a[0] * b[0] + Dot(a[1..], b[1..]));
      }
    }
  }

  lemma {:induction false} DotZerosLeft(n: nat, b: Vec)
    requires |b| == n
    ensures Dot(Zeros(n), b) == 0.0
  {
    if n > 0 {
      assert Zeros(n)[1..] == Zeros(n - 1);
      DotZerosLeft(n - 1, b[1..]);
    }
  }

  /** The unit vector e_i picks entry i. */
  lemma {:induction false} DotUnitLeft(n: nat, i: nat, b: Vec)
    requires |b| == n && i < n
    ensures Dot(Unit(n, i), b) == b[i]
  {
    if i == 0 {
      assert Unit(n, 0)[1..] == Zeros(n - 1);
      DotZerosLeft(n - 1, b[1..]);
    } else {
      assert Unit(n, i)[1..] == Unit(n - 1, i - 1);
      DotUnitLeft(n - 1, i - 1, b[1..]);
    }
  }

  lemma {:induction false} SqNormNonnegative(a: Vec)
    ensures SqNorm(a) >= 0.0
  {
    if |a| > 0 {
      SqNormNonnegative(a[1..]);
    }
  }

  // ---------------------------------------------------------------------------------------
  // Properties of the batched operations.

  /** Peeling the first row off a row-vector-times-matrix product. */
  lemma {:induction false} VecMatFirstRow(a: Vec, q: Mat, n: nat)
    requires |a| > 0 && IsMat(q, |a|, n)
    ensures VecMat(a, q, n) == Add(Scale(a[0], q[0]), VecMat(a[1..], q[1..], n))
  {
    var rest := VecMat(a[1..], q[1..], n);
    forall j | 0 <= j < n
      ensures VecMat(a, q, n)[j] == Add(Scale(a[0], q[0]), rest)[j]
    {
      assert Column(q, j)[1..] == Column(q[1..], j);
      assert Column(q, j)[0] == q[0][j];
    }
  }

  /** Moving the matrix across the inner product: (a^T Q) b == a^T (Q b). */
  lemma {:induction false} VecMatDot(a: Vec, q: Mat, b: Vec)
    requires IsMat(q, |a|, |b|)
    ensures Dot(VecMat(a, q, |b|), b) == Dot(a, MatVec(q, b))
  {
    var n := |b|;
    if |a| == 0 {
      assert VecMat(a, q, n) == Zeros(n);
      DotZerosLeft(n, b);
    } else {
      var rest := VecMat(a[1..], q[1..], n);
      VecMatFirstRow(a, q, n);
      DotAffineLeft(a[0], q[0], rest, b);
      VecMatDot(a[1..], q[1..], b);
      assert MatVec(q, b)[1..] == MatVec(q[1..], b);
      assert MatVec(q, b)[0] == Dot(q[0], b);
    }
  }

  /** `bquad(x, Q) == bdot(x, bmv(Q, x))`. */
  lemma {:induction false} BquadIsBdotBmv(xs: seq<Vec>, qs: seq<Mat>)
    requires |xs| == |qs|
    requires forall b :: 0 <= b < |xs| ==> IsMat(qs[b], |xs[b]|, |xs[b]|)
    ensures Bquad(xs, qs) == Bdot(xs, Bmv(qs, xs))
  {
    forall b | 0 <= b < |xs|
      ensures Bquad(xs, qs)[b] == Bdot(xs, Bmv(qs, xs))[b]
    {
      VecMatDot(xs[b], qs[b], xs[b]);
    }
  }

  lemma {:induction false} OuterRow(x: Vec, y: Vec, i: nat)
    requires i < |x|
    ensures Outer(x, y)[i] == Scale(x[i], y)
  {
  }

  /** An outer product acts as a rank-one map: (x y^T) z == (y . z) x. */
  lemma {:induction false} OuterAction(x: Vec, y: Vec, z: Vec)
    requires |y| == |z|
    ensures MatVec(Outer(x, y), z) == Scale(Dot(y, z), x)
  {
    forall i | 0 <= i < |x|
      ensures MatVec(Outer(x, y), z)[i] == Scale(Dot(y, z), x)[i]
    {
      OuterRow(x, y, i);
      DotScaleLeft(x[i], y, z);
    }
  }

  /** `bger` followed by `bmv` scales each x[b] by y[b] . z[b]. */
  lemma {:induction false} BgerAction(xs: seq<Vec>, ys: seq<Vec>, zs: seq<Vec>)
    requires |xs| == |ys| == |zs|
    requires forall b :: 0 <= b < |ys| ==> |ys[b]| == |zs[b]|
    ensures forall b :: 0 <= b < |xs| ==> IsMat(Bger(xs, ys)[b], |xs[b]|, |zs[b]|)
    ensures Bmv(Bger(xs, ys), zs) == seq(|xs|, b requires 0 <= b < |xs| => Scale(Dot(ys[b], zs[b]), xs[b]))
  {
    forall b | 0 <= b < |xs|
      ensures Bmv(Bger(xs, ys), zs)[b] == Scale(Dot(ys[b], zs[b]), xs[b])
    {
      OuterAction(xs[b], ys[b], zs[b]);
    }
  }

  /** A diagonal matrix scales each entry: (diag(d) y)[i] == d[i] * y[i]. */
  lemma {:induction false} DiagAction(d: Vec, y: Vec)
    requires |d| == |y|
    ensures |MatVec(Diag(d), y)| == |d|
    ensures forall i :: 0 <= i < |d| ==> MatVec(Diag(d), y)[i] == d[i] * y[i]
  {
    forall i | 0 <= i < |d|
      ensures MatVec(Diag(d), y)[i] == d[i] * y[i]
    {
      forall j | 0 <= j < |d| ensures Diag(d)[i][j] == Scale(d[i], Unit(|d|, i))[j] { }
      assert Diag(d)[i] == Scale(d[i], Unit(|d|, i));
      DotScaleLeft(d[i], Unit(|d|, i), y);
      DotUnitLeft(|d|, i, y);
      assert MatVec(Diag(d), y)[i] == Dot(Diag(d)[i], y);
    }
  }

  /** `bdiag` puts d[b] on the diagonal, zero off it, and so acts entrywise. */
  lemma {:induction false} BdiagAction(ds: seq<Vec>, size: nat, ys: seq<Vec>)
    requires IsBatch(ds, size) && IsBatch(ys, size) && |ds| == |ys|
    ensures forall b, i, j :: 0 <= b < |ds| && 0 <= i < size && 0 <= j < size ==>
      Bdiag(ds, size)[b][i][j] == if i == j then ds[b][i] else 0.0
    ensures forall b, i :: 0 <= b < |ds| && 0 <= i < size ==>
      Bmv(Bdiag(ds, size), ys)[b][i] == ds[b][i] * ys[b][i]
  {
    forall b | 0 <= b < |ds|
      ensures forall i :: 0 <= i < size ==> Bmv(Bdiag(ds, size), ys)[b][i] == ds[b][i] * ys[b][i]
    {
      DiagAction(ds[b], ys[b]);
    }
  }

  /** The quadratic form of the zero vector is zero. */
  lemma {:induction false} QuadZero(n: nat, q: Mat)
    requires IsMat(q, n, n)
    ensures Quad(Zeros(n), q) == 0.0
  {
    DotSymmetric(VecMat(Zeros(n), q, n), Zeros(n));
    DotZerosLeft(n, VecMat(Zeros(n), q, n));
  }

  // ---------------------------------------------------------------------------------------
  // Matrices made of blocks.

  /** Place two matrices with the same rows side by side: [A B]. */
  function HCat(a: Mat, b: Mat): (m: Mat)
    requires |a| == |b|
    ensures |m| == |a|
    ensures forall i :: 0 <= i < |m| ==> m[i] == a[i] + b[i]
  {
    seq(|a|, i requires 0 <= i < |a| => a[i] + b[i])
  }

  /** [A B] [x; u] == A x + B u. */
  lemma {:induction false} HCatAction(a: Mat, b: Mat, x: Vec, u: Vec)
    requires IsMat(a, |a|, |x|) && IsMat(b, |a|, |u|)
    ensures IsMat(HCat(a, b), |a|, |x + u|)
    ensures MatVec(HCat(a, b), x + u) == Add(MatVec(a, x), MatVec(b, u))
  {
    forall i | 0 <= i < |a|
      ensures MatVec(HCat(a, b), x + u)[i] == Add(MatVec(a, x), MatVec(b, u))[i]
    {
      DotAppend(a[i], b[i], x, u);
    }
  }
}
