/** The slew-rate reformulation of `MPC.solve_lqr_subproblem` (mpc/mpc.py) and the cost of
    `SlewRateCost`: the previous control is prepended to the state, so that the augmented
    state is τ = [u_prev; x; u] with n_ctrl + n_state + n_ctrl entries, and the penalty
    γ‖u − u_prev‖² becomes a quadratic form in τ. These are the single-matrix building blocks;
    their tiling over time and batch is in module Subproblem. */
module Slew {
  import opened Batched

  /** Entry (i, j) of `slew_C`, an (n_state + 2 n_ctrl)-square matrix holding γI in its two
      diagonal n_ctrl-corner blocks, −γI in the two off-diagonal ones, and 0 elsewhere. */
  function SlewEntry(ns: nat, nc: nat, gamma: real, i: nat, j: nat): real {
    var m := ns + nc;
    if i == j && (i < nc || i >= m) then gamma
    else if i < nc && j == i + m then -gamma
    else if i >= m && i == j + m then -gamma
    else 0.0
  }

  /** `slew_C[t][b]`, the same for every time and batch element. */
  function SlewMatrix(ns: nat, nc: nat, gamma: real): (s: Mat)
    ensures IsMat(s, ns + 2 * nc, ns + 2 * nc)
    ensures forall i, j :: 0 <= i < ns + 2 * nc && 0 <= j < ns + 2 * nc ==>
      s[i][j] == SlewEntry(ns, nc, gamma, i, j)
  {
    var n := ns + 2 * nc;
    seq(n, i requires 0 <= i < n => seq(n, j requires 0 <= j < n => SlewEntry(ns, nc, gamma, i, j)))
  }

  /** γ·I written into the k × k block of m whose top-left corner is (r0, c0); the rest of m
      is unchanged. */
  method AssignBlock(m: array2<real>, r0: nat, c0: nat, k: nat, gamma: real)
    requires r0 + k <= m.Length0 && c0 + k <= m.Length1
    modifies m
    ensures forall i, j :: 0 <= i < m.Length0 && 0 <= j < m.Length1 ==>
      m[i, j] == if r0 <= i < r0 + k && c0 <= j < c0 + k
                 then (if i - r0 == j - c0 then gamma else 0.0)
                 else old(m[i, j])
  {
    for a := 0 to k
      invariant forall i, j :: 0 <= i < m.Length0 && 0 <= j < m.Length1 ==>
        m[i, j] == if r0 <= i < r0 + a && c0 <= j < c0 + k
                   then (if i - r0 == j - c0 then gamma else 0.0)
                   else old(m[i, j])
    {
      for b := 0 to k
        invariant forall i, j :: 0 <= i < m.Length0 && 0 <= j < m.Length1 ==>
          m[i, j] == if (r0 <= i < r0 + a && c0 <= j < c0 + k) || (i == r0 + a && c0 <= j < c0 + b)
                     then (if i - r0 == j - c0 then gamma else 0.0)
                     else old(m[i, j])
      {
        m[r0 + a, c0 + b] := if a == b then gamma else 0.0;
      }
    }
  }

  /** The construction of `slew_C` by four slice assignments into a zero array:
      `[:nc, :nc] = γI`, `[-nc:, :nc] = −γI`, `[:nc, -nc:] = −γI`, `[-nc:, -nc:] = γI`. With
      n_ctrl = 0 the slice `-0:` is the whole axis and the (0 × 0) block cannot be broadcast
      onto it unless n_state = 0 as well; `ok` is false then. */
  method BuildSlewMatrix(ns: nat, nc: nat, gamma: real) returns (ok: bool, m: array2<real>)
    ensures ok == (nc > 0 || ns == 0)
    ensures ok ==> m.Length0 == ns + 2 * nc && m.Length1 == ns + 2 * nc
    ensures ok ==> forall i, j :: 0 <= i < m.Length0 && 0 <= j < m.Length1 ==>
      m[i, j] == SlewMatrix(ns, nc, gamma)[i][j]
  {
    var n := ns + 2 * nc;
    var hi := ns + nc;
    m := new real[n, n]((i, j) => 0.0);
    if nc == 0 && ns > 0 {
      return false, m;
    }
    AssignBlock(m, 0, 0, nc, gamma);
    AssignBlock(m, hi, 0, nc, -gamma);
    AssignBlock(m, 0, hi, nc, -gamma);
    AssignBlock(m, hi, hi, nc, gamma);
    ok := true;
  }

  /** `slew_C` is symmetric. */
  lemma {:induction false} SlewSymmetric(ns: nat, nc: nat, gamma: real, i: nat, j: nat)
    requires i < ns + 2 * nc && j < ns + 2 * nc
    ensures SlewMatrix(ns, nc, gamma)[i][j] == SlewMatrix(ns, nc, gamma)[j][i]
  {
  }

  /** Entrywise matrix sum. */
  function MatAdd(a: Mat, b: Mat): (r: Mat)
    requires |a| == |b| && forall i :: 0 <= i < |a| ==> |a[i]| == |b[i]|
    ensures |r| == |a| && forall i :: 0 <= i < |a| ==> r[i] == Add(a[i], b[i])
  {
    seq(|a|, i requires 0 <= i < |a| => Add(a[i], b[i]))
  }

  /** `ZeroPad2d((k, 0, k, 0))` of a matrix with n columns: k zero rows on top and k zero
      columns on the left. */
  function Pad(c: Mat, k: nat, n: nat): (r: Mat)
    requires IsMat(c, |c|, n)
    ensures IsMat(r, k + |c|, k + n)
    ensures forall i :: 0 <= i < k ==> r[i] == Zeros(k + n)
    ensures forall i :: 0 <= i < |c| ==> r[k + i] == Zeros(k) + c[i]
  {
    var top := seq(k, i requires 0 <= i < k => Zeros(k + n));
    var bottom := seq(|c|, i requires 0 <= i < |c| => Zeros(k) + c[i]);
    assert forall i :: 0 <= i < k ==> top[i] == Zeros(k + n) && |top[i]| == k + n;
    assert forall i :: 0 <= i < |c| ==> bottom[i] == Zeros(k) + c[i] && |bottom[i]| == k + n;
    assert forall i :: 0 <= i < k + |c| ==> |(top + bottom)[i]| == k + n;
    top + bottom
  }

  /** The quadratic form as an inner product with the image: x^T Q x = x · (Q x). */
  lemma {:induction false} QuadAsDot(x: Vec, q: Mat)
    requires IsMat(q, |x|, |x|)
    ensures Quad(x, q) == Dot(x, MatVec(q, x))
  {
    VecMatDot(x, q, x);
  }

  lemma {:induction false} DotAddRight(a: Vec, b: Vec, c: Vec)
    requires |a| == |b| == |c|
    ensures Dot(a, Add(b, c)) == Dot(a, b) + Dot(a, c)
  {
    DotSymmetric(a, Add(b, c));
    DotAddLeft(b, c, a);
    DotSymmetric(a, b);
    DotSymmetric(a, c);
  }

  lemma {:induction false} MatVecAdd(a: Mat, b: Mat, v: Vec)
    requires IsMat(a, |a|, |v|) && IsMat(b, |a|, |v|)
    ensures IsMat(MatAdd(a, b), |a|, |v|)
    ensures MatVec(MatAdd(a, b), v) == Add(MatVec(a, v), MatVec(b, v))
  {
    forall i | 0 <= i < |a|
      ensures MatVec(MatAdd(a, b), v)[i] == Add(MatVec(a, v), MatVec(b, v))[i]
    {
      DotAddLeft(a[i], b[i], v);
    }
  }

  /** The quadratic form is additive in the matrix. */
  lemma {:induction false} QuadAdd(v: Vec, a: Mat, b: Mat)
    requires IsMat(a, |v|, |v|) && IsMat(b, |v|, |v|)
    ensures IsMat(MatAdd(a, b), |v|, |v|)
    ensures Quad(v, MatAdd(a, b)) == Quad(v, a) + Quad(v, b)
  {
    MatVecAdd(a, b, v);
    QuadAsDot(v, MatAdd(a, b));
    QuadAsDot(v, a);
    QuadAsDot(v, b);
    DotAddRight(v, MatVec(a, v), MatVec(b, v));
  }

  lemma {:induction false} PadAction(c: Mat, k: nat, p: Vec, w: Vec)
    requires |p| == k && IsMat(c, |c|, |w|)
    ensures MatVec(Pad(c, k, |w|), p + w) == Zeros(k) + MatVec(c, w)
  {
    var pc := Pad(c, k, |w|);
    forall i | 0 <= i < k + |c|
      ensures MatVec(pc, p + w)[i] == (Zeros(k) + MatVec(c, w))[i]
    {
      if i < k {
        DotZerosLeft(k + |w|, p + w);
      } else {
        DotAppend(Zeros(k), c[i - k], p, w);
        DotZerosLeft(k, p);
      }
    }
  }

  /** Padding the cost matrix with k leading zero rows and columns makes it ignore the first
      k entries of τ. */
  lemma {:induction false} QuadPad(c: Mat, k: nat, p: Vec, w: Vec)
    requires |p| == k && IsMat(c, |w|, |w|)
    ensures Quad(p + w, Pad(c, k, |w|)) == Quad(w, c)
  {
    PadAction(c, k, p, w);
    QuadAsDot(p + w, Pad(c, k, |w|));
    QuadAsDot(w, c);
    DotAppend(p, w, Zeros(k), MatVec(c, w));
    DotSymmetric(p, Zeros(k));
    DotZerosLeft(k, p);
  }

  /** Row i of slew_C, for i < n_ctrl: γ e_i − γ e_{i+m}; for i ≥ m: γ e_i − γ e_{i−m}; zero in
      between (m = n_state + n_ctrl). */
  lemma {:induction false} SlewRow(ns: nat, nc: nat, gamma: real, i: nat)
    requires i < ns + 2 * nc
    ensures i < nc ==>
      SlewMatrix(ns, nc, gamma)[i] == Sub(Scale(gamma, Unit(ns + 2 * nc, i)), Scale(gamma, Unit(ns + 2 * nc, i + ns + nc)))
    ensures i >= ns + nc ==>
      SlewMatrix(ns, nc, gamma)[i] == Sub(Scale(gamma, Unit(ns + 2 * nc, i)), Scale(gamma, Unit(ns + 2 * nc, i - ns - nc)))
    ensures nc <= i < ns + nc ==> SlewMatrix(ns, nc, gamma)[i] == Zeros(ns + 2 * nc)
  {
    var n, m := ns + 2 * nc, ns + nc;
    var row := SlewMatrix(ns, nc, gamma)[i];
    if i < nc || i >= m {
      var other := if i < nc then i + ns + nc else i - ns - nc;
      var e := Sub(Scale(gamma, Unit(n, i)), Scale(gamma, Unit(n, other)));
      forall j | 0 <= j < n ensures row[j] == e[j] {
        assert row[j] == SlewEntry(ns, nc, gamma, i, j);
      }
    } else {
      forall j | 0 <= j < n ensures row[j] == Zeros(n)[j] {
        assert row[j] == SlewEntry(ns, nc, gamma, i, j);
      }
    }
  }

  /** (γ e_a − γ e_c) · τ = γ (τ_a − τ_c). */
  lemma {:induction false} DotTwoUnits(n: nat, a: nat, c: nat, gamma: real, tau: Vec)
    requires |tau| == n && a < n && c < n
    ensures Dot(Sub(Scale(gamma, Unit(n, a)), Scale(gamma, Unit(n, c))), tau) == gamma * (tau[a] - tau[c])
  {
    DotSubLeft(Scale(gamma, Unit(n, a)), Scale(gamma, Unit(n, c)), tau);
    DotScaleLeft(gamma, Unit(n, a), tau);
    DotScaleLeft(gamma, Unit(n, c), tau);
    DotUnitLeft(n, a, tau);
    DotUnitLeft(n, c, tau);
  }

  /** Row i < n_ctrl of slew_C applied to τ: γ (τ_i − τ_j) with j = i + n_state + n_ctrl. */
  lemma {:induction false} SlewRowActionTop(ns: nat, nc: nat, gamma: real, tau: Vec, i: nat, j: nat)
    requires |tau| == ns + 2 * nc && i < nc && j == i + ns + nc
    ensures Dot(SlewMatrix(ns, nc, gamma)[i], tau) == gamma * (tau[i] - tau[j])
  {
    SlewRow(ns, nc, gamma, i);
    DotTwoUnits(ns + 2 * nc, i, j, gamma, tau);
  }

  /** Row i ≥ n_state + n_ctrl of slew_C applied to τ: γ (τ_i − τ_j) with j = i − n_state − n_ctrl. */
  lemma {:induction false} SlewRowActionBottom(ns: nat, nc: nat, gamma: real, tau: Vec, i: nat, j: nat)
    requires |tau| == ns + 2 * nc && ns + nc <= i < ns + 2 * nc && i == j + ns + nc
    ensures Dot(SlewMatrix(ns, nc, gamma)[i], tau) == gamma * (tau[i] - tau[j])
  {
    SlewRow(ns, nc, gamma, i);
    DotTwoUnits(ns + 2 * nc, i, j, gamma, tau);
  }

  /** The rows of slew_C in between are zero. */
  lemma {:induction false} SlewRowActionMiddle(ns: nat, nc: nat, gamma: real, tau: Vec, i: nat)
    requires |tau| == ns + 2 * nc && nc <= i < ns + nc
    ensures Dot(SlewMatrix(ns, nc, gamma)[i], tau) == 0.0
  {
    var n := ns + 2 * nc;
    SlewRow(ns, nc, gamma, i);
    assert SlewMatrix(ns, nc, gamma)[i] == Zeros(n);
    DotZerosLeft(n, tau);
  }

  /** Entry i < n_ctrl of slew_C [p; x; u] is γ (p_i − u_i). */
  lemma {:induction false} SlewActionTop(ns: nat, nc: nat, gamma: real, p: Vec, x: Vec, u: Vec, i: nat)
    requires |p| == nc && |x| == ns && |u| == nc && i < nc
    ensures Dot(SlewMatrix(ns, nc, gamma)[i], p + x + u) == Scale(gamma, Sub(p, u))[i]
  {
    var tau := p + x + u;
    var j := i + ns + nc;
    SlewRowActionTop(ns, nc, gamma, tau, i, j);
    assert tau[i] == p[i] && tau[j] == u[i];
    assert Sub(p, u)[i] == tau[i] - tau[j];
  }

  /** Entry i = n_state + n_ctrl + k of slew_C [p; x; u] is γ (u_k − p_k). */
  lemma {:induction false} SlewActionBottom(ns: nat, nc: nat, gamma: real, p: Vec, x: Vec, u: Vec, i: nat, k: nat)
    requires |p| == nc && |x| == ns && |u| == nc && k < nc && i == k + ns + nc
    ensures Dot(SlewMatrix(ns, nc, gamma)[i], p + x + u) == Scale(gamma, Sub(u, p))[k]
  {
    var tau := p + x + u;
    SlewRowActionBottom(ns, nc, gamma, tau, i, k);
    assert tau[i] == u[k] && tau[k] == p[k];
    assert Sub(u, p)[k] == tau[i] - tau[k];
  }

  /** Entry i of slew_C [p; x; u]. */
  lemma {:induction false} SlewActionAt(ns: nat, nc: nat, gamma: real, p: Vec, x: Vec, u: Vec, i: nat)
    requires |p| == nc && |x| == ns && |u| == nc && i < ns + 2 * nc
    ensures Dot(SlewMatrix(ns, nc, gamma)[i], p + x + u) ==
      (Scale(gamma, Sub(p, u)) + Zeros(ns) + Scale(gamma, Sub(u, p)))[i]
  {
    var a, b := Scale(gamma, Sub(p, u)), Scale(gamma, Sub(u, p));
    var r := (a + Zeros(ns) + b)[i];
    if i < nc {
      SlewActionTop(ns, nc, gamma, p, x, u, i);
      assert r == a[i];
    } else if i >= ns + nc {
      var k := i - ns - nc;
      SlewActionBottom(ns, nc, gamma, p, x, u, i, k);
      assert r == b[k];
    } else {
      SlewRowActionMiddle(ns, nc, gamma, p + x + u, i);
      assert r == Zeros(ns)[i - nc];
    }
  }

  /** slew_C [p; x; u] = [γ(p − u); 0; γ(u − p)]. */
  lemma {:induction false} SlewAction(ns: nat, nc: nat, gamma: real, p: Vec, x: Vec, u: Vec)
    requires |p| == nc && |x| == ns && |u| == nc
    ensures MatVec(SlewMatrix(ns, nc, gamma), p + x + u) ==
      Scale(gamma, Sub(p, u)) + Zeros(ns) + Scale(gamma, Sub(u, p))
  {
    var lhs := MatVec(SlewMatrix(ns, nc, gamma), p + x + u);
    var rhs := Scale(gamma, Sub(p, u)) + Zeros(ns) + Scale(gamma, Sub(u, p));
    forall i | 0 <= i < ns + 2 * nc ensures lhs[i] == rhs[i] {
      SlewActionAt(ns, nc, gamma, p, x, u, i);
    }
  }

  lemma {:induction false} SqNormOfDifference(u: Vec, p: Vec)
    requires |u| == |p|
    ensures SqNorm(Sub(u, p)) == Dot(Sub(p, u), p) + Dot(Sub(u, p), u)
  {
    var d := Sub(u, p);
    DotSymmetric(d, d);
    DotSubLeft(u, p, d);
    DotSymmetric(u, d);
    DotSymmetric(p, d);
    DotSubLeft(p, u, p);
    DotSubLeft(u, p, u);
    DotSubLeft(u, p, p);
    DotSymmetric(u, p);
  }

  /** For τ = [u_prev; x; u], `bquad(τ, slew_C)` = γ‖u − u_prev‖². */
  lemma {:induction false} SlewQuad(ns: nat, nc: nat, gamma: real, p: Vec, x: Vec, u: Vec)
    requires |p| == nc && |x| == ns && |u| == nc
    ensures Quad(p + x + u, SlewMatrix(ns, nc, gamma)) == gamma * SqNorm(Sub(u, p))
  {
    var a, b := Scale(gamma, Sub(p, u)), Scale(gamma, Sub(u, p));
    calc {
      Quad(p + x + u, SlewMatrix(ns, nc, gamma));
      { QuadAsDot(p + x + u, SlewMatrix(ns, nc, gamma)); }
      Dot(p + x + u, MatVec(SlewMatrix(ns, nc, gamma), p + x + u));
      { SlewAction(ns, nc, gamma, p, x, u); }
      Dot(p + x + u, a + Zeros(ns) + b);
      { DotAppend(p + x, u, a + Zeros(ns), b); DotAppend(p, x, a, Zeros(ns)); }
      Dot(p, a) + Dot(x, Zeros(ns)) + Dot(u, b);
      { DotSymmetric(x, Zeros(ns)); DotZerosLeft(ns, x); }
      Dot(p, a) + Dot(u, b);
      { DotSymmetric(p, a); DotSymmetric(u, b); }
      Dot(a, p) + Dot(b, u);
      { DotScaleLeft(gamma, Sub(p, u), p); DotScaleLeft(gamma, Sub(u, p), u); }
      gamma * Dot(Sub(p, u), p) + gamma * Dot(Sub(u, p), u);
      gamma * (Dot(Sub(p, u), p) + Dot(Sub(u, p), u));
      { SqNormOfDifference(u, p); }
      gamma * SqNorm(Sub(u, p));
    }
  }

  /** The augmented cost matrix `_C[t][b]` = slew_C + C[t][b] padded by n_ctrl. */
  function AugCostMatrix(ns: nat, nc: nat, gamma: real, c: Mat): (r: Mat)
    requires IsMat(c, ns + nc, ns + nc)
    ensures IsMat(r, ns + 2 * nc, ns + 2 * nc)
  {
    MatAdd(SlewMatrix(ns, nc, gamma), Pad(c, nc, ns + nc))
  }

  /** The augmented quadratic cost is the original cost of [x; u] plus the slew penalty:
      τ^T _C τ = γ‖u − u_prev‖² + [x; u]^T C [x; u]. */
  lemma {:induction false} AugCostQuad(ns: nat, nc: nat, gamma: real, c: Mat, p: Vec, x: Vec, u: Vec)
    requires IsMat(c, ns + nc, ns + nc) && |p| == nc && |x| == ns && |u| == nc
    ensures Quad(p + x + u, AugCostMatrix(ns, nc, gamma, c)) ==
      gamma * SqNorm(Sub(u, p)) + Quad(x + u, c)
  {
    var tau := p + x + u;
    assert tau == p + (x + u);
    QuadAdd(tau, SlewMatrix(ns, nc, gamma), Pad(c, nc, ns + nc));
    SlewQuad(ns, nc, gamma, p, x, u);
    QuadPad(c, nc, p, x + u);
  }

  /** The augmented linear cost `_c[t][b]` = [0; c[t][b]] ignores u_prev. */
  lemma {:induction false} AugLinearCost(nc: nat, c: Vec, p: Vec, w: Vec)
    requires |p| == nc && |c| == |w|
    ensures Dot(Zeros(nc) + c, p + w) == Dot(c, w)
  {
    DotAppend(Zeros(nc), c, p, w);
    DotZerosLeft(nc, p);
  }

  /** `_F[t][b]` = [[0 I]; [0 F[t][b]]]: n_ctrl rows that copy u out of τ, then the rows of
      F[t][b] shifted right by n_ctrl. */
  function AugDynMatrix(ns: nat, nc: nat, f: Mat): (r: Mat)
    requires IsMat(f, ns, ns + nc)
    ensures IsMat(r, nc + ns, ns + 2 * nc)
    ensures forall i :: 0 <= i < nc ==> r[i] == Zeros(ns + nc) + Unit(nc, i)
    ensures forall i :: 0 <= i < ns ==> r[nc + i] == Zeros(nc) + f[i]
  {
    var top := seq(nc, i requires 0 <= i < nc => Zeros(ns + nc) + Unit(nc, i));
    var bottom := seq(ns, i requires 0 <= i < ns => Zeros(nc) + f[i]);
    assert forall i :: 0 <= i < nc ==> |top[i]| == ns + 2 * nc;
    assert forall i :: 0 <= i < ns ==> bottom[i] == Zeros(nc) + f[i] && |bottom[i]| == ns + 2 * nc;
    top + bottom
  }

  /** `_F [u_prev; x; u]` = [u; F [x; u]]: the augmented dynamics carry the control into the
      next augmented state. */
  lemma {:induction false} AugDynAction(ns: nat, nc: nat, f: Mat, p: Vec, x: Vec, u: Vec)
    requires IsMat(f, ns, ns + nc) && |p| == nc && |x| == ns && |u| == nc
    ensures MatVec(AugDynMatrix(ns, nc, f), p + x + u) == u + MatVec(f, x + u)
  {
    var tau := p + x + u;
    var a := AugDynMatrix(ns, nc, f);
    var lhs, rhs := MatVec(a, tau), u + MatVec(f, x + u);
    assert tau == p + (x + u);
    forall i | 0 <= i < nc + ns ensures lhs[i] == rhs[i] {
      if i < nc {
        DotAppend(Zeros(ns + nc), Unit(nc, i), p + x, u);
        DotZerosLeft(ns + nc, p + x);
        DotUnitLeft(nc, i, u);
      } else {
        DotAppend(Zeros(nc), f[i - nc], p, x + u);
        DotZerosLeft(nc, p);
      }
    }
  }

  /** With the offset `_f[t][b]` = [0; f[t][b]]: the augmented step is [u; F [x; u] + f]. */
  lemma {:induction false} AugStep(ns: nat, nc: nat, f: Mat, off: Vec, p: Vec, x: Vec, u: Vec)
    requires IsMat(f, ns, ns + nc) && |off| == ns && |p| == nc && |x| == ns && |u| == nc
    ensures Add(MatVec(AugDynMatrix(ns, nc, f), p + x + u), Zeros(nc) + off) ==
      u + Add(MatVec(f, x + u), off)
  {
    AugDynAction(ns, nc, f, p, x, u);
    var lhs := Add(MatVec(AugDynMatrix(ns, nc, f), p + x + u), Zeros(nc) + off);
    var rhs := u + Add(MatVec(f, x + u), off);
    var image := MatVec(AugDynMatrix(ns, nc, f), p + x + u);
    var fxu := MatVec(f, x + u);
    assert image == u + fxu;
    forall i | 0 <= i < nc + ns ensures lhs[i] == rhs[i] {
      if i < nc {
        assert lhs[i] == u[i] + 0.0;
      } else {
        assert lhs[i] == fxu[i - nc] + off[i - nc];
      }
    }
  }

  /** `SlewRateCost.forward` for one row: the cost of τ[n_ctrl:] plus half the slew penalty. */
  function SlewRateCost(cost: Vec -> real, ns: nat, nc: nat, gamma: real, tau: Vec): real
    requires |tau| == ns + 2 * nc
  {
    cost(tau[nc..]) + 0.5 * Quad(tau, SlewMatrix(ns, nc, gamma))
  }

  /** SlewRateCost on [u_prev; x; u] is cost([x; u]) + (γ/2)‖u − u_prev‖². */
  lemma {:induction false} SlewRateCostValue(cost: Vec -> real, ns: nat, nc: nat, gamma: real, p: Vec, x: Vec, u: Vec)
    requires |p| == nc && |x| == ns && |u| == nc
    ensures SlewRateCost(cost, ns, nc, gamma, p + x + u) == cost(x + u) + 0.5 * gamma * SqNorm(Sub(u, p))
  {
    assert (p + x + u)[nc..] == x + u;
    SlewQuad(ns, nc, gamma, p, x, u);
  }
}
