/** The ANALYTIC branch of `MPC.linearize_dynamics` (mpc/mpc.py): the dynamics module is
    evaluated once on all time steps but the last, flattened into one batch of rows, together
    with its Jacobians R = ∂x'/∂x and S = ∂x'/∂u; the linearisation is F = [R S] and
    f = x' − R x − S u, regrouped as [T−1, n_batch, …]. */
module Linearize {
  import opened Failures
  import opened Batched
  import opened Rollout

  /** The rows of all time slices, one after the other (`reshape(-1, n)` of a
      [k, n_batch, n] array). */
  function Flatten(s: Series): (r: Batch)
    ensures |s| == 0 ==> r == []
  {
    if |s| == 0 then [] else Flatten(s[..|s| - 1]) + s[|s| - 1]
  }

  /** Every time slice has nb rows of width n. */
  predicate Regular(s: Series, nb: nat, n: nat) {
    forall t :: 0 <= t < |s| ==> |s[t]| == nb && forall b :: 0 <= b < nb ==> |s[t][b]| == n
  }

  /** Row t·nb + b of a flattened regular array is row b of slice t. */
  lemma {:induction false} FlattenIndex(s: Series, nb: nat, n: nat)
    requires Regular(s, nb, n)
    ensures |Flatten(s)| == |s| * nb
    ensures forall t, b :: 0 <= t < |s| && 0 <= b < nb ==> Flatten(s)[t * nb + b] == s[t][b]
  {
    if |s| > 0 {
      var m := |s| - 1;
      var init := s[..m];
      assert Regular(init, nb, n);
      FlattenIndex(init, nb, n);
      var r := Flatten(s);
      assert r == Flatten(init) + s[m];
      MulSucc(m, nb);
      forall t, b | 0 <= t < |s| && 0 <= b < nb
        ensures r[t * nb + b] == s[t][b]
      {
        if t < m {
          RowBefore(t, m, nb, b);
          assert r[t * nb + b] == Flatten(init)[t * nb + b];
          assert init[t] == s[t];
        }
      }
    }
  }

  lemma MulSucc(a: nat, c: nat)
    ensures (a + 1) * c == a * c + c
  {
  }

  lemma MulLe(a: nat, b: nat, c: nat)
    requires a <= b
    ensures a * c <= b * c
  {
  }

  /** A row of an earlier slice comes before the rows of slice m. */
  lemma RowBefore(t: nat, m: nat, nb: nat, b: nat)
    requires t < m && b < nb
    ensures t * nb + b < m * nb
  {
    MulSucc(t, nb);
    MulLe(t + 1, m, nb);
  }

  /** All but the last time slice (`x[:-1]`). */
  function Init(s: Series): Series {
    if |s| == 0 then [] else s[..|s| - 1]
  }

  /** The shapes the Jacobians and the next states must have for the subtraction and the
      reshapes to [T−1, n_batch, …] to succeed. */
  predicate JacobiansFit(xs: Batch, us: Batch, next: Batch, R: seq<Mat>, S: seq<Mat>, ns: nat, nc: nat) {
    && |us| == |xs| && |next| == |xs| && |R| == |xs| && |S| == |xs|
    && forall k :: 0 <= k < |xs| ==>
         |xs[k]| == ns && |us[k]| == nc && |next[k]| == ns && IsMat(R[k], ns, ns) && IsMat(S[k], ns, nc)
  }

  /** The number of time groups `reshape(T-1, n_batch, …)` makes of `rows` rows; for T = 0
      the leading −1 asks numpy to infer it. */
  function Groups(T: nat, nb: nat, rows: nat): Option<nat> {
    if T >= 1 then (if rows == (T - 1) * nb then Some(T - 1) else None)
    else if nb > 0 && rows % nb == 0 then Some(rows / nb)
    else None
  }

  /** F = [R S], regrouped as groups × nb. */
  function GroupedF(R: seq<Mat>, S: seq<Mat>, groups: nat, nb: nat): (F: seq<seq<Mat>>)
    requires |R| == groups * nb && |S| == groups * nb
    requires forall k :: 0 <= k < |R| ==> |R[k]| == |S[k]|
    ensures |F| == groups
    ensures forall g :: 0 <= g < groups ==> |F[g]| == nb
    ensures forall g, b :: 0 <= g < groups && 0 <= b < nb ==>
      F[g][b] == HCat(R[Index(g, b, nb, groups)], S[Index(g, b, nb, groups)])
  {
    seq(groups, g requires 0 <= g < groups =>
      seq(nb, b requires 0 <= b < nb => HCat(R[Index(g, b, nb, groups)], S[Index(g, b, nb, groups)])))
  }

  /** f = x' − R x − S u, regrouped as groups × nb. */
  function GroupedOffset(xs: Batch, us: Batch, next: Batch, R: seq<Mat>, S: seq<Mat>, ns: nat, nc: nat,
                         groups: nat, nb: nat): (f: Series)
    requires JacobiansFit(xs, us, next, R, S, ns, nc) && |xs| == groups * nb
    ensures |f| == groups
    ensures forall g :: 0 <= g < groups ==> |f[g]| == nb
    ensures forall g, b :: 0 <= g < groups && 0 <= b < nb ==>
      var k := Index(g, b, nb, groups);
      f[g][b] == Sub(Sub(next[k], MatVec(R[k], xs[k])), MatVec(S[k], us[k]))
  {
    seq(groups, g requires 0 <= g < groups =>
      seq(nb, b requires 0 <= b < nb =>
        var k := Index(g, b, nb, groups);
        Sub(Sub(next[k], MatVec(R[k], xs[k])), MatVec(S[k], us[k]))))
  }

  /** The analytic linearisation of the dynamics module around (x, u). */
  function Linearise(T: nat, ns: nat, nc: nat, x: Series, u: Series,
                     apply: (Batch, Batch) -> Batch, gradInput: (Batch, Batch) -> (seq<Mat>, seq<Mat>))
    : Result<(seq<seq<Mat>>, Series)>
  {
    if |x| == 0 then Fail(ShapeMismatch)
    else
      var nb := |x[0]|;
      var xs, us := Flatten(Init(x)), Flatten(Init(u));
      var next := apply(xs, us);
      var (R, S) := gradInput(xs, us);
      if !JacobiansFit(xs, us, next, R, S, ns, nc) then Fail(ShapeMismatch)
      else match Groups(T, nb, |xs|)
        case None => Fail(ShapeMismatch)
        case Some(groups) =>
          Ok((GroupedF(R, S, groups, nb), GroupedOffset(xs, us, next, R, S, ns, nc, groups, nb)))
  }

  /** Position of row (g, b) in the flattened order. */
  function Index(g: nat, b: nat, nb: nat, groups: nat): (k: nat)
    requires g < groups && b < nb
    ensures k == g * nb + b && k < groups * nb
  {
    MulLe(g + 1, groups, nb);
    g * nb + b
  }

  /** The linearisation is exact at the point it was taken: F [x; u] + f = x' for every row,
      with x' the dynamics module's output. */
  lemma {:induction false} AffineExact(T: nat, ns: nat, nc: nat, x: Series, u: Series,
                                       apply: (Batch, Batch) -> Batch,
                                       gradInput: (Batch, Batch) -> (seq<Mat>, seq<Mat>), g: nat, b: nat)
    requires Linearise(T, ns, nc, x, u, apply, gradInput).Ok?
    requires g < |Linearise(T, ns, nc, x, u, apply, gradInput).value.0| && |x| > 0 && b < |x[0]|
    ensures var (F, f) := Linearise(T, ns, nc, x, u, apply, gradInput).value;
      var xs, us := Flatten(Init(x)), Flatten(Init(u));
      var k := g * |x[0]| + b;
      && k < |xs| && k < |us|
      && IsMat(F[g][b], ns, ns + nc) && |f[g][b]| == ns && |xs[k]| == ns && |us[k]| == nc
      && Add(MatVec(F[g][b], xs[k] + us[k]), f[g][b]) == apply(xs, us)[k]
  {
    var (F, f) := Linearise(T, ns, nc, x, u, apply, gradInput).value;
    var xs, us := Flatten(Init(x)), Flatten(Init(u));
    var (R, S) := gradInput(xs, us);
    var next := apply(xs, us);
    var nb := |x[0]|;
    var groups := Groups(T, nb, |xs|).value;
    assert F == GroupedF(R, S, groups, nb);
    assert f == GroupedOffset(xs, us, next, R, S, ns, nc, groups, nb);
    var k := Index(g, b, nb, groups);
    assert F[g][b] == HCat(R[k], S[k]);
    HCatAction(R[k], S[k], xs[k], us[k]);
    var rx, su := MatVec(R[k], xs[k]), MatVec(S[k], us[k]);
    var lhs := Add(MatVec(F[g][b], xs[k] + us[k]), f[g][b]);
    forall i | 0 <= i < ns ensures lhs[i] == next[k][i] {
      assert lhs[i] == (rx[i] + su[i]) + ((next[k][i] - rx[i]) - su[i]);
    }
  }

  /** On regular x[:-1] and u[:-1] (n_batch rows of n_state and n_ctrl entries per step), the
      linearisation at (t, b) reproduces the dynamics at (x_t, u_t): F[t][b] [x_t; u_t] + f[t][b]
      is row t·n_batch + b of the module's output, and F is [T−1, n_batch, n_state,
      n_state + n_ctrl]. */
  lemma {:induction false} LinearisationAtState(T: nat, ns: nat, nc: nat, x: Series, u: Series,
                                                apply: (Batch, Batch) -> Batch,
                                                gradInput: (Batch, Batch) -> (seq<Mat>, seq<Mat>), t: nat, b: nat)
    requires T >= 1 && |x| == T && |u| == T
    requires |x| > 0 && Regular(Init(x), |x[0]|, ns) && Regular(Init(u), |x[0]|, nc)
    requires Linearise(T, ns, nc, x, u, apply, gradInput).Ok?
    requires t < T - 1 && b < |x[0]|
    ensures var (F, f) := Linearise(T, ns, nc, x, u, apply, gradInput).value;
      && |F| == T - 1 && |F[t]| == |x[0]| && IsMat(F[t][b], ns, ns + nc) && |f[t][b]| == ns
      && |x[t][b]| == ns && |u[t][b]| == nc
      && Add(MatVec(F[t][b], x[t][b] + u[t][b]), f[t][b])
         == apply(Flatten(Init(x)), Flatten(Init(u)))[t * |x[0]| + b]
  {
    var nb := |x[0]|;
    FlattenIndex(Init(x), nb, ns);
    FlattenIndex(Init(u), nb, nc);
    var xs, us := Flatten(Init(x)), Flatten(Init(u));
    var (R, S) := gradInput(xs, us);
    var F := Linearise(T, ns, nc, x, u, apply, gradInput).value.0;
    assert |xs| == (T - 1) * nb;
    assert Groups(T, nb, |xs|) == Some(T - 1);
    assert F == GroupedF(R, S, T - 1, nb);
    AffineExact(T, ns, nc, x, u, apply, gradInput, t, b);
    assert Init(x)[t] == x[t] && Init(u)[t] == u[t];
  }
}
