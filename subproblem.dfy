/** `MPC.solve_lqr_subproblem` (mpc/mpc.py): one call of the LQR step, either on the problem
    as given or, with a slew-rate penalty and a quadratic cost, on the problem whose state is
    augmented with the previous control. The LQR step itself (the Riccati recursion, the
    box-constrained QP and the line search) is an oracle. */
module Subproblem {
  import opened Failures
  import opened Batched
  import opened Rollout
  import opened Costs
  import opened Slew

  /** The arguments of one LQR step: the state dimension, the initial state, the quadratic
      cost (C, c), the linear dynamics (F, f) and the current nominal trajectory. */
  datatype LqrCall = LqrCall(nState: nat, xInit: Batch, C: seq<seq<Mat>>, c: Series,
                             F: seq<seq<Mat>>, f: Option<Series>, curX: Series, curU: Series)

  /** What the LQR step returns: the new trajectory, and per batch element the cost of the
      new trajectory and the norm of the full (un-line-searched) control step. */
  datatype LqrOut = LqrOut(x: Series, u: Series, costs: seq<real>, fullDuNorm: seq<real>)

  /** `prev_ctrl`: absent, or given as [n_ctrl], [n_batch, n_ctrl] or [k, n_batch, n_ctrl]. */
  datatype PrevCtrl = NoPrev | Prev1(v: Vec) | Prev2(rows: Batch) | Prev3(steps: Series)

  /** The previous control as a [k, n_batch, n_ctrl] array: unsqueezed to rank 3, or zeros of
      shape [1, n_batch, n_ctrl] when absent. */
  function PrevU(prev: PrevCtrl, nb: nat, nc: nat): (p: Series)
    ensures prev.NoPrev? ==> p == [seq(nb, b => Zeros(nc))]
  {
    match prev
    case NoPrev => [seq(nb, b => Zeros(nc))]
    case Prev1(v) => [[v]]
    case Prev2(rows) => [rows]
    case Prev3(steps) => steps
  }

  /** Concatenation along the last axis of two series of the same time and batch sizes. */
  function CatLast(a: Series, b: Series): (r: Series)
    requires |a| == |b| && forall t :: 0 <= t < |a| ==> |a[t]| == |b[t]|
    ensures |r| == |a| && forall t :: 0 <= t < |a| ==> r[t] == HCat(a[t], b[t])
  {
    seq(|a|, t requires 0 <= t < |a| => HCat(a[t], b[t]))
  }

  /** x[:, :, k:]: the first k entries of every row dropped (all of them if the row is
      shorter). */
  function DropFront(x: Series, k: nat): (r: Series)
    ensures |r| == |x| && forall t :: 0 <= t < |x| ==> |r[t]| == |x[t]|
    ensures forall t, b :: 0 <= t < |x| && 0 <= b < |x[t]| && k <= |x[t][b]| ==> r[t][b] == x[t][b][k..]
  {
    seq(|x|, t requires 0 <= t < |x| =>
      seq(|x[t]|, b requires 0 <= b < |x[t]| => if k <= |x[t][b]| then x[t][b][k..] else []))
  }

  /** Every step has nb matrices of the given shape. */
  predicate MatsShaped(m: seq<seq<Mat>>, steps: nat, nb: nat, rows: nat, cols: nat) {
    |m| == steps && forall t :: 0 <= t < steps ==>
      |m[t]| == nb && forall b :: 0 <= b < nb ==> IsMat(m[t][b], rows, cols)
  }

  /** Every step has nb vectors of length n. */
  predicate VecsShaped(v: Series, steps: nat, nb: nat, n: nat) {
    |v| == steps && forall t :: 0 <= t < steps ==>
      |v[t]| == nb && forall b :: 0 <= b < nb ==> |v[t][b]| == n
  }

  /** The slew-rate problem data: `_C`, `_c`, `_F`, `_f`, the shifted controls `utm1s`
      concatenated with x as `_x`, and `_x_init`. */
  datatype Augmented = Augmented(C: seq<seq<Mat>>, c: Series, F: seq<seq<Mat>>, f: Option<Series>,
                                 x: Series, xInit: Batch)

  /** The shapes the array operations building `_C`, `_c`, `_F` and `_f` need: C is
      [T, nb, nsc, nsc], c is [T, nb, nsc], F is [T−1, nb, n_state, nsc] and f, when given,
      [T−1, nb, n_state]; with n_ctrl = 0 the assignment of the empty γI blocks fails unless
      n_state = 0 too. */
  predicate DataShaped(T: nat, ns: nat, nc: nat, nb: nat, C: seq<seq<Mat>>, c: Series,
                       F: seq<seq<Mat>>, f: Option<Series>) {
    && (nc > 0 || ns == 0) && T >= 1
    && MatsShaped(C, T, nb, ns + nc, ns + nc) && VecsShaped(c, T, nb, ns + nc)
    && MatsShaped(F, T - 1, nb, ns, ns + nc)
    && (f.Some? ==> VecsShaped(f.value, T - 1, nb, ns))
  }

  /** Every row with k zeros in front. */
  function PadRows(k: nat, rows: Batch): (r: Batch)
    ensures |r| == |rows| && forall b :: 0 <= b < |rows| ==> r[b] == Zeros(k) + rows[b] && |r[b]| == k + |rows[b]|
  {
    seq(|rows|, b requires 0 <= b < |rows| => Zeros(k) + rows[b])
  }

  /** `_C` and `_c`. */
  function AugCosts(T: nat, ns: nat, nc: nat, nb: nat, gamma: real, C: seq<seq<Mat>>, c: Series)
    : (r: (seq<seq<Mat>>, Series))
    requires MatsShaped(C, T, nb, ns + nc, ns + nc) && VecsShaped(c, T, nb, ns + nc)
    ensures MatsShaped(r.0, T, nb, ns + 2 * nc, ns + 2 * nc) && VecsShaped(r.1, T, nb, ns + 2 * nc)
    ensures forall t, b :: 0 <= t < T && 0 <= b < nb ==>
      r.0[t][b] == AugCostMatrix(ns, nc, gamma, C[t][b]) && r.1[t][b] == Zeros(nc) + c[t][b]
  {
    var lin := seq(T, t requires 0 <= t < T => PadRows(nc, c[t]));
    (seq(T, t requires 0 <= t < T => seq(nb, b requires 0 <= b < nb => AugCostMatrix(ns, nc, gamma, C[t][b]))), lin)
  }

  /** `_F` and `_f`. */
  function AugDyn(T: nat, ns: nat, nc: nat, nb: nat, F: seq<seq<Mat>>, f: Option<Series>)
    : (r: (seq<seq<Mat>>, Option<Series>))
    requires T >= 1 && MatsShaped(F, T - 1, nb, ns, ns + nc) && (f.Some? ==> VecsShaped(f.value, T - 1, nb, ns))
    ensures MatsShaped(r.0, T - 1, nb, ns + nc, ns + 2 * nc)
    ensures forall t, b :: 0 <= t < T - 1 && 0 <= b < nb ==> r.0[t][b] == AugDynMatrix(ns, nc, F[t][b])
    ensures r.1.Some? <==> f.Some?
    ensures f.Some? ==> VecsShaped(r.1.value, T - 1, nb, ns + nc)
    ensures f.Some? ==> forall t, b :: 0 <= t < T - 1 && 0 <= b < nb ==> r.1.value[t][b] == Zeros(nc) + f.value[t][b]
  {
    var dyn := seq(T - 1, t requires 0 <= t < T - 1 => seq(nb, b requires 0 <= b < nb => AugDynMatrix(ns, nc, F[t][b])));
    if f.None? then (dyn, None)
    else
      var off := seq(T - 1, t requires 0 <= t < T - 1 => PadRows(nc, f.value[t]));
      (dyn, Some(off))
  }

  /** `utm1s = cat(prev_u, u[:-1])`: the control applied before each time step. */
  function Shifted(p: Series, u: Series): (s: Series)
    ensures |s| == |p| + (if |u| == 0 then 0 else |u| - 1)
    ensures forall t :: 0 <= t < |s| ==> s[t] == if t < |p| then p[t] else u[t - |p|]
  {
    p + (if |u| == 0 then [] else u[..|u| - 1])
  }

  /** `cat(prev_u, u[:-1])` along the time axis needs every step of prev_u to have the shape
      of a step of u (u is a regular array, so its first step stands for all of them, also
      when u[:-1] is empty). */
  predicate Stackable(p: Series, u: Series) {
    |u| > 0 ==> forall t :: 0 <= t < |p| ==>
      |p[t]| == |u[0]| && forall b :: 0 <= b < |u[0]| ==> |p[t][b]| == |u[0][b]|
  }

  /** `utm1s = cat(prev_u, u[:-1])`, `_x = cat(utm1s, x, 2)` and
      `_x_init = cat(prev_u[0], x_init, 1)`; the concatenations fail unless the shapes agree. */
  function AugState(p: Series, xInit: Batch, x: Series, u: Series): (r: Result<(Series, Batch)>)
    ensures r.Ok? <==> && Stackable(p, u)
                       && |p| > 0 && |Shifted(p, u)| == |x| && |p[0]| == |xInit|
                       && forall t :: 0 <= t < |x| ==> |Shifted(p, u)[t]| == |x[t]|
    ensures r.Ok? ==> r.value == (CatLast(Shifted(p, u), x), HCat(p[0], xInit))
    ensures r.Fail? ==> r.error == ShapeMismatch
  {
    var s := Shifted(p, u);
    if !Stackable(p, u) then Fail(ShapeMismatch)
    else if |s| != |x| || exists t :: 0 <= t < |x| && |s[t]| != |x[t]| then Fail(ShapeMismatch)
    else if |p| == 0 || |p[0]| != |xInit| then Fail(ShapeMismatch)
    else Ok((CatLast(s, x), HCat(p[0], xInit)))
  }

  /** n_batch, read off C's second axis. */
  function BatchOf(C: seq<seq<Mat>>): nat {
    if |C| == 0 then 0 else |C[0]|
  }

  /** The construction of the augmented problem; every array operation on mismatched shapes
      fails. */
  function Augment(T: nat, ns: nat, nc: nat, gamma: real, prev: PrevCtrl, xInit: Batch,
                   C: seq<seq<Mat>>, c: Series, F: seq<seq<Mat>>, f: Option<Series>,
                   x: Series, u: Series): (r: Result<Augmented>)
    ensures r.Ok? <==> DataShaped(T, ns, nc, BatchOf(C), C, c, F, f) &&
                       AugState(PrevU(prev, BatchOf(C), nc), xInit, x, u).Ok?
    ensures r.Fail? ==> r.error == ShapeMismatch
  {
    var nb := BatchOf(C);
    if !DataShaped(T, ns, nc, nb, C, c, F, f) then Fail(ShapeMismatch)
    else
      var (aC, ac) := AugCosts(T, ns, nc, nb, gamma, C, c);
      var (aF, af) := AugDyn(T, ns, nc, nb, F, f);
      var (ax, axInit) :- AugState(PrevU(prev, nb, nc), xInit, x, u);
      Ok(Augmented(aC, ac, aF, af, ax, axInit))
  }

  /** `solve_lqr_subproblem`: the LQR step on the problem as given when there is no slew-rate
      penalty or the cost is a module; otherwise on the augmented problem, with the previous
      control dropped from the returned states. */
  function Solve(T: nat, ns: nat, nc: nat, slew: Option<real>, prev: PrevCtrl, lqr: LqrCall -> LqrOut,
                 xInit: Batch, C: seq<seq<Mat>>, c: Series, F: seq<seq<Mat>>, f: Option<Series>,
                 cost: Cost, x: Series, u: Series): Result<(Series, Series, LqrOut)>
  {
    if slew.None? || cost.CostModule? then
      var out := lqr(LqrCall(ns, xInit, C, c, F, f, x, u));
      Ok((out.x, out.u, out))
    else
      var a :- Augment(T, ns, nc, slew.value, prev, xInit, C, c, F, f, x, u);
      var out := lqr(LqrCall(ns + nc, a.xInit, a.C, a.c, a.F, a.f, a.x, u));
      Ok((DropFront(out.x, nc), out.u, out))
  }

  /** The augmented nominal states are [u_{t−1}; x_t] (with u_{−1} the previous control) and
      the augmented initial state is [prev_u[0]; x_init]; when the previous control has
      n_batch rows of n_ctrl entries, dropping the first n_ctrl entries of every row gives x
      and x_init back. */
  lemma {:induction false} AugmentedStatesProject(T: nat, ns: nat, nc: nat, gamma: real, prev: PrevCtrl,
                                                  xInit: Batch, C: seq<seq<Mat>>, c: Series,
                                                  F: seq<seq<Mat>>, f: Option<Series>, x: Series, u: Series)
    requires Augment(T, ns, nc, gamma, prev, xInit, C, c, F, f, x, u).Ok?
    requires VecsShaped(PrevU(prev, BatchOf(C), nc), |PrevU(prev, BatchOf(C), nc)|, BatchOf(C), nc)
    requires forall t :: 0 <= t < |u| ==> forall b :: 0 <= b < |u[t]| ==> |u[t][b]| == nc
    ensures var a := Augment(T, ns, nc, gamma, prev, xInit, C, c, F, f, x, u).value;
      && DropFront(a.x, nc) == x && DropFront([a.xInit], nc) == [xInit]
      && (forall t, b :: 0 <= t < |x| && 0 <= b < |x[t]| ==>
            a.x[t][b] == Shifted(PrevU(prev, BatchOf(C), nc), u)[t][b] + x[t][b])
  {
    var a := Augment(T, ns, nc, gamma, prev, xInit, C, c, F, f, x, u).value;
    var p := PrevU(prev, BatchOf(C), nc);
    var sh := Shifted(p, u);
    assert (a.x, a.xInit) == AugState(p, xInit, x, u).value;
    var d := DropFront(a.x, nc);
    forall t | 0 <= t < |x| ensures d[t] == x[t] {
      forall b | 0 <= b < |x[t]| ensures d[t][b] == x[t][b] {
        assert a.x[t][b] == sh[t][b] + x[t][b];
        assert |sh[t][b]| == nc;
      }
    }
    var d0 := DropFront([a.xInit], nc);
    forall b | 0 <= b < |xInit| ensures d0[0][b] == xInit[b] {
      assert a.xInit[b] == p[0][b] + xInit[b];
      assert |p[0][b]| == nc;
    }
    assert d0[0] == xInit;
  }

  /** With the augmented data, the quadratic cost of an augmented point [u_prev; x; u] is the
      original cost of [x; u] plus the slew penalty γ‖u − u_prev‖², and the linear cost
      ignores u_prev. */
  lemma {:induction false} AugmentedCost(T: nat, ns: nat, nc: nat, gamma: real, prev: PrevCtrl,
                                         xInit: Batch, C: seq<seq<Mat>>, c: Series,
                                         F: seq<seq<Mat>>, f: Option<Series>, x: Series, u: Series,
                                         t: nat, b: nat, p: Vec, xt: Vec, ut: Vec)
    requires Augment(T, ns, nc, gamma, prev, xInit, C, c, F, f, x, u).Ok?
    requires t < T && b < BatchOf(C) && |p| == nc && |xt| == ns && |ut| == nc
    ensures var a := Augment(T, ns, nc, gamma, prev, xInit, C, c, F, f, x, u).value;
      && IsMat(a.C[t][b], ns + 2 * nc, ns + 2 * nc) && IsMat(C[t][b], ns + nc, ns + nc)
      && |a.c[t][b]| == ns + 2 * nc && |c[t][b]| == ns + nc
      && Quad(p + xt + ut, a.C[t][b]) == gamma * SqNorm(Sub(ut, p)) + Quad(xt + ut, C[t][b])
      && Dot(a.c[t][b], p + (xt + ut)) == Dot(c[t][b], xt + ut)
  {
    var a := Augment(T, ns, nc, gamma, prev, xInit, C, c, F, f, x, u).value;
    var nb := BatchOf(C);
    assert (a.C, a.c) == AugCosts(T, ns, nc, nb, gamma, C, c);
    AugCostQuad(ns, nc, gamma, C[t][b], p, xt, ut);
    AugLinearCost(nc, c[t][b], p, xt + ut);
  }

  /** Row (t, b) of the augmented dynamics applied to [p; x; u] is u followed by row (t, b)
      of the original dynamics applied to [x; u]. */
  lemma {:induction false} AugmentedRow(T: nat, ns: nat, nc: nat, nb: nat, F: seq<seq<Mat>>, f: Option<Series>,
                                        t: nat, b: nat, p: Vec, x: Vec, u: Vec)
    requires T >= 1 && MatsShaped(F, T - 1, nb, ns, ns + nc) && (f.Some? ==> VecsShaped(f.value, T - 1, nb, ns))
    requires t < T - 1 && b < nb && |p| == nc && |x| == ns && |u| == nc
    ensures var (aF, af) := AugDyn(T, ns, nc, nb, F, f);
      var am := MatVec(aF[t][b], p + x + u);
      var om := MatVec(F[t][b], x + u);
      (if af.Some? then Add(am, af.value[t][b]) else am) == u + (if f.Some? then Add(om, f.value[t][b]) else om)
  {
    var (aF, af) := AugDyn(T, ns, nc, nb, F, f);
    assert aF[t][b] == AugDynMatrix(ns, nc, F[t][b]);
    if f.Some? {
      assert af.value[t][b] == Zeros(nc) + f.value[t][b];
      AugStep(ns, nc, F[t][b], f.value[t][b], p, x, u);
    } else {
      AugDynAction(ns, nc, F[t][b], p, x, u);
    }
  }

  /** The augmented linear dynamics from [p_t; x_t] under u_t step to [u_t; x_{t+1}]. */
  lemma {:induction false} AugDynStep(T: nat, ns: nat, nc: nat, nb: nat, F: seq<seq<Mat>>, f: Option<Series>,
                                      t: nat, pt: Batch, xt: Batch, ut: Batch)
    requires T >= 1 && MatsShaped(F, T - 1, nb, ns, ns + nc) && (f.Some? ==> VecsShaped(f.value, T - 1, nb, ns))
    requires t < T - 1 && |pt| == |xt| == |ut| == nb
    requires forall b :: 0 <= b < nb ==> |pt[b]| == nc && |xt[b]| == ns && |ut[b]| == nc
    ensures var (aF, af) := AugDyn(T, ns, nc, nb, F, f);
      && Checked(LinDx(F, f)) && Checked(LinDx(aF, af))
      && Step(LinDx(F, f), t, xt, ut).Ok?
      && Step(LinDx(aF, af), t, HCat(pt, xt), ut) == Ok(HCat(ut, Step(LinDx(F, f), t, xt, ut).value))
  {
    var (aF, af) := AugDyn(T, ns, nc, nb, F, f);
    var aug, orig := LinDx(aF, af), LinDx(F, f);
    assert LinearStepFits(F, t, xt, ut);
    var next := Step(orig, t, xt, ut).value;
    var axt := HCat(pt, xt);
    forall b | 0 <= b < nb ensures |axt[b]| + |ut[b]| == ns + 2 * nc { }
    assert LinearStepFits(aF, t, axt, ut);
    var anext := Step(aug, t, axt, ut).value;
    var want := HCat(ut, next);
    forall b | 0 <= b < nb ensures anext[b] == want[b] {
      assert axt[b] + ut[b] == pt[b] + xt[b] + ut[b];
      AugmentedRow(T, ns, nc, nb, F, f, t, b, pt[b], xt[b], ut[b]);
    }
    assert anext == want;
  }

  /** A step of the augmented linear dynamics from [u_prev; x_t] under u_t is [u_t; x_{t+1}]
      with x_{t+1} the step of the original dynamics: the augmented rollout carries the last
      control along with the state. */
  lemma {:induction false} AugmentedStep(T: nat, ns: nat, nc: nat, gamma: real, prev: PrevCtrl,
                                         xInit: Batch, C: seq<seq<Mat>>, c: Series,
                                         F: seq<seq<Mat>>, f: Option<Series>, x: Series, u: Series,
                                         t: nat, pt: Batch, xt: Batch, ut: Batch)
    requires Augment(T, ns, nc, gamma, prev, xInit, C, c, F, f, x, u).Ok?
    requires t < T - 1 && |pt| == |xt| == |ut| == BatchOf(C)
    requires forall b :: 0 <= b < |xt| ==> |pt[b]| == nc && |xt[b]| == ns && |ut[b]| == nc
    ensures var a := Augment(T, ns, nc, gamma, prev, xInit, C, c, F, f, x, u).value;
      && Checked(LinDx(F, f)) && Checked(LinDx(a.F, a.f))
      && Step(LinDx(F, f), t, xt, ut).Ok?
      && Step(LinDx(a.F, a.f), t, HCat(pt, xt), ut) == Ok(HCat(ut, Step(LinDx(F, f), t, xt, ut).value))
  {
    var a := Augment(T, ns, nc, gamma, prev, xInit, C, c, F, f, x, u).value;
    assert (a.F, a.f) == AugDyn(T, ns, nc, BatchOf(C), F, f);
    AugDynStep(T, ns, nc, BatchOf(C), F, f, t, pt, xt, ut);
  }
}
