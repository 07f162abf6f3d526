/** `get_cost` of mpc/util.py: the total cost of a trajectory, per batch element, summed over
    the horizon. */
module Costs {
  import opened Failures
  import opened Batched
  import opened Rollout

  /** The cost: a `QuadCost(C, c)` with C of shape [T, n_batch, n_tau, n_tau] and c of shape
      [T, n_batch, n_tau], or a cost module mapping a batch of τ = [x; u] rows to one cost per
      row. `approximate` stands for the quadratic approximation (Hessians and gradients) the
      solver asks of a cost module. */
  datatype Cost =
    | QuadCost(C: seq<seq<Mat>>, c: Series)
    | CostModule(apply: Batch -> seq<real>, approximate: (Series, Series) -> (seq<seq<Mat>>, Series))

  /** Every row of a batch minus the same vector (numpy broadcasting of a 1 × n array). */
  function SubRow(xs: Batch, g: Vec): (r: Batch)
    requires forall b :: 0 <= b < |xs| ==> |xs[b]| == |g|
    ensures |r| == |xs| && forall b :: 0 <= b < |xs| ==> r[b] == Sub(xs[b], g)
  {
    seq(|xs|, b requires 0 <= b < |xs| => Sub(xs[b], g))
  }

  /** The shapes `bquad(xut - goal, C[t])` needs. */
  predicate QuadFits(C: seq<seq<Mat>>, t: nat, xut: Batch, g: Vec) {
    && t < |C|
    && |C[t]| == |xut|
    && forall b :: 0 <= b < |xut| ==> |xut[b]| == |g| && IsMat(C[t][b], |g|, |g|)
  }

  /** The objective at time t: `0.5 * bquad(xut - [goal_state goal_ctrl], C[t])` for a
      QuadCost (its linear term c is not used), `cost(xut)` for a cost module. The goal is an
      attribute of the dynamics module; linear dynamics have none. */
  function Objective(t: nat, x: Series, u: Series, cost: Cost, dyn: Dynamics): (r: Result<seq<real>>)
    ensures r.Ok? ==> t < |x| && t < |u| && |x[t]| == |u[t]|
    ensures r.Ok? && cost.QuadCost? ==>
      dyn.Module? && dyn.goal.Some? && QuadFits(cost.C, t, HCat(x[t], u[t]), dyn.goal.value) &&
      |r.value| == |x[t]| &&
      forall b :: 0 <= b < |x[t]| ==>
        r.value[b] == 0.5 * Quad(Sub(x[t][b] + u[t][b], dyn.goal.value), cost.C[t][b])
  {
    if t >= |x| || t >= |u| || |x[t]| != |u[t]| then Fail(ShapeMismatch)
    else
      var xut := HCat(x[t], u[t]);
      match cost
      case CostModule(apply, _) => Ok(apply(xut))
      case QuadCost(C, _) =>
        if !dyn.Module? || dyn.goal.None? then Fail(MissingGoal)
        else if !QuadFits(C, t, xut, dyn.goal.value) then Fail(ShapeMismatch)
        else Ok(Scale(0.5, Bquad(SubRow(xut, dyn.goal.value), C[t])))
  }

  /** The objectives of times 0 .. k-1, in order; the first failing time decides the error. */
  function Objectives(k: nat, x: Series, u: Series, cost: Cost, dyn: Dynamics): (r: Result<seq<seq<real>>>)
    ensures r.Ok? ==> |r.value| == k
  {
    if k == 0 then Ok([])
    else
      var prev :- Objectives(k - 1, x, u, cost, dyn);
      var obj :- Objective(k - 1, x, u, cost, dyn);
      Ok(prev + [obj])
  }

  /** Entrywise sum of the first k rows, each of length n. */
  function SumRows(rows: seq<seq<real>>, k: nat, n: nat): (r: seq<real>)
    requires k <= |rows|
    requires forall t :: 0 <= t < |rows| ==> |rows[t]| == n
    ensures |r| == n
  {
    if k == 0 then Zeros(n) else Add(SumRows(rows, k - 1, n), rows[k - 1])
  }

  /** The value of `np.sum(objs, axis=0)`: the 0-d scalar 0.0 when there are no objectives
      (`np.sum([], axis=0)`), otherwise one total per batch element. */
  datatype Totals = Scalar(s: real) | PerElement(v: seq<real>)

  /** `np.sum(objs, axis=0)`: the objectives must form a regular array. */
  function Total(objs: seq<seq<real>>): (r: Result<Totals>)
    ensures r.Ok? ==> (r.value.Scalar? <==> |objs| == 0)
    ensures |objs| == 0 ==> r == Ok(Scalar(0.0))
    ensures r.Ok? && |objs| > 0 ==> |r.value.v| == |objs[0]|
  {
    if |objs| == 0 then Ok(Scalar(0.0))
    else if exists t :: 0 <= t < |objs| && |objs[t]| != |objs[0]| then Fail(ShapeMismatch)
    else Ok(PerElement(SumRows(objs, |objs|, |objs[0]|)))
  }

  /** `get_cost(T, u, cost, dynamics, x_init, x)`: the trajectory is x when given, otherwise
      the rollout of the dynamics from x_init. */
  function CostOf(T: nat, u: Series, cost: Cost, dyn: Dynamics, xInit: Option<Batch>, x: Option<Series>): Result<Totals> {
    if xInit.None? && x.None? then Fail(NoTrajectory)
    else
      var xs :- if x.Some? then Ok(x.value) else Traj(T, u, xInit.value, dyn);
      var objs :- Objectives(T, xs, u, cost, dyn);
      Total(objs)
  }

  /** get_cost as the loop that collects one objective per time step, then sums them. */
  method GetCost(T: nat, u: Series, cost: Cost, dyn: Dynamics, xInit: Option<Batch>, x: Option<Series>)
    returns (r: Result<Totals>)
    ensures r == CostOf(T, u, cost, dyn, xInit, x)
  {
    if xInit.None? && x.None? {
      return Fail(NoTrajectory);
    }
    var xs: Series;
    if x.Some? {
      xs := x.value;
    } else {
      var traj := GetTraj(T, u, xInit.value, dyn);
      if traj.Fail? {
        return Fail(traj.error);
      }
      xs := traj.value;
    }
    var objs: seq<seq<real>> := [];
    for t := 0 to T
      invariant Objectives(t, xs, u, cost, dyn) == Ok(objs)
    {
      var obj := Objective(t, xs, u, cost, dyn);
      if obj.Fail? {
        ObjectivesFailure(t + 1, T, xs, u, cost, dyn);
        return Fail(obj.error);
      }
      objs := objs + [obj.value];
    }
    r := Total(objs);
  }

  /** Once a time step fails, so does the whole evaluation, with the same error. */
  lemma {:induction false} ObjectivesFailure(k: nat, T: nat, x: Series, u: Series, cost: Cost, dyn: Dynamics)
    requires k <= T && Objectives(k, x, u, cost, dyn).Fail?
    ensures Objectives(T, x, u, cost, dyn) == Objectives(k, x, u, cost, dyn)
    decreases T - k
  {
    if k < T {
      ObjectivesFailure(k + 1, T, x, u, cost, dyn);
    }
  }

  /** Each objective row of a successful QuadCost evaluation is the half quadratic form of
      τ_t − goal under C[t]. */
  lemma {:induction false} QuadObjectives(k: nat, x: Series, u: Series, C: seq<seq<Mat>>, c: Series, dyn: Dynamics)
    requires Objectives(k, x, u, QuadCost(C, c), dyn).Ok?
    ensures var objs := Objectives(k, x, u, QuadCost(C, c), dyn).value;
      forall t :: 0 <= t < k ==>
        Objective(t, x, u, QuadCost(C, c), dyn).Ok? && objs[t] == Objective(t, x, u, QuadCost(C, c), dyn).value
  {
    if k > 0 {
      QuadObjectives(k - 1, x, u, C, c, dyn);
    }
  }

  /** The linear term c of a QuadCost never enters the total. */
  lemma {:induction false} LinearTermIgnored(T: nat, u: Series, C: seq<seq<Mat>>, c1: Series, c2: Series,
                                             dyn: Dynamics, xInit: Option<Batch>, x: Option<Series>)
    ensures CostOf(T, u, QuadCost(C, c1), dyn, xInit, x) == CostOf(T, u, QuadCost(C, c2), dyn, xInit, x)
  {
    if !(xInit.None? && x.None?) {
      var xs := if x.Some? then Ok(x.value) else Traj(T, u, xInit.value, dyn);
      if xs.Ok? {
        ObjectivesIgnoreC(T, xs.value, u, C, c1, c2, dyn);
      }
    }
  }

  /** The total is the scalar 0.0 exactly when the horizon is empty; otherwise, under a
      quadratic cost, it has one entry per row of the trajectory at time 0 (per batch element). */
  lemma {:induction false} TotalShape(T: nat, u: Series, cost: Cost, dyn: Dynamics, xInit: Option<Batch>, x: Option<Series>)
    requires CostOf(T, u, cost, dyn, xInit, x).Ok?
    ensures var xs := if x.Some? then x.value else Traj(T, u, xInit.value, dyn).value;
      var r := CostOf(T, u, cost, dyn, xInit, x).value;
      && (r.Scalar? <==> T == 0)
      && (T == 0 ==> r == Scalar(0.0))
      && (T > 0 && cost.QuadCost? ==> |xs| > 0 && |r.v| == |xs[0]|)
  {
    var xs := if x.Some? then x.value else Traj(T, u, xInit.value, dyn).value;
    var objs := Objectives(T, xs, u, cost, dyn).value;
    if T > 0 && cost.QuadCost? {
      ObjectiveRows(T, xs, u, cost, dyn);
    }
  }

  /** Under a quadratic cost the first objective has one entry per row of x[0]. */
  lemma {:induction false} ObjectiveRows(k: nat, x: Series, u: Series, cost: Cost, dyn: Dynamics)
    requires k > 0 && cost.QuadCost? && Objectives(k, x, u, cost, dyn).Ok?
    ensures 0 < |x| && |Objectives(k, x, u, cost, dyn).value[0]| == |x[0]|
  {
    if k > 1 {
      ObjectiveRows(k - 1, x, u, cost, dyn);
    }
  }

  lemma {:induction false} ObjectivesIgnoreC(k: nat, x: Series, u: Series, C: seq<seq<Mat>>, c1: Series, c2: Series, dyn: Dynamics)
    ensures Objectives(k, x, u, QuadCost(C, c1), dyn) == Objectives(k, x, u, QuadCost(C, c2), dyn)
  {
    if k > 0 {
      ObjectivesIgnoreC(k - 1, x, u, C, c1, c2, dyn);
      assert Objective(k - 1, x, u, QuadCost(C, c1), dyn) == Objective(k - 1, x, u, QuadCost(C, c2), dyn);
    }
  }

  lemma {:induction false} SumRowsZero(rows: seq<seq<real>>, k: nat, n: nat)
    requires k <= |rows|
    requires forall t :: 0 <= t < |rows| ==> |rows[t]| == n
    requires forall t, b :: 0 <= t < |rows| && 0 <= b < n ==> rows[t][b] == 0.0
    ensures SumRows(rows, k, n) == Zeros(n)
  {
    if k > 0 {
      SumRowsZero(rows, k - 1, n);
    }
  }

  lemma {:induction false} SumRowsNonnegative(rows: seq<seq<real>>, k: nat, n: nat)
    requires k <= |rows|
    requires forall t :: 0 <= t < |rows| ==> |rows[t]| == n
    requires forall t, b :: 0 <= t < |rows| && 0 <= b < n ==> rows[t][b] >= 0.0
    ensures forall b :: 0 <= b < n ==> SumRows(rows, k, n)[b] >= 0.0
  {
    if k > 0 {
      SumRowsNonnegative(rows, k - 1, n);
    }
  }

  /** The objectives of a QuadCost trajectory form a regular array whose entries are the half
      quadratic forms; hence its total is their sum. */
  lemma {:induction false} QuadRows(T: nat, x: Series, u: Series, C: seq<seq<Mat>>, c: Series, dyn: Dynamics)
    requires Objectives(T, x, u, QuadCost(C, c), dyn).Ok?
    ensures var objs := Objectives(T, x, u, QuadCost(C, c), dyn).value;
      && (T > 0 ==> dyn.Module? && dyn.goal.Some?)
      && forall t :: 0 <= t < T ==>
           t < |x| && t < |u| && |x[t]| == |u[t]| && |objs[t]| == |x[t]|
           && QuadFits(C, t, HCat(x[t], u[t]), dyn.goal.value)
           && forall b :: 0 <= b < |x[t]| ==>
                objs[t][b] == 0.5 * Quad(Sub(x[t][b] + u[t][b], dyn.goal.value), C[t][b])
  {
    QuadObjectives(T, x, u, C, c, dyn);
    var objs := Objectives(T, x, u, QuadCost(C, c), dyn).value;
    if T > 0 {
      assert Objective(0, x, u, QuadCost(C, c), dyn).Ok?;
      var g := dyn.goal.value;
      forall t | 0 <= t < T
        ensures t < |x| && t < |u| && |x[t]| == |u[t]| && |objs[t]| == |x[t]|
        ensures QuadFits(C, t, HCat(x[t], u[t]), g)
        ensures forall b :: 0 <= b < |x[t]| ==>
          objs[t][b] == 0.5 * Quad(Sub(x[t][b] + u[t][b], g), C[t][b])
      {
        var o := Objective(t, x, u, QuadCost(C, c), dyn);
        assert o.Ok? && objs[t] == o.value;
      }
    }
  }

  /** When every τ_t = [x_t; u_t] equals the goal, the total cost is zero for every batch
      element. */
  lemma {:induction false} ZeroAtGoal(T: nat, x: Series, u: Series, C: seq<seq<Mat>>, c: Series, dyn: Dynamics)
    requires CostOf(T, u, QuadCost(C, c), dyn, None, Some(x)).Ok?
    requires dyn.Module? && dyn.goal.Some?
    requires forall t, b :: 0 <= t < T && t < |x| && t < |u| && 0 <= b < |x[t]| && b < |u[t]| ==>
      x[t][b] + u[t][b] == dyn.goal.value
    ensures var r := CostOf(T, u, QuadCost(C, c), dyn, None, Some(x)).value;
      && (r.Scalar? ==> r.s == 0.0)
      && (r.PerElement? ==> forall b :: 0 <= b < |r.v| ==> r.v[b] == 0.0)
  {
    var objs := Objectives(T, x, u, QuadCost(C, c), dyn).value;
    QuadRows(T, x, u, C, c, dyn);
    var g := dyn.goal.value;
    if T > 0 {
      var n := |objs[0]|;
      forall t, b | 0 <= t < |objs| && 0 <= b < n
        ensures objs[t][b] == 0.0
      {
        assert Sub(x[t][b] + u[t][b], g) == Zeros(|g|);
        QuadZero(|g|, C[t][b]);
      }
      SumRowsZero(objs, |objs|, n);
    }
  }

  /** A positive semidefinite n × n matrix. */
  ghost predicate Psd(q: Mat, n: nat) {
    IsMat(q, n, n) && forall v: Vec :: |v| == n ==> Quad(v, q) >= 0.0
  }

  /** With positive semidefinite cost matrices every total is nonnegative. */
  lemma {:induction false} NonnegativeTotal(T: nat, x: Series, u: Series, C: seq<seq<Mat>>, c: Series, dyn: Dynamics)
    requires CostOf(T, u, QuadCost(C, c), dyn, None, Some(x)).Ok?
    requires forall t, b :: 0 <= t < |C| && 0 <= b < |C[t]| ==> Psd(C[t][b], |C[t][b]|)
    ensures var r := CostOf(T, u, QuadCost(C, c), dyn, None, Some(x)).value;
      && (r.Scalar? ==> r.s >= 0.0)
      && (r.PerElement? ==> forall b :: 0 <= b < |r.v| ==> r.v[b] >= 0.0)
  {
    var objs := Objectives(T, x, u, QuadCost(C, c), dyn).value;
    QuadRows(T, x, u, C, c, dyn);
    if T > 0 {
      var g := dyn.goal.value;
      var n := |objs[0]|;
      forall t, b | 0 <= t < |objs| && 0 <= b < n
        ensures objs[t][b] >= 0.0
      {
        var v := Sub(x[t][b] + u[t][b], g);
        assert Psd(C[t][b], |g|);
        assert Quad(v, C[t][b]) >= 0.0;
      }
      SumRowsNonnegative(objs, |objs|, n);
    }
  }
}
