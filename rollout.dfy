/** `get_traj` of mpc/util.py: the state trajectory obtained by rolling the dynamics forward
    from the initial state under a control sequence. */
module Rollout {
  import opened Failures
  import opened Batched

  /** One row per batch element. */
  type Batch = seq<Vec>
  /** One batch per time step. */
  type Series = seq<Batch>

  /** The dynamics: either the linear dynamics `LinDx(F, f)`, with F of shape
      [T-1, n_batch, n_state, n_state + n_ctrl] and the optional offset f of shape
      [T-1, n_batch, n_state], or a dynamics module. A module maps a batch of states and a
      batch of controls to the batch of next states; `gradInput` gives the Jacobians R and S
      of that map for every row, and `goal` is the concatenated goal state and goal control
      the module may carry. */
  datatype Dynamics =
    | LinDx(F: seq<seq<Mat>>, f: Option<Series>)
    | Module(apply: (Batch, Batch) -> Batch, gradInput: (Batch, Batch) -> (seq<Mat>, seq<Mat>), goal: Option<Vec>)

  /** `f.shape == F.shape[:3]`, for nested sequences. */
  predicate OffsetFits(F: seq<seq<Mat>>, f: Series) {
    && |f| == |F|
    && forall t :: 0 <= t < |F| ==>
         |f[t]| == |F[t]| && forall b :: 0 <= b < |F[t]| ==> |f[t][b]| == |F[t][b]|
  }

  /** The dynamics passed the offset-shape assertion. */
  predicate Checked(dyn: Dynamics) {
    dyn.LinDx? && dyn.f.Some? ==> OffsetFits(dyn.F, dyn.f.value)
  }

  /** The shapes `bmv(F[t], concatenate((xt, ut), 1))` needs. */
  predicate LinearStepFits(F: seq<seq<Mat>>, t: nat, xt: Batch, ut: Batch) {
    && t < |F|
    && |xt| == |ut| == |F[t]|
    && forall b :: 0 <= b < |xt| ==> IsMat(F[t][b], |F[t][b]|, |xt[b]| + |ut[b]|)
  }

  /** One step of the rollout, from time t: `bmv(F[t], [xt ut]) (+ f[t])`, or the module
      applied to the batch. Mismatched shapes make numpy raise. */
  function Step(dyn: Dynamics, t: nat, xt: Batch, ut: Batch): (r: Result<Batch>)
    requires Checked(dyn)
    ensures dyn.Module? ==> r == Ok(dyn.apply(xt, ut))
    ensures dyn.LinDx? ==> (r.Ok? <==> LinearStepFits(dyn.F, t, xt, ut))
    ensures dyn.LinDx? && r.Ok? ==> |r.value| == |xt| && forall b :: 0 <= b < |xt| ==>
      r.value[b] == (var m := MatVec(dyn.F[t][b], xt[b] + ut[b]);
                     if dyn.f.Some? then Add(m, dyn.f.value[t][b]) else m)
    ensures r.Fail? ==> r.error == ShapeMismatch
  {
    match dyn
    case Module(apply, _, _) => Ok(apply(xt, ut))
    case LinDx(F, f) =>
      if !LinearStepFits(F, t, xt, ut) then Fail(ShapeMismatch)
      else
        var next := Bmv(F[t], HCat(xt, ut));
        if f.Some? then Ok(BAdd(next, f.value[t])) else Ok(next)
  }

  /** Number of states the loop has produced when it is about to run iteration t. */
  function Produced(t: nat, T: nat): nat {
    if t < T then t + 1 else if T == 0 then 1 else T
  }

  /** The loop `for t in range(T)` from iteration t on, with the states xs so far: u[t] is
      read on every iteration, and a new state is appended on all but the last. */
  function Run(t: nat, T: nat, u: Series, dyn: Dynamics, xs: Series): Result<Series>
    requires Checked(dyn) && |xs| >= 1
    decreases T - t
  {
    if t >= T then Ok(xs)
    else if t >= |u| then Fail(ShapeMismatch)
    else if t < T - 1 then
      match Step(dyn, t, xs[|xs| - 1], u[t])
      case Fail(e) => Fail(e)
      case Ok(next) => Run(t + 1, T, u, dyn, xs + [next])
    else Run(t + 1, T, u, dyn, xs)
  }

  /** `get_traj(T, u, x_init, dynamics)`. */
  function Traj(T: nat, u: Series, xInit: Batch, dyn: Dynamics): Result<Series> {
    if !Checked(dyn) then Fail(OffsetShape) else Run(0, T, u, dyn, [xInit])
  }

  /** The states of a successful rollout: as many as T (one when T = 0), starting at x_init,
      each the step of the one before under the control of its time. */
  predicate Rollout(T: nat, u: Series, xInit: Batch, dyn: Dynamics, x: Series)
    requires Checked(dyn)
  {
    && T <= |u|
    && |x| == Produced(T, T)
    && x[0] == xInit
    && forall t :: 0 <= t < T - 1 ==> Step(dyn, t, x[t], u[t]) == Ok(x[t + 1])
  }

  /** get_traj as a loop that appends to a list. */
  method GetTraj(T: nat, u: Series, xInit: Batch, dyn: Dynamics) returns (r: Result<Series>)
    ensures r == Traj(T, u, xInit, dyn)
  {
    if dyn.LinDx? && dyn.f.Some? && !OffsetFits(dyn.F, dyn.f.value) {
      return Fail(OffsetShape);
    }
    var x: Series := [xInit];
    for t := 0 to T
      invariant |x| == Produced(t, T)
      invariant Run(t, T, u, dyn, x) == Run(0, T, u, dyn, [xInit])
    {
      if t >= |u| {
        return Fail(ShapeMismatch);
      }
      var xt := x[t];
      var ut := u[t];
      if t < T - 1 {
        var next := Step(dyn, t, xt, ut);
        if next.Fail? {
          return Fail(next.error);
        }
        x := x + [next.value];
      }
    }
    r := Ok(x);
  }

  lemma {:induction false} RunRollout(t: nat, T: nat, u: Series, dyn: Dynamics, xs: Series)
    requires Checked(dyn) && t <= T && |xs| == Produced(t, T)
    requires Run(t, T, u, dyn, xs).Ok?
    ensures var x := Run(t, T, u, dyn, xs).value;
      && (t < T ==> T <= |u|)
      && |x| == Produced(T, T)
      && x[..|xs|] == xs
      && forall k :: t <= k < T - 1 ==> Step(dyn, k, x[k], u[k]) == Ok(x[k + 1])
    decreases T - t
  {
    if t < T {
      var x := Run(t, T, u, dyn, xs).value;
      if t < T - 1 {
        var next := Step(dyn, t, xs[t], u[t]).value;
        RunRollout(t + 1, T, u, dyn, xs + [next]);
        assert x[..|xs| + 1] == xs + [next];
        assert x[..|xs|] == (xs + [next])[..|xs|];
        assert x[t + 1] == next;
      } else {
        assert t < |u|;
        RunRollout(t + 1, T, u, dyn, xs);
      }
    }
  }

  lemma {:induction false} RolloutRun(t: nat, T: nat, u: Series, dyn: Dynamics, xs: Series, x: Series)
    requires Checked(dyn) && t <= T && |xs| == Produced(t, T)
    requires Rollout(T, u, xs[0], dyn, x) && x[..|xs|] == xs
    ensures Run(t, T, u, dyn, xs) == Ok(x)
    decreases T - t
  {
    if t < T {
      if t < T - 1 {
        assert xs[|xs| - 1] == x[t];
        assert x[..|xs| + 1] == xs + [x[t + 1]];
        RolloutRun(t + 1, T, u, dyn, xs + [x[t + 1]], x);
      } else {
        RolloutRun(t + 1, T, u, dyn, xs, x);
      }
    } else {
      assert x == x[..|xs|];
    }
  }

  /** get_traj succeeds with x exactly when the offset has the shape of F and x is the
      rollout of the dynamics from x_init under u. */
  lemma {:induction false} TrajIsRollout(T: nat, u: Series, xInit: Batch, dyn: Dynamics, x: Series)
    ensures Traj(T, u, xInit, dyn) == Ok(x) <==> Checked(dyn) && Rollout(T, u, xInit, dyn, x)
  {
    if Checked(dyn) {
      if Traj(T, u, xInit, dyn) == Ok(x) {
        RunRollout(0, T, u, dyn, [xInit]);
        assert x[..1] == [xInit];
      }
      if Rollout(T, u, xInit, dyn, x) {
        assert x[..1] == [xInit];
        RolloutRun(0, T, u, dyn, [xInit], x);
      }
    }
  }

  /** Under linear dynamics, x[t+1] = F[t]·[x_t; u_t] + f[t] for every batch element. */
  lemma {:induction false} LinearRollout(T: nat, u: Series, xInit: Batch, F: seq<seq<Mat>>, f: Series,
                                         x: Series, t: nat, b: nat)
    requires Traj(T, u, xInit, LinDx(F, Some(f))) == Ok(x)
    requires t + 1 < T && t + 1 < |x| && b < |x[t]|
    ensures t < |u| && OffsetFits(F, f) && LinearStepFits(F, t, x[t], u[t])
    ensures |x[t + 1]| == |x[t]|
    ensures x[t + 1][b] == Add(MatVec(F[t][b], x[t][b] + u[t][b]), f[t][b])
  {
    TrajIsRollout(T, u, xInit, LinDx(F, Some(f)), x);
    assert Step(LinDx(F, Some(f)), t, x[t], u[t]) == Ok(x[t + 1]);
  }

  /** The loop reads u[t] for every t < T, the last one included: a control sequence shorter
      than the horizon fails even though the last control never enters a step. */
  lemma {:induction false} ShortControlsFail(T: nat, u: Series, xInit: Batch, dyn: Dynamics)
    requires |u| < T
    ensures Traj(T, u, xInit, dyn).Fail?
  {
    if Traj(T, u, xInit, dyn).Ok? {
      TrajIsRollout(T, u, xInit, dyn, Traj(T, u, xInit, dyn).value);
    }
  }
}
