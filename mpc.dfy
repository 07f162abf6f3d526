/** `MPC` of mpc/mpc.py: the settings checked at construction and `forward`, the outer iLQR
    loop. Every iteration rolls the current controls out, linearises the dynamics around the
    trajectory, takes the quadratic cost (or its approximation) and solves the LQR
    subproblem; per batch element the best iterate is kept, and the loop stops early once the
    full control step is small or no element has improved for a while. */
module Mpc {
  import opened Failures
  import opened Batched
  import opened Rollout
  import opened Costs
  import opened Linearize
  import opened Subproblem
  import opened BestList
  import Clamp

  /** `u_init`: absent, [T, n_ctrl] (shared by the batch) or [T, n_batch, n_ctrl]. */
  datatype ControlInit = NoInit | SharedInit(rows: Batch) | BatchedInit(steps: Series)

  /** The settings of the controller, named as in the source. The bounds, `linesearch_decay`,
      `max_linesearch_iter` and `back_eps` go to the LQR step, which is a parameter of
      `Forward`; `u_zero_I`, `delta_u`, `grad_method` and `verbose` are not settings here. */
  datatype Config = Config(
    nState: nat, nCtrl: nat, T: nat,
    uLower: Option<Clamp.Bound>, uUpper: Option<Clamp.Bound>,
    uInit: ControlInit,
    lqrIter: int,
    eps: real, backEps: real,
    nBatch: Option<nat>,
    linesearchDecay: real, maxLinesearchIter: int,
    exitUnconverged: bool, detachUnconverged: bool, backprop: bool,
    slew: Option<real>, prev: PrevCtrl,
    notImprovedLim: int, bestCostEps: real)

  /** The construction assertions: both bounds or neither, and a positive number of line
      search steps. */
  function NewMpc(cfg: Config): (r: Result<Config>)
    ensures r.Ok? <==> (cfg.uLower.None? <==> cfg.uUpper.None?) && cfg.maxLinesearchIter > 0
    ensures r.Ok? ==> r.value == cfg
    ensures cfg.uLower.None? != cfg.uUpper.None? ==> r == Fail(BoundsGivenAlone)
    ensures r.Fail? && (cfg.uLower.None? <==> cfg.uUpper.None?) ==> r == Fail(NoLineSearch)
  {
    if cfg.uLower.None? != cfg.uUpper.None? then Fail(BoundsGivenAlone)
    else if cfg.maxLinesearchIter <= 0 then Fail(NoLineSearch)
    else Ok(cfg)
  }

  /** The settings when only the problem size is given. */
  function Defaults(nState: nat, nCtrl: nat, T: nat): (cfg: Config)
    ensures NewMpc(cfg) == Ok(cfg)
    ensures cfg.lqrIter == 10 && cfg.maxLinesearchIter == 10 && cfg.notImprovedLim == 3
    ensures cfg.eps == 0.0000001 && cfg.backEps == 0.0000001 && cfg.bestCostEps == 0.001
    ensures cfg.linesearchDecay == 0.2
    ensures cfg.exitUnconverged && cfg.detachUnconverged && cfg.backprop
    ensures cfg.uLower.None? && cfg.uUpper.None? && cfg.uInit.NoInit? && cfg.nBatch.None?
    ensures cfg.slew.None? && cfg.prev.NoPrev?
  {
    Config(nState, nCtrl, T, None, None, NoInit, 10, 0.0000001, 0.0000001, None, 0.2, 10,
           true, true, true, None, NoPrev, 3, 0.001)
  }

  /** The quadratic cost matrix as passed: [n_tau, n_tau], [T, n_tau, n_tau],
      [T, n_batch, n_tau, n_tau], or of any other rank. */
  datatype CostMatrices = CRank2(m: Mat) | CRank3(ms: seq<Mat>) | CRank4(mss: seq<seq<Mat>>) | COtherRank
  /** The linear cost term as passed: [n_tau], [T, n_tau], [T, n_batch, n_tau], or other. */
  datatype CostVectors = VRank1(v: Vec) | VRank2(vs: Batch) | VRank3(vss: Series) | VOtherRank

  /** The cost argument of `forward`: a `QuadCost(C, c)` or a cost module. */
  datatype CostArg =
    | QuadArg(C: CostMatrices, c: CostVectors)
    | ModuleArg(apply: Batch -> seq<real>, approximate: (Series, Series) -> (seq<seq<Mat>>, Series))

  /** n_batch: the setting when given, else `C.shape[1]` of a 4-D quadratic cost. */
  function InferBatch(cfg: Config, cost: CostArg): (r: Result<nat>)
    ensures cfg.nBatch.Some? ==> r == Ok(cfg.nBatch.value)
    ensures cfg.nBatch.None? ==> (r.Ok? <==> cost.QuadArg? && cost.C.CRank4?)
    ensures cfg.nBatch.None? && r.Ok? ==> r.value == BatchOf(cost.C.mss)
    ensures r.Fail? ==> r.error == BatchSizeUnknown
  {
    if cfg.nBatch.Some? then Ok(cfg.nBatch.value)
    else if cost.QuadArg? && cost.C.CRank4? then Ok(BatchOf(cost.C.mss))
    else Fail(BatchSizeUnknown)
  }

  /** n copies of a value. */
  function Copies<X>(n: nat, v: X): (r: seq<X>)
    ensures |r| == n && forall i :: 0 <= i < n ==> r[i] == v
  {
    seq(n, _ => v)
  }

  /** C brought to rank 4: a matrix is tiled over T steps and n_batch elements, a rank-3 array
      over n_batch elements; any other rank but 4 is left as it is (None). */
  function TiledMatrices(C: CostMatrices, T: nat, nb: nat): (r: Option<seq<seq<Mat>>>)
    ensures r.None? <==> C.COtherRank?
    ensures C.CRank2? ==> |r.value| == T && forall t :: 0 <= t < T ==>
      |r.value[t]| == nb && forall b :: 0 <= b < nb ==> r.value[t][b] == C.m
    ensures C.CRank3? ==> |r.value| == |C.ms| && forall t :: 0 <= t < |C.ms| ==>
      |r.value[t]| == nb && forall b :: 0 <= b < nb ==> r.value[t][b] == C.ms[t]
    ensures C.CRank4? ==> r.value == C.mss
  {
    match C
    case CRank2(m) => Some(Copies(T, Copies(nb, m)))
    case CRank3(ms) => Some(seq(|ms|, t requires 0 <= t < |ms| => Copies(nb, ms[t])))
    case CRank4(mss) => Some(mss)
    case COtherRank => None
  }

  /** c brought to rank 3 the same way. */
  function TiledVectors(c: CostVectors, T: nat, nb: nat): (r: Option<Series>)
    ensures r.None? <==> c.VOtherRank?
    ensures c.VRank1? ==> |r.value| == T && forall t :: 0 <= t < T ==>
      |r.value[t]| == nb && forall b :: 0 <= b < nb ==> r.value[t][b] == c.v
    ensures c.VRank2? ==> |r.value| == |c.vs| && forall t :: 0 <= t < |c.vs| ==>
      |r.value[t]| == nb && forall b :: 0 <= b < nb ==> r.value[t][b] == c.vs[t]
    ensures c.VRank3? ==> r.value == c.vss
  {
    match c
    case VRank1(v) => Some(Copies(T, Copies(nb, v)))
    case VRank2(vs) => Some(seq(|vs|, t requires 0 <= t < |vs| => Copies(nb, vs[t])))
    case VRank3(vss) => Some(vss)
    case VOtherRank => None
  }

  /** The cost after the broadcasting of `forward`: a quadratic cost fails unless both of its
      terms reach ranks 4 and 3. */
  function NormalizeCost(cost: CostArg, T: nat, nb: nat): (r: Result<Cost>)
    ensures cost.ModuleArg? ==> r == Ok(CostModule(cost.apply, cost.approximate))
    ensures cost.QuadArg? ==> (r.Ok? <==> !cost.C.COtherRank? && !cost.c.VOtherRank?)
    ensures cost.QuadArg? && r.Ok? ==>
      r.value == QuadCost(TiledMatrices(cost.C, T, nb).value, TiledVectors(cost.c, T, nb).value)
    ensures r.Fail? ==> r.error == CostShape
  {
    match cost
    case ModuleArg(apply, approximate) => Ok(CostModule(apply, approximate))
    case QuadArg(C, c) =>
      match (TiledMatrices(C, T, nb), TiledVectors(c, T, nb))
      case (Some(C4), Some(c3)) => Ok(QuadCost(C4, c3))
      case _ => Fail(CostShape)
  }

  /** The controls of the first iteration: zeros of shape [T, n_batch, n_ctrl] when none
      are given, a shared [T, n_ctrl] sequence tiled over the batch, or the given array. */
  function InitialControls(init: ControlInit, T: nat, nb: nat, nc: nat): (u: Series)
    ensures init.NoInit? ==> |u| == T && forall t :: 0 <= t < T ==>
      |u[t]| == nb && forall b :: 0 <= b < nb ==> u[t][b] == Zeros(nc)
    ensures init.SharedInit? ==> |u| == |init.rows| && forall t :: 0 <= t < |u| ==>
      |u[t]| == nb && forall b :: 0 <= b < nb ==> u[t][b] == init.rows[t]
    ensures init.BatchedInit? ==> u == init.steps
  {
    match init
    case NoInit => Copies(T, Copies(nb, Zeros(nc)))
    case SharedInit(rows) => seq(|rows|, t requires 0 <= t < |rows| => Copies(nb, rows[t]))
    case BatchedInit(steps) => steps
  }

  /** The largest entry of a non-empty sequence (`max`). */
  function Max(s: seq<real>): (m: real)
    requires |s| > 0
    ensures forall i :: 0 <= i < |s| ==> s[i] <= m
    ensures exists i :: 0 <= i < |s| && s[i] == m
  {
    if |s| == 1 then s[0]
    else
      var rest := Max(s[1..]);
      assert forall i :: 1 <= i < |s| ==> s[i] == s[1..][i - 1];
      if s[0] >= rest then s[0] else rest
  }

  /** F and f around the trajectory: the linear dynamics themselves, or the analytic
      linearisation of the module. */
  function LinearModel(cfg: Config, dx: Dynamics, x: Series, u: Series): Result<(seq<seq<Mat>>, Option<Series>)> {
    match dx
    case LinDx(F, f) => Ok((F, f))
    case Module(apply, gradInput, _) =>
      var (F, f) :- Linearise(cfg.T, cfg.nState, cfg.nCtrl, x, u, apply, gradInput);
      Ok((F, Some(f)))
  }

  /** The quadratic cost around the trajectory: the cost's own C and c, or the module's
      approximation, which exits the process when a slew-rate penalty is set. */
  function QuadraticModel(cost: Cost, slew: Option<real>, x: Series, u: Series): Result<(seq<seq<Mat>>, Series)> {
    if cost.QuadCost? then Ok((cost.C, cost.c))
    else if slew.Some? then Fail(SlewWithCostModule)
    else Ok(cost.approximate(x, u))
  }

  /** One iterate from the nominal controls u: roll out, linearise, solve the subproblem. */
  function Iterate(cfg: Config, lqr: LqrCall -> LqrOut, xInit: Batch, cost: Cost, dx: Dynamics, u: Series)
    : (r: Result<Candidate>)
  {
    var x :- Traj(cfg.T, u, xInit, dx);
    var (F, f) :- LinearModel(cfg, dx, x, u);
    var (C, c) :- QuadraticModel(cost, cfg.slew, x, u);
    var (nx, nu, out) :- Solve(cfg.T, cfg.nState, cfg.nCtrl, cfg.slew, cfg.prev, lqr, xInit, C, c, F, f, cost, x, u);
    Ok(Candidate(nx, nu, out.costs, out.fullDuNorm))
  }

  /** An iterate fails, with that step's error, when the rollout fails, when a module's
      linearisation fails, or when a cost module meets a slew-rate penalty (approximate_cost
      exits). */
  lemma {:induction false} IterateFails(cfg: Config, lqr: LqrCall -> LqrOut, xInit: Batch, cost: Cost, dx: Dynamics, u: Series)
    ensures Traj(cfg.T, u, xInit, dx).Fail? ==>
      Iterate(cfg, lqr, xInit, cost, dx, u) == Fail(Traj(cfg.T, u, xInit, dx).error)
    ensures Traj(cfg.T, u, xInit, dx).Ok? && dx.Module? ==>
      var lin := Linearise(cfg.T, cfg.nState, cfg.nCtrl, Traj(cfg.T, u, xInit, dx).value, u, dx.apply, dx.gradInput);
      lin.Fail? ==> Iterate(cfg, lqr, xInit, cost, dx, u) == Fail(lin.error)
    ensures Traj(cfg.T, u, xInit, dx).Ok? && LinearModel(cfg, dx, Traj(cfg.T, u, xInit, dx).value, u).Ok? &&
            cost.CostModule? && cfg.slew.Some? ==>
      Iterate(cfg, lqr, xInit, cost, dx, u) == Fail(SlewWithCostModule)
  {
    var xs := Traj(cfg.T, u, xInit, dx);
    if xs.Ok? {
      var lin := LinearModel(cfg, dx, xs.value, u);
      if lin.Ok? && cost.CostModule? && cfg.slew.Some? {
        assert QuadraticModel(cost, cfg.slew, xs.value, u) == Fail(SlewWithCostModule);
      }
    }
  }

  /** Without a slew-rate penalty an iterate is what the LQR step returns when given the
      linear model, the quadratic model and the rollout as its nominal states; for linear
      dynamics and a quadratic cost, these are F, f, C and c themselves. */
  lemma {:induction false} IteratePlain(cfg: Config, lqr: LqrCall -> LqrOut, xInit: Batch, cost: Cost, dx: Dynamics, u: Series)
    requires cfg.slew.None?
    ensures Traj(cfg.T, u, xInit, dx).Ok? && LinearModel(cfg, dx, Traj(cfg.T, u, xInit, dx).value, u).Ok? ==>
      var x := Traj(cfg.T, u, xInit, dx).value;
      var (F, f) := LinearModel(cfg, dx, x, u).value;
      var (C, c) := if cost.QuadCost? then (cost.C, cost.c) else cost.approximate(x, u);
      var out := lqr(LqrCall(cfg.nState, xInit, C, c, F, f, x, u));
      Iterate(cfg, lqr, xInit, cost, dx, u) == Ok(Candidate(out.x, out.u, out.costs, out.fullDuNorm))
    ensures Traj(cfg.T, u, xInit, dx).Ok? && dx.LinDx? && cost.QuadCost? ==>
      var out := lqr(LqrCall(cfg.nState, xInit, cost.C, cost.c, dx.F, dx.f, Traj(cfg.T, u, xInit, dx).value, u));
      Iterate(cfg, lqr, xInit, cost, dx, u) == Ok(Candidate(out.x, out.u, out.costs, out.fullDuNorm))
  {
    var xs := Traj(cfg.T, u, xInit, dx);
    if xs.Ok? {
      var x := xs.value;
      var lin := LinearModel(cfg, dx, x, u);
      if lin.Ok? {
        var (F, f) := lin.value;
        var (C, c) := if cost.QuadCost? then (cost.C, cost.c) else cost.approximate(x, u);
        assert QuadraticModel(cost, cfg.slew, x, u) == Ok((C, c));
        var out := lqr(LqrCall(cfg.nState, xInit, C, c, F, f, x, u));
        assert Solve(cfg.T, cfg.nState, cfg.nCtrl, cfg.slew, cfg.prev, lqr, xInit, C, c, F, f, cost, x, u) == Ok((out.x, out.u, out));
      }
    }
  }

  /** With a slew-rate penalty and a quadratic cost an iterate exists exactly when the
      augmented problem can be built; it is then the LQR step's output on the augmented
      problem, with the previous control dropped from its states. */
  lemma {:induction false} IterateSlew(cfg: Config, lqr: LqrCall -> LqrOut, xInit: Batch, cost: Cost, dx: Dynamics, u: Series)
    requires cfg.slew.Some? && cost.QuadCost?
    ensures Traj(cfg.T, u, xInit, dx).Ok? && LinearModel(cfg, dx, Traj(cfg.T, u, xInit, dx).value, u).Ok? ==>
      var x := Traj(cfg.T, u, xInit, dx).value;
      var (F, f) := LinearModel(cfg, dx, x, u).value;
      var a := Augment(cfg.T, cfg.nState, cfg.nCtrl, cfg.slew.value, cfg.prev, xInit, cost.C, cost.c, F, f, x, u);
      && (a.Fail? ==> Iterate(cfg, lqr, xInit, cost, dx, u) == Fail(ShapeMismatch))
      && (a.Ok? ==>
            var out := lqr(LqrCall(cfg.nState + cfg.nCtrl, a.value.xInit, a.value.C, a.value.c, a.value.F, a.value.f, a.value.x, u));
            Iterate(cfg, lqr, xInit, cost, dx, u) == Ok(Candidate(DropFront(out.x, cfg.nCtrl), out.u, out.costs, out.fullDuNorm)))
  {
    var xs := Traj(cfg.T, u, xInit, dx);
    if xs.Ok? {
      var x := xs.value;
      var lin := LinearModel(cfg, dx, x, u);
      if lin.Ok? {
        var (F, f) := lin.value;
        assert QuadraticModel(cost, cfg.slew, x, u) == Ok((cost.C, cost.c));
        var a := Augment(cfg.T, cfg.nState, cfg.nCtrl, cfg.slew.value, cfg.prev, xInit, cost.C, cost.c, F, f, x, u);
        if a.Ok? {
          var out := lqr(LqrCall(cfg.nState + cfg.nCtrl, a.value.xInit, a.value.C, a.value.c, a.value.F, a.value.f, a.value.x, u));
          assert Solve(cfg.T, cfg.nState, cfg.nCtrl, cfg.slew, cfg.prev, lqr, xInit, cost.C, cost.c, F, f, cost, x, u)
            == Ok((DropFront(out.x, cfg.nCtrl), out.u, out));
        }
      }
    }
  }

  /** What the loop carries: the nominal controls, the record (absent before the first
      iteration), the not-improved counter and the iterates produced so far. */
  datatype LoopState = LoopState(u: Series, best: Option<Best>, notImproved: int, seen: seq<Candidate>)

  /** The record, once there is one, has n_batch elements over T steps; every iterate seen
      fits; there is a record exactly when an iterate has been seen. */
  predicate Valid(s: LoopState, nb: nat, T: nat) {
    && (s.best.Some? ==> Shaped(s.best.value, nb, T))
    && AllFit(s.seen, nb, T)
    && (s.best.None? <==> |s.seen| == 0)
  }

  /** Whether an iterate improves some element of the record. */
  predicate AnyImproves(best: Best, c: Candidate, eps: real, nb: nat)
    requires |best.costs| == nb && |c.costs| == nb
  {
    exists j :: 0 <= j < nb && Improves(best, c, eps, j)
  }

  /** The bookkeeping after a new iterate: the counter goes up by one and back to zero when
      some element improves; the record is made from the first iterate and updated from the
      later ones; the new controls become the nominal ones; the loop stops once the largest
      full step norm is below eps or the counter exceeds its limit. `max` of no norms fails. */
  function Advance(cfg: Config, nb: nat, s: LoopState, c: Candidate): (r: Result<(LoopState, bool)>)
    requires Valid(s, nb, cfg.T)
    ensures r.Ok? ==> Valid(r.value.0, nb, cfg.T)
  {
    if !Fits(c, nb, cfg.T) then Fail(ShapeMismatch)
    else
      var (best, count) :=
        if s.best.None? then (First(c, nb, cfg.T), s.notImproved + 1)
        else (Improve(s.best.value, c, cfg.bestCostEps, nb, cfg.T),
              if AnyImproves(s.best.value, c, cfg.bestCostEps, nb) then 0 else s.notImproved + 1);
      if nb == 0 then Fail(EmptyBatch)
      else
        var s' := LoopState(c.u, Some(best), count, s.seen + [c]);
        assert AllFit(s'.seen, nb, cfg.T) by {
          forall i | 0 <= i < |s'.seen| ensures Fits(s'.seen[i], nb, cfg.T) {
            if i < |s.seen| { assert s'.seen[i] == s.seen[i]; }
          }
        }
        Ok((s', Max(c.du) < cfg.eps || count > cfg.notImprovedLim))
  }

  /** The bookkeeping of one iterate: it fails exactly on a misshapen iterate or an empty
      batch; otherwise the nominal controls become the iterate's, the iterate is appended to
      those seen, the record is started from it or improved by it, the counter is reset when
      some element improved and counts up otherwise, and the loop stops when the largest
      full step norm is below eps or the counter exceeds its limit. */
  lemma AdvanceBookkeeping(cfg: Config, nb: nat, s: LoopState, c: Candidate)
    requires Valid(s, nb, cfg.T)
    ensures var r := Advance(cfg, nb, s, c);
      && (r.Ok? <==> Fits(c, nb, cfg.T) && nb > 0)
      && (r.Fail? ==> r.error == (if Fits(c, nb, cfg.T) then EmptyBatch else ShapeMismatch))
      && (r.Ok? ==> var (s', stop) := r.value;
          && s'.u == c.u && s'.seen == s.seen + [c] && s'.best.Some?
          && (s.best.None? ==> s'.best.value == First(c, nb, cfg.T) && s'.notImproved == s.notImproved + 1)
          && (s.best.Some? ==>
                s'.best.value == Improve(s.best.value, c, cfg.bestCostEps, nb, cfg.T) &&
                s'.notImproved == if AnyImproves(s.best.value, c, cfg.bestCostEps, nb) then 0 else s.notImproved + 1)
          && (stop <==> Max(c.du) < cfg.eps || s'.notImproved > cfg.notImprovedLim))
  {
  }

  /** The loop `for i in range(lqr_iter)` with k iterations left. */
  function Loop(k: nat, cfg: Config, it: Series -> Result<Candidate>, nb: nat, s: LoopState): (r: Result<LoopState>)
    requires Valid(s, nb, cfg.T)
    ensures r.Ok? ==> Valid(r.value, nb, cfg.T)
    decreases k
  {
    if k == 0 then Ok(s)
    else
      var (s', stop) :- IterStep(cfg, it, nb, s);
      if stop then Ok(s') else Loop(k - 1, cfg, it, nb, s')
  }

  /** One more iteration of the loop: the body, then either the stop or the rest. */
  lemma {:induction false} LoopUnfold(k: nat, cfg: Config, it: Series -> Result<Candidate>, nb: nat, s: LoopState, s': LoopState, stop: bool)
    requires Valid(s, nb, cfg.T) && k > 0
    requires IterStep(cfg, it, nb, s) == Ok((s', stop))
    ensures Valid(s', nb, cfg.T)
    ensures stop ==> Loop(k, cfg, it, nb, s) == Ok(s')
    ensures !stop ==> Loop(k, cfg, it, nb, s) == Loop(k - 1, cfg, it, nb, s')
  {
  }

  /** A successful pass through the body is the bookkeeping after a successful iterate. */
  lemma {:induction false} IterStepAdvance(cfg: Config, it: Series -> Result<Candidate>, nb: nat, s: LoopState)
    requires Valid(s, nb, cfg.T)
    requires IterStep(cfg, it, nb, s).Ok?
    ensures it(s.u).Ok?
    ensures Advance(cfg, nb, s, it(s.u).value) == IterStep(cfg, it, nb, s)
  {
  }

  /** A failing iteration fails the loop. */
  lemma {:induction false} LoopFails(k: nat, cfg: Config, it: Series -> Result<Candidate>, nb: nat, s: LoopState)
    requires Valid(s, nb, cfg.T) && k > 0
    requires IterStep(cfg, it, nb, s).Fail?
    ensures Loop(k, cfg, it, nb, s) == Fail(IterStep(cfg, it, nb, s).error)
  {
  }

  /** One pass through the loop body. */
  function IterStep(cfg: Config, it: Series -> Result<Candidate>, nb: nat, s: LoopState): (r: Result<(LoopState, bool)>)
    requires Valid(s, nb, cfg.T)
    ensures r.Ok? ==> Valid(r.value.0, nb, cfg.T)
  {
    var c :- it(s.u);
    Advance(cfg, nb, s, c)
  }

  /** After the loop: the pieces of the record concatenated back into [T, n_batch, …]
      arrays, and the failure when unconverged elements are to be detached and
      `exit_unconverged` is set. Without any iteration there is no record. */
  function Finish(cfg: Config, nb: nat, s: LoopState): (r: Result<(Series, Series, seq<real>)>)
    requires Valid(s, nb, cfg.T)
    ensures s.best.None? ==> r == Fail(NoIterations)
    ensures s.best.Some? && nb > 0 ==>
      (r == Fail(Unconverged) <==> cfg.detachUnconverged && cfg.exitUnconverged && Max(s.best.value.du) > cfg.eps)
    ensures s.best.Some? && nb > 0 && r.Ok? ==>
      r.value == (Assemble(s.best.value.x, cfg.T), Assemble(s.best.value.u, cfg.T), s.best.value.costs)
  {
    if s.best.None? then Fail(NoIterations)
    else
      var best := s.best.value;
      if nb == 0 then Fail(EmptyBatch)
      else
        var x, u := Assemble(best.x, cfg.T), Assemble(best.u, cfg.T);
        if cfg.detachUnconverged && Max(best.du) > cfg.eps && cfg.exitUnconverged then Fail(Unconverged)
        else Ok((x, u, best.costs))
  }

  /** The state the loop starts from, after the batch size, the cost and the initial state
      have been checked. */
  function Setup(cfg: Config, xInit: Batch, cost0: CostArg): (r: Result<(nat, Cost, LoopState)>)
    ensures r.Ok? ==> Valid(r.value.2, r.value.0, cfg.T) && |xInit| == r.value.0
    ensures r.Ok? ==> r.value.2 == LoopState(InitialControls(cfg.uInit, cfg.T, r.value.0, cfg.nCtrl), None, 0, [])
  {
    var nb :- InferBatch(cfg, cost0);
    var cost :- NormalizeCost(cost0, cfg.T, nb);
    if |xInit| != nb then Fail(InitialStateShape)
    else Ok((nb, cost, LoopState(InitialControls(cfg.uInit, cfg.T, nb, cfg.nCtrl), None, 0, [])))
  }

  /** The number of iterations `range(lqr_iter)` runs. */
  function Iterations(cfg: Config): nat {
    if cfg.lqrIter > 0 then cfg.lqrIter else 0
  }

  /** The iterate as a map from the nominal controls to the candidate, for fixed data. */
  function IterateWith(cfg: Config, lqr: LqrCall -> LqrOut, xInit: Batch, cost: Cost, dx: Dynamics)
    : Series -> Result<Candidate>
  {
    u => Iterate(cfg, lqr, xInit, cost, dx, u)
  }

  /** The state at the end of the loop. */
  function FinalState(cfg: Config, lqr: LqrCall -> LqrOut, xInit: Batch, cost0: CostArg, dx: Dynamics)
    : (r: Result<(nat, LoopState)>)
    ensures r.Ok? ==> Valid(r.value.1, r.value.0, cfg.T)
  {
    var (nb, cost, s0) :- Setup(cfg, xInit, cost0);
    var s :- Loop(Iterations(cfg), cfg, IterateWith(cfg, lqr, xInit, cost, dx), nb, s0);
    Ok((nb, s))
  }

  /** `forward(x_init, cost, dx)`: the best states, controls and costs per batch element. */
  function ForwardSpec(cfg: Config, lqr: LqrCall -> LqrOut, xInit: Batch, cost0: CostArg, dx: Dynamics)
    : Result<(Series, Series, seq<real>)>
  {
    var (nb, s) :- FinalState(cfg, lqr, xInit, cost0, dx);
    Finish(cfg, nb, s)
  }

  /** What a pass through the loop body returns (the new controls, record and counter, and
      whether to stop) is what the specification of the pass gives, failures included. */
  predicate Agrees(r: Result<(Series, Option<Best>, int, bool)>, spec: Result<(LoopState, bool)>) {
    && (r.Ok? <==> spec.Ok?)
    && (r.Fail? ==> r.error == spec.error)
    && (r.Ok? ==> var (s', stop) := spec.value;
          r.value == (s'.u, s'.best, s'.notImproved, stop))
  }

  /** The iterate of the loop body: the rollout, the linearisation and the subproblem. */
  method Propose(cfg: Config, lqr: LqrCall -> LqrOut, xInit: Batch, cost: Cost, dx: Dynamics, u: Series)
    returns (r: Result<Candidate>)
    ensures r == Iterate(cfg, lqr, xInit, cost, dx, u)
  {
    var x := GetTraj(cfg.T, u, xInit, dx);
    if x.Fail? {
      return Fail(x.error);
    }
    var lin := LinearModel(cfg, dx, x.value, u);
    if lin.Fail? {
      return Fail(lin.error);
    }
    var (F, f) := lin.value;
    var quad := QuadraticModel(cost, cfg.slew, x.value, u);
    if quad.Fail? {
      return Fail(quad.error);
    }
    var (C, c) := quad.value;
    var solved := Solve(cfg.T, cfg.nState, cfg.nCtrl, cfg.slew, cfg.prev, lqr, xInit, C, c, F, f, cost, x.value, u);
    if solved.Fail? {
      return Fail(solved.error);
    }
    var (nx, nu, out) := solved.value;
    r := Ok(Candidate(nx, nu, out.costs, out.fullDuNorm));
  }

  /** The bookkeeping of the loop body: the record updated element by element, the counter
      and the termination test. */
  method Record(cfg: Config, nb: nat, u: Series, best: Option<Best>, notImproved: int,
                ghost seen: seq<Candidate>, cand: Candidate)
    returns (r: Result<(Series, Option<Best>, int, bool)>)
    requires Valid(LoopState(u, best, notImproved, seen), nb, cfg.T)
    ensures Agrees(r, Advance(cfg, nb, LoopState(u, best, notImproved, seen), cand))
  {
    var count := notImproved + 1;
    if !Fits(cand, nb, cfg.T) {
      return Fail(ShapeMismatch);
    }
    var newBest: Best;
    if best.None? {
      newBest := First(cand, nb, cfg.T);
    } else {
      var improved;
      newBest, improved := UpdateBest(best.value, cand, cfg.bestCostEps, nb, cfg.T);
      if improved {
        count := 0;
      }
    }
    if nb == 0 {
      return Fail(EmptyBatch);
    }
    var stop := Max(cand.du) < cfg.eps || count > cfg.notImprovedLim;
    r := Ok((cand.u, Some(newBest), count, stop));
  }

  /** The loop body of `forward`: the iterate, then the bookkeeping. */
  method Once(cfg: Config, lqr: LqrCall -> LqrOut, xInit: Batch, cost: Cost, dx: Dynamics,
              ghost it: Series -> Result<Candidate>, nb: nat,
              u: Series, best: Option<Best>, notImproved: int, ghost seen: seq<Candidate>)
    returns (r: Result<(Series, Option<Best>, int, bool)>)
    requires forall v {:trigger Iterate(cfg, lqr, xInit, cost, dx, v)} :: it(v) == Iterate(cfg, lqr, xInit, cost, dx, v)
    requires Valid(LoopState(u, best, notImproved, seen), nb, cfg.T)
    ensures Agrees(r, IterStep(cfg, it, nb, LoopState(u, best, notImproved, seen)))
  {
    var cand := Propose(cfg, lqr, xInit, cost, dx, u);
    assert it(u) == cand;
    if cand.Fail? {
      return Fail(cand.error);
    }
    r := Record(cfg, nb, u, best, notImproved, seen, cand.value);
  }

  /** After some iterations from s0, with `left` of the k allowed still to run: either the
      loop has stopped at cur, or what remains of it is the loop from cur. */
  predicate OnTrack(k: nat, cfg: Config, it: Series -> Result<Candidate>, nb: nat, s0: LoopState,
                    left: nat, stopped: bool, cur: LoopState)
  {
    && Valid(s0, nb, cfg.T) && Valid(cur, nb, cfg.T)
    && if stopped then Loop(k, cfg, it, nb, s0) == Ok(cur)
       else Loop(k, cfg, it, nb, s0) == Loop(left, cfg, it, nb, cur)
  }

  /** Before the first iteration the loop is on track. */
  lemma OnTrackStart(k: nat, cfg: Config, it: Series -> Result<Candidate>, nb: nat, s0: LoopState)
    requires Valid(s0, nb, cfg.T)
    ensures OnTrack(k, cfg, it, nb, s0, k, false, s0)
  {
  }

  /** A pass through the body that agrees with its specification either fails the loop or
      keeps it on track, with the iterates seen extended by the new one. */
  lemma {:induction false} OnTrackAfter(k: nat, cfg: Config, it: Series -> Result<Candidate>, nb: nat,
                                        s0: LoopState, left: nat, before: LoopState,
                                        step: Result<(Series, Option<Best>, int, bool)>)
    returns (after: LoopState)
    requires left > 0 && OnTrack(k, cfg, it, nb, s0, left, false, before)
    requires Agrees(step, IterStep(cfg, it, nb, before))
    ensures step.Fail? ==> Loop(k, cfg, it, nb, s0) == Fail(step.error)
    ensures step.Ok? ==>
      && after == LoopState(step.value.0, step.value.1, step.value.2, after.seen)
      && OnTrack(k, cfg, it, nb, s0, left - 1, step.value.3, after)
  {
    var spec := IterStep(cfg, it, nb, before);
    if spec.Fail? {
      LoopFails(left, cfg, it, nb, before);
      after := before;
    } else {
      var stop;
      after, stop := spec.value.0, spec.value.1;
      LoopUnfold(left, cfg, it, nb, before, after, stop);
    }
  }

  /** One pass of the loop of `forward`, with the proof that it keeps the loop on track: the
      new state `after` has the controls, record and counter returned, and one iteration fewer
      remains. */
  method Pass(cfg: Config, lqr: LqrCall -> LqrOut, xInit: Batch, cost: Cost, dx: Dynamics,
              ghost it: Series -> Result<Candidate>, nb: nat,
              ghost k: nat, ghost s0: LoopState, ghost left: nat, ghost before: LoopState,
              u: Series, best: Option<Best>, notImproved: int)
    returns (r: Result<(Series, Option<Best>, int, bool)>, ghost after: LoopState)
    requires forall v {:trigger Iterate(cfg, lqr, xInit, cost, dx, v)} :: it(v) == Iterate(cfg, lqr, xInit, cost, dx, v)
    requires before == LoopState(u, best, notImproved, before.seen)
    requires left > 0 && OnTrack(k, cfg, it, nb, s0, left, false, before)
    ensures r.Fail? ==> Loop(k, cfg, it, nb, s0) == Fail(r.error)
    ensures r.Ok? ==>
      && after == LoopState(r.value.0, r.value.1, r.value.2, after.seen)
      && OnTrack(k, cfg, it, nb, s0, left - 1, r.value.3, after)
  {
    r := Once(cfg, lqr, xInit, cost, dx, it, nb, u, best, notImproved, before.seen);
    after := OnTrackAfter(k, cfg, it, nb, s0, left, before, r);
  }

  /** The record at the end of the loop is the one of its specification, failures included. */
  predicate LoopAgrees(r: Result<Option<Best>>, spec: Result<LoopState>) {
    && (r.Ok? <==> spec.Ok?)
    && (r.Fail? ==> r.error == spec.error)
    && (r.Ok? ==> r.value == spec.value.best)
  }

  /** A loop that is on track and has stopped or run out of iterations ends where it is. */
  lemma {:induction false} OnTrackDone(k: nat, cfg: Config, it: Series -> Result<Candidate>, nb: nat,
                                       s0: LoopState, left: nat, stopped: bool, cur: LoopState)
    requires OnTrack(k, cfg, it, nb, s0, left, stopped, cur) && (stopped || left == 0)
    ensures Loop(k, cfg, it, nb, s0) == Ok(cur)
  {
    if !stopped {
      assert Loop(left, cfg, it, nb, cur) == Ok(cur);
    }
  }

  /** The iterations of `forward` from the initial controls u0, at most k of them; the
      record at the end, if any. */
  method RunLoop(cfg: Config, lqr: LqrCall -> LqrOut, xInit: Batch, cost: Cost, dx: Dynamics,
                 ghost it: Series -> Result<Candidate>, nb: nat, k: nat, u0: Series)
    returns (r: Result<Option<Best>>)
    requires forall v {:trigger Iterate(cfg, lqr, xInit, cost, dx, v)} :: it(v) == Iterate(cfg, lqr, xInit, cost, dx, v)
    ensures LoopAgrees(r, Loop(k, cfg, it, nb, LoopState(u0, None, 0, [])))
  {
    ghost var s0 := LoopState(u0, None, 0, []);
    var u := u0;
    var best: Option<Best> := None;
    var notImproved := 0;
    ghost var cur := s0;
    var i := 0;
    var stopped := false;
    ghost var left: nat := k;
    OnTrackStart(k, cfg, it, nb, s0);
    while i < k && !stopped
      invariant 0 <= i <= k && left == k - i
      invariant cur == LoopState(u, best, notImproved, cur.seen)
      invariant OnTrack(k, cfg, it, nb, s0, left, stopped, cur)
      decreases k - i
    {
      var step;
      step, cur := Pass(cfg, lqr, xInit, cost, dx, it, nb, k, s0, left, cur, u, best, notImproved);
      if step.Fail? {
        return Fail(step.error);
      }
      u, best, notImproved, stopped := step.value.0, step.value.1, step.value.2, step.value.3;
      i, left := i + 1, left - 1;
    }
    OnTrackDone(k, cfg, it, nb, s0, left, stopped, cur);
    r := Ok(best);
  }

  /** `forward` as the code of the source: the checks, the loop, the record put back together. */
  method Forward(cfg: Config, lqr: LqrCall -> LqrOut, xInit: Batch, cost0: CostArg, dx: Dynamics)
    returns (r: Result<(Series, Series, seq<real>)>)
    ensures r == ForwardSpec(cfg, lqr, xInit, cost0, dx)
  {
    var setup := Setup(cfg, xInit, cost0);
    if setup.Fail? {
      return Fail(setup.error);
    }
    var (nb, cost, s0) := setup.value;
    var loop := RunLoop(cfg, lqr, xInit, cost, dx, IterateWith(cfg, lqr, xInit, cost, dx), nb, Iterations(cfg), s0.u);
    if loop.Fail? {
      return Fail(loop.error);
    }
    var best := loop.value;
    ghost var final := Loop(Iterations(cfg), cfg, IterateWith(cfg, lqr, xInit, cost, dx), nb, s0).value;
    assert FinalState(cfg, lqr, xInit, cost0, dx) == Ok((nb, final));
    if best.None? {
      return Fail(NoIterations);
    }
    if nb == 0 {
      return Fail(EmptyBatch);
    }
    var x := Assemble(best.value.x, cfg.T);
    var u := Assemble(best.value.u, cfg.T);
    if cfg.detachUnconverged && Max(best.value.du) > cfg.eps && cfg.exitUnconverged {
      return Fail(Unconverged);
    }
    r := Ok((x, u, best.value.costs));
  }

  /** With best_cost_eps ≥ 0, one pass of the bookkeeping keeps the record faithful to the
      iterates seen. */
  lemma {:induction false} AdvanceFaithful(cfg: Config, nb: nat, s: LoopState, c: Candidate)
    requires Valid(s, nb, cfg.T) && cfg.bestCostEps >= 0.0
    requires s.best.Some? ==> Faithful(s.best.value, s.seen, cfg.bestCostEps, nb, cfg.T)
    requires Advance(cfg, nb, s, c).Ok?
    ensures var s' := Advance(cfg, nb, s, c).value.0;
      s'.best.Some? && Faithful(s'.best.value, s'.seen, cfg.bestCostEps, nb, cfg.T)
  {
    AdvanceBookkeeping(cfg, nb, s, c);
    if s.best.None? {
      assert s.seen + [c] == [c];
      FirstFaithful(c, cfg.bestCostEps, nb, cfg.T);
    } else {
      ImproveFaithful(s.best.value, s.seen, c, cfg.bestCostEps, nb, cfg.T);
    }
  }

  /** A loop state whose record, if any, is faithful to the iterates it has seen. */
  predicate FaithfulState(cfg: Config, nb: nat, s: LoopState) {
    Valid(s, nb, cfg.T) && (s.best.Some? ==> Faithful(s.best.value, s.seen, cfg.bestCostEps, nb, cfg.T))
  }

  /** With best_cost_eps ≥ 0, the record stays faithful to the iterates seen through every
      iteration of the loop. */
  lemma {:induction false} LoopFaithful(k: nat, cfg: Config, it: Series -> Result<Candidate>, nb: nat, s: LoopState)
    requires FaithfulState(cfg, nb, s) && cfg.bestCostEps >= 0.0
    ensures Loop(k, cfg, it, nb, s).Ok? ==> FaithfulState(cfg, nb, Loop(k, cfg, it, nb, s).value)
    decreases k
  {
    if k > 0 && IterStep(cfg, it, nb, s).Ok? {
      IterStepAdvance(cfg, it, nb, s);
      var (s1, stop) := IterStep(cfg, it, nb, s).value;
      AdvanceFaithful(cfg, nb, s, it(s.u).value);
      assert FaithfulState(cfg, nb, s1);
      LoopUnfold(k, cfg, it, nb, s, s1, stop);
      if !stop {
        LoopFaithful(k - 1, cfg, it, nb, s1);
      }
    }
  }

  /** Batch element j of a result comes from iterate c: its states at every step, its
      controls at every step and its cost. */
  predicate ResultFrom(x: Series, u: Series, costs: seq<real>, j: nat, c: Candidate, nb: nat, T: nat)
    requires |x| == T && |u| == T && |costs| == nb && j < nb && Fits(c, nb, T)
    requires forall t :: 0 <= t < T ==> |x[t]| == nb && |u[t]| == nb
  {
    && costs[j] == c.costs[j]
    && forall t :: 0 <= t < T ==> x[t][j] == c.x[t][j] && u[t][j] == c.u[t][j]
  }

  /** Some iterate seen is where element j of the result comes from. */
  predicate ResultOrigin(x: Series, u: Series, costs: seq<real>, j: nat, seen: seq<Candidate>, nb: nat, T: nat)
    requires |x| == T && |u| == T && |costs| == nb && j < nb && AllFit(seen, nb, T)
    requires forall t :: 0 <= t < T ==> |x[t]| == nb && |u[t]| == nb
  {
    exists i :: 0 <= i < |seen| && ResultFrom(x, u, costs, j, seen[i], nb, T)
  }

  /** What `forward` returns, with best_cost_eps ≥ 0: [T, n_batch, …] states and controls and
      n_batch costs; for every batch element, its states, controls and cost all come from one
      and the same iterate of the loop, and its cost is within best_cost_eps of its cost in
      every iterate. */
  lemma {:induction false} ForwardBest(cfg: Config, lqr: LqrCall -> LqrOut, xInit: Batch, cost0: CostArg, dx: Dynamics)
    requires cfg.bestCostEps >= 0.0
    ensures ForwardSpec(cfg, lqr, xInit, cost0, dx).Ok? ==>
      && FinalState(cfg, lqr, xInit, cost0, dx).Ok?
      && var (nb, s) := FinalState(cfg, lqr, xInit, cost0, dx).value;
         var (x, u, costs) := ForwardSpec(cfg, lqr, xInit, cost0, dx).value;
         && nb == |xInit| && |s.seen| > 0 && AllFit(s.seen, nb, cfg.T)
         && |x| == cfg.T && |u| == cfg.T && |costs| == nb
         && (forall t :: 0 <= t < cfg.T ==> |x[t]| == nb && |u[t]| == nb)
         && (forall j :: 0 <= j < nb ==> ResultOrigin(x, u, costs, j, s.seen, nb, cfg.T))
         && (forall j, i :: 0 <= j < nb && 0 <= i < |s.seen| ==> costs[j] <= s.seen[i].costs[j] + cfg.bestCostEps)
  {
    if ForwardSpec(cfg, lqr, xInit, cost0, dx).Ok? {
      var (nb, cost, s0) := Setup(cfg, xInit, cost0).value;
      LoopFaithful(Iterations(cfg), cfg, IterateWith(cfg, lqr, xInit, cost, dx), nb, s0);
      var (nb', s) := FinalState(cfg, lqr, xInit, cost0, dx).value;
      assert nb' == nb;
      var best := s.best.value;
      var (x, u, costs) := ForwardSpec(cfg, lqr, xInit, cost0, dx).value;
      assert (x, u, costs) == (Assemble(best.x, cfg.T), Assemble(best.u, cfg.T), best.costs);
      forall j | 0 <= j < nb ensures ResultOrigin(x, u, costs, j, s.seen, nb, cfg.T) {
        assert Origin(best, j, s.seen, nb, cfg.T);
        var i :| 0 <= i < |s.seen| && From(best, j, s.seen[i]);
        forall t | 0 <= t < cfg.T ensures x[t][j] == s.seen[i].x[t][j] && u[t][j] == s.seen[i].u[t][j] {
          assert x[t][j] == best.x[j][t][0];
          assert best.x[j] == BestList.Column(s.seen[i].x, j);
          assert u[t][j] == best.u[j][t][0];
          assert best.u[j] == BestList.Column(s.seen[i].u, j);
        }
        assert ResultFrom(x, u, costs, j, s.seen[i], nb, cfg.T);
      }
    }
  }

  /** s' follows s after at most k iterations, keeps the iterates s had seen, and, when fewer
      than k iterations ran, the last one met the stopping test of the source: the largest
      full step norm below eps, or the not-improved counter above its limit. */
  predicate RanFrom(cfg: Config, nb: nat, k: nat, s: LoopState, s': LoopState) {
    && Valid(s', nb, cfg.T)
    && |s.seen| <= |s'.seen| <= |s.seen| + k
    && s'.seen[..|s.seen|] == s.seen
    && (|s'.seen| < |s.seen| + k ==>
          |s'.seen| > |s.seen| && nb > 0 &&
          (Max(s'.seen[|s'.seen| - 1].du) < cfg.eps || s'.notImproved > cfg.notImprovedLim))
  }

  /** One iteration followed by the rest of the run, or by the stop. */
  lemma {:induction false} RanFromStep(cfg: Config, nb: nat, k: nat, s: LoopState, c: Candidate,
                                       s1: LoopState, stop: bool, s': LoopState)
    requires Valid(s, nb, cfg.T) && k > 0
    requires Advance(cfg, nb, s, c) == Ok((s1, stop))
    requires stop ==> s' == s1
    requires !stop ==> RanFrom(cfg, nb, k - 1, s1, s')
    ensures RanFrom(cfg, nb, k, s, s')
  {
    AdvanceBookkeeping(cfg, nb, s, c);
    assert s1.seen == s.seen + [c];
    assert s1.seen[..|s.seen|] == s.seen;
    if !stop {
      assert s'.seen[..|s.seen|] == s1.seen[..|s.seen|];
    } else {
      assert s1.seen[|s1.seen| - 1] == c;
    }
  }

  /** The loop runs at most k iterations, and when it runs fewer it was stopped by the test
      of the source on the last iterate. */
  lemma {:induction false} LoopStops(k: nat, cfg: Config, it: Series -> Result<Candidate>, nb: nat, s: LoopState)
    requires Valid(s, nb, cfg.T)
    ensures Loop(k, cfg, it, nb, s).Ok? ==> RanFrom(cfg, nb, k, s, Loop(k, cfg, it, nb, s).value)
    decreases k
  {
    if k == 0 {
      assert Loop(k, cfg, it, nb, s) == Ok(s);
      assert s.seen[..|s.seen|] == s.seen;
    } else if IterStep(cfg, it, nb, s).Ok? {
      var c, s1, stop := LoopFirst(k, cfg, it, nb, s);
      if !stop {
        LoopStops(k - 1, cfg, it, nb, s1);
      }
      if Loop(k, cfg, it, nb, s).Ok? {
        RanFromStep(cfg, nb, k, s, c, s1, stop, Loop(k, cfg, it, nb, s).value);
      }
    }
  }

  /** A first iteration that succeeds is a successful iterate and its bookkeeping, followed
      by either the stop or the run of the rest. */
  lemma {:induction false} LoopFirst(k: nat, cfg: Config, it: Series -> Result<Candidate>, nb: nat, s: LoopState)
    returns (c: Candidate, s1: LoopState, stop: bool)
    requires Valid(s, nb, cfg.T) && k > 0
    requires IterStep(cfg, it, nb, s).Ok?
    ensures Advance(cfg, nb, s, c) == Ok((s1, stop)) && Valid(s1, nb, cfg.T)
    ensures stop ==> Loop(k, cfg, it, nb, s) == Ok(s1)
    ensures !stop ==> Loop(k - 1, cfg, it, nb, s1) == Loop(k, cfg, it, nb, s)
  {
    IterStepAdvance(cfg, it, nb, s);
    c := it(s.u).value;
    s1, stop := IterStep(cfg, it, nb, s).value.0, IterStep(cfg, it, nb, s).value.1;
    LoopUnfold(k, cfg, it, nb, s, s1, stop);
  }
}
