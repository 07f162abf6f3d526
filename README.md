# mpc.pytorch outer loop and batched helpers, in Dafny

This project models the driver of the box-constrained iLQR solver in `mpc/mpc.py` and the
batched helpers in `mpc/util.py`, and proves what they promise.

`MPC.forward` works like this:

- it infers the batch size;
- it broadcasts the quadratic cost to `[T, n_batch, …]`;
- it starts from the initial controls;
- it then repeats the outer iteration up to `lqr_iter` times. Each iteration:
  - rolls the controls out (`get_traj`);
  - linearises the dynamics (the analytic branch of `linearize_dynamics`);
  - calls the LQR subproblem (`solve_lqr_subproblem`), on the slew-rate-augmented problem when there is a slew penalty;
  - keeps the best iterate per batch element;
  - stops early when the largest full control step falls below `eps`, or when the shared not-improved counter passes `not_improved_lim`.
- At the end it puts the record back together and fails when unconverged elements remain and `exit_unconverged` is set.

Modelling conventions:

- Numbers are `real`.
- Tensors are nested sequences: `Vec`, `Mat`, `Batch` (rows per batch element) and `Series` (batches per time step).
- Raised exceptions, failed assertions and `sys.exit` become `Fail(reason)` of a `Result`.
- The LQR step (`LQRStep`, with the box QP `pnqp` inside it) is a function-typed parameter.
- A dynamics module is a function giving the next states and its Jacobians.
- A cost module is a function, plus its quadratic approximation.

Modules:

- `Failures`: the error reasons, and `Result`/`Option`.
- `Batched`: `bmv`, `bger`, `bquad`, `bdot` and `bdiag`, with the inner-product algebra behind them.
- `Clamp`: `eclamp`, in place on an `array`.
- `Expand`: `expandParam`.
- `Rollout`: `get_traj`, as a loop proved equal to a recursive definition, and shown by a lemma to be exactly the rollout.
- `Costs`: `get_cost`.
- `TableLog`: `table_log`, as a class whose fields are the seen-tags list and the printed lines.
- `Slew`: the slew matrix, built by slice assignment into a 2-D array, and the algebra of the augmented cost and dynamics.
- `Linearize`: the analytic linearisation.
- `Subproblem`: the construction of the augmented problem.
- `BestList`: the best-so-far record.
- `Mpc`: the construction checks and `forward`. `Forward` is a method with a `while` loop.
  - It is proved equal to `ForwardSpec`, which is built from `Loop`, `Advance` and `Finish`.
  - The loop-level properties are stated as lemmas about those functions.

Where the documented design and the code disagree, the model follows the code:

- There is one not-improved counter for the whole batch. It is reset when any element improves (mpc/mpc.py:276, 297-298). It is not one counter per element.
- The next iteration starts from the latest iterate's controls (mpc/mpc.py:272). It does not start from the best ones.
- An element counts as improving when its cost is at most best − `best_cost_eps` (mpc/mpc.py:297). It does not need to be strictly below.
- `get_cost` never uses the linear term `c` of a `QuadCost`, and it measures `τ_t` against the goal carried by the dynamics (mpc/util.py:150).

## Model

| member | source | states |
|---|---|---|
| Batched.BquadIsBdotBmv | mpc/util.py:45-54 | for every batch element, `bquad(x, Q)` equals `bdot(x, bmv(Q, x))`: the quadratic form x^T Q x is x · (Q x) |
| Batched.VecMatDot | mpc/util.py:49-50 | evaluating `bquad` as (x^T Q) x gives the same value as x · (Q x), for any rectangular Q |
| Batched.BgerAction | mpc/util.py:41-46 | `bger(x, y)` is a batch of \|x[b]\| × \|y[b]\| matrices, and `bmv(bger(x, y), z)[b]` = (y[b]·z[b]) x[b] |
| Batched.OuterAction | mpc/util.py:41-42 | the outer product x y^T applied to z is (y·z) x |
| Batched.BdiagAction | mpc/util.py:31-38 | entry (i, j) of `bdiag(d)[b]` is d[b][i] when i = j and 0 otherwise, and `bdiag(d)[b]` acts on y entrywise as d[b][i]·y[b][i] |
| Batched.HCatAction | mpc/util.py:119-120 | [A B] applied to the concatenation [x; u] is A x + B u |
| Clamp.ClampEntry | mpc/util.py:65-69 | one clamped entry equals x, lower or upper; it is never above upper; it lies in [lower, upper] when lower ≤ upper; it is x itself when x already lies there |
| Clamp.Eclamp | mpc/util.py:57-71 | the call succeeds exactly when every array bound has x's shape. On success, x holds the entrywise result of raising to lower and then cutting to upper. On failure, x is untouched |
| Clamp.ClampedWithinBounds | mpc/util.py:65-71 | with ordered bounds, every clamped entry lies between them, and entries that were already inside are unchanged |
| Clamp.ClampedIdempotent | mpc/util.py:65-71 | clamping twice equals clamping once, for any bounds |
| Expand.ExpandParam | mpc/util.py:22-28 | a 0-D or nDim-D input is returned unchanged with False; an (nDim−1)-D input gets the leading dimension n_batch with True; any other rank fails |
| Expand.ExpandedCopies | mpc/util.py:25-26 | the expanded array is well formed and each of its n_batch blocks is the original data |
| Rollout.Step | mpc/util.py:114-124 | one step is the module's output, or `bmv(F[t], [x_t u_t])` plus `f[t]` when present; it fails exactly when the shapes do not fit |
| Rollout.GetTraj | mpc/util.py:103-127 | the appending loop returns exactly the recursive rollout, including its failures |
| Rollout.TrajIsRollout | mpc/util.py:106-127 | `get_traj` returns x exactly when f has the shape `F.shape[:3]` and x is the rollout: T states (one when T = 0), x[0] = x_init, and every x[t+1] is the step from x[t] under u[t] |
| Rollout.LinearRollout | mpc/util.py:118-122 | under `LinDx(F, f)`, x[t+1][b] = F[t][b]·[x_t[b]; u_t[b]] + f[t][b] |
| Rollout.ShortControlsFail | mpc/util.py:113-115 | fewer than T controls fail, because u[t] is read on every iteration |
| Costs.Objective | mpc/util.py:143-152 | a QuadCost objective at t is 0.5·(τ_t − goal)^T C[t] (τ_t − goal) per batch element, and needs a goal carried by the dynamics |
| Costs.GetCost | mpc/util.py:130-156 | the loop that collects one objective per step equals `CostOf`: it fails without x_init and x, rolls out from x_init when x is absent, and sums the objectives (`np.sum` of an empty list is the 0-d scalar 0.0) |
| Costs.TotalShape | mpc/util.py:141-155 | the total is the scalar 0.0 exactly when T = 0; otherwise, under a QuadCost, it has one entry per batch element |
| Costs.QuadRows | mpc/util.py:142-155 | every objective row of a successful QuadCost evaluation is the half quadratic form of τ_t − goal under C[t] |
| Costs.ZeroAtGoal | mpc/util.py:142-155 | when every τ_t equals the goal, the total is 0: the scalar for T = 0, each batch element's entry otherwise |
| Costs.NonnegativeTotal | mpc/util.py:150-155 | with positive semidefinite C[t], the total is nonnegative: the scalar for T = 0, each batch element's entry otherwise |
| Costs.LinearTermIgnored | mpc/util.py:135-150 | the total does not depend on the linear term c |
| TableLog.RenderRow | mpc/util.py:84-85 | a printed row starts with "\| " and ends with " \|" |
| TableLog.Names | mpc/util.py:87-88 | the header has one name per entry, each the entry's first item; it fails exactly when some entry is empty |
| TableLog.Cells | mpc/util.py:91-99 | a data row has one cell per entry: the formatted value for a triple and `str` of the value for a pair; it fails exactly when some entry has another length |
| TableLog.Logger.constructor | mpc/util.py:78 | a fresh logger has seen no tag and printed nothing |
| TableLog.Logger.Log | mpc/util.py:78-100 | the header is printed and the tag recorded only on the tag's first call; then exactly one data row is printed. A failing header leaves the state unchanged. Tags stay distinct |
| TableLog.LogTwice | mpc/util.py:87-100 | two calls with a new tag print exactly header, row, row |
| Slew.AssignBlock | mpc/mpc.py:414-417 | a slice assignment of γI writes γ on the block's diagonal and 0 elsewhere in the block, and leaves the rest of the array unchanged |
| Slew.BuildSlewMatrix | mpc/mpc.py:411-418 | the four slice assignments succeed exactly when n_ctrl > 0 or n_state = 0, and produce γI in both diagonal corner blocks, −γI in both off-diagonal corner blocks, and 0 elsewhere |
| Slew.SlewSymmetric | mpc/mpc.py:411-418 | `slew_C` is symmetric |
| Slew.SlewAction | mpc/mpc.py:411-418 | `slew_C` applied to [u_prev; x; u] is [γ(u_prev − u); 0; γ(u − u_prev)] |
| Slew.SlewQuad | mpc/mpc.py:411-418 | `bquad([u_prev; x; u], slew_C)` = γ‖u − u_prev‖² |
| Slew.AugCostQuad | mpc/mpc.py:418-419 | under `_C` = slew_C + C padded by n_ctrl, the quadratic form of [u_prev; x; u] is γ‖u − u_prev‖² + [x; u]^T C [x; u] |
| Slew.QuadPad | mpc/mpc.py:419 | padding C with n_ctrl leading zero rows and columns makes its quadratic form ignore the leading block |
| Slew.AugLinearCost | mpc/mpc.py:421-422 | `_c` = [0; c] gives the same linear cost as c, whatever u_prev is |
| Slew.AugDynMatrix | mpc/mpc.py:424-434 | `_F` has n_ctrl rows [0 I] followed by the rows [0 F] |
| Slew.AugDynAction | mpc/mpc.py:424-434 | `_F`·[u_prev; x; u] = [u; F·[x; u]] |
| Slew.AugStep | mpc/mpc.py:424-438 | with `_f` = [0; f], the augmented step is [u; F·[x; u] + f] |
| Slew.SlewRateCostValue | mpc/mpc.py:49-54 | `SlewRateCost` on [u_prev; x; u] is cost([x; u]) + (γ/2)‖u − u_prev‖² |
| Linearize.FlattenIndex | mpc/mpc.py:540-541 | `reshape(-1, n)` of a regular [k, n_batch, n] array has k·n_batch rows, and row t·n_batch + b is row b of slice t |
| Linearize.AffineExact | mpc/mpc.py:539-563 | F = [R S], f = x' − R x − S u reproduce the dynamics exactly at the linearisation point: F[g][b]·[x; u] + f[g][b] = x' for every row |
| Linearize.LinearisationAtState | mpc/mpc.py:539-563 | on regular x[:-1] and u[:-1], F has T−1 steps of n_state × (n_state + n_ctrl) matrices, and F[t][b]·[x_t[b]; u_t[b]] + f[t][b] is the module's output for that row |
| Subproblem.PrevU | mpc/mpc.py:443-451 | without `prev_ctrl`, the previous control is zeros of shape [1, n_batch, n_ctrl] |
| Subproblem.Shifted | mpc/mpc.py:452 | `utm1s` at step t is prev_u[t] for the steps prev_u covers, and u[t − \|prev_u\|] after them |
| Subproblem.AugState | mpc/mpc.py:452-455 | `_x` and `_x_init` exist exactly when the concatenated shapes agree (every step of prev_u has the shape of a step of u, utm1s has x's steps and rows, prev_u[0] has x_init's rows), and are [utm1s; x] row by row and [prev_u[0]; x_init] |
| Subproblem.AugCosts | mpc/mpc.py:411-422 | every `_C[t][b]` is the augmented cost matrix of C[t][b], and every `_c[t][b]` is [0; c[t][b]] |
| Subproblem.AugDyn | mpc/mpc.py:424-440 | every `_F[t][b]` is the augmented dynamics matrix of F[t][b]; `_f` exists exactly when f does, and is [0; f[t][b]] |
| Subproblem.Augment | mpc/mpc.py:407-455 | the augmented problem is built exactly when the data have the shapes the array operations need; otherwise it fails with a shape error |
| Subproblem.DropFront | mpc/mpc.py:488 | `x[:, :, n_ctrl:]` drops the first n_ctrl entries of every row |
| Subproblem.AugmentedStatesProject | mpc/mpc.py:452-488 | the augmented nominal states are [u_{t−1}; x_t]; dropping the first n_ctrl entries of every row gives back x and x_init |
| Subproblem.AugmentedCost | mpc/mpc.py:411-422 | given the augmented data, the cost of [u_prev; x; u] is the original cost of [x; u] plus the slew penalty, and its linear part ignores u_prev |
| Subproblem.AugDynStep | mpc/mpc.py:424-440 | the augmented linear dynamics step from [p_t; x_t] under u_t to [u_t; x_{t+1}] |
| Subproblem.AugmentedStep | mpc/mpc.py:424-455 | given the augmented data, a step of the augmented linear dynamics carries the control into the state and otherwise follows the original dynamics |
| BestList.Split | mpc/mpc.py:282-283 | splitting along the batch axis gives n_batch pieces, and piece j holds element j |
| BestList.Assemble | mpc/mpc.py:343-344 | concatenating the pieces gives, at each step, one row per piece, in order |
| BestList.SplitAssemble | mpc/mpc.py:343-344 | concatenating the split pieces gives back the [T, n_batch, n] array |
| BestList.First | mpc/mpc.py:280-294 | the first record takes every element's states, controls, cost and step norm from the first iterate |
| BestList.Improve | mpc/mpc.py:296-310 | an element that improves by at least eps takes all four entries from the new iterate; any other element keeps all four; with eps ≥ 0, no best cost increases |
| BestList.UpdateBest | mpc/mpc.py:296-310 | the in-place loop over the batch gives exactly `Improve`, and reports whether any element improved |
| BestList.FirstFaithful | mpc/mpc.py:280-294 | the first record is faithful to the first iterate: each element comes from it, and its cost is within eps |
| BestList.ImproveFaithful | mpc/mpc.py:296-310 | with eps ≥ 0, an update keeps the record faithful to every iterate seen, the new one included |
| BestList.AsWrittenFirst | mpc/mpc.py:282-283 | as written, the first record's lists have a single piece |
| BestList.AsWrittenImprove | mpc/mpc.py:296-301 | as written, storing an improving element j fails when j is past the end of the list |
| BestList.AsWrittenListIndex | mpc/mpc.py:282-299 | with two batch elements, element 1 improving makes the code as written fail, while the corrected record takes the new cost |
| BestList.AsWrittenDropsElement | mpc/mpc.py:282-344 | with two batch elements, element 0 alone improving makes the code as written keep a single column, so the final concatenation has one row per step, while the corrected record assembles both |
| BestList.AsWrittenAgreesForOne | mpc/mpc.py:282-301 | with one batch element, the code as written and the corrected record agree |
| Mpc.NewMpc | mpc/mpc.py:149-150 | construction succeeds exactly when both bounds or neither are given and `max_linesearch_iter` > 0, and reports which check failed |
| Mpc.Defaults | mpc/mpc.py:125-146 | the default settings, which pass the construction checks: lqr_iter 10, eps and back_eps 1e-7, linesearch_decay 0.2, max_linesearch_iter 10, exit and detach unconverged, backprop, not_improved_lim 3, best_cost_eps 1e-3 |
| Mpc.InferBatch | mpc/mpc.py:197-203 | n_batch is the configured value when set; otherwise `C.shape[1]` of a 4-D QuadCost; otherwise the call fails |
| Mpc.TiledMatrices | mpc/mpc.py:210-216 | a 2-D C becomes T × n_batch copies, a 3-D C gets n_batch copies of each C[t], a 4-D C is kept, and any other rank stays wrong |
| Mpc.TiledVectors | mpc/mpc.py:218-223 | the same broadcasting rule for c, from ranks 1 and 2 |
| Mpc.NormalizeCost | mpc/mpc.py:209-228 | a QuadCost is accepted exactly when both terms reach ranks 4 and 3, and is then the tiled pair; a cost module passes unchanged |
| Mpc.InitialControls | mpc/mpc.py:232-237 | the initial controls are zeros of shape [T, n_batch, n_ctrl] when none are given, a shared [T, n_ctrl] array repeated per batch element, or the given array |
| Mpc.Max | mpc/mpc.py:338 | `max` is an upper bound of the sequence, and is attained |
| Mpc.Setup | mpc/mpc.py:197-237 | the checks before the loop; on success x_init has n_batch rows, and the loop starts from the initial controls with no record and counter 0 |
| Mpc.AdvanceBookkeeping | mpc/mpc.py:250-340 | after an iterate: the next nominal controls are the iterate's own; the record is started or improved; the counter rises by one and resets to 0 when any element improved; the loop stops exactly when max full_du_norm < eps or the counter > not_improved_lim; misshapen iterates and empty batches fail |
| Mpc.Finish | mpc/mpc.py:343-378 | with no iteration there is no record and the call fails; with detach and exit unconverged set and max best full_du_norm > eps it fails; otherwise it returns the pieces concatenated back and the best costs |
| Mpc.IterateFails | mpc/mpc.py:254-270 | an iterate fails with the rollout's error when the rollout fails, with the linearisation's error when a module's linearisation fails, and with the exit of `approximate_cost` (mpc/mpc.py:496-502) when a cost module meets a slew-rate penalty |
| Mpc.IteratePlain | mpc/mpc.py:254-273 | without a slew-rate penalty, an iterate is the LQR step's output on the linear model, the quadratic model and the rollout; for `LinDx` and a QuadCost these are `dx.F`, `dx.f`, `cost.C`, `cost.c` themselves |
| Mpc.IterateSlew | mpc/mpc.py:254-273 | with a slew-rate penalty and a QuadCost, an iterate fails with a shape error exactly when the augmented problem cannot be built, and otherwise is the LQR step's output on the augmented problem with the previous control dropped from its states |
| Mpc.Record | mpc/mpc.py:276-340 | the bookkeeping code (counter, record updated element by element, termination test) gives what `Advance` specifies, failures included; the record is the corrected per-element one (see Findings), which agrees with the code as written for n_batch = 1 |
| Mpc.Pass | mpc/mpc.py:249-340 | one pass keeps the run on track: either the whole loop fails with this error, or what remains of it equals the loop from the new state |
| Mpc.RunLoop | mpc/mpc.py:246-340 | the `for i in range(lqr_iter)` loop with its `break` returns the record of `Loop`, and fails exactly when it does |
| Mpc.Forward | mpc/mpc.py:188-379 | `forward` returns exactly `ForwardSpec`, failures included; the record is the corrected per-element one (see Findings) |
| Mpc.AdvanceFaithful | mpc/mpc.py:280-310 | with best_cost_eps ≥ 0, one iteration keeps the record faithful to the iterates seen |
| Mpc.LoopFaithful | mpc/mpc.py:249-340 | with best_cost_eps ≥ 0, the record stays faithful through every iteration of the loop |
| Mpc.ForwardBest | mpc/mpc.py:188-379 | with best_cost_eps ≥ 0, the result has T steps of n_batch rows and n_batch costs; for every element, its states, controls and cost all come from one and the same iterate, and its cost is at most best_cost_eps above its cost in every iterate |
| Mpc.LoopStops | mpc/mpc.py:249-340 | the loop runs at most lqr_iter iterations and keeps the iterates in order; when it runs fewer, the last iterate met the stopping test (max full_du_norm < eps, or the counter > not_improved_lim) |

## Left out

- `LQRStep` and `pnqp` (mpc/lqr_step.py, mpc/pnqp.py) are not part of this model. The LQR step is a function parameter. Its box bounds, line-search settings and `back_eps` are carried in the settings but not interpreted.
- `u_zero_I` and `delta_u` are not in the settings: the model passes nothing but the problem data to the LQR step, which is where they act.
- `grad_method` is not in the settings: the model always takes the ANALYTIC linearisation.
- `approximate_cost` is modelled only by its exit when a slew-rate penalty is set (mpc/mpc.py:496-502). The rest uses automatic differentiation, so a cost module carries its quadratic approximation as a function instead.
- The linearisation branches other than ANALYTIC are not modelled, nor `util.jacobian`: they use autograd or finite differences.
- The detach masking with `Variable`/`.detach()` (mpc/mpc.py:372-376) is not modelled. It changes gradients only, not values. The model assumes that the step norms the LQR step returns support these operations.
- The model covers `verbose` ≤ 0 only, and the settings have no verbose field. With `verbose` > 0, `forward` also calls `get_cost` at mpc/mpc.py:241, which fails for `LinDx` dynamics because they carry no goal, and raises KeyError at mpc/mpc.py:316 because `best['costsxx']` is never set. The warning printed at mpc/mpc.py:368 is output only.
- `print`, `sys.exit`, `assert` and Python exceptions are modelled only as the returned `Fail` reason.
- Floating point and the `'single'` dtype are replaced by exact reals.
- Broadcasting is modelled only where the code relies on it: the goal row in `get_cost`, and the tiling of the cost.
- The type checks at mpc/mpc.py:191-194 hold by construction, because the cost and dynamics arguments are datatypes.
- A dynamics module is applied to the flattened rows of every time step at once, so its output is modelled row by row through its function.
- Subproblem.Solve: the dispatch of `solve_lqr_subproblem` is modelled as a plain function without a contract of its own. Its slew branch is specified through `Augment` and its lemmas, and its use through `Mpc.IteratePlain` and `Mpc.IterateSlew`.
- The slew branch mixes torch operations (`ZeroPad2d`, `torch.cat`) with numpy arrays. The model gives these operations their evident tensor meaning.
- Subproblem.Augment: fails unless c's rows are n_state + n_ctrl wide and f's rows n_state wide. The concatenations at mpc/mpc.py:421-422 and 437-438 accept other widths, which then reach the LQR step; the model rejects them at construction instead.
- Subproblem.Augment: the broadcasting corner cases of adding the padded C to `_C` (mpc/mpc.py:419), where a dimension of 1 would broadcast, are modelled as shape errors.
- Mpc.Forward: uses the corrected per-element record. For n_batch ≥ 2 the code as written differs (see Findings): it raises IndexError at mpc/mpc.py:299 when an element other than 0 improves, and returns states and controls with one row per step when only element 0 does.
- Mpc.Record: the same corrected record as `Mpc.Forward`.
- Slew.BuildSlewMatrix: the `-n_ctrl:` slices are modelled for n_ctrl > 0. The n_ctrl = 0 case is modelled only as the failing broadcast.
- Costs.NonnegativeTotal assumes positive semidefinite cost matrices. The code does not check this.
- Mpc.ForwardBest and Mpc.LoopFaithful assume best_cost_eps ≥ 0. With a negative eps, a worse cost can replace the best one, and the code allows that.

## Findings

| source | as written | input that shows it | evidently intended | confidence | as-written member | corrected member |
|---|---|---|---|---|---|---|
| mpc/mpc.py:282-283 | `list(np.split(x, indices_or_sections=1, axis=1))` makes a one-element list holding the whole [T, n_batch, n] array, so `best['x'][j] = …` at mpc/mpc.py:299 raises IndexError for j ≥ 1 | n_batch = 2, T = 1; on the second iteration only element 1 improves | split into n_batch pieces, one per batch element, so that element j is stored at index j | not executed | BestList.AsWrittenListIndex | BestList.UpdateBest |
| mpc/mpc.py:282-299 | with the same one-element list, an improving element 0 replaces the whole array at index 0 with its own [T, 1, n] column, so `np.concatenate(best['x'], axis=1)` at mpc/mpc.py:343 returns [T, 1, n] instead of [T, n_batch, n] | n_batch = 2, T = 1; on the second iteration only element 0 improves | the record keeps every element, and the result has n_batch rows per step | not executed | BestList.AsWrittenDropsElement | BestList.UpdateBest |
