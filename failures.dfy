/** Failure results for the operations of the model. Where the solver raises an exception,
    fails an assertion or exits the process, the model returns `Fail` with the reason. */
module Failures {

  /** The reasons an operation of the solver can fail. */
  datatype Error =
    | BoundsGivenAlone        // only one of u_lower and u_upper was given
    | NoLineSearch            // max_linesearch_iter is not positive
    | BatchSizeUnknown        // n_batch neither configured nor inferable
    | CostShape               // the QuadCost is not 4-D / 3-D after broadcasting
    | InitialStateShape       // x_init does not have n_batch rows
    | OffsetShape             // LinDx.f does not have the shape F.shape[:3]
    | ShapeMismatch           // an array operation or index on mismatched shapes
    | NoTrajectory            // get_cost called with neither x_init nor x
    | EntryArity              // a table_log entry is neither a pair nor a triple
    | NoIterations            // lqr_iter == 0 leaves no best trajectory
    | EmptyBatch              // max() over an empty batch
    | Unconverged             // exit_unconverged and some element did not converge
    | ListIndex               // assignment past the end of a Python list
    | RankError               // expandParam: unexpected number of dimensions
    | MissingGoal             // get_cost reads the goal of dynamics that carry none
    | SlewWithCostModule      // approximate_cost exits: a cost module with a slew-rate penalty

  datatype Result<+T> = Ok(value: T) | Fail(error: Error) {
    predicate IsFailure() { Fail? }

    function PropagateFailure<U>(): Result<U>
      requires Fail?
    {
      Fail(error)
    }

    function Extract(): T
      requires Ok?
    {
      value
    }
  }

  datatype Option<+T> = None | Some(value: T)
}
