/** Failure-compatible results shared by the array engine and the gradient collector. */
module Results {

  /** The errors the engine reports instead of throwing. */
  datatype Error =
    | IncompatibleShapes(axis: nat, left: nat, right: nat)
      // two aligned dimensions are neither equal nor 1; `axis` indexes the broadcast shape
    | InPlaceShapeMismatch(target: seq<nat>, result: seq<nat>)
      // an in-place operation would have to reshape its target
    | NoOperands
      // a variadic operation was given an empty list
    | GradientNotAttached
      // the gradient of an array that was never marked for tracking was read
    | NotRecording
      // backward was called on a collector whose scope is closed
    | NotOnTape
      // backward was called on an array no recorded operation produced

  datatype Result<+T> = Ok(value: T) | Err(error: Error)

  datatype Option<+T> = None | Some(value: T)

  datatype Outcome = Pass | Fail(error: Error)
}
