/** Failure-carrying values shared by every module of the model. The Python
    source reports failures by raising exceptions; each raise (and each
    division by zero that Python turns into `ZeroDivisionError`) becomes a
    `Failure` here, so every error path is part of the model. */
module Wrappers {

  datatype Option<+T> = None | Some(value: T)

  /** The exception kinds the modelled code raises. */
  datatype Error =
    | ValueError(reason: string)
    | TypeError(reason: string)
    | AssertionError(reason: string)
    | ZeroDivisionError
    | IndexError
    | KeyError

  datatype Result<+T> = Success(value: T) | Failure(error: Error) {
    predicate IsFailure() { Failure? }

    function PropagateFailure<U>(): Result<U>
      requires Failure?
    {
      Failure(error)
    }

    function Extract(): T
      requires Success?
    {
      value
    }
  }

  /** A real number or the floating-point `inf` sentinel that the sum factor
      uses for an infinite inverse precision. */
  datatype ExtReal = Finite(r: real) | Inf

  function Abs(x: real): real
  {
    if x < 0.0 then -x else x
  }

  function Max(a: real, b: real): real
  {
    if a < b then b else a
  }
}
