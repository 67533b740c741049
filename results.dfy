/** Absence and failure as values: the simulation's "no such year" and the annuity
    formulas' ValueError become data instead of exceptions. */
module Results {

  datatype Option<+T> = None | Some(value: T)

  datatype Result<+T, +E> = Success(value: T) | Failure(error: E)
}
