/** Failure values for the exceptions the modelled code raises. */
module Results {

  datatype Option<+T> = None | Some(value: T)

  /** The Python exceptions that construction or drawing can raise. */
  datatype Error =
    | ValueError(message: string)
    | KeyError(key: string)
    | ZeroDivisionError

  datatype Result<+T> = Success(value: T) | Failure(error: Error)
}
