/** Small value types shared by every module: optional values, results, and
    the two standard exception kinds the library throws. */
module Base {

  datatype Option<+T> = None | Some(value: T)

  /** A C++ operation that either returns a value or throws. */
  datatype Result<+T> = Success(value: T) | Failure(error: Exception)

  /** The exceptions the library raises: `std::runtime_error` for failed OS or
      backend calls, `std::logic_error` for a malformed argument. */
  datatype Exception = RuntimeError | LogicError
}
