/** Failure-carrying values shared by the circulation model. */
module Results {

  /** A JSON property or Java reference that may be absent (null). */
  datatype Option<+T> = None | Some(value: T)

  datatype Result<+T, +E> = Success(value: T) | Failure(error: E)

  /** The unchecked exceptions the modelled code can raise on its inputs,
      each named after the absent value it dereferences. */
  datatype Fault =
    | MissingInventoryRecords   // the bundle holds no inventory records
    | MissingLoanStatus         // the loan has no "status" object
    | MissingLoanStatusName     // a switch over a loan status name that is null
    | MissingRequestQueue       // the bundle holds no request queue
    | UnmappedRequestType       // the request type has no item status configured

  /** Why a server error was reported: an explicit message, or a caught exception. */
  datatype ServerErrorCause = Reported(message: string) | Thrown(fault: Fault)

  /** The two failure channels: internal (server) errors and user-correctable validation errors. */
  datatype Failure = ServerError(cause: ServerErrorCause) | ValidationError(message: string)
}
