/** Values shared by every controller: optional request fields, the `ApiError`
    a controller throws, and the result of a handler that either answers or throws. */
module Api {

  /** An optional value; `None` stands for JavaScript `undefined`. */
  datatype Option<T> = None | Some(value: T)

  /** An `ApiError(status, message)`: what a handler throws for Express to turn into a response. */
  datatype ApiError = ApiError(status: int, message: string)

  /** A user's `_id`: the position of the user in the users collection, which every record
      of the ledger refers to. */
  type UserId = nat

  /** A handler either produces a value or fails with an `ApiError`. */
  datatype Result<T> = Ok(value: T) | Err(error: ApiError)

  const BadRequest := 400
  const Unauthorized := 401
  const NotFound := 404
  const Conflict := 409
  const InternalError := 500

  /** What Express's default error handler answers for a thrown value that is not an `ApiError`
      (a `TypeError`, a schema validation error). */
  const Crash := ApiError(InternalError, "Internal Server Error")
}
