/** Values shared by every part of the model: optional request fields,
    fallible results and the reply a controller hands back to Express. */
module Base {

  datatype Option<+T> = None | Some(value: T)

  /** A computation that either yields a value or throws an error carrying a text. */
  datatype Result<+T> = Success(value: T) | Failure(error: string)

  /** What an Express controller ends with: either `res.status(status).json(value)`,
      or `next(new AppError(message, status))`, which the error handler turns into
      a response with that status. */
  datatype Reply<+T> = Ok(status: nat, value: T) | Err(status: nat, message: string)

  /** JavaScript truthiness of an optional request string: `!s` is false
      exactly when the field is present and non-empty. */
  predicate Given(s: Option<string>) {
    s.Some? && s.value != ""
  }
}
