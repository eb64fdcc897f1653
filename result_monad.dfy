/** The `Result` shape of monads/result.ts: a tagged value that is either
    `Ok` with a value or `Error` with an error. */
module ResultMonad {

  datatype Result<+T, +E> = Ok(value: T) | Error(error: E)
}
