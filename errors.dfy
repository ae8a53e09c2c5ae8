/** Option and Result wrappers, and the errors the access-control layer raises. */
module Errors {

  /** A value that may be absent; `None` plays JavaScript's `undefined`. */
  datatype Option<+T> = None | Some(value: T)

  /**
   * An error as the service throws it. `createError(status, message)` carries a
   * status; a plain `new Error(message)` carries none.
   */
  datatype Error = Error(status: Option<int>, message: string)

  /** The outcome of an operation that either returns a value or throws. */
  datatype Result<+T> = Ok(value: T) | Err(error: Error)

  /** `createError(status, message)`. */
  function Raise(status: int, message: string): Error
  {
    Error(Some(status), message)
  }

  const AccountNotFound: Error := Raise(404, "Account not found")
  const AccountAlreadyExists: Error := Raise(409, "Account already exists")
  /** Thrown with `new Error(...)`: it has no status. */
  const PasswordIsTheSame: Error := Error(None, "Password is the same")
  const PasswordsDoNotMatch: Error := Raise(401, "passwords do not match")
  const SessionExpired: Error := Raise(403, "Account session has expired. Please log in again.")
  const InvalidToken: Error := Raise(401, "Invalid token")
  const InvalidCredentials: Error := Raise(401, "Invalid credentials")
}
