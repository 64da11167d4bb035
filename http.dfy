/** The JSON responses the API routes return: a success body, an error status with the
    `{ error }` message, or an exception escaping the handler (which Next.js answers with a
    bare status 500). */
module Http {

  datatype Response<T> = Ok(body: T) | Error(status: int, message: string) | Unhandled

  /** Status 500 for any exception a route's own `try` catches. */
  const InternalServerError: string := "Internal server error"
}
