/** Status codes the handlers answer with, and the result of one handler call. */
module Http {
  const Unauthorized: nat := 401
  const NotFound: nat := 404
  const UnprocessableEntity: nat := 422
  const InternalServerError: nat := 500

  /** A handler either answers with a value or with an error carrying its status code. */
  datatype Result<+T> = Ok(value: T) | Err(code: nat)

  /** What a handler does as written when it can dereference a missing document:
      it answers, or it throws a TypeError that no error handler catches. */
  datatype Reply<+T> = Sent(result: Result<T>) | Crashed
}
