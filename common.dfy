/** Failure-carrying results shared by every handler of the model. */
module Common {

  datatype Option<+T> = None | Some(value: T)

  /** HTTP status codes the handlers answer with. */
  const Success: nat := 200
  const Created: nat := 201
  const BadRequest: nat := 400
  const NotFound: nat := 404
  const ServerError: nat := 500

  /** A handler's outcome: the value it answers with, or the status of the error it raises. */
  datatype Result<+T> = Ok(value: T) | Err(status: nat)

  /** True iff `x` occurs in `s` exactly once. */
  predicate OccursOnce<T(==)>(x: T, s: seq<T>)
  {
    multiset(s)[x] == 1
  }
}
