/** Option, the error taxonomy of the board API, and a Result that carries one error. */
module Outcomes {

  datatype Option<+T> = None | Some(value: T)

  /** The ways a request to the board API fails, by the response it produces. */
  datatype Error =
    | Required      // 400 {"status": "Status is required"} or {"status": "User ID is required"}
    | Invalid       // 400 {"status": "Invalid status"}, or the field errors of a serializer
    | UserNotFound  // 400 {"status": "User not found"}
    | NotFound      // 404: the object is not in the caller's queryset
    | Forbidden     // 403: the object permission refused the request
    | ServerError   // 500: an exception the view does not catch

  /** The outcome of an operation. A failure carries no store: the store it was applied to stands. */
  datatype Result<+T> = Ok(value: T) | Err(error: Error) {

    predicate IsFailure() {
      Err?
    }

    function PropagateFailure<U>(): Result<U>
      requires Err?
    {
      Err(error)
    }

    function Extract(): T
      requires Ok?
    {
      value
    }
  }
}
