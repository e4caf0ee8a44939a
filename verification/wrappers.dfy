/** Option and Result types shared by every module of the model. */
module Wrappers {

  datatype Option<+T> = None | Some(value: T)

  /** The error outcomes the backend can produce; each names the HTTP status or the
      Python exception that surfaces to the client. */
  datatype Error =
    | ValidationFailed      // serializers.ValidationError, answered with 400
    | NotFound              // get_object_or_404, answered with 404
    | MissingKey            // KeyError from dict.pop on validated data
    | UnpackMismatch        // ValueError: wrong number of values to unpack
    | BadInteger            // ValueError from int() on a query parameter
    | NegativeSlice         // a QuerySet sliced with a negative bound

  datatype Result<+R> = Success(value: R) | Failure(error: Error)
}
