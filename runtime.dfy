/** Values of the Python and gRPC runtimes that the measurement service core
    passes around, raises or inspects. */
module Runtime {

  datatype Option<+T> = None | Some(value: T)

  /** The outcome of a Python call: the value it returned or the exception it raised. */
  datatype Result<+T> = Success(value: T) | Failure(error: Exception)

  /** grpc.StatusCode */
  datatype StatusCode =
    | OK | Cancelled | Unknown | InvalidArgument | DeadlineExceeded | NotFound
    | AlreadyExists | PermissionDenied | ResourceExhausted | FailedPrecondition
    | Aborted | OutOfRange | Unimplemented | Internal | Unavailable | DataLoss
    | Unauthenticated

  /** The exceptions the core raises, catches or classifies. */
  datatype Exception =
    | BareException(message: string)               // an instance of exactly `Exception`, no subclass
    | RpcError(code: StatusCode, details: string)  // a grpc.RpcError, CustomRpcError included
    | RuntimeError(message: string)
    | ValueError(message: string)
    | TypeError(message: string)
    | KeyError(key: int)
    | OtherException(typeName: string, message: string)

  /** A Python object the core forwards without looking inside it: a default
      value, a decoded configuration value, a response message. */
  datatype Value = Value(repr: string)
}
