/**
 * The vocabulary shared by the client layer: gRPC status codes, the outcome of one unary call and
 * the exceptions the layer raises.
 */
module Rpc {

  /** The status codes of gRPC (`grpc.StatusCode`). */
  datatype StatusCode =
    | Cancelled | Unknown | InvalidArgument | DeadlineExceeded | NotFound | AlreadyExists
    | PermissionDenied | ResourceExhausted | FailedPrecondition | Aborted | OutOfRange
    | Unimplemented | Internal | Unavailable | DataLoss | Unauthenticated

  /** A raised `grpc.RpcError`: its `code()` and its `str()` text. */
  datatype RpcError = RpcError(code: StatusCode, text: string)

  /** What a wrapped endpoint returns: a response message, or Python's `None`. */
  datatype Response = PyNone | Message(body: string)

  /** The outcome of one call of a wrapped endpoint: it returned, or it raised an `RpcError`. */
  datatype RpcOutcome = Success(response: Response) | Failure(error: RpcError)

  /** The exceptions that leave the client layer. */
  datatype FlyteError =
    | FlyteAuthenticationException(message: string)
    | FlyteEntityAlreadyExistsException(cause: RpcError)
    | FlyteEntityNotExistException(cause: RpcError)
    /** The original `RpcError`, re-raised unchanged. */
    | Reraised(rpc: RpcError)
    | ValueError(message: string)
    /** Python's `AttributeError`, raised by reading a field of `None`. */
    | AttributeError(message: string)

  /** What a call through the client layer ends with. */
  datatype CallResult = Returned(response: Response) | Raised(error: FlyteError)
}
