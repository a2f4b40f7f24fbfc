/** Failure-carrying values shared by the whole model, and the exceptions
    the client raises, as values. */
module Wrappers {

  datatype Option<+T> = None | Some(value: T)

  datatype Result<+R, +E> = Success(value: R) | Failure(error: E)

  /** The exceptions thrown by the modelled code. */
  datatype Error =
    /** `RequestException`: a response whose HTTP status the operation does not accept.
        Status 204 (No Content) is the "resource not ready" case. */
    | RequestError(status: int)
    /** `InvalidDataException`: a body or an attribute of the wrong shape. */
    | InvalidData
    /** `InvalidOperationException`: a resource initialized twice. */
    | InvalidOperation
    /** `NotSupportedException`: a case-insensitive member binder. */
    | NotSupported
    /** `NullReferenceException`: an identity read on a resource that has none. */
    | NullReference
    /** The transport itself failed, so no HTTP response arrived. */
    | Transport
}
