/** The exception kinds the service raises and catches, Python's `str(e)` for each,
    the `isinstance` relation used by `except` clauses, and the outcome types that
    stand in for calls into external services. */
module Errors {
  import opened Text

  /** Durations in whole milliseconds; every timeout and backoff constant of the
      service is a whole number of milliseconds. */
  type Millis = nat

  datatype Option<+T> = None | Some(value: T)

  /** The exceptions that reach the service's handlers. The first five are the
      service's own exception classes; the rest are library and built-in ones. */
  datatype Exc =
    | Timeout(operation: string, timeout: Millis)          // service TimeoutError
    | ExternalService(service: string, error: string)
    | ResourceInitialization(resource: string, error: string)
    | DocumentProcessing(operation: string, error: string)
    | VectorStore(operation: string, error: string)
    | ClientError(message: string)                         // aiohttp.ClientError
    | AsyncTimeout                                         // asyncio.TimeoutError
    | Builtin(className: string, message: string)          // ValueError, RuntimeError, ...

  /** The classes an `except` clause (or a retry decorator's `exceptions` tuple) names. */
  datatype ExcClass =
    | AnyException
    | TimeoutClass
    | ExternalServiceClass
    | ResourceInitializationClass
    | DocumentProcessingClass
    | VectorStoreClass
    | ClientErrorClass
    | AsyncTimeoutClass
    | BuiltinClass(name: string)

  /** `isinstance(e, c)`. The service's exception classes derive directly from
      `Exception`; the service's TimeoutError is unrelated to asyncio's. */
  predicate IsInstance(e: Exc, c: ExcClass) {
    match c
    case AnyException => true
    case TimeoutClass => e.Timeout?
    case ExternalServiceClass => e.ExternalService?
    case ResourceInitializationClass => e.ResourceInitialization?
    case DocumentProcessingClass => e.DocumentProcessing?
    case VectorStoreClass => e.VectorStore?
    case ClientErrorClass => e.ClientError?
    case AsyncTimeoutClass => e.AsyncTimeout?
    case BuiltinClass(name) => e.Builtin? && e.className == name
  }

  /** `except classes as e` catches `e`. */
  predicate Catches(classes: seq<ExcClass>, e: Exc) {
    exists i :: 0 <= i < |classes| && IsInstance(e, classes[i])
  }

  /** Python `str(e)`: the messages the service's exception constructors build. */
  function Str(e: Exc): string {
    match e
    case Timeout(op, t) => "Operation '" + op + "' timed out after " + SecondsText(t) + " seconds"
    case ExternalService(s, err) => "External service '" + s + "' error: " + err
    case ResourceInitialization(r, err) => "Failed to initialize resource '" + r + "': " + err
    case DocumentProcessing(op, err) => "Document processing error in '" + op + "': " + err
    case VectorStore(op, err) => "Vector store error in '" + op + "': " + err
    case ClientError(m) => m
    case AsyncTimeout => ""
    case Builtin(_, m) => m
  }

  /** What an awaited call produced: a value or a raised exception. */
  datatype Result<+T> = Ok(value: T) | Err(error: Exc)

  /** An awaited call raced against a deadline: it finished (with a value or an
      exception) or the deadline passed first. */
  datatype Completion<+T> = Finished(outcome: Result<T>) | Expired
}
