/**
 * Option and Result, plus the Python exceptions the modelled code can raise.
 * A `Failure(e)` stands for "the call raised e"; most callers let it propagate.
 */
module Results {

  datatype Option<+T> = None | Some(value: T)

  /** The exceptions that the modelled Python code raises, by class. */
  datatype Error =
    | KeyError(key: string)
    | TypeError(what: string)
    | ValueError(what: string)
    | IndexError
    | AttributeError(name: string)
    | AssertionError
    | NotImplementedError
    | JsonDecodeError(msg: string)
    | UnicodeDecodeError
    | Base64Error(msg: string)
    | TimeoutError
    | TransportError
    | NotModelled(what: string)

  datatype Result<+T> = Success(value: T) | Failure(error: Error) {
    predicate IsFailure() { Failure? }

    function PropagateFailure<U>(): Result<U>
      requires Failure?
    {
      Failure(error)
    }

    function Extract(): T
      requires Success?
    {
      value
    }
  }
}
