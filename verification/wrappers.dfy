/** Option and Result types shared by every module of the model.
    A Python exception is modelled as an `Err` carrying the exception's class. */
module Wrappers {

  datatype Option<+T> = None | Some(value: T) {
    function GetOr(default: T): T {
      match this
      case Some(v) => v
      case None => default
    }
  }

  /** The Python exception classes the modelled code can raise, plus the
      failures of collaborators that are not part of the model (the database
      transport, the LLM runner). */
  datatype PyError =
    | TypeError
    | ValueError
    | AttributeError
    | KeyError
    | IndexError
    | NameError
    | OverflowError
    | ImportError
    | ValidationError  // a pydantic model rejected a field
    | TransportError   // the database client raised
    | AgentError       // the LLM runner raised

  datatype Result<+T> = Ok(value: T) | Err(error: PyError)
}
