/** Wrappers shared by the whole model: Java's null-able references become
    Option, and exceptions that propagate to the caller become Result or
    Outcome carrying the exception kind. */
module Base {

  datatype Option<+T> = None | Some(value: T) {
    /** The stored value, or `default` when absent (Java: `x == null ? d : x`). */
    function GetOr(default: T): T {
      match this
      case Some(v) => v
      case None => default
    }
  }

  /** The kinds of exception the core can raise or propagate. */
  datatype Error =
    | ServerRequestFailed        // listAgents answered with a non-200 code
    | NumberFormat               // Integer.parseInt rejected a settings string
    | ListingFailed              // the provider's prefix listing threw
    | ProviderCallFailed(id: string)  // a provider call about one server threw
    | InstanceNotFound(id: string)    // the provider has no server with this id

  datatype Result<+T> = Success(value: T) | Failure(error: Error)

  datatype Outcome = Pass | Fail(error: Error)
}
