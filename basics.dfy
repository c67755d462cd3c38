/**
 * Small shared vocabulary: optional values and the Python exceptions that can
 * escape a node or an edge function of the conversation graph.
 */
module Basics {

  datatype Option<+T> = None | Some(value: T) {
    function GetOr(default: T): T {
      match this
      case Some(v) => v
      case None => default
    }
  }

  /** The exceptions the modelled code can raise without catching them. */
  datatype Exception =
    | KeyError(key: string)          // `score["score"]` on a reply without that key
    | AttributeError(name: string)   // `.get` on a decoded JSON value that is not an object
    | TypeError(reason: string)      // comparing a non-number with a threshold, `replace` with None
    | ValueError(message: string)    // missing store configuration
    | UnmappedBranch(branch: string)  // an edge function returned a label its branch map lacks

  /** The value a Python call returns, or the exception it raises. */
  datatype Result<+T> = Ok(value: T) | Raised(error: Exception)

  /**
   * Which program runs where the code has a defect: the code as written, or
   * the code with that defect repaired (the stale namespace of
   * `retrieveInfura`, the unescaped user id of `retrieve_conversation_keys`).
   */
  datatype Build = AsWritten | Corrected
}
