/** Outcomes of calls into collaborators the model cannot see (the generation
    service, the document index, the browser's fetch), and optional values. */
module Wrappers {

  /** A JavaScript value that may be `undefined`. */
  datatype Option<+T> = None | Some(value: T)
  {
    /** The destructuring default `= d`: the value if present, otherwise the
        default. */
    function GetOr(default: T): (r: T)
      ensures Some? ==> r == value
      ensures None? ==> r == default
    {
      match this
      case Some(v) => v
      case None => default
    }
  }

  /** The outcome of an awaited external call: the value it resolved to, or
      the message of the exception it threw. */
  datatype Outcome<+T> = Success(value: T) | Failure(message: string)
}
