/** Option and the error-carrying result shared by every builder. */
module Wrappers {

  datatype Option<T> = None | Some(value: T) {
    /** The value, or `default` when there is none. */
    function GetOr(default: T): T {
      if Some? then value else default
    }
  }

  /** The exceptions the builders raise to their callers. */
  datatype Error =
    | SessionNotProvided  // SessionNotProvidedError from get_session
    | ValueError          // "ValueError" raised by execute when no statement exists
    | ZeroDivision        // ZeroDivisionError of paginate when per_page is 0
    | AttributeError      // AttributeError of a call to a method the builder does not define

  /** The outcome of an operation that may raise. */
  datatype Result<T> = Ok(value: T) | Err(error: Error)
}
