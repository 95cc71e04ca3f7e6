/** Optional values and success-or-failure results shared by both price engines. */
module Common {

  /** A value that may be absent: Python's `None`, or a missing JSON field. */
  datatype Option<+T> = None | Some(value: T)

  /** The outcome of an operation that may raise: `Ok` or the error it raised. */
  datatype Result<+T, +E> = Ok(value: T) | Err(error: E)

  /** The kinds of failure the Python engine raises. */
  datatype Error =
    | OutOfRange                           // classify_wear's ValueError
    | UpstreamUnavailable                  // a transport failure or a non-2xx status
    | UpstreamRejected(marketName: string) // Steam answered success=false for this name
    | MalformedPrice(token: string)        // float() refused the extracted price token
    | NoPriceAvailable                     // no signal left after the precedence chain
    | NoWearPriced(item: string)           // every wear failed in cross-wear mode

  /** Python truthiness of an optional string: present and non-empty. */
  predicate Truthy(s: Option<string>) {
    s.Some? && s.value != ""
  }
}
