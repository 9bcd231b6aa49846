/** Optional values and results, as in Rust's `Option` and panicking constructors. */
module Wrappers {

  /** An optional setting; `None` means "not set at this level". */
  datatype Option<+T> = None | Some(value: T) {

    /** `Option::or`: this value when present, otherwise `other`. */
    function Or(other: Option<T>): (r: Option<T>)
      ensures r.Some? <==> Some? || other.Some?
      ensures Some? ==> r == this
      ensures None? ==> r == other
    {
      if Some? then this else other
    }

    /** `Option::unwrap_or`: the present value, or `default`. */
    function UnwrapOr(default: T): (r: T)
      ensures Some? ==> r == value
      ensures None? ==> r == default
    {
      if Some? then value else default
    }
  }

  /** The outcome of a constructor that fails fast: `Failure` carries the panic message. */
  datatype Result<+T> = Success(value: T) | Failure(message: string)
}
