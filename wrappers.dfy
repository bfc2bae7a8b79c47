/** Small value wrappers standing for Rust's Option, Result and either::Either. */
module Wrappers {

  datatype Option<+T> = None | Some(value: T) {
    /** Rust's `Option::or`: this value if present, otherwise `other`. */
    function Or(other: Option<T>): Option<T> {
      if Some? then this else other
    }

    /** Rust's `Option::unwrap_or`. */
    function UnwrapOr(default: T): T {
      if Some? then value else default
    }
  }

  datatype Result<+T, +E> = Ok(value: T) | Err(error: E)

  datatype Either<+L, +R> = Left(left: L) | Right(right: R)
}
