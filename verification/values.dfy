/**
  Result channels shared by the centroid and alignment models.

  - `Option` is the optional value that every public operation of the library
    returns.
  - `Outcome` separates a call that returns from one that panics (a failed
    assertion inside a library call ends the program instead of returning).
  - `NanOr` marks a floating-point quantity that the exact real model cannot
    represent: dividing an empty sum by an empty count (0/0) yields NaN in
    IEEE arithmetic, and everything computed from a NaN is NaN again.
 */
module Values {

  datatype Option<+T> = None | Some(value: T) {

    /** `unwrap_or`: the value, or `default` when there is none. */
    function GetOr(default: T): T {
      match this
      case Some(v) => v
      case None => default
    }
  }

  /** A call either returns a value or panics. */
  datatype Outcome<+T> = Returns(result: T) | Panics

  /** Either an ordinary (exact, real-valued) quantity or the NaN produced by 0/0. */
  datatype NanOr<+T> = Num(value: T) | NaN
}
