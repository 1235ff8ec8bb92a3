/** Wrappers and small helpers shared by every module of the model. */
module Basics {

  /** A value that may be missing: the source's `undefined` / `null`. */
  datatype Option<+T> = None | Some(value: T) {

    /** The wrapped value, or `default` when missing. */
    function GetOr(default: T): T {
      match this
      case Some(v) => v
      case None => default
    }
  }

  /** The outcome of an operation that can fail with an error of type `E`. */
  datatype Result<+R, +E> = Ok(value: R) | Err(error: E)

  /**
   * A value read from browser storage and passed through `JSON.parse`: the
   * source's presence test fails (`Absent`), the text does not parse or the
   * value read from it throws (`Unparseable`), or it parses to a value.
   */
  datatype Stored<+T> = Absent | Unparseable | Parsed(value: T)

  function Min(a: int, b: int): int { if a <= b then a else b }

  function MaxReal(a: real, b: real): real { if a >= b then a else b }

  function MinReal(a: real, b: real): real { if a <= b then a else b }
}
