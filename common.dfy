// Shared wrapper types used by every module of the recruitment model.
module Common {
  /** An optional value: Python's `None` or a present value. */
  datatype Option<T> = None | Some(value: T)

  /** The outcome of an operation that can be rejected with an error of type E. */
  datatype Result<T, E> = Ok(value: T) | Err(error: E)
  {
    predicate IsOk() { this.Ok? }
  }

  /** Python truthiness of an optional number: `None` and `0` are falsy. */
  predicate TruthyReal(x: Option<real>) { x.Some? && x.value != 0.0 }

  /** Python truthiness of an optional integer id. */
  predicate TruthyInt(x: Option<int>) { x.Some? && x.value != 0 }

  /** Python truthiness of an optional text: given and not empty. */
  predicate TruthyText(s: Option<string>) { s.Some? && |s.value| > 0 }
}
