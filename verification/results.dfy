/** Two small sum types used throughout the model. `Option` stands for a
    JavaScript value that may be `undefined`; `Result` stands for a call that
    either returns a value or throws a configuration error, and supports the
    `:-` early-return operator. */
module Results {

  datatype Option<T> = None | Some(value: T) {

    /** The carried value, falling back to `fallback` for `None`. */
    function ValueOr(fallback: T): T {
      if Some? then value else fallback
    }
  }

  datatype Result<T, E> = Ok(value: T) | Err(error: E) {

    /** `:-` stops at an `Err`. */
    predicate IsFailure() {
      Err?
    }

    /** Re-types an `Err` for the caller of `:-`. */
    function PropagateFailure<U>(): Result<U, E>
      requires Err?
    {
      Err(error)
    }

    /** What `:-` binds for an `Ok`. */
    function Extract(): T
      requires Ok?
    {
      value
    }
  }
}
