/** Optional values, macro-expansion errors and the Result type that carries them. */
module Results {

  datatype Option<T> = None | Some(value: T) {
    /** The value held, or `default` when there is none (Rust's `unwrap_or`). */
    function GetOr(default: T): T {
      if Some? then value else default
    }
  }

  /** How the expansion of one macro invocation fails.
      CompileError: a `syn::Error` handed back to the compiler as a diagnostic.
      Panic: an `expect`, `unwrap` or `unimplemented!` that aborts the expansion. */
  datatype Error = CompileError(message: string) | Panic(message: string)

  datatype Result<T> = Ok(value: T) | Err(error: Error) {
    predicate IsFailure() {
      Err?
    }

    function PropagateFailure<U>(): Result<U>
      requires Err?
    {
      Err(error)
    }

    function Extract(): T
      requires Ok?
    {
      value
    }
  }
}
