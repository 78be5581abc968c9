/** Optional values and error returns: the model's `null` / `undefined` and thrown errors. */
module Wrappers {
  datatype Option<T> = None | Some(value: T)
  {
    /** `a || b` in TypeScript, for values that are never falsy when present. */
    function OrElse(other: Option<T>): Option<T>
    {
      if Some? then this else other
    }

    /** `a || fallback` for a value that is never falsy when present. */
    function UnwrapOr(fallback: T): T
    {
      if Some? then value else fallback
    }
  }

  /** A value, or the message of the `Error` that was thrown instead. */
  datatype Result<T> = Ok(value: T) | Err(message: string)
}
