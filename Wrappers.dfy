/** Option and Result, the two failure-carrying value types the model uses
    in place of Python's None and exceptions. */
module Wrappers {

  datatype Option<+T> = None | Some(value: T)

  datatype Result<+T, +E> = Ok(value: T) | Err(error: E)

  /** The text of an optional string, with None read as "" (Python's `x or ""`). */
  function OrEmpty(o: Option<string>): string
  {
    if o.Some? then o.value else ""
  }
}
