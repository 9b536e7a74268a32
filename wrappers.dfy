/** Wrappers used across the model.
    Option stands for a JavaScript value that may be null/undefined;
    Result stands for a call that either returns a value or throws an Error
    with a message. */
module Wrappers {

  datatype Option<+T> = None | Some(value: T)

  datatype Result<+T> = Ok(value: T) | Err(message: string)

  /** JavaScript `o || d` on an optional string: an absent or empty string falls back. */
  function OrString(o: Option<string>, d: string): (r: string)
    ensures r == d <==> (o.None? || o.value == "" || o.value == d)
    ensures r != d ==> o == Some(r)
  {
    if o.Some? && o.value != "" then o.value else d
  }

  /** JavaScript `o || 0` on an optional number: an absent number falls back to 0
      (a present 0 is 0 either way). */
  function OrZero(o: Option<real>): (r: real)
    ensures o.None? ==> r == 0.0
    ensures o.Some? ==> r == o.value
  {
    if o.Some? then o.value else 0.0
  }
}
