/** ozpcenter/util/maybe.py: an immutable "maybe" value. Unlike Option, a
    Maybe that is not empty may still hold None, because the constructor
    takes the flag and the value separately. */
module Maybes {
  import opened Wrappers
  import opened Exceptions

  datatype Maybe<T> = Maybe(isEmpty: bool, stored: Option<T>)

  /** `Maybe.empty()`. */
  function Empty<T>(): (m: Maybe<T>)
    ensures m.isEmpty
    ensures Value(m).Err?
  {
    Maybe(true, None)
  }

  /** `Maybe.value_of(v)`: empty exactly when `v` is None. */
  function ValueOf<T>(v: Option<T>): (m: Maybe<T>)
    ensures m.isEmpty <==> v.None?
    ensures v.Some? ==> Value(m) == Ok(v)
  {
    if v.None? then Maybe(true, None) else Maybe(false, v)
  }

  /** The `value` property: raises ValueError on an empty Maybe, otherwise
      returns what was stored (possibly None). */
  function Value<T>(m: Maybe<T>): (r: Result<Option<T>, Exception>)
    ensures r.Err? <==> m.isEmpty
    ensures r.Err? ==> r.error == ValueError("Maybe is empty")
    ensures r.Ok? ==> r.value == m.stored
  {
    if m.isEmpty then Err(ValueError("Maybe is empty")) else Ok(m.stored)
  }
}
