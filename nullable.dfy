/** JavaScript's `null` / `undefined` for the optional values of the connection record. */
module Nullable {
  datatype Option<T> = None | Some(value: T)

  /** `a ?? b`: the left operand unless it is nullish (a present `0` is kept). */
  function Coalesce<T>(a: Option<T>, b: Option<T>): Option<T> {
    match a
    case Some(_) => a
    case None => b
  }
}
