/** JavaScript value conventions the bot relies on, spelled out once:
    a missing value (null or undefined) is None, `if (x)` is a truthiness
    test, and `x || fallback` picks the fallback for a falsy x. */
module Js {

  datatype Option<+T> = None | Some(value: T)

  /** A value or a thrown error, for the calls whose errors a caller catches. */
  datatype Result<+T> = Ok(value: T) | Err(message: string)

  /** A JavaScript number. NaN and the infinities are not modelled. */
  type Num = real

  /** `if (s)` for a string that may be null or undefined. */
  predicate Truthy(s: Option<string>)
  {
    s.Some? && s.value != ""
  }

  /** `if (n)` for a number that may be null or undefined. */
  predicate NumTruthy(n: Option<Num>)
  {
    n.Some? && n.value != 0.0
  }

  /** `s || fallback` */
  function OrElse(s: Option<string>, fallback: string): string
  {
    if Truthy(s) then s.value else fallback
  }

  /** `s || null` */
  function OrNull(s: Option<string>): Option<string>
  {
    if Truthy(s) then s else None
  }

  /** `n || null` */
  function NumOrNull(n: Option<Num>): Option<Num>
  {
    if NumTruthy(n) then n else None
  }

  /** The property name that `obj[k]` looks up when k is a string or null. */
  function PropertyName(k: Option<string>): string
  {
    if k.Some? then k.value else "null"
  }

  /** The currency the fetchers and the alert builder fall back to when none is given. */
  const DefaultCurrency := "GBP"
}
