/** Values shared by every part of the bot: optional values, results of
    calls that may throw, JavaScript dates and the time constants. */
module Common {

  /** `undefined` / `null` (None) or a present value. */
  datatype Option<+T> = None | Some(value: T)

  /** What an async call settles to: a resolved value or a rejection
      carrying the error message. */
  datatype Result<+T> = Ok(value: T) | Err(error: string)

  /** A call that resolves to nothing (`Promise<void>`), or rejects. */
  datatype Outcome = Pass | Fail(error: string)

  /** A JavaScript `Date`: a valid instant in milliseconds since the epoch,
      or the invalid date whose time value is NaN. */
  datatype JsDate = At(ms: int) | InvalidDate

  /** JavaScript's `a < b` on two dates: both are converted to their time
      values, and a comparison with NaN is false. */
  predicate Before(a: JsDate, b: JsDate)
  {
    a.At? && b.At? && a.ms < b.ms
  }

  /** JavaScript truthiness of an optional string: present and non-empty. */
  predicate Truthy(s: Option<string>)
  {
    s.Some? && s.value != ""
  }

  /** `s || fallback` for an optional string. */
  function OrElse(s: Option<string>, fallback: string): (r: string)
    ensures Truthy(s) ==> r == s.value
    ensures !Truthy(s) ==> r == fallback
  {
    if Truthy(s) then s.value else fallback
  }

  /** `s || ""`: the string itself, or the empty string when it is absent. */
  function OrEmpty(s: Option<string>): (r: string)
    ensures s.Some? ==> r == s.value
    ensures s.None? ==> r == ""
  {
    OrElse(s, "")
  }

  const MsPerHour: int := 60 * 60 * 1000
  /** Days are taken to be of fixed length (no daylight-saving shifts). */
  const MsPerDay: int := 24 * MsPerHour
}
