/** Optional values and results shared by every module of the model. */
module Wrappers {

  /** A value that may be absent: SQL NULL, a missing JSON field, JavaScript null/undefined. */
  datatype Option<+T> = None | Some(value: T)

  /** The outcome of a call that may throw: `Failure` carries the error's message. */
  datatype Result<+T> = Success(value: T) | Failure(message: string)

  /** JavaScript truthiness of an optional string: present and non-empty. */
  predicate Truthy(o: Option<string>)
  {
    o.Some? && o.value != ""
  }

  /** `x || null` for an optional string. */
  function OrNull(o: Option<string>): (r: Option<string>)
    ensures r.Some? <==> Truthy(o)
    ensures r.Some? ==> r == o
  {
    if Truthy(o) then o else None
  }

  /** `(x || "")` for an optional string. */
  function OrEmpty(o: Option<string>): (r: string)
    ensures o.Some? ==> r == o.value
    ensures o.None? ==> r == ""
  {
    if o.Some? then o.value else ""
  }

  /** `s || d` for a string: `s` unless it is empty. */
  function OrDefault(s: string, d: string): (r: string)
    ensures s != "" ==> r == s
    ensures s == "" ==> r == d
    ensures r == "" <==> s == "" && d == ""
  {
    if s == "" then d else s
  }
}
