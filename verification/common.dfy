/** Small helpers for the JavaScript value semantics the pages rely on:
    optional values (`undefined` / `null`), the `||` default operator on
    strings, and template-literal interpolation of a possibly-undefined id. */
module Common {

  /** A value that may be absent (`undefined` or `null` in the source). */
  datatype Option<+T> = None | Some(value: T)

  /** A string is falsy in JavaScript exactly when it is absent or empty. */
  predicate Falsy(v: Option<string>) {
    v.None? || v.value == ""
  }

  /** `v || default` for an optional string. */
  function OrDefault(v: Option<string>, default: string): (r: string)
    ensures Falsy(v) ==> r == default
    ensures !Falsy(v) ==> r == v.value
    ensures r == default || Some(r) == v
  {
    match v
    case None => default
    case Some(s) => if s == "" then default else s
  }

  /** `${v}` inside a template literal: an undefined value prints as "undefined". */
  function Interpolate(v: Option<string>): string
  {
    match v
    case None => "undefined"
    case Some(s) => s
  }

  /** The outcome of a request whose body is read: ok with the parsed body,
      or a failure (a response that is not ok, or a thrown error). */
  datatype Response<+T> = Ok(data: T) | Failed
}
