/** Values as the JavaScript sources see them: absent fields, network
    outcomes, and the `||` fallbacks the sources use for defaults. */
module Js {

  /** An optional field or value: `None` stands for `undefined`/`null`. */
  datatype Option<+T> = None | Some(value: T) {
    function GetOr(default: T): T {
      match this
      case Some(v) => v
      case None => default
    }
  }

  /** The outcome of one `fetch` followed by `response.json()`:
      `NetworkError` when the fetch rejects; otherwise the HTTP `ok` flag and
      the decoded body, `None` when the body is not JSON (`json()` throws). */
  datatype Reply<+T> = NetworkError | Response(ok: bool, json: Option<T>)

  /** The body of a reply, when one was received and decoded. */
  function Body<T>(r: Reply<T>): (b: Option<T>)
    ensures b.Some? <==> r.Response? && r.json.Some?
  {
    match r
    case NetworkError => None
    case Response(_, j) => j
  }

  /** A string is truthy in JavaScript exactly when it is present and non-empty. */
  predicate Truthy(s: Option<string>) {
    s.Some? && s.value != ""
  }

  /** `s || fallback` on an optional string. */
  function OrString(s: Option<string>, fallback: string): (r: string)
    ensures Truthy(s) ==> r == s.value
    ensures !Truthy(s) ==> r == fallback
  {
    if Truthy(s) then s.value else fallback
  }

  /** `x || fallback` on an optional number (0 is falsy; NaN is not modelled). */
  function OrReal(x: Option<real>, fallback: real): (r: real)
    ensures x.Some? && x.value != 0.0 ==> r == x.value
    ensures x.None? || x.value == 0.0 ==> r == fallback
  {
    if x.Some? && x.value != 0.0 then x.value else fallback
  }

  /** `n || fallback` on an optional integer. */
  function OrInt(n: Option<int>, fallback: int): (r: int)
    ensures n.Some? && n.value != 0 ==> r == n.value
    ensures n.None? || n.value == 0 ==> r == fallback
  {
    if n.Some? && n.value != 0 then n.value else fallback
  }

  /** `a?.[0]`: the first element of an optional array. */
  function Head<T>(s: seq<T>): (r: Option<T>)
    ensures r.Some? <==> |s| > 0
    ensures r.Some? ==> r.value == s[0]
  {
    if |s| > 0 then Some(s[0]) else None
  }

  /** `s.startsWith(p)`. */
  predicate StartsWith(s: string, p: string) {
    |p| <= |s| && s[..|p|] == p
  }

  /** `s.includes(t)`: `t` occurs in `s` at some position. */
  predicate Contains(s: string, t: string) {
    exists i :: 0 <= i <= |s| && StartsWith(s[i..], t)
  }
}
