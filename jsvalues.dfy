/**
 * JavaScript truthiness as the hooks use it to build backend payloads:
 * `x || null`, `x ? Number(x) : null` and `x || fallback`. An absent value
 * (`undefined` or `null`) is `None`.
 */
module JsValues {
  import opened Wrappers

  /** `s || null` for an optional text: absent and empty both become null. */
  function TextOrNull(s: Option<string>): (r: Option<string>)
    ensures r.Some? <==> s.Some? && s.value != ""
    ensures r.Some? ==> r == s
  {
    if s.Some? && s.value != "" then s else None
  }

  /** `n ? Number(n) : null` for an optional number: absent and 0 both become null. */
  function NumberOrNull(n: Option<int>): (r: Option<int>)
    ensures r.Some? <==> n.Some? && n.value != 0
    ensures r.Some? ==> r == n
  {
    if n.Some? && n.value != 0 then n else None
  }

  /** `s || fallback` for a text: the empty text is falsy. */
  function TextOr(s: string, fallback: string): (r: string)
    ensures s != "" ==> r == s
    ensures s == "" ==> r == fallback
  {
    if s != "" then s else fallback
  }
}
