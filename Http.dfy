/** What one HTTP GET of a JSON API produced, and the retry arithmetic
    shared by the Ticketmaster clients. */
module Http {
  import opened Wrappers
  import opened Text
  import opened Json

  /** The GET raised (connection error, timeout), or answered with a status,
      an optional `Retry-After` header, a body text and the body decoded as
      JSON (`None` when it is not JSON). */
  datatype ApiOutcome =
    | ApiRaised(error: string)
    | ApiResponse(status: int, retryAfter: Option<string>, text: string, body: Option<Json>)

  function Pow2(n: nat): (r: nat)
    ensures r >= 1
  {
    if n == 0 then 1 else 2 * Pow2(n - 1)
  }

  /** Seconds slept before retrying after a 429 on attempt `attempt`: the
      `Retry-After` header when it is a delay in whole seconds (all digits,
      section 10.2.3 of RFC 9110), else 2^attempt. */
  function RetryDelay(retryAfter: Option<string>, attempt: nat): (r: nat)
    ensures retryAfter.Some? && IsDigits(retryAfter.value) ==> r == DigitsValue(retryAfter.value)
    ensures !(retryAfter.Some? && IsDigits(retryAfter.value)) ==> r == Pow2(attempt) && r >= 1
  {
    if retryAfter.Some? && IsDigits(retryAfter.value) then DigitsValue(retryAfter.value) else Pow2(attempt)
  }

  /** Python's `s[:n]`. */
  function Truncate(s: string, n: nat): (r: string)
    ensures |r| <= n && IsPrefix(r, s)
    ensures |s| <= n ==> r == s
  {
    if |s| <= n then s else s[..n]
  }

  /** `requests.Response.raise_for_status()` raises exactly for 4xx and 5xx. */
  predicate RaisesForStatus(status: int)
  {
    400 <= status < 600
  }
}
