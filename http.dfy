/** Abstract outcomes of the HTTP calls the clients make through axios.
    Every request either resolves with a payload or rejects with an error
    whose `response` (status code and `data.detail`) may be missing when the
    failure happened before any response arrived. */
module Http {

  datatype Option<+T> = None | Some(value: T)

  /** `error.response` of a rejected call: its status code and `data.detail`. */
  datatype ErrorResponse = ErrorResponse(status: int, detail: Option<string>)

  /** A rejected call; `response` is None for a transport failure. */
  datatype HttpError = HttpError(response: Option<ErrorResponse>)

  /** What one awaited call produced. */
  datatype Outcome<+T> = Ok(data: T) | Failed(error: HttpError)

  /** `error.response?.status === code` */
  predicate HasStatus(e: HttpError, code: int) {
    e.response.Some? && e.response.value.status == code
  }

  /** The server's `detail`, when there is a non-empty one. */
  predicate HasDetail(e: HttpError) {
    e.response.Some? && e.response.value.detail.Some? && e.response.value.detail.value != ""
  }

  /** `error.response?.data?.detail || fallback`: JavaScript's `||` also
      replaces an empty detail by the fallback. */
  function DetailOr(e: HttpError, fallback: string): (m: string)
    ensures HasDetail(e) ==> m == e.response.value.detail.value
    ensures !HasDetail(e) ==> m == fallback
    ensures fallback != "" ==> m != ""
  {
    match e.response
    case Some(ErrorResponse(_, Some(d))) => if d != "" then d else fallback
    case _ => fallback
  }

  /** `Authorization: Bearer ${token}` where a missing token prints as "null". */
  function BearerHeader(token: Option<string>): (h: string)
    ensures |h| >= 7 && h[..7] == "Bearer "
    ensures token.Some? ==> h[7..] == token.value
    ensures token.None? ==> h[7..] == "null"
  {
    "Bearer " + (if token.Some? then token.value else "null")
  }

  /** The header determines the stored token, except that a token spelled
      "null" cannot be told apart from a missing one. */
  lemma BearerHeaderInjective(t1: Option<string>, t2: Option<string>)
    requires BearerHeader(t1) == BearerHeader(t2)
    ensures t1 == t2 || (t1 in {None, Some("null")} && t2 in {None, Some("null")})
  {
    assert BearerHeader(t1)[7..] == BearerHeader(t2)[7..];
  }
}
