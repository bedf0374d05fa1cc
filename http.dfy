/**
 * The parts of the web framework the middleware touches: an incoming request
 * seen as three name/value tables, and the HTTP error values it returns.
 */
module Http {
  import opened Wrappers

  /**
   * A request as the extractors see it: header values, query parameters and
   * cookies, each by name.
   */
  datatype Request = Request(
    headers: map<string, string>,
    query: map<string, string>,
    cookies: map<string, string>)

  const HeaderAuthorization: string := "Authorization"

  /** A header's value; an absent header reads as the empty string. */
  function HeaderGet(r: Request, name: string): (v: string)
    ensures name !in r.headers ==> v == ""
    ensures name in r.headers ==> v == r.headers[name]
  {
    if name in r.headers then r.headers[name] else ""
  }

  /** A query parameter's value; an absent parameter reads as the empty string. */
  function QueryParam(r: Request, name: string): (v: string)
    ensures name !in r.query ==> v == ""
    ensures name in r.query ==> v == r.query[name]
  {
    if name in r.query then r.query[name] else ""
  }

  /** A cookie's value, or nothing when the request carries no cookie of that name. */
  function Cookie(r: Request, name: string): (v: Option<string>)
    ensures v.Some? <==> name in r.cookies
    ensures v.Some? ==> v.value == r.cookies[name]
  {
    if name in r.cookies then Some(r.cookies[name]) else None
  }

  /**
   * An error the handler returns: a status code and a public message, with an
   * optional internal cause that is never shown to the client.
   */
  datatype HttpError = HttpError(code: int, message: string, internal: Option<string>)

  const StatusBadRequest: int := 400
  const StatusUnauthorized: int := 401

  /** The token is absent or malformed: 400. */
  const ErrTokenMissing: HttpError :=
    HttpError(StatusBadRequest, "Missing or malformed Firebase AuthID TOKEN", None)

  /** The token did not verify, or what it names could not be fetched: 401. */
  const ErrTokenInvalid: HttpError :=
    HttpError(StatusUnauthorized, "Invalid or expired Firebase AuthID TOKEN", None)

  /**
   * The 401 returned for every failure after extraction: whatever the cause,
   * the client sees the fixed code and message of ErrTokenInvalid; the cause
   * is kept as internal detail only.
   */
  function Unauthorized(cause: string): (e: HttpError)
    ensures e.code == StatusUnauthorized && e.message == ErrTokenInvalid.message
    ensures e.internal == Some(cause)
  {
    HttpError(ErrTokenInvalid.code, ErrTokenInvalid.message, Some(cause))
  }

  /** Two causes are indistinguishable to the client: only the internal detail differs. */
  lemma UnauthorizedHidesCause(a: string, b: string)
    ensures Unauthorized(a).(internal := None) == Unauthorized(b).(internal := None) == ErrTokenInvalid
    ensures Unauthorized(a) == Unauthorized(b) <==> a == b
  {
  }
}
