/** The three ways of finding the token in a request. */
module Extractors {
  import opened Wrappers
  import opened Http

  /** Which extractor a middleware instance uses, with its parameters. */
  datatype Extractor =
    | FromHeader(header: string, authScheme: string)
    | FromQuery(param: string)
    | FromCookie(name: string)

  /**
   * The token from a header of the form `<scheme><one character><token>`.
   * The header must be longer than the scheme plus one character and start
   * with the scheme; the character right after the scheme is dropped without
   * being looked at, so it need not be a space.
   */
  function TokenFromHeader(r: Request, header: string, authScheme: string): (res: Result<string, HttpError>)
    ensures var auth := HeaderGet(r, header);
      res.Success? <==> |auth| > |authScheme| + 1 && auth[..|authScheme|] == authScheme
    ensures var auth := HeaderGet(r, header);
      res.Success? ==>
        && res.value != []
        && |res.value| == |auth| - |authScheme| - 1
        && auth == authScheme + [auth[|authScheme|]] + res.value
    ensures res.Failure? ==> res.error == ErrTokenMissing
  {
    var auth := HeaderGet(r, header);
    var l := |authScheme|;
    if |auth| > l + 1 && auth[..l] == authScheme then
      assert auth == auth[..l] + [auth[l]] + auth[l + 1..];
      Success(auth[l + 1..])
    else
      Failure(ErrTokenMissing)
  }

  /**
   * Header extraction inverts "scheme, any one character, token": whatever
   * character separates them, the token comes back whole.
   */
  lemma HeaderTokenRoundTrip(r: Request, header: string, authScheme: string, separator: char, token: string)
    requires token != []
    requires HeaderGet(r, header) == authScheme + [separator] + token
    ensures TokenFromHeader(r, header, authScheme) == Success(token)
  {
    var auth := HeaderGet(r, header);
    assert auth[..|authScheme|] == authScheme;
    assert auth[|authScheme| + 1..] == token;
  }

  /**
   * Worked examples with the default scheme: a space-separated token, a token
   * glued to the scheme (its first character is lost), another scheme, and a
   * header holding nothing after the separator.
   */
  lemma HeaderExamples(r: Request)
    ensures HeaderGet(r, HeaderAuthorization) == "Bearer abc123" ==>
      TokenFromHeader(r, HeaderAuthorization, "Bearer") == Success("abc123")
    ensures HeaderGet(r, HeaderAuthorization) == "Bearerabc123" ==>
      TokenFromHeader(r, HeaderAuthorization, "Bearer") == Success("bc123")
    ensures HeaderGet(r, HeaderAuthorization) == "Basic abc123" ==>
      TokenFromHeader(r, HeaderAuthorization, "Bearer") == Failure(ErrTokenMissing)
    ensures HeaderGet(r, HeaderAuthorization) == "Bearer " ==>
      TokenFromHeader(r, HeaderAuthorization, "Bearer") == Failure(ErrTokenMissing)
  {
    var auth := HeaderGet(r, HeaderAuthorization);
    if auth == "Bearer abc123" {
      HeaderTokenRoundTrip(r, HeaderAuthorization, "Bearer", ' ', "abc123");
    } else if auth == "Bearerabc123" {
      HeaderTokenRoundTrip(r, HeaderAuthorization, "Bearer", 'a', "bc123");
    } else if auth == "Basic abc123" {
      assert auth[..6] != "Bearer" by { assert auth[1] == 'a' != 'e'; }
    }
  }

  /** The token from a query parameter; an absent or empty parameter is a missing token. */
  function TokenFromQuery(r: Request, param: string): (res: Result<string, HttpError>)
    ensures res.Success? <==> param in r.query && r.query[param] != ""
    ensures res.Success? ==> res.value == r.query[param]
    ensures res.Failure? ==> res.error == ErrTokenMissing
  {
    var token := QueryParam(r, param);
    if token == "" then Failure(ErrTokenMissing) else Success(token)
  }

  /**
   * The token from a cookie; only an absent cookie is a missing token, a
   * present one is returned as it is, even when its value is empty.
   */
  function TokenFromCookie(r: Request, name: string): (res: Result<string, HttpError>)
    ensures res.Success? <==> name in r.cookies
    ensures res.Success? ==> res.value == r.cookies[name]
    ensures res.Failure? ==> res.error == ErrTokenMissing
  {
    match Cookie(r, name)
    case None => Failure(ErrTokenMissing)
    case Some(value) => Success(value)
  }

  /** Run the chosen extractor; every extraction failure is the 400 missing-token error. */
  function Extract(x: Extractor, r: Request): (res: Result<string, HttpError>)
    ensures res.Failure? ==> res.error == ErrTokenMissing && res.error.code == StatusBadRequest
  {
    match x
    case FromHeader(header, authScheme) => TokenFromHeader(r, header, authScheme)
    case FromQuery(param) => TokenFromQuery(r, param)
    case FromCookie(name) => TokenFromCookie(r, name)
  }
}
