/**
 * The middleware's configuration, its documented defaults, and the choice of
 * extractor from the token-lookup locator.
 */
module AuthConfig {
  import opened Wrappers
  import opened Http
  import opened Strings
  import opened Extractors

  /**
   * A middleware configuration. The skip predicate and the roles lookup may be
   * absent (nil); the key names, locator and scheme may be empty; the service
   * account credentials are raw bytes.
   */
  datatype Config = Config(
    skipper: Option<Request -> bool>,
    contextIDKey: string,
    contextUserKey: string,
    contextUserIDKey: string,
    getRoles: Option<string -> seq<string>>,
    tokenLookup: string,
    authScheme: string,
    credentialJSON: seq<bv8>)

  /** The framework's default skip predicate: never skip. */
  function DefaultSkipper(r: Request): (skip: bool)
    ensures !skip
  {
    false
  }

  /** The default configuration; note that it carries no credentials. */
  const DefaultConfig: Config := Config(
    Some(DefaultSkipper),
    "id-key",
    "user",
    "userID",
    None,
    "header:" + HeaderAuthorization,
    "Bearer",
    [])

  /** Every field that has a default is set. */
  predicate Complete(c: Config)
  {
    && c.skipper.Some?
    && c.contextIDKey != ""
    && c.contextUserKey != ""
    && c.contextUserIDKey != ""
    && c.tokenLookup != ""
    && c.authScheme != ""
  }

  /**
   * The configuration with each unset field replaced by its default: a nil
   * skipper or an empty key name, locator or scheme takes the value from
   * DefaultConfig, and every field that is set, as well as the roles lookup
   * and the credentials, is kept.
   */
  function WithDefaults(c: Config): (d: Config)
    ensures Complete(d)
    ensures c.skipper.Some? ==> d.skipper == c.skipper
    ensures c.skipper.None? ==> d.skipper == DefaultConfig.skipper
    ensures d.contextIDKey == if c.contextIDKey == "" then "id-key" else c.contextIDKey
    ensures d.contextUserKey == if c.contextUserKey == "" then "user" else c.contextUserKey
    ensures d.contextUserIDKey == if c.contextUserIDKey == "" then "userID" else c.contextUserIDKey
    ensures d.tokenLookup == if c.tokenLookup == "" then "header:Authorization" else c.tokenLookup
    ensures d.authScheme == if c.authScheme == "" then "Bearer" else c.authScheme
    ensures d.getRoles == c.getRoles && d.credentialJSON == c.credentialJSON
  {
    c.(
      skipper := if c.skipper.None? then DefaultConfig.skipper else c.skipper,
      contextIDKey := if c.contextIDKey == "" then DefaultConfig.contextIDKey else c.contextIDKey,
      contextUserKey := if c.contextUserKey == "" then DefaultConfig.contextUserKey else c.contextUserKey,
      contextUserIDKey := if c.contextUserIDKey == "" then DefaultConfig.contextUserIDKey else c.contextUserIDKey,
      tokenLookup := if c.tokenLookup == "" then DefaultConfig.tokenLookup else c.tokenLookup,
      authScheme := if c.authScheme == "" then DefaultConfig.authScheme else c.authScheme)
  }

  /** A configuration with every defaulted field set is left as it is. */
  lemma CompleteIsFixedPoint(c: Config)
    requires Complete(c)
    ensures WithDefaults(c) == c
  {
  }

  /** Defaulting twice is defaulting once. */
  lemma DefaultsIdempotent(c: Config)
    ensures WithDefaults(WithDefaults(c)) == WithDefaults(c)
  {
    CompleteIsFixedPoint(WithDefaults(c));
  }

  /** The default configuration is complete, so defaulting it changes nothing. */
  lemma DefaultConfigComplete()
    ensures Complete(DefaultConfig) && WithDefaults(DefaultConfig) == DefaultConfig
    ensures ':' in DefaultConfig.tokenLookup && DefaultConfig.credentialJSON == []
  {
    assert DefaultConfig.tokenLookup[6] == ':';
  }

  /**
   * The extractor named by a locator: the locator is split on ':'; source
   * "query" or "cookie" picks that extractor and any other source falls back
   * to the header extractor with the configured scheme. The name is the second
   * piece. A locator without ':' has no second piece, which the source does
   * not survive, so it is excluded here.
   */
  function SelectExtractor(tokenLookup: string, authScheme: string): (x: Extractor)
    requires ':' in tokenLookup
    ensures var parts := Split(tokenLookup, ':');
      && |parts| >= 2
      && (parts[0] == "query" ==> x == FromQuery(parts[1]))
      && (parts[0] == "cookie" ==> x == FromCookie(parts[1]))
      && (parts[0] != "query" && parts[0] != "cookie" ==> x == FromHeader(parts[1], authScheme))
  {
    SplitHasSecondPiece(tokenLookup, ':');
    var parts := Split(tokenLookup, ':');
    match parts[0]
    case "query" => FromQuery(parts[1])
    case "cookie" => FromCookie(parts[1])
    case _ => FromHeader(parts[1], authScheme)
  }

  /**
   * The extractor for a locator spelled `<source>:<name>[:<anything>]`: the
   * source and the name are the text before the first ':' and between the
   * first and the second; whatever follows a second ':' is ignored.
   */
  lemma {:induction false} SelectExtractorOf(source: string, name: string, tail: Option<string>, authScheme: string)
    requires ':' !in source && ':' !in name
    ensures var lookup := source + ":" + name + (if tail.Some? then ":" + tail.value else "");
      SelectExtractor(lookup, authScheme) ==
        if source == "query" then FromQuery(name)
        else if source == "cookie" then FromCookie(name)
        else FromHeader(name, authScheme)
  {
    var rest := name + (if tail.Some? then ":" + tail.value else "");
    var lookup := source + ":" + name + (if tail.Some? then ":" + tail.value else "");
    assert lookup == source + [':'] + rest;
    SplitAtFirst(source, ':', rest);
    if tail.Some? {
      assert rest == name + [':'] + tail.value;
      SplitAtFirst(name, ':', tail.value);
    } else {
      assert rest == name;
      SplitWithoutSeparator(name, ':');
    }
  }

  /** The default locator reads the token from the Authorization header. */
  lemma DefaultLookupIsAuthorizationHeader()
    ensures ':' in DefaultConfig.tokenLookup
    ensures SelectExtractor(DefaultConfig.tokenLookup, "Bearer") == FromHeader(HeaderAuthorization, "Bearer")
  {
    SelectExtractorOf("header", HeaderAuthorization, None, "Bearer");
    assert DefaultConfig.tokenLookup == "header" + ":" + HeaderAuthorization + "";
  }
}
