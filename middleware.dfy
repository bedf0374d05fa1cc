/**
 * The Firebase authentication middleware: construction from a configuration,
 * and the per-request pipeline (skip check, token extraction, verification,
 * context writes, optional roles check, optional profile fetch, then either
 * the next handler or an error).
 */
module FirebaseAuth {
  import opened Wrappers
  import opened Http
  import opened Strings
  import opened Extractors
  import opened AuthConfig

  /**
   * What verification returns: the subject id, the "email" entries of the
   * token's identities, and the token as serialized JSON.
   */
  datatype Token = Token(uid: string, emails: seq<string>, json: string)

  /**
   * The remote identity provider, as two oracles: token verification, and
   * fetching a user profile (as serialized JSON) by subject id. A failure
   * carries its cause.
   */
  datatype Client = Client(
    verifyIDToken: string -> Result<Token, string>,
    getUser: string -> Result<string, string>)

  /** A value stored in the request context: a string or a list of roles. */
  datatype Value = Str(s: string) | List(items: seq<string>)

  const ContextKeyRoles: string := "roles"
  const ProviderKey: string := "auth-provider"
  const ProviderTag: string := "firebase"
  const HeaderGetUser: string := "X-GetUser"
  const NoRolesFound: string := "no roles found"

  /** A constructed middleware: its defaulted configuration, extractor and client. */
  datatype Middleware = Middleware(config: Config, extractor: Extractor, client: Client)

  /** Why construction aborts. */
  datatype Panic =
    | LookupWithoutSeparator  // the locator has no ':' and so no name part
    | MissingCredentialJSON   // no service account credentials were given

  /**
   * Builds a middleware: unset fields take their defaults one by one, the
   * extractor is chosen from the locator, and construction aborts when the
   * locator has no name part or the credentials are empty (checked in that
   * order).
   */
  method WithConfig(config: Config, client: Client) returns (r: Result<Middleware, Panic>)
    ensures var d := WithDefaults(config);
      && (':' !in d.tokenLookup ==> r == Failure(LookupWithoutSeparator))
      && (':' in d.tokenLookup && d.credentialJSON == [] ==> r == Failure(MissingCredentialJSON))
      && (':' in d.tokenLookup && d.credentialJSON != [] ==>
            r == Success(Middleware(d, SelectExtractor(d.tokenLookup, d.authScheme), client)))
    ensures r.Success? ==> Complete(r.value.config)
  {
    var c := config;
    if c.skipper.None? {
      c := c.(skipper := DefaultConfig.skipper);
    }
    if c.contextIDKey == "" {
      c := c.(contextIDKey := DefaultConfig.contextIDKey);
    }
    if c.contextUserIDKey == "" {
      c := c.(contextUserIDKey := DefaultConfig.contextUserIDKey);
    }
    if c.contextUserKey == "" {
      c := c.(contextUserKey := DefaultConfig.contextUserKey);
    }
    if c.tokenLookup == "" {
      c := c.(tokenLookup := DefaultConfig.tokenLookup);
    }
    if c.authScheme == "" {
      c := c.(authScheme := DefaultConfig.authScheme);
    }
    assert c == WithDefaults(config);

    if ':' !in c.tokenLookup {
      return Failure(LookupWithoutSeparator);
    }
    var extractor := SelectExtractor(c.tokenLookup, c.authScheme);
    if |c.credentialJSON| == 0 {
      return Failure(MissingCredentialJSON);
    }
    return Success(Middleware(c, extractor, client));
  }

  /**
   * The middleware with the default configuration: since that configuration
   * carries no credentials, construction always aborts.
   */
  method FirebaseAuth(client: Client) returns (r: Result<Middleware, Panic>)
    ensures r == Failure(MissingCredentialJSON)
  {
    DefaultConfigComplete();
    r := WithConfig(DefaultConfig, client);
  }

  // ---------------------------------------------------------------------
  // The per-request pipeline, as a specification.

  /** One `Set` on the request context. */
  datatype Write = Write(key: string, value: Value)

  /**
   * How a request ends: by delegating to the next handler (exactly once, its
   * result returned unchanged) or by returning an error without calling it.
   */
  datatype Response = Delegated | Rejected(error: HttpError)

  /** The context writes a request causes, in order, and how it ends. */
  datatype Plan = Plan(writes: seq<Write>, response: Response)

  /** The context after the writes, applied in order; a later write to a key wins. */
  function Apply(values: map<string, Value>, writes: seq<Write>): map<string, Value>
    decreases |writes|
  {
    if writes == [] then values
    else
      var last := writes[|writes| - 1];
      Apply(values, writes[..|writes| - 1])[last.key := last.value]
  }

  /** The value of the last write to `key`, if any. */
  function LastWrite(writes: seq<Write>, key: string): Option<Value>
    decreases |writes|
  {
    if writes == [] then None
    else if writes[|writes| - 1].key == key then Some(writes[|writes| - 1].value)
    else LastWrite(writes[..|writes| - 1], key)
  }

  /** A context entry, if present. */
  function Lookup(values: map<string, Value>, key: string): Option<Value>
  {
    if key in values then Some(values[key]) else None
  }

  /** The keys the writes touch. */
  function WrittenKeys(writes: seq<Write>): set<string>
  {
    set w | w in writes :: w.key
  }

  /** The writes made once a token has verified: the first email, the token, the provider tag. */
  function ClaimWrites(config: Config, tok: Token): seq<Write>
  {
    (if |tok.emails| > 0 then [Write(config.contextUserIDKey, Str(tok.emails[0]))] else [])
    + [Write(config.contextIDKey, Str(tok.json)), Write(ProviderKey, Str(ProviderTag))]
  }

  /** The roles configured lookup yields; it is asked with the key name, not an email. */
  function RolesFor(config: Config): seq<string>
    requires config.getRoles.Some?
  {
    config.getRoles.value(config.contextUserIDKey)
  }

  /** The writes once the roles check has passed: the claims, then the roles if looked up. */
  function GrantedWrites(config: Config, tok: Token): seq<Write>
  {
    ClaimWrites(config, tok) +
      (if config.getRoles.Some? then [Write(ContextKeyRoles, List(RolesFor(config)))] else [])
  }

  /** The optional profile fetch, after `done` have been written. */
  function FetchProfile(m: Middleware, r: Request, tok: Token, done: seq<Write>): Plan
  {
    if HeaderGet(r, HeaderGetUser) != "true" then Plan(done, Delegated)
    else match m.client.getUser(tok.uid)
      case Failure(cause) => Plan(done, Rejected(Unauthorized(cause)))
      case Success(user) => Plan(done + [Write(m.config.contextUserKey, Str(user))], Delegated)
  }

  /** What happens once the token has verified: claim writes, roles check, profile fetch. */
  function Authorize(m: Middleware, r: Request, tok: Token): Plan
  {
    if m.config.getRoles.Some? && RolesFor(m.config) == [] then
      Plan(ClaimWrites(m.config, tok), Rejected(Unauthorized(NoRolesFound)))
    else
      FetchProfile(m, r, tok, GrantedWrites(m.config, tok))
  }

  /**
   * What the middleware does with one request. A skipped request goes
   * straight on; otherwise at most five entries are written, and an error is
   * always a 400 or a 401.
   */
  function Process(m: Middleware, r: Request): (p: Plan)
    requires m.config.skipper.Some?
    ensures m.config.skipper.value(r) ==> p == Plan([], Delegated)
    ensures |p.writes| <= 5
    ensures p.response.Rejected? ==>
      p.response.error.code == StatusBadRequest || p.response.error.code == StatusUnauthorized
  {
    if m.config.skipper.value(r) then Plan([], Delegated)
    else match Extract(m.extractor, r)
      case Failure(e) => Plan([], Rejected(e))
      case Success(auth) =>
        match m.client.verifyIDToken(auth)
        case Failure(cause) => Plan([], Rejected(Unauthorized(cause)))
        case Success(tok) => Authorize(m, r, tok)
  }

  // ---------------------------------------------------------------------
  // The request context and the handler that runs the pipeline on it.

  /** The framework's per-request context: the request and a mutable key/value store. */
  class Context {
    const request: Request
    var values: map<string, Value>

    constructor (request: Request, values: map<string, Value>)
      ensures this.request == request && this.values == values
    {
      this.request := request;
      this.values := values;
    }

    /** Stores `value` under `key`, replacing any earlier entry. */
    method Set(key: string, value: Value)
      modifies this
      ensures values == old(values)[key := value]
    {
      values := values[key := value];
    }

    /** The entry under `key`, or nothing when there is none. */
    function Get(key: string): (v: Option<Value>)
      reads this
      ensures v.Some? <==> key in values
      ensures v.Some? ==> v.value == values[key]
    {
      Lookup(values, key)
    }
  }

  /**
   * Handles one request: performs the context writes of the pipeline one at a
   * time, stopping at the first failure, and leaves the context and the
   * response exactly as the specification prescribes.
   */
  method Handle(m: Middleware, c: Context) returns (r: Response)
    requires m.config.skipper.Some?
    modifies c
    ensures r == Process(m, c.request).response
    ensures c.values == Apply(old(c.values), Process(m, c.request).writes)
  {
    var config := m.config;
    if config.skipper.value(c.request) {
      return Delegated;
    }

    var extracted := Extract(m.extractor, c.request);
    if extracted.Failure? {
      return Rejected(extracted.error);
    }
    var auth := extracted.value;

    var verified := m.client.verifyIDToken(auth);
    if verified.Failure? {
      return Rejected(Unauthorized(verified.error));
    }
    var tok := verified.value;

    ghost var done: seq<Write> := [];
    if |tok.emails| > 0 {
      c.Set(config.contextUserIDKey, Str(tok.emails[0]));
      done := done + [Write(config.contextUserIDKey, Str(tok.emails[0]))];
      assert c.values == Apply(old(c.values), done);
    }
    c.Set(config.contextIDKey, Str(tok.json));
    done := done + [Write(config.contextIDKey, Str(tok.json))];
    assert c.values == Apply(old(c.values), done);
    c.Set(ProviderKey, Str(ProviderTag));
    done := done + [Write(ProviderKey, Str(ProviderTag))];
    assert c.values == Apply(old(c.values), done);
    assert done == ClaimWrites(config, tok);

    if config.getRoles.Some? {
      var roles := config.getRoles.value(config.contextUserIDKey);
      if |roles| == 0 {
        return Rejected(Unauthorized(NoRolesFound));
      }
      c.Set(ContextKeyRoles, List(roles));
      done := done + [Write(ContextKeyRoles, List(roles))];
      assert c.values == Apply(old(c.values), done);
    }

    assert done == GrantedWrites(config, tok);

    var wantUser := HeaderGet(c.request, HeaderGetUser);
    if wantUser == "true" {
      var user := m.client.getUser(tok.uid);
      if user.Failure? {
        return Rejected(Unauthorized(user.error));
      }
      c.Set(config.contextUserKey, Str(user.value));
      done := done + [Write(config.contextUserKey, Str(user.value))];
      assert c.values == Apply(old(c.values), done);
    }
    return Delegated;
  }

  /**
   * Go's `%v` rendering of a stored value: a string as is, a list as its
   * items separated by single spaces between brackets, `[a b c]`.
   */
  function Format(v: Value): (s: string)
    ensures v.Str? ==> s == v.s
    ensures v.List? ==> |s| >= 2 && s[0] == '[' && s[|s| - 1] == ']'
    ensures v.List? && v.items != [] ==> s[1..|s| - 1] == Join(v.items, ' ')
    ensures v.List? && v.items == [] ==> s == "[]"
  {
    match v
    case Str(s) => s
    case List(items) => "[" + (if items == [] then "" else Join(items, ' ')) + "]"
  }

  /** A context entry rendered as a string; an absent entry reads as "". */
  function GetContextValue(c: Context, key: string): (s: string)
    reads c
    ensures key !in c.values ==> s == ""
    ensures key in c.values && c.values[key].Str? ==> s == c.values[key].s
    ensures key in c.values && c.values[key].List? ==> |s| >= 2 && s[0] == '[' && s[|s| - 1] == ']'
    ensures key in c.values ==> s == Format(c.values[key])
  {
    match c.Get(key)
    case None => ""
    case Some(v) => Format(v)
  }

  /**
   * A rendered list of roles can be read back: between the brackets, the
   * pieces separated by spaces are the roles, provided no role contains a
   * space.
   */
  lemma FormatListRoundTrip(items: seq<string>)
    requires items != []
    requires forall i :: 0 <= i < |items| ==> ' ' !in items[i]
    ensures var s := Format(List(items));
      |s| >= 2 && Split(s[1..|s| - 1], ' ') == items
  {
    SplitJoin(items, ' ');
  }
}
