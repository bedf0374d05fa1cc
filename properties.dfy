/**
 * What the per-request pipeline guarantees: which outcome each step leads to,
 * which context entries it leaves behind, and which oracle answers it depends on.
 */
module FirebaseAuthProperties {
  import opened Wrappers
  import opened Http
  import opened Extractors
  import opened AuthConfig
  import opened FirebaseAuth

  // ---------------------------------------------------------------------
  // Writing to the context.

  /** After the writes, an entry holds its last written value, or what it held before. */
  lemma {:induction false} ApplyLookup(values: map<string, Value>, writes: seq<Write>, key: string)
    ensures Lookup(Apply(values, writes), key) ==
      if LastWrite(writes, key).Some? then LastWrite(writes, key) else Lookup(values, key)
    decreases |writes|
  {
    if writes != [] {
      ApplyLookup(values, writes[..|writes| - 1], key);
    }
  }

  /** Writes to other keys do not change which value a key was last given. */
  lemma {:induction false} LastWriteSkips(writes: seq<Write>, tail: seq<Write>, key: string)
    requires forall w :: w in tail ==> w.key != key
    ensures LastWrite(writes + tail, key) == LastWrite(writes, key)
    decreases |tail|
  {
    if tail != [] {
      var init := tail[..|tail| - 1];
      var last := tail[|tail| - 1];
      assert last in tail;
      assert writes + tail == (writes + init) + [last];
      LastWriteSnoc(writes + init, last, key);
      LastWriteSkips(writes, init, key);
    } else {
      assert writes + tail == writes;
    }
  }

  /** The last write to a key is the final write if it is to that key, else the earlier last one. */
  lemma LastWriteSnoc(writes: seq<Write>, w: Write, key: string)
    ensures LastWrite(writes + [w], key) == if w.key == key then Some(w.value) else LastWrite(writes, key)
  {
    assert (writes + [w])[..|writes|] == writes;
  }

  // ---------------------------------------------------------------------
  // The early exits.

  /** A skipped request goes straight to the next handler and the context is untouched. */
  lemma SkippedRequestUntouched(m: Middleware, r: Request, values: map<string, Value>)
    requires m.config.skipper.Some? && m.config.skipper.value(r)
    ensures Process(m, r).response == Delegated
    ensures Apply(values, Process(m, r).writes) == values
  {
  }

  /** A failed extraction returns the 400 missing-token error, writes nothing and does not call next. */
  lemma ExtractionFailureStops(m: Middleware, r: Request)
    requires m.config.skipper.Some? && !m.config.skipper.value(r)
    requires Extract(m.extractor, r).Failure?
    ensures Process(m, r) == Plan([], Rejected(ErrTokenMissing))
  {
  }

  /**
   * A token the provider rejects gives a 401 with the fixed public message and
   * the cause only as internal detail; nothing is written and next is not called.
   */
  lemma VerificationFailureStops(m: Middleware, r: Request, auth: string, cause: string)
    requires m.config.skipper.Some? && !m.config.skipper.value(r)
    requires Extract(m.extractor, r) == Success(auth)
    requires m.client.verifyIDToken(auth) == Failure(cause)
    ensures Process(m, r) == Plan([], Rejected(Unauthorized(cause)))
    ensures Process(m, r).response.error.code == StatusUnauthorized
    ensures Process(m, r).response.error.message == ErrTokenInvalid.message
  {
  }

  /** The token was extracted and verified, yielding `tok`. */
  predicate Verified(m: Middleware, r: Request, tok: Token)
    requires m.config.skipper.Some?
  {
    && !m.config.skipper.value(r)
    && Extract(m.extractor, r).Success?
    && m.client.verifyIDToken(Extract(m.extractor, r).value) == Success(tok)
  }

  /**
   * The context is written to exactly when a token verified, and then the
   * provider tag is always among the writes.
   */
  lemma {:induction false} WritesOnlyAfterVerification(m: Middleware, r: Request)
    requires m.config.skipper.Some?
    ensures var p := Process(m, r);
      var verified := !m.config.skipper.value(r) && Extract(m.extractor, r).Success?
        && m.client.verifyIDToken(Extract(m.extractor, r).value).Success?;
      && (p.writes != [] <==> verified)
      && (ProviderKey in WrittenKeys(p.writes) <==> verified)
  {
    var p := Process(m, r);
    if !m.config.skipper.value(r) && Extract(m.extractor, r).Success? {
      var auth := Extract(m.extractor, r).value;
      if m.client.verifyIDToken(auth).Success? {
        var tok := m.client.verifyIDToken(auth).value;
        var claims := ClaimWrites(m.config, tok);
        assert p.writes[..|claims|] == claims;
        assert Write(ProviderKey, Str(ProviderTag)) in p.writes by {
          assert p.writes[|claims| - 1] == Write(ProviderKey, Str(ProviderTag));
        }
      }
    }
  }

  /**
   * Every error is one of two: the 400 missing-token error, with nothing
   * written, or a 401 with the fixed public message and an internal cause.
   */
  lemma RejectionShapes(m: Middleware, r: Request)
    requires m.config.skipper.Some?
    ensures var p := Process(m, r);
      p.response.Rejected? ==>
        || (p.response.error == ErrTokenMissing && p.writes == [])
        || (p.response.error.code == StatusUnauthorized
            && p.response.error.message == ErrTokenInvalid.message
            && p.response.error.internal.Some?)
  {
  }

  /**
   * The next handler runs (once) exactly when the request is skipped or every
   * step passes: extraction, verification, the roles check when configured,
   * and the profile fetch when asked for.
   */
  lemma DelegatesExactlyWhenEveryStepPasses(m: Middleware, r: Request)
    requires m.config.skipper.Some?
    ensures Process(m, r).response.Delegated? <==>
      || m.config.skipper.value(r)
      || (&& Extract(m.extractor, r).Success?
          && m.client.verifyIDToken(Extract(m.extractor, r).value).Success?
          && (m.config.getRoles.Some? ==> RolesFor(m.config) != [])
          && (HeaderGet(r, HeaderGetUser) == "true" ==>
                m.client.getUser(m.client.verifyIDToken(Extract(m.extractor, r).value).value.uid).Success?))
  {
  }

  // ---------------------------------------------------------------------
  // What a verified request leaves in the context.

  /** The five keys the pipeline may write are pairwise different. */
  predicate DistinctKeys(config: Config)
  {
    var keys := [config.contextUserIDKey, config.contextIDKey, ProviderKey, ContextKeyRoles, config.contextUserKey];
    forall i, j :: 0 <= i < j < |keys| ==> keys[i] != keys[j]
  }

  /**
   * The default key names do not collide, so every key-name condition in the
   * lemmas below holds for the default configuration.
   */
  lemma DefaultKeysDistinct()
    ensures DistinctKeys(DefaultConfig)
  {
  }

  /** Once the token verifies, the rest of the request is decided by Authorize. */
  lemma ProcessVerified(m: Middleware, r: Request, tok: Token)
    requires m.config.skipper.Some? && Verified(m, r, tok)
    ensures Process(m, r) == Authorize(m, r, tok)
  {
  }

  /**
   * A verified request's writes are the claim writes followed only by a
   * roles write and a profile write, whichever happen.
   */
  lemma WritesAfterClaims(m: Middleware, r: Request, tok: Token)
    requires m.config.skipper.Some? && Verified(m, r, tok)
    ensures var writes := Process(m, r).writes;
      var claims := ClaimWrites(m.config, tok);
      && |writes| >= |claims|
      && writes == claims + writes[|claims|..]
      && forall w :: w in writes[|claims|..] ==> w.key == ContextKeyRoles || w.key == m.config.contextUserKey
  {
    ProcessVerified(m, r, tok);
    var claims := ClaimWrites(m.config, tok);
    var granted := GrantedWrites(m.config, tok);
    var writes := Process(m, r).writes;
    assert writes == claims || writes == granted || writes == granted + [writes[|writes| - 1]];
    assert granted[|claims|..] == [] || granted[|claims|..] == [Write(ContextKeyRoles, List(RolesFor(m.config)))];
  }

  /**
   * What the claim writes leave under a key: the provider tag wins over the
   * token, which wins over the first email, because that is the order of
   * the writes.
   */
  lemma ClaimWritesLast(config: Config, tok: Token, key: string)
    ensures LastWrite(ClaimWrites(config, tok), key) ==
      if key == ProviderKey then Some(Str(ProviderTag))
      else if key == config.contextIDKey then Some(Str(tok.json))
      else if key == config.contextUserIDKey && |tok.emails| > 0 then Some(Str(tok.emails[0]))
      else None
  {
    var pre := if |tok.emails| > 0 then [Write(config.contextUserIDKey, Str(tok.emails[0]))] else [];
    var idWrite := Write(config.contextIDKey, Str(tok.json));
    var tagWrite := Write(ProviderKey, Str(ProviderTag));
    assert ClaimWrites(config, tok) == pre + [idWrite] + [tagWrite];
    LastWriteSnoc(pre + [idWrite], tagWrite, key);
    LastWriteSnoc(pre, idWrite, key);
    if |tok.emails| > 0 {
      assert pre == [] + [pre[0]];
      LastWriteSnoc([], pre[0], key);
    }
  }

  /**
   * Every context entry after a verified request, whatever the key names:
   * the entry holds the value of the last step that wrote its key (profile,
   * then roles, then provider tag, then token, then first email), or its old
   * value. When two configured key names coincide, the later write wins.
   */
  lemma EntryAfterVerified(m: Middleware, r: Request, values: map<string, Value>, tok: Token, key: string)
    requires m.config.skipper.Some? && Verified(m, r, tok)
    ensures var config := m.config;
      var rolesWritten := config.getRoles.Some? && RolesFor(config) != [];
      var profileWritten := (config.getRoles.None? || RolesFor(config) != [])
        && HeaderGet(r, HeaderGetUser) == "true" && m.client.getUser(tok.uid).Success?;
      Lookup(Apply(values, Process(m, r).writes), key) ==
        if profileWritten && key == config.contextUserKey then Some(Str(m.client.getUser(tok.uid).value))
        else if rolesWritten && key == ContextKeyRoles then Some(List(RolesFor(config)))
        else if key == ProviderKey then Some(Str(ProviderTag))
        else if key == config.contextIDKey then Some(Str(tok.json))
        else if key == config.contextUserIDKey && |tok.emails| > 0 then Some(Str(tok.emails[0]))
        else Lookup(values, key)
  {
    var config := m.config;
    var writes := Process(m, r).writes;
    var claims := ClaimWrites(config, tok);
    var granted := GrantedWrites(config, tok);
    ProcessVerified(m, r, tok);
    ClaimWritesLast(config, tok, key);
    ApplyLookup(values, writes, key);
    if config.getRoles.Some? && RolesFor(config) == [] {
      assert writes == claims;
    } else {
      if config.getRoles.Some? {
        LastWriteSnoc(claims, Write(ContextKeyRoles, List(RolesFor(config))), key);
      } else {
        assert granted == claims;
      }
      if HeaderGet(r, HeaderGetUser) == "true" && m.client.getUser(tok.uid).Success? {
        var profile := Write(config.contextUserKey, Str(m.client.getUser(tok.uid).value));
        assert writes == granted + [profile];
        LastWriteSnoc(granted, profile, key);
      } else {
        assert writes == granted;
      }
    }
  }

  /**
   * Key names are not checked for clashes: when the user key is configured
   * with the same name as the id key, a fetched profile replaces the
   * serialized token in that entry.
   */
  lemma SharedKeyOverwritten(m: Middleware, r: Request, values: map<string, Value>, tok: Token)
    requires m.config.skipper.Some? && Verified(m, r, tok)
    requires m.config.contextUserKey == m.config.contextIDKey
    requires m.config.getRoles.None?
    requires HeaderGet(r, HeaderGetUser) == "true" && m.client.getUser(tok.uid).Success?
    ensures Lookup(Apply(values, Process(m, r).writes), m.config.contextIDKey) ==
      Some(Str(m.client.getUser(tok.uid).value))
  {
    EntryAfterVerified(m, r, values, tok, m.config.contextIDKey);
  }

  /**
   * Once a token verifies, the serialized token and the provider tag are in
   * the context, and the first email under the user-id key when there is
   * one; these stay even when the roles check or the profile fetch later
   * fails. Each holds as long as no later write uses the same key name.
   */
  lemma ClaimsStored(m: Middleware, r: Request, values: map<string, Value>, tok: Token)
    requires m.config.skipper.Some? && Verified(m, r, tok)
    ensures var config := m.config;
      var after := Apply(values, Process(m, r).writes);
      && (config.contextIDKey !in {ProviderKey, ContextKeyRoles, config.contextUserKey} ==>
            Lookup(after, config.contextIDKey) == Some(Str(tok.json)))
      && (config.contextUserKey != ProviderKey ==>
            Lookup(after, ProviderKey) == Some(Str(ProviderTag)))
      && (config.contextUserIDKey !in {config.contextIDKey, ProviderKey, ContextKeyRoles, config.contextUserKey} ==>
            Lookup(after, config.contextUserIDKey) ==
              if |tok.emails| > 0 then Some(Str(tok.emails[0])) else Lookup(values, config.contextUserIDKey))
  {
    EntryAfterVerified(m, r, values, tok, m.config.contextIDKey);
    EntryAfterVerified(m, r, values, tok, ProviderKey);
    EntryAfterVerified(m, r, values, tok, m.config.contextUserIDKey);
  }

  /**
   * The roles step: with no roles lookup configured the roles entry is left
   * alone; an empty answer gives a 401 and neither a roles nor a user entry;
   * otherwise the roles are stored. The entry facts hold as long as no other
   * write uses the same key name.
   */
  lemma RolesStored(m: Middleware, r: Request, values: map<string, Value>, tok: Token)
    requires m.config.skipper.Some? && Verified(m, r, tok)
    ensures var config := m.config;
      var p := Process(m, r);
      var after := Apply(values, p.writes);
      && (config.getRoles.None? && ContextKeyRoles !in {config.contextIDKey, config.contextUserIDKey, config.contextUserKey} ==>
            Lookup(after, ContextKeyRoles) == Lookup(values, ContextKeyRoles))
      && (config.getRoles.Some? && RolesFor(config) == [] ==>
            p.response == Rejected(Unauthorized(NoRolesFound)))
      && (config.getRoles.Some? && RolesFor(config) == [] && ContextKeyRoles !in {config.contextIDKey, config.contextUserIDKey} ==>
            Lookup(after, ContextKeyRoles) == Lookup(values, ContextKeyRoles))
      && (config.getRoles.Some? && RolesFor(config) == [] &&
          config.contextUserKey !in {config.contextIDKey, config.contextUserIDKey, ProviderKey} ==>
            Lookup(after, config.contextUserKey) == Lookup(values, config.contextUserKey))
      && (config.getRoles.Some? && RolesFor(config) != [] && config.contextUserKey != ContextKeyRoles ==>
            Lookup(after, ContextKeyRoles) == Some(List(RolesFor(config))))
  {
    ProcessVerified(m, r, tok);
    EntryAfterVerified(m, r, values, tok, ContextKeyRoles);
    EntryAfterVerified(m, r, values, tok, m.config.contextUserKey);
  }

  /**
   * The profile step, once the roles check (if any) has passed: without an
   * exact `X-GetUser: true` header next is called and the user entry is left
   * alone; with it, a failed fetch gives a 401 and leaves the user entry
   * alone, and a successful one stores the profile and calls next. "Left
   * alone" holds as long as no other write uses the user key's name.
   */
  lemma ProfileStored(m: Middleware, r: Request, values: map<string, Value>, tok: Token)
    requires m.config.skipper.Some? && Verified(m, r, tok)
    requires m.config.getRoles.Some? ==> RolesFor(m.config) != []
    ensures var config := m.config;
      var p := Process(m, r);
      var after := Apply(values, p.writes);
      var key := config.contextUserKey;
      var unshared := key !in {config.contextIDKey, config.contextUserIDKey, ProviderKey, ContextKeyRoles};
      && (HeaderGet(r, HeaderGetUser) != "true" ==> p.response == Delegated)
      && (HeaderGet(r, HeaderGetUser) != "true" && unshared ==> Lookup(after, key) == Lookup(values, key))
      && (HeaderGet(r, HeaderGetUser) == "true" && m.client.getUser(tok.uid).Failure? ==>
            p.response == Rejected(Unauthorized(m.client.getUser(tok.uid).error)))
      && (HeaderGet(r, HeaderGetUser) == "true" && m.client.getUser(tok.uid).Failure? && unshared ==>
            Lookup(after, key) == Lookup(values, key))
      && (HeaderGet(r, HeaderGetUser) == "true" && m.client.getUser(tok.uid).Success? ==>
            p.response == Delegated && Lookup(after, key) == Some(Str(m.client.getUser(tok.uid).value)))
  {
    ProcessVerified(m, r, tok);
    EntryAfterVerified(m, r, values, tok, m.config.contextUserKey);
  }

  /**
   * Only the roles lookup's answer for the user-id key's NAME matters: any
   * other lookup that agrees on that one argument gives the same outcome,
   * whatever the token's email is.
   */
  lemma RolesAskedByKeyName(m: Middleware, r: Request, other: string -> seq<string>)
    requires m.config.skipper.Some? && m.config.getRoles.Some?
    requires other(m.config.contextUserIDKey) == m.config.getRoles.value(m.config.contextUserIDKey)
    ensures Process(m.(config := m.config.(getRoles := Some(other))), r) == Process(m, r)
  {
  }

  /**
   * Only the profile oracle's answer for the verified subject id matters; what
   * it would answer for the raw token (the call whose result the source
   * discards) has no effect on the outcome.
   */
  lemma ProfileFetchedOnlyByUid(m: Middleware, r: Request, tok: Token, other: string -> Result<string, string>)
    requires m.config.skipper.Some? && Verified(m, r, tok)
    requires other(tok.uid) == m.client.getUser(tok.uid)
    ensures Process(m.(client := m.client.(getUser := other)), r) == Process(m, r)
  {
  }

  /**
   * Nothing else changes: every context entry other than the five the
   * pipeline writes keeps its value, whatever the outcome.
   */
  lemma {:induction false} OtherEntriesUnchanged(m: Middleware, r: Request, values: map<string, Value>, key: string)
    requires m.config.skipper.Some?
    requires key !in {m.config.contextUserIDKey, m.config.contextIDKey, ProviderKey, ContextKeyRoles, m.config.contextUserKey}
    ensures Lookup(Apply(values, Process(m, r).writes), key) == Lookup(values, key)
  {
    var writes := Process(m, r).writes;
    assert forall w :: w in writes ==> w.key != key;
    LastWriteSkips([], writes, key);
    assert [] + writes == writes;
    ApplyLookup(values, writes, key);
  }

  /**
   * After a verified request the provider tag reads back as "firebase",
   * unless the user key is itself named "auth-provider".
   */
  lemma ProviderTagReadsBack(m: Middleware, c: Context, before: map<string, Value>, tok: Token)
    requires m.config.skipper.Some? && Verified(m, c.request, tok)
    requires m.config.contextUserKey != ProviderKey
    requires c.values == Apply(before, Process(m, c.request).writes)
    ensures GetContextValue(c, ProviderKey) == "firebase"
  {
    EntryAfterVerified(m, c.request, before, tok, ProviderKey);
  }
}
