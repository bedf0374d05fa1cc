# Firebase authentication middleware for Echo, modelled in Dafny

The Go package `firebaseauth` is a middleware for the Echo web framework. On each
request it checks a skip predicate. If the request is not skipped, it extracts a
bearer token from a header, a query parameter or a cookie, and has the Firebase
Admin SDK verify the token. It then writes the user's email, the serialized token,
a provider tag and, optionally, the user's roles and profile into the request
context. Finally it either calls the next handler or returns a 400 or 401 error.

This project models that core:

- `wrappers.dfy`: `Option` and `Result`.
- `strings.dfy`: Go's `strings.Split` on one character, with `Join` as its inverse.
- `http.dfy`: the request, seen as header, query and cookie tables. Also the
  `HTTPError` values `ErrTokenMissing` (400) and `ErrTokenInvalid` (401), and `unauthorized`.
- `extractors.dfy`: `tokenFromHeader`, `tokenFromQuery`, `tokenFromCookie`.
- `config.dfy`: `Config`, `DefaultFirebaseAuthConfig`, the defaulting done by
  `WithConfig`, and the choice of extractor from the `TokenLookup` locator.
- `middleware.dfy`: the construction in `WithConfig` and `FirebaseAuth`. The
  per-request handler is written twice:
  - a pure specification, `Process`, which gives the ordered context writes and the ending;
  - an imperative method, `Handle`, over a `Context` class whose map field is
    updated by `Set` one entry at a time.

  `Handle` is proved to leave exactly the context and the response that `Process`
  prescribes. The module also has `GetContextValue`.
- `properties.dfy`: what the pipeline guarantees. This covers the early exits, which
  entries a verified request leaves (including partial writes before a later
  failure), that nothing else changes, and which oracle answers the outcome depends on.

The remote provider is a pair of oracle functions in `Client`. `verifyIDToken`
returns a `Token` or a failure cause. `getUser` returns a profile, already
serialized, or a failure cause.

Calling the next handler is the response `Delegated`. The Go closure calls `next`
only as its final call and returns that call's result unchanged, so
`Delegated` means "next was called exactly once". `Rejected(e)` means next was not
called and `e` was returned.

Construction panics become `Failure` results of `WithConfig`:
- `LookupWithoutSeparator`: the locator has no `:`, so `parts[1]` is out of range.
- `MissingCredentialJSON`: `CredentialJSON` is empty.

Three behaviours of the code are easy to miss, and the model states each one:
- **Header separator.** The header extractor checks the length and the scheme prefix,
  but never the character after the scheme (firebase_auth.go:231-232). With scheme
  `Bearer`, the header `Bearerabc123` yields the token `bc123` (`HeaderExamples`).
- **Context writes.** The handler can write five context entries: user id, token,
  provider tag, roles and profile (firebase_auth.go:168-189). Key names are not checked
  for clashes, so a later write under a shared name replaces an earlier one
  (`EntryAfterVerified`, `SharedKeyOverwritten`).
- **Roles lookup.** `GetRoles` is called with the name of the user-id key, by default
  the literal `"userID"` (firebase_auth.go:174). Its doc comment
  (firebase_auth.go:83) says it looks roles up by email (`RolesAskedByKeyName`).

`FirebaseAuth()` uses the default configuration. That configuration has no
credentials, so it always aborts (`FirebaseAuth.FirebaseAuth`).

## Model

| member | source | states |
|---|---|---|
| `Strings.Split` | firebase_auth.go:120 | splitting always yields at least one piece, so `parts[0]` always exists |
| `Strings.JoinSplit` | firebase_auth.go:120 | joining the pieces of a split with the separator gives back the original locator |
| `Strings.SplitPiecesFree` | firebase_auth.go:120 | no piece contains the separator |
| `Strings.SplitHasSecondPiece` | firebase_auth.go:120-121 | `parts[1]` exists exactly when the locator contains `:` |
| `Strings.SplitAtFirst` | firebase_auth.go:120 | the text before the first separator is the first piece, and the rest is split independently |
| `Strings.SplitWithoutSeparator` | firebase_auth.go:120 | a string without the separator is a single piece |
| `Strings.SplitJoin` | firebase_auth.go:120 | splitting pieces that were joined gives them back when no piece contains the separator |
| `Http.HeaderGet` | firebase_auth.go:229 | framework getter (its contract is its definition): a header reads as its value, or as `""` when absent |
| `Http.QueryParam` | firebase_auth.go:241 | framework getter (its contract is its definition): a query parameter reads as its value, or as `""` when absent |
| `Http.Cookie` | firebase_auth.go:252-255 | framework getter (its contract is its definition): a cookie is present exactly when the request carries one of that name, with its value |
| `Http.Unauthorized` | firebase_auth.go:196-202 | the error has the code 401 and the public message of `ErrTokenInvalid` whatever the cause; the cause is only the internal detail |
| `Http.UnauthorizedHidesCause` | firebase_auth.go:196-202 | two 401s with different causes look the same to the client (they equal `ErrTokenInvalid` once the internal detail is dropped), and differ only in that detail |
| `Extractors.TokenFromHeader` | firebase_auth.go:227-236 | succeeds if and only if the header is longer than the scheme plus one and starts with the scheme; the token is non-empty, has length header minus scheme minus one, and the header is scheme + one unchecked character + token; otherwise `ErrTokenMissing` |
| `Extractors.HeaderTokenRoundTrip` | firebase_auth.go:231-232 | for any separator character, a header `scheme + separator + token` with a non-empty token yields exactly that token |
| `Extractors.HeaderExamples` | firebase_auth.go:227-236 | `Bearer abc123` gives `abc123`, `Bearerabc123` gives `bc123`, `Basic abc123` and `Bearer ` give `ErrTokenMissing` |
| `Extractors.TokenFromQuery` | firebase_auth.go:239-247 | succeeds if and only if the parameter is present and non-empty, returning it unchanged; otherwise `ErrTokenMissing` |
| `Extractors.TokenFromCookie` | firebase_auth.go:250-258 | succeeds if and only if the cookie is present, returning its value unchanged even when empty; otherwise `ErrTokenMissing` |
| `Extractors.Extract` | firebase_auth.go:151-154 | every extraction failure is `ErrTokenMissing`, status 400 |
| `AuthConfig.DefaultSkipper` | firebase_auth.go:74 | the default skip predicate never skips a request |
| `AuthConfig.WithDefaults` | firebase_auth.go:99-117 | each nil or empty field gets its default (`"id-key"`, `"user"`, `"userID"`, `"header:Authorization"`, `"Bearer"`, the never-skip predicate), each set field is kept, roles lookup and credentials are untouched, and the result is complete |
| `AuthConfig.CompleteIsFixedPoint` | firebase_auth.go:99-117 | a configuration with every defaulted field set is unchanged by defaulting |
| `AuthConfig.DefaultsIdempotent` | firebase_auth.go:99-117 | defaulting twice equals defaulting once |
| `AuthConfig.DefaultConfigComplete` | firebase_auth.go:73-80 | the default configuration is complete and a fixed point, its locator contains `:` and it has no credentials |
| `AuthConfig.SelectExtractor` | firebase_auth.go:120-127 | source `query` selects the query extractor on `parts[1]`, `cookie` the cookie extractor on `parts[1]`, any other source the header extractor on `parts[1]` with the scheme |
| `AuthConfig.SelectExtractorOf` | firebase_auth.go:120-127 | for a locator `source:name`, optionally followed by `:anything`, the extractor uses exactly that source and name; what follows a second `:` is ignored |
| `AuthConfig.DefaultLookupIsAuthorizationHeader` | firebase_auth.go:78 | the default locator selects the header extractor on `Authorization` |
| `FirebaseAuth.WithConfig` | firebase_auth.go:98-143 | the middleware carries the defaulted configuration and the selected extractor; it aborts with `LookupWithoutSeparator` when the locator has no `:`, and otherwise with `MissingCredentialJSON` when the credentials are empty |
| `FirebaseAuth.FirebaseAuth` | firebase_auth.go:91-94 | the default middleware always aborts for missing credentials |
| `FirebaseAuth.Context.Set` | firebase_auth.go:171 | storing replaces the entry under the key and changes no other entry |
| `FirebaseAuth.Context.Get` | firebase_auth.go:219 | framework getter (its contract is its definition): an entry is found exactly when the key is present, with its value |
| `FirebaseAuth.Process` | firebase_auth.go:146-191 | the handler as a specification: the ordered context writes and how the request ends; a skipped request goes straight on with no writes, at most five entries are written, and every error is a 400 or a 401 |
| `FirebaseAuth.Handle` | firebase_auth.go:145-193 | the imperative handler returns the response of `Process`, and the context afterwards is the old context with `Process`'s writes applied in order |
| `FirebaseAuth.Format` | firebase_auth.go:223 | `%v` of a stored value: a string as itself, a list as its items joined by single spaces between brackets (`[]` when empty) |
| `FirebaseAuth.FormatListRoundTrip` | firebase_auth.go:223 | a rendered roles list reads back: splitting the text between the brackets on spaces gives the roles, when no role contains a space |
| `FirebaseAuth.GetContextValue` | firebase_auth.go:218-224 | an absent key reads as `""`; a present entry reads as its `%v` rendering, so a string entry reads as itself and a list entry renders in brackets |
| `FirebaseAuthProperties.ApplyLookup` | firebase_auth.go:168-189 | after the handler's writes, each entry holds its last written value, or its old value if it was not written |
| `FirebaseAuthProperties.SkippedRequestUntouched` | firebase_auth.go:147-149 | a skipped request calls next and leaves the context unchanged |
| `FirebaseAuthProperties.ExtractionFailureStops` | firebase_auth.go:151-154 | a failed extraction returns `ErrTokenMissing`, writes nothing and does not call next |
| `FirebaseAuthProperties.VerificationFailureStops` | firebase_auth.go:157-160 | a rejected token gives a 401 with the fixed message and the cause as internal detail, writes nothing and does not call next |
| `FirebaseAuthProperties.WritesOnlyAfterVerification` | firebase_auth.go:157-172 | the context is written to, and the provider tag written, exactly when a token was extracted and verified |
| `FirebaseAuthProperties.RejectionShapes` | firebase_auth.go:151-191 | every error is either `ErrTokenMissing` with no writes, or a 401 with the fixed public message and an internal cause |
| `FirebaseAuthProperties.DelegatesExactlyWhenEveryStepPasses` | firebase_auth.go:146-191 | next is called exactly when the request is skipped, or when extraction, verification, the configured roles check and the requested profile fetch all succeed |
| `FirebaseAuthProperties.DefaultKeysDistinct` | firebase_auth.go:73-80 | the default key names and the fixed `auth-provider` and `roles` keys are pairwise different, so every key-name condition below holds for the default configuration |
| `FirebaseAuthProperties.ProcessVerified` | firebase_auth.go:157-191 | once the token verifies, the outcome is decided by the claim writes, the roles check and the profile fetch alone |
| `FirebaseAuthProperties.WritesAfterClaims` | firebase_auth.go:164-189 | a verified request's writes start with the claim writes; any writes after them are to the roles key or the user key only |
| `FirebaseAuthProperties.ClaimWritesLast` | firebase_auth.go:164-172 | for any key names, the claim writes leave under a key the provider tag, else the serialized token, else the first email (only if there is one), else nothing, following the order of the writes |
| `FirebaseAuthProperties.EntryAfterVerified` | firebase_auth.go:164-189 | for any key names, after a verified request every entry holds the value of the last step that wrote its key (profile, roles, provider tag, token, first email, in that order of precedence), or its old value |
| `FirebaseAuthProperties.SharedKeyOverwritten` | firebase_auth.go:171-189 | key names are not checked for clashes: with the user key named like the id key, a fetched profile replaces the serialized token |
| `FirebaseAuthProperties.ClaimsStored` | firebase_auth.go:164-172 | after a verified request the token, the provider tag and the first email (if any) are in the context even if a later step fails, each as long as no later write shares its key name; with no email the user-id entry keeps its old value |
| `FirebaseAuthProperties.RolesStored` | firebase_auth.go:173-180 | empty roles give a 401; when the key names involved are not shared, no roles lookup leaves the roles entry untouched, empty roles leave the roles and user entries untouched, and otherwise the roles are stored |
| `FirebaseAuthProperties.ProfileStored` | firebase_auth.go:182-191 | only the exact header `X-GetUser: true` fetches the profile; a failed fetch gives a 401, a successful one stores the profile and calls next; without a fetch, or after a failed one, the user entry is untouched when its name is not shared |
| `FirebaseAuthProperties.RolesAskedByKeyName` | firebase_auth.go:173-174 | the outcome depends on the roles lookup only through its answer for the user-id key's name |
| `FirebaseAuthProperties.ProfileFetchedOnlyByUid` | firebase_auth.go:156-184 | the outcome depends on the profile oracle only through its answer for the verified subject id; the discarded lookup by the raw token has no effect |
| `FirebaseAuthProperties.OtherEntriesUnchanged` | firebase_auth.go:164-189 | every context entry other than the five the handler writes keeps its value, whatever the outcome |
| `FirebaseAuthProperties.ProviderTagReadsBack` | firebase_auth.go:218-224 | after a verified request, `GetContextValue` on `auth-provider` returns `firebase`, unless the user key is itself named `auth-provider` |

## Left out

- Building the Firebase app and auth client (firebase_auth.go:132-143), and the panics when that fails: these are calls into the SDK. `WithConfig` takes an already built `Client`.
- The bodies of `VerifyIDToken` and `GetUser`: these are remote calls, modelled as the oracle functions of `Client`.
- JSON marshalling of the token and the user (firebase_auth.go:162, 188): both arrive already serialized, as opaque strings.
- `GetContextValueMap` (firebase_auth.go:204-216): it is JSON parsing of a stored string, which is library code.
- The type assertion on `Identities["email"]` (firebase_auth.go:164). It panics when the entry is absent or is not a list of strings. `Token.emails` is always a list of strings, so that panic cannot be represented.
- Echo's request machinery. Header-name canonicalization, repeated headers, repeated query parameters and repeated cookies are not modelled. Each table holds one value per name.
- Go measures `len` and slices in UTF-8 bytes; the model measures characters. The two agree on ASCII header values.
- The skip predicate receives the Echo context in Go. Here it sees only the request.
- What the next handler does, and the value it returns. `Delegated` stands for the single tail call to it.
- Concurrency: each request is handled independently, and the handler shares no mutable state.
