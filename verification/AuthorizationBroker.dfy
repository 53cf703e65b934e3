/**
 * The authorization broker: a transaction becomes a code, a code becomes an access token and
 * perhaps a refresh family. Random secrets, the clock, the client registry and the identity
 * provider are parameters.
 */
module AuthorizationBroker {
  import opened Options
  import opened RefreshTokens
  import opened AuthorizationStores

  datatype ErrorCode =
    InvalidClient | InvalidGrant | InvalidRequest | BadScope | InvalidTarget | ServerError
    | UnsupportedGrantType | UnsupportedResponseType

  datatype GrantType = AuthorizationCodeGrant | RefreshTokenGrant

  datatype Client = Client(
    clientId: string,
    redirectUris: seq<string>,
    grantTypes: seq<GrantType>,
    scopes: seq<string>,
    expiresAtMs: Option<Time>)

  /**
   * `hash` and `challenge` are the digests of secrets and of PKCE verifiers. `identify` is what
   * the identity provider vouches for, given a code, a PKCE verifier, the expected nonce and the
   * time: nothing if the exchange or the verification fails.
   */
  datatype Settings = Settings(
    resource: string,
    scopesSupported: seq<string>,
    transactionTtlSeconds: nat,
    authorizationCodeTtlSeconds: nat,
    accessTokenTtlSeconds: nat,
    refreshTokenTtlSeconds: nat,
    hash: string -> Hash,
    challenge: string -> string,
    identify: (string, string, string, Time) -> Option<Identity>)

  datatype BeginRequest = BeginRequest(
    responseType: string,
    clientId: string,
    redirectUri: string,
    resource: string,
    scope: string,
    codeChallenge: string,
    codeChallengeMethod: string,
    state: string)

  datatype BeginSecrets = BeginSecrets(state: string, nonce: string, codeVerifier: string)

  datatype CodeRequest = CodeRequest(
    grantType: string,
    code: string,
    clientId: string,
    redirectUri: string,
    resource: string,
    codeVerifier: string)

  datatype RefreshRequest = RefreshRequest(
    grantType: string,
    refreshToken: string,
    clientId: string,
    resource: string,
    scope: Option<string>)

  /** One call on the broker, with everything random or external that it meets. */
  datatype Call =
    | Begin(begin: BeginRequest, client: Option<Client>, secrets: BeginSecrets, now: Time)
    | Complete(state: string, googleCode: string, code: string, now: Time)
    | Deny(state: string, now: Time)
    | Exchange(exchange: CodeRequest, client: Option<Client>, refreshToken: string, family: string, now: Time)
    | Renew(renew: RefreshRequest, client: Option<Client>, replacement: string, now: Time)

  datatype AccessToken = AccessToken(
    subject: string,
    email: string,
    audience: string,
    scopes: seq<string>,
    issuedAt: Time,
    expiresAt: Time)

  datatype Reply =
    | Refused(error: ErrorCode)
    | Redirecting(state: string)
    | Coded(code: string)
    | Denied
    | Granted(access: AccessToken, refreshToken: Option<string>)

  // ---------------------------------------------------------------- scopes

  predicate IsSpace(c: char) {
    || c in {' ', '\t', '\n', '\r', '\U{000b}', '\U{000c}', '\U{00a0}', '\U{1680}', '\U{2028}', '\U{2029}'}
    || c in {'\U{202f}', '\U{205f}', '\U{3000}', '\U{feff}'}
    || '\U{2000}' <= c <= '\U{200a}'
  }

  /** The words of `s`, the last of them being collected in `word`. */
  function Words(s: string, word: string := ""): seq<string> {
    if s == "" then (if word == "" then [] else [word])
    else if !IsSpace(s[0]) then Words(s[1..], word + [s[0]])
    else if word == "" then Words(s[1..])
    else [word] + Words(s[1..])
  }

  /** First occurrences, in order. */
  function Unique(s: seq<string>): (r: seq<string>)
    ensures Distinct(r) && Contains(s, r) && Contains(r, s)
  {
    if s == [] then [] else
    var r := Unique(s[..|s| - 1]);
    assert s == s[..|s| - 1] + [s[|s| - 1]];
    if s[|s| - 1] in r then r else r + [s[|s| - 1]]
  }

  function ParseScopes(scope: string, allowed: seq<string>): (r: Option<seq<string>>)
    ensures r.Some? ==> r.value != [] && Distinct(r.value) && Contains(allowed, r.value)
    ensures r.Some? <==> Words(scope) != [] && Contains(allowed, Words(scope))
    ensures r.Some? ==> Contains(Words(scope), r.value) && Contains(r.value, Words(scope))
  {
    var words := Words(scope);
    if words == [] || !Contains(allowed, words) then None
    else assert words[0] in Unique(words); Some(Unique(words))
  }

  /** The client's scopes that the broker supports, in the client's order. */
  function Supported(o: Settings, scopes: seq<string>): (r: seq<string>)
    ensures forall s :: s in r <==> s in scopes && s in o.scopesSupported
  {
    if scopes == [] then []
    else (if scopes[0] in o.scopesSupported then [scopes[0]] else []) + Supported(o, scopes[1..])
  }

  // ---------------------------------------------------------------- checks

  predicate Bounded(s: string, maximum: nat) {
    0 < |s| <= maximum
  }

  predicate IsAlphanumeric(c: char) {
    'A' <= c <= 'Z' || 'a' <= c <= 'z' || '0' <= c <= '9'
  }

  predicate IsChallenge(s: string) {
    |s| == 43 && forall i :: 0 <= i < |s| ==> IsAlphanumeric(s[i]) || s[i] in "_-"
  }

  predicate IsVerifier(s: string) {
    43 <= |s| <= 128 && forall i :: 0 <= i < |s| ==> IsAlphanumeric(s[i]) || s[i] in "._~-"
  }

  predicate ProvesChallenge(o: Settings, verifier: string, challenge: string) {
    IsVerifier(verifier) && o.challenge(verifier) == challenge
  }

  function BeginError(o: Settings, r: BeginRequest, client: Option<Client>): Option<ErrorCode> {
    if !Bounded(r.clientId, 256) || !Bounded(r.redirectUri, 2048) then Some(InvalidRequest)
    else if client.None? || client.value.clientId != r.clientId then Some(InvalidClient)
    else if r.redirectUri !in client.value.redirectUris then Some(InvalidRequest)
    else if !Bounded(r.state, 1024) || !Bounded(r.resource, 2048) || !Bounded(r.scope, 1024) then Some(InvalidRequest)
    else if !Bounded(r.responseType, 32) || !Bounded(r.codeChallenge, 128) then Some(InvalidRequest)
    else if !Bounded(r.codeChallengeMethod, 16) then Some(InvalidRequest)
    else if r.responseType != "code" then Some(UnsupportedResponseType)
    else if r.resource != o.resource then Some(InvalidTarget)
    else if r.codeChallengeMethod != "S256" || !IsChallenge(r.codeChallenge) then Some(InvalidRequest)
    else if ParseScopes(r.scope, Supported(o, client.value.scopes)).None? then Some(BadScope)
    else None
  }

  function BegunTransaction(o: Settings, r: BeginRequest, client: Client, secrets: BeginSecrets, now: Time): Transaction
    requires ParseScopes(r.scope, Supported(o, client.scopes)).Some?
  {
    Transaction(r.clientId, r.redirectUri, r.resource, ParseScopes(r.scope, Supported(o, client.scopes)).value,
                r.state, r.codeChallenge, secrets.nonce, secrets.codeVerifier,
                now + o.transactionTtlSeconds * 1000)
  }

  function IssuedCode(o: Settings, t: Transaction, identity: Identity, now: Time): Code {
    Code(t.clientId, t.redirectUri, t.resource, t.scopes, t.codeChallenge, identity,
         now + o.authorizationCodeTtlSeconds * 1000)
  }

  /** Checks made before the code is looked up. */
  function ExchangeRequestError(r: CodeRequest): Option<ErrorCode> {
    if !Bounded(r.grantType, 64) then Some(InvalidRequest)
    else if r.grantType != "authorization_code" then Some(UnsupportedGrantType)
    else if !Bounded(r.code, 256) then Some(InvalidGrant)
    else if !Bounded(r.clientId, 256) || !Bounded(r.redirectUri, 2048) then Some(InvalidRequest)
    else if !Bounded(r.resource, 2048) then Some(InvalidRequest)
    else if !Bounded(r.codeVerifier, 128) then Some(InvalidGrant)
    else None
  }

  /** Checks made once the code has been consumed. */
  function ExchangeError(o: Settings, r: CodeRequest, found: Option<Code>, client: Option<Client>,
                         now: Time): Option<ErrorCode>
  {
    if found.None? || found.value.expiresAt <= now then Some(InvalidGrant) else
    var record := found.value;
    if r.resource != o.resource || r.resource != record.resource then Some(InvalidTarget)
    else if r.clientId != record.clientId || r.redirectUri != record.redirectUri then Some(InvalidGrant)
    else if !ProvesChallenge(o, r.codeVerifier, record.codeChallenge) then Some(InvalidGrant)
    else if client.None? || client.value.clientId != record.clientId then Some(InvalidGrant)
    else if record.redirectUri !in client.value.redirectUris then Some(InvalidGrant)
    else if !Contains(client.value.scopes, record.scopes) then Some(InvalidGrant)
    else None
  }

  function RenewRequestError(o: Settings, r: RefreshRequest, client: Option<Client>): Option<ErrorCode> {
    if !Bounded(r.grantType, 64) then Some(InvalidRequest)
    else if !Bounded(r.refreshToken, 512) then Some(InvalidGrant)
    else if !Bounded(r.clientId, 256) || !Bounded(r.resource, 2048) then Some(InvalidRequest)
    else if r.grantType != "refresh_token" then Some(UnsupportedGrantType)
    else if r.resource != o.resource then Some(InvalidTarget)
    else if client.None? || client.value.clientId != r.clientId then Some(InvalidGrant)
    else if RefreshTokenGrant !in client.value.grantTypes then Some(InvalidGrant)
    else if r.scope.Some? && ParseScopes(r.scope.value, Supported(o, client.value.scopes)).None? then Some(BadScope)
    else None
  }

  // ---------------------------------------------------------------- replies

  function Issue(o: Settings, identity: Identity, resource: string, scopes: seq<string>, now: Time): AccessToken {
    var issuedAt := now / 1000;
    AccessToken(identity.subject, identity.email, resource, scopes, issuedAt, issuedAt + o.accessTokenTtlSeconds)
  }

  /** The moment after which no descendant of this exchange is renewed. */
  function Deadline(o: Settings, client: Client, now: Time): Time {
    var ttl := now + o.refreshTokenTtlSeconds * 1000;
    if client.expiresAtMs.Some? && client.expiresAtMs.value < ttl then client.expiresAtMs.value else ttl
  }

  function FirstToken(o: Settings, record: Code, client: Client, family: string, now: Time): Token {
    Token(family, record.clientId, record.resource, record.scopes, record.identity, Deadline(o, client, now), None,
          None)
  }

  function RotationOf(o: Settings, r: RefreshRequest, client: Client, replacement: string, now: Time): Rotation {
    Rotation(o.hash(r.refreshToken), o.hash(replacement), r.clientId, r.resource,
             if r.scope.Some? then ParseScopes(r.scope.value, Supported(o, client.scopes)) else None, now)
  }

  function Lookup<T>(m: map<Hash, T>, h: Hash): Option<T> {
    if h in m then Some(m[h]) else None
  }

  /** What a renewal answers, given what the store made of the rotation. */
  function RenewReply(o: Settings, q: Rotation, replacement: string, outcome: Result): Reply {
    match outcome
    case InvalidScope => Refused(BadScope)
    case Rotated(t) => Granted(Issue(o, t.identity, t.resource, Requested(t, q), q.now), Some(replacement))
    case _ => Refused(InvalidGrant)
  }

  /** The reply to a call, and the grants it leaves. */
  function Respond(o: Settings, g: Grants, c: Call): (Grants, Reply) {
    match c
    case Begin(r, client, secrets, now) =>
      var error := BeginError(o, r, client);
      if error.Some? then (g, Refused(error.value)) else
      var t := BegunTransaction(o, r, client.value, secrets, now);
      (g.(transactions := g.transactions[o.hash(secrets.state) := t]), Redirecting(secrets.state))
    case Complete(state, googleCode, code, now) =>
      if !Bounded(state, 256) then (g, Refused(InvalidRequest)) else
      var found := Lookup(g.transactions, o.hash(state));
      var used := g.(transactions := g.transactions - {o.hash(state)});
      if found.None? || found.value.expiresAt <= now then (used, Refused(InvalidRequest))
      else if !Bounded(googleCode, 4096) then (used, Refused(ServerError)) else
      var t := found.value;
      var identity := o.identify(googleCode, t.googleCodeVerifier, t.googleNonce, now);
      if identity.None? then (used, Refused(ServerError)) else
      (used.(codes := g.codes[o.hash(code) := IssuedCode(o, t, identity.value, now)]), Coded(code))
    case Deny(state, now) =>
      if !Bounded(state, 256) then (g, Refused(InvalidRequest)) else
      var found := Lookup(g.transactions, o.hash(state));
      (g.(transactions := g.transactions - {o.hash(state)}),
       if found.None? || found.value.expiresAt <= now then Refused(InvalidRequest) else Denied)
    case Exchange(r, client, refreshToken, family, now) =>
      var malformed := ExchangeRequestError(r);
      if malformed.Some? then (g, Refused(malformed.value)) else
      var found := Lookup(g.codes, o.hash(r.code));
      var used := g.(codes := g.codes - {o.hash(r.code)});
      var error := ExchangeError(o, r, found, client, now);
      if error.Some? then (used, Refused(error.value)) else
      var record := found.value;
      var access := Issue(o, record.identity, record.resource, record.scopes, now);
      if RefreshTokenGrant !in client.value.grantTypes then (used, Granted(access, None)) else
      var token := FirstToken(o, record, client.value, family, now);
      (used.(tokens := g.tokens[o.hash(refreshToken) := token]), Granted(access, Some(refreshToken)))
    case Renew(r, client, replacement, now) =>
      var malformed := RenewRequestError(o, r, client);
      if malformed.Some? then (g, Refused(malformed.value)) else
      var q := RotationOf(o, r, client.value, replacement, now);
      (g.(tokens := Rotate(g.tokens, q)), RenewReply(o, q, replacement, Outcome(g.tokens, q)))
  }

  // ---------------------------------------------------------------- the broker

  class OAuthBroker {
    const settings: Settings
    const store: AuthorizationStore

    constructor (settings: Settings, store: AuthorizationStore)
      ensures this.settings == settings && this.store == store
    {
      this.settings, this.store := settings, store;
    }

    method BeginAuthorization(r: BeginRequest, client: Option<Client>, secrets: BeginSecrets, now: Time)
      returns (reply: Reply)
      modifies store
      ensures (store.View(), reply) == Respond(settings, old(store.View()), Begin(r, client, secrets, now))
    {
      var error := BeginError(settings, r, client);
      if error.Some? {
        return Refused(error.value);
      }
      store.SaveTransaction(settings.hash(secrets.state), BegunTransaction(settings, r, client.value, secrets, now));
      return Redirecting(secrets.state);
    }

    method ConsumeLiveTransaction(state: string, now: Time) returns (live: Option<Transaction>)
      modifies store
      ensures live.Some? <==> settings.hash(state) in old(store.transactions)
                              && now < old(store.transactions)[settings.hash(state)].expiresAt
      ensures live.Some? ==> live.value == old(store.transactions)[settings.hash(state)]
      ensures store.View() == old(store.View()).(transactions := old(store.transactions) - {settings.hash(state)})
    {
      var transaction := store.ConsumeTransaction(settings.hash(state));
      if transaction.None? || transaction.value.expiresAt <= now {
        return None;
      }
      return transaction;
    }

    method CompleteGoogleAuthorization(state: string, googleCode: string, code: string, now: Time)
      returns (reply: Reply)
      modifies store
      ensures (store.View(), reply) == Respond(settings, old(store.View()), Complete(state, googleCode, code, now))
    {
      if !Bounded(state, 256) {
        return Refused(InvalidRequest);
      }
      var transaction := ConsumeLiveTransaction(state, now);
      if transaction.None? {
        return Refused(InvalidRequest);
      }
      if !Bounded(googleCode, 4096) {
        return Refused(ServerError);
      }
      var t := transaction.value;
      var identity := settings.identify(googleCode, t.googleCodeVerifier, t.googleNonce, now);
      if identity.None? {
        return Refused(ServerError);
      }
      store.SaveAuthorizationCode(settings.hash(code), IssuedCode(settings, t, identity.value, now));
      return Coded(code);
    }

    method DenyGoogleAuthorization(state: string, now: Time) returns (reply: Reply)
      modifies store
      ensures (store.View(), reply) == Respond(settings, old(store.View()), Deny(state, now))
    {
      if !Bounded(state, 256) {
        return Refused(InvalidRequest);
      }
      var transaction := ConsumeLiveTransaction(state, now);
      return if transaction.None? then Refused(InvalidRequest) else Denied;
    }

    method ExchangeAuthorizationCode(r: CodeRequest, client: Option<Client>, refreshToken: string, family: string,
                                     now: Time)
      returns (reply: Reply)
      modifies store
      ensures (store.View(), reply)
              == Respond(settings, old(store.View()), Exchange(r, client, refreshToken, family, now))
    {
      var malformed := ExchangeRequestError(r);
      if malformed.Some? {
        return Refused(malformed.value);
      }
      var found := store.ConsumeAuthorizationCode(settings.hash(r.code));
      var error := ExchangeError(settings, r, found, client, now);
      if error.Some? {
        return Refused(error.value);
      }
      var record := found.value;
      var access := Issue(settings, record.identity, record.resource, record.scopes, now);
      if RefreshTokenGrant !in client.value.grantTypes {
        return Granted(access, None);
      }
      store.SaveRefreshToken(settings.hash(refreshToken), FirstToken(settings, record, client.value, family, now));
      return Granted(access, Some(refreshToken));
    }

    method ExchangeRefreshToken(r: RefreshRequest, client: Option<Client>, replacement: string, now: Time)
      returns (reply: Reply)
      modifies store
      ensures (store.View(), reply) == Respond(settings, old(store.View()), Renew(r, client, replacement, now))
    {
      var malformed := RenewRequestError(settings, r, client);
      if malformed.Some? {
        return Refused(malformed.value);
      }
      var q := RotationOf(settings, r, client.value, replacement, now);
      var rotated := store.RotateRefreshToken(q);
      match rotated {
        case InvalidScope => return Refused(BadScope);
        case Rotated(t) =>
          var scopes := if q.scopes.Some? then q.scopes.value else t.scopes;
          return Granted(Issue(settings, t.identity, t.resource, scopes, now), Some(replacement));
        case _ => return Refused(InvalidGrant);
      }
    }
  }
}
