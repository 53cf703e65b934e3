/** What each call on the broker answers and when, told by its request and the grants it meets. */
module BrokerLaws {
  import opened Options
  import opened RefreshTokens
  import opened AuthorizationStores
  import opened AuthorizationBroker

  // ---------------------------------------------------------------- scope words

  predicate Spaceless(s: string) {
    forall i :: 0 <= i < |s| ==> !IsSpace(s[i])
  }

  /** A text without spaces is one word, and a space separates words: this says it all. */
  lemma {:induction false} OneWord(s: string, word: string)
    requires Spaceless(s)
    ensures Words(s, word) == if word + s == "" then [] else [word + s]
    decreases |s|
  {
    if s != "" {
      OneWord(s[1..], word + [s[0]]);
      assert word + [s[0]] + s[1..] == word + s;
    } else {
      assert word + s == word;
    }
  }

  lemma {:induction false} SpacesSeparate(a: string, space: char, b: string, word: string)
    requires IsSpace(space)
    ensures Words(a + [space] + b, word) == Words(a, word) + Words(b)
    decreases |a|
  {
    var s := a + [space] + b;
    if a == "" {
      assert s[0] == space && s[1..] == b;
    } else {
      assert s[0] == a[0] && s[1..] == a[1..] + [space] + b;
      if !IsSpace(a[0]) {
        SpacesSeparate(a[1..], space, b, word + [a[0]]);
      } else {
        SpacesSeparate(a[1..], space, b, "");
      }
    }
  }

  /** A word that came first before another one did stands before it. */
  lemma {:induction false} FirstComeFirst(s: seq<string>, i: nat, j: nat)
    requires i < j < |s| && s[i] !in s[..i] && s[j] !in s[..j]
    ensures exists p, q :: 0 <= p < q < |Unique(s)| && Unique(s)[p] == s[i] && Unique(s)[q] == s[j]
  {
    var n := |s| - 1;
    var r := Unique(s[..n]);
    if j < n {
      assert s[..n][..i] == s[..i] && s[..n][..j] == s[..j];
      FirstComeFirst(s[..n], i, j);
      var p, q :| 0 <= p < q < |r| && r[p] == s[i] && r[q] == s[j];
      assert Unique(s)[p] == s[i] && Unique(s)[q] == s[j];
    } else {
      assert s[..n][i] == s[i] && s[i] in r;
      var p :| 0 <= p < |r| && r[p] == s[i];
      assert Unique(s)[p] == s[i] && Unique(s)[|r|] == s[j];
    }
  }

  /** The white space of the language the broker is written in. */
  lemma SpacesAre(c: char)
    ensures
      IsSpace(c)
      <==> || c == ' ' || c == '\t' || c == '\n' || c == '\r' || c == '\U{b}' || c == '\U{c}' || c == '\U{a0}'
           || c == '\U{1680}' || ('\U{2000}' <= c && c <= '\U{200a}') || c == '\U{2028}' || c == '\U{2029}'
           || c == '\U{202f}' || c == '\U{205f}' || c == '\U{3000}' || c == '\U{feff}'
  {
  }

  // ---------------------------------------------------------------- begin

  /** A challenge in the form that S256 gives. */
  ghost predicate Base64Url(s: string, extra: string) {
    forall i :: 0 <= i < |s| ==>
      || 'A' <= s[i] <= 'Z' || 'a' <= s[i] <= 'z' || '0' <= s[i] <= '9' || s[i] in extra
  }

  /** The registered client may be redirected there and may ask for these words. */
  ghost predicate MayAsk(o: Settings, client: Option<Client>, clientId: string, redirectUri: string, scope: string) {
    && client.Some?
    && client.value.clientId == clientId
    && redirectUri in client.value.redirectUris
    && Words(scope) != []
    && forall s :: s in Words(scope) ==> s in client.value.scopes && s in o.scopesSupported
  }

  lemma BeginsExactly(o: Settings, g: Grants, c: Call)
    requires c.Begin?
    ensures
      var r := c.begin;
      Respond(o, g, c).1.Redirecting?
      <==> && 0 < |r.clientId| <= 256 && 0 < |r.redirectUri| <= 2048 && 0 < |r.state| <= 1024
           && 0 < |r.resource| <= 2048 && 0 < |r.scope| <= 1024
           && r.responseType == "code" && r.codeChallengeMethod == "S256"
           && |r.codeChallenge| == 43 && Base64Url(r.codeChallenge, "_-")
           && r.resource == o.resource
           && MayAsk(o, c.client, r.clientId, r.redirectUri, r.scope)
  {
    hide ParseScopes, Words;
    var client := c.client;
    if client.Some? {
      AllowedWords(o, client.value, c.begin.scope);
    }
  }

  lemma AllowedWords(o: Settings, client: Client, scope: string)
    ensures
      var parsed := ParseScopes(scope, Supported(o, client.scopes));
      && (parsed.Some?
          <==> Words(scope) != [] && forall s :: s in Words(scope) ==> s in client.scopes && s in o.scopesSupported)
      && (parsed.Some? ==> Distinct(parsed.value) && forall s :: s in parsed.value <==> s in Words(scope))
  {
  }

  /** What a transaction begins with. */
  lemma BeginsWith(o: Settings, g: Grants, c: Call)
    requires c.Begin? && Respond(o, g, c).1.Redirecting?
    ensures
      var (n, reply) := Respond(o, g, c);
      && reply.state == c.secrets.state
      && o.hash(c.secrets.state) in n.transactions
      && n == g.(transactions := g.transactions[o.hash(c.secrets.state) := n.transactions[o.hash(c.secrets.state)]])
      && var t := n.transactions[o.hash(c.secrets.state)];
      && t.clientId == c.begin.clientId && t.redirectUri == c.begin.redirectUri && t.resource == c.begin.resource
      && t.clientState == c.begin.state && t.codeChallenge == c.begin.codeChallenge
      && t.googleNonce == c.secrets.nonce && t.googleCodeVerifier == c.secrets.codeVerifier
      && t.expiresAt == c.now + o.transactionTtlSeconds * 1000
      && Distinct(t.scopes) && (forall s :: s in t.scopes <==> s in Words(c.begin.scope))
  {
    hide ParseScopes, Words;
    AllowedWords(o, c.client.value, c.begin.scope);
  }

  /** Who is told what: each fault by its own name, and the rest as a bad request. */
  lemma BeginRefusals(o: Settings, g: Grants, c: Call, error: ErrorCode)
    requires c.Begin? && Respond(o, g, c).1 == Refused(error)
    ensures Respond(o, g, c).0 == g
    ensures
      var r := c.begin;
      var named := 0 < |r.clientId| <= 256 && 0 < |r.redirectUri| <= 2048;
      var known := named && c.client.Some? && c.client.value.clientId == r.clientId;
      var whole := && 0 < |r.state| <= 1024 && 0 < |r.resource| <= 2048 && 0 < |r.scope| <= 1024
                   && 0 < |r.responseType| <= 32 && 0 < |r.codeChallenge| <= 128 && 0 < |r.codeChallengeMethod| <= 16;
      var redirects := known && r.redirectUri in c.client.value.redirectUris && whole;
      && (error == InvalidClient <==> named && !known)
      && (error == UnsupportedResponseType <==> redirects && r.responseType != "code")
      && (error == InvalidTarget <==> redirects && r.responseType == "code" && r.resource != o.resource)
      && error in {InvalidClient, UnsupportedResponseType, InvalidTarget, BadScope, InvalidRequest}
      && (error == BadScope ==>
            && redirects && r.responseType == "code" && r.resource == o.resource && r.codeChallengeMethod == "S256"
            && !MayAsk(o, c.client, r.clientId, r.redirectUri, r.scope))
      && (error == InvalidRequest ==>
            || !named
            || (known && !redirects)
            || r.codeChallengeMethod != "S256" || |r.codeChallenge| != 43 || !Base64Url(r.codeChallenge, "_-"))
  {
    hide ParseScopes, Words;
    if c.client.Some? {
      AllowedWords(o, c.client.value, c.begin.scope);
    }
  }

  // ---------------------------------------------------------------- completion

  lemma CompletesExactly(o: Settings, g: Grants, c: Call)
    requires c.Complete?
    ensures
      var h := o.hash(c.state);
      Respond(o, g, c).1.Coded?
      <==> && 0 < |c.state| <= 256
           && h in g.transactions
           && c.now < g.transactions[h].expiresAt
           && 0 < |c.googleCode| <= 4096
           && o.identify(c.googleCode, g.transactions[h].googleCodeVerifier, g.transactions[h].googleNonce, c.now).Some?
  {
  }

  /** What a code carries; the transaction is gone, as it is after every refusal but that of a malformed state. */
  lemma CompletesWith(o: Settings, g: Grants, c: Call)
    requires c.Complete?
    ensures
      var (n, reply) := Respond(o, g, c);
      var h := o.hash(c.state);
      && (0 < |c.state| <= 256 ==> n.transactions == g.transactions - {h})
      && n.tokens == g.tokens
      && (reply.Coded? ==>
            && reply.code == c.code
            && h in g.transactions
            && var t := g.transactions[h];
            && o.hash(c.code) in n.codes && n.codes == g.codes[o.hash(c.code) := n.codes[o.hash(c.code)]]
            && var code := n.codes[o.hash(c.code)];
            && code.clientId == t.clientId && code.redirectUri == t.redirectUri && code.resource == t.resource
            && code.scopes == t.scopes && code.codeChallenge == t.codeChallenge
            && o.identify(c.googleCode, t.googleCodeVerifier, t.googleNonce, c.now) == Some(code.identity)
            && code.expiresAt == c.now + o.authorizationCodeTtlSeconds * 1000)
      && (reply.Refused? ==>
            && n.codes == g.codes
            && (reply.error == ServerError <==>
                  0 < |c.state| <= 256 && h in g.transactions && c.now < g.transactions[h].expiresAt)
            && (reply.error != ServerError ==> reply.error == InvalidRequest))
      && (reply.Coded? || reply.Refused?)
  {
  }

  /** A denial is told apart only by whether the transaction was live, and uses it up. */
  lemma DeniesExactly(o: Settings, g: Grants, c: Call)
    requires c.Deny?
    ensures
      var (n, reply) := Respond(o, g, c);
      var h := o.hash(c.state);
      && (reply == Denied <==> 0 < |c.state| <= 256 && h in g.transactions && c.now < g.transactions[h].expiresAt)
      && (reply != Denied ==> reply == Refused(InvalidRequest))
      && n == g.(transactions := if 0 < |c.state| <= 256 then g.transactions - {h} else g.transactions)
  {
    if !(0 < |c.state| <= 256) {
      assert g == g.(transactions := g.transactions);
    }
  }

  // ---------------------------------------------------------------- exchange

  ghost predicate WellFormedExchange(r: CodeRequest) {
    && r.grantType == "authorization_code"
    && 0 < |r.code| <= 256 && 0 < |r.clientId| <= 256 && 0 < |r.redirectUri| <= 2048 && 0 < |r.resource| <= 2048
    && 0 < |r.codeVerifier| <= 128
  }

  /** The verifier is in form and proves possession of what the challenge was made of. */
  ghost predicate Proves(o: Settings, verifier: string, challenge: string) {
    43 <= |verifier| <= 128 && Base64Url(verifier, "._~-") && o.challenge(verifier) == challenge
  }

  ghost predicate StillActive(client: Option<Client>, code: Code) {
    && client.Some?
    && client.value.clientId == code.clientId
    && code.redirectUri in client.value.redirectUris
    && forall s :: s in code.scopes ==> s in client.value.scopes
  }

  lemma ExchangesExactly(o: Settings, g: Grants, c: Call)
    requires c.Exchange?
    ensures
      var r := c.exchange;
      var h := o.hash(r.code);
      Respond(o, g, c).1.Granted?
      <==> && WellFormedExchange(r)
           && h in g.codes
           && c.now < g.codes[h].expiresAt
           && r.resource == o.resource == g.codes[h].resource
           && r.clientId == g.codes[h].clientId
           && r.redirectUri == g.codes[h].redirectUri
           && Proves(o, r.codeVerifier, g.codes[h].codeChallenge)
           && StillActive(c.client, g.codes[h])
  {
  }

  /** What an exchange leaves: the code is gone in any case, and only a client with the grant gets a refresh token. */
  lemma ExchangesWith(o: Settings, g: Grants, c: Call)
    requires c.Exchange?
    ensures
      var (n, reply) := Respond(o, g, c);
      var h := o.hash(c.exchange.code);
      && n.transactions == g.transactions
      && n.codes == (if WellFormedExchange(c.exchange) then g.codes - {h} else g.codes)
      && (reply.Granted? ==>
            && h in g.codes
            && var code := g.codes[h];
            && reply.access.subject == code.identity.subject && reply.access.email == code.identity.email
            && reply.access.audience == code.resource && reply.access.scopes == code.scopes
            && reply.access.issuedAt == c.now / 1000
            && reply.access.expiresAt == c.now / 1000 + o.accessTokenTtlSeconds
            && c.client.Some?
            && (reply.refreshToken.None? <==> RefreshTokenGrant !in c.client.value.grantTypes)
            && (reply.refreshToken.None? ==> n.tokens == g.tokens)
            && (reply.refreshToken.Some? ==>
                  && reply.refreshToken.value == c.refreshToken
                  && o.hash(c.refreshToken) in n.tokens
                  && n.tokens == g.tokens[o.hash(c.refreshToken) := n.tokens[o.hash(c.refreshToken)]]
                  && FirstOfFamily(o, c, code, n.tokens[o.hash(c.refreshToken)])))
      && (reply.Refused? ==> n.tokens == g.tokens)
  {
    if WellFormedExchange(c.exchange) {
      assert ExchangeRequestError(c.exchange).None?;
    }
  }

  ghost predicate FirstOfFamily(o: Settings, c: Call, code: Code, t: Token)
    requires c.Exchange? && c.client.Some?
  {
    && t.family == c.family && t.clientId == code.clientId && t.resource == code.resource
    && t.scopes == code.scopes && t.identity == code.identity
    && t.consumedAt.None? && t.revokedAt.None?
    && t.expiresAt <= c.now + o.refreshTokenTtlSeconds * 1000
    && (c.client.value.expiresAtMs.Some? ==> t.expiresAt <= c.client.value.expiresAtMs.value)
    && (t.expiresAt == c.now + o.refreshTokenTtlSeconds * 1000 || Some(t.expiresAt) == c.client.value.expiresAtMs)
  }

  /** A wrong target is named as such, a malformed request as its field demands, the rest is an invalid grant. */
  lemma ExchangeRefusals(o: Settings, g: Grants, c: Call, error: ErrorCode)
    requires c.Exchange? && Respond(o, g, c).1 == Refused(error)
    ensures
      var r := c.exchange;
      var h := o.hash(r.code);
      var live := WellFormedExchange(r) && h in g.codes && c.now < g.codes[h].expiresAt;
      && (error == UnsupportedGrantType <==> 0 < |r.grantType| <= 64 && r.grantType != "authorization_code")
      && (error == InvalidTarget <==> live && (r.resource != o.resource || r.resource != g.codes[h].resource))
      && error in {UnsupportedGrantType, InvalidTarget, InvalidRequest, InvalidGrant}
      && (WellFormedExchange(r) && error != InvalidTarget ==> error == InvalidGrant)
      && (r.grantType == "authorization_code" && !(0 < |r.code| <= 256) ==> error == InvalidGrant)
      && (error == InvalidRequest ==> !WellFormedExchange(r))
  {
  }

  // ---------------------------------------------------------------- renewal

  /** A request for tokens by a registered client that holds the grant, for words it may ask for. */
  ghost predicate WellFormedRenewal(o: Settings, r: RefreshRequest, client: Option<Client>) {
    && r.grantType == "refresh_token"
    && 0 < |r.refreshToken| <= 512 && 0 < |r.clientId| <= 256 && 0 < |r.resource| <= 2048
    && r.resource == o.resource
    && client.Some? && client.value.clientId == r.clientId && RefreshTokenGrant in client.value.grantTypes
    && (r.scope.Some? ==>
          && Words(r.scope.value) != []
          && forall s :: s in Words(r.scope.value) ==> s in client.value.scopes && s in o.scopesSupported)
  }

  lemma RenewsExactly(o: Settings, g: Grants, c: Call)
    requires c.Renew?
    ensures
      var r := c.renew;
      var h := o.hash(r.refreshToken);
      Respond(o, g, c).1.Granted?
      <==> && WellFormedRenewal(o, r, c.client)
           && h in g.tokens
           && g.tokens[h].consumedAt.None? && g.tokens[h].revokedAt.None?
           && c.now < g.tokens[h].expiresAt
           && g.tokens[h].clientId == r.clientId
           && g.tokens[h].resource == r.resource
           && (if r.scope.Some? then forall s :: s in Words(r.scope.value) ==> s in g.tokens[h].scopes
               else g.tokens[h].scopes != [] && Distinct(g.tokens[h].scopes))
  {
    hide ParseScopes, Words, Supported;
    if c.client.Some? && c.renew.scope.Some? {
      AllowedWords(o, c.client.value, c.renew.scope.value);
    }
    if RenewRequestError(o, c.renew, c.client).None? && c.renew.scope.Some? {
      var parsed := ParseScopes(c.renew.scope.value, Supported(o, c.client.value.scopes));
      assert parsed.value != [];
    }
  }

  /** What a renewal leaves: the words asked for, or the scopes of the token presented; the rest as it was. */
  lemma RenewsWith(o: Settings, g: Grants, c: Call)
    requires c.Renew? && Respond(o, g, c).1.Granted?
    ensures
      var (n, reply) := Respond(o, g, c);
      var h := o.hash(c.renew.refreshToken);
      && h in g.tokens && o.hash(c.replacement) in n.tokens
      && var t := g.tokens[h];
      && var next := n.tokens[o.hash(c.replacement)];
      && n.transactions == g.transactions && n.codes == g.codes
      && n.tokens == g.tokens[h := t.(consumedAt := Some(c.now))][o.hash(c.replacement) := next]
      && next == t.(scopes := next.scopes, consumedAt := None, revokedAt := None)
      && reply.refreshToken == Some(c.replacement)
      && reply.access.subject == t.identity.subject && reply.access.email == t.identity.email
      && reply.access.audience == t.resource && reply.access.scopes == next.scopes
      && reply.access.issuedAt == c.now / 1000
      && reply.access.expiresAt == c.now / 1000 + o.accessTokenTtlSeconds
      && (c.renew.scope.None? ==> next.scopes == t.scopes)
      && (c.renew.scope.Some? ==>
            Distinct(next.scopes) && forall s :: s in next.scopes <==> s in Words(c.renew.scope.value))
  {
    hide Words, Supported;
    if c.client.Some? && c.renew.scope.Some? {
      AllowedWords(o, c.client.value, c.renew.scope.value);
    }
  }

  /** What a refused renewal leaves: a replay ends the family, and nothing else changes. */
  lemma RenewRefusalsLeave(o: Settings, g: Grants, c: Call)
    requires c.Renew? && Respond(o, g, c).1.Refused?
    ensures
      var h := o.hash(c.renew.refreshToken);
      var n := Respond(o, g, c).0;
      var replays := WellFormedRenewal(o, c.renew, c.client) && h in g.tokens && g.tokens[h].consumedAt.Some?;
      && n.transactions == g.transactions && n.codes == g.codes && n.tokens.Keys == g.tokens.Keys
      && (forall x :: x in g.tokens ==>
            n.tokens[x] == if replays && g.tokens[x].family == g.tokens[h].family
                           then g.tokens[x].(revokedAt := Some(c.now)) else g.tokens[x])
  {
    hide Words, Supported, Distinct, ParseScopes;
    if c.client.Some? && c.renew.scope.Some? {
      AllowedWords(o, c.client.value, c.renew.scope.value);
    }
  }

  /** What it is told: words beyond the client's or the token's are a bad scope, a token of no use an invalid grant. */
  lemma RenewRefusals(o: Settings, g: Grants, c: Call, error: ErrorCode)
    requires c.Renew? && Respond(o, g, c).1 == Refused(error)
    ensures
      var r := c.renew;
      var h := o.hash(r.refreshToken);
      var formed := WellFormedRenewal(o, r, c.client);
      var beyond := r.scope.Some? && h in g.tokens && exists s :: s in Words(r.scope.value) && s !in g.tokens[h].scopes;
      && error in {InvalidRequest, InvalidGrant, InvalidTarget, UnsupportedGrantType, BadScope}
      && (formed && (h !in g.tokens || g.tokens[h].consumedAt.Some?) ==> error == InvalidGrant)
      && (formed && h in g.tokens && g.tokens[h].consumedAt.None? && beyond ==> error == BadScope)
      && (formed && h in g.tokens && r.scope.Some? && !beyond ==> error == InvalidGrant)
      && (error == UnsupportedGrantType ==> r.grantType != "refresh_token")
      && (error == InvalidTarget ==> r.resource != o.resource)
      && (error == InvalidRequest || error == UnsupportedGrantType || error == InvalidTarget ==> !formed)
  {
    hide Words, Supported, Distinct, ParseScopes;
    if c.client.Some? && c.renew.scope.Some? {
      AllowedWords(o, c.client.value, c.renew.scope.value);
    }
    if RenewRequestError(o, c.renew, c.client).None? && c.renew.scope.Some? {
      var parsed := ParseScopes(c.renew.scope.value, Supported(o, c.client.value.scopes));
      assert parsed.value != [] && Distinct(parsed.value);
    }
  }
}
