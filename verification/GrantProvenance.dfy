/**
 * Whole runs of the broker: where each access token comes from, and how often a grant is used.
 */
module GrantProvenance {
  import opened Options
  import opened RefreshTokens
  import opened AuthorizationStores
  import opened AuthorizationBroker

  datatype Entry = Entry(call: Call, reply: Reply)

  datatype World = World(grants: Grants, history: seq<Entry>)

  const START := World(Grants(map[], map[], map[]), [])

  function Make(o: Settings, w: World, c: Call): World {
    var (grants, reply) := Respond(o, w.grants, c);
    World(grants, w.history + [Entry(c, reply)])
  }

  function MakeAll(o: Settings, w: World, calls: seq<Call>): World {
    if calls == [] then w else
    Make(o, MakeAll(o, w, calls[..|calls| - 1]), calls[|calls| - 1])
  }

  /** The transaction secret a call brings up, as created or as presented. */
  function StateOf(o: Settings, c: Call): Option<Hash> {
    match c
    case Begin(_, _, secrets, _) => Some(o.hash(secrets.state))
    case Complete(state, _, _, _) => Some(o.hash(state))
    case Deny(state, _) => Some(o.hash(state))
    case _ => None
  }

  /** The authorization code a call brings up. */
  function CodeOf(o: Settings, c: Call): Option<Hash> {
    match c
    case Complete(_, _, code, _) => Some(o.hash(code))
    case Exchange(r, _, _, _, _) => Some(o.hash(r.code))
    case _ => None
  }

  /** A secret drawn by this call has not come up before. */
  ghost predicate FreshSecrets(o: Settings, w: World, c: Call) {
    && (c.Begin? ==> forall i :: 0 <= i < |w.history| ==> StateOf(o, w.history[i].call) != StateOf(o, c))
    && (c.Complete? ==> forall i :: 0 <= i < |w.history| ==> CodeOf(o, w.history[i].call) != CodeOf(o, c))
    && (c.Exchange? ==> o.hash(c.refreshToken) !in w.grants.tokens)
    && (c.Exchange? ==> forall h :: h in w.grants.tokens ==> w.grants.tokens[h].family != c.family)
    && (c.Renew? ==> o.hash(c.replacement) !in w.grants.tokens && o.hash(c.replacement) != o.hash(c.renew.refreshToken))
  }

  ghost predicate FreshCalls(o: Settings, w: World, calls: seq<Call>) {
    calls == [] || (FreshCalls(o, w, calls[..|calls| - 1])
                    && FreshSecrets(o, MakeAll(o, w, calls[..|calls| - 1]), calls[|calls| - 1]))
  }

  // ---------------------------------------------------------------- provenance

  /** The registry knows the client, with this redirect and these scopes. */
  predicate Registered(client: Option<Client>, clientId: string, redirectUri: string, scopes: seq<string>) {
    && client.Some?
    && client.value.clientId == clientId
    && redirectUri in client.value.redirectUris
    && Contains(client.value.scopes, scopes)
  }

  /** Entry `b` began the transaction `t` under the hash `h`. */
  ghost predicate Begun(o: Settings, history: seq<Entry>, b: nat, h: Hash, t: Transaction) {
    && b < |history|
    && history[b].call.Begin?
    && history[b].reply.Redirecting?
    && var c := history[b].call;
    && h == o.hash(c.secrets.state)
    && BeginError(o, c.begin, c.client).None?
    && t == BegunTransaction(o, c.begin, c.client.value, c.secrets, c.now)
    && Registered(c.client, t.clientId, t.redirectUri, t.scopes)
    && Contains(o.scopesSupported, t.scopes)
    && t.clientId == c.begin.clientId
    && t.resource == c.begin.resource == o.resource
    && SameScopes(Words(c.begin.scope), t.scopes)
  }

  /** Entry `k` completed the transaction begun at `b` and issued `code` under the hash `h`. */
  ghost predicate Completed(o: Settings, history: seq<Entry>, b: nat, k: nat, h: Hash, code: Code) {
    && b < k < |history|
    && history[k].call.Complete?
    && history[k].reply.Coded?
    && var c := history[k].call;
    && h == o.hash(c.code)
    && exists t :: && Begun(o, history, b, o.hash(c.state), t)
                   && c.now < t.expiresAt
                   && var identity := o.identify(c.googleCode, t.googleCodeVerifier, t.googleNonce, c.now);
                   && identity.Some? && code == IssuedCode(o, t, identity.value, c.now)
  }

  /** Entry `e` exchanged, in time and with proof of possession, the code issued at `k`. */
  ghost predicate Exchanged(o: Settings, history: seq<Entry>, b: nat, k: nat, e: nat, code: Code) {
    && k < e < |history|
    && history[e].call.Exchange?
    && history[e].reply.Granted?
    && var c := history[e].call;
    && Completed(o, history, b, k, o.hash(c.exchange.code), code)
    && c.now < code.expiresAt
    && ProvesChallenge(o, c.exchange.codeVerifier, code.codeChallenge)
    && c.exchange.clientId == code.clientId
    && c.exchange.redirectUri == code.redirectUri
    && Registered(c.client, code.clientId, code.redirectUri, code.scopes)
    && (history[e].reply.refreshToken.Some? <==> RefreshTokenGrant in c.client.value.grantTypes)
    && history[e].reply.access.scopes == code.scopes
    && c.exchange.resource == code.resource
  }

  /** The hash of the refresh token that an entry handed out. */
  function HandedOut(o: Settings, entry: Entry): Option<Hash> {
    if !entry.reply.Granted? || entry.reply.refreshToken.None? then None
    else Some(o.hash(entry.reply.refreshToken.value))
  }

  /** The same scopes, in whatever order. */
  ghost predicate SameScopes(a: seq<string>, b: seq<string>) {
    Contains(a, b) && Contains(b, a)
  }

  /**
   * Entry `j` presents the refresh token that entry `i` handed out; it is granted the words it asks
   * for, all of them granted at `i`, or what was granted at `i` if it asks for none.
   */
  ghost predicate Presents(o: Settings, history: seq<Entry>, i: nat, j: nat) {
    && i < j < |history|
    && history[i].reply.Granted?
    && history[j].reply.Granted?
    && history[j].call.Renew?
    && HandedOut(o, history[i]) == Some(o.hash(history[j].call.renew.refreshToken))
    && Contains(history[i].reply.access.scopes, history[j].reply.access.scopes)
    && var asked := history[j].call.renew.scope;
    && (asked.None? ==> history[j].reply.access.scopes == history[i].reply.access.scopes)
    && (asked.Some? ==> SameScopes(history[j].reply.access.scopes, Words(asked.value)))
  }

  /**
   * Entry `j` stands in the line of the exchange at `e`: each renewal presents the token handed out by
   * the one before.
   */
  ghost predicate Line(o: Settings, history: seq<Entry>, e: nat, j: nat)
    decreases j
  {
    && e <= j < |history|
    && history[j].reply.Granted?
    && if history[j].call.Exchange? then j == e
       else exists i: nat :: i < j && Presents(o, history, i, j) && Line(o, history, e, i)
  }

  /** `token`, kept under `h`, was handed out at `j` in the line of that exchange: same family and
      holder, the scopes granted at `j`, the deadline fixed at `e`. */
  ghost predicate Descends(o: Settings, history: seq<Entry>, b: nat, k: nat, e: nat, j: nat, h: Hash, token: Token) {
    && Line(o, history, e, j)
    && HandedOut(o, history[j]) == Some(h)
    && token.scopes == history[j].reply.access.scopes
    && exists code ::
         && Exchanged(o, history, b, k, e, code)
         && token.family == history[e].call.family
         && token.clientId == code.clientId
         && token.resource == code.resource
         && token.identity == code.identity
         && token.scopes != []
         && Contains(code.scopes, token.scopes)
         && Distinct(token.scopes)
         && token.expiresAt == Deadline(o, history[e].call.client.value, history[e].call.now)
  }

  /** The access token of entry `i` goes back to the exchange at `e`, the completion at `k` and the beginning at `b`. */
  ghost predicate Traces(o: Settings, history: seq<Entry>, i: nat, b: nat, k: nat, e: nat) {
    && Line(o, history, e, i)
    && exists code ::
         && Exchanged(o, history, b, k, e, code)
         && var access := history[i].reply.access;
         && access.audience == code.resource == o.resource
         && access.subject == code.identity.subject
         && access.email == code.identity.email
         && access.scopes != []
         && Contains(code.scopes, access.scopes)
         && access.issuedAt == history[i].call.now / 1000
         && access.expiresAt == access.issuedAt + o.accessTokenTtlSeconds
         && (i != e ==> && history[i].call.Renew?
                        && history[i].call.renew.clientId == code.clientId
                        && history[i].call.client.Some?
                        && RefreshTokenGrant in history[i].call.client.value.grantTypes
                        && history[i].call.now < Deadline(o, history[e].call.client.value, history[e].call.now))
  }

  ghost predicate TransactionsKnown(o: Settings, m: map<Hash, Transaction>, history: seq<Entry>) {
    forall h :: h in m ==> exists b :: Begun(o, history, b, h, m[h])
  }

  ghost predicate CodesKnown(o: Settings, m: map<Hash, Code>, history: seq<Entry>) {
    forall h :: h in m ==> exists b, k :: Completed(o, history, b, k, h, m[h])
  }

  ghost predicate TokensKnown(o: Settings, m: map<Hash, Token>, history: seq<Entry>) {
    forall h :: h in m ==> exists b, k, e, j :: Descends(o, history, b, k, e, j, h, m[h])
  }

  ghost predicate GrantsKnown(o: Settings, g: Grants, history: seq<Entry>) {
    && TransactionsKnown(o, g.transactions, history)
    && CodesKnown(o, g.codes, history)
    && TokensKnown(o, g.tokens, history)
  }

  ghost predicate Inv(o: Settings, w: World) {
    && GrantsKnown(o, w.grants, w.history)
    && (forall i :: 0 <= i < |w.history| && w.history[i].reply.Granted? ==>
          exists b, k, e :: Traces(o, w.history, i, b, k, e))
  }

  // ---------------------------------------------------------------- a longer history knows as much

  lemma BegunLater(o: Settings, history: seq<Entry>, entry: Entry)
    ensures forall b, h, t :: Begun(o, history, b, h, t) ==> Begun(o, history + [entry], b, h, t)
  {
  }

  lemma CompletedLater(o: Settings, history: seq<Entry>, entry: Entry)
    ensures forall b, k, h, c :: Completed(o, history, b, k, h, c) ==> Completed(o, history + [entry], b, k, h, c)
  {
    BegunLater(o, history, entry);
  }

  lemma ExchangedLater(o: Settings, history: seq<Entry>, entry: Entry)
    ensures forall b, k, e, c :: Exchanged(o, history, b, k, e, c) ==> Exchanged(o, history + [entry], b, k, e, c)
  {
    CompletedLater(o, history, entry);
  }

  lemma {:induction false} LineLater(o: Settings, history: seq<Entry>, entry: Entry, e: nat, j: nat)
    requires Line(o, history, e, j)
    ensures Line(o, history + [entry], e, j)
    decreases j
  {
    if !history[j].call.Exchange? {
      var i: nat :| i < j && Presents(o, history, i, j) && Line(o, history, e, i);
      LineLater(o, history, entry, e, i);
      assert Presents(o, history + [entry], i, j);
    }
  }

  lemma DescendsLater(o: Settings, history: seq<Entry>, entry: Entry)
    ensures forall b, k, e, j, h, t ::
              Descends(o, history, b, k, e, j, h, t) ==> Descends(o, history + [entry], b, k, e, j, h, t)
  {
    hide Descends;
    forall b, k, e, j, h, t | Descends(o, history, b, k, e, j, h, t)
      ensures Descends(o, history + [entry], b, k, e, j, h, t)
    {
      DescendsOneLater(o, history, entry, b, k, e, j, h, t);
    }
  }

  lemma DescendsOneLater(o: Settings, history: seq<Entry>, entry: Entry, b: nat, k: nat, e: nat, j: nat, h: Hash,
                         t: Token)
    requires Descends(o, history, b, k, e, j, h, t)
    ensures Descends(o, history + [entry], b, k, e, j, h, t)
  {
    hide Completed;
    ExchangedLater(o, history, entry);
    LineLater(o, history, entry, e, j);
  }

  lemma TracesOneLater(o: Settings, history: seq<Entry>, entry: Entry, i: nat, b: nat, k: nat, e: nat)
    requires Traces(o, history, i, b, k, e)
    ensures Traces(o, history + [entry], i, b, k, e)
  {
    hide Completed;
    ExchangedLater(o, history, entry);
    LineLater(o, history, entry, e, i);
  }

  lemma TracesLater(o: Settings, history: seq<Entry>, entry: Entry)
    ensures forall i, b, k, e :: Traces(o, history, i, b, k, e) ==> Traces(o, history + [entry], i, b, k, e)
  {
    hide Traces;
    forall i, b, k, e | Traces(o, history, i, b, k, e)
      ensures Traces(o, history + [entry], i, b, k, e)
    {
      TracesOneLater(o, history, entry, i, b, k, e);
    }
  }

  lemma KnownLater(o: Settings, g: Grants, history: seq<Entry>, entry: Entry)
    requires GrantsKnown(o, g, history)
    ensures GrantsKnown(o, g, history + [entry])
  {
    hide Begun, Completed, Descends;
    BegunLater(o, history, entry);
    CompletedLater(o, history, entry);
    DescendsLater(o, history, entry);
  }

  // ---------------------------------------------------------------- every call keeps it

  lemma BeginKnown(o: Settings, w: World, c: Call)
    requires c.Begin? && GrantsKnown(o, w.grants, w.history)
    ensures GrantsKnown(o, Make(o, w, c).grants, Make(o, w, c).history)
  {
    var n := Make(o, w, c);
    KnownLater(o, w.grants, w.history, n.history[|w.history|]);
    if BeginError(o, c.begin, c.client).None? {
      var h := o.hash(c.secrets.state);
      assert Begun(o, n.history, |w.history|, h, n.grants.transactions[h]);
    }
  }

  lemma CodeCompleted(o: Settings, w: World, c: Call)
    requires c.Complete? && TransactionsKnown(o, w.grants.transactions, w.history)
    requires Respond(o, w.grants, c).1.Coded?
    ensures o.hash(c.code) in Make(o, w, c).grants.codes
    ensures exists b, k ::
              Completed(o, Make(o, w, c).history, b, k, o.hash(c.code), Make(o, w, c).grants.codes[o.hash(c.code)])
  {
    hide BeginError, BegunTransaction;
    var n := Make(o, w, c);
    var h := o.hash(c.state);
    var t := w.grants.transactions[h];
    var b :| Begun(o, w.history, b, h, t);
    BegunLater(o, w.history, n.history[|w.history|]);
    assert Begun(o, n.history, b, h, t);
    assert Completed(o, n.history, b, |w.history|, o.hash(c.code), n.grants.codes[o.hash(c.code)]);
  }

  lemma CompleteKnown(o: Settings, w: World, c: Call)
    requires (c.Complete? || c.Deny?) && GrantsKnown(o, w.grants, w.history)
    ensures GrantsKnown(o, Make(o, w, c).grants, Make(o, w, c).history)
  {
    hide Begun, Completed, Descends;
    var n := Make(o, w, c);
    KnownLater(o, w.grants, w.history, n.history[|w.history|]);
    if n.history[|w.history|].reply.Coded? {
      CodeCompleted(o, w, c);
    }
  }

  lemma CodeIsSound(o: Settings, history: seq<Entry>, b: nat, k: nat, h: Hash, code: Code)
    requires Completed(o, history, b, k, h, code)
    ensures code.scopes != [] && Distinct(code.scopes) && code.resource == o.resource
  {
  }

  lemma CodeExchanged(o: Settings, w: World, c: Call) returns (b: nat, k: nat, code: Code)
    requires c.Exchange? && CodesKnown(o, w.grants.codes, w.history)
    requires Respond(o, w.grants, c).1.Granted?
    ensures Lookup(w.grants.codes, o.hash(c.exchange.code)) == Some(code)
    ensures Exchanged(o, Make(o, w, c).history, b, k, |w.history|, code)
    ensures code.scopes != [] && Distinct(code.scopes) && code.resource == o.resource
  {
    hide Begun;
    var h := o.hash(c.exchange.code);
    var history := Make(o, w, c).history;
    assert history == w.history + [Entry(c, Respond(o, w.grants, c).1)];
    code := w.grants.codes[h];
    b, k :| Completed(o, w.history, b, k, h, code);
    CodeIsSound(o, w.history, b, k, h, code);
    CompletedLater(o, w.history, history[|w.history|]);
    assert Completed(o, history, b, k, h, code);
  }

  lemma FirstTokenDescends(o: Settings, w: World, c: Call, b: nat, k: nat, code: Code)
    requires c.Exchange? && Lookup(w.grants.codes, o.hash(c.exchange.code)) == Some(code)
    requires Respond(o, w.grants, c).1.Granted? && Respond(o, w.grants, c).1.refreshToken.Some?
    requires Exchanged(o, Make(o, w, c).history, b, k, |w.history|, code)
    requires code.scopes != [] && Distinct(code.scopes)
    ensures o.hash(c.refreshToken) in Make(o, w, c).grants.tokens
    ensures Descends(o, Make(o, w, c).history, b, k, |w.history|, |w.history|, o.hash(c.refreshToken),
                     Make(o, w, c).grants.tokens[o.hash(c.refreshToken)])
  {
    hide Completed;
    var history := Make(o, w, c).history;
    assert Line(o, history, |w.history|, |w.history|);
  }

  lemma ExchangeKnown(o: Settings, w: World, c: Call)
    requires c.Exchange? && GrantsKnown(o, w.grants, w.history)
    ensures GrantsKnown(o, Make(o, w, c).grants, Make(o, w, c).history)
  {
    hide Begun, Completed, Exchanged, Descends;
    var n := Make(o, w, c);
    KnownLater(o, w.grants, w.history, n.history[|w.history|]);
    if n.history[|w.history|].reply.Granted? && n.history[|w.history|].reply.refreshToken.Some? {
      var b, k, code := CodeExchanged(o, w, c);
      FirstTokenDescends(o, w, c, b, k, code);
    }
  }

  /** Rotation stamps use on the tokens there are, and adds one with the effective scopes. */
  lemma RotateInherits(m: map<Hash, Token>, q: Rotation, h: Hash)
    requires h in Rotate(m, q)
    ensures
      var s := Rotate(m, q)[h];
      if Outcome(m, q).Rotated? && h == q.replacement then
        && q.tokenHash in m
        && var t := m[q.tokenHash];
        && s == Successor(t, q)
        && Contains(t.scopes, s.scopes)
        && s.scopes != []
        && Distinct(s.scopes)
      else
        && h in m
        && s == m[h].(consumedAt := s.consumedAt, revokedAt := s.revokedAt)
  {
  }

  /** The entry of a renewal continues the line of the token it presents. */
  lemma RenewContinuesLine(o: Settings, w: World, c: Call, e: nat, j: nat, t: Token)
    requires c.Renew? && Respond(o, w.grants, c).1.Granted?
    requires Lookup(w.grants.tokens, o.hash(c.renew.refreshToken)) == Some(t)
    requires Line(o, w.history, e, j) && HandedOut(o, w.history[j]) == Some(o.hash(c.renew.refreshToken))
    requires t.scopes == w.history[j].reply.access.scopes
    ensures Line(o, Make(o, w, c).history, e, |w.history|)
  {
    var history := Make(o, w, c).history;
    assert history == w.history + [Entry(c, Respond(o, w.grants, c).1)];
    LineLater(o, w.history, history[|w.history|], e, j);
    assert history[j] == w.history[j];
    assert Presents(o, history, j, |w.history|);
  }

  /** What a granted renewal tells: the token presented, and the successor now on record. */
  lemma RenewGranted(o: Settings, g: Grants, c: Call) returns (t: Token, s: Token)
    requires c.Renew? && Respond(o, g, c).1.Granted?
    ensures Lookup(g.tokens, o.hash(c.renew.refreshToken)) == Some(t)
    ensures Lookup(Respond(o, g, c).0.tokens, o.hash(c.replacement)) == Some(s)
    ensures s == t.(scopes := s.scopes, consumedAt := None, revokedAt := None)
    ensures s.scopes != [] && Distinct(s.scopes) && Contains(t.scopes, s.scopes)
    ensures
      var access := Respond(o, g, c).1.access;
      && access == Issue(o, t.identity, t.resource, s.scopes, c.now)
      && Respond(o, g, c).1.refreshToken == Some(c.replacement)
    ensures c.now < t.expiresAt && c.renew.clientId == t.clientId && t.resource == o.resource && c.client.Some?
    ensures RefreshTokenGrant in c.client.value.grantTypes
    ensures c.renew.scope.None? ==> s.scopes == t.scopes
    ensures c.renew.scope.Some? ==> SameScopes(s.scopes, Words(c.renew.scope.value))
  {
    hide Words;
    var q := RotationOf(o, c.renew, c.client.value, c.replacement, c.now);
    t := g.tokens[q.tokenHash];
    s := Successor(t, q);
  }

  lemma SuccessorDescends(o: Settings, w: World, c: Call)
    requires c.Renew? && TokensKnown(o, w.grants.tokens, w.history) && Respond(o, w.grants, c).1.Granted?
    ensures o.hash(c.replacement) in Make(o, w, c).grants.tokens
    ensures exists b, k, e, j ::
              Descends(o, Make(o, w, c).history, b, k, e, j, o.hash(c.replacement),
                       Make(o, w, c).grants.tokens[o.hash(c.replacement)])
  {
    hide Begun, Completed, Line, Respond, Distinct, Deadline, Registered, ProvesChallenge;
    var n := Make(o, w, c);
    var t, s := RenewGranted(o, w.grants, c);
    var b, k, e, j :| Descends(o, w.history, b, k, e, j, o.hash(c.renew.refreshToken), t);
    RenewContinuesLine(o, w, c, e, j, t);
    ExchangedLater(o, w.history, n.history[|w.history|]);
    assert Descends(o, n.history, b, k, e, |w.history|, o.hash(c.replacement), s);
  }

  lemma StampedDescends(o: Settings, history: seq<Entry>, b: nat, k: nat, e: nat, j: nat, h: Hash, t: Token, s: Token)
    requires Descends(o, history, b, k, e, j, h, t) && s == t.(consumedAt := s.consumedAt, revokedAt := s.revokedAt)
    ensures Descends(o, history, b, k, e, j, h, s)
  {
    hide Exchanged, Line;
  }

  lemma RenewKnown(o: Settings, w: World, c: Call)
    requires c.Renew? && GrantsKnown(o, w.grants, w.history)
    ensures GrantsKnown(o, Make(o, w, c).grants, Make(o, w, c).history)
  {
    hide Begun, Completed, Descends;
    var n := Make(o, w, c);
    KnownLater(o, w.grants, w.history, n.history[|w.history|]);
    if RenewRequestError(o, c.renew, c.client).None? {
      var q := RotationOf(o, c.renew, c.client.value, c.replacement, c.now);
      forall h | h in n.grants.tokens
        ensures exists b, k, e, j :: Descends(o, n.history, b, k, e, j, h, n.grants.tokens[h])
      {
        RotateInherits(w.grants.tokens, q, h);
        if Outcome(w.grants.tokens, q).Rotated? && h == q.replacement {
          SuccessorDescends(o, w, c);
        } else {
          var b, k, e, j :| Descends(o, n.history, b, k, e, j, h, w.grants.tokens[h]);
          StampedDescends(o, n.history, b, k, e, j, h, w.grants.tokens[h], n.grants.tokens[h]);
        }
      }
    }
  }

  lemma ExchangeTraces(o: Settings, w: World, c: Call)
    requires c.Exchange? && CodesKnown(o, w.grants.codes, w.history)
    requires Respond(o, w.grants, c).1.Granted?
    ensures exists b, k, e :: Traces(o, Make(o, w, c).history, |w.history|, b, k, e)
  {
    hide Begun, Completed, Exchanged;
    var b, k, code := CodeExchanged(o, w, c);
    assert Line(o, Make(o, w, c).history, |w.history|, |w.history|);
    assert Traces(o, Make(o, w, c).history, |w.history|, b, k, |w.history|);
  }

  lemma RenewTraces(o: Settings, w: World, c: Call)
    requires c.Renew? && TokensKnown(o, w.grants.tokens, w.history)
    requires Respond(o, w.grants, c).1.Granted?
    ensures exists b, k, e :: Traces(o, Make(o, w, c).history, |w.history|, b, k, e)
  {
    hide Begun, Completed, Line, Respond;
    var history := Make(o, w, c).history;
    var t, s := RenewGranted(o, w.grants, c);
    var b, k, e, j :| Descends(o, w.history, b, k, e, j, o.hash(c.renew.refreshToken), t);
    RenewContinuesLine(o, w, c, e, j, t);
    ExchangedLater(o, w.history, history[|w.history|]);
    assert Traces(o, history, |w.history|, b, k, e);
  }

  lemma OnlyExchangesGrant(o: Settings, g: Grants, c: Call)
    ensures Respond(o, g, c).1.Granted? ==> c.Exchange? || c.Renew?
  {
  }

  lemma MakeKeepsInv(o: Settings, w: World, c: Call)
    requires Inv(o, w)
    ensures Inv(o, Make(o, w, c))
  {
    hide TransactionsKnown, CodesKnown, TokensKnown, Traces, Respond;
    var n := Make(o, w, c);
    match c {
      case Begin(_, _, _, _) => BeginKnown(o, w, c);
      case Exchange(_, _, _, _, _) => ExchangeKnown(o, w, c);
      case Renew(_, _, _, _) => RenewKnown(o, w, c);
      case _ => CompleteKnown(o, w, c);
    }
    forall i | 0 <= i < |n.history| && n.history[i].reply.Granted?
      ensures exists b, k, e :: Traces(o, n.history, i, b, k, e)
    {
      if i < |w.history| {
        TracesLater(o, w.history, n.history[|w.history|]);
      } else {
        OnlyExchangesGrant(o, w.grants, c);
        if c.Exchange? {
          ExchangeTraces(o, w, c);
        } else {
          RenewTraces(o, w, c);
        }
      }
    }
  }

  lemma {:induction false} RunKeepsInv(o: Settings, calls: seq<Call>)
    ensures Inv(o, MakeAll(o, START, calls))
  {
    if calls != [] {
      RunKeepsInv(o, calls[..|calls| - 1]);
      MakeKeepsInv(o, MakeAll(o, START, calls[..|calls| - 1]), calls[|calls| - 1]);
    }
  }

  /**
   * The calls behind an exchange, and nothing else: who began, who completed, who exchanged. The
   * verifier proves the challenge that was sent at the beginning, under the same client, redirect and
   * resource; the identity is the one vouched for under the secrets of that beginning; both steps came
   * in time; and the client was registered for all of it at the beginning and at the exchange.
   */
  ghost predicate Origin(o: Settings, history: seq<Entry>, b: nat, k: nat, e: nat) {
    && b < k < e < |history|
    && history[b].call.Begin? && history[b].reply.Redirecting?
    && history[k].call.Complete? && history[k].reply.Coded?
    && history[e].call.Exchange? && history[e].reply.Granted?
    && var begin, secrets, exchange := history[b].call.begin, history[b].call.secrets, history[e].call.exchange;
    && o.hash(history[k].call.state) == o.hash(secrets.state)
    && o.hash(exchange.code) == o.hash(history[k].call.code)
    && o.challenge(exchange.codeVerifier) == begin.codeChallenge
    && exchange.clientId == begin.clientId
    && exchange.redirectUri == begin.redirectUri
    && exchange.resource == begin.resource == o.resource
    && history[k].call.now < history[b].call.now + o.transactionTtlSeconds * 1000
    && history[e].call.now < history[k].call.now + o.authorizationCodeTtlSeconds * 1000
    && SameScopes(history[e].reply.access.scopes, Words(begin.scope))
    && Registered(history[b].call.client, begin.clientId, begin.redirectUri, Words(begin.scope))
    && Registered(history[e].call.client, begin.clientId, begin.redirectUri, Words(begin.scope))
    && Contains(o.scopesSupported, Words(begin.scope))
  }

  /** The identity that was vouched for when the transaction was completed. */
  ghost function Vouched(o: Settings, history: seq<Entry>, b: nat, k: nat): Option<Identity>
    requires b < |history| && k < |history| && history[b].call.Begin? && history[k].call.Complete?
  {
    var secrets := history[b].call.secrets;
    o.identify(history[k].call.googleCode, secrets.codeVerifier, secrets.nonce, history[k].call.now)
  }

  /** What an access token in that line says, and until when it could be renewed. */
  ghost predicate Bears(o: Settings, history: seq<Entry>, i: nat, b: nat, k: nat, e: nat)
    requires Origin(o, history, b, k, e) && i < |history| && history[i].reply.Granted?
  {
    var access := history[i].reply.access;
    && Vouched(o, history, b, k).Some?
    && access.subject == Vouched(o, history, b, k).value.subject
    && access.email == Vouched(o, history, b, k).value.email
    && access.audience == history[b].call.begin.resource
    && access.scopes != []
    && Contains(Words(history[b].call.begin.scope), access.scopes)
    && access.issuedAt == history[i].call.now / 1000
    && access.expiresAt == access.issuedAt + o.accessTokenTtlSeconds
    && (i != e ==>
          && history[i].call.Renew?
          && history[i].call.renew.clientId == history[b].call.begin.clientId
          && history[i].call.now < history[e].call.now + o.refreshTokenTtlSeconds * 1000
          && (history[e].call.client.value.expiresAtMs.Some? ==>
                history[i].call.now < history[e].call.client.value.expiresAtMs.value))
  }

  lemma ExchangeHasOrigin(o: Settings, history: seq<Entry>, b: nat, k: nat, e: nat, code: Code)
    requires Exchanged(o, history, b, k, e, code)
    ensures Origin(o, history, b, k, e)
    ensures Vouched(o, history, b, k) == Some(code.identity)
    ensures code.resource == history[b].call.begin.resource && code.clientId == history[b].call.begin.clientId
    ensures Contains(Words(history[b].call.begin.scope), code.scopes)
  {
    hide Words, BeginError, Supported;
  }

  lemma TraceHasOrigin(o: Settings, history: seq<Entry>, i: nat, b: nat, k: nat, e: nat)
    requires Traces(o, history, i, b, k, e)
    ensures Origin(o, history, b, k, e) && Line(o, history, e, i) && Bears(o, history, i, b, k, e)
  {
    hide Words, Completed, Origin;
    assert i < |history| && history[i].reply.Granted?;
    var code :| Exchanged(o, history, b, k, e, code) && Contains(code.scopes, history[i].reply.access.scopes)
                && history[i].reply.access.subject == code.identity.subject
                && history[i].reply.access.email == code.identity.email
                && history[i].reply.access.audience == code.resource
                && (i != e ==> history[i].call.renew.clientId == code.clientId);
    ExchangeHasOrigin(o, history, b, k, e, code);
    OriginIsRegistered(o, history, b, k, e);
  }

  lemma OriginIsRegistered(o: Settings, history: seq<Entry>, b: nat, k: nat, e: nat)
    requires Origin(o, history, b, k, e)
    ensures b < k < e < |history| && history[b].call.Begin? && history[k].call.Complete? && history[e].call.Exchange?
    ensures history[e].call.client.Some?
  {
  }

  /**
   * Every access token of every run stands in a line of renewals that goes back to one exchanged code
   * and one completed transaction, told by the calls alone: same client, resource and verified
   * identity, no wider scopes, no later deadline.
   */
  lemma AccessTokensTrace(o: Settings, calls: seq<Call>, i: nat)
    requires i < |MakeAll(o, START, calls).history|
    requires MakeAll(o, START, calls).history[i].reply.Granted?
    ensures exists b, k, e ::
              && Traces(o, MakeAll(o, START, calls).history, i, b, k, e)
              && Origin(o, MakeAll(o, START, calls).history, b, k, e)
              && Line(o, MakeAll(o, START, calls).history, e, i)
              && Bears(o, MakeAll(o, START, calls).history, i, b, k, e)
  {
    hide Traces, Origin, Line, Bears, MakeAll;
    RunKeepsInv(o, calls);
    var history := MakeAll(o, START, calls).history;
    var b, k, e :| Traces(o, history, i, b, k, e);
    TraceHasOrigin(o, history, i, b, k, e);
  }

  // ---------------------------------------------------------------- single use

  predicate IsExchange(entry: Entry) {
    entry.call.Exchange? && entry.reply.Granted?
  }

  /** What has been completed or exchanged is in no table any more. */
  ghost predicate Spent(o: Settings, w: World) {
    forall i :: 0 <= i < |w.history| ==>
      && (w.history[i].reply.Coded? || w.history[i].reply.Denied? ==>
            StateOf(o, w.history[i].call).Some? && StateOf(o, w.history[i].call).value !in w.grants.transactions)
      && (IsExchange(w.history[i]) ==> o.hash(w.history[i].call.exchange.code) !in w.grants.codes)
  }

  /** No two entries complete one transaction, and no two exchange one code. */
  ghost predicate UsedOnce(o: Settings, history: seq<Entry>) {
    forall i, j :: 0 <= i < j < |history| ==>
      && (history[i].reply.Coded? && history[j].reply.Coded? ==>
            StateOf(o, history[i].call) != StateOf(o, history[j].call))
      && (IsExchange(history[i]) && IsExchange(history[j]) ==>
            o.hash(history[i].call.exchange.code) != o.hash(history[j].call.exchange.code))
  }

  /** How a call moves the tables: it removes what it presents and adds only what it draws. */
  lemma RespondSpends(o: Settings, g: Grants, c: Call)
    ensures var (n, reply) := Respond(o, g, c);
            && (reply.Coded? ==> c.Complete?)
            && (reply.Denied? ==> c.Deny?)
            && (reply.Coded? || reply.Denied? ==>
                  o.hash(c.state) in g.transactions && o.hash(c.state) !in n.transactions)
            && (c.Exchange? && reply.Granted? ==>
                  o.hash(c.exchange.code) in g.codes && o.hash(c.exchange.code) !in n.codes)
            && (forall h :: h in n.transactions && h !in g.transactions ==> c.Begin? && Some(h) == StateOf(o, c))
            && (forall h :: h in n.codes && h !in g.codes ==> c.Complete? && Some(h) == CodeOf(o, c))
  {
  }

  lemma MakeSpends(o: Settings, w: World, c: Call)
    requires Spent(o, w) && FreshSecrets(o, w, c)
    ensures Spent(o, Make(o, w, c))
  {
    hide Respond;
    RespondSpends(o, w.grants, c);
    var n := Make(o, w, c);
    forall i | 0 <= i < |w.history|
      ensures w.history[i].reply.Coded? || w.history[i].reply.Denied? ==>
                StateOf(o, w.history[i].call).value !in n.grants.transactions
      ensures w.history[i].call.Exchange? && w.history[i].reply.Granted? ==>
                o.hash(w.history[i].call.exchange.code) !in n.grants.codes
    {
      assert w.history[i].call.Exchange? ==> CodeOf(o, w.history[i].call).Some?;
    }
  }

  lemma MakeUsesOnce(o: Settings, w: World, c: Call)
    requires Spent(o, w) && UsedOnce(o, w.history)
    ensures UsedOnce(o, Make(o, w, c).history)
  {
    hide Respond;
    RespondSpends(o, w.grants, c);
  }

  lemma {:induction false} SpentAlways(o: Settings, calls: seq<Call>)
    requires FreshCalls(o, START, calls)
    ensures Spent(o, MakeAll(o, START, calls)) && UsedOnce(o, MakeAll(o, START, calls).history)
  {
    hide Respond, Spent, UsedOnce;
    if calls == [] {
      StartIsUnused(o);
    } else {
      var before := MakeAll(o, START, calls[..|calls| - 1]);
      SpentAlways(o, calls[..|calls| - 1]);
      MakeSpends(o, before, calls[|calls| - 1]);
      MakeUsesOnce(o, before, calls[|calls| - 1]);
    }
  }

  lemma StartIsUnused(o: Settings)
    ensures Spent(o, START) && UsedOnce(o, [])
  {
  }

  /** In every run a transaction is completed at most once and a code is exchanged at most once. */
  lemma GrantsAreSingleUse(o: Settings, calls: seq<Call>)
    requires FreshCalls(o, START, calls)
    ensures UsedOnce(o, MakeAll(o, START, calls).history)
  {
    SpentAlways(o, calls);
  }

  // ---------------------------------------------------------------- one origin

  /** Secrets drawn by a call do not come up earlier in the history. */
  ghost predicate SecretsDistinct(o: Settings, history: seq<Entry>) {
    forall i, j :: 0 <= i < j < |history| ==>
      && (history[j].call.Begin? ==> StateOf(o, history[i].call) != StateOf(o, history[j].call))
      && (history[j].call.Complete? ==> CodeOf(o, history[i].call) != CodeOf(o, history[j].call))
  }

  /** Refresh tokens are handed out once, and stay on record. */
  ghost predicate HandedOutOnce(o: Settings, w: World) {
    && (forall i :: 0 <= i < |w.history| && HandedOut(o, w.history[i]).Some? ==>
          HandedOut(o, w.history[i]).value in w.grants.tokens)
    && (forall i, j :: 0 <= i < j < |w.history| && HandedOut(o, w.history[i]).Some? ==>
          HandedOut(o, w.history[i]) != HandedOut(o, w.history[j]))
  }

  /** No call forgets a refresh token, and what it hands out is a fresh one, now on record. */
  lemma RespondHandsOut(o: Settings, g: Grants, c: Call)
    ensures
      var (n, reply) := Respond(o, g, c);
      var handed := HandedOut(o, Entry(c, reply));
      && g.tokens.Keys <= n.tokens.Keys
      && (handed.Some? ==> handed.value in n.tokens)
      && (handed.Some? && c.Exchange? ==> handed.value == o.hash(c.refreshToken))
      && (handed.Some? && !c.Exchange? ==> c.Renew? && handed.value == o.hash(c.replacement))
  {
    hide BeginError, ExchangeError, RenewRequestError, ExchangeRequestError, ParseScopes;
  }

  lemma MakeHandsOutOnce(o: Settings, w: World, c: Call)
    requires HandedOutOnce(o, w) && FreshSecrets(o, w, c)
    ensures HandedOutOnce(o, Make(o, w, c))
  {
    hide Respond;
    RespondHandsOut(o, w.grants, c);
    var n := Make(o, w, c);
    assert forall i :: 0 <= i < |w.history| ==> n.history[i] == w.history[i];
  }

  lemma {:induction false} RunKeepsSecretsDistinct(o: Settings, calls: seq<Call>)
    requires FreshCalls(o, START, calls)
    ensures SecretsDistinct(o, MakeAll(o, START, calls).history)
    ensures HandedOutOnce(o, MakeAll(o, START, calls))
  {
    hide Respond, HandedOutOnce;
    if calls == [] {
      StartHandsOutNothing(o);
    } else {
      var n := |calls| - 1;
      var before := MakeAll(o, START, calls[..n]);
      RunKeepsSecretsDistinct(o, calls[..n]);
      MakeHandsOutOnce(o, before, calls[n]);
    }
  }

  lemma StartHandsOutNothing(o: Settings)
    ensures HandedOutOnce(o, START)
  {
  }

  lemma {:induction false} LineIsUnique(o: Settings, w: World, i: nat, e: nat, f: nat)
    requires HandedOutOnce(o, w) && Line(o, w.history, e, i) && Line(o, w.history, f, i)
    ensures e == f
    decreases i
  {
    if !w.history[i].call.Exchange? {
      var a: nat :| a < i && Presents(o, w.history, a, i) && Line(o, w.history, e, a);
      var b: nat :| b < i && Presents(o, w.history, b, i) && Line(o, w.history, f, b);
      assert a == b;
      LineIsUnique(o, w, a, e, f);
    }
  }

  lemma CompletionIsUnique(o: Settings, history: seq<Entry>, b: nat, k: nat, c: nat, l: nat, h: Hash, x: Code, y: Code)
    requires SecretsDistinct(o, history) && Completed(o, history, b, k, h, x) && Completed(o, history, c, l, h, y)
    ensures b == c && k == l
  {
    hide BeginError, BegunTransaction, Registered;
    assert CodeOf(o, history[k].call) == CodeOf(o, history[l].call);
    assert k == l;
    assert StateOf(o, history[b].call) == StateOf(o, history[c].call);
  }

  /** With fresh secrets an access token has one origin: one line, one exchange, one completion, one beginning. */
  lemma OriginIsUnique(o: Settings, calls: seq<Call>, i: nat, b: nat, k: nat, e: nat, c: nat, l: nat, f: nat)
    requires FreshCalls(o, START, calls)
    requires Traces(o, MakeAll(o, START, calls).history, i, b, k, e)
    requires Traces(o, MakeAll(o, START, calls).history, i, c, l, f)
    ensures b == c && k == l && e == f
  {
    hide MakeAll, FreshCalls, Completed, Line, SecretsDistinct, HandedOutOnce;
    var w := MakeAll(o, START, calls);
    RunKeepsSecretsDistinct(o, calls);
    LineIsUnique(o, w, i, e, f);
    var x :| Exchanged(o, w.history, b, k, e, x);
    var y :| Exchanged(o, w.history, c, l, f, y);
    CompletionIsUnique(o, w.history, b, k, c, l, o.hash(w.history[e].call.exchange.code), x, y);
  }
}
