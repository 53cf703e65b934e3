/**
 * The other direction: a client that begins, completes and exchanges as it should, in time and with
 * secrets that nobody else brought up in between, is granted what it asked for.
 */
module HonestClients {
  import opened Options
  import opened RefreshTokens
  import opened AuthorizationStores
  import opened AuthorizationBroker
  import opened BrokerLaws
  import opened GrantProvenance

  lemma {:induction false} HistoryIsCalls(o: Settings, calls: seq<Call>)
    ensures
      var history := MakeAll(o, START, calls).history;
      |history| == |calls| && forall i :: 0 <= i < |calls| ==> history[i].call == calls[i]
  {
    hide Respond;
    if calls != [] {
      HistoryIsCalls(o, calls[..|calls| - 1]);
    }
  }

  /** What a longer run adds comes after. */
  lemma {:induction false} HistoryGrows(o: Settings, calls: seq<Call>, n: nat)
    requires n <= |calls|
    ensures
      var history := MakeAll(o, START, calls).history;
      n <= |history| && MakeAll(o, START, calls[..n]).history == history[..n]
    decreases |calls|
  {
    hide Respond;
    HistoryIsCalls(o, calls);
    if n == |calls| {
      assert calls[..n] == calls;
      assert MakeAll(o, START, calls).history[..n] == MakeAll(o, START, calls).history;
    } else {
      var m := |calls| - 1;
      HistoryGrows(o, calls[..m], n);
      HistoryIsCalls(o, calls[..m]);
      assert calls[..m][..n] == calls[..n];
    }
  }

  /** A transaction that no call brings up stays as it is. */
  lemma TransactionStays(o: Settings, g: Grants, c: Call, h: Hash)
    requires h in g.transactions && StateOf(o, c) != Some(h)
    ensures h in Respond(o, g, c).0.transactions && Respond(o, g, c).0.transactions[h] == g.transactions[h]
  {
    hide BeginError, ExchangeError, RenewRequestError, ExchangeRequestError, ParseScopes, BegunTransaction;
  }

  lemma CodeStays(o: Settings, g: Grants, c: Call, h: Hash)
    requires h in g.codes && CodeOf(o, c) != Some(h)
    ensures h in Respond(o, g, c).0.codes && Respond(o, g, c).0.codes[h] == g.codes[h]
  {
    hide BeginError, ExchangeError, RenewRequestError, ExchangeRequestError, ParseScopes, BegunTransaction;
  }

  lemma {:induction false} TransactionWaits(o: Settings, calls: seq<Call>, b: nat, n: nat, h: Hash)
    requires b < n <= |calls|
    requires h in MakeAll(o, START, calls[..b + 1]).grants.transactions
    requires forall i :: b < i < n ==> StateOf(o, calls[i]) != Some(h)
    ensures
      var was, is_ := MakeAll(o, START, calls[..b + 1]).grants, MakeAll(o, START, calls[..n]).grants;
      h in is_.transactions && is_.transactions[h] == was.transactions[h]
    decreases n
  {
    hide Respond;
    if n > b + 1 {
      TransactionWaits(o, calls, b, n - 1, h);
      OneMore(o, calls, n - 1);
      TransactionStays(o, MakeAll(o, START, calls[..n - 1]).grants, calls[n - 1], h);
    }
  }

  lemma {:induction false} CodeWaits(o: Settings, calls: seq<Call>, k: nat, n: nat, h: Hash)
    requires k < n <= |calls|
    requires h in MakeAll(o, START, calls[..k + 1]).grants.codes
    requires forall i :: k < i < n ==> CodeOf(o, calls[i]) != Some(h)
    ensures
      var was, is_ := MakeAll(o, START, calls[..k + 1]).grants, MakeAll(o, START, calls[..n]).grants;
      h in is_.codes && is_.codes[h] == was.codes[h]
    decreases n
  {
    hide Respond;
    if n > k + 1 {
      CodeWaits(o, calls, k, n - 1, h);
      OneMore(o, calls, n - 1);
      CodeStays(o, MakeAll(o, START, calls[..n - 1]).grants, calls[n - 1], h);
    }
  }

  lemma OneMore(o: Settings, calls: seq<Call>, n: nat)
    requires n < |calls|
    ensures MakeAll(o, START, calls[..n + 1]) == Make(o, MakeAll(o, START, calls[..n]), calls[n])
  {
    assert calls[..n + 1][..n] == calls[..n];
  }

  // ---------------------------------------------------------------- the three calls

  /** A begin that asks for what it may, in form. */
  ghost predicate BeginsWell(o: Settings, c: Call) {
    && c.Begin?
    && var r := c.begin;
    && 0 < |r.clientId| <= 256 && 0 < |r.redirectUri| <= 2048 && 0 < |r.state| <= 1024
    && 0 < |r.resource| <= 2048 && 0 < |r.scope| <= 1024
    && r.responseType == "code" && r.codeChallengeMethod == "S256"
    && |r.codeChallenge| == 43 && Base64Url(r.codeChallenge, "_-")
    && r.resource == o.resource
    && MayAsk(o, c.client, r.clientId, r.redirectUri, r.scope)
  }

  /** The completion of that transaction, in time and identified. */
  ghost predicate CompletesWell(o: Settings, begin: Call, c: Call)
    requires begin.Begin?
  {
    && c.Complete?
    && 0 < |c.state| <= 256 && 0 < |c.googleCode| <= 4096
    && o.hash(c.state) == o.hash(begin.secrets.state)
    && c.now < begin.now + o.transactionTtlSeconds * 1000
    && o.identify(c.googleCode, begin.secrets.codeVerifier, begin.secrets.nonce, c.now).Some?
  }

  /** The exchange of that code, in time, bound as it was begun, by a client that is still registered. */
  ghost predicate ExchangesWell(o: Settings, begin: Call, complete: Call, c: Call)
    requires begin.Begin? && complete.Complete?
  {
    && c.Exchange?
    && var r := c.exchange;
    && WellFormedExchange(r)
    && o.hash(r.code) == o.hash(complete.code)
    && c.now < complete.now + o.authorizationCodeTtlSeconds * 1000
    && r.clientId == begin.begin.clientId
    && r.redirectUri == begin.begin.redirectUri
    && r.resource == begin.begin.resource
    && Proves(o, r.codeVerifier, begin.begin.codeChallenge)
    && c.client.Some?
    && c.client.value.clientId == begin.begin.clientId
    && begin.begin.redirectUri in c.client.value.redirectUris
    && forall s :: s in Words(begin.begin.scope) ==> s in c.client.value.scopes
  }

  lemma BeginIsKept(o: Settings, g: Grants, c: Call)
    requires BeginsWell(o, c)
    ensures
      var (n, reply) := Respond(o, g, c);
      && reply == Redirecting(c.secrets.state)
      && o.hash(c.secrets.state) in n.transactions
      && IsFrom(o, c, n.transactions[o.hash(c.secrets.state)])
  {
    hide Respond, Words, MayAsk;
    BeginsExactly(o, g, c);
    BeginsWith(o, g, c);
  }

  /** The transaction that a begin makes. */
  ghost predicate IsFrom(o: Settings, c: Call, t: Transaction)
    requires c.Begin?
  {
    && t.clientId == c.begin.clientId && t.redirectUri == c.begin.redirectUri && t.resource == c.begin.resource
    && t.codeChallenge == c.begin.codeChallenge
    && t.googleNonce == c.secrets.nonce && t.googleCodeVerifier == c.secrets.codeVerifier
    && t.expiresAt == c.now + o.transactionTtlSeconds * 1000
    && forall s :: s in t.scopes <==> s in Words(c.begin.scope)
  }

  /** The code that a completion makes of it. */
  ghost predicate IsCodeFrom(o: Settings, begin: Call, c: Call, code: Code)
    requires begin.Begin? && c.Complete?
  {
    && code.clientId == begin.begin.clientId && code.redirectUri == begin.begin.redirectUri
    && code.resource == begin.begin.resource && code.codeChallenge == begin.begin.codeChallenge
    && code.expiresAt == c.now + o.authorizationCodeTtlSeconds * 1000
    && o.identify(c.googleCode, begin.secrets.codeVerifier, begin.secrets.nonce, c.now) == Some(code.identity)
    && forall s :: s in code.scopes <==> s in Words(begin.begin.scope)
  }

  lemma CompletionIsCoded(o: Settings, g: Grants, begin: Call, c: Call)
    requires begin.Begin? && CompletesWell(o, begin, c)
    requires o.hash(begin.secrets.state) in g.transactions
    requires IsFrom(o, begin, g.transactions[o.hash(begin.secrets.state)])
    ensures
      var (n, reply) := Respond(o, g, c);
      reply == Coded(c.code) && o.hash(c.code) in n.codes && IsCodeFrom(o, begin, c, n.codes[o.hash(c.code)])
  {
    hide Respond, Words;
    CompletesExactly(o, g, c);
    CompletesWith(o, g, c);
  }

  lemma ExchangeIsGranted(o: Settings, g: Grants, begin: Call, complete: Call, c: Call)
    requires begin.Begin? && complete.Complete? && begin.begin.resource == o.resource
    requires ExchangesWell(o, begin, complete, c)
    requires o.hash(complete.code) in g.codes && IsCodeFrom(o, begin, complete, g.codes[o.hash(complete.code)])
    ensures
      var reply := Respond(o, g, c).1;
      && reply.Granted?
      && o.identify(complete.googleCode, begin.secrets.codeVerifier, begin.secrets.nonce, complete.now).Some?
      && var who := o.identify(complete.googleCode, begin.secrets.codeVerifier, begin.secrets.nonce,
                               complete.now).value;
      && reply.access.subject == who.subject && reply.access.email == who.email
      && reply.access.audience == begin.begin.resource
      && (forall s :: s in reply.access.scopes <==> s in Words(begin.begin.scope))
      && (reply.refreshToken.Some? <==> RefreshTokenGrant in c.client.value.grantTypes)
  {
    hide Respond, Words, Proves, WellFormedExchange;
    ExchangesExactly(o, g, c);
    ExchangesWith(o, g, c);
  }

  /**
   * In every run: begun in form, completed in time with an identity, exchanged in time with the proof,
   * and nobody brought up the state or the code in between. Then the exchange is granted, for the
   * identity vouched for and for exactly the words asked for.
   */
  lemma HonestClientIsGranted(o: Settings, calls: seq<Call>, b: nat, k: nat, e: nat)
    requires b < k < e < |calls|
    requires BeginsWell(o, calls[b]) && CompletesWell(o, calls[b], calls[k])
    requires ExchangesWell(o, calls[b], calls[k], calls[e])
    requires forall i :: b < i < k ==> StateOf(o, calls[i]) != StateOf(o, calls[b])
    requires forall i :: k < i < e ==> CodeOf(o, calls[i]) != CodeOf(o, calls[k])
    ensures
      var history := MakeAll(o, START, calls).history;
      && |history| == |calls|
      && history[e].reply.Granted?
      && o.identify(calls[k].googleCode, calls[b].secrets.codeVerifier, calls[b].secrets.nonce, calls[k].now).Some?
      && var who := o.identify(calls[k].googleCode, calls[b].secrets.codeVerifier, calls[b].secrets.nonce,
                               calls[k].now).value;
      && history[e].reply.access.subject == who.subject && history[e].reply.access.email == who.email
      && history[e].reply.access.audience == calls[b].begin.resource
      && (forall s :: s in history[e].reply.access.scopes <==> s in Words(calls[b].begin.scope))
      && (history[e].reply.refreshToken.Some? <==> RefreshTokenGrant in calls[e].client.value.grantTypes)
  {
    hide Respond, Words, BeginsWell, CompletesWell, ExchangesWell, MakeAll, IsFrom, IsCodeFrom;
    var begin, complete := calls[b], calls[k];
    var g := MakeAll(o, START, calls[..b]).grants;
    BeginIsInForm(o, begin);
    CompletionIsInForm(o, begin, complete);
    BeginIsKept(o, g, begin);
    OneMore(o, calls, b);
    TransactionWaits(o, calls, b, k, o.hash(begin.secrets.state));
    CompletionIsCoded(o, MakeAll(o, START, calls[..k]).grants, begin, complete);
    OneMore(o, calls, k);
    CodeWaits(o, calls, k, e, o.hash(complete.code));
    ExchangeIsGranted(o, MakeAll(o, START, calls[..e]).grants, begin, complete, calls[e]);
    OneMore(o, calls, e);
    HistoryIsCalls(o, calls);
    HistoryIsCalls(o, calls[..e]);
    HistoryGrows(o, calls, e + 1);
    assert MakeAll(o, START, calls).history[e] == MakeAll(o, START, calls[..e + 1]).history[e];
  }

  lemma BeginIsInForm(o: Settings, c: Call)
    requires BeginsWell(o, c)
    ensures c.Begin? && c.begin.resource == o.resource
  {
  }

  lemma CompletionIsInForm(o: Settings, begin: Call, c: Call)
    requires begin.Begin? && CompletesWell(o, begin, c)
    ensures c.Complete?
  {
  }
}
