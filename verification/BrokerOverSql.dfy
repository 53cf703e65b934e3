/**
 * The broker over either refresh-token store: what it asks of its store in any run meets the
 * conditions under which the two stores agree, so it grants the same requests over both.
 */
module BrokerOverSql {
  import opened Options
  import opened RefreshTokens
  import opened RefreshRefinement
  import opened AuthorizationStores
  import opened AuthorizationBroker
  import opened GrantProvenance

  /** What a call asks of the refresh-token store, if anything. */
  function StoreRequest(o: Settings, g: Grants, c: Call): Option<Request> {
    match c
    case Exchange(r, client, refreshToken, family, now) =>
      var found := Lookup(g.codes, o.hash(r.code));
      var asked := ExchangeRequestError(r).None? && ExchangeError(o, r, found, client, now).None?;
      if !asked || RefreshTokenGrant !in client.value.grantTypes then None
      else Some(Save(o.hash(refreshToken), FirstToken(o, found.value, client.value, family, now), now))
    case Renew(r, client, replacement, now) =>
      if RenewRequestError(o, r, client).Some? then None
      else Some(Refresh(RotationOf(o, r, client.value, replacement, now)))
    case _ => None
  }

  /** The clock does not run backwards, and random families are not empty. */
  ghost predicate Ordinary(calls: seq<Call>, clock: Time) {
    && (forall i :: 0 <= i < |calls| ==> clock <= calls[i].now)
    && (forall i, j :: 0 <= i < j < |calls| ==> calls[i].now <= calls[j].now)
    && (forall i :: 0 <= i < |calls| && calls[i].Exchange? ==> calls[i].family != "")
  }

  function ClockAfter(calls: seq<Call>, clock: Time): Time {
    if calls == [] then clock else calls[|calls| - 1].now
  }

  // ---------------------------------------------------------------- one call

  lemma RequestIsServed(o: Settings, g: Grants, c: Call)
    ensures
      var asked := StoreRequest(o, g, c);
      Respond(o, g, c).0.tokens == if asked.Some? then Serve(g.tokens, asked.value) else g.tokens
  {
    hide BeginError, ExchangeError, RenewRequestError, ExchangeRequestError, ParseScopes, Rotate;
  }

  lemma RequestIsAdmissible(o: Settings, w: World, c: Call, clock: Time)
    requires GrantsKnown(o, w.grants, w.history) && FreshSecrets(o, w, c) && clock <= c.now
    requires c.Exchange? ==> c.family != ""
    ensures
      var asked := StoreRequest(o, w.grants, c);
      asked.Some? ==> Admissible(w.grants.tokens, asked.value, clock) && At(asked.value) == c.now
  {
    hide Begun, Completed, Descends;
    if c.Exchange? && StoreRequest(o, w.grants, c).Some? {
      var h := o.hash(c.exchange.code);
      var b, k :| Completed(o, w.history, b, k, h, w.grants.codes[h]);
      CodeIsSound(o, w.history, b, k, h, w.grants.codes[h]);
    }
  }

  // ---------------------------------------------------------------- the requests of a run

  function StoreRequests(o: Settings, calls: seq<Call>): seq<Request> {
    if calls == [] then [] else
    var n := |calls| - 1;
    var asked := StoreRequest(o, MakeAll(o, START, calls[..n]).grants, calls[n]);
    StoreRequests(o, calls[..n]) + if asked.Some? then [asked.value] else []
  }

  function LastAt(run: seq<Request>, clock: Time): Time {
    if run == [] then clock else At(run[|run| - 1])
  }

  lemma {:induction false} RunExtends(m: map<Hash, Token>, run: seq<Request>, r: Request, clock: Time)
    requires AdmissibleRun(m, run, clock) && Admissible(ServeAll(m, run), r, LastAt(run, clock))
    ensures AdmissibleRun(m, run + [r], clock)
    ensures ServeAll(m, run + [r]) == Serve(ServeAll(m, run), r)
    decreases |run|
  {
    hide Admissible, Serve;
    if run == [] {
      assert run + [r] == [r] && [r][1..] == [];
      assert AdmissibleRun(Serve(m, r), [], At(r));
    } else {
      assert (run + [r])[1..] == run[1..] + [r];
      assert run[1..] != [] ==> run[1..][|run| - 2] == run[|run| - 1];
      RunExtends(Serve(m, run[0]), run[1..], r, At(run[0]));
    }
  }

  /** The requests that a whole run of the broker makes of its refresh store form an admissible run. */
  lemma {:induction false} BrokerRequestsAreAdmissible(o: Settings, calls: seq<Call>, clock: Time)
    requires FreshCalls(o, START, calls) && Ordinary(calls, clock)
    ensures AdmissibleRun(map[], StoreRequests(o, calls), clock)
    ensures MakeAll(o, START, calls).grants.tokens == ServeAll(map[], StoreRequests(o, calls))
    ensures LastAt(StoreRequests(o, calls), clock) <= ClockAfter(calls, clock)
  {
    hide Respond, StoreRequest, Admissible, FreshSecrets, Serve;
    if calls != [] {
      var n := |calls| - 1;
      var before := MakeAll(o, START, calls[..n]);
      var run := StoreRequests(o, calls[..n]);
      BrokerRequestsAreAdmissible(o, calls[..n], clock);
      RunKeepsInv(o, calls[..n]);
      RequestIsServed(o, before.grants, calls[n]);
      RequestIsAdmissible(o, before, calls[n], LastAt(run, clock));
      var asked := StoreRequest(o, before.grants, calls[n]);
      if asked.Some? {
        RunExtends(map[], run, asked.value, clock);
      } else {
        assert run + [] == run;
      }
    }
  }

  // ---------------------------------------------------------------- the broker over the table

  function SqlRespond(o: Settings, g: Grants, c: Call): (Grants, Reply) {
    var asked := StoreRequest(o, g, c);
    var (n, reply) := Respond(o, g, c);
    if asked.None? then (n, reply)
    else if c.Renew? then
      var q := asked.value.rotation;
      (g.(tokens := SqlRotate(g.tokens, q)), RenewReply(o, q, c.replacement, SqlOutcome(g.tokens, q)))
    else (n.(tokens := SqlServe(g.tokens, asked.value)), reply)
  }

  function SqlMake(o: Settings, w: World, c: Call): World {
    var (grants, reply) := SqlRespond(o, w.grants, c);
    World(grants, w.history + [Entry(c, reply)])
  }

  function SqlMakeAll(o: Settings, calls: seq<Call>): World {
    if calls == [] then START else SqlMake(o, SqlMakeAll(o, calls[..|calls| - 1]), calls[|calls| - 1])
  }

  /** The same reply, or two refusals. */
  predicate AlikeReplies(a: Reply, b: Reply) {
    a == b || (a.Refused? && b.Refused?)
  }

  ghost predicate Related(w: World, v: World, clock: Time) {
    && w.grants.transactions == v.grants.transactions
    && w.grants.codes == v.grants.codes
    && Sim(w.grants.tokens, v.grants.tokens, clock)
    && |w.history| == |v.history|
    && forall i :: 0 <= i < |w.history| ==>
         w.history[i].call == v.history[i].call && AlikeReplies(w.history[i].reply, v.history[i].reply)
  }

  /** But for renewals, replies and what is not a refresh token do not depend on the refresh tokens. */
  lemma TokensDoNotMatter(o: Settings, g: Grants, tokens: map<Hash, Token>, c: Call)
    requires !c.Renew?
    ensures
      var (n, reply) := Respond(o, g, c);
      var (m, other) := Respond(o, g.(tokens := tokens), c);
      && reply == other
      && m.transactions == n.transactions
      && m.codes == n.codes
      && StoreRequest(o, g, c) == StoreRequest(o, g.(tokens := tokens), c)
  {
    hide BeginError, ExchangeError, ExchangeRequestError, ParseScopes;
  }

  lemma RenewAlike(o: Settings, g: Grants, h: Grants, c: Call, clock: Time)
    requires c.Renew? && Sim(g.tokens, h.tokens, clock) && clock <= c.now
    requires g.transactions == h.transactions && g.codes == h.codes
    ensures
      var (n, reply) := Respond(o, g, c);
      var (m, other) := SqlRespond(o, h, c);
      AlikeReplies(reply, other) && m.transactions == n.transactions && m.codes == n.codes
  {
    hide Sim, Outcome, SqlOutcome, Rotate, SqlRotate;
    if RenewRequestError(o, c.renew, c.client).None? {
      var q := RotationOf(o, c.renew, c.client.value, c.replacement, c.now);
      RotateAlikeUnlessRepeated(g.tokens, h.tokens, q, clock);
    }
  }

  lemma TokensStayRelated(o: Settings, w: World, v: World, c: Call, clock: Time)
    requires Related(w, v, clock) && GrantsKnown(o, w.grants, w.history) && FreshSecrets(o, w, c) && clock <= c.now
    requires c.Exchange? ==> c.family != ""
    ensures Sim(Respond(o, w.grants, c).0.tokens, SqlRespond(o, v.grants, c).0.tokens, c.now)
  {
    hide Respond, Admissible, GrantsKnown, FreshSecrets, Sim, Serve, SqlServe;
    RequestIsServed(o, w.grants, c);
    RequestIsServed(o, v.grants, c);
    RequestIsAdmissible(o, w, c, clock);
    SimLater(w.grants.tokens, v.grants.tokens, clock, c.now);
    SameRequest(o, w.grants, v.grants, c);
    SqlTokens(o, v.grants, c);
    var asked := StoreRequest(o, w.grants, c);
    if asked.Some? {
      ServeKeepsSim(w.grants.tokens, v.grants.tokens, asked.value, clock);
    }
  }

  lemma SameRequest(o: Settings, g: Grants, h: Grants, c: Call)
    requires g.codes == h.codes
    ensures StoreRequest(o, g, c) == StoreRequest(o, h, c)
  {
  }

  lemma SqlTokens(o: Settings, g: Grants, c: Call)
    ensures
      var asked := StoreRequest(o, g, c);
      SqlRespond(o, g, c).0.tokens == if asked.Some? then SqlServe(g.tokens, asked.value) else g.tokens
  {
    hide Respond, SqlRotate;
    RequestIsServed(o, g, c);
  }

  lemma MakeKeepsRelated(o: Settings, w: World, v: World, c: Call, clock: Time)
    requires Related(w, v, clock) && GrantsKnown(o, w.grants, w.history) && FreshSecrets(o, w, c) && clock <= c.now
    requires c.Exchange? ==> c.family != ""
    ensures Related(Make(o, w, c), SqlMake(o, v, c), c.now)
  {
    hide Respond, StoreRequest, GrantsKnown, FreshSecrets, Sim;
    TokensStayRelated(o, w, v, c, clock);
    if c.Renew? {
      RenewAlike(o, w.grants, v.grants, c, clock);
    } else {
      assert v.grants == w.grants.(tokens := v.grants.tokens);
      TokensDoNotMatter(o, w.grants, v.grants.tokens, c);
    }
  }

  lemma {:induction false} RunsStayRelated(o: Settings, calls: seq<Call>, clock: Time)
    requires FreshCalls(o, START, calls) && Ordinary(calls, clock)
    ensures Related(MakeAll(o, START, calls), SqlMakeAll(o, calls), ClockAfter(calls, clock))
  {
    hide Related, Make, SqlMake, FreshSecrets;
    if calls == [] {
      StartIsRelated(clock);
    } else {
      var n := |calls| - 1;
      RunsStayRelated(o, calls[..n], clock);
      RunKeepsInv(o, calls[..n]);
      MakeKeepsRelated(o, MakeAll(o, START, calls[..n]), SqlMakeAll(o, calls[..n]), calls[n],
                       ClockAfter(calls[..n], clock));
    }
  }

  lemma StartIsRelated(clock: Time)
    ensures Related(START, START, clock)
  {
  }

  /**
   * Over either store the broker answers every call of every run alike: it grants the same tokens, or
   * refuses both times.
   */
  lemma BrokerGrantsAlike(o: Settings, calls: seq<Call>, clock: Time)
    requires FreshCalls(o, START, calls) && Ordinary(calls, clock)
    ensures
      var w, v := MakeAll(o, START, calls), SqlMakeAll(o, calls);
      && |w.history| == |v.history|
      && forall i :: 0 <= i < |w.history| ==>
           w.history[i].call == v.history[i].call && AlikeReplies(w.history[i].reply, v.history[i].reply)
  {
    RunsStayRelated(o, calls, clock);
  }

  // ---------------------------------------------------------------- provenance over the table

  /** Histories that differ in the error of a refusal at most. */
  ghost predicate Alike(a: seq<Entry>, b: seq<Entry>) {
    && |a| == |b|
    && forall i :: 0 <= i < |a| ==> a[i].call == b[i].call && AlikeReplies(a[i].reply, b[i].reply)
  }

  lemma {:induction false} LineIsAlike(o: Settings, a: seq<Entry>, b: seq<Entry>, e: nat, j: nat)
    requires Alike(a, b) && Line(o, a, e, j)
    ensures Line(o, b, e, j)
    decreases j
  {
    assert a[j] == b[j];
    if !a[j].call.Exchange? {
      var i: nat :| i < j && Presents(o, a, i, j) && Line(o, a, e, i);
      assert a[i] == b[i];
      LineIsAlike(o, a, b, e, i);
      assert Presents(o, b, i, j);
    }
  }

  lemma OriginIsAlike(o: Settings, a: seq<Entry>, b: seq<Entry>, i: nat, x: nat, k: nat, e: nat)
    requires Alike(a, b) && Origin(o, a, x, k, e) && i < |a| && a[i].reply.Granted? && Bears(o, a, i, x, k, e)
    ensures Origin(o, b, x, k, e) && b[i].reply.Granted? && Bears(o, b, i, x, k, e)
  {
    hide Words, Contains;
    assert a[x] == b[x] && a[k] == b[k] && a[e] == b[e] && a[i] == b[i];
  }

  /** Over the table too every access token goes back, by the calls, to one exchange and one completion. */
  lemma SqlAccessTokensTrace(o: Settings, calls: seq<Call>, clock: Time, i: nat)
    requires FreshCalls(o, START, calls) && Ordinary(calls, clock)
    requires i < |SqlMakeAll(o, calls).history| && SqlMakeAll(o, calls).history[i].reply.Granted?
    ensures exists b, k, e ::
              && Origin(o, SqlMakeAll(o, calls).history, b, k, e)
              && Line(o, SqlMakeAll(o, calls).history, e, i)
              && Bears(o, SqlMakeAll(o, calls).history, i, b, k, e)
  {
    hide Origin, Line, Bears, Traces, MakeAll, SqlMakeAll, FreshCalls, Ordinary;
    BrokerGrantsAlike(o, calls, clock);
    var a, b := MakeAll(o, START, calls).history, SqlMakeAll(o, calls).history;
    assert Alike(a, b);
    AccessTokensTrace(o, calls, i);
    var x, k, e :| && Traces(o, a, i, x, k, e) && Origin(o, a, x, k, e) && Line(o, a, e, i) && Bears(o, a, i, x, k, e);
    LineIsAlike(o, a, b, e, i);
    OriginIsAlike(o, a, b, i, x, k, e);
  }
}
