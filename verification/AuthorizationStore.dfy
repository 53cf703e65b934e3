/** The in-memory store of the authorization broker: transactions, codes and refresh tokens. */
module AuthorizationStores {
  import opened Options
  import opened RefreshTokens

  datatype Transaction = Transaction(
    clientId: string,
    redirectUri: string,
    resource: string,
    scopes: seq<string>,
    clientState: string,
    codeChallenge: string,
    googleNonce: string,
    googleCodeVerifier: string,
    expiresAt: Time)

  datatype Code = Code(
    clientId: string,
    redirectUri: string,
    resource: string,
    scopes: seq<string>,
    codeChallenge: string,
    identity: Identity,
    expiresAt: Time)

  datatype Grants = Grants(
    transactions: map<Hash, Transaction>,
    codes: map<Hash, Code>,
    tokens: map<Hash, Token>)

  class AuthorizationStore {
    var transactions: map<Hash, Transaction>
    var authorizationCodes: map<Hash, Code>
    var refreshTokens: map<Hash, Token>

    ghost function View(): Grants
      reads this
    {
      Grants(transactions, authorizationCodes, refreshTokens)
    }

    constructor ()
      ensures View() == Grants(map[], map[], map[])
    {
      transactions, authorizationCodes, refreshTokens := map[], map[], map[];
    }

    method SaveTransaction(h: Hash, t: Transaction)
      modifies this
      ensures View() == old(View()).(transactions := old(transactions)[h := t])
    {
      transactions := transactions[h := t];
    }

    /** Hands out a transaction and forgets it, so that nobody is handed it twice. */
    method ConsumeTransaction(h: Hash) returns (t: Option<Transaction>)
      modifies this
      ensures t == if h in old(transactions) then Some(old(transactions)[h]) else None
      ensures View() == old(View()).(transactions := old(transactions) - {h})
    {
      t := if h in transactions then Some(transactions[h]) else None;
      transactions := transactions - {h};
    }

    method SaveAuthorizationCode(h: Hash, c: Code)
      modifies this
      ensures View() == old(View()).(codes := old(authorizationCodes)[h := c])
    {
      authorizationCodes := authorizationCodes[h := c];
    }

    method ConsumeAuthorizationCode(h: Hash) returns (c: Option<Code>)
      modifies this
      ensures c == if h in old(authorizationCodes) then Some(old(authorizationCodes)[h]) else None
      ensures View() == old(View()).(codes := old(authorizationCodes) - {h})
    {
      c := if h in authorizationCodes then Some(authorizationCodes[h]) else None;
      authorizationCodes := authorizationCodes - {h};
    }

    method SaveRefreshToken(h: Hash, t: Token)
      modifies this
      ensures View() == old(View()).(tokens := old(refreshTokens)[h := t])
    {
      refreshTokens := refreshTokens[h := t];
    }

    method RevokeTokensOf(family: string, now: Time)
      modifies this
      ensures View() == old(View()).(tokens := RevokeFamily(old(refreshTokens), family, now))
    {
      var left := refreshTokens.Keys;
      while left != {}
        invariant left <= refreshTokens.Keys == old(refreshTokens).Keys
        invariant forall h :: h in left ==> refreshTokens[h] == old(refreshTokens)[h]
        invariant forall h :: h in refreshTokens && h !in left ==>
                    refreshTokens[h] == RevokeFamily(old(refreshTokens), family, now)[h]
        invariant transactions == old(transactions) && authorizationCodes == old(authorizationCodes)
        decreases |left|
      {
        var h :| h in left;
        left := left - {h};
        if refreshTokens[h].family == family {
          refreshTokens := refreshTokens[h := refreshTokens[h].(revokedAt := Some(now))];
        }
      }
    }

    method RotateRefreshToken(q: Rotation) returns (result: Result)
      modifies this
      ensures transactions == old(transactions) && authorizationCodes == old(authorizationCodes)
      ensures result == Outcome(old(refreshTokens), q)
      ensures refreshTokens == Rotate(old(refreshTokens), q)
    {
      if q.tokenHash !in refreshTokens {
        return Invalid;
      }
      var record := refreshTokens[q.tokenHash];
      if record.consumedAt.Some? {
        RevokeTokensOf(record.family, q.now);
        return Replayed;
      }
      var scopes := if q.scopes.Some? then q.scopes.value else record.scopes;
      if !Distinct(scopes) || scopes == [] || exists scope :: scope in scopes && scope !in record.scopes {
        return InvalidScope;
      }
      if record.revokedAt.Some? || record.expiresAt <= q.now || record.clientId != q.clientId
         || record.resource != q.resource {
        return Invalid;
      }
      refreshTokens := refreshTokens[q.tokenHash := record.(consumedAt := Some(q.now))];
      refreshTokens := refreshTokens[q.replacement :=
        record.(scopes := scopes, consumedAt := None, revokedAt := None)];
      return Rotated(record);
    }
  }
}
