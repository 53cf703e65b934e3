/**
 * Rotating refresh tokens: what one rotation does, and what every run of rotations keeps. A token is used at
 * most once; using one twice ends its whole family (section 4.14.2 of RFC 9700).
 */
module RefreshTokens {
  import opened Options

  type Hash = string
  type Time = int

  datatype Identity = Identity(issuer: string, subject: string, email: string)

  datatype Token = Token(
    family: string,
    clientId: string,
    resource: string,
    scopes: seq<string>,
    identity: Identity,
    expiresAt: Time,
    consumedAt: Option<Time>,
    revokedAt: Option<Time>)

  datatype Rotation = Rotation(
    tokenHash: Hash,
    replacement: Hash,
    clientId: string,
    resource: string,
    scopes: Option<seq<string>>,
    now: Time)

  datatype Result = Rotated(record: Token) | Invalid | InvalidScope | Replayed

  predicate Distinct(s: seq<string>) {
    forall i, j :: 0 <= i < j < |s| ==> s[i] != s[j]
  }

  predicate Contains(whole: seq<string>, part: seq<string>) {
    forall scope :: scope in part ==> scope in whole
  }

  predicate Live(t: Token) {
    t.consumedAt.None? && t.revokedAt.None?
  }

  predicate Usable(t: Token, q: Rotation) {
    t.revokedAt.None? && t.expiresAt > q.now && t.clientId == q.clientId && t.resource == q.resource
  }

  function Requested(t: Token, q: Rotation): seq<string> {
    if q.scopes.Some? then q.scopes.value else t.scopes
  }

  function RevokeFamily(m: map<Hash, Token>, family: string, now: Time): map<Hash, Token> {
    map h | h in m :: if m[h].family == family then m[h].(revokedAt := Some(now)) else m[h]
  }

  function Successor(t: Token, q: Rotation): Token {
    t.(scopes := Requested(t, q), consumedAt := None, revokedAt := None)
  }

  function Outcome(m: map<Hash, Token>, q: Rotation): Result {
    if q.tokenHash !in m then Invalid else
    var t := m[q.tokenHash];
    var scopes := Requested(t, q);
    if t.consumedAt.Some? then Replayed
    else if !Distinct(scopes) || scopes == [] || !Contains(t.scopes, scopes) then InvalidScope
    else if !Usable(t, q) then Invalid
    else Rotated(t)
  }

  function Rotate(m: map<Hash, Token>, q: Rotation): map<Hash, Token> {
    match Outcome(m, q)
    case Rotated(t) =>
      m[q.tokenHash := t.(consumedAt := Some(q.now))][q.replacement := Successor(t, q)]
    case Replayed => RevokeFamily(m, m[q.tokenHash].family, q.now)
    case _ => m
  }

  // ---------------------------------------------------------------- one rotation

  /** Exactly when the map rotates a token, in terms of what is stored and asked. */
  lemma RotatesExactly(m: map<Hash, Token>, q: Rotation)
    ensures
      Outcome(m, q).Rotated?
      <==> && q.tokenHash in m
           && var t := m[q.tokenHash];
           && t.consumedAt.None? && t.revokedAt.None?
           && q.now < t.expiresAt
           && t.clientId == q.clientId && t.resource == q.resource
           && (if q.scopes.Some? then
                 && q.scopes.value != []
                 && Distinct(q.scopes.value)
                 && forall s :: s in q.scopes.value ==> s in t.scopes
               else t.scopes != [] && Distinct(t.scopes))
  {
  }

  /** What a rotation leaves: the token used, and a successor that differs in its scopes at most. */
  lemma RotationLeaves(m: map<Hash, Token>, q: Rotation)
    requires Outcome(m, q).Rotated?
    ensures
      var t := m[q.tokenHash];
      && Outcome(m, q).record == t
      && Rotate(m, q) == m[q.tokenHash := t.(consumedAt := Some(q.now))]
                          [q.replacement := t.(scopes := if q.scopes.Some? then q.scopes.value else t.scopes)]
  {
  }

  /** What a refusal leaves: only a replay changes anything, and it revokes the whole family. */
  lemma RefusalLeaves(m: map<Hash, Token>, q: Rotation)
    requires !Outcome(m, q).Rotated?
    ensures
      && (Outcome(m, q).Replayed? <==> q.tokenHash in m && m[q.tokenHash].consumedAt.Some?)
      && (!Outcome(m, q).Replayed? ==> Rotate(m, q) == m)
      && (Outcome(m, q).Replayed? ==>
            && Rotate(m, q).Keys == m.Keys
            && forall h :: h in m ==>
                 Rotate(m, q)[h]
                 == if m[h].family == m[q.tokenHash].family then m[h].(revokedAt := Some(q.now)) else m[h])
  {
  }

  // ---------------------------------------------------------------- runs

  /** What a store is asked: to keep the first token of a new family, or to rotate one. */
  datatype Request = Save(hash: Hash, token: Token, at: Time) | Refresh(rotation: Rotation)

  /** Random hashes and families never repeat; a first token starts unused. */
  ghost predicate Fresh(m: map<Hash, Token>, r: Request) {
    match r
    case Save(h, t, _) => h !in m && Live(t) && forall g :: g in m ==> m[g].family != t.family
    case Refresh(q) => q.replacement !in m && q.replacement != q.tokenHash
  }

  function Serve(m: map<Hash, Token>, r: Request): map<Hash, Token> {
    match r
    case Save(h, t, _) => m[h := t]
    case Refresh(q) => Rotate(m, q)
  }

  function ServeAll(m: map<Hash, Token>, run: seq<Request>): map<Hash, Token>
    decreases |run|
  {
    if run == [] then m else ServeAll(Serve(m, run[0]), run[1..])
  }

  ghost predicate FreshRun(m: map<Hash, Token>, run: seq<Request>)
    decreases |run|
  {
    run == [] || (Fresh(m, run[0]) && FreshRun(Serve(m, run[0]), run[1..]))
  }

  ghost predicate OneLivePerFamily(m: map<Hash, Token>) {
    forall g, h :: g in m && h in m && g != h && m[g].family == m[h].family ==> !(Live(m[g]) && Live(m[h]))
  }

  /** Used tokens stay used, families stay what they are, and a family with no live token gets none. */
  ghost predicate Follows(m: map<Hash, Token>, n: map<Hash, Token>) {
    && (forall h :: h in m ==> h in n && n[h].family == m[h].family && n[h].expiresAt == m[h].expiresAt)
    && (forall h :: h in m && m[h].consumedAt.Some? ==> n[h].consumedAt.Some?)
    && (forall h :: h in m && m[h].revokedAt.Some? ==> n[h].revokedAt.Some?)
    && (forall g :: g in m && EndedFamily(m, m[g].family) ==> EndedFamily(n, m[g].family))
  }

  ghost predicate EndedFamily(m: map<Hash, Token>, family: string) {
    forall h :: h in m && m[h].family == family ==> m[h].revokedAt.Some?
  }

  lemma ServeFollows(m: map<Hash, Token>, r: Request)
    requires Fresh(m, r)
    ensures Follows(m, Serve(m, r))
  {
  }

  lemma ServeKeepsOneLive(m: map<Hash, Token>, r: Request)
    requires OneLivePerFamily(m) && Fresh(m, r)
    ensures OneLivePerFamily(Serve(m, r))
  {
    var n := Serve(m, r);
    if r.Refresh? && Outcome(m, r.rotation).Rotated? {
      assert !Live(n[r.rotation.tokenHash]);
      assert forall h :: h in n && h != r.rotation.tokenHash && h != r.rotation.replacement ==> h in m && n[h] == m[h];
    }
  }

  lemma {:induction false} RunFollows(m: map<Hash, Token>, run: seq<Request>)
    requires FreshRun(m, run)
    ensures Follows(m, ServeAll(m, run))
    decreases |run|
  {
    if run != [] {
      ServeFollows(m, run[0]);
      RunFollows(Serve(m, run[0]), run[1..]);
    }
  }

  /** In every run each family has at most one live token. */
  lemma {:induction false} OneLiveTokenPerFamily(m: map<Hash, Token>, run: seq<Request>)
    requires OneLivePerFamily(m) && FreshRun(m, run)
    ensures OneLivePerFamily(ServeAll(m, run))
    decreases |run|
  {
    if run != [] {
      ServeKeepsOneLive(m, run[0]);
      OneLiveTokenPerFamily(Serve(m, run[0]), run[1..]);
    }
  }

  /** A token that rotated once never rotates again, whatever is served in between. */
  lemma RotatesAtMostOnce(m: map<Hash, Token>, first: Rotation, run: seq<Request>, again: Rotation)
    requires Fresh(m, Refresh(first)) && FreshRun(Rotate(m, first), run)
    requires Outcome(m, first).Rotated? && again.tokenHash == first.tokenHash
    ensures Outcome(ServeAll(Rotate(m, first), run), again) == Replayed
  {
    RunFollows(Rotate(m, first), run);
  }

  /** After a replay no token of that family, present or later, ever rotates. */
  lemma ReplayEndsFamily(m: map<Hash, Token>, replay: Rotation, run: seq<Request>, later: Rotation)
    requires FreshRun(Rotate(m, replay), run)
    requires Outcome(m, replay).Replayed?
    requires
      var n := ServeAll(Rotate(m, replay), run);
      later.tokenHash in n && n[later.tokenHash].family == m[replay.tokenHash].family
    ensures !Outcome(ServeAll(Rotate(m, replay), run), later).Rotated?
  {
    var family := m[replay.tokenHash].family;
    var after := Rotate(m, replay);
    assert EndedFamily(after, family) && after[replay.tokenHash].family == family;
    RunFollows(after, run);
    assert EndedFamily(ServeAll(after, run), family);
  }
}
