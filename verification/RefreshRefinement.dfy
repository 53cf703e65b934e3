/**
 * The relational refresh-token store, and its relation to the in-memory one. The table forgets
 * expired rows whenever a token is saved; the theorems say that this, and its different order of
 * checks, never changes which requests rotate.
 */
module RefreshRefinement {
  import opened Options
  import opened RefreshTokens

  function Unexpired(rows: map<Hash, Token>, now: Time): map<Hash, Token> {
    map h | h in rows && rows[h].expiresAt > now :: rows[h]
  }

  /** The common table expressions of the rotation statement, named as the statement names them. */
  predicate ValidToken(rows: map<Hash, Token>, q: Rotation) {
    && q.tokenHash in rows
    && var current := rows[q.tokenHash];
    && current.consumedAt.None?
    && Usable(current, q)
    && (q.scopes.Some? ==> q.scopes.value != [] && Contains(current.scopes, q.scopes.value))
  }

  function ReplayRevoked(rows: map<Hash, Token>, q: Rotation): set<Hash> {
    set h | h in rows && q.tokenHash in rows && rows[q.tokenHash].consumedAt.Some?
            && rows[h].family == rows[q.tokenHash].family
  }

  function SqlOutcome(rows: map<Hash, Token>, q: Rotation): Result {
    if q.tokenHash !in rows || rows[q.tokenHash].family == "" then Invalid else
    var current := rows[q.tokenHash];
    if ReplayRevoked(rows, q) != {} then Replayed
    else if ValidToken(rows, q) then Rotated(current)
    else if current.consumedAt.None? && Usable(current, q) && q.scopes.Some? then InvalidScope
    else Invalid
  }

  function SqlRotate(rows: map<Hash, Token>, q: Rotation): map<Hash, Token> {
    match SqlOutcome(rows, q)
    case Replayed => Revoked(rows, ReplayRevoked(rows, q), q.now)
    case Rotated(t) =>
      rows[q.tokenHash := t.(consumedAt := Some(q.now))][q.replacement := Successor(t, q)]
    case _ => rows
  }

  function Revoked(rows: map<Hash, Token>, hashes: set<Hash>, now: Time): map<Hash, Token> {
    map h | h in rows :: if h in hashes then rows[h].(revokedAt := Some(now)) else rows[h]
  }

  function SqlServe(rows: map<Hash, Token>, r: Request): map<Hash, Token> {
    match r
    case Save(h, t, now) => Unexpired(rows, now)[h := t]
    case Refresh(q) => SqlRotate(rows, q)
  }

  class SqlRefreshTokenStore {
    var rows: map<Hash, Token>

    constructor ()
      ensures rows == map[]
    {
      rows := map[];
    }

    method SaveRefreshToken(h: Hash, t: Token, now: Time)
      modifies this
      ensures rows == SqlServe(old(rows), Save(h, t, now))
    {
      rows := map g | g in rows && rows[g].expiresAt > now :: rows[g];
      rows := rows[h := t];
    }

    method RotateRefreshToken(q: Rotation) returns (result: Result)
      modifies this
      ensures result == SqlOutcome(old(rows), q)
      ensures rows == SqlServe(old(rows), Refresh(q))
    {
      if q.tokenHash !in rows || rows[q.tokenHash].family == "" {
        return Invalid;
      }
      var current := rows[q.tokenHash];
      var replayRevoked := set h | h in rows && current.consumedAt.Some? && rows[h].family == current.family;
      assert replayRevoked == ReplayRevoked(rows, q);
      var validToken := ValidToken(rows, q) && replayRevoked == {};
      rows := Revoked(rows, replayRevoked, q.now);
      assert replayRevoked == {} ==> rows == old(rows);
      if validToken {
        rows := rows[q.tokenHash := current.(consumedAt := Some(q.now))];
        rows := rows[q.replacement := Successor(current, q)];
      }
      result :=
        if replayRevoked != {} then Replayed
        else if validToken then Rotated(current)
        else if current.consumedAt.None? && Usable(current, q) && q.scopes.Some? then InvalidScope
        else Invalid;
      assert current.consumedAt.Some? ==> q.tokenHash in replayRevoked;
    }
  }

  // ---------------------------------------------------------------- one statement

  /** Exactly when the table rotates a token, in terms of what is stored and asked. */
  lemma SqlRotatesExactly(rows: map<Hash, Token>, q: Rotation)
    ensures
      SqlOutcome(rows, q).Rotated?
      <==> && q.tokenHash in rows
           && var t := rows[q.tokenHash];
           && t.family != ""
           && t.consumedAt.None? && t.revokedAt.None?
           && q.now < t.expiresAt
           && t.clientId == q.clientId && t.resource == q.resource
           && (q.scopes.Some? ==> q.scopes.value != [] && forall s :: s in q.scopes.value ==> s in t.scopes)
  {
    if q.tokenHash in rows && rows[q.tokenHash].consumedAt.Some? {
      assert q.tokenHash in ReplayRevoked(rows, q);
    }
  }

  /** What it leaves, as the map's rotation does. */
  lemma SqlRotationLeaves(rows: map<Hash, Token>, q: Rotation)
    requires SqlOutcome(rows, q).Rotated?
    ensures
      var t := rows[q.tokenHash];
      && SqlOutcome(rows, q).record == t
      && SqlRotate(rows, q) == rows[q.tokenHash := t.(consumedAt := Some(q.now))]
                               [q.replacement := t.(scopes := if q.scopes.Some? then q.scopes.value else t.scopes,
                                                    consumedAt := None, revokedAt := None)]
  {
  }

  /** Refusals, by cause, and what they leave. */
  lemma SqlRefusals(rows: map<Hash, Token>, q: Rotation)
    requires !SqlOutcome(rows, q).Rotated?
    ensures
      var known := q.tokenHash in rows && rows[q.tokenHash].family != "";
      && (SqlOutcome(rows, q).Replayed? <==> known && rows[q.tokenHash].consumedAt.Some?)
      && (SqlOutcome(rows, q).InvalidScope? <==>
            && known
            && var t := rows[q.tokenHash];
            && t.consumedAt.None? && t.revokedAt.None? && q.now < t.expiresAt
            && t.clientId == q.clientId && t.resource == q.resource)
      && (!SqlOutcome(rows, q).Replayed? ==> SqlRotate(rows, q) == rows)
      && (SqlOutcome(rows, q).Replayed? ==>
            && SqlRotate(rows, q).Keys == rows.Keys
            && forall h :: h in rows ==>
                 SqlRotate(rows, q)[h] == if rows[h].family == rows[q.tokenHash].family
                                          then rows[h].(revokedAt := Some(q.now)) else rows[h])
  {
    if q.tokenHash in rows && rows[q.tokenHash].consumedAt.Some? {
      assert q.tokenHash in ReplayRevoked(rows, q);
    }
  }

  /** A save drops what has expired by then, and adds the new token. */
  lemma SqlSaves(rows: map<Hash, Token>, h: Hash, t: Token, now: Time)
    ensures
      var n := SqlServe(rows, Save(h, t, now));
      && h in n && n[h] == t
      && (forall g :: g != h ==> (g in n <==> g in rows && now < rows[g].expiresAt))
      && (forall g :: g != h && g in n ==> n[g] == rows[g])
  {
  }

  // ---------------------------------------------------------------- the two stores side by side

  /** What a save promises and what the clock promises, at a moment no earlier than `clock`. */
  ghost predicate Admissible(m: map<Hash, Token>, r: Request, clock: Time) {
    && Fresh(m, r)
    && clock <= At(r)
    && (r.Save? ==> r.token.family != "" && r.token.scopes != [] && Distinct(r.token.scopes))
    && (r.Refresh? && r.rotation.scopes.Some? ==> Distinct(r.rotation.scopes.value))
  }

  function At(r: Request): Time {
    match r
    case Save(_, _, now) => now
    case Refresh(q) => q.now
  }

  /**
   * The table holds exactly what the map holds, but for whole families that expired. Members of a
   * family share one expiry, so no live descendant ever loses an ancestor.
   */
  ghost predicate Sim(m: map<Hash, Token>, rows: map<Hash, Token>, clock: Time) {
    && (forall h :: h in rows ==> h in m && rows[h] == m[h])
    && (forall h :: h in m && h !in rows ==> m[h].expiresAt <= clock)
    && (forall g, h :: g in m && h in m && m[g].family == m[h].family ==>
          m[g].expiresAt == m[h].expiresAt && (g in rows <==> h in rows))
    && (forall h :: h in m ==> m[h].family != "" && m[h].scopes != [] && Distinct(m[h].scopes))
  }

  /**
   * On related stores the same request rotates the same record, unless it repeats a scope: then
   * the map refuses what the table accepts.
   */
  lemma RotateAlikeUnlessRepeated(m: map<Hash, Token>, rows: map<Hash, Token>, q: Rotation, clock: Time)
    requires Sim(m, rows, clock) && clock <= q.now
    ensures var repeated := q.scopes.Some? && !Distinct(q.scopes.value);
            && (Outcome(m, q).Rotated? <==> SqlOutcome(rows, q).Rotated? && !repeated)
            && (Outcome(m, q).Rotated? ==> Outcome(m, q) == SqlOutcome(rows, q))
            && (SqlOutcome(rows, q).Replayed? ==> Outcome(m, q).Replayed?)
  {
    if q.tokenHash in rows && rows[q.tokenHash].consumedAt.Some? {
      assert q.tokenHash in ReplayRevoked(rows, q);
    }
  }

  lemma SaveKeepsSim(m: map<Hash, Token>, rows: map<Hash, Token>, h: Hash, t: Token, now: Time, clock: Time)
    requires Sim(m, rows, clock) && Admissible(m, Save(h, t, now), clock)
    ensures Sim(m[h := t], Unexpired(rows, now)[h := t], now)
  {
  }

  /** One token changed, one of the same family added, on both sides. */
  lemma BothKeepSim(m: map<Hash, Token>, rows: map<Hash, Token>, h: Hash, used: Token, g: Hash, next: Token,
                    clock: Time)
    requires Sim(m, rows, clock) && h in rows && g !in m && g != h
    requires used.family == next.family == m[h].family && used.expiresAt == next.expiresAt == m[h].expiresAt
    requires used.scopes == m[h].scopes && next.scopes != [] && Distinct(next.scopes)
    ensures Sim(m[h := used][g := next], rows[h := used][g := next], clock)
  {
    hide Distinct;
  }

  lemma SimLater(m: map<Hash, Token>, rows: map<Hash, Token>, clock: Time, later: Time)
    requires Sim(m, rows, clock) && clock <= later
    ensures Sim(m, rows, later)
  {
    hide Distinct;
  }

  lemma RotationKeepsSim(m: map<Hash, Token>, rows: map<Hash, Token>, q: Rotation, clock: Time)
    requires Sim(m, rows, clock) && Admissible(m, Refresh(q), clock) && Outcome(m, q).Rotated?
    ensures Sim(Rotate(m, q), SqlRotate(rows, q), q.now)
  {
    hide Sim;
    RotateAlikeUnlessRepeated(m, rows, q, clock);
    SimLater(m, rows, clock, q.now);
    var t := m[q.tokenHash];
    assert q.tokenHash in rows && rows[q.tokenHash] == t;
    BothKeepSim(m, rows, q.tokenHash, t.(consumedAt := Some(q.now)), q.replacement, Successor(t, q), q.now);
  }

  /** The same family ended on both sides, or one that only the map still holds. */
  lemma EndingKeepsSim(m: map<Hash, Token>, rows: map<Hash, Token>, family: string, now: Time)
    requires Sim(m, rows, now)
    ensures Sim(RevokeFamily(m, family, now), RevokeFamily(rows, family, now), now)
  {
    hide Distinct;
  }

  lemma RevokedIsFamily(rows: map<Hash, Token>, q: Rotation)
    requires q.tokenHash in rows && rows[q.tokenHash].consumedAt.Some?
    ensures Revoked(rows, ReplayRevoked(rows, q), q.now) == RevokeFamily(rows, rows[q.tokenHash].family, q.now)
    ensures q.tokenHash in ReplayRevoked(rows, q)
  {
  }

  lemma NoneOfFamily(m: map<Hash, Token>, rows: map<Hash, Token>, h: Hash, now: Time, clock: Time)
    requires Sim(m, rows, clock) && h in m && h !in rows
    ensures RevokeFamily(rows, m[h].family, now) == rows
  {
    hide Distinct;
    assert forall g :: g in rows ==> m[g].family != m[h].family;
  }

  lemma ReplayKeepsSim(m: map<Hash, Token>, rows: map<Hash, Token>, q: Rotation, clock: Time)
    requires Sim(m, rows, clock) && clock <= q.now && Outcome(m, q).Replayed?
    ensures Sim(Rotate(m, q), SqlRotate(rows, q), q.now)
  {
    hide Distinct, Contains, RevokeFamily, ReplayRevoked, Revoked;
    SimLater(m, rows, clock, q.now);
    EndingKeepsSim(m, rows, m[q.tokenHash].family, q.now);
    if q.tokenHash in rows {
      RevokedIsFamily(rows, q);
    } else {
      NoneOfFamily(m, rows, q.tokenHash, q.now, clock);
    }
  }

  lemma ServeKeepsSim(m: map<Hash, Token>, rows: map<Hash, Token>, r: Request, clock: Time)
    requires Sim(m, rows, clock) && Admissible(m, r, clock)
    ensures Sim(Serve(m, r), SqlServe(rows, r), At(r))
  {
    match r
    case Save(h, t, now) => SaveKeepsSim(m, rows, h, t, now, clock);
    case Refresh(q) =>
      match Outcome(m, q)
      case Rotated(_) => RotationKeepsSim(m, rows, q, clock);
      case Replayed => ReplayKeepsSim(m, rows, q, clock);
      case _ => RotateAlikeUnlessRepeated(m, rows, q, clock);
  }

  function Answers(m: map<Hash, Token>, run: seq<Request>): seq<Option<Result>>
    decreases |run|
  {
    if run == [] then [] else
    var answer := if run[0].Refresh? then Some(Outcome(m, run[0].rotation)) else None;
    [answer] + Answers(Serve(m, run[0]), run[1..])
  }

  function SqlAnswers(rows: map<Hash, Token>, run: seq<Request>): seq<Option<Result>>
    decreases |run|
  {
    if run == [] then [] else
    var answer := if run[0].Refresh? then Some(SqlOutcome(rows, run[0].rotation)) else None;
    [answer] + SqlAnswers(SqlServe(rows, run[0]), run[1..])
  }

  ghost predicate AdmissibleRun(m: map<Hash, Token>, run: seq<Request>, clock: Time)
    decreases |run|
  {
    run == [] || (Admissible(m, run[0], clock) && AdmissibleRun(Serve(m, run[0]), run[1..], At(run[0])))
  }

  /** Both refuse, or both rotate the same record. */
  predicate Alike(a: Option<Result>, b: Option<Result>) {
    || a == b
    || (a.Some? && b.Some? && !a.value.Rotated? && !b.value.Rotated?)
  }

  /** Fed the same requests, the two stores rotate exactly the same ones. */
  lemma {:induction false} StoresRotateAlike(m: map<Hash, Token>, rows: map<Hash, Token>, run: seq<Request>,
                                             clock: Time)
    requires Sim(m, rows, clock) && AdmissibleRun(m, run, clock)
    ensures |Answers(m, run)| == |SqlAnswers(rows, run)| == |run|
    ensures forall i :: 0 <= i < |run| ==> Alike(Answers(m, run)[i], SqlAnswers(rows, run)[i])
    decreases |run|
  {
    hide Sim, Fresh, Serve, SqlServe, Outcome, SqlOutcome;
    if run != [] {
      ServeKeepsSim(m, rows, run[0], clock);
      StoresRotateAlike(Serve(m, run[0]), SqlServe(rows, run[0]), run[1..], At(run[0]));
      if run[0].Refresh? {
        RotateAlikeUnlessRepeated(m, rows, run[0].rotation, clock);
      }
    }
  }

  /** From empty stores, over every run. */
  lemma FreshStoresRotateAlike(run: seq<Request>, clock: Time)
    requires AdmissibleRun(map[], run, clock)
    ensures |Answers(map[], run)| == |SqlAnswers(map[], run)| == |run|
    ensures forall i :: 0 <= i < |run| ==> Alike(Answers(map[], run)[i], SqlAnswers(map[], run)[i])
  {
    StoresRotateAlike(map[], map[], run, clock);
  }

  /** A request that repeats a scope is where the stores part. */
  lemma RepeatedScopePartsStores(t: Token, now: Time)
    requires Live(t) && t.family != "" && |t.scopes| == 1 && now < t.expiresAt
    ensures var q := Rotation("old", "new", t.clientId, t.resource, Some(t.scopes + t.scopes), now);
            && Outcome(map["old" := t], q) == InvalidScope
            && SqlOutcome(map["old" := t], q) == Rotated(t)
  {
    var twice := t.scopes + t.scopes;
    assert twice[0] == twice[1];
  }
}
