/**
 * An authorization whose guard was captured before a disconnect never activates after it,
 * whatever runs in between, as long as the clock is strictly increasing.
 */
module StaleAuthorizations {
  import opened Options
  import opened ConnectionRecords
  import opened ConnectionSections
  import opened LifecycleSteps

  /** The account row mirrors the connection row under the same key. */
  ghost predicate Mirrored(r: Rows) {
    && r.accounts.Keys == r.connections.Keys
    && forall k :: k in r.connections ==>
         && r.connections[k].principal == k
         && r.accounts[k].updatedAt == r.connections[k].updatedAt
         && r.accounts[k].revokedAt == r.connections[k].disabledAt
  }

  /** Mirrored rows, none dated after `bound`, where only an activated row has an envelope. */
  ghost predicate Dated(r: Rows, bound: Time) {
    && Mirrored(r)
    && forall k :: k in r.connections ==>
         && r.connections[k].updatedAt <= bound
         && (r.connections[k].envelope.Some? ==> r.connections[k].generation >= 1)
  }

  ghost predicate Timely(w: World) {
    && Dated(w.rows, w.clock)
    && forall c :: c in w.observed && c.envelope.Some? ==> c.generation >= 1
  }

  /** How a connection row may move: dates and generations never go back, and a disabled row is
      enabled again only under a new generation. */
  ghost predicate Advances(c: Connection, d: Connection) {
    && c.updatedAt <= d.updatedAt
    && c.generation <= d.generation
    && (c.disabledAt.Some? && d.disabledAt.None? ==> c.generation < d.generation)
  }

  ghost predicate RowsAdvance(r: Rows, s: Rows) {
    forall k :: k in r.connections ==> k in s.connections && Advances(r.connections[k], s.connections[k])
  }

  ghost predicate Moves(r: Rows, s: Rows, bound: Time) {
    Dated(s, bound) && RowsAdvance(r, s)
  }

  /** What a caller can be shown: the stored row up to the overlay on its phase and scopes, or,
      without a row, nothing or a made-up authorizing record. */
  ghost predicate Sees(r: Rows, k: Principal, current: Option<Connection>) {
    if k in r.connections then
      && current.Some?
      && current.value == r.connections[k].(phase := current.value.phase,
                                            requiredScopes := current.value.requiredScopes)
    else
      current.Some? ==>
        && IsSyntheticAuthorization(current.value)
        && current.value.envelope.None?
        && current.value.custodyId.None?
        && current.value.principal == k
  }

  lemma GetConnectionSees(r: Rows, k: Principal, wall: Time)
    requires Mirrored(r)
    ensures Sees(r, k, GetConnection(r, k, wall))
  {
  }

  lemma SaveMoves(r: Rows, record: Connection, guard: WriteGuard, bound: Time)
    requires Dated(r, bound)
    requires record.updatedAt <= bound
    requires record.envelope.Some? ==> record.generation >= 1
    requires record.principal in r.connections ==> Advances(r.connections[record.principal], record)
    ensures var saved := SaveConnection(r, record, guard);
      saved.Some? ==> Moves(r, saved.value, bound)
  {
  }

  lemma ActivateAuthorizedMoves(r: Rows, current: Option<Connection>, candidate: Custody, issued: Issued,
                                scopes: seq<string>, guard: Option<ActivationGuard>, now: Time)
    requires Dated(r, now) && Sees(r, candidate.principal, current)
    ensures var saved := ActivateAuthorized(r, current, candidate, issued, scopes, guard, now);
      saved.Some? ==> Moves(r, saved.value, now)
  {
    hide SaveConnection;
    var active := candidate.(generation := GenerationOf(current) + 1, state := Active, display := issued.display);
    var updated := UpdateCustody(r, active, Candidate, 0);
    if updated.Some? {
      Stays(r, updated.value, now);
      SaveMoves(updated.value, AuthorizedConnection(current, candidate, issued, scopes, now),
                ConnectionWriteGuard(current), now);
    }
  }

  lemma UpdateKeepsMoves(r: Rows, record: Custody, expected: CustodyState, attempts: nat, bound: Time)
    ensures forall s :: Moves(r, s, bound) && UpdateCustody(s, record, expected, attempts).Some? ==>
              Moves(r, UpdateCustody(s, record, expected, attempts).value, bound)
  {
    forall s | Moves(r, s, bound) && UpdateCustody(s, record, expected, attempts).Some?
      ensures Moves(r, UpdateCustody(s, record, expected, attempts).value, bound)
    {
      MovesAside(r, s, UpdateCustody(s, record, expected, attempts).value, bound);
    }
  }

  lemma MovesAside(r: Rows, s: Rows, t: Rows, bound: Time)
    requires Moves(r, s, bound) && t.connections == s.connections && t.accounts == s.accounts
    ensures Moves(r, t, bound)
  {
  }

  /** A save over rows that differ from `r` in custody and markers at most. */
  lemma SaveMovesFrom(r: Rows, s: Rows, record: Connection, guard: WriteGuard, bound: Time)
    requires Dated(r, bound) && s.connections == r.connections && s.accounts == r.accounts
    requires record.updatedAt <= bound
    requires record.envelope.Some? ==> record.generation >= 1
    requires record.principal in r.connections ==> Advances(r.connections[record.principal], record)
    ensures var saved := SaveConnection(s, record, guard);
      saved.Some? ==> Moves(r, saved.value, bound)
  {
    hide SaveConnection;
    SaveMoves(s, record, guard, bound);
  }

  lemma RenewedAdvances(r: Rows, current: Connection, p: Preparation, identity: Option<(string, string)>, now: Time)
    requires Dated(r, now) && Sees(r, p.candidate.principal, Some(current)) && current.disabledAt.None?
    ensures
      var record := RenewedConnection(current, p, identity, now);
      && record.principal == p.candidate.principal
      && record.updatedAt == now
      && record.generation >= 1
      && (record.principal in r.connections ==> Advances(r.connections[record.principal], record))
  {
    hide MergeRotatedCredential;
  }

  lemma ActivateRenewedMoves(r: Rows, current: Option<Connection>, p: Preparation,
                             identity: Option<(string, string)>, now: Time)
    requires Dated(r, now) && Sees(r, p.candidate.principal, current)
    ensures var activation := ActivateRenewed(r, current, p, identity, now);
      activation.Refreshed? ==> Moves(r, activation.rows, now)
  {
    hide SaveConnection, ConnectionWriteGuard, RenewedConnection, ActivatedCustody, RetiredCustody, Moves, Dated;
    var updated := UpdateCustody(r, ActivatedCustody(p), Candidate, 0);
    if current.Some? && current.value.disabledAt.None? && updated.Some? {
      var c := current.value;
      RenewedAdvances(r, c, p, identity, now);
      SaveMovesFrom(r, updated.value, RenewedConnection(c, p, identity, now),
                    ConnectionWriteGuard(Some(p.current)), now);
      if c.custodyId.Some? && c.custodyId.value in r.custody {
        var superseded := r.custody[c.custodyId.value];
        UpdateKeepsMoves(r, RetiredCustody(superseded), Active, superseded.attempts, now);
      }
    }
  }

  lemma Stays(r: Rows, t: Rows, bound: Time)
    requires Dated(r, bound)
    requires t.connections == r.connections && t.accounts == r.accounts
    ensures Moves(r, t, bound)
  {
  }

  lemma DatedLater(r: Rows, bound: Time, later: Time)
    requires Dated(r, bound) && bound <= later
    ensures Dated(r, later) && Moves(r, r, later)
  {
  }

  lemma RejectRenewedMoves(r: Rows, current: Option<Connection>, p: Preparation, category: Option<Category>,
                           now: Time)
    requires Dated(r, now) && Sees(r, p.candidate.principal, current)
    ensures var rejection := RejectRenewed(r, current, p, category, now);
      rejection.Rejected? ==> Moves(r, rejection.rows, now)
  {
    hide SaveConnection, ConnectionWriteGuard;
    var pending := p.candidate.(state := CleanupPending);
    var first := UpdateCustody(r, pending, Candidate, 0);
    var moved := if first.Some? then first else UpdateCustody(r, pending, Active, 0);
    if moved.Some? {
      Stays(r, moved.value, now);
      if RejectionMarksConnection(current, p, category) {
        var phase := if IsPermanentRenewalFailure(category.value) then ReauthorizationRequired else Unavailable;
        SaveMoves(moved.value, current.value.(phase := phase, category := category, updatedAt := now),
                  ConnectionWriteGuard(current), now);
      }
    }
  }

  lemma AdoptionAside(r: Rows, current: Option<Connection>, id: Id)
    ensures current.Some? ==>
              var adopted := SaveCustody(r, AdoptedCustody(current.value, id));
              adopted.connections == r.connections && adopted.accounts == r.accounts
  {
  }

  lemma DisconnectMoves(revokes: bool, r: Rows, current: Option<Connection>, k: Principal, email: string,
                        scopes: seq<string>, newId: Id, now: Time)
    requires Dated(r, now) && Sees(r, k, current)
    ensures var saved := Disconnect(revokes, r, current, k, email, scopes, newId, now);
      saved.Some? ==>
        && Moves(r, saved.value, now)
        && k in saved.value.connections
        && saved.value.connections[k].updatedAt == now
        && saved.value.connections[k].disabledAt.Some?
  {
    hide SaveConnection, ConnectionWriteGuard, RowsAdvance, Handoff, SaveCustody, AdoptedCustody;
    AdoptionAside(r.(markers := r.markers - {k}), current, newId);
    var cleared := r.(markers := r.markers - {k});
    Stays(r, cleared, now);
    if current.None? {
      DisconnectSaves(r, cleared, Tombstone(k, email, scopes, now), ConnectionWriteGuard(None), now);
    } else if current.value.disabledAt.Some? {
      DisconnectSaves(r, cleared, DisabledAgain(current.value, now), ConnectionWriteGuard(current), now);
    } else {
      var c := current.value;
      var adopts := NeedsRevocation(revokes, c) && c.custodyId.None?;
      var adopted := if adopts then SaveCustody(cleared, AdoptedCustody(c, newId)) else cleared;
      Stays(r, adopted, now);
      DisconnectSaves(r, adopted, Disabled(revokes, c, if adopts then Some(newId) else c.custodyId, now),
                      ConnectionWriteGuard(current), now);
    }
  }

  lemma DisconnectSaves(r: Rows, s: Rows, record: Connection, guard: WriteGuard, now: Time)
    requires Dated(s, now) && s.connections == r.connections
    requires record.updatedAt == now && record.disabledAt.Some?
    requires record.envelope.Some? ==> record.generation >= 1
    requires record.principal in r.connections ==> Advances(r.connections[record.principal], record)
    ensures var saved := SaveConnection(s, record, guard);
      saved.Some? ==>
        var t := HandedOff(saved.value, record.principal);
        && Moves(r, t, now)
        && record.principal in t.connections
        && t.connections[record.principal] == record
  {
    SaveMoves(s, record, guard, now);
  }

  lemma FinalizeMoves(r: Rows, current: Option<Connection>, record: Custody, result: RevocationResult, now: Time)
    requires Dated(r, now) && Sees(r, record.principal, current)
    ensures var saved := FinalizeCleanup(r, current, record, result, now);
      saved.Some? ==> Moves(r, saved.value, now)
  {
    hide SaveConnection, ConnectionWriteGuard, Moves;
    var updated := UpdateCustody(r, CleanedCustody(record, result), CleanupPending, record.attempts);
    if updated.Some? {
      Stays(r, updated.value, now);
      if current.Some? && current.value.disabledAt.Some? {
        SaveMovesFrom(r, updated.value, RevocationOutcome(current.value, result, now),
                      ConnectionWriteGuard(current), now);
      }
    }
  }

  lemma BackfillMoves(r: Rows, current: Option<Connection>, initial: Connection, display: string,
                      accountId: string, bound: Time)
    requires Dated(r, bound) && Sees(r, initial.principal, current)
    requires initial.generation >= 1
    ensures var saved := Backfill(r, current, initial, display, accountId);
      saved.Some? ==> Moves(r, saved.value, bound)
  {
    hide SaveConnection, ConnectionWriteGuard;
    if current.Some? && current.value.generation == initial.generation {
      SaveMoves(r, current.value.(display := display, accountId := Some(accountId)), ConnectionWriteGuard(current),
                bound);
    }
  }

  lemma RepairMoves(r: Rows, current: Option<Connection>, k: Principal, usable: bool, now: Time)
    requires Dated(r, now) && Sees(r, k, current)
    requires k in r.connections ==> r.connections[k].updatedAt < now
    ensures var saved := RepairScopePoison(r, current, usable, now);
      saved.Some? ==> Moves(r, saved.value, now)
  {
  }

  lemma SeesDated(w: World, k: Principal, wall: Time)
    requires Timely(w)
    ensures Sees(w.rows, k, GetConnection(w.rows, k, wall))
  {
    GetConnectionSees(w.rows, k, wall);
  }

  lemma FailureMoves(r: Rows, k: Principal, current: Connection, phase: Phase, category: Category, now: Time)
    requires Dated(r, now) && Sees(r, k, Some(current)) && (k in r.connections ==> r.connections[k].updatedAt <= now)
    ensures var saved := PersistRenewalFailure(r, current, phase, category, now);
      saved.Some? ==> Moves(r, saved.value, now)
  {
    hide SaveConnection, ConnectionWriteGuard;
    SaveMoves(r, current.(phase := phase, category := Some(category), updatedAt := now),
              ConnectionWriteGuard(Some(current)), now);
  }

  lemma FailRenewalMoves(w: World, k: Principal, decrypted: bool, phase: Phase, category: Category, now: Time,
                         wall: Time)
    requires Timely(w) && w.clock < now
    ensures Moves(w.rows, DoFailRenewal(w, k, decrypted, phase, category, now, wall).rows, now)
  {
    hide GetConnection, PersistRenewalFailure, Mirrored, Sees, Moves;
    DatedLater(w.rows, w.clock, now);
    SeesDated(w, k, wall);
    var current := GetConnection(w.rows, k, wall);
    if current.Some? && current.value.disabledAt.None? {
      FailureMoves(w.rows, k, current.value, phase, category, now);
    }
  }

  function Bound(w: World, st: Step): Time {
    if Reading(st).Some? then Reading(st).value else w.clock
  }

  lemma ActivateAuthorizationMoves(w: World, id: Id, fault: Fault, now: Time, wall: Time)
    requires Timely(w) && w.clock < now
    ensures Moves(w.rows, DoActivateAuthorization(w, id, fault, now, wall).rows, now)
  {
    hide GetConnection, ActivateAuthorized, Dated, Moves, Sees;
    DatedLater(w.rows, w.clock, now);
    if id in w.attempts {
      var a := w.attempts[id];
      var k := a.candidate.principal;
      SeesDated(w, k, wall);
      ActivateAuthorizedMoves(w.rows, GetConnection(w.rows, k, wall), a.candidate, a.issued, a.requiredScopes,
                              a.guard, now);
    }
  }

  lemma ActivateRenewalMoves(w: World, id: Id, identity: Option<(string, string)>, now: Time, wall: Time)
    requires Timely(w) && w.clock < now
    ensures Moves(w.rows, DoActivateRenewal(w, id, identity, now, wall).rows, now)
  {
    hide GetConnection, ActivateRenewed, Dated, Moves, Sees;
    DatedLater(w.rows, w.clock, now);
    if id in w.preparations {
      var p := w.preparations[id];
      SeesDated(w, p.candidate.principal, wall);
      ActivateRenewedMoves(w.rows, GetConnection(w.rows, p.candidate.principal, wall), p, identity, now);
    }
  }

  lemma RejectRenewalMoves(w: World, id: Id, cause: Option<Category>, now: Time, wall: Time)
    requires Timely(w) && w.clock < now
    ensures Moves(w.rows, DoReject(w, id, cause, now, wall).rows, now)
  {
    hide GetConnection, RejectRenewed, Dated, Moves, Sees;
    DatedLater(w.rows, w.clock, now);
    if id in w.preparations {
      var p := w.preparations[id];
      SeesDated(w, p.candidate.principal, wall);
      RejectRenewedMoves(w.rows, GetConnection(w.rows, p.candidate.principal, wall), p, cause, now);
    }
  }

  lemma FinishMoves(w: World, record: Custody, result: RevocationResult, now: Time, wall: Time)
    requires Timely(w) && w.clock < now
    ensures Moves(w.rows, DoFinish(w, record, result, now, wall).rows, now)
  {
    hide GetConnection, FinalizeCleanup, Dated, Moves, Sees;
    DatedLater(w.rows, w.clock, now);
    SeesDated(w, record.principal, wall);
    FinalizeMoves(w.rows, GetConnection(w.rows, record.principal, wall), record, result, now);
  }

  /** Steps that leave connection and account rows alone. */
  ghost predicate Aside(w: World, v: World) {
    v.rows.connections == w.rows.connections && v.rows.accounts == w.rows.accounts && v.observed == w.observed
  }

  lemma WithdrawAside(w: World, id: Id, from: Progress, expected: CustodyState, otherwise: Progress)
    ensures Aside(w, DoWithdraw(w, id, from, expected, otherwise))
  {
  }

  lemma StartAside(w: World, id: Id, k: Principal, email: string, issued: Issued, scopes: seq<string>,
                   guard: Option<ActivationGuard>)
    ensures Aside(w, DoStart(w, id, k, email, issued, scopes, guard))
  {
  }

  lemma CallbackMoves(w: World, st: CallbackStep, bound: Time)
    requires Timely(w)
    requires bound == if st.ActivateAuthorization? then st.now else w.clock
    requires st.ActivateAuthorization? ==> w.clock < st.now
    ensures Moves(w.rows, ActCallback(w, st).rows, bound) && ActCallback(w, st).observed == w.observed
  {
    hide GetConnection, ActivateAuthorized, Dated, Moves, DoWithdraw, DoStart;
    var v := ActCallback(w, st);
    match st {
      case ActivateAuthorization(id, fault, now, wall) => ActivateAuthorizationMoves(w, id, fault, now, wall);
      case StartAuthorization(id, k, email, issued, scopes, guard) =>
        StartAside(w, id, k, email, issued, scopes, guard);
        Stays(w.rows, v.rows, bound);
      case WithdrawCandidate(id) =>
        WithdrawAside(w, id, Unwanted, Candidate, UnwantedActive);
        Stays(w.rows, v.rows, bound);
      case WithdrawActive(id) =>
        WithdrawAside(w, id, UnwantedActive, Active, Finished);
        Stays(w.rows, v.rows, bound);
      case _ => Stays(w.rows, v.rows, bound);
    }
  }

  lemma RenewalMoves(w: World, st: RenewalStep, bound: Time)
    requires Timely(w)
    requires bound == Bound(w, Renewal(st))
    requires Reading(Renewal(st)).Some? ==> w.clock < bound
    ensures Moves(w.rows, ActRenewal(w, st).rows, bound) && ActRenewal(w, st).observed == w.observed
  {
    hide GetConnection, ActivateRenewed, RejectRenewed, PersistRenewalFailure, Dated, Moves;
    match st {
      case ActivateRenewal(id, identity, now, wall) => ActivateRenewalMoves(w, id, identity, now, wall);
      case RejectRenewal(id, cause, now, wall) => RejectRenewalMoves(w, id, cause, now, wall);
      case RefuseRenewalForScope(k, now, wall) =>
        FailRenewalMoves(w, k, false, ReauthorizationRequired, InsufficientScope, now, wall);
      case FailRenewal(k, phase, category, now, wall) =>
        FailRenewalMoves(w, k, true, phase, category, now, wall);
      case _ => Stays(w.rows, ActRenewal(w, st).rows, bound);
    }
  }

  lemma CleanupAside(w: World, st: CleanupStep)
    requires !st.DisconnectPrincipal? && !st.FinishCleanup?
    ensures Aside(w, ActCleanup(w, st))
  {
    hide GetConnection, Disconnect, FinalizeCleanup, FromQueue, UpdateCustody;
    if st.PickUpCandidate? {
      UpdateCustodyAside(w.rows, st.record.(state := CleanupPending), Candidate, st.record.attempts);
    }
  }

  lemma UpdateCustodyAside(r: Rows, record: Custody, expected: CustodyState, attempts: nat)
    ensures
      var updated := UpdateCustody(r, record, expected, attempts);
      updated.Some? ==> updated.value.connections == r.connections && updated.value.accounts == r.accounts
  {
  }

  lemma CleanupMoves(w: World, st: CleanupStep, bound: Time)
    requires Timely(w)
    requires bound == Bound(w, Cleanup(st))
    requires Reading(Cleanup(st)).Some? ==> w.clock < bound
    ensures Moves(w.rows, ActCleanup(w, st).rows, bound) && ActCleanup(w, st).observed == w.observed
  {
    hide GetConnection, Disconnect, FinalizeCleanup, UpdateCustody, FromQueue, Dated, Moves, Sees;
    DatedLater(w.rows, w.clock, bound);
    match st {
      case DisconnectPrincipal(k, email, scopes, newId, now, wall) =>
        SeesDated(w, k, wall);
        DisconnectMoves(w.revokes, w.rows, GetConnection(w.rows, k, wall), k, email, scopes, newId, now);
      case FinishCleanup(record, result, now, wall) => FinishMoves(w, record, result, now, wall);
      case _ =>
        CleanupAside(w, st);
        Stays(w.rows, ActCleanup(w, st).rows, bound);
    }
  }

  lemma MetadataMoves(w: World, st: MetadataStep, bound: Time)
    requires Timely(w)
    requires bound == Bound(w, Metadata(st))
    requires Reading(Metadata(st)).Some? ==> w.clock < bound
    ensures Moves(w.rows, ActMetadata(w, st).rows, bound) && ActMetadata(w, st).observed == w.observed
  {
    hide GetConnection, Backfill, RepairScopePoison, Moves;
    DatedLater(w.rows, w.clock, bound);
    match st {
      case BackfillAccount(initial, display, account, wall) =>
        if initial in w.observed && initial.envelope.Some? {
          GetConnectionSees(w.rows, initial.principal, wall);
          BackfillMoves(w.rows, GetConnection(w.rows, initial.principal, wall), initial, display, account, w.clock);
        }
      case RepairScope(k, usable, now, wall) =>
        GetConnectionSees(w.rows, k, wall);
        RepairMoves(w.rows, GetConnection(w.rows, k, wall), k, usable, now);
    }
  }

  /** Every step moves the connection rows forward only, whatever the other rows hold. */
  lemma ActMoves(w: World, st: Step)
    requires Timely(w)
    requires Reading(st).Some? ==> w.clock < Reading(st).value
    ensures Moves(w.rows, Act(w, st).rows, Bound(w, st)) && Act(w, st).observed == w.observed
  {
    match st {
      case Callback(c) => CallbackMoves(w, c, Bound(w, st));
      case Renewal(c) => RenewalMoves(w, c, Bound(w, st));
      case Cleanup(c) => CleanupMoves(w, c, Bound(w, st));
      case Metadata(c) => MetadataMoves(w, c, Bound(w, st));
    }
  }

  lemma DoMoves(w: World, st: Step)
    requires Timely(w)
    ensures Timely(Do(w, st)) && RowsAdvance(w.rows, Do(w, st).rows) && w.clock <= Do(w, st).clock
  {
    if Reading(st).None? || w.clock < Reading(st).value {
      ActMoves(w, st);
      Recorded(w, Act(w, st), Bound(w, st));
    }
  }

  lemma Recorded(w: World, v: World, bound: Time)
    requires Timely(w) && Dated(v.rows, bound) && v.observed == w.observed
    ensures Timely(v.(clock := bound, seen := v.seen + v.rows.custody.Values,
                      observed := v.observed + v.rows.connections.Values))
  {
  }

  lemma {:induction false} ExecMoves(w: World, run: seq<Step>)
    requires Timely(w)
    ensures Timely(Exec(w, run)) && RowsAdvance(w.rows, Exec(w, run).rows) && w.clock <= Exec(w, run).clock
    decreases |run|
  {
    if run != [] {
      var next := Do(w, run[0]);
      DoMoves(w, run[0]);
      ExecMoves(next, run[1..]);
      forall k | k in w.rows.connections
        ensures k in Exec(w, run).rows.connections
        ensures Advances(w.rows.connections[k], Exec(w, run).rows.connections[k])
      {
        assert Advances(w.rows.connections[k], next.rows.connections[k]);
      }
    }
  }

  /** A row written after time `t` that is disabled or belongs to a later generation than any
      principal without a row has. */
  ghost predicate Fenced(r: Rows, k: Principal, t: Time) {
    && k in r.connections
    && r.connections[k].updatedAt > t
    && (r.connections[k].disabledAt.Some? || r.connections[k].generation >= 1)
  }

  lemma FenceHolds(r: Rows, s: Rows, k: Principal, t: Time)
    requires Fenced(r, k, t) && RowsAdvance(r, s)
    ensures Fenced(s, k, t)
  {
    assert Advances(r.connections[k], s.connections[k]);
  }

  lemma FenceRefuses(r: Rows, captured: Option<Connection>, t: Time, s: Rows, current: Option<Connection>, k: Principal)
    requires Dated(r, t) && Sees(r, k, captured)
    requires Fenced(s, k, t) && Sees(s, k, current)
    ensures !GuardHolds(SnapshotAuthorizationGuard(captured), current)
  {
  }

  /**
   * For every run: take the guard at some moment, let anything happen, let a disconnect of the
   * principal commit, let anything happen again. Activating any candidate under that guard aborts.
   */
  lemma StaleGuardNeverActivates(revokes: bool, before: seq<Step>, k: Principal, seenAt: Time,
                                 between: seq<Step>, disconnect: CleanupStep, after: seq<Step>,
                                 candidate: Custody, issued: Issued, scopes: seq<string>, now: Time, wall: Time)
    requires disconnect.DisconnectPrincipal? && disconnect.k == k && candidate.principal == k
    requires
      var w := Exec(Exec(Initial(revokes), before), between);
      && w.clock < disconnect.now
      && Disconnect(w.revokes, w.rows, GetConnection(w.rows, k, disconnect.wall), k, disconnect.email,
                    disconnect.requiredScopes, disconnect.newId, disconnect.now).Some?
    ensures
      var captured := Exec(Initial(revokes), before);
      var guard := SnapshotAuthorizationGuard(GetConnection(captured.rows, k, seenAt));
      var last := Exec(Do(Exec(captured, between), Cleanup(disconnect)), after);
      ActivateAuthorized(last.rows, GetConnection(last.rows, k, wall), candidate, issued, scopes,
                         Some(guard), now) == None
  {
    hide Exec, Disconnect, GetConnection, Sees, GuardHolds, SnapshotAuthorizationGuard;
    hide HasUnresolvedCleanup, ClaimAuthorized, SaveConnection, Advances;
    var captured := Exec(Initial(revokes), before);
    var w := Exec(captured, between);
    var v := Do(w, Cleanup(disconnect));
    var last := Exec(v, after);
    ExecMoves(Initial(revokes), before);
    ExecMoves(captured, between);
    DoMoves(w, Cleanup(disconnect));
    ExecMoves(v, after);
    var current := GetConnection(w.rows, k, disconnect.wall);
    GetConnectionSees(w.rows, k, disconnect.wall);
    DisconnectMoves(w.revokes, w.rows, current, k, disconnect.email, disconnect.requiredScopes, disconnect.newId,
                    disconnect.now);
    assert Fenced(v.rows, k, captured.clock);
    FenceHolds(v.rows, last.rows, k, captured.clock);
    GetConnectionSees(captured.rows, k, seenAt);
    GetConnectionSees(last.rows, k, wall);
    FenceRefuses(captured.rows, GetConnection(captured.rows, k, seenAt), captured.clock, last.rows,
                 GetConnection(last.rows, k, wall), k);
  }

  /**
   * Exactly when a clock that may stand still defeats the guard: only for a principal that was
   * already disconnected, by a second disconnect dated like the first.
   */
  lemma DisconnectFencesUnlessClockStands(revokes: bool, r: Rows, k: Principal, seenAt: Time, email: string,
                                          scopes: seq<string>, newId: Id, now: Time, wall: Time, later: Time)
    requires Dated(r, now)
    requires Disconnect(revokes, r, GetConnection(r, k, wall), k, email, scopes, newId, now).Some?
    ensures
      var s := Disconnect(revokes, r, GetConnection(r, k, wall), k, email, scopes, newId, now).value;
      GuardHolds(SnapshotAuthorizationGuard(GetConnection(r, k, seenAt)), GetConnection(s, k, later))
      <==> k in r.connections && r.connections[k].disabledAt.Some? && r.connections[k].updatedAt == now
  {
    var current := GetConnection(r, k, wall);
    var s := Disconnect(revokes, r, current, k, email, scopes, newId, now).value;
    GetConnectionSees(r, k, wall);
    GetConnectionSees(r, k, seenAt);
    DisconnectMoves(revokes, r, current, k, email, scopes, newId, now);
    GetConnectionSees(s, k, later);
    var captured := GetConnection(r, k, seenAt);
    var reread := GetConnection(s, k, later);
    assert k in r.connections && r.connections[k].disabledAt.Some? ==>
        s.connections[k].generation == r.connections[k].generation;
    assert reread.Some? && reread.value.disabledAt.Some? && reread.value.updatedAt == now;
  }
}
