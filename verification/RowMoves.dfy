/**
 * How connection rows move, whatever the clock reads: rows stay mirrored, generations never go back,
 * and a disabled row is enabled only under a new generation. Under a clock that does not run back,
 * the dates of disabled rows do not go back either.
 */
module RowMoves {
  import opened Options
  import opened ConnectionRecords
  import opened ConnectionSections
  import opened LifecycleSteps
  import opened StaleAuthorizations

  /**
   * Generations never go back, and a disabled row stays disabled until a new generation; with dates,
   * dated no earlier.
   */
  ghost predicate Holds(c: Connection, d: Connection, dated: bool) {
    && c.generation <= d.generation
    && (c.disabledAt.Some? && d.generation == c.generation ==>
          d.disabledAt.Some? && (dated ==> c.updatedAt <= d.updatedAt))
  }

  ghost predicate RowsHold(r: Rows, s: Rows, dated: bool) {
    forall k :: k in r.connections ==> k in s.connections && Holds(r.connections[k], s.connections[k], dated)
  }

  /** Mirrored rows of which no disabled one is dated after `bound`, if there is one. */
  ghost predicate Settled(r: Rows, bound: Option<Time>) {
    && Mirrored(r)
    && (bound.Some? ==>
          forall k :: k in r.connections && r.connections[k].disabledAt.Some? ==>
            r.connections[k].updatedAt <= bound.value)
  }

  ghost predicate Shifts(r: Rows, s: Rows, bound: Option<Time>) {
    Settled(s, bound) && RowsHold(r, s, bound.Some?)
  }

  /** Without a bound anything goes; with one, time does not run back and a reading is the new bound. */
  predicate Later(before: Option<Time>, bound: Option<Time>, reading: Option<Time>) {
    && before.Some? == bound.Some?
    && (bound.Some? ==> before.value <= bound.value && (reading.Some? ==> reading == bound))
  }

  /** The bound that a section reading `now` works under. */
  predicate Under(bound: Option<Time>, now: Time) {
    bound.None? || bound == Some(now)
  }

  // ---------------------------------------------------------------- the sections

  lemma SettledLater(r: Rows, before: Option<Time>, bound: Option<Time>, reading: Option<Time>)
    requires Settled(r, before) && Later(before, bound, reading)
    ensures Settled(r, bound) && Shifts(r, r, bound)
  {
  }

  lemma Untouched(r: Rows, t: Rows, bound: Option<Time>)
    requires Settled(r, bound) && t.connections == r.connections && t.accounts == r.accounts
    ensures Shifts(r, t, bound)
  {
  }

  lemma SaveShifts(r: Rows, s: Rows, record: Connection, guard: WriteGuard, bound: Option<Time>)
    requires Settled(r, bound) && s.connections == r.connections && s.accounts == r.accounts
    requires record.disabledAt.Some? && bound.Some? ==> record.updatedAt <= bound.value
    requires record.principal in r.connections ==> Holds(r.connections[record.principal], record, bound.Some?)
    ensures var saved := SaveConnection(s, record, guard);
      saved.Some? ==>
        && Shifts(r, saved.value, bound)
        && record.principal in saved.value.connections
        && saved.value.connections[record.principal] == record
  {
  }

  lemma ActivateAuthorizedShifts(r: Rows, current: Option<Connection>, candidate: Custody, issued: Issued,
                                 scopes: seq<string>, guard: Option<ActivationGuard>, now: Time,
                                 bound: Option<Time>)
    requires Settled(r, bound) && Under(bound, now) && Sees(r, candidate.principal, current)
    ensures var saved := ActivateAuthorized(r, current, candidate, issued, scopes, guard, now);
      saved.Some? ==> Shifts(r, saved.value, bound)
  {
    hide SaveConnection, ConnectionWriteGuard, Shifts;
    var claimed := ClaimAuthorized(r, current, candidate, issued);
    if claimed.Some? {
      SaveShifts(r, claimed.value, AuthorizedConnection(current, candidate, issued, scopes, now),
                 ConnectionWriteGuard(current), bound);
    }
  }

  lemma UpdateAside(r: Rows, record: Custody, expected: CustodyState, attempts: nat, bound: Option<Time>)
    ensures forall s :: Shifts(r, s, bound) && UpdateCustody(s, record, expected, attempts).Some? ==>
              Shifts(r, UpdateCustody(s, record, expected, attempts).value, bound)
  {
    forall s | Shifts(r, s, bound) && UpdateCustody(s, record, expected, attempts).Some?
      ensures Shifts(r, UpdateCustody(s, record, expected, attempts).value, bound)
    {
      Aside(r, s, UpdateCustody(s, record, expected, attempts).value, bound);
    }
  }

  lemma Aside(r: Rows, s: Rows, t: Rows, bound: Option<Time>)
    requires Shifts(r, s, bound) && t.connections == s.connections && t.accounts == s.accounts
    ensures Shifts(r, t, bound)
  {
  }

  lemma RenewedHolds(r: Rows, current: Connection, p: Preparation, identity: Option<(string, string)>, now: Time,
                     dated: bool)
    requires Sees(r, p.candidate.principal, Some(current)) && current.disabledAt.None?
    ensures
      var record := RenewedConnection(current, p, identity, now);
      && record.principal == p.candidate.principal
      && record.disabledAt.None?
      && (record.principal in r.connections ==> Holds(r.connections[record.principal], record, dated))
  {
    hide MergeRotatedCredential;
  }

  lemma ActivateRenewedShifts(r: Rows, current: Option<Connection>, p: Preparation,
                              identity: Option<(string, string)>, now: Time, bound: Option<Time>)
    requires Settled(r, bound) && Under(bound, now) && Sees(r, p.candidate.principal, current)
    ensures var activation := ActivateRenewed(r, current, p, identity, now);
      activation.Refreshed? ==> Shifts(r, activation.rows, bound)
  {
    hide SaveConnection, ConnectionWriteGuard, RenewedConnection, ActivatedCustody, RetiredCustody, Shifts, Settled;
    var updated := UpdateCustody(r, ActivatedCustody(p), Candidate, 0);
    if current.Some? && current.value.disabledAt.None? && updated.Some? {
      var c := current.value;
      RenewedHolds(r, c, p, identity, now, bound.Some?);
      SaveShifts(r, updated.value, RenewedConnection(c, p, identity, now),
                 ConnectionWriteGuard(Some(p.current)), bound);
      if c.custodyId.Some? && c.custodyId.value in r.custody {
        var superseded := r.custody[c.custodyId.value];
        UpdateAside(r, RetiredCustody(superseded), Active, superseded.attempts, bound);
      }
    }
  }

  lemma FailureShifts(r: Rows, s: Rows, k: Principal, current: Connection, phase: Phase, category: Category, now: Time,
                      bound: Option<Time>)
    requires Settled(r, bound) && Under(bound, now) && Sees(r, k, Some(current)) && current.disabledAt.None?
    requires s.connections == r.connections && s.accounts == r.accounts
    ensures var saved := PersistRenewalFailure(s, current, phase, category, now);
      saved.Some? ==> Shifts(r, saved.value, bound)
  {
    hide SaveConnection, ConnectionWriteGuard, Shifts;
    SaveShifts(r, s, current.(phase := phase, category := Some(category), updatedAt := now),
               ConnectionWriteGuard(Some(current)), bound);
  }

  lemma RejectRenewedShifts(r: Rows, current: Option<Connection>, p: Preparation, category: Option<Category>,
                            now: Time,
                            bound: Option<Time>)
    requires Settled(r, bound) && Under(bound, now) && Sees(r, p.candidate.principal, current)
    ensures var rejection := RejectRenewed(r, current, p, category, now);
      rejection.Rejected? ==> Shifts(r, rejection.rows, bound)
  {
    hide PersistRenewalFailure, Shifts, Settled, Sees;
    var pending := p.candidate.(state := CleanupPending);
    var first := UpdateCustody(r, pending, Candidate, 0);
    var moved := if first.Some? then first else UpdateCustody(r, pending, Active, 0);
    if moved.Some? {
      Untouched(r, moved.value, bound);
      if RejectionMarksConnection(current, p, category) {
        var phase := if IsPermanentRenewalFailure(category.value) then ReauthorizationRequired else Unavailable;
        FailureShifts(r, moved.value, p.candidate.principal, current.value, phase, category.value, now, bound);
      }
    }
  }

  lemma HandoffAside(r: Rows, k: Principal, bound: Option<Time>)
    ensures forall s :: Shifts(r, s, bound) ==> Shifts(r, HandedOff(s, k), bound)
  {
    hide Handoff;
  }

  /** A committed disconnect leaves a disabled row of the same generation, dated by its own reading. */
  lemma DisconnectShifts(revokes: bool, r: Rows, current: Option<Connection>, k: Principal, email: string,
                         scopes: seq<string>, newId: Id, now: Time,
                         bound: Option<Time>)
    requires Settled(r, bound) && Under(bound, now) && Sees(r, k, current)
    ensures var saved := Disconnect(revokes, r, current, k, email, scopes, newId, now);
      saved.Some? ==>
        && Shifts(r, saved.value, bound)
        && k in saved.value.connections
        && saved.value.connections[k].updatedAt == now
        && saved.value.connections[k].disabledAt.Some?
        && (k in r.connections ==> saved.value.connections[k].generation == r.connections[k].generation)
  {
    hide SaveConnection, ConnectionWriteGuard, Shifts, Handoff, SaveCustody, AdoptedCustody;
    var cleared := r.(markers := r.markers - {k});
    HandoffAside(r, k, bound);
    AdoptionAside(cleared, current, newId);
    if current.None? {
      SaveShifts(r, cleared, Tombstone(k, email, scopes, now), ConnectionWriteGuard(None), bound);
    } else if current.value.disabledAt.Some? {
      SaveShifts(r, cleared, DisabledAgain(current.value, now), ConnectionWriteGuard(current), bound);
    } else {
      var c := current.value;
      var adopts := NeedsRevocation(revokes, c) && c.custodyId.None?;
      var adopted := if adopts then SaveCustody(cleared, AdoptedCustody(c, newId)) else cleared;
      SaveShifts(r, adopted, Disabled(revokes, c, if adopts then Some(newId) else c.custodyId, now),
                 ConnectionWriteGuard(current), bound);
    }
  }

  lemma FinalizeShifts(r: Rows, current: Option<Connection>, record: Custody, result: RevocationResult, now: Time,
                       bound: Option<Time>)
    requires Settled(r, bound) && Under(bound, now) && Sees(r, record.principal, current)
    ensures var saved := FinalizeCleanup(r, current, record, result, now);
      saved.Some? ==> Shifts(r, saved.value, bound)
  {
    hide SaveConnection, ConnectionWriteGuard, Shifts;
    var updated := UpdateCustody(r, CleanedCustody(record, result), CleanupPending, record.attempts);
    if updated.Some? {
      Untouched(r, updated.value, bound);
      if current.Some? && current.value.disabledAt.Some? {
        SaveShifts(r, updated.value, RevocationOutcome(current.value, result, now), ConnectionWriteGuard(current),
                   bound);
      }
    }
  }

  lemma MetadataShifts(r: Rows, k: Principal, current: Option<Connection>, record: Connection, bound: Option<Time>)
    requires Settled(r, bound) && Sees(r, k, current) && current.Some? && current.value.disabledAt.None?
    requires record == current.value.(phase := record.phase, category := record.category, updatedAt := record.updatedAt,
                                      display := record.display, accountId := record.accountId)
    ensures var saved := SaveConnection(r, record, ConnectionWriteGuard(current));
      saved.Some? ==> Shifts(r, saved.value, bound)
  {
    hide SaveConnection, ConnectionWriteGuard, Shifts;
    SaveShifts(r, r, record, ConnectionWriteGuard(current), bound);
  }

  // ---------------------------------------------------------------- every step

  lemma CallbackShifts(w: World, st: CallbackStep, before: Option<Time>, bound: Option<Time>)
    requires Settled(w.rows, before) && Later(before, bound, Reading(Callback(st)))
    ensures Shifts(w.rows, ActCallback(w, st).rows, bound)
  {
    hide GetConnection, ActivateAuthorized, Mirrored, Shifts, DoWithdraw, DoStart, Sees;
    SettledLater(w.rows, before, bound, Reading(Callback(st)));
    var v := ActCallback(w, st);
    match st {
      case ActivateAuthorization(id, fault, now, wall) =>
        if id in w.attempts {
          var a := w.attempts[id];
          Reads(w.rows, a.candidate.principal, wall);
          ActivateAuthorizedShifts(w.rows, GetConnection(w.rows, a.candidate.principal, wall), a.candidate, a.issued,
                                   a.requiredScopes, a.guard, now, bound);
        }
      case StartAuthorization(id, k, email, issued, scopes, guard) =>
        StartAside(w, id, k, email, issued, scopes, guard);
        Untouched(w.rows, v.rows, bound);
      case WithdrawCandidate(id) =>
        WithdrawAside(w, id, Unwanted, Candidate, UnwantedActive);
        Untouched(w.rows, v.rows, bound);
      case WithdrawActive(id) =>
        WithdrawAside(w, id, UnwantedActive, Active, Finished);
        Untouched(w.rows, v.rows, bound);
      case _ => Untouched(w.rows, v.rows, bound);
    }
  }

  lemma Reads(r: Rows, k: Principal, wall: Time)
    requires Mirrored(r)
    ensures Sees(r, k, GetConnection(r, k, wall))
  {
    GetConnectionSees(r, k, wall);
  }

  lemma FailRenewalShifts(w: World, k: Principal, decrypted: bool, phase: Phase, category: Category, now: Time,
                          wall: Time, before: Option<Time>, bound: Option<Time>)
    requires Settled(w.rows, before) && Later(before, bound, Some(now))
    ensures Shifts(w.rows, DoFailRenewal(w, k, decrypted, phase, category, now, wall).rows, bound)
  {
    hide GetConnection, PersistRenewalFailure, Mirrored, Sees, Shifts;
    SettledLater(w.rows, before, bound, Some(now));
    Reads(w.rows, k, wall);
    var current := GetConnection(w.rows, k, wall);
    if current.Some? && current.value.disabledAt.None? {
      FailureShifts(w.rows, w.rows, k, current.value, phase, category, now, bound);
    }
  }

  lemma RenewalShifts(w: World, st: RenewalStep, before: Option<Time>, bound: Option<Time>)
    requires Settled(w.rows, before) && Later(before, bound, Reading(Renewal(st)))
    ensures Shifts(w.rows, ActRenewal(w, st).rows, bound)
  {
    hide GetConnection, ActivateRenewed, RejectRenewed, DoFailRenewal, Mirrored, Shifts, Sees;
    SettledLater(w.rows, before, bound, Reading(Renewal(st)));
    match st {
      case ActivateRenewal(id, identity, now, wall) =>
        if id in w.preparations {
          var p := w.preparations[id];
          Reads(w.rows, p.candidate.principal, wall);
          ActivateRenewedShifts(w.rows, GetConnection(w.rows, p.candidate.principal, wall), p, identity, now, bound);
        }
      case RejectRenewal(id, cause, now, wall) =>
        if id in w.preparations {
          var p := w.preparations[id];
          Reads(w.rows, p.candidate.principal, wall);
          RejectRenewedShifts(w.rows, GetConnection(w.rows, p.candidate.principal, wall), p, cause, now, bound);
        }
      case RefuseRenewalForScope(k, now, wall) =>
        FailRenewalShifts(w, k, false, ReauthorizationRequired, InsufficientScope, now, wall, before, bound);
      case FailRenewal(k, phase, category, now, wall) => FailRenewalShifts(w, k, true, phase, category, now, wall,
                                                                           before, bound);
      case _ => Untouched(w.rows, ActRenewal(w, st).rows, bound);
    }
  }

  lemma CleanupShifts(w: World, st: CleanupStep, before: Option<Time>, bound: Option<Time>)
    requires Settled(w.rows, before) && Later(before, bound, Reading(Cleanup(st)))
    ensures Shifts(w.rows, ActCleanup(w, st).rows, bound)
  {
    hide GetConnection, Disconnect, FinalizeCleanup, UpdateCustody, FromQueue, Mirrored, Shifts, Sees;
    SettledLater(w.rows, before, bound, Reading(Cleanup(st)));
    match st {
      case DisconnectPrincipal(k, email, scopes, newId, now, wall) =>
        Reads(w.rows, k, wall);
        DisconnectShifts(w.revokes, w.rows, GetConnection(w.rows, k, wall), k, email, scopes, newId, now, bound);
      case FinishCleanup(record, result, now, wall) =>
        Reads(w.rows, record.principal, wall);
        FinalizeShifts(w.rows, GetConnection(w.rows, record.principal, wall), record, result, now, bound);
      case _ =>
        CleanupAside(w, st);
        Untouched(w.rows, ActCleanup(w, st).rows, bound);
    }
  }

  lemma MetadataStepShifts(w: World, st: MetadataStep, before: Option<Time>, bound: Option<Time>)
    requires Settled(w.rows, before) && Later(before, bound, Reading(Metadata(st)))
    ensures Shifts(w.rows, ActMetadata(w, st).rows, bound)
  {
    hide GetConnection, SaveConnection, ConnectionWriteGuard, Mirrored, Shifts, Sees;
    SettledLater(w.rows, before, bound, Reading(Metadata(st)));
    match st {
      case BackfillAccount(initial, display, account, wall) =>
        Reads(w.rows, initial.principal, wall);
        var current := GetConnection(w.rows, initial.principal, wall);
        if current.Some? && current.value.disabledAt.None? {
          MetadataShifts(w.rows, initial.principal, current,
                         current.value.(display := display, accountId := Some(account)), bound);
        }
      case RepairScope(k, usable, now, wall) =>
        Reads(w.rows, k, wall);
        var current := GetConnection(w.rows, k, wall);
        if current.Some? && current.value.disabledAt.None? {
          var c := current.value;
          MetadataShifts(w.rows, k, current,
                         c.(phase := Connected, category := None,
                            updatedAt := if now > c.updatedAt + 1 then now else c.updatedAt + 1), bound);
        }
    }
  }

  lemma ActShifts(w: World, st: Step, before: Option<Time>, bound: Option<Time>)
    requires Settled(w.rows, before) && Later(before, bound, Reading(st))
    ensures Shifts(w.rows, Act(w, st).rows, bound)
  {
    hide ActCallback, ActRenewal, ActCleanup, ActMetadata, Settled, Shifts;
    match st {
      case Callback(c) => CallbackShifts(w, c, before, bound);
      case Renewal(c) => RenewalShifts(w, c, before, bound);
      case Cleanup(c) => CleanupShifts(w, c, before, bound);
      case Metadata(c) => MetadataStepShifts(w, c, before, bound);
    }
  }

  lemma HoldTransitive(r: Rows, s: Rows, t: Rows, dated: bool)
    requires RowsHold(r, s, dated) && RowsHold(s, t, dated)
    ensures RowsHold(r, t, dated)
  {
    forall k | k in r.connections
      ensures k in t.connections && Holds(r.connections[k], t.connections[k], dated)
    {
      assert Holds(r.connections[k], s.connections[k], dated) && Holds(s.connections[k], t.connections[k], dated);
    }
  }

  /** Any step, whatever it reads, keeps rows mirrored and moves generations forward only. */
  lemma TakeShifts(w: World, st: Step)
    requires Mirrored(w.rows)
    ensures Mirrored(Take(w, st).rows) && RowsHold(w.rows, Take(w, st).rows, false)
  {
    hide Act, Mirrored, RowsHold;
    ActShifts(w, st, None, None);
  }

  /** So does every run. */
  lemma {:induction false} RunShifts(w: World, run: seq<Step>)
    requires Mirrored(w.rows)
    ensures Mirrored(Run(w, run).rows) && RowsHold(w.rows, Run(w, run).rows, false)
    decreases |run|
  {
    hide Take, Mirrored;
    if run != [] {
      TakeShifts(w, run[0]);
      RunShifts(Take(w, run[0]), run[1..]);
      HoldTransitive(w.rows, Take(w, run[0]).rows, Run(w, run).rows, false);
    }
  }
}
