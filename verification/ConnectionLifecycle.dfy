/**
 * The lifecycle's locked sections as they run against the store, statement by statement and without
 * a transaction behind them. Each commits what its section function says, or leaves the rows alone;
 * the in-memory store can stop half-way only over a row stored for a principal that has none.
 */
module ConnectionLifecycles {
  import opened Options
  import opened ConnectionRecords
  import S = ConnectionSections
  import opened TokenStores
  import opened StaleAuthorizations

  ghost predicate KeyedById(custody: map<Id, Custody>) {
    forall id :: id in custody ==> custody[id].id == id
  }

  ghost predicate Keyed(r: S.Rows) {
    Mirrored(r) && KeyedById(r.custody)
  }

  /** A stored row that the write guard mistakes for a made-up authorizing record. */
  predicate LooksSynthetic(r: S.Rows, k: Principal, current: Option<Connection>) {
    k in r.connections && current.Some? && IsSyntheticAuthorization(current.value)
  }

  /** The guard of what a section has just read admits its write, unless the row looks made up. */
  lemma AdmitsOwnReading(r: S.Rows, s: S.Rows, k: Principal, wall: Time)
    requires Keyed(r) && s.connections == r.connections && s.accounts == r.accounts
    ensures var current := S.GetConnection(r, k, wall);
            S.GuardAdmits(s, k, ConnectionWriteGuard(current)) <==> !LooksSynthetic(r, k, current)
  {
    GetConnectionSees(r, k, wall);
  }

  /** So does the guard of an earlier reading of the same enabled generation and date. */
  lemma AdmitsSameReading(r: S.Rows, s: S.Rows, k: Principal, wall: Time, earlier: Connection)
    requires Keyed(r) && s.connections == r.connections && s.accounts == r.accounts
    requires var current := S.GetConnection(r, k, wall);
             && current.Some? && current.value.generation == earlier.generation >= 1
             && current.value.disabledAt.None? && earlier.disabledAt.None?
             && current.value.updatedAt == earlier.updatedAt
    ensures S.GuardAdmits(s, k, ConnectionWriteGuard(Some(earlier)))
    ensures k in r.connections
  {
    GetConnectionSees(r, k, wall);
  }

  lemma CustodyIsNotRead(r: S.Rows, s: S.Rows, k: Principal, wall: Time)
    requires s.connections == r.connections && s.accounts == r.accounts && s.markers == r.markers
    ensures S.GetConnection(s, k, wall) == S.GetConnection(r, k, wall)
  {
  }

  /** The outcome is saved under the principal that was read. */
  lemma OutcomeKeepsPrincipal(r: S.Rows, k: Principal, wall: Time, result: RevocationResult, now: Time)
    requires Keyed(r)
    ensures
      var current := S.GetConnection(r, k, wall);
      current.Some? ==> S.RevocationOutcome(current.value, result, now).principal == k
  {
    GetConnectionSees(r, k, wall);
  }

  class ConnectionLifecycle {
    const store: TokenStore
    const revokes: bool

    constructor (store: TokenStore, revokes: bool)
      ensures this.store == store && this.revokes == revokes
    {
      this.store := store;
      this.revokes := revokes;
    }

    /** Over a row that looks made up the claimed candidate stays active, as nothing rolls it back. */
    method ActivateAuthorizedGeneration(candidate: Custody, issued: S.Issued, requiredScopes: seq<string>,
                                        guard: Option<ActivationGuard>, now: Time, wall: Time)
      returns (activated: bool)
      requires Keyed(store.View())
      modifies store
      ensures
        var r := old(store.View());
        var current := S.GetConnection(r, candidate.principal, wall);
        var section := S.ActivateAuthorized(r, current, candidate, issued, requiredScopes, guard, now);
        var claim := S.ClaimAuthorized(r, current, candidate, issued);
        var claimed := S.ActivationAllowed(r, current, candidate, guard) && claim.Some?;
        && activated == section.Some?
        && activated == (claimed && !LooksSynthetic(r, candidate.principal, current))
        && store.View() == if activated then section.value
                           else if claimed then claim.value
                           else r
    {
      hide S.GetConnection, S.GuardAdmits, ConnectionWriteGuard, LooksSynthetic, GuardHolds;
      ghost var r := store.View();
      var current := store.GetConnection(candidate.principal, wall);
      if guard.Some? && !GuardHolds(guard.value, current) {
        return false;
      }
      if current.Some? && current.value.revocation in {Pending, PermanentFailure} {
        return false;
      }
      var existing := store.ListPrincipalCredentialGenerations(candidate.principal);
      var blocked := exists record :: record in existing && record.id != candidate.id
                                      && IsUnresolvedCleanup(record.state);
      assert blocked <==> S.HasUnresolvedCleanup(store.View(), candidate.principal, candidate.id);
      if blocked {
        return false;
      }
      var active := candidate.(generation := GenerationOf(current) + 1, state := Active, display := issued.display);
      var updated := store.UpdateCredentialGeneration(active, Candidate, 0);
      if !updated {
        return false;
      }
      AdmitsOwnReading(r, store.View(), candidate.principal, wall);
      activated := store.SaveConnection(
        S.AuthorizedConnection(current, candidate, issued, requiredScopes, now), ConnectionWriteGuard(current));
    }

    /** `p.current` is an enabled row as the issuance section read it. */
    method ActivateRenewedGeneration(p: S.Preparation, identity: Option<(string, string)>, now: Time, wall: Time)
      returns (activation: S.RenewalActivation)
      requires Keyed(store.View())
      requires p.current.disabledAt.None? && p.current.generation >= 1
      modifies store
      ensures
        var r := old(store.View());
        var section := S.ActivateRenewed(r, S.GetConnection(r, p.candidate.principal, wall), p, identity, now);
        && activation == section
        && store.View() == if section.Refreshed? then section.rows else r
    {
      hide S.GetConnection, S.GuardAdmits, ConnectionWriteGuard;
      ghost var r := store.View();
      var k := p.candidate.principal;
      var current := store.GetConnection(k, wall);
      if current.None? || current.value.generation != p.current.generation {
        return S.AlreadyFresh;
      }
      var c := current.value;
      if c.disabledAt.Some? || c.updatedAt != p.current.updatedAt {
        return S.Conflict;
      }
      var supersedes := c.custodyId.Some? && c.custodyId.value != p.candidate.id;
      var superseded: Option<Custody> := None;
      if supersedes {
        var generations := store.ListPrincipalCredentialGenerations(k);
        superseded := Find(generations, c.custodyId.value);
        assert superseded.Some? <==> c.custodyId.value in r.custody && r.custody[c.custodyId.value].principal == k;
        if superseded.None? || superseded.value.state != Active {
          return S.Conflict;
        }
      }
      var updated := store.UpdateCredentialGeneration(S.ActivatedCustody(p), Candidate, 0);
      if !updated {
        return S.Conflict;
      }
      AdmitsSameReading(r, store.View(), k, wall, p.current);
      var saved := store.SaveConnection(S.RenewedConnection(c, p, identity, now),
                                        ConnectionWriteGuard(Some(p.current)));
      assert saved;
      if supersedes {
        updated := store.UpdateCredentialGeneration(S.RetiredCustody(superseded.value), Active,
                                                    superseded.value.attempts);
        assert updated;
      }
      return S.Refreshed(S.Rows(store.connections, store.accounts, store.credentialGenerations,
                                store.pendingCleanups, store.authorizations));
    }

    method RejectRenewedGeneration(p: S.Preparation, category: Option<Category>, now: Time, wall: Time)
      returns (queued: bool)
      requires Keyed(store.View())
      requires p.current.generation >= 1
      modifies store
      ensures
        var r := old(store.View());
        var section := S.RejectRenewed(r, S.GetConnection(r, p.candidate.principal, wall), p, category, now);
        && queued == section.Rejected?
        && store.View() == if queued then section.rows else r
    {
      ghost var r := store.View();
      var current := store.GetConnection(p.candidate.principal, wall);
      GetConnectionSees(r, p.candidate.principal, wall);
      if current.Some? && current.value.custodyId == Some(p.candidate.id) {
        return false;
      }
      var pending := p.candidate.(state := CleanupPending);
      queued := store.UpdateCredentialGeneration(pending, Candidate, 0);
      if !queued {
        queued := store.UpdateCredentialGeneration(pending, Active, 0);
      }
      if queued && S.RejectionMarksConnection(current, p, category) {
        var phase := if IsPermanentRenewalFailure(category.value) then ReauthorizationRequired else Unavailable;
        var saved := store.SaveConnection(
          current.value.(phase := phase, category := Some(category.value), updatedAt := now),
          ConnectionWriteGuard(current));
        assert saved;
      }
    }

    /** Hands one listed record off, as the row still stands. */
    method HandoffRecord(ghost custody: map<Id, Custody>, ghost before: seq<Custody>, record: Custody)
      returns (pending: seq<Custody>)
      requires KeyedById(custody) && record.id in custody && custody[record.id] == record && record !in before
      requires store.View().custody == HandedUpTo(custody, before)
      modifies store
      ensures store.View() == old(store.View()).(custody := HandedUpTo(custody, before + [record]))
      ensures pending == if record.state in {Active, Candidate} then [record.(state := CleanupPending)] else []
    {
      HandedNext(custody, before, record);
      pending := [];
      if record.state == Active || record.state == Candidate {
        pending := [record.(state := CleanupPending)];
        var updated := store.UpdateCredentialGeneration(record.(state := CleanupPending), record.state,
                                                        record.attempts);
        assert updated;
      }
    }

    /** Hands every active or candidate row of the principal to the cleanup worker, one by one. */
    method HandoffPrincipalCredentialGenerations(k: Principal) returns (handed: seq<Custody>)
      requires KeyedById(store.View().custody)
      modifies store
      ensures store.View() == S.HandedOff(old(store.View()), k)
      ensures
        var custody := old(store.View()).custody;
        forall id :: id in custody && custody[id].principal == k && custody[id].state in {Active, Candidate} ==>
          custody[id].(state := CleanupPending) in handed
    {
      ghost var r := store.View();
      var records := store.ListPrincipalCredentialGenerations(k);
      handed := [];
      HandedNone(r.custody);
      var i := 0;
      while i < |records|
        invariant 0 <= i <= |records|
        invariant store.View() == r.(custody := HandedUpTo(r.custody, records[..i]))
        invariant forall c :: c in records[..i] && c.state in {Active, Candidate} ==>
                    c.(state := CleanupPending) in handed
      {
        var record := records[i];
        assert records[..i + 1] == records[..i] + [record];
        assert record in records && record !in records[..i];
        var pending := HandoffRecord(r.custody, records[..i], record);
        handed := handed + pending;
        i := i + 1;
      }
      assert records[..i] == records;
      HandedAll(r.custody, records, k);
    }

    method DisableConnection(k: Principal, email: string, requiredScopes: seq<string>, newId: Id, now: Time, wall: Time)
      returns (disabled: bool)
      requires Keyed(store.View())
      modifies store
      ensures
        var r := old(store.View());
        var current := S.GetConnection(r, k, wall);
        var section := S.DisableConnection(revokes, r, current, k, email, requiredScopes, newId, now);
        && disabled == section.Some?
        && disabled == !LooksSynthetic(r, k, current)
        && store.View() == if disabled then section.value else r.(markers := r.markers - {k})
      ensures KeyedById(store.View().custody)
    {
      hide S.GetConnection, S.GuardAdmits, ConnectionWriteGuard;
      ghost var r := store.View();
      var current := store.GetConnection(k, wall);
      GetConnectionSees(r, k, wall);
      store.ClearAuthorizing(k);
      AdmitsOwnReading(r, store.View(), k, wall);
      if current.None? {
        disabled := store.SaveConnection(S.Tombstone(k, email, requiredScopes, now), ConnectionWriteGuard(None));
      } else if current.value.disabledAt.Some? {
        disabled := store.SaveConnection(S.DisabledAgain(current.value, now), ConnectionWriteGuard(current));
      } else {
        var c := current.value;
        var custodyId := c.custodyId;
        if S.NeedsRevocation(revokes, c) && custodyId.None? {
          store.SaveCredentialGeneration(S.AdoptedCustody(c, newId));
          custodyId := Some(newId);
        }
        AdmitsOwnReading(r, store.View(), k, wall);
        disabled := store.SaveConnection(S.Disabled(revokes, c, custodyId, now), ConnectionWriteGuard(current));
      }
    }

    /** A disconnect fails exactly over a row the write guard mistakes for a made-up record; the marker is gone then. */
    method Disconnect(k: Principal, email: string, requiredScopes: seq<string>, newId: Id, now: Time, wall: Time)
      returns (disconnected: bool)
      requires Keyed(store.View())
      modifies store
      ensures
        var r := old(store.View());
        var current := S.GetConnection(r, k, wall);
        var section := S.Disconnect(revokes, r, current, k, email, requiredScopes, newId, now);
        && disconnected == section.Some?
        && disconnected == !LooksSynthetic(r, k, current)
        && store.View() == if disconnected then section.value else r.(markers := r.markers - {k})
    {
      ghost var r := store.View();
      disconnected := DisableConnection(k, email, requiredScopes, newId, now, wall);
      if disconnected {
        var handed := HandoffPrincipalCredentialGenerations(k);
      }
    }

    method FinalizeCredentialCleanup(record: Custody, result: RevocationResult, now: Time, wall: Time)
      returns (finalized: bool)
      requires Keyed(store.View())
      modifies store
      ensures
        var r := old(store.View());
        var section := S.FinalizeCleanup(r, S.GetConnection(r, record.principal, wall), record, result, now);
        && finalized == section.Some?
        && store.View() == if finalized then section.value else r
    {
      hide S.GetConnection, S.GuardAdmits, ConnectionWriteGuard, S.CleanedCustody, S.RevocationOutcome;
      ghost var r := store.View();
      finalized := store.UpdateCredentialGeneration(S.CleanedCustody(record, result), CleanupPending, record.attempts);
      if !finalized {
        return;
      }
      var current := store.GetConnection(record.principal, wall);
      CustodyIsNotRead(r, store.View(), record.principal, wall);
      AdmitsOwnReading(r, store.View(), record.principal, wall);
      OutcomeKeepsPrincipal(r, record.principal, wall, result, now);
      if current.Some? && current.value.generation == record.generation && current.value.disabledAt.Some?
         && current.value.revocation == Pending && current.value.custodyId == Some(record.id) {
        var saved := store.SaveConnection(S.RevocationOutcome(current.value, result, now),
                                          ConnectionWriteGuard(current));
        assert saved;
      }
    }
  }

  function Find(records: seq<Custody>, id: Id): (found: Option<Custody>)
    ensures found.Some? ==> found.value in records && found.value.id == id
    ensures found.None? ==> forall c :: c in records ==> c.id != id
  {
    if records == [] then None
    else if records[0].id == id then Some(records[0])
    else Find(records[1..], id)
  }

  /** The custody rows after the listed records have been handed off. */
  ghost function HandedUpTo(custody: map<Id, Custody>, records: seq<Custody>): map<Id, Custody> {
    map id | id in custody ::
      if custody[id] in records && (custody[id].state == Active || custody[id].state == Candidate)
      then custody[id].(state := CleanupPending)
      else custody[id]
  }

  lemma HandedNone(custody: map<Id, Custody>)
    ensures HandedUpTo(custody, []) == custody
  {
  }

  lemma HandedNext(custody: map<Id, Custody>, records: seq<Custody>, record: Custody)
    requires forall id :: id in custody ==> custody[id].id == id
    requires record.id in custody && custody[record.id] == record && record !in records
    ensures record.id in HandedUpTo(custody, records) && HandedUpTo(custody, records)[record.id] == record
    ensures HandedUpTo(custody, records + [record]) ==
            if record.state == Active || record.state == Candidate
            then HandedUpTo(custody, records)[record.id := record.(state := CleanupPending)]
            else HandedUpTo(custody, records)
  {
  }

  lemma HandedAll(custody: map<Id, Custody>, records: seq<Custody>, k: Principal)
    requires forall id :: id in custody && custody[id].principal == k ==> custody[id] in records
    requires forall c :: c in records ==> c.principal == k
    ensures HandedUpTo(custody, records) == S.Handoff(custody, k)
  {
  }
}
