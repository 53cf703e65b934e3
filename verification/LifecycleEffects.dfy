/**
 * What each section of the connection lifecycle does and when, told by its inputs: the exact
 * conditions under which it commits, and every field it leaves.
 */
module LifecycleEffects {
  import opened Options
  import opened ConnectionRecords
  import opened ConnectionSections
  import opened LifecycleSteps
  import opened StaleAuthorizations
  import opened CustodyInvariant
  import opened LifecycleSafety
  import opened LifecycleTheorems

  /** A stored row that is shown as if it were made up, so that no guarded save over it goes through. */
  ghost predicate Masked(r: Rows, k: Principal, shown: Option<Connection>) {
    k in r.connections && ConnectionWriteGuard(shown).Absent?
  }

  lemma ShownPrincipal(r: Rows, k: Principal, shown: Option<Connection>)
    requires Mirrored(r) && Sees(r, k, shown)
    ensures shown.Some? ==> shown.value.principal == k
  {
  }

  lemma OwnReadingIsAdmitted(r: Rows, s: Rows, k: Principal, shown: Option<Connection>)
    requires Mirrored(r) && Sees(r, k, shown) && s.connections == r.connections && s.accounts == r.accounts
    ensures GuardAdmits(s, k, ConnectionWriteGuard(shown)) <==> !Masked(r, k, shown)
  {
  }

  // ---------------------------------------------------------------- authorization

  /** No cleanup of the principal is left to be resolved, but for the candidate's own. */
  ghost predicate Resolved(r: Rows, k: Principal, id: Id) {
    forall i :: i in r.custody && i != id && r.custody[i].principal == k ==>
      r.custody[i].state != CleanupPending && r.custody[i].state != CleanupPermanentFailure
  }

  lemma AuthorizedExactly(r: Rows, shown: Option<Connection>, candidate: Custody, issued: Issued,
                          scopes: seq<string>, guard: Option<ActivationGuard>, now: Time)
    requires Mirrored(r) && Sees(r, candidate.principal, shown)
    ensures
      ActivateAuthorized(r, shown, candidate, issued, scopes, guard, now).Some?
      <==> && (guard.Some? ==> GuardHolds(guard.value, shown))
           && (shown.Some? ==> shown.value.revocation != Pending && shown.value.revocation != PermanentFailure)
           && Resolved(r, candidate.principal, candidate.id)
           && candidate.id in r.custody
           && r.custody[candidate.id].state == Candidate
           && r.custody[candidate.id].attempts == 0
           && !Masked(r, candidate.principal, shown)
  {
    hide ConnectionWriteGuard, GuardHolds, GuardAdmits, Mirrored, Sees, Masked;
    var claimed := ClaimAuthorized(r, shown, candidate, issued);
    if claimed.Some? {
      OwnReadingIsAdmitted(r, claimed.value, candidate.principal, shown);
    }
    assert Resolved(r, candidate.principal, candidate.id)
           <==> !HasUnresolvedCleanup(r, candidate.principal, candidate.id);
  }

  /** What an activated authorization leaves. */
  lemma AuthorizedLeaves(r: Rows, shown: Option<Connection>, candidate: Custody, issued: Issued,
                         scopes: seq<string>, guard: Option<ActivationGuard>, now: Time)
    requires ActivateAuthorized(r, shown, candidate, issued, scopes, guard, now).Some?
    ensures
      var s := ActivateAuthorized(r, shown, candidate, issued, scopes, guard, now).value;
      var k := candidate.principal;
      var generation := if shown.Some? then shown.value.generation + 1 else 1;
      && k in s.connections && s.connections == r.connections[k := s.connections[k]]
      && var c := s.connections[k];
      && c.principal == k && c.generation == generation && c.custodyId == Some(candidate.id)
      && c.envelope == Some(issued.credential)
      && (c.activePresent <==> Present(issued.credential.active))
      && (c.renewalPresent <==> Present(issued.credential.renewal))
      && c.display == issued.display
      && c.accountId == (if issued.accountId.Some? || shown.None? then issued.accountId else shown.value.accountId)
      && c.requiredScopes == scopes && c.grantedScopes == issued.grantedScopes
      && c.phase == Connected && c.category.None? && c.revocation == NotRevoked && c.disabledAt.None?
      && c.updatedAt == now && c.createdAt == (if shown.Some? then shown.value.createdAt else now)
      && s.custody == r.custody[candidate.id :=
           candidate.(generation := generation, state := Active, display := issued.display)]
      && s.queue == r.queue && s.markers == r.markers
  {
    hide GuardHolds, ConnectionWriteGuard;
  }

  // ---------------------------------------------------------------- renewal

  lemma IssuanceIsAllowedExactly(r: Rows, shown: Option<Connection>, k: Principal)
    ensures
      IssuanceAllowed(r, shown, k)
      <==> && shown.Some?
           && shown.value.disabledAt.None?
           && shown.value.envelope.Some?
           && (forall id :: id in r.custody && r.custody[id].principal == k ==>
                 && r.custody[id].state != CleanupPending
                 && r.custody[id].state != CleanupPermanentFailure
                 && (r.custody[id].state == Candidate ==> r.custody[id].generation != shown.value.generation + 1))
  {
  }

  lemma IssuancePrepares(current: Connection, id: Id, email: string, renewed: Credential,
                         scopes: Option<seq<string>>, stillFresh: bool)
    ensures
      var p := Prepare(current, id, email, renewed, scopes, stillFresh);
      && p.current == current && p.renewed == renewed && p.renewedScopes == scopes && p.stillFresh == stillFresh
      && p.candidate.id == id && p.candidate.principal == current.principal && p.candidate.display == email
      && p.candidate.material == Some(renewed)
      && p.candidate.generation == current.generation + 1
      && p.candidate.state == Candidate && p.candidate.attempts == 0
      && p.candidate.grantedScopes == (if scopes.Some? then scopes.value else current.grantedScopes)
  {
  }

  /** A renewal is activated exactly over the generation and date it was prepared for. */
  lemma RenewedExactly(r: Rows, shown: Option<Connection>, p: Preparation, identity: Option<(string, string)>,
                       now: Time)
    requires Mirrored(r) && Sees(r, p.candidate.principal, shown)
    requires p.current.disabledAt.None? && p.current.generation >= 1
    requires forall id :: id in r.custody ==> r.custody[id].id == id
    ensures
      var activation := ActivateRenewed(r, shown, p, identity, now);
      && (activation.AlreadyFresh? <==> shown.None? || shown.value.generation != p.current.generation)
      && (activation.Refreshed? <==>
            && shown.Some?
            && shown.value.generation == p.current.generation
            && shown.value.disabledAt.None?
            && shown.value.updatedAt == p.current.updatedAt
            && (shown.value.custodyId.Some? && shown.value.custodyId.value != p.candidate.id ==>
                  && shown.value.custodyId.value in r.custody
                  && r.custody[shown.value.custodyId.value].principal == p.candidate.principal
                  && r.custody[shown.value.custodyId.value].state == Active)
            && p.candidate.id in r.custody
            && r.custody[p.candidate.id].state == Candidate
            && r.custody[p.candidate.id].attempts == 0)
  {
    hide MergeRotatedCredential;
  }

  /** What an activated renewal leaves. */
  lemma RenewedLeaves(r: Rows, shown: Option<Connection>, p: Preparation, identity: Option<(string, string)>,
                      now: Time)
    requires ActivateRenewed(r, shown, p, identity, now).Refreshed?
    requires forall id :: id in r.custody ==> r.custody[id].id == id
    ensures
      var s := ActivateRenewed(r, shown, p, identity, now).rows;
      var k := p.candidate.principal;
      && shown.Some?
      && var b := shown.value;
      && k in s.connections && s.connections == r.connections[k := s.connections[k]]
      && var c := s.connections[k];
      && c.principal == k && c.generation == b.generation + 1 && c.custodyId == Some(p.candidate.id)
      && c.envelope == Some(Merged(p))
      && (c.activePresent <==> Present(Merged(p).active)) && (c.renewalPresent <==> Present(Merged(p).renewal))
      && c.display == (if identity.Some? then identity.value.0 else b.display)
      && c.accountId == (if identity.Some? then Some(identity.value.1) else b.accountId)
      && c.requiredScopes == b.requiredScopes
      && c.grantedScopes == (if p.renewedScopes.Some? then p.renewedScopes.value else b.grantedScopes)
      && c.phase == Connected && c.category.None? && c.revocation == b.revocation && c.disabledAt == b.disabledAt
      && c.updatedAt == now && c.createdAt == b.createdAt
      && s.queue == r.queue && s.markers == r.markers
      && p.candidate.id in s.custody
      && (b.custodyId.Some? && b.custodyId.value != p.candidate.id ==>
            && b.custodyId.value in r.custody
            && s.custody == r.custody[p.candidate.id := p.candidate.(material := Some(Merged(p)), state := Active)]
                              [b.custodyId.value := r.custody[b.custodyId.value].(material := None, state := Retired)])
      && (b.custodyId.None? || b.custodyId.value == p.candidate.id ==>
            s.custody == r.custody[p.candidate.id := p.candidate.(material := Some(Merged(p)), state := Active)])
  {
    hide MergeRotatedCredential, ConnectionWriteGuard, GuardAdmits;
  }

  /** The failures after which a new authorization is asked for. */
  predicate NeedsConsent(category: Category) {
    match category
    case InvalidRenewalCredential => true
    case RenewalExpired => true
    case IdentityMismatch => true
    case InsufficientScope => true
    case _ => false
  }

  /** A rejection queues the candidate unless it is in use or gone, and marks the connection it was for. */
  lemma RejectedExactly(r: Rows, shown: Option<Connection>, p: Preparation, cause: Option<Category>, now: Time)
    requires Mirrored(r) && Sees(r, p.candidate.principal, shown) && p.current.generation >= 1
    ensures
      var rejection := RejectRenewed(r, shown, p, cause, now);
      var k := p.candidate.principal;
      var inUse := shown.Some? && shown.value.custodyId == Some(p.candidate.id);
      var had := p.candidate.id in r.custody && r.custody[p.candidate.id].attempts == 0
                 && (r.custody[p.candidate.id].state == Candidate || r.custody[p.candidate.id].state == Active);
      var marks := && shown.Some? && shown.value.generation == p.current.generation && shown.value.disabledAt.None?
                   && shown.value.updatedAt == p.current.updatedAt
                   && cause.Some? && cause.value != PersistenceFailure && cause.value != GenerationConflict
                   && (p.stillFresh ==> NeedsConsent(cause.value));
      && (rejection.Rejected? <==> !inUse && had)
      && (rejection.Rejected? ==>
            && rejection.rows.custody == r.custody[p.candidate.id := p.candidate.(state := CleanupPending)]
            && rejection.rows.queue == r.queue && rejection.rows.markers == r.markers
            && (!marks ==> rejection.rows.connections == r.connections && rejection.rows.accounts == r.accounts)
            && (marks ==>
                  rejection.rows.connections == r.connections[k := shown.value.(
                    phase := if NeedsConsent(cause.value) then ReauthorizationRequired else Unavailable,
                    category := cause, updatedAt := now)]))
  {
    hide RejectRenewed, Mirrored, Sees, AccountOf;
    RejectionIs(r, shown, p, cause, now);
  }

  /** The connection as a rejection marks it. */
  function Marked(shown: Connection, cause: Category, now: Time): Connection {
    shown.(phase := if NeedsConsent(cause) then ReauthorizationRequired else Unavailable, category := Some(cause),
           updatedAt := now)
  }

  lemma RejectionIs(r: Rows, shown: Option<Connection>, p: Preparation, cause: Option<Category>, now: Time)
    requires Mirrored(r) && Sees(r, p.candidate.principal, shown) && p.current.generation >= 1
    ensures
      var k, pending := p.candidate.principal, p.candidate.(state := CleanupPending);
      var s := r.(custody := r.custody[pending.id := pending]);
      var inUse := shown.Some? && shown.value.custodyId == Some(pending.id);
      var had := pending.id in r.custody && r.custody[pending.id].attempts == 0
                 && (r.custody[pending.id].state == Candidate || r.custody[pending.id].state == Active);
      RejectRenewed(r, shown, p, cause, now)
      == if inUse || !had then Kept
         else if !RejectionMarksConnection(shown, p, cause) then Rejected(s)
         else
           var d := Marked(shown.value, cause.value, now);
           Rejected(s.(connections := s.connections[k := d], accounts := s.accounts[k := AccountOf(d)]))
  {
    hide Mirrored, Sees, GuardAdmits, ConnectionWriteGuard, AccountOf;
    RejectionIsAdmitted(r, r.(custody := r.custody[p.candidate.id := p.candidate.(state := CleanupPending)]), shown, p);
  }

  lemma RejectionIsAdmitted(r: Rows, s: Rows, shown: Option<Connection>, p: Preparation)
    requires Mirrored(r) && Sees(r, p.candidate.principal, shown) && p.current.generation >= 1
    requires s.connections == r.connections && s.accounts == r.accounts
    ensures shown.Some? && shown.value.generation == p.current.generation ==>
              && shown.value.principal == p.candidate.principal
              && GuardAdmits(s, p.candidate.principal, ConnectionWriteGuard(shown))
  {
    OwnReadingIsAdmitted(r, s, p.candidate.principal, shown);
  }

  /** A failed or refused renewal is noted unless the row is masked; nothing but phase, category and date changes. */
  lemma FailureIsNotedExactly(r: Rows, k: Principal, shown: Connection, phase: Phase, category: Category, now: Time)
    requires Mirrored(r) && Sees(r, k, Some(shown))
    ensures
      var noted := PersistRenewalFailure(r, shown, phase, category, now);
      && (noted.Some? <==> !Masked(r, k, Some(shown)))
      && (noted.Some? ==>
            && noted.value.connections
               == r.connections[k := shown.(phase := phase, category := Some(category), updatedAt := now)]
            && noted.value.custody == r.custody && noted.value.queue == r.queue && noted.value.markers == r.markers)
  {
    hide ConnectionWriteGuard, GuardAdmits, Mirrored, Masked;
    ShownPrincipal(r, k, Some(shown));
    OwnReadingIsAdmitted(r, r, k, Some(shown));
  }

  // ---------------------------------------------------------------- disconnect

  /** The connection that a disconnect leaves, from what it was shown. */
  ghost predicate LeavesDisconnected(revokes: bool, k: Principal, email: string, scopes: seq<string>, now: Time,
                                     shown: Option<Connection>, d: Connection)
  {
    if shown.None? then
      && d.principal == k && d.display == email && d.requiredScopes == scopes && d.grantedScopes == []
      && d.generation == 0 && d.createdAt == d.updatedAt == now && d.disabledAt == Some(now)
      && d.phase == Disconnected && d.revocation == Complete && d.category.None?
      && d.envelope.None? && d.custodyId.None? && d.accountId.None? && !d.activePresent && !d.renewalPresent
    else
      var c := shown.value;
      if c.disabledAt.Some? then
        && d == c.(phase := d.phase, updatedAt := now)
        && (c.revocation == Pending ==> d.phase == ProviderCleanupPending)
        && (c.revocation == PermanentFailure ==> d.phase == Unavailable)
        && (c.revocation == Complete || c.revocation == NotRevoked ==> d.phase == Disconnected)
      else if revokes && (c.activePresent || c.renewalPresent) then
        d == c.(custodyId := d.custodyId, disabledAt := Some(now), updatedAt := now, phase := RevocationPending,
                revocation := Pending)
      else
        d == c.(disabledAt := Some(now), updatedAt := now, phase := Disconnected, revocation := Complete,
                envelope := None, activePresent := false, renewalPresent := false)
  }

  /** The row written first, over which rows in the three cases. */
  lemma DisableIsOneSave(revokes: bool, r: Rows, shown: Option<Connection>, k: Principal, email: string,
                         scopes: seq<string>, newId: Id, now: Time) returns (d: Connection, s: Rows)
    requires shown.Some? ==> shown.value.principal == k
    ensures DisableConnection(revokes, r, shown, k, email, scopes, newId, now)
            == SaveConnection(s, d, ConnectionWriteGuard(shown))
    ensures d.principal == k && LeavesDisconnected(revokes, k, email, scopes, now, shown, d)
    ensures s.connections == r.connections && s.accounts == r.accounts && s.queue == r.queue
    ensures s.markers == r.markers - {k}
  {
    hide SaveConnection, ConnectionWriteGuard;
    s := r.(markers := r.markers - {k});
    if shown.None? {
      d := Tombstone(k, email, scopes, now);
    } else if shown.value.disabledAt.Some? {
      d := DisabledAgain(shown.value, now);
    } else {
      var c := shown.value;
      var adopts := NeedsRevocation(revokes, c) && c.custodyId.None?;
      if adopts {
        s := SaveCustody(s, AdoptedCustody(c, newId));
      }
      d := Disabled(revokes, c, if adopts then Some(newId) else c.custodyId, now);
    }
  }

  /** A disconnect commits unless the row is masked; it clears the marker and queues every row still in use. */
  lemma DisconnectedExactly(revokes: bool, r: Rows, shown: Option<Connection>, k: Principal, email: string,
                            scopes: seq<string>, newId: Id, now: Time)
    requires Mirrored(r) && Sees(r, k, shown)
    ensures
      var done := Disconnect(revokes, r, shown, k, email, scopes, newId, now);
      && (done.Some? <==> !Masked(r, k, shown))
      && (done.Some? ==>
            && k in done.value.connections
            && done.value.connections == r.connections[k := done.value.connections[k]]
            && LeavesDisconnected(revokes, k, email, scopes, now, shown, done.value.connections[k])
            && done.value.markers == r.markers - {k}
            && done.value.queue == r.queue)
  {
    hide ConnectionWriteGuard, GuardAdmits, Mirrored, Masked, Sees, Handoff, DisableConnection, LeavesDisconnected;
    ShownPrincipal(r, k, shown);
    var d, s := DisableIsOneSave(revokes, r, shown, k, email, scopes, newId, now);
    OwnReadingIsAdmitted(r, s, k, shown);
  }

  lemma SamePointer(revokes: bool, c: Connection, custodyId: Option<Id>, now: Time)
    ensures Disabled(revokes, c, custodyId, now).custodyId == custodyId
    ensures Disabled(revokes, c, custodyId, now).principal == c.principal
    ensures DisabledAgain(c, now).custodyId == c.custodyId && DisabledAgain(c, now).principal == c.principal
  {
  }

  predicate Adopts(revokes: bool, shown: Option<Connection>) {
    && revokes
    && shown.Some?
    && shown.value.disabledAt.None?
    && shown.value.custodyId.None?
    && (shown.value.activePresent || shown.value.renewalPresent)
  }

  lemma DisconnectHandsOff(revokes: bool, r: Rows, shown: Option<Connection>, k: Principal, email: string,
                           scopes: seq<string>, newId: Id, now: Time)
    requires Disconnect(revokes, r, shown, k, email, scopes, newId, now).Some?
    requires newId !in r.custody && (shown.Some? ==> shown.value.principal == k)
    ensures
      var s := Disconnect(revokes, r, shown, k, email, scopes, newId, now).value;
      var adopts := Adopts(revokes, shown);
      && s.custody == Handoff(if adopts then r.custody[newId := AdoptedCustody(shown.value, newId)] else r.custody, k)
      && (shown.Some? ==> k in s.connections)
      && (shown.Some? ==> s.connections[k].custodyId == if adopts then Some(newId) else shown.value.custodyId)
  {
    hide ConnectionWriteGuard, GuardAdmits, SaveConnection, Decrypted, Handoff, Disabled, DisabledAgain;
    var adopts := Adopts(revokes, shown);
    var cleared := r.(markers := r.markers - {k});
    if shown.None? {
      SaveEffect(cleared, Tombstone(k, email, scopes, now), ConnectionWriteGuard(None));
    } else if shown.value.disabledAt.Some? {
      SaveEffect(cleared, DisabledAgain(shown.value, now), ConnectionWriteGuard(shown));
      SamePointer(revokes, shown.value, None, now);
    } else {
      var c := shown.value;
      var adopted := if adopts then SaveCustody(cleared, AdoptedCustody(c, newId)) else cleared;
      var custodyId := if adopts then Some(newId) else c.custodyId;
      SaveEffect(adopted, Disabled(revokes, c, custodyId, now), ConnectionWriteGuard(shown));
      SamePointer(revokes, c, custodyId, now);
    }
  }

  /** The custody rows that a disconnect leaves. */
  lemma DisconnectQueues(revokes: bool, r: Rows, shown: Option<Connection>, k: Principal, email: string,
                         scopes: seq<string>, newId: Id, now: Time)
    requires Disconnect(revokes, r, shown, k, email, scopes, newId, now).Some?
    requires newId !in r.custody && (shown.Some? ==> shown.value.principal == k)
    ensures
      var s := Disconnect(revokes, r, shown, k, email, scopes, newId, now).value;
      var adopts := revokes && shown.Some? && shown.value.disabledAt.None? && shown.value.custodyId.None?
                    && (shown.value.activePresent || shown.value.renewalPresent);
      && (forall id :: id in s.custody <==> id in r.custody || (adopts && id == newId))
      && (forall id :: id in r.custody ==>
            s.custody[id] == if r.custody[id].principal == k
                                && (r.custody[id].state == Active || r.custody[id].state == Candidate)
                             then r.custody[id].(state := CleanupPending)
                             else r.custody[id])
      && (adopts ==>
            && var row := s.custody[newId];
            && row.id == newId && row.principal == k && row.state == CleanupPending && row.attempts == 0
            && row.display == shown.value.display && row.generation == shown.value.generation
            && row.grantedScopes == shown.value.grantedScopes && row.material == Some(Decrypted(shown.value))
            && k in s.connections && s.connections[k].custodyId == Some(newId))
      && (!adopts && shown.Some? ==> k in s.connections && s.connections[k].custodyId == shown.value.custodyId)
  {
    hide Disconnect;
    DisconnectHandsOff(revokes, r, shown, k, email, scopes, newId, now);
  }

  // ---------------------------------------------------------------- cleanup

  /** The worker's snapshot still stands: its row waits for cleanup, with as many attempts made. */
  ghost predicate StillWaits(w: World, record: Custody) {
    && record in w.seen
    && record.state == CleanupPending
    && record.id in w.rows.custody
    && w.rows.custody[record.id].state == CleanupPending
    && w.rows.custody[record.id].attempts == record.attempts
  }

  /** The disabled connection of a provider with revocation that points at the row. */
  ghost predicate PointsAt(w: World, record: Custody) {
    && w.revokes
    && IsPointer(w, record.principal, record.id)
    && w.rows.connections[record.principal].disabledAt.Some?
  }

  /** What the provider's answer does to the custody row. */
  ghost predicate RowFollows(a: Custody, b: Custody, result: RevocationResult) {
    && b == a.(state := b.state, material := b.material, attempts := a.attempts + 1)
    && match result
       case Revoked => b.state == CleanupComplete && b.material.None?
       case AlreadyAbsent => b.state == CleanupComplete && b.material.None?
       case NotSupported => b.state == CleanupComplete && b.material.None?
       case PermanentRefusal => b.state == CleanupPermanentFailure && b.material == a.material
       case RetryableFailure => b.state == CleanupPending && b.material == a.material
  }

  /** And to the connection that points at it. */
  ghost predicate ConnectionFollows(c: Connection, d: Connection, result: RevocationResult, now: Time) {
    && d.principal == c.principal && d.generation == c.generation && d.custodyId == c.custodyId
    && d.disabledAt == c.disabledAt && d.updatedAt == now && d.createdAt == c.createdAt
    && d.display == c.display && d.accountId == c.accountId && d.grantedScopes == c.grantedScopes
    && match result
       case PermanentRefusal =>
         && d.revocation == PermanentFailure && d.phase == Unavailable && d.category == Some(ProviderConfigurationError)
         && d.envelope == c.envelope && d.activePresent == c.activePresent && d.renewalPresent == c.renewalPresent
       case RetryableFailure =>
         && d.revocation == Pending && d.phase == ProviderCleanupPending
         && d.category == Some(TransientProviderFailure)
         && d.envelope == c.envelope && d.activePresent == c.activePresent && d.renewalPresent == c.renewalPresent
       case _ =>
         && d.revocation == Complete && d.phase == Disconnected && d.category.None?
         && d.envelope.None? && !d.activePresent && !d.renewalPresent
  }

  /**
   * Over any rows, a cleanup touches a connection only if that is disabled with its revocation pending, and
   * names the record under the record's own generation.
   */
  lemma CleanupSparesOthers(r: Rows, shown: Option<Connection>, record: Custody, result: RevocationResult, now: Time)
    requires FinalizeCleanup(r, shown, record, result, now).Some?
    requires shown.Some? ==>
               || shown.value.disabledAt == None
               || shown.value.revocation != Pending
               || shown.value.generation != record.generation
               || shown.value.custodyId != Some(record.id)
    ensures
      var s := FinalizeCleanup(r, shown, record, result, now).value;
      s.connections == r.connections && s.accounts == r.accounts && s.queue == r.queue && s.markers == r.markers
  {
  }

  lemma CleanedFollows(record: Custody, result: RevocationResult)
    ensures RowFollows(record, CleanedCustody(record, result), result)
  {
  }

  lemma OutcomeFollows(r: Rows, k: Principal, shown: Connection, result: RevocationResult, now: Time)
    requires k in r.connections && Sees(r, k, Some(shown))
    ensures ConnectionFollows(r.connections[k], RevocationOutcome(shown, result, now), result, now)
  {
  }

  /** The second half: the connection, if it is the one that waits. */
  lemma RevocationFollows(w: World, updated: Rows, shown: Option<Connection>, record: Custody, result: RevocationResult,
                          now: Time)
    requires Attached(w) && Mirrored(w.rows) && Sees(w.rows, record.principal, shown)
    requires record.id in w.rows.custody && w.rows.custody[record.id] == record && record.state == CleanupPending
    requires updated.connections == w.rows.connections && updated.accounts == w.rows.accounts
    ensures
      var done := FinalizeRevocation(updated, shown, record.generation, result, Some(record.id), now);
      && done.Some?
      && done.value.custody == updated.custody
      && (!PointsAt(w, record) ==> done.value.connections == w.rows.connections)
      && (PointsAt(w, record) ==>
            && record.principal in done.value.connections
            && done.value.connections
               == w.rows.connections[record.principal := done.value.connections[record.principal]]
            && ConnectionFollows(w.rows.connections[record.principal], done.value.connections[record.principal],
                                 result, now))
  {
    hide RevocationOutcome, ConnectionFollows, SaveConnection, ConnectionWriteGuard, GuardAdmits, Masked, Mirrored;
    var k := record.principal;
    if k in w.rows.connections && w.rows.connections[k].disabledAt.Some? {
      assert AttachedAt(w.rows.connections[k], w.rows.custody, LogOf(w, k), w.revokes);
      OutcomeFollows(w.rows, k, shown.value, result, now);
      OwnReadingIsAdmitted(w.rows, updated, k, shown);
      DisabledIsNotMasked(w.rows, k, shown);
      KeepsPrincipal(shown.value, result, now);
      ShownPrincipal(w.rows, k, shown);
      AdmittedIsSaved(updated, RevocationOutcome(shown.value, result, now), ConnectionWriteGuard(shown));
      SaveEffect(updated, RevocationOutcome(shown.value, result, now), ConnectionWriteGuard(shown));
    }
  }

  lemma AdmittedIsSaved(r: Rows, record: Connection, guard: WriteGuard)
    ensures SaveConnection(r, record, guard).Some? <==> GuardAdmits(r, record.principal, guard)
  {
  }

  /** The locked finalisation over sound rows, for a snapshot that equals its row. */
  lemma FinalizedFollows(w: World, shown: Option<Connection>, record: Custody, result: RevocationResult, now: Time)
    requires Attached(w) && Mirrored(w.rows) && Sees(w.rows, record.principal, shown)
    requires record.id in w.rows.custody && w.rows.custody[record.id] == record && record.state == CleanupPending
    ensures
      var done := FinalizeCleanup(w.rows, shown, record, result, now);
      && done.Some?
      && record.id in done.value.custody
      && done.value.custody == w.rows.custody[record.id := done.value.custody[record.id]]
      && RowFollows(record, done.value.custody[record.id], result)
      && (!PointsAt(w, record) ==> done.value.connections == w.rows.connections)
      && (PointsAt(w, record) ==>
            && record.principal in done.value.connections
            && done.value.connections
               == w.rows.connections[record.principal := done.value.connections[record.principal]]
            && ConnectionFollows(w.rows.connections[record.principal], done.value.connections[record.principal],
                                 result, now))
  {
    hide CleanedCustody, RowFollows, ConnectionFollows, FinalizeRevocation, Attached, Mirrored, Sees, PointsAt;
    CleanedFollows(record, result);
    KeepsId(record, result);
    var updated := w.rows.(custody := w.rows.custody[record.id := CleanedCustody(record, result)]);
    RevocationFollows(w, updated, shown, record, result, now);
  }

  lemma KeepsId(record: Custody, result: RevocationResult)
    ensures CleanedCustody(record, result).id == record.id
  {
  }

  lemma KeepsPrincipal(c: Connection, result: RevocationResult, now: Time)
    ensures RevocationOutcome(c, result, now).principal == c.principal
  {
  }

  lemma DisabledIsNotMasked(r: Rows, k: Principal, shown: Option<Connection>)
    requires k in r.connections && Sees(r, k, shown) && r.connections[k].disabledAt.Some?
    ensures !Masked(r, k, shown)
  {
  }

  /**
   * In every run a step that finishes a cleanup does to the row, and to the disabled connection that
   * points at it, what the provider answered: only a completed revocation erases the material, and a
   * refusal or a failure keeps it. A snapshot that no longer stands changes nothing.
   */
  lemma CleanupFollowsAnswer(revokes: bool, run: seq<Step>, record: Custody, result: RevocationResult, now: Time,
                             wall: Time)
    ensures
      var w := Run(Initial(revokes), run);
      var v := Take(w, Cleanup(FinishCleanup(record, result, now, wall)));
      && (!StillWaits(w, record) ==> v.rows == w.rows)
      && (StillWaits(w, record) ==>
            && record.id in v.rows.custody
            && v.rows.custody == w.rows.custody[record.id := v.rows.custody[record.id]]
            && RowFollows(w.rows.custody[record.id], v.rows.custody[record.id], result)
            && (!PointsAt(w, record) ==> v.rows.connections == w.rows.connections)
            && (PointsAt(w, record) ==>
                  && record.principal in v.rows.connections
                  && v.rows.connections == w.rows.connections[record.principal := v.rows.connections[record.principal]]
                  && ConnectionFollows(w.rows.connections[record.principal], v.rows.connections[record.principal],
                                       result, now)))
  {
    hide Run, GetConnection, RowFollows, ConnectionFollows, FinalizeRevocation, CleanedCustody;
    var w := Run(Initial(revokes), run);
    ReachableInv(revokes, run);
    GetConnectionSees(w.rows, record.principal, wall);
    KeepsId(record, result);
    if StillWaits(w, record) {
      assert Harmless(record, w.rows.custody);
      FinalizedFollows(w, GetConnection(w.rows, record.principal, wall), record, result, now);
    }
  }

  /** A queued cleanup is moved into custody as it is, waiting. */
  lemma QueuedIsMovedAsItIs(q: QueuedCleanup)
    ensures
      var row := FromQueue(q);
      && row.id == q.id && row.principal == q.principal && row.display == q.display
      && row.material == Some(q.material) && row.generation == q.generation && row.grantedScopes == q.grantedScopes
      && row.state == CleanupPending && row.attempts == 0
  {
  }

  // ---------------------------------------------------------------- metadata

  lemma BackfilledExactly(r: Rows, k: Principal, shown: Option<Connection>, initial: Connection, display: string,
                          account: string)
    requires Mirrored(r) && Sees(r, k, shown)
    ensures
      var done := Backfill(r, shown, initial, display, account);
      && (done.Some? <==>
            && shown.Some? && shown.value.accountId.None? && shown.value.disabledAt.None?
            && shown.value.generation == initial.generation && shown.value.updatedAt == initial.updatedAt
            && !Masked(r, k, shown))
      && (done.Some? ==>
            && done.value.connections
               == r.connections[k := shown.value.(display := display, accountId := Some(account))]
            && done.value.custody == r.custody && done.value.queue == r.queue && done.value.markers == r.markers)
  {
    hide ConnectionWriteGuard, GuardAdmits, Mirrored, Masked;
    ShownPrincipal(r, k, shown);
    OwnReadingIsAdmitted(r, r, k, shown);
  }

  lemma RepairedExactly(r: Rows, k: Principal, shown: Option<Connection>, usable: bool, now: Time)
    requires Mirrored(r) && Sees(r, k, shown)
    ensures
      var done := RepairScopePoison(r, shown, usable, now);
      && (done.Some? <==>
            && usable && shown.Some? && shown.value.disabledAt.None?
            && shown.value.phase == ReauthorizationRequired && shown.value.category == Some(InsufficientScope))
      && (done.Some? ==>
            var date := if shown.value.updatedAt < now then now else shown.value.updatedAt + 1;
            && done.value.connections
               == r.connections[k := shown.value.(phase := Connected, category := None, updatedAt := date)]
            && done.value.custody == r.custody && done.value.queue == r.queue && done.value.markers == r.markers)
  {
    hide GuardAdmits, Mirrored;
    ShownPrincipal(r, k, shown);
    OwnReadingIsAdmitted(r, r, k, shown);
  }
}
