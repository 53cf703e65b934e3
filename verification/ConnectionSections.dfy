/**
 * The store as a value, its single-row operations, and the sections of the connection lifecycle
 * that run under the connection lock. A section starts from `current`, the connection it read
 * inside the lock, and yields the rows it commits, or none when it
 * throws and is rolled back.
 */
module ConnectionSections {
  import opened Options
  import opened ConnectionRecords

  datatype Rows = Rows(
    connections: map<Principal, Connection>,
    accounts: map<Principal, Account>,
    custody: map<Id, Custody>,
    queue: map<Id, QueuedCleanup>,
    markers: map<Principal, Marker>)

  const EMPTY_ROWS := Rows(map[], map[], map[], map[], map[])

  // ---------------------------------------------------------------- single-row operations

  /** The connection a caller sees at wall-clock time `wall`, with the authorizing overlay. */
  function GetConnection(r: Rows, k: Principal, wall: Time): Option<Connection> {
    if k in r.connections && r.connections[k].disabledAt.None? && r.connections[k].phase == Connected then
      Some(r.connections[k])
    else if k !in r.connections && k in r.accounts && r.accounts[k].revokedAt.None? then
      Some(ConnectionFromLegacy(k, r.accounts[k]))
    else if k in r.markers && r.markers[k].expiresAt > wall then
      var marker := r.markers[k];
      if k in r.connections then
        Some(r.connections[k].(requiredScopes := marker.requiredScopes, phase := Authorizing))
      else if k in r.accounts then
        Some(ConnectionFromLegacy(k, r.accounts[k]).(requiredScopes := marker.requiredScopes, phase := Authorizing))
      else
        Some(Connection(k, "", None, None, None, 0, marker.requiredScopes, [], false, false, None,
                        Authorizing, NotRevoked, None, marker.updatedAt, marker.updatedAt))
    else if k in r.connections then
      Some(r.connections[k])
    else if k in r.accounts then
      Some(ConnectionFromLegacy(k, r.accounts[k]))
    else
      None
  }

  predicate GuardAdmits(r: Rows, k: Principal, guard: WriteGuard) {
    match guard
    case Absent => k !in r.accounts
    case Existing(generation, updatedAt, revokedAt) =>
      && k in r.accounts
      && (if k in r.connections then r.connections[k].generation else 1) == generation
      && r.accounts[k].updatedAt == updatedAt
      && r.accounts[k].revokedAt == revokedAt
  }

  function SaveConnection(r: Rows, record: Connection, guard: WriteGuard): Option<Rows> {
    if !GuardAdmits(r, record.principal, guard) then
      None
    else
      Some(r.(connections := r.connections[record.principal := record],
              accounts := r.accounts[record.principal := AccountOf(record)]))
  }

  function SaveCustody(r: Rows, record: Custody): Rows {
    if record.id in r.custody then r else r.(custody := r.custody[record.id := record])
  }

  /** Compare-and-set on a custody row: the expected state and attempt count must still hold. */
  function UpdateCustody(r: Rows, record: Custody, expected: CustodyState, attempts: nat): Option<Rows> {
    if record.id !in r.custody || r.custody[record.id].state != expected
       || r.custody[record.id].attempts != attempts then
      None
    else
      Some(r.(custody := r.custody[record.id := record]))
  }

  // ---------------------------------------------------------------- authorization activation

  datatype Issued = Issued(
    credential: Credential,
    display: string,
    accountId: Option<string>,
    grantedScopes: seq<string>)

  function NewCandidate(k: Principal, id: Id, email: string, generation: nat, credential: Credential,
                        grantedScopes: seq<string>): Custody
  {
    Custody(id, k, email, Some(credential), generation, Candidate, grantedScopes, 0)
  }

  predicate HasUnresolvedCleanup(r: Rows, k: Principal, except: Id) {
    exists id :: id in r.custody && id != except && r.custody[id].principal == k
                 && IsUnresolvedCleanup(r.custody[id].state)
  }

  predicate ActivationAllowed(r: Rows, current: Option<Connection>, candidate: Custody,
                              guard: Option<ActivationGuard>)
  {
    && (guard.Some? ==> GuardHolds(guard.value, current))
    && !(current.Some? && current.value.revocation in {Pending, PermanentFailure})
    && !HasUnresolvedCleanup(r, candidate.principal, candidate.id)
  }

  function AuthorizedConnection(current: Option<Connection>, candidate: Custody, issued: Issued,
                                requiredScopes: seq<string>, now: Time): Connection
  {
    Connection(
      candidate.principal, issued.display,
      if current.Some? then issued.accountId.Or(current.value.accountId) else issued.accountId,
      Some(issued.credential), Some(candidate.id), GenerationOf(current) + 1, requiredScopes,
      issued.grantedScopes, Present(issued.credential.active), Present(issued.credential.renewal),
      None, Connected, NotRevoked, None,
      if current.Some? then current.value.createdAt else now, now)
  }

  /** The candidate turned active, if it is still a candidate. */
  function ClaimAuthorized(r: Rows, current: Option<Connection>, candidate: Custody, issued: Issued): Option<Rows> {
    var active := candidate.(generation := GenerationOf(current) + 1, state := Active, display := issued.display);
    UpdateCustody(r, active, Candidate, 0)
  }

  function ActivateAuthorized(r: Rows, current: Option<Connection>, candidate: Custody, issued: Issued,
                              requiredScopes: seq<string>, guard: Option<ActivationGuard>, now: Time)
    : (committed: Option<Rows>)
    ensures committed.Some? ==> candidate.principal in committed.value.connections
  {
    if !ActivationAllowed(r, current, candidate, guard) then
      None
    else
      var updated :- ClaimAuthorized(r, current, candidate, issued);
      SaveConnection(updated, AuthorizedConnection(current, candidate, issued, requiredScopes, now),
                     ConnectionWriteGuard(current))
  }

  // ---------------------------------------------------------------- renewal

  /** What a renewal carries from the issuance section to its activation or rejection. */
  datatype Preparation = Preparation(
    current: Connection,
    candidate: Custody,
    renewed: Credential,
    renewedScopes: Option<seq<string>>,
    stillFresh: bool)

  function Decrypted(c: Connection): Credential {
    if c.envelope.Some? then c.envelope.value else Credential(None, None, map[])
  }

  predicate IssuanceAllowed(r: Rows, current: Option<Connection>, k: Principal) {
    && current.Some?
    && current.value.disabledAt.None?
    && current.value.envelope.Some?
    && !(exists id :: id in r.custody && r.custody[id].principal == k && IsUnresolvedCleanup(r.custody[id].state))
    && !(exists id :: id in r.custody && r.custody[id].principal == k && r.custody[id].state == Candidate
                      && r.custody[id].generation == current.value.generation + 1)
  }

  function Prepare(current: Connection, id: Id, email: string, renewed: Credential,
                   renewedScopes: Option<seq<string>>, stillFresh: bool): Preparation
  {
    var scopes := if renewedScopes.Some? then renewedScopes.value else current.grantedScopes;
    Preparation(current, NewCandidate(current.principal, id, email, current.generation + 1, renewed, scopes),
                renewed, renewedScopes, stillFresh)
  }

  datatype RenewalActivation = AlreadyFresh | Refreshed(rows: Rows) | Conflict

  function RenewedConnection(current: Connection, p: Preparation, identity: Option<(string, string)>, now: Time)
    : Connection
  {
    var merged := MergeRotatedCredential(Decrypted(p.current), p.renewed);
    current.(
      principal := p.candidate.principal,
      display := if identity.Some? then identity.value.0 else current.display,
      accountId := if identity.Some? then Some(identity.value.1) else current.accountId,
      envelope := Some(merged),
      custodyId := Some(p.candidate.id),
      generation := current.generation + 1,
      grantedScopes := if p.renewedScopes.Some? then p.renewedScopes.value else current.grantedScopes,
      activePresent := Present(merged.active),
      renewalPresent := Present(merged.renewal),
      phase := Connected,
      category := None,
      updatedAt := now)
  }

  function ActivatedCustody(p: Preparation): Custody {
    p.candidate.(material := Some(MergeRotatedCredential(Decrypted(p.current), p.renewed)), state := Active)
  }

  function RetiredCustody(c: Custody): Custody {
    c.(material := None, state := Retired)
  }

  function ActivateRenewed(r: Rows, current: Option<Connection>, p: Preparation,
                           identity: Option<(string, string)>, now: Time)
    : (activation: RenewalActivation)
    ensures activation.Refreshed? ==> p.candidate.principal in activation.rows.connections
  {
    var k := p.candidate.principal;
    if current.None? || current.value.generation != p.current.generation then
      AlreadyFresh
    else if current.value.disabledAt.Some? || current.value.updatedAt != p.current.updatedAt then
      Conflict
    else
      var c := current.value;
      var supersedes := c.custodyId.Some? && c.custodyId.value != p.candidate.id;
      if supersedes && !(c.custodyId.value in r.custody && r.custody[c.custodyId.value].principal == k
                         && r.custody[c.custodyId.value].state == Active) then
        Conflict
      else
        match UpdateCustody(r, ActivatedCustody(p), Candidate, 0)
        case None => Conflict
        case Some(updated) =>
          match SaveConnection(updated, RenewedConnection(c, p, identity, now), ConnectionWriteGuard(Some(p.current)))
          case None => Conflict
          case Some(saved) =>
            if !supersedes then
              Refreshed(saved)
            else
              var superseded := r.custody[c.custodyId.value];
              match UpdateCustody(saved, RetiredCustody(superseded), Active, superseded.attempts)
              case None => Conflict
              case Some(retired) => Refreshed(retired)
  }

  /** Marks a connection after a refused or failed renewal. */
  function PersistRenewalFailure(r: Rows, current: Connection, phase: Phase, category: Category, now: Time)
    : Option<Rows>
  {
    SaveConnection(r, current.(phase := phase, category := Some(category), updatedAt := now),
                   ConnectionWriteGuard(Some(current)))
  }

  datatype RenewalRejection = Kept | Rejected(rows: Rows) | RejectionConflict

  predicate RejectionMarksConnection(current: Option<Connection>, p: Preparation, category: Option<Category>) {
    && current.Some?
    && current.value.generation == p.current.generation
    && current.value.disabledAt.None?
    && current.value.updatedAt == p.current.updatedAt
    && category.Some?
    && category.value != PersistenceFailure
    && category.value != GenerationConflict
    && (!p.stillFresh || IsPermanentRenewalFailure(category.value))
  }

  function RejectRenewed(r: Rows, current: Option<Connection>, p: Preparation, category: Option<Category>, now: Time)
    : RenewalRejection
  {
    if current.Some? && current.value.custodyId == Some(p.candidate.id) then
      Kept
    else
      var pending := p.candidate.(state := CleanupPending);
      var first := UpdateCustody(r, pending, Candidate, 0);
      var moved := if first.Some? then first else UpdateCustody(r, pending, Active, 0);
      if moved.None? then
        Kept
      else if !RejectionMarksConnection(current, p, category) then
        Rejected(moved.value)
      else
        var phase := if IsPermanentRenewalFailure(category.value) then ReauthorizationRequired else Unavailable;
        match PersistRenewalFailure(moved.value, current.value, phase, category.value, now)
        case None => RejectionConflict
        case Some(saved) => Rejected(saved)
  }

  // ---------------------------------------------------------------- disconnect and cleanup

  /** Every active or candidate custody row of the principal is handed to the cleanup worker. */
  function Handoff(custody: map<Id, Custody>, k: Principal): map<Id, Custody> {
    map id | id in custody ::
      if custody[id].principal == k && (custody[id].state == Active || custody[id].state == Candidate)
      then custody[id].(state := CleanupPending)
      else custody[id]
  }

  function HandedOff(r: Rows, k: Principal): Rows {
    r.(custody := Handoff(r.custody, k))
  }

  function Tombstone(k: Principal, email: string, requiredScopes: seq<string>, now: Time): Connection {
    Connection(k, email, None, None, None, 0, requiredScopes, [], false, false, Some(now), Disconnected,
               Complete, None, now, now)
  }

  function DisabledAgain(current: Connection, now: Time): Connection {
    current.(
      phase :=
        match current.revocation
        case Pending => ProviderCleanupPending
        case PermanentFailure => Unavailable
        case _ => Disconnected,
      updatedAt := now)
  }

  function Destroyed(c: Connection): Connection {
    c.(envelope := None, activePresent := false, renewalPresent := false)
  }

  predicate NeedsRevocation(revokes: bool, current: Connection) {
    revokes && (current.activePresent || current.renewalPresent)
  }

  function Disabled(revokes: bool, current: Connection, custodyId: Option<Id>, now: Time): Connection {
    if NeedsRevocation(revokes, current) then
      current.(custodyId := custodyId, disabledAt := Some(now), phase := RevocationPending, revocation := Pending,
               updatedAt := now)
    else
      Destroyed(current.(custodyId := custodyId, disabledAt := Some(now), phase := Disconnected,
                         revocation := Complete, updatedAt := now))
  }

  /** A custody row adopted from a connection row that never had one. */
  function AdoptedCustody(c: Connection, id: Id): Custody {
    Custody(id, c.principal, c.display, Some(Decrypted(c)), c.generation, CleanupPending, c.grantedScopes, 0)
  }

  /** The first half of a disconnect. `revokes` is the provider's revocation capability; `newId` is
      the id an adopted row would get. */
  function DisableConnection(revokes: bool, r: Rows, current: Option<Connection>, k: Principal, email: string,
                             requiredScopes: seq<string>, newId: Id, now: Time): Option<Rows>
  {
    var cleared := r.(markers := r.markers - {k});
    if current.None? then
      SaveConnection(cleared, Tombstone(k, email, requiredScopes, now), ConnectionWriteGuard(None))
    else if current.value.disabledAt.Some? then
      SaveConnection(cleared, DisabledAgain(current.value, now), ConnectionWriteGuard(current))
    else
      var c := current.value;
      var adopts := NeedsRevocation(revokes, c) && c.custodyId.None?;
      var adopted := if adopts then SaveCustody(cleared, AdoptedCustody(c, newId)) else cleared;
      var custodyId := if adopts then Some(newId) else c.custodyId;
      SaveConnection(adopted, Disabled(revokes, c, custodyId, now), ConnectionWriteGuard(current))
  }

  function Disconnect(revokes: bool, r: Rows, current: Option<Connection>, k: Principal, email: string,
                      requiredScopes: seq<string>, newId: Id, now: Time): Option<Rows>
  {
    var disabled :- DisableConnection(revokes, r, current, k, email, requiredScopes, newId, now);
    Some(HandedOff(disabled, k))
  }

  function CleanupState(result: RevocationResult): CustodyState {
    if IsComplete(result) then CleanupComplete
    else if result == PermanentRefusal then CleanupPermanentFailure
    else CleanupPending
  }

  function CleanedCustody(record: Custody, result: RevocationResult): Custody {
    record.(state := CleanupState(result),
            material := if IsComplete(result) then None else record.material,
            attempts := record.attempts + 1)
  }

  function RevocationOutcome(current: Connection, result: RevocationResult, now: Time): Connection {
    if IsComplete(result) then
      Destroyed(current.(phase := Disconnected, revocation := Complete, category := None, updatedAt := now))
    else if result == RetryableFailure then
      current.(phase := ProviderCleanupPending, revocation := Pending,
               category := Some(TransientProviderFailure), updatedAt := now)
    else
      current.(phase := Unavailable, revocation := PermanentFailure,
               category := Some(ProviderConfigurationError), updatedAt := now)
  }

  function FinalizeRevocation(r: Rows, current: Option<Connection>, generation: nat, result: RevocationResult,
                              custodyId: Option<Id>, now: Time): Option<Rows>
  {
    if current.None? || current.value.generation != generation || current.value.disabledAt.None?
       || current.value.revocation != Pending
       || (custodyId.Some? && current.value.custodyId != custodyId) then
      Some(r)
    else
      SaveConnection(r, RevocationOutcome(current.value, result, now), ConnectionWriteGuard(current))
  }

  /** `record` is the snapshot the worker took before it called the provider. */
  function FinalizeCleanup(r: Rows, current: Option<Connection>, record: Custody, result: RevocationResult, now: Time)
    : Option<Rows>
  {
    var updated :- UpdateCustody(r, CleanedCustody(record, result), CleanupPending, record.attempts);
    FinalizeRevocation(updated, current, record.generation, result, Some(record.id), now)
  }

  function FromQueue(q: QueuedCleanup): Custody {
    Custody(q.id, q.principal, q.display, Some(q.material), q.generation, CleanupPending, q.grantedScopes, 0)
  }

  // ---------------------------------------------------------------- metadata writers

  /** Account identity found for a connection saved without one; `updatedAt` is deliberately kept. */
  function Backfill(r: Rows, current: Option<Connection>, initial: Connection, display: string, accountId: string)
    : Option<Rows>
  {
    if current.None? || current.value.accountId.Some? || current.value.disabledAt.Some?
       || current.value.generation != initial.generation || current.value.updatedAt != initial.updatedAt then
      None
    else
      SaveConnection(r, current.value.(display := display, accountId := Some(accountId)),
                     ConnectionWriteGuard(current))
  }

  /** Reopens a connection an older replica marked for want of scope; `usable` is the credential check. */
  function RepairScopePoison(r: Rows, current: Option<Connection>, usable: bool, now: Time): Option<Rows> {
    if current.None? || current.value.disabledAt.Some? || current.value.phase != ReauthorizationRequired
       || current.value.category != Some(InsufficientScope) || !usable then
      None
    else
      var c := current.value;
      SaveConnection(r,
                     c.(phase := Connected, category := None,
                        updatedAt := if now > c.updatedAt + 1 then now else c.updatedAt + 1),
                     ConnectionWriteGuard(current))
  }
}
