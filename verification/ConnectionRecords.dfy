/**
 * Rows of the provider-credential store and the pure functions over them: the write guard,
 * the authorization guard, credential merging and the authorizing overlay.
 * Encryption is a reversible wrapper, so the envelopes are kept in the clear.
 */
module ConnectionRecords {
  import opened Options

  type Id = string
  type Time = nat

  datatype Principal = Principal(provider: string, issuer: string, subject: string)

  datatype Phase =
    | Disconnected
    | Authorizing
    | Connected
    | ReauthorizationRequired
    | RevocationPending
    | ProviderCleanupPending
    | Unavailable

  datatype RevocationState = NotRevoked | Pending | Complete | PermanentFailure

  datatype Category =
    | TransientProviderFailure
    | InvalidActiveCredential
    | InvalidRenewalCredential
    | RenewalExpired
    | AuthorizationDenied
    | IdentityMismatch
    | InsufficientScope
    | ProviderConfigurationError
    | MalformedProviderResponse
    | PersistenceFailure
    | GenerationConflict

  datatype RevocationResult = Revoked | AlreadyAbsent | NotSupported | RetryableFailure | PermanentRefusal

  datatype CustodyState =
    | Candidate
    | Active
    | CleanupPending
    | CleanupComplete
    | CleanupPermanentFailure
    | Retired

  datatype Credential = Credential(active: Option<string>, renewal: Option<string>, extra: map<string, string>)

  datatype Connection = Connection(
    principal: Principal,
    display: string,
    accountId: Option<string>,
    envelope: Option<Credential>,
    custodyId: Option<Id>,
    generation: nat,
    requiredScopes: seq<string>,
    grantedScopes: seq<string>,
    activePresent: bool,
    renewalPresent: bool,
    disabledAt: Option<Time>,
    phase: Phase,
    revocation: RevocationState,
    category: Option<Category>,
    createdAt: Time,
    updatedAt: Time)

  datatype Custody = Custody(
    id: Id,
    principal: Principal,
    display: string,
    material: Option<Credential>,
    generation: nat,
    state: CustodyState,
    grantedScopes: seq<string>,
    attempts: nat)

  /** A credential cleanup queued by an older writer, not yet moved to a custody row. */
  datatype QueuedCleanup = QueuedCleanup(
    id: Id,
    principal: Principal,
    display: string,
    material: Credential,
    generation: nat,
    grantedScopes: seq<string>)

  /** The account row older readers use; `saveConnection` keeps it beside the connection row. */
  datatype Account = Account(
    display: string,
    accountId: Option<string>,
    grantedScopes: seq<string>,
    createdAt: Time,
    updatedAt: Time,
    revokedAt: Option<Time>)

  datatype Marker = Marker(requiredScopes: seq<string>, expiresAt: Time, updatedAt: Time)

  /** JavaScript truthiness of an optional credential string. */
  predicate Present(value: Option<string>) {
    value.Some? && value.value != ""
  }

  /** The replacement leaves out something that the previous credential has. */
  predicate LeavesOut(previous: Credential, replacement: Credential) {
    || (previous.active.Some? && replacement.active.None?)
    || (previous.renewal.Some? && replacement.renewal.None?)
    || exists key :: key in previous.extra && key !in replacement.extra
  }

  /** What the replacement has wins, the rest is carried over; an empty string counts as had. */
  function MergeRotatedCredential(previous: Credential, replacement: Credential): (merged: Credential)
    ensures Present(replacement.active) ==> Present(merged.active)
    ensures Present(previous.renewal) ==> (Present(merged.renewal) <==> replacement.renewal != Some(""))
  {
    Credential(
      replacement.active.Or(previous.active),
      replacement.renewal.Or(previous.renewal),
      previous.extra + replacement.extra)
  }

  /**
   * Nothing is lost in a merge, nothing is made up, and it changes the replacement exactly if that
   * leaves something out.
   */
  lemma MergeIsExact(previous: Credential, replacement: Credential)
    ensures
      var merged := MergeRotatedCredential(previous, replacement);
      && merged.active == replacement.active.Or(previous.active)
      && (forall key :: key in merged.extra <==> key in previous.extra || key in replacement.extra)
      && (forall key :: key in replacement.extra ==> merged.extra[key] == replacement.extra[key])
      && (forall key :: key in previous.extra && key !in replacement.extra ==> merged.extra[key] == previous.extra[key])
      && (merged == replacement <==> !LeavesOut(previous, replacement))
  {
    if !LeavesOut(previous, replacement) {
      assert previous.extra + replacement.extra == replacement.extra;
    }
  }

  predicate IsPermanentRenewalFailure(category: Category) {
    category in {InvalidRenewalCredential, RenewalExpired, IdentityMismatch, InsufficientScope}
  }

  predicate IsComplete(result: RevocationResult) {
    result in {Revoked, AlreadyAbsent, NotSupported}
  }

  predicate IsUnresolvedCleanup(state: CustodyState) {
    state == CleanupPending || state == CleanupPermanentFailure
  }

  /** The record `getConnection` makes up for a principal with a live marker and no row. */
  predicate IsSyntheticAuthorization(record: Connection) {
    && record.phase == Authorizing
    && record.generation == 0
    && !record.activePresent
    && !record.renewalPresent
    && record.disabledAt.None?
    && record.display == ""
  }

  datatype WriteGuard = Absent | Existing(generation: nat, updatedAt: Time, revokedAt: Option<Time>)

  function ConnectionWriteGuard(record: Option<Connection>): WriteGuard {
    if record.None? || IsSyntheticAuthorization(record.value) then
      Absent
    else
      Existing(record.value.generation, record.value.updatedAt, record.value.disabledAt)
  }

  datatype ActivationGuard = ActivationGuard(
    generation: Option<nat>,
    locallyDisabled: Option<bool>,
    updatedAt: Option<Time>)

  predicate IsCompleteGuard(guard: ActivationGuard) {
    && guard.generation.Some?
    && guard.locallyDisabled.Some?
    && (guard.updatedAt.Some? || (guard.generation.value == 0 && !guard.locallyDisabled.value))
  }

  function SnapshotAuthorizationGuard(record: Option<Connection>): (guard: ActivationGuard)
    ensures IsCompleteGuard(guard)
    ensures GuardHolds(guard, record)
    ensures forall other: Option<Connection> :: GuardHolds(guard, other) ==>
              && GenerationOf(other) == GenerationOf(record)
              && IsDisabled(other) == IsDisabled(record)
    ensures forall other: Option<Connection> ::
              GuardHolds(guard, other) && record.Some? && !IsSyntheticAuthorization(record.value) ==>
                other.Some? && other.value.updatedAt == record.value.updatedAt
  {
    if record.None? || IsSyntheticAuthorization(record.value) then
      ActivationGuard(Some(0), Some(false), None)
    else
      ActivationGuard(Some(record.value.generation), Some(record.value.disabledAt.Some?), Some(record.value.updatedAt))
  }

  function GenerationOf(current: Option<Connection>): nat {
    if current.Some? then current.value.generation else 0
  }

  predicate IsDisabled(current: Option<Connection>) {
    current.Some? && current.value.disabledAt.Some?
  }

  /** The check the activation section makes before it writes anything. */
  predicate GuardHolds(guard: ActivationGuard, current: Option<Connection>) {
    && IsCompleteGuard(guard)
    && GenerationOf(current) == guard.generation.value
    && IsDisabled(current) == guard.locallyDisabled.value
    && (guard.updatedAt.Some? ==> current.Some? && current.value.updatedAt == guard.updatedAt.value)
  }

  function AccountOf(record: Connection): Account {
    Account(record.display, record.accountId, record.grantedScopes, record.createdAt, record.updatedAt,
            record.disabledAt)
  }

  function ConnectionFromLegacy(k: Principal, legacy: Account): Connection {
    Connection(k, legacy.display, legacy.accountId, None, None, 1, [], legacy.grantedScopes,
               k.provider == "github", k.provider == "google", legacy.revokedAt,
               if legacy.revokedAt.Some? then Disconnected else Connected,
               if legacy.revokedAt.Some? then Complete else NotRevoked,
               None, legacy.createdAt, legacy.updatedAt)
  }
}
