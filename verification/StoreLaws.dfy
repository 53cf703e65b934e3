/** What the single-row operations of the token store do, field by field and in both directions. */
module StoreLaws {
  import opened Options
  import opened ConnectionRecords
  import opened ConnectionSections

  /** A guarded save goes through exactly if the account row is as the guard says, and then writes both rows. */
  lemma SavesExactly(r: Rows, record: Connection, guard: WriteGuard)
    ensures
      var k := record.principal;
      var saved := SaveConnection(r, record, guard);
      && (guard.Absent? ==> (saved.Some? <==> k !in r.accounts))
      && (guard.Existing? ==>
            (saved.Some? <==>
               && k in r.accounts
               && r.accounts[k].updatedAt == guard.updatedAt
               && r.accounts[k].revokedAt == guard.revokedAt
               && guard.generation == if k in r.connections then r.connections[k].generation else 1))
      && (saved.Some? ==>
            && saved.value.connections == r.connections[k := record]
            && saved.value.accounts.Keys == r.accounts.Keys + {k}
            && (forall j :: j in r.accounts && j != k ==> saved.value.accounts[j] == r.accounts[j])
            && saved.value.accounts[k].display == record.display
            && saved.value.accounts[k].accountId == record.accountId
            && saved.value.accounts[k].grantedScopes == record.grantedScopes
            && saved.value.accounts[k].createdAt == record.createdAt
            && saved.value.accounts[k].updatedAt == record.updatedAt
            && saved.value.accounts[k].revokedAt == record.disabledAt
            && saved.value.custody == r.custody
            && saved.value.queue == r.queue
            && saved.value.markers == r.markers)
  {
  }

  /** A caller's guard: nothing is to be there if it was shown nothing or a made-up record, else what it was shown. */
  lemma GuardsExactly(shown: Option<Connection>)
    ensures
      var guard := ConnectionWriteGuard(shown);
      && (guard.Absent? <==>
            || shown.None?
            || (&& shown.value.phase == Authorizing
                && shown.value.generation == 0
                && !shown.value.activePresent
                && !shown.value.renewalPresent
                && shown.value.disabledAt.None?
                && shown.value.display == ""))
      && (guard.Existing? ==>
            && guard.generation == shown.value.generation
            && guard.updatedAt == shown.value.updatedAt
            && guard.revokedAt == shown.value.disabledAt)
  {
  }

  /** The compare-and-set on a custody row. */
  lemma UpdatesExactly(r: Rows, record: Custody, expected: CustodyState, attempts: nat)
    ensures
      var updated := UpdateCustody(r, record, expected, attempts);
      && (updated.Some? <==>
            && record.id in r.custody
            && r.custody[record.id].state == expected
            && r.custody[record.id].attempts == attempts)
      && (updated.Some? ==> updated.value == r.(custody := r.custody[record.id := record]))
  {
  }

  /** Custody is recorded once; a second save under the same id changes nothing. */
  lemma CustodyIsRecordedOnce(r: Rows, record: Custody)
    ensures
      var saved := SaveCustody(r, record);
      && saved == r.(custody := saved.custody)
      && record.id in saved.custody
      && saved.custody[record.id] == (if record.id in r.custody then r.custody[record.id] else record)
      && (forall id :: id in saved.custody <==> id in r.custody || id == record.id)
      && (forall id :: id in r.custody ==> saved.custody[id] == r.custody[id])
  {
  }

  // ---------------------------------------------------------------- what a caller is shown

  /** A marker that has expired is as good as none. */
  lemma ExpiredMarkerIsNone(r: Rows, k: Principal, wall: Time)
    requires k in r.markers ==> r.markers[k].expiresAt <= wall
    ensures GetConnection(r, k, wall) == GetConnection(r.(markers := r.markers - {k}), k, wall)
    ensures k in r.connections ==> GetConnection(r, k, wall) == Some(r.connections[k])
    ensures k !in r.connections && k !in r.accounts ==> GetConnection(r, k, wall) == None
  {
  }

  /** A live marker shows in the phase and the scopes of a row that is not connected, and of nothing else. */
  lemma LiveMarkerShows(r: Rows, k: Principal, wall: Time)
    requires k in r.markers && wall < r.markers[k].expiresAt && (k in r.connections || k !in r.accounts)
    ensures
      var shown := GetConnection(r, k, wall);
      && shown.Some?
      && if k !in r.connections then
           && shown.value.principal == k
           && shown.value.phase == Authorizing
           && shown.value.requiredScopes == r.markers[k].requiredScopes
           && shown.value.grantedScopes == []
           && shown.value.display == ""
           && shown.value.generation == 0
           && shown.value.createdAt == shown.value.updatedAt == r.markers[k].updatedAt
           && shown.value.revocation == NotRevoked
           && shown.value.category.None? && shown.value.accountId.None?
           && shown.value.envelope.None? && shown.value.custodyId.None? && shown.value.disabledAt.None?
           && !shown.value.activePresent && !shown.value.renewalPresent
         else if r.connections[k].phase == Connected && r.connections[k].disabledAt.None? then
           shown.value == r.connections[k]
         else
           shown.value == r.connections[k].(phase := Authorizing, requiredScopes := r.markers[k].requiredScopes)
  {
  }

  /** An account that only older writers know is shown as a connection of generation 1. */
  lemma LegacyAccountShows(r: Rows, k: Principal, wall: Time)
    requires k !in r.connections && k in r.accounts && k !in r.markers
    ensures
      var account := r.accounts[k];
      var shown := GetConnection(r, k, wall);
      && shown.Some?
      && var c := shown.value;
      && c.principal == k && c.generation == 1
      && c.display == account.display && c.accountId == account.accountId
      && c.grantedScopes == account.grantedScopes && c.requiredScopes == []
      && c.createdAt == account.createdAt && c.updatedAt == account.updatedAt
      && c.disabledAt == account.revokedAt
      && c.envelope.None? && c.custodyId.None? && c.category.None?
      && (c.activePresent <==> k.provider == "github")
      && (c.renewalPresent <==> k.provider == "google")
      && (account.revokedAt.None? ==> c.phase == Connected && c.revocation == NotRevoked)
      && (account.revokedAt.Some? ==> c.phase == Disconnected && c.revocation == Complete)
  {
  }

  /** Over such an account a live marker shows exactly if the account is revoked. */
  lemma LegacyMarkerShows(r: Rows, k: Principal, wall: Time)
    requires k !in r.connections && k in r.accounts && k in r.markers && wall < r.markers[k].expiresAt
    ensures
      var bare := GetConnection(r.(markers := r.markers - {k}), k, wall);
      && bare.Some?
      && GetConnection(r, k, wall)
         == if r.accounts[k].revokedAt.None? then bare
            else Some(bare.value.(phase := Authorizing, requiredScopes := r.markers[k].requiredScopes))
  {
  }

  // ---------------------------------------------------------------- the guard of an authorization

  /** Which guards hold of what is shown: complete ones that name its generation, disabled state and date. */
  lemma GuardHoldsExactly(guard: ActivationGuard, shown: Option<Connection>)
    ensures
      GuardHolds(guard, shown)
      <==> && guard.generation == Some(if shown.Some? then shown.value.generation else 0)
           && guard.locallyDisabled == Some(shown.Some? && shown.value.disabledAt.Some?)
           && (guard.updatedAt.None? ==> guard.generation == Some(0) && guard.locallyDisabled == Some(false))
           && (guard.updatedAt.Some? ==> shown.Some? && guard.updatedAt.value == shown.value.updatedAt)
  {
  }

  /** What is captured: nothing but emptiness of nothing and of made-up records, else generation, state and date. */
  lemma SnapshotIs(shown: Option<Connection>)
    ensures
      var guard := SnapshotAuthorizationGuard(shown);
      if ConnectionWriteGuard(shown).Absent? then guard == ActivationGuard(Some(0), Some(false), None)
      else && guard.generation == Some(shown.value.generation)
           && guard.locallyDisabled == Some(shown.value.disabledAt.Some?)
           && guard.updatedAt == Some(shown.value.updatedAt)
  {
  }
}
