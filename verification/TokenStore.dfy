/** The in-memory token store: rows in maps that its methods update in place. */
module TokenStores {
  import opened Options
  import opened ConnectionRecords
  import S = ConnectionSections

  class TokenStore {
    var connections: map<Principal, Connection>
    var accounts: map<Principal, Account>
    var credentialGenerations: map<Id, Custody>
    var pendingCleanups: map<Id, QueuedCleanup>
    var authorizations: map<Principal, Marker>

    ghost function View(): S.Rows
      reads this
    {
      S.Rows(connections, accounts, credentialGenerations, pendingCleanups, authorizations)
    }

    constructor ()
      ensures View() == S.EMPTY_ROWS
    {
      connections, accounts, credentialGenerations := map[], map[], map[];
      pendingCleanups, authorizations := map[], map[];
    }

    method GetConnection(k: Principal, wall: Time) returns (current: Option<Connection>)
      ensures current == S.GetConnection(View(), k, wall)
    {
      if k in connections && connections[k].disabledAt.None? && connections[k].phase == Connected {
        return Some(connections[k]);
      }
      if k !in connections && k in accounts && accounts[k].revokedAt.None? {
        return Some(ConnectionFromLegacy(k, accounts[k]));
      }
      if k in authorizations && authorizations[k].expiresAt > wall {
        var marker := authorizations[k];
        if k in connections || k in accounts {
          var underlying := if k in connections then connections[k] else ConnectionFromLegacy(k, accounts[k]);
          return Some(underlying.(requiredScopes := marker.requiredScopes, phase := Authorizing));
        }
        return Some(Connection(k, "", None, None, None, 0, marker.requiredScopes, [], false, false, None,
                               Authorizing, NotRevoked, None, marker.updatedAt, marker.updatedAt));
      }
      if k in connections {
        return Some(connections[k]);
      }
      return if k in accounts then Some(ConnectionFromLegacy(k, accounts[k])) else None;
    }

    method SaveConnection(record: Connection, guard: WriteGuard) returns (saved: bool)
      modifies this
      ensures saved == S.SaveConnection(old(View()), record, guard).Some?
      ensures View() == if saved then S.SaveConnection(old(View()), record, guard).value else old(View())
    {
      var k := record.principal;
      var exists_ := k in accounts;
      var generation := if k in connections then connections[k].generation else 1;
      match guard {
        case Absent =>
          saved := !exists_;
        case Existing(g, updatedAt, revokedAt) =>
          saved := exists_ && generation == g && accounts[k].updatedAt == updatedAt
                   && accounts[k].revokedAt == revokedAt;
      }
      if saved {
        connections := connections[k := record];
        accounts := accounts[k := AccountOf(record)];
      }
    }

    method SaveCredentialGeneration(record: Custody)
      modifies this
      ensures View() == S.SaveCustody(old(View()), record)
    {
      if record.id !in credentialGenerations {
        credentialGenerations := credentialGenerations[record.id := record];
      }
    }

    method UpdateCredentialGeneration(record: Custody, expected: CustodyState, attempts: nat) returns (updated: bool)
      modifies this
      ensures updated == S.UpdateCustody(old(View()), record, expected, attempts).Some?
      ensures View() == if updated then S.UpdateCustody(old(View()), record, expected, attempts).value
                        else old(View())
    {
      updated := record.id in credentialGenerations
                 && credentialGenerations[record.id].state == expected
                 && credentialGenerations[record.id].attempts == attempts;
      if updated {
        credentialGenerations := credentialGenerations[record.id := record];
      }
    }

    /** Every custody row of the principal, once; rows are keyed by their own ids. */
    method ListPrincipalCredentialGenerations(k: Principal) returns (list: seq<Custody>)
      requires forall id :: id in credentialGenerations ==> credentialGenerations[id].id == id
      ensures forall id :: id in credentialGenerations && credentialGenerations[id].principal == k ==>
                credentialGenerations[id] in list
      ensures forall c :: c in list ==>
                c.principal == k && c.id in credentialGenerations && credentialGenerations[c.id] == c
      ensures forall i, j :: 0 <= i < j < |list| ==> list[i].id != list[j].id
    {
      list := [];
      var left := credentialGenerations.Keys;
      while left != {}
        invariant left <= credentialGenerations.Keys
        invariant forall id ::
                    id in credentialGenerations && id !in left && credentialGenerations[id].principal == k ==>
                      credentialGenerations[id] in list
        invariant forall c :: c in list ==>
                    && c.principal == k && c.id !in left
                    && c.id in credentialGenerations && credentialGenerations[c.id] == c
        invariant forall i, j :: 0 <= i < j < |list| ==> list[i].id != list[j].id
        decreases |left|
      {
        var id :| id in left;
        left := left - {id};
        if credentialGenerations[id].principal == k {
          list := list + [credentialGenerations[id]];
        }
      }
    }

    method MarkAuthorizing(k: Principal, marker: Marker)
      modifies this
      ensures View() == old(View()).(markers := old(View()).markers[k := marker])
    {
      authorizations := authorizations[k := marker];
    }

    method ClearAuthorizing(k: Principal)
      modifies this
      ensures View() == old(View()).(markers := old(View()).markers - {k})
    {
      authorizations := authorizations - {k};
    }
  }
}
