/**
 * Safety of the connection lifecycle over whole runs: attachment of connections to custody,
 * lock-step revocation, conservation of credential material and the meaning of `generation`.
 */
module LifecycleSafety {
  import opened Options
  import opened ConnectionRecords
  import opened ConnectionSections
  import opened LifecycleSteps
  import opened StaleAuthorizations
  import opened CustodyInvariant

  /** Every connection row ever stored with an envelope belonged to an activated generation. */
  ghost predicate Activations(w: World) {
    forall c :: c in w.observed && c.envelope.Some? ==> c.generation >= 1
  }

  ghost predicate Inv(w: World) {
    Mirrored(w.rows) && Activations(w) && Sound(w)
  }

  /** What every step establishes: the invariant again, by moves the custody rows may make. */
  ghost predicate Grows(w: World, v: World) {
    && Sound(v)
    && CustodyShift(w.rows.custody, v.rows.custody)
    && MaterialShift(w, v)
    && v.revokes == w.revokes
  }

  /** What every step but one establishes: that no connection appears without an activation. */
  ghost predicate Keeps(w: World, v: World) {
    Grows(w, v) && Appears(w.rows.connections, v.rows.connections)
  }

  /**
   * That one step: a manual renewal refused for scope while the principal has an authorization
   * marker but no row. The refusal is then saved as a connection of its own.
   */
  predicate StoresPhantom(w: World, st: Step) {
    && st.Renewal?
    && st.renewal.RefuseRenewalForScope?
    && st.renewal.k !in w.rows.connections
    && GetConnection(w.rows, st.renewal.k, st.renewal.wall).Some?
  }

  // ---------------------------------------------------------------- roles take new work

  lemma IdUsed(w: World, id: Id)
    requires Sound(w)
    ensures Sound(w.(usedIds := w.usedIds + {id}))
  {
    var v := w.(usedIds := w.usedIds + {id});
    TablesOutgrow(w, v);
    forall i | i in v.attempts
      ensures SoundAttempt(v, i, v.attempts[i])
    {
      assert SoundAttempt(w, i, w.attempts[i]);
    }
    forall i | i in v.preparations
      ensures SoundPreparation(v, i, v.preparations[i])
    {
      assert SoundPreparation(w, i, w.preparations[i]);
    }
  }

  lemma TablesOutgrow(w: World, v: World)
    requires SoundTables(w) && SoundSnapshots(w)
    requires v == w.(usedIds := v.usedIds) && w.usedIds <= v.usedIds
    ensures SoundTables(v) && SoundSnapshots(v)
  {
  }

  lemma AttemptAdded(w: World, id: Id, a: Attempt)
    requires Sound(w) && id !in w.attempts
    requires forall q :: q in w.queuedSeen ==> q.id != id
    requires SoundAttempt(w, id, a)
    ensures Sound(w.(attempts := w.attempts[id := a]))
  {
    hide Attached, SoundCustody, SoundLog, SoundRetirement;
    hide SoundAttempts, SoundPreparations, SoundSnapshots, SoundAttempt;
    var v := w.(attempts := w.attempts[id := a]);
    TablesFrame(w, v);
    AttemptsWith(w, v, id);
    PreparationsFrame(w, v);
  }

  lemma PreparationAdded(w: World, id: Id, p: Preparation)
    requires Sound(w) && id !in w.preparations && id !in w.attempts
    requires forall q :: q in w.queuedSeen ==> q.id != id
    requires SoundPreparation(w, id, p)
    ensures Sound(w.(preparations := w.preparations[id := p]))
  {
    hide Attached, SoundCustody, SoundLog, SoundRetirement;
    hide SoundAttempts, SoundPreparations, SoundSnapshots, SoundPreparation;
    var v := w.(preparations := w.preparations[id := p]);
    TablesFrame(w, v);
    AttemptsFrame(w, v, id);
    PreparationsWith(w, v, id);
  }

  lemma AttemptsFrame(w: World, v: World, id: Id)
    requires SoundAttempts(w) && id !in w.attempts
    requires v == w.(preparations := v.preparations) && v.preparations.Keys == w.preparations.Keys + {id}
    ensures SoundAttempts(v)
  {
    forall i | i in v.attempts
      ensures SoundAttempt(v, i, v.attempts[i])
    {
      assert SoundAttempt(w, i, w.attempts[i]);
    }
  }

  lemma PreparationsWith(w: World, v: World, id: Id)
    requires SoundPreparations(w) && id in v.preparations
    requires v == w.(preparations := w.preparations[id := v.preparations[id]])
    requires SoundPreparation(w, id, v.preparations[id])
    ensures SoundPreparations(v)
  {
    forall i | i in v.preparations
      ensures SoundPreparation(v, i, v.preparations[i])
    {
      assert i != id ==> SoundPreparation(w, i, w.preparations[i]);
    }
  }

  /** An id nobody used is in none of the tables. */
  lemma FreshId(w: World, id: Id)
    requires Sound(w) && id !in w.usedIds
    ensures id !in w.rows.custody && id !in w.preparations && id !in w.attempts
    ensures forall q :: q in w.queuedSeen ==> q.id != id
    ensures forall k :: k in w.rows.connections ==> w.rows.connections[k].custodyId != Some(id)
  {
    hide SoundLog, SoundRetirement, SoundSnapshots;
    assert forall i :: i in w.rows.custody ==> SoundRow(w, i, w.rows.custody[i]);
    assert forall i :: i in w.preparations ==> SoundPreparation(w, i, w.preparations[i]);
    assert forall i :: i in w.attempts ==> SoundAttempt(w, i, w.attempts[i]);
    forall k | k in w.rows.connections
      ensures w.rows.connections[k].custodyId != Some(id)
    {
      assert AttachedAt(w.rows.connections[k], w.rows.custody, LogOf(w, k), w.revokes);
    }
  }

  lemma StartSound(w: World, id: Id, k: Principal, email: string, issued: Issued, scopes: seq<string>,
                   guard: Option<ActivationGuard>)
    requires Sound(w)
    ensures Keeps(w, DoStart(w, id, k, email, issued, scopes, guard))
  {
    hide Attached, SoundLog, SoundRetirement, SoundPreparations, SoundSnapshots, SoundAttempts;
    if id !in w.usedIds {
      FreshId(w, id);
      var v := DoStart(w, id, k, email, issued, scopes, guard);
      var w1 := w.(usedIds := v.usedIds);
      var w2 := w1.(rows := v.rows);
      IdUsed(w, id);
      ReplacedSound(w1, w2, id);
      AttemptAdded(w2, id, v.attempts[id]);
      assert v == w2.(attempts := w2.attempts[id := v.attempts[id]]);
    }
  }

  lemma IssuedIsSound(w: World, k: Principal, current: Option<Connection>, id: Id, email: string, renewed: Credential,
                      scopes: Option<seq<string>>, stillFresh: bool)
    requires Sees(w.rows, k, current) && Mirrored(w.rows) && Attached(w)
    requires IssuanceAllowed(w.rows, current, k) && id in w.usedIds && id !in w.rows.custody
    ensures SoundPreparation(w, id, Prepare(current.value, id, email, renewed, scopes, stillFresh))
  {
    if k in w.rows.connections {
      assert AttachedAt(w.rows.connections[k], w.rows.custody, LogOf(w, k), w.revokes);
    }
  }

  lemma IssueSound(w: World, id: Id, k: Principal, email: string, renewed: Credential,
                   scopes: Option<seq<string>>, stillFresh: bool, stored: bool, wall: Time)
    requires Inv(w)
    ensures Keeps(w, DoIssue(w, id, k, email, renewed, scopes, stillFresh, stored, wall))
  {
    hide GetConnection, SoundLog, SoundRetirement, SoundAttempts;
    hide SoundPreparations, SoundSnapshots, SoundQueue, AttachedAt;
    var current := GetConnection(w.rows, k, wall);
    if id !in w.usedIds && IssuanceAllowed(w.rows, current, k) {
      FreshId(w, id);
      GetConnectionSees(w.rows, k, wall);
      var v := DoIssue(w, id, k, email, renewed, scopes, stillFresh, stored, wall);
      var p := v.preparations[id];
      var w1 := w.(usedIds := v.usedIds);
      IdUsed(w, id);
      IssuedIsSound(w1, k, current, id, email, renewed, scopes, stillFresh);
      PreparationAdded(w1, id, p);
      var w2 := w1.(preparations := w1.preparations[id := p]);
      if stored {
        ReplacedSound(w2, v, id);
      }
    }
  }

  lemma ReacquireSound(w: World, id: Id)
    requires Sound(w)
    ensures Keeps(w, DoReacquire(w, id))
  {
    if id in w.preparations && id !in w.rows.custody {
      assert SoundPreparation(w, id, w.preparations[id]);
      ReplacedSound(w, DoReacquire(w, id), id);
    }
  }

  // ---------------------------------------------------------------- custody rows queued for cleanup

  lemma WithdrawReplaces(w: World, id: Id, rows: Rows, expected: CustodyState)
    requires SoundCustody(w) && id in w.attempts && SoundAttempt(w, id, w.attempts[id])
    requires w.attempts[id].progress in {Unwanted, UnwantedActive} && expected in {Candidate, Active}
    requires UpdateCustody(w.rows, w.attempts[id].candidate.(state := CleanupPending), expected, 0) == Some(rows)
    ensures RowReplaced(w, w.(rows := rows), id)
  {
    assert SoundRow(w, id, w.rows.custody[id]);
  }

  lemma WithdrawSound(w: World, id: Id, from: Progress, expected: CustodyState, otherwise: Progress)
    requires Sound(w)
    requires from in {Unwanted, UnwantedActive} && otherwise in {UnwantedActive, Finished}
    requires expected in {Candidate, Active}
    ensures Keeps(w, DoWithdraw(w, id, from, expected, otherwise))
  {
    hide Attached, SoundCustody, SoundLog, SoundRetirement, SoundPreparations, SoundSnapshots, SoundQueue, RowReplaced;
    if id in w.attempts && w.attempts[id].progress == from {
      assert SoundAttempt(w, id, w.attempts[id]);
      var pending := w.attempts[id].candidate.(state := CleanupPending);
      var rows := UpdateCustody(w.rows, pending, expected, 0);
      if rows.Some? {
        WithdrawReplaces(w, id, rows.value, expected);
        ReplacedSound(w, w.(rows := rows.value), id);
        ProgressMade(w.(rows := rows.value), id, Finished);
        assert DoWithdraw(w, id, from, expected, otherwise) == Progressed(w.(rows := rows.value), id, Finished);
      } else {
        ProgressMade(w, id, otherwise);
      }
    }
  }

  lemma PickUpSound(w: World, record: Custody)
    requires Sound(w)
    ensures Keeps(w, DoPickUp(w, record))
  {
    if record in w.seen && record.state == Candidate {
      assert Harmless(record, w.rows.custody);
      var rows := UpdateCustody(w.rows, record.(state := CleanupPending), Candidate, record.attempts);
      if rows.Some? {
        assert SoundRow(w, record.id, w.rows.custody[record.id]);
        CandidateIsNoPointer(w, record.id);
        ReplacedSound(w, w.(rows := rows.value), record.id);
      }
    }
  }

  lemma CandidateIsNoPointer(w: World, id: Id)
    requires Sound(w) && id in w.rows.custody && w.rows.custody[id].state == Candidate
    ensures forall k :: !IsPointer(w, k, id)
  {
    forall k | k in w.rows.connections
      ensures w.rows.connections[k].custodyId != Some(id)
    {
      assert AttachedAt(w.rows.connections[k], w.rows.custody, LogOf(w, k), w.revokes);
    }
  }

  // ---------------------------------------------------------------- the locked sections

  /** What a save that passes its guard leaves. */
  lemma SaveEffect(r: Rows, record: Connection, guard: WriteGuard)
    ensures var saved := SaveConnection(r, record, guard);
      saved.Some? ==>
        && saved.value.connections == r.connections[record.principal := record]
        && saved.value.custody == r.custody
        && saved.value.queue == r.queue
  {
  }

  lemma ActivateAuthorizationSound(w: World, id: Id, fault: Fault, now: Time, wall: Time)
    requires Inv(w)
    ensures Keeps(w, DoActivateAuthorization(w, id, fault, now, wall))
  {
    hide GetConnection, ActivateAuthorized, Attached, SoundCustody, SoundLog, SoundRetirement;
    hide SoundPreparations, SoundSnapshots, SoundQueue;
    if id in w.attempts && w.attempts[id].progress == Saved {
      var a := w.attempts[id];
      var k := a.candidate.principal;
      assert SoundAttempt(w, id, a);
      var current := GetConnection(w.rows, k, wall);
      GetConnectionSees(w.rows, k, wall);
      var rows := ActivateAuthorized(w.rows, current, a.candidate, a.issued, a.requiredScopes, a.guard, now);
      if !Present(a.issued.credential.active) {
        ProgressMade(w, id, Unwanted);
      } else if rows.None? || fault == RolledBack {
        ProgressMade(w, id, Errored);
      } else {
        AuthorizationCommits(w, id, if fault == ReplyLost then Errored else Finished, current, now, rows.value);
      }
    }
  }

  lemma AuthorizationCommits(w: World, id: Id, progress: Progress, current: Option<Connection>, now: Time, rows: Rows)
    requires Sound(w) && Mirrored(w.rows) && id in w.attempts && SoundAttempt(w, id, w.attempts[id])
    requires progress in {Errored, Finished} && Present(w.attempts[id].issued.credential.active)
    requires Sees(w.rows, w.attempts[id].candidate.principal, current)
    requires
      var a := w.attempts[id];
      ActivateAuthorized(w.rows, current, a.candidate, a.issued, a.requiredScopes, a.guard, now) == Some(rows)
    ensures Keeps(w, Logged(Progressed(w, id, progress).(rows := rows), w.attempts[id].candidate.principal, id))
  {
    hide ActivateAuthorized, Activated, Attached, SoundCustody, SoundLog, SoundRetirement, SoundAttempts;
    hide SoundPreparations, SoundSnapshots, SoundQueue, SoundAttempt, Sees, Mirrored;
    var a := w.attempts[id];
    var k := a.candidate.principal;
    ProgressMade(w, id, progress);
    var w1 := Progressed(w, id, progress);
    var v := Logged(w1.(rows := rows), k, id);
    AttemptMovesOn(w, id, progress);
    AuthorizedActivates(w1, v, current, a, now, rows);
    ActivatedSound(w1, v, k, id, None);
  }

  lemma AttemptMovesOn(w: World, id: Id, progress: Progress)
    requires id in w.attempts && SoundAttempt(w, id, w.attempts[id]) && progress in {Errored, Finished}
    ensures SoundAttempt(Progressed(w, id, progress), id, Progressed(w, id, progress).attempts[id])
    ensures w.attempts[id].candidate.id == id
  {
  }

  lemma AuthorizedActivates(w: World, v: World, current: Option<Connection>, a: Attempt, now: Time, rows: Rows)
    requires Mirrored(w.rows) && Sees(w.rows, a.candidate.principal, current)
    requires Present(a.issued.credential.active)
    requires ActivateAuthorized(w.rows, current, a.candidate, a.issued, a.requiredScopes, a.guard, now) == Some(rows)
    requires a.candidate.id in w.attempts && w.attempts[a.candidate.id].candidate == a.candidate
    requires w.attempts[a.candidate.id].issued == a.issued
    requires w.attempts[a.candidate.id].progress in {Errored, Finished}
    requires SoundAttempt(w, a.candidate.id, w.attempts[a.candidate.id])
    requires v == Logged(w.(rows := rows), a.candidate.principal, a.candidate.id)
    ensures Activated(w, v, a.candidate.principal, a.candidate.id, None)
  {
    hide GuardHolds, HasUnresolvedCleanup, SaveConnection, ConnectionWriteGuard;
    var claimed := ClaimAuthorized(w.rows, current, a.candidate, a.issued);
    if claimed.Some? {
      SaveEffect(claimed.value, AuthorizedConnection(current, a.candidate, a.issued, a.requiredScopes, now),
                 ConnectionWriteGuard(current));
    }
  }

  lemma ActivateRenewalSound(w: World, id: Id, identity: Option<(string, string)>, now: Time, wall: Time)
    requires Inv(w)
    ensures Keeps(w, DoActivateRenewal(w, id, identity, now, wall))
  {
    hide GetConnection, Activated, SoundLog, SoundRetirement, SoundSnapshots, SoundQueue;
    if id in w.preparations && Present(w.preparations[id].renewed.active) {
      var p := w.preparations[id];
      var k := p.candidate.principal;
      var current := GetConnection(w.rows, k, wall);
      GetConnectionSees(w.rows, k, wall);
      var activation := ActivateRenewed(w.rows, current, p, identity, now);
      if activation.Refreshed? {
        assert SoundPreparation(w, id, p);
        var v := DoActivateRenewal(w, id, identity, now, wall);
        var c := w.rows.connections[k];
        assert AttachedAt(c, w.rows.custody, LogOf(w, k), w.revokes);
        RenewedActivates(w, v, current, p, identity, now, activation.rows);
        ActivatedSound(w, v, k, id, c.custodyId);
      }
    }
  }

  /** The rows of a renewal that was activated over the row it superseded. */
  lemma RenewedRows(r: Rows, current: Option<Connection>, p: Preparation, identity: Option<(string, string)>,
                    now: Time, rows: Rows)
    requires ActivateRenewed(r, current, p, identity, now) == Refreshed(rows)
    requires forall id :: id in r.custody ==> r.custody[id].id == id
    ensures
      && current.Some?
      && current.value.generation == p.current.generation
      && current.value.disabledAt.None?
      && p.candidate.id in r.custody
      && r.custody[p.candidate.id].state == Candidate
      && rows.connections == r.connections[p.candidate.principal := RenewedConnection(current.value, p, identity, now)]
      && rows.queue == r.queue
      && (current.value.custodyId.Some? && current.value.custodyId.value != p.candidate.id ==>
            var before := current.value.custodyId.value;
            && before in r.custody
            && rows.custody
               == r.custody[p.candidate.id := ActivatedCustody(p)][before := RetiredCustody(r.custody[before])])
  {
    hide SaveConnection, ConnectionWriteGuard, MergeRotatedCredential;
    var claimed := UpdateCustody(r, ActivatedCustody(p), Candidate, 0);
    SaveEffect(claimed.value, RenewedConnection(current.value, p, identity, now),
               ConnectionWriteGuard(Some(p.current)));
  }

  /** The connection that a renewal leaves, against the one it found. */
  lemma RenewedStanding(c: Connection, p: Preparation, identity: Option<(string, string)>, now: Time)
    requires Present(p.renewed.active)
    ensures
      var d := RenewedConnection(c, p, identity, now);
      && d.principal == p.candidate.principal
      && d.generation == c.generation + 1
      && d.custodyId == Some(p.candidate.id)
      && d.envelope == Some(Merged(p))
      && d.activePresent
      && d.disabledAt == c.disabledAt
      && d.revocation == c.revocation
  {
  }

  lemma RowsAreKeyed(w: World)
    requires SoundCustody(w)
    ensures forall id :: id in w.rows.custody ==> w.rows.custody[id].id == id
  {
    assert forall id :: id in w.rows.custody ==> SoundRow(w, id, w.rows.custody[id]);
  }

  lemma RenewedActivates(w: World, v: World, current: Option<Connection>, p: Preparation,
                         identity: Option<(string, string)>, now: Time, rows: Rows)
    requires Attached(w) && SoundCustody(w) && Mirrored(w.rows)
    requires Sees(w.rows, p.candidate.principal, current)
    requires Present(p.renewed.active)
    requires ActivateRenewed(w.rows, current, p, identity, now) == Refreshed(rows)
    requires p.candidate.id in w.preparations && w.preparations[p.candidate.id] == p
    requires SoundPreparation(w, p.candidate.id, p)
    requires p.candidate.id !in w.attempts
    requires v == Logged(w.(rows := rows), p.candidate.principal, p.candidate.id)
    requires AttachedAt(w.rows.connections[p.candidate.principal], w.rows.custody,
                        LogOf(w, p.candidate.principal), w.revokes)
    ensures Activated(w, v, p.candidate.principal, p.candidate.id,
                      w.rows.connections[p.candidate.principal].custodyId)
  {
    hide ActivateRenewed, RenewedConnection, Attached, SoundCustody;
    var c := current.value;
    RowsAreKeyed(w);
    RenewedRows(w.rows, current, p, identity, now, rows);
    RenewedStanding(c, p, identity, now);
    assert KeepsRenewal(Decrypted(p.current), Merged(p));
  }

  lemma RejectSound(w: World, id: Id, cause: Option<Category>, now: Time, wall: Time)
    requires Inv(w)
    ensures Keeps(w, DoReject(w, id, cause, now, wall))
  {
    hide GetConnection, RejectRenewed, RowReplaced, SameStanding;
    hide SoundLog, SoundRetirement, SoundSnapshots, SoundQueue, SoundAttempts, Attached, SoundCustody;
    if id in w.preparations {
      var p := w.preparations[id];
      var k := p.candidate.principal;
      var current := GetConnection(w.rows, k, wall);
      GetConnectionSees(w.rows, k, wall);
      var rejection := RejectRenewed(w.rows, current, p, cause, now);
      if rejection.Rejected? {
        assert SoundPreparation(w, id, p);
        var v := DoReject(w, id, cause, now, wall);
        var w1 := w.(rows := w.rows.(custody := w.rows.custody[id := p.candidate.(state := CleanupPending)]));
        RejectionQueues(w, current, p, cause, now, rejection.rows);
        ReplacedSound(w, w1, id);
        if v != w1 {
          TouchedSound(w1, v, k);
        }
      }
    }
  }

  /** The row that a rejection queues. */
  lemma RejectionReplaces(w: World, p: Preparation)
    requires SoundCustody(w) && p.candidate.id in w.preparations && w.preparations[p.candidate.id] == p
    requires SoundPreparation(w, p.candidate.id, p)
    requires p.candidate.id in w.rows.custody && w.rows.custody[p.candidate.id].state in {Candidate, Active}
    requires !IsPointer(w, p.candidate.principal, p.candidate.id)
    ensures
      var pending := p.candidate.(state := CleanupPending);
      RowReplaced(w, w.(rows := w.rows.(custody := w.rows.custody[p.candidate.id := pending])), p.candidate.id)
  {
    assert SoundRow(w, p.candidate.id, w.rows.custody[p.candidate.id]);
  }

  /** A rejection that marks the connection touches its presentation only. */
  lemma MarkTouches(w: World, k: Principal, current: Connection, phase: Phase, category: Category, now: Time,
                    rows: Rows)
    requires Sees(w.rows, k, Some(current)) && Mirrored(w.rows) && k in w.rows.connections
    requires PersistRenewalFailure(w.rows, current, phase, category, now) == Some(rows)
    ensures Touched(w, w.(rows := rows), k)
  {
    hide SaveConnection, ConnectionWriteGuard;
    SaveEffect(w.rows, current.(phase := phase, category := Some(category), updatedAt := now),
               ConnectionWriteGuard(Some(current)));
  }

  lemma RejectionQueues(w: World, current: Option<Connection>, p: Preparation, cause: Option<Category>, now: Time,
                        rows: Rows)
    requires SoundCustody(w) && Mirrored(w.rows) && Sees(w.rows, p.candidate.principal, current)
    requires p.candidate.id in w.preparations && w.preparations[p.candidate.id] == p
    requires SoundPreparation(w, p.candidate.id, p)
    requires RejectRenewed(w.rows, current, p, cause, now) == Rejected(rows)
    ensures
      var k := p.candidate.principal;
      var w1 := w.(rows := w.rows.(custody := w.rows.custody[p.candidate.id := p.candidate.(state := CleanupPending)]));
      var v := w.(rows := rows);
      && RowReplaced(w, w1, p.candidate.id)
      && (v == w1 || Touched(w1, v, k))
  {
    hide PersistRenewalFailure, IsPermanentRenewalFailure, RowReplaced, SoundCustody, SoundPreparation, Touched;
    var id := p.candidate.id;
    var pending := p.candidate.(state := CleanupPending);
    var w1 := w.(rows := w.rows.(custody := w.rows.custody[id := pending]));
    PreparedIsConnected(w, p);
    RejectionReplaces(w, p);
    if RejectionMarksConnection(current, p, cause) {
      var phase := if IsPermanentRenewalFailure(cause.value) then ReauthorizationRequired else Unavailable;
      MarkTouches(w1, p.candidate.principal, current.value, phase, cause.value, now, rows);
    } else {
      assert rows == w1.rows;
    }
  }

  lemma PreparedIsConnected(w: World, p: Preparation)
    requires SoundPreparation(w, p.candidate.id, p)
    ensures p.candidate.principal in w.rows.connections
  {
  }

  lemma FailRenewalSound(w: World, k: Principal, decrypted: bool, phase: Phase, category: Category, now: Time,
                         wall: Time)
    requires Inv(w)
    requires k in w.rows.connections || GetConnection(w.rows, k, wall).None? || decrypted
    ensures Keeps(w, DoFailRenewal(w, k, decrypted, phase, category, now, wall))
  {
    hide GetConnection, PersistRenewalFailure, Touched, Sound;
    GetConnectionSees(w.rows, k, wall);
    var current := GetConnection(w.rows, k, wall);
    var v := DoFailRenewal(w, k, decrypted, phase, category, now, wall);
    if current.Some? && k in w.rows.connections && v != w {
      MarkTouches(w, k, current.value, phase, category, now, v.rows);
      TouchedSound(w, v, k);
    }
  }

  lemma RefusalSound(w: World, k: Principal, now: Time, wall: Time)
    requires Inv(w)
    ensures
      var v := DoFailRenewal(w, k, false, ReauthorizationRequired, InsufficientScope, now, wall);
      if StoresPhantom(w, Renewal(RefuseRenewalForScope(k, now, wall)))
      then Grows(w, v) && Planted(w, v, k)
      else Keeps(w, v)
  {
    if StoresPhantom(w, Renewal(RefuseRenewalForScope(k, now, wall))) {
      PhantomPlanted(w, k, now, wall);
      PlantedSound(w, DoFailRenewal(w, k, false, ReauthorizationRequired, InsufficientScope, now, wall), k);
    } else {
      FailRenewalSound(w, k, false, ReauthorizationRequired, InsufficientScope, now, wall);
    }
  }

  lemma PhantomPlanted(w: World, k: Principal, now: Time, wall: Time)
    requires Mirrored(w.rows) && StoresPhantom(w, Renewal(RefuseRenewalForScope(k, now, wall)))
    ensures Planted(w, DoFailRenewal(w, k, false, ReauthorizationRequired, InsufficientScope, now, wall), k)
  {
    GetConnectionSees(w.rows, k, wall);
  }

  lemma DisconnectSound(w: World, k: Principal, email: string, scopes: seq<string>, newId: Id, now: Time, wall: Time)
    requires Inv(w)
    ensures Keeps(w, DoDisconnect(w, k, email, scopes, newId, now, wall))
  {
    var current := GetConnection(w.rows, k, wall);
    GetConnectionSees(w.rows, k, wall);
    var rows := Disconnect(w.revokes, w.rows, current, k, email, scopes, newId, now);
    if rows.Some? {
      DisconnectDetaches(w, current, k, email, scopes, newId, now, rows.value);
      DetachedSound(w, w.(rows := rows.value), k);
    }
  }

  lemma DisconnectsAgain(w: World, k: Principal, c: Connection, now: Time)
    requires Attached(w) && k in w.rows.connections && Sees(w.rows, k, Some(c)) && c.disabledAt.Some?
    ensures Disconnects(w.rows, k, DisabledAgain(c, now), w.revokes)
  {
    assert AttachedAt(w.rows.connections[k], w.rows.custody, LogOf(w, k), w.revokes);
  }

  lemma DisconnectsEnabled(w: World, k: Principal, c: Connection, now: Time)
    requires Attached(w) && Sees(w.rows, k, Some(c)) && c.disabledAt.None?
    ensures !(NeedsRevocation(w.revokes, c) && c.custodyId.None?)
    ensures Disconnects(w.rows, k, Disabled(w.revokes, c, c.custodyId, now), w.revokes)
  {
    if k in w.rows.connections {
      assert AttachedAt(w.rows.connections[k], w.rows.custody, LogOf(w, k), w.revokes);
    }
  }

  /** What is saved over the cleared rows and handed off is a detachment. */
  lemma SavedDetaches(w: World, k: Principal, d: Connection, guard: WriteGuard)
    requires Disconnects(w.rows, k, d, w.revokes)
    ensures
      var saved := SaveConnection(w.rows.(markers := w.rows.markers - {k}), d, guard);
      saved.Some? ==> Detached(w, w.(rows := HandedOff(saved.value, k)), k)
  {
    hide Handoff;
    SaveEffect(w.rows.(markers := w.rows.markers - {k}), d, guard);
  }

  lemma DisconnectDetaches(w: World, current: Option<Connection>, k: Principal, email: string, scopes: seq<string>,
                           newId: Id, now: Time, rows: Rows)
    requires Attached(w) && Sees(w.rows, k, current)
    requires Disconnect(w.revokes, w.rows, current, k, email, scopes, newId, now) == Some(rows)
    ensures Detached(w, w.(rows := rows), k)
  {
    hide Attached, SaveConnection, ConnectionWriteGuard, SaveCustody, Handoff, AdoptedCustody, Disabled, DisabledAgain;
    hide Detached, NeedsRevocation;
    if current.None? {
      SavedDetaches(w, k, Tombstone(k, email, scopes, now), ConnectionWriteGuard(None));
    } else if current.value.disabledAt.Some? {
      DisconnectsAgain(w, k, current.value, now);
      SavedDetaches(w, k, DisabledAgain(current.value, now), ConnectionWriteGuard(current));
    } else {
      var c := current.value;
      DisconnectsEnabled(w, k, c, now);
      SavedDetaches(w, k, Disabled(w.revokes, c, c.custodyId, now), ConnectionWriteGuard(current));
    }
  }

  lemma FinishSound(w: World, record: Custody, result: RevocationResult, now: Time, wall: Time)
    requires Inv(w)
    ensures Keeps(w, DoFinish(w, record, result, now, wall))
  {
    hide GetConnection, FinalizeRevocation, Cleaned, Attached, SoundCustody, SoundLog, SoundRetirement, SoundAttempts;
    hide SoundPreparations, SoundQueue;
    var k := record.principal;
    var current := GetConnection(w.rows, k, wall);
    GetConnectionSees(w.rows, k, wall);
    var v := DoFinish(w, record, result, now, wall);
    if record in w.seen && record.state == CleanupPending
       && FinalizeCleanup(w.rows, current, record, result, now).Some? {
      assert Harmless(record, w.rows.custody);
      FinishCleans(w, v, current, record, result, now);
      CleanedSound(w, v, record.id, k);
    }
  }

  lemma FinishCleans(w: World, v: World, current: Option<Connection>, record: Custody, result: RevocationResult,
                     now: Time)
    requires Attached(w) && SoundCustody(w) && Mirrored(w.rows) && Sees(w.rows, record.principal, current)
    requires record.id in w.rows.custody && w.rows.custody[record.id] == record && record.state == CleanupPending
    requires FinalizeCleanup(w.rows, current, record, result, now) == Some(v.rows)
    requires v == w.(rows := v.rows)
    ensures Cleaned(w, v, record.id, record.principal)
  {
    hide SaveConnection, ConnectionWriteGuard, CleanedCustody, RevocationOutcome, SoundCustody;
    var k := record.principal;
    var updated := w.rows.(custody := w.rows.custody[record.id := CleanedCustody(record, result)]);
    CleanedRow(w, record, result);
    if current.Some? {
      SaveEffect(updated, RevocationOutcome(current.value, result, now), ConnectionWriteGuard(current));
      OutcomeInStep(current.value, record, result, now);
    }
    if k in w.rows.connections {
      assert AttachedAt(w.rows.connections[k], w.rows.custody, LogOf(w, k), w.revokes);
    }
  }

  lemma CleanedRow(w: World, record: Custody, result: RevocationResult)
    requires SoundCustody(w) && record.id in w.rows.custody && w.rows.custody[record.id] == record
    requires record.state == CleanupPending
    ensures
      var row := CleanedCustody(record, result);
      && SoundRow(w, record.id, row)
      && row.id == record.id
      && row.principal == record.principal
      && row.generation == record.generation
      && row.attempts == record.attempts + 1
      && IsCleanup(row.state)
      && (row.material.None? || row.material == record.material)
  {
    assert SoundRow(w, record.id, record);
  }

  lemma OutcomeInStep(c: Connection, record: Custody, result: RevocationResult, now: Time)
    ensures
      var d := RevocationOutcome(c, result, now);
      && d.principal == c.principal
      && d.generation == c.generation
      && d.custodyId == c.custodyId
      && d.disabledAt == c.disabledAt
      && InStep(d.revocation, CleanedCustody(record, result).state)
  {
  }

  lemma EnqueueSound(w: World, q: QueuedCleanup)
    requires Sound(w)
    ensures Keeps(w, DoEnqueue(w, q))
  {
    if q.id !in w.usedIds {
      FreshId(w, q.id);
      IdUsed(w, q.id);
      QueueFrame(w.(usedIds := w.usedIds + {q.id}), DoEnqueue(w, q));
    }
  }

  lemma MoveSound(w: World, q: QueuedCleanup)
    requires Sound(w)
    ensures Keeps(w, DoMove(w, q))
  {
    hide Attached, SoundLog, SoundRetirement, SoundAttempts, SoundPreparations, SoundSnapshots;
    if q in w.queuedSeen {
      var w1 := w.(rows := SaveCustody(w.rows, FromQueue(q)));
      if q.id !in w.rows.custody {
        ReplacedSound(w, w1, q.id);
      }
      QueueFrame(w1, DoMove(w, q));
    }
  }

  lemma DeleteSound(w: World, id: Id)
    requires Sound(w)
    ensures Keeps(w, DoDelete(w, id))
  {
    if id in w.moved {
      QueueFrame(w, DoDelete(w, id));
    }
  }

  /** Nothing but `SoundQueue` reads the queue. */
  lemma QueueFrame(w: World, v: World)
    requires Sound(w) && SoundQueue(v)
    requires v == w.(rows := w.rows.(queue := v.rows.queue), queuedSeen := v.queuedSeen, moved := v.moved)
    ensures Sound(v)
  {
    TablesIgnoreQueue(w, v);
    forall i | i in v.attempts
      ensures SoundAttempt(v, i, v.attempts[i])
    {
      assert SoundAttempt(w, i, w.attempts[i]);
    }
    forall i | i in v.preparations
      ensures SoundPreparation(v, i, v.preparations[i])
    {
      assert SoundPreparation(w, i, w.preparations[i]);
    }
  }

  lemma TablesIgnoreQueue(w: World, v: World)
    requires SoundTables(w) && SoundSnapshots(w)
    requires v == w.(rows := w.rows.(queue := v.rows.queue), queuedSeen := v.queuedSeen, moved := v.moved)
    ensures SoundTables(v) && SoundSnapshots(v)
  {
  }

  lemma MetadataSound(w: World, rows: Option<Rows>, current: Option<Connection>, d: Connection, k: Principal)
    requires Inv(w) && Sees(w.rows, k, current) && current.Some? && k in w.rows.connections
    requires rows == SaveConnection(w.rows, d, ConnectionWriteGuard(current))
    requires SameStanding(current.value, d)
    ensures Keeps(w, Commit(w, rows))
  {
    if rows.Some? {
      assert Touched(w, Commit(w, rows), k);
      TouchedSound(w, Commit(w, rows), k);
    }
  }
}
