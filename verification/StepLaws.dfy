/** What the steps around the locked sections do: to the markers, to an attempt and to its candidate. */
module StepLaws {
  import opened Options
  import opened ConnectionRecords
  import opened ConnectionSections
  import opened LifecycleSteps

  /** Marking and clearing change the principal's marker and nothing else. */
  lemma MarkersAreSet(w: World, k: Principal, marker: Marker)
    ensures
      var marked, cleared := Act(w, Callback(MarkAuthorizing(k, marker))), Act(w, Callback(ClearAuthorizing(k)));
      && k in marked.rows.markers
      && marked.rows.markers[k] == marker
      && k !in cleared.rows.markers
      && marked == w.(rows := w.rows.(markers := marked.rows.markers))
      && cleared == w.(rows := w.rows.(markers := cleared.rows.markers))
      && forall other :: other != k ==>
           && (other in w.rows.markers <==> other in marked.rows.markers)
           && (other in w.rows.markers <==> other in cleared.rows.markers)
           && (other in w.rows.markers ==> marked.rows.markers[other] == w.rows.markers[other])
           && (other in w.rows.markers ==> cleared.rows.markers[other] == w.rows.markers[other])
  {
  }

  /** A callback under a fresh id stores what was issued as a candidate of the generation after its guard's. */
  lemma StartStoresCandidate(w: World, id: Id, k: Principal, email: string, issued: Issued, scopes: seq<string>,
                             guard: Option<ActivationGuard>)
    requires id !in w.usedIds && id !in w.rows.custody
    ensures
      var s := Act(w, Callback(StartAuthorization(id, k, email, issued, scopes, guard)));
      && id in s.rows.custody && id in s.attempts && id in s.usedIds
      && s.rows == w.rows.(custody := w.rows.custody[id := s.rows.custody[id]])
      && var row := s.rows.custody[id];
      && row.id == id && row.principal == k && row.display == email && row.material == Some(issued.credential)
      && row.state == Candidate && row.grantedScopes == issued.grantedScopes && row.attempts == 0
      && (guard.None? || guard.value.generation.None? ==> row.generation == 1)
      && (guard.Some? && guard.value.generation.Some? ==> row.generation == guard.value.generation.value + 1)
      && s.attempts[id] == Attempt(row, issued, scopes, guard, Saved)
  {
  }

  ghost predicate Stands(w: World, id: Id, progress: Progress) {
    id in w.attempts && w.attempts[id].progress == progress
  }

  /** Only the attempt's progress changes, to the given one. */
  ghost predicate OnlyProgresses(w: World, s: World, id: Id, progress: Progress)
    requires id in w.attempts
  {
    s == w.(attempts := w.attempts[id := w.attempts[id].(progress := progress)])
  }

  /**
   * A credential without an active part and a refused authorization are unwanted; an activation that
   * failed or whose reply was lost has to be looked into; one that went through is finished.
   */
  lemma ActivationProgresses(w: World, id: Id, fault: Fault, now: Time, wall: Time)
    requires Stands(w, id, Saved)
    ensures
      var a := w.attempts[id];
      var usable := a.issued.credential.active.Some? && a.issued.credential.active.value != "";
      var shown := GetConnection(w.rows, a.candidate.principal, wall);
      var rows := ActivateAuthorized(w.rows, shown, a.candidate, a.issued, a.requiredScopes, a.guard, now);
      var s := Act(w, Callback(ActivateAuthorization(id, fault, now, wall)));
      && OnlyProgresses(w, Act(w, Callback(RefuseAuthorization(id))), id, Unwanted)
      && (!usable ==> OnlyProgresses(w, s, id, Unwanted))
      && (usable && (rows.None? || fault == RolledBack) ==> OnlyProgresses(w, s, id, Errored))
      && (usable && rows.Some? && fault == ReplyLost ==> s.rows == rows.value && Stands(s, id, Errored))
      && (usable && rows.Some? && fault == NoFault ==> s.rows == rows.value && Stands(s, id, Finished))
  {
  }

  /** An attempt that ended in an error is kept exactly if the connection shown names its candidate. */
  lemma InspectionDecides(w: World, id: Id, wall: Time)
    requires Stands(w, id, Errored)
    ensures
      var shown := GetConnection(w.rows, w.attempts[id].candidate.principal, wall);
      var kept := shown.Some? && shown.value.custodyId.Some? && shown.value.custodyId.value == id;
      OnlyProgresses(w, Act(w, Callback(InspectAuthorization(id, wall))), id, if kept then Finished else Unwanted)
  {
  }

  /** Tries to withdraw, as a candidate and then as an active row, one right after the other. */
  function Withdrawn(w: World, id: Id): World {
    Act(Act(w, Callback(WithdrawCandidate(id))), Callback(WithdrawActive(id)))
  }

  /** An unwanted row that is still a candidate or active goes to the cleanup worker with what was issued. */
  lemma WithdrawalQueues(w: World, id: Id)
    requires Stands(w, id, Unwanted) && w.attempts[id].candidate.id == id
    ensures
      var s := Withdrawn(w, id);
      var candidate := w.attempts[id].candidate;
      var waits := id in w.rows.custody && w.rows.custody[id].attempts == 0
                   && (w.rows.custody[id].state == Candidate || w.rows.custody[id].state == Active);
      && Stands(s, id, Finished)
      && (waits ==> s.rows == w.rows.(custody := w.rows.custody[id := candidate.(state := CleanupPending)]))
      && (!waits ==> s.rows == w.rows)
  {
  }

  /**
   * An issuance is remembered under its fresh id, and its candidate stored now or, if the store failed, by a
   * later step; storing it twice changes nothing.
   */
  lemma IssuanceIsRemembered(w: World, id: Id, k: Principal, email: string, renewed: Credential,
                             renewedScopes: Option<seq<string>>, stillFresh: bool, wall: Time)
    requires id !in w.usedIds && id !in w.rows.custody
    ensures
      var shown := GetConnection(w.rows, k, wall);
      var lost := Act(w, Renewal(IssueRenewal(id, k, email, renewed, renewedScopes, stillFresh, false, wall)));
      var stored := Act(w, Renewal(IssueRenewal(id, k, email, renewed, renewedScopes, stillFresh, true, wall)));
      && (!IssuanceAllowed(w.rows, shown, k) ==> lost == w && stored == w)
      && (IssuanceAllowed(w.rows, shown, k) ==>
            && var p := Prepare(shown.value, id, email, renewed, renewedScopes, stillFresh);
            && lost == w.(usedIds := w.usedIds + {id}, preparations := w.preparations[id := p])
            && stored == lost.(rows := w.rows.(custody := w.rows.custody[id := p.candidate]))
            && Act(lost, Renewal(ReacquireCustody(id))) == stored
            && Act(stored, Renewal(ReacquireCustody(id))) == stored)
  {
  }

  /** A worker takes up an abandoned candidate as it is; a queued cleanup leaves the queue only once moved. */
  lemma WorkersTakeUp(w: World, record: Custody, id: Id)
    ensures
      var taken, deleted := Act(w, Cleanup(PickUpCandidate(record))), Act(w, Cleanup(DeleteQueued(id)));
      var waits := && record in w.seen && record.state == Candidate
                   && record.id in w.rows.custody && w.rows.custody[record.id].state == Candidate
                   && w.rows.custody[record.id].attempts == record.attempts;
      && (waits ==>
            taken == w.(rows := w.rows.(custody := w.rows.custody[record.id := record.(state := CleanupPending)])))
      && (!waits ==> taken == w)
      && (id in w.moved ==> deleted == w.(rows := w.rows.(queue := w.rows.queue - {id})))
      && (id !in w.moved ==> deleted == w)
  {
  }

  /** A renewal that is refused for scope or fails is noted on an enabled connection only. */
  lemma RefusalsAreNoted(w: World, k: Principal, phase: Phase, category: Category, now: Time, wall: Time)
    ensures
      var shown := GetConnection(w.rows, k, wall);
      var enabled := shown.Some? && shown.value.disabledAt == None;
      var refused := Act(w, Renewal(RefuseRenewalForScope(k, now, wall)));
      var failed := Act(w, Renewal(FailRenewal(k, phase, category, now, wall)));
      && (!enabled ==> refused == w && failed == w)
      && (enabled ==>
            && var noted := PersistRenewalFailure(w.rows, shown.value, ReauthorizationRequired, InsufficientScope, now);
            && refused == w.(rows := if noted.Some? then noted.value else w.rows))
      && (enabled && shown.value.envelope.Some? && phase in {ReauthorizationRequired, Unavailable} ==>
            && var noted := PersistRenewalFailure(w.rows, shown.value, phase, category, now);
            && failed == w.(rows := if noted.Some? then noted.value else w.rows))
  {
  }
}
