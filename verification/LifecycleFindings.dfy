/**
 * Where conservation is weaker than it looks: a renewal that was activated but whose reply was
 * lost, then authorized over, is rejected with the credential as issued, not as merged.
 */
module LifecycleFindings {
  import opened Options
  import opened ConnectionRecords
  import opened ConnectionSections
  import opened LifecycleSteps
  import opened StaleAuthorizations
  import opened CustodyInvariant
  import opened LifecycleSafety
  import opened LifecycleTheorems

  /**
   * In every run a rejection changes what the custody row holds exactly if that row had been
   * activated and the provider's answer left out something the credential before it had.
   */
  lemma RejectionOverwritesExactly(revokes: bool, run: seq<Step>, id: Id, cause: Option<Category>, now: Time,
                                   wall: Time)
    requires id in Run(Initial(revokes), run).preparations
    requires
      var w := Run(Initial(revokes), run);
      var p := w.preparations[id];
      RejectRenewed(w.rows, GetConnection(w.rows, p.candidate.principal, wall), p, cause, now).Rejected?
    ensures
      var w := Run(Initial(revokes), run);
      var p := w.preparations[id];
      var s := RejectRenewed(w.rows, GetConnection(w.rows, p.candidate.principal, wall), p, cause, now).rows;
      && id in w.rows.custody
      && id in s.custody
      && s.custody[id].state == CleanupPending
      && (s.custody[id].material != w.rows.custody[id].material
          <==> w.rows.custody[id].state == Active && LeavesOut(Decrypted(p.current), p.renewed))
  {
    hide Run, Mirrored, Activations, Attached, SoundCustody, SoundLog, SoundRetirement, SoundAttempts, SoundSnapshots;
    hide RejectRenewed, GetConnection;
    var w := Run(Initial(revokes), run);
    ReachableInv(revokes, run);
    assert SoundPreparation(w, id, w.preparations[id]);
    RejectionRow(w, id, cause, now, wall);
    MergeIsExact(Decrypted(w.preparations[id].current), w.preparations[id].renewed);
  }

  lemma RejectionRow(w: World, id: Id, cause: Option<Category>, now: Time, wall: Time)
    requires id in w.preparations && w.preparations[id].candidate.id == id
    requires
      var p := w.preparations[id];
      RejectRenewed(w.rows, GetConnection(w.rows, p.candidate.principal, wall), p, cause, now).Rejected?
    ensures
      var p := w.preparations[id];
      var s := RejectRenewed(w.rows, GetConnection(w.rows, p.candidate.principal, wall), p, cause, now).rows;
      && id in w.rows.custody
      && w.rows.custody[id].state in {Candidate, Active}
      && s.custody == w.rows.custody[id := p.candidate.(state := CleanupPending)]
  {
    hide GetConnection, ConnectionWriteGuard, RejectionMarksConnection;
  }

  const SOMEONE := Principal("provider", "issuer", "subject")
  const ISSUED := Credential(Some("active-1"), Some("renewal-1"), map[])
  const RENEWED := Credential(Some("active-2"), None, map[])
  const REISSUED := Credential(Some("active-3"), Some("renewal-3"), map[])

  const MERGED := MergeRotatedCredential(ISSUED, RENEWED)

  function Holds(id: Id, credential: Option<Credential>, generation: nat, state: CustodyState): Custody {
    Custody(id, SOMEONE, "email", credential, generation, state, [], 0)
  }

  function Connects(id: Id, credential: Credential, generation: nat, now: Time): Connection {
    Connection(SOMEONE, "email", None, Some(credential), Some(id), generation, [], [], true,
               Present(credential.renewal), None, Connected, NotRevoked, None, 1, now)
  }

  function Stored(c: Connection, custody: map<Id, Custody>): Rows {
    Rows(map[SOMEONE := c], map[SOMEONE := AccountOf(c)], custody, map[], map[])
  }

  const A := Holds("a", Some(ISSUED), 1, Candidate)
  const B := Holds("b", Some(RENEWED), 2, Candidate)
  const C := Holds("c", Some(REISSUED), 3, Candidate)
  const RENEWAL := Preparation(Connects("a", ISSUED, 1, 1), B, RENEWED, None, false)

  const AUTHORIZED := Stored(Connects("a", ISSUED, 1, 1), map["a" := A.(state := Active)])
  const REFRESHED := Stored(Connects("b", MERGED, 2, 2),
                            map["a" := Holds("a", None, 1, Retired), "b" := Holds("b", Some(MERGED), 2, Active)])
  const REAUTHORIZED := Stored(Connects("c", REISSUED, 3, 3),
                               map["a" := Holds("a", None, 1, Retired), "b" := Holds("b", Some(MERGED), 2, Active),
                                   "c" := C.(state := Active)])

  lemma FirstAuthorization()
    ensures ActivateAuthorized(SaveCustody(EMPTY_ROWS, A), None, A, Issued(ISSUED, "email", None, []), [],
                               Some(SnapshotAuthorizationGuard(None)), 1) == Some(AUTHORIZED)
  {
    var issued := Issued(ISSUED, "email", None, []);
    var r := SaveCustody(EMPTY_ROWS, A);
    assert r.custody == map["a" := A];
    assert ActivationAllowed(r, None, A, Some(SnapshotAuthorizationGuard(None)));
    var c := AuthorizedConnection(None, A, issued, [], 1);
    assert c == Connects("a", ISSUED, 1, 1);
    assert r.custody["a" := A.(state := Active)] == AUTHORIZED.custody;
    assert r.connections[SOMEONE := c] == AUTHORIZED.connections;
    assert r.accounts[SOMEONE := AccountOf(c)] == AUTHORIZED.accounts;
  }

  lemma RenewalActivates()
    ensures var r := SaveCustody(AUTHORIZED, B);
      ActivateRenewed(r, GetConnection(r, SOMEONE, 0), RENEWAL, None, 2) == Refreshed(REFRESHED)
  {
    var r := SaveCustody(AUTHORIZED, B);
    assert r.custody == map["a" := A.(state := Active), "b" := B];
    assert GetConnection(r, SOMEONE, 0) == Some(RENEWAL.current);
    assert ActivatedCustody(RENEWAL) == Holds("b", Some(MERGED), 2, Active);
    assert RenewedConnection(RENEWAL.current, RENEWAL, None, 2) == Connects("b", MERGED, 2, 2);
    assert r.custody["b" := Holds("b", Some(MERGED), 2, Active)]["a" := RetiredCustody(A.(state := Active))]
           == REFRESHED.custody;
  }

  lemma AuthorizedOver()
    ensures
      var r := SaveCustody(REFRESHED, C);
      var current := GetConnection(r, SOMEONE, 0);
      ActivateAuthorized(r, current, C, Issued(REISSUED, "email", None, []), [],
                         Some(SnapshotAuthorizationGuard(current)), 3) == Some(REAUTHORIZED)
  {
    var r := SaveCustody(REFRESHED, C);
    assert r.custody == REFRESHED.custody["c" := C];
    var current := GetConnection(r, SOMEONE, 0);
    assert current == Some(Connects("b", MERGED, 2, 2));
    assert ActivationAllowed(r, current, C, Some(SnapshotAuthorizationGuard(current)));
    var c := AuthorizedConnection(current, C, Issued(REISSUED, "email", None, []), [], 3);
    assert c == Connects("c", REISSUED, 3, 3);
    assert r.custody["c" := C.(state := Active)] == REAUTHORIZED.custody;
    assert r.connections[SOMEONE := c] == REAUTHORIZED.connections;
    assert r.accounts[SOMEONE := AccountOf(c)] == REAUTHORIZED.accounts;
  }

  // ---------------------------------------------------------------- the run

  const REJECTED := REAUTHORIZED.(custody := REAUTHORIZED.custody["b" := B.(state := CleanupPending)])

  const FIRST := Issued(ISSUED, "email", None, [])
  const LATER := Issued(REISSUED, "email", None, [])

  /** What a run has come to, as far as the next step looks. */
  ghost predicate Reached(w: World, rows: Rows, clock: Time) {
    w.rows == rows && w.clock == clock
  }

  function Waiting(candidate: Custody, issued: Issued, guard: ActivationGuard): Attempt {
    Attempt(candidate, issued, [], Some(guard), Saved)
  }

  const NOBODY := ActivationGuard(Some(0), Some(false), None)
  const RENEWED_ROW := ActivationGuard(Some(2), Some(false), Some(2))

  lemma FirstStep(w: World)
    requires w == Initial(w.revokes)
    ensures
      var v := Do(w, Callback(StartAuthorization("a", SOMEONE, "email", FIRST, [], Some(NOBODY))));
      && Reached(v, SaveCustody(EMPTY_ROWS, A), 0)
      && v.attempts == map["a" := Waiting(A, FIRST, NOBODY)]
      && v.preparations == map[]
      && v.usedIds == {"a"}
  {
  }

  lemma SecondStep(w: World)
    requires Reached(w, SaveCustody(EMPTY_ROWS, A), 0)
    requires w.attempts == map["a" := Waiting(A, FIRST, NOBODY)] && w.preparations == map[] && w.usedIds == {"a"}
    ensures
      var v := Do(w, Callback(ActivateAuthorization("a", NoFault, 1, 0)));
      Reached(v, AUTHORIZED, 1) && v.preparations == map[] && v.usedIds == {"a"}
  {
    FirstAuthorization();
    assert SnapshotAuthorizationGuard(None) == NOBODY;
    assert GetConnection(w.rows, SOMEONE, 0) == None;
  }

  lemma ThirdStep(w: World)
    requires Reached(w, AUTHORIZED, 1) && w.preparations == map[] && w.usedIds == {"a"}
    ensures
      var v := Do(w, Renewal(IssueRenewal("b", SOMEONE, "email", RENEWED, None, false, true, 0)));
      && Reached(v, SaveCustody(AUTHORIZED, B), 1)
      && v.preparations == map["b" := RENEWAL]
      && v.usedIds == {"a", "b"}
  {
    assert GetConnection(w.rows, SOMEONE, 0) == Some(RENEWAL.current);
    assert IssuanceAllowed(w.rows, Some(RENEWAL.current), SOMEONE);
    assert Prepare(RENEWAL.current, "b", "email", RENEWED, None, false) == RENEWAL;
  }

  lemma FourthStep(w: World)
    requires Reached(w, SaveCustody(AUTHORIZED, B), 1)
    requires w.preparations == map["b" := RENEWAL] && w.usedIds == {"a", "b"}
    ensures
      var v := Do(w, Renewal(ActivateRenewal("b", None, 2, 0)));
      Reached(v, REFRESHED, 2) && v.preparations == map["b" := RENEWAL] && v.usedIds == {"a", "b"}
  {
    hide ActivateRenewed;
    RenewalActivates();
  }

  lemma FifthStep(w: World)
    requires Reached(w, REFRESHED, 2) && w.preparations == map["b" := RENEWAL] && w.usedIds == {"a", "b"}
    ensures
      var v := Do(w, Callback(StartAuthorization("c", SOMEONE, "email", LATER, [], Some(RENEWED_ROW))));
      && Reached(v, SaveCustody(REFRESHED, C), 2)
      && v.preparations == map["b" := RENEWAL]
      && "c" in v.attempts && v.attempts["c"] == Waiting(C, LATER, RENEWED_ROW)
  {
  }

  lemma SixthStep(w: World)
    requires Reached(w, SaveCustody(REFRESHED, C), 2) && w.preparations == map["b" := RENEWAL]
    requires "c" in w.attempts && w.attempts["c"] == Waiting(C, LATER, RENEWED_ROW)
    ensures
      var v := Do(w, Callback(ActivateAuthorization("c", NoFault, 3, 0)));
      Reached(v, REAUTHORIZED, 3) && v.preparations == map["b" := RENEWAL]
  {
    hide ActivateAuthorized;
    AuthorizedOver();
    assert GetConnection(SaveCustody(REFRESHED, C), SOMEONE, 0) == Some(Connects("b", MERGED, 2, 2));
    assert SnapshotAuthorizationGuard(Some(Connects("b", MERGED, 2, 2))) == RENEWED_ROW;
  }

  lemma SeventhStep(w: World)
    requires Reached(w, REAUTHORIZED, 3) && w.preparations == map["b" := RENEWAL]
    ensures Reached(Do(w, Renewal(RejectRenewal("b", Some(PersistenceFailure), 4, 0))), REJECTED, 4)
  {
    assert GetConnection(REAUTHORIZED, SOMEONE, 0) == Some(Connects("c", REISSUED, 3, 3));
    assert UpdateCustody(REAUTHORIZED, B.(state := CleanupPending), Candidate, 0) == None;
    assert UpdateCustody(REAUTHORIZED, B.(state := CleanupPending), Active, 0) == Some(REJECTED);
  }

  lemma Next(w: World, run: seq<Step>)
    requires run != []
    ensures Exec(w, run) == Exec(Do(w, run[0]), run[1..])
  {
  }

  const UP_TO_REJECTION: seq<Step> := [
    Callback(StartAuthorization("a", SOMEONE, "email", FIRST, [], Some(NOBODY))),
    Callback(ActivateAuthorization("a", NoFault, 1, 0)),
    Renewal(IssueRenewal("b", SOMEONE, "email", RENEWED, None, false, true, 0)),
    Renewal(ActivateRenewal("b", None, 2, 0)),
    Callback(StartAuthorization("c", SOMEONE, "email", LATER, [], Some(RENEWED_ROW))),
    Callback(ActivateAuthorization("c", NoFault, 3, 0))
  ]

  const REJECTION := Renewal(RejectRenewal("b", Some(PersistenceFailure), 4, 0))

  lemma RunUpToRejection(revokes: bool)
    ensures
      var w := Exec(Initial(revokes), UP_TO_REJECTION);
      Reached(w, REAUTHORIZED, 3) && w.preparations == map["b" := RENEWAL]
  {
    hide Do, Reached;
    var w0, run := Initial(revokes), UP_TO_REJECTION;
    FirstStep(w0);
    var w1 := Do(w0, run[0]);
    SecondStep(w1);
    var w2 := Do(w1, run[1]);
    ThirdStep(w2);
    var w3 := Do(w2, run[2]);
    FourthStep(w3);
    var w4 := Do(w3, run[3]);
    FifthStep(w4);
    var w5 := Do(w4, run[4]);
    SixthStep(w5);
    var w6 := Do(w5, run[5]);
    SixSteps(w0, run);
    assert Exec(w0, run) == w6;
  }

  lemma SixSteps(w: World, run: seq<Step>)
    requires |run| == 6
    ensures Exec(w, run) == Do(Do(Do(Do(Do(Do(w, run[0]), run[1]), run[2]), run[3]), run[4]), run[5])
  {
    hide Do;
    var w1 := Do(w, run[0]);
    var w2 := Do(w1, run[1]);
    var w3 := Do(w2, run[2]);
    var w4 := Do(w3, run[3]);
    var w5 := Do(w4, run[4]);
    Next(w, run);
    Next(w1, run[1..]);
    assert run[1..][1..] == run[2..];
    Next(w2, run[2..]);
    assert run[2..][1..] == run[3..];
    Next(w3, run[3..]);
    assert run[3..][1..] == run[4..];
    Next(w4, run[4..]);
    assert run[4..][1..] == run[5..];
    Next(w5, run[5..]);
    assert run[5..][1..] == [];
  }

  /**
   * An authorization, a renewal whose reply is lost, an authorization over it, and the rejection of
   * that renewal: the first renewal credential then stands in no row, never having been revoked.
   */
  lemma RejectionCanDropRenewal(revokes: bool)
    ensures
      var before := Exec(Initial(revokes), UP_TO_REJECTION).rows;
      var after := Do(Exec(Initial(revokes), UP_TO_REJECTION), REJECTION).rows;
      && "b" in before.custody && before.custody["b"].state == Active
      && before.custody["b"].material == Some(Credential(Some("active-2"), Some("renewal-1"), map[]))
      && "b" in after.custody && after.custody["b"].state == CleanupPending
      && (forall id :: id in after.custody && after.custody[id].material.Some? ==>
            after.custody[id].material.value.renewal != Some("renewal-1"))
  {
    hide Do, Exec;
    RunUpToRejection(revokes);
    SeventhStep(Exec(Initial(revokes), UP_TO_REJECTION));
  }
}
