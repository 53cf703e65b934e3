/** The theorems about whole lifecycle runs, from an empty store. */
module LifecycleTheorems {
  import opened Options
  import opened ConnectionRecords
  import opened ConnectionSections
  import opened LifecycleSteps
  import opened StaleAuthorizations
  import opened RowMoves
  import opened CustodyInvariant
  import opened LifecycleSafety

  // ---------------------------------------------------------------- one step

  lemma MarkersAside(w: World, v: World)
    requires Sound(w) && v == w.(rows := w.rows.(markers := v.rows.markers))
    ensures Keeps(w, v)
  {
    assert Handled(w, v);
    Shifted(w, v);
  }

  lemma InspectKeeps(w: World, id: Id, wall: Time)
    requires Inv(w)
    ensures Keeps(w, DoInspect(w, id, wall))
  {
    if id in w.attempts && w.attempts[id].progress == Errored {
      var k := w.attempts[id].candidate.principal;
      GetConnectionSees(w.rows, k, wall);
      var current := GetConnection(w.rows, k, wall);
      ProgressMade(w, id, if current.Some? && current.value.custodyId == Some(id) then Finished else Unwanted);
    }
  }

  lemma RefuseKeeps(w: World, id: Id)
    requires Sound(w) && id in w.attempts && w.attempts[id].progress == Saved
    ensures Keeps(w, Progressed(w, id, Unwanted))
  {
    assert SoundAttempt(w, id, w.attempts[id]);
    ProgressMade(w, id, Unwanted);
  }

  lemma CallbackKeeps(w: World, st: CallbackStep)
    requires Inv(w)
    ensures Keeps(w, ActCallback(w, st))
  {
    match st {
      case MarkAuthorizing(k, marker) => MarkersAside(w, ActCallback(w, st));
      case ClearAuthorizing(k) => MarkersAside(w, ActCallback(w, st));
      case StartAuthorization(id, k, email, issued, scopes, guard) =>
        StartSound(w, id, k, email, issued, scopes, guard);
      case ActivateAuthorization(id, fault, now, wall) => ActivateAuthorizationSound(w, id, fault, now, wall);
      case RefuseAuthorization(id) =>
        if id in w.attempts && w.attempts[id].progress == Saved {
          RefuseKeeps(w, id);
        }
      case InspectAuthorization(id, wall) => InspectKeeps(w, id, wall);
      case WithdrawCandidate(id) => WithdrawSound(w, id, Unwanted, Candidate, UnwantedActive);
      case WithdrawActive(id) => WithdrawSound(w, id, UnwantedActive, Active, Finished);
    }
  }

  lemma RenewalKeeps(w: World, st: RenewalStep)
    requires Inv(w) && !st.RefuseRenewalForScope?
    ensures Keeps(w, ActRenewal(w, st))
  {
    hide DoIssue, DoReacquire, DoActivateRenewal, DoReject, DoFailRenewal, Sound, Keeps, GetConnection;
    match st {
      case IssueRenewal(id, k, email, renewed, scopes, stillFresh, stored, wall) =>
        IssueSound(w, id, k, email, renewed, scopes, stillFresh, stored, wall);
      case ReacquireCustody(id) => ReacquireSound(w, id);
      case ActivateRenewal(id, identity, now, wall) => ActivateRenewalSound(w, id, identity, now, wall);
      case RejectRenewal(id, cause, now, wall) => RejectSound(w, id, cause, now, wall);
      case FailRenewal(k, phase, category, now, wall) => FailRenewalSound(w, k, true, phase, category, now, wall);
    }
  }

  lemma CleanupKeeps(w: World, st: CleanupStep)
    requires Inv(w)
    ensures Keeps(w, ActCleanup(w, st))
  {
    hide DoDisconnect, DoPickUp, DoFinish, DoEnqueue, DoMove, DoDelete, Sound, Keeps;
    match st {
      case DisconnectPrincipal(k, email, scopes, newId, now, wall) =>
        DisconnectSound(w, k, email, scopes, newId, now, wall);
      case PickUpCandidate(record) => PickUpSound(w, record);
      case FinishCleanup(record, result, now, wall) => FinishSound(w, record, result, now, wall);
      case EnqueueCleanup(q) => EnqueueSound(w, q);
      case MoveQueued(q) => MoveSound(w, q);
      case DeleteQueued(id) => DeleteSound(w, id);
    }
  }

  lemma MetadataKeeps(w: World, st: MetadataStep)
    requires Inv(w)
    ensures Keeps(w, ActMetadata(w, st))
  {
    hide GetConnection, SaveConnection, ConnectionWriteGuard;
    match st {
      case BackfillAccount(initial, display, account, wall) =>
        var current := GetConnection(w.rows, initial.principal, wall);
        GetConnectionSees(w.rows, initial.principal, wall);
        var rows := Backfill(w.rows, current, initial, display, account);
        if initial in w.observed && initial.envelope.Some? && rows.Some? {
          MetadataSound(w, rows, current, current.value.(display := display, accountId := Some(account)),
                        initial.principal);
        }
      case RepairScope(k, usable, now, wall) =>
        var current := GetConnection(w.rows, k, wall);
        GetConnectionSees(w.rows, k, wall);
        var rows := RepairScopePoison(w.rows, current, usable, now);
        if rows.Some? {
          var c := current.value;
          MetadataSound(w, rows, current,
                        c.(phase := Connected, category := None,
                           updatedAt := if now > c.updatedAt + 1 then now else c.updatedAt + 1), k);
        }
    }
  }

  lemma ActKeeps(w: World, st: Step)
    requires Inv(w)
    ensures Grows(w, Act(w, st))
    ensures StoresPhantom(w, st) || Appears(w.rows.connections, Act(w, st).rows.connections)
  {
    hide Sound, CustodyShift, MaterialShift, Appears, StoresPhantom;
    match st {
      case Callback(c) => CallbackKeeps(w, c);
      case Renewal(c) =>
        if c.RefuseRenewalForScope? {
          RefusalSound(w, c.k, c.now, c.wall);
        } else {
          RenewalKeeps(w, c);
        }
      case Cleanup(c) => CleanupKeeps(w, c);
      case Metadata(c) => MetadataKeeps(w, c);
    }
  }

  /** Recording the rows just stored keeps every snapshot harmless. */
  lemma RecordingKeeps(w: World, v: World)
    requires Sound(w)
    requires v == w.(clock := v.clock, observed := v.observed, seen := w.seen + w.rows.custody.Values)
    ensures Keeps(w, v)
  {
    forall r | r in v.seen
      ensures Harmless(r, v.rows.custody)
    {
      if r in w.seen {
        assert Harmless(r, w.rows.custody);
      } else {
        var id :| id in w.rows.custody && w.rows.custody[id] == r;
        assert SoundRow(w, id, r);
      }
    }
    TablesAside(w, v);
    RolesAside(w, v);
  }

  lemma TablesAside(w: World, v: World)
    requires SoundTables(w) && SoundQueue(w)
    requires v == w.(clock := v.clock, observed := v.observed, seen := v.seen)
    ensures SoundTables(v) && SoundQueue(v)
  {
  }

  lemma RolesAside(w: World, v: World)
    requires SoundAttempts(w) && SoundPreparations(w)
    requires v == w.(clock := v.clock, observed := v.observed, seen := v.seen)
    ensures SoundAttempts(v) && SoundPreparations(v)
  {
    forall i | i in v.attempts
      ensures SoundAttempt(v, i, v.attempts[i])
    {
      assert SoundAttempt(w, i, w.attempts[i]);
    }
    forall i | i in v.preparations
      ensures SoundPreparation(v, i, v.preparations[i])
    {
      assert SoundPreparation(w, i, w.preparations[i]);
    }
  }

  lemma ActivationsRecorded(w: World, v: World)
    requires Activations(w) && Attached(v) && v.observed <= w.observed + v.rows.connections.Values
    ensures Activations(v)
  {
    forall c | c in v.observed && c.envelope.Some?
      ensures c.generation >= 1
    {
      if c !in w.observed {
        var k :| k in v.rows.connections && v.rows.connections[k] == c;
        assert AttachedAt(c, v.rows.custody, LogOf(v, k), v.revokes);
      }
    }
  }

  /** Preparations are made once, under ids not used before. */
  ghost predicate SamePreparations(w: World, v: World) {
    && w.usedIds <= v.usedIds
    && forall id :: id in w.usedIds ==>
         && (id in v.preparations <==> id in w.preparations)
         && (id in w.preparations ==> v.preparations[id] == w.preparations[id])
  }

  /** Acting records nothing by itself; that is left to `Take`. */
  ghost predicate SameRecords(w: World, v: World) {
    v.observed == w.observed && v.seen == w.seen
  }

  lemma CallbackPreparations(w: World, st: CallbackStep)
    ensures SamePreparations(w, ActCallback(w, st)) && SameRecords(w, ActCallback(w, st))
  {
    hide GetConnection, ActivateAuthorized, UpdateCustody, NewCandidate, SaveCustody;
  }

  lemma RenewalPreparations(w: World, st: RenewalStep)
    ensures SamePreparations(w, ActRenewal(w, st)) && SameRecords(w, ActRenewal(w, st))
  {
    hide GetConnection, ActivateRenewed, RejectRenewed, PersistRenewalFailure, IssuanceAllowed, Prepare, SaveCustody;
  }

  lemma CleanupPreparations(w: World, st: CleanupStep)
    ensures SamePreparations(w, ActCleanup(w, st)) && SameRecords(w, ActCleanup(w, st))
  {
    hide GetConnection, Disconnect, FinalizeCleanup, UpdateCustody, SaveCustody, FromQueue;
  }

  lemma MetadataPreparations(w: World, st: MetadataStep)
    ensures SamePreparations(w, ActMetadata(w, st)) && SameRecords(w, ActMetadata(w, st))
  {
    hide GetConnection, Backfill, RepairScopePoison;
  }

  lemma ActRecords(w: World, st: Step)
    ensures SamePreparations(w, Act(w, st)) && SameRecords(w, Act(w, st))
  {
    hide ActCallback, ActRenewal, ActCleanup, ActMetadata, SamePreparations;
    match st {
      case Callback(c) => CallbackPreparations(w, c);
      case Renewal(c) => RenewalPreparations(w, c);
      case Cleanup(c) => CleanupPreparations(w, c);
      case Metadata(c) => MetadataPreparations(w, c);
    }
  }

  lemma TakeKeeps(w: World, st: Step)
    requires Inv(w)
    ensures Inv(Take(w, st)) && Take(w, st).revokes == w.revokes
    ensures CustodyShift(w.rows.custody, Take(w, st).rows.custody) && MaterialShift(w, Take(w, st))
    ensures StoresPhantom(w, st) || Appears(w.rows.connections, Take(w, st).rows.connections)
  {
    hide Act, Mirrored, Sound, Activations, CustodyShift, StoresPhantom, Appears, Attached;
    TakeShifts(w, st);
    ActKeeps(w, st);
    ActRecords(w, st);
    RecordingKeeps(Act(w, st), Take(w, st));
    SoundIsAttached(Take(w, st));
    ActivationsRecorded(w, Take(w, st));
  }

  lemma SoundIsAttached(w: World)
    requires Sound(w)
    ensures Attached(w)
  {
  }

  // ---------------------------------------------------------------- whole runs

  lemma ShiftsCompose(a: map<Id, Custody>, b: map<Id, Custody>, c: map<Id, Custody>)
    requires CustodyShift(a, b) && CustodyShift(b, c)
    ensures CustodyShift(a, c)
  {
    forall id | id in a
      ensures id in c && RowShift(a[id], c[id])
    {
      assert RowShift(a[id], b[id]) && RowShift(b[id], c[id]);
    }
  }

  lemma {:induction false} RunKeeps(w: World, run: seq<Step>)
    requires Inv(w)
    ensures Inv(Run(w, run)) && CustodyShift(w.rows.custody, Run(w, run).rows.custody)
    ensures Run(w, run).revokes == w.revokes
    decreases |run|
  {
    if run != [] {
      var next := Take(w, run[0]);
      TakeKeeps(w, run[0]);
      RunKeeps(next, run[1..]);
      ShiftsCompose(w.rows.custody, next.rows.custody, Run(w, run).rows.custody);
    }
  }

  lemma EmptyIsSound(revokes: bool)
    ensures Inv(Initial(revokes))
  {
  }

  /** Every state that a run from the empty store reaches. */
  lemma ReachableInv(revokes: bool, run: seq<Step>)
    ensures Inv(Run(Initial(revokes), run)) && Run(Initial(revokes), run).revokes == revokes
  {
    hide Inv, Run;
    EmptyIsSound(revokes);
    RunKeeps(Initial(revokes), run);
  }

  /** An enabled connection that was never activated. */
  predicate IsPhantom(r: Rows, k: Principal) {
    k in r.connections && r.connections[k].disabledAt.None? && r.connections[k].generation == 0
  }

  /**
   * An enabled connection of an activated generation names the active custody row of its own
   * generation; one that was never activated names none and holds nothing. Only an enabled,
   * activated connection has an active row of its principal.
   */
  ghost predicate Consistent(r: Rows) {
    && (forall k :: k in r.connections && r.connections[k].disabledAt.None? && !IsPhantom(r, k) ==>
          var c := r.connections[k];
          && c.custodyId.Some?
          && c.custodyId.value in r.custody
          && r.custody[c.custodyId.value].principal == k
          && r.custody[c.custodyId.value].state == Active
          && r.custody[c.custodyId.value].generation == c.generation)
    && (forall k :: IsPhantom(r, k) ==> r.connections[k].custodyId.None? && r.connections[k].envelope.None?)
    && (forall id :: id in r.custody && r.custody[id].state == Active ==>
          var k := r.custody[id].principal;
          k in r.connections && r.connections[k].disabledAt.None? && !IsPhantom(r, k))
  }

  lemma InvIsConsistent(w: World)
    requires Inv(w)
    ensures Consistent(w.rows)
  {
    forall k | k in w.rows.connections
      ensures AttachedAt(w.rows.connections[k], w.rows.custody, LogOf(w, k), w.revokes)
    {
    }
    forall id | id in w.rows.custody
      ensures SoundRow(w, id, w.rows.custody[id])
    {
    }
  }

  /** Every state of every run is consistent. */
  lemma ConnectionsStayConsistent(revokes: bool, run: seq<Step>)
    ensures Consistent(Run(Initial(revokes), run).rows)
  {
    ReachableInv(revokes, run);
    InvIsConsistent(Run(Initial(revokes), run));
  }

  // ---------------------------------------------------------------- connections that were never activated

  lemma PhantomStored(w: World, st: Step)
    requires Inv(w) && StoresPhantom(w, st)
    ensures var v := Take(w, st);
      && var k := st.renewal.k;
      && IsPhantom(v.rows, k)
      && !IsPhantom(w.rows, k)
      && v.rows.connections == w.rows.connections[k := v.rows.connections[k]]
      && v.rows.connections[k].display == ""
  {
    GetConnectionSees(w.rows, st.renewal.k, st.renewal.wall);
  }

  lemma PhantomOlder(w: World, st: Step, k: Principal)
    requires Inv(w) && IsPhantom(Take(w, st).rows, k) && k in w.rows.connections
    ensures IsPhantom(w.rows, k)
  {
    TakeShifts(w, st);
    assert Holds(w.rows.connections[k], Take(w, st).rows.connections[k], false);
  }

  /**
   * In every run such a connection appears with a step exactly if that step is the refused refresh
   * over a mere marker.
   */
  lemma PhantomAppearsExactly(revokes: bool, run: seq<Step>, st: Step, k: Principal)
    ensures
      var w := Run(Initial(revokes), run);
      IsPhantom(Take(w, st).rows, k) && !IsPhantom(w.rows, k) <==> StoresPhantom(w, st) && st.renewal.k == k
  {
    var w := Run(Initial(revokes), run);
    ReachableInv(revokes, run);
    PhantomStep(w, st, k);
  }

  lemma PhantomStep(w: World, st: Step, k: Principal)
    requires Inv(w)
    ensures IsPhantom(Take(w, st).rows, k) && !IsPhantom(w.rows, k) <==> StoresPhantom(w, st) && st.renewal.k == k
  {
    hide Inv, StoresPhantom;
    if StoresPhantom(w, st) {
      PhantomStored(w, st);
    } else {
      TakeKeeps(w, st);
    }
    if IsPhantom(Take(w, st).rows, k) && k in w.rows.connections {
      PhantomOlder(w, st, k);
    }
  }

  /** Some step of the run stores the refusal as a connection of `k`. */
  ghost predicate Refused(w: World, run: seq<Step>, k: Principal)
    decreases |run|
  {
    run != [] && ((StoresPhantom(w, run[0]) && run[0].renewal.k == k) || Refused(Take(w, run[0]), run[1..], k))
  }

  lemma {:induction false} PhantomsComeFromRefusals(w: World, run: seq<Step>, k: Principal)
    requires Inv(w) && IsPhantom(Run(w, run).rows, k)
    ensures IsPhantom(w.rows, k) || Refused(w, run, k)
    decreases |run|
  {
    hide Inv, StoresPhantom, IsPhantom;
    if run != [] {
      TakeKeeps(w, run[0]);
      PhantomsComeFromRefusals(Take(w, run[0]), run[1..], k);
      PhantomStep(w, run[0], k);
    }
  }

  /** Without such a refusal every enabled connection names its active custody row. */
  lemma EnabledNamesItsCustody(revokes: bool, run: seq<Step>, k: Principal)
    requires !Refused(Initial(revokes), run, k)
    ensures
      var r := Run(Initial(revokes), run).rows;
      k in r.connections && r.connections[k].disabledAt.None? ==>
        && r.connections[k].custodyId.Some?
        && r.connections[k].custodyId.value in r.custody
        && r.custody[r.connections[k].custodyId.value].state == Active
        && r.custody[r.connections[k].custodyId.value].generation == r.connections[k].generation
  {
    hide Run, Sound, Refused;
    ConnectionsStayConsistent(revokes, run);
    EmptyIsSound(revokes);
    if IsPhantom(Run(Initial(revokes), run).rows, k) {
      PhantomsComeFromRefusals(Initial(revokes), run, k);
    }
  }

  lemma TwoSteps(w: World, a: Step, b: Step)
    ensures Run(w, [a, b]) == Take(Take(w, a), b)
  {
    var v := Take(w, a);
    assert [a, b][1..] == [b];
    assert Run(v, [b]) == Run(Take(v, b), []);
  }

  /** The shortest run that stores such a row: a consent screen opened, then a manual refresh. */
  lemma PhantomIsReachable(revokes: bool, k: Principal, scopes: seq<string>)
    ensures
      var run := [Callback(MarkAuthorizing(k, Marker(scopes, 10, 0))), Renewal(RefuseRenewalForScope(k, 1, 0))];
      IsPhantom(Run(Initial(revokes), run).rows, k)
  {
    var mark := Callback(MarkAuthorizing(k, Marker(scopes, 10, 0)));
    var refuse := Renewal(RefuseRenewalForScope(k, 1, 0));
    var w := Initial(revokes);
    EmptyIsSound(revokes);
    TakeKeeps(w, mark);
    PhantomStored(Take(w, mark), refuse);
    TwoSteps(w, mark, refuse);
  }

  /** While the marker lives, a row so stored can neither be authorized over nor disconnected. */
  lemma PhantomLocksOut(revokes: bool, r: Rows, k: Principal, wall: Time, candidate: Custody, issued: Issued,
                        scopes: seq<string>, guard: Option<ActivationGuard>, email: string, newId: Id, now: Time)
    requires Mirrored(r) && candidate.principal == k
    requires k in r.connections && k in r.markers && r.markers[k].expiresAt > wall
    requires
      var c := r.connections[k];
      && c.generation == 0 && c.disabledAt.None? && c.display == "" && c.phase == ReauthorizationRequired
      && !c.activePresent && !c.renewalPresent
    ensures var current := GetConnection(r, k, wall);
      && ActivateAuthorized(r, current, candidate, issued, scopes, guard, now) == None
      && Disconnect(revokes, r, current, k, email, scopes, newId, now) == None
  {
  }

  // ---------------------------------------------------------------- revocation, generations, material

  /** For a provider with revocation, a disabled connection and its custody row move in lock-step. */
  lemma RevocationInLockStep(run: seq<Step>, k: Principal)
    requires
      var r := Run(Initial(true), run).rows;
      k in r.connections && r.connections[k].disabledAt.Some? && r.connections[k].custodyId.Some?
    ensures
      var r := Run(Initial(true), run).rows;
      var id := r.connections[k].custodyId.value;
      && id in r.custody
      && (r.connections[k].revocation == Pending <==> r.custody[id].state == CleanupPending)
      && (r.connections[k].revocation == Complete <==> r.custody[id].state == CleanupComplete)
      && (r.connections[k].revocation == PermanentFailure <==> r.custody[id].state == CleanupPermanentFailure)
      && (r.connections[k].revocation == Complete ==> r.custody[id].material.None?)
  {
    hide Run, Mirrored, Activations, SoundLog, SoundRetirement, SoundAttempts, SoundPreparations, SoundSnapshots;
    var w := Run(Initial(true), run);
    ReachableInv(true, run);
    assert AttachedAt(w.rows.connections[k], w.rows.custody, LogOf(w, k), w.revokes);
    assert SoundRow(w, w.rows.connections[k].custodyId.value, w.rows.custody[w.rows.connections[k].custodyId.value]);
  }

  /** `generation` counts activations: the i-th activation of a principal was made under generation
      i + 1, no custody row is activated twice, and the current generation is the number of them. */
  lemma GenerationCountsActivations(revokes: bool, run: seq<Step>, k: Principal)
    ensures var w := Run(Initial(revokes), run);
      && (k in w.rows.connections ==> w.rows.connections[k].generation == |LogOf(w, k)|)
      && (k !in w.rows.connections ==> LogOf(w, k) == [])
      && (forall i :: 0 <= i < |LogOf(w, k)| ==> LogOf(w, k)[i].generation == i + 1)
      && (forall i, j :: 0 <= i < j < |LogOf(w, k)| ==> LogOf(w, k)[i].id != LogOf(w, k)[j].id)
  {
    hide Run, Mirrored, Activations, SoundCustody, SoundRetirement, SoundAttempts, SoundPreparations;
    var w := Run(Initial(revokes), run);
    ReachableInv(revokes, run);
    if k in w.rows.connections {
      assert AttachedAt(w.rows.connections[k], w.rows.custody, LogOf(w, k), w.revokes);
    }
  }

  /**
   * No run removes a connection or lowers its generation, and none enables a disabled one under the
   * same generation.
   */
  lemma GenerationNeverDecreases(revokes: bool, first: seq<Step>, more: seq<Step>, k: Principal)
    requires k in Run(Initial(revokes), first).rows.connections
    ensures
      var w := Run(Initial(revokes), first);
      var v := Run(w, more);
      && k in v.rows.connections
      && w.rows.connections[k].generation <= v.rows.connections[k].generation
      && (w.rows.connections[k].disabledAt.Some? && v.rows.connections[k].disabledAt.None? ==>
            w.rows.connections[k].generation < v.rows.connections[k].generation)
  {
    var w := Run(Initial(revokes), first);
    RunShifts(Initial(revokes), first);
    RunShifts(w, more);
    assert Holds(w.rows.connections[k], Run(w, more).rows.connections[k], false);
  }

  /** Under a strictly increasing clock dates do not go back either. */
  lemma DatesNeverGoBack(revokes: bool, first: seq<Step>, more: seq<Step>, k: Principal)
    requires k in Exec(Initial(revokes), first).rows.connections
    ensures
      var w := Exec(Initial(revokes), first);
      var v := Exec(w, more);
      k in v.rows.connections && w.rows.connections[k].updatedAt <= v.rows.connections[k].updatedAt
  {
    var w := Exec(Initial(revokes), first);
    ExecMoves(Initial(revokes), first);
    ExecMoves(w, more);
    assert Advances(w.rows.connections[k], Exec(w, more).rows.connections[k]);
  }

  /**
   * A custody row is never lost, its terminal states are absorbing, its material is erased only by a
   * finished cleanup or by a successor that was activated and kept the renewal credential, and it is
   * exchanged only in a renewal's row, between the credential issued and that merged.
   */
  lemma MaterialIsConserved(revokes: bool, first: seq<Step>, more: seq<Step>, id: Id)
    requires id in Run(Initial(revokes), first).rows.custody
    ensures
      var w := Run(Initial(revokes), first);
      var v := Run(w, more);
      && id in v.rows.custody
      && var a := w.rows.custody[id];
      && var b := v.rows.custody[id];
      && (a.state in {CleanupComplete, CleanupPermanentFailure, Retired} ==> b == a)
      && (a.material.Some? && b.material.None? ==>
            || b.state == CleanupComplete
            || (b.state == Retired && exists i: nat :: SucceededAt(LogOf(v, b.principal), i, id)))
      && (a.material.Some? && b.material.Some? && a.material != b.material ==>
            && id in v.preparations
            && IsRenewalMaterial(v.preparations[id], a.material.value)
            && IsRenewalMaterial(v.preparations[id], b.material.value))
  {
    hide Run, Mirrored, Activations, Attached, SoundLog, SoundAttempts, SoundPreparations, SoundSnapshots, SoundQueue;
    var w := Run(Initial(revokes), first);
    var v := Run(w, more);
    ReachableInv(revokes, first);
    RunKeeps(w, more);
    assert RowShift(w.rows.custody[id], v.rows.custody[id]);
    assert SoundRow(v, id, v.rows.custody[id]);
    MaterialFollows(w, more, id);
  }

  lemma TakePreparations(w: World, st: Step)
    ensures SamePreparations(w, Take(w, st))
  {
    hide Act;
    ActRecords(w, st);
  }

  lemma {:induction false} RunPreparations(w: World, run: seq<Step>)
    ensures SamePreparations(w, Run(w, run))
    decreases |run|
  {
    hide Take;
    if run != [] {
      TakePreparations(w, run[0]);
      RunPreparations(Take(w, run[0]), run[1..]);
    }
  }

  /** Rows that no renewal holds keep their material until it is erased. */
  lemma {:induction false} MaterialStays(w: World, run: seq<Step>, id: Id)
    requires Inv(w) && id in w.rows.custody && id !in w.preparations
    ensures
      var v := Run(w, run);
      && id in v.rows.custody
      && (v.rows.custody[id].material == w.rows.custody[id].material || v.rows.custody[id].material.None?)
    decreases |run|
  {
    hide Take;
    if run != [] {
      assert SoundRow(w, id, w.rows.custody[id]);
      TakeKeeps(w, run[0]);
      TakePreparations(w, run[0]);
      MaterialStays(Take(w, run[0]), run[1..], id);
    }
  }

  lemma MaterialFollows(w: World, run: seq<Step>, id: Id)
    requires Inv(w) && id in w.rows.custody
    ensures
      var v := Run(w, run);
      && id in v.rows.custody
      && var a := w.rows.custody[id].material;
      && var b := v.rows.custody[id].material;
      && (a.Some? && b.Some? && a != b ==>
            && id in v.preparations
            && IsRenewalMaterial(v.preparations[id], a.value)
            && IsRenewalMaterial(v.preparations[id], b.value))
  {
    hide Run, IsRenewalMaterial, Mirrored, Activations;
    hide Attached, SoundLog, SoundRetirement, SoundAttempts, SoundSnapshots;
    var v := Run(w, run);
    if id in w.preparations {
      RunKeeps(w, run);
      RunPreparations(w, run);
      assert SoundPreparation(w, id, w.preparations[id]);
      assert SoundPreparation(v, id, v.preparations[id]);
    } else {
      MaterialStays(w, run, id);
    }
  }

  /**
   * One step of any run changes what a row holds, short of erasing it, only by activating that
   * renewal, which merges, or by rejecting it when it was active, which brings back the credential as issued.
   */
  lemma MaterialChangesOnlyInRenewals(revokes: bool, run: seq<Step>, st: Step, id: Id)
    requires id in Run(Initial(revokes), run).rows.custody
    ensures
      var w := Run(Initial(revokes), run);
      var v := Take(w, st);
      && id in v.rows.custody
      && var a := w.rows.custody[id];
      && var b := v.rows.custody[id];
      && (a.material == b.material || b.material.None?
          || (id in w.preparations && Overwrites(w.preparations[id], a, b)))
  {
    hide Run, Take, Inv, Overwrites;
    ReachableInv(revokes, run);
    TakeKeeps(Run(Initial(revokes), run), st);
  }

  /** What an authorization obtained stays as issued until it is erased; a renewal's row holds what
      was issued or that merged with what it replaced. */
  lemma MaterialIsGenuine(revokes: bool, run: seq<Step>, id: Id)
    requires var w := Run(Initial(revokes), run); id in w.rows.custody && w.rows.custody[id].material.Some?
    ensures
      var w := Run(Initial(revokes), run);
      && (id in w.attempts ==> w.rows.custody[id].material == Some(w.attempts[id].issued.credential))
      && (id in w.preparations ==> IsRenewalMaterial(w.preparations[id], w.rows.custody[id].material.value))
  {
    hide Run, Mirrored, Activations, Attached, SoundCustody, SoundLog, SoundRetirement, SoundSnapshots, SoundQueue;
    var w := Run(Initial(revokes), run);
    ReachableInv(revokes, run);
    if id in w.attempts {
      assert SoundAttempt(w, id, w.attempts[id]);
    }
    if id in w.preparations {
      assert SoundPreparation(w, id, w.preparations[id]);
    }
  }

  /** A cleanup once queued is in the queue or in custody, whatever two movers do with it. */
  lemma QueuedCleanupIsNeverLost(revokes: bool, run: seq<Step>, q: QueuedCleanup)
    requires q in Run(Initial(revokes), run).queuedSeen
    ensures var r := Run(Initial(revokes), run).rows; q.id in r.queue || q.id in r.custody
  {
    ReachableInv(revokes, run);
  }
}
