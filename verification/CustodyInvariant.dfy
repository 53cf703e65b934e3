/**
 * What every step of the connection lifecycle keeps: an enabled connection is attached to the
 * active custody row of its own generation, a disabled one to the row being cleaned up, and every
 * snapshot a worker may still hold is harmless.
 */
module CustodyInvariant {
  import opened Options
  import opened ConnectionRecords
  import opened ConnectionSections
  import opened LifecycleSteps

  predicate IsCleanup(state: CustodyState) {
    state in {CleanupPending, CleanupComplete, CleanupPermanentFailure}
  }

  /** The revocation state of a disabled connection against the state of its custody row. */
  predicate InStep(revocation: RevocationState, state: CustodyState) {
    match state
    case CleanupPending => revocation == Pending
    case CleanupComplete => revocation == Complete
    case CleanupPermanentFailure => revocation == PermanentFailure
    case _ => false
  }

  predicate IsPointer(w: World, k: Principal, id: Id) {
    k in w.rows.connections && w.rows.connections[k].custodyId == Some(id)
  }

  /** A connection row, its custody row and its activation log agree. */
  ghost predicate AttachedAt(c: Connection, custody: map<Id, Custody>, log: seq<Activation>, revokes: bool) {
    && c.generation == |log|
    && (c.generation == 0 ==>
          && c.custodyId.None?
          && c.envelope.None?
          && !c.activePresent
          && !c.renewalPresent
          && c.revocation == if c.disabledAt.Some? then Complete else NotRevoked)
    && (c.generation >= 1 ==>
          && c.custodyId == Some(log[|log| - 1].id)
          && c.custodyId.value in custody
          && var row := custody[c.custodyId.value];
          && row.principal == c.principal
          && row.generation == c.generation
          && (c.disabledAt.None? ==>
                && row.state == Active
                && row.material == c.envelope == Some(log[|log| - 1].credential)
                && c.activePresent
                && c.revocation == NotRevoked)
          && (c.disabledAt.Some? ==>
                && IsCleanup(row.state)
                && (if revokes then InStep(c.revocation, row.state) else c.revocation == Complete)))
  }

  ghost predicate Attached(w: World) {
    && (forall k :: k in w.rows.connections ==>
          && w.rows.connections[k].principal == k
          && AttachedAt(w.rows.connections[k], w.rows.custody, LogOf(w, k), w.revokes))
    && (forall k :: k in w.log && k !in w.rows.connections ==> w.log[k] == [])
  }

  ghost predicate SoundRow(w: World, id: Id, c: Custody) {
    && c.id == id
    && id in w.usedIds
    && (c.state in {Candidate, Active, Retired} ==> c.attempts == 0)
    && (c.material.None? <==> c.state in {Retired, CleanupComplete})
    && (c.state == Active ==>
          && c.principal in w.rows.connections
          && w.rows.connections[c.principal].disabledAt.None?
          && w.rows.connections[c.principal].generation >= 1)
  }

  ghost predicate SoundCustody(w: World) {
    forall id :: id in w.rows.custody ==> SoundRow(w, id, w.rows.custody[id])
  }

  /** Either credential string is kept, or the provider's answer blanked it. */
  predicate KeepsRenewal(before: Credential, after: Credential) {
    Present(before.renewal) ==> Present(after.renewal) || after.renewal == Some("")
  }

  predicate SucceededAt(log: seq<Activation>, i: nat, id: Id) {
    i + 1 < |log| && log[i].id == id && KeepsRenewal(log[i].credential, log[i + 1].credential)
  }

  ghost predicate SoundLog(w: World) {
    && (forall k, i :: k in w.log && 0 <= i < |w.log[k]| ==>
          && w.log[k][i].generation == i + 1
          && w.log[k][i].id in w.rows.custody
          && w.rows.custody[w.log[k][i].id].principal == k
          && w.rows.custody[w.log[k][i].id].state != Candidate)
    && (forall k, i, j :: k in w.log && 0 <= i < j < |w.log[k]| ==> w.log[k][i].id != w.log[k][j].id)
  }

  ghost predicate SoundRetirement(w: World) {
    forall id :: id in w.rows.custody && w.rows.custody[id].state == Retired ==>
      exists i: nat :: SucceededAt(LogOf(w, w.rows.custody[id].principal), i, id)
  }

  ghost predicate SoundAttempt(w: World, id: Id, a: Attempt) {
    && a.candidate.id == id
    && a.candidate.state == Candidate
    && a.candidate.attempts == 0
    && a.candidate.material == Some(a.issued.credential)
    && id !in w.preparations
    && id in w.rows.custody
    && w.rows.custody[id].principal == a.candidate.principal
    && (w.rows.custody[id].state == Candidate ==> w.rows.custody[id] == a.candidate)
    && (w.rows.custody[id].material.Some? ==> w.rows.custody[id].material == a.candidate.material)
    && (a.progress in {Saved, Unwanted, UnwantedActive} ==> !IsPointer(w, a.candidate.principal, id))
  }

  ghost predicate SoundAttempts(w: World) {
    forall id :: id in w.attempts ==> SoundAttempt(w, id, w.attempts[id])
  }

  function Merged(p: Preparation): Credential {
    MergeRotatedCredential(Decrypted(p.current), p.renewed)
  }

  /** A renewal's row holds what the provider issued, or that merged with what it replaces. */
  predicate IsRenewalMaterial(p: Preparation, credential: Credential) {
    credential == p.renewed || credential == Merged(p)
  }

  ghost predicate SoundPreparation(w: World, id: Id, p: Preparation) {
    && p.candidate.id == id
    && id in w.usedIds
    && p.candidate.state == Candidate
    && p.candidate.attempts == 0
    && p.candidate.material == Some(p.renewed)
    && p.candidate.generation == p.current.generation + 1
    && p.current.principal == p.candidate.principal
    && p.current.envelope.Some?
    && p.current.disabledAt.None?
    && p.current.generation >= 1
    && (id in w.rows.custody ==>
          && w.rows.custody[id].principal == p.candidate.principal
          && (w.rows.custody[id].state == Candidate ==> w.rows.custody[id] == p.candidate)
          && (w.rows.custody[id].state == Active ==> w.rows.custody[id].material == Some(Merged(p)))
          && (w.rows.custody[id].material.Some? ==> IsRenewalMaterial(p, w.rows.custody[id].material.value)))
    && p.candidate.principal in w.rows.connections
    && var c := w.rows.connections[p.candidate.principal];
    && p.current.generation <= c.generation
    && (p.current.generation == c.generation && c.disabledAt.None? ==> c.envelope == p.current.envelope)
  }

  ghost predicate SoundPreparations(w: World) {
    forall id :: id in w.preparations ==> SoundPreparation(w, id, w.preparations[id])
  }

  /** A stale snapshot that would still pass its compare-and-set equals the stored row. */
  ghost predicate Harmless(r: Custody, custody: map<Id, Custody>) {
    && r.id in custody
    && var now := custody[r.id];
    && r.principal == now.principal
    && r.attempts <= now.attempts
    && (r.state == Candidate && now.state == Candidate ==> r == now)
    && (r.state == CleanupPending ==> IsCleanup(now.state))
    && (r.state == CleanupPending && now.state == CleanupPending && r.attempts == now.attempts ==> r == now)
  }

  ghost predicate SoundSnapshots(w: World) {
    forall r :: r in w.seen ==> Harmless(r, w.rows.custody)
  }

  ghost predicate SoundQueue(w: World) {
    && (forall q :: q in w.queuedSeen ==>
          && q.id in w.usedIds
          && q.id !in w.attempts
          && q.id !in w.preparations
          && (q.id in w.rows.queue || q.id in w.rows.custody))
    && (forall id :: id in w.moved ==> id in w.rows.custody)
  }

  ghost predicate Sound(w: World) {
    && Attached(w)
    && SoundCustody(w)
    && SoundLog(w)
    && SoundRetirement(w)
    && SoundAttempts(w)
    && SoundPreparations(w)
    && SoundSnapshots(w)
    && SoundQueue(w)
  }

  // ---------------------------------------------------------------- what rows may do

  /** The moves a custody row can make; the three terminal states are absorbing. */
  ghost predicate RowShift(a: Custody, b: Custody) {
    && b.id == a.id
    && b.principal == a.principal
    && a.attempts <= b.attempts
    && (b.state == Candidate ==> b == a)
    && (b.state == Active ==> a.state == Candidate || b == a)
    && (a.state in {CleanupComplete, CleanupPermanentFailure, Retired} ==> b == a)
    && (a.state == CleanupPending ==>
          && IsCleanup(b.state)
          && (b.state == CleanupPending && b.attempts == a.attempts ==> b == a))
    && (b.state == Retired && a.state != Retired ==> a.state in {Candidate, Active})
  }

  ghost predicate CustodyShift(a: map<Id, Custody>, b: map<Id, Custody>) {
    forall id :: id in a ==> id in b && RowShift(a[id], b[id])
  }

  /** Under one generation an enabled connection keeps its credential and was enabled before. */
  ghost predicate ConnectionShift(a: map<Principal, Connection>, b: map<Principal, Connection>) {
    forall k :: k in a ==>
      && k in b
      && a[k].generation <= b[k].generation
      && (a[k].generation == b[k].generation && b[k].disabledAt.None? ==>
            a[k].disabledAt.None? && a[k].envelope == b[k].envelope)
  }

  /** No callback that may still withdraw its candidate sees it become a pointer. */
  ghost predicate PointerShift(w: World, v: World) {
    forall k, id :: IsPointer(v, k, id) && !IsPointer(w, k, id) && id in v.attempts ==>
      v.attempts[id].progress in {Errored, Finished}
  }

  /** What a renewal's row may come to hold instead: the merged credential when it is activated,
      and the credential as issued when it is rejected after that. */
  predicate Overwrites(p: Preparation, a: Custody, b: Custody) {
    || (a.state == Candidate && b.state == Active && b.material == Some(Merged(p)))
    || (a.state == Active && b.state == CleanupPending && b.material == Some(p.renewed))
  }

  /** Material is kept as it is or erased; only a renewal's own row may change what it holds. */
  ghost predicate MaterialShift(w: World, v: World) {
    forall id :: id in w.rows.custody && id in v.rows.custody ==>
      || v.rows.custody[id].material == w.rows.custody[id].material
      || v.rows.custody[id].material.None?
      || (id in w.preparations && Overwrites(w.preparations[id], w.rows.custody[id], v.rows.custody[id]))
  }

  /** The state in which an activated renewal's row holds the merged credential. */
  ghost predicate MergeShift(w: World, v: World) {
    forall id :: id in w.rows.custody && id in v.rows.custody && id in w.preparations
                 && w.rows.custody[id].state == Candidate && v.rows.custody[id].state == Active ==>
      v.rows.custody[id].material == Some(Merged(w.preparations[id]))
  }

  /** New connection rows are disabled or belong to an activated generation. */
  ghost predicate Appears(a: map<Principal, Connection>, b: map<Principal, Connection>) {
    forall k :: k in b && k !in a ==> b[k].disabledAt.Some? || b[k].generation >= 1
  }

  /** The tables: rows and log. */
  ghost predicate SoundTables(w: World) {
    Attached(w) && SoundCustody(w) && SoundLog(w) && SoundRetirement(w)
  }

  ghost predicate Handled(w: World, v: World) {
    && v.attempts == w.attempts
    && v.preparations == w.preparations
    && v.queuedSeen == w.queuedSeen
    && v.moved == w.moved
    && v.seen == w.seen
    && w.usedIds == v.usedIds
    && v.rows.queue == w.rows.queue
    && CustodyShift(w.rows.custody, v.rows.custody)
    && ConnectionShift(w.rows.connections, v.rows.connections)
    && PointerShift(w, v)
    && MaterialShift(w, v)
    && MergeShift(w, v)
    && forall id :: id in v.rows.custody && id !in w.rows.custody && id in w.preparations ==>
         v.rows.custody[id] == w.preparations[id].candidate
  }

  lemma AttemptsShift(w: World, v: World)
    requires SoundAttempts(w) && Handled(w, v)
    ensures SoundAttempts(v)
  {
    forall id | id in v.attempts
      ensures SoundAttempt(v, id, v.attempts[id])
    {
      assert SoundAttempt(w, id, w.attempts[id]);
      assert RowShift(w.rows.custody[id], v.rows.custody[id]);
    }
  }

  lemma PreparationsShift(w: World, v: World)
    requires SoundPreparations(w) && Handled(w, v)
    ensures SoundPreparations(v)
  {
    forall id | id in v.preparations
      ensures SoundPreparation(v, id, v.preparations[id])
    {
      assert SoundPreparation(w, id, w.preparations[id]);
    }
  }

  lemma SnapshotsShift(w: World, v: World)
    requires SoundSnapshots(w) && Handled(w, v)
    ensures SoundSnapshots(v)
  {
    forall r | r in v.seen
      ensures Harmless(r, v.rows.custody)
    {
      assert Harmless(r, w.rows.custody);
      assert RowShift(w.rows.custody[r.id], v.rows.custody[r.id]);
    }
  }

  /** Everything the roles still hold stays sound when rows make only such moves. */
  lemma HandlesShift(w: World, v: World)
    requires Sound(w) && Handled(w, v) && SoundTables(v)
    ensures Sound(v)
  {
    AttemptsShift(w, v);
    PreparationsShift(w, v);
    SnapshotsShift(w, v);
  }

  lemma LogShift(w: World, v: World)
    requires SoundLog(w) && SoundRetirement(w) && v.log == w.log
    requires CustodyShift(w.rows.custody, v.rows.custody)
    requires forall id :: id in v.rows.custody && v.rows.custody[id].state == Retired ==>
               id in w.rows.custody && w.rows.custody[id].state == Retired
    ensures SoundLog(v) && SoundRetirement(v)
  {
    forall id | id in v.rows.custody && v.rows.custody[id].state == Retired
      ensures exists i: nat :: SucceededAt(LogOf(v, v.rows.custody[id].principal), i, id)
    {
      assert RowShift(w.rows.custody[id], v.rows.custody[id]);
      assert LogOf(v, v.rows.custody[id].principal) == LogOf(w, w.rows.custody[id].principal);
    }
  }

  lemma Shifted(w: World, v: World)
    requires Sound(w) && v.log == w.log
    requires Handled(w, v) && Attached(v) && SoundCustody(v)
    requires forall id :: id in v.rows.custody && v.rows.custody[id].state == Retired ==>
               id in w.rows.custody && w.rows.custody[id].state == Retired
    ensures Sound(v)
  {
    LogShift(w, v);
    HandlesShift(w, v);
  }

  /** Only rows of `k` changed, and its own connection is attached. */
  lemma OthersAttached(w: World, v: World, k: Principal)
    requires Attached(w) && v.revokes == w.revokes
    requires forall j :: j != k && j in v.rows.connections ==>
               j in w.rows.connections && v.rows.connections[j] == w.rows.connections[j]
    requires forall j :: j != k ==> LogOf(v, j) == LogOf(w, j)
    requires forall id :: id in w.rows.custody && w.rows.custody[id].principal != k ==>
               id in v.rows.custody && v.rows.custody[id] == w.rows.custody[id]
    requires k in v.rows.connections ==>
               && v.rows.connections[k].principal == k
               && AttachedAt(v.rows.connections[k], v.rows.custody, LogOf(v, k), v.revokes)
    requires forall j :: j in v.log && j !in v.rows.connections ==> v.log[j] == []
    ensures Attached(v)
  {
    forall j | j in v.rows.connections && j != k
      ensures v.rows.connections[j].principal == j
      ensures AttachedAt(v.rows.connections[j], v.rows.custody, LogOf(v, j), v.revokes)
    {
      assert AttachedAt(w.rows.connections[j], w.rows.custody, LogOf(w, j), w.revokes);
    }
  }

  // ---------------------------------------------------------------- a connection row touched

  /** A connection row changed in nothing but its presentation and its date. */
  predicate SameStanding(c: Connection, d: Connection) {
    && d.principal == c.principal
    && d.generation == c.generation
    && d.custodyId == c.custodyId
    && d.envelope == c.envelope
    && d.activePresent == c.activePresent
    && d.renewalPresent == c.renewalPresent
    && d.disabledAt.Some? == c.disabledAt.Some?
    && d.revocation == c.revocation
  }

  ghost predicate Touched(w: World, v: World, k: Principal) {
    && k in w.rows.connections
    && k in v.rows.connections
    && v == w.(rows := v.rows)
    && v.rows.connections == w.rows.connections[k := v.rows.connections[k]]
    && SameStanding(w.rows.connections[k], v.rows.connections[k])
    && v.rows.queue == w.rows.queue
    && v.rows.custody == w.rows.custody
  }

  lemma TouchedAttached(w: World, v: World, k: Principal)
    requires Attached(w) && Touched(w, v, k)
    ensures Attached(v)
  {
    forall j | j in v.rows.connections
      ensures AttachedAt(v.rows.connections[j], v.rows.custody, LogOf(v, j), v.revokes)
    {
      assert AttachedAt(w.rows.connections[j], w.rows.custody, LogOf(w, j), w.revokes);
    }
  }

  lemma TouchedCustody(w: World, v: World, k: Principal)
    requires SoundCustody(w) && Touched(w, v, k)
    ensures SoundCustody(v)
  {
  }

  lemma TouchedHandled(w: World, v: World, k: Principal)
    requires Touched(w, v, k)
    ensures Handled(w, v)
  {
  }

  lemma TouchedSound(w: World, v: World, k: Principal)
    requires Sound(w) && Touched(w, v, k)
    ensures Sound(v) && CustodyShift(w.rows.custody, v.rows.custody) && MaterialShift(w, v)
    ensures Appears(w.rows.connections, v.rows.connections)
  {
    TouchedAttached(w, v, k);
    TouchedCustody(w, v, k);
    TouchedHandled(w, v, k);
    Shifted(w, v);
  }

  // ---------------------------------------------------------------- a refusal stored as a connection

  /** A row of generation 0, without custody and without credentials, for a principal that had none. */
  ghost predicate Planted(w: World, v: World, k: Principal) {
    && k !in w.rows.connections
    && k in v.rows.connections
    && v == w.(rows := v.rows)
    && v.rows.connections == w.rows.connections[k := v.rows.connections[k]]
    && v.rows.queue == w.rows.queue
    && v.rows.custody == w.rows.custody
    && var c := v.rows.connections[k];
    && c.principal == k
    && c.generation == 0
    && c.custodyId.None?
    && c.envelope.None?
    && !c.activePresent
    && !c.renewalPresent
    && c.disabledAt.None?
    && c.revocation == NotRevoked
  }

  lemma PlantedAttached(w: World, v: World, k: Principal)
    requires Attached(w) && Planted(w, v, k)
    ensures Attached(v)
  {
    assert LogOf(v, k) == [];
    forall j | j in v.rows.connections && j != k
      ensures AttachedAt(v.rows.connections[j], v.rows.custody, LogOf(v, j), v.revokes)
    {
      assert AttachedAt(w.rows.connections[j], w.rows.custody, LogOf(w, j), w.revokes);
    }
  }

  lemma PlantedCustody(w: World, v: World, k: Principal)
    requires SoundCustody(w) && Planted(w, v, k)
    ensures SoundCustody(v) && Handled(w, v)
  {
    forall id | id in v.rows.custody
      ensures SoundRow(v, id, v.rows.custody[id])
    {
      assert SoundRow(w, id, w.rows.custody[id]);
    }
  }

  lemma PlantedSound(w: World, v: World, k: Principal)
    requires Sound(w) && Planted(w, v, k)
    ensures Sound(v) && CustodyShift(w.rows.custody, v.rows.custody) && MaterialShift(w, v)
  {
    PlantedAttached(w, v, k);
    PlantedCustody(w, v, k);
    Shifted(w, v);
  }

  // ---------------------------------------------------------------- a custody row added or queued

  /** A custody row added, or one no connection points at queued for cleanup. */
  ghost predicate RowReplaced(w: World, v: World, id: Id) {
    && v == w.(rows := v.rows)
    && v.rows.connections == w.rows.connections
    && v.rows.queue == w.rows.queue
    && id in v.rows.custody
    && v.rows.custody == w.rows.custody[id := v.rows.custody[id]]
    && SoundRow(v, id, v.rows.custody[id])
    && (if id in w.rows.custody then
          && w.rows.custody[id].state in {Candidate, Active}
          && !IsPointer(w, w.rows.custody[id].principal, id)
          && v.rows.custody[id].principal == w.rows.custody[id].principal
          && v.rows.custody[id].state == CleanupPending
          && (|| v.rows.custody[id].material == w.rows.custody[id].material
              || (&& id in w.preparations
                  && w.rows.custody[id].state == Active
                  && v.rows.custody[id].material == Some(w.preparations[id].renewed)))
        else
          && v.rows.custody[id].state in {Candidate, CleanupPending}
          && (id in w.preparations ==> v.rows.custody[id] == w.preparations[id].candidate))
  }

  lemma ReplacedAttached(w: World, v: World, id: Id)
    requires Attached(w) && RowReplaced(w, v, id)
    ensures Attached(v)
  {
    forall k | k in v.rows.connections
      ensures AttachedAt(v.rows.connections[k], v.rows.custody, LogOf(v, k), v.revokes)
    {
      assert AttachedAt(w.rows.connections[k], w.rows.custody, LogOf(w, k), w.revokes);
    }
  }

  lemma ReplacedHandled(w: World, v: World, id: Id)
    requires SoundCustody(w) && RowReplaced(w, v, id)
    ensures Handled(w, v)
  {
  }

  lemma ReplacedSound(w: World, v: World, id: Id)
    requires Sound(w) && RowReplaced(w, v, id)
    ensures Sound(v) && CustodyShift(w.rows.custody, v.rows.custody) && MaterialShift(w, v)
    ensures Appears(w.rows.connections, v.rows.connections)
  {
    ReplacedAttached(w, v, id);
    ReplacedHandled(w, v, id);
    Shifted(w, v);
  }

  // ---------------------------------------------------------------- a cleanup finished

  /** A pending cleanup moves on, and with it the disabled connection that points at the row. */
  ghost predicate Cleaned(w: World, v: World, id: Id, k: Principal) {
    && v == w.(rows := v.rows)
    && v.rows.queue == w.rows.queue
    && id in w.rows.custody
    && id in v.rows.custody
    && v.rows.custody == w.rows.custody[id := v.rows.custody[id]]
    && w.rows.custody[id].state == CleanupPending
    && w.rows.custody[id].principal == k
    && SoundRow(w, id, v.rows.custody[id])
    && v.rows.custody[id].principal == k
    && v.rows.custody[id].generation == w.rows.custody[id].generation
    && v.rows.custody[id].attempts == w.rows.custody[id].attempts + 1
    && IsCleanup(v.rows.custody[id].state)
    && (v.rows.custody[id].material.None? || v.rows.custody[id].material == w.rows.custody[id].material)
    && (|| (v.rows.connections == w.rows.connections && (IsPointer(w, k, id) ==> !w.revokes))
        || (&& IsPointer(w, k, id)
          && k in v.rows.connections
          && v.rows.connections == w.rows.connections[k := v.rows.connections[k]]
          && v.rows.connections[k].principal == k
          && v.rows.connections[k].generation == w.rows.connections[k].generation
          && v.rows.connections[k].custodyId == Some(id)
          && w.rows.connections[k].disabledAt.Some?
          && v.rows.connections[k].disabledAt.Some?
          && w.revokes
          && InStep(v.rows.connections[k].revocation, v.rows.custody[id].state)))
  }

  lemma CleanedSelf(w: World, v: World, id: Id, k: Principal)
    requires Attached(w) && Cleaned(w, v, id, k) && k in v.rows.connections
    ensures v.rows.connections[k].principal == k
    ensures AttachedAt(v.rows.connections[k], v.rows.custody, LogOf(v, k), v.revokes)
  {
    hide SoundRow;
    assert AttachedAt(w.rows.connections[k], w.rows.custody, LogOf(w, k), w.revokes);
  }

  lemma CleanedAttached(w: World, v: World, id: Id, k: Principal)
    requires Attached(w) && Cleaned(w, v, id, k)
    ensures Attached(v)
  {
    hide SoundRow, InStep, AttachedAt;
    if k in v.rows.connections {
      CleanedSelf(w, v, id, k);
    }
    OthersAttached(w, v, k);
  }

  lemma CleanedCustodySound(w: World, v: World, id: Id, k: Principal)
    requires SoundCustody(w) && Cleaned(w, v, id, k)
    ensures SoundCustody(v)
  {
  }

  lemma CleanedHandled(w: World, v: World, id: Id, k: Principal)
    requires SoundCustody(w) && Cleaned(w, v, id, k)
    ensures Handled(w, v)
  {
  }

  lemma CleanedSound(w: World, v: World, id: Id, k: Principal)
    requires Sound(w) && Cleaned(w, v, id, k)
    ensures Sound(v) && CustodyShift(w.rows.custody, v.rows.custody) && MaterialShift(w, v)
    ensures Appears(w.rows.connections, v.rows.connections)
  {
    CleanedAttached(w, v, id, k);
    CleanedCustodySound(w, v, id, k);
    CleanedHandled(w, v, id, k);
    Shifted(w, v);
  }

  // ---------------------------------------------------------------- a principal disconnected

  /** The row that a disconnect writes, against the row it found. */
  ghost predicate Disconnects(r: Rows, k: Principal, d: Connection, revokes: bool) {
    && d.principal == k
    && d.disabledAt.Some?
    && (d.generation == 0 ==> d.envelope.None? && !d.activePresent && !d.renewalPresent)
    && (k !in r.connections ==> d.generation == 0 && d.custodyId.None? && d.revocation == Complete)
    && (k in r.connections ==>
          var c := r.connections[k];
          && d.generation == c.generation
          && d.custodyId == c.custodyId
          && d.revocation == if c.disabledAt.Some? then c.revocation
                             else if revokes && c.generation >= 1 then Pending
                             else Complete)
  }

  ghost predicate Detached(w: World, v: World, k: Principal) {
    && v == w.(rows := v.rows)
    && v.rows.queue == w.rows.queue
    && v.rows.custody == Handoff(w.rows.custody, k)
    && k in v.rows.connections
    && v.rows.connections == w.rows.connections[k := v.rows.connections[k]]
    && Disconnects(w.rows, k, v.rows.connections[k], w.revokes)
  }

  lemma DetachedSelf(w: World, v: World, k: Principal)
    requires Attached(w) && SoundCustody(w) && Detached(w, v, k)
    ensures AttachedAt(v.rows.connections[k], v.rows.custody, LogOf(v, k), v.revokes)
  {
    if k in w.rows.connections {
      assert AttachedAt(w.rows.connections[k], w.rows.custody, LogOf(w, k), w.revokes);
    }
  }

  lemma DetachedAttached(w: World, v: World, k: Principal)
    requires Attached(w) && SoundCustody(w) && Detached(w, v, k)
    ensures Attached(v)
  {
    hide AttachedAt, SoundCustody;
    DetachedSelf(w, v, k);
    OthersAttached(w, v, k);
  }

  lemma DetachedCustody(w: World, v: World, k: Principal)
    requires SoundCustody(w) && Detached(w, v, k)
    ensures SoundCustody(v)
  {
  }

  lemma DetachedHandled(w: World, v: World, k: Principal)
    requires SoundCustody(w) && Detached(w, v, k)
    ensures Handled(w, v)
  {
  }

  lemma DetachedSound(w: World, v: World, k: Principal)
    requires Sound(w) && Detached(w, v, k)
    ensures Sound(v) && CustodyShift(w.rows.custody, v.rows.custody) && MaterialShift(w, v)
    ensures Appears(w.rows.connections, v.rows.connections)
  {
    DetachedAttached(w, v, k);
    DetachedCustody(w, v, k);
    DetachedHandled(w, v, k);
    Shifted(w, v);
  }

  // ---------------------------------------------------------------- a generation activated

  /** A candidate becomes the active row of the connection; a renewal also retires the row before it. */
  ghost predicate Activated(w: World, v: World, k: Principal, id: Id, retired: Option<Id>) {
    && v == w.(rows := v.rows, log := v.log)
    && v.rows.queue == w.rows.queue
    && id in w.rows.custody
    && w.rows.custody[id].state == Candidate
    && w.rows.custody[id].principal == k
    && id in v.rows.custody
    && (retired.Some? ==>
          && retired.value != id
          && IsPointer(w, k, retired.value)
          && w.rows.connections[k].disabledAt.None?
          && retired.value in w.rows.custody)
    && v.rows.custody == (if retired.Some? then
                            w.rows.custody[id := v.rows.custody[id]]
                            [retired.value := RetiredCustody(w.rows.custody[retired.value])]
                          else w.rows.custody[id := v.rows.custody[id]])
    && k in v.rows.connections
    && v.rows.connections == w.rows.connections[k := v.rows.connections[k]]
    && var c := v.rows.connections[k];
    && var row := v.rows.custody[id];
    && row.id == id && row.principal == k && row.state == Active && row.attempts == 0
    && row.generation == c.generation
    && row.material == c.envelope && c.envelope.Some?
    && (if id in w.preparations then row.material == Some(Merged(w.preparations[id]))
        else row.material == w.rows.custody[id].material)
    && c.principal == k
    && c.generation == (if k in w.rows.connections then w.rows.connections[k].generation else 0) + 1
    && c.custodyId == Some(id)
    && c.disabledAt.None? && c.revocation == NotRevoked && c.activePresent
    && v.log == w.log[k := LogOf(w, k) + [Activation(id, c.generation, c.envelope.value)]]
    && (id in w.attempts ==> w.attempts[id].progress in {Errored, Finished})
    && (retired.Some? ==>
          && LogOf(w, k) != []
          && KeepsRenewal(LogOf(w, k)[|LogOf(w, k)| - 1].credential, c.envelope.value))
  }

  lemma ActivatedSelf(w: World, v: World, k: Principal, id: Id, retired: Option<Id>)
    requires Attached(w) && Activated(w, v, k, id, retired)
    ensures AttachedAt(v.rows.connections[k], v.rows.custody, LogOf(v, k), v.revokes)
  {
    hide KeepsRenewal, IsRenewalMaterial;
    if k in w.rows.connections {
      assert AttachedAt(w.rows.connections[k], w.rows.custody, LogOf(w, k), w.revokes);
    }
  }

  lemma ActivatedAttached(w: World, v: World, k: Principal, id: Id, retired: Option<Id>)
    requires Attached(w) && Activated(w, v, k, id, retired)
    ensures Attached(v)
  {
    hide KeepsRenewal, Merged, RetiredCustody, AttachedAt;
    ActivatedSelf(w, v, k, id, retired);
    if retired.Some? {
      RetiredWasActive(w, v, k, id, retired.value);
    }
    OthersAttached(w, v, k);
  }

  lemma ActivatedRows(w: World, v: World, k: Principal, id: Id, retired: Option<Id>)
    requires Attached(w) && SoundCustody(w) && Activated(w, v, k, id, retired)
    ensures SoundCustody(v)
  {
    hide KeepsRenewal, AttachedAt, Merged;
    if retired.Some? {
      RetiredWasActive(w, v, k, id, retired.value);
    }
    forall i | i in v.rows.custody
      ensures SoundRow(v, i, v.rows.custody[i])
    {
      assert SoundRow(w, i, w.rows.custody[i]);
    }
  }

  lemma ActivatedCount(w: World, v: World, k: Principal, id: Id, retired: Option<Id>)
    requires Attached(w) && Activated(w, v, k, id, retired)
    ensures v.rows.connections[k].generation == |LogOf(w, k)| + 1
  {
    hide KeepsRenewal, IsRenewalMaterial, RetiredCustody;
    if k in w.rows.connections {
      assert AttachedAt(w.rows.connections[k], w.rows.custody, LogOf(w, k), w.revokes);
    }
  }

  lemma ActivatedLog(w: World, v: World, k: Principal, id: Id, retired: Option<Id>)
    requires Attached(w) && SoundLog(w) && Activated(w, v, k, id, retired)
    ensures SoundLog(v)
  {
    hide Attached, KeepsRenewal, IsRenewalMaterial;
    ActivatedCount(w, v, k, id, retired);
    assert LogOf(w, k) != [] ==> k in w.log;
  }

  lemma RetirementIs(w: World, v: World, k: Principal, id: Id, retired: Option<Id>)
    requires Activated(w, v, k, id, retired)
    ensures forall r :: r in v.rows.custody && v.rows.custody[r].state == Retired ==>
              && r in w.rows.custody
              && v.rows.custody[r].principal == w.rows.custody[r].principal
              && (retired == Some(r) || w.rows.custody[r].state == Retired)
  {
    hide KeepsRenewal, Merged;
  }

  lemma RetiredSucceeds(w: World, v: World, k: Principal, id: Id, retired: Id)
    requires Attached(w) && Activated(w, v, k, id, Some(retired))
    ensures LogOf(w, k) != [] && SucceededAt(LogOf(v, k), |LogOf(w, k)| - 1, retired)
    ensures w.rows.custody[retired].principal == k
  {
    hide KeepsRenewal, Merged, RetiredCustody;
    assert AttachedAt(w.rows.connections[k], w.rows.custody, LogOf(w, k), w.revokes);
  }

  lemma ActivatedRetirement(w: World, v: World, k: Principal, id: Id, retired: Option<Id>)
    requires Attached(w) && SoundRetirement(w) && Activated(w, v, k, id, retired)
    ensures SoundRetirement(v)
  {
    hide KeepsRenewal, Merged, RetiredCustody, Attached;
    RetirementIs(w, v, k, id, retired);
    forall r | r in v.rows.custody && v.rows.custody[r].state == Retired
      ensures exists i: nat :: SucceededAt(LogOf(v, v.rows.custody[r].principal), i, r)
    {
      var owner := w.rows.custody[r].principal;
      if retired == Some(r) {
        RetiredSucceeds(w, v, k, id, r);
      } else {
        var i: nat :| SucceededAt(LogOf(w, owner), i, r);
        assert SucceededAt(LogOf(v, owner), i, r);
      }
    }
  }

  lemma RetiredWasActive(w: World, v: World, k: Principal, id: Id, retired: Id)
    requires Attached(w) && Activated(w, v, k, id, Some(retired))
    ensures w.rows.custody[retired].state == Active && w.rows.custody[retired].principal == k
  {
    hide KeepsRenewal, IsRenewalMaterial, RetiredCustody;
    assert AttachedAt(w.rows.connections[k], w.rows.custody, LogOf(w, k), w.revokes);
  }

  lemma ActivatedShift(w: World, v: World, k: Principal, id: Id, retired: Option<Id>)
    requires Attached(w) && SoundCustody(w) && Activated(w, v, k, id, retired)
    ensures CustodyShift(w.rows.custody, v.rows.custody) && MaterialShift(w, v)
  {
    hide Attached, KeepsRenewal, IsRenewalMaterial;
    if retired.Some? {
      RetiredWasActive(w, v, k, id, retired.value);
    }
  }

  lemma ActivatedHandled(w: World, v: World, k: Principal, id: Id, retired: Option<Id>)
    requires Attached(w) && SoundCustody(w) && Activated(w, v, k, id, retired)
    ensures Handled(w, v)
  {
    hide Attached, SoundCustody, CustodyShift, MaterialShift, MergeShift, ConnectionShift, PointerShift, KeepsRenewal;
    ActivatedShift(w, v, k, id, retired);
    ActivatedPointer(w, v, k, id, retired);
    ActivatedMerge(w, v, k, id, retired);
  }

  lemma ActivatedPointer(w: World, v: World, k: Principal, id: Id, retired: Option<Id>)
    requires Activated(w, v, k, id, retired)
    ensures ConnectionShift(w.rows.connections, v.rows.connections) && PointerShift(w, v)
  {
    hide KeepsRenewal, Merged, RetiredCustody;
  }

  lemma ActivatedMerge(w: World, v: World, k: Principal, id: Id, retired: Option<Id>)
    requires Activated(w, v, k, id, retired)
    ensures MergeShift(w, v)
  {
    hide KeepsRenewal, Merged;
  }

  lemma ActivatedSound(w: World, v: World, k: Principal, id: Id, retired: Option<Id>)
    requires Sound(w) && Activated(w, v, k, id, retired)
    ensures Sound(v) && CustodyShift(w.rows.custody, v.rows.custody) && MaterialShift(w, v)
    ensures Appears(w.rows.connections, v.rows.connections)
  {
    ActivatedAttached(w, v, k, id, retired);
    ActivatedRows(w, v, k, id, retired);
    ActivatedLog(w, v, k, id, retired);
    ActivatedRetirement(w, v, k, id, retired);
    ActivatedHandled(w, v, k, id, retired);
    HandlesShift(w, v);
  }

  // ---------------------------------------------------------------- what the roles hold

  /** Tables and snapshots do not depend on what the roles hold. */
  lemma TablesFrame(w: World, v: World)
    requires SoundTables(w) && SoundSnapshots(w)
    requires v == w.(attempts := v.attempts, preparations := v.preparations)
    ensures SoundTables(v) && SoundSnapshots(v)
  {
  }

  lemma AttemptsWith(w: World, v: World, id: Id)
    requires SoundAttempts(w) && id in v.attempts
    requires v == w.(attempts := w.attempts[id := v.attempts[id]]) && SoundAttempt(w, id, v.attempts[id])
    ensures SoundAttempts(v)
  {
    forall i | i in v.attempts
      ensures SoundAttempt(v, i, v.attempts[i])
    {
      assert i != id ==> SoundAttempt(w, i, w.attempts[i]);
    }
  }

  lemma PreparationsFrame(w: World, v: World)
    requires SoundPreparations(w) && v == w.(attempts := v.attempts)
    ensures SoundPreparations(v)
  {
    forall i | i in v.preparations
      ensures SoundPreparation(v, i, v.preparations[i])
    {
      assert SoundPreparation(w, i, w.preparations[i]);
    }
  }

  lemma ProgressMade(w: World, id: Id, progress: Progress)
    requires Sound(w) && id in w.attempts
    requires progress in {Unwanted, UnwantedActive, Saved} ==> !IsPointer(w, w.attempts[id].candidate.principal, id)
    ensures Sound(Progressed(w, id, progress))
  {
    var v := Progressed(w, id, progress);
    assert SoundAttempt(w, id, w.attempts[id]);
    TablesFrame(w, v);
    AttemptsWith(w, v, id);
    PreparationsFrame(w, v);
  }
}
