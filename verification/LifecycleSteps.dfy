/**
 * The connection lifecycle as a transition system. Authorization callbacks, renewals,
 * disconnects and cleanup workers interleave at lock and compare-and-set boundaries;
 * a worker may act on any custody row value that was ever stored.
 */
module LifecycleSteps {
  import opened Options
  import opened ConnectionRecords
  import opened ConnectionSections

  /** What the caller of a locked section learns: rolled back, or committed with the reply lost. */
  datatype Fault = NoFault | RolledBack | ReplyLost

  /** Where an authorization callback stands with its candidate. */
  datatype Progress =
    | Saved           // candidate stored, activation not yet tried
    | Errored         // the activation section ended in an error
    | Unwanted        // to be withdrawn: first compare-and-set not yet tried
    | UnwantedActive  // first compare-and-set failed
    | Finished

  datatype Attempt = Attempt(
    candidate: Custody,
    issued: Issued,
    requiredScopes: seq<string>,
    guard: Option<ActivationGuard>,
    progress: Progress)

  datatype Activation = Activation(id: Id, generation: nat, credential: Credential)

  /**
   * `seen` and `observed` hold every custody and connection row value ever stored, `log` the
   * activations of each principal in order; they only record what happened. `revokes` is the
   * provider's revocation capability.
   */
  datatype World = World(
    revokes: bool,
    rows: Rows,
    clock: Time,
    attempts: map<Id, Attempt>,
    preparations: map<Id, Preparation>,
    usedIds: set<Id>,
    queuedSeen: set<QueuedCleanup>,
    moved: set<Id>,
    seen: set<Custody>,
    observed: set<Connection>,
    log: map<Principal, seq<Activation>>)

  function Initial(revokes: bool): World {
    World(revokes, EMPTY_ROWS, 0, map[], map[], {}, {}, {}, {}, {}, map[])
  }

  function LogOf(w: World, k: Principal): seq<Activation> {
    if k in w.log then w.log[k] else []
  }

  /** The authorization callback and its consent marker. */
  datatype CallbackStep =
    | MarkAuthorizing(k: Principal, marker: Marker)
    | ClearAuthorizing(k: Principal)
    | StartAuthorization(id: Id, k: Principal, email: string, issued: Issued, requiredScopes: seq<string>,
                         guard: Option<ActivationGuard>)
    | ActivateAuthorization(id: Id, fault: Fault, now: Time, wall: Time)
    | RefuseAuthorization(id: Id)
    | InspectAuthorization(id: Id, wall: Time)
    | WithdrawCandidate(id: Id)
    | WithdrawActive(id: Id)

  datatype RenewalStep =
    | IssueRenewal(id: Id, k: Principal, email: string, renewed: Credential,
                   renewedScopes: Option<seq<string>>, stillFresh: bool, stored: bool, wall: Time)
    | ReacquireCustody(id: Id)
    | ActivateRenewal(id: Id, identity: Option<(string, string)>, now: Time, wall: Time)
    | RejectRenewal(id: Id, cause: Option<Category>, now: Time, wall: Time)
    | RefuseRenewalForScope(k: Principal, now: Time, wall: Time)
    | FailRenewal(k: Principal, phase: Phase, category: Category, now: Time, wall: Time)

  /** Disconnect, the cleanup worker and the queue older writers filled. */
  datatype CleanupStep =
    | DisconnectPrincipal(k: Principal, email: string, requiredScopes: seq<string>, newId: Id, now: Time, wall: Time)
    | PickUpCandidate(record: Custody)
    | FinishCleanup(record: Custody, result: RevocationResult, now: Time, wall: Time)
    | EnqueueCleanup(queued: QueuedCleanup)
    | MoveQueued(queued: QueuedCleanup)
    | DeleteQueued(id: Id)

  datatype MetadataStep =
    | BackfillAccount(initial: Connection, display: string, accountId: string, wall: Time)
    | RepairScope(k: Principal, usable: bool, now: Time, wall: Time)

  datatype Step =
    | Callback(callback: CallbackStep)
    | Renewal(renewal: RenewalStep)
    | Cleanup(cleanup: CleanupStep)
    | Metadata(metadata: MetadataStep)

  /** The clock reading a step makes, when it makes one. */
  function Reading(st: Step): Option<Time> {
    match st
    case Callback(ActivateAuthorization(_, _, now, _)) => Some(now)
    case Renewal(ActivateRenewal(_, _, now, _)) => Some(now)
    case Renewal(RejectRenewal(_, _, now, _)) => Some(now)
    case Renewal(RefuseRenewalForScope(_, now, _)) => Some(now)
    case Renewal(FailRenewal(_, _, _, now, _)) => Some(now)
    case Cleanup(DisconnectPrincipal(_, _, _, _, now, _)) => Some(now)
    case Cleanup(FinishCleanup(_, _, now, _)) => Some(now)
    case Metadata(RepairScope(_, _, now, _)) => Some(now)
    case _ => None
  }

  function Commit(w: World, rows: Option<Rows>): World {
    if rows.Some? then w.(rows := rows.value) else w
  }

  function Progressed(w: World, id: Id, progress: Progress): World
    requires id in w.attempts
  {
    w.(attempts := w.attempts[id := w.attempts[id].(progress := progress)])
  }

  function Logged(w: World, k: Principal, id: Id): World
    requires k in w.rows.connections
  {
    var c := w.rows.connections[k];
    w.(log := w.log[k := LogOf(w, k) + [Activation(id, c.generation, Decrypted(c))]])
  }

  function DoStart(w: World, id: Id, k: Principal, email: string, issued: Issued, requiredScopes: seq<string>,
                   guard: Option<ActivationGuard>): World
  {
    if id in w.usedIds then w else
    var base := if guard.Some? && guard.value.generation.Some? then guard.value.generation.value else 0;
    var candidate := NewCandidate(k, id, email, base + 1, issued.credential, issued.grantedScopes);
    w.(usedIds := w.usedIds + {id},
       rows := SaveCustody(w.rows, candidate),
       attempts := w.attempts[id := Attempt(candidate, issued, requiredScopes, guard, Saved)])
  }

  function DoActivateAuthorization(w: World, id: Id, fault: Fault, now: Time, wall: Time): World {
    if id !in w.attempts || w.attempts[id].progress != Saved then w else
    var a := w.attempts[id];
    if !Present(a.issued.credential.active) then Progressed(w, id, Unwanted) else
    var rows := ActivateAuthorized(w.rows, GetConnection(w.rows, a.candidate.principal, wall), a.candidate, a.issued,
                                   a.requiredScopes, a.guard, now);
    if rows.None? || fault == RolledBack then
      Progressed(w, id, Errored)
    else
      Logged(Progressed(w, id, if fault == ReplyLost then Errored else Finished).(rows := rows.value),
             a.candidate.principal, id)
  }

  function DoInspect(w: World, id: Id, wall: Time): World {
    if id !in w.attempts || w.attempts[id].progress != Errored then w else
    var current := GetConnection(w.rows, w.attempts[id].candidate.principal, wall);
    Progressed(w, id, if current.Some? && current.value.custodyId == Some(id) then Finished else Unwanted)
  }

  function DoWithdraw(w: World, id: Id, from: Progress, expected: CustodyState, otherwise: Progress): World {
    if id !in w.attempts || w.attempts[id].progress != from then w else
    var pending := w.attempts[id].candidate.(state := CleanupPending);
    var rows := UpdateCustody(w.rows, pending, expected, 0);
    Commit(Progressed(w, id, if rows.Some? then Finished else otherwise), rows)
  }

  function DoIssue(w: World, id: Id, k: Principal, email: string, renewed: Credential,
                   renewedScopes: Option<seq<string>>, stillFresh: bool, stored: bool, wall: Time): World
  {
    var current := GetConnection(w.rows, k, wall);
    if id in w.usedIds || !IssuanceAllowed(w.rows, current, k) then w else
    var p := Prepare(current.value, id, email, renewed, renewedScopes, stillFresh);
    w.(usedIds := w.usedIds + {id},
       rows := if stored then SaveCustody(w.rows, p.candidate) else w.rows,
       preparations := w.preparations[id := p])
  }

  function DoReacquire(w: World, id: Id): World {
    if id in w.preparations then w.(rows := SaveCustody(w.rows, w.preparations[id].candidate)) else w
  }

  function DoActivateRenewal(w: World, id: Id, identity: Option<(string, string)>, now: Time, wall: Time): World {
    if id !in w.preparations || !Present(w.preparations[id].renewed.active) then w else
    var p := w.preparations[id];
    var activation := ActivateRenewed(w.rows, GetConnection(w.rows, p.candidate.principal, wall), p, identity, now);
    if !activation.Refreshed? then w
    else Logged(w.(rows := activation.rows), p.candidate.principal, id)
  }

  function DoReject(w: World, id: Id, cause: Option<Category>, now: Time, wall: Time): World {
    if id !in w.preparations then w else
    var p := w.preparations[id];
    var rejection := RejectRenewed(w.rows, GetConnection(w.rows, p.candidate.principal, wall), p, cause, now);
    if rejection.Rejected? then w.(rows := rejection.rows) else w
  }

  function DoFailRenewal(w: World, k: Principal, decrypted: bool, phase: Phase, category: Category, now: Time,
                         wall: Time): World
  {
    var current := GetConnection(w.rows, k, wall);
    if current.None? || current.value.disabledAt.Some? || (decrypted && current.value.envelope.None?)
       || (phase != ReauthorizationRequired && phase != Unavailable) then w
    else Commit(w, PersistRenewalFailure(w.rows, current.value, phase, category, now))
  }

  function DoDisconnect(w: World, k: Principal, email: string, scopes: seq<string>, newId: Id, now: Time, wall: Time)
    : World
  {
    Commit(w, Disconnect(w.revokes, w.rows, GetConnection(w.rows, k, wall), k, email, scopes, newId, now))
  }

  function DoPickUp(w: World, record: Custody): World {
    if record !in w.seen || record.state != Candidate then w
    else Commit(w, UpdateCustody(w.rows, record.(state := CleanupPending), Candidate, record.attempts))
  }

  function DoFinish(w: World, record: Custody, result: RevocationResult, now: Time, wall: Time): World {
    if record !in w.seen || record.state != CleanupPending then w
    else Commit(w, FinalizeCleanup(w.rows, GetConnection(w.rows, record.principal, wall), record, result, now))
  }

  function DoEnqueue(w: World, q: QueuedCleanup): World {
    if q.id in w.usedIds then w
    else w.(usedIds := w.usedIds + {q.id},
            queuedSeen := w.queuedSeen + {q},
            rows := w.rows.(queue := w.rows.queue[q.id := q]))
  }

  function DoMove(w: World, q: QueuedCleanup): World {
    if q !in w.queuedSeen then w
    else w.(moved := w.moved + {q.id}, rows := SaveCustody(w.rows, FromQueue(q)))
  }

  function DoDelete(w: World, id: Id): World {
    if id !in w.moved then w else w.(rows := w.rows.(queue := w.rows.queue - {id}))
  }

  function ActCallback(w: World, st: CallbackStep): World {
    match st
    case MarkAuthorizing(k, marker) => w.(rows := w.rows.(markers := w.rows.markers[k := marker]))
    case ClearAuthorizing(k) => w.(rows := w.rows.(markers := w.rows.markers - {k}))
    case StartAuthorization(id, k, email, issued, scopes, guard) => DoStart(w, id, k, email, issued, scopes, guard)
    case ActivateAuthorization(id, fault, now, wall) => DoActivateAuthorization(w, id, fault, now, wall)
    case RefuseAuthorization(id) =>
      if id in w.attempts && w.attempts[id].progress == Saved then Progressed(w, id, Unwanted) else w
    case InspectAuthorization(id, wall) => DoInspect(w, id, wall)
    case WithdrawCandidate(id) => DoWithdraw(w, id, Unwanted, Candidate, UnwantedActive)
    case WithdrawActive(id) => DoWithdraw(w, id, UnwantedActive, Active, Finished)
  }

  function ActRenewal(w: World, st: RenewalStep): World {
    match st
    case IssueRenewal(id, k, email, renewed, scopes, stillFresh, stored, wall) =>
      DoIssue(w, id, k, email, renewed, scopes, stillFresh, stored, wall)
    case ReacquireCustody(id) => DoReacquire(w, id)
    case ActivateRenewal(id, identity, now, wall) => DoActivateRenewal(w, id, identity, now, wall)
    case RejectRenewal(id, cause, now, wall) => DoReject(w, id, cause, now, wall)
    case RefuseRenewalForScope(k, now, wall) =>
      DoFailRenewal(w, k, false, ReauthorizationRequired, InsufficientScope, now, wall)
    case FailRenewal(k, phase, category, now, wall) => DoFailRenewal(w, k, true, phase, category, now, wall)
  }

  function ActCleanup(w: World, st: CleanupStep): World {
    match st
    case DisconnectPrincipal(k, email, scopes, newId, now, wall) =>
      DoDisconnect(w, k, email, scopes, newId, now, wall)
    case PickUpCandidate(record) => DoPickUp(w, record)
    case FinishCleanup(record, result, now, wall) => DoFinish(w, record, result, now, wall)
    case EnqueueCleanup(q) => DoEnqueue(w, q)
    case MoveQueued(q) => DoMove(w, q)
    case DeleteQueued(id) => DoDelete(w, id)
  }

  function ActMetadata(w: World, st: MetadataStep): World {
    match st
    case BackfillAccount(initial, display, account, wall) =>
      if initial in w.observed && initial.envelope.Some?
      then Commit(w, Backfill(w.rows, GetConnection(w.rows, initial.principal, wall), initial, display, account))
      else w
    case RepairScope(k, usable, now, wall) =>
      Commit(w, RepairScopePoison(w.rows, GetConnection(w.rows, k, wall), usable, now))
  }

  function Act(w: World, st: Step): World {
    match st
    case Callback(callback) => ActCallback(w, callback)
    case Renewal(renewal) => ActRenewal(w, renewal)
    case Cleanup(cleanup) => ActCleanup(w, cleanup)
    case Metadata(metadata) => ActMetadata(w, metadata)
  }

  /** One step, whatever the clock reads; the rows it leaves are recorded. */
  function Take(w: World, st: Step): World {
    var acted := Act(w, st);
    acted.(clock := if Reading(st).Some? then Reading(st).value else w.clock,
           seen := acted.seen + acted.rows.custody.Values,
           observed := acted.observed + acted.rows.connections.Values)
  }

  /** Any steps in any order, with any readings of the clock. */
  function Run(w: World, run: seq<Step>): World
    decreases |run|
  {
    if run == [] then w else Run(Take(w, run[0]), run[1..])
  }

  /** One step under a strictly increasing clock: a reading that is not later than the last is no step. */
  function Do(w: World, st: Step): World {
    if Reading(st).Some? && Reading(st).value <= w.clock then w else Take(w, st)
  }

  function Exec(w: World, run: seq<Step>): World
    decreases |run|
  {
    if run == [] then w else Exec(Do(w, run[0]), run[1..])
  }

  /** A run under such a clock is a run with some of its steps left out. */
  lemma {:induction false} ExecIsRun(w: World, run: seq<Step>) returns (taken: seq<Step>)
    ensures Run(w, taken) == Exec(w, run)
    decreases |run|
  {
    hide Take;
    if run == [] {
      taken := [];
    } else {
      var rest := ExecIsRun(Do(w, run[0]), run[1..]);
      if Reading(run[0]).Some? && Reading(run[0]).value <= w.clock {
        taken := rest;
      } else {
        taken := [run[0]] + rest;
        assert taken[1..] == rest;
      }
    }
  }
}
