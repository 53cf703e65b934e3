/**
 * The same runs under a clock that may stand still. Dates may then repeat, and an enabled row may
 * even be dated ahead of the clock; what is left of the fence is exactly stated.
 */
module StandingClock {
  import opened Options
  import opened ConnectionRecords
  import opened ConnectionSections
  import opened LifecycleSteps
  import opened StaleAuthorizations
  import opened RowMoves

  /** One step under a clock that does not run backwards. */
  function Tick(w: World, st: Step): World {
    if Reading(st).Some? && Reading(st).value < w.clock then w else Take(w, st)
  }

  function TickAll(w: World, run: seq<Step>): World
    decreases |run|
  {
    if run == [] then w else TickAll(Tick(w, run[0]), run[1..])
  }

  lemma TickShifts(w: World, st: Step)
    requires Settled(w.rows, Some(w.clock))
    ensures Shifts(w.rows, Tick(w, st).rows, Some(Tick(w, st).clock)) && w.clock <= Tick(w, st).clock
  {
    hide Act, Settled, Shifts;
    SettledLater(w.rows, Some(w.clock), Some(w.clock), None);
    if Reading(st).None? || w.clock <= Reading(st).value {
      ActShifts(w, st, Some(w.clock), if Reading(st).Some? then Reading(st) else Some(w.clock));
    }
  }

  /** Over every run: generations never go back, and a disabled row is enabled only under a new one. */
  lemma {:induction false} TickAllShifts(w: World, run: seq<Step>)
    requires Settled(w.rows, Some(w.clock))
    ensures Shifts(w.rows, TickAll(w, run).rows, Some(TickAll(w, run).clock)) && w.clock <= TickAll(w, run).clock
    decreases |run|
  {
    hide Tick, Settled, RowsHold;
    if run == [] {
      SettledLater(w.rows, Some(w.clock), Some(w.clock), None);
    } else {
      var next := Tick(w, run[0]);
      TickShifts(w, run[0]);
      TickAllShifts(next, run[1..]);
      HoldTransitive(w.rows, next.rows, TickAll(w, run).rows, true);
    }
  }

  // ---------------------------------------------------------------- what is left of the fence

  /** From `r` by way of a disconnect that left `v` to `z`: when a guard captured over `r` still holds. */
  lemma FenceUnlessRepeated(r: Rows, v: Rows, z: Rows, k: Principal, captured: Option<Connection>,
                            current: Option<Connection>, now: Time)
    requires Sees(r, k, captured) && Sees(z, k, current)
    requires RowsHold(r, v, true) && RowsHold(v, z, true)
    requires k in v.connections && v.connections[k].disabledAt.Some? && v.connections[k].updatedAt == now
    ensures
      GuardHolds(SnapshotAuthorizationGuard(captured), current)
      <==> && k in r.connections
           && r.connections[k].disabledAt.Some?
           && r.connections[k].updatedAt == now
           && k in z.connections
           && z.connections[k].generation == r.connections[k].generation
           && z.connections[k].updatedAt == now
  {
    assert Holds(v.connections[k], z.connections[k], true);
    if k in r.connections {
      assert Holds(r.connections[k], v.connections[k], true);
    }
  }

  /**
   * For every run under a clock that may stand still: a guard captured before a committed disconnect
   * holds at a later moment exactly if the row was already disabled then, and the disconnect and
   * everything since wrote the row, if at all, under the same date and generation.
   */
  lemma StaleGuardUnlessClockStands(revokes: bool, before: seq<Step>, k: Principal, seenAt: Time,
                                    between: seq<Step>, disconnect: CleanupStep, after: seq<Step>, wall: Time)
    requires disconnect.DisconnectPrincipal? && disconnect.k == k
    requires
      var w := TickAll(TickAll(Initial(revokes), before), between);
      && w.clock <= disconnect.now
      && Disconnect(w.revokes, w.rows, GetConnection(w.rows, k, disconnect.wall), k, disconnect.email,
                    disconnect.requiredScopes, disconnect.newId, disconnect.now).Some?
    ensures
      var r := TickAll(Initial(revokes), before);
      var z := TickAll(Tick(TickAll(r, between), Cleanup(disconnect)), after).rows;
      GuardHolds(SnapshotAuthorizationGuard(GetConnection(r.rows, k, seenAt)), GetConnection(z, k, wall))
      <==> && k in r.rows.connections
           && r.rows.connections[k].disabledAt.Some?
           && r.rows.connections[k].updatedAt == disconnect.now
           && k in z.connections
           && z.connections[k].generation == r.rows.connections[k].generation
           && z.connections[k].updatedAt == disconnect.now
  {
    hide TickAll, Disconnect, GetConnection, RowsHold, Sees, GuardHolds, SnapshotAuthorizationGuard;
    var r := TickAll(Initial(revokes), before);
    var w := TickAll(r, between);
    var v := Tick(w, Cleanup(disconnect));
    var z := TickAll(v, after);
    assert Settled(Initial(revokes).rows, Some(0));
    TickAllShifts(Initial(revokes), before);
    TickAllShifts(r, between);
    TickShifts(w, Cleanup(disconnect));
    TickAllShifts(v, after);
    HoldTransitive(r.rows, w.rows, v.rows, true);
    Reads(w.rows, k, disconnect.wall);
    SettledLater(w.rows, Some(w.clock), Some(disconnect.now), Some(disconnect.now));
    DisconnectShifts(w.revokes, w.rows, GetConnection(w.rows, k, disconnect.wall), k, disconnect.email,
                     disconnect.requiredScopes, disconnect.newId, disconnect.now, Some(disconnect.now));
    Reads(r.rows, k, seenAt);
    Reads(z.rows, k, wall);
    FenceUnlessRepeated(r.rows, v.rows, z.rows, k, GetConnection(r.rows, k, seenAt), GetConnection(z.rows, k, wall),
                        disconnect.now);
  }

  /**
   * At the moment of the disconnect the condition is one that can be checked before it: the row was
   * already disabled when the guard was captured, dated like the disconnect, and no generation has
   * been activated since.
   */
  lemma StaleGuardAtDisconnect(revokes: bool, before: seq<Step>, k: Principal, seenAt: Time, between: seq<Step>,
                               disconnect: CleanupStep, wall: Time)
    requires disconnect.DisconnectPrincipal? && disconnect.k == k
    requires
      var w := TickAll(TickAll(Initial(revokes), before), between);
      && w.clock <= disconnect.now
      && Disconnect(w.revokes, w.rows, GetConnection(w.rows, k, disconnect.wall), k, disconnect.email,
                    disconnect.requiredScopes, disconnect.newId, disconnect.now).Some?
    ensures
      var r := TickAll(Initial(revokes), before);
      var w := TickAll(r, between);
      var v := Tick(w, Cleanup(disconnect)).rows;
      GuardHolds(SnapshotAuthorizationGuard(GetConnection(r.rows, k, seenAt)), GetConnection(v, k, wall))
      <==> && k in r.rows.connections
           && r.rows.connections[k].disabledAt.Some?
           && r.rows.connections[k].updatedAt == disconnect.now
           && k in w.rows.connections
           && w.rows.connections[k].generation == r.rows.connections[k].generation
  {
    hide TickAll, Disconnect, GetConnection, RowsHold, Sees, GuardHolds, SnapshotAuthorizationGuard;
    var r := TickAll(Initial(revokes), before);
    var w := TickAll(r, between);
    var v := Tick(w, Cleanup(disconnect));
    assert Settled(Initial(revokes).rows, Some(0));
    TickAllShifts(Initial(revokes), before);
    TickAllShifts(r, between);
    KeptRow(r.rows, w.rows, k);
    Reads(w.rows, k, disconnect.wall);
    SettledLater(w.rows, Some(w.clock), Some(disconnect.now), Some(disconnect.now));
    DisconnectShifts(w.revokes, w.rows, GetConnection(w.rows, k, disconnect.wall), k, disconnect.email,
                     disconnect.requiredScopes, disconnect.newId, disconnect.now, Some(disconnect.now));
    StaleGuardUnlessClockStands(revokes, before, k, seenAt, between, disconnect, [], wall);
    NoMore(v);
  }

  lemma NoMore(w: World)
    ensures TickAll(w, []) == w
  {
  }

  lemma KeptRow(r: Rows, s: Rows, k: Principal)
    requires RowsHold(r, s, true)
    ensures k in r.connections ==> k in s.connections
  {
  }

  // ---------------------------------------------------------------- the shortest run

  lemma TicksTwo(w: World, a: Step, b: Step)
    ensures TickAll(w, [a]) == Tick(w, a) && TickAll(w, [a, b]) == Tick(Tick(w, a), b)
  {
    hide Tick;
    assert [a, b][1..] == [b] && [b][1..] == [] && [a][1..] == [];
    NoMore(Tick(w, a));
    NoMore(Tick(Tick(w, a), b));
    assert TickAll(Tick(w, a), [b]) == TickAll(Tick(Tick(w, a), b), []);
  }

  /** A principal is disconnected, a guard is captured, and it is disconnected again within one reading of the clock. */
  lemma RepeatedDisconnectKeepsGuard(revokes: bool, k: Principal, email: string, id: Id)
    ensures
      var again := Cleanup(DisconnectPrincipal(k, email, [], id, 1, 0));
      var r, v := TickAll(Initial(revokes), [again]).rows, TickAll(Initial(revokes), [again, again]).rows;
      GuardHolds(SnapshotAuthorizationGuard(GetConnection(r, k, 0)), GetConnection(v, k, 0))
  {
    var again := Cleanup(DisconnectPrincipal(k, email, [], id, 1, 0));
    var w := Initial(revokes);
    TicksTwo(w, again, again);
    FirstDisconnect(revokes, k, email, id);
    SecondDisconnect(Tick(w, again), k, email, id);
  }

  lemma FirstDisconnect(revokes: bool, k: Principal, email: string, id: Id)
    ensures
      var w := Tick(Initial(revokes), Cleanup(DisconnectPrincipal(k, email, [], id, 1, 0)));
      && w.clock == 1
      && w.rows.markers == map[]
      && w.rows.connections == map[k := Tombstone(k, email, [], 1)]
      && w.rows.accounts == map[k := AccountOf(Tombstone(k, email, [], 1))]
  {
    assert GetConnection(EMPTY_ROWS, k, 0) == None;
  }

  lemma SecondDisconnect(w: World, k: Principal, email: string, id: Id)
    requires w.clock == 1 && w.rows.markers == map[]
    requires w.rows.connections == map[k := Tombstone(k, email, [], 1)]
    requires w.rows.accounts == map[k := AccountOf(Tombstone(k, email, [], 1))]
    ensures
      var v := Tick(w, Cleanup(DisconnectPrincipal(k, email, [], id, 1, 0)));
      v.rows.markers == map[] && v.rows.connections == w.rows.connections
  {
    hide Handoff, SaveCustody, AdoptedCustody, Disabled;
    var tombstone := Tombstone(k, email, [], 1);
    assert GetConnection(w.rows, k, 0) == Some(tombstone);
    assert DisabledAgain(tombstone, 1) == tombstone;
    var cleared := w.rows.(markers := w.rows.markers - {k});
    assert SaveConnection(cleared, tombstone, ConnectionWriteGuard(Some(tombstone))).value.connections
        == w.rows.connections;
  }
}
