/**
 * The connection lock: a chain of promises per account. Each caller waits for the promise that its
 * predecessor left in the map, and leaves its own. Callers are numbered in order of arrival; the
 * scheduler may run any enabled step.
 */
module ConnectionLocks {
  import opened Options

  type Key = string

  datatype Phase = Waiting | Holding | Done

  /**
   * `previous` is the caller whose promise this one awaits. `settled` says that this caller's own
   * promise has resolved, which happens some time after it is done.
   */
  datatype Caller = Caller(key: Key, previous: Option<nat>, phase: Phase, settled: bool)

  datatype Lock = Lock(callers: seq<Caller>, lockTails: map<Key, nat>)

  datatype Step = Arrive(key: Key) | Enter(caller: nat) | Leave(caller: nat) | Resolve(caller: nat)

  /** The promise that caller `c` awaits has resolved. */
  predicate PreviousSettled(l: Lock, c: nat)
    requires c < |l.callers|
  {
    match l.callers[c].previous
    case None => true
    case Some(p) => p < |l.callers| && l.callers[p].settled
  }

  predicate Enabled(l: Lock, s: Step) {
    match s
    case Arrive(_) => true
    case Enter(c) => c < |l.callers| && l.callers[c].phase.Waiting? && PreviousSettled(l, c)
    case Leave(c) => c < |l.callers| && l.callers[c].phase.Holding?
    case Resolve(c) => c < |l.callers| && l.callers[c].phase.Done? && PreviousSettled(l, c)
  }

  function Lookup(m: map<Key, nat>, key: Key): Option<nat> {
    if key in m then Some(m[key]) else None
  }

  /** A step that is not enabled does not happen. */
  function Act(l: Lock, s: Step): Lock {
    if !Enabled(l, s) then l else
    match s
    case Arrive(key) =>
      Lock(l.callers + [Caller(key, Lookup(l.lockTails, key), Waiting, false)], l.lockTails[key := |l.callers|])
    case Enter(c) => l.(callers := l.callers[c := l.callers[c].(phase := Holding)])
    case Leave(c) =>
      var key := l.callers[c].key;
      Lock(l.callers[c := l.callers[c].(phase := Done)],
           if Lookup(l.lockTails, key) == Some(c) then l.lockTails - {key} else l.lockTails)
    case Resolve(c) => l.(callers := l.callers[c := l.callers[c].(settled := true)])
  }

  // ---------------------------------------------------------------- the invariant

  /** Everyone who came to this key before `c` is done. */
  ghost predicate FirstInLine(l: Lock, c: nat)
    requires c < |l.callers|
  {
    forall b :: 0 <= b < c && l.callers[b].key == l.callers[c].key ==> l.callers[b].phase.Done?
  }

  /** A caller awaits the one just before it; with nobody to await, nobody was left. */
  ghost predicate Chained(l: Lock) {
    forall c :: 0 <= c < |l.callers| ==>
      match l.callers[c].previous
      case None => FirstInLine(l, c)
      case Some(p) =>
        && p < c
        && l.callers[p].key == l.callers[c].key
        && forall b :: p < b < c ==> l.callers[b].key != l.callers[c].key
  }

  /** Whoever got in, or has resolved, was first in line. */
  ghost predicate Orderly(l: Lock) {
    forall c :: 0 <= c < |l.callers| ==>
      && (!l.callers[c].phase.Waiting? ==> FirstInLine(l, c))
      && (l.callers[c].settled ==> l.callers[c].phase.Done?)
  }

  /** The map names, for each key in use, the last to come; and it names only those. */
  ghost predicate TailsExact(l: Lock) {
    && (forall key :: key in l.lockTails ==>
          && l.lockTails[key] < |l.callers|
          && l.callers[l.lockTails[key]].key == key
          && !l.callers[l.lockTails[key]].phase.Done?)
    && (forall c :: 0 <= c < |l.callers| ==>
          if l.callers[c].key in l.lockTails then c <= l.lockTails[l.callers[c].key] else l.callers[c].phase.Done?)
  }

  ghost predicate Inv(l: Lock) {
    Chained(l) && Orderly(l) && TailsExact(l)
  }

  lemma SettledLeavesNobodyBefore(l: Lock, c: nat)
    requires c < |l.callers| && Chained(l) && Orderly(l) && PreviousSettled(l, c)
    ensures FirstInLine(l, c)
  {
    if l.callers[c].previous.Some? {
      var p := l.callers[c].previous.value;
      assert FirstInLine(l, p);
    }
  }

  /** Nobody's key or predecessor changes, and whoever is done stays done. */
  ghost predicate Follows(l: Lock, n: Lock) {
    && |l.callers| <= |n.callers|
    && forall c :: 0 <= c < |l.callers| ==>
         && n.callers[c].key == l.callers[c].key
         && n.callers[c].previous == l.callers[c].previous
         && (l.callers[c].phase.Done? ==> n.callers[c].phase.Done?)
  }

  lemma FollowsInLine(l: Lock, n: Lock)
    requires Follows(l, n)
    ensures forall c :: 0 <= c < |l.callers| && FirstInLine(l, c) ==> FirstInLine(n, c)
  {
  }

  lemma ActChains(l: Lock, s: Step)
    requires Inv(l)
    ensures Chained(Act(l, s))
  {
    var n := Act(l, s);
    assert Follows(l, n);
    FollowsInLine(l, n);
    if s.Arrive? && s.key !in l.lockTails {
      assert FirstInLine(n, |l.callers|);
    }
  }

  lemma ActOrders(l: Lock, s: Step)
    requires Inv(l)
    ensures Orderly(Act(l, s))
  {
    var n := Act(l, s);
    assert Follows(l, n);
    FollowsInLine(l, n);
    if s.Enter? && Enabled(l, s) {
      SettledLeavesNobodyBefore(l, s.caller);
    }
  }

  lemma ActKeepsTails(l: Lock, s: Step)
    requires Inv(l)
    ensures TailsExact(Act(l, s))
  {
    hide Chained;
    if s.Leave? && Enabled(l, s) {
      var key := l.callers[s.caller].key;
      assert FirstInLine(l, s.caller);
      assert key in l.lockTails && s.caller <= l.lockTails[key];
    }
  }

  lemma ActKeepsInv(l: Lock, s: Step)
    requires Inv(l)
    ensures Inv(Act(l, s))
  {
    hide Act, Chained, Orderly, TailsExact;
    ActChains(l, s);
    ActOrders(l, s);
    ActKeepsTails(l, s);
  }

  // ---------------------------------------------------------------- every run

  function ActAll(steps: seq<Step>): Lock {
    if steps == [] then Lock([], map[]) else Act(ActAll(steps[..|steps| - 1]), steps[|steps| - 1])
  }

  lemma {:induction false} RunKeepsInv(steps: seq<Step>)
    ensures Inv(ActAll(steps))
  {
    if steps != [] {
      RunKeepsInv(steps[..|steps| - 1]);
      ActKeepsInv(ActAll(steps[..|steps| - 1]), steps[|steps| - 1]);
    }
  }

  /** Two callers of one key are never inside together, and they get in in the order they came. */
  lemma ExclusiveInArrivalOrder(steps: seq<Step>, b: nat, c: nat)
    requires b < c < |ActAll(steps).callers|
    requires ActAll(steps).callers[b].key == ActAll(steps).callers[c].key
    ensures !ActAll(steps).callers[c].phase.Waiting? ==> ActAll(steps).callers[b].phase.Done?
  {
    RunKeepsInv(steps);
    assert Orderly(ActAll(steps));
  }

  /** The map has an entry for a key exactly while somebody holds it or waits for it. */
  lemma EntryExactlyWhileInUse(steps: seq<Step>, key: Key)
    ensures key in ActAll(steps).lockTails
            <==> exists c :: 0 <= c < |ActAll(steps).callers|
                             && ActAll(steps).callers[c].key == key && !ActAll(steps).callers[c].phase.Done?
  {
    RunKeepsInv(steps);
  }

  /** While somebody waits for a key that nobody holds, some caller of it can go on. */
  lemma NobodyIsStuck(steps: seq<Step>, key: Key)
    requires key in ActAll(steps).lockTails
    ensures exists c :: 0 <= c < |ActAll(steps).callers| && ActAll(steps).callers[c].key == key
                        && (|| ActAll(steps).callers[c].phase.Holding?
                            || Enabled(ActAll(steps), Enter(c))
                            || (!ActAll(steps).callers[c].settled && Enabled(ActAll(steps), Resolve(c))))
  {
    var l := ActAll(steps);
    RunKeepsInv(steps);
    SomeoneCanMove(l, l.lockTails[key]);
  }

  /** Follows the chain back from `c` to the first caller that is not settled. */
  lemma {:induction false} SomeoneCanMove(l: Lock, c: nat)
    requires Inv(l) && c < |l.callers| && !l.callers[c].settled
    ensures exists b :: 0 <= b < |l.callers| && l.callers[b].key == l.callers[c].key
                        && (|| l.callers[b].phase.Holding?
                            || Enabled(l, Enter(b))
                            || (!l.callers[b].settled && Enabled(l, Resolve(b))))
    decreases c
  {
    if !PreviousSettled(l, c) {
      SomeoneCanMove(l, l.callers[c].previous.value);
    } else if l.callers[c].phase.Waiting? {
      assert Enabled(l, Enter(c));
    } else if l.callers[c].phase.Done? {
      assert Enabled(l, Resolve(c));
    }
  }
}
