/** Every run of a job table: its bounds, its ledger of reservations, and what it never forgets. */
module JobRuns {
  import opened Options
  import opened JobTables

  /** One uninterrupted stretch of the server's work. */
  datatype Step =
    | Ask(owner: Owner, now: Time)
    | Launch(owner: Owner, id: string)
    | Abandon(owner: Owner)
    | Settle(id: string, status: Status, now: Time)
    | CancelAcked(id: string)
    | Look(now: Time)

  /** The table, and the owners of the admitted requests that are still being prepared. */
  datatype World = World(table: Table, waiting: multiset<Owner>)

  predicate Enabled(w: World, s: Step) {
    && (s.Launch? || s.Abandon? ==> s.owner in w.waiting)
    && (s.Settle? ==> !s.status.Running? && !s.status.Cancelling?)
  }

  function Act(l: Limits, w: World, s: Step): World {
    var t := w.table;
    match s
    case Ask(owner, now) =>
      var (n, ok) := Admit(l, t, owner, now);
      World(n, if ok then w.waiting + multiset{owner} else w.waiting)
    case Launch(owner, id) => World(Launched(t, owner, id), w.waiting - multiset{owner})
    case Abandon(owner) => World(Release(t, owner), w.waiting - multiset{owner})
    case Settle(id, status, now) => World(t.(jobs := Settled(t.jobs, id, status, now)), w.waiting)
    case CancelAcked(id) => World(t.(jobs := WithStatus(t.jobs, id, Cancelling, None)), w.waiting)
    case Look(now) => World(t.(jobs := Pruned(l, t.jobs, now)), w.waiting)
  }

  function ActAll(l: Limits, w: World, steps: seq<Step>): World {
    if steps == [] then w else
    var n := |steps| - 1;
    Act(l, ActAll(l, w, steps[..n]), steps[n])
  }

  ghost predicate Possible(l: Limits, w: World, steps: seq<Step>) {
    steps == [] ||
    var n := |steps| - 1;
    Possible(l, w, steps[..n]) && Enabled(ActAll(l, w, steps[..n]), steps[n])
  }

  const START := World(Table([], 0, map[]), multiset{})

  // ---------------------------------------------------------------- counting

  lemma {:induction false} CountJoins(a: seq<Job>, b: seq<Job>, f: Job -> bool)
    ensures Count(a + b, f) == Count(a, f) + Count(b, f)
  {
    if a == [] {
      assert a + b == b;
    } else {
      CountJoins(a[1..], b, f);
      assert (a + b)[1..] == a[1..] + b;
    }
  }

  lemma CountWithout(jobs: seq<Job>, i: nat, f: Job -> bool)
    requires i < |jobs|
    ensures Count(Without(jobs, i), f) == Count(jobs, f) - if f(jobs[i]) then 1 else 0
  {
    CountJoins(jobs[..i], jobs[i + 1..], f);
    CountJoins(jobs[..i], jobs[i..], f);
    assert jobs[..i] + jobs[i..] == jobs;
  }

  lemma CountUpdate(jobs: seq<Job>, i: nat, j: Job, f: Job -> bool)
    requires i < |jobs|
    ensures Count(jobs[i := j], f) == Count(jobs, f) - (if f(jobs[i]) then 1 else 0) + if f(j) then 1 else 0
  {
    CountJoins(jobs[..i], jobs[i..], f);
    assert jobs[..i] + jobs[i..] == jobs;
    CountJoins(jobs[..i], [j] + jobs[i + 1..], f);
    assert jobs[i := j] == jobs[..i] + ([j] + jobs[i + 1..]);
  }

  lemma {:induction false} CountPruned(l: Limits, jobs: seq<Job>, now: Time, f: Job -> bool)
    ensures Count(Pruned(l, jobs, now), f) <= Count(jobs, f)
  {
    if jobs != [] {
      CountPruned(l, jobs[1..], now, f);
      var first := if Expired(l, now, jobs[0]) then [] else [jobs[0]];
      CountJoins(first, Pruned(l, jobs[1..], now), f);
    }
  }

  /** Unfinished jobs are among those that admission counts. */
  ghost predicate Honest(jobs: seq<Job>) {
    forall i :: 0 <= i < |jobs| && jobs[i].completedAt.None? ==> jobs[i].status.Running? || jobs[i].status.Cancelling?
  }

  lemma {:induction false} UnfinishedIsBusy(jobs: seq<Job>, owner: Owner)
    requires Honest(jobs)
    ensures Count(jobs, Unfinished(owner)) <= Count(jobs, Busy(owner))
  {
    if jobs != [] {
      assert forall i :: 0 <= i < |jobs[1..]| ==> jobs[1..][i] == jobs[i + 1];
      UnfinishedIsBusy(jobs[1..], owner);
    }
  }

  lemma {:induction false} PrunedKeeps(l: Limits, jobs: seq<Job>, now: Time)
    ensures forall j :: j in Pruned(l, jobs, now) <==> j in jobs && !Expired(l, now, j)
  {
    if jobs != [] {
      PrunedKeeps(l, jobs[1..], now);
    }
  }

  // ---------------------------------------------------------------- the invariant

  /** The counters are exactly the requests being prepared, in all and owner by owner. */
  ghost predicate Ledger(w: World) {
    && w.table.admissions == |w.waiting|
    && (forall o :: Reserved(w.table, o) == w.waiting[o])
    && (forall o :: o in w.table.byOwner ==> w.table.byOwner[o] > 0)
  }

  ghost predicate Bounded(l: Limits, w: World, f: Owner -> Job -> bool) {
    forall o :: Count(w.table.jobs, f(o)) + Reserved(w.table, o) <= l.maxRunningJobsPerOwner
  }

  ghost predicate Inv(l: Limits, w: World) {
    && WithinTotal(l, w.table)
    && Ledger(w)
    && Honest(w.table.jobs)
    && Bounded(l, w, Unfinished)
  }

  lemma ActKeepsLedger(l: Limits, w: World, s: Step)
    requires Ledger(w) && Enabled(w, s)
    ensures Ledger(Act(l, w, s))
  {
    hide RoomFor, Settled, WithStatus, Pruned;
  }

  lemma ActKeepsHonest(l: Limits, w: World, s: Step)
    requires Honest(w.table.jobs) && Enabled(w, s)
    ensures Honest(Act(l, w, s).table.jobs)
  {
    hide Find, Count, Reserved;
    match s {
      case Ask(owner, now) =>
        PrunedKeeps(l, w.table.jobs, now);
        PrunedHonest(l, w.table.jobs, now);
      case Look(now) => PrunedHonest(l, w.table.jobs, now);
      case _ =>
    }
  }

  lemma PrunedHonest(l: Limits, jobs: seq<Job>, now: Time)
    requires Honest(jobs)
    ensures Honest(Pruned(l, jobs, now))
  {
    PrunedKeeps(l, jobs, now);
    forall i | 0 <= i < |Pruned(l, jobs, now)|
      ensures Pruned(l, jobs, now)[i] in jobs
    {
      assert Pruned(l, jobs, now)[i] in Pruned(l, jobs, now);
    }
  }

  lemma RoomFits(l: Limits, t: Table, owner: Owner, now: Time)
    requires WithinTotal(l, t)
    ensures var (jobs, ok) := RoomFor(l, t, owner, now);
            |jobs| + t.admissions + (if ok then 1 else 0) <= l.maxJobs
  {
    hide Count, Pruned;
    PrunedShrinks(l, t.jobs, now);
  }

  lemma ActKeepsTotal(l: Limits, w: World, s: Step)
    requires WithinTotal(l, w.table) && Ledger(w) && Enabled(w, s)
    ensures WithinTotal(l, Act(l, w, s).table)
  {
    hide Count, Pruned, Find, RoomFor;
    ActKeepsLedger(l, w, s);
    match s {
      case Ask(owner, now) => RoomFits(l, w.table, owner, now);
      case Look(now) => PrunedShrinks(l, w.table.jobs, now);
      case _ =>
    }
  }

  /** An admission leaves its owner below the cap, counted either way, and nobody else any higher. */
  lemma AdmissionCounts(l: Limits, t: Table, owner: Owner, now: Time, o: Owner)
    requires Honest(t.jobs)
    ensures var (jobs, ok) := RoomFor(l, t, owner, now);
            && Count(jobs, Busy(o)) <= Count(t.jobs, Busy(o))
            && Count(jobs, Unfinished(o)) <= Count(t.jobs, Unfinished(o))
            && Count(jobs, Unfinished(o)) <= Count(jobs, Busy(o))
            && (ok ==> Count(jobs, Busy(owner)) + Reserved(t, owner) < l.maxRunningJobsPerOwner)
  {
    hide Count, Pruned;
    var jobs := Pruned(l, t.jobs, now);
    PrunedHonest(l, t.jobs, now);
    CountPruned(l, t.jobs, now, Busy(o));
    CountPruned(l, t.jobs, now, Unfinished(o));
    UnfinishedIsBusy(jobs, o);
    var oldest := OldestFinished(jobs);
    if oldest.Some? {
      var left := Without(jobs, oldest.value);
      CountWithout(jobs, oldest.value, Busy(o));
      CountWithout(jobs, oldest.value, Unfinished(o));
      CountWithout(jobs, oldest.value, Busy(owner));
      assert Honest(left);
      UnfinishedIsBusy(left, o);
    }
  }

  lemma LaunchCounts(t: Table, owner: Owner, id: string, f: Job -> bool)
    ensures Count(Launched(t, owner, id).jobs, f)
            <= Count(t.jobs, f) + if f(Job(id, owner, Running, None)) then 1 else 0
  {
    CountJoins(t.jobs, [Job(id, owner, Running, None)], f);
  }

  /** Jobs no longer unfinished are no longer counted; a late acknowledgement counts one again. */
  lemma SettleCounts(jobs: seq<Job>, id: string, status: Status, now: Time, o: Owner)
    requires !status.Running? && !status.Cancelling?
    ensures Count(Settled(jobs, id, status, now), Busy(o)) <= Count(jobs, Busy(o))
    ensures Count(Settled(jobs, id, status, now), Unfinished(o)) <= Count(jobs, Unfinished(o))
  {
    hide Count;
    var i := Find(jobs, id);
    if i.Some? {
      var j := Settled(jobs, id, status, now)[i.value];
      CountUpdate(jobs, i.value, j, Busy(o));
      CountUpdate(jobs, i.value, j, Unfinished(o));
    }
  }

  /** The acknowledgement finds a job that is over but still listed. */
  predicate Late(t: Table, s: Step) {
    s.CancelAcked? && var i := Find(t.jobs, s.id); i.Some? && !Busy(t.jobs[i.value].owner)(t.jobs[i.value])
  }

  lemma AckCounts(jobs: seq<Job>, id: string, o: Owner)
    ensures var after := WithStatus(jobs, id, Cancelling, None);
            var i := Find(jobs, id);
            && Count(after, Unfinished(o)) == Count(jobs, Unfinished(o))
            && Count(after, Busy(o))
               == Count(jobs, Busy(o))
                  + if i.Some? && jobs[i.value].owner == o && !Busy(o)(jobs[i.value]) then 1 else 0
  {
    hide Count;
    var i := Find(jobs, id);
    if i.Some? {
      var j := WithStatus(jobs, id, Cancelling, None)[i.value];
      CountUpdate(jobs, i.value, j, Busy(o));
      CountUpdate(jobs, i.value, j, Unfinished(o));
    }
  }

  /** A launch turns a reservation into a job. */
  lemma LaunchKeepsCaps(w: World, owner: Owner, id: string, o: Owner)
    requires Ledger(w) && owner in w.waiting
    ensures
      var n := Launched(w.table, owner, id);
      && Count(n.jobs, Unfinished(o)) + Reserved(n, o) <= Count(w.table.jobs, Unfinished(o)) + Reserved(w.table, o)
      && Count(n.jobs, Busy(o)) + Reserved(n, o) <= Count(w.table.jobs, Busy(o)) + Reserved(w.table, o)
  {
    hide Count, Find;
    LaunchCounts(w.table, owner, id, Busy(o));
    LaunchCounts(w.table, owner, id, Unfinished(o));
    assert Reserved(w.table, owner) > 0;
  }

  lemma AskKeepsCaps(l: Limits, w: World, owner: Owner, now: Time, o: Owner)
    requires Inv(l, w)
    ensures
      var n := Act(l, w, Ask(owner, now)).table;
      && Count(n.jobs, Unfinished(o)) + Reserved(n, o) <= l.maxRunningJobsPerOwner
      && (Count(w.table.jobs, Busy(o)) + Reserved(w.table, o) <= l.maxRunningJobsPerOwner ==>
            Count(n.jobs, Busy(o)) + Reserved(n, o) <= l.maxRunningJobsPerOwner)
  {
    hide Count, RoomFor, Ledger, Honest;
    assert Count(w.table.jobs, Unfinished(o)) + Reserved(w.table, o) <= l.maxRunningJobsPerOwner;
    InvIsHonest(l, w);
    AdmissionCounts(l, w.table, owner, now, o);
  }

  lemma InvIsHonest(l: Limits, w: World)
    requires Inv(l, w)
    ensures Honest(w.table.jobs) && Ledger(w)
  {
  }

  lemma ActKeepsCaps(l: Limits, w: World, s: Step, o: Owner)
    requires Inv(l, w) && Enabled(w, s)
    ensures var n := Act(l, w, s).table;
            && Count(n.jobs, Unfinished(o)) + Reserved(n, o) <= l.maxRunningJobsPerOwner
            && (Count(w.table.jobs, Busy(o)) + Reserved(w.table, o) <= l.maxRunningJobsPerOwner && !Late(w.table, s) ==>
                  Count(n.jobs, Busy(o)) + Reserved(n, o) <= l.maxRunningJobsPerOwner)
  {
    hide Count, Find, Admit, Pruned, WithStatus, Settled, Launched, Honest;
    assert Count(w.table.jobs, Unfinished(o)) + Reserved(w.table, o) <= l.maxRunningJobsPerOwner;
    match s {
      case Ask(owner, now) => AskKeepsCaps(l, w, owner, now, o);
      case Launch(owner, id) =>
        LaunchKeepsCaps(w, owner, id, o);
      case Abandon(owner) => assert Reserved(w.table, owner) > 0;
      case Settle(id, status, now) => SettleCounts(w.table.jobs, id, status, now, o);
      case CancelAcked(id) => AckCounts(w.table.jobs, id, o);
      case Look(now) =>
        CountPruned(l, w.table.jobs, now, Busy(o));
        CountPruned(l, w.table.jobs, now, Unfinished(o));
    }
  }

  lemma ActKeepsInv(l: Limits, w: World, s: Step)
    requires Inv(l, w) && Enabled(w, s)
    ensures Inv(l, Act(l, w, s))
    ensures Bounded(l, w, Busy) && !Late(w.table, s) ==> Bounded(l, Act(l, w, s), Busy)
  {
    hide Act, Count, Late, Ledger, Honest, Reserved;
    ActKeepsTotal(l, w, s);
    ActKeepsLedger(l, w, s);
    ActKeepsHonest(l, w, s);
    forall o
      ensures Count(Act(l, w, s).table.jobs, Unfinished(o)) + Reserved(Act(l, w, s).table, o)
              <= l.maxRunningJobsPerOwner
      ensures Bounded(l, w, Busy) && !Late(w.table, s) ==>
                Count(Act(l, w, s).table.jobs, Busy(o)) + Reserved(Act(l, w, s).table, o) <= l.maxRunningJobsPerOwner
    {
      ActKeepsCaps(l, w, s, o);
    }
  }

  // ---------------------------------------------------------------- whole runs

  /**
   * At every point of every run: jobs and reservations within `maxJobs`, each owner's unfinished
   * jobs and reservations within the cap, the reservations exactly those of waiting requests.
   */
  lemma {:induction false} TableStaysBounded(l: Limits, steps: seq<Step>)
    requires Possible(l, START, steps)
    ensures Inv(l, ActAll(l, START, steps))
  {
    if steps != [] {
      var n := |steps| - 1;
      TableStaysBounded(l, steps[..n]);
      ActKeepsInv(l, ActAll(l, START, steps[..n]), steps[n]);
    }
  }

  ghost predicate NeverLate(l: Limits, steps: seq<Step>) {
    steps == [] ||
    var n := |steps| - 1;
    NeverLate(l, steps[..n]) && !Late(ActAll(l, START, steps[..n]).table, steps[n])
  }

  /** Counted by status, as admission counts, the cap holds as long as no acknowledgement is late. */
  lemma {:induction false} StatusCapHolds(l: Limits, steps: seq<Step>)
    requires Possible(l, START, steps) && NeverLate(l, steps)
    ensures Bounded(l, ActAll(l, START, steps), Busy)
  {
    if steps != [] {
      var n := |steps| - 1;
      StatusCapHolds(l, steps[..n]);
      TableStaysBounded(l, steps[..n]);
      ActKeepsInv(l, ActAll(l, START, steps[..n]), steps[n]);
    }
  }

  /**
   * From a table within the cap by status, an acknowledgement breaks it exactly if it is late and the
   * owner is full.
   */
  lemma AckBreaksStatusCap(l: Limits, w: World, id: string)
    requires Inv(l, w) && Bounded(l, w, Busy)
    ensures Bounded(l, Act(l, w, CancelAcked(id)), Busy)
            <==> !(&& Late(w.table, CancelAcked(id))
                   && var owner := w.table.jobs[Find(w.table.jobs, id).value].owner;
                   Count(w.table.jobs, Busy(owner)) + Reserved(w.table, owner) == l.maxRunningJobsPerOwner)
  {
    hide Count;
    var after := Act(l, w, CancelAcked(id));
    var i := Find(w.table.jobs, id);
    if i.Some? {
      AckCounts(w.table.jobs, id, w.table.jobs[i.value].owner);
    }
    forall o | !Late(w.table, CancelAcked(id)) || w.table.jobs[i.value].owner != o
      ensures Count(after.table.jobs, Busy(o)) + Reserved(after.table, o) <= l.maxRunningJobsPerOwner
    {
      AckCounts(w.table.jobs, id, o);
    }
  }

  /**
   * A refusal evicts nobody and has a reason: the owner is full, or the table is full of unfinished
   * jobs. An admission evicts at most one job, the one that finished first, and only from a full table.
   */
  lemma AdmissionEvictsAtMostTheOldest(l: Limits, t: Table, owner: Owner, now: Time)
    requires WithinTotal(l, t)
    ensures var (jobs, ok) := RoomFor(l, t, owner, now);
            var before := Pruned(l, t.jobs, now);
            var ownerFull := l.maxRunningJobsPerOwner <= Count(before, Busy(owner)) + Reserved(t, owner);
            var tableFull := |before| + t.admissions == l.maxJobs;
            var anyFinished := exists i :: 0 <= i < |before| && before[i].completedAt.Some?;
            && (ok <==> !ownerFull && (!tableFull || anyFinished))
            && (!ok || !tableFull ==> jobs == before)
            && (ok && tableFull ==>
                  exists i: nat :: i < |before| && before[i].completedAt.Some? && jobs == before[..i] + before[i + 1..]
                                   && forall k :: 0 <= k < |before| && before[k].completedAt.Some? ==>
                                        before[i].completedAt.value <= before[k].completedAt.value)
  {
    hide Count, Pruned;
    PrunedShrinks(l, t.jobs, now);
  }

  lemma AdmissionKeepsUnfinished(l: Limits, t: Table, owner: Owner, now: Time, j: Job)
    requires j in t.jobs && j.completedAt.None?
    ensures j in RoomFor(l, t, owner, now).0
  {
    hide Count;
    PrunedKeeps(l, t.jobs, now);
    var pruned := Pruned(l, t.jobs, now);
    var i :| 0 <= i < |pruned| && pruned[i] == j;
    var oldest := OldestFinished(pruned);
    if oldest.Some? {
      assert Without(pruned, oldest.value)[if i < oldest.value then i else i - 1] == j;
    }
  }

  /** No step removes a job that is not finished, nor changes whose it is. */
  lemma UnfinishedJobsStay(l: Limits, w: World, s: Step, j: Job)
    requires j in w.table.jobs && j.completedAt.None?
    ensures exists n :: n in Act(l, w, s).table.jobs && n.id == j.id && n.owner == j.owner
  {
    hide Count, RoomFor, Pruned, Find, Reserved;
    var jobs := w.table.jobs;
    var k :| 0 <= k < |jobs| && jobs[k] == j;
    var after := Act(l, w, s).table.jobs;
    match s {
      case Ask(owner, now) => AdmissionKeepsUnfinished(l, w.table, owner, now, j);
      case Look(now) => PrunedKeeps(l, jobs, now);
      case _ => assert after[k].id == j.id && after[k].owner == j.owner;
    }
  }

  const SINGLE := Limits(2, 1, 1000)

  /** One owner, room for one job at a time: the states of a run with a late acknowledgement. */
  function Scene(owner: Owner, k: nat): World {
    var a, b := Job("a", owner, Running, None), Job("b", owner, Running, None);
    var over := a.(status := Completed, completedAt := Some(1));
    match k
    case 0 => START
    case 1 => World(Table([], 1, map[owner := 1]), multiset{owner})
    case 2 => World(Table([a], 0, map[]), multiset{})
    case 3 => World(Table([over], 0, map[]), multiset{})
    case 4 => World(Table([over], 1, map[owner := 1]), multiset{owner})
    case 5 => World(Table([over, b], 0, map[]), multiset{})
    case _ => World(Table([over.(status := Cancelling), b], 0, map[]), multiset{})
  }

  lemma FirstJob(owner: Owner)
    ensures Act(SINGLE, Scene(owner, 0), Ask(owner, 0)) == Scene(owner, 1)
    ensures Act(SINGLE, Scene(owner, 1), Launch(owner, "a")) == Scene(owner, 2)
    ensures Act(SINGLE, Scene(owner, 2), Settle("a", Completed, 1)) == Scene(owner, 3)
  {
  }

  lemma SecondAdmission(owner: Owner)
    ensures Act(SINGLE, Scene(owner, 3), Ask(owner, 2)) == Scene(owner, 4)
  {
    var over := Job("a", owner, Completed, Some(1));
    assert Pruned(SINGLE, [over], 2) == [over];
    assert Count([over], Busy(owner)) == 0;
    assert RoomFor(SINGLE, Scene(owner, 3).table, owner, 2) == ([over], true);
  }

  lemma SecondJob(owner: Owner)
    ensures Act(SINGLE, Scene(owner, 4), Launch(owner, "b")) == Scene(owner, 5)
    ensures Act(SINGLE, Scene(owner, 5), CancelAcked("a")) == Scene(owner, 6)
  {
    hide Count;
  }

  lemma CountedTwice(owner: Owner)
    ensures Count(Scene(owner, 6).table.jobs, Busy(owner)) == 2
    ensures Count(Scene(owner, 6).table.jobs, Unfinished(owner)) == 1
  {
    var over := Job("a", owner, Cancelling, Some(1));
    var b := Job("b", owner, Running, None);
    assert [over, b] == [over] + [b];
    CountJoins([over], [b], Busy(owner));
    CountJoins([over], [b], Unfinished(owner));
  }

  /** A cancellation acknowledged after its job ended, and after the owner's next job began, counts as a second one. */
  lemma LateAcknowledgementCountsTwo(owner: Owner)
    ensures var steps := [Ask(owner, 0), Launch(owner, "a"), Settle("a", Completed, 1)]
                         + [Ask(owner, 2), Launch(owner, "b"), CancelAcked("a")];
            && Possible(SINGLE, START, steps)
            && Count(ActAll(SINGLE, START, steps).table.jobs, Busy(owner)) == 2
            && Count(ActAll(SINGLE, START, steps).table.jobs, Unfinished(owner)) == 1
  {
    hide Act, Count, Possible, ActAll;
    FirstJob(owner);
    SecondAdmission(owner);
    SecondJob(owner);
    CountedTwice(owner);
    NoSteps();
    var steps := [];
    steps := Then(SINGLE, steps, START, Ask(owner, 0));
    steps := Then(SINGLE, steps, Scene(owner, 1), Launch(owner, "a"));
    steps := Then(SINGLE, steps, Scene(owner, 2), Settle("a", Completed, 1));
    steps := Then(SINGLE, steps, Scene(owner, 3), Ask(owner, 2));
    steps := Then(SINGLE, steps, Scene(owner, 4), Launch(owner, "b"));
    steps := Then(SINGLE, steps, Scene(owner, 5), CancelAcked("a"));
    assert steps == [Ask(owner, 0), Launch(owner, "a"), Settle("a", Completed, 1)]
                    + [Ask(owner, 2), Launch(owner, "b"), CancelAcked("a")];
  }

  lemma NoSteps()
    ensures Possible(SINGLE, START, []) && ActAll(SINGLE, START, []) == START
  {
  }

  lemma Then(l: Limits, steps: seq<Step>, w: World, s: Step) returns (more: seq<Step>)
    requires Possible(l, START, steps) && ActAll(l, START, steps) == w && Enabled(w, s)
    ensures more == steps + [s] && Possible(l, START, more) && ActAll(l, START, more) == Act(l, w, s)
  {
    more := steps + [s];
    assert more[..|steps|] == steps;
  }
}
