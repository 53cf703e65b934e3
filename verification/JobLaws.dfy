/** What each step of a job table does, told by the jobs it leaves and the requests it lets wait. */
module JobLaws {
  import opened Options
  import opened JobTables
  import opened JobRuns

  // ---------------------------------------------------------------- identifiers

  ghost predicate DistinctIds(jobs: seq<Job>) {
    forall i, k :: 0 <= i < k < |jobs| ==> jobs[i].id != jobs[k].id
  }

  lemma {:induction false} PrunedKeepsDistinct(l: Limits, jobs: seq<Job>, now: Time)
    requires DistinctIds(jobs)
    ensures DistinctIds(Pruned(l, jobs, now))
  {
    if jobs != [] {
      PrunedKeepsDistinct(l, jobs[1..], now);
      PrunedKeeps(l, jobs[1..], now);
      var rest := Pruned(l, jobs[1..], now);
      forall k | 0 <= k < |rest|
        ensures rest[k].id != jobs[0].id
      {
        assert rest[k] in jobs[1..];
      }
    }
  }

  lemma RoomKeepsDistinct(l: Limits, t: Table, owner: Owner, now: Time)
    requires DistinctIds(t.jobs)
    ensures DistinctIds(RoomFor(l, t, owner, now).0)
  {
    hide Pruned, Count, Reserved;
    PrunedKeepsDistinct(l, t.jobs, now);
  }

  lemma StatusKeepsIds(jobs: seq<Job>, id: string, status: Status, end: Option<Time>)
    ensures
      var after := WithStatus(jobs, id, status, end);
      |after| == |jobs| && forall i :: 0 <= i < |jobs| ==> after[i].id == jobs[i].id
  {
    hide Find;
  }

  lemma LaunchKeepsDistinct(t: Table, owner: Owner, id: string)
    requires DistinctIds(t.jobs)
    ensures DistinctIds(Launched(t, owner, id).jobs)
  {
    hide Find;
  }

  lemma {:induction false} IdsStayDistinct(l: Limits, steps: seq<Step>)
    ensures DistinctIds(ActAll(l, START, steps).table.jobs)
  {
    hide RoomFor, WithStatus, Launched, Pruned, Find, Reserved;
    if steps != [] {
      var n := |steps| - 1;
      var jobs := ActAll(l, START, steps[..n]).table.jobs;
      IdsStayDistinct(l, steps[..n]);
      match steps[n] {
        case Ask(owner, now) => RoomKeepsDistinct(l, ActAll(l, START, steps[..n]).table, owner, now);
        case Launch(owner, id) => LaunchKeepsDistinct(ActAll(l, START, steps[..n]).table, owner, id);
        case Abandon(owner) =>
        case Settle(id, status, now) =>
          StatusKeepsIds(jobs, id, status, Some(now));
          StatusKeepsIds(jobs, id, Cancelled, Some(now));
        case CancelAcked(id) => StatusKeepsIds(jobs, id, Cancelling, None);
        case Look(now) => PrunedKeepsDistinct(l, jobs, now);
      }
    }
  }

  // ---------------------------------------------------------------- jobs as a set

  ghost function Listed(jobs: seq<Job>): set<Job> {
    set j | j in jobs
  }

  /** Jobs without an end, and jobs that ended within the retention time. */
  ghost function Retained(l: Limits, jobs: seq<Job>, now: Time): set<Job> {
    set j | j in jobs && (j.completedAt == None || now < j.completedAt.value + l.retentionMs)
  }

  /** The owner's jobs that run or are being cancelled. */
  ghost function Going(jobs: set<Job>, owner: Owner): set<Job> {
    set j | j in jobs && j.owner == owner && j.status in {Running, Cancelling}
  }

  lemma PrunedIsRetained(l: Limits, jobs: seq<Job>, now: Time)
    ensures Listed(Pruned(l, jobs, now)) == Retained(l, jobs, now)
  {
    PrunedKeeps(l, jobs, now);
  }

  lemma ListedFirst(jobs: seq<Job>, owner: Owner)
    requires jobs != []
    ensures Listed(jobs) == {jobs[0]} + Listed(jobs[1..])
    ensures
      Going(Listed(jobs), owner)
      == (if Busy(owner)(jobs[0]) then {jobs[0]} else {}) + Going(Listed(jobs[1..]), owner)
  {
    assert jobs == [jobs[0]] + jobs[1..];
  }

  lemma {:induction false} ListedCount(jobs: seq<Job>, owner: Owner)
    requires DistinctIds(jobs)
    ensures |Listed(jobs)| == |jobs|
    ensures |Going(Listed(jobs), owner)| == Count(jobs, Busy(owner))
  {
    if jobs != [] {
      assert forall i :: 0 <= i < |jobs[1..]| ==> jobs[1..][i] == jobs[i + 1];
      ListedCount(jobs[1..], owner);
      ListedFirst(jobs, owner);
      assert jobs[0] !in Listed(jobs[1..]);
    }
  }

  lemma WithoutListed(jobs: seq<Job>, i: nat)
    requires i < |jobs| && DistinctIds(jobs)
    ensures Listed(Without(jobs, i)) == Listed(jobs) - {jobs[i]}
  {
    forall k | 0 <= k < |jobs| && k != i
      ensures jobs[k] in Without(jobs, i)
    {
      assert Without(jobs, i)[if k < i then k else k - 1] == jobs[k];
    }
  }

  // ---------------------------------------------------------------- admission

  /** The job that finished first. */
  ghost predicate MakesWay(kept: set<Job>, v: Job) {
    && v in kept
    && v.completedAt.Some?
    && forall j :: j in kept && j.completedAt.Some? ==> v.completedAt.value <= j.completedAt.value
  }

  /**
   * An owner whose going jobs and waiting requests reach its cap is refused. Otherwise a request is
   * admitted while jobs and waiting requests leave room, or in place of the job that finished first.
   * A refusal leaves the retained jobs and lets nobody wait.
   */
  ghost predicate Answers(l: Limits, kept: set<Job>, waiting: multiset<Owner>, owner: Owner, left: set<Job>,
                          waits: multiset<Owner>) {
    if |Going(kept, owner)| + waiting[owner] >= l.maxRunningJobsPerOwner then left == kept && waits == waiting
    else if |kept| + |waiting| < l.maxJobs then left == kept && waits == waiting + multiset{owner}
    else if forall j :: j in kept ==> j.completedAt == None then left == kept && waits == waiting
    else waits == waiting + multiset{owner} && exists v :: MakesWay(kept, v) && left == kept - {v}
  }

  lemma OldestMakesWay(kept: seq<Job>)
    ensures
      var oldest := OldestFinished(kept);
      && (oldest.None? <==> forall j :: j in Listed(kept) ==> j.completedAt == None)
      && (oldest.Some? ==> MakesWay(Listed(kept), kept[oldest.value]))
  {
    hide OldestFinished;
    assert forall j :: j in kept <==> j in Listed(kept);
  }

  /** Over every run, each request is answered so from the retained jobs and the waiting requests. */
  lemma AskedExactly(l: Limits, steps: seq<Step>, owner: Owner, now: Time)
    requires Possible(l, START, steps)
    ensures
      var w, after := ActAll(l, START, steps), ActAll(l, START, steps + [Ask(owner, now)]);
      Answers(l, Retained(l, w.table.jobs, now), w.waiting, owner, Listed(after.table.jobs), after.waiting)
  {
    hide Pruned, Count, Listed, Retained, Going, MakesWay;
    hide OldestFinished, Without, DistinctIds, Possible, Honest, Bounded;
    var w := ActAll(l, START, steps);
    assert (steps + [Ask(owner, now)])[..|steps|] == steps;
    TableStaysBounded(l, steps);
    IdsStayDistinct(l, steps);
    var kept := Pruned(l, w.table.jobs, now);
    PrunedKeepsDistinct(l, w.table.jobs, now);
    PrunedIsRetained(l, w.table.jobs, now);
    ListedCount(kept, owner);
    OldestMakesWay(kept);
    if OldestFinished(kept).Some? {
      WithoutListed(kept, OldestFinished(kept).value);
    }
  }

  // ---------------------------------------------------------------- the other steps

  lemma FoundIs(jobs: seq<Job>, id: string, i: nat)
    requires DistinctIds(jobs) && i < |jobs|
    ensures jobs[i].id == id ==> Find(jobs, id) == Some(i)
    ensures jobs[i].id != id ==> Find(jobs, id) != Some(i)
  {
  }

  /**
   * Settling ends the named job if it was going, cancelled if it was being cancelled; an acknowledged
   * cancellation changes its status and not its end. Every other job stays as it is, and so do the requests.
   */
  lemma SettledExactly(l: Limits, w: World, id: string, status: Status, now: Time, i: nat)
    requires DistinctIds(w.table.jobs) && i < |w.table.jobs|
    ensures
      var was := w.table.jobs[i];
      var settled, acked := Act(l, w, Settle(id, status, now)), Act(l, w, CancelAcked(id));
      && settled.waiting == w.waiting
      && acked.waiting == w.waiting
      && |settled.table.jobs| == |w.table.jobs|
      && |acked.table.jobs| == |w.table.jobs|
      && settled.table.jobs[i]
         == (if was.id != id || was.status in {Completed, Failed, Cancelled} then was
             else Job(id, was.owner, if was.status == Running then status else Cancelled, Some(now)))
      && acked.table.jobs[i] == (if was.id != id then was else Job(id, was.owner, Cancelling, was.completedAt))
  {
    hide Find;
    FoundIs(w.table.jobs, id, i);
  }

  /** A launch adds a running job under a free identifier; with the other steps, who waits and what is listed. */
  lemma LaunchedExactly(l: Limits, w: World, owner: Owner, id: string, now: Time)
    ensures
      var launched, looked := Act(l, w, Launch(owner, id)), Act(l, w, Look(now));
      var taken := exists j :: j in w.table.jobs && j.id == id;
      && launched.waiting == w.waiting - multiset{owner}
      && launched.table.jobs == (if taken then w.table.jobs else w.table.jobs + [Job(id, owner, Running, None)])
      && Act(l, w, Abandon(owner)).waiting == w.waiting - multiset{owner}
      && Act(l, w, Abandon(owner)).table.jobs == w.table.jobs
      && looked.waiting == w.waiting
      && Listed(looked.table.jobs) == Retained(l, w.table.jobs, now)
  {
    hide Find, Pruned;
    PrunedIsRetained(l, w.table.jobs, now);
  }
}
