/**
 * The job tables of the governed command line and of the remote shell: admission with reservations
 * that are held while the server waits, retention, and eviction of finished jobs.
 */
module JobTables {
  import opened Options

  type Owner = string
  type Time = int

  /** `Cancelling` exists in the remote shell only. */
  datatype Status = Running | Cancelling | Completed | Failed | Cancelled

  datatype Job = Job(id: string, owner: Owner, status: Status, completedAt: Option<Time>)

  datatype Limits = Limits(maxJobs: nat, maxRunningJobsPerOwner: nat, retentionMs: nat)

  /** Jobs in the order in which they were started. */
  datatype Table = Table(jobs: seq<Job>, admissions: int, byOwner: map<Owner, int>)

  function Reserved(t: Table, owner: Owner): int {
    if owner in t.byOwner then t.byOwner[owner] else 0
  }

  function Count(jobs: seq<Job>, f: Job -> bool): nat {
    if jobs == [] then 0 else (if f(jobs[0]) then 1 else 0) + Count(jobs[1..], f)
  }

  /** What admission counts against an owner. */
  function Busy(owner: Owner): Job -> bool {
    (j: Job) => j.owner == owner && (j.status.Running? || j.status.Cancelling?)
  }

  /** What is still going on. */
  function Unfinished(owner: Owner): Job -> bool {
    (j: Job) => j.owner == owner && j.completedAt.None?
  }

  // ---------------------------------------------------------------- one operation

  predicate Expired(l: Limits, now: Time, j: Job) {
    j.completedAt.Some? && j.completedAt.value <= now - l.retentionMs
  }

  function Pruned(l: Limits, jobs: seq<Job>, now: Time): seq<Job> {
    if jobs == [] then [] else
    (if Expired(l, now, jobs[0]) then [] else [jobs[0]]) + Pruned(l, jobs[1..], now)
  }

  /** The finished job that finished first; of several the one started first. */
  function OldestFinished(jobs: seq<Job>): (r: Option<nat>)
    ensures r.None? <==> forall i :: 0 <= i < |jobs| ==> jobs[i].completedAt.None?
    ensures r.Some? ==> r.value < |jobs| && jobs[r.value].completedAt.Some?
    ensures r.Some? ==> forall i :: 0 <= i < |jobs| && jobs[i].completedAt.Some? ==>
                          jobs[r.value].completedAt.value <= jobs[i].completedAt.value
    ensures r.Some? ==> forall i :: 0 <= i < r.value && jobs[i].completedAt.Some? ==>
                          jobs[r.value].completedAt.value < jobs[i].completedAt.value
  {
    if jobs == [] then None else
    var n := |jobs| - 1;
    var r := OldestFinished(jobs[..n]);
    if jobs[n].completedAt.None? then r
    else if r.Some? && jobs[r.value].completedAt.value <= jobs[n].completedAt.value then r
    else Some(n)
  }

  function Without(jobs: seq<Job>, i: nat): seq<Job>
    requires i < |jobs|
  {
    jobs[..i] + jobs[i + 1..]
  }

  function Find(jobs: seq<Job>, id: string): (r: Option<nat>)
    ensures r.Some? ==> r.value < |jobs| && jobs[r.value].id == id
    ensures r.None? ==> forall i :: 0 <= i < |jobs| ==> jobs[i].id != id
  {
    if jobs == [] then None
    else if jobs[|jobs| - 1].id == id then Some(|jobs| - 1)
    else Find(jobs[..|jobs| - 1], id)
  }

  /** What admission leaves of the jobs, and whether it admits: at most one job makes room. */
  function RoomFor(l: Limits, t: Table, owner: Owner, now: Time): (seq<Job>, bool) {
    var jobs := Pruned(l, t.jobs, now);
    if l.maxRunningJobsPerOwner <= Count(jobs, Busy(owner)) + Reserved(t, owner) then (jobs, false)
    else if |jobs| + t.admissions < l.maxJobs then (jobs, true)
    else
      var oldest := OldestFinished(jobs);
      if oldest.None? then (jobs, false) else (Without(jobs, oldest.value), true)
  }

  function Reserve(t: Table, owner: Owner): Table {
    t.(admissions := t.admissions + 1, byOwner := t.byOwner[owner := Reserved(t, owner) + 1])
  }

  function Release(t: Table, owner: Owner): Table {
    var held := if owner in t.byOwner then t.byOwner[owner] else 1;
    t.(admissions := t.admissions - 1,
       byOwner := if held - 1 != 0 then t.byOwner[owner := held - 1] else t.byOwner - {owner})
  }

  function Admit(l: Limits, t: Table, owner: Owner, now: Time): (Table, bool) {
    var (jobs, ok) := RoomFor(l, t, owner, now);
    (if ok then Reserve(t.(jobs := jobs), owner) else t.(jobs := jobs), ok)
  }

  function WithStatus(jobs: seq<Job>, id: string, status: Status, completedAt: Option<Time>): seq<Job> {
    var i := Find(jobs, id);
    if i.None? then jobs else
    jobs[i.value := jobs[i.value].(status := status, completedAt := completedAt.Or(jobs[i.value].completedAt))]
  }

  /** A job ends once; one whose cancellation was acknowledged ends cancelled. */
  function Settled(jobs: seq<Job>, id: string, status: Status, now: Time): seq<Job> {
    var i := Find(jobs, id);
    if i.None? then jobs else
    match jobs[i.value].status
    case Running => WithStatus(jobs, id, status, Some(now))
    case Cancelling => WithStatus(jobs, id, Cancelled, Some(now))
    case _ => jobs
  }

  /** An identifier that is taken is not started again. */
  function Launched(t: Table, owner: Owner, id: string): Table {
    var jobs := if Find(t.jobs, id).Some? then t.jobs else t.jobs + [Job(id, owner, Running, None)];
    Release(t.(jobs := jobs), owner)
  }

  /** The table keeps within `maxJobs`, jobs and reservations together. */
  predicate WithinTotal(l: Limits, t: Table) {
    0 <= t.admissions && |t.jobs| + t.admissions <= l.maxJobs
  }

  class JobTable {
    const limits: Limits
    var jobs: seq<Job>
    var admissions: int
    var admissionsByOwner: map<Owner, int>

    ghost function View(): Table
      reads this
    {
      Table(jobs, admissions, admissionsByOwner)
    }

    constructor (limits: Limits)
      ensures this.limits == limits && View() == Table([], 0, map[])
    {
      this.limits := limits;
      jobs, admissions, admissionsByOwner := [], 0, map[];
    }

    method Prune(now: Time)
      modifies this`jobs
      ensures jobs == Pruned(limits, old(jobs), now)
    {
      var cutoff := now - limits.retentionMs;
      var i := 0;
      assert jobs[..0] + jobs[0..] == jobs;
      while i < |jobs|
        invariant 0 <= i <= |jobs|
        invariant jobs[..i] + Pruned(limits, jobs[i..], now) == Pruned(limits, old(jobs), now)
        decreases |jobs| - i
      {
        assert jobs[i..][1..] == jobs[i + 1..];
        if jobs[i].completedAt.Some? && jobs[i].completedAt.value <= cutoff {
          assert Without(jobs, i)[..i] == jobs[..i] && Without(jobs, i)[i..] == jobs[i + 1..];
          jobs := Without(jobs, i);
        } else {
          assert jobs[..i + 1] == jobs[..i] + [jobs[i]];
          i := i + 1;
        }
      }
      assert jobs[..i] == jobs && jobs[i..] == [];
    }

    /** Refuses without evicting; admits after evicting at most one job. */
    method AdmitJob(owner: Owner, now: Time) returns (ok: bool)
      requires WithinTotal(limits, View())
      modifies this
      ensures (View(), ok) == Admit(limits, old(View()), owner, now)
    {
      hide Pruned, Count, Busy;
      Prune(now);
      PrunedShrinks(limits, old(jobs), now);
      var ownerRunning := Count(jobs, Busy(owner));
      var reserved := if owner in admissionsByOwner then admissionsByOwner[owner] else 0;
      if ownerRunning + reserved >= limits.maxRunningJobsPerOwner {
        return false;
      }
      ghost var pruned := jobs;
      while |jobs| + admissions >= limits.maxJobs
        invariant View().(jobs := []) == old(View()).(jobs := [])
        invariant |jobs| + admissions <= limits.maxJobs
        invariant || (jobs == pruned)
                  || (limits.maxJobs <= |pruned| + admissions && OldestFinished(pruned).Some?
                      && jobs == Without(pruned, OldestFinished(pruned).value))
        invariant jobs != pruned ==> |jobs| + admissions < limits.maxJobs
        decreases |jobs|
      {
        var oldestFinished := OldestFinished(jobs);
        if oldestFinished.None? {
          return false;
        }
        jobs := Without(jobs, oldestFinished.value);
      }
      admissions := admissions + 1;
      admissionsByOwner := admissionsByOwner[owner := reserved + 1];
      return true;
    }

    method ReleaseAdmission(owner: Owner)
      modifies this`admissions, this`admissionsByOwner
      ensures View() == Release(old(View()), owner)
    {
      admissions := admissions - 1;
      var remaining := (if owner in admissionsByOwner then admissionsByOwner[owner] else 1) - 1;
      if remaining != 0 {
        admissionsByOwner := admissionsByOwner[owner := remaining];
      } else {
        admissionsByOwner := admissionsByOwner - {owner};
      }
    }

    /** Starts an admitted job and gives its reservation back, with no wait in between. */
    method StartJob(owner: Owner, id: string) returns (started: bool)
      modifies this
      ensures View() == Launched(old(View()), owner, id)
      ensures started <==> forall i :: 0 <= i < |old(jobs)| ==> old(jobs)[i].id != id
    {
      started := Find(jobs, id).None?;
      if started {
        jobs := jobs + [Job(id, owner, Running, None)];
      }
      ReleaseAdmission(owner);
    }

    method Finish(id: string, status: Status, now: Time)
      modifies this`jobs
      ensures jobs == Settled(old(jobs), id, status, now)
    {
      var i := Find(jobs, id);
      if i.None? || (!jobs[i.value].status.Running? && !jobs[i.value].status.Cancelling?) {
        return;
      }
      var job := jobs[i.value];
      var last := if job.status.Cancelling? then Cancelled else status;
      jobs := jobs[i.value := job.(status := last, completedAt := Some(now))];
    }

    /** The remote shell's answer to a cancellation, whatever became of the job meanwhile. */
    method AcknowledgeCancel(id: string)
      modifies this`jobs
      ensures jobs == WithStatus(old(jobs), id, Cancelling, None)
    {
      var i := Find(jobs, id);
      if i.Some? {
        jobs := jobs[i.value := jobs[i.value].(status := Cancelling)];
      }
    }
  }

  // ---------------------------------------------------------------- counting

  lemma {:induction false} PrunedShrinks(l: Limits, jobs: seq<Job>, now: Time)
    ensures |Pruned(l, jobs, now)| <= |jobs|
  {
    if jobs != [] {
      PrunedShrinks(l, jobs[1..], now);
    }
  }
}
