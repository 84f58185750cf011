/** The durable queue: `enqueue`, `claim`, `ack` and `fail` over the `jobs` table. */
module JobQueue {
  import opened Options
  import opened Rows
  import opened Jobs

  datatype ClaimedJob = ClaimedJob(id: nat, task: Task, retryCount: nat)

  class JobQueue {
    const maxRetries: int
    var jobs: map<nat, Job>
    /** Rows some claim holds `FOR UPDATE`; `SKIP LOCKED` passes over them. */
    var locked: set<nat>

    ghost predicate Valid()
      reads this
    {
      UniqueKeys(jobs) && LeaseColumnsAgree(jobs) && locked <= jobs.Keys
    }

    constructor (maxRetries: int)
      ensures Valid() && jobs == map[] && locked == {} && this.maxRetries == maxRetries
    {
      this.maxRetries := maxRetries;
      jobs, locked := map[], {};
    }

    /** Accepts a job exactly when its key was never accepted before. */
    method Enqueue(task: Task, key: string, runAfter: Option<int>, now: int) returns (id: Option<nat>)
      requires Valid()
      modifies this`jobs
      ensures Valid()
      ensures id.None? <==> exists j :: j in old(jobs) && old(jobs)[j].key == key
      ensures id.None? ==> jobs == old(jobs)
      ensures id.Some? ==> id.value !in old(jobs) && jobs == old(jobs)[id.value := NewJob(task, key, runAfter, now)]
      // it is in line from when it is due, behind what was enqueued before it
      ensures id.Some? ==> forall t :: id.value in Candidates(t) <==> runAfter.None? || runAfter.value <= t
      ensures id.Some? ==> jobs[id.value].task == task && jobs[id.value].key == key && jobs[id.value].createdAt == now
    {
      if exists j :: j in jobs && jobs[j].key == key {
        return None;
      }
      FreshIdExists(jobs.Keys);
      var newId: nat :| newId !in jobs;
      jobs := jobs[newId := NewJob(task, key, runAfter, now)];
      id := Some(newId);
    }

    function Candidates(now: int): set<nat>
      reads this
    {
      set j | j in jobs && Runnable(jobs[j], now) && j !in locked
    }

    function Ages(): map<nat, int>
      reads this
    {
      map j | j in jobs :: jobs[j].createdAt
    }

    /** The locking read of `claim`: the oldest runnable row nobody else has locked. */
    method SelectForUpdate(now: int) returns (pick: Option<nat>)
      requires Valid()
      modifies this`locked
      ensures Valid()
      ensures pick.None? <==> old(Candidates(now)) == {}
      ensures pick.None? ==> locked == old(locked)
      ensures pick.Some? ==> pick.value in old(Candidates(now)) && locked == old(locked) + {pick.value}
      ensures pick.Some? ==> forall j | j in old(Candidates(now)) :: jobs[pick.value].createdAt <= jobs[j].createdAt
    {
      var rows := SelectFirst(Candidates(now), Ages(), 1);
      if rows == [] {
        return None;
      }
      locked := locked + {rows[0]};
      assert rows[0] in Elements(rows);
      pick := Some(rows[0]);
    }

    /** The update and commit of `claim`, which also lets go of the row. */
    method CommitLease(id: nat, worker: string, now: int, leaseSeconds: nat) returns (job: ClaimedJob)
      requires Valid() && id in locked
      modifies this`jobs, this`locked
      ensures Valid()
      ensures jobs == old(jobs)[id := LeaseTo(old(jobs)[id], worker, now + leaseSeconds)]
      ensures locked == old(locked) - {id}
      ensures job == ClaimedJob(id, old(jobs)[id].task, old(jobs)[id].retryCount)
    {
      jobs := jobs[id := LeaseTo(jobs[id], worker, now + leaseSeconds)];
      locked := locked - {id};
      job := ClaimedJob(id, jobs[id].task, jobs[id].retryCount);
    }

    method Claim(worker: string, now: int, leaseSeconds: nat) returns (job: Option<ClaimedJob>)
      requires Valid()
      modifies this`jobs, this`locked
      ensures Valid() && locked == old(locked)
      ensures job.None? <==> old(Candidates(now)) == {}
      ensures job.None? ==> jobs == old(jobs)
      ensures job.Some? ==>
        var id := job.value.id;
        && id in old(Candidates(now))
        && (forall j | j in old(Candidates(now)) :: old(jobs)[id].createdAt <= old(jobs)[j].createdAt)
        && job.value == ClaimedJob(id, old(jobs)[id].task, old(jobs)[id].retryCount)
        && jobs == old(jobs)[id := LeaseTo(old(jobs)[id], worker, now + leaseSeconds)]
      ensures job.Some? ==> jobs[job.value.id].leaseOwner == Some(worker)
      // the job can be claimed again once the lease just given is over, and no earlier
      ensures job.Some? ==> forall t :: job.value.id in Candidates(t) <==> t > now + leaseSeconds
    {
      var pick := SelectForUpdate(now);
      if pick.None? {
        return None;
      }
      var claimed := CommitLease(pick.value, worker, now, leaseSeconds);
      job := Some(claimed);
    }

    method Ack(id: nat)
      requires Valid()
      modifies this`jobs
      ensures Valid()
      ensures id !in old(jobs) ==> jobs == old(jobs)
      ensures id in old(jobs) ==> jobs == old(jobs)[id := Jobs.Ack(old(jobs)[id])]
      ensures forall t :: id !in Candidates(t)
    {
      if id in jobs {
        jobs := jobs[id := Jobs.Ack(jobs[id])];
      }
    }

    /** None stands for the exception a missing row raises. */
    method Fail(id: nat, now: int) returns (status: Option<Status>)
      requires Valid()
      modifies this`jobs
      ensures Valid()
      ensures status.None? <==> id !in old(jobs)
      ensures status.None? ==> jobs == old(jobs)
      ensures status.Some? ==>
        var was := old(jobs)[id];
        && jobs == old(jobs)[id := Jobs.Fail(was, was.retryCount, now, maxRetries)]
        && status.value == jobs[id].status
        && (status.value == Failed <==> was.retryCount + 1 >= maxRetries)
        && (status.value == Failed || status.value == Queued)
      // a job that failed for good is never claimed again; another one once it has waited
      ensures status == Some(Failed) ==> forall t :: id !in Candidates(t)
      ensures status == Some(Queued) && id !in locked ==> forall t :: id in Candidates(t) <==> t >= now + 30
      ensures status.Some? ==> jobs[id].retryCount == old(jobs)[id].retryCount + 1
    {
      if id !in jobs {
        return None;
      }
      var retries := jobs[id].retryCount;
      jobs := jobs[id := Jobs.Fail(jobs[id], retries, now, maxRetries)];
      status := Some(jobs[id].status);
    }
  }

  /** Of two jobs enqueued one after the other, and both due, the first is claimed first. */
  method InTurn(q: JobQueue, first: Task, second: Task, keys: (string, string), due: (Option<int>, Option<int>),
                at: (int, int), now: int, worker: string, leaseSeconds: nat)
      returns (a: Option<nat>, b: Option<nat>, job: Option<ClaimedJob>)
    requires q.Valid() && q.locked == {} && at.0 < at.1
    requires (due.0.None? || due.0.value <= now) && (due.1.None? || due.1.value <= now)
    modifies q
    ensures a.Some? && b.Some? ==> job.Some? && job.value.id != b.value
    ensures a.Some? && b.Some? && old(q.jobs) == map[] ==> job.value == ClaimedJob(a.value, first, 0)
  {
    a := q.Enqueue(first, keys.0, due.0, at.0);
    ghost var mid := q.Candidates(now);
    b := q.Enqueue(second, keys.1, due.1, at.1);
    if a.Some? && b.Some? {
      assert a.value in q.Candidates(now);
    }
    job := q.Claim(worker, now, leaseSeconds);
  }
}
