/** Rows of the `jobs` table and the updates the queue makes to one row. */
module Jobs {
  import opened Options

  datatype Status = Queued | Leased | Done | Failed

  /** What a job asks for; `Other` stands for the kinds whose handlers touch no chunk, `Unknown` for
      those no handler is registered for. */
  datatype Task =
    | ExtractChunk(chunk: string)
    | AppendBuffer(chunk: string)
    | Flush(key: string)
    | Other(key: string)
    | Unknown(key: string)

  datatype Job = Job(
    task: Task,
    key: string,
    createdAt: int,
    retryCount: nat,
    status: Status,
    leaseOwner: Option<string>,
    leaseExpiresAt: Option<int>,
    runAfter: Option<int>)

  const RETRY_BACKOFF_SECONDS := 30

  function DedupeKey(task: Task): string {
    match task
    case ExtractChunk(c) => "extract:" + c
    case AppendBuffer(c) => "buffer:" + c
    case Flush(k) => k
    case Other(k) => k
    case Unknown(k) => k
  }

  function NewJob(task: Task, key: string, runAfter: Option<int>, now: int): Job {
    Job(task, key, now, 0, Queued, None, None, runAfter)
  }

  /** Queued, or leased past its expiry; and due. */
  predicate Runnable(job: Job, now: int) {
    && (job.status.Queued? || (job.status.Leased? && job.leaseExpiresAt.Some? && job.leaseExpiresAt.value < now))
    && (job.runAfter.None? || job.runAfter.value <= now)
  }

  function LeaseTo(job: Job, worker: string, expires: int): Job {
    job.(status := Leased, leaseOwner := Some(worker), leaseExpiresAt := Some(expires))
  }

  function Ack(job: Job): Job {
    job.(status := Done, leaseOwner := None, leaseExpiresAt := None)
  }

  /** `fail` writes from the retry count it read before, which need not be the row's any more. */
  function Fail(job: Job, retries: nat, now: int, maxRetries: int): Job {
    var back := job.(retryCount := retries + 1, leaseOwner := None, leaseExpiresAt := None);
    if retries + 1 >= maxRetries then back.(status := Failed)
    else back.(status := Queued, runAfter := Some(now + RETRY_BACKOFF_SECONDS))
  }

  ghost predicate UniqueKeys(jobs: map<nat, Job>) {
    forall i, j | i in jobs && j in jobs && jobs[i].key == jobs[j].key :: i == j
  }

  /** A row is leased exactly when it names an owner, and exactly then has an expiry. */
  ghost predicate LeaseColumnsAgree(jobs: map<nat, Job>) {
    forall j | j in jobs ::
      && (jobs[j].status.Leased? <==> jobs[j].leaseOwner.Some?)
      && (jobs[j].status.Leased? <==> jobs[j].leaseExpiresAt.Some?)
  }

  /** Neither `ack` nor `fail` looks at the row's status. Of a finished row, an `ack` leaves alone
      exactly the done ones, and a `fail` exactly those its own count would fail in the same way:
      any other makes a failed job done, or a finished one run again. */
  lemma LateBookkeepingOverwrites(job: Job, retries: nat, now: int, maxRetries: int)
    requires job.status.Done? || job.status.Failed?
    requires job.leaseOwner.None? && job.leaseExpiresAt.None?
    ensures Ack(job) == job <==> job.status.Done?
    ensures Fail(job, retries, now, maxRetries) == job <==>
      job.status.Failed? && job.retryCount == retries + 1 && retries + 1 >= maxRetries
    ensures Fail(job, retries, now, maxRetries).status.Queued? <==> retries + 1 < maxRetries
  {
    var failed := Fail(job, retries, now, maxRetries);
    assert failed.retryCount == retries + 1 && failed.task == job.task && failed.key == job.key;
  }
}
