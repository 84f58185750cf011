/** What every interleaving keeps, timely or not: the queue's own guarantees. */
module WorkersAllRuns {
  import opened Options
  import opened Jobs
  import opened Workers

  ghost predicate GoodRows(jobs: map<nat, Job>) {
    && UniqueKeys(jobs) && LeaseColumnsAgree(jobs)
    && forall j | j in jobs :: jobs[j].key == DedupeKey(jobs[j].task)
  }

  /** Rows are only added, and keep their task, key and age. */
  ghost predicate RowsPersist(before: map<nat, Job>, after: map<nat, Job>) {
    forall j | j in before ::
      && j in after && after[j].task == before[j].task && after[j].key == before[j].key
      && after[j].createdAt == before[j].createdAt
  }

  /** `j` was, when the locking read saw the table, the oldest row runnable at `t` and not locked. */
  ghost predicate Oldest(pick: Pick, t: int, j: nat) {
    && j in pick.jobs && Runnable(pick.jobs[j], t) && j !in pick.locked
    && forall i | i in pick.jobs && Runnable(pick.jobs[i], t) && i !in pick.locked ::
      pick.jobs[j].createdAt <= pick.jobs[i].createdAt
  }

  /** Every claim ever committed took such a row. */
  ghost predicate ClaimsOldest(log: seq<Event>) {
    forall k | 0 <= k < |log| && log[k].Claimed? :: Oldest(log[k].pick, log[k].at, log[k].job)
  }

  /** A claimer's clock reading is past, its row was the oldest when it selected it, and is still as
      runnable as it was then. */
  ghost predicate GoodClaimer(s: State, w: string)
    requires w in s.workers
  {
    match s.workers[w]
    case Polling(t) => t <= s.now
    case Holding(t, j, pick) => t <= s.now && j in s.jobs && Runnable(s.jobs[j], t) && Oldest(pick, t, j)
    case _ => Active(s.workers[w]) ==> s.workers[w].job in s.jobs
  }

  ghost predicate GoodClaimers(s: State) {
    && (forall w | w in s.workers :: GoodClaimer(s, w))
    && (forall v, w | v in s.workers && w in s.workers && s.workers[v].Holding? && s.workers[w].Holding?
          && s.workers[v].job == s.workers[w].job :: v == w)
  }

  /** Nothing ran `ack` or `fail` on the job since event `i`. */
  ghost predicate Unreleased(log: seq<Event>, i: nat)
    requires i < |log|
  {
    forall k | i < k < |log| :: log[k] != Released(log[i].job)
  }

  /** The row's current lease covers a claim no ack or fail has ended. */
  ghost predicate Covered(jobs: map<nat, Job>, j: nat, expires: int) {
    j in jobs && jobs[j].status.Leased? && jobs[j].leaseExpiresAt.Some? && expires <= jobs[j].leaseExpiresAt.value
  }

  ghost predicate LogCovered(log: seq<Event>, jobs: map<nat, Job>) {
    forall i | 0 <= i < |log| && log[i].Claimed? && Unreleased(log, i) :: Covered(jobs, log[i].job, log[i].expires)
  }

  /** Two claims of a job are apart: the first lease had expired when the second claimer looked at
      the clock, or an ack or fail of the job came in between. */
  ghost predicate ClaimsApart(log: seq<Event>) {
    forall i, k | 0 <= i < k < |log| && log[i].Claimed? && log[k].Claimed? && log[i].job == log[k].job ::
      log[i].expires < log[k].at || exists m :: i < m < k && log[m] == Released(log[i].job)
  }

  ghost predicate Consistent(s: State) {
    GoodRows(s.jobs) && GoodClaimers(s) && LogCovered(s.log, s.jobs) && ClaimsApart(s.log) && ClaimsOldest(s.log)
  }

  // ------------------------------------------------------------------- rows

  lemma AcceptKeepsRows(s: State, task: Task, id: nat, runAfter: Option<int>)
    requires GoodRows(s.jobs) && id !in s.jobs
    ensures GoodRows(Accept(s, task, id, runAfter)) && RowsPersist(s.jobs, Accept(s, task, id, runAfter))
  {
  }

  lemma UpdateKeepsRows(jobs: map<nat, Job>, j: nat, row: Job)
    requires GoodRows(jobs) && j in jobs
    requires row.task == jobs[j].task && row.key == jobs[j].key && row.createdAt == jobs[j].createdAt
    requires (row.status.Leased? <==> row.leaseOwner.Some?) && (row.status.Leased? <==> row.leaseExpiresAt.Some?)
    ensures GoodRows(jobs[j := row]) && RowsPersist(jobs, jobs[j := row])
  {
  }

  lemma StepKeepsRows(s: State, a: Action)
    requires GoodRows(s.jobs) && Enabled(s, a)
    ensures GoodRows(Next(s, a).jobs) && RowsPersist(s.jobs, Next(s, a).jobs)
  {
    hide GoodRows, RowsPersist;
    NoRowsLost(s.jobs);
    if a.Enqueue? {
      AcceptKeepsRows(s, a.task, a.id, a.runAfter);
    } else if a.EnqueueAppend? {
      AcceptKeepsRows(s, AppendBuffer(TaskOf(s, a.w).chunk), a.id, None);
    } else if a.CommitClaim? || a.CommitAck? || a.CommitFail? {
      BookedRow(s, a);
      hide Next, Enabled;
      UpdateKeepsRows(s.jobs, s.workers[a.w].job, Next(s, a).jobs[s.workers[a.w].job]);
    }
  }

  /** Claims, acks and fails change one row, and of that only its status, lease and retries. */
  lemma BookedRow(s: State, a: Action)
    requires Enabled(s, a) && (a.CommitClaim? || a.CommitAck? || a.CommitFail?)
    ensures a.w in s.workers && (s.workers[a.w].Holding? || s.workers[a.w].Booking?)
    ensures var j, jobs := s.workers[a.w].job, Next(s, a).jobs;
      && j in s.jobs && j in jobs && jobs == s.jobs[j := jobs[j]]
      && jobs[j].task == s.jobs[j].task && jobs[j].key == s.jobs[j].key && jobs[j].createdAt == s.jobs[j].createdAt
      && (jobs[j].status.Leased? <==> jobs[j].leaseOwner.Some?)
      && (jobs[j].status.Leased? <==> jobs[j].leaseExpiresAt.Some?)
  {
  }

  lemma NoRowsLost(jobs: map<nat, Job>)
    ensures RowsPersist(jobs, jobs)
  {
  }

  // --------------------------------------------------------------- claimers

  /** The worker that acts, if it is a worker's step. */
  function Actor(a: Action): Option<string> {
    match a
    case Tick(_) => None
    case Ingest(_) => None
    case Enqueue(_, _, _) => None
    case _ => Some(a.w)
  }

  /** A step leaves the other workers alone, and also the row one of them holds FOR UPDATE. */
  lemma OthersStay(s: State, a: Action, v: string)
    requires Enabled(s, a) && GoodClaimers(s) && v in s.workers && Actor(a) != Some(v)
    ensures var u := Next(s, a);
      && v in u.workers && u.workers[v] == s.workers[v]
      && (s.workers[v].Holding? ==> s.workers[v].job in u.jobs && u.jobs[s.workers[v].job] == s.jobs[s.workers[v].job])
  {
    OthersKeepState(s, a, v);
    assert GoodClaimer(s, v);
    hide GoodClaimer;
    if s.workers[v].Holding? && (a.CommitClaim? || a.CommitAck? || a.CommitFail?) {
      BookedRow(s, a);
      assert IsLocked(s, s.workers[v].job);
    }
  }

  lemma OthersKeepState(s: State, a: Action, v: string)
    requires Enabled(s, a) && v in s.workers && Actor(a) != Some(v)
    ensures v in Next(s, a).workers && Next(s, a).workers[v] == s.workers[v]
  {
  }

  lemma ActorIsGood(s: State, a: Action)
    requires Enabled(s, a) && GoodClaimers(s) && Actor(a).Some?
    ensures a.w in s.workers && Next(s, a).workers.Keys == s.workers.Keys && GoodClaimer(Next(s, a), a.w)
  {
    ActorRemains(s, a);
    assert GoodClaimer(s, a.w);
    hide GoodClaimers;
  }

  lemma ActorRemains(s: State, a: Action)
    requires Enabled(s, a) && Actor(a).Some?
    ensures a.w in s.workers && Next(s, a).workers.Keys == s.workers.Keys
  {
  }

  lemma NewHoldIsFree(s: State, a: Action, v: string)
    requires Enabled(s, a) && GoodClaimers(s) && Actor(a).Some? && a.w in s.workers && Next(s, a).workers[a.w].Holding?
    requires v in s.workers && v != a.w && s.workers[v].Holding?
    ensures s.workers[v].job != Next(s, a).workers[a.w].job
  {
  }

  lemma StepKeepsClaimers(s: State, a: Action)
    requires GoodRows(s.jobs) && GoodClaimers(s) && Enabled(s, a)
    ensures GoodClaimers(Next(s, a))
  {
    var u := Next(s, a);
    StepKeepsRows(s, a);
    ClockMovesOn(s, a);
    hide Next, Enabled, GoodRows;
    if Actor(a).Some? {
      ActorIsGood(s, a);
    }
    forall w | w in u.workers ensures GoodClaimer(u, w) {
      if Actor(a) != Some(w) {
        assert GoodClaimer(s, w);
        OthersStay(s, a, w);
      }
    }
    forall v, w | v in u.workers && w in u.workers && u.workers[v].Holding? && u.workers[w].Holding? && v != w
      ensures u.workers[v].job != u.workers[w].job
    {
      if Actor(a) == Some(v) {
        OthersStay(s, a, w);
        NewHoldIsFree(s, a, w);
      } else if Actor(a) == Some(w) {
        OthersStay(s, a, v);
        NewHoldIsFree(s, a, v);
      } else {
        OthersStay(s, a, v);
        OthersStay(s, a, w);
      }
    }
  }

  lemma ClockMovesOn(s: State, a: Action)
    requires Enabled(s, a)
    ensures s.now <= Next(s, a).now && Next(s, a).maxRetries == s.maxRetries
    ensures Next(s, a).workers.Keys == s.workers.Keys
  {
  }

  // -------------------------------------------------------------------- log

  /** How a step writes the log: a claim of an expired or queued row under a new lease, an ack or
      fail that ends the row's lease, or nothing, with the leased rows as they were. */
  lemma LogStep(s: State, a: Action)
    requires Enabled(s, a) && GoodClaimers(s) && LeaseColumnsAgree(s.jobs)
    ensures var u := Next(s, a);
      || (u.log == s.log && forall j | j in s.jobs :: j in u.jobs && u.jobs[j] == s.jobs[j])
      || (exists j :: j in s.jobs && u.log == s.log + [Released(j)] && u.jobs == s.jobs[j := u.jobs[j]])
      || (exists j, t, e, pick :: t <= e && ClaimStep(s, u, j, t, e, pick))
  {
    match a
    case CommitClaim(w, leaseSeconds) =>
      var k := s.workers[w];
      assert GoodClaimer(s, w);
      assert ClaimStep(s, Next(s, a), k.job, k.t, k.t + leaseSeconds, k.pick);
    case CommitAck(w) =>
      var j := s.workers[w].job;
      assert j in s.jobs && Next(s, a).log == s.log + [Released(j)];
    case CommitFail(w) =>
      var j := s.workers[w].job;
      assert j in s.jobs && Next(s, a).log == s.log + [Released(j)];
    case _ =>
  }

  ghost predicate ClaimStep(s: State, u: State, j: nat, t: int, e: int, pick: Pick) {
    && j in s.jobs && Runnable(s.jobs[j], t) && t <= s.now && Oldest(pick, t, j)
    && u.log == s.log + [Claimed(j, t, e, pick)]
    && u.jobs.Keys == s.jobs.Keys && u.jobs == s.jobs[j := u.jobs[j]]
    && u.jobs[j].status.Leased? && u.jobs[j].leaseExpiresAt == Some(e)
  }

  lemma ReleaseKeepsLog(s: State, u: State, j: nat)
    requires LogCovered(s.log, s.jobs) && ClaimsApart(s.log)
    requires j in s.jobs && u.log == s.log + [Released(j)] && j in u.jobs && u.jobs == s.jobs[j := u.jobs[j]]
    ensures LogCovered(u.log, u.jobs) && ClaimsApart(u.log) && (ClaimsOldest(s.log) ==> ClaimsOldest(u.log))
  {
    forall i | 0 <= i < |u.log| && u.log[i].Claimed? && Unreleased(u.log, i)
      ensures Covered(u.jobs, u.log[i].job, u.log[i].expires)
    {
      assert u.log[|s.log|] == Released(j);
      assert forall k | i < k < |s.log| :: s.log[k] == u.log[k];
      assert Unreleased(s.log, i);
    }
    EarlierClaimsApart(s.log, u.log);
  }

  lemma ClaimKeepsLog(s: State, u: State, j: nat, t: int, e: int, pick: Pick)
    requires LogCovered(s.log, s.jobs) && ClaimsApart(s.log) && t <= e && ClaimStep(s, u, j, t, e, pick)
    ensures LogCovered(u.log, u.jobs) && ClaimsApart(u.log) && (ClaimsOldest(s.log) ==> ClaimsOldest(u.log))
  {
    var n := |s.log|;
    forall i | 0 <= i < n && u.log[i].Claimed? && Unreleased(u.log, i)
      ensures Covered(s.jobs, u.log[i].job, u.log[i].expires)
    {
      assert forall k | i < k < n :: s.log[k] == u.log[k];
      assert Unreleased(s.log, i);
    }
    forall i | 0 <= i < n && u.log[i].Claimed? && u.log[i].job == j
      ensures u.log[i].expires < t || exists m :: i < m < n && u.log[m] == Released(j)
    {
      if !exists m :: i < m < n && u.log[m] == Released(j) {
        assert Unreleased(u.log, i);
      }
    }
    EarlierClaimsApart(s.log, u.log);
  }

  lemma EarlierClaimsApart(log: seq<Event>, longer: seq<Event>)
    requires ClaimsApart(log) && log <= longer
    ensures forall i, k
      | 0 <= i < k < |log| && longer[i].Claimed? && longer[k].Claimed? && longer[i].job == longer[k].job ::
      longer[i].expires < longer[k].at || exists m :: i < m < k && longer[m] == Released(longer[i].job)
  {
    forall i, k | 0 <= i < k < |log| && longer[i].Claimed? && longer[k].Claimed? && longer[i].job == longer[k].job
      ensures longer[i].expires < longer[k].at || exists m :: i < m < k && longer[m] == Released(longer[i].job)
    {
      assert log[i] == longer[i] && log[k] == longer[k];
      if m :| i < m < k && log[m] == Released(log[i].job) {
        assert longer[m] == log[m];
      }
    }
  }

  lemma StepKeepsLog(s: State, a: Action)
    requires Consistent(s) && Enabled(s, a)
    ensures LogCovered(Next(s, a).log, Next(s, a).jobs) && ClaimsApart(Next(s, a).log) && ClaimsOldest(Next(s, a).log)
  {
    var u := Next(s, a);
    StepKeepsRows(s, a);
    LogStep(s, a);
    hide Next, Enabled, GoodRows, GoodClaimers, ClaimStep, Oldest;
    if j :| j in s.jobs && u.log == s.log + [Released(j)] && u.jobs == s.jobs[j := u.jobs[j]] {
      ReleaseKeepsLog(s, u, j);
    } else if j, t, e, pick :| t <= e && ClaimStep(s, u, j, t, e, pick) {
      ClaimKeepsLog(s, u, j, t, e, pick);
    }
  }

  /** One step of any worker, client or clock keeps the queue consistent. */
  lemma StepKeepsConsistent(s: State, a: Action)
    requires Consistent(s) && Enabled(s, a)
    ensures Consistent(Next(s, a))
  {
    StepKeepsRows(s, a);
    StepKeepsClaimers(s, a);
    StepKeepsLog(s, a);
  }

  // ------------------------------------------------------------------- runs

  ghost predicate CanRun(s: State, actions: seq<Action>)
    decreases |actions|
  {
    actions == [] || (Enabled(s, actions[0]) && CanRun(Next(s, actions[0]), actions[1..]))
  }

  ghost function Run(s: State, actions: seq<Action>): State
    requires CanRun(s, actions)
    decreases |actions|
  {
    if actions == [] then s else Run(Next(s, actions[0]), actions[1..])
  }

  /** In all runs: dedupe keys stay unique and rows stay; a row is leased exactly when it names an
      owner; two claims of one job are separated by lease expiry or by an ack or fail. */
  lemma {:induction false} EveryRunIsConsistent(s: State, actions: seq<Action>)
    requires Consistent(s) && CanRun(s, actions)
    ensures Consistent(Run(s, actions)) && RowsPersist(s.jobs, Run(s, actions).jobs)
    decreases |actions|
  {
    if actions == [] {
    } else {
      StepKeepsConsistent(s, actions[0]);
      StepKeepsRows(s, actions[0]);
      EveryRunIsConsistent(Next(s, actions[0]), actions[1..]);
    }
  }

  /** `SKIP LOCKED` claims under any interleaving: every claim a run commits took the oldest row that
      was runnable and unlocked at its locking read, and the row was still runnable at the commit. */
  lemma ClaimTakesOldest(s: State, actions: seq<Action>, k: nat)
    requires Consistent(s) && CanRun(s, actions) && k < |Run(s, actions).log| && Run(s, actions).log[k].Claimed?
    ensures var e := Run(s, actions).log[k]; Oldest(e.pick, e.at, e.job)
    ensures forall a | Enabled(Run(s, actions), a) && a.CommitClaim? ::
      Runnable(Run(s, actions).jobs[Run(s, actions).workers[a.w].job], Run(s, actions).workers[a.w].t)
  {
    EveryRunIsConsistent(s, actions);
    var u := Run(s, actions);
    hide Run, CanRun, Next, Oldest;
    forall a | Enabled(u, a) && a.CommitClaim? ensures Runnable(u.jobs[u.workers[a.w].job], u.workers[a.w].t) {
      assert GoodClaimer(u, a.w);
    }
  }

  lemma InitialIsConsistent(s: State)
    requires Initial(s)
    ensures Consistent(s)
  {
  }

  /** A key once accepted is never accepted again, at any later point of any run. */
  lemma KeyAcceptedOnce(s: State, j: nat, actions: seq<Action>, task: Task, id: nat, runAfter: Option<int>)
    requires Consistent(s) && CanRun(s, actions) && j in s.jobs && s.jobs[j].key == DedupeKey(task)
    ensures Accept(Run(s, actions), task, id, runAfter) == Run(s, actions).jobs
  {
    EveryRunIsConsistent(s, actions);
    assert j in Run(s, actions).jobs && Run(s, actions).jobs[j].key == DedupeKey(task);
  }
}
