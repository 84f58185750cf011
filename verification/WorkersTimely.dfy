/** What timely runs keep: those in which a worker's handler steps, acks and fails all happen
    within the lease it claimed. Crashes, cancellations, retries and interleavings stay arbitrary.
    The write of `extract_chunk` looks at nothing, so its correctness rests on dedupe keys (one
    job per chunk), leases (one live worker per job) and the read guards, all at once. */
module WorkersTimely {
  import opened Options
  import opened Lifecycle
  import opened Jobs
  import opened Workers
  import opened WorkersAllRuns

  /** Steps of a handler and of its ack or fail are taken inside the lease. */
  predicate Timely(s: State, a: Action)
    requires Enabled(s, a)
  {
    Actor(a).Some? && a.w in s.workers && Active(s.workers[a.w]) && !a.Cancel? && !a.Crash? && !a.BookkeepingError? ==>
      InLease(s, a.w)
  }

  /** A live lease: the row says the same. A live `fail` has the row's retry count, a live
      extraction its chunk still pending, a live append its chunk still admitted. */
  ghost predicate LiveWorker(s: State, w: string)
    requires w in s.workers && Active(s.workers[w]) && s.workers[w].job in s.jobs
  {
    var k := s.workers[w];
    var row := s.jobs[k.job];
    && row.status.Leased? && row.leaseOwner == Some(w) && row.leaseExpiresAt == Some(k.expires)
    && (k.Booking? && k.ledger.Recorded? ==> k.ledger.retries == row.retryCount)
    && (k.Running? && k.progress.Scored? && row.task.ExtractChunk? ==> InStage(s, row.task.chunk, PendingExtraction))
    && (k.Running? && k.progress.SeenAdmitted? && row.task.AppendBuffer? ==> InStage(s, row.task.chunk, Admitted))
  }

  ghost predicate LiveWorkers(s: State) {
    && (forall w | w in s.workers && Active(s.workers[w]) && InLease(s, w) ::
          s.workers[w].job in s.jobs && LiveWorker(s, w))
    && (forall v, w | v in s.workers && w in s.workers && Active(s.workers[v]) && Active(s.workers[w])
          && InLease(s, v) && InLease(s, w) && s.workers[v].job == s.workers[w].job :: v == w)
  }

  /** What a seal selected is never anything but buffered or sealed, even if other seals overlap. */
  ghost predicate SelectionsHold(s: State) {
    forall w, c
      | && w in s.workers && s.workers[w].Running?
        && s.workers[w].progress.Selected? && c in s.workers[w].progress.sel ::
      InStage(s, c, Buffered) || InStage(s, c, Sealed)
  }

  /** Retry counts stay below the limit until the job fails for good, exactly at the limit. */
  ghost predicate RetriesBounded(s: State) {
    s.maxRetries >= 1 && forall j | j in s.jobs ::
      if s.jobs[j].status.Failed? then s.jobs[j].retryCount == s.maxRetries else s.jobs[j].retryCount < s.maxRetries
  }

  ghost predicate Orderly(s: State) {
    Consistent(s) && LiveWorkers(s) && SelectionsHold(s) && RetriesBounded(s)
  }

  ghost predicate ChunksAdvance(before: map<string, Stage>, after: map<string, Stage>) {
    forall c | c in before :: c in after && (after[c] == before[c] || Advances(before[c], after[c]))
  }

  /** Finished jobs are never touched again. */
  ghost predicate FinishedStay(before: map<nat, Job>, after: map<nat, Job>) {
    forall j | j in before && (before[j].status.Done? || before[j].status.Failed?) ::
      j in after && after[j] == before[j]
  }

  // ------------------------------------------------------------------ one step

  /** Who may move a chunk on from a stage. */
  ghost predicate MovedRightly(s: State, a: Action, chunks: map<string, Stage>) {
    && ChunksAdvance(s.chunks, chunks)
    && forall c | c in s.chunks && chunks[c] != s.chunks[c] ::
      match s.chunks[c]
      case PendingExtraction => a.WriteExtraction? && Acts(s, a.w) && TaskOf(s, a.w) == ExtractChunk(c)
      case Admitted => a.WriteBuffered? && Acts(s, a.w) && TaskOf(s, a.w) == AppendBuffer(c)
      case _ => a.WriteSealed?
  }

  predicate Acts(s: State, w: string) {
    w in s.workers && Active(s.workers[w]) && s.workers[w].job in s.jobs
  }

  /** The stages a step moves, and by whom. */
  lemma ChunksStep(s: State, a: Action)
    requires Consistent(s) && LiveWorkers(s) && SelectionsHold(s) && Enabled(s, a) && Timely(s, a)
    ensures MovedRightly(s, a, Next(s, a).chunks)
  {
    hide Consistent, LiveWorkers, SelectionsHold, Next, MovedRightly;
    match a
    case WriteExtraction(w, admit) => ExtractionMoves(s, w, admit);
    case WriteBuffered(w) => BufferingMoves(s, w);
    case WriteSealed(w) => SealingMoves(s, w);
    case _ => OtherActionsMoveNothing(s, a);
  }

  lemma ExtractionMoves(s: State, w: string, admit: bool)
    requires LiveWorkers(s) && Enabled(s, WriteExtraction(w, admit)) && InLease(s, w)
    ensures MovedRightly(s, WriteExtraction(w, admit), Next(s, WriteExtraction(w, admit)).chunks)
  {
    assert LiveWorker(s, w);
  }

  lemma BufferingMoves(s: State, w: string)
    requires LiveWorkers(s) && Enabled(s, WriteBuffered(w)) && InLease(s, w)
    ensures MovedRightly(s, WriteBuffered(w), Next(s, WriteBuffered(w)).chunks)
  {
    assert LiveWorker(s, w);
  }

  lemma SealingMoves(s: State, w: string)
    requires SelectionsHold(s) && Enabled(s, WriteSealed(w))
    ensures MovedRightly(s, WriteSealed(w), Next(s, WriteSealed(w)).chunks)
  {
    forall c | c in s.workers[w].progress.sel ensures InStage(s, c, Buffered) || InStage(s, c, Sealed) {}
  }

  lemma OtherActionsMoveNothing(s: State, a: Action)
    requires Enabled(s, a) && !a.WriteExtraction? && !a.WriteBuffered? && !a.WriteSealed?
    ensures MovedRightly(s, a, Next(s, a).chunks)
  {
    ChunksStay(s, a);
    hide Next, Enabled;
  }

  lemma ChunksStay(s: State, a: Action)
    requires Enabled(s, a) && !a.WriteExtraction? && !a.WriteBuffered? && !a.WriteSealed?
    ensures forall c | c in s.chunks :: c in Next(s, a).chunks && Next(s, a).chunks[c] == s.chunks[c]
  {
  }

  /** Two live workers never run jobs with one and the same task: the dedupe key makes the jobs
      one job, and the lease makes its holders one worker. */
  lemma OneLiveWorkerPerTask(s: State, v: string, w: string)
    requires GoodRows(s.jobs) && LiveWorkers(s)
    requires v in s.workers && Active(s.workers[v]) && InLease(s, v)
    requires w in s.workers && Active(s.workers[w]) && InLease(s, w)
    ensures s.workers[v].job in s.jobs && s.workers[w].job in s.jobs
    ensures TaskOf(s, v) == TaskOf(s, w) ==> v == w
  {
    assert LiveWorker(s, v) && LiveWorker(s, w);
    assert s.jobs[s.workers[v].job].key == DedupeKey(TaskOf(s, v));
    assert s.jobs[s.workers[w].job].key == DedupeKey(TaskOf(s, w));
  }

  /** The row of a live lease changes only by its own holder. */
  lemma LeasedRowStays(s: State, a: Action, v: string)
    requires Consistent(s) && LiveWorkers(s) && Enabled(s, a) && Timely(s, a)
    requires v in s.workers && Active(s.workers[v]) && InLease(s, v) && Actor(a) != Some(v)
    ensures s.workers[v].job in Next(s, a).jobs && Next(s, a).jobs[s.workers[v].job] == s.jobs[s.workers[v].job]
  {
    assert LiveWorker(s, v);
    if a.CommitClaim? {
      assert GoodClaimer(s, a.w);
    }
  }

  lemma OtherStaysLive(s: State, a: Action, v: string)
    requires Consistent(s) && LiveWorkers(s) && SelectionsHold(s) && Enabled(s, a) && Timely(s, a)
    requires v in s.workers && Active(s.workers[v]) && InLease(s, v) && Actor(a) != Some(v)
    ensures var u := Next(s, a);
      v in u.workers && u.workers[v] == s.workers[v] && s.workers[v].job in u.jobs && LiveWorker(u, v)
  {
    var k := s.workers[v];
    LeasedRowStays(s, a, v);
    OthersStay(s, a, v);
    ChunksStep(s, a);
    assert LiveWorker(s, v);
    if a.WriteExtraction? || a.WriteBuffered? {
      OneLiveWorkerPerTask(s, v, a.w);
    }
  }

  ghost predicate StaysLive(u: State, w: string) {
    w in u.workers && (Active(u.workers[w]) && InLease(u, w) ==> u.workers[w].job in u.jobs && LiveWorker(u, w))
  }

  /** A handler's own steps touch no job but the one it accepts, and its own lease stands. */
  lemma HandlerStaysLive(s: State, a: Action)
    requires Consistent(s) && LiveWorkers(s) && Enabled(s, a) && Timely(s, a) && Actor(a).Some?
    requires a.w in s.workers && s.workers[a.w].Running?
    ensures StaysLive(Next(s, a), a.w)
  {
    if InLease(s, a.w) {
      assert LiveWorker(s, a.w);
    }
  }

  lemma ActorStaysLive(s: State, a: Action)
    requires Consistent(s) && LiveWorkers(s) && Enabled(s, a) && Timely(s, a) && Actor(a).Some?
    ensures StaysLive(Next(s, a), a.w)
  {
    if a.w in s.workers && s.workers[a.w].Running? {
      HandlerStaysLive(s, a);
    } else if a.w in s.workers && Active(s.workers[a.w]) && InLease(s, a.w) {
      assert LiveWorker(s, a.w);
    }
  }

  /** A worker that comes to hold a job in lease is alone with it. */
  lemma ActorIsAlone(s: State, a: Action, v: string)
    requires Consistent(s) && LiveWorkers(s) && Enabled(s, a) && Timely(s, a) && Actor(a).Some? && v != a.w
    requires v in s.workers && Active(s.workers[v]) && InLease(s, v)
    ensures var u := Next(s, a);
      a.w in u.workers && (Active(u.workers[a.w]) && InLease(u, a.w) ==> u.workers[a.w].job != s.workers[v].job)
  {
    assert LiveWorker(s, v);
    assert GoodClaimer(s, a.w);
  }

  lemma StepKeepsLive(s: State, a: Action)
    requires Consistent(s) && LiveWorkers(s) && SelectionsHold(s) && Enabled(s, a) && Timely(s, a)
    ensures LiveWorkers(Next(s, a))
  {
    var u := Next(s, a);
    EachStaysLive(s, a);
    hide Next, Enabled, Timely, Consistent, LiveWorker, SelectionsHold;
    forall v, w | v in u.workers && w in u.workers && Active(u.workers[v]) && Active(u.workers[w])
          && InLease(u, v) && InLease(u, w) && v != w
      ensures u.workers[v].job != u.workers[w].job
    {
      if Actor(a) == Some(v) {
        ActorIsAlone(s, a, w);
      } else if Actor(a) == Some(w) {
        ActorIsAlone(s, a, v);
      }
    }
  }

  lemma EachStaysLive(s: State, a: Action)
    requires Consistent(s) && LiveWorkers(s) && SelectionsHold(s) && Enabled(s, a) && Timely(s, a)
    ensures forall w {:trigger InLease(Next(s, a), w)}
      | w in Next(s, a).workers && Active(Next(s, a).workers[w]) && InLease(Next(s, a), w) ::
      && Next(s, a).workers[w].job in Next(s, a).jobs && LiveWorker(Next(s, a), w)
      && (Actor(a) != Some(w) ==> w in s.workers && Next(s, a).workers[w] == s.workers[w] && InLease(s, w))
  {
    var u := Next(s, a);
    ClockMovesOn(s, a);
    if Actor(a).Some? {
      ActorStaysLive(s, a);
    }
    hide Next, Enabled, Timely, Consistent, LiveWorker;
    forall w | w in u.workers && Active(u.workers[w]) && InLease(u, w)
      ensures u.workers[w].job in u.jobs && LiveWorker(u, w)
      ensures Actor(a) != Some(w) ==> w in s.workers && u.workers[w] == s.workers[w] && InLease(s, w)
    {
      if Actor(a) != Some(w) {
        StaysAsIs(s, a, w);
        OtherStaysLive(s, a, w);
      }
    }
  }

  lemma StaysAsIs(s: State, a: Action, v: string)
    requires Consistent(s) && Enabled(s, a) && v in s.workers && Actor(a) != Some(v)
    ensures v in Next(s, a).workers && Next(s, a).workers[v] == s.workers[v]
  {
    OthersStay(s, a, v);
  }

  lemma StepKeepsSelections(s: State, a: Action)
    requires Consistent(s) && LiveWorkers(s) && SelectionsHold(s) && Enabled(s, a) && Timely(s, a)
    ensures SelectionsHold(Next(s, a))
  {
    var u := Next(s, a);
    ChunksStep(s, a);
    ClockMovesOn(s, a);
    NewSelection(s, a);
    hide Next, Enabled, Timely, Consistent, LiveWorkers;
    forall w, c
      | && w in u.workers && u.workers[w].Running?
        && u.workers[w].progress.Selected? && c in u.workers[w].progress.sel
      ensures InStage(u, c, Buffered) || InStage(u, c, Sealed)
    {
      if Actor(a) != Some(w) {
        StaysAsIs(s, a, w);
      }
      assert InStage(s, c, Buffered) || InStage(s, c, Sealed);
    }
  }

  /** The acting worker's selection, if it has one afterwards, was buffered when it selected it. */
  lemma NewSelection(s: State, a: Action)
    requires Consistent(s) && SelectionsHold(s) && Enabled(s, a)
    ensures Actor(a).Some? && Next(s, a).workers[a.w].Running? && Next(s, a).workers[a.w].progress.Selected? ==>
      forall c | c in Next(s, a).workers[a.w].progress.sel :: InStage(s, c, Buffered) || InStage(s, c, Sealed)
  {
  }

  lemma StepKeepsRetries(s: State, a: Action)
    requires Consistent(s) && LiveWorkers(s) && RetriesBounded(s) && Enabled(s, a) && Timely(s, a)
    ensures RetriesBounded(Next(s, a)) && FinishedStay(s.jobs, Next(s, a).jobs)
  {
    hide Consistent, LiveWorkers, RetriesBounded, FinishedStay, Next;
    match a
    case CommitClaim(w, leaseSeconds) => ClaimKeepsRetries(s, w, leaseSeconds);
    case CommitAck(w) => AckKeepsRetries(s, w);
    case CommitFail(w) => FailKeepsRetries(s, w);
    case _ => OtherActionsKeepRetries(s, a);
  }

  lemma ClaimKeepsRetries(s: State, w: string, leaseSeconds: nat)
    requires Consistent(s) && RetriesBounded(s) && Enabled(s, CommitClaim(w, leaseSeconds))
    ensures var u := Next(s, CommitClaim(w, leaseSeconds)); RetriesBounded(u) && FinishedStay(s.jobs, u.jobs)
  {
    hide RetriesBounded, FinishedStay;
    assert GoodClaimer(s, w);
    UpdateKeepsRetries(s, Next(s, CommitClaim(w, leaseSeconds)), s.workers[w].job);
  }

  lemma AckKeepsRetries(s: State, w: string)
    requires LiveWorkers(s) && RetriesBounded(s) && Enabled(s, CommitAck(w)) && InLease(s, w)
    ensures var u := Next(s, CommitAck(w)); RetriesBounded(u) && FinishedStay(s.jobs, u.jobs)
  {
    hide RetriesBounded, FinishedStay;
    LiveIs(s, w);
    UpdateKeepsRetries(s, Next(s, CommitAck(w)), s.workers[w].job);
  }

  lemma FailKeepsRetries(s: State, w: string)
    requires LiveWorkers(s) && RetriesBounded(s) && Enabled(s, CommitFail(w)) && InLease(s, w)
    ensures var u := Next(s, CommitFail(w)); RetriesBounded(u) && FinishedStay(s.jobs, u.jobs)
  {
    hide RetriesBounded, FinishedStay;
    LiveIs(s, w);
    UpdateKeepsRetries(s, Next(s, CommitFail(w)), s.workers[w].job);
  }

  lemma OtherActionsKeepRetries(s: State, a: Action)
    requires RetriesBounded(s) && Enabled(s, a) && !a.CommitClaim? && !a.CommitAck? && !a.CommitFail?
    ensures RetriesBounded(Next(s, a)) && FinishedStay(s.jobs, Next(s, a).jobs)
  {
    hide RetriesBounded, FinishedStay;
    UnchangedRows(s.jobs);
    if a.Enqueue? {
      AcceptKeepsRetries(s, Next(s, a), a.task, a.id, a.runAfter);
    } else if a.EnqueueAppend? {
      AcceptKeepsRetries(s, Next(s, a), AppendBuffer(TaskOf(s, a.w).chunk), a.id, None);
    } else {
      SameRowsSameRetries(s, Next(s, a));
    }
  }

  lemma UnchangedRows(jobs: map<nat, Job>)
    ensures FinishedStay(jobs, jobs)
  {
  }

  lemma LiveIs(s: State, w: string)
    requires LiveWorkers(s) && w in s.workers && Active(s.workers[w]) && InLease(s, w)
    ensures s.workers[w].job in s.jobs && LiveWorker(s, w)
  {
  }

  lemma SameRowsSameRetries(s: State, u: State)
    requires RetriesBounded(s) && u.jobs == s.jobs && u.maxRetries == s.maxRetries
    ensures RetriesBounded(u)
  {
  }

  lemma AcceptKeepsRetries(s: State, u: State, task: Task, id: nat, runAfter: Option<int>)
    requires RetriesBounded(s) && id !in s.jobs
    requires u.jobs == Accept(s, task, id, runAfter) && u.maxRetries == s.maxRetries
    ensures RetriesBounded(u) && FinishedStay(s.jobs, u.jobs)
  {
  }

  /** Claims touch queued or leased rows; live acks and fails touch leased ones. */
  lemma UpdateKeepsRetries(s: State, u: State, j: nat)
    requires RetriesBounded(s) && j in s.jobs && j in u.jobs
    requires u.jobs == s.jobs[j := u.jobs[j]] && u.maxRetries == s.maxRetries
    requires s.jobs[j].status.Queued? || s.jobs[j].status.Leased?
    requires var (row, was) := (u.jobs[j], s.jobs[j]);
      || (!row.status.Failed? && row.retryCount == was.retryCount)
      || exists now :: row == Fail(was, was.retryCount, now, s.maxRetries)
    ensures RetriesBounded(u) && FinishedStay(s.jobs, u.jobs)
  {
  }

  /** One timely step. */
  lemma StepKeepsOrderly(s: State, a: Action)
    requires Orderly(s) && Enabled(s, a) && Timely(s, a)
    ensures Orderly(Next(s, a))
    ensures ChunksAdvance(s.chunks, Next(s, a).chunks) && FinishedStay(s.jobs, Next(s, a).jobs)
  {
    StepKeepsConsistent(s, a);
    StepKeepsLive(s, a);
    StepKeepsSelections(s, a);
    StepKeepsRetries(s, a);
    ChunksStep(s, a);
  }

  // ---------------------------------------------------------------------- runs

  ghost predicate TimelyRun(s: State, actions: seq<Action>)
    decreases |actions|
  {
    actions == [] ||
    (Enabled(s, actions[0]) && Timely(s, actions[0]) && TimelyRun(Next(s, actions[0]), actions[1..]))
  }

  lemma {:induction false} TimelyRunsAreRuns(s: State, actions: seq<Action>)
    requires TimelyRun(s, actions)
    ensures CanRun(s, actions)
    decreases |actions|
  {
    if actions != [] {
      TimelyRunsAreRuns(Next(s, actions[0]), actions[1..]);
    }
  }

  /** In every timely run a chunk's stage only moves along pending -> admitted or dropped, and
      admitted -> buffered -> sealed; done and failed jobs stay as they are; and the retry counts
      stay below the limit, reaching it exactly on failed jobs. */
  lemma {:induction false} TimelyRunsAreOrderly(s: State, actions: seq<Action>)
    requires Orderly(s) && TimelyRun(s, actions)
    ensures CanRun(s, actions) && Orderly(Run(s, actions))
    ensures forall c | c in s.chunks :: c in Run(s, actions).chunks && Reaches(s.chunks[c], Run(s, actions).chunks[c])
    ensures FinishedStay(s.jobs, Run(s, actions).jobs)
    decreases |actions|
  {
    TimelyRunsAreRuns(s, actions);
    if actions == [] {
    } else {
      StepKeepsOrderly(s, actions[0]);
      hide Next, Enabled, Timely, Orderly;
      TimelyRunsAreOrderly(Next(s, actions[0]), actions[1..]);
    }
  }

  lemma InitialIsOrderly(s: State)
    requires Initial(s) && s.maxRetries >= 1
    ensures Orderly(s)
  {
  }
}
