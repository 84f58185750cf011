/** What a worker past its lease can undo, since neither the writes of the handlers nor `ack` and `fail`
    look at what they overwrite: for every such write the exact states in which it does harm, and
    runs from an empty queue that reach them. */
module WorkersLate {
  import opened Options
  import opened Lifecycle
  import opened Jobs
  import opened Workers
  import opened WorkersAllRuns
  import opened WorkersTimely
  import opened WorkersRuns

  // --------------------------------------------------- when a write does harm

  /** The lifecycle write of `extract_chunk` moves its chunk backwards exactly when the chunk is
      neither pending any more nor in the stage written. */
  lemma ExtractionHarmsIff(s: State, w: string, admit: bool)
    requires Enabled(s, WriteExtraction(w, admit))
    ensures var c, stage := TaskOf(s, w).chunk, if admit then Admitted else Dropped;
      !ChunksAdvance(s.chunks, Next(s, WriteExtraction(w, admit)).chunks) <==>
        c in s.chunks && !s.chunks[c].PendingExtraction? && s.chunks[c] != stage
  {
    var u := Next(s, WriteExtraction(w, admit));
    assert TaskOf(s, w).chunk in s.chunks ==> u.chunks[TaskOf(s, w).chunk] == if admit then Admitted else Dropped;
  }

  /** The write of `append_buffer`, exactly when its chunk is neither admitted nor buffered. */
  lemma BufferingHarmsIff(s: State, w: string)
    requires Enabled(s, WriteBuffered(w))
    ensures var c := TaskOf(s, w).chunk;
      !ChunksAdvance(s.chunks, Next(s, WriteBuffered(w)).chunks) <==>
        c in s.chunks && !s.chunks[c].Admitted? && !s.chunks[c].Buffered?
  {
    var u := Next(s, WriteBuffered(w));
    assert TaskOf(s, w).chunk in s.chunks ==> u.chunks[TaskOf(s, w).chunk] == Buffered;
  }

  /** The write of a seal, exactly when a chunk it selected is neither buffered nor sealed. */
  lemma SealingHarmsIff(s: State, w: string)
    requires Enabled(s, WriteSealed(w))
    ensures !ChunksAdvance(s.chunks, Next(s, WriteSealed(w)).chunks) <==>
      exists c :: c in s.workers[w].progress.sel && c in s.chunks && !s.chunks[c].Buffered? && !s.chunks[c].Sealed?
  {
    var u := Next(s, WriteSealed(w));
    forall c | c in s.chunks
      ensures u.chunks[c] == if c in s.workers[w].progress.sel then Sealed else s.chunks[c] {}
  }

  /** The row was leased to another worker, and now is not. */
  predicate TakesLease(before: map<nat, Job>, after: map<nat, Job>, j: nat, w: string) {
    && j in before && before[j].status.Leased? && before[j].leaseOwner != Some(w)
    && j in after && !after[j].status.Leased?
  }

  /** An `ack` overwrites a finished row exactly when that job has failed, and takes another worker's
      lease exactly when another worker has the lease. */
  lemma AckHarmsIff(s: State, w: string)
    requires Consistent(s) && Enabled(s, CommitAck(w))
    ensures var j := s.workers[w].job;
      && (!FinishedStay(s.jobs, Next(s, CommitAck(w)).jobs) <==> s.jobs[j].status.Failed?)
      && (TakesLease(s.jobs, Next(s, CommitAck(w)).jobs, j, w) <==>
            s.jobs[j].status.Leased? && s.jobs[j].leaseOwner != Some(w))
  {
    var u, j := Next(s, CommitAck(w)), s.workers[w].job;
    assert u.jobs[j] == Jobs.Ack(s.jobs[j]);
    hide Consistent, GoodClaimers, LogCovered, ClaimsApart, ClaimsOldest;
    if s.jobs[j].status.Done? {
      LateBookkeepingOverwrites(s.jobs[j], 0, 0, 0);
    }
  }

  /** A `fail` overwrites a finished row unless that job failed from the same retry count, and takes a
      lease as an `ack` does. */
  lemma FailHarmsIff(s: State, w: string)
    requires Consistent(s) && Enabled(s, CommitFail(w))
    ensures var j, retries := s.workers[w].job, s.workers[w].ledger.retries;
      && (!FinishedStay(s.jobs, Next(s, CommitFail(w)).jobs) <==>
            || s.jobs[j].status.Done?
            || (s.jobs[j].status.Failed? && !(s.jobs[j].retryCount == retries + 1 && retries + 1 >= s.maxRetries)))
      && (TakesLease(s.jobs, Next(s, CommitFail(w)).jobs, j, w) <==>
            s.jobs[j].status.Leased? && s.jobs[j].leaseOwner != Some(w))
  {
    var u, k := Next(s, CommitFail(w)), s.workers[w];
    assert u.jobs[k.job] == Jobs.Fail(s.jobs[k.job], k.ledger.retries, s.now, s.maxRetries);
    hide Consistent, GoodClaimers, LogCovered, ClaimsApart, ClaimsOldest;
    if s.jobs[k.job].status.Done? || s.jobs[k.job].status.Failed? {
      LateBookkeepingOverwrites(s.jobs[k.job], k.ledger.retries, s.now, s.maxRetries);
    }
  }

  /** A chunk goes backwards, or a finished job changes. */
  ghost predicate Undoes(s: State, u: State) {
    !ChunksAdvance(s.chunks, u.chunks) || !FinishedStay(s.jobs, u.jobs)
  }

  /** The steps that do harm, read off the state before them. */
  ghost predicate Harmful(s: State, a: Action)
    requires Consistent(s) && Enabled(s, a)
  {
    match a
    case WriteExtraction(w, admit) =>
      var c := TaskOf(s, w).chunk;
      c in s.chunks && !s.chunks[c].PendingExtraction? && s.chunks[c] != if admit then Admitted else Dropped
    case WriteBuffered(w) =>
      var c := TaskOf(s, w).chunk;
      c in s.chunks && !s.chunks[c].Admitted? && !s.chunks[c].Buffered?
    case WriteSealed(w) =>
      exists c :: c in s.workers[w].progress.sel && c in s.chunks && !s.chunks[c].Buffered? && !s.chunks[c].Sealed?
    case CommitAck(w) => s.jobs[s.workers[w].job].status.Failed?
    case CommitFail(w) =>
      var job, retries := s.jobs[s.workers[w].job], s.workers[w].ledger.retries;
      || job.status.Done?
      || (job.status.Failed? && !(job.retryCount == retries + 1 && retries + 1 >= s.maxRetries))
    case _ => false
  }

  /** Of all steps of the machine, timely or late, exactly these five writes undo anything, and exactly
      then; a timely step never does in an orderly state. */
  lemma UndoesIff(s: State, a: Action)
    requires Consistent(s) && Enabled(s, a)
    ensures Undoes(s, Next(s, a)) <==> Harmful(s, a)
    ensures Orderly(s) && Timely(s, a) ==> !Harmful(s, a)
  {
    WritesUndoIff(s, a);
    if Orderly(s) && Timely(s, a) {
      hide Orderly, Timely, Harmful, Next, ChunksAdvance, FinishedStay, Consistent;
      StepKeepsOrderly(s, a);
    }
  }

  lemma WritesUndoIff(s: State, a: Action)
    requires Consistent(s) && Enabled(s, a)
    ensures Undoes(s, Next(s, a)) <==> Harmful(s, a)
  {
    hide Consistent, ChunksAdvance, FinishedStay, Next;
    if a.CommitAck? {
      OtherActionsMoveNothing(s, a);
      AckHarmsIff(s, a.w);
    } else if a.CommitFail? {
      OtherActionsMoveNothing(s, a);
      FailHarmsIff(s, a.w);
    } else {
      JobsStay(s, a);
      ChunkWritesUndoIff(s, a);
    }
  }

  lemma ChunkWritesUndoIff(s: State, a: Action)
    requires Consistent(s) && Enabled(s, a) && !a.CommitAck? && !a.CommitFail?
    ensures !ChunksAdvance(s.chunks, Next(s, a).chunks) <==> Harmful(s, a)
  {
    hide Consistent, ChunksAdvance, Next;
    match a
    case WriteExtraction(w, admit) => ExtractionHarmsIff(s, w, admit);
    case WriteBuffered(w) => BufferingHarmsIff(s, w);
    case WriteSealed(w) => SealingHarmsIff(s, w);
    case _ => OtherActionsMoveNothing(s, a);
  }

  lemma JobsStay(s: State, a: Action)
    requires Consistent(s) && Enabled(s, a) && !a.CommitAck? && !a.CommitFail?
    ensures FinishedStay(s.jobs, Next(s, a).jobs)
  {
    if a.CommitClaim? {
      assert GoodClaimer(s, a.w);
    }
    hide Consistent;
  }

  /** No step of the run is one of those. */
  ghost predicate Harmless(s: State, actions: seq<Action>)
    requires Consistent(s) && CanRun(s, actions)
    decreases |actions|
  {
    if actions == [] then true
    else
      StepKeepsConsistent(s, actions[0]);
      !Harmful(s, actions[0]) && Harmless(Next(s, actions[0]), actions[1..])
  }

  /** However late its steps, a run with no harmful one keeps the lifecycle and the finished jobs over
      its whole length; and timely runs have none. */
  lemma {:induction false} HarmlessRunsUndoNothing(s: State, actions: seq<Action>)
    requires Consistent(s) && CanRun(s, actions)
    ensures Harmless(s, actions) ==> FinishedStay(s.jobs, Run(s, actions).jobs)
    ensures Harmless(s, actions) ==>
      forall c | c in s.chunks :: c in Run(s, actions).chunks && Reaches(s.chunks[c], Run(s, actions).chunks[c])
    ensures Orderly(s) && TimelyRun(s, actions) ==> Harmless(s, actions)
    decreases |actions|
  {
    if actions != [] {
      var a := actions[0];
      StepKeepsConsistent(s, a);
      UndoesIff(s, a);
      if Orderly(s) && Timely(s, a) {
        StepKeepsOrderly(s, a);
      }
      hide Next, Enabled, Timely, Orderly, Consistent, Harmful;
      HarmlessRunsUndoNothing(Next(s, a), actions[1..]);
    }
  }

  // ------------------------------------------------------------ runs by example

  function AllButLast(actions: seq<Action>): seq<Action>
    requires actions != []
  {
    actions[..|actions| - 1]
  }

  /** Two extractions of one chunk: `u` reads it pending and outlives its lease; `v` claims the job,
      reads the chunk pending too and admits it; then `u` writes. */
  function LateExtraction(u: string, v: string, c: string, lease: nat, now: int): seq<Action> {
    [Ingest(c)] + FirstSteps(u, ExtractChunk(c), lease) + [ReadPending(u), Tick(now + lease + 1)]
    + ClaimSteps(v, 0, lease) + [ReadPending(v), WriteExtraction(v, true)] + [WriteExtraction(u, false)]
  }

  /** The run exists, all of it timely but its last step, and that step makes the admitted chunk a
      dropped one. */
  lemma LateExtractionRewindsAChunk(s: State, u: string, v: string, c: string, lease: nat)
    requires Initial(s) && u in s.workers && v in s.workers && u != v
    ensures var actions := LateExtraction(u, v, c, lease, s.now);
      && CanRun(s, actions) && !TimelyRun(s, actions) && InStage(Run(s, actions), c, Dropped)
      && exists t :: Reached(s, AllButLast(actions), t) && InStage(t, c, Admitted)
  {
    var t2 := ReadAndOutlived(s, u, v, c, lease);
    var start := LateStart(u, c, lease, s.now);
    var front := start + ClaimSteps(v, 0, lease) + [ReadPending(v), WriteExtraction(v, true)];
    ReadsThenAdmits(s, t2, u, v, c, lease);
    LateExtractionIs(u, v, c, lease, s.now);
    hide *;
    ClaimOnly(s, start, t2, v, 0, lease);
    var t3 := AfterClaim(t2, v, 0, lease);
    TwoSteps(s, start + ClaimSteps(v, 0, lease), t3, ReadPending(v), WriteExtraction(v, true));
    var t4 := Next(Next(t3, ReadPending(v)), WriteExtraction(v, true));
    WritesLate(s, t4, u, c, lease);
    LateStep(s, front, t4, WriteExtraction(u, false));
  }

  function LateStart(u: string, c: string, lease: nat, now: int): seq<Action> {
    [Ingest(c)] + FirstSteps(u, ExtractChunk(c), lease) + [ReadPending(u), Tick(now + lease + 1)]
  }

  lemma ReadAndOutlived(s: State, u: string, v: string, c: string, lease: nat) returns (t: State)
    requires Initial(s) && u in s.workers && v in s.workers && u != v
    ensures Reached(s, LateStart(u, c, lease, s.now), t)
    ensures ClaimOpen(t, v, 0) && Outlived(s, t, u, c, lease) && InStage(t, c, PendingExtraction)
    ensures v in t.workers
  {
    StartsEmpty(s);
    IngestFirst(s, c);
    var t0 := Next(s, Ingest(c));
    assert v in t0.workers && u in t0.workers;
    hide Initial, Reached, Enabled, Timely, Next, ClaimOpen, Outlived, InStage;
    OneStep(s, [], s, Ingest(c));
    assert [] + [Ingest(c)] == [Ingest(c)];
    var t1 := EnqueueAndClaim(s, [Ingest(c)], t0, u, ExtractChunk(c), lease);
    ReadsThenWaits(s, t0, t1, u, v, c, lease);
    TwoSteps(s, [Ingest(c)] + FirstSteps(u, ExtractChunk(c), lease), t1, ReadPending(u), Tick(s.now + lease + 1));
    t := Next(Next(t1, ReadPending(u)), Tick(s.now + lease + 1));
  }

  lemma LateExtractionIs(u: string, v: string, c: string, lease: nat, now: int)
    ensures var front :=
        LateStart(u, c, lease, now) + ClaimSteps(v, 0, lease) + [ReadPending(v), WriteExtraction(v, true)];
      && LateExtraction(u, v, c, lease, now) == front + [WriteExtraction(u, false)]
      && AllButLast(LateExtraction(u, v, c, lease, now)) == front
  {
  }

  lemma IngestFirst(s: State, c: string)
    requires Initial(s)
    ensures CanTake(s, Ingest(c)) && Next(s, Ingest(c)) == s.(chunks := map[c := PendingExtraction])
  {
  }

  /** `u` has read its chunk pending and its lease has run out. */
  ghost predicate Outlived(s: State, t: State, u: string, c: string, lease: nat) {
    && u in t.workers && t.workers[u] == Worker.Running(0, s.now + lease, Scored)
    && t.now == s.now + lease + 1 && t.jobs.Keys == {0} && t.jobs[0].task == ExtractChunk(c)
  }

  lemma ReadsThenWaits(s: State, t0: State, t: State, u: string, v: string, c: string, lease: nat)
    requires Initial(s) && u in s.workers && v in s.workers && u != v
    requires t0 == s.(chunks := map[c := PendingExtraction]) && FirstClaimed(t0, t, u, ExtractChunk(c), lease)
    ensures CanTake(t, ReadPending(u)) && CanTake(Next(t, ReadPending(u)), Tick(s.now + lease + 1))
    ensures var t2 := Next(Next(t, ReadPending(u)), Tick(s.now + lease + 1));
      v in t2.workers && ClaimOpen(t2, v, 0) && Outlived(s, t2, u, c, lease) && InStage(t2, c, PendingExtraction)
  {
    var t1 := Next(t, ReadPending(u));
    assert t1 == t.(workers := t.workers[u := Worker.Running(0, s.now + lease, Scored)]);
  }

  lemma ReadsThenAdmits(s: State, t2: State, u: string, v: string, c: string, lease: nat)
    requires u != v && v in t2.workers && Outlived(s, t2, u, c, lease) && InStage(t2, c, PendingExtraction)
    ensures 0 in t2.jobs
    ensures var t3 := AfterClaim(t2, v, 0, lease);
      && CanTake(t3, ReadPending(v)) && CanTake(Next(t3, ReadPending(v)), WriteExtraction(v, true))
      && var t4 := Next(Next(t3, ReadPending(v)), WriteExtraction(v, true));
      Outlived(s, t4, u, c, lease) && InStage(t4, c, Admitted)
  {
    var t3 := AfterClaim(t2, v, 0, lease);
    var reader := Worker.Running(0, t2.now + lease, Scored);
    assert Next(t3, ReadPending(v)) == t3.(workers := t3.workers[v := reader]);
  }

  lemma WritesLate(s: State, t: State, u: string, c: string, lease: nat)
    requires Outlived(s, t, u, c, lease) && InStage(t, c, Admitted)
    ensures Enabled(t, WriteExtraction(u, false)) && !Timely(t, WriteExtraction(u, false))
    ensures InStage(Next(t, WriteExtraction(u, false)), c, Dropped)
  {
  }

  /** A job whose handler raised in `u` outlives the lease, is done by `v`, and then gets `u`'s
      fail. */
  function LateFail(u: string, v: string, key: string, lease: nat, now: int): seq<Action> {
    FirstSteps(u, Other(key), lease) + [Raise(u), ReadRetries(u), Tick(now + lease + 1)]
    + ClaimSteps(v, 0, lease) + [Return(v), CommitAck(v)] + [CommitFail(u)]
  }

  /** The done job is queued again if the limit is above 1, and otherwise has failed. */
  lemma LateFailRevivesADoneJob(s: State, u: string, v: string, key: string, lease: nat)
    requires Initial(s) && u in s.workers && v in s.workers && u != v
    ensures var actions := LateFail(u, v, key, lease, s.now);
      && CanRun(s, actions) && !TimelyRun(s, actions) && 0 in Run(s, actions).jobs
      && Run(s, actions).jobs[0].status == (if s.maxRetries > 1 then Queued else Failed)
      && exists t :: Reached(s, AllButLast(actions), t) && IsDone(t, 0)
  {
    var t2 := RaisedAndOverdue(s, u, v, key, lease);
    var start := FailStart(u, key, lease, s.now);
    var front := start + ClaimSteps(v, 0, lease) + [Return(v), CommitAck(v)];
    ReturnsThenAcks(s, t2, u, v, key, lease);
    LateFailIs(u, v, key, lease, s.now);
    hide *;
    ClaimOnly(s, start, t2, v, 0, lease);
    var t3 := AfterClaim(t2, v, 0, lease);
    TwoSteps(s, start + ClaimSteps(v, 0, lease), t3, Return(v), CommitAck(v));
    var t4 := Next(Next(t3, Return(v)), CommitAck(v));
    FailsLate(s, t4, u, lease);
    LateStep(s, front, t4, CommitFail(u));
  }

  predicate IsDone(s: State, j: nat) {
    j in s.jobs && s.jobs[j].status.Done?
  }

  function FailStart(u: string, key: string, lease: nat, now: int): seq<Action> {
    FirstSteps(u, Other(key), lease) + [Raise(u), ReadRetries(u), Tick(now + lease + 1)]
  }

  lemma LateFailIs(u: string, v: string, key: string, lease: nat, now: int)
    ensures var front := FailStart(u, key, lease, now) + ClaimSteps(v, 0, lease) + [Return(v), CommitAck(v)];
      && LateFail(u, v, key, lease, now) == front + [CommitFail(u)]
      && AllButLast(LateFail(u, v, key, lease, now)) == front
  {
  }

  lemma RaisedAndOverdue(s: State, u: string, v: string, key: string, lease: nat) returns (t: State)
    requires Initial(s) && u in s.workers && v in s.workers && u != v
    ensures Reached(s, FailStart(u, key, lease, s.now), t)
    ensures v in t.workers && ClaimOpen(t, v, 0) && Overdue(s, t, u, lease) && t.jobs[0].task == Other(key)
  {
    StartsEmpty(s);
    hide Initial, Reached, Enabled, Timely, Next, ClaimOpen, Overdue;
    var t1 := EnqueueAndClaim(s, [], s, u, Other(key), lease);
    assert [] + FirstSteps(u, Other(key), lease) == FirstSteps(u, Other(key), lease);
    RaisesThenWaits(s, t1, u, v, key, lease);
    ThreeSteps(s, FirstSteps(u, Other(key), lease), t1, Raise(u), ReadRetries(u), Tick(s.now + lease + 1));
    t := Next(Next(Next(t1, Raise(u)), ReadRetries(u)), Tick(s.now + lease + 1));
  }

  /** `u` has read a retry count of 0 and its lease has run out. */
  ghost predicate Overdue(s: State, t: State, u: string, lease: nat) {
    && u in t.workers && t.workers[u] == Worker.Booking(0, s.now + lease, Recorded(0), Shielded)
    && t.now == s.now + lease + 1 && t.jobs.Keys == {0} && t.maxRetries == s.maxRetries
    && forall w | w in t.workers :: !t.workers[w].Holding?
  }

  lemma RaisesThenWaits(s: State, t: State, u: string, v: string, key: string, lease: nat)
    requires Initial(s) && u in s.workers && v in s.workers && u != v && FirstClaimed(s, t, u, Other(key), lease)
    ensures CanTake(t, Raise(u)) && CanTake(Next(t, Raise(u)), ReadRetries(u))
    ensures CanTake(Next(Next(t, Raise(u)), ReadRetries(u)), Tick(s.now + lease + 1))
    ensures var t2 := Next(Next(Next(t, Raise(u)), ReadRetries(u)), Tick(s.now + lease + 1));
      v in t2.workers && ClaimOpen(t2, v, 0) && Overdue(s, t2, u, lease) && t2.jobs[0].task == Other(key)
  {
    var t1 := Next(t, Raise(u));
    assert t1 == t.(workers := t.workers[u := Worker.Booking(0, s.now + lease, Failing, Shielded)]);
    assert Next(t1, ReadRetries(u))
        == t.(workers := t.workers[u := Worker.Booking(0, s.now + lease, Recorded(0), Shielded)]);
  }

  lemma ReturnsThenAcks(s: State, t2: State, u: string, v: string, key: string, lease: nat)
    requires u != v && v in t2.workers && Overdue(s, t2, u, lease) && t2.jobs[0].task == Other(key)
    ensures var t3 := AfterClaim(t2, v, 0, lease);
      && CanTake(t3, Return(v)) && CanTake(Next(t3, Return(v)), CommitAck(v))
      && var t4 := Next(Next(t3, Return(v)), CommitAck(v));
      Overdue(s, t4, u, lease) && IsDone(t4, 0)
  {
    var t3 := AfterClaim(t2, v, 0, lease);
    var waiting := Worker.Booking(0, t2.now + lease, Acking, Shielded);
    assert Next(t3, Return(v)) == t3.(workers := t3.workers[v := waiting]);
  }

  lemma FailsLate(s: State, t: State, u: string, lease: nat)
    requires Overdue(s, t, u, lease)
    ensures Enabled(t, CommitFail(u)) && !Timely(t, CommitFail(u))
    ensures var t' := Next(t, CommitFail(u));
      0 in t'.jobs && t'.jobs[0].status == if s.maxRetries > 1 then Queued else Failed
  {
  }
}
