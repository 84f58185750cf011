/** No job is claimed before it is due: a new one not before its `run_after`, one that failed not before
    its back-off has passed, in every interleaving, late and crashed workers included. */
module WorkersDue {
  import opened Options
  import opened Jobs
  import opened Workers
  import opened WorkersAllRuns

  /** The row is not due before `due`. */
  predicate DueFrom(s: State, j: nat, due: int) {
    j in s.jobs && s.jobs[j].runAfter.Some? && s.jobs[j].runAfter.value >= due
  }

  /** No worker claims, runs or books the job. */
  predicate NobodyOn(s: State, j: nat) {
    forall w | w in s.workers && (s.workers[w].Holding? || Active(s.workers[w])) :: s.workers[w].job != j
  }

  /** ... and any failure still to come will not bring it forward. */
  predicate Postponed(s: State, j: nat, due: int) {
    DueFrom(s, j, due) && (NobodyOn(s, j) || due <= s.now + 30)
  }

  lemma FreeStaysFree(s: State, a: Action, j: nat)
    requires Enabled(s, a) && NobodyOn(s, j) && !(a.SelectJob? && a.job == j)
    ensures NobodyOn(Next(s, a), j)
  {
  }

  lemma StaysDue(s: State, a: Action, j: nat, due: int)
    requires Consistent(s) && Enabled(s, a) && Postponed(s, j, due)
    ensures DueFrom(Next(s, a), j, due)
  {
    hide Consistent, GoodClaimers, UniqueKeys, LogCovered;
    if a.CommitClaim? || a.CommitAck? || a.CommitFail? {
      BookedRow(s, a);
    }
  }

  lemma HolderIsPastDue(s: State, w: string, j: nat, due: int)
    requires Consistent(s) && DueFrom(s, j, due) && w in s.workers && s.workers[w].Holding? && s.workers[w].job == j
    ensures due <= s.workers[w].t <= s.now
  {
    assert GoodClaimer(s, w);
  }

  lemma StepKeepsPostponed(s: State, a: Action, j: nat, due: int)
    requires Consistent(s) && Enabled(s, a) && Postponed(s, j, due)
    ensures Postponed(Next(s, a), j, due)
    ensures s.log <= Next(s, a).log && ClaimsFrom(Next(s, a).log, |s.log|, j, due)
  {
    StaysDue(s, a, j, due);
    ClockMovesOn(s, a);
    if a.CommitClaim? && s.workers[a.w].job == j {
      HolderIsPastDue(s, a.w, j, due);
    }
    NewClaimIs(s, a);
    if a.SelectJob? && a.job == j {
      PollerIsPast(s, a);
    } else if NobodyOn(s, j) {
      FreeStaysFree(s, a, j);
    }
    hide Consistent, Next;
  }

  /** From event `n` on, the claims of the job read the clock at `due` or later. */
  ghost predicate ClaimsFrom(log: seq<Event>, n: nat, j: nat, due: int) {
    forall i | n <= i < |log| && log[i].Claimed? && log[i].job == j :: log[i].at >= due
  }

  lemma NewClaimIs(s: State, a: Action)
    requires Enabled(s, a)
    ensures s.log <= Next(s, a).log
    ensures forall i | |s.log| <= i < |Next(s, a).log| && Next(s, a).log[i].Claimed? ::
      a.CommitClaim? && Next(s, a).log[i].job == s.workers[a.w].job && Next(s, a).log[i].at == s.workers[a.w].t
  {
  }

  lemma PollerIsPast(s: State, a: Action)
    requires Consistent(s) && Enabled(s, a) && a.SelectJob?
    ensures s.jobs[a.job].runAfter.Some? ==> s.jobs[a.job].runAfter.value <= s.now
  {
    assert GoodClaimer(s, a.w);
  }

  /** Whatever comes after, no claim of a postponed job reads the clock before it is due. */
  lemma {:induction false} NotBeforeDue(s: State, actions: seq<Action>, j: nat, due: int)
    requires Consistent(s) && CanRun(s, actions) && Postponed(s, j, due)
    ensures s.log <= Run(s, actions).log && ClaimsFrom(Run(s, actions).log, |s.log|, j, due)
    decreases |actions|
  {
    if actions == [] {
    } else {
      var t := Next(s, actions[0]);
      StepKeepsPostponed(s, actions[0], j, due);
      StepKeepsConsistent(s, actions[0]);
      hide Consistent, Postponed, Next, Enabled;
      NotBeforeDue(t, actions[1..], j, due);
      assert forall i | 0 <= i < |t.log| :: Run(s, actions).log[i] == t.log[i];
    }
  }

  // -------------------------------------------------------------- main results

  /** After a `fail` that queues its job again, at any moment of any run, every later claim of the job
      comes at least 30 seconds after it. */
  lemma BackoffIsKept(s: State, w: string, actions: seq<Action>)
    requires Consistent(s) && Enabled(s, CommitFail(w)) && CanRun(s, [CommitFail(w)] + actions)
    requires s.workers[w].ledger.retries + 1 < s.maxRetries
    ensures ClaimsFrom(Run(s, [CommitFail(w)] + actions).log, |s.log|, s.workers[w].job, s.now + 30)
  {
    var t, j := Next(s, CommitFail(w)), s.workers[w].job;
    assert ([CommitFail(w)] + actions)[1..] == actions && ([CommitFail(w)] + actions)[0] == CommitFail(w);
    StepKeepsConsistent(s, CommitFail(w));
    assert Postponed(t, j, s.now + 30) && t.log == s.log + [Released(j)];
    hide Consistent, Next, Enabled, Postponed;
    NotBeforeDue(t, actions, j, s.now + 30);
  }

  /** A job accepted with a `run_after` is never claimed before it. */
  lemma RunAfterIsKept(s: State, task: Task, id: nat, due: int, actions: seq<Action>)
    requires Consistent(s) && Enabled(s, Enqueue(task, id, Some(due)))
    requires CanRun(s, [Enqueue(task, id, Some(due))] + actions) && id in Next(s, Enqueue(task, id, Some(due))).jobs
    ensures ClaimsFrom(Run(s, [Enqueue(task, id, Some(due))] + actions).log, |s.log|, id, due)
  {
    var a := Enqueue(task, id, Some(due));
    var t := Next(s, a);
    assert ([a] + actions)[1..] == actions && ([a] + actions)[0] == a;
    StepKeepsConsistent(s, a);
    forall w | w in s.workers && (s.workers[w].Holding? || Active(s.workers[w])) ensures s.workers[w].job != id {
      assert GoodClaimer(s, w);
    }
    assert t.log == s.log && Postponed(t, id, due);
    hide Consistent, Next, Enabled, Postponed;
    NotBeforeDue(t, actions, id, due);
  }
}
