/** Building runs step by step, and what the runs say about the rows claims saw. */
module WorkersRuns {
  import opened Options
  import opened Lifecycle
  import opened Jobs
  import opened Workers
  import opened WorkersAllRuns
  import opened WorkersTimely

  /** One more step at the end of a run. */
  lemma {:induction false} Extend(s: State, actions: seq<Action>, a: Action)
    requires CanRun(s, actions) && Enabled(Run(s, actions), a)
    ensures CanRun(s, actions + [a]) && Run(s, actions + [a]) == Next(Run(s, actions), a)
    decreases |actions|
  {
    hide Enabled, Next;
    if actions == [] {
      assert [] + [a] == [a] && [a][1..] == [];
    } else {
      assert (actions + [a])[1..] == actions[1..] + [a];
      Extend(Next(s, actions[0]), actions[1..], a);
    }
  }

  /** Any beginning of a run is a run, and the rest goes on from there. */
  lemma {:induction false} Prefix(s: State, actions: seq<Action>, n: nat)
    requires CanRun(s, actions) && n < |actions|
    ensures CanRun(s, actions[..n]) && Enabled(Run(s, actions[..n]), actions[n])
    ensures n == |actions| - 1 ==> Run(s, actions) == Next(Run(s, actions[..n]), actions[n])
    decreases |actions|
  {
    hide Enabled, Next;
    if n == 0 {
      assert actions[..0] == [] && (|actions| == 1 ==> actions[1..] == []);
    } else {
      assert actions[..n][1..] == actions[1..][..n - 1];
      Prefix(Next(s, actions[0]), actions[1..], n - 1);
    }
  }

  lemma {:induction false} ExtendTimely(s: State, actions: seq<Action>, a: Action)
    requires TimelyRun(s, actions) && CanRun(s, actions)
    requires Enabled(Run(s, actions), a) && Timely(Run(s, actions), a)
    ensures TimelyRun(s, actions + [a])
    decreases |actions|
  {
    hide Enabled, Next, Timely;
    if actions == [] {
      assert [] + [a] == [a] && [a][1..] == [];
    } else {
      assert (actions + [a])[1..] == actions[1..] + [a];
      ExtendTimely(Next(s, actions[0]), actions[1..], a);
    }
  }

  /** A step taken too late makes the run untimely. */
  lemma {:induction false} ExtendLate(s: State, actions: seq<Action>, a: Action)
    requires CanRun(s, actions) && Enabled(Run(s, actions), a) && !Timely(Run(s, actions), a)
    ensures !TimelyRun(s, actions + [a])
    decreases |actions|
  {
    if actions == [] {
      assert [] + [a] == [a];
    } else {
      assert (actions + [a])[1..] == actions[1..] + [a] && (actions + [a])[0] == actions[0];
      hide Enabled, Next, Timely;
      ExtendLate(Next(s, actions[0]), actions[1..], a);
    }
  }

  // ------------------------------------------------------- timely runs from the start

  lemma {:induction false} TimelySplit(s: State, actions: seq<Action>, more: seq<Action>)
    requires TimelyRun(s, actions + more)
    ensures TimelyRun(s, actions) && CanRun(s, actions) && CanRun(s, actions + more)
    ensures TimelyRun(Run(s, actions), more) && CanRun(Run(s, actions), more)
    ensures Run(s, actions + more) == Run(Run(s, actions), more)
    decreases |actions|
  {
    hide Enabled, Next, Timely;
    if actions == [] {
      assert [] + more == more;
      TimelyRunsAreRuns(s, more);
    } else {
      assert (actions + more)[1..] == actions[1..] + more && (actions + more)[0] == actions[0];
      TimelySplit(Next(s, actions[0]), actions[1..], more);
    }
  }

  /** Between any two points of any timely run from an empty queue: chunks only move along their
      lifecycle, finished jobs stay as they are, and at either point the retry counts are below the
      limit except on the failed jobs, which have reached it. */
  lemma TimelyFromStart(s: State, actions: seq<Action>, more: seq<Action>)
    requires Initial(s) && s.maxRetries >= 1 && TimelyRun(s, actions + more)
    ensures CanRun(s, actions) && CanRun(s, actions + more)
    ensures var t, u := Run(s, actions), Run(s, actions + more);
      && RetriesBounded(t) && RetriesBounded(u) && FinishedStay(t.jobs, u.jobs)
      && forall c | c in t.chunks :: c in u.chunks && Reaches(t.chunks[c], u.chunks[c])
  {
    InitialIsOrderly(s);
    TimelySplit(s, actions, more);
    hide TimelyRun, CanRun, Run, Initial, Consistent, LiveWorkers, SelectionsHold, RetriesBounded, FinishedStay;
    TimelyRunsAreOrderly(s, actions);
    TimelyRunsAreOrderly(Run(s, actions), more);
  }

  // ------------------------------------------------ what a claim saw was the table

  /** At step `n` of the run some worker that had read the clock at `t` selected `j`, and `pick` is
      the table and the locks as they then were. */
  ghost predicate SelectedAt(s: State, actions: seq<Action>, n: nat, t: int, j: nat, pick: Pick)
    requires CanRun(s, actions) && n < |actions|
  {
    Prefix(s, actions, n);
    var earlier := Run(s, actions[..n]);
    && actions[n].SelectJob? && actions[n].job == j
    && earlier.workers[actions[n].w] == Polling(t) && pick == Pick(earlier.jobs, LockedRows(earlier))
  }

  ghost predicate WasSelected(s: State, actions: seq<Action>, t: int, j: nat, pick: Pick)
    requires CanRun(s, actions)
  {
    exists n: nat :: n < |actions| && SelectedAt(s, actions, n, t, j, pick)
  }

  lemma SelectedStays(s: State, actions: seq<Action>, t: int, j: nat, pick: Pick)
    requires CanRun(s, actions) && actions != [] && CanRun(s, actions[..|actions| - 1])
    requires WasSelected(s, actions[..|actions| - 1], t, j, pick)
    ensures WasSelected(s, actions, t, j, pick)
  {
    hide CanRun, Run, Enabled, Next;
    var front := actions[..|actions| - 1];
    var n: nat :| n < |front| && SelectedAt(s, front, n, t, j, pick);
    assert front[..n] == actions[..n] && front[n] == actions[n];
    assert SelectedAt(s, actions, n, t, j, pick);
  }

  /** Whatever a run's claims hold or have committed, they selected in the table of that moment. */
  lemma {:induction false} PicksAreReal(s: State, actions: seq<Action>)
    requires Initial(s) && CanRun(s, actions)
    ensures forall w | w in Run(s, actions).workers && Run(s, actions).workers[w].Holding? ::
      var k := Run(s, actions).workers[w]; WasSelected(s, actions, k.t, k.job, k.pick)
    ensures forall e | e in Run(s, actions).log && e.Claimed? :: WasSelected(s, actions, e.at, e.job, e.pick)
    decreases |actions|
  {
    if actions != [] {
      var n := |actions| - 1;
      var front := actions[..n];
      Prefix(s, actions, n);
      PicksAreReal(s, front);
      var u := Run(s, front);
      LastStepPicks(u, actions[n]);
      hide Run, CanRun, Enabled, Next;
      forall t, j, pick | WasSelected(s, front, t, j, pick) ensures WasSelected(s, actions, t, j, pick) {
        SelectedStays(s, actions, t, j, pick);
      }
      forall w | w in Next(u, actions[n]).workers && Next(u, actions[n]).workers[w].Holding?
        ensures var k := Next(u, actions[n]).workers[w]; WasSelected(s, actions, k.t, k.job, k.pick)
      {
        var k := Next(u, actions[n]).workers[w];
        if !(w in u.workers && u.workers[w] == k) {
          assert SelectedAt(s, actions, n, k.t, k.job, k.pick);
        }
      }
    }
  }

  /** So in every run from an empty queue each committed claim took the job that was, in the table of
      the moment it selected it, the oldest runnable one nobody had locked. */
  lemma EveryClaimTookOldest(s: State, actions: seq<Action>, e: Event)
    requires Initial(s) && CanRun(s, actions) && e in Run(s, actions).log && e.Claimed?
    ensures WasSelected(s, actions, e.at, e.job, e.pick) && Oldest(e.pick, e.at, e.job)
  {
    InitialIsConsistent(s);
    PicksAreReal(s, actions);
    hide Run, CanRun, WasSelected, Oldest, Consistent;
    var k :| 0 <= k < |Run(s, actions).log| && Run(s, actions).log[k] == e;
    ClaimTakesOldest(s, actions, k);
  }

  /** New holders come from a select, new claims from a holder. */
  lemma LastStepPicks(s: State, a: Action)
    requires Enabled(s, a)
    ensures forall w | w in Next(s, a).workers && Next(s, a).workers[w].Holding? ::
      var k := Next(s, a).workers[w];
      || (w in s.workers && s.workers[w] == k)
      || (a == SelectJob(w, k.job) && s.workers[w] == Polling(k.t) && k.pick == Pick(s.jobs, LockedRows(s)))
    ensures forall e | e in Next(s, a).log && e.Claimed? ::
      e in s.log || exists w :: w in s.workers && s.workers[w] == Holding(e.at, e.job, e.pick)
  {
    if a.CommitClaim? {
      assert s.workers[a.w] == Holding(s.workers[a.w].t, s.workers[a.w].job, s.workers[a.w].pick);
    }
  }

  // ------------------------------------------------------------- runs by example

  /** A timely run that ends in `t`. */
  ghost predicate Reached(s: State, actions: seq<Action>, t: State) {
    TimelyRun(s, actions) && CanRun(s, actions) && Run(s, actions) == t
  }

  ghost predicate CanTake(s: State, a: Action) {
    Enabled(s, a) && Timely(s, a)
  }

  lemma StartsEmpty(s: State)
    requires Initial(s)
    ensures Reached(s, [], s) && s.jobs == map[] && forall v | v in s.workers :: s.workers[v].Idle?
  {
  }

  lemma OneStep(s: State, start: seq<Action>, t: State, a: Action)
    requires Reached(s, start, t) && CanTake(t, a)
    ensures Reached(s, start + [a], Next(t, a))
  {
    Extend(s, start, a);
    ExtendTimely(s, start, a);
  }

  lemma TwoSteps(s: State, start: seq<Action>, t: State, a: Action, b: Action)
    requires Reached(s, start, t) && CanTake(t, a) && CanTake(Next(t, a), b)
    ensures Reached(s, start + [a, b], Next(Next(t, a), b))
  {
    hide Reached, Enabled, Timely, Next;
    OneStep(s, start, t, a);
    OneStep(s, start + [a], Next(t, a), b);
    assert start + [a] + [b] == start + [a, b];
  }

  lemma ThreeSteps(s: State, start: seq<Action>, t: State, a: Action, b: Action, c: Action)
    requires Reached(s, start, t) && CanTake(t, a) && CanTake(Next(t, a), b) && CanTake(Next(Next(t, a), b), c)
    ensures Reached(s, start + [a, b, c], Next(Next(Next(t, a), b), c))
  {
    hide Reached, Enabled, Timely, Next;
    TwoSteps(s, start, t, a, b);
    OneStep(s, start + [a, b], Next(Next(t, a), b), c);
    assert start + [a, b] + [c] == start + [a, b, c];
  }

  /** One step more, but too late. */
  lemma LateStep(s: State, start: seq<Action>, t: State, a: Action)
    requires Reached(s, start, t) && Enabled(t, a) && !Timely(t, a)
    ensures CanRun(s, start + [a]) && Run(s, start + [a]) == Next(t, a) && !TimelyRun(s, start + [a])
  {
    Extend(s, start, a);
    ExtendLate(s, start, a);
  }

  /** The state once `w`, idle, has claimed the only job. */
  function AfterClaim(s: State, w: string, id: nat, lease: nat): State
    requires id in s.jobs
  {
    Set(s, w, Worker.Running(id, s.now + lease, Fresh))
    .(jobs := s.jobs[id := LeaseTo(s.jobs[id], w, s.now + lease)],
      log := s.log + [Claimed(id, s.now, s.now + lease, Pick(s.jobs, {}))])
  }

  function ClaimSteps(w: string, id: nat, lease: nat): seq<Action> {
    [BeginClaim(w), SelectJob(w, id), CommitClaim(w, lease)]
  }

  ghost predicate ClaimOpen(s: State, w: string, id: nat) {
    && w in s.workers && s.workers[w].Idle? && s.jobs.Keys == {id} && Runnable(s.jobs[id], s.now)
    && forall v | v in s.workers :: !s.workers[v].Holding?
  }

  /** An idle worker can claim the only job, if it is runnable and nobody holds a row. */
  lemma ClaimOnly(s: State, start: seq<Action>, t: State, w: string, id: nat, lease: nat)
    requires Reached(s, start, t) && ClaimOpen(t, w, id)
    ensures Reached(s, start + ClaimSteps(w, id, lease), AfterClaim(t, w, id, lease))
  {
    ClaimSucceeds(t, w, id, lease);
    hide Reached, Enabled, Timely, Next, ClaimOpen, AfterClaim;
    ThreeSteps(s, start, t, BeginClaim(w), SelectJob(w, id), CommitClaim(w, lease));
  }

  lemma ClaimSucceeds(s: State, w: string, id: nat, lease: nat)
    requires ClaimOpen(s, w, id)
    ensures CanTake(s, BeginClaim(w))
    ensures var s1 := Next(s, BeginClaim(w));
      && CanTake(s1, SelectJob(w, id))
      && var s2 := Next(s1, SelectJob(w, id));
      CanTake(s2, CommitClaim(w, lease)) && Next(s2, CommitClaim(w, lease)) == AfterClaim(s, w, id, lease)
  {
    var s1 := Next(s, BeginClaim(w));
    assert LockedRows(s1) == {};
    assert s1.workers[w] == Polling(s.now);
  }

  function FirstSteps(w: string, task: Task, lease: nat): seq<Action> {
    [Enqueue(task, 0, None)] + ClaimSteps(w, 0, lease)
  }

  /** `u` is `t` once an idle `w` has claimed the first job of the empty queue. */
  ghost predicate FirstClaimed(t: State, u: State, w: string, task: Task, lease: nat) {
    && u.jobs == map[0 := LeaseTo(NewJob(task, DedupeKey(task), None, t.now), w, t.now + lease)]
    && u.workers == t.workers[w := Worker.Running(0, t.now + lease, Fresh)]
    && u.now == t.now && u.chunks == t.chunks && u.maxRetries == t.maxRetries
  }

  /** An idle worker claims the first job there is. */
  lemma EnqueueAndClaim(s: State, start: seq<Action>, t: State, w: string, task: Task, lease: nat) returns (u: State)
    requires Reached(s, start, t)
    requires t.jobs == map[] && w in t.workers && forall v | v in t.workers :: t.workers[v].Idle?
    ensures Reached(s, start + FirstSteps(w, task, lease), u) && FirstClaimed(t, u, w, task, lease)
  {
    var a := Enqueue(task, 0, None);
    EnqueueOpens(t, w, task);
    var mid := Next(t, a);
    hide Reached, Enabled, Timely, Next, ClaimOpen;
    OneStep(s, start, t, a);
    ClaimOnly(s, start + [a], mid, w, 0, lease);
    u := AfterClaim(mid, w, 0, lease);
    assert start + [a] + ClaimSteps(w, 0, lease) == start + FirstSteps(w, task, lease);
    assert u.jobs == map[0 := LeaseTo(mid.jobs[0], w, mid.now + lease)];
  }

  lemma EnqueueOpens(t: State, w: string, task: Task)
    requires t.jobs == map[] && w in t.workers && forall v | v in t.workers :: t.workers[v].Idle?
    ensures var a := Enqueue(task, 0, None);
      && CanTake(t, a) && ClaimOpen(Next(t, a), w, 0)
      && Next(t, a) == t.(jobs := map[0 := NewJob(task, DedupeKey(task), None, t.now)])
  {
  }
}
