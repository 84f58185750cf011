/** Whether a worker that stops while its job is acked or failed leaves the job leased. The shield
    of `_finish` takes one cancellation; what a second one does, or the first where there is no
    shield, depends on whether the commit came before it. */
module WorkersBookkeeping {
  import opened Options
  import opened Jobs
  import opened Workers
  import opened WorkersAllRuns
  import opened WorkersTimely
  import opened WorkersRuns

  /** Steps of a timely run during which `w` waits for an ack or fail, up to the end of the wait. */
  ghost predicate Episode(s: State, actions: seq<Action>, w: string)
    decreases |actions|
  {
    && actions != [] && Enabled(s, actions[0]) && Timely(s, actions[0])
    && if |actions| == 1 then !Waits(Next(s, actions[0]), w)
       else Waits(Next(s, actions[0]), w) && Episode(Next(s, actions[0]), actions[1..], w)
  }

  /** Cancellations the wait survives. */
  function Patience(wait: Wait): nat {
    if wait.Shielded? then 1 else 0
  }

  /** Read off the steps alone: before any commit of `w`'s ack or fail came one cancellation of `w`
      more than the wait survives, or the bookkeeping raised, or the process died. */
  predicate Interrupted(actions: seq<Action>, w: string, patience: nat)
    decreases |actions|
  {
    if actions == [] then false
    else
      var a, rest := actions[0], actions[1..];
      if a == CommitAck(w) || a == CommitFail(w) then false
      else if a == Crash(w) || a == BookkeepingError(w) then true
      else if a == Cancel(w) then patience == 0 || Interrupted(rest, w, patience - 1)
      else Interrupted(rest, w, patience)
  }

  /** The row is still under the lease `w` claimed it with. */
  predicate HeldBy(s: State, j: nat, w: string) {
    j in s.jobs && s.jobs[j].status.Leased? && s.jobs[j].leaseOwner == Some(w)
  }

  // ------------------------------------------------------------- single steps

  /** Once its ack or fail has committed, a waiting worker's name stays off the row. */
  lemma SettledStep(s: State, a: Action, w: string)
    requires Enabled(s, a)
    requires Waits(s, w) && s.workers[w].ledger.Settled? && !HeldBy(s, s.workers[w].job, w)
    ensures var u := Next(s, a);
      && !HeldBy(u, s.workers[w].job, w)
      && (Waits(u, w) ==> u.workers[w].ledger.Settled? && u.workers[w].job == s.workers[w].job)
      && (!Waits(u, w) ==> w in u.workers && (u.workers[w].Idle? || u.workers[w].Stopped?))
  {
  }

  lemma CommitSettles(s: State, a: Action, w: string)
    requires Enabled(s, a) && (a == CommitAck(w) || a == CommitFail(w))
    ensures var u := Next(s, a);
      && Waits(u, w) && u.workers[w].ledger.Settled? && u.workers[w].job == s.workers[w].job
      && !HeldBy(u, s.workers[w].job, w)
  {
  }

  /** What any other step does to an unsettled wait: nothing, one more step of the fail, one
      cancellation taken by the shield, or its end with nothing committed. */
  lemma UnsettledStep(s: State, a: Action, w: string)
    requires Consistent(s) && Enabled(s, a) && Waits(s, w) && Unsettled(s.workers[w])
    requires a != CommitAck(w) && a != CommitFail(w)
    ensures var u, k := Next(s, a), s.workers[w];
      if a == Crash(w) || a == BookkeepingError(w) || (a == Cancel(w) && Patience(k.wait) == 0) then
        w in u.workers && u.workers[w].Stopped? && u.jobs == s.jobs && u.now == s.now
      else
        && Waits(u, w) && Unsettled(u.workers[w]) && u.workers[w].job == k.job && u.workers[w].expires == k.expires
        && Patience(u.workers[w].wait) == Patience(k.wait) - (if a == Cancel(w) then 1 else 0)
  {
    if Actor(a) != Some(w) {
      OthersStay(s, a, w);
    }
  }

  lemma {:induction false} SettledEpisode(s: State, actions: seq<Action>, w: string)
    requires Orderly(s) && Episode(s, actions, w) && CanRun(s, actions)
    requires Waits(s, w) && s.workers[w].ledger.Settled? && !HeldBy(s, s.workers[w].job, w)
    ensures !HeldBy(Run(s, actions), s.workers[w].job, w)
    ensures w in Run(s, actions).workers && (Run(s, actions).workers[w].Idle? || Run(s, actions).workers[w].Stopped?)
    decreases |actions|
  {
    SettledStep(s, actions[0], w);
    StepKeepsOrderly(s, actions[0]);
    hide Orderly, Enabled, Timely, Next, Waits, HeldBy;
    if |actions| > 1 {
      SettledEpisode(Next(s, actions[0]), actions[1..], w);
    } else {
      assert actions[1..] == [];
    }
  }

  /** While the lease lasts, a worker that has committed nothing still holds its row. */
  lemma UnsettledHolds(s: State, w: string)
    requires Orderly(s) && Waits(s, w) && Unsettled(s.workers[w]) && InLease(s, w)
    ensures HeldBy(s, s.workers[w].job, w)
  {
    LiveIs(s, w);
  }

  // -------------------------------------------------------------- main result

  /** At the end of the wait, and while the lease would last, the job is still leased to the worker
      exactly when its ack or fail was interrupted; and then the worker has stopped. */
  lemma {:induction false} StrandedIffInterrupted(s: State, actions: seq<Action>, w: string)
    requires Orderly(s) && Waits(s, w) && Unsettled(s.workers[w]) && Episode(s, actions, w) && CanRun(s, actions)
    ensures var u, k := Run(s, actions), s.workers[w];
      && w in u.workers && (u.workers[w].Idle? || u.workers[w].Stopped?)
      && (u.now <= k.expires ==> (HeldBy(u, k.job, w) <==> Interrupted(actions, w, Patience(k.wait))))
      && (HeldBy(u, k.job, w) || Interrupted(actions, w, Patience(k.wait)) ==> u.workers[w].Stopped?)
    decreases |actions|
  {
    var a, rest, k := actions[0], actions[1..], s.workers[w];
    var t := Next(s, a);
    StepKeepsOrderly(s, a);
    if a == CommitAck(w) || a == CommitFail(w) {
      CommitSettles(s, a, w);
      hide Orderly, Enabled, Timely, Next, HeldBy;
      SettledEpisode(t, rest, w);
    } else {
      UnsettledStep(s, a, w);
      if |actions| == 1 {
        if s.now <= k.expires {
          UnsettledHolds(s, w);
        }
        hide Orderly, Enabled, Timely;
        assert rest == [];
      } else {
        hide Orderly, Enabled, Timely, Next, HeldBy;
        StrandedIffInterrupted(t, rest, w);
      }
    }
  }

  // ------------------------------------------------------------ runs by example

  ghost predicate Stranded(s: State, u: State, w: string) {
    HeldBy(u, 0, w) && w in u.workers && u.workers[w].Stopped? && u.now == s.now
  }

  /** Enqueue, claim, return; then two cancellations: the first gets past the shield, the second
      undoes the ack. The finished job stays leased and its worker is gone, in a timely run. */
  lemma DoubleCancelStrands(s: State, w: string, key: string, lease: nat)
    requires Initial(s) && w in s.workers
    ensures var actions := FirstSteps(w, Other(key), lease) + [Return(w), Cancel(w), Cancel(w)];
      exists u :: Reached(s, actions, u) && Stranded(s, u, w)
  {
    var start := FirstSteps(w, Other(key), lease);
    StartsEmpty(s);
    hide *;
    var t := EnqueueAndClaim(s, [], s, w, Other(key), lease);
    assert [] + start == start;
    ReturnCancelCancel(s, t, w, key, lease);
    ThreeSteps(s, start, t, Return(w), Cancel(w), Cancel(w));
  }

  lemma ReturnCancelCancel(s: State, t: State, w: string, key: string, lease: nat)
    requires FirstClaimed(s, t, w, Other(key), lease)
    ensures CanTake(t, Return(w)) && CanTake(Next(t, Return(w)), Cancel(w))
    ensures CanTake(Next(Next(t, Return(w)), Cancel(w)), Cancel(w))
    ensures Stranded(s, Next(Next(Next(t, Return(w)), Cancel(w)), Cancel(w)), w)
  {
  }

  /** Enqueue and claim a job of an unknown kind; then one cancellation during its `fail`. */
  lemma UnshieldedCancelStrands(s: State, w: string, key: string, lease: nat)
    requires Initial(s) && w in s.workers
    ensures var actions := FirstSteps(w, Unknown(key), lease) + [Refuse(w), ReadRetries(w), Cancel(w)];
      exists u :: Reached(s, actions, u) && Stranded(s, u, w)
  {
    var start := FirstSteps(w, Unknown(key), lease);
    StartsEmpty(s);
    hide *;
    var t := EnqueueAndClaim(s, [], s, w, Unknown(key), lease);
    assert [] + start == start;
    RefuseReadCancel(s, t, w, key, lease);
    ThreeSteps(s, start, t, Refuse(w), ReadRetries(w), Cancel(w));
  }

  lemma RefuseReadCancel(s: State, t: State, w: string, key: string, lease: nat)
    requires FirstClaimed(s, t, w, Unknown(key), lease)
    ensures CanTake(t, Refuse(w)) && CanTake(Next(t, Refuse(w)), ReadRetries(w))
    ensures CanTake(Next(Next(t, Refuse(w)), ReadRetries(w)), Cancel(w))
    ensures Stranded(s, Next(Next(Next(t, Refuse(w)), ReadRetries(w)), Cancel(w)), w)
  {
    var t1 := Next(t, Refuse(w));
    assert t1.workers[w] == Worker.Booking(0, s.now + lease, Failing, Unshielded) && t1.jobs == t.jobs;
    ReadAndCancel(s, t1, w, lease);
  }

  lemma ReadAndCancel(s: State, t: State, w: string, lease: nat)
    requires HeldBy(t, 0, w) && t.now == s.now && w in t.workers
    requires t.workers[w] == Worker.Booking(0, t.now + lease, Failing, Unshielded)
    ensures CanTake(t, ReadRetries(w)) && CanTake(Next(t, ReadRetries(w)), Cancel(w))
    ensures Stranded(s, Next(Next(t, ReadRetries(w)), Cancel(w)), w)
  {
  }
}
