/** What a call leaves of the breaker: who answered has a clean slate, who failed has exactly its failed
    attempts on the count, and nobody else is touched. */
module FailoverHealth {
  import opened Health
  import opened Failover

  /** The streak a visit starts from: a tripped provider that is let in starts afresh. */
  function Start(h: seq<Event>, at: int, lim: Limits): nat {
    if Tripped(h, lim) && !Blocked(h, at, lim) then 0 else Streak(h, lim)
  }

  /** How many attempts of the visit failed. */
  function FailedIn(q: Request, v: Visit): nat {
    match v
    case Served(a) => a
    case Broken(a) => a
    case Exhausted => q.attempts
    case _ => 0
  }

  /** The breaker's view of one provider before visit `i`, and after it. */
  function Before(q: Request, visits: seq<Visit>, i: nat, name: string): seq<Event>
    requires i <= |visits| <= |q.providers|
  {
    Look(HistoryAfter(q, visits[..i]), name)
  }

  lemma {:induction false} AfterAttempts(q: Request, i: nat, n: nat, h: seq<Event>, lim: Limits)
    ensures Streak(h + FailedAttempts(q, i, n), lim) == Streak(h, lim) + n
    ensures LatestFailure(h + FailedAttempts(q, i, n)) == if n > 0 then q.failAt(i, n - 1) else LatestFailure(h)
  {
    if n == 0 {
      assert h + [] == h;
    } else {
      AfterAttempts(q, i, n - 1, h, lim);
      var e := Failure(q.failAt(i, n - 1));
      assert h + FailedAttempts(q, i, n) == (h + FailedAttempts(q, i, n - 1)) + [e];
      Extends(h + FailedAttempts(q, i, n - 1), e, lim);
    }
  }

  /** After a visit: the streak of an answering provider is nothing; that of another is what it was, or
      nothing if the visit let it back in, and the failed attempts of the visit; and its latest failure
      is that of the last of them. */
  lemma AfterVisit(q: Request, visits: seq<Visit>, i: nat)
    requires Trail(q, visits) && i < |visits|
    ensures |visits| <= |q.providers|
    ensures var p, v := q.providers[i], visits[i];
      var was, now := Before(q, visits, i, p), Before(q, visits, i + 1, p);
      && (v.Served? ==> Streak(now, q.lim) == 0)
      && (!v.Served? ==> Streak(now, q.lim) == Start(was, q.probeAt(i), q.lim) + FailedIn(q, v))
      && LatestFailure(now)
      == (if FailedIn(q, v) > 0 then q.failAt(i, FailedIn(q, v) - 1) else LatestFailure(was))
    ensures forall name | name != q.providers[i] :: Before(q, visits, i + 1, name) == Before(q, visits, i, name)
  {
    HistoryGrows(q, visits, i);
    VisitCounts(q, i, visits[i], Before(q, visits, i, q.providers[i]));
    hide *;
  }

  lemma HistoryGrows(q: Request, visits: seq<Visit>, i: nat)
    requires Trail(q, visits) && i < |visits|
    ensures |visits| <= |q.providers|
    ensures Before(q, visits, i + 1, q.providers[i])
         == Before(q, visits, i, q.providers[i]) + ([Probe(q.probeAt(i))] + Told(q, i, visits[i]))
    ensures forall name | name != q.providers[i] :: Before(q, visits, i + 1, name) == Before(q, visits, i, name)
  {
    assert visits[..i + 1][..i] == visits[..i];
    hide Told;
    assert HistoryAfter(q, visits[..i + 1])
        == Hear(HistoryAfter(q, visits[..i]), q.providers[i], [Probe(q.probeAt(i))] + Told(q, i, visits[i]));
    hide HistoryAfter;
  }

  lemma VisitCounts(q: Request, i: nat, v: Visit, was: seq<Event>)
    ensures var now := was + ([Probe(q.probeAt(i))] + Told(q, i, v));
      && (v.Served? ==> Streak(now, q.lim) == 0)
      && (!v.Served? ==> Streak(now, q.lim) == Start(was, q.probeAt(i), q.lim) + FailedIn(q, v))
      && LatestFailure(now)
      == (if FailedIn(q, v) > 0 then q.failAt(i, FailedIn(q, v) - 1) else LatestFailure(was))
  {
    var probed, n := was + [Probe(q.probeAt(i))], FailedIn(q, v);
    ToldIs(q, i, v);
    ProbeCounts(was, q.probeAt(i), q.lim);
    AfterAttempts(q, i, n, probed, q.lim);
    hide *;
    assert was + ([Probe(q.probeAt(i))] + Told(q, i, v)) == probed + Told(q, i, v);
    if v.Served? {
      assert probed + Told(q, i, v) == (probed + FailedAttempts(q, i, n)) + [Success];
      Extends(probed + FailedAttempts(q, i, n), Success, q.lim);
    }
  }

  lemma ToldIs(q: Request, i: nat, v: Visit)
    ensures Told(q, i, v) == if v.Served? then FailedAttempts(q, i, FailedIn(q, v)) + [Success]
                             else FailedAttempts(q, i, FailedIn(q, v))
  {
  }

  lemma ProbeCounts(was: seq<Event>, at: int, lim: Limits)
    ensures Streak(was + [Probe(at)], lim) == Start(was, at, lim)
    ensures LatestFailure(was + [Probe(at)]) == LatestFailure(was)
  {
    Extends(was, Probe(at), lim);
    ReadmitsIffLetIn(was, at, lim);
    hide Streak, LatestFailure;
  }

  // -------------------------------------------------------------- main results

  /** The provider that answered leaves the call with no failure on its count, and in service. */
  lemma AnsweringProviderIsHealthy(q: Request, visits: seq<Visit>)
    requires Trail(q, visits) && Complete(q, visits) && OutcomeOf(visits).Result?
    ensures |visits| <= |q.providers| && OutcomeOf(visits).candidate < |visits|
    ensures var h := Look(HistoryAfter(q, visits), q.providers[OutcomeOf(visits).candidate]);
      Streak(h, q.lim) == 0 && !Tripped(h, q.lim)
  {
    var n := |visits| - 1;
    AfterVisit(q, visits, n);
    assert visits[..|visits|] == visits;
  }

  /** A visit that was skipped leaves its provider tripped as it was; one that used up its attempts adds
      exactly those, one that broke off exactly those before. */
  lemma FailuresAreCounted(q: Request, visits: seq<Visit>, i: nat)
    requires Trail(q, visits) && i < |visits|
    ensures |visits| <= |q.providers|
    ensures var p, v := q.providers[i], visits[i];
      var was, now := Before(q, visits, i, p), Before(q, visits, i + 1, p);
      && (v.Skipped? ==> Tripped(was, q.lim) && Streak(now, q.lim) == Streak(was, q.lim))
      && (v.Exhausted? ==> Streak(now, q.lim) == Start(was, q.probeAt(i), q.lim) + q.attempts)
      && (v.Broken? ==> Streak(now, q.lim) == Start(was, q.probeAt(i), q.lim) + v.attempt)
      && (v.Unregistered? ==> Streak(now, q.lim) == Start(was, q.probeAt(i), q.lim))
      && (v.Exhausted? && q.attempts > 0 ==> LatestFailure(now) == q.failAt(i, q.attempts - 1))
      && (v.Broken? && v.attempt > 0 ==> LatestFailure(now) == q.failAt(i, v.attempt - 1))
  {
    AfterVisit(q, visits, i);
    TrailAt(q, visits, i);
    hide Trail, Streak, LatestFailure, HistoryAfter;
  }

  /** The breaker hears of every call once, besides the question it is asked, except of one that broke
      off with another exception. */
  lemma EveryCallIsHeard(q: Request, visits: seq<Visit>, i: nat)
    requires Trail(q, visits) && i < |visits|
    ensures |visits| <= |q.providers|
    ensures |Before(q, visits, i + 1, q.providers[i])| - |Before(q, visits, i, q.providers[i])|
         == 1 + CallsIn(q, visits[i]) - (if visits[i].Broken? then 1 else 0)
  {
    HistoryGrows(q, visits, i);
    ToldIs(q, i, visits[i]);
    AttemptsMade(q, i, FailedIn(q, visits[i]));
    hide Trail, Before, FailedAttempts;
  }

  lemma {:induction false} AttemptsMade(q: Request, i: nat, n: nat)
    ensures |FailedAttempts(q, i, n)| == n
  {
    if n > 0 {
      AttemptsMade(q, i, n - 1);
    }
  }
}
