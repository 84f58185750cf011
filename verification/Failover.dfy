/** Completion with failover: candidates in order, tripped ones skipped, each tried up to
    `retry_attempts` times, every outcome fed back to the breaker. */
module Failover {
  import opened Health

  /** A provider's answer to one call; `Breaks` is any exception other than ProviderError. */
  datatype Reply = Answers | Fails | Breaks

  /** One call of `complete`: the candidates' providers, the registry, the breaker's past, and what
      is outside the gateway's control (replies by candidate and attempt, and clock readings). */
  datatype Request = Request(
    providers: seq<string>,
    registered: set<string>,
    attempts: nat,
    past: map<string, seq<Event>>,
    lim: Limits,
    reply: (nat, nat) -> Reply,
    probeAt: nat -> int,
    failAt: (nat, nat) -> int)

  /** How the visit to one candidate went. */
  datatype Visit = Skipped | Unregistered | Served(attempt: nat) | Broken(attempt: nat) | Exhausted

  datatype Outcome =
    | Result(candidate: nat, attempt: nat)
    | RoutingError(candidate: nat)
    | Raised(candidate: nat, attempt: nat)
    | ProviderError

  // ------------------------------------------------------------ specification

  /** Outcomes fed to the breaker by the first `n` (failed) attempts at candidate `i`. */
  function FailedAttempts(q: Request, i: nat, n: nat): seq<Event> {
    if n == 0 then [] else FailedAttempts(q, i, n - 1) + [Failure(q.failAt(i, n - 1))]
  }

  /** What the breaker hears from the calls made in visit `i`. */
  function Told(q: Request, i: nat, v: Visit): seq<Event> {
    match v
    case Served(a) => FailedAttempts(q, i, a) + [Success]
    case Broken(a) => FailedAttempts(q, i, a)
    case Exhausted => FailedAttempts(q, i, q.attempts)
    case _ => []
  }

  /** Every provider's history after the given visits: each begins with the question whether the
      candidate is available. */
  function HistoryAfter(q: Request, visits: seq<Visit>): map<string, seq<Event>>
    requires |visits| <= |q.providers|
  {
    if visits == [] then q.past
    else
      var i := |visits| - 1;
      var before := HistoryAfter(q, visits[..i]);
      Hear(before, q.providers[i], [Probe(q.probeAt(i))] + Told(q, i, visits[i]))
  }

  /** Candidate `|visits|` is out when reached after the given visits. */
  predicate BlockedAfter(q: Request, visits: seq<Visit>)
    requires |visits| < |q.providers|
  {
    var i := |visits|;
    Blocked(Look(HistoryAfter(q, visits), q.providers[i]), q.probeAt(i), q.lim)
  }

  /** The first `n` attempts at candidate `i` fail. */
  ghost predicate AllFail(q: Request, i: nat, n: nat) {
    forall b: nat | b < n :: q.reply(i, b) == Fails
  }

  /** The attempts at candidate `i` go as its replies say. */
  ghost predicate Tried(q: Request, i: nat, v: Visit) {
    match v
    case Served(a) => a < q.attempts && q.reply(i, a) == Answers && AllFail(q, i, a)
    case Broken(a) => a < q.attempts && q.reply(i, a) == Breaks && AllFail(q, i, a)
    case Exhausted => AllFail(q, i, q.attempts)
    case _ => false
  }

  /** The visit after `before` goes as the breaker, the registry and the replies dictate. */
  ghost predicate Faithful(q: Request, before: seq<Visit>, v: Visit)
    requires |before| < |q.providers|
  {
    if BlockedAfter(q, before) then v == Skipped
    else if q.providers[|before|] !in q.registered then v == Unregistered
    else Tried(q, |before|, v)
  }

  predicate GoesOn(v: Visit) {
    v.Skipped? || v.Exhausted?
  }

  /** The visits of one call: each faithful to the history as it was when the candidate was reached,
      and only the last one may end the call. */
  ghost predicate Trail(q: Request, visits: seq<Visit>) {
    && |visits| <= |q.providers|
    && (visits == [] ||
        var i := |visits| - 1;
        Trail(q, visits[..i]) && (forall k | 0 <= k < i :: GoesOn(visits[k])) && Faithful(q, visits[..i], visits[i]))
  }

  ghost predicate Complete(q: Request, visits: seq<Visit>) {
    |visits| == |q.providers| || (visits != [] && !GoesOn(visits[|visits| - 1]))
  }

  function OutcomeOf(visits: seq<Visit>): Outcome {
    if visits == [] then ProviderError
    else
      match visits[|visits| - 1]
      case Served(a) => Result(|visits| - 1, a)
      case Unregistered => RoutingError(|visits| - 1)
      case Broken(a) => Raised(|visits| - 1, a)
      case _ => ProviderError
  }

  /** Provider calls made in one visit, and in all. */
  function CallsIn(q: Request, v: Visit): nat {
    match v
    case Served(a) => a + 1
    case Broken(a) => a + 1
    case Exhausted => q.attempts
    case _ => 0
  }

  function Calls(q: Request, visits: seq<Visit>): nat {
    if visits == [] then 0 else Calls(q, visits[..|visits| - 1]) + CallsIn(q, visits[|visits| - 1])
  }

  // ---------------------------------------------------------------- the gateway

  class ModelGateway {
    const health: ProviderHealth
    const retryAttempts: nat

    constructor (health: ProviderHealth, retryAttempts: nat)
      ensures this.health == health && this.retryAttempts == retryAttempts
    {
      this.health, this.retryAttempts := health, retryAttempts;
    }

    /** The retry loop over an available, registered candidate. */
    method TryCandidate(q: Request, i: nat) returns (v: Visit, made: nat)
      requires health.Valid() && q.attempts == retryAttempts
      requires i < |q.providers| && q.providers[i] in health.history
      modifies health
      ensures health.Valid() && made == CallsIn(q, v) && Tried(q, i, v)
      ensures health.history == Hear(old(health.history), q.providers[i], Told(q, i, v))
    {
      hide Streak, LatestFailure, Tripped, Blocked, AllTracked, Hear;
      var name := q.providers[i];
      made := 0;
      HearNothing(health.history, name);
      for attempt := 0 to retryAttempts
        invariant health.Valid() && made == attempt && AllFail(q, i, attempt)
        invariant health.history == Hear(old(health.history), name, FailedAttempts(q, i, attempt))
      {
        made := made + 1;
        var reply := q.reply(i, attempt);
        if reply == Answers {
          health.RecordSuccess(name);
          HearTwice(old(health.history), name, FailedAttempts(q, i, attempt), [Success]);
          return Served(attempt), made;
        }
        if reply == Breaks {
          return Broken(attempt), made;
        }
        health.RecordFailure(name, q.failAt(i, attempt));
        HearTwice(old(health.history), name, FailedAttempts(q, i, attempt), [Failure(q.failAt(i, attempt))]);
      }
      v := Exhausted;
    }

    method CompleteWithFailover(q: Request) returns (o: Outcome, ghost visits: seq<Visit>, made: nat)
      requires health.Valid() && q.attempts == retryAttempts
      requires q.past == health.history && q.lim == health.lim
      modifies health
      ensures health.Valid()
      ensures Trail(q, visits) && Complete(q, visits)
      ensures o == OutcomeOf(visits) && made == Calls(q, visits)
      ensures health.history == HistoryAfter(q, visits)
    {
      hide Streak, LatestFailure, Tripped, Blocked, AllTracked, FailedAttempts, Hear, Tried;
      visits, made := [], 0;
      NothingVisited(q);
      hide Trail, Calls, HistoryAfter, CallsIn, Told;
      for i := 0 to |q.providers|
        invariant health.Valid() && |visits| == i
        invariant Trail(q, visits) && made == Calls(q, visits)
        invariant forall k | 0 <= k < i :: GoesOn(visits[k])
        invariant health.history == HistoryAfter(q, visits)
      {
        ghost var before := visits;
        var name := q.providers[i];
        var available := health.IsAvailable(name, q.probeAt(i));
        assert [Probe(q.probeAt(i))] + [] == [Probe(q.probeAt(i))];
        if !available {
          visits := before + [Skipped];
          TrailGrows(q, before, Skipped);
          continue;
        }
        if name !in q.registered {
          visits := before + [Unregistered];
          TrailGrows(q, before, Unregistered);
          return RoutingError(i), visits, made;
        }
        InHear(HistoryAfter(q, before), name, [Probe(q.probeAt(i))]);
        var v, n := TryCandidate(q, i);
        HearTwice(HistoryAfter(q, before), name, [Probe(q.probeAt(i))], Told(q, i, v));
        made := made + n;
        visits := before + [v];
        TrailGrows(q, before, v);
        if v.Served? {
          return Result(i, v.attempt), visits, made;
        }
        if v.Broken? {
          return Raised(i, v.attempt), visits, made;
        }
        TriedEnds(q, i, v);
      }
      o := ProviderError;
    }
  }

  lemma NothingVisited(q: Request)
    ensures Trail(q, []) && Calls(q, []) == 0 && HistoryAfter(q, []) == q.past
    ensures forall i :: Told(q, i, Skipped) == Told(q, i, Unregistered) == []
    ensures CallsIn(q, Skipped) == CallsIn(q, Unregistered) == 0
  {
  }

  lemma TriedEnds(q: Request, i: nat, v: Visit)
    requires Tried(q, i, v)
    ensures v.Served? || v.Broken? || v.Exhausted?
  {
  }

  lemma TrailGrows(q: Request, visits: seq<Visit>, v: Visit)
    requires Trail(q, visits) && |visits| < |q.providers|
    requires forall k | 0 <= k < |visits| :: GoesOn(visits[k])
    requires Faithful(q, visits, v)
    ensures Trail(q, visits + [v]) && Calls(q, visits + [v]) == Calls(q, visits) + CallsIn(q, v)
    ensures HistoryAfter(q, visits + [v])
         == Hear(HistoryAfter(q, visits), q.providers[|visits|], [Probe(q.probeAt(|visits|))] + Told(q, |visits|, v))
  {
    hide Faithful, Told, CallsIn, Hear;
    assert (visits + [v])[..|visits|] == visits;
  }

  // ---------------------------------------------------------------- main results

  /** At most `retry_attempts` calls per candidate. */
  lemma {:induction false} CallsAreBounded(q: Request, visits: seq<Visit>)
    requires Trail(q, visits)
    ensures Calls(q, visits) <= |visits| * q.attempts <= |q.providers| * q.attempts
  {
    if visits != [] {
      var n := |visits| - 1;
      CallsAreBounded(q, visits[..n]);
      OneVisitIsBounded(q, visits[..n], visits[n]);
      hide Trail, Faithful, CallsIn;
      assert |visits| * q.attempts == n * q.attempts + q.attempts;
    }
    Monotone(|visits|, |q.providers|, q.attempts);
  }

  lemma OneVisitIsBounded(q: Request, before: seq<Visit>, v: Visit)
    requires |before| < |q.providers| && Faithful(q, before, v)
    ensures CallsIn(q, v) <= q.attempts
  {
    hide BlockedAfter;
  }

  lemma Monotone(m: nat, n: nat, c: nat)
    requires m <= n
    ensures m * c <= n * c
  {
    assert n * c == m * c + (n - m) * c;
  }

  /** Every visit of a trail is faithful to the visits before it. */
  lemma {:induction false} TrailAt(q: Request, visits: seq<Visit>, i: nat)
    requires Trail(q, visits) && i < |visits|
    ensures i < |q.providers|
    ensures Faithful(q, visits[..i], visits[i])
    ensures i < |visits| - 1 ==> GoesOn(visits[i])
  {
    hide Faithful, GoesOn;
    var n := |visits| - 1;
    if i < n {
      TrailAt(q, visits[..n], i);
      assert visits[..n][..i] == visits[..i];
    }
  }

  /** No candidate is called that was tripped when reached. */
  lemma TrippedAreNotCalled(q: Request, visits: seq<Visit>, i: nat)
    requires Trail(q, visits) && i < |visits|
    requires CallsIn(q, visits[i]) > 0
    ensures !BlockedAfter(q, visits[..i])
  {
    TrailAt(q, visits, i);
    hide Trail, BlockedAfter;
  }

  /** Candidate `i`, reached after the given visits, cannot serve: tripped, or every attempt fails. */
  ghost predicate CannotServe(q: Request, before: seq<Visit>)
    requires |before| < |q.providers|
  {
    BlockedAfter(q, before) || (q.providers[|before|] in q.registered && AllFail(q, |before|, q.attempts))
  }

  lemma VisitTellsService(q: Request, before: seq<Visit>, v: Visit)
    requires |before| < |q.providers| && Faithful(q, before, v)
    ensures CannotServe(q, before) <==> GoesOn(v)
  {
    hide BlockedAfter;
  }

  /** The answer comes from the first candidate that can serve, at its first answered attempt. */
  lemma FirstServingCandidateAnswers(q: Request, visits: seq<Visit>)
    requires Trail(q, visits) && Complete(q, visits) && OutcomeOf(visits).Result?
    ensures var o := OutcomeOf(visits);
      && o.candidate == |visits| - 1 && o.attempt < q.attempts
      && (forall j: nat | j < o.candidate :: CannotServe(q, visits[..j]))
      && !CannotServe(q, visits[..o.candidate])
      && q.reply(o.candidate, o.attempt) == Answers && AllFail(q, o.candidate, o.attempt)
  {
    var n := |visits| - 1;
    TrailAt(q, visits, n);
    hide Trail, BlockedAfter, CannotServe;
    VisitTellsService(q, visits[..n], visits[n]);
    forall j: nat | j < n ensures CannotServe(q, visits[..j]) {
      TrailAt(q, visits, j);
      VisitTellsService(q, visits[..j], visits[j]);
    }
  }

  /** Any other exception comes from the first candidate that can raise it: unregistered and not tripped, or
      breaking off after failed attempts; and all before it were out. */
  lemma FirstBreakingCandidateRaises(q: Request, visits: seq<Visit>)
    requires Trail(q, visits) && Complete(q, visits)
    ensures var o := OutcomeOf(visits);
      (o.RoutingError? || o.Raised?) ==>
        && o.candidate == |visits| - 1 < |q.providers|
        && (forall j: nat | j < o.candidate :: CannotServe(q, visits[..j]))
        && !BlockedAfter(q, visits[..o.candidate])
        && (o.RoutingError? <==> q.providers[o.candidate] !in q.registered)
        && (o.Raised? ==> q.reply(o.candidate, o.attempt) == Breaks && AllFail(q, o.candidate, o.attempt))
  {
    var o := OutcomeOf(visits);
    if o.RoutingError? || o.Raised? {
      var n := |visits| - 1;
      TrailAt(q, visits, n);
      hide Trail, BlockedAfter, CannotServe;
      forall j: nat | j < n ensures CannotServe(q, visits[..j]) {
        TrailAt(q, visits, j);
        VisitTellsService(q, visits[..j], visits[j]);
      }
    }
  }

  /** ProviderError is raised exactly when every candidate was tripped or failed all its attempts. */
  lemma ProviderErrorIffAllOut(q: Request, visits: seq<Visit>)
    requires Trail(q, visits) && Complete(q, visits)
    ensures OutcomeOf(visits).ProviderError? <==>
      |visits| == |q.providers| && forall j: nat | j < |q.providers| :: CannotServe(q, visits[..j])
  {
    EndsInError(q, visits);
    hide *;
    forall j: nat | j < |visits|
      ensures j < |q.providers| && (CannotServe(q, visits[..j]) <==> GoesOn(visits[j]))
      ensures j < |visits| - 1 ==> GoesOn(visits[j])
    {
      TrailAt(q, visits, j);
      VisitTellsService(q, visits[..j], visits[j]);
    }
  }

  lemma EndsInError(q: Request, visits: seq<Visit>)
    requires Trail(q, visits) && Complete(q, visits)
    ensures |visits| <= |q.providers|
    ensures OutcomeOf(visits).ProviderError? <==>
      |visits| == |q.providers| && (visits != [] ==> GoesOn(visits[|visits| - 1]))
  {
    hide Faithful;
  }

  /** The request determines the run: two complete trails are the same, and so is the outcome. */
  lemma OutcomeIsUnique(q: Request, a: seq<Visit>, b: seq<Visit>)
    requires Trail(q, a) && Complete(q, a) && Trail(q, b) && Complete(q, b)
    ensures a == b && OutcomeOf(a) == OutcomeOf(b)
  {
    var n := if |a| <= |b| then |a| else |b|;
    TrailIsUnique(q, a, b, n);
    assert a[..|a|] == a && b[..|b|] == b;
    if |a| <= |b| {
      CompleteIsWhole(q, a, b);
    } else {
      CompleteIsWhole(q, b, a);
    }
  }

  /** A complete trail is no proper part of another. */
  lemma CompleteIsWhole(q: Request, short: seq<Visit>, long: seq<Visit>)
    requires Complete(q, short) && Trail(q, long) && |short| <= |long| && short == long[..|short|]
    ensures short == long
  {
    var n: nat := |short|;
    if 0 < n < |long| {
      EarlierGoesOn(q, long, n);
    }
    assert long[..|long|] == long;
  }

  lemma EarlierGoesOn(q: Request, visits: seq<Visit>, n: nat)
    requires Trail(q, visits) && 0 < n < |visits|
    ensures GoesOn(visits[..n][n - 1])
  {
    hide Faithful;
  }

  lemma {:induction false} TrailIsUnique(q: Request, a: seq<Visit>, b: seq<Visit>, n: nat)
    requires Trail(q, a) && Trail(q, b) && n <= |a| && n <= |b|
    ensures a[..n] == b[..n]
  {
    hide *;
    if n > 0 {
      var i := n - 1;
      TrailIsUnique(q, a, b, i);
      TrailAt(q, a, i);
      TrailAt(q, b, i);
      SameVisit(q, a[..i], a[i], b[i]);
      assert a[..n] == a[..i] + [a[i]] && b[..n] == b[..i] + [b[i]];
    }
  }

  lemma SameVisit(q: Request, before: seq<Visit>, u: Visit, v: Visit)
    requires |before| < |q.providers| && Faithful(q, before, u) && Faithful(q, before, v)
    ensures u == v
  {
    hide BlockedAfter;
  }
}
