/** The circuit breaker as a function of what happened to a provider. The code keeps a counter and
    a deadline; the specification keeps the whole history and derives both. */
module Health {

  /** What a provider's breaker is told: outcomes of calls, and questions whether it is up. */
  datatype Event = Success | Failure(at: int) | Probe(at: int)

  datatype Limits = Limits(threshold: int, cooldown: int)

  /** Failures since the last success or readmission. */
  function Streak(h: seq<Event>, lim: Limits): nat
    decreases |h|, 0
  {
    if h == [] then 0
    else
      var before := h[..|h| - 1];
      match h[|h| - 1]
      case Success => 0
      case Failure(_) => Streak(before, lim) + 1
      case Probe(at) => if Readmits(before, at, lim) then 0 else Streak(before, lim)
  }

  function LatestFailure(h: seq<Event>): int {
    if h == [] then 0
    else if h[|h| - 1].Failure? then h[|h| - 1].at
    else LatestFailure(h[..|h| - 1])
  }

  /** Enough failures in a row to have been taken out. */
  predicate Tripped(h: seq<Event>, lim: Limits)
    decreases |h|, 1
  {
    Streak(h, lim) >= 1 && Streak(h, lim) >= lim.threshold
  }

  /** A probe after the cooldown lets a tripped provider back in and forgets its failures. */
  predicate Readmits(h: seq<Event>, at: int, lim: Limits)
    decreases |h|, 2
  {
    Tripped(h, lim) && at >= LatestFailure(h) + lim.cooldown
  }

  predicate Blocked(h: seq<Event>, now: int, lim: Limits) {
    Tripped(h, lim) && now < LatestFailure(h) + lim.cooldown
  }

  /** A probe wipes the slate exactly when it lets a tripped provider in. */
  lemma ReadmitsIffLetIn(h: seq<Event>, at: int, lim: Limits)
    ensures Readmits(h, at, lim) <==> Tripped(h, lim) && !Blocked(h, at, lim)
    ensures Tripped(h + [Probe(at)], lim) <==> Blocked(h, at, lim)
  {
    Extends(h, Probe(at), lim);
  }

  /** The counter and the deadline of `name` say what its history says. */
  ghost predicate Tracks(failures: map<string, int>, downUntil: map<string, int>, name: string, h: seq<Event>,
                         lim: Limits) {
    && (if name in failures then failures[name] else 0) == Streak(h, lim)
    && (name in downUntil <==> Tripped(h, lim))
    && (name in downUntil ==> downUntil[name] == LatestFailure(h) + lim.cooldown)
  }

  ghost predicate AllTracked(failures: map<string, int>, downUntil: map<string, int>, history: map<string, seq<Event>>,
                             lim: Limits) {
    forall name: string :: Tracks(failures, downUntil, name, Look(history, name), lim)
  }

  class ProviderHealth {
    const lim: Limits
    var failures: map<string, int>
    var downUntil: map<string, int>
    ghost var history: map<string, seq<Event>>

    ghost function HistoryOf(name: string): seq<Event>
      reads this
    {
      Look(history, name)
    }

    ghost predicate Valid()
      reads this
    {
      AllTracked(failures, downUntil, history, lim)
    }

    constructor (lim: Limits)
      ensures Valid() && this.lim == lim && history == map[]
    {
      this.lim := lim;
      failures, downUntil, history := map[], map[], map[];
    }

    method RecordSuccess(name: string)
      requires Valid()
      modifies this
      ensures Valid() && history == Hear(old(history), name, [Success])
    {
      Extends(HistoryOf(name), Success, lim);
      hide Streak, LatestFailure;
      failures := failures[name := 0];
      downUntil := downUntil - {name};
      history := Hear(history, name, [Success]);
      OthersTrack(old(failures), old(downUntil), old(history), failures, downUntil, history, name, lim);
    }

    method RecordFailure(name: string, now: int)
      requires Valid()
      modifies this
      ensures Valid() && history == Hear(old(history), name, [Failure(now)])
    {
      Extends(HistoryOf(name), Failure(now), lim);
      hide Streak, LatestFailure;
      assert Tracks(failures, downUntil, name, HistoryOf(name), lim);
      var count := (if name in failures then failures[name] else 0) + 1;
      failures := failures[name := count];
      if count >= lim.threshold {
        downUntil := downUntil[name := now + lim.cooldown];
      }
      history := Hear(history, name, [Failure(now)]);
      OthersTrack(old(failures), old(downUntil), old(history), failures, downUntil, history, name, lim);
    }

    method IsAvailable(name: string, now: int) returns (available: bool)
      requires Valid()
      modifies this
      ensures Valid() && history == Hear(old(history), name, [Probe(now)])
      ensures available <==> !Blocked(old(HistoryOf(name)), now, lim)
      ensures var h := old(HistoryOf(name));
        !available <==>
          Streak(h, lim) >= 1 && Streak(h, lim) >= lim.threshold && now < LatestFailure(h) + lim.cooldown
      // a provider that is let in is not tripped, and one that is not still is
      ensures available <==> !Tripped(HistoryOf(name), lim)
    {
      Extends(HistoryOf(name), Probe(now), lim);
      ReadmitsIffLetIn(HistoryOf(name), now, lim);
      hide Streak, LatestFailure;
      assert Tracks(failures, downUntil, name, HistoryOf(name), lim);
      history := Hear(history, name, [Probe(now)]);
      available := true;
      if name in downUntil {
        if now >= downUntil[name] {
          downUntil := downUntil - {name};
          failures := failures[name := 0];
        } else {
          available := false;
        }
      }
      OthersTrack(old(failures), old(downUntil), old(history), failures, downUntil, history, name, lim);
    }
  }

  function Look(history: map<string, seq<Event>>, name: string): seq<Event> {
    if name in history then history[name] else []
  }

  /** The histories after provider `name` has heard more. */
  function Hear(history: map<string, seq<Event>>, name: string, more: seq<Event>): map<string, seq<Event>> {
    history[name := Look(history, name) + more]
  }

  lemma HearTwice(history: map<string, seq<Event>>, name: string, a: seq<Event>, b: seq<Event>)
    ensures Hear(Hear(history, name, a), name, b) == Hear(history, name, a + b)
  {
    assert Look(history, name) + a + b == Look(history, name) + (a + b);
  }

  lemma InHear(history: map<string, seq<Event>>, name: string, more: seq<Event>)
    ensures name in Hear(history, name, more)
  {
  }

  lemma HearNothing(history: map<string, seq<Event>>, name: string)
    requires name in history
    ensures Hear(history, name, []) == history
  {
    assert Look(history, name) + [] == history[name];
  }

  /** An update for one provider leaves the others tracked. */
  lemma OthersTrack(f: map<string, int>, d: map<string, int>, h: map<string, seq<Event>>,
                    f': map<string, int>, d': map<string, int>, h': map<string, seq<Event>>, name: string, lim: Limits)
    requires AllTracked(f, d, h, lim)
    requires f' - {name} == f - {name} && d' - {name} == d - {name} && h' - {name} == h - {name}
    requires Tracks(f', d', name, Look(h', name), lim)
    ensures AllTracked(f', d', h', lim)
  {
    hide Streak, LatestFailure, Tripped;
    forall n ensures Tracks(f', d', n, Look(h', n), lim) {
      if n != name {
        assert Tracks(f, d, n, Look(h, n), lim);
        assert n in f' <==> n in f' - {name};
        assert n in f <==> n in f - {name};
        assert n in d' <==> n in d' - {name};
        assert n in d <==> n in d - {name};
        assert n in h' <==> n in h' - {name};
        assert n in h <==> n in h - {name};
        assert n in f ==> (f - {name})[n] == f[n] && (f' - {name})[n] == f'[n];
        assert n in d ==> (d - {name})[n] == d[n] && (d' - {name})[n] == d'[n];
        assert n in h ==> (h - {name})[n] == h[n] && (h' - {name})[n] == h'[n];
      }
    }
  }

  lemma Extends(h: seq<Event>, e: Event, lim: Limits)
    ensures Streak(h + [e], lim) ==
      if e.Success? then 0
      else if e.Failure? then Streak(h, lim) + 1
      else if Readmits(h, e.at, lim) then 0 else Streak(h, lim)
    ensures LatestFailure(h + [e]) == if e.Failure? then e.at else LatestFailure(h)
  {
    assert (h + [e])[..|h|] == h;
  }

  // ------------------------------------------------- the history, in closed form

  /** Event `k` wipes the slate: a success, or a probe that readmits. */
  predicate Resets(h: seq<Event>, k: nat, lim: Limits)
    requires k < |h|
  {
    h[k].Success? || (h[k].Probe? && Readmits(h[..k], h[k].at, lim))
  }

  function Failures(h: seq<Event>): nat {
    if h == [] then 0 else Failures(h[..|h| - 1]) + (if h[|h| - 1].Failure? then 1 else 0)
  }

  /** The streak is the number of failures after the last reset, wherever that is. */
  lemma {:induction false} StreakCountsFailures(h: seq<Event>, from: nat, lim: Limits)
    requires from <= |h| && (from == 0 || Resets(h, from - 1, lim))
    requires forall k | from <= k < |h| :: !Resets(h, k, lim)
    ensures Streak(h, lim) == Failures(h[from..])
  {
    var n := |h| - 1;
    if from < |h| {
      var before := h[..n];
      assert forall k | 0 <= k < n :: before[k] == h[k] && before[..k] == h[..k];
      assert forall k | 0 <= k < n :: Resets(before, k, lim) == Resets(h, k, lim);
      StreakCountsFailures(before, from, lim);
      assert h[from..][..|h[from..]| - 1] == before[from..];
      assert h[from..][|h[from..]| - 1] == h[n] && !Resets(h, n, lim);
    } else {
      assert h[from..] == [];
      assert h != [] ==> Resets(h, n, lim);
    }
  }

  /** The latest failure is the last one there is. */
  lemma {:induction false} LatestFailureIsLast(h: seq<Event>, i: nat)
    requires i < |h| && h[i].Failure? && forall k | i < k < |h| :: !h[k].Failure?
    ensures LatestFailure(h) == h[i].at
  {
    if i < |h| - 1 {
      LatestFailureIsLast(h[..|h| - 1], i);
    }
  }

  /** Once blocked, nothing but time or a success brings the provider back: probes before the
      deadline change nothing, however many there are. */
  lemma {:induction false} ProbesDoNotUnblock(h: seq<Event>, probes: seq<Event>, now: int, lim: Limits)
    requires forall k | 0 <= k < |probes| :: probes[k].Probe? && probes[k].at <= now
    requires Blocked(h, now, lim)
    ensures Blocked(h + probes, now, lim) && Streak(h + probes, lim) == Streak(h, lim)
    ensures LatestFailure(h + probes) == LatestFailure(h)
  {
    if probes == [] {
      assert h + probes == h;
    } else {
      var n := |probes| - 1;
      ProbesDoNotUnblock(h, probes[..n], now, lim);
      assert h + probes == (h + probes[..n]) + [probes[n]];
      Extends(h + probes[..n], probes[n], lim);
    }
  }

  /** The first probe at or after the deadline readmits with a clean slate, and from there it takes
      a full threshold of failures to trip again. */
  lemma {:induction false} ReadmissionIsClean(h: seq<Event>, at: int, again: seq<Event>, lim: Limits)
    requires Readmits(h, at, lim) && forall k | 0 <= k < |again| :: again[k].Failure?
    ensures Streak(h + [Probe(at)] + again, lim) == |again|
    ensures Tripped(h + [Probe(at)] + again, lim) <==> |again| >= 1 && |again| >= lim.threshold
  {
    Extends(h, Probe(at), lim);
    hide Streak, LatestFailure;
    if again == [] {
      assert h + [Probe(at)] + again == h + [Probe(at)];
    } else {
      var n := |again| - 1;
      ReadmissionIsClean(h, at, again[..n], lim);
      assert h + [Probe(at)] + again == (h + [Probe(at)] + again[..n]) + [again[n]];
      Extends(h + [Probe(at)] + again[..n], again[n], lim);
    }
  }
}
