/** What a crash between two folds leaves of a tree, and when later seals make it good. A cascade starts
    at level 1, so a fold left pending further up waits until a carry gets there. */
module TreeRecovery {
  import opened Options
  import opened Lifecycle
  import opened Forest
  import opened TreeTheorems
  import opened Digits
  import opened SourceTree

  /** One fold is pending, at `level`, and no other. */
  ghost predicate Pending(t: Tables, s: Scope, level: nat, c: nat) {
    SettledExcept(t, s, level, c) && |OpenAt(t, s, level)| == c
  }

  /** The lowest levels up to `level` would all fold if given one node more. */
  ghost predicate CarryReaches(t: Tables, s: Scope, level: nat, c: nat) {
    forall l | 1 <= l < level :: |OpenAt(t, s, l)| + 1 >= c
  }

  // ---------------------------------------------------------------- one seal

  /** Read off the tree before it, what a seal with its whole cascade does to the open nodes of every
      level, whatever is pending where: nothing out of the carry's reach; one more where the carry ends;
      and where it goes on, `c` - 1 fewer, so that a backlog shrinks by that much and no more. */
  lemma CarryLaw(t: Tables, u: Tables, s: Scope, level: nat, c: nat)
    requires Counted(t, u, s, c) && level >= 1
    ensures |OpenAt(u, s, level)| - |OpenAt(t, s, level)|
         == if !CarryReaches(t, s, level, c) then 0 else if |OpenAt(t, s, level)| + 1 < c then 1 else 1 - c
  {
    var to: nat :| Rippled(t, u, s, to, c) && |OpenAt(u, s, to)| < c;
    hide OpenAt;
    if level > to {
      assert |OpenAt(t, s, to)| + 1 < c;
    } else {
      forall l | 1 <= l < level ensures |OpenAt(t, s, l)| + 1 >= c {
        assert |OpenAt(u, s, l)| >= 0;
      }
      assert |OpenAt(u, s, level)| >= 0;
    }
  }

  /** A call cut short in a settled tree leaves at most one fold pending, where its cascade stopped. */
  lemma CrashLeavesOnePending(t: Tables, u: Tables, s: Scope, to: nat, c: nat)
    requires c >= 1 && Settled(t, s, c) && Rippled(t, u, s, to, c)
    ensures Settled(u, s, c) || Pending(u, s, to, c)
  {
    hide OpenAt;
    forall l: nat | l >= 1 && l != to ensures |OpenAt(u, s, l)| < c {
      assert |OpenAt(t, s, l)| < c;
    }
  }

  // ----------------------------------------------------- the counter below a level

  /** What the open nodes below `level` stand for. */
  function Low(t: Tables, s: Scope, level: nat, c: nat): nat {
    if level <= 1 then 0 else Low(t, s, level - 1, c) + |OpenAt(t, s, level - 1)| * Power(c, level - 2)
  }

  /** Folds below `level` keep it, the seal adds one, and a carry into `level` takes its weight. */
  lemma {:induction false} LowRipples(t: Tables, u: Tables, s: Scope, to: nat, level: nat, c: nat)
    requires Rippled(t, u, s, to, c) && level >= 1
    ensures Low(u, s, level, c) == Low(t, s, level, c) + 1 - (if to >= level then Power(c, level - 1) else 0)
  {
    if level > 1 {
      LowRipples(t, u, s, to, level - 1, c);
      var was, now := |OpenAt(t, s, level - 1)|, |OpenAt(u, s, level - 1)|;
      var low, after := Low(t, s, level - 1, c), Low(u, s, level - 1, c);
      assert Power(c, level - 1) == c * Power(c, level - 2);
      assert Low(u, s, level, c) == after + now * Power(c, level - 2);
      assert Low(t, s, level, c) == low + was * Power(c, level - 2);
      hide OpenAt, Low, Power;
      LowTurn(was, now, low, after, Power(c, level - 2), to >= level - 1, to >= level, c);
    }
  }

  lemma LowTurn(was: nat, now: nat, low: int, after: int, w: nat, reached: bool, passed: bool, c: nat)
    requires passed ==> reached
    requires now - was == (if reached then 1 else 0) - (if passed then c else 0)
    requires after == low + 1 - (if reached then w else 0)
    ensures after + now * w == low + was * w + 1 - (if passed then c * w else 0)
  {
    if passed {
      Weigh(was, 1 - c, w);
      Weigh(1 - c, c, w);
    } else if reached {
      Weigh(was, 1, w);
    }
  }

  lemma Weigh(x: int, y: int, w: int)
    ensures (x + y) * w == x * w + y * w
  {
  }

  lemma {:induction false} LowIsBounded(t: Tables, s: Scope, level: nat, c: nat)
    requires c >= 1 && level >= 1 && forall l | 1 <= l < level :: |OpenAt(t, s, l)| < c
    ensures Low(t, s, level, c) < Power(c, level - 1)
  {
    if level > 1 {
      LowIsBounded(t, s, level - 1, c);
      hide OpenAt;
      AtMost(|OpenAt(t, s, level - 1)|, c - 1, Power(c, level - 2));
      Weigh(c, -1, Power(c, level - 2));
    }
  }

  lemma AtMost(x: nat, y: nat, w: nat)
    requires x <= y
    ensures x * w <= y * w
  {
  }

  // ----------------------------------------------------------------- recovery

  /** A seal makes the pending fold good exactly when the counter below it overflows; until then the
      fold stays pending and the counter counts on. */
  lemma SealRecoversIff(t: Tables, u: Tables, s: Scope, level: nat, c: nat)
    requires c >= 2 && level >= 1 && Pending(t, s, level, c) && Counted(t, u, s, c)
    ensures Low(t, s, level, c) < Power(c, level - 1)
    ensures if Low(t, s, level, c) + 1 == Power(c, level - 1) then Settled(u, s, c)
            else Pending(u, s, level, c) && Low(u, s, level, c) == Low(t, s, level, c) + 1
  {
    var to: nat :| Rippled(t, u, s, to, c) && |OpenAt(u, s, to)| < c;
    LowRipples(t, u, s, to, level, c);
    LowIsBounded(t, s, level, c);
    OthersSettle(t, u, s, to, level, c);
    hide OpenAt, Low, Power;
    if to < level {
      LowIsBounded(u, s, level, c);
    }
  }

  lemma OthersSettle(t: Tables, u: Tables, s: Scope, to: nat, level: nat, c: nat)
    requires c >= 2 && level >= 1 && Pending(t, s, level, c) && Rippled(t, u, s, to, c) && |OpenAt(u, s, to)| < c
    ensures if to >= level then Settled(u, s, c) else Pending(u, s, level, c)
  {
    hide OpenAt;
    forall l: nat | l >= 1 && (l != level || to >= level) ensures |OpenAt(u, s, l)| < c {
      assert l != level ==> |OpenAt(t, s, l)| < c;
    }
  }

  /** The event seals in scope `s`. */
  predicate SealsIn(t: Tables, e: Event, s: Scope) {
    match e
    case Append(x, SealedAs(_)) => x in t.chunks && t.chunks[x].stage.Admitted? && t.chunks[x].scope == s
    case Flush(r, SealedAs(_)) => r == s
    case _ => false
  }

  /** How many of the first `n` events do. */
  function SealCount(states: seq<Tables>, events: seq<Event>, s: Scope, n: nat): nat
    requires n <= |events| <= |states|
  {
    if n == 0 then 0
    else SealCount(states, events, s, n - 1) + if SealsIn(states[n - 1], events[n - 1], s) then 1 else 0
  }

  lemma EventOpens(t: Tables, u: Tables, e: Event, s: Scope, b: nat, c: nat)
    requires Did(t, u, e, b, c)
    ensures if SealsIn(t, e, s) then Counted(t, u, s, c) else forall l: nat :: OpenAt(u, s, l) == OpenAt(t, s, l)
    ensures Settled(t, s, c) ==> Settled(u, s, c)
  {
    hide Sound, Grows, Counted, SealedOldest;
    if !SealsIn(t, e, s) {
      if u.nodes != t.nodes {
        var r := if e.Append? then t.chunks[e.chunk].scope else e.s;
        assert r != s && SameElsewhere(t, u, r);
      }
      forall l: nat ensures OpenAt(u, s, l) == OpenAt(t, s, l) {}
    }
  }

  lemma SameOpens(t: Tables, u: Tables, s: Scope, level: nat, c: nat)
    requires forall l: nat :: OpenAt(u, s, l) == OpenAt(t, s, l)
    ensures Pending(t, s, level, c) ==> Pending(u, s, level, c)
    ensures Low(u, s, level, c) == Low(t, s, level, c)
  {
    hide OpenAt;
    SameLow(t, u, s, level, c);
  }

  lemma {:induction false} SameLow(t: Tables, u: Tables, s: Scope, level: nat, c: nat)
    requires forall l: nat :: OpenAt(u, s, l) == OpenAt(t, s, l)
    ensures Low(u, s, level, c) == Low(t, s, level, c)
  {
    hide OpenAt;
    if level > 1 {
      SameLow(t, u, s, level - 1, c);
    }
  }

  /** From a tree with one fold pending at `level`, over any crash-free run of both handlers and in any
      mix of scopes: the fold stays pending for exactly as many seals of the scope as the counter
      below it has left to count, and from then on nothing is pending. */
  lemma {:induction false} RecoveryTime(
    states: seq<Tables>, events: seq<Event>, b: nat, c: nat, s: Scope, level: nat, i: nat)
    requires CrashFree(states, events, b, c) && i < |states|
    requires c >= 2 && level >= 1 && Pending(states[0], s, level, c)
    ensures var v, n := Low(states[0], s, level, c), SealCount(states, events, s, i);
      && v < Power(c, level - 1)
      && if v + n < Power(c, level - 1) then Pending(states[i], s, level, c) && Low(states[i], s, level, c) == v + n
         else Settled(states[i], s, c)
  {
    hide Did, Counted, OpenAt, Low, Power;
    if i == 0 {
      LowIsBounded(states[0], s, level, c);
    } else {
      var t, u, e := states[i - 1], states[i], events[i - 1];
      RecoveryTime(states, events, b, c, s, level, i - 1);
      assert Did(t, states[i - 1 + 1], e, b, c);
      hide Pending, Settled;
      EventOpens(t, u, e, s, b, c);
      if Pending(t, s, level, c) {
        if SealsIn(t, e, s) {
          SealRecoversIff(t, u, s, level, c);
        } else {
          SameOpens(t, u, s, level, c);
        }
      }
    }
  }

  /** So whatever a call cut short leaves of a settled tree, at most c^(L-1) seals make it good, L being
      the level its cascade stopped at. */
  lemma CrashIsMadeGood(
    t: Tables, to: nat, states: seq<Tables>, events: seq<Event>, b: nat, c: nat, s: Scope, i: nat)
    requires c >= 2 && Settled(t, s, c) && CrashFree(states, events, b, c) && i < |states|
    requires Rippled(t, states[0], s, to, c) && SealCount(states, events, s, i) >= Power(c, to - 1)
    ensures Settled(states[i], s, c)
  {
    CrashLeavesOnePending(t, states[0], s, to, c);
    hide CrashFree, Settled, Pending, Rippled, SealCount;
    if Pending(states[0], s, to, c) {
      RecoveryTime(states, events, b, c, s, to, i);
    } else {
      StaysSettled(states, events, b, c, s, i);
    }
  }

  lemma {:induction false} StaysSettled(
    states: seq<Tables>, events: seq<Event>, b: nat, c: nat, s: Scope, i: nat)
    requires CrashFree(states, events, b, c) && i < |states| && Settled(states[0], s, c)
    ensures Settled(states[i], s, c)
  {
    hide Did, Settled;
    if i > 0 {
      StaysSettled(states, events, b, c, s, i - 1);
      assert Did(states[i - 1], states[i - 1 + 1], events[i - 1], b, c);
      EventOpens(states[i - 1], states[i], events[i - 1], s, b, c);
    }
  }
}
