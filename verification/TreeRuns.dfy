/** Crash-free runs of the tree handlers, from empty tables: what the nodes cover, and what the open nodes
    count. */
module TreeRuns {
  import opened Rows
  import opened Lifecycle
  import opened Forest
  import opened TreeTheorems
  import opened Digits
  import opened SourceTree

  ghost predicate FromEmpty(states: seq<Tables>, events: seq<Event>, b: nat, c: nat) {
    CrashFree(states, events, b, c) && states[0] == Tables(map[], map[])
  }

  lemma SoundThroughout(states: seq<Tables>, events: seq<Event>, b: nat, c: nat, i: nat)
    requires FromEmpty(states, events, b, c) && i < |states|
    ensures Sound(states[i], b, c)
  {
    EmptyIsSound(b, c);
    hide Sound;
    if i > 0 {
      assert Did(states[i - 1], states[i - 1 + 1], events[i - 1], b, c);
    }
  }

  lemma ShortThroughout(states: seq<Tables>, events: seq<Event>, b: nat, c: nat, i: nat)
    requires FromEmpty(states, events, b, c) && i < |states| && b >= 1 && c >= 1
    ensures Short(states[i], b, c)
  {
    hide CrashFree, Short;
    EmptyIsShort(b, c);
    BuffersStayShort(states, events, b, c, i);
  }

  /** At each point of such a run, with `buffer_size` at least 1 and `cascade_size` at least 2: every buffer is
      short of full, and every tree's open nodes are the digits of how often it was sealed. */
  lemma RunsCount(states: seq<Tables>, events: seq<Event>, b: nat, c: nat, i: nat, s: Scope, level: nat)
    requires FromEmpty(states, events, b, c) && i < |states| && b >= 1 && c >= 2 && level >= 1
    ensures |InStage(states[i], s, Buffered)| < b
    ensures |OpenAt(states[i], s, level)| == Digit(|AtLevel(states[i], s, 1)|, level - 1, c)
  {
    SoundThroughout(states, events, b, c, i);
    ShortThroughout(states, events, b, c, i);
    hide FromEmpty, IsForest;
    OpenNodesAreDigits(states[i], s, c);
  }

  // ---------------------------------------------------------- what flushes leave

  /** The nodes that the first `n` events sealed in a flush. */
  function FlushSeals(events: seq<Event>, n: nat): set<nat>
    requires n <= |events|
  {
    if n == 0 then {} else FlushSeals(events, n - 1) + FlushSeal(events[n - 1])
  }

  function FlushSeal(e: Event): set<nat> {
    if e.Flush? && e.o.SealedAs? then {e.o.id} else {}
  }

  /** Of the level-1 nodes exactly those have fewer than `b` chunks. */
  ghost predicate ShortOnes(t: Tables, flushed: set<nat>, b: nat) {
    && flushed <= t.nodes.Keys
    && forall m | m in t.nodes && t.nodes[m].children.ChunkIds? :: |t.nodes[m].children.chunks| == b <==> m !in flushed
  }

  /** The node an event seals is full if it is an append's, and short if it is a flush's. */
  lemma SealedSize(t: Tables, u: Tables, e: Event, b: nat, c: nat)
    requires Short(t, b, c) && Did(t, u, e, b, c) && u.nodes != t.nodes
    ensures e.Append? || e.Flush?
    ensures e.o.SealedAs? && e.o.id !in t.nodes && e.o.id in u.nodes && u.nodes[e.o.id].children.ChunkIds?
    ensures |u.nodes[e.o.id].children.chunks| == b <==> e.Append?
    ensures var r := if e.Append? && e.chunk in t.chunks then t.chunks[e.chunk].scope else u.nodes[e.o.id].scope;
      SameElsewhere(t, u, r) && AtLevel(u, r, 1) == AtLevel(t, r, 1) + {e.o.id}
  {
    hide Sound, Grows, Counted, SameElsewhere;
    match e
    case Append(x, o) =>
      var s := t.chunks[x].scope;
      assert |InStage(t, s, Buffered)| < b;
    case Flush(s, o) =>
      assert |InStage(t, s, Buffered)| < b;
      SealDrains(t, u, s, o.id, b);
    case Elsewhere =>
  }

  /** It is the only new level-1 node. */
  lemma OnlyNewOne(t: Tables, u: Tables, e: Event, b: nat, c: nat, m: nat)
    requires Short(t, b, c) && Did(t, u, e, b, c) && u.nodes != t.nodes
    requires m in u.nodes && m !in t.nodes && u.nodes[m].children.ChunkIds?
    ensures e.o.SealedAs? && m == e.o.id
  {
    assert Shaped(u, b, c);
    SealedSize(t, u, e, b, c);
    hide Short, Did, Grows;
    assert ShapedNode(u, m, b, c);
    var r := if e.Append? && e.chunk in t.chunks then t.chunks[e.chunk].scope else u.nodes[e.o.id].scope;
    assert m in AtLevel(u, r, 1);
  }

  lemma EventKeepsShortOnes(t: Tables, u: Tables, e: Event, flushed: set<nat>, b: nat, c: nat)
    requires Short(t, b, c) && Did(t, u, e, b, c) && ShortOnes(t, flushed, b)
    ensures ShortOnes(u, flushed + FlushSeal(e), b)
  {
    hide Short, Did, SameElsewhere, AtLevel;
    DidGrows(t, u, e, b, c);
    if u.nodes == t.nodes {
      NothingSealed(t, u, e, b, c);
    } else {
      SealedSize(t, u, e, b, c);
      forall m | m in u.nodes && u.nodes[m].children.ChunkIds?
        ensures |u.nodes[m].children.chunks| == b <==> m !in flushed + FlushSeal(e)
      {
        if m in t.nodes {
          assert u.nodes[m].children == t.nodes[m].children;
        } else {
          OnlyNewOne(t, u, e, b, c, m);
        }
      }
    }
  }

  lemma DidGrows(t: Tables, u: Tables, e: Event, b: nat, c: nat)
    requires Did(t, u, e, b, c)
    ensures Grows(t.nodes, u.nodes) && Sound(u, b, c)
  {
    hide Grows, Sound;
  }

  lemma NothingSealed(t: Tables, u: Tables, e: Event, b: nat, c: nat)
    requires Did(t, u, e, b, c) && u.nodes == t.nodes
    ensures FlushSeal(e) == {}
  {
    hide Sound, Grows, Counted, SameElsewhere;
  }

  lemma {:induction false} FlushesAreShort(states: seq<Tables>, events: seq<Event>, b: nat, c: nat, i: nat)
    requires FromEmpty(states, events, b, c) && i < |states| && b >= 1 && c >= 1
    ensures ShortOnes(states[i], FlushSeals(events, i), b)
  {
    hide Did, Short;
    if i > 0 {
      assert Did(states[i - 1], states[i - 1 + 1], events[i - 1], b, c);
      hide ShortOnes, FromEmpty;
      FlushesAreShort(states, events, b, c, i - 1);
      ShortThroughout(states, events, b, c, i - 1);
      EventKeepsShortOnes(states[i - 1], states[i], events[i - 1], FlushSeals(events, i - 1), b, c);
    }
  }

  /** No level-1 node under `m` is one of those. */
  ghost predicate NoneUnder(t: Tables, b: nat, c: nat, m: nat, flushed: set<nat>)
    requires Shaped(t, b, c) && m in t.nodes
    decreases t.nodes[m].level
  {
    assert ShapedNode(t, m, b, c);
    match t.nodes[m].children
    case ChunkIds(_) => m !in flushed
    case NodeIds(ks) =>
      assert forall k | k in ks :: k in Elements(ks);
      forall k | k in ks :: NoneUnder(t, b, c, k, flushed)
  }

  lemma {:induction false} FullIffNoneUnder(t: Tables, b: nat, c: nat, m: nat, flushed: set<nat>)
    requires Shaped(t, b, c) && m in t.nodes && ShortOnes(t, flushed, b)
    ensures Full(t, b, c, m) <==> NoneUnder(t, b, c, m, flushed)
    decreases t.nodes[m].level
  {
    assert ShapedNode(t, m, b, c);
    match t.nodes[m].children
    case ChunkIds(_) =>
    case NodeIds(ks) =>
      ChildrenAreListed(t, b, c, m);
      forall k | k in ks ensures Full(t, b, c, k) <==> NoneUnder(t, b, c, k, flushed) {
        FullIffNoneUnder(t, b, c, k, flushed);
      }
  }

  /** A level-L node covers at most b * c^(L-1) chunks, and exactly that many if and only if none of the
      `flushed` is under it. */
  ghost predicate CoversByFlushes(t: Tables, b: nat, c: nat, m: nat, flushed: set<nat>)
    requires Shaped(t, b, c) && m in t.nodes && t.nodes[m].level >= 1
  {
    var most := b * Power(c, t.nodes[m].level - 1);
    && |Leaves(t, b, c, m)| <= most
    && (|Leaves(t, b, c, m)| == most <==> NoneUnder(t, b, c, m, flushed))
  }

  lemma CoverageByFlushes(t: Tables, b: nat, c: nat, m: nat, flushed: set<nat>)
    requires Sound(t, b, c) && m in t.nodes && ShortOnes(t, flushed, b)
    ensures Shaped(t, b, c) && t.nodes[m].level >= 1 && CoversByFlushes(t, b, c, m, flushed)
  {
    assert Shaped(t, b, c) && ShapedNode(t, m, b, c);
    hide Sound, Shaped, ShortOnes, Leaves, Full, NoneUnder, Power;
    FullIffNoneUnder(t, b, c, m, flushed);
    CoverageOfNode(t, b, c, m);
  }

  /** At each point of such a run a level-L node covers b * c^(L-1) chunks if no flush sealed any node under
      it, and fewer otherwise. */
  lemma CoverageInRuns(states: seq<Tables>, events: seq<Event>, b: nat, c: nat, i: nat, m: nat)
    requires FromEmpty(states, events, b, c) && i < |states| && b >= 1 && c >= 2
    requires m in states[i].nodes
    ensures Shaped(states[i], b, c) && states[i].nodes[m].level >= 1
    ensures CoversByFlushes(states[i], b, c, m, FlushSeals(events, i))
  {
    assert i <= |events|;
    hide *;
    SoundThroughout(states, events, b, c, i);
    FlushesAreShort(states, events, b, c, i);
    CoverageByFlushes(states[i], b, c, m, FlushSeals(events, i));
  }
}
