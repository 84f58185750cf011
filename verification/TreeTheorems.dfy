/** What the kept invariants say about the summary trees as a whole. Nothing here mentions how a
    state was reached: every state that any run of seals, folds and crashes leads to is `Sound`. */
module TreeTheorems {
  import opened Options
  import opened Rows
  import opened Lifecycle
  import opened Digits
  import opened Forest

  // ------------------------------------------------------ the counter reading

  /** No level holds enough open nodes for another fold. */
  ghost predicate Settled(t: Tables, s: Scope, c: nat) {
    forall level: nat | level >= 1 :: |OpenAt(t, s, level)| < c
  }

  /** The open nodes are the base-`c` digits of the number of seals. */
  ghost predicate Counts(t: Tables, s: Scope, c: nat)
    requires c >= 2
  {
    forall level: nat | level >= 1 :: |OpenAt(t, s, level)| == Digit(|AtLevel(t, s, 1)|, level - 1, c)
  }

  lemma {:induction false} LevelsAreHighParts(t: Tables, s: Scope, c: nat, level: nat)
    requires c >= 2 && Tallied(t, c) && Settled(t, s, c) && level >= 1
    ensures |AtLevel(t, s, level)| == High(|AtLevel(t, s, 1)|, level - 1, c)
  {
    if level > 1 {
      LevelsAreHighParts(t, s, c, level - 1);
      DivideUniquely(|AtLevel(t, s, level - 1)|, |AtLevel(t, s, level)|, |OpenAt(t, s, level - 1)|, c);
    }
  }

  /** After any run, the open nodes read the number of seals in base `c` exactly when no fold is
      pending. Crash-free calls leave no fold pending (SourceTree.Seal). */
  lemma OpenNodesAreDigits(t: Tables, s: Scope, c: nat)
    requires c >= 2 && Tallied(t, c)
    ensures Settled(t, s, c) <==> Counts(t, s, c)
  {
    if Settled(t, s, c) {
      forall level: nat | level >= 1
        ensures |OpenAt(t, s, level)| == Digit(|AtLevel(t, s, 1)|, level - 1, c)
      {
        LevelsAreHighParts(t, s, c, level);
        DivideUniquely(|AtLevel(t, s, level)|, |AtLevel(t, s, level + 1)|, |OpenAt(t, s, level)|, c);
      }
    }
    if Counts(t, s, c) {
      forall level: nat | level >= 1 ensures |OpenAt(t, s, level)| < c {
        assert |OpenAt(t, s, level)| == Digit(|AtLevel(t, s, 1)|, level - 1, c);
      }
    }
  }

  // ------------------------------------------------------------ counting folds

  function FromLevel(t: Tables, s: Scope, level: nat): set<nat> {
    set m | m in t.nodes && t.nodes[m].scope == s && t.nodes[m].level >= level
  }

  lemma {:induction false} EmptyAbove(t: Tables, s: Scope, c: nat, low: nat, high: nat)
    requires c >= 1 && Tallied(t, c) && 1 <= low <= high && AtLevel(t, s, low) == {}
    ensures AtLevel(t, s, high) == {}
    decreases high
  {
    if low < high {
      EmptyAbove(t, s, c, low, high - 1);
      assert |AtLevel(t, s, high - 1)| == |OpenAt(t, s, high - 1)| + c * |AtLevel(t, s, high)|;
    }
  }

  lemma {:induction false} FoldsAboveLevel(t: Tables, s: Scope, c: nat, level: nat)
    requires c >= 2 && Tallied(t, c) && Settled(t, s, c) && level >= 1
    ensures |FromLevel(t, s, level + 1)| == Carries(|AtLevel(t, s, level)|, c)
    decreases |AtLevel(t, s, level)|
  {
    var n, q := |AtLevel(t, s, level)|, |AtLevel(t, s, level + 1)|;
    assert n == |OpenAt(t, s, level)| + c * q;
    if n == 0 {
      NothingAbove(t, s, c, level);
    } else {
      Shrinks(n, q, |OpenAt(t, s, level)|, c);
      CarriesUnfold(n, q, |OpenAt(t, s, level)|, c);
      FoldsAboveLevel(t, s, c, level + 1);
      PeelLevel(t, s, level + 1);
    }
  }

  lemma Shrinks(n: nat, q: nat, r: nat, c: nat)
    requires c >= 2 && n > 0 && n == r + c * q
    ensures q < n
  {
    Distribute(q, c - 1, 1);
    MultipleIsFar(c - 1, q);
  }

  lemma NothingAbove(t: Tables, s: Scope, c: nat, level: nat)
    requires c >= 1 && Tallied(t, c) && level >= 1 && AtLevel(t, s, level) == {}
    ensures FromLevel(t, s, level + 1) == {}
  {
    forall l: nat | l >= level ensures AtLevel(t, s, l) == {} {
      EmptyAbove(t, s, c, level, l);
    }
    assert forall m | m in FromLevel(t, s, level + 1) :: m in AtLevel(t, s, t.nodes[m].level);
  }

  lemma PeelLevel(t: Tables, s: Scope, level: nat)
    ensures |FromLevel(t, s, level)| == |AtLevel(t, s, level)| + |FromLevel(t, s, level + 1)|
  {
    assert FromLevel(t, s, level) == AtLevel(t, s, level) + FromLevel(t, s, level + 1);
    assert AtLevel(t, s, level) !! FromLevel(t, s, level + 1);
  }

  /** n crash-free seals caused exactly (n - digit sum of n) / (c - 1) folds. */
  lemma FoldsOfSettledTree(t: Tables, s: Scope, c: nat)
    requires c >= 2 && Tallied(t, c) && Settled(t, s, c)
    ensures var n := |AtLevel(t, s, 1)|;
      (c - 1) * |FoldedIn(t, s)| == n - DigitSum(n, c) && |OpenIn(t, s)| == DigitSum(n, c)
  {
    FoldsAboveLevel(t, s, c, 1);
    assert FromLevel(t, s, 2) == FoldedIn(t, s);
    CarriesAndDigitSum(|AtLevel(t, s, 1)|, c);
    assert |AtLevel(t, s, 1)| == |OpenIn(t, s)| + (c - 1) * |FoldedIn(t, s)|;
  }

  /** In every run, crashes included, n >= 1 committed seals cost at most (n - 1) / (c - 1) folds,
      so n + (n - 1) / (c - 1) committed summaries. */
  lemma SummariesAreBounded(t: Tables, s: Scope, c: nat)
    requires c >= 2 && Tallied(t, c)
    ensures var n := |AtLevel(t, s, 1)|;
      n >= 1 ==> |AtLevel(t, s, 1)| + |FoldedIn(t, s)| <= n + (n - 1) / (c - 1)
  {
    var n, f, open := |AtLevel(t, s, 1)|, |FoldedIn(t, s)|, |OpenIn(t, s)|;
    assert n == open + (c - 1) * f;
    if n >= 1 {
      SomeNodeIsOpen(t, s, c);
      QuotientAtLeast(n - 1, c - 1, f);
    }
  }

  lemma SomeNodeIsOpen(t: Tables, s: Scope, c: nat)
    requires c >= 2 && Tallied(t, c) && AtLevel(t, s, 1) != {}
    ensures OpenIn(t, s) != {}
  {
    if OpenIn(t, s) == {} {
      forall l: nat ensures OpenAt(t, s, l) == {} {
        assert OpenAt(t, s, l) <= OpenIn(t, s);
      }
      NoOpenMeansEndless(t, s, c, 1);
    }
  }

  /** Without open nodes every level would need a level above it. */
  lemma {:induction false} NoOpenMeansEndless(t: Tables, s: Scope, c: nat, level: nat)
    requires c >= 2 && Tallied(t, c) && level >= 1 && AtLevel(t, s, level) != {}
    requires forall l: nat :: OpenAt(t, s, l) == {}
    ensures false
    decreases FromLevel(t, s, level)
  {
    assert |AtLevel(t, s, level)| == |OpenAt(t, s, level)| + c * |AtLevel(t, s, level + 1)|;
    var m :| m in AtLevel(t, s, level);
    assert m in FromLevel(t, s, level) && m !in FromLevel(t, s, level + 1);
    assert FromLevel(t, s, level + 1) <= FromLevel(t, s, level);
    NoOpenMeansEndless(t, s, c, level + 1);
  }

  /** `u` is `t` after a pass of `_cascade` at `level`, whatever open nodes it took. */
  ghost predicate OnePass(t: Tables, u: Tables, s: Scope, level: nat, c: nat) {
    exists sel, id, now :: CanFold(t, s, level, sel, id, c) && u == FoldCommit(t, s, level, sel, id, now)
  }

  /** ... and after `n` passes from `level` on. */
  ghost predicate Passes(t: Tables, u: Tables, s: Scope, level: nat, n: nat, c: nat)
    decreases n
  {
    if n == 0 then u == t else exists mid :: OnePass(t, mid, s, level, c) && Passes(mid, u, s, level + 1, n - 1, c)
  }

  /** With `cascade_size` below 2 the cascade after a seal goes on for ever: any number of passes can be
      made, and after any number of passes, whatever they took, the guard holds a level up. (From 2 on,
      SourceTree.Cascade is proved to end.) */
  lemma CascadeOfOneNeverStops(t: Tables, s: Scope, sel: seq<nat>, id: nat, n: nat, c: nat)
    requires c <= 1 && id !in t.nodes
    ensures exists u :: Passes(SealCommit(t, s, sel, id), u, s, 1, n, c)
    ensures forall u | Passes(SealCommit(t, s, sel, id), u, s, 1, n, c) :: |OpenAt(u, s, n + 1)| >= c
  {
    var sealed := SealCommit(t, s, sel, id);
    SealCounts(t, s, sel, id, s, 1);
    hide *;
    var u := MorePasses(sealed, s, 1, n, c);
    forall v | Passes(sealed, v, s, 1, n, c) ensures |OpenAt(v, s, n + 1)| >= c {
      GuardGoesUp(sealed, v, s, 1, n, c);
    }
  }

  lemma GuardStays(t: Tables, mid: Tables, s: Scope, level: nat, c: nat)
    requires c <= 1 && OnePass(t, mid, s, level, c)
    ensures |OpenAt(mid, s, level + 1)| >= c
  {
    var sel, id, now :| CanFold(t, s, level, sel, id, c) && mid == FoldCommit(t, s, level, sel, id, now);
    FoldCounts(t, s, level, sel, id, now, c, s, level + 1);
  }

  lemma {:induction false} GuardGoesUp(t: Tables, u: Tables, s: Scope, level: nat, n: nat, c: nat)
    requires c <= 1 && |OpenAt(t, s, level)| >= c && Passes(t, u, s, level, n, c)
    ensures |OpenAt(u, s, level + n)| >= c
    decreases n
  {
    hide OnePass, OpenAt;
    if n > 0 {
      var mid :| OnePass(t, mid, s, level, c) && Passes(mid, u, s, level + 1, n - 1, c);
      GuardStays(t, mid, s, level, c);
      GuardGoesUp(mid, u, s, level + 1, n - 1, c);
      assert level + 1 + (n - 1) == level + n;
    }
  }

  lemma {:induction false} MorePasses(t: Tables, s: Scope, level: nat, n: nat, c: nat) returns (u: Tables)
    requires c <= 1 && level >= 1 && |OpenAt(t, s, level)| >= c
    ensures Passes(t, u, s, level, n, c)
    decreases n
  {
    hide OnePass, OpenAt;
    if n == 0 {
      u := t;
    } else {
      var mid := SomePass(t, s, level, c);
      GuardStays(t, mid, s, level, c);
      u := MorePasses(mid, s, level + 1, n - 1, c);
    }
  }

  /** Where the guard holds a pass can be made. */
  lemma SomePass(t: Tables, s: Scope, level: nat, c: nat) returns (u: Tables)
    requires c <= 1 && level >= 1 && |OpenAt(t, s, level)| >= c
    ensures OnePass(t, u, s, level, c)
  {
    FreshIdExists(t.nodes.Keys);
    var id: nat :| id !in t.nodes;
    var sel: seq<nat> := [];
    if c == 1 {
      var m :| m in OpenAt(t, s, level);
      sel := [m];
    }
    assert CanFold(t, s, level, sel, id, c);
    u := FoldCommit(t, s, level, sel, id, 0);
  }

  // ------------------------------------------------------- what a node expands to

  /** The chunks under a node, with multiplicity. */
  ghost function Leaves(t: Tables, b: nat, c: nat, m: nat): multiset<nat>
    requires Shaped(t, b, c) && m in t.nodes
    decreases t.nodes[m].level, 1, 0
  {
    assert ShapedNode(t, m, b, c);
    match t.nodes[m].children
    case ChunkIds(xs) => multiset(xs)
    case NodeIds(ks) =>
      assert forall k | k in ks :: k in Elements(ks);
      LeavesOf(t, b, c, ks, t.nodes[m].level)
  }

  ghost predicate Listed(t: Tables, ks: seq<nat>, bound: nat) {
    forall k | k in ks :: k in t.nodes && t.nodes[k].level < bound
  }

  /** The chunks under a list of nodes below level `bound`, one node after the other. */
  ghost function LeavesOf(t: Tables, b: nat, c: nat, ks: seq<nat>, bound: nat): multiset<nat>
    requires Shaped(t, b, c)
    requires forall k | k in ks :: k in t.nodes && t.nodes[k].level < bound
    decreases bound, 0, |ks|
  {
    if ks == [] then multiset{} else Leaves(t, b, c, ks[0]) + LeavesOf(t, b, c, ks[1..], bound)
  }

  ghost predicate Covers(t: Tables, b: nat, c: nat, m: nat, x: nat)
    requires Shaped(t, b, c) && m in t.nodes
  {
    Leaves(t, b, c, m)[x] >= 1
  }

  lemma {:induction false} CoveredByMember(t: Tables, b: nat, c: nat, ks: seq<nat>, bound: nat, x: nat)
    requires Shaped(t, b, c) && Listed(t, ks, bound)
    ensures LeavesOf(t, b, c, ks, bound)[x] >= 1 <==> exists k :: k in ks && Covers(t, b, c, k, x)
  {
    if ks != [] {
      CoveredByMember(t, b, c, ks[1..], bound, x);
      hide Leaves;
      assert LeavesOf(t, b, c, ks, bound)[x] == Leaves(t, b, c, ks[0])[x] + LeavesOf(t, b, c, ks[1..], bound)[x];
      assert forall k :: k in ks <==> k == ks[0] || k in ks[1..];
    }
  }

  /** The children of a folded node: listed, one level down, same scope, consumed. */
  lemma ChildrenAreListed(t: Tables, b: nat, c: nat, m: nat)
    requires Shaped(t, b, c) && m in t.nodes && t.nodes[m].children.NodeIds?
    ensures var n := t.nodes[m]; var ks := n.children.nodes;
      && Listed(t, ks, n.level) && Distinct(ks) && |ks| == c && n.level >= 2
      && forall k | k in ks :: t.nodes[k].level == n.level - 1 && t.nodes[k].scope == n.scope && Parent(t, m, k)
  {
    assert ShapedNode(t, m, b, c);
    forall k | k in t.nodes[m].children.nodes
      ensures k in AtLevel(t, t.nodes[m].scope, t.nodes[m].level - 1)
    {
      assert k in Elements(t.nodes[m].children.nodes);
    }
  }

  lemma ChildCovering(t: Tables, b: nat, c: nat, m: nat, x: nat) returns (k: nat)
    requires Shaped(t, b, c) && m in t.nodes && t.nodes[m].level > 1 && Covers(t, b, c, m, x)
    ensures Parent(t, m, k) && k in t.nodes && t.nodes[k].level == t.nodes[m].level - 1 && Covers(t, b, c, k, x)
    ensures t.nodes[k].scope == t.nodes[m].scope
  {
    assert ShapedNode(t, m, b, c);
    ChildrenAreListed(t, b, c, m);
    var ks := t.nodes[m].children.nodes;
    CoveredByMember(t, b, c, ks, t.nodes[m].level, x);
    k :| k in ks && Covers(t, b, c, k, x);
  }

  /** Of the nodes of one level, at most one covers a given chunk. */
  lemma {:induction false} OneCoverPerLevel(t: Tables, b: nat, c: nat, m1: nat, m2: nat, x: nat)
    requires IsForest(t, b, c) && m1 in t.nodes && m2 in t.nodes && t.nodes[m1].level == t.nodes[m2].level
    requires Covers(t, b, c, m1, x) && Covers(t, b, c, m2, x)
    ensures m1 == m2
    decreases t.nodes[m1].level
  {
    assert ShapedNode(t, m1, b, c) && ShapedNode(t, m2, b, c);
    if t.nodes[m1].level == 1 {
      assert Holds(t, m1, x) && Holds(t, m2, x);
    } else {
      var k1 := ChildCovering(t, b, c, m1, x);
      var k2 := ChildCovering(t, b, c, m2, x);
      OneCoverPerLevel(t, b, c, k1, k2, x);
    }
  }

  /** A node covering a chunk that a higher node covers too has been consumed. */
  lemma {:induction false} LowerCoverIsConsumed(t: Tables, b: nat, c: nat, low: nat, high: nat, x: nat)
    requires IsForest(t, b, c) && low in t.nodes && high in t.nodes && t.nodes[low].level < t.nodes[high].level
    requires Covers(t, b, c, low, x) && Covers(t, b, c, high, x)
    ensures t.nodes[low].sealedAt.Some?
    decreases t.nodes[high].level
  {
    assert ShapedNode(t, low, b, c) && ShapedNode(t, high, b, c);
    var k := ChildCovering(t, b, c, high, x);
    if t.nodes[low].level == t.nodes[k].level {
      OneCoverPerLevel(t, b, c, low, k, x);
      assert k in Elements(t.nodes[high].children.nodes);
    } else {
      LowerCoverIsConsumed(t, b, c, low, k, x);
    }
  }

  /** Climbing from any node that covers a chunk ends in an open node that covers it. */
  lemma {:induction false} SomeOpenCover(t: Tables, b: nat, c: nat, m: nat, x: nat) returns (root: nat)
    requires IsForest(t, b, c) && m in t.nodes && Covers(t, b, c, m, x)
    ensures root in OpenIn(t, t.nodes[m].scope) && Covers(t, b, c, root, x)
    decreases FromLevel(t, t.nodes[m].scope, t.nodes[m].level)
  {
    if t.nodes[m].sealedAt.None? {
      root := m;
    } else {
      var p :| Parent(t, p, m);
      ChildrenAreListed(t, b, c, p);
      CoveredByMember(t, b, c, t.nodes[p].children.nodes, t.nodes[p].level, x);
      var s, l := t.nodes[m].scope, t.nodes[m].level;
      assert m in FromLevel(t, s, l) && m !in FromLevel(t, s, l + 1);
      assert FromLevel(t, s, l + 1) <= FromLevel(t, s, l);
      root := SomeOpenCover(t, b, c, p, x);
    }
  }

  /** Only sealed chunks of the node's own scope are ever listed. */
  lemma {:induction false} LeavesAreSealed(t: Tables, b: nat, c: nat, m: nat, x: nat)
    requires IsForest(t, b, c) && m in t.nodes && Covers(t, b, c, m, x)
    ensures x in InStage(t, t.nodes[m].scope, Sealed)
    decreases t.nodes[m].level
  {
    assert ShapedNode(t, m, b, c);
    if t.nodes[m].level == 1 {
      assert x in Elements(t.nodes[m].children.chunks);
    } else {
      var k := ChildCovering(t, b, c, m, x);
      LeavesAreSealed(t, b, c, k, x);
    }
  }

  /** If at most one listed node covers `x`, the list mentions `x` at most once. */
  lemma {:induction false} ListedOnce(t: Tables, b: nat, c: nat, ks: seq<nat>, bound: nat, x: nat)
    requires IsForest(t, b, c) && Listed(t, ks, bound) && Distinct(ks)
    requires forall k1, k2 | k1 in ks && k2 in ks && Covers(t, b, c, k1, x) && Covers(t, b, c, k2, x) :: k1 == k2
    ensures LeavesOf(t, b, c, ks, bound)[x] <= 1
    decreases bound, 0, |ks|
  {
    if ks != [] {
      assert forall k | k in ks[1..] :: k in ks && k != ks[0];
      ListedOnce(t, b, c, ks[1..], bound, x);
      CoversOnce(t, b, c, ks[0], x);
      CoveredByMember(t, b, c, ks[1..], bound, x);
      if Covers(t, b, c, ks[0], x) {
        forall k | k in ks[1..] ensures !Covers(t, b, c, k, x) {}
      }
    }
  }

  lemma {:induction false} CoversOnce(t: Tables, b: nat, c: nat, m: nat, x: nat)
    requires IsForest(t, b, c) && m in t.nodes
    ensures Leaves(t, b, c, m)[x] <= 1
    decreases t.nodes[m].level, 1, 0
  {
    assert ShapedNode(t, m, b, c);
    match t.nodes[m].children
    case ChunkIds(xs) => DistinctMultiplicity(xs, x);
    case NodeIds(ks) =>
      ChildrenAreListed(t, b, c, m);
      forall k1, k2 | k1 in ks && k2 in ks && Covers(t, b, c, k1, x) && Covers(t, b, c, k2, x) ensures k1 == k2 {
        OneCoverPerLevel(t, b, c, k1, k2, x);
      }
      ListedOnce(t, b, c, ks, t.nodes[m].level, x);
  }

  lemma {:induction false} DistinctMultiplicity(xs: seq<nat>, x: nat)
    requires Distinct(xs)
    ensures multiset(xs)[x] == if x in xs then 1 else 0
  {
    if xs != [] {
      assert xs == [xs[0]] + xs[1..];
      DistinctMultiplicity(xs[1..], x);
    }
  }

  /** Expanding the open nodes of a tree, in any order, lists every sealed chunk of the tree
      exactly once and nothing else. */
  lemma OpenNodesPartitionSealedChunks(t: Tables, b: nat, c: nat, s: Scope, order: seq<nat>, bound: nat)
    requires IsForest(t, b, c) && Distinct(order) && Elements(order) == OpenIn(t, s) && Listed(t, order, bound)
    ensures LeavesOf(t, b, c, order, bound) == multiset(InStage(t, s, Sealed))
  {
    assert forall k :: k in order <==> k in Elements(order);
    forall x: nat ensures LeavesOf(t, b, c, order, bound)[x] == multiset(InStage(t, s, Sealed))[x] {
      CoveredByMember(t, b, c, order, bound, x);
      OpenCoverIsUnique(t, b, c, order, x);
      ListedOnce(t, b, c, order, bound, x);
      if x in InStage(t, s, Sealed) {
        var m :| Holds(t, m, x);
        assert ShapedNode(t, m, b, c);
        assert x in Elements(t.nodes[m].children.chunks);
        var root := SomeOpenCover(t, b, c, m, x);
        assert root in order;
      } else if k :| k in order && Covers(t, b, c, k, x) {
        LeavesAreSealed(t, b, c, k, x);
      }
    }
  }

  lemma OpenCoverIsUnique(t: Tables, b: nat, c: nat, order: seq<nat>, x: nat)
    requires IsForest(t, b, c) && forall k | k in order :: k in t.nodes && t.nodes[k].sealedAt.None?
    ensures forall k1, k2 | k1 in order && k2 in order && Covers(t, b, c, k1, x) && Covers(t, b, c, k2, x) :: k1 == k2
  {
    forall k1, k2 | k1 in order && k2 in order && Covers(t, b, c, k1, x) && Covers(t, b, c, k2, x) ensures k1 == k2 {
      if t.nodes[k1].level < t.nodes[k2].level {
        LowerCoverIsConsumed(t, b, c, k1, k2, x);
      } else if t.nodes[k2].level < t.nodes[k1].level {
        LowerCoverIsConsumed(t, b, c, k2, k1, x);
      } else {
        OneCoverPerLevel(t, b, c, k1, k2, x);
      }
    }
  }

  // ------------------------------------------------------------------ how much a node covers

  /** Every level-1 node under `m` was sealed from a full buffer. */
  ghost predicate Full(t: Tables, b: nat, c: nat, m: nat)
    requires Shaped(t, b, c) && m in t.nodes
    decreases t.nodes[m].level
  {
    assert ShapedNode(t, m, b, c);
    match t.nodes[m].children
    case ChunkIds(xs) => |xs| == b
    case NodeIds(ks) =>
      assert forall k | k in ks :: k in Elements(ks);
      forall k | k in ks :: Full(t, b, c, k)
  }

  /** A level-L node covers at most b * c^(L-1) chunks, and exactly that many exactly when
      every seal under it took a full buffer. */
  lemma {:induction false} CoverageOfNode(t: Tables, b: nat, c: nat, m: nat)
    requires Shaped(t, b, c) && m in t.nodes && t.nodes[m].level >= 1
    ensures |Leaves(t, b, c, m)| <= b * Power(c, t.nodes[m].level - 1)
    ensures |Leaves(t, b, c, m)| == b * Power(c, t.nodes[m].level - 1) <==> Full(t, b, c, m)
    decreases t.nodes[m].level
  {
    assert ShapedNode(t, m, b, c);
    match t.nodes[m].children
    case ChunkIds(xs) =>
    case NodeIds(ks) =>
      ChildrenAreListed(t, b, c, m);
      var level := t.nodes[m].level;
      forall k | k in ks {
        CoverageOfNode(t, b, c, k);
      }
      CoverageOfList(t, b, c, ks, level, b * Power(c, level - 2));
      Associate(c, b, Power(c, level - 2));
  }

  lemma OneMore(k: nat, w: nat)
    ensures (k + 1) * w == k * w + w
  {
  }

  lemma Associate(x: int, y: int, z: int)
    ensures x * (y * z) == y * (x * z)
  {
  }

  lemma {:induction false} CoverageOfList(t: Tables, b: nat, c: nat, ks: seq<nat>, bound: nat, w: nat)
    requires Shaped(t, b, c) && Listed(t, ks, bound)
    requires forall k | k in ks :: |Leaves(t, b, c, k)| <= w && (|Leaves(t, b, c, k)| == w <==> Full(t, b, c, k))
    ensures |LeavesOf(t, b, c, ks, bound)| <= |ks| * w
    ensures |LeavesOf(t, b, c, ks, bound)| == |ks| * w <==> forall k | k in ks :: Full(t, b, c, k)
  {
    if ks != [] {
      var first, rest := |Leaves(t, b, c, ks[0])|, |LeavesOf(t, b, c, ks[1..], bound)|;
      assert ks == [ks[0]] + ks[1..];
      CoverageOfList(t, b, c, ks[1..], bound, w);
      assert |LeavesOf(t, b, c, ks, bound)| == first + rest;
      OneMore(|ks[1..]|, w);
    }
  }
}
