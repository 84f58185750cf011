/** The rows behind the source summary trees, the two commits that change them,
    and what every run of such commits keeps. */
module Forest {
  import opened Options
  import opened Rows
  import opened Lifecycle

  /** One tree is kept per (tenant, source). */
  datatype Scope = Scope(tenant: string, source: string)

  datatype Chunk = Chunk(scope: Scope, createdAt: int, stage: Stage)

  datatype Children = ChunkIds(chunks: seq<nat>) | NodeIds(nodes: seq<nat>)

  /** A summary row of tree type "source"; it is open while `sealedAt` is null. */
  datatype Node = Node(scope: Scope, level: nat, children: Children, sealedAt: Option<int>)

  datatype Tables = Tables(chunks: map<nat, Chunk>, nodes: map<nat, Node>)

  // ---------------------------------------------------------------- queries

  function InStage(t: Tables, s: Scope, stage: Stage): set<nat> {
    set x | x in t.chunks && t.chunks[x].scope == s && t.chunks[x].stage == stage
  }

  function AtLevel(t: Tables, s: Scope, level: nat): set<nat> {
    set m | m in t.nodes && t.nodes[m].scope == s && t.nodes[m].level == level
  }

  function OpenAt(t: Tables, s: Scope, level: nat): set<nat> {
    set m | m in t.nodes && t.nodes[m].scope == s && t.nodes[m].level == level && t.nodes[m].sealedAt.None?
  }

  function OpenIn(t: Tables, s: Scope): set<nat> {
    set m | m in t.nodes && t.nodes[m].scope == s && t.nodes[m].sealedAt.None?
  }

  /** The nodes made by folding other nodes. */
  function FoldedIn(t: Tables, s: Scope): set<nat> {
    set m | m in t.nodes && t.nodes[m].scope == s && t.nodes[m].level >= 2
  }

  // ---------------------------------------------------------------- commits

  function Restage(chunks: map<nat, Chunk>, sel: seq<nat>, stage: Stage): map<nat, Chunk> {
    map x | x in chunks :: if x in sel then chunks[x].(stage := stage) else chunks[x]
  }

  function Consume(nodes: map<nat, Node>, sel: seq<nat>, now: int): map<nat, Node> {
    map m | m in nodes :: if m in sel then nodes[m].(sealedAt := Some(now)) else nodes[m]
  }

  /** The commit of `seal`: one new level-1 node over the selected chunks. */
  function SealCommit(t: Tables, s: Scope, sel: seq<nat>, id: nat): Tables {
    Tables(Restage(t.chunks, sel, Sealed), t.nodes[id := Node(s, 1, ChunkIds(sel), None)])
  }

  ghost predicate CanSeal(t: Tables, s: Scope, sel: seq<nat>, id: nat, b: nat) {
    sel != [] && |sel| <= b && Distinct(sel) && Elements(sel) <= InStage(t, s, Buffered) && id !in t.nodes
  }

  /** The commit of one `_cascade` pass: one new node over `c` open nodes of the level below. */
  function FoldCommit(t: Tables, s: Scope, level: nat, sel: seq<nat>, id: nat, now: int): Tables {
    Tables(t.chunks, Consume(t.nodes, sel, now)[id := Node(s, level + 1, NodeIds(sel), None)])
  }

  ghost predicate CanFold(t: Tables, s: Scope, level: nat, sel: seq<nat>, id: nat, c: nat) {
    level >= 1 && |sel| == c && Distinct(sel) && Elements(sel) <= OpenAt(t, s, level) && id !in t.nodes
  }

  // ------------------------------------------------------------- invariants

  ghost predicate Holds(t: Tables, m: nat, x: nat) {
    m in t.nodes && t.nodes[m].children.ChunkIds? && x in t.nodes[m].children.chunks
  }

  ghost predicate Parent(t: Tables, m: nat, k: nat) {
    m in t.nodes && t.nodes[m].children.NodeIds? && k in t.nodes[m].children.nodes
  }

  /** A level-1 node covers 1 to `b` sealed chunks of its scope; a higher one covers exactly `c`
      consumed nodes of the level below, in the same scope. */
  ghost predicate ShapedNode(t: Tables, m: nat, b: nat, c: nat)
    requires m in t.nodes
  {
    var n := t.nodes[m];
    match n.children
    case ChunkIds(xs) =>
      n.level == 1 && 1 <= |xs| <= b && Distinct(xs) && Elements(xs) <= InStage(t, n.scope, Sealed)
    case NodeIds(ks) =>
      n.level >= 2 && |ks| == c && Distinct(ks)
      && Elements(ks) <= AtLevel(t, n.scope, n.level - 1) - OpenAt(t, n.scope, n.level - 1)
  }

  ghost predicate Shaped(t: Tables, b: nat, c: nat) {
    forall m | m in t.nodes :: ShapedNode(t, m, b, c)
  }

  /** Shape, plus: a sealed chunk and a consumed node each have exactly one parent.
      (An open node has none: children are consumed.) */
  ghost predicate IsForest(t: Tables, b: nat, c: nat) {
    && Shaped(t, b, c)
    && (forall x | x in t.chunks && t.chunks[x].stage.Sealed? :: exists m :: Holds(t, m, x))
    && (forall m1, m2, x | Holds(t, m1, x) && Holds(t, m2, x) :: m1 == m2)
    && (forall k | k in t.nodes && t.nodes[k].sealedAt.Some? :: exists m :: Parent(t, m, k))
    && (forall m1, m2, k | Parent(t, m1, k) && Parent(t, m2, k) :: m1 == m2)
  }

  /** Conservation: every node of a level is open or one of the `c` children of a node above it. */
  ghost predicate Tallied(t: Tables, c: nat) {
    && (forall s, level | level >= 1 ::
          |AtLevel(t, s, level)| == |OpenAt(t, s, level)| + c * |AtLevel(t, s, level + 1)|)
    && (forall s :: |AtLevel(t, s, 1)| == |OpenIn(t, s)| + (c - 1) * |FoldedIn(t, s)|)
  }

  ghost predicate Sound(t: Tables, b: nat, c: nat) {
    IsForest(t, b, c) && Tallied(t, c)
  }

  // ------------------------------------------------------------- steps keep them

  lemma EmptyIsSound(b: nat, c: nat)
    ensures Sound(Tables(map[], map[]), b, c)
  {
    var t := Tables(map[], map[]);
    forall s, level: nat ensures AtLevel(t, s, level) == {} && OpenAt(t, s, level) == {} {}
    forall s ensures OpenIn(t, s) == {} && FoldedIn(t, s) == {} {}
  }

  lemma SealKeepsShape(t: Tables, s: Scope, sel: seq<nat>, id: nat, b: nat, c: nat)
    requires Shaped(t, b, c) && CanSeal(t, s, sel, id, b)
    ensures Shaped(SealCommit(t, s, sel, id), b, c)
  {
    var u := SealCommit(t, s, sel, id);
    forall m | m in u.nodes ensures ShapedNode(u, m, b, c) {
      if m != id {
        assert ShapedNode(t, m, b, c);
      }
    }
  }

  lemma SealKeepsForest(t: Tables, s: Scope, sel: seq<nat>, id: nat, b: nat, c: nat)
    requires IsForest(t, b, c) && CanSeal(t, s, sel, id, b)
    ensures IsForest(SealCommit(t, s, sel, id), b, c)
  {
    var u := SealCommit(t, s, sel, id);
    SealKeepsShape(t, s, sel, id, b, c);
    forall x | x in u.chunks && u.chunks[x].stage.Sealed? ensures exists m :: Holds(u, m, x) {
      if x in sel {
        assert Holds(u, id, x);
      } else {
        var m :| Holds(t, m, x);
        assert Holds(u, m, x);
      }
    }
    forall m, x | m in t.nodes && Holds(u, m, x) ensures Holds(t, m, x) && x !in sel {
      assert Holds(t, m, x) && ShapedNode(t, m, b, c);
      assert x in InStage(t, t.nodes[m].scope, Sealed);
      assert x in sel ==> x in InStage(t, s, Buffered);
    }
    forall m1, m2, x | Holds(u, m1, x) && Holds(u, m2, x) ensures m1 == m2 {}
    forall k | k in u.nodes && u.nodes[k].sealedAt.Some? ensures exists m :: Parent(u, m, k) {
      var m :| Parent(t, m, k);
      assert Parent(u, m, k);
    }
    forall m1, m2, k | Parent(u, m1, k) && Parent(u, m2, k) ensures m1 == m2 {
      assert Parent(t, m1, k) && Parent(t, m2, k);
    }
  }

  lemma FoldKeepsShape(t: Tables, s: Scope, level: nat, sel: seq<nat>, id: nat, now: int, b: nat, c: nat)
    requires Shaped(t, b, c) && CanFold(t, s, level, sel, id, c)
    ensures Shaped(FoldCommit(t, s, level, sel, id, now), b, c)
  {
    var u := FoldCommit(t, s, level, sel, id, now);
    assert forall k | k in sel :: k in OpenAt(t, s, level);
    forall m | m in u.nodes ensures ShapedNode(u, m, b, c) {
      if m != id {
        assert ShapedNode(t, m, b, c);
        if t.nodes[m].children.NodeIds? {
          forall k | k in t.nodes[m].children.nodes
            ensures k in AtLevel(u, u.nodes[m].scope, u.nodes[m].level - 1) && u.nodes[k].sealedAt.Some?
          {
            assert k in Elements(t.nodes[m].children.nodes);
          }
        }
      }
    }
  }

  lemma FoldKeepsForest(t: Tables, s: Scope, level: nat, sel: seq<nat>, id: nat, now: int, b: nat, c: nat)
    requires IsForest(t, b, c) && CanFold(t, s, level, sel, id, c)
    ensures IsForest(FoldCommit(t, s, level, sel, id, now), b, c)
  {
    var u := FoldCommit(t, s, level, sel, id, now);
    FoldKeepsShape(t, s, level, sel, id, now, b, c);
    FoldKeepsChunkParents(t, u, id, sel);
    assert forall k | k in sel :: k in OpenAt(t, s, level);
    forall k | k in u.nodes && u.nodes[k].sealedAt.Some? ensures exists m :: Parent(u, m, k) {
      if k in sel {
        assert Parent(u, id, k);
      } else {
        var m :| Parent(t, m, k);
        assert Parent(u, m, k);
      }
    }
    forall m, k | m in t.nodes && Parent(u, m, k) ensures Parent(t, m, k) && k !in sel {
      assert Parent(t, m, k) && ShapedNode(t, m, b, c);
      assert k in Elements(t.nodes[m].children.nodes);
    }
    forall m1, m2, k | Parent(u, m1, k) && Parent(u, m2, k) ensures m1 == m2 {}
  }

  lemma FoldKeepsChunkParents(t: Tables, u: Tables, id: nat, sel: seq<nat>)
    requires id !in t.nodes && u.chunks == t.chunks
    requires u.nodes.Keys == t.nodes.Keys + {id} && u.nodes[id].children == NodeIds(sel)
    requires forall m | m in t.nodes :: u.nodes[m].children == t.nodes[m].children
    ensures forall m, x :: Holds(u, m, x) <==> Holds(t, m, x)
  {
  }

  /** How a seal moves the counts: one more open node at level 1 of its scope, nothing else. */
  lemma SealCounts(t: Tables, s: Scope, sel: seq<nat>, id: nat, r: Scope, l: nat)
    requires id !in t.nodes
    ensures var u := SealCommit(t, s, sel, id);
      && |AtLevel(u, r, l)| == |AtLevel(t, r, l)| + (if r == s && l == 1 then 1 else 0)
      && |OpenAt(u, r, l)| == |OpenAt(t, r, l)| + (if r == s && l == 1 then 1 else 0)
      && |OpenIn(u, r)| == |OpenIn(t, r)| + (if r == s then 1 else 0)
      && FoldedIn(u, r) == FoldedIn(t, r)
  {
    SealMoves(t, s, sel, id, r, l);
  }

  lemma SealMoves(t: Tables, s: Scope, sel: seq<nat>, id: nat, r: Scope, l: nat)
    requires id !in t.nodes
    ensures var u := SealCommit(t, s, sel, id);
      && AtLevel(u, r, l) == (if r == s && l == 1 then AtLevel(t, r, l) + {id} else AtLevel(t, r, l))
      && OpenAt(u, r, l) == (if r == s && l == 1 then OpenAt(t, r, l) + {id} else OpenAt(t, r, l))
      && OpenIn(u, r) == (if r == s then OpenIn(t, r) + {id} else OpenIn(t, r))
      && FoldedIn(u, r) == FoldedIn(t, r)
  {
  }

  /** How a fold moves the counts: `c` nodes close at its level, one opens a level up. */
  lemma FoldCounts(t: Tables, s: Scope, level: nat, sel: seq<nat>, id: nat, now: int, c: nat, r: Scope, l: nat)
    requires CanFold(t, s, level, sel, id, c)
    ensures var u := FoldCommit(t, s, level, sel, id, now);
      && |AtLevel(u, r, l)| == |AtLevel(t, r, l)| + (if r == s && l == level + 1 then 1 else 0)
      && |OpenAt(u, r, l)| == |OpenAt(t, r, l)| + (if r == s && l == level + 1 then 1 else 0)
                                                - (if r == s && l == level then c else 0)
      && |OpenIn(u, r)| == |OpenIn(t, r)| + (if r == s then 1 - c else 0)
      && |FoldedIn(u, r)| == |FoldedIn(t, r)| + (if r == s then 1 else 0)
  {
    var u := FoldCommit(t, s, level, sel, id, now);
    DistinctSize(sel);
    FoldMovesOpen(t, s, level, sel, id, now, r, l);
    FoldMovesAll(t, s, level, sel, id, now, r, l);
    assert id !in AtLevel(t, r, l) && id !in OpenAt(t, r, l) && id !in OpenIn(t, r) && id !in FoldedIn(t, r);
    assert Elements(sel) <= OpenIn(t, s);
    hide FoldCommit, AtLevel, OpenAt, OpenIn, FoldedIn, Elements;
    if r == s {
      assert |OpenIn(t, s) - Elements(sel)| == |OpenIn(t, s)| - c;
    }
  }

  lemma FoldMovesOpen(t: Tables, s: Scope, level: nat, sel: seq<nat>, id: nat, now: int, r: Scope, l: nat)
    requires id !in t.nodes && Elements(sel) <= OpenAt(t, s, level)
    ensures var u := FoldCommit(t, s, level, sel, id, now);
      && OpenAt(u, r, l) == (if r == s && l == level then OpenAt(t, r, l) - Elements(sel)
                             else if r == s && l == level + 1 then OpenAt(t, r, l) + {id} else OpenAt(t, r, l))
      && OpenIn(u, r) == (if r == s then OpenIn(t, r) - Elements(sel) + {id} else OpenIn(t, r))
  {
    assert forall k | k in sel :: k in Elements(sel) && k in OpenAt(t, s, level);
  }

  lemma FoldMovesAll(t: Tables, s: Scope, level: nat, sel: seq<nat>, id: nat, now: int, r: Scope, l: nat)
    requires id !in t.nodes && level >= 1
    ensures var u := FoldCommit(t, s, level, sel, id, now);
      && AtLevel(u, r, l) == AtLevel(t, r, l) + (if r == s && l == level + 1 then {id} else {})
      && FoldedIn(u, r) == FoldedIn(t, r) + (if r == s then {id} else {})
  {
  }

  lemma SealKeepsSound(t: Tables, s: Scope, sel: seq<nat>, id: nat, b: nat, c: nat)
    requires Sound(t, b, c) && CanSeal(t, s, sel, id, b)
    ensures Sound(SealCommit(t, s, sel, id), b, c)
  {
    SealKeepsForest(t, s, sel, id, b, c);
    SealKeepsTally(t, s, sel, id, c);
  }

  lemma SealKeepsTally(t: Tables, s: Scope, sel: seq<nat>, id: nat, c: nat)
    requires Tallied(t, c) && id !in t.nodes
    ensures Tallied(SealCommit(t, s, sel, id), c)
  {
    var u := SealCommit(t, s, sel, id);
    forall r, l: nat | l >= 1
      ensures |AtLevel(u, r, l)| == |OpenAt(u, r, l)| + c * |AtLevel(u, r, l + 1)|
    {
      SealCounts(t, s, sel, id, r, l);
      SealCounts(t, s, sel, id, r, l + 1);
    }
    forall r ensures |AtLevel(u, r, 1)| == |OpenIn(u, r)| + (c - 1) * |FoldedIn(u, r)| {
      SealCounts(t, s, sel, id, r, 1);
    }
  }

  lemma FoldKeepsSound(t: Tables, s: Scope, level: nat, sel: seq<nat>, id: nat, now: int, b: nat, c: nat)
    requires Sound(t, b, c) && CanFold(t, s, level, sel, id, c)
    ensures Sound(FoldCommit(t, s, level, sel, id, now), b, c)
  {
    FoldKeepsForest(t, s, level, sel, id, now, b, c);
    FoldKeepsTally(t, s, level, sel, id, now, c);
  }

  lemma FoldKeepsTally(t: Tables, s: Scope, level: nat, sel: seq<nat>, id: nat, now: int, c: nat)
    requires Tallied(t, c) && CanFold(t, s, level, sel, id, c)
    ensures Tallied(FoldCommit(t, s, level, sel, id, now), c)
  {
    var u := FoldCommit(t, s, level, sel, id, now);
    forall r, l: nat | l >= 1
      ensures |AtLevel(u, r, l)| == |OpenAt(u, r, l)| + c * |AtLevel(u, r, l + 1)|
    {
      FoldCounts(t, s, level, sel, id, now, c, r, l);
      FoldCounts(t, s, level, sel, id, now, c, r, l + 1);
      assert c * (|AtLevel(t, r, l + 1)| + 1) == c * |AtLevel(t, r, l + 1)| + c;
    }
    forall r ensures |AtLevel(u, r, 1)| == |OpenIn(u, r)| + (c - 1) * |FoldedIn(u, r)| {
      FoldCounts(t, s, level, sel, id, now, c, r, 1);
      assert (c - 1) * (|FoldedIn(t, r)| + 1) == (c - 1) * |FoldedIn(t, r)| + (c - 1);
    }
  }

  // ------------------------------------------------------------------- runs

  /** A change of chunk rows that neither seals nor unseals: ingest, extraction, appending. */
  ghost predicate OnlyUnsealedChange(t: Tables, u: Tables) {
    && u.nodes == t.nodes
    && (forall x | x in t.chunks && t.chunks[x].stage.Sealed? :: x in u.chunks && u.chunks[x] == t.chunks[x])
    && (forall x | x in u.chunks && u.chunks[x].stage.Sealed? :: x in t.chunks && u.chunks[x] == t.chunks[x])
  }

  /** One commit. A crash loses nothing committed, so a run may stop, or go on elsewhere, after
      any of them: between a seal and its folds, or between two folds. The chunks a seal selected
      may have been read before other chunks were appended. */
  ghost predicate Step(t: Tables, u: Tables, b: nat, c: nat) {
    || OnlyUnsealedChange(t, u)
    || (exists s, sel, id :: CanSeal(t, s, sel, id, b) && u == SealCommit(t, s, sel, id))
    || (exists s, level, sel, id, now ::
          CanFold(t, s, level, sel, id, c) && u == FoldCommit(t, s, level, sel, id, now))
  }

  lemma StepKeepsSound(t: Tables, u: Tables, b: nat, c: nat)
    requires Sound(t, b, c) && Step(t, u, b, c)
    ensures Sound(u, b, c)
  {
    if OnlyUnsealedChange(t, u) {
      UnsealedChangeKeepsSound(t, u, b, c);
    } else if s, sel, id :| CanSeal(t, s, sel, id, b) && u == SealCommit(t, s, sel, id) {
      SealKeepsSound(t, s, sel, id, b, c);
    } else {
      var s, level, sel, id, now :| CanFold(t, s, level, sel, id, c) && u == FoldCommit(t, s, level, sel, id, now);
      FoldKeepsSound(t, s, level, sel, id, now, b, c);
    }
  }

  lemma UnsealedChangeKeepsSound(t: Tables, u: Tables, b: nat, c: nat)
    requires Sound(t, b, c) && OnlyUnsealedChange(t, u)
    ensures Sound(u, b, c)
  {
    forall s ensures InStage(u, s, Sealed) == InStage(t, s, Sealed) {}
    forall m | m in u.nodes ensures ShapedNode(u, m, b, c) {
      assert ShapedNode(t, m, b, c);
    }
    assert forall m, x :: Holds(u, m, x) <==> Holds(t, m, x);
    assert forall m, k :: Parent(u, m, k) <==> Parent(t, m, k);
    forall s, l: nat
      ensures AtLevel(u, s, l) == AtLevel(t, s, l) && OpenAt(u, s, l) == OpenAt(t, s, l)
    {}
    forall s ensures OpenIn(u, s) == OpenIn(t, s) && FoldedIn(u, s) == FoldedIn(t, s) {}
  }

  /** Every state of every run from empty tables is a forest with conserved counts. */
  lemma {:induction false} EveryRunIsSound(run: seq<Tables>, b: nat, c: nat)
    requires run != [] && run[0] == Tables(map[], map[])
    requires forall i | 0 <= i < |run| - 1 :: Step(run[i], run[i + 1], b, c)
    ensures forall i | 0 <= i < |run| :: Sound(run[i], b, c)
  {
    var last := |run| - 1;
    if last == 0 {
      EmptyIsSound(b, c);
    } else {
      EveryRunIsSound(run[..last], b, c);
      assert Step(run[last - 1], run[last], b, c);
      assert Sound(run[..last][last - 1], b, c);
      StepKeepsSound(run[last - 1], run[last], b, c);
    }
  }
}
