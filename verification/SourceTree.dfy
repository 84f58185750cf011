/** The summary-tree handlers themselves. Every commit may be the last thing a call does: the
    summarizer may raise and the process may die, after which the rows stay as committed. */
module SourceTree {
  import opened Options
  import opened Rows
  import opened Lifecycle
  import opened Forest
  import opened TreeTheorems
  import opened Digits

  datatype Outcome =
    | Skipped                  // the chunk was missing or not admitted
    | Waiting                  // buffered; the buffer is not full (or, for a flush, not stale)
    | NothingBuffered
    | SealedAs(id: nat)        // sealed, and the cascade ran to its end
    | Interrupted              // an error or a crash cut the call short

  /** Rows never disappear, never change scope, level or children, and stay consumed. */
  ghost predicate Grows(before: map<nat, Node>, after: map<nat, Node>) {
    forall m | m in before ::
      && m in after
      && after[m] == before[m].(sealedAt := after[m].sealedAt)
      && (before[m].sealedAt.Some? ==> after[m] == before[m])
  }

  /** Nodes are consumed at `now`, and new ones are open until they are. */
  ghost predicate Stamped(before: map<nat, Node>, after: map<nat, Node>, now: int) {
    forall m | m in after && after[m].sealedAt != Some(now) ::
      if m in before then after[m].sealedAt == before[m].sealedAt else after[m].sealedAt.None?
  }

  /** Nothing outside scope `s` changed. */
  ghost predicate SameElsewhere(t: Tables, u: Tables, s: Scope) {
    && (forall m | m in t.nodes && t.nodes[m].scope != s :: m in u.nodes && u.nodes[m] == t.nodes[m])
    && (forall m | m in u.nodes && u.nodes[m].scope != s :: m in t.nodes && t.nodes[m] == u.nodes[m])
    && (forall x | x in t.chunks && t.chunks[x].scope != s :: x in u.chunks && u.chunks[x] == t.chunks[x])
    && (forall x | x in u.chunks && u.chunks[x].scope != s :: x in t.chunks && t.chunks[x] == u.chunks[x])
    && u.chunks.Keys == t.chunks.Keys
  }

  /** At most one fold is pending, at `level`. */
  ghost predicate SettledExcept(t: Tables, s: Scope, level: nat, c: nat) {
    && (forall l: nat | l >= 1 && l != level :: |OpenAt(t, s, l)| < c)
    && |OpenAt(t, s, level)| <= c
  }

  /** Folds from level `from` up to, and not at, level `to`: each takes `c` nodes and carries one. */
  ghost predicate Carried(t: Tables, u: Tables, s: Scope, from: nat, to: nat, c: nat) {
    && 1 <= from <= to
    && forall l: nat ::
         |OpenAt(u, s, l)| - |OpenAt(t, s, l)| == (if from < l <= to then 1 else 0) - (if from <= l < to then c else 0)
  }

  /** A seal and its folds, up to level `to`. */
  ghost predicate Rippled(t: Tables, u: Tables, s: Scope, to: nat, c: nat) {
    && 1 <= to
    && forall l: nat ::
         |OpenAt(u, s, l)| - |OpenAt(t, s, l)| == (if 1 <= l <= to then 1 else 0) - (if 1 <= l < to then c else 0)
  }

  /** A seal whose cascade ran to its end. */
  ghost predicate Counted(t: Tables, u: Tables, s: Scope, c: nat) {
    exists to: nat :: Rippled(t, u, s, to, c) && |OpenAt(u, s, to)| < c
  }

  /** `u` is `t` after sealing the oldest buffered chunks of `s` into node `id`. */
  ghost predicate SealedOldest(t: Tables, u: Tables, s: Scope, id: nat, b: nat) {
    && id !in t.nodes && id in u.nodes
    && u.nodes[id].scope == s && u.nodes[id].level == 1 && u.nodes[id].children.ChunkIds?
    && var sel := u.nodes[id].children.chunks;
    && FirstBy(sel, InStage(t, s, Buffered), Ages(t.chunks), b)
    && u.chunks == Restage(t.chunks, sel, Sealed)
    && AtLevel(u, s, 1) == AtLevel(t, s, 1) + {id}
  }

  /** The state with chunk `x` moved to the buffer. */
  function AppendCommit(t: Tables, x: nat): Tables {
    Tables(Restage(t.chunks, [x], Buffered), t.nodes)
  }

  /** What `append_buffer` of the admitted chunk `x` does, by outcome. */
  ghost predicate Appended(t: Tables, u: Tables, x: nat, o: Outcome, b: nat, c: nat)
    requires x in t.chunks
  {
    var s, mid := t.chunks[x].scope, AppendCommit(t, x);
    var buffered, after := |InStage(t, s, Buffered)|, |InStage(u, s, Buffered)|;
    && SameElsewhere(t, u, s)
    && (o.Waiting? ==> u == mid && after == buffered + 1 < b)
    && (o.SealedAs? ==> SealedOldest(mid, u, s, o.id, b))
    && (o.NothingBuffered? ==> u == mid && b == 0)
    && (o.Interrupted? ==> u == mid || exists id :: SealedOldest(mid, u, s, id, b))
    // the open nodes: one more, and the folds of a whole cascade, or those of some first passes
    && (o.SealedAs? ==> Counted(t, u, s, c))
    && (o.Interrupted? ==> u == mid || exists to: nat :: Rippled(t, u, s, to, c))
    // a call that is not cut short leaves the counter settled and the buffer short of full
    && (!o.Interrupted? && Settled(t, s, c) ==> Settled(u, s, c))
    && (!o.Interrupted? && buffered < b ==> after < b)
    // and from a buffer short of full, it seals full nodes only
    && (o.SealedAs? && buffered < b ==> |u.nodes[o.id].children.chunks| == b)
  }

  /** What `flush_stale` of scope `s` does, by outcome. */
  ghost predicate Flushed(t: Tables, u: Tables, s: Scope, o: Outcome, b: nat, c: nat) {
    && SameElsewhere(t, u, s) && !o.Skipped?
    && (o.Waiting? || o.NothingBuffered? ==> u == t)
    && (o.NothingBuffered? ==> b == 0)
    && (o.SealedAs? ==> SealedOldest(t, u, s, o.id, b) && Counted(t, u, s, c))
    && (o.Interrupted? ==> u == t || exists to: nat :: Rippled(t, u, s, to, c))
    && (!o.Interrupted? && Settled(t, s, c) ==> Settled(u, s, c))
    && (!o.Interrupted? ==> |InStage(u, s, Buffered)| <= |InStage(t, s, Buffered)|)
  }

  function Ages(chunks: map<nat, Chunk>): map<nat, int> {
    map x | x in chunks :: chunks[x].createdAt
  }

  class SourceTree {
    const bufferSize: nat
    const cascadeSize: nat
    var chunks: map<nat, Chunk>
    var nodes: map<nat, Node>

    ghost function Db(): Tables
      reads this
    {
      Tables(chunks, nodes)
    }

    ghost predicate Valid()
      reads this
    {
      cascadeSize >= 2 && Sound(Db(), bufferSize, cascadeSize)
    }

    constructor (bufferSize: nat, cascadeSize: nat)
      requires cascadeSize >= 2
      ensures Valid() && Db() == Tables(map[], map[])
      ensures this.bufferSize == bufferSize && this.cascadeSize == cascadeSize
    {
      this.bufferSize, this.cascadeSize := bufferSize, cascadeSize;
      chunks, nodes := map[], map[];
      EmptyIsSound(bufferSize, cascadeSize);
    }

    /** The model call behind a summary: its prose is not modelled, but it may raise. */
    method Summarize() returns (ok: bool) {
      ok := *;
    }

    method AppendBuffer(chunkId: nat, now: int) returns (o: Outcome)
      requires Valid()
      modifies this`chunks, this`nodes
      ensures Valid()
      ensures Grows(old(nodes), nodes) && Stamped(old(nodes), nodes, now)
      ensures o.Skipped? <==> !(chunkId in old(chunks) && old(chunks)[chunkId].stage.Admitted?)
      ensures o.Skipped? ==> Db() == old(Db())
      ensures !o.Skipped? ==> Appended(old(Db()), Db(), chunkId, o, bufferSize, cascadeSize)
    {
      hide Sound, Folded, Grows, Stamped, SameElsewhere, SealedOldest, Settled, Counted, Rippled;
      if chunkId !in chunks || !chunks[chunkId].stage.Admitted? {
        NothingChanged(Db(), Scope("", ""), now);
        return Skipped;
      }
      var s := chunks[chunkId].scope;
      chunks := Restage(chunks, [chunkId], Buffered);
      ghost var mid := Db();
      AppendChangesLittle(old(Db()), chunkId, cascadeSize);
      NothingChanged(mid, s, now);
      UnsealedChangeKeepsSound(old(Db()), mid, bufferSize, cascadeSize);
      var crashed := *;
      if crashed {
        return Interrupted;
      }
      var count := BufferedCount(s);
      if count < bufferSize {
        return Waiting;
      }
      o := Seal(s, now);
      AppendedThenSealed(old(Db()), mid, Db(), s, cascadeSize);
      if o.SealedAs? {
        SealDrains(mid, Db(), s, o.id, bufferSize);
      }
    }

    method Seal(s: Scope, now: int) returns (o: Outcome)
      requires Valid()
      modifies this`chunks, this`nodes
      ensures Valid()
      ensures Grows(old(nodes), nodes) && Stamped(old(nodes), nodes, now) && SameElsewhere(old(Db()), Db(), s)
      ensures o.NothingBuffered? || o.SealedAs? || o.Interrupted?
      ensures o.NothingBuffered? <==> InStage(old(Db()), s, Buffered) == {} || bufferSize == 0
      ensures o.NothingBuffered? ==> Db() == old(Db())
      ensures o.SealedAs? ==> SealedOldest(old(Db()), Db(), s, o.id, bufferSize)
      ensures o.Interrupted? ==>
        Db() == old(Db()) || exists id :: SealedOldest(old(Db()), Db(), s, id, bufferSize)
      ensures o.SealedAs? && Settled(old(Db()), s, cascadeSize) ==> Settled(Db(), s, cascadeSize)
      ensures o.SealedAs? ==> Counted(old(Db()), Db(), s, cascadeSize)
      ensures o.Interrupted? ==> Db() == old(Db()) || exists to: nat :: Rippled(old(Db()), Db(), s, to, cascadeSize)
    {
      hide Sound, Folded, Grows, Stamped, SameElsewhere, SealedOldest, Carried, Rippled, Settled, SettledExcept;
      NothingChanged(Db(), s, now);
      var buffered := InStage(Tables(chunks, nodes), s, Buffered);
      var sel := SelectFirst(buffered, Ages(chunks), bufferSize);
      if sel == [] {
        return NothingBuffered;
      }
      var ok := Summarize();
      if !ok {
        return Interrupted;
      }
      FreshIdExists(nodes.Keys);
      var id: nat :| id !in nodes;
      chunks, nodes := Restage(chunks, sel, Sealed), nodes[id := Node(s, 1, ChunkIds(sel), None)];
      SealKeepsSound(old(Db()), s, sel, id, bufferSize, cascadeSize);
      SealPends(old(Db()), s, sel, id, cascadeSize);
      ghost var mid := Db();
      var complete, to := Cascade(s, 1, now);
      SealRipples(old(Db()), s, sel, id, Db(), to, cascadeSize);
      SealedThenFolded(old(Db()), mid, Db(), s, sel, id, bufferSize, now);
      return if complete then SealedAs(id) else Interrupted;
    }

    method FlushStale(s: Scope, maxAge: int, now: int) returns (o: Outcome)
      requires Valid()
      modifies this`chunks, this`nodes
      ensures Valid()
      ensures Grows(old(nodes), nodes) && Stamped(old(nodes), nodes, now)
      ensures o.Waiting? <==> forall x | x in InStage(old(Db()), s, Buffered) :: old(chunks)[x].createdAt > now - maxAge
      ensures Flushed(old(Db()), Db(), s, o, bufferSize, cascadeSize)
    {
      var buffered := InStage(Tables(chunks, nodes), s, Buffered);
      var oldest := SelectFirst(buffered, Ages(chunks), 1);
      assert oldest != [] ==> oldest[0] in Elements(oldest);
      if oldest == [] || chunks[oldest[0]].createdAt > now - maxAge {
        return Waiting;
      }
      o := Seal(s, now);
      if o.SealedAs? {
        SealDrains(old(Db()), Db(), s, o.id, bufferSize);
      }
    }

    method BufferedCount(s: Scope) returns (count: nat)
      ensures count == |InStage(Db(), s, Buffered)|
    {
      count := |InStage(Tables(chunks, nodes), s, Buffered)|;
    }

    /** `to` is the level it stops at. */
    method Cascade(s: Scope, from: nat, now: int) returns (complete: bool, ghost to: nat)
      requires Valid() && from >= 1
      modifies this`nodes
      ensures Valid()
      ensures Folded(old(Db()), Db(), s, from, now)
      ensures Carried(old(Db()), Db(), s, from, to, cascadeSize)
      ensures complete ==> |OpenAt(Db(), s, to)| < cascadeSize
      ensures TookFirst(old(Db()), Db(), s, cascadeSize)
      ensures complete && SettledExcept(old(Db()), s, from, cascadeSize) ==> Settled(Db(), s, cascadeSize)
    {
      hide Sound, Folded, Carried, TookFirst, FoundFrom;
      var level := from;
      TookNothing(Db(), s, from, cascadeSize);
      CarriedNothing(Db(), s, from, cascadeSize);
      FoldedNothing(Db(), s, from, now);
      while true
        invariant level >= from && Valid() && Folded(old(Db()), Db(), s, from, now)
        invariant SettledExcept(old(Db()), s, from, cascadeSize) ==> SettledExcept(Db(), s, level, cascadeSize)
        invariant Carried(old(Db()), Db(), s, from, level, cascadeSize)
        invariant TookFirst(old(Db()), Db(), s, cascadeSize) && FoundFrom(old(Db()), Db(), s, level)
        decreases |OpenIn(Db(), s)|
      {
        var open := OpenAt(Tables(chunks, nodes), s, level);
        var sel := SelectFirst(open, ById(open), cascadeSize);
        if |sel| < cascadeSize {
          return true, level;
        }
        var ok := Summarize();
        if !ok {
          return false, level;
        }
        FreshIdExists(nodes.Keys);
        var id: nat :| id !in nodes;
        ghost var before := Db();
        nodes := Consume(nodes, sel, now)[id := Node(s, level + 1, NodeIds(sel), None)];
        FoldKeepsSound(before, s, level, sel, id, now, bufferSize, cascadeSize);
        FoldCarries(before, s, level, sel, id, now, cascadeSize);
        FoldedOnce(old(Db()), before, s, from, level, sel, id, now);
        CarriedOnce(old(Db()), before, s, from, level, sel, id, now, cascadeSize);
        TookOnce(old(Db()), before, s, level, sel, id, now, cascadeSize);
        level := level + 1;
      }
    }
  }

  /** What any number of folds at or above level `from` of scope `s` may do. */
  ghost predicate Folded(t: Tables, u: Tables, s: Scope, from: nat, now: int) {
    && Grows(t.nodes, u.nodes) && Stamped(t.nodes, u.nodes, now) && u.chunks == t.chunks && SameElsewhere(t, u, s)
    && forall l: nat | l <= from :: AtLevel(u, s, l) == AtLevel(t, s, l)
  }

  /** The open nodes a fold at `level` finds: those there were, and the one carried there. */
  function Found(t: Tables, u: Tables, s: Scope, level: nat): set<nat> {
    OpenAt(t, s, level) + (AtLevel(u, s, level) - AtLevel(t, s, level))
  }

  function ById(ids: set<nat>): map<nat, int> {
    map m | m in ids :: m
  }

  /** `ks` are the `c` lowest ids of `found`, in ascending order. */
  ghost predicate Lowest(ks: seq<nat>, found: set<nat>, c: nat) {
    && |ks| == c && Elements(ks) <= found
    && (forall i, j | 0 <= i < j < |ks| :: ks[i] < ks[j])
    && (forall i, r | 0 <= i < |ks| && r in found && r !in ks :: ks[i] < r)
  }

  /** Every new node lists, in order, the first `c` by id of the open nodes its fold found. */
  ghost predicate TookFirst(t: Tables, u: Tables, s: Scope, c: nat) {
    && t.nodes.Keys <= u.nodes.Keys
    && forall m | m in u.nodes && m !in t.nodes ::
      && u.nodes[m].children.NodeIds? && u.nodes[m].level >= 2
      && Lowest(u.nodes[m].children.nodes, Found(t, u, s, u.nodes[m].level - 1), c)
  }

  /** What is open from `level` on is what a fold there would find. */
  ghost predicate FoundFrom(t: Tables, u: Tables, s: Scope, level: nat) {
    && (forall l: nat | l >= level :: OpenAt(u, s, l) == Found(t, u, s, l))
    && (forall m | m in u.nodes && m !in t.nodes :: u.nodes[m].level <= level)
  }

  lemma TookNothing(t: Tables, s: Scope, from: nat, c: nat)
    ensures TookFirst(t, t, s, c) && FoundFrom(t, t, s, from)
  {
  }

  lemma FirstByIdIsLowest(ks: seq<nat>, found: set<nat>, c: nat)
    requires FirstBy(ks, found, ById(found), c) && |ks| == c
    ensures Lowest(ks, found, c)
  {
    assert forall i | 0 <= i < |ks| :: ks[i] in Elements(ks);
  }

  /** How a fold changes what is found at the levels. */
  lemma FoundMoves(start: Tables, t: Tables, s: Scope, level: nat, sel: seq<nat>, id: nat, now: int, l: nat)
    requires id !in t.nodes && id !in start.nodes && level >= 1 && Elements(sel) <= OpenAt(t, s, level)
    ensures var u := FoldCommit(t, s, level, sel, id, now);
      && (l <= level ==> Found(start, u, s, l) == Found(start, t, s, l))
      && (l > level && OpenAt(t, s, l) == Found(start, t, s, l) ==> OpenAt(u, s, l) == Found(start, u, s, l))
  {
    FoldMovesAll(t, s, level, sel, id, now, s, l);
    FoldMovesOpen(t, s, level, sel, id, now, s, l);
    assert id !in AtLevel(start, s, l);
    hide AtLevel, OpenAt, FoldCommit;
  }

  lemma TookOnce(start: Tables, t: Tables, s: Scope, level: nat, sel: seq<nat>, id: nat, now: int, c: nat)
    requires CanFold(t, s, level, sel, id, c) && TookFirst(start, t, s, c) && FoundFrom(start, t, s, level)
    requires FirstBy(sel, OpenAt(t, s, level), ById(OpenAt(t, s, level)), c)
    ensures var u := FoldCommit(t, s, level, sel, id, now);
      TookFirst(start, u, s, c) && FoundFrom(start, u, s, level + 1)
  {
    hide *;
    var u := FoldCommit(t, s, level, sel, id, now);
    CanFoldIs(t, s, level, sel, id, c);
    FirstByIdIsLowest(sel, OpenAt(t, s, level), c);
    FoldNodes(t, s, level, sel, id, now);
    StartIsIn(start, t, s, id, c);
    forall l: nat
      ensures l <= level ==> Found(start, u, s, l) == Found(start, t, s, l)
      ensures l > level && OpenAt(t, s, l) == Found(start, t, s, l) ==> OpenAt(u, s, l) == Found(start, u, s, l)
    {
      FoundMoves(start, t, s, level, sel, id, now, l);
    }
    TookOneMore(start, t, u, s, level, sel, id, c);
  }

  lemma CanFoldIs(t: Tables, s: Scope, level: nat, sel: seq<nat>, id: nat, c: nat)
    requires CanFold(t, s, level, sel, id, c)
    ensures id !in t.nodes && level >= 1 && |sel| == c && Elements(sel) <= OpenAt(t, s, level)
  {
  }

  lemma StartIsIn(start: Tables, t: Tables, s: Scope, id: nat, c: nat)
    requires TookFirst(start, t, s, c) && id !in t.nodes
    ensures id !in start.nodes && start.nodes.Keys <= t.nodes.Keys
  {
    hide Found, Lowest;
  }

  lemma TookOneMore(start: Tables, t: Tables, u: Tables, s: Scope, level: nat, sel: seq<nat>, id: nat, c: nat)
    requires TookFirst(start, t, s, c) && FoundFrom(start, t, s, level)
    requires level >= 1 && id !in t.nodes && Lowest(sel, OpenAt(t, s, level), c)
    requires u.nodes.Keys == t.nodes.Keys + {id} && u.nodes[id] == Node(s, level + 1, NodeIds(sel), None)
    requires forall m | m in t.nodes ::
      u.nodes[m].children == t.nodes[m].children && u.nodes[m].level == t.nodes[m].level
    requires forall l: nat :: l <= level ==> Found(start, u, s, l) == Found(start, t, s, l)
    requires forall l: nat :: l > level && OpenAt(t, s, l) == Found(start, t, s, l) ==>
      OpenAt(u, s, l) == Found(start, u, s, l)
    ensures TookFirst(start, u, s, c) && FoundFrom(start, u, s, level + 1)
  {
    hide AtLevel, OpenAt, Found, Lowest;
    forall m | m in u.nodes && m !in start.nodes
      ensures u.nodes[m].children.NodeIds? && 2 <= u.nodes[m].level <= level + 1
      ensures Lowest(u.nodes[m].children.nodes, Found(start, u, s, u.nodes[m].level - 1), c)
    {
      if m == id {
        assert OpenAt(t, s, level) == Found(start, t, s, level);
      } else {
        assert m in t.nodes;
      }
    }
  }

  lemma FoldNodes(t: Tables, s: Scope, level: nat, sel: seq<nat>, id: nat, now: int)
    requires id !in t.nodes
    ensures var u := FoldCommit(t, s, level, sel, id, now);
      && u.nodes.Keys == t.nodes.Keys + {id} && u.nodes[id] == Node(s, level + 1, NodeIds(sel), None)
      && forall m | m in t.nodes :: u.nodes[m].children == t.nodes[m].children && u.nodes[m].level == t.nodes[m].level
  {
  }

  lemma FoldedNothing(t: Tables, s: Scope, from: nat, now: int)
    ensures Folded(t, t, s, from, now)
  {
  }

  lemma FoldedOnce(start: Tables, t: Tables, s: Scope, from: nat, level: nat, sel: seq<nat>, id: nat, now: int)
    requires id !in t.nodes && 1 <= from <= level && Elements(sel) <= OpenAt(t, s, level)
    requires Folded(start, t, s, from, now)
    ensures Folded(start, FoldCommit(t, s, level, sel, id, now), s, from, now)
  {
    assert forall k | k in sel :: k in Elements(sel) && k in OpenAt(t, s, level);
    forall l: nat | l <= from ensures AtLevel(FoldCommit(t, s, level, sel, id, now), s, l) == AtLevel(t, s, l) {
      FoldMovesAll(t, s, level, sel, id, now, s, l);
    }
  }

  lemma CarriedNothing(t: Tables, s: Scope, from: nat, c: nat)
    requires from >= 1
    ensures Carried(t, t, s, from, from, c)
  {
  }

  lemma CarriedOnce(start: Tables, t: Tables, s: Scope, from: nat, level: nat, sel: seq<nat>, id: nat, now: int, c: nat)
    requires CanFold(t, s, level, sel, id, c) && Carried(start, t, s, from, level, c)
    ensures Carried(start, FoldCommit(t, s, level, sel, id, now), s, from, level + 1, c)
  {
    var u := FoldCommit(t, s, level, sel, id, now);
    forall l: nat ensures |OpenAt(u, s, l)|
      == |OpenAt(t, s, l)| + (if l == level + 1 then 1 else 0) - (if l == level then c else 0)
    {
      FoldCounts(t, s, level, sel, id, now, c, s, l);
    }
  }

  lemma SealRipples(t: Tables, s: Scope, sel: seq<nat>, id: nat, u: Tables, to: nat, c: nat)
    requires id !in t.nodes && Carried(SealCommit(t, s, sel, id), u, s, 1, to, c)
    ensures Rippled(t, u, s, to, c)
  {
    forall l: nat ensures |OpenAt(SealCommit(t, s, sel, id), s, l)| == |OpenAt(t, s, l)| + (if l == 1 then 1 else 0) {
      SealCounts(t, s, sel, id, s, l);
    }
  }

  lemma NothingChanged(t: Tables, s: Scope, now: int)
    ensures Grows(t.nodes, t.nodes) && Stamped(t.nodes, t.nodes, now) && SameElsewhere(t, t, s)
  {
  }

  lemma SealedThenFolded(t: Tables, mid: Tables, u: Tables, s: Scope, sel: seq<nat>, id: nat, b: nat, now: int)
    requires FirstBy(sel, InStage(t, s, Buffered), Ages(t.chunks), b) && id !in t.nodes
    requires mid == SealCommit(t, s, sel, id) && Folded(mid, u, s, 1, now)
    ensures Grows(t.nodes, u.nodes) && Stamped(t.nodes, u.nodes, now)
    ensures SameElsewhere(t, u, s) && SealedOldest(t, u, s, id, b)
  {
    assert forall x | x in sel :: x in Elements(sel) && x in InStage(t, s, Buffered);
    assert mid.nodes[id].children == ChunkIds(sel);
    SealMoves(t, s, sel, id, s, 1);
  }

  /** A seal leaves one fold pending at most, at level 1. */
  lemma SealPends(t: Tables, s: Scope, sel: seq<nat>, id: nat, c: nat)
    requires id !in t.nodes
    ensures Settled(t, s, c) ==> SettledExcept(SealCommit(t, s, sel, id), s, 1, c)
  {
    forall l: nat ensures |OpenAt(SealCommit(t, s, sel, id), s, l)| == |OpenAt(t, s, l)| + (if l == 1 then 1 else 0) {
      SealCounts(t, s, sel, id, s, l);
    }
  }

  /** A fold carries: the pending fold moves one level up, and fewer nodes are open. */
  lemma FoldCarries(t: Tables, s: Scope, level: nat, sel: seq<nat>, id: nat, now: int, c: nat)
    requires c >= 2 && CanFold(t, s, level, sel, id, c)
    ensures var u := FoldCommit(t, s, level, sel, id, now);
      && |OpenIn(u, s)| < |OpenIn(t, s)|
      && (SettledExcept(t, s, level, c) ==> SettledExcept(u, s, level + 1, c))
  {
    var u := FoldCommit(t, s, level, sel, id, now);
    FoldCounts(t, s, level, sel, id, now, c, s, level);
    forall l: nat | l != level ensures |OpenAt(u, s, l)| == |OpenAt(t, s, l)| + (if l == level + 1 then 1 else 0) {
      FoldCounts(t, s, level, sel, id, now, c, s, l);
    }
  }

  lemma AppendChangesLittle(t: Tables, x: nat, c: nat)
    requires x in t.chunks && t.chunks[x].stage.Admitted?
    ensures var u := AppendCommit(t, x); var s := t.chunks[x].scope;
      && Grows(t.nodes, u.nodes) && SameElsewhere(t, u, s) && OnlyUnsealedChange(t, u)
      && (Settled(t, s, c) ==> Settled(u, s, c))
      && |InStage(u, s, Buffered)| == |InStage(t, s, Buffered)| + 1
  {
    var u, s := AppendCommit(t, x), t.chunks[x].scope;
    assert InStage(u, s, Buffered) == InStage(t, s, Buffered) + {x};
    assert forall l: nat :: OpenAt(u, s, l) == OpenAt(t, s, l);
  }

  lemma AppendedThenSealed(t: Tables, mid: Tables, u: Tables, s: Scope, c: nat)
    requires mid.nodes == t.nodes && SameElsewhere(t, mid, s) && Grows(mid.nodes, u.nodes) && SameElsewhere(mid, u, s)
    ensures Grows(t.nodes, u.nodes) && SameElsewhere(t, u, s)
    ensures Counted(mid, u, s, c) ==> Counted(t, u, s, c)
    ensures forall to: nat :: Rippled(mid, u, s, to, c) ==> Rippled(t, u, s, to, c)
  {
    assert forall l: nat :: OpenAt(mid, s, l) == OpenAt(t, s, l);
  }

  lemma SealDrains(t: Tables, u: Tables, s: Scope, id: nat, b: nat)
    requires SealedOldest(t, u, s, id, b)
    ensures id in u.nodes && u.nodes[id].children.ChunkIds?
    ensures var buffered := |InStage(t, s, Buffered)|; var taken := |u.nodes[id].children.chunks|;
      && taken == (if buffered <= b then buffered else b)
      && |InStage(u, s, Buffered)| == buffered - taken
  {
    var sel := u.nodes[id].children.chunks;
    DistinctSize(sel);
    assert forall x :: x in sel <==> x in Elements(sel);
    assert InStage(u, s, Buffered) == InStage(t, s, Buffered) - Elements(sel);
  }

  /** A seal that is not cut short increments the counter: the open nodes go from the digits of n to
      those of n + 1, with one fold for every carry. */
  lemma SealIncrements(t: Tables, u: Tables, s: Scope, id: nat, b: nat, c: nat)
    requires c >= 2 && Tallied(t, c) && Tallied(u, c) && Settled(t, s, c) && Settled(u, s, c)
    requires SealedOldest(t, u, s, id, b)
    ensures var n := |AtLevel(t, s, 1)|;
      && |AtLevel(u, s, 1)| == n + 1
      && (forall level: nat | level >= 1 ::
            |OpenAt(t, s, level)| == Digit(n, level - 1, c) && |OpenAt(u, s, level)| == Digit(n + 1, level - 1, c))
      && (c - 1) * (|FoldedIn(u, s)| - |FoldedIn(t, s)|) == DigitSum(n, c) + 1 - DigitSum(n + 1, c)
  {
    OpenNodesAreDigits(t, s, c);
    OpenNodesAreDigits(u, s, c);
    FoldsOfSettledTree(t, s, c);
    FoldsOfSettledTree(u, s, c);
    hide DigitSum, Digit, Settled;
    assert id !in AtLevel(t, s, 1);
    Distribute(c - 1, |FoldedIn(u, s)|, -|FoldedIn(t, s)|);
  }

  // ------------------------------------------------------- runs without crashes

  /** A handler call, or a change of chunks that neither buffers nor seals. Every call grows the tables
      and leaves them sound, as the handlers' contracts say. */
  datatype Event = Append(chunk: nat, o: Outcome) | Flush(s: Scope, o: Outcome) | Elsewhere

  ghost predicate Did(t: Tables, u: Tables, e: Event, b: nat, c: nat) {
    && Grows(t.nodes, u.nodes) && Sound(u, b, c)
    && match e
    case Append(x, o) =>
      if x in t.chunks && t.chunks[x].stage.Admitted? then !o.Skipped? && !o.Interrupted? && Appended(t, u, x, o, b, c)
      else u == t
    case Flush(s, o) => !o.Interrupted? && Flushed(t, u, s, o, b, c)
    case Elsewhere => u.nodes == t.nodes && forall s :: InStage(u, s, Buffered) == InStage(t, s, Buffered)
  }

  ghost predicate CrashFree(states: seq<Tables>, events: seq<Event>, b: nat, c: nat) {
    |states| == |events| + 1 && forall i | 0 <= i < |events| :: Did(states[i], states[i + 1], events[i], b, c)
  }

  /** Every buffer is short of full and no fold is pending anywhere. */
  ghost predicate Short(t: Tables, b: nat, c: nat) {
    forall s :: |InStage(t, s, Buffered)| < b && Settled(t, s, c)
  }

  lemma EventKeepsShort(t: Tables, u: Tables, e: Event, b: nat, c: nat)
    requires Short(t, b, c) && Did(t, u, e, b, c)
    ensures Short(u, b, c)
  {
    if u != t {
      forall s ensures |InStage(u, s, Buffered)| < b && Settled(u, s, c) {
        if e.Elsewhere? || s != (if e.Append? then t.chunks[e.chunk].scope else e.s) {
          ElsewhereKeepsShort(t, u, e, s, b, c);
        }
      }
    }
  }

  lemma ElsewhereKeepsShort(t: Tables, u: Tables, e: Event, s: Scope, b: nat, c: nat)
    requires e.Elsewhere? ==> u.nodes == t.nodes && InStage(u, s, Buffered) == InStage(t, s, Buffered)
    requires !e.Elsewhere? ==> exists r :: r != s && SameElsewhere(t, u, r)
    ensures InStage(u, s, Buffered) == InStage(t, s, Buffered) && (Settled(t, s, c) ==> Settled(u, s, c))
  {
    forall l: nat ensures OpenAt(u, s, l) == OpenAt(t, s, l) {
    }
  }

  /** In every crash-free run of appends and flushes, every buffer holds fewer than `buffer_size`
      chunks, and no fold is pending, after each of them. */
  lemma {:induction false} BuffersStayShort(states: seq<Tables>, events: seq<Event>, b: nat, c: nat, i: nat)
    requires CrashFree(states, events, b, c) && Short(states[0], b, c) && i < |states|
    ensures Short(states[i], b, c)
  {
    hide Short, Did;
    if i > 0 {
      BuffersStayShort(states, events, b, c, i - 1);
      assert Did(states[i - 1], states[i - 1 + 1], events[i - 1], b, c);
      EventKeepsShort(states[i - 1], states[i], events[i - 1], b, c);
    }
  }

  lemma EmptyIsShort(b: nat, c: nat)
    requires b >= 1 && c >= 1
    ensures Short(Tables(map[], map[]), b, c)
  {
    var t := Tables(map[], map[]);
    forall s ensures InStage(t, s, Buffered) == {} {}
    forall s, l: nat ensures OpenAt(t, s, l) == {} {}
  }
}
