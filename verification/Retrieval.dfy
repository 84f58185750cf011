/** Hybrid search: reciprocal rank fusion of a keyword list and a semantic list. Scores are exact
    rationals here, where the code adds floats. */
module Retrieval {

  datatype Found = Found(id: string, body: string, rank: real)

  /** One occurrence of a chunk in one of the lists, in the order the lists are read. */
  datatype Hit = Hit(row: Found, position: nat)

  function Share(k: nat, position: nat): real {
    1.0 / ((k + position + 1) as real)
  }

  function Hits(list: seq<Found>): (hits: seq<Hit>)
    ensures |hits| == |list|
  {
    if list == [] then []
    else
      var n := |list| - 1;
      Hits(list[..n]) + [Hit(list[n], n)]
  }

  function Score(hits: seq<Hit>, id: string, k: nat): real {
    if hits == [] then 0.0
    else
      var n := |hits| - 1;
      Score(hits[..n], id, k) + (if hits[n].row.id == id then Share(k, hits[n].position) else 0.0)
  }

  predicate Has(hits: seq<Hit>, id: string) {
    exists i | 0 <= i < |hits| :: hits[i].row.id == id
  }

  /** Where a chunk was seen first. */
  function FirstAt(hits: seq<Hit>, id: string): (i: nat)
    requires Has(hits, id)
    ensures i < |hits| && hits[i].row.id == id && !Has(hits[..i], id)
  {
    var n := |hits| - 1;
    if Has(hits[..n], id) then
      assert forall i | 0 <= i <= n :: hits[..n][..i] == hits[..i];
      FirstAt(hits[..n], id)
    else n
  }

  /** Descending score; equal scores in the order first seen. */
  predicate Above(hits: seq<Hit>, k: nat, a: string, b: string)
    requires Has(hits, a) && Has(hits, b)
  {
    || Score(hits, a, k) > Score(hits, b, k)
    || (Score(hits, a, k) == Score(hits, b, k) && FirstAt(hits, a) < FirstAt(hits, b))
  }

  /** What a search owes: distinct chunks, each the row first seen with its fused score as rank, in
      order; and no chunk left out that comes above one returned, or while there is room. */
  ghost predicate IsAnswer(results: seq<Found>, hits: seq<Hit>, limit: nat, k: nat) {
    && |results| <= limit
    && (forall i | 0 <= i < |results| ::
          Has(hits, results[i].id)
          && results[i] == hits[FirstAt(hits, results[i].id)].row.(rank := Score(hits, results[i].id, k)))
    && (forall i, j | 0 <= i < j < |results| :: Above(hits, k, results[i].id, results[j].id))
    && (forall id | Has(hits, id) && !Returned(results, id) ::
          |results| == limit && forall i | 0 <= i < |results| :: Above(hits, k, results[i].id, id))
  }

  predicate Returned(results: seq<Found>, id: string) {
    exists i | 0 <= i < |results| :: results[i].id == id
  }

  // ---------------------------------------------------------------- the search

  /** `fused`: the scores so far. */
  ghost predicate Sums(fused: map<string, real>, hits: seq<Hit>, k: nat) {
    && (forall id :: id in fused <==> Has(hits, id))
    && (forall id | id in fused :: fused[id] == Score(hits, id, k))
  }

  /** `by_id`: the rows first seen. */
  ghost predicate FirstRows(byId: map<string, Found>, hits: seq<Hit>) {
    && (forall id :: id in byId <==> Has(hits, id))
    && (forall id | id in byId :: byId[id] == hits[FirstAt(hits, id)].row)
  }

  /** The order in which a dictionary got its keys. */
  ghost predicate Appearance(order: seq<string>, hits: seq<Hit>) {
    && (forall id :: id in order <==> Has(hits, id))
    && (forall i, j | 0 <= i < j < |order| ::
          Has(hits, order[i]) && Has(hits, order[j]) && FirstAt(hits, order[i]) < FirstAt(hits, order[j]))
  }

  ghost predicate Tracks(fused: map<string, real>, byId: map<string, Found>, order: seq<string>, hits: seq<Hit>,
                         k: nat) {
    Sums(fused, hits, k) && FirstRows(byId, hits) && Appearance(order, hits)
  }

  /** Every occurrence in some lists, one list after the other. */
  ghost function AllHits(lists: seq<seq<Found>>): seq<Hit> {
    if lists == [] then [] else AllHits(lists[..|lists| - 1]) + Hits(lists[|lists| - 1])
  }

  /** The fusion loop. */
  method Fuse(lists: seq<seq<Found>>, rrfK: nat)
      returns (fused: map<string, real>, byId: map<string, Found>, order: seq<string>)
    ensures Tracks(fused, byId, order, AllHits(lists), rrfK)
  {
    fused, byId, order := map[], map[], [];
    hide *;
    NothingTracked(rrfK);
    assert lists[..0] == [] && lists[..|lists|] == lists;
    for r := 0 to |lists|
      invariant Tracks(fused, byId, order, AllHits(lists[..r]), rrfK)
    {
      ghost var before := AllHits(lists[..r]);
      NextList(lists, r);
      for position := 0 to |lists[r]|
        invariant Tracks(fused, byId, order, before + Hits(lists[r][..position]), rrfK)
      {
        var row := lists[r][position];
        NextHit(before, lists[r], position);
        Track(fused, byId, order, before + Hits(lists[r][..position]), rrfK, Hit(row, position));
        var sum := (if row.id in fused then fused[row.id] else 0.0) + Share(rrfK, position);
        order := if row.id in fused then order else order + [row.id];
        fused := fused[row.id := sum];
        byId := if row.id in byId then byId else byId[row.id := row];
      }
    }
  }

  lemma NothingTracked(k: nat)
    ensures Tracks(map[], map[], [], AllHits([]), k)
  {
  }

  lemma NextList(lists: seq<seq<Found>>, r: nat)
    requires r < |lists|
    ensures AllHits(lists[..r]) + Hits(lists[r][..0]) == AllHits(lists[..r])
    ensures AllHits(lists[..r]) + Hits(lists[r][..|lists[r]|]) == AllHits(lists[..r + 1])
  {
    assert lists[..r + 1][..r] == lists[..r];
    assert lists[r][..|lists[r]|] == lists[r];
  }

  lemma NextHit(before: seq<Hit>, list: seq<Found>, n: nat)
    requires n < |list|
    ensures before + Hits(list[..n + 1]) == before + Hits(list[..n]) + [Hit(list[n], n)]
  {
    assert list[..n + 1][..n] == list[..n];
  }

  method HybridSearch(keyword: seq<Found>, semantic: seq<Found>, limit: nat, rrfK: nat) returns (results: seq<Found>)
    ensures IsAnswer(results, Hits(keyword) + Hits(semantic), limit, rrfK)
  {
    TwoLists(keyword, semantic);
    hide IsAnswer, Has, Score, FirstAt, SortDescending, Ordered, Hits, AllHits, Appearance, Sums, FirstRows;
    var fused, byId, order := Fuse([keyword, semantic], rrfK);
    ReadyToSort(fused, byId, order, Hits(keyword) + Hits(semantic), rrfK);
    var ranked := SortDescending(order, fused);
    var top := if |ranked| <= limit then ranked else ranked[..limit];
    results := [];
    for i := 0 to |top|
      invariant |results| == i
      invariant forall j | 0 <= j < i :: results[j] == byId[top[j]].(rank := fused[top[j]])
    {
      results := results + [byId[top[i]].(rank := fused[top[i]])];
    }
    TopIsAnswer(fused, byId, order, Hits(keyword) + Hits(semantic), rrfK, ranked, limit, results);
  }

  lemma HitAppended(hits: seq<Hit>, hit: Hit, id: string, k: nat)
    ensures Has(hits + [hit], id) <==> Has(hits, id) || hit.row.id == id
    ensures Score(hits + [hit], id, k)
         == Score(hits, id, k) + (if hit.row.id == id then Share(k, hit.position) else 0.0)
    ensures Has(hits, id) ==>
      && FirstAt(hits + [hit], id) == FirstAt(hits, id) < |hits|
      && (hits + [hit])[FirstAt(hits, id)] == hits[FirstAt(hits, id)]
    ensures hit.row.id == id && !Has(hits, id) ==> FirstAt(hits + [hit], id) == |hits|
  {
    var more := hits + [hit];
    assert more[..|hits|] == hits;
    assert more[|hits|] == hit && forall i | 0 <= i < |hits| :: more[i] == hits[i];
  }

  /** What is absent scores nothing. */
  lemma {:induction false} AbsentScoresNothing(hits: seq<Hit>, id: string, k: nat)
    requires !Has(hits, id)
    ensures Score(hits, id, k) == 0.0
  {
    if hits != [] {
      assert forall i | 0 <= i < |hits| - 1 :: hits[..|hits| - 1][i] == hits[i];
      AbsentScoresNothing(hits[..|hits| - 1], id, k);
    }
  }

  lemma Track(fused: map<string, real>, byId: map<string, Found>, order: seq<string>, hits: seq<Hit>, k: nat, hit: Hit)
    requires Tracks(fused, byId, order, hits, k)
    ensures var id := hit.row.id;
      Tracks(fused[id := (if id in fused then fused[id] else 0.0) + Share(k, hit.position)],
             if id in byId then byId else byId[id := hit.row],
             if id in fused then order else order + [id],
             hits + [hit], k)
  {
    hide Score, Has, FirstAt;
    TrackSums(fused, hits, k, hit);
    TrackRows(byId, hits, hit);
    TrackOrder(order, hits, hit);
  }

  lemma TrackSums(fused: map<string, real>, hits: seq<Hit>, k: nat, hit: Hit)
    requires Sums(fused, hits, k)
    ensures var id := hit.row.id;
      Sums(fused[id := (if id in fused then fused[id] else 0.0) + Share(k, hit.position)], hits + [hit], k)
  {
    var id := hit.row.id;
    if id !in fused {
      AbsentScoresNothing(hits, id, k);
    }
    hide Score, Has, Share;
    forall other
      ensures Has(hits + [hit], other) <==> Has(hits, other) || other == id
      ensures Score(hits + [hit], other, k)
           == Score(hits, other, k) + (if other == id then Share(k, hit.position) else 0.0)
    {
      HitAppended(hits, hit, other, k);
    }
  }

  lemma TrackRows(byId: map<string, Found>, hits: seq<Hit>, hit: Hit)
    requires FirstRows(byId, hits)
    ensures FirstRows(if hit.row.id in byId then byId else byId[hit.row.id := hit.row], hits + [hit])
  {
    hide Has, FirstAt;
    forall other
      ensures Has(hits + [hit], other) <==> Has(hits, other) || other == hit.row.id
      ensures Has(hits, other) ==>
        && FirstAt(hits + [hit], other) == FirstAt(hits, other)
        && (hits + [hit])[FirstAt(hits, other)] == hits[FirstAt(hits, other)]
      ensures other == hit.row.id && !Has(hits, other) ==> FirstAt(hits + [hit], other) == |hits|
    {
      HitAppended(hits, hit, other, 0);
    }
  }

  lemma TrackOrder(order: seq<string>, hits: seq<Hit>, hit: Hit)
    requires Appearance(order, hits)
    ensures Appearance(if Has(hits, hit.row.id) then order else order + [hit.row.id], hits + [hit])
  {
    hide Has, FirstAt;
    forall other
      ensures Has(hits + [hit], other) <==> Has(hits, other) || other == hit.row.id
      ensures Has(hits, other) ==> FirstAt(hits + [hit], other) == FirstAt(hits, other) < |hits|
      ensures other == hit.row.id && !Has(hits, other) ==> FirstAt(hits + [hit], other) == |hits|
    {
      HitAppended(hits, hit, other, 0);
    }
  }

  lemma TwoLists(a: seq<Found>, b: seq<Found>)
    ensures AllHits([a, b]) == Hits(a) + Hits(b)
  {
    assert [a, b][..1] == [a] && [a][..0] == [];
    assert AllHits([a]) == Hits(a);
  }

  lemma ReadyToSort(fused: map<string, real>, byId: map<string, Found>, order: seq<string>, hits: seq<Hit>, k: nat)
    requires Tracks(fused, byId, order, hits, k)
    ensures forall id :: (id in order <==> id in fused) && (id in order <==> id in byId)
    ensures var ranked := SortDescending(order, fused);
      && Ordered(ranked, hits, k) && (forall id :: id in ranked <==> id in fused)
      && forall i | 0 <= i < |ranked| :: ranked[i] in fused && ranked[i] in byId
  {
    SortOrders(order, fused, hits, k);
    hide Ordered, Has, FirstAt, Score;
    forall id ensures id in SortDescending(order, fused) <==> id in fused {
      assert id in multiset(SortDescending(order, fused)) <==> id in multiset(order);
    }
  }

  // --------------------------------------------------------------- the sort

  /** `sorted(..., reverse=True)` by score: stable, so ties stay in the order given. */
  function SortDescending(ids: seq<string>, score: map<string, real>): (sorted: seq<string>)
    requires forall x | x in ids :: x in score
    ensures multiset(sorted) == multiset(ids)
  {
    if ids == [] then []
    else
      var n := |ids| - 1;
      assert ids == ids[..n] + [ids[n]];
      var front := SortDescending(ids[..n], score);
      assert forall x | x in front :: x in multiset(front);
      Insert(front, ids[n], score)
  }

  function Insert(ids: seq<string>, id: string, score: map<string, real>): (longer: seq<string>)
    requires id in score && forall x | x in ids :: x in score
    ensures multiset(longer) == multiset(ids) + multiset{id}
  {
    if ids == [] || score[ids[|ids| - 1]] >= score[id] then ids + [id]
    else
      var n := |ids| - 1;
      assert ids == ids[..n] + [ids[n]];
      Insert(ids[..n], id, score) + [ids[n]]
  }

  ghost predicate Ordered(ids: seq<string>, hits: seq<Hit>, k: nat) {
    && (forall i | 0 <= i < |ids| :: Has(hits, ids[i]))
    && (forall i, j | 0 <= i < j < |ids| :: Above(hits, k, ids[i], ids[j]))
  }

  lemma OrderedAppend(ids: seq<string>, id: string, hits: seq<Hit>, k: nat)
    requires Ordered(ids, hits, k) && Has(hits, id)
    requires ids != [] ==> Above(hits, k, ids[|ids| - 1], id)
    ensures Ordered(ids + [id], hits, k)
  {
    hide Has, Score, FirstAt;
    forall i | 0 <= i < |ids| ensures Above(hits, k, ids[i], id) {
      assert i < |ids| - 1 ==> Above(hits, k, ids[i], ids[|ids| - 1]);
    }
  }

  lemma {:induction false} InsertOrders(ids: seq<string>, id: string, score: map<string, real>, hits: seq<Hit>, k: nat)
    requires Sums(score, hits, k) && Ordered(ids, hits, k) && Has(hits, id)
    requires forall i | 0 <= i < |ids| :: FirstAt(hits, ids[i]) < FirstAt(hits, id)
    requires forall x | x in ids :: x in score
    ensures Ordered(Insert(ids, id, score), hits, k)
  {
    hide Has, Score, FirstAt;
    if ids == [] || score[ids[|ids| - 1]] >= score[id] {
      OrderedAppend(ids, id, hits, k);
    } else {
      var n := |ids| - 1;
      var front := Insert(ids[..n], id, score);
      assert forall i | 0 <= i < n :: ids[..n][i] == ids[i];
      InsertOrders(ids[..n], id, score, hits, k);
      assert front[|front| - 1] in multiset(front);
      assert Above(hits, k, id, ids[n]);
      OrderedAppend(front, ids[n], hits, k);
    }
  }

  lemma {:induction false} SortOrders(order: seq<string>, score: map<string, real>, hits: seq<Hit>, k: nat)
    requires Sums(score, hits, k) && forall i | 0 <= i < |order| :: Has(hits, order[i])
    requires forall i, j | 0 <= i < j < |order| :: FirstAt(hits, order[i]) < FirstAt(hits, order[j])
    requires forall x | x in order :: x in score
    ensures Ordered(SortDescending(order, score), hits, k)
  {
    hide Has, Score, FirstAt, Insert;
    if order != [] {
      var n := |order| - 1;
      var front := SortDescending(order[..n], score);
      SortOrders(order[..n], score, hits, k);
      forall i | 0 <= i < |front| ensures FirstAt(hits, front[i]) < FirstAt(hits, order[n]) {
        assert front[i] in multiset(front);
        assert front[i] in order[..n];
      }
      InsertOrders(front, order[n], score, hits, k);
    }
  }

  lemma TopIsAnswer(fused: map<string, real>, byId: map<string, Found>, order: seq<string>, hits: seq<Hit>, k: nat,
                    ranked: seq<string>, limit: nat, results: seq<Found>)
    requires Sums(fused, hits, k) && FirstRows(byId, hits) && Ordered(ranked, hits, k)
    requires forall id :: id in ranked <==> id in fused
    requires |results| == if |ranked| <= limit then |ranked| else limit
    requires forall j | 0 <= j < |results| ::
      ranked[j] in fused && ranked[j] in byId && results[j] == byId[ranked[j]].(rank := fused[ranked[j]])
    ensures IsAnswer(results, hits, limit, k)
  {
    hide Score, Has, FirstAt;
    forall j | 0 <= j < |results|
      ensures results[j].id == ranked[j]
      ensures results[j] == hits[FirstAt(hits, ranked[j])].row.(rank := Score(hits, ranked[j], k))
    {
      FirstIsThere(hits, ranked[j]);
    }
    forall id | Has(hits, id)
      ensures
        || Returned(results, id)
        || (|results| == limit && forall i | 0 <= i < |results| :: Above(hits, k, results[i].id, id))
    {
      assert id in ranked;
      var j :| 0 <= j < |ranked| && ranked[j] == id;
      if j < |results| {
        assert results[j].id == id;
      }
    }
  }

  lemma FirstIsThere(hits: seq<Hit>, id: string)
    requires Has(hits, id)
    ensures FirstAt(hits, id) < |hits| && hits[FirstAt(hits, id)].row.id == id
  {
  }

  // -------------------------------------------------------------- main results

  /** The answer is determined: no two different results meet the contract. */
  lemma AnswerIsUnique(a: seq<Found>, b: seq<Found>, hits: seq<Hit>, limit: nat, k: nat)
    requires IsAnswer(a, hits, limit, k) && IsAnswer(b, hits, limit, k)
    ensures a == b
  {
    if |a| <= |b| {
      SamePrefix(a, b, hits, limit, k, |a|);
      NothingMore(a, b, hits, limit, k);
    } else {
      SamePrefix(b, a, hits, limit, k, |b|);
      NothingMore(b, a, hits, limit, k);
    }
  }

  /** No chunk is returned twice. */
  lemma AnswersDiffer(a: seq<Found>, hits: seq<Hit>, limit: nat, k: nat, i: nat, j: nat)
    requires IsAnswer(a, hits, limit, k) && i < j < |a|
    ensures a[i].id != a[j].id
  {
    hide Score, FirstAt, Has;
    assert Above(hits, k, a[i].id, a[j].id);
  }

  lemma NextIsNew(b: seq<Found>, hits: seq<Hit>, limit: nat, k: nat, n: nat)
    requires IsAnswer(b, hits, limit, k) && n < |b|
    ensures Has(hits, b[n].id) && !Returned(b[..n], b[n].id)
  {
    forall i | 0 <= i < n ensures b[..n][i].id != b[n].id {
      AnswersDiffer(b, hits, limit, k, i, n);
    }
  }

  lemma NothingMore(a: seq<Found>, b: seq<Found>, hits: seq<Hit>, limit: nat, k: nat)
    requires IsAnswer(a, hits, limit, k) && IsAnswer(b, hits, limit, k) && |a| <= |b| && a == b[..|a|]
    ensures a == b
  {
    if |a| < |b| {
      NextIsNew(b, hits, limit, k, |a|);
    }
    assert b[..|b|] == b;
  }

  lemma {:induction false} SamePrefix(a: seq<Found>, b: seq<Found>, hits: seq<Hit>, limit: nat, k: nat, n: nat)
    requires IsAnswer(a, hits, limit, k) && IsAnswer(b, hits, limit, k) && n <= |a| <= |b|
    ensures a[..n] == b[..n]
  {
    hide *;
    if n > 0 {
      SamePrefix(a, b, hits, limit, k, n - 1);
      SameNext(a, b, hits, limit, k, n - 1);
      assert a[..n] == a[..n - 1] + [a[n - 1]] && b[..n] == b[..n - 1] + [b[n - 1]];
    }
  }

  lemma SameNext(a: seq<Found>, b: seq<Found>, hits: seq<Hit>, limit: nat, k: nat, i: nat)
    requires IsAnswer(a, hits, limit, k) && IsAnswer(b, hits, limit, k) && i < |a| && i < |b| && a[..i] == b[..i]
    ensures a[i] == b[i]
  {
    NextIsNew(a, hits, limit, k, i);
    NextIsNew(b, hits, limit, k, i);
    hide Score, FirstAt, Has;
    if a[i].id != b[i].id {
      NextComesAbove(b, hits, limit, k, i, a[i].id);
      NextComesAbove(a, hits, limit, k, i, b[i].id);
    }
  }

  /** What an answer returns next comes above any other chunk it has not returned yet. */
  lemma NextComesAbove(b: seq<Found>, hits: seq<Hit>, limit: nat, k: nat, i: nat, id: string)
    requires IsAnswer(b, hits, limit, k) && i < |b| && Has(hits, id)
    requires !Returned(b[..i], id) && b[i].id != id
    ensures Has(hits, b[i].id) && Above(hits, k, b[i].id, id)
  {
    hide Score, FirstAt, Has;
    forall j | 0 <= j < i ensures b[j].id != id {
      assert b[..i][j] == b[j];
    }
  }

  ghost predicate DistinctIds(list: seq<Found>) {
    forall i, j | 0 <= i < j < |list| :: list[i].id != list[j].id
  }

  predicate In(list: seq<Found>, id: string) {
    exists i | 0 <= i < |list| :: list[i].id == id
  }

  /** In a list of distinct chunks, each scores its one share. */
  lemma {:induction false} ListScore(list: seq<Found>, i: nat, k: nat)
    requires DistinctIds(list) && i < |list|
    ensures Score(Hits(list), list[i].id, k) == Share(k, i)
  {
    var n := |list| - 1;
    var front := list[..n];
    HitAppended(Hits(front), Hit(list[n], n), list[i].id, k);
    if i < n {
      ListScore(front, i, k);
    } else {
      HitsAreMembers(front, list[i].id);
      assert !In(front, list[i].id);
      AbsentScoresNothing(Hits(front), list[i].id, k);
    }
  }

  lemma {:induction false} HitsAreMembers(list: seq<Found>, id: string)
    ensures Has(Hits(list), id) <==> In(list, id)
  {
    if list != [] {
      var n := |list| - 1;
      HitsAreMembers(list[..n], id);
      HitAppended(Hits(list[..n]), Hit(list[n], n), id, 0);
      assert forall i | 0 <= i < n :: list[..n][i] == list[i];
    }
  }

  lemma {:induction false} ScoreAdds(a: seq<Hit>, b: seq<Hit>, id: string, k: nat)
    ensures Score(a + b, id, k) == Score(a, id, k) + Score(b, id, k)
  {
    if b == [] {
      assert a + b == a;
    } else {
      var n := |b| - 1;
      ScoreAdds(a, b[..n], id, k);
      assert a + b == (a + b[..n]) + [b[n]];
      HitAppended(a + b[..n], b[n], id, k);
    }
  }

  /** The two searches return distinct chunks, at most `limit` of them. */
  ghost predicate Lists(keyword: seq<Found>, semantic: seq<Found>, limit: nat) {
    DistinctIds(keyword) && DistinctIds(semantic) && |keyword| <= limit && |semantic| <= limit
  }

  /** The fused score, in the positions a chunk has in the two lists, counted from 0. */
  lemma FusedScoreIs(keyword: seq<Found>, semantic: seq<Found>, id: string, k: nat)
    requires DistinctIds(keyword) && DistinctIds(semantic)
    ensures var sum := Score(Hits(keyword) + Hits(semantic), id, k);
      && (forall i, j | 0 <= i < |keyword| && 0 <= j < |semantic| && keyword[i].id == id && semantic[j].id == id ::
            sum == 1.0 / ((k + i + 1) as real) + 1.0 / ((k + j + 1) as real))
      && (forall i | 0 <= i < |keyword| && keyword[i].id == id && !In(semantic, id) ::
            sum == 1.0 / ((k + i + 1) as real))
      && (forall j | 0 <= j < |semantic| && semantic[j].id == id && !In(keyword, id) ::
            sum == 1.0 / ((k + j + 1) as real))
  {
    ScoreAdds(Hits(keyword), Hits(semantic), id, k);
    ListScoreIs(keyword, id, k);
    ListScoreIs(semantic, id, k);
  }

  lemma ListScoreIs(list: seq<Found>, id: string, k: nat)
    requires DistinctIds(list)
    ensures forall i | 0 <= i < |list| && list[i].id == id :: Score(Hits(list), id, k) == 1.0 / ((k + i + 1) as real)
    ensures !In(list, id) ==> Score(Hits(list), id, k) == 0.0
  {
    forall i | 0 <= i < |list| && list[i].id == id ensures Score(Hits(list), id, k) == 1.0 / ((k + i + 1) as real) {
      ListScore(list, i, k);
    }
    if !In(list, id) {
      HitsAreMembers(list, id);
      AbsentScoresNothing(Hits(list), id, k);
    }
  }

  /** The fused score of a chunk is the sum of its shares in the lists that hold it. */
  lemma FusedScore(keyword: seq<Found>, semantic: seq<Found>, limit: nat, id: string, k: nat)
    requires Lists(keyword, semantic, limit) && limit >= 1
    ensures var sum := Score(Hits(keyword) + Hits(semantic), id, k);
      if In(keyword, id) && In(semantic, id) then sum >= 2.0 * Share(k, limit - 1)
      else sum <= Share(k, 0)
  {
    ScoreAdds(Hits(keyword), Hits(semantic), id, k);
    OneScore(keyword, limit, id, k);
    OneScore(semantic, limit, id, k);
  }

  lemma OneScore(list: seq<Found>, limit: nat, id: string, k: nat)
    requires DistinctIds(list) && |list| <= limit && limit >= 1
    ensures In(list, id) ==> Share(k, limit - 1) <= Score(Hits(list), id, k) <= Share(k, 0)
    ensures !In(list, id) ==> Score(Hits(list), id, k) == 0.0
    ensures Share(k, 0) > 0.0
  {
    if In(list, id) {
      var i :| 0 <= i < |list| && list[i].id == id;
      ListScore(list, i, k);
      SharesFall(k, 0, i);
      SharesFall(k, i, limit - 1);
    } else {
      HitsAreMembers(list, id);
      AbsentScoresNothing(Hits(list), id, k);
    }
  }

  lemma SharesFall(k: nat, p: nat, q: nat)
    requires p <= q
    ensures Share(k, p) >= Share(k, q) > 0.0
  {
    Reciprocals(Share(k, p), (k + p + 1) as real, Share(k, q), (k + q + 1) as real);
  }

  lemma Reciprocals(x: real, p: real, y: real, q: real)
    requires x * p == 1.0 && y * q == 1.0 && 0.0 < p <= q
    ensures x >= y > 0.0
  {
    Positive(x, p);
    Positive(y, q);
    assert x - y == x * (y * q) - y * (x * p) == x * y * (q - p);
  }

  lemma Positive(x: real, p: real)
    requires x * p == 1.0 && p > 0.0
    ensures x > 0.0
  {
  }

  /** Chunks both searches found come strictly above chunks only one found, whatever the lists. */
  ghost predicate BothFirst(k: nat, limit: nat) {
    forall keyword, semantic, a, b
        | && Lists(keyword, semantic, limit) && In(keyword, a) && In(semantic, a)
          && !(In(keyword, b) && In(semantic, b)) ::
      Score(Hits(keyword) + Hits(semantic), a, k) > Score(Hits(keyword) + Hits(semantic), b, k)
  }

  /** ... and that is so exactly when the limit is at most `rrf_k + 1`. */
  lemma BothFirstIff(k: nat, limit: nat)
    ensures BothFirst(k, limit) <==> limit <= k + 1
  {
    if limit <= k + 1 {
      forall keyword, semantic, a, b
          | && Lists(keyword, semantic, limit) && In(keyword, a) && In(semantic, a)
            && !(In(keyword, b) && In(semantic, b))
        ensures Score(Hits(keyword) + Hits(semantic), a, k) > Score(Hits(keyword) + Hits(semantic), b, k)
      {
        FusedScore(keyword, semantic, limit, a, k);
        FusedScore(keyword, semantic, limit, b, k);
        TwoLastBeatOneFirst(k, limit);
      }
    } else {
      LastTwiceLoses(k, limit);
    }
  }

  /** So, with such a limit, wherever a chunk that only one search found is returned, every chunk both
      found comes earlier. */
  lemma BothComeFirst(results: seq<Found>, keyword: seq<Found>, semantic: seq<Found>, limit: nat, k: nat, a: string,
                      j: nat)
    requires limit <= k + 1 && Lists(keyword, semantic, limit)
    requires IsAnswer(results, Hits(keyword) + Hits(semantic), limit, k)
    requires In(keyword, a) && In(semantic, a)
    requires j < |results| && !(In(keyword, results[j].id) && In(semantic, results[j].id))
    ensures exists i | 0 <= i < j :: results[i].id == a
  {
    var hits := Hits(keyword) + Hits(semantic);
    BothFirstIff(k, limit);
    HitsAreMembers(keyword, a);
    InOneList(Hits(keyword), Hits(semantic), a);
    hide Hits, Score, FirstAt, Lists, Has, In;
    assert Score(hits, a, k) > Score(hits, results[j].id, k);
    assert Has(hits, a) && !Above(hits, k, results[j].id, a);
    assert Returned(results, a);
    var i :| 0 <= i < |results| && results[i].id == a;
    assert i < j;
  }

  /** Of two chunks at the same place in their lists, each found by one search only, the keyword search's
      comes first. */
  lemma KeywordGoesFirst(results: seq<Found>, keyword: seq<Found>, semantic: seq<Found>, limit: nat, k: nat, p: nat,
                         i: nat, j: nat)
    requires DistinctIds(keyword) && DistinctIds(semantic) && p < |keyword| && p < |semantic|
    requires !In(semantic, keyword[p].id) && !In(keyword, semantic[p].id)
    requires IsAnswer(results, Hits(keyword) + Hits(semantic), limit, k)
    requires i < |results| && results[i].id == keyword[p].id && j < |results| && results[j].id == semantic[p].id
    ensures i < j && results[i].rank == results[j].rank == 1.0 / ((k + p + 1) as real)
  {
    var hits := Hits(keyword) + Hits(semantic);
    FusedScoreIs(keyword, semantic, keyword[p].id, k);
    FusedScoreIs(keyword, semantic, semantic[p].id, k);
    HitsAreMembers(keyword, keyword[p].id);
    HitsAreMembers(keyword, semantic[p].id);
    assert In(keyword, keyword[p].id);
    SeenIn(Hits(keyword), Hits(semantic), keyword[p].id, semantic[p].id);
    hide *;
    HitsAreMembers(semantic, semantic[p].id);
    AboveIs(hits, k, keyword[p].id, semantic[p].id);
    AboveComesFirst(results, hits, limit, k, i, j);
    RankIsScore(results, hits, limit, k, i);
    RankIsScore(results, hits, limit, k, j);
  }

  lemma AboveIs(hits: seq<Hit>, k: nat, a: string, b: string)
    requires Has(hits, a) && Has(hits, b)
    requires Score(hits, a, k) == Score(hits, b, k) && FirstAt(hits, a) < FirstAt(hits, b)
    ensures Above(hits, k, a, b)
  {
  }

  lemma AboveComesFirst(results: seq<Found>, hits: seq<Hit>, limit: nat, k: nat, i: nat, j: nat)
    requires IsAnswer(results, hits, limit, k) && i < |results| && j < |results| && results[i].id != results[j].id
    requires Has(hits, results[i].id) && Has(hits, results[j].id) && Above(hits, k, results[i].id, results[j].id)
    ensures i < j
  {
    hide Score, FirstAt, Has;
  }

  lemma RankIsScore(results: seq<Found>, hits: seq<Hit>, limit: nat, k: nat, i: nat)
    requires IsAnswer(results, hits, limit, k) && i < |results|
    ensures Has(hits, results[i].id) && results[i].rank == Score(hits, results[i].id, k)
  {
    hide Score, FirstAt, Has;
  }

  /** What the first list holds is seen before what only the second does. */
  lemma SeenIn(a: seq<Hit>, b: seq<Hit>, x: string, y: string)
    requires Has(a, x) && !Has(a, y)
    ensures Has(a + b, x) && (Has(a + b, y) ==> FirstAt(a + b, x) < |a| <= FirstAt(a + b, y)) && x != y
  {
    InOneList(a, b, x);
    var k :| 0 <= k < |a| && a[k].row.id == x;
    FirstAtIsFirst(a + b, x, k);
    assert forall m | 0 <= m < |a| :: a[m].row.id != y && (a + b)[m] == a[m];
  }

  lemma {:induction false} FirstAtIsFirst(hits: seq<Hit>, id: string, k: nat)
    requires k < |hits| && hits[k].row.id == id
    ensures Has(hits, id) && FirstAt(hits, id) <= k
  {
    var n := |hits| - 1;
    if k < n {
      assert hits[..n][k] == hits[k];
      FirstAtIsFirst(hits[..n], id, k);
    }
  }

  lemma InOneList(a: seq<Hit>, b: seq<Hit>, id: string)
    requires Has(a, id)
    ensures Has(a + b, id)
  {
    var i :| 0 <= i < |a| && a[i].row.id == id;
    assert (a + b)[i] == a[i];
  }

  lemma TwoLastBeatOneFirst(k: nat, limit: nat)
    requires limit >= 1
    ensures 2.0 * Share(k, limit - 1) > Share(k, 0) <==> limit <= k + 1
  {
    var last, first := (k + limit) as real, (k + 1) as real;
    assert Share(k, limit - 1) * last == 1.0 && Share(k, 0) * first == 1.0;
    Crosswise(Share(k, limit - 1), last, Share(k, 0), first);
  }

  lemma Crosswise(x: real, p: real, y: real, q: real)
    requires x * p == 1.0 && y * q == 1.0 && p > 0.0 && q > 0.0
    ensures 2.0 * x > y <==> 2.0 * q > p
  {
    assert x > 0.0 && y > 0.0;
    assert (2.0 * x - y) * (p * q) == 2.0 * q * (x * p) - p * (y * q);
    assert p * q > 0.0;
  }

  /** Beyond that: last in both lists against first in one. */
  lemma LastTwiceLoses(k: nat, limit: nat)
    requires limit >= k + 2
    ensures !BothFirst(k, limit)
  {
    hide *;
    var n := limit - 1;
    var both := Found("both", "", 0.0);
    FillersDiffer(n);
    LosesBetween(Filler(0, n) + [both], Filler(n, n) + [both], "both", k, n);
  }

  lemma LosesBetween(keyword: seq<Found>, semantic: seq<Found>, a: string, k: nat, n: nat)
    requires Lists(keyword, semantic, n + 1) && n >= k + 1 && n < |keyword| && n < |semantic|
    requires keyword[n].id == semantic[n].id == a && !In(semantic, keyword[0].id)
    ensures !BothFirst(k, n + 1)
  {
    hide Share, Hits, Score, BothFirst;
    LastInBoth(keyword, semantic, k, n);
    FirstInOne(keyword, semantic, n + 1, k, keyword[0].id);
    TwoLastBeatOneFirst(k, n + 1);
    NotBothFirst(keyword, semantic, a, keyword[0].id, k, n + 1);
  }

  lemma NotBothFirst(keyword: seq<Found>, semantic: seq<Found>, a: string, b: string, k: nat, limit: nat)
    requires Lists(keyword, semantic, limit) && In(keyword, a) && In(semantic, a) && !In(semantic, b)
    requires Score(Hits(keyword) + Hits(semantic), a, k) <= Score(Hits(keyword) + Hits(semantic), b, k)
    ensures !BothFirst(k, limit)
  {
    hide Hits, Lists, Score, In;
  }

  lemma LastInBoth(keyword: seq<Found>, semantic: seq<Found>, k: nat, n: nat)
    requires DistinctIds(keyword) && DistinctIds(semantic)
    requires n < |keyword| && n < |semantic| && keyword[n].id == semantic[n].id
    ensures Score(Hits(keyword) + Hits(semantic), keyword[n].id, k) == 2.0 * Share(k, n)
  {
    ScoreAdds(Hits(keyword), Hits(semantic), keyword[n].id, k);
    ListScore(keyword, n, k);
    ListScore(semantic, n, k);
  }

  lemma FirstInOne(keyword: seq<Found>, semantic: seq<Found>, limit: nat, k: nat, b: string)
    requires Lists(keyword, semantic, limit) && limit >= 1 && keyword != [] && keyword[0].id == b && !In(semantic, b)
    ensures Score(Hits(keyword) + Hits(semantic), b, k) == Share(k, 0)
  {
    ScoreAdds(Hits(keyword), Hits(semantic), b, k);
    ListScore(keyword, 0, k);
    OneScore(semantic, limit, b, k);
  }

  lemma FillersDiffer(n: nat)
    requires n >= 1
    ensures var both := Found("both", "", 0.0);
      var keyword, semantic := Filler(0, n) + [both], Filler(n, n) + [both];
      && Lists(keyword, semantic, n + 1) && keyword[n].id == "both" && semantic[n].id == "both"
      && !In(semantic, keyword[0].id)
  {
  }

  /** `n` chunks with distinct ids, told apart by length. */
  function Filler(from: nat, n: nat): (list: seq<Found>)
    ensures |list| == n
    ensures forall i | 0 <= i < n :: |list[i].id| == from + i && list[i].id != "both"
  {
    if n == 0 then [] else Filler(from, n - 1) + [Found(Name(from + n - 1), "", 0.0)]
  }

  function Name(n: nat): (name: string)
    ensures |name| == n && name != "both"
  {
    var name := seq(n, _ => 'x');
    assert "both"[0] == 'b' && (n > 0 ==> name[0] == 'x');
    name
  }
}
