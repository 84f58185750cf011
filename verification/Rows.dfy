/** Ordered, limited selection over a table: the `ORDER BY key LIMIT n` of a query.
    Rows with equal keys may come back in any order, as SQL allows. */
module Rows {

  ghost predicate Distinct<T>(s: seq<T>) {
    forall i, j | 0 <= i < j < |s| :: s[i] != s[j]
  }

  function Elements<T>(s: seq<T>): set<T> {
    set x | x in s
  }

  /** `sel` is one possible answer to "the first `limit` of `rows` by `key`". */
  ghost predicate FirstBy(sel: seq<nat>, rows: set<nat>, key: map<nat, int>, limit: nat)
    requires rows <= key.Keys
  {
    && Distinct(sel)
    && Elements(sel) <= rows
    && |sel| == (if |rows| <= limit then |rows| else limit)
    && (forall i, j | 0 <= i < j < |sel| :: key[sel[i]] <= key[sel[j]])
    && (forall i, r | 0 <= i < |sel| && r in rows && r !in sel :: key[sel[i]] <= key[r])
  }

  lemma {:induction false} DistinctSize<T>(s: seq<T>)
    requires Distinct(s)
    ensures |Elements(s)| == |s|
  {
    if s == [] {
      assert Elements(s) == {};
    } else {
      var front, last := s[..|s| - 1], s[|s| - 1];
      DistinctSize(front);
      assert s == front + [last];
      assert last !in Elements(front);
      assert Elements(s) == Elements(front) + {last};
    }
  }

  lemma {:induction false} HasLeast(rows: set<nat>, key: map<nat, int>)
    requires rows != {} && rows <= key.Keys
    ensures exists m :: m in rows && forall r | r in rows :: key[m] <= key[r]
  {
    var x :| x in rows;
    if rows != {x} {
      var rest := rows - {x};
      assert rows == rest + {x};
      HasLeast(rest, key);
      var m :| m in rest && forall r | r in rest :: key[m] <= key[r];
      var least := if key[x] <= key[m] then x else m;
      assert least in rows && forall r | r in rows :: key[least] <= key[r];
    }
  }

  method SelectFirst(rows: set<nat>, key: map<nat, int>, limit: nat) returns (sel: seq<nat>)
    requires rows <= key.Keys
    ensures FirstBy(sel, rows, key, limit)
  {
    sel := [];
    var rest := rows;
    while |sel| < limit && rest != {}
      invariant rest <= rows && Distinct(sel) && |sel| <= limit
      invariant |sel| + |rest| == |rows|
      invariant forall r :: r in rows <==> r in rest || r in sel
      invariant forall r | r in sel :: r !in rest
      invariant forall i, j | 0 <= i < j < |sel| :: key[sel[i]] <= key[sel[j]]
      invariant forall i, r | 0 <= i < |sel| && r in rest :: key[sel[i]] <= key[r]
      decreases rest
    {
      HasLeast(rest, key);
      var m :| m in rest && forall r | r in rest :: key[m] <= key[r];
      sel := sel + [m];
      rest := rest - {m};
    }
  }

  /** A new uuid: some identifier no row uses yet. */
  lemma {:induction false} FreshIdExists(used: set<nat>)
    ensures exists id: nat :: id !in used
  {
    var bound := UpperBound(used);
    assert bound !in used;
  }

  lemma {:induction false} UpperBound(used: set<nat>) returns (bound: nat)
    ensures forall u | u in used :: u < bound
    decreases used
  {
    if used == {} {
      bound := 0;
    } else {
      var u :| u in used;
      var b := UpperBound(used - {u});
      bound := if u < b then b else u + 1;
      assert forall v | v in used :: v == u || v in used - {u};
    }
  }
}
