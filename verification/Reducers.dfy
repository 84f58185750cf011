/** The deterministic text reducers, and the compression that chains them. */
module Reducers {
  import opened Text

  // -------------------------------------------------------- splitting into lines

  lemma {:induction false} IndexOfChar(s: string, c: char, i: nat)
    requires i <= |s| && (forall k | 0 <= k < i :: s[k] != c) && (i < |s| ==> s[i] == c)
    ensures IndexOf(s, [c]) == i
  {
    if i > 0 {
      assert s[0] != c;
      assert forall k | 0 <= k < i - 1 :: s[1..][k] == s[k + 1];
      IndexOfChar(s[1..], c, i - 1);
    }
  }

  lemma FirstOf(s: string, c: char) returns (i: nat)
    ensures i <= |s| && (forall k | 0 <= k < i :: s[k] != c) && (i < |s| ==> s[i] == c)
    ensures IndexOf(s, [c]) == i
  {
    i := 0;
    while i < |s| && s[i] != c
      invariant i <= |s| && forall k | 0 <= k < i :: s[k] != c
    {
      i := i + 1;
    }
    IndexOfChar(s, c, i);
  }

  predicate OneLine(line: string) {
    '\n' !in line
  }

  predicate AreLines(lines: seq<string>) {
    lines != [] && forall i | 0 <= i < |lines| :: OneLine(lines[i])
  }

  lemma {:induction false} SplitIsLines(s: string)
    ensures AreLines(Split(s, "\n"))
    decreases |s|
  {
    var i := FirstOf(s, '\n');
    hide IndexOf;
    if i < |s| {
      SplitIsLines(s[i + 1..]);
      assert OneLine(s[..i]);
    }
  }

  /** Joining lines and splitting them again is nothing. */
  lemma {:induction false} SplitOfJoin(lines: seq<string>)
    requires AreLines(lines)
    ensures Split(Join(lines, "\n"), "\n") == lines
  {
    var first := lines[0];
    if |lines| == 1 {
      IndexOfChar(first, '\n', |first|);
    } else {
      var rest := Join(lines[1..], "\n");
      var s := first + "\n" + rest;
      SplitOfJoin(lines[1..]);
      assert s[..|first|] == first && s[|first| + 1..] == rest && s[|first|] == '\n';
      IndexOfChar(s, '\n', |first|);
      hide IndexOf;
    }
  }

  // ------------------------------------------------------------------- dedup

  predicate HasKey(lines: seq<string>, key: string) {
    exists i | 0 <= i < |lines| :: Strip(lines[i]) == key
  }

  /** The lines that stay: blank ones, and the first of every key. */
  function Kept(lines: seq<string>): seq<string> {
    if lines == [] then []
    else
      var n := |lines| - 1;
      var key := Strip(lines[n]);
      if key != "" && HasKey(lines[..n], key) then Kept(lines[..n]) else Kept(lines[..n]) + [lines[n]]
  }

  function Dedup(text: string): string {
    Join(Kept(Split(text, "\n")), "\n")
  }

  method DedupLines(text: string) returns (r: string)
    ensures r == Dedup(text)
  {
    hide Strip, Join, Split;
    var lines := Split(text, "\n");
    var seen: set<string> := {};
    var kept: seq<string> := [];
    for i := 0 to |lines|
      invariant kept == Kept(lines[..i])
      invariant forall key :: key in seen <==> key != "" && HasKey(lines[..i], key)
    {
      var key := Strip(lines[i]);
      KeysTurn(lines, i);
      if key != "" && key in seen {
        continue;
      }
      if key != "" {
        seen := seen + {key};
      }
      kept := kept + [lines[i]];
    }
    assert lines[..|lines|] == lines;
    r := Join(kept, "\n");
  }

  lemma KeysTurn(lines: seq<string>, i: nat)
    requires i < |lines|
    ensures lines[..i + 1][..i] == lines[..i]
    ensures forall key :: HasKey(lines[..i + 1], key) <==> HasKey(lines[..i], key) || Strip(lines[i]) == key
  {
    hide Strip;
    var more := lines[..i + 1];
    assert forall k | 0 <= k < i :: more[k] == lines[..i][k];
    assert more[i] == lines[i];
  }

  /** No line before line `i` has its key, or the line is blank. */
  predicate IsFirst(lines: seq<string>, i: nat)
    requires i < |lines|
  {
    Strip(lines[i]) == "" || forall j | 0 <= j < i :: Strip(lines[j]) != Strip(lines[i])
  }

  /** `kept` are the lines at the places `at`, in order, and those are the places of such lines. */
  ghost predicate KeptAt(lines: seq<string>, kept: seq<string>, at: seq<nat>) {
    && |at| == |kept| && (forall k | 0 <= k < |at| :: at[k] < |lines| && kept[k] == lines[at[k]])
    && (forall j, k | 0 <= j < k < |at| :: at[j] < at[k])
    && (forall i: nat | i < |lines| :: i in at <==> IsFirst(lines, i))
  }

  /** A line stays exactly when it is blank or the first with its key; and those that stay, stay in
      order. */
  lemma {:induction false} KeptAre(lines: seq<string>) returns (at: seq<nat>)
    ensures KeptAt(lines, Kept(lines), at)
  {
    hide Strip, KeptAt;
    if lines == [] {
      at := [];
      NoneKept();
    } else {
      var n := |lines| - 1;
      var before := KeptAre(lines[..n]);
      at := if Strip(lines[n]) != "" && HasKey(lines[..n], Strip(lines[n])) then before else before + [n];
      KeptOneMore(lines, Kept(lines[..n]), before);
    }
  }

  lemma NoneKept()
    ensures KeptAt([], Kept([]), [])
  {
  }

  lemma KeptOneMore(lines: seq<string>, kept: seq<string>, at: seq<nat>)
    requires lines != [] && KeptAt(lines[..|lines| - 1], kept, at)
    ensures var n := |lines| - 1;
      if Strip(lines[n]) != "" && HasKey(lines[..n], Strip(lines[n])) then KeptAt(lines, kept, at)
      else KeptAt(lines, kept + [lines[n]], at + [n])
  {
    hide Strip;
    var n := |lines| - 1;
    var front := lines[..n];
    assert forall i | 0 <= i < n :: front[i] == lines[i];
    forall i: nat | i < n ensures IsFirst(lines, i) == IsFirst(front, i) {
      assert forall j | 0 <= j < i :: front[j] == lines[j];
    }
    if HasKey(front, Strip(lines[n])) {
      var j :| 0 <= j < n && Strip(front[j]) == Strip(lines[n]);
      assert Strip(lines[j]) == Strip(lines[n]);
    } else {
      forall j | 0 <= j < n ensures Strip(lines[j]) != Strip(lines[n]) {
        assert Strip(front[j]) == Strip(lines[j]);
      }
    }
    assert n !in at;
    assert forall i: nat | i < n :: i in at + [n] <==> i in at;
  }

  /** Every key that was there is there still. */
  lemma {:induction false} KeptHasKeys(lines: seq<string>, key: string)
    ensures HasKey(Kept(lines), key) <==> HasKey(lines, key)
  {
    hide Strip;
    if lines != [] {
      var n := |lines| - 1;
      KeptHasKeys(lines[..n], key);
      assert lines == lines[..n] + [lines[n]];
      KeyOfLonger(lines[..n], lines[n], key);
      KeyOfLonger(Kept(lines[..n]), lines[n], key);
    }
  }

  lemma KeyOfLonger(lines: seq<string>, line: string, key: string)
    ensures HasKey(lines + [line], key) <==> HasKey(lines, key) || Strip(line) == key
  {
    hide Strip;
    assert (lines + [line])[|lines|] == line && forall i | 0 <= i < |lines| :: (lines + [line])[i] == lines[i];
  }

  /** No two lines left have the same key, unless it is blank. */
  ghost predicate UniqueLines(lines: seq<string>) {
    forall i, j | 0 <= i < j < |lines| && Strip(lines[i]) == Strip(lines[j]) :: Strip(lines[i]) == ""
  }

  lemma {:induction false} KeptIsUnique(lines: seq<string>)
    ensures UniqueLines(Kept(lines))
  {
    hide Strip;
    if lines != [] {
      var n := |lines| - 1;
      var front := Kept(lines[..n]);
      KeptIsUnique(lines[..n]);
      KeptHasKeys(lines[..n], Strip(lines[n]));
      if Kept(lines) != front {
        forall i | 0 <= i < |front| && Strip(front[i]) == Strip(lines[n]) ensures Strip(front[i]) == "" {
          assert HasKey(front, Strip(front[i]));
        }
      }
    }
  }

  /** Where nothing repeats, everything stays; and otherwise something goes. */
  lemma {:induction false} KeptAllIffUnique(lines: seq<string>)
    ensures Kept(lines) == lines <==> UniqueLines(lines)
    ensures |Kept(lines)| <= |lines|
  {
    hide Strip;
    if lines != [] {
      var n := |lines| - 1;
      var front := lines[..n];
      KeptAllIffUnique(front);
      assert lines == front + [lines[n]];
      KeptIsUnique(lines);
      if UniqueLines(lines) {
        assert forall i | 0 <= i < n :: lines[i] == front[i];
        assert UniqueLines(front);
        if HasKey(front, Strip(lines[n])) {
          var i :| 0 <= i < n && Strip(front[i]) == Strip(lines[n]);
          assert Strip(lines[i]) == Strip(lines[n]);
        }
      }
    }
  }

  lemma {:induction false} KeptAreLines(lines: seq<string>)
    requires AreLines(lines)
    ensures AreLines(Kept(lines))
  {
    hide Strip;
    var n := |lines| - 1;
    if n > 0 {
      KeptAreLines(lines[..n]);
    } else {
      assert lines[..n] == [];
    }
  }

  /** A second pass changes nothing. */
  lemma DedupIsIdempotent(text: string)
    ensures Dedup(Dedup(text)) == Dedup(text)
  {
    var kept := Kept(Split(text, "\n"));
    SplitIsLines(text);
    KeptAreLines(Split(text, "\n"));
    SplitOfJoin(kept);
    KeptIsUnique(Split(text, "\n"));
    KeptAllIffUnique(kept);
  }
}
