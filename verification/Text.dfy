/** Python's string operations, as far as the chunker uses them, and two views of a text that
    ignore how it is spaced: its ink (whitespace removed) and its words. */
module Text {

  /** `str.isspace` on one character. */
  predicate IsSpace(c: char) {
    || '\t' <= c <= '\r' || '\U{1C}' <= c <= ' ' || c == '\U{85}' || c == '\U{A0}' || c == '\U{1680}'
    || '\U{2000}' <= c <= '\U{200A}' || c == '\U{2028}' || c == '\U{2029}' || c == '\U{202F}' || c == '\U{205F}'
    || c == '\U{3000}'
  }

  predicate AllSpace(s: string) {
    forall i | 0 <= i < |s| :: IsSpace(s[i])
  }

  function RStrip(s: string): (r: string)
    ensures r <= s && (forall i | |r| <= i < |s| :: IsSpace(s[i])) && (r != "" ==> !IsSpace(r[|r| - 1]))
  {
    if s == "" || !IsSpace(s[|s| - 1]) then s else RStrip(s[..|s| - 1])
  }

  function LStrip(s: string): (r: string)
    ensures |r| <= |s| && r == s[|s| - |r|..]
    ensures (forall i | 0 <= i < |s| - |r| :: IsSpace(s[i])) && (r != "" ==> !IsSpace(r[0]))
  {
    if s == "" || !IsSpace(s[0]) then s else LStrip(s[1..])
  }

  function Strip(s: string): string {
    LStrip(RStrip(s))
  }

  /** Where `sep` first occurs in `s`, or |s| if it does not. */
  function IndexOf(s: string, sep: string): (i: nat)
    ensures i <= |s|
    ensures i < |s| ==> i + |sep| <= |s| && s[i..i + |sep|] == sep
  {
    if s == "" then 0
    else if sep <= s then 0
    else 1 + IndexOf(s[1..], sep)
  }

  /** `s.split(sep)`: the pieces between non-overlapping occurrences, found from the left. */
  function Split(s: string, sep: string): (parts: seq<string>)
    requires sep != ""
    ensures parts != []
    decreases |s|
  {
    var i := IndexOf(s, sep);
    if i == |s| then [s] else [s[..i]] + Split(s[i + |sep|..], sep)
  }

  function Join(parts: seq<string>, sep: string): string {
    if parts == [] then "" else if |parts| == 1 then parts[0] else parts[0] + sep + Join(parts[1..], sep)
  }

  /** `s.rfind(c)`. */
  function RFind(s: string, c: char): (i: int)
    ensures -1 <= i < |s|
    ensures i >= 0 ==> s[i] == c
    ensures forall k | i < k < |s| :: s[k] != c
  {
    if s == "" then -1 else if s[|s| - 1] == c then |s| - 1 else RFind(s[..|s| - 1], c)
  }

  lemma {:induction false} JoinOfSplit(s: string, sep: string)
    requires sep != ""
    ensures Join(Split(s, sep), sep) == s
    decreases |s|
  {
    var i := IndexOf(s, sep);
    if i < |s| {
      var rest := s[i + |sep|..];
      JoinOfSplit(rest, sep);
      JoinCons(s[..i], Split(rest, sep), sep);
      hide IndexOf, Join;
      Reassemble(s, i, i + |sep|);
    }
  }

  predicate OccursAt(s: string, sep: string, k: nat) {
    k + |sep| <= |s| && s[k..k + |sep|] == sep
  }

  /** `sep` is nowhere in `s`. */
  ghost predicate Lacks(s: string, sep: string) {
    forall k: nat :: !OccursAt(s, sep, k)
  }

  lemma {:induction false} IndexOfIsFirst(s: string, sep: string, k: nat)
    requires sep != "" && OccursAt(s, sep, k)
    ensures IndexOf(s, sep) <= k
  {
    if k > 0 && !(sep <= s) {
      assert s[1..][k - 1..k - 1 + |sep|] == s[k..k + |sep|];
      IndexOfIsFirst(s[1..], sep, k - 1);
    }
  }

  lemma LacksBefore(s: string, sep: string)
    requires sep != ""
    ensures Lacks(s[..IndexOf(s, sep)], sep)
  {
    var i := IndexOf(s, sep);
    forall k: nat ensures !OccursAt(s[..i], sep, k) {
      if OccursAt(s[..i], sep, k) {
        assert s[..i][k..k + |sep|] == s[k..k + |sep|];
        IndexOfIsFirst(s, sep, k);
      }
    }
  }

  /** No piece of a split holds the separator, and joining them again is the text. */
  lemma {:induction false} SplitLeavesNone(s: string, sep: string)
    requires sep != ""
    ensures (forall p | p in Split(s, sep) :: Lacks(p, sep)) && Join(Split(s, sep), sep) == s
    decreases |s|
  {
    var i := IndexOf(s, sep);
    JoinOfSplit(s, sep);
    LacksBefore(s, sep);
    assert s[..|s|] == s;
    if i < |s| {
      SplitLeavesNone(s[i + |sep|..], sep);
    }
  }

  lemma JoinCons(first: string, rest: seq<string>, sep: string)
    requires rest != []
    ensures Join([first] + rest, sep) == first + sep + Join(rest, sep)
  {
    assert ([first] + rest)[1..] == rest;
  }

  lemma Reassemble(s: string, i: nat, j: nat)
    requires i <= j <= |s|
    ensures s[..i] + s[i..j] + s[j..] == s
  {
  }

  // -------------------------------------------------------------------- ink

  function Ink(s: string): string {
    if s == "" then "" else if IsSpace(s[0]) then Ink(s[1..]) else [s[0]] + Ink(s[1..])
  }

  function InkOf(parts: seq<string>): string {
    if parts == [] then "" else Ink(parts[0]) + InkOf(parts[1..])
  }

  lemma {:induction false} InkConcat(a: string, b: string)
    ensures Ink(a + b) == Ink(a) + Ink(b)
  {
    if a == "" {
      assert a + b == b;
    } else {
      assert (a + b)[1..] == a[1..] + b;
      InkConcat(a[1..], b);
    }
  }

  lemma {:induction false} NoInk(s: string)
    ensures Ink(s) == "" <==> AllSpace(s)
  {
    if s != "" {
      NoInk(s[1..]);
      assert AllSpace(s) <==> IsSpace(s[0]) && AllSpace(s[1..]) by {
        assert s == [s[0]] + s[1..];
      }
    }
  }

  lemma {:induction false} InkOfConcat(a: seq<string>, b: seq<string>)
    ensures InkOf(a + b) == InkOf(a) + InkOf(b)
  {
    if a == [] {
      assert a + b == b;
    } else {
      assert (a + b)[1..] == a[1..] + b;
      InkOfConcat(a[1..], b);
    }
  }

  lemma InkAround(a: string, sep: string, b: string)
    requires AllSpace(sep)
    ensures Ink(a + sep + b) == Ink(a) + Ink(b)
  {
    NoInk(sep);
    InkConcat(a, sep);
    InkConcat(a + sep, b);
  }

  lemma {:induction false} InkOfJoin(parts: seq<string>, sep: string)
    requires AllSpace(sep)
    ensures Ink(Join(parts, sep)) == InkOf(parts)
  {
    if |parts| > 1 {
      InkOfJoin(parts[1..], sep);
      InkAround(parts[0], sep, Join(parts[1..], sep));
    }
  }

  lemma InkOfStrips(s: string)
    ensures Ink(RStrip(s)) == Ink(s) && Ink(LStrip(s)) == Ink(s)
  {
    var tail, head := Stripped(s);
    InkConcat(RStrip(s), tail);
    NoInk(tail);
    InkConcat(head, LStrip(s));
    NoInk(head);
  }

  /** What the two strips take away. */
  lemma Stripped(s: string) returns (tail: string, head: string)
    ensures s == RStrip(s) + tail && AllSpace(tail) && s == head + LStrip(s) && AllSpace(head)
  {
    hide RStrip, LStrip, IsSpace;
    var r, l := RStrip(s), LStrip(s);
    tail, head := s[|r|..], s[..|s| - |l|];
    assert s == r + tail;
    assert s == head + l;
  }

  // ------------------------------------------------------------------ words

  /** `s.split()`: the maximal runs of non-whitespace. */
  function Words(s: string): (ws: seq<string>)
    ensures s != "" && !IsSpace(s[0]) ==> ws != []
  {
    if s == "" then []
    else if IsSpace(s[0]) then Words(s[1..])
    else if |s| == 1 || IsSpace(s[1]) then [[s[0]]] + Words(s[1..])
    else var ws := Words(s[1..]); [[s[0]] + ws[0]] + ws[1..]
  }

  function WordsOf(parts: seq<string>): seq<string> {
    if parts == [] then [] else Words(parts[0]) + WordsOf(parts[1..])
  }

  /** Whether putting `a` and `b` side by side runs a word of one into a word of the other. */
  predicate Fuses(a: string, b: string) {
    a != "" && b != "" && !IsSpace(a[|a| - 1]) && !IsSpace(b[0])
  }

  /** Words after one more character in front. */
  function Push(c: char, rest: string, ws: seq<string>): seq<string>
    requires rest != "" && !IsSpace(rest[0]) ==> ws != []
  {
    if IsSpace(c) then ws
    else if rest == "" || IsSpace(rest[0]) then [[c]] + ws
    else [[c] + ws[0]] + ws[1..]
  }

  lemma WordsPush(c: char, rest: string)
    ensures Words([c] + rest) == Push(c, rest, Words(rest))
  {
    assert ([c] + rest)[1..] == rest;
  }

  lemma {:induction false} WordsConcat(a: string, b: string)
    ensures !Fuses(a, b) ==> Words(a + b) == Words(a) + Words(b)
    ensures Fuses(a, b) ==> |Words(a + b)| + 1 == |Words(a)| + |Words(b)|
  {
    if a == "" {
      assert a + b == b;
    } else {
      var c, rest := a[0], a[1..];
      assert a == [c] + rest && a + b == [c] + (rest + b);
      WordsPush(c, rest);
      WordsPush(c, rest + b);
      WordsConcat(rest, b);
      PushOnto(c, rest, b, Words(rest), Words(b), Words(rest + b));
    }
  }

  lemma PushOnto(c: char, rest: string, b: string, wr: seq<string>, wb: seq<string>, w: seq<string>)
    requires rest != "" && !IsSpace(rest[0]) ==> wr != []
    requires b != "" && !IsSpace(b[0]) ==> wb != []
    requires rest == "" ==> wr == [] && w == wb
    requires !Fuses(rest, b) ==> w == wr + wb
    requires Fuses(rest, b) ==> |w| + 1 == |wr| + |wb|
    requires rest + b != "" && !IsSpace((rest + b)[0]) ==> w != []
    ensures !Fuses([c] + rest, b) ==> Push(c, rest + b, w) == Push(c, rest, wr) + wb
    ensures Fuses([c] + rest, b) ==> |Push(c, rest + b, w)| + 1 == |Push(c, rest, wr)| + |wb|
  {
    hide IsSpace;
    if rest == "" {
      assert rest + b == b && ([c] + rest)[|rest|] == c;
    } else {
      assert (rest + b)[0] == rest[0] && ([c] + rest)[|rest|] == rest[|rest| - 1];
      if !IsSpace(c) && !IsSpace(rest[0]) && !Fuses(rest, b) {
        assert (wr + wb)[0] == wr[0] && (wr + wb)[1..] == wr[1..] + wb;
      }
    }
  }

  lemma {:induction false} NoWords(s: string)
    requires AllSpace(s)
    ensures Words(s) == []
  {
    if s != "" {
      NoWords(s[1..]);
    }
  }

  lemma {:induction false} WordsOfConcat(a: seq<string>, b: seq<string>)
    ensures WordsOf(a + b) == WordsOf(a) + WordsOf(b)
  {
    if a == [] {
      assert a + b == b;
    } else {
      assert (a + b)[1..] == a[1..] + b;
      WordsOfConcat(a[1..], b);
    }
  }

  lemma WordsAround(a: string, sep: string, b: string)
    requires sep != "" && AllSpace(sep)
    ensures Words(a + sep + b) == Words(a) + Words(b)
  {
    NoWords(sep);
    WordsConcat(a, sep);
    WordsConcat(a + sep, b);
  }

  lemma {:induction false} WordsOfJoin(parts: seq<string>, sep: string)
    requires sep != "" && AllSpace(sep)
    ensures Words(Join(parts, sep)) == WordsOf(parts)
  {
    if |parts| > 1 {
      WordsOfJoin(parts[1..], sep);
      WordsAround(parts[0], sep, Join(parts[1..], sep));
    }
  }

  lemma WordsOfStrips(s: string)
    ensures Words(RStrip(s)) == Words(s) && Words(LStrip(s)) == Words(s)
  {
    var tail, head := Stripped(s);
    hide RStrip, LStrip, Words;
    WordsBesideSpace(RStrip(s), tail);
    WordsBesideSpace(head, LStrip(s));
  }

  lemma WordsBesideSpace(a: string, b: string)
    ensures AllSpace(b) ==> Words(a + b) == Words(a)
    ensures AllSpace(a) ==> Words(a + b) == Words(b)
  {
    WordsConcat(a, b);
    if AllSpace(b) {
      NoWords(b);
    }
    if AllSpace(a) {
      NoWords(a);
    }
  }
}
