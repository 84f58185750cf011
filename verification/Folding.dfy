/** Whitespace folding: what it keeps, what shape it leaves, and that a second pass finds that shape
    already there. */
module Folding {
  import opened Text
  import opened Chunker
  import opened Reducers
  import ChunkerTheorems

  predicate Blank(c: char) {
    c == ' ' || c == '\t'
  }

  /** `[ \t]+` to one ' '. */
  function Collapse(s: string): string {
    if s == "" then ""
    else if !Blank(s[0]) then [s[0]] + Collapse(s[1..])
    else if |s| > 1 && Blank(s[1]) then Collapse(s[1..])
    else " " + Collapse(s[1..])
  }

  /** Line ends trimmed. */
  function TrimLines(s: string): string {
    Join(RStripAll(Split(s, "\n")), "\n")
  }

  /** `\n{3,}` to two newlines. */
  function Squeeze(s: string): string {
    if s == "" then ""
    else if |s| >= 3 && s[..3] == "\n\n\n" then Squeeze(s[1..])
    else [s[0]] + Squeeze(s[1..])
  }

  function Fold(text: string): string {
    Strip(Squeeze(TrimLines(Collapse(text))))
  }

  // ------------------------------------------------------------- words stay

  lemma {:induction false} CollapseKeepsWords(s: string)
    ensures Words(Collapse(s)) == Words(s)
    ensures s != "" ==> Collapse(s) != "" && IsSpace(Collapse(s)[0]) == IsSpace(s[0])
  {
    if s != "" {
      assert s == [s[0]] + s[1..];
      CollapseKeepsWords(s[1..]);
      WordsPush(s[0], s[1..]);
      WordsPush(s[0], Collapse(s[1..]));
      WordsPush(' ', Collapse(s[1..]));
    }
  }

  lemma {:induction false} SqueezeKeepsWords(s: string)
    ensures Words(Squeeze(s)) == Words(s)
    ensures s != "" ==> Squeeze(s) != "" && IsSpace(Squeeze(s)[0]) == IsSpace(s[0])
  {
    if s != "" {
      assert s == [s[0]] + s[1..];
      SqueezeKeepsWords(s[1..]);
      WordsPush(s[0], s[1..]);
      WordsPush(s[0], Squeeze(s[1..]));
      if |s| >= 3 && s[..3] == "\n\n\n" {
        assert s[0] == '\n' && s[1] == '\n';
      }
    }
  }

  // --------------------------------------------------------------- the shape

  /** Two characters that folding leaves side by side. */
  predicate Neat(a: char, b: char) {
    && !(Blank(a) && Blank(b))
    && !(b == '\n' && IsSpace(a) && a != '\n')
  }

  predicate SinglyBlank(s: string) {
    '\t' !in s && forall i | 0 <= i < |s| - 1 :: !(Blank(s[i]) && Blank(s[i + 1]))
  }

  predicate Tidy(s: string) {
    '\t' !in s && forall i | 0 <= i < |s| - 1 :: Neat(s[i], s[i + 1])
  }

  predicate NoGaps(s: string) {
    forall i | 0 <= i < |s| - 2 :: !(s[i] == s[i + 1] == s[i + 2] == '\n')
  }

  predicate InkAtEnds(s: string) {
    s == "" || (!IsSpace(s[0]) && !IsSpace(s[|s| - 1]))
  }

  /** No tab, no two blanks in a row, no whitespace at line ends, no gap of more than one line, no
      whitespace at either end. */
  predicate Folded(s: string) {
    Tidy(s) && NoGaps(s) && InkAtEnds(s)
  }

  lemma {:induction false} CollapseIsSinglyBlank(s: string)
    ensures SinglyBlank(Collapse(s))
    ensures s != "" ==> Collapse(s) != "" && Blank(Collapse(s)[0]) == Blank(s[0])
  {
    if s != "" {
      CollapseIsSinglyBlank(s[1..]);
    }
  }

  lemma {:induction false} CollapseFixes(s: string)
    requires SinglyBlank(s)
    ensures Collapse(s) == s
  {
    if s != "" {
      PartIsSinglyBlank(s, 1, |s|);
      assert s[1..|s|] == s[1..];
      CollapseFixes(s[1..]);
      assert s == [s[0]] + s[1..] && s[0] in s;
      assert |s| > 1 && Blank(s[0]) ==> !Blank(s[1]);
    }
  }

  lemma PartIsSinglyBlank(s: string, from: nat, to: nat)
    requires from <= to <= |s| && SinglyBlank(s)
    ensures SinglyBlank(s[from..to])
  {
    var part := s[from..to];
    forall i | 0 <= i < |part| ensures part[i] == s[from + i] {}
  }

  /** A trimmed line of singly blank text. */
  predicate NeatLine(line: string) {
    OneLine(line) && SinglyBlank(line) && (line == "" || !IsSpace(line[|line| - 1]))
  }

  lemma {:induction false} TrimmedLinesAreNeat(s: string)
    requires SinglyBlank(s)
    ensures var lines := RStripAll(Split(s, "\n")); lines != [] && forall i | 0 <= i < |lines| :: NeatLine(lines[i])
    decreases |s|
  {
    var i := FirstOf(s, '\n');
    hide IndexOf;
    var first := s[..i];
    PartIsSinglyBlank(s, 0, i);
    assert s[0..i] == first;
    TrimmedIsNeat(first);
    if i < |s| {
      PartIsSinglyBlank(s, i + 1, |s|);
      assert s[i + 1..|s|] == s[i + 1..];
      TrimmedLinesAreNeat(s[i + 1..]);
      assert Split(s, "\n") == [first] + Split(s[i + 1..], "\n");
    } else {
      assert Split(s, "\n") == [s] && first == s;
      assert RStripAll([s]) == [RStrip(s)] + RStripAll([]);
    }
  }

  lemma TrimmedIsNeat(line: string)
    requires OneLine(line) && SinglyBlank(line)
    ensures NeatLine(RStrip(line))
  {
    var r := RStrip(line);
    hide RStrip, IsSpace;
    assert r == line[0..|r|];
    PartIsSinglyBlank(line, 0, |r|);
  }

  lemma {:induction false} JoinedLinesAreTidy(lines: seq<string>)
    requires forall i | 0 <= i < |lines| :: NeatLine(lines[i])
    ensures Tidy(Join(lines, "\n"))
  {
    if |lines| == 1 {
      TidyAround(lines[0], "");
    } else if |lines| > 1 {
      JoinedLinesAreTidy(lines[1..]);
      TidyAround(lines[0], Join(lines[1..], "\n"));
    }
  }

  lemma TidyAround(line: string, rest: string)
    requires NeatLine(line) && Tidy(rest)
    ensures Tidy(line) && Tidy(line + "\n" + rest)
  {
    LineIsTidy(line);
    hide NeatLine, SinglyBlank, OneLine;
    BreakIsNeat(rest);
    TidyConcat("\n", rest);
    TidyConcat(line, "\n" + rest);
    assert line + "\n" + rest == line + ("\n" + rest);
  }

  lemma LineIsTidy(line: string)
    requires NeatLine(line)
    ensures Tidy(line) && (line != "" ==> Neat(line[|line| - 1], '\n')) && Tidy("\n")
  {
    hide IsSpace;
    forall i | 0 <= i < |line| - 1 ensures Neat(line[i], line[i + 1]) {
      assert line[i + 1] in line;
    }
  }

  lemma BreakIsNeat(rest: string)
    ensures rest != "" ==> Neat('\n', rest[0])
  {
  }

  lemma TidyConcat(a: string, b: string)
    requires Tidy(a) && Tidy(b) && (a != "" && b != "" ==> Neat(a[|a| - 1], b[0]))
    ensures Tidy(a + b)
  {
    hide IsSpace, Neat;
    var s := a + b;
    forall i | 0 <= i < |s| - 1 ensures Neat(s[i], s[i + 1]) {
      if i + 1 < |a| {
        assert s[i] == a[i] && s[i + 1] == a[i + 1];
      } else if i >= |a| {
        assert s[i] == b[i - |a|] && s[i + 1] == b[i - |a| + 1];
      }
    }
  }

  predicate Starts(s: string, n: nat) {
    |s| >= n && forall i | 0 <= i < n :: s[i] == '\n'
  }

  lemma {:induction false} SqueezeShapes(s: string)
    ensures s != "" ==> Squeeze(s) != "" && Squeeze(s)[0] == s[0]
    ensures Starts(Squeeze(s), 2) <==> Starts(s, 2)
    ensures NoGaps(Squeeze(s))
    ensures Tidy(s) ==> Tidy(Squeeze(s))
  {
    if s != "" {
      var t := Squeeze(s[1..]);
      SqueezeShapes(s[1..]);
      TailIsTidy(s);
      hide IsSpace, Squeeze, Neat;
      SqueezeTurn(s);
      if !Starts(s, 3) {
        assert s == [s[0]] + s[1..];
        PrependGap(s[0], s[1..], t);
        PrependTidy(s[0], s[1..], t);
      }
    }
  }

  lemma SqueezeTurn(s: string)
    requires s != ""
    ensures Squeeze(s) == if Starts(s, 3) then Squeeze(s[1..]) else [s[0]] + Squeeze(s[1..])
    ensures Starts(s, 3) ==> Starts(s[1..], 2) && s[1..][0] == s[0]
  {
    if |s| >= 3 {
      assert s[..3] == [s[0], s[1], s[2]];
      assert s[..3] == "\n\n\n" <==> s[0] == '\n' && s[1] == '\n' && s[2] == '\n';
    }
  }

  lemma TailIsTidy(s: string)
    requires s != ""
    ensures Tidy(s) ==> Tidy(s[1..])
  {
    hide Neat;
    assert forall i | 0 <= i < |s| - 1 :: s[1..][i] == s[i + 1];
  }

  lemma PrependGap(c: char, rest: string, t: string)
    requires (rest != "" ==> t != "" && t[0] == rest[0]) && (rest == "" ==> t == "")
    requires (Starts(t, 2) <==> Starts(rest, 2)) && NoGaps(t)
    requires !Starts([c] + rest, 3)
    ensures NoGaps([c] + t) && (Starts([c] + t, 2) <==> Starts([c] + rest, 2))
  {
    var u := [c] + t;
    StartsLonger(c, t, 2);
    StartsLonger(c, rest, 2);
    StartsLonger(c, t, 1);
    StartsLonger(c, rest, 1);
    forall i | 0 <= i < |u| - 2 ensures !(u[i] == u[i + 1] == u[i + 2] == '\n') {
      if i == 0 {
        assert Starts(u, 3) <==> u[0] == '\n' && u[1] == '\n' && u[2] == '\n';
      } else {
        assert u[i] == t[i - 1] && u[i + 1] == t[i - 1 + 1] && u[i + 2] == t[i - 1 + 2];
      }
    }
  }

  lemma StartsLonger(c: char, s: string, n: nat)
    ensures Starts([c] + s, n + 1) <==> c == '\n' && Starts(s, n)
  {
    var u := [c] + s;
    assert u[0] == c && forall i | 0 <= i < |s| :: u[i + 1] == s[i];
    if Starts(u, n + 1) {
      assert forall i | 0 <= i < n :: s[i] == u[i + 1];
    }
  }

  lemma PrependTidy(c: char, rest: string, t: string)
    requires (rest != "" ==> t != "" && t[0] == rest[0]) && (rest == "" ==> t == "")
    ensures Tidy([c] + rest) && Tidy(t) ==> Tidy([c] + t)
  {
    hide IsSpace, Neat;
    var u, v := [c] + t, [c] + rest;
    if Tidy(v) && Tidy(t) {
      assert v[0] == c && c in v;
      forall i | 0 <= i < |u| - 1 ensures Neat(u[i], u[i + 1]) {
        if i > 0 {
          assert u[i] == t[i - 1] && u[i + 1] == t[i - 1 + 1];
        } else {
          assert v[1] == rest[0] && Neat(v[0], v[0 + 1]);
        }
      }
    }
  }

  lemma {:induction false} SqueezeFixes(s: string)
    requires NoGaps(s)
    ensures Squeeze(s) == s
  {
    if s != "" {
      assert forall i | 0 <= i < |s| - 1 :: s[1..][i] == s[i + 1];
      SqueezeFixes(s[1..]);
      SqueezeTurn(s);
      assert s == [s[0]] + s[1..];
    }
  }

  lemma StripShapes(s: string)
    requires Tidy(s) && NoGaps(s)
    ensures Folded(Strip(s))
  {
    var from, to := StripEnds(s);
    PartIsShaped(s, from, to);
    hide Tidy, NoGaps, InkAtEnds, Strip;
  }

  lemma StripEnds(s: string) returns (from: nat, to: nat)
    ensures from <= to <= |s| && Strip(s) == s[from..to] && InkAtEnds(Strip(s))
  {
    var r := RStrip(s);
    var l := LStrip(r);
    hide RStrip, LStrip, IsSpace;
    from, to := |r| - |l|, |r|;
    assert l != "" ==> l[|l| - 1] == r[|r| - 1];
  }

  lemma PartIsShaped(s: string, from: nat, to: nat)
    requires from <= to <= |s| && Tidy(s) && NoGaps(s)
    ensures Tidy(s[from..to]) && NoGaps(s[from..to])
  {
    hide Neat;
    var part := s[from..to];
    forall i | 0 <= i < |part| ensures part[i] == s[from + i] {}
  }

  lemma StripFixes(s: string)
    requires InkAtEnds(s)
    ensures Strip(s) == s
  {
  }

  lemma {:induction false} TrimFixes(s: string)
    requires Tidy(s) && (s == "" || !IsSpace(s[|s| - 1]))
    ensures RStripAll(Split(s, "\n")) == Split(s, "\n")
    decreases |s|
  {
    var i := FirstOf(s, '\n');
    hide IndexOf;
    if i < |s| {
      var rest := s[i + 1..];
      LineEndIsInk(s, i);
      SuffixIsTidy(s, i + 1);
      TrimFixes(rest);
      assert Split(s, "\n") == [s[..i]] + Split(rest, "\n");
      assert ([s[..i]] + Split(rest, "\n"))[1..] == Split(rest, "\n");
    } else {
      assert RStripAll([s]) == [RStrip(s)] + RStripAll([]);
    }
  }

  lemma LineEndIsInk(s: string, i: nat)
    requires Tidy(s) && i < |s| && s[i] == '\n' && forall k | 0 <= k < i :: s[k] != '\n'
    ensures RStrip(s[..i]) == s[..i]
  {
    hide IsSpace;
    if i > 0 {
      assert Neat(s[i - 1], s[i - 1 + 1]);
      assert s[..i][i - 1] == s[i - 1];
    }
  }

  lemma SuffixIsTidy(s: string, from: nat)
    requires Tidy(s) && from <= |s|
    ensures Tidy(s[from..]) && (s[from..] != "" ==> s[from..][|s[from..]| - 1] == s[|s| - 1])
  {
    hide Neat;
    forall i | 0 <= i < |s| - from ensures s[from..][i] == s[from + i] {}
  }

  // -------------------------------------------------------------- main results

  /** Folding spaces a text differently and changes no word. */
  lemma FoldKeepsWords(text: string)
    ensures Words(Fold(text)) == Words(text)
  {
    var a := Collapse(text);
    var lines := Split(a, "\n");
    var b := TrimLines(a);
    var c := Squeeze(b);
    CollapseKeepsWords(text);
    JoinOfSplit(a, "\n");
    WordsOfJoin(lines, "\n");
    ChunkerTheorems.RStripAllKeeps(lines);
    WordsOfJoin(RStripAll(lines), "\n");
    SqueezeKeepsWords(b);
    WordsOfStrips(c);
    WordsOfStrips(RStrip(c));
  }

  lemma FoldIsFolded(text: string)
    ensures Folded(Fold(text))
  {
    CollapseIsSinglyBlank(text);
    TrimmedLinesAreNeat(Collapse(text));
    hide NeatLine, Folded;
    JoinedLinesAreTidy(RStripAll(Split(Collapse(text), "\n")));
    SqueezeShapes(TrimLines(Collapse(text)));
    StripShapes(Squeeze(TrimLines(Collapse(text))));
  }

  /** Folding leaves exactly the folded texts alone. */
  lemma FoldFixesExactlyTheFolded(text: string)
    ensures Fold(text) == text <==> Folded(text)
  {
    FoldIsFolded(text);
    if Folded(text) {
      TidyIsSinglyBlank(text);
      hide Folded, Tidy, NoGaps, SinglyBlank, Squeeze, Collapse, Strip;
      CollapseFixes(text);
      TrimFixes(text);
      JoinOfSplit(text, "\n");
      SqueezeFixes(text);
      StripFixes(text);
    }
  }

  lemma TidyIsSinglyBlank(s: string)
    requires Folded(s)
    ensures SinglyBlank(s) && Tidy(s) && NoGaps(s) && InkAtEnds(s)
  {
    forall i | 0 <= i < |s| - 1 ensures !(Blank(s[i]) && Blank(s[i + 1])) {
      assert Neat(s[i], s[i + 1]);
    }
  }

  lemma FoldIsIdempotent(text: string)
    ensures Fold(Fold(text)) == Fold(text)
  {
    FoldIsFolded(text);
    FoldFixesExactlyTheFolded(Fold(text));
  }
}
