/** What folding does to the lines of a text: each has its blanks collapsed and its end trimmed, and the
    paragraphs they form are the same, with one blank line between two of them. */
module FoldedLines {
  import opened Text
  import opened Chunker
  import opened Reducers
  import opened Folding
  import opened NormalText

  /** Maximal runs of non-empty lines. */
  function Paras(lines: seq<string>): (ps: seq<seq<string>>)
    ensures lines != [] && lines[0] != "" ==> ps != [] && ps[0] != []
  {
    if lines == [] then []
    else if lines[0] == "" then Paras(lines[1..])
    else if |lines| == 1 || lines[1] == "" then [[lines[0]]] + Paras(lines[1..])
    else var ps := Paras(lines[1..]); [[lines[0]] + ps[0]] + ps[1..]
  }

  // ---------------------------------------------------------- collapsing by lines

  function CollapseAll(lines: seq<string>): (r: seq<string>)
    ensures |r| == |lines| && forall k | 0 <= k < |lines| :: r[k] == Collapse(lines[k])
  {
    if lines == [] then [] else [Collapse(lines[0])] + CollapseAll(lines[1..])
  }

  lemma {:induction false} CollapseBreak(a: string, b: string)
    ensures Collapse(a + "\n" + b) == Collapse(a) + "\n" + Collapse(b)
  {
    if a == "" {
      assert a + "\n" + b == "\n" + b && ("\n" + b)[1..] == b;
    } else {
      var s := a + "\n" + b;
      assert s[1..] == a[1..] + "\n" + b;
      CollapseBreak(a[1..], b);
      assert s[1] == if |a| > 1 then a[1] else '\n';
    }
  }

  lemma {:induction false} CollapseIsOneLine(line: string)
    requires OneLine(line)
    ensures OneLine(Collapse(line))
  {
    if line != "" {
      assert line[0] in line && forall c | c in line[1..] :: c in line;
      CollapseIsOneLine(line[1..]);
    }
  }

  lemma {:induction false} CollapsedLines(s: string)
    ensures Split(Collapse(s), "\n") == CollapseAll(Split(s, "\n"))
    decreases |s|
  {
    var i := FirstOf(s, '\n');
    hide Collapse;
    if i == |s| {
      CollapseIsOneLine(s);
      OneLineAlone(Collapse(s));
    } else {
      var a, b := s[..i], s[i + 1..];
      assert s == a + "\n" + b;
      CollapsedLines(b);
      SplitNext(s, "\n", i);
      CollapseBreak(a, b);
      CollapseIsOneLine(a);
      LinesConcat(Collapse(a), Collapse(b));
      OneLineAlone(Collapse(a));
    }
  }

  lemma OneLineAlone(line: string)
    requires OneLine(line)
    ensures Split(line, "\n") == [line]
  {
    assert AreLines([line]);
    SplitOfJoin([line]);
  }

  // ------------------------------------------------------------ squeezing the gaps

  lemma LinesPush(c: char, t: string)
    ensures Split(t, "\n") != []
    ensures var lines := Split(t, "\n");
      Split([c] + t, "\n") == if c == '\n' then [""] + lines else [[c] + lines[0]] + lines[1..]
  {
    var lines := Split(t, "\n");
    if c == '\n' {
      OneLineAlone("");
      LinesConcat("", t);
      assert "" + "\n" + t == [c] + t;
    } else {
      SplitIsLines(t);
      JoinOfSplit(t, "\n");
      hide Split;
      PushOnFirst(c, lines);
      SplitOfJoin([[c] + lines[0]] + lines[1..]);
    }
  }

  lemma PushOnFirst(c: char, lines: seq<string>)
    requires AreLines(lines) && c != '\n'
    ensures Join([[c] + lines[0]] + lines[1..], "\n") == [c] + Join(lines, "\n")
    ensures AreLines([[c] + lines[0]] + lines[1..])
  {
    var pushed := [[c] + lines[0]] + lines[1..];
    assert forall k | 0 < k < |lines| :: pushed[k] == lines[k];
    assert OneLine(lines[0]);
    if |lines| > 1 {
      JoinCons(lines[0], lines[1..], "\n");
      JoinCons([c] + lines[0], lines[1..], "\n");
      assert lines == [lines[0]] + lines[1..];
      hide Join;
      Associative([c], lines[0], "\n");
      Associative([c], lines[0] + "\n", Join(lines[1..], "\n"));
    }
  }

  /** Alike at the start and in their paragraphs, and `b` has no line further down that `a` has not. */
  ghost predicate Alike(a: seq<string>, b: seq<string>) {
    && a != [] && b != [] && a[0] == b[0]
    && (|a| > 1 <==> |b| > 1) && (|a| > 1 ==> (a[1] == "" <==> b[1] == ""))
    && Paras(a[1..]) == Paras(b[1..])
    && (forall x | x in b[1..] :: x in a[1..])
  }

  lemma AlikeParas(a: seq<string>, b: seq<string>)
    requires Alike(a, b)
    ensures Paras(a) == Paras(b) && forall x | x in b :: x in a
  {
    assert a == [a[0]] + a[1..] && b == [b[0]] + b[1..];
  }

  lemma AlikePush(c: char, a: seq<string>, b: seq<string>)
    requires Alike(a, b)
    ensures c == '\n' ==> Alike([""] + a, [""] + b)
    ensures c != '\n' ==> Alike([[c] + a[0]] + a[1..], [[c] + b[0]] + b[1..])
    ensures a[0] == "" && |a| > 1 && a[1] == "" ==> Alike([""] + a, b)
  {
    AlikeParas(a, b);
    hide Paras;
    assert ([""] + a)[1..] == a && ([""] + b)[1..] == b;
    assert ([[c] + a[0]] + a[1..])[1..] == a[1..] && ([[c] + b[0]] + b[1..])[1..] == b[1..];
    assert a == [a[0]] + a[1..];
    if a[0] == "" {
      ParasOfEmptyFirst(a);
    }
  }

  lemma ParasOfEmptyFirst(lines: seq<string>)
    requires lines != [] && lines[0] == ""
    ensures Paras(lines) == Paras(lines[1..])
  {
  }

  lemma {:induction false} SqueezeIsAlike(s: string)
    ensures Alike(Split(s, "\n"), Split(Squeeze(s), "\n"))
  {
    if s == "" {
      OneLineAlone("");
    } else {
      var c, t := s[0], s[1..];
      assert s == [c] + t;
      SqueezeIsAlike(t);
      SqueezeTurn(s);
      LinesPush(c, t);
      LinesPush(c, Squeeze(t));
      AlikePush(c, Split(t, "\n"), Split(Squeeze(t), "\n"));
      if Starts(s, 3) {
        assert t == ['\n'] + (['\n'] + t[2..]);
        LinesPush('\n', ['\n'] + t[2..]);
        LinesPush('\n', t[2..]);
      }
      hide *;
    }
  }

  // ------------------------------------------------------------ stripping the ends

  lemma {:induction false} ParasDropFront(lines: seq<string>, from: nat)
    requires from <= |lines| && forall k | 0 <= k < from :: lines[k] == ""
    ensures Paras(lines[from..]) == Paras(lines)
  {
    if from > 0 {
      ParasDropFront(lines[1..], from - 1);
      assert lines[1..][from - 1..] == lines[from..];
    } else {
      assert lines[0..] == lines;
    }
  }

  lemma {:induction false} ParasDropBack(lines: seq<string>, to: nat)
    requires to <= |lines| && forall k | to <= k < |lines| :: lines[k] == ""
    ensures Paras(lines[..to]) == Paras(lines)
  {
    if to == 0 {
      NoParas(lines);
    } else {
      ParasDropBack(lines[1..], to - 1);
      assert lines[..to][1..] == lines[1..][..to - 1];
      if to == 1 && |lines| > 1 {
        assert lines[1] == "";
      }
    }
  }

  lemma {:induction false} NoParas(lines: seq<string>)
    requires forall k | 0 <= k < |lines| :: lines[k] == ""
    ensures Paras(lines) == [] && Paras(lines[..0]) == []
  {
    if lines != [] {
      NoParas(lines[1..]);
    }
  }

  /** Without the indent of the very first line. */
  function Unindented(ps: seq<seq<string>>): seq<seq<string>> {
    if ps == [] || ps[0] == [] then ps else [[LStrip(ps[0][0])] + ps[0][1..]] + ps[1..]
  }

  lemma ParasUnindented(first: string, rest: seq<string>)
    requires first != "" && LStrip(first) != ""
    ensures Paras([LStrip(first)] + rest) == Unindented(Paras([first] + rest))
  {
    ParasCons(first, rest);
    ParasCons(LStrip(first), rest);
    hide *;
    var alone := rest == [] || rest[0] == "";
    var group := if alone then [] else Paras(rest)[0];
    var more := if alone then Paras(rest) else Paras(rest)[1..];
    UnindentedCons(first, group, more);
    if alone {
      assert [first] + group == [first] && [LStrip(first)] + group == [LStrip(first)];
    }
  }

  lemma UnindentedCons(first: string, group: seq<string>, more: seq<seq<string>>)
    ensures Unindented([[first] + group] + more) == [[LStrip(first)] + group] + more
  {
    var ps := [[first] + group] + more;
    hide LStrip;
    assert ps[0] == [first] + group && ps[1..] == more && ps[0][0] == first && ps[0][1..] == group;
  }

  lemma ParasCons(first: string, rest: seq<string>)
    requires first != ""
    ensures rest != [] && rest[0] != "" ==> Paras(rest) != []
    ensures Paras([first] + rest) == if rest == [] || rest[0] == "" then [[first]] + Paras(rest)
                                     else [[first] + Paras(rest)[0]] + Paras(rest)[1..]
  {
    assert ([first] + rest)[1..] == rest;
  }

  lemma StripKeepsParas(lines: seq<string>, text: string)
    requires AreLines(lines) && text == Join(lines, "\n") && forall k | 0 <= k < |lines| :: RStrip(lines[k]) == lines[k]
    ensures Paras(Split(Strip(text), "\n")) == Unindented(Paras(lines))
  {
    hide RStrip, LStrip, Split, Join, Paras;
    LinesAreLines(lines);
    var from, to := StripLines(lines, lines);
    var now := Split(Strip(text), "\n");
    if from == to {
      NoParas(lines);
      OneLineAlone("");
      EmptyParas();
    } else {
      MiddleParas(lines, now, from, to);
    }
  }

  lemma EmptyParas()
    ensures Paras([""]) == []
  {
  }

  lemma MiddleParas(lines: seq<string>, now: seq<string>, from: nat, to: nat)
    requires TrimmedFrom(lines, now, from, to) && forall k | 0 <= k < |lines| :: RStrip(lines[k]) == lines[k]
    ensures Paras(now) == Unindented(Paras(lines))
  {
    TrimmedIs(lines, now, from, to);
    hide *;
    ParasDropBack(lines, to);
    ParasDropFront(lines[..to], from);
    ParasUnindented(lines[from], now[1..]);
  }

  lemma TrimmedIs(lines: seq<string>, now: seq<string>, from: nat, to: nat)
    requires TrimmedFrom(lines, now, from, to) && forall k | 0 <= k < |lines| :: RStrip(lines[k]) == lines[k]
    ensures from < to <= |lines| && now != [] && lines[from] != "" && LStrip(lines[from]) != ""
    ensures now == [LStrip(lines[from])] + now[1..] && lines[..to][from..] == [lines[from]] + now[1..]
    ensures forall k | 0 <= k < from :: lines[..to][k] == ""
    ensures forall k | to <= k < |lines| :: lines[k] == ""
  {
    hide RStrip, LStrip;
  }

  // --------------------------------------------------------------- main result

  /** The paragraphs of a folded text are those of the text with the blanks of every line collapsed and
      its end trimmed, less the indent of the very first line. (How they are spaced is `Folded`.) */
  lemma FoldKeepsParagraphs(text: string) returns (lines: seq<string>)
    ensures |lines| == |Split(text, "\n")|
    ensures forall k | 0 <= k < |lines| :: lines[k] == RStrip(Collapse(Split(text, "\n")[k]))
    ensures Paras(Split(Fold(text), "\n")) == Unindented(Paras(lines))
  {
    hide *;
    var collapsed := Split(Collapse(text), "\n");
    lines := RStripAll(collapsed);
    CollapsedLines(text);
    RStripAllAt(collapsed);
    SplitIsLines(Collapse(text));
    LinesAreLines(collapsed);
    TrimmedAreLines(collapsed, lines);
    AreLinesIf(lines);
    TrimmedTwice(collapsed, lines);
    FoldIs(text);
    SqueezedParas(lines);
  }

  lemma TrimmedTwice(was: seq<string>, lines: seq<string>)
    requires |lines| == |was| && forall k | 0 <= k < |was| :: lines[k] == RStrip(was[k])
    ensures forall k | 0 <= k < |lines| :: RStrip(lines[k]) == lines[k]
  {
    hide RStrip;
    forall k | 0 <= k < |lines| ensures RStrip(lines[k]) == lines[k] {
      RStripTwice(was[k]);
    }
  }

  lemma FoldIs(text: string)
    ensures Fold(text) == Strip(Squeeze(Join(RStripAll(Split(Collapse(text), "\n")), "\n")))
  {
    hide Strip, Squeeze, Join, RStripAll, Split, Collapse;
  }

  /** Squeezing and stripping trimmed lines. */
  lemma SqueezedParas(lines: seq<string>)
    requires AreLines(lines) && forall k | 0 <= k < |lines| :: RStrip(lines[k]) == lines[k]
    ensures Paras(Split(Strip(Squeeze(Join(lines, "\n"))), "\n")) == Unindented(Paras(lines))
  {
    hide *;
    var b := Join(lines, "\n");
    SplitOfJoin(lines);
    SqueezeIsAlike(b);
    var squeezed := Split(Squeeze(b), "\n");
    AlikeParas(lines, squeezed);
    SplitIsLines(Squeeze(b));
    JoinOfSplit(Squeeze(b), "\n");
    forall k | 0 <= k < |squeezed| ensures RStrip(squeezed[k]) == squeezed[k] {
      assert squeezed[k] in lines;
    }
    StripKeepsParas(squeezed, Squeeze(b));
  }

  lemma AreLinesIf(lines: seq<string>)
    requires lines != [] && forall k | 0 <= k < |lines| :: OneLine(lines[k])
    ensures AreLines(lines)
  {
  }
}
