/** What normalizing does to the lines of a body, and what chunking keeps of its paragraphs. */
module NormalText {
  import opened Text
  import opened Chunker
  import opened Reducers
  import opened ChunkerTheorems
  import opened GreedyMerge

  // ------------------------------------------------------------------- strips

  lemma {:induction false} RStripSpace(s: string, tail: string)
    requires AllSpace(tail)
    ensures RStrip(s + tail) == RStrip(s)
  {
    if tail == "" {
      assert s + tail == s;
    } else {
      var n := |tail| - 1;
      assert (s + tail)[..|s| + n] == s + tail[..n];
      RStripSpace(s, tail[..n]);
    }
  }

  lemma {:induction false} LStripSpace(head: string, s: string)
    requires AllSpace(head)
    ensures LStrip(head + s) == LStrip(s)
  {
    if head == "" {
      assert head + s == s;
    } else {
      assert (head + s)[1..] == head[1..] + s;
      LStripSpace(head[1..], s);
    }
  }

  lemma RStripInk(s: string, t: string)
    requires t != "" && !IsSpace(t[|t| - 1])
    ensures RStrip(s + t) == s + t
  {
  }

  lemma {:induction false} LStripInk(s: string, t: string)
    requires LStrip(s) != ""
    ensures LStrip(s + t) == LStrip(s) + t
  {
    hide IsSpace;
    assert (s + t)[0] == s[0] && (s + t)[1..] == s[1..] + t;
    if IsSpace(s[0]) {
      LStripInk(s[1..], t);
    }
  }

  lemma RStripTwice(s: string)
    ensures RStrip(RStrip(s)) == RStrip(s)
  {
  }

  // -------------------------------------------------------------------- lines

  /** Right-stripped: empty, or ending in ink. */
  predicate Trimmed(line: string) {
    line == "" || !IsSpace(line[|line| - 1])
  }

  lemma {:induction false} JoinConcat(a: seq<string>, b: seq<string>, sep: string)
    requires a != [] && b != []
    ensures Join(a + b, sep) == Join(a, sep) + sep + Join(b, sep)
  {
    if |a| == 1 {
      assert (a + b)[1..] == b;
    } else {
      assert (a + b)[1..] == a[1..] + b;
      JoinConcat(a[1..], b, sep);
    }
  }

  /** The lines of two texts with a line break between them. */
  lemma LinesConcat(a: string, b: string)
    ensures Split(a + "\n" + b, "\n") == Split(a, "\n") + Split(b, "\n")
  {
    SplitIsLines(a);
    SplitIsLines(b);
    JoinOfSplit(a, "\n");
    JoinOfSplit(b, "\n");
    hide Split, Join;
    JoinConcat(Split(a, "\n"), Split(b, "\n"), "\n");
    SplitOfJoin(Split(a, "\n") + Split(b, "\n"));
  }

  /** The lines of a text with more on its last line. */
  lemma LastLineGrows(a: string, more: string)
    requires OneLine(more)
    ensures Split(a, "\n") != []
    ensures var lines := Split(a, "\n"); var n := |lines| - 1;
      Split(a + more, "\n") == lines[..n] + [lines[n] + more]
  {
    hide *;
    SplitIsLines(a);
    JoinOfSplit(a, "\n");
    GrownLines(Split(a, "\n"), more);
    var lines := Split(a, "\n");
    SplitOfJoin(lines[..|lines| - 1] + [lines[|lines| - 1] + more]);
  }

  lemma GrownLines(lines: seq<string>, more: string)
    requires AreLines(lines) && OneLine(more)
    ensures lines != []
    ensures var grown := lines[..|lines| - 1] + [lines[|lines| - 1] + more];
      Join(grown, "\n") == Join(lines, "\n") + more && AreLines(grown)
  {
    var n := |lines| - 1;
    var grown := lines[..n] + [lines[n] + more];
    assert lines == lines[..n] + [lines[n]];
    JoinOne(lines[n], "\n");
    JoinOne(lines[n] + more, "\n");
    hide Join;
    if n > 0 {
      JoinConcat(lines[..n], [lines[n]], "\n");
      JoinConcat(lines[..n], [lines[n] + more], "\n");
      Associative(Join(lines[..n], "\n") + "\n", lines[n], more);
    } else {
      assert grown == [lines[n] + more] && lines == [lines[n]];
    }
    forall k | 0 <= k < |grown| ensures OneLine(grown[k]) {
      assert OneLine(lines[k]);
    }
  }

  lemma Associative(a: string, b: string, c: string)
    ensures (a + b) + c == a + (b + c)
  {
  }

  lemma JoinOne(part: string, sep: string)
    ensures Join([part], sep) == part
  {
  }

  lemma {:induction false} RStripAllAt(lines: seq<string>)
    ensures |RStripAll(lines)| == |lines|
    ensures forall k | 0 <= k < |lines| :: RStripAll(lines)[k] == RStrip(lines[k])
  {
    if lines != [] {
      RStripAllAt(lines[1..]);
    }
  }

  lemma {:induction false} RStripAllConcat(a: seq<string>, b: seq<string>)
    ensures RStripAll(a + b) == RStripAll(a) + RStripAll(b)
  {
    if a == [] {
      assert a + b == b;
    } else {
      assert (a + b)[1..] == a[1..] + b;
      RStripAllConcat(a[1..], b);
    }
  }

  /** Carriage returns before line breaks go with the line ends: replacing them first changes nothing. */
  lemma {:induction false} UnixLines(text: string)
    ensures RStripAll(Split(Join(Split(text, "\r\n"), "\n"), "\n")) == RStripAll(Split(text, "\n"))
    decreases |text|
  {
    var i := IndexOf(text, "\r\n");
    if i == |text| {
      assert Join([text], "\n") == text;
    } else {
      var head, rest := text[..i], text[i + 2..];
      UnixLines(rest);
      SplitNext(text, "\r\n", i);
      hide *;
      Reassembled(text, i);
      JoinCons(head, Split(rest, "\r\n"), "\n");
      UnixStep(head, rest, Join(Split(rest, "\r\n"), "\n"));
    }
  }

  lemma Reassembled(text: string, i: nat)
    requires i + 2 <= |text| && text[i..i + 2] == "\r\n"
    ensures text == (text[..i] + "\r") + "\n" + text[i + 2..]
  {
    assert text == text[..i] + text[i..i + 2] + text[i + 2..];
  }

  lemma UnixStep(head: string, rest: string, unix: string)
    requires RStripAll(Split(unix, "\n")) == RStripAll(Split(rest, "\n"))
    ensures RStripAll(Split(head + "\n" + unix, "\n")) == RStripAll(Split((head + "\r") + "\n" + rest, "\n"))
  {
    hide *;
    LinesConcat(head + "\r", rest);
    LinesConcat(head, unix);
    assert OneLine("\r") by {
      CarriageReturn();
    }
    LastLineGrows(head, "\r");
    SameTrimmed(Split(head, "\n"), Split(head + "\r", "\n"));
    RStripAllConcat(Split(head, "\n"), Split(unix, "\n"));
    RStripAllConcat(Split(head + "\r", "\n"), Split(rest, "\n"));
  }

  lemma CarriageReturn()
    ensures OneLine("\r")
  {
  }

  lemma SplitNext(s: string, sep: string, i: nat)
    requires sep != "" && IndexOf(s, sep) == i < |s|
    ensures i + |sep| <= |s| && s[i..i + |sep|] == sep
    ensures Split(s, sep) == [s[..i]] + Split(s[i + |sep|..], sep)
  {
    hide IndexOf;
  }

  lemma SameTrimmed(lines: seq<string>, grown: seq<string>)
    requires lines != [] && grown == lines[..|lines| - 1] + [lines[|lines| - 1] + "\r"]
    ensures RStripAll(grown) == RStripAll(lines)
  {
    var n := |lines| - 1;
    assert lines == lines[..n] + [lines[n]];
    RStripAllConcat(lines[..n], [lines[n]]);
    RStripAllConcat(lines[..n], [lines[n] + "\r"]);
    RStripSpace(lines[n], "\r");
    hide RStrip;
    assert RStripAll([lines[n]]) == [RStrip(lines[n])] + RStripAll([]);
    assert RStripAll([lines[n] + "\r"]) == [RStrip(lines[n] + "\r")] + RStripAll([]);
  }

  // --------------------------------------------------------- stripping joined lines

  /** Stripping on the right drops the empty lines at the end. */
  lemma {:induction false} RStripLines(lines: seq<string>) returns (to: nat)
    requires forall k | 0 <= k < |lines| :: Trimmed(lines[k])
    ensures to <= |lines| && (to > 0 ==> lines[to - 1] != "") && forall k | to <= k < |lines| :: lines[k] == ""
    ensures RStrip(Join(lines, "\n")) == Join(lines[..to], "\n")
  {
    if lines == [] {
      to := 0;
    } else {
      var n := |lines| - 1;
      assert lines == lines[..n] + [lines[n]];
      if lines[n] != "" {
        to := |lines|;
        assert lines[..to] == lines;
        EndsInInk(lines[..n], lines[n]);
      } else {
        to := RStripLines(lines[..n]);
        assert lines[..n][..to] == lines[..to];
        if n > 0 {
          JoinConcat(lines[..n], [""], "\n");
          assert Join(lines, "\n") == Join(lines[..n], "\n") + "\n";
          RStripSpace(Join(lines[..n], "\n"), "\n");
        }
      }
    }
  }

  lemma EndsInInk(front: seq<string>, last: string)
    requires last != "" && Trimmed(last)
    ensures RStrip(Join(front + [last], "\n")) == Join(front + [last], "\n")
  {
    if front == [] {
      assert front + [last] == [last];
      RStripInk("", last);
      assert "" + last == last;
    } else {
      JoinConcat(front, [last], "\n");
      hide Join, RStrip;
      JoinOne(last, "\n");
      RStripInk(Join(front, "\n") + "\n", last);
    }
  }

  /** Stripping on the left drops the empty lines at the start and the indent of the next one. */
  lemma {:induction false} LStripLines(lines: seq<string>) returns (from: nat)
    requires forall k | 0 <= k < |lines| :: Trimmed(lines[k])
    requires lines != [] && lines[|lines| - 1] != ""
    ensures from < |lines| && lines[from] != "" && forall k | 0 <= k < from :: lines[k] == ""
    ensures LStrip(lines[from]) != ""
    ensures LStrip(Join(lines, "\n")) == Join([LStrip(lines[from])] + lines[from + 1..], "\n")
  {
    hide Join, LStrip, IsSpace;
    var rest := lines[1..];
    assert lines == [lines[0]] + rest;
    if lines[0] == "" {
      var f := LStripLines(rest);
      from := f + 1;
      assert rest[f + 1..] == lines[from + 1..];
      EmptyFirst(rest);
    } else {
      from := 0;
      HasInk(lines[0]);
      FirstWithInk(lines[0], rest);
    }
  }

  lemma EmptyFirst(rest: seq<string>)
    requires rest != []
    ensures LStrip(Join([""] + rest, "\n")) == LStrip(Join(rest, "\n"))
  {
    hide Join, LStrip;
    JoinCons("", rest, "\n");
    LStripSpace("\n", Join(rest, "\n"));
    assert "" + "\n" + Join(rest, "\n") == "\n" + Join(rest, "\n");
  }

  lemma FirstWithInk(first: string, rest: seq<string>)
    requires LStrip(first) != ""
    ensures LStrip(Join([first] + rest, "\n")) == Join([LStrip(first)] + rest, "\n")
  {
    if rest == [] {
      assert [LStrip(first)] + rest == [LStrip(first)] && [first] + rest == [first];
    } else {
      hide Join, LStrip;
      JoinCons(first, rest, "\n");
      JoinCons(LStrip(first), rest, "\n");
      LStripInk(first, "\n" + Join(rest, "\n"));
      Associative(first, "\n", Join(rest, "\n"));
      Associative(LStrip(first), "\n", Join(rest, "\n"));
    }
  }

  lemma HasInk(line: string)
    requires line != "" && Trimmed(line)
    ensures LStrip(line) != "" && Trimmed(LStrip(line))
  {
    var l, last := LStrip(line), line[|line| - 1];
    assert l == line[|line| - |l|..];
    NothingLeft(line);
    hide LStrip, IsSpace;
    assert AllSpace(line) ==> IsSpace(last);
    assert l != "" ==> l[|l| - 1] == last;
  }

  lemma NothingLeft(line: string)
    ensures LStrip(line) == "" ==> AllSpace(line)
  {
    hide IsSpace;
  }

  // -------------------------------------------------------------- main results

  /** The lines from `from` up to `to` with their ends trimmed, and the first without its indent; all
      others are blank, and the first and last of these are not. */
  ghost predicate TrimmedFrom(was: seq<string>, now: seq<string>, from: nat, to: nat) {
    && from < to <= |was| && |now| == to - from
    && RStrip(was[from]) != "" && RStrip(was[to - 1]) != ""
    && now[0] == LStrip(RStrip(was[from])) != ""
    && (forall k | 0 < k < |now| :: now[k] == RStrip(was[from + k]))
    && (forall k | 0 <= k < |was| && !(from <= k < to) :: RStrip(was[k]) == "")
  }

  /** The lines of a normalized body are those of the body with their ends trimmed, less the blank ones
      before the first and after the last with ink, and less the indent of the first. */
  lemma NormalizedLines(body: string) returns (from: nat, to: nat)
    ensures NormalizesTo(Split(body, "\n"), Normalize(body), from, to)
  {
    var was := Split(body, "\n");
    NormalizedIs(body);
    SplitIsLines(body);
    RStripAllAt(was);
    hide *;
    LinesAreLines(was);
    from, to := StripLines(was, RStripAll(was));
  }

  /** ... or nothing is left, and all of them are blank. */
  ghost predicate NormalizesTo(was: seq<string>, text: string, from: nat, to: nat) {
    if from == to then text == "" && forall k | 0 <= k < |was| :: RStrip(was[k]) == ""
    else TrimmedFrom(was, Split(text, "\n"), from, to)
  }

  lemma StripLines(was: seq<string>, lines: seq<string>) returns (from: nat, to: nat)
    requires |lines| == |was| && forall k | 0 <= k < |was| :: OneLine(was[k]) && lines[k] == RStrip(was[k])
    ensures NormalizesTo(was, LStrip(RStrip(Join(lines, "\n"))), from, to)
  {
    hide *;
    AllTrimmed(was, lines);
    TrimmedAreLines(was, lines);
    to := RStripLines(lines);
    if to == 0 {
      from := 0;
      NothingLeftOf(was, lines);
    } else {
      KeptAreTrimmed(lines, to);
      from := LStripLines(lines[..to]);
      var now := [LStrip(lines[..to][from])] + lines[..to][from + 1..];
      SliceIsLines(lines, now, LStrip(lines[from]), from, to);
      SplitOfJoin(now);
      OutsideEmpty(lines, from, to);
      ResultIs(was, lines, now, from, to);
      ThenNormalizes(was, now, Join(now, "\n"), from, to);
    }
  }

  lemma NothingLeftOf(was: seq<string>, lines: seq<string>)
    requires |lines| == |was| && forall k | 0 <= k < |was| :: lines[k] == RStrip(was[k]) && lines[k] == ""
    requires RStrip(Join(lines, "\n")) == Join(lines[..0], "\n")
    ensures NormalizesTo(was, LStrip(RStrip(Join(lines, "\n"))), 0, 0)
  {
    hide RStrip, Split;
    Nothing(lines);
  }

  lemma KeptAreTrimmed(lines: seq<string>, to: nat)
    requires 0 < to <= |lines| && forall k | 0 <= k < |lines| :: Trimmed(lines[k])
    ensures |lines[..to]| == to && lines[..to][|lines[..to]| - 1] == lines[to - 1]
    ensures forall k | 0 <= k < to :: Trimmed(lines[..to][k]) && lines[..to][k] == lines[k]
  {
    hide Trimmed;
  }

  lemma OutsideEmpty(lines: seq<string>, from: nat, to: nat)
    requires from < to <= |lines| && (forall k | to <= k < |lines| :: lines[k] == "")
    requires forall k | 0 <= k < from :: lines[..to][k] == ""
    ensures forall k | 0 <= k < |lines| && !(from <= k < to) :: lines[k] == ""
  {
    assert forall k | 0 <= k < from :: lines[..to][k] == lines[k];
  }

  lemma ThenNormalizes(was: seq<string>, now: seq<string>, text: string, from: nat, to: nat)
    requires TrimmedFrom(was, now, from, to) && Split(text, "\n") == now && from != to
    ensures NormalizesTo(was, text, from, to)
  {
    hide RStrip, Split, TrimmedFrom;
  }

  lemma NormalizedIs(body: string)
    ensures Normalize(body) == LStrip(RStrip(Join(RStripAll(Split(body, "\n")), "\n")))
  {
    hide Split, Join, RStripAll, RStrip, LStrip, IsSpace;
    UnixLines(body);
  }

  lemma AllTrimmed(was: seq<string>, lines: seq<string>)
    requires |lines| == |was| && forall k | 0 <= k < |was| :: lines[k] == RStrip(was[k])
    ensures forall k | 0 <= k < |lines| :: Trimmed(lines[k])
  {
    hide RStrip, IsSpace;
  }

  lemma Nothing(lines: seq<string>)
    ensures LStrip(Join(lines[..0], "\n")) == ""
  {
    assert lines[..0] == [];
  }

  lemma ResultIs(was: seq<string>, lines: seq<string>, now: seq<string>, from: nat, to: nat)
    requires |lines| == |was| && forall k | 0 <= k < |was| :: lines[k] == RStrip(was[k])
    requires from < to <= |was| && now == [LStrip(lines[from])] + lines[..to][from + 1..]
    requires LStrip(lines[from]) != "" && lines[from] != "" && lines[to - 1] != ""
    requires forall k | 0 <= k < |was| && !(from <= k < to) :: lines[k] == ""
    ensures TrimmedFrom(was, now, from, to)
  {
    hide RStrip, LStrip;
  }

  /** Trimmed lines are lines. */
  lemma TrimmedAreLines(was: seq<string>, lines: seq<string>)
    requires |lines| == |was| && forall k | 0 <= k < |was| :: OneLine(was[k]) && lines[k] == RStrip(was[k])
    ensures forall k | 0 <= k < |lines| :: OneLine(lines[k]) && OneLine(LStrip(lines[k]))
  {
    hide *;
    forall k | 0 <= k < |lines| ensures OneLine(lines[k]) && OneLine(LStrip(lines[k])) {
      PartIsOneLine(was[k]);
    }
  }

  lemma SliceIsLines(lines: seq<string>, now: seq<string>, first: string, from: nat, to: nat)
    requires from < to <= |lines| && now == [first] + lines[..to][from + 1..]
    requires OneLine(first) && forall k | 0 <= k < |lines| :: OneLine(lines[k])
    ensures AreLines(now)
  {
    hide OneLine;
    SlicedAt(lines, now, first, from, to);
  }

  lemma SlicedAt(lines: seq<string>, now: seq<string>, first: string, from: nat, to: nat)
    requires from < to <= |lines| && now == [first] + lines[..to][from + 1..]
    ensures |now| == to - from && now[0] == first && forall k | 0 < k < |now| :: now[k] == lines[from + k]
  {
  }

  lemma LinesAreLines(lines: seq<string>)
    requires AreLines(lines)
    ensures forall k | 0 <= k < |lines| :: OneLine(lines[k])
  {
    hide OneLine;
  }

  lemma PartIsOneLine(line: string)
    requires OneLine(line)
    ensures OneLine(RStrip(line)) && OneLine(LStrip(RStrip(line)))
  {
    hide IsSpace;
  }

  /** No whitespace at a line's end (so no carriage return before a line break either), and none at
      either end of the text. */
  ghost predicate Normal(s: string) {
    Strip(s) == s && forall k | 0 <= k < |Split(s, "\n")| :: RStrip(Split(s, "\n")[k]) == Split(s, "\n")[k]
  }

  /** Normalizing leaves exactly the normal texts alone, and makes every text one. */
  lemma NormalizeFixesExactlyTheNormal(body: string)
    ensures Normalize(body) == body <==> Normal(body)
    ensures Normal(Normalize(body))
  {
    hide *;
    NormalizeIsNormal(body);
    if Normal(body) {
      NormalIsFixed(body);
    }
  }

  lemma NormalIsFixed(body: string)
    requires Normal(body)
    ensures Normalize(body) == body
  {
    hide *;
    NormalizedIs(body);
    JoinOfSplit(body, "\n");
    NormalIs(body);
    AllFixed(Split(body, "\n"));
  }

  lemma NormalIs(s: string)
    requires Normal(s)
    ensures LStrip(RStrip(s)) == s
    ensures forall k | 0 <= k < |Split(s, "\n")| :: RStrip(Split(s, "\n")[k]) == Split(s, "\n")[k]
  {
    hide Split, RStrip, LStrip;
  }

  lemma {:induction false} AllFixed(lines: seq<string>)
    requires forall k | 0 <= k < |lines| :: RStrip(lines[k]) == lines[k]
    ensures RStripAll(lines) == lines
  {
    hide RStrip;
    if lines != [] {
      AllFixed(lines[1..]);
    }
  }

  lemma NormalizeIsNormal(body: string)
    ensures Normal(Normalize(body))
  {
    hide *;
    var text := Normalize(body);
    var from, to := NormalizedLines(body);
    NormalizedIs(body);
    StripTwice(Join(RStripAll(Split(body, "\n")), "\n"));
    if from == to {
      EmptyIsNormal(text, Split(body, "\n"), from);
    } else {
      LinesAreTrimmed(Split(body, "\n"), text, from, to);
      IsNormal(text);
    }
  }

  lemma EmptyIsNormal(text: string, was: seq<string>, from: nat)
    requires NormalizesTo(was, text, from, from)
    ensures Normal(text)
  {
    assert Split("", "\n") == [""];
  }

  lemma IsNormal(text: string)
    requires Strip(text) == text
    requires forall k | 0 <= k < |Split(text, "\n")| :: RStrip(Split(text, "\n")[k]) == Split(text, "\n")[k]
    ensures Normal(text)
  {
    hide Strip, RStrip, Split;
  }

  lemma LinesAreTrimmed(was: seq<string>, text: string, from: nat, to: nat)
    requires NormalizesTo(was, text, from, to) && from != to
    ensures forall k | 0 <= k < |Split(text, "\n")| :: RStrip(Split(text, "\n")[k]) == Split(text, "\n")[k]
  {
    var now := Split(text, "\n");
    assert TrimmedFrom(was, now, from, to);
    hide Split, RStrip, LStrip, IsSpace;
    forall k | 0 <= k < |now| ensures RStrip(now[k]) == now[k] {
      if k > 0 {
        RStripTwice(was[from + k]);
      } else {
        IndentOff(was[from]);
      }
    }
  }

  lemma IndentOff(line: string)
    requires RStrip(line) != ""
    ensures RStrip(LStrip(RStrip(line))) == LStrip(RStrip(line))
  {
    HasInk(RStrip(line));
    hide LStrip;
  }

  lemma StripTwice(s: string)
    ensures Strip(LStrip(RStrip(s))) == LStrip(RStrip(s))
  {
    var t := RStrip(s);
    if t != "" {
      HasInk(t);
    }
  }

  // --------------------------------------------------------------- paragraphs

  /** The paragraphs with ink. */
  function Inked(paragraphs: seq<string>): seq<string> {
    if paragraphs == [] then []
    else (if Strip(paragraphs[0]) == "" then [] else [paragraphs[0]]) + Inked(paragraphs[1..])
  }

  lemma {:induction false} SmallBlocks(paragraphs: seq<string>, budget: nat)
    requires budget >= 2 && forall p | p in paragraphs :: |p| <= budget
    ensures Blocks(paragraphs, budget) == Inked(paragraphs)
    ensures forall p | p in Inked(paragraphs) :: p != ""
  {
    hide Strip, Pieces;
    if paragraphs != [] {
      SmallBlocks(paragraphs[1..], budget);
      StripOfNone();
    }
  }

  lemma StripOfNone()
    ensures Strip("") == ""
  {
  }

  lemma JoinFused(a: string, b: string, rest: seq<string>, sep: string)
    ensures Join([a + sep + b] + rest, sep) == Join([a] + ([b] + rest), sep)
  {
    JoinCons(a, [b] + rest, sep);
    if rest == [] {
      assert [a + sep + b] + rest == [a + sep + b] && [b] + rest == [b];
    } else {
      JoinCons(a + sep + b, rest, sep);
      JoinCons(b, rest, sep);
      hide Join;
      Associative(a + sep, b, sep);
      Associative(a + sep, b + sep, Join(rest, sep));
    }
  }

  /** Joining the merged chunks again gives the blocks, joined. */
  lemma {:induction false} MergeJoins(current: string, blocks: seq<string>, budget: nat)
    requires forall b | b in blocks :: 0 < |b| <= budget
    ensures Join(Merge(current, blocks, budget), "\n\n")
         == Join((if current != "" then [current] else []) + blocks, "\n\n")
    ensures Merge(current, blocks, budget) == [] <==> current == "" && blocks == []
    decreases |blocks|
  {
    hide Join;
    if blocks == [] {
      assert (if current != "" then [current] else []) + [] == (if current != "" then [current] else []);
    } else {
      var b, rest := blocks[0], blocks[1..];
      assert blocks == [b] + rest && b in blocks;
      if |Extend(current, b)| <= budget {
        MergeJoins(Extend(current, b), rest, budget);
        if current != "" {
          JoinFused(current, b, rest, "\n\n");
        } else {
          assert [] + blocks == blocks;
        }
      } else {
        MergeJoins(b, rest, budget);
        JoinCons(current, Merge(b, rest, budget), "\n\n");
        JoinCons(current, blocks, "\n\n");
      }
    }
  }

  /** If no paragraph of the normalized body is over the budget, the chunks joined by blank lines are the
      paragraphs with ink joined by blank lines: every boundary between two of them is kept, in a chunk
      or as a boundary of chunks. */
  lemma ChunksKeepParagraphs(body: string, maxTokens: nat)
    requires maxTokens >= 1 && forall p | p in Split(Normalize(body), "\n\n") :: |p| <= 4 * maxTokens
    ensures Join(ChunkTexts(body, maxTokens), "\n\n") == Join(Inked(Split(Normalize(body), "\n\n")), "\n\n")
  {
    var paragraphs, budget := Split(Normalize(body), "\n\n"), maxTokens * CHARS_PER_TOKEN;
    if Normalize(body) == "" {
      StripOfNone();
      assert paragraphs == [""] && [""][1..] == [];
    } else {
      hide Normalize, Split, Blocks, Merge, Join, Inked;
      SmallBlocks(paragraphs, budget);
      SmallInked(paragraphs, budget);
      MergeJoins("", Inked(paragraphs), budget);
      assert [] + Inked(paragraphs) == Inked(paragraphs);
    }
  }

  lemma {:induction false} SmallInked(paragraphs: seq<string>, budget: nat)
    requires forall p | p in paragraphs :: |p| <= budget
    ensures forall p | p in Inked(paragraphs) :: 0 < |p| <= budget
    ensures (forall p | p in paragraphs :: Strip(p) != "") ==> Inked(paragraphs) == paragraphs
  {
    StripOfNone();
    hide Strip;
    if paragraphs != [] {
      SmallInked(paragraphs[1..], budget);
      assert paragraphs == [paragraphs[0]] + paragraphs[1..];
    }
  }

  /** And if none is blank either, they are the normalized body itself. */
  lemma ChunksRejoin(body: string, maxTokens: nat)
    requires maxTokens >= 1
    requires forall p | p in Split(Normalize(body), "\n\n") :: Strip(p) != "" && |p| <= 4 * maxTokens
    ensures Join(ChunkTexts(body, maxTokens), "\n\n") == Normalize(body)
  {
    hide *;
    ChunksKeepParagraphs(body, maxTokens);
    SmallInked(Split(Normalize(body), "\n\n"), 4 * maxTokens);
    JoinOfSplit(Normalize(body), "\n\n");
  }
}
