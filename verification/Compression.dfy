/** Compression to a token budget: the rules for plain text and Markdown, and the truncation that
    follows if they are not enough. */
module Compression {
  import opened Text
  import opened Chunker
  import opened Reducers
  import opened Folding

  datatype Kind = PlainText | Markdown

  datatype Transform = DropBoilerplate | DedupRepeats | FoldSpaces

  function Rule(kind: Kind): seq<Transform> {
    match kind
    case PlainText => [DedupRepeats, FoldSpaces]
    case Markdown => [DropBoilerplate, DedupRepeats, FoldSpaces]
  }

  /** The lines no pattern matches. */
  function Spared(lines: seq<string>, boilerplate: string -> bool): seq<string> {
    if lines == [] then []
    else (if boilerplate(lines[0]) then [] else [lines[0]]) + Spared(lines[1..], boilerplate)
  }

  function Apply(t: Transform, text: string, boilerplate: string -> bool): string {
    match t
    case DropBoilerplate => Join(Spared(Split(text, "\n"), boilerplate), "\n")
    case DedupRepeats => Dedup(text)
    case FoldSpaces => Fold(text)
  }

  function ApplyAll(ts: seq<Transform>, text: string, boilerplate: string -> bool): string {
    if ts == [] then text else Apply(ts[|ts| - 1], ApplyAll(ts[..|ts| - 1], text, boilerplate), boilerplate)
  }

  // ---------------------------------------------------------------- truncation

  function Concat(parts: seq<string>): string {
    if parts == [] then "" else Concat(parts[..|parts| - 1]) + parts[|parts| - 1]
  }

  /** `n` is the greatest number of leading clusters that fit. */
  ghost predicate FillsBudget(clusters: seq<string>, n: nat, room: nat) {
    && n <= |clusters| && |Concat(clusters[..n])| <= room
    && (n < |clusters| ==> |Concat(clusters[..n + 1])| > room)
  }

  /** `text` is those clusters, right-stripped, and not all of them fitted. */
  ghost predicate Truncates(clusters: seq<string>, n: nat, room: nat, text: string) {
    FillsBudget(clusters, n, room) && n < |clusters| && text == RStrip(Concat(clusters[..n]))
  }

  /** `clusters` stands for the grapheme clusters of the text, in order. */
  method TruncateToTokens(text: string, clusters: seq<string>, budget: nat) returns (r: string, ghost n: nat)
    requires Concat(clusters) == text
    ensures |text| <= budget * CHARS_PER_TOKEN ==> r == text
    ensures |text| > budget * CHARS_PER_TOKEN ==>
      FillsBudget(clusters, n, budget * CHARS_PER_TOKEN) && n < |clusters| && r == RStrip(Concat(clusters[..n]))
    ensures EstimateTokens(r) <= budget
  {
    var room := budget * CHARS_PER_TOKEN;
    if |text| <= room {
      return text, |clusters|;
    }
    hide RStrip, IsSpace;
    var out := "";
    var i := 0;
    while i < |clusters| && |out| + |clusters[i]| <= room
      invariant i <= |clusters| && out == Concat(clusters[..i]) && |out| <= room
    {
      assert clusters[..i + 1][..i] == clusters[..i];
      out := out + clusters[i];
      i := i + 1;
    }
    assert i < |clusters| ==> clusters[..i + 1][..i] == clusters[..i];
    assert clusters[..|clusters|] == clusters;
    return RStrip(out), i;
  }

  method Compress(payload: string, kind: Kind, boilerplate: string -> bool, clustersOf: string -> seq<string>,
                  budget: nat)
      returns (text: string, inTokens: nat, outTokens: nat, truncated: bool)
    requires forall t :: Concat(clustersOf(t)) == t
    ensures inTokens == EstimateTokens(payload) && outTokens == EstimateTokens(text) <= budget
    ensures truncated <==> EstimateTokens(Reduced(payload, kind, boilerplate)) > budget
    ensures !truncated ==> text == Reduced(payload, kind, boilerplate)
    // cut to the longest run of leading clusters that fits, right-stripped
    ensures truncated ==>
      exists n :: Truncates(clustersOf(Reduced(payload, kind, boilerplate)), n, budget * CHARS_PER_TOKEN, text)
    ensures truncated ==> text <= Reduced(payload, kind, boilerplate)
  {
    inTokens := EstimateTokens(payload);
    text := payload;
    var transforms := Rule(kind);
    for i := 0 to |transforms|
      invariant text == ApplyAll(transforms[..i], payload, boilerplate)
    {
      assert transforms[..i + 1][..i] == transforms[..i];
      text := Apply(transforms[i], text, boilerplate);
    }
    assert transforms[..|transforms|] == transforms;
    truncated := EstimateTokens(text) > budget;
    if truncated {
      ghost var n;
      var clusters := clustersOf(text);
      ghost var whole := text;
      text, n := TruncateToTokens(text, clusters, budget);
      assert Truncates(clusters, n, budget * CHARS_PER_TOKEN, text);
      ConcatPrefix(clusters, n);
    }
    outTokens := EstimateTokens(text);
  }

  function Reduced(payload: string, kind: Kind, boilerplate: string -> bool): string {
    ApplyAll(Rule(kind), payload, boilerplate)
  }

  lemma {:induction false} ConcatPrefix(parts: seq<string>, n: nat)
    requires n <= |parts|
    ensures Concat(parts[..n]) <= Concat(parts)
  {
    if n < |parts| {
      var front := parts[..|parts| - 1];
      ConcatPrefix(front, n);
      assert front[..n] == parts[..n];
    } else {
      assert parts[..n] == parts;
    }
  }

  // -------------------------------------------------------------- main results

  /** The words of the reduced text are those of the lines kept. */
  lemma ReducedWords(payload: string, boilerplate: string -> bool)
    ensures Words(Reduced(payload, PlainText, boilerplate)) == WordsOf(Kept(Split(payload, "\n")))
    ensures Words(Reduced(payload, Markdown, boilerplate))
         == WordsOf(Kept(Split(Join(Spared(Split(payload, "\n"), boilerplate), "\n"), "\n")))
  {
    TwoSteps(payload, boilerplate);
    DedupWords(payload);
    DedupWords(Apply(DropBoilerplate, payload, boilerplate));
    FoldKeepsWords(Dedup(payload));
    FoldKeepsWords(Dedup(Apply(DropBoilerplate, payload, boilerplate)));
  }

  lemma TwoSteps(payload: string, boilerplate: string -> bool)
    ensures Reduced(payload, PlainText, boilerplate) == Fold(Dedup(payload))
    ensures Reduced(payload, Markdown, boilerplate) == Fold(Dedup(Apply(DropBoilerplate, payload, boilerplate)))
  {
    hide Fold, Dedup, Split, Join, Spared;
    var two, three := Rule(PlainText), Rule(Markdown);
    assert two[..1] == [DedupRepeats] && two[..1][..0] == [];
    assert three[..2] == [DropBoilerplate, DedupRepeats];
    assert three[..2][..1] == [DropBoilerplate] && three[..1][..0] == [];
    assert ApplyAll([], payload, boilerplate) == payload;
    assert ApplyAll([DedupRepeats], payload, boilerplate) == Dedup(payload);
    assert ApplyAll([DropBoilerplate], payload, boilerplate) == Apply(DropBoilerplate, payload, boilerplate);
    assert ApplyAll(three[..2], payload, boilerplate) == Dedup(Apply(DropBoilerplate, payload, boilerplate));
  }

  lemma DedupWords(text: string)
    ensures Words(Dedup(text)) == WordsOf(Kept(Split(text, "\n")))
  {
    WordsOfJoin(Kept(Split(text, "\n")), "\n");
  }

  /** What is spared are the lines no pattern matches, each as often as it was there. */
  lemma {:induction false} SparedAre(lines: seq<string>, boilerplate: string -> bool, line: string)
    ensures var times := multiset(Spared(lines, boilerplate))[line];
      times == if boilerplate(line) then 0 else multiset(lines)[line]
  {
    if lines != [] {
      SparedAre(lines[1..], boilerplate, line);
      assert lines == [lines[0]] + lines[1..];
    }
  }

  /** ... and in order: the start of the text gives the start of what is spared. */
  lemma {:induction false} SparedInOrder(lines: seq<string>, boilerplate: string -> bool, n: nat)
    requires n <= |lines|
    ensures Spared(lines[..n], boilerplate) <= Spared(lines, boilerplate)
  {
    if n > 0 {
      SparedInOrder(lines[1..], boilerplate, n - 1);
      assert lines[..n][1..] == lines[1..][..n - 1];
    }
  }

  /** Dropping a repeated line drops its words. */
  lemma {:induction false} KeptWords(lines: seq<string>)
    ensures |WordsOf(Kept(lines))| <= |WordsOf(lines)|
    ensures |WordsOf(Kept(lines))| == |WordsOf(lines)| ==> Kept(lines) == lines
  {
    hide *;
    if lines == [] {
      NoLines();
    } else {
      var n := |lines| - 1;
      KeptWords(lines[..n]);
      InkHasWords(lines[n]);
      WordsOfOneMore(lines[..n], lines[n]);
      WordsOfOneMore(Kept(lines[..n]), lines[n]);
      KeptTurn(lines);
      assert lines == lines[..n] + [lines[n]];
    }
  }

  lemma NoLines()
    ensures Kept([]) == [] && WordsOf([]) == []
  {
  }

  lemma KeptTurn(lines: seq<string>)
    requires lines != []
    ensures var n := |lines| - 1;
      || (Kept(lines) == Kept(lines[..n]) && Strip(lines[n]) != "")
      || Kept(lines) == Kept(lines[..n]) + [lines[n]]
  {
  }

  lemma WordsOfOneMore(lines: seq<string>, line: string)
    ensures WordsOf(lines + [line]) == WordsOf(lines) + Words(line)
  {
    WordsOfConcat(lines, [line]);
    assert [line][1..] == [];
  }

  lemma InkHasWords(line: string)
    ensures Strip(line) != "" ==> Words(line) != []
  {
    WordsOfStrips(line);
    WordsOfStrips(RStrip(line));
  }

  /** The plain-text rule leaves exactly those texts alone that are folded and repeat no line. */
  lemma RuleFixesExactlyTheCompact(text: string, boilerplate: string -> bool)
    ensures Reduced(text, PlainText, boilerplate) == text <==> Folded(text) && UniqueLines(Split(text, "\n"))
  {
    var lines := Split(text, "\n");
    assert Dedup(text) == Join(Kept(lines), "\n");
    hide Fold, Dedup, Split, Join, Words, WordsOf, Kept, Folded, UniqueLines, Reduced, Rule, ApplyAll;
    TwoSteps(text, boilerplate);
    FoldIsFolded(Dedup(text));
    FoldFixesExactlyTheFolded(text);
    KeptAllIffUnique(lines);
    JoinOfSplit(text, "\n");
    DedupWords(text);
    FoldKeepsWords(Dedup(text));
    WordsOfLines(text);
    KeptWords(lines);
  }

  lemma WordsOfLines(text: string)
    ensures WordsOf(Split(text, "\n")) == Words(text)
  {
    JoinOfSplit(text, "\n");
    WordsOfJoin(Split(text, "\n"), "\n");
  }
}
