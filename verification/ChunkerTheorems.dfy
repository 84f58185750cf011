/** What chunking keeps: the size bound, every character of ink, the words (counting exactly how
    many are broken), and that no other way of joining blocks gives fewer chunks. */
module ChunkerTheorems {
  import opened Text
  import opened Chunker

  // --------------------------------------------------------------- normalizing

  lemma {:induction false} RStripAllKeeps(lines: seq<string>)
    ensures InkOf(RStripAll(lines)) == InkOf(lines) && WordsOf(RStripAll(lines)) == WordsOf(lines)
  {
    if lines != [] {
      RStripAllKeeps(lines[1..]);
      InkOfStrips(lines[0]);
      WordsOfStrips(lines[0]);
    }
  }

  /** Replacing one whitespace separator by another changes neither ink nor words. */
  lemma SeparatorsDoNotMatter(text: string, sep: string, other: string)
    requires sep != "" && AllSpace(sep) && other != "" && AllSpace(other)
    ensures Ink(Join(Split(text, sep), other)) == Ink(text)
    ensures Words(Join(Split(text, sep), other)) == Words(text)
    ensures InkOf(Split(text, sep)) == Ink(text) && WordsOf(Split(text, sep)) == Words(text)
  {
    var parts := Split(text, sep);
    JoinOfSplit(text, sep);
    InkOfJoin(parts, sep);
    InkOfJoin(parts, other);
    WordsOfJoin(parts, sep);
    WordsOfJoin(parts, other);
  }

  lemma NormalizeKeeps(text: string)
    ensures Ink(Normalize(text)) == Ink(text) && Words(Normalize(text)) == Words(text)
  {
    var unix := Join(Split(text, "\r\n"), "\n");
    var lines := Split(unix, "\n");
    var trimmed := Join(RStripAll(lines), "\n");
    SeparatorsDoNotMatter(text, "\r\n", "\n");
    SeparatorsDoNotMatter(unix, "\n", "\n");
    RStripAllKeeps(lines);
    InkOfJoin(RStripAll(lines), "\n");
    WordsOfJoin(RStripAll(lines), "\n");
    InkOfStrips(trimmed);
    WordsOfStrips(trimmed);
    InkOfStrips(RStrip(trimmed));
    WordsOfStrips(RStrip(trimmed));
  }

  // ------------------------------------------------------------------- cutting

  /** How many cuts of an oversized block fall inside a word. */
  function BrokenWords(text: string, budget: nat): nat
    requires budget >= 2
    decreases |text|
  {
    if |text| <= budget then 0
    else
      var cut := Cut(text, budget);
      (if Fuses(text[..cut], text[cut..]) then 1 else 0) + BrokenWords(LStrip(text[cut..]), budget)
  }

  /** An oversized text is cut at the last ' ' of the second half of its window, and at the window's end
      exactly when there is none. */
  lemma CutIsLastBlank(text: string, budget: nat)
    requires |text| > budget
    ensures var cut := Cut(text, budget);
      && budget / 2 <= cut <= budget && (cut < budget ==> text[cut] == ' ')
      && (cut == budget <==> forall k | budget / 2 <= k < budget :: text[k] != ' ')
      && (forall k | cut < k < budget :: text[k] != ' ')
  {
    var window := text[..budget];
    assert forall k | 0 <= k < budget :: window[k] == text[k];
    hide RFind;
  }

  /** No piece of a cut text has whitespace where it was cut. */
  lemma {:induction false} PiecesAreTrimmed(text: string, budget: nat, k: nat)
    requires budget >= 2 && k < |Pieces(text, budget)|
    ensures k + 1 < |Pieces(text, budget)| ==> RStrip(Pieces(text, budget)[k]) == Pieces(text, budget)[k]
    ensures k >= 1 || (text != "" && !IsSpace(text[0])) ==> LStrip(Pieces(text, budget)[k]) == Pieces(text, budget)[k]
    decreases |text|
  {
    hide *;
    if |text| > budget {
      var cut := Cut(text, budget);
      PiecesTurn(text, budget);
      if k == 0 {
        HeadIsTrimmed(text, cut);
      } else {
        NothingLeading(text[cut..], budget);
        PiecesAreTrimmed(LStrip(text[cut..]), budget, k - 1);
      }
    } else {
      OnePiece(text, budget);
    }
  }

  lemma OnePiece(text: string, budget: nat)
    requires budget >= 2 && |text| <= budget
    ensures Pieces(text, budget) == if text == "" then [] else [text]
    ensures text != "" && !IsSpace(text[0]) ==> LStrip(text) == text
  {
    hide IsSpace;
  }

  lemma HeadIsTrimmed(text: string, cut: int)
    requires 0 < cut <= |text|
    ensures RStrip(RStrip(text[..cut])) == RStrip(text[..cut])
    ensures !IsSpace(text[0]) ==> LStrip(RStrip(text[..cut])) == RStrip(text[..cut])
  {
    hide IsSpace;
  }

  lemma NothingLeading(rest: string, budget: nat)
    requires budget >= 2
    ensures LStrip(rest) == "" ==> Pieces(LStrip(rest), budget) == []
    ensures LStrip(rest) != "" ==> !IsSpace(LStrip(rest)[0])
  {
  }

  lemma {:induction false} PiecesKeepInk(text: string, budget: nat)
    requires budget >= 2
    ensures InkOf(Pieces(text, budget)) == Ink(text)
    decreases |text|
  {
    if |text| > budget {
      var cut := Cut(text, budget);
      var head, tail := text[..cut], text[cut..];
      assert text == head + tail;
      InkConcat(head, tail);
      InkOfStrips(head);
      InkOfStrips(tail);
      PiecesKeepInk(LStrip(tail), budget);
    } else if text != "" {
      assert [text][1..] == [];
    }
  }

  lemma {:induction false} PiecesBreakWords(text: string, budget: nat)
    requires budget >= 2
    ensures |WordsOf(Pieces(text, budget))| == |Words(text)| + BrokenWords(text, budget)
    ensures BrokenWords(text, budget) == 0 ==> WordsOf(Pieces(text, budget)) == Words(text)
    decreases |text|
  {
    if |text| > budget {
      var cut := Cut(text, budget);
      var head, tail := text[..cut], text[cut..];
      assert text == head + tail;
      WordsConcat(head, tail);
      WordsOfStrips(head);
      WordsOfStrips(tail);
      PiecesBreakWords(LStrip(tail), budget);
    } else if text != "" {
      assert [text][1..] == [];
    }
  }

  /** A piece is empty (from a stretch of whitespace) or has ink, and fits the budget. */
  predicate GoodBlock(p: string, budget: nat) {
    |p| <= budget && (p == "" || Ink(p) != "")
  }

  lemma {:induction false} PiecesAreGood(text: string, budget: nat)
    requires budget >= 2 && (text == "" || !IsSpace(text[0]) || |text| > budget)
    ensures forall p | p in Pieces(text, budget) :: GoodBlock(p, budget)
    decreases |text|
  {
    if |text| > budget {
      var cut := Cut(text, budget);
      PiecesAreGood(LStrip(text[cut..]), budget);
      NoInk(RStrip(text[..cut]));
    }
  }

  // ---------------------------------------------------------------- paragraphs

  function BrokenWordsOf(paragraphs: seq<string>, budget: nat): nat
    requires budget >= 2
  {
    if paragraphs == [] then 0
    else
      var p := paragraphs[0];
      (if Strip(p) == "" || |p| <= budget then 0 else BrokenWords(p, budget)) + BrokenWordsOf(paragraphs[1..], budget)
  }

  lemma BlankHasNothing(p: string)
    ensures Strip(p) == "" <==> Ink(p) == ""
    ensures Strip(p) == "" ==> Words(p) == []
  {
    InkOfStrips(p);
    InkOfStrips(RStrip(p));
    WordsOfStrips(p);
    WordsOfStrips(RStrip(p));
    NoInk(Strip(p));
    assert Words("") == [] && Ink("") == "";
  }

  lemma ParagraphKeeps(p: string, budget: nat)
    requires budget >= 2
    ensures var bs := ParagraphBlocks(p, budget);
      var broken := if Strip(p) == "" || |p| <= budget then 0 else BrokenWords(p, budget);
      && InkOf(bs) == Ink(p)
      && |WordsOf(bs)| == |Words(p)| + broken
      && (broken == 0 ==> WordsOf(bs) == Words(p))
      && (forall b | b in bs :: GoodBlock(b, budget))
  {
    BlankHasNothing(p);
    if Strip(p) != "" {
      if |p| <= budget {
        assert [p][1..] == [];
      } else {
        PiecesKeepInk(p, budget);
        PiecesBreakWords(p, budget);
        PiecesAreGood(p, budget);
      }
    }
  }

  lemma {:induction false} BlocksKeep(paragraphs: seq<string>, budget: nat)
    requires budget >= 2
    ensures var bs := Blocks(paragraphs, budget);
      && InkOf(bs) == InkOf(paragraphs)
      && |WordsOf(bs)| == |WordsOf(paragraphs)| + BrokenWordsOf(paragraphs, budget)
      && (BrokenWordsOf(paragraphs, budget) == 0 ==> WordsOf(bs) == WordsOf(paragraphs))
      && (forall b | b in bs :: GoodBlock(b, budget))
  {
    if paragraphs != [] {
      var first, rest := ParagraphBlocks(paragraphs[0], budget), Blocks(paragraphs[1..], budget);
      ParagraphKeeps(paragraphs[0], budget);
      BlocksKeep(paragraphs[1..], budget);
      assert Blocks(paragraphs, budget) == first + rest;
      InkOfConcat(first, rest);
      WordsOfConcat(first, rest);
    }
  }

  // ------------------------------------------------------------------- merging

  lemma ExtendKeeps(current: string, block: string)
    ensures Ink(Extend(current, block)) == Ink(current) + Ink(block)
    ensures Words(Extend(current, block)) == Words(current) + Words(block)
  {
    if current != "" {
      BreakIsSpace();
      hide Ink, Words, AllSpace;
      InkAround(current, "\n\n", block);
      WordsAround(current, "\n\n", block);
    }
  }

  lemma BreakIsSpace()
    ensures AllSpace("\n\n")
  {
  }

  lemma {:induction false} MergeKeeps(current: string, blocks: seq<string>, budget: nat)
    ensures InkOf(Merge(current, blocks, budget)) == Ink(current) + InkOf(blocks)
    ensures WordsOf(Merge(current, blocks, budget)) == Words(current) + WordsOf(blocks)
    decreases |blocks|
  {
    hide *;
    MergeUnfolds(current, blocks, budget);
    if blocks == [] {
      OneKeeps(current);
    } else {
      KeepsCons(blocks[0], blocks[1..]);
      assert blocks == [blocks[0]] + blocks[1..];
      if |Extend(current, blocks[0])| <= budget {
        ExtendKeeps(current, blocks[0]);
        MergeKeeps(Extend(current, blocks[0]), blocks[1..], budget);
      } else {
        MergeKeeps(blocks[0], blocks[1..], budget);
        KeepsCons(current, Merge(blocks[0], blocks[1..], budget));
      }
    }
  }

  lemma MergeUnfolds(current: string, blocks: seq<string>, budget: nat)
    ensures blocks == [] ==> Merge(current, blocks, budget) == if current != "" then [current] else []
    ensures blocks != [] ==>
      Merge(current, blocks, budget)
      == if |Extend(current, blocks[0])| <= budget then Merge(Extend(current, blocks[0]), blocks[1..], budget)
         else [current] + Merge(blocks[0], blocks[1..], budget)
  {
    hide Extend;
  }

  lemma KeepsCons(first: string, rest: seq<string>)
    ensures InkOf([first] + rest) == Ink(first) + InkOf(rest)
    ensures WordsOf([first] + rest) == Words(first) + WordsOf(rest)
  {
    assert ([first] + rest)[1..] == rest;
    hide Ink, Words;
  }

  lemma OneKeeps(part: string)
    ensures InkOf([]) == "" && WordsOf([]) == []
    ensures InkOf(if part != "" then [part] else []) == Ink(part)
    ensures WordsOf(if part != "" then [part] else []) == Words(part)
  {
    KeepsCons(part, []);
    assert [part] + [] == [part];
    assert Ink("") == "" && Words("") == [];
  }

  /** From the normalized text to its chunks. */
  lemma SplitTextKeeps(text: string, maxTokens: nat)
    requires maxTokens >= 1
    ensures var broken := BrokenWordsOf(Split(text, "\n\n"), maxTokens * CHARS_PER_TOKEN);
      && InkOf(SplitText(text, maxTokens)) == Ink(text)
      && |WordsOf(SplitText(text, maxTokens))| == |Words(text)| + broken
      && (broken == 0 ==> WordsOf(SplitText(text, maxTokens)) == Words(text))
  {
    var paragraphs, budget := Split(text, "\n\n"), maxTokens * CHARS_PER_TOKEN;
    assert Ink("") == "" && Words("") == [];
    hide Ink, InkOf, Words, WordsOf, Split, Blocks, Merge, BrokenWordsOf;
    SeparatorsDoNotMatter(text, "\n\n", "\n\n");
    BlocksKeep(paragraphs, budget);
    MergeKeeps("", Blocks(paragraphs, budget), budget);
  }

  lemma {:induction false} MergeIsBounded(current: string, blocks: seq<string>, budget: nat)
    requires GoodBlock(current, budget) && forall b | b in blocks :: GoodBlock(b, budget)
    ensures forall p | p in Merge(current, blocks, budget) :: |p| <= budget && Ink(p) != ""
    decreases |blocks|
  {
    if blocks != [] {
      ExtendKeeps(current, blocks[0]);
      assert blocks[0] in blocks;
      if |Extend(current, blocks[0])| <= budget {
        MergeIsBounded(Extend(current, blocks[0]), blocks[1..], budget);
      } else {
        MergeIsBounded(blocks[0], blocks[1..], budget);
      }
    }
  }

  // --------------------------------------------------------------- main results

  /** Every chunk has ink and is within the token budget. */
  lemma ChunksAreBounded(body: string, maxTokens: nat)
    requires maxTokens >= 1
    ensures forall p | p in ChunkTexts(body, maxTokens) ::
      Strip(p) != "" && |p| <= 4 * maxTokens && EstimateTokens(p) <= maxTokens
  {
    var text, budget := Normalize(body), maxTokens * CHARS_PER_TOKEN;
    var blocks := Blocks(Split(text, "\n\n"), budget);
    BlocksKeep(Split(text, "\n\n"), budget);
    MergeIsBounded("", blocks, budget);
    forall p | p in ChunkTexts(body, maxTokens) ensures Strip(p) != "" && EstimateTokens(p) <= maxTokens {
      BlankHasNothing(p);
    }
  }

  /** No character of ink is lost, added or moved. */
  lemma ChunksKeepInk(body: string, maxTokens: nat)
    requires maxTokens >= 1
    ensures InkOf(ChunkTexts(body, maxTokens)) == Ink(body)
  {
    NormalizeKeeps(body);
    assert Ink("") == "" && InkOf([]) == "" && Words("") == [] && WordsOf([]) == [];
    hide Ink, InkOf, Words, WordsOf, Normalize, SplitText;
    SplitTextKeeps(Normalize(body), maxTokens);
  }

  /** How many words chunking breaks: one per cut that falls inside a word. */
  function Broken(body: string, maxTokens: nat): nat
    requires maxTokens >= 1
  {
    if Normalize(body) == "" then 0 else BrokenWordsOf(Split(Normalize(body), "\n\n"), maxTokens * CHARS_PER_TOKEN)
  }

  /** The words of all chunks in order are the words of the body exactly when no cut falls inside
      a word; each cut that does makes one word into two. */
  lemma ChunksKeepWords(body: string, maxTokens: nat)
    requires maxTokens >= 1
    ensures |WordsOf(ChunkTexts(body, maxTokens))| == |Words(body)| + Broken(body, maxTokens)
    ensures WordsOf(ChunkTexts(body, maxTokens)) == Words(body) <==> Broken(body, maxTokens) == 0
  {
    NormalizeKeeps(body);
    assert Ink("") == "" && InkOf([]) == "" && Words("") == [] && WordsOf([]) == [];
    hide Ink, InkOf, Words, WordsOf, Normalize, SplitText, BrokenWordsOf, Split;
    SplitTextKeeps(Normalize(body), maxTokens);
  }

  // ------------------------------------------------------- when no word is broken

  ghost predicate BlankWithin(text: string, i: int, n: nat) {
    exists k :: i <= k < i + n && 0 <= k < |text| && text[k] == ' '
  }

  /** No stretch of `n` characters is free of ' '. */
  ghost predicate ShortRuns(text: string, n: nat) {
    forall i | 0 <= i <= |text| - n :: BlankWithin(text, i, n)
  }

  lemma PartHasShortRuns(text: string, from: nat, to: nat, n: nat)
    requires from <= to <= |text| && ShortRuns(text, n)
    ensures ShortRuns(text[from..to], n)
  {
    forall i | 0 <= i <= to - from - n ensures BlankWithin(text[from..to], i, n) {
      assert BlankWithin(text, from + i, n);
      var k :| from + i <= k < from + i + n && 0 <= k < |text| && text[k] == ' ';
      assert text[from..to][k - from] == ' ';
    }
  }

  lemma {:induction false} SplitHasShortRuns(text: string, sep: string, n: nat)
    requires sep != "" && ShortRuns(text, n)
    ensures forall p | p in Split(text, sep) :: ShortRuns(p, n)
    decreases |text|
  {
    var i := IndexOf(text, sep);
    if i < |text| {
      PartHasShortRuns(text, 0, i, n);
      PartHasShortRuns(text, i + |sep|, |text|, n);
      assert text[..i] == text[0..i] && text[i + |sep|..] == text[i + |sep|..|text|];
      SplitHasShortRuns(text[i + |sep|..], sep, n);
    }
  }

  lemma {:induction false} ShortRunsBreakNothing(text: string, half: nat)
    requires half >= 1 && ShortRuns(text, half)
    ensures BrokenWords(text, 2 * half) == 0
    decreases |text|
  {
    if |text| > 2 * half {
      hide ShortRuns, Cut, LStrip, Fuses;
      ShortRunsCutAtBlank(text, half);
      ShortRunsBreakNothing(LStrip(text[Cut(text, 2 * half)..]), half);
    }
  }

  /** The window's second half holds a ' ', so the cut is at one, and what is left is no worse. */
  lemma ShortRunsCutAtBlank(text: string, half: nat)
    requires half >= 1 && ShortRuns(text, half) && |text| > 2 * half
    ensures var cut := Cut(text, 2 * half);
      && text[cut] == ' ' && !Fuses(text[..cut], text[cut..])
      && ShortRuns(LStrip(text[cut..]), half)
  {
    hide RFind, LStrip;
    assert BlankWithin(text, half, half);
    var k :| half <= k < half + half && 0 <= k < |text| && text[k] == ' ';
    assert text[..2 * half][k] == ' ';
    assert RFind(text[..2 * half], ' ') >= k;
    var cut := Cut(text, 2 * half);
    var rest := LStrip(text[cut..]);
    hide ShortRuns, Cut;
    RestIsSuffix(text, cut, rest);
    PartHasShortRuns(text, |text| - |rest|, |text|, half);
  }

  lemma RestIsSuffix(text: string, cut: nat, rest: string)
    requires cut <= |text| && |rest| <= |text| - cut && rest == text[cut..][|text| - cut - |rest|..]
    ensures rest == text[|text| - |rest|..|text|]
  {
  }

  lemma {:induction false} ShortParagraphRunsBreakNothing(paragraphs: seq<string>, half: nat)
    requires half >= 1 && forall p | p in paragraphs :: ShortRuns(p, half)
    ensures BrokenWordsOf(paragraphs, 2 * half) == 0
  {
    if paragraphs != [] {
      ShortRunsBreakNothing(paragraphs[0], half);
      ShortParagraphRunsBreakNothing(paragraphs[1..], half);
    }
  }

  lemma ShortRunsLeaveWordsWhole(text: string, maxTokens: nat)
    requires maxTokens >= 1 && ShortRuns(text, 2 * maxTokens)
    ensures BrokenWordsOf(Split(text, "\n\n"), maxTokens * CHARS_PER_TOKEN) == 0
  {
    hide Split, ShortRuns, BrokenWordsOf;
    SplitHasShortRuns(text, "\n\n", 2 * maxTokens);
    ShortParagraphRunsBreakNothing(Split(text, "\n\n"), 2 * maxTokens);
  }

  /** If every run of characters other than ' ' in the normalized body is shorter than half the
      budget, all words come through whole. */
  lemma ShortRunsKeepWords(body: string, maxTokens: nat)
    requires maxTokens >= 1 && ShortRuns(Normalize(body), 2 * maxTokens)
    ensures WordsOf(ChunkTexts(body, maxTokens)) == Words(body)
  {
    hide Normalize, Split, ShortRuns, Words, WordsOf, ChunkTexts, BrokenWordsOf;
    ShortRunsLeaveWordsWhole(Normalize(body), maxTokens);
    ChunksKeepWords(body, maxTokens);
  }
}
