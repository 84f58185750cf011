/** Splitting a document body into bounded chunks: the loops, and the functions they compute. */
module Chunker {
  import opened Text

  const CHARS_PER_TOKEN := 4

  /** ceil(len / 4) */
  function EstimateTokens(text: string): (n: nat)
    ensures 4 * n - 4 < |text| <= 4 * n
  {
    (|text| + CHARS_PER_TOKEN - 1) / CHARS_PER_TOKEN
  }

  function RStripAll(lines: seq<string>): seq<string> {
    if lines == [] then [] else [RStrip(lines[0])] + RStripAll(lines[1..])
  }

  function Normalize(text: string): string {
    var unix := Join(Split(text, "\r\n"), "\n");
    Strip(Join(RStripAll(Split(unix, "\n")), "\n"))
  }

  /** Where an oversized text is cut: at the last ' ' of the window unless that wastes over half. */
  function Cut(text: string, budget: nat): (cut: int)
    requires |text| > budget
    ensures 0 <= cut <= budget && (budget >= 2 ==> 0 < cut)
  {
    var c := RFind(text[..budget], ' ');
    if c < budget / 2 then budget else c
  }

  function Pieces(text: string, budget: nat): seq<string>
    requires budget >= 2
    decreases |text|
  {
    if |text| <= budget then (if text == "" then [] else [text])
    else
      var cut := Cut(text, budget);
      [RStrip(text[..cut])] + Pieces(LStrip(text[cut..]), budget)
  }

  function ParagraphBlocks(p: string, budget: nat): seq<string>
    requires budget >= 2
  {
    if Strip(p) == "" then [] else if |p| <= budget then [p] else Pieces(p, budget)
  }

  function Blocks(paragraphs: seq<string>, budget: nat): seq<string>
    requires budget >= 2
  {
    if paragraphs == [] then [] else ParagraphBlocks(paragraphs[0], budget) + Blocks(paragraphs[1..], budget)
  }

  function Extend(current: string, block: string): string {
    if current != "" then current + "\n\n" + block else block
  }

  function Merge(current: string, blocks: seq<string>, budget: nat): seq<string>
    decreases |blocks|
  {
    if blocks == [] then (if current != "" then [current] else [])
    else if |Extend(current, blocks[0])| <= budget then Merge(Extend(current, blocks[0]), blocks[1..], budget)
    else [current] + Merge(blocks[0], blocks[1..], budget)
  }

  function SplitText(text: string, maxTokens: nat): seq<string>
    requires maxTokens >= 1
  {
    var budget := maxTokens * CHARS_PER_TOKEN;
    Merge("", Blocks(Split(text, "\n\n"), budget), budget)
  }

  // ------------------------------------------------------------ the loops

  /** One turn of each loop. */
  lemma PiecesTurn(text: string, budget: nat)
    requires budget >= 2 && |text| > budget
    ensures var cut := Cut(text, budget);
      Pieces(text, budget) == [RStrip(text[..cut])] + Pieces(LStrip(text[cut..]), budget)
  {
  }

  lemma BlocksTurn(paragraphs: seq<string>, i: nat, budget: nat)
    requires budget >= 2 && i < |paragraphs|
    ensures Blocks(paragraphs[i..], budget)
         == ParagraphBlocks(paragraphs[i], budget) + Blocks(paragraphs[i + 1..], budget)
  {
    assert paragraphs[i..][1..] == paragraphs[i + 1..];
  }

  lemma MergeTurn(current: string, blocks: seq<string>, i: nat, budget: nat)
    requires i < |blocks|
    ensures Merge(current, blocks[i..], budget) ==
      if |Extend(current, blocks[i])| <= budget then Merge(Extend(current, blocks[i]), blocks[i + 1..], budget)
      else [current] + Merge(blocks[i], blocks[i + 1..], budget)
  {
    assert blocks[i..][1..] == blocks[i + 1..];
  }

  lemma Append<T>(done: seq<T>, next: seq<T>, rest: seq<T>)
    ensures (done + next) + rest == done + (next + rest)
  {
  }

  method HardSplit(text: string, budget: nat) returns (pieces: seq<string>)
    requires budget >= 2
    ensures pieces == Pieces(text, budget)
  {
    hide RStrip, LStrip, RFind, IsSpace;
    pieces := [];
    var remaining := text;
    while |remaining| > budget
      invariant pieces + Pieces(remaining, budget) == Pieces(text, budget)
      decreases |remaining|
    {
      hide Pieces;
      PiecesTurn(remaining, budget);
      var cut := RFind(remaining[..budget], ' ');
      if cut < budget / 2 {
        cut := budget;
      }
      Append(pieces, [RStrip(remaining[..cut])], Pieces(LStrip(remaining[cut..]), budget));
      pieces, remaining := pieces + [RStrip(remaining[..cut])], LStrip(remaining[cut..]);
    }
    if remaining != "" {
      pieces := pieces + [remaining];
    }
  }

  /** The two loops of `_split_blocks`. */
  method CollectBlocks(paragraphs: seq<string>, budget: nat) returns (blocks: seq<string>)
    requires budget >= 2
    ensures blocks == Blocks(paragraphs, budget)
  {
    hide Strip, Pieces;
    blocks := [];
    assert paragraphs[0..] == paragraphs;
    for i := 0 to |paragraphs|
      invariant blocks + Blocks(paragraphs[i..], budget) == Blocks(paragraphs, budget)
    {
      hide Blocks;
      BlocksTurn(paragraphs, i, budget);
      Append(blocks, ParagraphBlocks(paragraphs[i], budget), Blocks(paragraphs[i + 1..], budget));
      if Strip(paragraphs[i]) == "" {
        continue;
      }
      if |paragraphs[i]| <= budget {
        blocks := blocks + [paragraphs[i]];
      } else {
        var pieces := HardSplit(paragraphs[i], budget);
        blocks := blocks + pieces;
      }
    }
  }

  method MergeBlocks(blocks: seq<string>, budget: nat) returns (merged: seq<string>)
    ensures merged == Merge("", blocks, budget)
  {
    hide Extend;
    merged := [];
    var current := "";
    assert blocks[0..] == blocks;
    for i := 0 to |blocks|
      invariant merged + Merge(current, blocks[i..], budget) == Merge("", blocks, budget)
    {
      hide Merge;
      MergeTurn(current, blocks, i, budget);
      Append(merged, [current], Merge(blocks[i], blocks[i + 1..], budget));
      var candidate := Extend(current, blocks[i]);
      if |candidate| <= budget {
        current := candidate;
      } else {
        merged := merged + [current];
        current := blocks[i];
      }
    }
    if current != "" {
      merged := merged + [current];
    }
  }

  method SplitBlocks(text: string, maxTokens: nat) returns (merged: seq<string>)
    requires maxTokens >= 1
    ensures merged == SplitText(text, maxTokens)
  {
    var budget := maxTokens * CHARS_PER_TOKEN;
    var blocks := CollectBlocks(Split(text, "\n\n"), budget);
    merged := MergeBlocks(blocks, budget);
  }

  /** A content address: `sha256` taken as injective on the tenant and the text. */
  datatype Address = Address(tenant: string, content: string)

  datatype ChunkDraft = ChunkDraft(id: Address, tenant: string, source: string, content: string, tokenCount: nat)

  method Chunk(body: string, tenant: string, source: string, maxTokens: nat) returns (drafts: seq<ChunkDraft>)
    requires maxTokens >= 1
    ensures |drafts| == |ChunkTexts(body, maxTokens)|
    ensures forall i | 0 <= i < |drafts| ::
      var text := ChunkTexts(body, maxTokens)[i];
      drafts[i] == ChunkDraft(Address(tenant, text), tenant, source, text, EstimateTokens(text))
  {
    hide Normalize, SplitText, EstimateTokens;
    var normalized := Normalize(body);
    if normalized == "" {
      return [];
    }
    drafts := [];
    var pieces := SplitBlocks(normalized, maxTokens);
    for i := 0 to |pieces|
      invariant |drafts| == i
      invariant forall j | 0 <= j < i ::
        drafts[j] == ChunkDraft(Address(tenant, pieces[j]), tenant, source, pieces[j], EstimateTokens(pieces[j]))
    {
      drafts := drafts + [ChunkDraft(Address(tenant, pieces[i]), tenant, source, pieces[i], EstimateTokens(pieces[i]))];
    }
  }

  /** The contents of the chunks, in order. */
  function ChunkTexts(body: string, maxTokens: nat): seq<string>
    requires maxTokens >= 1
  {
    if Normalize(body) == "" then [] else SplitText(Normalize(body), maxTokens)
  }

  /** What `_hard_split` has left after `n` turns of its loop. */
  function Remaining(text: string, budget: nat, n: nat): string {
    if n == 0 then text
    else
      var rest := Remaining(text, budget, n - 1);
      if |rest| <= budget then rest else LStrip(rest[Cut(rest, budget)..])
  }

  /** With `max_tokens` 0 every cut is at 0: a paragraph with ink is never used up, whatever the number
      of turns, and after the first turn it does not even get shorter. */
  lemma {:induction false} ZeroBudgetNeverEnds(paragraph: string, n: nat)
    requires Strip(paragraph) != ""
    ensures Remaining(paragraph, 0, n) == if n == 0 then paragraph else LStrip(paragraph)
    ensures |Remaining(paragraph, 0, n)| > 0
  {
    hide *;
    InkIsLeft(paragraph);
    NoTurnYet(paragraph, 0);
    if n > 0 {
      ZeroBudgetNeverEnds(paragraph, n - 1);
      ZeroBudgetTurn(paragraph, n);
    }
  }

  lemma NoTurnYet(text: string, budget: nat)
    ensures Remaining(text, budget, 0) == text
  {
  }

  lemma ZeroBudgetTurn(text: string, n: nat)
    requires n > 0 && |Remaining(text, 0, n - 1)| > 0
    ensures Remaining(text, 0, n) == LStrip(Remaining(text, 0, n - 1))
  {
    var rest := Remaining(text, 0, n - 1);
    NothingCut(rest);
    hide Cut, LStrip;
    assert Remaining(text, 0, n) == LStrip(rest[Cut(rest, 0)..]);
  }

  lemma NothingCut(rest: string)
    requires |rest| > 0
    ensures Cut(rest, 0) == 0 && rest[0..] == rest
  {
  }

  lemma InkIsLeft(text: string)
    requires Strip(text) != ""
    ensures text != "" && LStrip(text) != "" && LStrip(LStrip(text)) == LStrip(text)
  {
    var r := RStrip(text);
    LStripOfPrefix(text, r);
  }

  /** Leading whitespace that leaves nothing of a text leaves nothing of a prefix of it. */
  lemma LStripOfPrefix(text: string, r: string)
    requires r <= text
    ensures LStrip(text) == "" ==> LStrip(r) == ""
  {
    hide IsSpace;
    var l := LStrip(r);
    if l != "" {
      assert l[0] == r[|r| - |l|] == text[|r| - |l|];
    }
  }
}
