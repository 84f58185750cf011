/** Why the runs are measured on the normalized text: trimming line ends joins runs that the raw
    body keeps apart, so a body of short runs can still have a word broken. */
module RawRuns {
  import opened Text
  import opened Chunker
  import opened ChunkerTheorems

  /** `sep` (of one or two characters) does not start at `k`. */
  predicate Misses(s: string, sep: string, k: nat) {
    k + |sep| <= |s| ==> 1 <= |sep| <= 2 && (s[k] != sep[0] || (|sep| == 2 && s[k + 1] != sep[1]))
  }

  lemma {:induction false} FirstOccurrence(s: string, sep: string, i: nat)
    requires 1 <= |sep| <= 2 && i <= |s| && forall k | 0 <= k < i :: Misses(s, sep, k)
    requires i < |s| ==> i + |sep| <= |s| && s[i..i + |sep|] == sep
    ensures IndexOf(s, sep) == i
  {
    if i > 0 {
      assert Misses(s, sep, 0);
      forall k | 0 <= k < i - 1 ensures Misses(s[1..], sep, k) {
        assert Misses(s, sep, k + 1);
      }
      assert i < |s| ==> s[1..][i - 1..i - 1 + |sep|] == s[i..i + |sep|];
      FirstOccurrence(s[1..], sep, i - 1);
    } else if s != "" {
      assert s[0..0 + |sep|] == s[..|sep|];
    }
  }

  lemma SplitFirst(s: string, sep: string, i: nat)
    requires 1 <= |sep| <= 2 && i <= |s| && forall k | 0 <= k < i :: Misses(s, sep, k)
    requires i < |s| ==> i + |sep| <= |s| && s[i..i + |sep|] == sep
    ensures Split(s, sep) == if i == |s| then [s] else [s[..i]] + Split(s[i + |sep|..], sep)
  {
    FirstOccurrence(s, sep, i);
    SplitAt(s, sep, i);
  }

  lemma SplitAt(s: string, sep: string, i: nat)
    requires sep != "" && IndexOf(s, sep) == i
    ensures i < |s| ==> i + |sep| <= |s|
    ensures Split(s, sep) == if i == |s| then [s] else [s[..i]] + Split(s[i + |sep|..], sep)
  {
    hide *;
    SplitTurn(s, sep);
  }

  lemma SplitTurn(s: string, sep: string)
    requires sep != ""
    ensures var i := IndexOf(s, sep);
      Split(s, sep) == if i == |s| then [s] else [s[..i]] + Split(s[i + |sep|..], sep)
  {
    hide IndexOf;
  }

  lemma RawHasUnixLines()
    ensures Split("aaa \naa \naa", "\r\n") == ["aaa \naa \naa"]
  {
    SplitFirst("aaa \naa \naa", "\r\n", 11);
  }

  lemma RawLines()
    ensures Split("aaa \naa \naa", "\n") == ["aaa ", "aa ", "aa"]
  {
    hide Split;
    SplitFirst("aaa \naa \naa", "\n", 4);
    assert "aaa \naa \naa"[..4] == "aaa " && "aaa \naa \naa"[5..] == "aa \naa";
    SplitFirst("aa \naa", "\n", 3);
    assert "aa \naa"[..3] == "aa " && "aa \naa"[4..] == "aa";
    SplitFirst("aa", "\n", 2);
  }

  lemma TrimmedLines()
    ensures Strip(Join(RStripAll(["aaa ", "aa ", "aa"]), "\n")) == "aaa\naa\naa"
  {
    assert "aaa "[..3] == "aaa" && "aa "[..2] == "aa";
    assert RStripAll(["aaa ", "aa ", "aa"]) == ["aaa"] + RStripAll(["aa ", "aa"]);
    assert RStripAll(["aa ", "aa"]) == ["aa"] + RStripAll(["aa"]);
    assert RStripAll(["aa"]) == ["aa"];
    var t := Join(["aaa", "aa", "aa"], "\n");
    assert t == "aaa\n" + Join(["aa", "aa"], "\n");
    assert t == "aaa\naa\naa";
  }

  lemma NormalizedRaw()
    ensures Normalize("aaa \naa \naa") == "aaa\naa\naa"
  {
    RawHasUnixLines();
    RawLines();
    TrimmedLines();
    hide Split, Strip, RStripAll;
    assert Join(["aaa \naa \naa"], "\n") == "aaa \naa \naa";
  }

  /** A window without ' ' is cut at its end, inside a word if both sides are ink. */
  lemma BreaksAtWindow(text: string, budget: nat)
    requires budget >= 2 && budget < |text| <= 2 * budget && ' ' !in text[..budget]
    requires !IsSpace(text[budget - 1]) && !IsSpace(text[budget])
    ensures BrokenWords(text, budget) == 1
  {
    hide RFind, LStrip, IsSpace;
    var c := RFind(text[..budget], ' ');
    assert c == -1;
    var head, tail := text[..budget], text[budget..];
    assert head[|head| - 1] == text[budget - 1] && tail[0] == text[budget];
    assert Fuses(head, tail) && |LStrip(tail)| <= budget;
    hide Fuses, Cut;
  }

  lemma TrimmedIsOneParagraph(text: string)
    requires text == "aaa\naa\naa"
    ensures BrokenWordsOf(Split(text, "\n\n"), 8) == 1
  {
    hide *;
    TrimmedHasInk(text);
    TrimmedBreaks(text);
    TrimmedSplits(text);
    OneParagraph(text, 8);
  }

  lemma TrimmedSplits(text: string)
    requires text == "aaa\naa\naa"
    ensures Split(text, "\n\n") == [text]
  {
    hide Split;
    SplitFirst(text, "\n\n", 9);
  }

  lemma OneParagraph(text: string, budget: nat)
    requires budget >= 2 && Strip(text) != "" && |text| > budget
    ensures BrokenWordsOf([text], budget) == BrokenWords(text, budget)
  {
    hide Strip, BrokenWords;
    assert [text][1..] == [];
  }

  lemma TrimmedHasInk(text: string)
    requires text == "aaa\naa\naa"
    ensures Strip(text) != ""
  {
    assert !IsSpace(text[0]);
    assert Ink(text) != "";
    BlankHasNothing(text);
  }

  lemma TrimmedBreaks(text: string)
    requires text == "aaa\naa\naa"
    ensures BrokenWords(text, 8) == 1
  {
    hide BrokenWords;
    assert text[..8] == "aaa\naa\na" && !IsSpace(text[7]) && !IsSpace(text[8]);
    BreaksAtWindow(text, 8);
  }

  /** Every run of the raw body is shorter than half the budget, and yet a word is broken. */
  lemma ShortRawRunsAreNotEnough() returns (body: string, maxTokens: nat)
    ensures maxTokens >= 1 && ShortRuns(body, 2 * maxTokens) && !ShortRuns(Normalize(body), 2 * maxTokens)
    ensures Broken(body, maxTokens) == 1 && WordsOf(ChunkTexts(body, maxTokens)) != Words(body)
  {
    body, maxTokens := "aaa \naa \naa", 2;
    var text := "aaa\naa\naa";
    forall i | 0 <= i <= 7 ensures BlankWithin(body, i, 4) {
      assert body[3] == ' ' && body[7] == ' ';
    }
    assert !BlankWithin(text, 0, 4);
    NormalizedRaw();
    TrimmedIsOneParagraph(text);
    hide Normalize, Split, Words, WordsOf, ChunkTexts, BrokenWordsOf;
    ChunksKeepWords(body, 2);
  }
}
