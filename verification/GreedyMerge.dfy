/** Greedy merging of blocks is optimal: no way of joining consecutive blocks with blank lines
    within the budget gives fewer chunks, and greedy merging is itself such a way. */
module GreedyMerge {
  import opened Text
  import opened Chunker

  /** Groups of consecutive blocks, each non-empty and fitting the budget when joined. */
  ghost predicate Grouping(groups: seq<seq<string>>, blocks: seq<string>, budget: nat) {
    Flatten(groups) == blocks && forall g | g in groups :: g != [] && |Join(g, "\n\n")| <= budget
  }

  function Flatten(groups: seq<seq<string>>): seq<string> {
    if groups == [] then [] else groups[0] + Flatten(groups[1..])
  }

  /** The chunks a grouping stands for. */
  function Joined(groups: seq<seq<string>>): seq<string> {
    if groups == [] then [] else [Join(groups[0], "\n\n")] + Joined(groups[1..])
  }

  /** How many chunks merging still gives when the open chunk has `open` characters (0: none). */
  function Emitted(open: nat, blocks: seq<string>, budget: nat): nat
    decreases |blocks|
  {
    if blocks == [] then (if open > 0 then 1 else 0)
    else
      var b := |blocks[0]|;
      var extended := if open > 0 then open + 2 + b else b;
      if extended <= budget then Emitted(extended, blocks[1..], budget) else 1 + Emitted(b, blocks[1..], budget)
  }

  lemma {:induction false} MergeEmits(current: string, blocks: seq<string>, budget: nat)
    ensures |Merge(current, blocks, budget)| == Emitted(|current|, blocks, budget)
    decreases |blocks|
  {
    if blocks == [] {
    } else if |Extend(current, blocks[0])| <= budget {
      MergeEmits(Extend(current, blocks[0]), blocks[1..], budget);
    } else {
      MergeEmits(blocks[0], blocks[1..], budget);
    }
  }

  /** Greedy stays ahead: a shorter open chunk is never worse, and any open chunk is at most one
      chunk worse than any other. */
  lemma {:induction false} StaysAhead(x: nat, y: nat, blocks: seq<string>, budget: nat)
    requires x > 0 && y > 0
    ensures x <= y ==> Emitted(x, blocks, budget) <= Emitted(y, blocks, budget)
    ensures Emitted(x, blocks, budget) <= 1 + Emitted(y, blocks, budget)
    decreases |blocks|
  {
    if blocks != [] {
      var b, rest := |blocks[0]|, blocks[1..];
      StaysAhead(x + 2 + b, y + 2 + b, rest, budget);
      if b > 0 {
        StaysAhead(x + 2 + b, b, rest, budget);
        StaysAhead(b, y + 2 + b, rest, budget);
      } else {
        NothingOpen(x + 2, rest, budget);
        NothingOpen(y + 2, rest, budget);
      }
    }
  }

  lemma {:induction false} NothingOpen(x: nat, blocks: seq<string>, budget: nat)
    requires x > 0
    ensures Emitted(x, blocks, budget) <= 1 + Emitted(0, blocks, budget)
    ensures Emitted(0, blocks, budget) <= Emitted(x, blocks, budget)
    decreases |blocks|
  {
    if blocks != [] {
      var b, rest := |blocks[0]|, blocks[1..];
      if b == 0 {
        NothingOpen(x + 2, rest, budget);
      } else {
        StaysAhead(x + 2 + b, b, rest, budget);
        StaysAhead(b, x + 2 + b, rest, budget);
      }
    }
  }

  /** A group that fits is packed into one chunk at most. */
  lemma {:induction false} PacksGroup(open: nat, group: seq<string>, rest: seq<string>, budget: nat)
    requires group != [] && (if open > 0 then open + 2 else 0) + |Join(group, "\n\n")| <= budget
    ensures Emitted(open, group + rest, budget) <= 1 + Emitted(0, rest, budget)
    decreases |group|
  {
    var b := |group[0]|;
    var extended := if open > 0 then open + 2 + b else b;
    assert (group + rest)[1..] == group[1..] + rest;
    if |group| > 1 {
      PacksGroup(extended, group[1..], rest, budget);
    } else {
      assert group[1..] + rest == rest;
      if extended > 0 {
        NothingOpen(extended, rest, budget);
      }
    }
  }

  /** Greedy merging gives the fewest chunks among all groupings of the same blocks. */
  lemma {:induction false} GreedyIsFewest(blocks: seq<string>, groups: seq<seq<string>>, budget: nat)
    requires Grouping(groups, blocks, budget)
    ensures |Merge("", blocks, budget)| <= |groups|
    decreases |groups|
  {
    MergeEmits("", blocks, budget);
    if groups != [] {
      var rest := Flatten(groups[1..]);
      assert groups[0] in groups;
      PacksGroup(0, groups[0], rest, budget);
      GreedyIsFewest(rest, groups[1..], budget);
      MergeEmits("", rest, budget);
    }
  }

  /** So no grouping of a body's blocks within the token budget gives fewer chunks than the body has. */
  lemma ChunksAreFewest(body: string, maxTokens: nat, groups: seq<seq<string>>)
    requires maxTokens >= 1
    requires Grouping(groups, Blocks(Split(Normalize(body), "\n\n"), 4 * maxTokens), 4 * maxTokens)
    ensures |ChunkTexts(body, maxTokens)| <= |groups|
  {
    hide Normalize, Split, Blocks, Merge, Grouping;
    GreedyIsFewest(Blocks(Split(Normalize(body), "\n\n"), 4 * maxTokens), groups, 4 * maxTokens);
  }

  lemma {:induction false} JoinSnoc(parts: seq<string>, last: string, sep: string)
    requires parts != []
    ensures Join(parts + [last], sep) == Join(parts, sep) + sep + last
  {
    if |parts| == 1 {
      assert (parts + [last])[1..] == [last];
    } else {
      assert (parts + [last])[1..] == parts[1..] + [last];
      JoinSnoc(parts[1..], last, sep);
    }
  }

  /** The chunks greedy merging gives are themselves a grouping of the (non-empty) blocks. */
  lemma {:induction false} GreedyIsGrouping(open: seq<string>, blocks: seq<string>, budget: nat)
      returns (groups: seq<seq<string>>)
    requires forall b | b in blocks :: 0 < |b| <= budget
    requires |Join(open, "\n\n")| <= budget && (open == [] <==> Join(open, "\n\n") == "")
    ensures Grouping(groups, open + blocks, budget)
    ensures Joined(groups) == Merge(Join(open, "\n\n"), blocks, budget)
    decreases |blocks|
  {
    if blocks == [] {
      assert open + [] == open;
      if open == [] {
        groups := [];
      } else {
        groups := [open];
        GroupingCons(open, [], [], budget);
        assert [open] + [] == [open];
      }
    } else {
      var b, rest := blocks[0], blocks[1..];
      assert blocks == [b] + rest && b in blocks;
      OpenGrows(open, b, rest);
      hide Join, Flatten, Joined;
      if |Extend(Join(open, "\n\n"), b)| <= budget {
        groups := GreedyIsGrouping(open + [b], rest, budget);
      } else {
        var later := GreedyIsGrouping([b], rest, budget);
        groups := [open] + later;
        GroupingCons(open, later, [b] + rest, budget);
      }
    }
  }

  lemma GroupingCons(g: seq<string>, groups: seq<seq<string>>, blocks: seq<string>, budget: nat)
    requires Grouping(groups, blocks, budget) && g != [] && |Join(g, "\n\n")| <= budget
    ensures Grouping([g] + groups, g + blocks, budget)
    ensures Joined([g] + groups) == [Join(g, "\n\n")] + Joined(groups)
  {
    assert ([g] + groups)[1..] == groups;
  }

  lemma OpenGrows(open: seq<string>, b: string, rest: seq<string>)
    requires b != "" && (open == [] <==> Join(open, "\n\n") == "")
    ensures Join(open + [b], "\n\n") == Extend(Join(open, "\n\n"), b) != "" && Join([b], "\n\n") == b != ""
    ensures open + ([b] + rest) == (open + [b]) + rest
  {
    if open != [] {
      JoinSnoc(open, b, "\n\n");
    } else {
      assert open + [b] == [b];
    }
  }
}
