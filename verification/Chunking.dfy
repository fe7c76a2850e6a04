/** Document chunking (services/knowledge/src/index.ts:281-321, 915-938): paragraphs are packed greedily
    into chunks of limited length, and a paragraph that is too long is split greedily at its spaces. */
module Chunking {
  import opened Utf16
  import opened DocumentWords
  import opened Sequences

  const GAP: Text := [SPACE]

  function IndexOfSpace(t: Text): (k: int)
    ensures -1 <= k < |t|
    ensures k >= 0 ==> t[k] == SPACE
  {
    if t == [] then -1
    else if t[0] == SPACE then 0
    else
      var k := IndexOfSpace(t[1..]);
      if k < 0 then -1 else k + 1
  }

  /** `split(" ")`. */
  function SplitSpaces(t: Text): (words: seq<Text>)
    ensures words != []
    decreases |t|
  {
    var k := IndexOfSpace(t);
    if k < 0 then [t] else [t[..k]] + SplitSpaces(t[k + 1..])
  }

  lemma {:induction false} SplitSpacesJoins(t: Text)
    ensures Join(SplitSpaces(t), GAP) == t
    decreases |t|
  {
    var k := IndexOfSpace(t);
    if k >= 0 {
      SplitSpacesJoins(t[k + 1..]);
      assert t == t[..k] + GAP + t[k + 1..];
    }
  }

  predicate AllNonempty(words: seq<Text>) {
    forall i :: 0 <= i < |words| ==> words[i] != []
  }

  lemma {:induction false} NormalSplitsIntoWords(t: Text)
    requires Normal(t)
    ensures AllNonempty(SplitSpaces(t))
    decreases |t|
  {
    var k := IndexOfSpace(t);
    if k >= 0 {
      assert k > 0 && k + 1 < |t| && t[k + 1] != SPACE;
      AfterSpace(t, k);
    }
  }

  /** The rest of a normal text after one of its spaces starts with a word. */
  lemma {:induction false} AfterSpace(t: Text, k: nat)
    requires k + 1 < |t| && NoDoubleSpace(t) && t[k] == SPACE && !IsSpace(t[|t| - 1])
    ensures AllNonempty(SplitSpaces(t[k + 1..]))
    decreases |t| - k
  {
    var rest := t[k + 1..];
    var j := IndexOfSpace(rest);
    assert rest[0] == t[k + 1] != SPACE;
    if j >= 0 {
      assert t[k + 1 + j] == SPACE;
      assert rest[j + 1..] == t[k + 2 + j..];
      AfterSpace(t, k + 1 + j);
    }
  }

  // Splitting a long paragraph.

  /** Length of the words joined by single spaces. */
  function Width(words: seq<Text>): int {
    if words == [] then -1 else |words[0]| + 1 + Width(words[1..])
  }

  lemma {:induction false} JoinWidth(words: seq<Text>)
    requires words != []
    ensures |Join(words, GAP)| == Width(words)
  {
    if |words| > 1 {
      JoinWidth(words[1..]);
    }
  }

  lemma {:induction false} WidthSnoc(words: seq<Text>, w: Text)
    ensures Width(words + [w]) == Width(words) + 1 + |w|
  {
    if words != [] {
      assert (words + [w])[1..] == words[1..] + [w];
      WidthSnoc(words[1..], w);
    }
  }

  /** How many words the piece that already holds the first `k` takes. */
  function Extend(words: seq<Text>, k: nat, limit: nat): (n: nat)
    requires k <= |words|
    ensures k <= n <= |words|
    decreases |words| - k
  {
    if k < |words| && Width(words[..k + 1]) <= limit then Extend(words, k + 1, limit) else k
  }

  /** A piece takes at least one word. */
  function Take(words: seq<Text>, limit: nat): (n: nat)
    requires words != []
    ensures 1 <= n <= |words|
  {
    Extend(words, 1, limit)
  }

  /** The words of the pieces. */
  function Groups(words: seq<Text>, limit: nat): seq<seq<Text>>
    decreases |words|
  {
    if words == [] then []
    else
      var n := Take(words, limit);
      [words[..n]] + Groups(words[n..], limit)
  }

  function Pieces(groups: seq<seq<Text>>): seq<Text> {
    if groups == [] then [] else [Join(groups[0], GAP)] + Pieces(groups[1..])
  }

  lemma {:induction false} JoinSnoc(words: seq<Text>, w: Text)
    requires words != []
    ensures Join(words + [w], GAP) == Join(words, GAP) + GAP + w
  {
    if |words| > 1 {
      assert (words + [w])[1..] == words[1..] + [w];
      JoinSnoc(words[1..], w);
    } else {
      assert words + [w] == [words[0], w] && [words[0], w][1..] == [w];
    }
  }

  /** The rest of the loop: `done` is out, `current` is being built as text. */
  function Greedy(done: seq<Text>, current: Text, words: seq<Text>, limit: nat): seq<Text>
    decreases |words|
  {
    if words == [] then if current == [] then done else done + [current]
    else
      var candidate := if current == [] then words[0] else current + GAP + words[0];
      if |candidate| <= limit then Greedy(done, candidate, words[1..], limit)
      else Greedy(if current == [] then done else done + [current], words[0], words[1..], limit)
  }

  method SplitLongParagraph(paragraph: Text, maxChunkChars: nat) returns (chunks: seq<Text>)
    ensures chunks == Greedy([], [], SplitSpaces(paragraph), maxChunkChars)
    ensures Normal(paragraph) ==> chunks == Pieces(Groups(SplitSpaces(paragraph), maxChunkChars))
  {
    var words := SplitSpaces(paragraph);
    chunks := [];
    var current: Text := [];
    for i := 0 to |words|
      invariant Greedy(chunks, current, words[i..], maxChunkChars) == Greedy([], [], words, maxChunkChars)
    {
      var word := words[i];
      assert words[i..][1..] == words[i + 1..];
      var candidate := if current == [] then word else current + GAP + word;
      if |candidate| <= maxChunkChars {
        current := candidate;
      } else {
        if current != [] {
          chunks := chunks + [current];
        }
        current := word;
      }
    }
    if current != [] {
      chunks := chunks + [current];
    }
    if Normal(paragraph) {
      NormalSplitsIntoWords(paragraph);
      GreedyTakesGroups(words, maxChunkChars);
    }
  }

  lemma {:induction false} GreedyBuildsGroup(done: seq<Text>, group: seq<Text>, rest: seq<Text>, limit: nat)
    requires group != [] && AllNonempty(group) && AllNonempty(rest)
    requires Extend(group + rest, |group|, limit) == Take(group + rest, limit)
    ensures Greedy(done, Join(group, GAP), rest, limit) == done + Pieces(Groups(group + rest, limit))
    decreases |rest|
  {
    var all := group + rest;
    assert all[..|group|] == group && all[|group|..] == rest;
    if rest == [] {
      assert all == group;
      assert Groups(all, limit) == [group] + Groups([], limit) == [group];
      assert Pieces([group]) == [Join(group, GAP)] + Pieces([]);
    } else {
      var w, more := rest[0], rest[1..];
      JoinSnoc(group, w);
      JoinWidth(group + [w]);
      assert all[..|group| + 1] == group + [w];
      if Width(group + [w]) <= limit {
        assert group + [w] + more == all;
        GreedyBuildsGroup(done, group + [w], more, limit);
      } else {
        assert [w] + more == rest;
        GreedyBuildsGroup(done + [Join(group, GAP)], [w], more, limit);
        GroupEnds(group, rest, limit);
        Regroup(done, [Join(group, GAP)], Pieces(Groups(rest, limit)));
      }
    }
  }

  lemma GroupEnds(group: seq<Text>, rest: seq<Text>, limit: nat)
    requires group != [] && Take(group + rest, limit) == |group|
    ensures Pieces(Groups(group + rest, limit)) == [Join(group, GAP)] + Pieces(Groups(rest, limit))
  {
    var all := group + rest;
    assert all[..|group|] == group && all[|group|..] == rest;
    assert Groups(all, limit) == [group] + Groups(rest, limit);
  }

  /** The loop produces the greedy groups. */
  lemma GreedyTakesGroups(words: seq<Text>, limit: nat)
    requires words != [] && AllNonempty(words)
    ensures Greedy([], [], words, limit) == Pieces(Groups(words, limit))
  {
    var w := words[0];
    assert [w] + words[1..] == words;
    GreedyBuildsGroup([], [w], words[1..], limit);
  }

  function ConcatGroups(groups: seq<seq<Text>>): seq<Text> {
    if groups == [] then [] else groups[0] + ConcatGroups(groups[1..])
  }

  /** A way to cut the words, in order, into groups that are within the limit or a single word. */
  predicate FittingSplit(groups: seq<seq<Text>>, words: seq<Text>, limit: nat) {
    ConcatGroups(groups) == words && forall g | g in groups :: g != [] && (Width(g) <= limit || |g| == 1)
  }

  /** The pieces hold all the words, in order. */
  lemma {:induction false} GroupsKeepWords(words: seq<Text>, limit: nat)
    ensures ConcatGroups(Groups(words, limit)) == words
    decreases |words|
  {
    if words != [] {
      var n := Take(words, limit);
      GroupsKeepWords(words[n..], limit);
    }
  }

  /** Lossless: joining the pieces with spaces gives back the paragraph. */
  lemma SplitIsLossless(paragraph: Text, limit: nat)
    ensures Join(Pieces(Groups(SplitSpaces(paragraph), limit)), GAP) == paragraph
  {
    var words := SplitSpaces(paragraph);
    GroupsAreNonempty(words, limit);
    JoinOfPieces(Groups(words, limit));
    GroupsKeepWords(words, limit);
    SplitSpacesJoins(paragraph);
  }

  lemma {:induction false} GroupsAreNonempty(words: seq<Text>, limit: nat)
    ensures forall g | g in Groups(words, limit) :: g != []
    decreases |words|
  {
    if words != [] {
      GroupsAreNonempty(words[Take(words, limit)..], limit);
    }
  }

  lemma {:induction false} JoinOfPieces(groups: seq<seq<Text>>)
    requires forall g | g in groups :: g != []
    ensures Join(Pieces(groups), GAP) == Join(ConcatGroups(groups), GAP)
  {
    if |groups| == 1 {
      assert groups[1..] == [] && groups[0] + [] == groups[0];
      assert Pieces(groups) == [Join(groups[0], GAP)];
    } else if |groups| > 1 {
      assert groups[0] in groups && groups[1] in groups && forall g | g in groups[1..] :: g in groups;
      JoinOfPieces(groups[1..]);
      JoinAppend(groups[0], ConcatGroups(groups[1..]));
      assert Pieces(groups)[1..] == Pieces(groups[1..]);
    }
  }

  lemma {:induction false} JoinAppend(a: seq<Text>, b: seq<Text>)
    requires a != [] && b != []
    ensures Join(a + b, GAP) == Join(a, GAP) + GAP + Join(b, GAP)
  {
    if |a| == 1 {
      assert (a + b)[1..] == b;
    } else {
      assert (a + b)[1..] == a[1..] + b;
      JoinAppend(a[1..], b);
    }
  }

  lemma {:induction false} ExtendFits(words: seq<Text>, k: nat, limit: nat)
    requires k <= |words|
    ensures Extend(words, k, limit) == k || Width(words[..Extend(words, k, limit)]) <= limit
    decreases |words| - k
  {
    if k < |words| && Width(words[..k + 1]) <= limit {
      ExtendFits(words, k + 1, limit);
    }
  }

  /** Every piece is within the limit, unless it is a single word. */
  lemma {:induction false} PiecesFitUnlessOneWord(words: seq<Text>, limit: nat)
    ensures forall g | g in Groups(words, limit) :: |Join(g, GAP)| <= limit || |g| == 1
    decreases |words|
  {
    if words != [] {
      var n := Take(words, limit);
      ExtendFits(words, 1, limit);
      JoinWidth(words[..n]);
      PiecesFitUnlessOneWord(words[n..], limit);
    }
  }

  lemma {:induction false} WidthGrows(words: seq<Text>, i: nat, j: nat)
    requires i <= j <= |words|
    ensures Width(words[..i]) <= Width(words[..j])
    decreases j - i
  {
    if i < j {
      WidthGrows(words, i, j - 1);
      assert words[..j] == words[..j - 1] + [words[j - 1]];
      WidthSnoc(words[..j - 1], words[j - 1]);
    }
  }

  /** A greedy piece takes at least as many words as any fitting prefix. */
  lemma {:induction false} ExtendIsLongest(words: seq<Text>, k: nat, m: nat, limit: nat)
    requires k <= m <= |words| && Width(words[..m]) <= limit
    ensures Extend(words, k, limit) >= m
    decreases m - k
  {
    if k < m {
      WidthGrows(words, k + 1, m);
      ExtendIsLongest(words, k + 1, m, limit);
    }
  }

  /** Dropping the first word never needs more pieces. */
  lemma {:induction false} FewerWordsFewerPieces(words: seq<Text>, limit: nat)
    requires words != []
    ensures |Groups(words[1..], limit)| <= |Groups(words, limit)|
    decreases |words|, 0
  {
    var n := Take(words, limit);
    if n > 1 {
      var k := RestTakesAsFar(words, limit);
      SuffixNeedsNoMorePieces(words[n..], k, limit);
    } else {
      assert Groups(words, limit)[1..] == Groups(words[1..], limit);
    }
  }

  /** Without the first word, the first greedy piece ends no earlier. */
  lemma RestTakesAsFar(words: seq<Text>, limit: nat) returns (k: nat)
    requires words != [] && Take(words, limit) > 1
    ensures k <= |words[Take(words, limit)..]|
    ensures words[1..][Take(words[1..], limit)..] == words[Take(words, limit)..][k..]
  {
    var n, rest := Take(words, limit), words[1..];
    ExtendFits(words, 1, limit);
    assert words[..n][1..] == rest[..n - 1];
    assert Width(rest[..n - 1]) <= limit;
    ExtendIsLongest(rest, 1, n - 1, limit);
    k := Take(rest, limit) + 1 - n;
  }

  lemma {:induction false} SuffixNeedsNoMorePieces(words: seq<Text>, k: nat, limit: nat)
    requires k <= |words|
    ensures |Groups(words[k..], limit)| <= |Groups(words, limit)|
    decreases |words|, k
  {
    if k > 0 {
      SuffixNeedsNoMorePieces(words, k - 1, limit);
      FewerWordsFewerPieces(words[k - 1..], limit);
      assert words[k - 1..][1..] == words[k..];
    } else {
      assert words[0..] == words;
    }
  }

  /** What greedy does is itself such a split. */
  lemma GreedyIsFittingSplit(words: seq<Text>, limit: nat)
    ensures FittingSplit(Groups(words, limit), words, limit)
  {
    GroupsKeepWords(words, limit);
    GroupsAreNonempty(words, limit);
    PiecesFitUnlessOneWord(words, limit);
    forall g | g in Groups(words, limit)
      ensures Width(g) <= limit || |g| == 1
    {
      JoinWidth(g);
    }
  }

  /** Greedy is optimal, with over-long words or without: no in-order split into pieces that are within the
      limit or a single word uses fewer pieces. */
  lemma {:induction false} GreedyUsesFewestPieces(words: seq<Text>, groups: seq<seq<Text>>, limit: nat)
    requires FittingSplit(groups, words, limit)
    ensures |Groups(words, limit)| <= |groups|
    decreases |groups|
  {
    if groups != [] {
      var m := |groups[0]|;
      assert groups[0] in groups;
      assert words[..m] == groups[0] && words[m..] == ConcatGroups(groups[1..]);
      GreedyUsesFewestPieces(words[m..], groups[1..], limit);
      GreedyGoesAsFar(words, m, limit);
    }
  }

  /** After a fitting first piece, greedy has no more left to place. */
  lemma GreedyGoesAsFar(words: seq<Text>, m: nat, limit: nat)
    requires 0 < m <= |words| && (Width(words[..m]) <= limit || m == 1)
    ensures |Groups(words, limit)| <= 1 + |Groups(words[m..], limit)|
  {
    var n := Take(words, limit);
    if m > 1 {
      ExtendIsLongest(words, 1, m, limit);
    }
    assert words[n..] == words[m..][n - m..];
    SuffixNeedsNoMorePieces(words[m..], n - m, limit);
  }
}
