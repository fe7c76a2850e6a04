/** `chunkDocumentText` (services/knowledge/src/index.ts:281-321): what the chunks of a document keep. */
module DocumentChunks {
  import opened Utf16
  import opened DocumentWords
  import opened Chunking
  import opened Sequences

  /** A chunk is a run of whole paragraphs, or a piece of one that is too long. */
  datatype Chunk = Packed(paragraphs: seq<Text>) | Piece(words: seq<Text>)

  function Render(c: Chunk): Text {
    match c
    case Packed(paragraphs) => Join(paragraphs, BLANK_LINE)
    case Piece(words) => Join(words, GAP)
  }

  function Texts(chunks: seq<Chunk>): seq<Text> {
    if chunks == [] then [] else Texts(chunks[..|chunks| - 1]) + [Render(chunks[|chunks| - 1])]
  }

  function Flushed(done: seq<Chunk>, current: seq<Text>): seq<Chunk> {
    if current == [] then done else done + [Packed(current)]
  }

  function PieceChunks(groups: seq<seq<Text>>): seq<Chunk> {
    if groups == [] then [] else [Piece(groups[0])] + PieceChunks(groups[1..])
  }

  /** One turn of the loop: `done` is out, `current` holds the paragraphs being packed. */
  function Turn(done: seq<Chunk>, current: seq<Text>, p: Text, limit: nat): (seq<Chunk>, seq<Text>) {
    if |p| > limit then (Flushed(done, current) + PieceChunks(Groups(SplitSpaces(p), limit)), [])
    else if current == [] || |Join(current + [p], BLANK_LINE)| <= limit then (done, current + [p])
    else (done + [Packed(current)], [p])
  }

  /** The rest of the loop. */
  function Plan(done: seq<Chunk>, current: seq<Text>, paragraphs: seq<Text>, limit: nat): seq<Chunk>
    decreases |paragraphs|
  {
    if paragraphs == [] then Flushed(done, current)
    else
      var (done', current') := Turn(done, current, paragraphs[0], limit);
      Plan(done', current', paragraphs[1..], limit)
  }

  function DocumentPlan(text: Text, limit: nat): seq<Chunk> {
    Plan([], [], Paragraphs(text), limit)
  }

  lemma {:induction false} TextsAppend(a: seq<Chunk>, b: seq<Chunk>)
    ensures Texts(a + b) == Texts(a) + Texts(b)
    decreases |b|
  {
    if b == [] {
      assert a + b == a;
    } else {
      var n := |b| - 1;
      assert (a + b)[..|a| + n] == a + b[..n];
      TextsAppend(a, b[..n]);
    }
  }

  lemma {:induction false} PieceTexts(groups: seq<seq<Text>>)
    ensures Texts(PieceChunks(groups)) == Pieces(groups)
  {
    if groups != [] {
      PieceTexts(groups[1..]);
      TextsAppend([Piece(groups[0])], PieceChunks(groups[1..]));
      assert Texts([Piece(groups[0])]) == [] + [Join(groups[0], GAP)];
    }
  }

  lemma {:induction false} JoinParagraphSnoc(ps: seq<Text>, p: Text)
    requires ps != []
    ensures Join(ps + [p], BLANK_LINE) == Join(ps, BLANK_LINE) + BLANK_LINE + p
  {
    if |ps| > 1 {
      assert (ps + [p])[1..] == ps[1..] + [p];
      JoinParagraphSnoc(ps[1..], p);
    } else {
      assert ps + [p] == [ps[0], p] && [ps[0], p][1..] == [p];
    }
  }

  method ChunkDocumentText(text: Text, maxChunkChars: nat) returns (chunks: seq<Text>)
    ensures chunks == Texts(DocumentPlan(text, maxChunkChars))
  {
    ParagraphsOfTextAreNormal(text);
    chunks := PackParagraphs(Paragraphs(text), maxChunkChars);
  }

  /** The loop over the normalised paragraphs; the chunk being packed is kept as text. */
  method PackParagraphs(paragraphs: seq<Text>, limit: nat) returns (chunks: seq<Text>)
    requires forall p | p in paragraphs :: Normal(p)
    ensures chunks == Texts(Plan([], [], paragraphs, limit))
  {
    chunks := [];
    var current: Text := [];
    ghost var done: seq<Chunk>, packed: seq<Text> := [], [];
    for i := 0 to |paragraphs|
      invariant Plan(done, packed, paragraphs[i..], limit) == Plan([], [], paragraphs, limit)
      invariant chunks == Texts(done)
      invariant current == Join(packed, BLANK_LINE)
      invariant current == [] <==> packed == []
    {
      var paragraph := paragraphs[i];
      assert paragraph in paragraphs;
      assert paragraphs[i..][1..] == paragraphs[i + 1..];
      if packed != [] {
        JoinParagraphSnoc(packed, paragraph);
      }
      if |paragraph| > limit || (current != [] && |current + BLANK_LINE + paragraph| > limit) {
        if current != [] {
          chunks := chunks + [current];
          assert (done + [Packed(packed)])[..|done|] == done;
        }
        done := Flushed(done, packed);
        current, packed := [], [];
      }
      if |paragraph| > limit {
        var pieces := SplitLongParagraph(paragraph, limit);
        ghost var groups := Groups(SplitSpaces(paragraph), limit);
        PieceTexts(groups);
        TextsAppend(done, PieceChunks(groups));
        chunks := chunks + pieces;
        done := done + PieceChunks(groups);
      } else {
        current := if current == [] then paragraph else current + BLANK_LINE + paragraph;
        assert [] + [paragraph] == [paragraph];
        packed := packed + [paragraph];
      }
    }
    if current != [] {
      chunks := chunks + [current];
      assert (done + [Packed(packed)])[..|done|] == done;
    }
  }

  // What the chunks keep.

  lemma {:induction false} WordsOfSplit(p: Text, limit: nat)
    ensures WordsOfAll(Texts(PieceChunks(Groups(SplitSpaces(p), limit)))) == Words(p)
  {
    var groups := Groups(SplitSpaces(p), limit);
    PieceTexts(groups);
    SplitIsLossless(p, limit);
    WordsOfJoin(Pieces(groups), GAP);
  }

  lemma FlushedWords(done: seq<Chunk>, current: seq<Text>)
    ensures WordsOfAll(Texts(Flushed(done, current))) == WordsOfAll(Texts(done)) + WordsOfAll(current)
  {
    if current != [] {
      assert (done + [Packed(current)])[..|done|] == done;
      WordsOfAllAppend(Texts(done), [Join(current, BLANK_LINE)]);
      WordsOfJoin(current, BLANK_LINE);
      assert WordsOfAll([Join(current, BLANK_LINE)]) == Words(Join(current, BLANK_LINE)) + WordsOfAll([]);
    }
  }

  lemma WordsOfOneMore(current: seq<Text>, p: Text)
    ensures WordsOfAll(current + [p]) == WordsOfAll(current) + Words(p)
  {
    WordsOfAllAppend(current, [p]);
    assert WordsOfAll([p]) == Words(p) + WordsOfAll([]);
  }

  function WordsSoFar(done: seq<Chunk>, current: seq<Text>): seq<Text> {
    WordsOfAll(Texts(done)) + WordsOfAll(current)
  }

  lemma WordsOfNextPieces(done: seq<Chunk>, current: seq<Text>, p: Text, limit: nat)
    ensures WordsSoFar(Flushed(done, current) + PieceChunks(Groups(SplitSpaces(p), limit)), [])
         == WordsSoFar(done, current) + Words(p)
  {
    var pieces := PieceChunks(Groups(SplitSpaces(p), limit));
    FlushedWords(done, current);
    TextsAppend(Flushed(done, current), pieces);
    WordsOfAllAppend(Texts(Flushed(done, current)), Texts(pieces));
    WordsOfSplit(p, limit);
  }

  lemma WordsOfNextChunk(done: seq<Chunk>, current: seq<Text>, p: Text)
    requires current != []
    ensures WordsSoFar(done + [Packed(current)], [p]) == WordsSoFar(done, current) + Words(p)
  {
    FlushedWords(done, current);
    WordsOfOneMore([], p);
    assert [] + [p] == [p];
  }

  /** One turn of the loop moves the words of one paragraph. */
  lemma TurnKeepsWords(done: seq<Chunk>, current: seq<Text>, p: Text, limit: nat)
    ensures var (done', current') := Turn(done, current, p, limit);
      WordsSoFar(done', current') == WordsSoFar(done, current) + Words(p)
  {
    if |p| > limit {
      WordsOfNextPieces(done, current, p, limit);
    } else if current == [] || |Join(current + [p], BLANK_LINE)| <= limit {
      WordsOfOneMore(current, p);
    } else {
      WordsOfNextChunk(done, current, p);
    }
  }

  lemma {:induction false} PlanKeepsWords(
      done: seq<Chunk>, current: seq<Text>, paragraphs: seq<Text>, limit: nat, chunks: seq<Chunk>)
    requires chunks == Plan(done, current, paragraphs, limit)
    ensures WordsOfAll(Texts(chunks)) == WordsSoFar(done, current) + WordsOfAll(paragraphs)
    decreases |paragraphs|
  {
    if paragraphs == [] {
      FlushedWords(done, current);
    } else {
      var (done', current') := Turn(done, current, paragraphs[0], limit);
      TurnKeepsWords(done, current, paragraphs[0], limit);
      PlanKeepsWords(done', current', paragraphs[1..], limit, chunks);
      Regroup(WordsSoFar(done, current), Words(paragraphs[0]), WordsOfAll(paragraphs[1..]));
    }
  }

  /** Lossless: the chunks of a document hold exactly its words, in order. */
  lemma ChunksKeepEveryWord(text: Text, limit: nat)
    ensures WordsOfAll(Texts(DocumentPlan(text, limit))) == Words(text)
  {
    PlanKeepsWords([], [], Paragraphs(text), limit, DocumentPlan(text, limit));
    ParagraphsKeepWords(text);
    assert WordsSoFar([], []) + WordsOfAll(Paragraphs(text)) == WordsOfAll(Paragraphs(text));
  }

  /** The chunk is not empty and is within the limit, unless it is one unbreakable word. */
  predicate Sized(c: Chunk, limit: nat) {
    Render(c) != [] && (|Render(c)| <= limit || (c.Piece? && |c.words| == 1))
  }

  /** The first of two neighbours could not have taken the next paragraph. */
  predicate Tight(a: Chunk, b: Chunk, limit: nat) {
    a.Packed? && b.Packed? ==> b.paragraphs != [] && |Join(a.paragraphs + [b.paragraphs[0]], BLANK_LINE)| > limit
  }

  predicate WellPacked(chunks: seq<Chunk>, limit: nat) {
    && (forall c | c in chunks :: Sized(c, limit))
    && (forall i :: 0 < i < |chunks| ==> Tight(chunks[i - 1], chunks[i], limit))
  }

  lemma WellPackedAppend(a: seq<Chunk>, b: seq<Chunk>, limit: nat)
    requires WellPacked(a, limit) && WellPacked(b, limit)
    requires a != [] && b != [] ==> Tight(a[|a| - 1], b[0], limit)
    ensures WellPacked(a + b, limit)
  {
    var ab := a + b;
    forall i | 0 < i < |ab|
      ensures Tight(ab[i - 1], ab[i], limit)
    {
      if i > |a| {
        assert ab[i - 1] == b[i - 1 - |a|] && ab[i] == b[i - |a|];
      }
    }
  }

  lemma PieceChunksAreWellPacked(p: Text, limit: nat)
    requires Normal(p)
    ensures WellPacked(PieceChunks(Groups(SplitSpaces(p), limit)), limit)
    ensures PieceChunks(Groups(SplitSpaces(p), limit)) != []
    ensures forall c | c in PieceChunks(Groups(SplitSpaces(p), limit)) :: c.Piece?
  {
    var words := SplitSpaces(p);
    var groups := Groups(words, limit);
    NormalSplitsIntoWords(p);
    PiecesFitUnlessOneWord(words, limit);
    GroupsJoinNonempty(words, limit);
    PieceChunksHoldGroups(groups);
    var pieces := PieceChunks(groups);
    forall i | 0 < i < |pieces|
      ensures Tight(pieces[i - 1], pieces[i], limit)
    {
      assert pieces[i] in pieces;
    }
  }

  lemma {:induction false} GroupsJoinNonempty(words: seq<Text>, limit: nat)
    requires AllNonempty(words)
    ensures forall g | g in Groups(words, limit) :: Join(g, GAP) != []
    decreases |words|
  {
    if words != [] {
      GroupsJoinNonempty(words[Take(words, limit)..], limit);
    }
  }

  lemma {:induction false} PieceChunksHoldGroups(groups: seq<seq<Text>>)
    ensures |PieceChunks(groups)| == |groups|
    ensures forall c | c in PieceChunks(groups) :: c.Piece? && c.words in groups
  {
    if groups != [] {
      PieceChunksHoldGroups(groups[1..]);
    }
  }

  lemma WellPackedPrefix(done: seq<Chunk>, c: Chunk, limit: nat)
    requires WellPacked(done + [c], limit)
    ensures WellPacked(done, limit)
    ensures done != [] ==> Tight(done[|done| - 1], c, limit)
  {
    var all := done + [c];
    assert forall i :: 0 <= i < |done| ==> all[i] == done[i];
    assert done != [] ==> Tight(all[|done| - 1], all[|done|], limit);
  }

  lemma JoinParagraphsNonempty(current: seq<Text>, p: Text)
    requires p != []
    ensures Join(current + [p], BLANK_LINE) != []
  {
    if current != [] {
      JoinParagraphSnoc(current, p);
    }
  }

  lemma GrownChunkIsWellPacked(done: seq<Chunk>, current: seq<Text>, p: Text, limit: nat)
    requires WellPacked(Flushed(done, current), limit) && Separated(done, current)
    requires p != [] && |Join(current + [p], BLANK_LINE)| <= limit
    ensures WellPacked(done + [Packed(current + [p])], limit)
  {
    JoinParagraphsNonempty(current, p);
    if current != [] {
      WellPackedPrefix(done, Packed(current), limit);
      assert (current + [p])[0] == current[0];
    }
    WellPackedAppend(done, [Packed(current + [p])], limit);
  }

  /** A chunk is opened at the start, after a piece, or with the paragraph that no longer fitted. */
  predicate Separated(done: seq<Chunk>, current: seq<Text>) {
    current == [] && done != [] ==> done[|done| - 1].Piece?
  }

  lemma {:induction false} PlanIsWellPacked(done: seq<Chunk>, current: seq<Text>, paragraphs: seq<Text>, limit: nat)
    requires forall p | p in paragraphs :: Normal(p)
    requires WellPacked(Flushed(done, current), limit) && Separated(done, current)
    ensures WellPacked(Plan(done, current, paragraphs, limit), limit)
    decreases |paragraphs|
  {
    if paragraphs != [] {
      var p, rest := paragraphs[0], paragraphs[1..];
      assert p in paragraphs && Join([p], BLANK_LINE) == p;
      if |p| > limit {
        var pieces := PieceChunks(Groups(SplitSpaces(p), limit));
        PieceChunksAreWellPacked(p, limit);
        assert pieces[0] in pieces && pieces[|pieces| - 1] in pieces;
        WellPackedAppend(Flushed(done, current), pieces, limit);
        PlanIsWellPacked(Flushed(done, current) + pieces, [], rest, limit);
      } else if current == [] || |Join(current + [p], BLANK_LINE)| <= limit {
        assert current == [] ==> current + [p] == [p];
        GrownChunkIsWellPacked(done, current, p, limit);
        PlanIsWellPacked(done, current + [p], rest, limit);
      } else {
        WellPackedAppend(done + [Packed(current)], [Packed([p])], limit);
        PlanIsWellPacked(done + [Packed(current)], [p], rest, limit);
      }
    }
  }

  /** No chunk is empty or too long (a lone word aside), and no packed chunk had room for the next paragraph. */
  lemma ChunksAreWellPacked(text: Text, limit: nat)
    ensures WellPacked(DocumentPlan(text, limit), limit)
  {
    ParagraphsOfTextAreNormal(text);
    PlanIsWellPacked([], [], Paragraphs(text), limit);
  }

  lemma ParagraphsOfTextAreNormal(text: Text)
    ensures forall p | p in Paragraphs(text) :: Normal(p)
  {
    ParagraphsAreNormal(SplitParagraphs(Trim(UnifyLineBreaks(text))));
  }
}
