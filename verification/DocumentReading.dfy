/** Where paragraphs begin and end (services/knowledge/src/index.ts:281-321): exactly at blank lines, and the chunks of
    a document whose paragraphs are short enough can be read back as its paragraphs. */
module DocumentReading {
  import opened Utf16
  import opened DocumentWords
  import opened DocumentChunks
  import opened Sequences

  /** A normalised paragraph: single spaces and single line breaks are its only white space, all of it inside. */
  predicate Plain(p: Text) {
    && Normal(p) && IndexOfBreak(p) < 0
    && (forall u | u in p :: IsSpace(u) ==> u == SPACE || u == NEWLINE)
  }

  predicate AllPlain(ps: seq<Text>) {
    forall p | p in ps :: Plain(p)
  }

  // Every document has such paragraphs.

  lemma {:induction false} CollapsedIsSpaced(t: Text)
    ensures forall u | u in CollapseBlanks(t) :: IsSpace(u) ==> u == SPACE || u == NEWLINE
    ensures IndexOfBreak(t) < 0 ==> IndexOfBreak(CollapseBlanks(t)) < 0
    decreases |t|
  {
    if t != [] {
      var first := if IsBlank(t[0]) then SPACE else t[0];
      var rest := if IsBlank(t[0]) then SkipBlanks(t[1..]) else t[1..];
      CollapsedIsSpaced(rest);
      var k := SkipBlanksIsSuffix(t[1..]);
      assert CollapseBlanks(t) == [first] + CollapseBlanks(rest);
      if IndexOfBreak(t) < 0 {
        NoBreakInRest(t, 1 + k);
        NoBreakInRest(t, 1);
        assert !BreakAt(t, 0);
        if IndexOfBreak(CollapseBlanks(t)) >= 0 {
          BreakInFront(first, CollapseBlanks(rest));
          FirstIsNewline(rest);
        }
      }
    }
  }

  lemma FirstIsNewline(t: Text)
    requires t != [] && CollapseBlanks(t)[0] == NEWLINE
    ensures t[0] == NEWLINE
  {
  }

  lemma {:induction false} SkipBlanksIsSuffix(t: Text) returns (k: nat)
    ensures k <= |t| && SkipBlanks(t) == t[k..]
  {
    k := 0;
    if t != [] && IsBlank(t[0]) {
      k := SkipBlanksIsSuffix(t[1..]);
      k := k + 1;
    }
  }

  lemma NoBreakInRest(t: Text, k: nat)
    requires IndexOfBreak(t) < 0 && k <= |t|
    ensures IndexOfBreak(t[k..]) < 0
  {
    var j := IndexOfBreak(t[k..]);
    if j >= 0 {
      assert BreakAt(t, k + j);
    }
  }

  lemma BreakInFront(first: CodeUnit, rest: Text)
    requires IndexOfBreak(rest) < 0 && IndexOfBreak([first] + rest) >= 0
    ensures rest != [] && first == NEWLINE && rest[0] == NEWLINE
  {
    var t := [first] + rest;
    var j := IndexOfBreak(t);
    assert !BreakAt(rest, j - 1);
  }

  lemma NoBreakInFront(t: Text, k: nat)
    requires IndexOfBreak(t) < 0 && k <= |t|
    ensures IndexOfBreak(t[..k]) < 0
  {
    var j := IndexOfBreak(t[..k]);
    if j >= 0 {
      assert BreakAt(t, j);
    }
  }

  lemma TrimmedKeepsInside(t: Text)
    requires IndexOfBreak(t) < 0
    ensures IndexOfBreak(Trim(t)) < 0
    ensures forall u | u in Trim(t) :: u in t
  {
    var k := TrimStartIsSuffix(t);
    NoBreakInRest(t, k);
    NoBreakInFront(TrimStart(t), |Trim(t)|);
    assert Trim(t) == TrimStart(t)[..|Trim(t)|];
  }

  lemma TidyIsPlain(p: Text)
    requires IndexOfBreak(p) < 0 && Tidy(p) != []
    ensures Plain(Tidy(p))
  {
    CollapsedIsSpaced(p);
    CollapseLeavesSingleSpaces(p);
    TrimKeepsSingleSpaces(CollapseBlanks(p));
    TrimmedKeepsInside(CollapseBlanks(p));
  }

  lemma {:induction false} SplitsHoldNoBreak(t: Text)
    ensures forall p | p in SplitParagraphs(t) :: IndexOfBreak(p) < 0
    decreases |t|
  {
    var k := IndexOfBreak(t);
    if k >= 0 {
      if IndexOfBreak(t[..k]) >= 0 {
        assert BreakAt(t, IndexOfBreak(t[..k]));
      }
      SplitsHoldNoBreak(SkipNewlines(t[k + 2..]));
    }
  }

  lemma {:induction false} TidyAllIsPlain(ps: seq<Text>)
    requires forall p | p in ps :: IndexOfBreak(p) < 0
    ensures AllPlain(TidyAll(ps))
  {
    if ps != [] {
      assert ps[0] in ps;
      TidyAllIsPlain(ps[1..]);
      if Tidy(ps[0]) != [] {
        TidyIsPlain(ps[0]);
      }
    }
  }

  /** No paragraph of a document holds a blank line, a double space, or any other white space. */
  lemma ParagraphsArePlain(text: Text)
    ensures AllPlain(Paragraphs(text))
  {
    var normalized := Trim(UnifyLineBreaks(text));
    SplitsHoldNoBreak(normalized);
    TidyAllIsPlain(SplitParagraphs(normalized));
  }

  // Reading paragraphs back.

  lemma {:induction false} SpacedIsCollapsed(t: Text)
    requires NoDoubleSpace(t) && forall u | u in t :: IsSpace(u) ==> u == SPACE || u == NEWLINE
    ensures CollapseBlanks(t) == t
  {
    if t != [] {
      assert forall i :: 0 < i < |t[1..]| ==> !(t[i] == SPACE && t[i + 1] == SPACE);
      SpacedIsCollapsed(t[1..]);
      if IsBlank(t[0]) {
        assert t[0] in t;
        assert |t| > 1 ==> t[1] in t && !IsBlank(t[1]);
        assert SkipBlanks(t[1..]) == t[1..];
      }
    }
  }

  lemma PlainIsTidy(p: Text)
    requires Plain(p)
    ensures Tidy(p) == p
  {
    SpacedIsCollapsed(p);
    assert TrimStart(p) == p;
  }

  lemma {:induction false} PlainAreTidy(ps: seq<Text>)
    requires AllPlain(ps)
    ensures TidyAll(ps) == ps
  {
    if ps != [] {
      assert ps[0] in ps;
      PlainIsTidy(ps[0]);
      PlainAreTidy(ps[1..]);
    }
  }

  /** What joined paragraphs look like: no carriage return, and no white space at either end. */
  predicate Framed(t: Text) {
    t != [] && !IsSpace(t[0]) && !IsSpace(t[|t| - 1]) && CARRIAGE_RETURN !in t
  }

  lemma {:induction false} JoinedIsFramed(ps: seq<Text>)
    requires AllPlain(ps) && ps != []
    ensures Framed(Join(ps, BLANK_LINE))
  {
    assert ps[0] in ps;
    if |ps| > 1 {
      JoinedIsFramed(ps[1..]);
    }
  }

  lemma FirstParagraphSplits(first: Text, rest: Text)
    requires Plain(first) && rest != [] && rest[0] != NEWLINE
    ensures SplitParagraphs(first + BLANK_LINE + rest) == [first] + SplitParagraphs(rest)
  {
    var t := first + BLANK_LINE + rest;
    FirstBreakFollows(first, rest);
    assert t[..|first|] == first && t[|first| + 2..] == rest;
    assert SkipNewlines(rest) == rest;
  }

  lemma {:induction false} JoinedSplits(ps: seq<Text>)
    requires AllPlain(ps) && ps != []
    ensures SplitParagraphs(Join(ps, BLANK_LINE)) == ps
  {
    assert ps[0] in ps;
    if |ps| > 1 {
      JoinedIsFramed(ps[1..]);
      JoinedSplits(ps[1..]);
      FirstParagraphSplits(ps[0], Join(ps[1..], BLANK_LINE));
    } else {
      assert ps == [ps[0]];
    }
  }

  lemma FirstBreakFollows(first: Text, rest: Text)
    requires Plain(first)
    ensures IndexOfBreak(first + BLANK_LINE + rest) == |first|
  {
    var t := first + BLANK_LINE + rest;
    assert BreakAt(t, |first|);
    var k := IndexOfBreak(t);
    assert !BreakAt(first, k);
    assert first[|first| - 1] != NEWLINE;
  }

  lemma {:induction false} UnifiedWithoutReturns(t: Text)
    requires CARRIAGE_RETURN !in t
    ensures UnifyLineBreaks(t) == t
  {
    if t != [] {
      assert t[0] in t;
      UnifiedWithoutReturns(t[1..]);
    }
  }

  /** Round trip: normalised paragraphs with blank lines between them are read back as they are. */
  lemma ParagraphsReadBack(ps: seq<Text>)
    requires AllPlain(ps)
    ensures Paragraphs(Join(ps, BLANK_LINE)) == ps
  {
    var t := Join(ps, BLANK_LINE);
    if ps != [] {
      JoinedIsFramed(ps);
      UnifiedWithoutReturns(t);
      assert TrimStart(t) == t && Trim(t) == t;
      JoinedSplits(ps);
      PlainAreTidy(ps);
    }
  }

  // The chunks.

  function ParagraphsIn(chunks: seq<Chunk>): seq<Text> {
    if chunks == [] then []
    else
      var before, last := ParagraphsIn(chunks[..|chunks| - 1]), chunks[|chunks| - 1];
      match last
      case Packed(ps) => before + ps
      case Piece(_) => before
  }

  predicate AllPacked(chunks: seq<Chunk>) {
    forall c | c in chunks :: c.Packed? && c.paragraphs != []
  }

  lemma FlushedParagraphs(done: seq<Chunk>, current: seq<Text>)
    requires AllPacked(done)
    ensures ParagraphsIn(Flushed(done, current)) == ParagraphsIn(done) + current && AllPacked(Flushed(done, current))
  {
    if current == [] {
      assert ParagraphsIn(done) + [] == ParagraphsIn(done);
    } else {
      assert (done + [Packed(current)])[..|done|] == done;
    }
  }

  lemma {:induction false} PlanPacksAll(done: seq<Chunk>, current: seq<Text>, paragraphs: seq<Text>, limit: nat)
    requires AllPacked(done) && forall p | p in paragraphs :: |p| <= limit
    ensures var plan := Plan(done, current, paragraphs, limit);
      AllPacked(plan) && ParagraphsIn(plan) == ParagraphsIn(done) + current + paragraphs
    decreases |paragraphs|
  {
    FlushedParagraphs(done, current);
    if paragraphs == [] {
      assert ParagraphsIn(done) + current + [] == ParagraphsIn(done) + current;
    } else {
      var p, rest := paragraphs[0], paragraphs[1..];
      assert p in paragraphs && paragraphs == [p] + rest;
      if current == [] || |Join(current + [p], BLANK_LINE)| <= limit {
        PlanPacksAll(done, current + [p], rest, limit);
        Regroup(ParagraphsIn(done) + current, [p], rest);
        Regroup(ParagraphsIn(done), current, [p]);
      } else {
        PlanPacksAll(done + [Packed(current)], [p], rest, limit);
        Regroup(ParagraphsIn(done) + current, [p], rest);
      }
    }
  }

  lemma {:induction false} JoinAppend(a: seq<Text>, b: seq<Text>, gap: Text)
    requires a != [] && b != []
    ensures Join(a + b, gap) == Join(a, gap) + gap + Join(b, gap)
  {
    if |a| == 1 {
      assert (a + b)[1..] == b;
    } else {
      assert (a + b)[1..] == a[1..] + b;
      JoinAppend(a[1..], b, gap);
    }
  }

  lemma PackedSnoc(before: seq<Chunk>, ps: seq<Text>)
    requires ps != []
    ensures Texts(before + [Packed(ps)]) == Texts(before) + [Join(ps, BLANK_LINE)]
    ensures ParagraphsIn(before + [Packed(ps)]) == ParagraphsIn(before) + ps
  {
    assert (before + [Packed(ps)])[..|before|] == before;
  }

  lemma JoinOne(t: Text, gap: Text)
    ensures Join([t], gap) == t
  {
  }

  lemma {:induction false} PackedJoin(chunks: seq<Chunk>)
    requires AllPacked(chunks) && chunks != []
    ensures ParagraphsIn(chunks) != [] && Texts(chunks) != []
    ensures Join(Texts(chunks), BLANK_LINE) == Join(ParagraphsIn(chunks), BLANK_LINE)
  {
    var before, last := chunks[..|chunks| - 1], chunks[|chunks| - 1];
    assert last in chunks && chunks == before + [last];
    var text := Join(last.paragraphs, BLANK_LINE);
    PackedSnoc(before, last.paragraphs);
    JoinOne(text, BLANK_LINE);
    if before == [] {
      assert [] + [text] == [text] && [] + last.paragraphs == last.paragraphs;
    } else {
      PackedJoin(before);
      JoinAppend(Texts(before), [text], BLANK_LINE);
      JoinAppend(ParagraphsIn(before), last.paragraphs, BLANK_LINE);
    }
  }

  /** If no paragraph is too long for a chunk, the chunks, with blank lines between them, are the document again: read
      back, they have its paragraphs. */
  lemma ChunksReadBack(text: Text, limit: nat)
    requires forall p | p in Paragraphs(text) :: |p| <= limit
    ensures ParagraphsIn(DocumentPlan(text, limit)) == Paragraphs(text)
    ensures Paragraphs(Join(Texts(DocumentPlan(text, limit)), BLANK_LINE)) == Paragraphs(text)
  {
    var plan := DocumentPlan(text, limit);
    ParagraphsArePlain(text);
    PlanPacksAll([], [], Paragraphs(text), limit);
    assert [] + [] + Paragraphs(text) == Paragraphs(text);
    ParagraphsReadBack(Paragraphs(text));
    if plan != [] {
      PackedJoin(plan);
    } else {
      assert Paragraphs(text) == [] && Texts(plan) == [];
    }
  }
}
