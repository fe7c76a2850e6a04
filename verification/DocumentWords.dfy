/** The words of a text, and how `chunkDocumentText` normalises a document before it packs it
    (services/knowledge/src/index.ts:281-290). */
module DocumentWords {
  import opened Utf16

  /** The maximal runs of code units that are not white space. */
  function Words(t: Text): (words: seq<Text>)
    ensures t != [] && !IsSpace(t[0]) ==> words != []
  {
    if t == [] then []
    else if IsSpace(t[0]) then Words(t[1..])
    else if |t| > 1 && !IsSpace(t[1]) then
      var rest := Words(t[1..]);
      [[t[0]] + rest[0]] + rest[1..]
    else [[t[0]]] + Words(t[1..])
  }

  function WordsOfAll(ts: seq<Text>): seq<Text> {
    if ts == [] then [] else Words(ts[0]) + WordsOfAll(ts[1..])
  }

  predicate BreaksBetween(a: Text, b: Text) {
    a == [] || b == [] || IsSpace(a[|a| - 1]) || IsSpace(b[0])
  }

  lemma {:induction false} WordsAppend(a: Text, b: Text)
    requires BreaksBetween(a, b)
    ensures Words(a + b) == Words(a) + Words(b)
  {
    if a == [] {
      assert a + b == b;
    } else {
      assert (a + b)[1..] == a[1..] + b;
      WordsAppend(a[1..], b);
    }
  }

  lemma {:induction false} WordsOfAllAppend(a: seq<Text>, b: seq<Text>)
    ensures WordsOfAll(a + b) == WordsOfAll(a) + WordsOfAll(b)
  {
    if a == [] {
      assert a + b == b;
    } else {
      assert (a + b)[1..] == a[1..] + b;
      WordsOfAllAppend(a[1..], b);
    }
  }

  predicate AllSpace(t: Text) {
    forall u | u in t :: IsSpace(u)
  }

  lemma {:induction false} SpaceHasNoWords(t: Text)
    requires AllSpace(t)
    ensures Words(t) == []
  {
    if t != [] {
      SpaceHasNoWords(t[1..]);
    }
  }

  /** White space between two texts separates their words. */
  lemma WordsAround(a: Text, gap: Text, b: Text)
    requires gap != [] && AllSpace(gap)
    ensures Words(a + gap + b) == Words(a) + Words(b)
  {
    assert gap[0] in gap && gap[|gap| - 1] in gap;
    WordsAppend(a, gap);
    SpaceHasNoWords(gap);
    assert Words(a + gap) == Words(a);
    SpaceBreaks(a, gap, b);
    WordsAppend(a + gap, b);
  }

  lemma SpaceBreaks(a: Text, gap: Text, b: Text)
    requires gap != [] && IsSpace(gap[|gap| - 1])
    ensures BreaksBetween(a + gap, b)
  {
    assert (a + gap)[|a + gap| - 1] == gap[|gap| - 1];
  }

  lemma {:induction false} WordsOfJoin(parts: seq<Text>, gap: Text)
    requires gap != [] && AllSpace(gap)
    ensures Words(Join(parts, gap)) == WordsOfAll(parts)
  {
    if |parts| == 1 {
      assert parts[1..] == [] && Words(parts[0]) + [] == Words(parts[0]);
    } else if |parts| > 1 {
      WordsAround(parts[0], gap, Join(parts[1..], gap));
      WordsOfJoin(parts[1..], gap);
    }
  }

  lemma {:induction false} TrimKeepsWords(t: Text)
    ensures Words(Trim(t)) == Words(t)
  {
    TrimStartKeepsWords(t);
    TrimEndKeepsWords(TrimStart(t));
  }

  lemma {:induction false} TrimStartKeepsWords(t: Text)
    ensures Words(TrimStart(t)) == Words(t)
  {
    if t != [] && IsSpace(t[0]) {
      TrimStartKeepsWords(t[1..]);
    }
  }

  lemma {:induction false} TrimEndKeepsWords(t: Text)
    ensures Words(TrimEnd(t)) == Words(t)
  {
    if t != [] && IsSpace(t[|t| - 1]) {
      var n := |t| - 1;
      TrimEndKeepsWords(t[..n]);
      WordsAppend(t[..n], t[n..]);
      SpaceHasNoWords(t[n..]);
      assert t == t[..n] + t[n..];
    }
  }

  /** `replace(/\r\n/g, "\n")`. */
  function UnifyLineBreaks(t: Text): (r: Text)
    ensures r == [] <==> t == []
    ensures t != [] ==> IsSpace(r[0]) == IsSpace(t[0])
  {
    if t == [] then []
    else if |t| > 1 && t[0] == CARRIAGE_RETURN && t[1] == NEWLINE then [NEWLINE] + UnifyLineBreaks(t[2..])
    else [t[0]] + UnifyLineBreaks(t[1..])
  }

  lemma {:induction false} UnifyKeepsWords(t: Text)
    ensures Words(UnifyLineBreaks(t)) == Words(t)
  {
    if t != [] {
      if |t| > 1 && t[0] == CARRIAGE_RETURN && t[1] == NEWLINE {
        UnifyKeepsWords(t[2..]);
        assert Words(t) == Words(t[1..]) == Words(t[1..][1..]) && t[1..][1..] == t[2..];
      } else {
        UnifyKeepsWords(t[1..]);
      }
    }
  }

  /** White space other than a line break. */
  predicate IsBlank(u: CodeUnit) {
    IsSpace(u) && u != NEWLINE
  }

  function SkipBlanks(t: Text): (r: Text)
    ensures |r| <= |t|
    ensures r != [] ==> !IsBlank(r[0])
  {
    if t != [] && IsBlank(t[0]) then SkipBlanks(t[1..]) else t
  }

  /** `replace(/[^\S\n]+/g, " ")`. */
  function CollapseBlanks(t: Text): (r: Text)
    ensures r == [] <==> t == []
    ensures t != [] ==> IsSpace(r[0]) == IsSpace(t[0]) && (r[0] == SPACE <==> IsBlank(t[0]))
    decreases |t|
  {
    if t == [] then []
    else if IsBlank(t[0]) then [SPACE] + CollapseBlanks(SkipBlanks(t[1..]))
    else [t[0]] + CollapseBlanks(t[1..])
  }

  lemma {:induction false} SkipBlanksKeepsWords(t: Text)
    ensures Words(SkipBlanks(t)) == Words(t)
  {
    if t != [] && IsBlank(t[0]) {
      SkipBlanksKeepsWords(t[1..]);
    }
  }

  lemma {:induction false} CollapseKeepsWords(t: Text)
    ensures Words(CollapseBlanks(t)) == Words(t)
    decreases |t|
  {
    if t != [] {
      if IsBlank(t[0]) {
        CollapseKeepsWords(SkipBlanks(t[1..]));
        SkipBlanksKeepsWords(t[1..]);
      } else {
        CollapseKeepsWords(t[1..]);
      }
    }
  }

  predicate NoDoubleSpace(t: Text) {
    forall i :: 0 < i < |t| ==> !(t[i - 1] == SPACE && t[i] == SPACE)
  }

  lemma {:induction false} CollapseLeavesSingleSpaces(t: Text)
    ensures NoDoubleSpace(CollapseBlanks(t))
    decreases |t|
  {
    if t != [] {
      if IsBlank(t[0]) {
        CollapseLeavesSingleSpaces(SkipBlanks(t[1..]));
      } else {
        CollapseLeavesSingleSpaces(t[1..]);
      }
    }
  }

  function SkipNewlines(t: Text): (r: Text)
    ensures |r| <= |t|
  {
    if t != [] && t[0] == NEWLINE then SkipNewlines(t[1..]) else t
  }

  /** `split(/\n{2,}/)`. */
  function SplitParagraphs(t: Text): seq<Text>
    decreases |t|
  {
    var k := IndexOfBreak(t);
    if k < 0 then [t] else [t[..k]] + SplitParagraphs(SkipNewlines(t[k + 2..]))
  }

  lemma {:induction false} SkipNewlinesKeepsWords(t: Text)
    ensures Words(SkipNewlines(t)) == Words(t)
  {
    if t != [] && t[0] == NEWLINE {
      SkipNewlinesKeepsWords(t[1..]);
    }
  }

  lemma {:induction false} SplitKeepsWords(t: Text)
    ensures WordsOfAll(SplitParagraphs(t)) == Words(t)
    decreases |t|
  {
    var k := IndexOfBreak(t);
    if k < 0 {
      assert [t][1..] == [] && Words(t) + [] == Words(t);
    } else {
      var rest := t[k + 2..];
      assert t == t[..k] + BLANK_LINE + rest;
      WordsAround(t[..k], BLANK_LINE, rest);
      SkipNewlinesKeepsWords(rest);
      SplitKeepsWords(SkipNewlines(rest));
    }
  }

  function Tidy(paragraph: Text): Text {
    Trim(CollapseBlanks(paragraph))
  }

  function TidyAll(paragraphs: seq<Text>): seq<Text> {
    if paragraphs == [] then []
    else if Tidy(paragraphs[0]) == [] then TidyAll(paragraphs[1..])
    else [Tidy(paragraphs[0])] + TidyAll(paragraphs[1..])
  }

  /** The paragraphs of a document, normalised. */
  function Paragraphs(text: Text): seq<Text> {
    var normalized := Trim(UnifyLineBreaks(text));
    if normalized == [] then [] else TidyAll(SplitParagraphs(normalized))
  }

  lemma {:induction false} TidyAllKeepsWords(paragraphs: seq<Text>)
    ensures WordsOfAll(TidyAll(paragraphs)) == WordsOfAll(paragraphs)
  {
    if paragraphs != [] {
      CollapseKeepsWords(paragraphs[0]);
      TrimKeepsWords(CollapseBlanks(paragraphs[0]));
      TidyAllKeepsWords(paragraphs[1..]);
    }
  }

  /** Normalising a document keeps every word, in order. */
  lemma ParagraphsKeepWords(text: Text)
    ensures WordsOfAll(Paragraphs(text)) == Words(text)
  {
    UnifyKeepsWords(text);
    TrimKeepsWords(UnifyLineBreaks(text));
    var normalized := Trim(UnifyLineBreaks(text));
    SplitKeepsWords(normalized);
    TidyAllKeepsWords(SplitParagraphs(normalized));
  }

  /** A normalised paragraph has no empty word between spaces. */
  predicate Normal(p: Text) {
    p != [] && !IsSpace(p[0]) && !IsSpace(p[|p| - 1]) && NoDoubleSpace(p)
  }

  lemma TrimKeepsSingleSpaces(t: Text)
    requires NoDoubleSpace(t)
    ensures NoDoubleSpace(Trim(t))
  {
    var k := TrimStartIsSuffix(t);
    assert forall i :: 0 <= i < |TrimStart(t)| ==> TrimStart(t)[i] == t[k + i];
  }

  lemma {:induction false} TrimStartIsSuffix(t: Text) returns (k: nat)
    ensures k <= |t| && TrimStart(t) == t[k..]
  {
    if t == [] || !IsSpace(t[0]) {
      k := 0;
    } else {
      k := TrimStartIsSuffix(t[1..]);
      k := k + 1;
    }
  }

  lemma {:induction false} ParagraphsAreNormal(paragraphs: seq<Text>)
    ensures forall p | p in TidyAll(paragraphs) :: Normal(p)
  {
    if paragraphs != [] {
      CollapseLeavesSingleSpaces(paragraphs[0]);
      TrimKeepsSingleSpaces(CollapseBlanks(paragraphs[0]));
      ParagraphsAreNormal(paragraphs[1..]);
    }
  }
}
