/** The event-stream splitter (services/ai-orchestrator/src/index.ts:992-1041): frames are cut at blank
    lines while the response is still arriving. It covers the line-feed subset of sections 9.2.5 and
    9.2.6 of the WHATWG HTML standard. The pieces are the decoded reads. */
module Sse {
  import opened Utf16
  import opened Sequences

  /** The whole text cut at its leftmost blank lines, with the tail as last frame. */
  function Frames(t: Text): (frames: seq<Text>)
    ensures frames != []
    decreases |t|
  {
    var k := IndexOfBreak(t);
    if k < 0 then [t] else [t[..k]] + Frames(t[k + 2..])
  }

  function Flatten(pieces: seq<Text>): Text {
    if pieces == [] then [] else Flatten(pieces[..|pieces| - 1]) + pieces[|pieces| - 1]
  }

  function Complete(t: Text): seq<Text> {
    Frames(t)[..|Frames(t)| - 1]
  }

  function Tail(t: Text): Text {
    Frames(t)[|Frames(t)| - 1]
  }

  /** The reading loop, with the buffer cut again after every read. */
  method SplitStream(pieces: seq<Text>) returns (frames: seq<Text>)
    ensures frames == Frames(Flatten(pieces))
  {
    var buffer: Text := [];
    frames := [];
    assert Frames([]) == [[]];
    for i := 0 to |pieces|
      invariant frames == Complete(Flatten(pieces[..i])) && buffer == Tail(Flatten(pieces[..i]))
    {
      assert pieces[..i + 1][..i] == pieces[..i];
      MoreTextResumesAtTail(Flatten(pieces[..i]), pieces[i]);
      buffer := buffer + pieces[i];
      ghost var before, whole := frames, buffer;
      var cut := IndexOfBreak(buffer);
      while cut >= 0
        invariant cut == IndexOfBreak(buffer)
        invariant frames + Frames(buffer) == before + Frames(whole)
        decreases |buffer|
      {
        frames := frames + [buffer[..cut]];
        buffer := buffer[cut + 2..];
        cut := IndexOfBreak(buffer);
      }
      assert frames + [buffer] == before + Frames(whole);
      assert frames == (frames + [buffer])[..|frames|] && buffer == (frames + [buffer])[|frames|];
    }
    assert pieces[..|pieces|] == pieces;
    frames := frames + [buffer];
  }

  /** Cutting what has arrived and going on from its tail is cutting the whole. */
  lemma {:induction false} MoreTextResumesAtTail(a: Text, b: Text)
    ensures Frames(a + b) == Complete(a) + Frames(Tail(a) + b)
    decreases |a|
  {
    var k := IndexOfBreak(a);
    if k < 0 {
      assert Complete(a) == [] && [] + Frames(a + b) == Frames(a + b);
    } else {
      FirstFrameIsCut(a, b);
      MoreTextResumesAtTail(a[k + 2..], b);
      Regroup([a[..k]], Complete(a[k + 2..]), Frames(Tail(a) + b));
    }
  }

  lemma FramesFrom(t: Text, k: int)
    requires k == IndexOfBreak(t) >= 0
    ensures Frames(t) == [t[..k]] + Frames(t[k + 2..])
    ensures Complete(t) == [t[..k]] + Complete(t[k + 2..]) && Tail(t) == Tail(t[k + 2..])
  {
  }

  lemma FirstFrameIsCut(a: Text, b: Text)
    requires IndexOfBreak(a) >= 0
    ensures var k := IndexOfBreak(a);
            && Frames(a + b) == [a[..k]] + Frames(a[k + 2..] + b)
            && Complete(a) == [a[..k]] + Complete(a[k + 2..])
            && Tail(a) == Tail(a[k + 2..])
  {
    var k := IndexOfBreak(a);
    SameFirstBreak(a, b);
    FramesFrom(a, k);
    FramesFrom(a + b, k);
    assert (a + b)[k + 2..] == a[k + 2..] + b && (a + b)[..k] == a[..k];
  }

  lemma SameFirstBreak(a: Text, b: Text)
    requires IndexOfBreak(a) >= 0
    ensures IndexOfBreak(a + b) == IndexOfBreak(a)
  {
    var k, k' := IndexOfBreak(a), IndexOfBreak(a + b);
    assert BreakAt(a + b, k);
    assert forall j :: 0 <= j && j + 1 < |a| ==> BreakAt(a + b, j) == BreakAt(a, j);
  }

  /** `frames` are the pieces of `t` between its leftmost blank lines: an independent reading of the
      split. */
  predicate LeftmostSplit(frames: seq<Text>, t: Text) {
    && frames != []
    && Join(frames, BLANK_LINE) == t
    && (forall i :: 0 <= i < |frames| - 1 ==> IndexOfBreak(frames[i] + [NEWLINE]) < 0)
    && IndexOfBreak(frames[|frames| - 1]) < 0
  }

  lemma {:induction false} FramesAreLeftmostSplit(t: Text)
    ensures LeftmostSplit(Frames(t), t)
    decreases |t|
  {
    var k := IndexOfBreak(t);
    if k >= 0 {
      FramesAreLeftmostSplit(t[k + 2..]);
      assert t == t[..k] + BLANK_LINE + t[k + 2..];
      var first := t[..k] + [NEWLINE];
      if IndexOfBreak(first) >= 0 {
        assert BreakAt(t, IndexOfBreak(first));
      }
      assert Frames(t)[1..] == Frames(t[k + 2..]);
    }
  }

  /** A response is cut exactly where two line feeds meet. So one whose lines end in a carriage return and a line feed
      is never cut, although the standard lets lines end so: it is one frame, whatever blank lines it holds. */
  lemma CutIffLineFeedsMeet(t: Text)
    ensures |Frames(t)| == 1 <==> forall k :: 0 < k < |t| && t[k] == NEWLINE ==> t[k - 1] != NEWLINE
    ensures (forall k :: 0 <= k < |t| && t[k] == NEWLINE ==> k > 0 && t[k - 1] == CARRIAGE_RETURN) ==> Frames(t) == [t]
  {
    var k := IndexOfBreak(t);
    if k >= 0 {
      assert t[k + 1] == NEWLINE && t[k + 1 - 1] == NEWLINE;
      assert |Frames(t)| == 1 + |Frames(t[k + 2..])|;
    } else {
      forall j | 0 < j < |t| && t[j] == NEWLINE
        ensures t[j - 1] != NEWLINE
      {
        assert !BreakAt(t, j - 1);
      }
    }
  }

  /** There is only one such split. */
  lemma {:induction false} LeftmostSplitIsUnique(frames: seq<Text>, t: Text)
    requires LeftmostSplit(frames, t)
    ensures frames == Frames(t)
    decreases |frames|
  {
    if |frames| > 1 {
      var first, rest := frames[0], Join(frames[1..], BLANK_LINE);
      BreakAfterFrame(first, rest);
      assert t == first + BLANK_LINE + rest;
      assert t[|first| + 2..] == rest && t[..|first|] == first;
      LeftmostSplitIsUnique(frames[1..], rest);
    } else {
      assert frames == [t];
    }
  }

  lemma BreakAfterFrame(first: Text, rest: Text)
    requires IndexOfBreak(first + [NEWLINE]) < 0
    ensures IndexOfBreak(first + BLANK_LINE + rest) == |first|
  {
    var t := first + BLANK_LINE + rest;
    assert BreakAt(t, |first|);
    var k := IndexOfBreak(t);
    if k < |first| {
      assert BreakAt(first + [NEWLINE], k);
    }
  }

  // The data of a frame.

  function IndexOfNewline(t: Text): (k: int)
    ensures -1 <= k < |t|
    ensures k >= 0 ==> t[k] == NEWLINE
    ensures k < 0 ==> NEWLINE !in t
  {
    if t == [] then -1
    else if t[0] == NEWLINE then 0
    else
      var k := IndexOfNewline(t[1..]);
      if k < 0 then -1 else k + 1
  }

  /** `split(/\r?\n/)`. */
  function SplitLines(t: Text): seq<Text>
    decreases |t|
  {
    var k := IndexOfNewline(t);
    if k < 0 then [t]
    else [if k > 0 && t[k - 1] == CARRIAGE_RETURN then t[..k - 1] else t[..k]] + SplitLines(t[k + 1..])
  }

  const FIELD: Text := [0x64, 0x61, 0x74, 0x61, 0x3A]

  function DataLines(lines: seq<Text>): seq<Text> {
    if lines == [] then []
    else if FIELD <= lines[0] then [TrimStart(lines[0][|FIELD|..])] + DataLines(lines[1..])
    else DataLines(lines[1..])
  }

  function Data(frame: Text): Text {
    Join(DataLines(SplitLines(frame)), [NEWLINE])
  }

  const DONE_MARK: Text := [0x5B, 0x44, 0x4F, 0x4E, 0x45, 0x5D]

  predicate CarriesData(data: Text) {
    data != [] && data != DONE_MARK
  }

  /** The texts handed to the JSON parser, in order. */
  function Payloads(frames: seq<Text>): seq<Text> {
    if frames == [] then []
    else if CarriesData(Data(frames[0])) then [Data(frames[0])] + Payloads(frames[1..])
    else Payloads(frames[1..])
  }

  method ReadPayloads(pieces: seq<Text>) returns (payloads: seq<Text>)
    ensures payloads == Payloads(Frames(Flatten(pieces)))
  {
    var frames := SplitStream(pieces);
    payloads := [];
    var i := 0;
    while i < |frames|
      invariant i <= |frames|
      invariant payloads + Payloads(frames[i..]) == Payloads(frames)
    {
      assert frames[i..][1..] == frames[i + 1..];
      if CarriesData(Data(frames[i])) {
        payloads := payloads + [Data(frames[i])];
      }
      i := i + 1;
    }
  }

  /** A payload as a provider sends it: one line that does not begin with white space. */
  predicate OneLine(p: Text) {
    p != [] && NEWLINE !in p && !IsSpace(p[0])
  }

  function Field(p: Text): Text {
    FIELD + [SPACE] + p
  }

  function Encode(payloads: seq<Text>): Text {
    if payloads == [] then [] else Field(payloads[0]) + BLANK_LINE + Encode(payloads[1..])
  }

  lemma FieldReadsBack(p: Text)
    requires OneLine(p)
    ensures Data(Field(p)) == p
    ensures IndexOfBreak(Field(p) + [NEWLINE]) < 0
  {
    assert NEWLINE !in Field(p);
    assert IndexOfNewline(Field(p)) < 0;
    var value := Field(p)[|FIELD|..];
    assert value == [SPACE] + p && value[1..] == p;
    assert TrimStart(value) == TrimStart(p) == p;
    assert DataLines([Field(p)]) == [p] + DataLines([Field(p)][1..]);
  }

  /** Round trip: the payloads that were encoded come out, in order, except end marks. Since
      `ReadPayloads` depends only on the whole text, this holds however it is cut into reads. */
  lemma {:induction false} EncodedPayloadsReadBack(payloads: seq<Text>)
    requires forall p | p in payloads :: OneLine(p)
    ensures Payloads(Frames(Encode(payloads))) == WithoutEndMarks(payloads)
  {
    if payloads == [] {
      assert Frames([]) == [[]];
      assert Data([]) == [];
    } else {
      var p, rest := payloads[0], Encode(payloads[1..]);
      assert p in payloads;
      FieldReadsBack(p);
      BreakAfterFrame(Field(p), rest);
      var t := Encode(payloads);
      assert t[..|Field(p)|] == Field(p) && t[|Field(p)| + 2..] == rest;
      EncodedPayloadsReadBack(payloads[1..]);
      assert Frames(t)[0] == Field(p) && Frames(t)[1..] == Frames(rest);
    }
  }

  // Frames with other lines, and data over several lines.

  /** A line of a frame, ended by a line feed or by a carriage return and a line feed. */
  datatype Line = DataLine(value: Text, spaced: bool, crlf: bool) | OtherLine(text: Text, crlf: bool)

  predicate LineFree(t: Text) {
    NEWLINE !in t && CARRIAGE_RETURN !in t
  }

  predicate Legible(l: Line) {
    match l
    case DataLine(value, _, _) => LineFree(value) && (value != [] ==> !IsSpace(value[0]))
    case OtherLine(text, _) => LineFree(text) && !(FIELD <= text)
  }

  function LineText(l: Line): Text {
    match l
    case DataLine(value, spaced, _) => FIELD + (if spaced then [SPACE] else []) + value
    case OtherLine(text, _) => text
  }

  /** The last line has no end of its own: the blank line after the frame ends it. */
  function FrameText(lines: seq<Line>): Text
    requires lines != []
  {
    if |lines| == 1 then LineText(lines[0])
    else LineText(lines[0]) + (if lines[0].crlf then [CARRIAGE_RETURN] else []) + [NEWLINE] + FrameText(lines[1..])
  }

  function LineTexts(lines: seq<Line>): seq<Text> {
    if lines == [] then [] else [LineText(lines[0])] + LineTexts(lines[1..])
  }

  function Values(lines: seq<Line>): seq<Text> {
    if lines == [] then []
    else if lines[0].DataLine? then [lines[0].value] + Values(lines[1..])
    else Values(lines[1..])
  }

  lemma IndexAfterFreeText(t: Text, rest: Text)
    requires NEWLINE !in t
    ensures IndexOfNewline(t + [NEWLINE] + rest) == |t|
    decreases |t|
  {
    var whole := t + [NEWLINE] + rest;
    if t != [] {
      assert whole[1..] == t[1..] + [NEWLINE] + rest;
      IndexAfterFreeText(t[1..], rest);
    }
  }

  lemma LineTextIsFree(l: Line)
    requires Legible(l)
    ensures LineFree(LineText(l))
  {
  }

  lemma FirstLineIsSplit(line: Text, crlf: bool, rest: Text)
    requires LineFree(line)
    ensures SplitLines(line + (if crlf then [CARRIAGE_RETURN] else []) + [NEWLINE] + rest) == [line] + SplitLines(rest)
  {
    var ended := line + if crlf then [CARRIAGE_RETURN] else [];
    var t := ended + [NEWLINE] + rest;
    IndexAfterFreeText(ended, rest);
    assert t[|ended| + 1..] == rest && t[..|line|] == line;
    if crlf {
      assert t[|ended| - 1] == CARRIAGE_RETURN;
    } else if line != [] {
      assert t[|ended| - 1] == line[|line| - 1] && line[|line| - 1] in line;
    }
  }

  lemma OnlyLineIsSplit(line: Text)
    requires LineFree(line)
    ensures SplitLines(line) == [line]
  {
  }

  lemma {:induction false} LinesAreSplit(lines: seq<Line>)
    requires lines != [] && forall l | l in lines :: Legible(l)
    ensures SplitLines(FrameText(lines)) == LineTexts(lines)
  {
    assert lines[0] in lines;
    LineTextIsFree(lines[0]);
    if |lines| == 1 {
      assert lines[1..] == [];
      OnlyLineIsSplit(LineText(lines[0]));
    } else {
      FirstLineIsSplit(LineText(lines[0]), lines[0].crlf, FrameText(lines[1..]));
      LinesAreSplit(lines[1..]);
    }
  }

  lemma DataLineReads(l: Line)
    requires Legible(l)
    ensures FIELD <= LineText(l) <==> l.DataLine?
    ensures l.DataLine? ==> TrimStart(LineText(l)[|FIELD|..]) == l.value
  {
    if l.DataLine? {
      var value := LineText(l)[|FIELD|..];
      assert value == (if l.spaced then [SPACE] else []) + l.value;
      assert l.spaced ==> value[1..] == l.value;
    }
  }

  lemma {:induction false} DataLinesAreValues(lines: seq<Line>)
    requires forall l | l in lines :: Legible(l)
    ensures DataLines(LineTexts(lines)) == Values(lines)
  {
    if lines != [] {
      assert lines[0] in lines;
      DataLineReads(lines[0]);
      assert LineTexts(lines)[1..] == LineTexts(lines[1..]);
      DataLinesAreValues(lines[1..]);
    }
  }

  /** Wherever its data lines stand among other lines, however lines end, and with or without a space behind the field
      name, the data of a frame is the values of its data lines, joined by line feeds. */
  lemma FrameDataIsJoined(lines: seq<Line>)
    requires lines != [] && forall l | l in lines :: Legible(l)
    ensures Data(FrameText(lines)) == Join(Values(lines), [NEWLINE])
  {
    LinesAreSplit(lines);
    DataLinesAreValues(lines);
  }

  function WithoutEndMarks(payloads: seq<Text>): seq<Text> {
    if payloads == [] then []
    else if payloads[0] == DONE_MARK then WithoutEndMarks(payloads[1..])
    else [payloads[0]] + WithoutEndMarks(payloads[1..])
  }
}
