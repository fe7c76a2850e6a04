/** What a live suggestion sends to the provider, and what it is measured as: the rolling transcript
    context and the input usage (services/ai-orchestrator/src/index.ts:238-268, 822-838, 945-980). */
module PromptInput {
  import opened Numbers
  import opened Sequences
  import opened Utf16

  datatype Segment = Segment(speaker: Text, text: Text, endMs: int, final: bool)

  function Line(s: Segment): Text {
    s.speaker + [0x3A, SPACE] + Trim(s.text)
  }

  function Finals(segments: seq<Segment>): seq<Segment> {
    if segments == [] then []
    else
      var rest := Finals(segments[..|segments| - 1]);
      var last := segments[|segments| - 1];
      if last.final && Trim(last.text) != [] then rest + [last] else rest
  }

  /** Puts `x` after every segment of `sorted` that does not end later. */
  function Insert(sorted: seq<Segment>, x: Segment): seq<Segment> {
    if sorted == [] || sorted[|sorted| - 1].endMs <= x.endMs then sorted + [x]
    else Insert(sorted[..|sorted| - 1], x) + [sorted[|sorted| - 1]]
  }

  /** `Array.prototype.sort` on end time; the language requires it to be stable. */
  function SortByEnd(segments: seq<Segment>): seq<Segment> {
    if segments == [] then [] else Insert(SortByEnd(segments[..|segments| - 1]), segments[|segments| - 1])
  }

  /** `slice(-count)`, under which a count of zero keeps everything. */
  function LastSegments(s: seq<Segment>, count: nat): seq<Segment> {
    if count == 0 || |s| <= count then s else s[|s| - count..]
  }

  function Lines(segments: seq<Segment>): seq<Text> {
    seq(|segments|, i requires 0 <= i < |segments| => Line(segments[i]))
  }

  function Cut(line: Text, count: nat): Text {
    if |line| <= count then line else line[..count]
  }

  /** The lines kept by walking `lines` from the last one. */
  function TakeFromEnd(lines: seq<Text>, remaining: nat, taken: seq<Text>): seq<Text> {
    if lines == [] then taken
    else
      var line := lines[|lines| - 1];
      if |line| + 1 > remaining && taken != [] then taken
      else
        if |line| + 1 >= remaining then [Cut(line, remaining)] + taken
        else TakeFromEnd(lines[..|lines| - 1], remaining - |line| - 1, [line] + taken)
  }

  function RollingLines(segments: seq<Segment>, maxSegments: nat): seq<Text> {
    Lines(LastSegments(SortByEnd(Finals(segments)), maxSegments))
  }

  method AssembleRollingTranscriptContext(segments: seq<Segment>, maxSegments: nat, maxChars: nat)
    returns (context: Text)
    ensures context == Join(TakeFromEnd(RollingLines(segments, maxSegments), maxChars, []), [NEWLINE])
    ensures |context| <= maxChars
  {
    var finalSegments := LastSegments(SortByEnd(Finals(segments)), maxSegments);
    ghost var all := Lines(finalSegments);
    var lines: seq<Text>, remainingChars: nat := [], maxChars;
    var i := |finalSegments|;
    assert all[..i] == all;
    while i > 0
      invariant 0 <= i <= |finalSegments| == |all|
      invariant TakeFromEnd(all[..i], remainingChars, lines) == TakeFromEnd(all, maxChars, [])
      decreases i
    {
      var line := Line(finalSegments[i - 1]);
      assert all[..i][..i - 1] == all[..i - 1];
      var lineLength := |line| + 1;
      if lineLength > remainingChars && |lines| > 0 {
        break;
      }
      lines := [Cut(line, remainingChars)] + lines;
      remainingChars := if lineLength <= remainingChars then remainingChars - lineLength else 0;
      i := i - 1;
      if remainingChars == 0 {
        break;
      }
    }
    assert lines == TakeFromEnd(all, maxChars, []);
    TakenFits(all, maxChars);
    context := Join(lines, [NEWLINE]);
  }

  /** Code units of the lines, each with its line break. */
  function Cost(lines: seq<Text>): nat {
    if lines == [] then 0 else |lines[0]| + 1 + Cost(lines[1..])
  }

  lemma {:induction false} JoinLength(lines: seq<Text>)
    ensures |Join(lines, [NEWLINE])| == if lines == [] then 0 else Cost(lines) - 1
  {
    if |lines| > 1 {
      JoinLength(lines[1..]);
    }
  }

  lemma CostOfSuffix(lines: seq<Text>, k: nat)
    requires k < |lines|
    ensures Cost(lines[k..]) == |lines[k]| + 1 + Cost(lines[k + 1..])
  {
    assert lines[k..][1..] == lines[k + 1..];
  }

  predicate NewestFits(lines: seq<Text>, maxChars: nat)
    requires lines != []
  {
    |lines[|lines| - 1]| + 1 <= maxChars
  }

  /** When the newest line fits, what is kept is the longest run of newest lines whose cost is within
      the limit: the one from position `k` on. Otherwise it is the newest line alone, cut to the limit. */
  lemma TakenIsLongestSuffix(lines: seq<Text>, maxChars: nat) returns (k: nat)
    requires lines != []
    ensures NewestFits(lines, maxChars) ==> k <= |lines| && TakeFromEnd(lines, maxChars, []) == lines[k..]
    ensures NewestFits(lines, maxChars) ==>
              forall i :: 0 <= i <= |lines| ==> (Cost(lines[i..]) <= maxChars <==> i >= k)
    ensures !NewestFits(lines, maxChars) ==>
              TakeFromEnd(lines, maxChars, []) == [Cut(lines[|lines| - 1], maxChars)]
  {
    k := 0;
    if NewestFits(lines, maxChars) {
      k := TakenIsMaximalSuffix(lines, maxChars);
      forall i | 0 <= i <= |lines|
        ensures Cost(lines[i..]) <= maxChars <==> i >= k
      {
        if i < k {
          SuffixCostShrinks(lines, i, k - 1);
        } else {
          SuffixCostShrinks(lines, k, i);
        }
      }
    } else {
      TakenIsCutNewestLine(lines, maxChars);
    }
  }

  lemma TakenIsMaximalSuffix(lines: seq<Text>, maxChars: nat) returns (k: nat)
    requires lines != [] && |lines[|lines| - 1]| + 1 <= maxChars
    ensures k <= |lines| && TakeFromEnd(lines, maxChars, []) == lines[k..]
    ensures Cost(lines[k..]) <= maxChars && (k > 0 ==> Cost(lines[k - 1..]) > maxChars)
  {
    assert lines[|lines|..] == [] && lines[..|lines|] == lines;
    k := TakenGrows(lines, |lines|, maxChars);
  }

  lemma TakenIsCutNewestLine(lines: seq<Text>, maxChars: nat)
    requires lines != [] && |lines[|lines| - 1]| + 1 > maxChars
    ensures TakeFromEnd(lines, maxChars, []) == [Cut(lines[|lines| - 1], maxChars)]
  {
    assert [Cut(lines[|lines| - 1], maxChars)] + [] == [Cut(lines[|lines| - 1], maxChars)];
  }

  lemma TakenFits(lines: seq<Text>, maxChars: nat)
    ensures |Join(TakeFromEnd(lines, maxChars, []), [NEWLINE])| <= maxChars
  {
    var n := |lines|;
    if n > 0 && |lines[n - 1]| + 1 <= maxChars {
      var k := TakenIsMaximalSuffix(lines, maxChars);
    } else if n > 0 {
      TakenIsCutNewestLine(lines, maxChars);
    }
    JoinLength(TakeFromEnd(lines, maxChars, []));
  }

  lemma OneLineBack(lines: seq<Text>, j: nat)
    requires 0 < j <= |lines|
    ensures lines[..j][..j - 1] == lines[..j - 1] && lines[..j][j - 1] == lines[j - 1]
    ensures [lines[j - 1]] + lines[j..] == lines[j - 1..]
  {
  }

  /** The walk from position `j`, with the lines from `j` on already taken, stops at `k`. */
  lemma {:induction false} TakenGrows(lines: seq<Text>, j: nat, maxChars: nat) returns (k: nat)
    requires j <= |lines| && Cost(lines[j..]) < maxChars
    requires lines != [] && |lines[|lines| - 1]| + 1 <= maxChars
    ensures k <= |lines| && TakeFromEnd(lines[..j], maxChars - Cost(lines[j..]), lines[j..]) == lines[k..]
    ensures Cost(lines[k..]) <= maxChars && (k > 0 ==> Cost(lines[k - 1..]) > maxChars)
    decreases j
  {
    k := j;
    if j > 0 {
      CostOfSuffix(lines, j - 1);
      OneLineBack(lines, j);
      var need := |lines[j - 1]| + 1;
      if need < maxChars - Cost(lines[j..]) {
        k := TakenGrows(lines, j - 1, maxChars);
      } else if need == maxChars - Cost(lines[j..]) {
        k := j - 1;
        if k > 0 {
          CostOfSuffix(lines, k - 1);
        }
      }
    }
  }

  lemma {:induction false} SuffixCostShrinks(lines: seq<Text>, i: nat, j: nat)
    requires i <= j <= |lines|
    ensures Cost(lines[j..]) <= Cost(lines[i..])
    decreases j - i
  {
    if i < j {
      CostOfSuffix(lines, i);
      SuffixCostShrinks(lines, i + 1, j);
    }
  }

  function EndingAt(segments: seq<Segment>, endMs: int): seq<Segment> {
    if segments == [] then []
    else
      var rest := EndingAt(segments[..|segments| - 1], endMs);
      if segments[|segments| - 1].endMs == endMs then rest + [segments[|segments| - 1]] else rest
  }

  predicate SortedByEnd(segments: seq<Segment>) {
    forall i, j :: 0 <= i < j < |segments| ==> segments[i].endMs <= segments[j].endMs
  }

  lemma {:induction false} InsertKeepsOrder(sorted: seq<Segment>, x: Segment)
    requires SortedByEnd(sorted)
    ensures SortedByEnd(Insert(sorted, x)) && Insert(sorted, x) != []
    ensures var last := Insert(sorted, x)[|Insert(sorted, x)| - 1];
            last == x || (sorted != [] && last == sorted[|sorted| - 1])
  {
    if sorted != [] && sorted[|sorted| - 1].endMs > x.endMs {
      InsertKeepsOrder(sorted[..|sorted| - 1], x);
    }
  }

  lemma EndingAtSnoc(s: seq<Segment>, x: Segment, endMs: int)
    ensures EndingAt(s + [x], endMs) == EndingAt(s, endMs) + (if x.endMs == endMs then [x] else [])
  {
    assert (s + [x])[..|s|] == s;
  }

  lemma {:induction false} InsertIsStable(sorted: seq<Segment>, x: Segment, endMs: int)
    ensures EndingAt(Insert(sorted, x), endMs) == EndingAt(sorted, endMs) + (if x.endMs == endMs then [x] else [])
  {
    if sorted == [] || sorted[|sorted| - 1].endMs <= x.endMs {
      EndingAtSnoc(sorted, x, endMs);
    } else {
      var n := |sorted| - 1;
      InsertIsStable(sorted[..n], x, endMs);
      EndingAtSnoc(Insert(sorted[..n], x), sorted[n], endMs);
    }
  }

  /** The segments come out in end-time order, and those of any one end time are exactly those that
      went in, in arrival order: nothing is lost or repeated. */
  lemma {:induction false} SortByEndIsStable(segments: seq<Segment>, endMs: int)
    ensures SortedByEnd(SortByEnd(segments))
    ensures EndingAt(SortByEnd(segments), endMs) == EndingAt(segments, endMs)
  {
    if segments != [] {
      var n := |segments| - 1;
      SortByEndIsStable(segments[..n], endMs);
      InsertKeepsOrder(SortByEnd(segments[..n]), segments[n]);
      InsertIsStable(SortByEnd(segments[..n]), segments[n], endMs);
    }
  }

  // Which segments the lines come from.

  predicate Speaks(s: Segment) {
    s.final && Trim(s.text) != []
  }

  /** The segments considered are exactly the final ones with a text, each as often as it came, in arrival order. */
  lemma {:induction false} FinalsAreThoseThatSpeak(segments: seq<Segment>, s: Segment)
    ensures Subsequence(Finals(segments), segments)
    ensures multiset(Finals(segments))[s] == if Speaks(s) then multiset(segments)[s] else 0
  {
    if segments != [] {
      var before, last := segments[..|segments| - 1], segments[|segments| - 1];
      FinalsAreThoseThatSpeak(before, s);
      assert segments == before + [last];
      SubsequenceAppend(Finals(before), before, [last]);
      SubsequenceOfMore(Finals(before), before, [last]);
    }
  }

  lemma SubsequenceOfMore(a: seq<Segment>, b: seq<Segment>, more: seq<Segment>)
    requires Subsequence(a, b)
    ensures Subsequence(a, b + more)
  {
    SubsequenceAppend(a, b, more);
    assert a + more + [] == a + more && a + [] == a;
    SubsequenceWithoutPart(a, more, [], b + more);
  }

  predicate NoLater(older: seq<Segment>, kept: seq<Segment>) {
    forall i, j :: 0 <= i < |older| && 0 <= j < |kept| ==> older[i].endMs <= kept[j].endMs
  }

  lemma LastSegmentsAreNewest(sorted: seq<Segment>, count: nat) returns (older: seq<Segment>)
    requires SortedByEnd(sorted) && count > 0
    ensures sorted == older + LastSegments(sorted, count)
    ensures |LastSegments(sorted, count)| == Min(count, |sorted|)
    ensures NoLater(older, LastSegments(sorted, count))
  {
    var n := |sorted| - Min(count, |sorted|);
    older := sorted[..n];
    assert sorted == older + sorted[n..];
  }

  /** Of the sorted segments the last `maxSegments` are kept, or all of them: none that is left out ends later than
      one that is kept. A maximum of zero keeps all. */
  lemma NewestSegmentsAreKept(segments: seq<Segment>, maxSegments: nat) returns (older: seq<Segment>)
    ensures var sorted := SortByEnd(Finals(segments));
      var kept := LastSegments(sorted, maxSegments);
      && sorted == older + kept && NoLater(older, kept)
      && |kept| == if maxSegments == 0 then |Finals(segments)| else Min(maxSegments, |Finals(segments)|)
  {
    var sorted := SortByEnd(Finals(segments));
    SortByEndIsStable(Finals(segments), 0);
    SortKeepsLength(Finals(segments));
    if maxSegments == 0 {
      older := [];
    } else {
      older := LastSegmentsAreNewest(sorted, maxSegments);
    }
  }

  function Labelled(s: Segment): Text {
    s.speaker + Ascii(": ") + Trim(s.text)
  }

  function LabelledAll(segments: seq<Segment>): seq<Text> {
    seq(|segments|, i requires 0 <= i < |segments| => Labelled(segments[i]))
  }

  predicate FitsAlone(s: Segment, maxChars: nat) {
    |Labelled(s)| + 1 <= maxChars
  }

  /** The context shows `shown`, the end of `kept`, one labelled line each. */
  predicate ShowsNewest(context: Text, kept: seq<Segment>, shown: seq<Segment>, maxChars: nat)
    requires kept != []
  {
    && 0 < |shown| <= |kept| && kept[|kept| - |shown|..] == shown
    && if FitsAlone(kept[|kept| - 1], maxChars) then
         && context == Join(LabelledAll(shown), [NEWLINE])
         && (|shown| < |kept| ==> Cost(LabelledAll(kept[|kept| - |shown| - 1..])) > maxChars)
       else
         |shown| == 1 && context == Cut(Labelled(shown[0]), maxChars)
  }

  lemma LabelledSuffix(kept: seq<Segment>, k: nat)
    requires k <= |kept|
    ensures LabelledAll(kept)[k..] == LabelledAll(kept[k..])
  {
  }

  lemma LinesShowNewest(kept: seq<Segment>, maxChars: nat) returns (shown: seq<Segment>)
    requires kept != []
    ensures ShowsNewest(Join(TakeFromEnd(LabelledAll(kept), maxChars, []), [NEWLINE]), kept, shown, maxChars)
  {
    var lines, n := LabelledAll(kept), |kept| - 1;
    var k := TakenIsLongestSuffix(lines, maxChars);
    if NewestFits(lines, maxChars) {
      CostOfSuffix(lines, n);
      assert lines[n + 1..] == [];
      assert k <= n;
      LabelledSuffix(kept, k);
      shown := kept[k..];
      if k > 0 {
        LabelledSuffix(kept, k - 1);
      }
    } else {
      shown := kept[n..];
    }
  }

  /** The assembled context, for any segments: it is the newest of those that are final with a text, no more than
      `maxSegments`, one labelled line each, as many as fit; if the newest does not fit by itself, it is as much of
      that line as does. */
  lemma ContextShowsNewest(segments: seq<Segment>, maxSegments: nat, maxChars: nat)
    returns (older: seq<Segment>, kept: seq<Segment>, shown: seq<Segment>)
    ensures SortByEnd(Finals(segments)) == older + kept && NoLater(older, kept)
    ensures |kept| == if maxSegments == 0 then |Finals(segments)| else Min(maxSegments, |Finals(segments)|)
    ensures var context := Join(TakeFromEnd(RollingLines(segments, maxSegments), maxChars, []), [NEWLINE]);
      if kept == [] then context == [] else ShowsNewest(context, kept, shown, maxChars)
  {
    older := NewestSegmentsAreKept(segments, maxSegments);
    kept := LastSegments(SortByEnd(Finals(segments)), maxSegments);
    LinesAreLabelled(kept);
    if kept == [] {
      shown := [];
    } else {
      shown := LinesShowNewest(kept, maxChars);
    }
  }

  lemma LinesAreLabelled(segments: seq<Segment>)
    ensures Lines(segments) == LabelledAll(segments)
  {
    assert Ascii(": ") == [0x3A, SPACE];
  }

  lemma {:induction false} InsertKeepsLength(sorted: seq<Segment>, x: Segment)
    ensures |Insert(sorted, x)| == |sorted| + 1
  {
    if sorted != [] && sorted[|sorted| - 1].endMs > x.endMs {
      InsertKeepsLength(sorted[..|sorted| - 1], x);
    }
  }

  lemma {:induction false} SortKeepsLength(segments: seq<Segment>)
    ensures |SortByEnd(segments)| == |segments|
  {
    if segments != [] {
      SortKeepsLength(segments[..|segments| - 1]);
      InsertKeepsLength(SortByEnd(segments[..|segments| - 1]), segments[|segments| - 1]);
    }
  }

  // The input usage.

  /** Lines of `createProviderUserInput`. */
  function ProviderInput(kind: string, userPrompt: Text, transcript: Text, sources: Text): Text {
    Join([Ascii("Request kind: " + kind),
          Ascii("User request: ") + UserRequest(userPrompt),
          Ascii("Recent transcript, oldest to newest:"),
          OrElse(transcript, "(no final transcript yet)"),
          Ascii("Retrieved source material:"),
          OrElse(sources, "(none)")], [NEWLINE])
  }

  /** An absent prompt is modelled as the empty one, which the program treats alike. */
  function UserRequest(userPrompt: Text): Text {
    OrElse(Trim(userPrompt), "Use the recent transcript to produce the requested live suggestion.")
  }

  function OrElse(t: Text, placeholder: string): Text {
    if t == [] then Ascii(placeholder) else t
  }

  function Above(line: Text, rest: Text): Text {
    line + [NEWLINE] + rest
  }

  /** The text sent to the provider, line by line: each piece stands under its own title, or its placeholder does. */
  lemma ProviderInputReads(kind: string, userPrompt: Text, transcript: Text, sources: Text)
    ensures ProviderInput(kind, userPrompt, transcript, sources)
         == Above(Ascii("Request kind: " + kind),
            Above(Ascii("User request: ")
                  + (if Trim(userPrompt) != [] then Trim(userPrompt)
                     else Ascii("Use the recent transcript to produce the requested live suggestion.")),
            Above(Ascii("Recent transcript, oldest to newest:"),
            Above(if transcript != [] then transcript else Ascii("(no final transcript yet)"),
            Above(Ascii("Retrieved source material:"),
                  if sources != [] then sources else Ascii("(none)"))))))
  {
    JoinSix(Ascii("Request kind: " + kind), Ascii("User request: ") + UserRequest(userPrompt),
            Ascii("Recent transcript, oldest to newest:"), OrElse(transcript, "(no final transcript yet)"),
            Ascii("Retrieved source material:"), OrElse(sources, "(none)"));
  }

  lemma JoinMore(line: Text, rest: seq<Text>)
    requires rest != []
    ensures Join([line] + rest, [NEWLINE]) == Above(line, Join(rest, [NEWLINE]))
  {
    assert ([line] + rest)[1..] == rest;
  }

  lemma JoinSix(a: Text, b: Text, c: Text, d: Text, e: Text, f: Text)
    ensures Join([a, b, c, d, e, f], [NEWLINE]) == Above(a, Above(b, Above(c, Above(d, Above(e, f)))))
  {
    JoinMore(a, [b, c, d, e, f]);
    JoinMore(b, [c, d, e, f]);
    JoinMore(c, [d, e, f]);
    JoinMore(d, [e, f]);
    JoinMore(e, [f]);
    assert [a] + [b, c, d, e, f] == [a, b, c, d, e, f] && [b] + [c, d, e, f] == [b, c, d, e, f];
    assert [c] + [d, e, f] == [c, d, e, f] && [d] + [e, f] == [d, e, f] && [e] + [f] == [e, f];
  }

  function InputTokens(system: Text, input: Text): nat {
    ByteLength(system) + ByteLength(input)
  }

  lemma OrElseBytes(t: Text, placeholder: string, most: nat)
    requires ByteLength(t) <= most && |placeholder| <= most
    ensures ByteLength(OrElse(t, placeholder)) <= most
  {
    AsciiTakesOneByteEach(placeholder);
  }

  lemma {:induction false} TrimTakesNoMoreBytes(t: Text)
    ensures ByteLength(Trim(t)) <= ByteLength(t)
  {
    var start := TrimStart(t);
    assert start[..|TrimEnd(start)|] == TrimEnd(start);
    PrefixTakesNoMoreBytes(start, |TrimEnd(start)|);
    TrimStartTakesNoMoreBytes(t);
  }

  lemma {:induction false} TrimStartTakesNoMoreBytes(t: Text)
    ensures ByteLength(TrimStart(t)) <= ByteLength(t)
  {
    if t != [] && IsSpace(t[0]) {
      TrimStartTakesNoMoreBytes(t[1..]);
    }
  }

  /** Bytes of the lines, each with its line break. */
  function ByteCost(lines: seq<Text>): nat {
    if lines == [] then 0 else ByteLength(lines[0]) + 1 + ByteCost(lines[1..])
  }

  lemma {:induction false} JoinBytes(lines: seq<Text>)
    requires lines != []
    ensures ByteLength(Join(lines, [NEWLINE])) < ByteCost(lines)
  {
    if |lines| > 1 {
      JoinBytes(lines[1..]);
      ByteLengthAppend(lines[0] + [NEWLINE], Join(lines[1..], [NEWLINE]));
      ByteLengthAppend(lines[0], [NEWLINE]);
    }
  }

  /** The measured input is bounded by its sections, so a configuration whose sections leave room is
      never rejected: with the default section budgets (3000, 3000, 512) and input budget (8192),
      `token_budget_exceeded` cannot be raised for an instruction of up to 1500 bytes. */
  lemma SectionsBoundInput(system: Text, kind: string, userPrompt: Text, transcript: Text, sources: Text,
                           maxPrompt: nat, maxTranscript: nat, maxSource: nat)
    requires |kind| <= 18
    requires ByteLength(userPrompt) <= maxPrompt && ByteLength(transcript) <= maxTranscript
    requires ByteLength(sources) <= maxSource
    ensures InputTokens(system, ProviderInput(kind, userPrompt, transcript, sources))
         <= ByteLength(system) + Max(maxPrompt, 67) + Max(maxTranscript, 25) + Max(maxSource, 6) + 113
  {
    var request := UserRequest(userPrompt);
    TrimTakesNoMoreBytes(userPrompt);
    OrElseBytes(Trim(userPrompt), "Use the recent transcript to produce the requested live suggestion.",
                Max(maxPrompt, 67));
    OrElseBytes(transcript, "(no final transcript yet)", Max(maxTranscript, 25));
    OrElseBytes(sources, "(none)", Max(maxSource, 6));
    FixedLinesBytes(kind, request);
    var lines := [Ascii("Request kind: " + kind), Ascii("User request: ") + request,
                  Ascii("Recent transcript, oldest to newest:"), OrElse(transcript, "(no final transcript yet)"),
                  Ascii("Retrieved source material:"), OrElse(sources, "(none)")];
    JoinBytes(lines);
    SixLines(lines);
  }

  lemma FixedLinesBytes(kind: string, request: Text)
    ensures ByteLength(Ascii("Request kind: " + kind)) == 14 + |kind|
    ensures ByteLength(Ascii("User request: ") + request) <= 14 + ByteLength(request)
    ensures ByteLength(Ascii("Recent transcript, oldest to newest:")) == 36
    ensures ByteLength(Ascii("Retrieved source material:")) == 26
  {
    AsciiTakesOneByteEach("Request kind: " + kind);
    AsciiTakesOneByteEach("User request: ");
    ByteLengthAppend(Ascii("User request: "), request);
    AsciiTakesOneByteEach("Recent transcript, oldest to newest:");
    AsciiTakesOneByteEach("Retrieved source material:");
  }

  lemma SixLines(lines: seq<Text>)
    requires |lines| == 6
    ensures ByteCost(lines) == 6 + ByteLength(lines[0]) + ByteLength(lines[1]) + ByteLength(lines[2])
                                 + ByteLength(lines[3]) + ByteLength(lines[4]) + ByteLength(lines[5])
  {
    assert ByteCost(lines) == ByteLength(lines[0]) + 1 + ByteCost(lines[1..]);
    assert ByteCost(lines[1..]) == ByteLength(lines[1]) + 1 + ByteCost(lines[2..])
        by { assert lines[1..][1..] == lines[2..]; }
    assert ByteCost(lines[2..]) == ByteLength(lines[2]) + 1 + ByteCost(lines[3..])
        by { assert lines[2..][1..] == lines[3..]; }
    assert ByteCost(lines[3..]) == ByteLength(lines[3]) + 1 + ByteCost(lines[4..])
        by { assert lines[3..][1..] == lines[4..]; }
    assert ByteCost(lines[4..]) == ByteLength(lines[4]) + 1 + ByteCost(lines[5..])
        by { assert lines[4..][1..] == lines[5..]; }
    assert ByteCost(lines[5..]) == ByteLength(lines[5]) + 1 + ByteCost(lines[6..])
        by { assert lines[5..][1..] == lines[6..]; }
  }
}
