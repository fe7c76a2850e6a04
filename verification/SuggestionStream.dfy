/** The streaming half of `LiveSuggestionService.streamLiveSuggestion`
    (services/ai-orchestrator/src/index.ts:353-429): a provider's tokens are cut to
    the output budget one by one, and the part that is new is sent on. */
module SuggestionStream {
  import opened Numbers
  import opened Utf16

  /** Limits on the output: UTF-8 bytes and UTF-16 code units. */
  datatype OutputLimits = OutputLimits(maxTokens: nat, maxChars: nat)

  datatype ProviderEvent = Token(token: Text) | Complete(model: string)

  /** How the provider's stream stopped. */
  datatype Ending = Closed | Failed

  datatype Status = Completed | ProviderError

  datatype Stream = Stream(content: Text, deltas: seq<Text>, model: string, complete: bool)

  const EMPTY_STREAM := Stream([], [], "unresolved", false)

  /** The content after one more token. */
  function Accept(content: Text, token: Text, limits: OutputLimits): Text {
    var bounded := Truncated(content + token, limits.maxTokens);
    if |bounded| <= limits.maxChars then bounded else bounded[..limits.maxChars]
  }

  /** `boundedContent.slice(content.length)`: empty when the content shrank. */
  function Delta(before: Text, after: Text): Text {
    if |before| <= |after| then after[|before|..] else []
  }

  function OnEvent(s: Stream, event: ProviderEvent, limits: OutputLimits): Stream {
    match event
    case Token(token) =>
      var content := Accept(s.content, token, limits);
      var delta := Delta(s.content, content);
      s.(content := content, deltas := if delta == [] then s.deltas else s.deltas + [delta])
    case Complete(model) => s.(model := model, complete := true)
  }

  function Run(events: seq<ProviderEvent>, limits: OutputLimits): Stream {
    if events == [] then EMPTY_STREAM
    else OnEvent(Run(events[..|events| - 1], limits), events[|events| - 1], limits)
  }

  /** The loop over the provider's events. Token number `i` sent to the client carries index `i`. */
  method StreamProvider(events: seq<ProviderEvent>, ending: Ending, limits: OutputLimits)
    returns (content: Text, deltas: seq<Text>, indices: seq<nat>, status: Status, outputTokens: nat)
    ensures content == Run(events, limits).content
    ensures deltas == Run(events, limits).deltas
    ensures |indices| == |deltas| && forall i :: 0 <= i < |indices| ==> indices[i] == i
    ensures status == Completed <==> ending == Closed && Run(events, limits).complete
    ensures outputTokens == ByteLength(content) <= limits.maxTokens && |content| <= limits.maxChars
    ensures forall i :: 0 <= i < |deltas| ==> deltas[i] != []
  {
    content, deltas, indices := [], [], [];
    var tokenEventIndex := 0;
    var complete := false;
    for i := 0 to |events|
      invariant content == Run(events[..i], limits).content
      invariant deltas == Run(events[..i], limits).deltas
      invariant complete == Run(events[..i], limits).complete
      invariant tokenEventIndex == |deltas|
      invariant |indices| == |deltas| && forall k :: 0 <= k < |indices| ==> indices[k] == k
      invariant forall k :: 0 <= k < |deltas| ==> deltas[k] != []
    {
      assert events[..i + 1][..i] == events[..i];
      match events[i]
      case Token(token) =>
        var bounded := TruncateToTokenBudget(content + token, limits.maxTokens);
        var boundedContent := if |bounded| <= limits.maxChars then bounded else bounded[..limits.maxChars];
        var acceptedDelta := Delta(content, boundedContent);
        content := boundedContent;
        if |acceptedDelta| > 0 {
          deltas := deltas + [acceptedDelta];
          indices := indices + [tokenEventIndex];
          tokenEventIndex := tokenEventIndex + 1;
        }
      case Complete(_) =>
        complete := true;
    }
    assert events[..|events|] == events;
    OutputStaysWithinLimits(events, limits);
    outputTokens := ByteLength(content);
    status := if ending == Closed && complete then Completed else ProviderError;
  }

  /** `truncateToTokenBudget`: walks the code points and stops at the first that does not fit. */
  method TruncateToTokenBudget(text: Text, maxTokens: int) returns (result: Text)
    ensures result == Truncated(text, maxTokens)
  {
    if maxTokens <= 0 || text == [] {
      return [];
    }
    if ByteLength(text) <= maxTokens {
      FittingTextIsKept(text, maxTokens);
      return text;
    }
    result := [];
    var tokens := 0;
    var done := 0;
    while done < |text|
      invariant done <= |text| && result == text[..done]
      invariant FittingUnits(text, maxTokens) == done + FittingUnits(text[done..], maxTokens - tokens)
    {
      var rest := text[done..];
      var n, characterTokens := FirstUnits(rest), FirstBytes(rest);
      if tokens + characterTokens > maxTokens {
        break;
      }
      assert rest[n..] == text[done + n..];
      result := result + rest[..n];
      tokens := tokens + characterTokens;
      done := done + n;
    }
  }

  lemma AcceptStaysWithinLimits(content: Text, token: Text, limits: OutputLimits)
    ensures ByteLength(Accept(content, token, limits)) <= limits.maxTokens
    ensures |Accept(content, token, limits)| <= limits.maxChars
  {
    var text := content + token;
    TruncatedIsLongest(text, limits.maxTokens);
    var bounded := Truncated(text, limits.maxTokens);
    if |bounded| > limits.maxChars {
      PrefixTakesNoMoreBytes(bounded, limits.maxChars);
    }
  }

  /** Whatever the provider sends, the content, and so the output usage that is billed, is bounded. */
  lemma {:induction false} OutputStaysWithinLimits(events: seq<ProviderEvent>, limits: OutputLimits)
    ensures ByteLength(Run(events, limits).content) <= limits.maxTokens
    ensures |Run(events, limits).content| <= limits.maxChars
  {
    if events != [] {
      var n := |events| - 1;
      OutputStaysWithinLimits(events[..n], limits);
      if events[n].Token? {
        AcceptStaysWithinLimits(Run(events[..n], limits).content, events[n].token, limits);
      }
    }
  }

  /** The token completes a surrogate pair left open by the content, and the pair does not fit:
      the open half takes three bytes, the pair four. */
  predicate SplitsPairAtBudget(content: Text, token: Text, limits: OutputLimits) {
    EndsHigh(content) && StartsLow(token) && ByteLength(content) + 1 > limits.maxTokens
  }

  /** One token either extends the content or takes back exactly its last code unit, and it takes
      it back exactly when a pair is split at the budget. */
  lemma AcceptExtendsUnlessPairSplit(content: Text, token: Text, limits: OutputLimits)
    requires ByteLength(content) <= limits.maxTokens && |content| <= limits.maxChars
    ensures content <= Accept(content, token, limits) <==> !SplitsPairAtBudget(content, token, limits)
    ensures SplitsPairAtBudget(content, token, limits) ==>
              Accept(content, token, limits) == content[..|content| - 1]
  {
    FittingReachesContentIff(content, token, limits.maxTokens);
    AcceptIsPrefix(content, token, limits);
  }

  lemma FittingReachesContentIff(content: Text, token: Text, budget: nat)
    requires ByteLength(content) <= budget
    ensures var k := FittingUnits(content + token, budget);
      var splits := EndsHigh(content) && StartsLow(token) && ByteLength(content) + 1 > budget;
      && (k >= |content| <==> !splits)
      && (splits ==> k == |content| - 1)
  {
    if EndsHigh(content) && StartsLow(token) {
      OpenPairIsCutAtBudget(content, token, budget);
    } else {
      FittingPrefixIsKept(content, token, budget);
    }
  }

  lemma AcceptIsPrefix(content: Text, token: Text, limits: OutputLimits)
    requires |content| <= limits.maxChars
    ensures var k := FittingUnits(content + token, limits.maxTokens);
            if k >= |content| then content <= Accept(content, token, limits)
            else Accept(content, token, limits) == content[..k]
  {
    assert (content + token)[..|content|] == content;
  }

  lemma OpenPairIsCutAtBudget(content: Text, token: Text, budget: nat)
    requires ByteLength(content) <= budget
    requires EndsHigh(content) && StartsLow(token)
    ensures if ByteLength(content) + 1 > budget
            then FittingUnits(content + token, budget) == |content| - 1
            else FittingUnits(content + token, budget) > |content|
  {
    var n := |content| - 1;
    var head, pair := content[..n], content[n..] + token;
    assert content == head + content[n..];
    assert content + token == head + pair;
    ByteLengthAppend(head, content[n..]);
    assert FirstUnits(content[n..]) == 1 && content[n..][1..] == [];
    assert StartsWithPair(pair) && !StartsLow(pair);
    FittingPrefixIsKept(head, pair, budget);
  }

  /** How many tokens of the run were split at the budget. */
  function PairSplits(events: seq<ProviderEvent>, limits: OutputLimits): nat {
    if events == [] then 0
    else
      var n := |events| - 1;
      PairSplits(events[..n], limits)
      + if events[n].Token? && SplitsPairAtBudget(Run(events[..n], limits).content, events[n].token, limits)
        then 1 else 0
  }

  function Concat(parts: seq<Text>): Text {
    if parts == [] then [] else Concat(parts[..|parts| - 1]) + parts[|parts| - 1]
  }

  lemma ConcatSnoc(parts: seq<Text>, part: Text)
    ensures Concat(parts + [part]) == Concat(parts) + part
  {
    assert (parts + [part])[..|parts|] == parts;
  }

  /** One token: the client's text and the content stay apart by the code units taken back. */
  lemma TokenAccounts(s: Stream, token: Text, limits: OutputLimits)
    requires ByteLength(s.content) <= limits.maxTokens && |s.content| <= limits.maxChars
    ensures var s' := OnEvent(s, Token(token), limits);
      var split := SplitsPairAtBudget(s.content, token, limits);
      && |Concat(s'.deltas)| - |s'.content| == |Concat(s.deltas)| - |s.content| + (if split then 1 else 0)
      && (!split && Concat(s.deltas) == s.content ==> Concat(s'.deltas) == s'.content)
  {
    AcceptExtendsUnlessPairSplit(s.content, token, limits);
    ConcatSnoc(s.deltas, Delta(s.content, Accept(s.content, token, limits)));
  }

  /** Conservation: the code units sent to the client are those of the content, plus one for every
      code unit that a split pair took back. */
  lemma {:induction false} DeltasAccountForContent(events: seq<ProviderEvent>, limits: OutputLimits)
    ensures |Concat(Run(events, limits).deltas)| == |Run(events, limits).content| + PairSplits(events, limits)
    ensures PairSplits(events, limits) == 0 ==> Concat(Run(events, limits).deltas) == Run(events, limits).content
  {
    if events != [] {
      var n := |events| - 1;
      DeltasAccountForContent(events[..n], limits);
      if events[n].Token? {
        OutputStaysWithinLimits(events[..n], limits);
        TokenAccounts(Run(events[..n], limits), events[n].token, limits);
      }
    }
  }

  /** What the client has accumulated just before completion is the completed content exactly when no
      token was split at the budget. */
  lemma ClientTextMatchesContentIff(events: seq<ProviderEvent>, limits: OutputLimits)
    ensures Concat(Run(events, limits).deltas) == Run(events, limits).content <==> PairSplits(events, limits) == 0
  {
    DeltasAccountForContent(events, limits);
  }

  predicate WithoutSurrogates(t: Text) {
    forall u | u in t :: !IsHigh(u) && !IsLow(u)
  }

  /** Tokens made of code points of the basic plane are never split. */
  lemma {:induction false} BasicPlaneNeverSplits(events: seq<ProviderEvent>, limits: OutputLimits)
    requires forall e | e in events :: e.Token? ==> WithoutSurrogates(e.token)
    ensures PairSplits(events, limits) == 0
  {
    if events != [] {
      var n := |events| - 1;
      BasicPlaneNeverSplits(events[..n], limits);
      var last := events[n];
      assert last in events;
      if last.Token? && last.token != [] {
        assert last.token[0] in last.token;
      }
    }
  }

  // What the output keeps.

  /** One token: the content is the longest run of whole code points within the byte budget, cut to the character
      limit. */
  lemma AcceptIsLongestCut(content: Text, token: Text, limits: OutputLimits) returns (k: nat)
    ensures var whole := content + token;
      && k <= |whole| && Boundary(whole, k)
      && (forall j: nat | j <= |whole| && Boundary(whole, j) ::
            ByteLength(whole[..j]) <= limits.maxTokens <==> j <= k)
      && Accept(content, token, limits) == whole[..Min(k, limits.maxChars)]
  {
    k := FittingUnits(content + token, limits.maxTokens);
    TruncatedIsLongest(content + token, limits.maxTokens);
    assert (content + token)[..k][..Min(k, limits.maxChars)] == (content + token)[..Min(k, limits.maxChars)];
  }

  predicate Fits(t: Text, limits: OutputLimits) {
    ByteLength(t) <= limits.maxTokens && |t| <= limits.maxChars
  }

  /** A token is taken whole exactly if the content still fits with it. */
  lemma AcceptTakesAllIff(content: Text, token: Text, limits: OutputLimits)
    ensures Accept(content, token, limits) == content + token <==> Fits(content + token, limits)
  {
    AcceptStaysWithinLimits(content, token, limits);
    if Fits(content + token, limits) {
      FittingTextIsKept(content + token, limits.maxTokens);
    }
  }

  /** Everything the provider said. */
  function Said(events: seq<ProviderEvent>): Text {
    if events == [] then []
    else
      var before, last := Said(events[..|events| - 1]), events[|events| - 1];
      if last.Token? then before + last.token else before
  }

  function SaidInParts(events: seq<ProviderEvent>): seq<Text> {
    if events == [] then []
    else
      var before, last := SaidInParts(events[..|events| - 1]), events[|events| - 1];
      if last.Token? && last.token != [] then before + [last.token] else before
  }

  lemma PrefixFits(before: Text, token: Text, limits: OutputLimits)
    requires Fits(before + token, limits)
    ensures Fits(before, limits)
  {
    PrefixTakesNoMoreBytes(before + token, |before|);
    assert (before + token)[..|before|] == before;
  }

  lemma {:induction false} FittingWordsAreKept(events: seq<ProviderEvent>, limits: OutputLimits)
    requires Fits(Said(events), limits)
    ensures Run(events, limits).content == Said(events) && Run(events, limits).deltas == SaidInParts(events)
  {
    if events != [] {
      var n := |events| - 1;
      if events[n].Token? {
        PrefixFits(Said(events[..n]), events[n].token, limits);
        FittingWordsAreKept(events[..n], limits);
        AcceptTakesAllIff(Said(events[..n]), events[n].token, limits);
      } else {
        FittingWordsAreKept(events[..n], limits);
      }
    }
  }

  /** The content is everything the provider said exactly if all of it fits both limits, and then each token that is
      not empty is sent on as it is. */
  lemma EverythingSaidIsKeptIff(events: seq<ProviderEvent>, limits: OutputLimits)
    ensures Run(events, limits).content == Said(events) <==> Fits(Said(events), limits)
    ensures Fits(Said(events), limits) ==> Run(events, limits).deltas == SaidInParts(events)
  {
    OutputStaysWithinLimits(events, limits);
    if Fits(Said(events), limits) {
      FittingWordsAreKept(events, limits);
    }
  }

  /** The stream is complete exactly if the provider completed it; the model is the one it named last. */
  lemma {:induction false} CompletesIff(events: seq<ProviderEvent>, limits: OutputLimits)
    ensures Run(events, limits).complete <==> exists e :: e in events && e.Complete?
    ensures events != [] && events[|events| - 1].Complete? ==>
              Run(events, limits).model == events[|events| - 1].model
  {
    if events != [] {
      var n := |events| - 1;
      CompletesIff(events[..n], limits);
      assert events == events[..n] + [events[n]];
    }
  }

  /** The failing family is not empty: an open high surrogate, then its low half, with three bytes of
      budget. The client keeps a code unit that the completed content lost. */
  lemma SplitPairShrinksContent()
    ensures var limits := OutputLimits(3, 420);
            var events := [Token([0xD83D]), Token([0xDE00])];
            Run(events, limits).content == [] && Concat(Run(events, limits).deltas) == [0xD83D]
  {
    var limits := OutputLimits(3, 420);
    var first := [Token([0xD83D])];
    var both := [Token([0xD83D]), Token([0xDE00])];
    assert both[..1] == first && first[..0] == [];
    var high: Text := [0xD83D];
    assert [] + high == high;
    assert ByteLength([0xD83D]) == 3;
    FittingTextIsKept([0xD83D], 3);
    assert Run(first, limits).content == [0xD83D];
    assert Run(first, limits).deltas == [[0xD83D]];
    AcceptExtendsUnlessPairSplit([0xD83D], [0xDE00], limits);
    assert Run(both, limits).deltas == [[0xD83D]];
    assert Concat([[0xD83D]]) == Concat([]) + [0xD83D];
  }
}
