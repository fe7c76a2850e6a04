/** The client's list of suggestions (apps/desktop/src/protocol/desktopRealtimeSession.ts:212-246, 447-498). */
module SuggestionView {
  import opened Wrappers
  import opened Utf16
  import opened Ids
  import SuggestionStream

  datatype Kind = AnswerQuestion | SummarizeSoFar | SuggestFollowUp | ObjectionResponse

  datatype Confidence = Low | Medium | High

  datatype Source = Source(documentId: Text, title: Text, chunkId: Text)

  /** What only a completed suggestion has. */
  datatype Details = Details(sources: seq<Source>, confidence: Option<Confidence>, promptVersion: Option<Text>,
                             model: Option<Text>)

  const NO_DETAILS := Details([], None, None, None)

  /** The client makes up an id until the server has given one. */
  datatype SuggestionId = Pending(request: RequestId) | Given(id: Text)

  datatype Suggestion = Suggestion(id: SuggestionId, request: RequestId, kind: Kind, content: Text, complete: bool,
                                   details: Details)

  function Without(list: seq<Suggestion>, r: RequestId): seq<Suggestion> {
    if list == [] then []
    else if list[|list| - 1].request != r then Without(list[..|list| - 1], r) + [list[|list| - 1]]
    else Without(list[..|list| - 1], r)
  }

  /** The first suggestion of the request. */
  function Find(list: seq<Suggestion>, r: RequestId): Option<Suggestion> {
    if list == [] then None
    else
      var before := Find(list[..|list| - 1], r);
      if before.Some? then before
      else if list[|list| - 1].request == r then Some(list[|list| - 1])
      else None
  }

  datatype Notice =
    | Asked(request: RequestId, kind: Kind)
    | TokenArrived(request: RequestId, id: Text, token: Text)
    | Finished(request: RequestId, id: Text, kind: Kind, content: Text, details: Details)

  /** The entry after one more token: it goes on from the one there is. */
  function Extended(existing: Option<Suggestion>, r: RequestId, id: Text, token: Text): Suggestion {
    match existing
    case Some(s) => Suggestion(Given(id), r, s.kind, s.content + token, false, s.details)
    case None => Suggestion(Given(id), r, AnswerQuestion, token, false, NO_DETAILS)
  }

  function Shown(list: seq<Suggestion>, n: Notice): seq<Suggestion> {
    match n
    case Asked(r, kind) => list + [Suggestion(Pending(r), r, kind, [], false, NO_DETAILS)]
    case TokenArrived(r, id, token) => Without(list, r) + [Extended(Find(list, r), r, id, token)]
    case Finished(r, id, kind, content, details) =>
      Without(list, r) + [Suggestion(Given(id), r, kind, content, true, details)]
  }

  function ShownAll(notices: seq<Notice>): seq<Suggestion> {
    if notices == [] then [] else Shown(ShownAll(notices[..|notices| - 1]), notices[|notices| - 1])
  }

  class SuggestionList {
    var suggestions: seq<Suggestion>

    constructor ()
      ensures suggestions == []
    {
      suggestions := [];
    }

    method RequestLiveSuggestion(r: RequestId, kind: Kind)
      modifies this
      ensures suggestions == Shown(old(suggestions), Asked(r, kind))
    {
      suggestions := suggestions + [Suggestion(Pending(r), r, kind, [], false, NO_DETAILS)];
    }

    method FilterOut(r: RequestId) returns (kept: seq<Suggestion>)
      ensures kept == Without(suggestions, r)
    {
      kept := [];
      for i := 0 to |suggestions|
        invariant kept == Without(suggestions[..i], r)
      {
        assert suggestions[..i + 1][..i] == suggestions[..i];
        if suggestions[i].request != r {
          kept := kept + [suggestions[i]];
        }
      }
      assert suggestions[..|suggestions|] == suggestions;
    }

    method AppendSuggestionToken(r: RequestId, id: Text, token: Text)
      modifies this
      ensures suggestions == Shown(old(suggestions), TokenArrived(r, id, token))
    {
      var kept := FilterOut(r);
      var existing := Find(suggestions, r);
      var kind := if existing.Some? then existing.value.kind else AnswerQuestion;
      var content := if existing.Some? then existing.value.content + token else token;
      var details := if existing.Some? then existing.value.details else NO_DETAILS;
      suggestions := kept + [Suggestion(Given(id), r, kind, content, false, details)];
    }

    method CompleteSuggestion(r: RequestId, id: Text, kind: Kind, content: Text, details: Details)
      modifies this
      ensures suggestions == Shown(old(suggestions), Finished(r, id, kind, content, details))
    {
      var kept := FilterOut(r);
      suggestions := kept + [Suggestion(Given(id), r, kind, content, true, details)];
    }
  }

  /** What one request's own notices say its text is. */
  function OwnText(notices: seq<Notice>, r: RequestId): Option<Text> {
    if notices == [] then None
    else
      var before := OwnText(notices[..|notices| - 1], r);
      var last := notices[|notices| - 1];
      if last.request != r then before
      else match last
        case Asked(_, _) => if before.Some? then before else Some([])
        case TokenArrived(_, _, token) => if before.Some? then Some(before.value + token) else Some(token)
        case Finished(_, _, _, content, _) => Some(content)
  }

  lemma {:induction false} WithoutFinds(list: seq<Suggestion>, r: RequestId, q: RequestId)
    ensures Find(Without(list, r), q) == if q == r then None else Find(list, q)
  {
    if list != [] {
      var before, last := list[..|list| - 1], list[|list| - 1];
      WithoutFinds(before, r, q);
      if last.request != r {
        FindSnoc(Without(before, r), last, q);
      }
    }
  }

  lemma FindSnoc(list: seq<Suggestion>, s: Suggestion, q: RequestId)
    ensures Find(list + [s], q) ==
      if Find(list, q).Some? then Find(list, q) else if s.request == q then Some(s) else None
  {
    assert (list + [s])[..|list|] == list;
  }

  /** However the notices of different requests interleave, the text shown for a request is that of its own. */
  lemma {:induction false} RequestsDoNotMix(notices: seq<Notice>, r: RequestId)
    ensures var found := Find(ShownAll(notices), r);
      OwnText(notices, r) == if found.Some? then Some(found.value.content) else None
  {
    if notices != [] {
      var before, last := notices[..|notices| - 1], notices[|notices| - 1];
      RequestsDoNotMix(before, r);
      var list := ShownAll(before);
      WithoutFinds(list, last.request, r);
      var added := Shown(list, last)[|Shown(list, last)| - 1];
      FindSnoc(if last.Asked? then list else Without(list, last.request), added, r);
    }
  }

  function NoticesOf(notices: seq<Notice>, r: RequestId): seq<Notice> {
    if notices == [] then []
    else if notices[|notices| - 1].request == r then NoticesOf(notices[..|notices| - 1], r) + [notices[|notices| - 1]]
    else NoticesOf(notices[..|notices| - 1], r)
  }

  function TokenNotices(r: RequestId, id: Text, deltas: seq<Text>): seq<Notice> {
    if deltas == [] then []
    else TokenNotices(r, id, deltas[..|deltas| - 1]) + [TokenArrived(r, id, deltas[|deltas| - 1])]
  }

  lemma {:induction false} OwnTextIsOwn(notices: seq<Notice>, r: RequestId)
    ensures OwnText(notices, r) == OwnText(NoticesOf(notices, r), r)
  {
    if notices != [] {
      var before, last := notices[..|notices| - 1], notices[|notices| - 1];
      OwnTextIsOwn(before, r);
      if last.request == r {
        assert (NoticesOf(before, r) + [last])[..|NoticesOf(before, r)|] == NoticesOf(before, r);
      }
    }
  }

  lemma {:induction false} TokensAccumulate(r: RequestId, id: Text, kind: Kind, deltas: seq<Text>)
    ensures OwnText([Asked(r, kind)] + TokenNotices(r, id, deltas), r) == Some(SuggestionStream.Concat(deltas))
  {
    var start := [Asked(r, kind)];
    if deltas == [] {
      assert start + [] == start;
      assert OwnText(start[..0], r) == None;
    } else {
      var before := TokenNotices(r, id, deltas[..|deltas| - 1]);
      TokensAccumulate(r, id, kind, deltas[..|deltas| - 1]);
      assert (start + TokenNotices(r, id, deltas))[..|start + before|] == start + before;
    }
  }

  /** The text shown just before completion, among any other requests, is what was sent; it is the completed
      content exactly when no surrogate pair was split at the budget. */
  lemma ShownTextIsContentIff(notices: seq<Notice>, r: RequestId, id: Text, kind: Kind,
                              events: seq<SuggestionStream.ProviderEvent>, limits: SuggestionStream.OutputLimits)
    requires NoticesOf(notices, r)
          == [Asked(r, kind)] + TokenNotices(r, id, SuggestionStream.Run(events, limits).deltas)
    ensures var found := Find(ShownAll(notices), r);
      && found.Some? && found.value.content == SuggestionStream.Concat(SuggestionStream.Run(events, limits).deltas)
      && (found.value.content == SuggestionStream.Run(events, limits).content
          <==> SuggestionStream.PairSplits(events, limits) == 0)
  {
    RequestsDoNotMix(notices, r);
    OwnTextIsOwn(notices, r);
    TokensAccumulate(r, id, kind, SuggestionStream.Run(events, limits).deltas);
    SuggestionStream.ClientTextMatchesContentIff(events, limits);
  }

  /** Whatever was shown before, completion shows the completed content and its sources. */
  lemma CompletionShowsContent(notices: seq<Notice>, r: RequestId, id: Text, kind: Kind, content: Text,
                               details: Details)
    ensures Find(ShownAll(notices + [Finished(r, id, kind, content, details)]), r)
         == Some(Suggestion(Given(id), r, kind, content, true, details))
  {
    assert (notices + [Finished(r, id, kind, content, details)])[..|notices|] == notices;
    WithoutFinds(ShownAll(notices), r, r);
    FindSnoc(Without(ShownAll(notices), r), Suggestion(Given(id), r, kind, content, true, details), r);
  }

  // The whole entry.

  /** What one request's own notices say its entry is: the first request for it gives its kind, a token makes it
      unfinished again and names it, and a completion replaces all of it. */
  function OwnEntry(notices: seq<Notice>, r: RequestId): Option<Suggestion> {
    if notices == [] then None
    else
      var before := OwnEntry(notices[..|notices| - 1], r);
      var last := notices[|notices| - 1];
      if last.request != r then before
      else match last
        case Asked(_, kind) =>
          if before.Some? then before else Some(Suggestion(Pending(r), r, kind, [], false, NO_DETAILS))
        case TokenArrived(_, id, token) =>
          if before.Some? then Some(before.value.(id := Given(id), content := before.value.content + token,
                                                  complete := false))
          else Some(Suggestion(Given(id), r, AnswerQuestion, token, false, NO_DETAILS))
        case Finished(_, id, kind, content, details) => Some(Suggestion(Given(id), r, kind, content, true, details))
  }

  lemma {:induction false} FoundIsOfRequest(list: seq<Suggestion>, r: RequestId)
    ensures Find(list, r).Some? ==> Find(list, r).value.request == r
  {
    if list != [] {
      FoundIsOfRequest(list[..|list| - 1], r);
    }
  }

  /** However the notices of different requests interleave, the entry shown for a request is made by its own. */
  lemma {:induction false} EntryIsOwn(notices: seq<Notice>, r: RequestId)
    ensures Find(ShownAll(notices), r) == OwnEntry(notices, r)
  {
    if notices != [] {
      var before, last := notices[..|notices| - 1], notices[|notices| - 1];
      EntryIsOwn(before, r);
      var list := ShownAll(before);
      FoundIsOfRequest(list, r);
      WithoutFinds(list, last.request, r);
      var added := Shown(list, last)[|Shown(list, last)| - 1];
      FindSnoc(if last.Asked? then list else Without(list, last.request), added, r);
    }
  }

  lemma WithoutSnoc(list: seq<Suggestion>, s: Suggestion, r: RequestId)
    ensures Without(list + [s], r) == if s.request == r then Without(list, r) else Without(list, r) + [s]
  {
    assert (list + [s])[..|list|] == list;
  }

  lemma {:induction false} WithoutTwice(list: seq<Suggestion>, r: RequestId)
    ensures Without(Without(list, r), r) == Without(list, r)
  {
    if list != [] {
      var before, last := list[..|list| - 1], list[|list| - 1];
      WithoutTwice(before, r);
      if last.request != r {
        WithoutSnoc(Without(before, r), last, r);
      }
    }
  }

  /** A notice leaves all entries of other requests alone, in their order, and puts its own last. */
  lemma OthersStay(list: seq<Suggestion>, n: Notice)
    ensures Without(Shown(list, n), n.request) == Without(list, n.request)
    ensures Shown(list, n) != [] && Shown(list, n)[|Shown(list, n)| - 1].request == n.request
  {
    var added := Shown(list, n)[|Shown(list, n)| - 1];
    WithoutSnoc(if n.Asked? then list else Without(list, n.request), added, n.request);
    WithoutTwice(list, n.request);
  }
}
