/** The life of a suggestion request that was taken on, from the lookup to the release, for each way it can end
    (services/realtime/src/ws-server.ts:495-526, 949-1056). */
module RequestLife {
  import opened Ids
  import opened Wrappers
  import opened Utf16
  import opened Sessions
  import opened Admission
  import opened AdmissionRules
  import opened Reservation
  import opened RequestReuse
  import SuggestionStream

  /** The content that the provider's tokens make. */
  function Streamed(content: Text, tokens: seq<Text>, limits: SuggestionStream.OutputLimits): Text
    decreases |tokens|
  {
    if tokens == [] then content
    else Streamed(SuggestionStream.Accept(content, tokens[0], limits), tokens[1..], limits)
  }

  lemma {:induction false} FittingTokensAreKept(content: Text, tokens: seq<Text>, limits: SuggestionStream.OutputLimits)
    requires SuggestionStream.Fits(content + Concat(tokens), limits)
    ensures Streamed(content, tokens, limits) == content + Concat(tokens)
    decreases |tokens|
  {
    if tokens == [] {
      assert content + [] == content;
    } else {
      assert content + Concat(tokens) == (content + tokens[0]) + Concat(tokens[1..]);
      SuggestionStream.PrefixFits(content + tokens[0], Concat(tokens[1..]), limits);
      SuggestionStream.AcceptTakesAllIff(content, tokens[0], limits);
      FittingTokensAreKept(content + tokens[0], tokens[1..], limits);
    }
  }

  function Concat(tokens: seq<Text>): Text {
    if tokens == [] then [] else tokens[0] + Concat(tokens[1..])
  }

  function TokensArrive(i: nat, tokens: seq<Text>): seq<ServerEvent> {
    if tokens == [] then [] else [TokenArrives(i, tokens[0])] + TokensArrive(i, tokens[1..])
  }

  function LimitsOf(cfg: Config, h: Handler): SuggestionStream.OutputLimits {
    SuggestionStream.OutputLimits(cfg.maxOutputTokens, h.maxChars)
  }

  lemma {:induction false} TokensAreStreamed(cfg: Config, s: Server, i: nat, tokens: seq<Text>)
    requires Waits(s, i, Streaming)
    ensures var h := s.handlers[i];
      ServerRun(cfg, s, TokensArrive(i, tokens))
      == s.(handlers := s.handlers[i := h.(content := Streamed(h.content, tokens, LimitsOf(cfg, h)))])
    decreases |tokens|
  {
    if tokens == [] {
      assert s.handlers[i := s.handlers[i]] == s.handlers;
    } else {
      var h := s.handlers[i];
      var s' := ServerStep(cfg, s, TokenArrives(i, tokens[0]));
      assert TokensArrive(i, tokens)[1..] == TokensArrive(i, tokens[1..]);
      TokensAreStreamed(cfg, s', i, tokens[1..]);
      assert s'.handlers[i := s'.handlers[i]] == s'.handlers;
    }
  }

  // The three stretches of a request.

  /** It was let through: it is counted, and its time is remembered. */
  function LetThrough(s: Server, i: nat): Server
    requires i < |s.handlers|
  {
    var h := s.handlers[i];
    s.(handlers := s.handlers[i := h.(phase := Retrieving)],
       guards := s.guards[h.session := Guard(Some(h.nowMs), h.snapshot.acceptedCount + 1, true)],
       acceptances := s.acceptances + [Acceptance(h.session, h.nowMs)])
  }

  /** It is over, and the session is free for the next one. */
  function Over(s: Server, i: nat): Server
    requires i < |s.handlers| && s.handlers[i].session in s.guards
  {
    var h := s.handlers[i];
    s.(handlers := s.handlers[i := h.(phase := Done)],
       guards := s.guards[h.session := s.guards[h.session].(inFlight := false)])
  }

  lemma IsLetThrough(cfg: Config, s: Server, i: nat)
    requires Waits(s, i, Lookup) && Affords(cfg, s, s.handlers[i].session)
    ensures ServerRun(cfg, s, [LookupAnswers(i), Decide(i)]) == LetThrough(s, i)
  {
    RunOfTwo(cfg, s, LookupAnswers(i), Decide(i));
    var s' := ServerStep(cfg, s, LookupAnswers(i));
    assert s'.handlers[i := s'.handlers[i].(phase := Retrieving)]
        == s.handlers[i := s.handlers[i].(phase := Retrieving)];
  }

  lemma RunOfTwo(cfg: Config, s: Server, a: ServerEvent, b: ServerEvent)
    ensures ServerRun(cfg, s, [a, b]) == ServerStep(cfg, ServerStep(cfg, s, a), b)
  {
    var s' := ServerStep(cfg, s, a);
    assert [a, b][1..] == [b] && [b][1..] == [];
    assert ServerRun(cfg, s', [b]) == ServerStep(cfg, s', b);
  }

  /** The provider was called and has stopped, however it stopped. */
  function Called(s: Server, i: nat, inputTokens: nat, maxChars: nat, content: Text): Server
    requires i < |s.handlers|
  {
    s.(handlers := s.handlers[i := s.handlers[i].(phase := Recording, called := true, inputTokens := inputTokens,
                                                  maxChars := maxChars, content := content)])
  }

  function Calling(i: nat, inputTokens: nat, maxChars: nat, tokens: seq<Text>): seq<ServerEvent> {
    [Retrieved(i, inputTokens, maxChars)] + TokensArrive(i, tokens) + [StreamStops(i)]
  }

  lemma IsCalled(cfg: Config, s: Server, i: nat, inputTokens: nat, maxChars: nat, tokens: seq<Text>)
    requires Waits(s, i, Retrieving) && inputTokens <= cfg.maxInputTokens && s.handlers[i].content == []
    requires s.handlers[i].session in s.world.m.sessions
    ensures var content := Streamed([], tokens, SuggestionStream.OutputLimits(cfg.maxOutputTokens, maxChars));
      ServerRun(cfg, s, Calling(i, inputTokens, maxChars, tokens)) == Called(s, i, inputTokens, maxChars, content)
  {
    var e := Retrieved(i, inputTokens, maxChars);
    var s1 := ServerStep(cfg, s, e);
    RunAppends(cfg, s, [e] + TokensArrive(i, tokens), [StreamStops(i)]);
    RunAppends(cfg, s, [e], TokensArrive(i, tokens));
    RunOfOne(cfg, s, e);
    TokensAreStreamed(cfg, s1, i, tokens);
    RunOfOne(cfg, ServerRun(cfg, s1, TokensArrive(i, tokens)), StreamStops(i));
  }

  lemma RunOfOne(cfg: Config, s: Server, e: ServerEvent)
    ensures ServerRun(cfg, s, [e]) == ServerStep(cfg, s, e)
  {
    assert [e][1..] == [];
  }

  /** The ledger has the cost of the call. */
  lemma IsRecorded(cfg: Config, s: Server, i: nat)
    requires Waits(s, i, Recording) && s.handlers[i].session in s.guards
    ensures ServerRun(cfg, s, [WriteSucceeds(i), Persisted(i), Release(i)]) == Recorded(cfg, s, i)
  {
    RunOfThree(cfg, s, WriteSucceeds(i), Persisted(i), Release(i));
  }

  /** The write failed: the session takes no request again. */
  lemma IsNotRecorded(cfg: Config, s: Server, i: nat, applied: bool)
    requires Waits(s, i, Recording) && s.handlers[i].session in s.guards
    ensures var h, s' := s.handlers[i], ServerRun(cfg, s, [WriteFails(i, applied), Release(i)]);
      s' == Over(s, i).(blocked := s.blocked + {h.session}, ledger := s'.ledger)
      && s'.ledger in {s.ledger,
                       s.ledger[(h.session, h.request) := UsageCost(cfg, h.inputTokens, ByteLength(h.content))]}
  {
    RunOfTwo(cfg, s, WriteFails(i, applied), Release(i));
  }

  // The whole request.

  function Completing(i: nat, inputTokens: nat, maxChars: nat, tokens: seq<Text>): seq<ServerEvent> {
    [LookupAnswers(i), Decide(i)] + Calling(i, inputTokens, maxChars, tokens)
    + [WriteSucceeds(i), Persisted(i), Release(i)]
  }

  function Recorded(cfg: Config, s: Server, i: nat): Server
    requires i < |s.handlers| && s.handlers[i].session in s.guards
  {
    var h := s.handlers[i];
    Over(s, i).(ledger := s.ledger[(h.session, h.request) := UsageCost(cfg, h.inputTokens, ByteLength(h.content))])
  }

  lemma StretchesFollow(cfg: Config, s: Server, i: nat, inputTokens: nat, maxChars: nat, tokens: seq<Text>)
    requires Waits(s, i, Lookup) && s.handlers[i].content == [] && s.handlers[i].session in s.world.m.sessions
    requires Affords(cfg, s, s.handlers[i].session) && inputTokens <= cfg.maxInputTokens
    ensures var content := Streamed([], tokens, SuggestionStream.OutputLimits(cfg.maxOutputTokens, maxChars));
      ServerRun(cfg, s, Completing(i, inputTokens, maxChars, tokens))
      == Recorded(cfg, Called(LetThrough(s, i), i, inputTokens, maxChars, content), i)
  {
    var opening, calling := [LookupAnswers(i), Decide(i)], Calling(i, inputTokens, maxChars, tokens);
    RunAppends(cfg, s, opening + calling, [WriteSucceeds(i), Persisted(i), Release(i)]);
    RunAppends(cfg, s, opening, calling);
    IsLetThrough(cfg, s, i);
    IsCalled(cfg, LetThrough(s, i), i, inputTokens, maxChars, tokens);
    var content := Streamed([], tokens, SuggestionStream.OutputLimits(cfg.maxOutputTokens, maxChars));
    IsRecorded(cfg, Called(LetThrough(s, i), i, inputTokens, maxChars, content), i);
  }

  lemma StretchesAddUp(cfg: Config, s: Server, i: nat, inputTokens: nat, maxChars: nat, content: Text)
    requires i < |s.handlers|
    ensures var h := s.handlers[i];
      Recorded(cfg, Called(LetThrough(s, i), i, inputTokens, maxChars, content), i)
      == s.(handlers := s.handlers[i := h.(phase := Done, called := true, inputTokens := inputTokens,
                                           maxChars := maxChars, content := content)],
            acceptances := s.acceptances + [Acceptance(h.session, h.nowMs)],
            guards := s.guards[h.session := Guard(Some(h.nowMs), h.snapshot.acceptedCount + 1, false)],
            ledger := s.ledger[(h.session, h.request) := UsageCost(cfg, inputTokens, ByteLength(content))])
  {
  }

  /** A request that is affordable, sends no more than the input budget, and whose tokens fit the output limits: it is
      accepted and counted, its content is all the provider said, the ledger has its exact cost, the session is free
      again, and nothing else has changed. */
  lemma RequestCompletes(cfg: Config, s: Server, i: nat, inputTokens: nat, maxChars: nat, tokens: seq<Text>)
    requires Waits(s, i, Lookup) && s.handlers[i].content == [] && s.handlers[i].session in s.world.m.sessions
    requires Affords(cfg, s, s.handlers[i].session) && inputTokens <= cfg.maxInputTokens
    requires ByteLength(Concat(tokens)) <= cfg.maxOutputTokens && |Concat(tokens)| <= maxChars
    ensures var h := s.handlers[i];
      ServerRun(cfg, s, Completing(i, inputTokens, maxChars, tokens))
      == s.(handlers := s.handlers[i := h.(phase := Done, called := true, inputTokens := inputTokens,
                                           maxChars := maxChars, content := Concat(tokens))],
            acceptances := s.acceptances + [Acceptance(h.session, h.nowMs)],
            guards := s.guards[h.session := Guard(Some(h.nowMs), h.snapshot.acceptedCount + 1, false)],
            ledger := s.ledger[(h.session, h.request) :=
                                 UsageCost(cfg, inputTokens, ByteLength(Concat(tokens)))])
  {
    StretchesFollow(cfg, s, i, inputTokens, maxChars, tokens);
    assert [] + Concat(tokens) == Concat(tokens);
    FittingTokensAreKept([], tokens, SuggestionStream.OutputLimits(cfg.maxOutputTokens, maxChars));
    StretchesAddUp(cfg, s, i, inputTokens, maxChars, Concat(tokens));
  }

  /** A failed lookup: the session is blocked, nothing is counted or spent, and the reservation is given back. */
  lemma FailedLookupBlocks(cfg: Config, s: Server, i: nat)
    requires Waits(s, i, Lookup) && s.handlers[i].session in s.guards
    ensures ServerRun(cfg, s, [LookupFails(i), Release(i)])
         == Over(s, i).(blocked := s.blocked + {s.handlers[i].session})
  {
    RunOfTwo(cfg, s, LookupFails(i), Release(i));
  }

  /** A request that the ledger leaves no room for: nothing is counted or spent, and the reservation is given back. */
  lemma UnaffordableIsRefused(cfg: Config, s: Server, i: nat)
    requires Waits(s, i, Lookup) && s.handlers[i].session in s.guards && !Affords(cfg, s, s.handlers[i].session)
    ensures ServerRun(cfg, s, [LookupAnswers(i), Decide(i), Release(i)]) == Over(s, i)
  {
    RunOfThree(cfg, s, LookupAnswers(i), Decide(i), Release(i));
  }

  /** Input over its budget: the request counts, the provider is not called, and its usage is recorded. */
  lemma TooMuchInputIsRecorded(cfg: Config, s: Server, i: nat, inputTokens: nat, maxChars: nat)
    requires Waits(s, i, Retrieving) && s.handlers[i].session in s.world.m.sessions
    requires inputTokens > cfg.maxInputTokens
    ensures ServerStep(cfg, s, Retrieved(i, inputTokens, maxChars))
         == s.(handlers := s.handlers[i := s.handlers[i].(phase := Recording, inputTokens := inputTokens,
                                                          maxChars := maxChars)])
  {
  }

  /** If the session is gone by then, nothing is recorded, and the reservation is given back. */
  lemma GoneSessionRecordsNothing(cfg: Config, s: Server, i: nat)
    requires Waits(s, i, Streaming) && s.handlers[i].session in s.guards
    requires s.handlers[i].session !in s.world.m.sessions
    ensures ServerRun(cfg, s, [StreamStops(i), Release(i)]) == Over(s, i)
  {
    RunOfTwo(cfg, s, StreamStops(i), Release(i));
  }
}
