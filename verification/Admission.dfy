/** Admission of live suggestions (services/realtime/src/ws-server.ts:495-526, 886-1058, 1121-1131) as
    a state machine. A handler runs from one `await` to the next in one atomic step, and the steps of
    any number of handlers, sessions and connections interleave freely. The handlers that have run
    stay listed, so that what they spent can be summed. */
module Admission {
  import opened Ids
  import opened Wrappers
  import opened Utf16
  import opened Sessions
  import SuggestionStream

  /** Micro-dollars per million tokens. */
  datatype Pricing = Pricing(input: nat, output: nat)

  datatype Config = Config(minIntervalMs: nat, maxRequests: nat, maxInputTokens: nat, maxOutputTokens: nat,
                           costLimit: nat, pricing: Option<Pricing>)

  /** `Math.ceil(numerator / 1_000_000)`. */
  function CeilMillionth(numerator: nat): nat {
    (numerator + 999_999) / 1_000_000
  }

  /** `estimateUsageCostMicrousd`, with zero for an unpriced usage. */
  function UsageCost(cfg: Config, inputTokens: nat, outputTokens: nat): nat {
    match cfg.pricing
    case None => 0
    case Some(p) => CeilMillionth(inputTokens * p.input + outputTokens * p.output)
  }

  /** A priced usage costs the least whole number of micro-dollars that covers input and output tokens, each at its own
      price. */
  lemma UsageCostIsRoundedUp(cfg: Config, inputTokens: nat, outputTokens: nat)
    requires cfg.pricing.Some?
    ensures var exact := inputTokens * cfg.pricing.value.input + outputTokens * cfg.pricing.value.output;
      1_000_000 * (UsageCost(cfg, inputTokens, outputTokens) - 1) < exact
      <= 1_000_000 * UsageCost(cfg, inputTokens, outputTokens)
  {
  }

  /** The worst-case cost of one request, computed at start-up
      (services/realtime/src/configured-server.ts:40-46). */
  function MaxRequestCost(cfg: Config): nat {
    UsageCost(cfg, cfg.maxInputTokens, cfg.maxOutputTokens)
  }

  lemma UsageCostIsMonotone(cfg: Config, inputTokens: nat, outputTokens: nat)
    requires inputTokens <= cfg.maxInputTokens && outputTokens <= cfg.maxOutputTokens
    ensures UsageCost(cfg, inputTokens, outputTokens) <= MaxRequestCost(cfg)
  {
    if cfg.pricing.Some? {
      var p := cfg.pricing.value;
      MulMonotone(inputTokens, cfg.maxInputTokens, p.input);
      MulMonotone(outputTokens, cfg.maxOutputTokens, p.output);
    }
  }

  lemma MulMonotone(a: nat, b: nat, c: nat)
    requires a <= b
    ensures 0 <= a * c <= b * c
  {
    assert (b - a) * c >= 0;
  }

  datatype Guard = Guard(lastAcceptedAt: Option<int>, acceptedCount: nat, inFlight: bool)

  const NEW_GUARD := Guard(None, 0, false)

  /** What a handler waits for. */
  datatype Phase =
    | Lookup               // the session's cost so far
    | Answered(total: nat) // its own turn, with that cost
    | Retrieving           // the source chunks
    | Streaming            // the provider
    | Recording            // the ledger write
    | Recorded             // the suggestion sink
    | Releasing            // its own turn, to give the reservation back
    | Done

  datatype Handler = Handler(session: SessionId, request: RequestId, nowMs: int, snapshot: Guard, phase: Phase,
                             called: bool, inputTokens: nat, maxChars: nat, content: Text)

  datatype Acceptance = Acceptance(session: SessionId, at: int)

  datatype Server = Server(world: World, guards: map<SessionId, Guard>, blocked: set<SessionId>,
                           ledger: map<(SessionId, RequestId), nat>, handlers: seq<Handler>,
                           acceptances: seq<Acceptance>)

  const NEW_SERVER := Server(NEW_WORLD, map[], {}, map[], [], [])

  datatype ServerEvent =
    | SessionEvent(e: Sessions.Event)
    | Close(connectionId: ConnectionId)
    | Request(connectionId: ConnectionId, seqNo: nat, request: RequestId, nowMs: int, policyAllows: bool)
    | LookupAnswers(i: nat)
    | LookupFails(i: nat)
    | Decide(i: nat)
    | Retrieved(i: nat, inputTokens: nat, maxChars: nat)
    | TokenArrives(i: nat, token: Text)
    | StreamStops(i: nat)
    | WriteSucceeds(i: nat)
    | WriteFails(i: nat, applied: bool)
    | Persisted(i: nat)
    | Release(i: nat)

  function GuardOf(s: Server, x: SessionId): Guard {
    if x in s.guards then s.guards[x] else NEW_GUARD
  }

  predicate Admits(cfg: Config, s: Server, x: SessionId, nowMs: int) {
    var g := GuardOf(s, x);
    && x !in s.blocked
    && !g.inFlight
    && g.acceptedCount < cfg.maxRequests
    && (g.lastAcceptedAt.Some? ==> nowMs - g.lastAcceptedAt.value >= cfg.minIntervalMs)
  }

  function NewHandler(s: Server, x: SessionId, request: RequestId, nowMs: int): Handler {
    Handler(x, request, nowMs, GuardOf(s, x), Lookup, false, 0, 0, [])
  }

  /** Everything up to the reservation runs before the first `await`. */
  function OnRequest(cfg: Config, s: Server, c: ConnectionId, seqNo: nat, request: RequestId, nowMs: int,
                     policyAllows: bool): Server {
    if c !in s.world.m.connections || !Advances(s.world.m, s.world.m.connections[c], seqNo) then s
    else
      var x := s.world.m.connections[c];
      var s' := s.(world := Sessions.Step(s.world, AdvanceEvent(x, seqNo)));
      if !policyAllows || !Admits(cfg, s, x, nowMs) then s'
      else s'.(guards := s.guards[x := GuardOf(s, x).(inFlight := true)],
               handlers := s.handlers + [NewHandler(s, x, request, nowMs)])
  }

  /** Why a request is turned away; a wait in milliseconds comes with the last. */
  datatype Reason = ForbiddenByPolicy | AccountingBlocked | InProgress | LimitReached | TooFrequent(waitMs: int)

  /** What the client is told before the handler's first `await`. */
  datatype Reply = NotTaken | Refused(reason: Reason) | Begun

  function ReplyTo(cfg: Config, s: Server, c: ConnectionId, seqNo: nat, nowMs: int, policyAllows: bool): Reply {
    if c !in s.world.m.connections || !Advances(s.world.m, s.world.m.connections[c], seqNo) then NotTaken
    else
      var x := s.world.m.connections[c];
      var g := GuardOf(s, x);
      if !policyAllows then Refused(ForbiddenByPolicy)
      else if x in s.blocked then Refused(AccountingBlocked)
      else if g.inFlight then Refused(InProgress)
      else if g.acceptedCount >= cfg.maxRequests then Refused(LimitReached)
      else if g.lastAcceptedAt.Some? && nowMs - g.lastAcceptedAt.value < cfg.minIntervalMs
      then Refused(TooFrequent(cfg.minIntervalMs - (nowMs - g.lastAcceptedAt.value)))
      else Begun
  }

  /** The clean-up of the close event, then the removal of the connection. */
  function OnClose(s: Server, c: ConnectionId): Server {
    var m := s.world.m;
    var s' := if c in m.connections && m.connections[c] in m.sessions && m.sessions[m.connections[c]].phase == Ended
              then s.(guards := s.guards - {m.connections[c]}, blocked := s.blocked - {m.connections[c]})
              else s;
    s'.(world := Sessions.Step(s.world, RemoveEvent(c)))
  }

  predicate Waits(s: Server, i: nat, phase: Phase) {
    i < |s.handlers| && s.handlers[i].phase == phase
  }

  function Put(s: Server, i: nat, h: Handler): Server
    requires i < |s.handlers|
  {
    s.(handlers := s.handlers[i := h])
  }

  function Key(h: Handler): (SessionId, RequestId) {
    (h.session, h.request)
  }

  function HandlerCost(cfg: Config, h: Handler): nat {
    UsageCost(cfg, h.inputTokens, ByteLength(h.content))
  }

  /** A usage is recorded only while the session is known. */
  function AfterUsage(s: Server, h: Handler): Phase {
    if h.session in s.world.m.sessions then Recording else Releasing
  }

  predicate OverBudget(cfg: Config, total: nat) {
    cfg.pricing.Some? && total + MaxRequestCost(cfg) > cfg.costLimit
  }

  ghost function OnLookupAnswers(s: Server, i: nat): Server {
    if Waits(s, i, Lookup)
    then Put(s, i, s.handlers[i].(phase := Answered(Total(s.ledger, s.handlers[i].session))))
    else s
  }

  function OnLookupFails(s: Server, i: nat): Server {
    if Waits(s, i, Lookup)
    then Put(s, i, s.handlers[i].(phase := Releasing)).(blocked := s.blocked + {s.handlers[i].session})
    else s
  }

  function OnDecide(cfg: Config, s: Server, i: nat): Server {
    if i < |s.handlers| && s.handlers[i].phase.Answered?
    then
      var h := s.handlers[i];
      if OverBudget(cfg, h.phase.total) then Put(s, i, h.(phase := Releasing))
      else Put(s, i, h.(phase := Retrieving))
           .(guards := s.guards[h.session := Guard(Some(h.nowMs), h.snapshot.acceptedCount + 1, true)],
             acceptances := s.acceptances + [Acceptance(h.session, h.nowMs)])
    else s
  }

  function OnRetrieved(cfg: Config, s: Server, i: nat, inputTokens: nat, maxChars: nat): Server {
    if Waits(s, i, Retrieving)
    then
      var h := s.handlers[i].(inputTokens := inputTokens, maxChars := maxChars);
      if inputTokens > cfg.maxInputTokens then Put(s, i, h.(phase := AfterUsage(s, h)))
      else Put(s, i, h.(phase := Streaming, called := true))
    else s
  }

  function OnToken(cfg: Config, s: Server, i: nat, token: Text): Server {
    if Waits(s, i, Streaming)
    then
      var h := s.handlers[i];
      var limits := SuggestionStream.OutputLimits(cfg.maxOutputTokens, h.maxChars);
      Put(s, i, h.(content := SuggestionStream.Accept(h.content, token, limits)))
    else s
  }

  function OnStreamStops(s: Server, i: nat): Server {
    if Waits(s, i, Streaming)
    then Put(s, i, s.handlers[i].(phase := AfterUsage(s, s.handlers[i])))
    else s
  }

  function OnWriteSucceeds(cfg: Config, s: Server, i: nat): Server {
    if Waits(s, i, Recording)
    then Put(s, i, s.handlers[i].(phase := Recorded))
         .(ledger := s.ledger[Key(s.handlers[i]) := HandlerCost(cfg, s.handlers[i])])
    else s
  }

  /** A failed write may still have reached the store. */
  function OnWriteFails(cfg: Config, s: Server, i: nat, applied: bool): Server {
    if Waits(s, i, Recording)
    then Put(s, i, s.handlers[i].(phase := Releasing))
         .(ledger := if applied then s.ledger[Key(s.handlers[i]) := HandlerCost(cfg, s.handlers[i])] else s.ledger,
           blocked := s.blocked + {s.handlers[i].session})
    else s
  }

  function OnPersisted(s: Server, i: nat): Server {
    if Waits(s, i, Recorded) then Put(s, i, s.handlers[i].(phase := Releasing)) else s
  }

  function OnRelease(s: Server, i: nat): Server {
    if Waits(s, i, Releasing)
    then
      var x := s.handlers[i].session;
      Put(s, i, s.handlers[i].(phase := Done))
      .(guards := if x in s.guards then s.guards[x := s.guards[x].(inFlight := false)] else s.guards)
    else s
  }

  ghost function ServerStep(cfg: Config, s: Server, e: ServerEvent): Server {
    match e
    case SessionEvent(e') => s.(world := Sessions.Step(s.world, e'))
    case Close(c) => OnClose(s, c)
    case Request(c, q, request, nowMs, policyAllows) => OnRequest(cfg, s, c, q, request, nowMs, policyAllows)
    case LookupAnswers(i) => OnLookupAnswers(s, i)
    case LookupFails(i) => OnLookupFails(s, i)
    case Decide(i) => OnDecide(cfg, s, i)
    case Retrieved(i, inputTokens, maxChars) => OnRetrieved(cfg, s, i, inputTokens, maxChars)
    case TokenArrives(i, token) => OnToken(cfg, s, i, token)
    case StreamStops(i) => OnStreamStops(s, i)
    case WriteSucceeds(i) => OnWriteSucceeds(cfg, s, i)
    case WriteFails(i, applied) => OnWriteFails(cfg, s, i, applied)
    case Persisted(i) => OnPersisted(s, i)
    case Release(i) => OnRelease(s, i)
  }

  ghost function ServerRun(cfg: Config, s: Server, events: seq<ServerEvent>): Server
    decreases |events|
  {
    if events == [] then s else ServerRun(cfg, ServerStep(cfg, s, events[0]), events[1..])
  }

  /** Session ids are fresh; connection ids need not be. */
  predicate ProperEvent(s: Server, e: ServerEvent) {
    e.SessionEvent? ==> Sessions.FreshSession(s.world, e.e)
  }

  ghost predicate ProperServerRun(cfg: Config, s: Server, events: seq<ServerEvent>)
    decreases |events|
  {
    events == [] || (ProperEvent(s, events[0]) && ProperServerRun(cfg, ServerStep(cfg, s, events[0]), events[1..]))
  }

  /** Sum of the ledger's records of one session: `getSessionEstimatedCostMicrousd`. */
  ghost function Total(ledger: map<(SessionId, RequestId), nat>, x: SessionId): nat
    decreases |ledger|
  {
    if ledger == map[] then 0
    else
      var k :| k in ledger;
      Weight(ledger, k, x) + Total(ledger - {k}, x)
  }

  function Weight(ledger: map<(SessionId, RequestId), nat>, k: (SessionId, RequestId), x: SessionId): nat {
    if k in ledger && k.0 == x then ledger[k] else 0
  }

  lemma {:induction false} TotalRemoves(ledger: map<(SessionId, RequestId), nat>, k: (SessionId, RequestId),
                                        x: SessionId)
    requires k in ledger
    ensures Total(ledger, x) == Weight(ledger, k, x) + Total(ledger - {k}, x)
    decreases |ledger|
  {
    var j :| j in ledger && Total(ledger, x) == Weight(ledger, j, x) + Total(ledger - {j}, x);
    if j != k {
      var both := ledger - {j} - {k};
      TotalRemoves(ledger - {j}, k, x);
      TotalRemoves(ledger - {k}, j, x);
      assert ledger - {k} - {j} == both;
      assert Total(ledger - {j}, x) == Weight(ledger, k, x) + Total(both, x);
      assert Total(ledger - {k}, x) == Weight(ledger, j, x) + Total(both, x);
    }
  }

  /** A write adds its cost and takes away what the same request had recorded before. */
  lemma WriteMovesTotal(ledger: map<(SessionId, RequestId), nat>, k: (SessionId, RequestId), cost: nat, x: SessionId)
    ensures Total(ledger[k := cost], x) + Weight(ledger, k, x) == Total(ledger, x) + (if k.0 == x then cost else 0)
  {
    var ledger' := ledger[k := cost];
    TotalRemoves(ledger', k, x);
    assert ledger' - {k} == ledger - {k};
    if k in ledger {
      TotalRemoves(ledger, k, x);
    } else {
      assert ledger - {k} == ledger;
    }
  }
}
