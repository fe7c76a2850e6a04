/** What live suggestions cost. In every interleaving, the summed cost of all provider calls made for
    a session, with the calls still streaming and those whose ledger write failed, stays within the
    session's limit, provided request ids are not reused. */
module Spending {
  import opened Ids
  import opened Wrappers
  import opened Utf16
  import opened Sessions
  import opened Admission
  import opened Reservation
  import SuggestionStream

  /** Cost of the provider call a handler has made, so far. */
  function Contribution(cfg: Config, h: Handler): nat {
    if h.called then HandlerCost(cfg, h) else 0
  }

  /** Cost of all provider calls made for `x`. */
  function Spent(cfg: Config, handlers: seq<Handler>, x: SessionId): nat {
    if handlers == [] then 0
    else
      var last := handlers[|handlers| - 1];
      Spent(cfg, handlers[..|handlers| - 1], x) + (if last.session == x then Contribution(cfg, last) else 0)
  }

  lemma {:induction false} SpentMoves(cfg: Config, handlers: seq<Handler>, i: nat, h: Handler, x: SessionId)
    requires i < |handlers| && h.session == handlers[i].session
    ensures var change := if h.session == x then Contribution(cfg, h) - Contribution(cfg, handlers[i]) else 0;
            Spent(cfg, handlers[i := h], x) == Spent(cfg, handlers, x) + change
  {
    var n := |handlers| - 1;
    if i == n {
      assert handlers[i := h][..n] == handlers[..n];
    } else {
      SpentMoves(cfg, handlers[..n], i, h, x);
      assert handlers[i := h][..n] == handlers[..n][i := h];
    }
  }

  lemma {:induction false} NothingSpentWithoutHandlers(cfg: Config, handlers: seq<Handler>, x: SessionId)
    requires forall i :: 0 <= i < |handlers| ==> handlers[i].session != x
    ensures Spent(cfg, handlers, x) == 0
  {
    if handlers != [] {
      NothingSpentWithoutHandlers(cfg, handlers[..|handlers| - 1], x);
    }
  }

  predicate UsedRequest(handlers: seq<Handler>, x: SessionId, r: RequestId) {
    exists i :: 0 <= i < |handlers| && handlers[i].session == x && handlers[i].request == r
  }

  /** A request id is used once in a session. Clients draw ids at random; the server does not check. */
  predicate FreshRequest(s: Server, e: ServerEvent) {
    e.Request? && e.connectionId in s.world.m.connections ==>
      !UsedRequest(s.handlers, s.world.m.connections[e.connectionId], e.request)
  }

  ghost predicate FreshRun(cfg: Config, s: Server, events: seq<ServerEvent>)
    decreases |events|
  {
    events == [] || (FreshRequest(s, events[0]) && FreshRun(cfg, ServerStep(cfg, s, events[0]), events[1..]))
  }

  predicate WithinCallLimits(cfg: Config, h: Handler) {
    h.called ==> h.inputTokens <= cfg.maxInputTokens && ByteLength(h.content) <= cfg.maxOutputTokens
  }

  /** What has been spent is on the ledger, but for this handler's own call. */
  ghost predicate Covered(cfg: Config, s: Server, h: Handler) {
    Spent(cfg, s.handlers, h.session) <= Total(s.ledger, h.session) + Contribution(cfg, h)
  }

  /** There is room for the worst case in place of this handler's call. */
  ghost predicate HasRoom(cfg: Config, s: Server, h: Handler) {
    Spent(cfg, s.handlers, h.session) + MaxRequestCost(cfg) <= cfg.costLimit + Contribution(cfg, h)
  }

  /** The session can take no request again. */
  predicate Shut(s: Server, x: SessionId) {
    x in s.blocked || x !in s.world.m.sessions
  }

  predicate NotCalledYet(h: Handler) {
    !h.called && h.content == []
  }

  ghost predicate HandlerInvariant(cfg: Config, s: Server, h: Handler) {
    && WithinCallLimits(cfg, h)
    && (match h.phase
        case Lookup => NotCalledYet(h) && Key(h) !in s.ledger && Covered(cfg, s, h)
        case Answered(total) =>
          NotCalledYet(h) && Key(h) !in s.ledger && Covered(cfg, s, h) && total == Total(s.ledger, h.session)
        case Retrieving => NotCalledYet(h) && Key(h) !in s.ledger && Covered(cfg, s, h) && HasRoom(cfg, s, h)
        case Streaming => h.called && Key(h) !in s.ledger && Covered(cfg, s, h) && HasRoom(cfg, s, h)
        case Recording => Key(h) !in s.ledger && Covered(cfg, s, h) && HasRoom(cfg, s, h)
        case Recorded => Spent(cfg, s.handlers, h.session) <= Total(s.ledger, h.session)
        case Releasing => Shut(s, h.session) || Spent(cfg, s.handlers, h.session) <= Total(s.ledger, h.session)
        case Done => true)
  }

  predicate Idle(s: Server, x: SessionId) {
    !Shut(s, x) && !GuardOf(s, x).inFlight
  }

  ghost predicate Affordable(cfg: Config, s: Server, x: SessionId) {
    && (Idle(s, x) ==> Spent(cfg, s.handlers, x) <= Total(s.ledger, x))
    && Spent(cfg, s.handlers, x) <= cfg.costLimit
  }

  ghost predicate Accounted(cfg: Config, s: Server, x: SessionId) {
    && (forall i, j :: 0 <= i < j < |s.handlers| && s.handlers[i].session == s.handlers[j].session == x ==>
          s.handlers[i].request != s.handlers[j].request)
    && (forall r: RequestId :: (x, r) in s.ledger ==> UsedRequest(s.handlers, x, r))
    && (forall i :: 0 <= i < |s.handlers| && s.handlers[i].session == x ==> HandlerInvariant(cfg, s, s.handlers[i]))
    && Affordable(cfg, s, x)
  }

  /** The steps of one handler touch only their own session's records. */
  predicate TouchesOnly(s: Server, s': Server, i: nat) {
    && i < |s.handlers| == |s'.handlers| && s'.handlers == s.handlers[i := s'.handlers[i]]
    && s'.world == s.world
    && Key(s'.handlers[i]) == Key(s.handlers[i])
    && (s'.ledger == s.ledger
        || (Key(s.handlers[i]) in s'.ledger
            && s'.ledger == s.ledger[Key(s.handlers[i]) := s'.ledger[Key(s.handlers[i])]]))
    && s.blocked <= s'.blocked <= s.blocked + {s.handlers[i].session}
  }

  /** A step of a running handler of another session changes nothing for `x`. */
  lemma OtherSessionKeepsAccounted(cfg: Config, s: Server, s': Server, i: nat, x: SessionId)
    requires Accounted(cfg, s, x) && TouchesOnly(s, s', i) && s.handlers[i].session != x
    requires GuardOf(s', x) == GuardOf(s, x)
    ensures Accounted(cfg, s', x)
  {
    SpentMoves(cfg, s.handlers, i, s'.handlers[i], x);
    if s'.ledger != s.ledger {
      WriteMovesTotal(s.ledger, Key(s.handlers[i]), s'.ledger[Key(s.handlers[i])], x);
    }
    forall j | 0 <= j < |s'.handlers| && s'.handlers[j].session == x
      ensures HandlerInvariant(cfg, s', s'.handlers[j])
    {
      assert HandlerInvariant(cfg, s, s.handlers[j]);
    }
    UsedRequestsStay(s, s', i, x);
  }

  lemma UsedRequestsStay(s: Server, s': Server, i: nat, x: SessionId)
    requires TouchesOnly(s, s', i)
    ensures forall r :: UsedRequest(s'.handlers, x, r) <==> UsedRequest(s.handlers, x, r)
  {
    forall r
      ensures UsedRequest(s'.handlers, x, r) <==> UsedRequest(s.handlers, x, r)
    {
      if UsedRequest(s.handlers, x, r) {
        var j :| 0 <= j < |s.handlers| && s.handlers[j].session == x && s.handlers[j].request == r;
        assert s'.handlers[j].session == x && s'.handlers[j].request == r;
      }
    }
  }

  /** A step of the running handler of `x`: it is enough to look at that handler. */
  lemma OwnSessionKeepsAccounted(cfg: Config, s: Server, s': Server, i: nat, x: SessionId)
    requires Accounted(cfg, s, x) && Exclusive(s, x) && Running(s, x, i) && TouchesOnly(s, s', i)
    requires HandlerInvariant(cfg, s', s'.handlers[i]) && Affordable(cfg, s', x)
    ensures Accounted(cfg, s', x)
  {
    forall j | 0 <= j < |s'.handlers| && s'.handlers[j].session == x
      ensures HandlerInvariant(cfg, s', s'.handlers[j])
    {
      if j != i {
        assert HandlerInvariant(cfg, s, s.handlers[j]) && s.handlers[j].phase.Done?;
      }
    }
    UsedRequestsStay(s, s', i, x);
    var h := s.handlers[i];
    assert UsedRequest(s.handlers, x, h.request);
    forall r: RequestId | (x, r) in s'.ledger
      ensures UsedRequest(s'.handlers, x, r)
    {
      assert (x, r) in s.ledger || r == h.request;
    }
  }

  /** Bundles the two cases. */
  lemma MoveKeepsAccounted(cfg: Config, s: Server, s': Server, i: nat, x: SessionId)
    requires Accounted(cfg, s, x) && Exclusive(s, x) && TouchesOnly(s, s', i) && !s.handlers[i].phase.Done?
    requires s.handlers[i].session != x ==> GuardOf(s', x) == GuardOf(s, x)
    requires s.handlers[i].session == x ==> HandlerInvariant(cfg, s', s'.handlers[i]) && Affordable(cfg, s', x)
    ensures Accounted(cfg, s', x)
  {
    if s.handlers[i].session == x {
      OwnSessionKeepsAccounted(cfg, s, s', i, x);
    } else {
      OtherSessionKeepsAccounted(cfg, s, s', i, x);
    }
  }

  ghost predicate Ready(cfg: Config, s: Server, x: SessionId) {
    Sound(s) && Reserved(cfg, s, x) && Accounted(cfg, s, x)
  }

  /** While a handler of `x` runs, its reservation is held. */
  lemma RunningIsNotIdle(s: Server, x: SessionId, i: nat)
    requires Exclusive(s, x) && Running(s, x, i)
    ensures !Idle(s, x)
  {
  }

  lemma LookupStepsKeepAccounted(cfg: Config, s: Server, i: nat, x: SessionId)
    requires Ready(cfg, s, x)
    ensures Accounted(cfg, OnLookupAnswers(s, i), x)
    ensures Accounted(cfg, OnLookupFails(s, i), x)
  {
    if Waits(s, i, Lookup) {
      var h := s.handlers[i];
      var answered, failed := OnLookupAnswers(s, i), OnLookupFails(s, i);
      SpentMoves(cfg, s.handlers, i, answered.handlers[i], x);
      SpentMoves(cfg, s.handlers, i, failed.handlers[i], x);
      if h.session == x {
        RunningIsNotIdle(s, x, i);
        assert HandlerInvariant(cfg, s, h);
      }
      MoveKeepsAccounted(cfg, s, answered, i, x);
      MoveKeepsAccounted(cfg, s, failed, i, x);
    }
  }

  lemma DecideKeepsAccounted(cfg: Config, s: Server, i: nat, x: SessionId)
    requires Ready(cfg, s, x) && cfg.pricing.Some?
    ensures Accounted(cfg, OnDecide(cfg, s, i), x)
  {
    if i < |s.handlers| && s.handlers[i].phase.Answered? {
      var s' := OnDecide(cfg, s, i);
      SpentMoves(cfg, s.handlers, i, s'.handlers[i], x);
      if s.handlers[i].session == x {
        RunningIsNotIdle(s, x, i);
        assert HandlerInvariant(cfg, s, s.handlers[i]);
      }
      MoveKeepsAccounted(cfg, s, s', i, x);
    }
  }

  lemma RetrievedKeepsAccounted(cfg: Config, s: Server, i: nat, inputTokens: nat, maxChars: nat, x: SessionId)
    requires Ready(cfg, s, x)
    ensures Accounted(cfg, OnRetrieved(cfg, s, i, inputTokens, maxChars), x)
  {
    if Waits(s, i, Retrieving) {
      var s' := OnRetrieved(cfg, s, i, inputTokens, maxChars);
      var h := s'.handlers[i];
      SpentMoves(cfg, s.handlers, i, h, x);
      if h.session == x {
        RunningIsNotIdle(s, x, i);
        assert HandlerInvariant(cfg, s, s.handlers[i]);
        if h.called {
          UsageCostIsMonotone(cfg, inputTokens, ByteLength(h.content));
        }
      }
      MoveKeepsAccounted(cfg, s, s', i, x);
    }
  }

  lemma TokenKeepsAccounted(cfg: Config, s: Server, i: nat, token: Text, x: SessionId)
    requires Ready(cfg, s, x)
    ensures Accounted(cfg, OnToken(cfg, s, i, token), x)
  {
    if Waits(s, i, Streaming) {
      var s' := OnToken(cfg, s, i, token);
      var h := s'.handlers[i];
      SpentMoves(cfg, s.handlers, i, h, x);
      if h.session == x {
        RunningIsNotIdle(s, x, i);
        assert HandlerInvariant(cfg, s, s.handlers[i]);
        SuggestionStream.AcceptStaysWithinLimits(s.handlers[i].content, token,
                                                 SuggestionStream.OutputLimits(cfg.maxOutputTokens, h.maxChars));
        UsageCostIsMonotone(cfg, h.inputTokens, ByteLength(h.content));
      }
      MoveKeepsAccounted(cfg, s, s', i, x);
    }
  }

  lemma StreamStopKeepsAccounted(cfg: Config, s: Server, i: nat, x: SessionId)
    requires Ready(cfg, s, x)
    ensures Accounted(cfg, OnStreamStops(s, i), x)
  {
    if Waits(s, i, Streaming) {
      var s' := OnStreamStops(s, i);
      SpentMoves(cfg, s.handlers, i, s'.handlers[i], x);
      if s.handlers[i].session == x {
        RunningIsNotIdle(s, x, i);
        assert HandlerInvariant(cfg, s, s.handlers[i]);
      }
      MoveKeepsAccounted(cfg, s, s', i, x);
    }
  }

  lemma WriteSuccessKeepsAccounted(cfg: Config, s: Server, i: nat, x: SessionId)
    requires Ready(cfg, s, x)
    ensures Accounted(cfg, OnWriteSucceeds(cfg, s, i), x)
  {
    if Waits(s, i, Recording) {
      var h := s.handlers[i];
      var s' := OnWriteSucceeds(cfg, s, i);
      SpentMoves(cfg, s.handlers, i, s'.handlers[i], x);
      WriteMovesTotal(s.ledger, Key(h), HandlerCost(cfg, h), x);
      if h.session == x {
        RunningIsNotIdle(s, x, i);
        assert HandlerInvariant(cfg, s, h);
      }
      MoveKeepsAccounted(cfg, s, s', i, x);
    }
  }

  lemma WriteFailureKeepsAccounted(cfg: Config, s: Server, i: nat, applied: bool, x: SessionId)
    requires Ready(cfg, s, x)
    ensures Accounted(cfg, OnWriteFails(cfg, s, i, applied), x)
  {
    if Waits(s, i, Recording) {
      var h := s.handlers[i];
      var s' := OnWriteFails(cfg, s, i, applied);
      SpentMoves(cfg, s.handlers, i, s'.handlers[i], x);
      if h.session == x {
        RunningIsNotIdle(s, x, i);
        assert HandlerInvariant(cfg, s, h);
      }
      MoveKeepsAccounted(cfg, s, s', i, x);
    }
  }

  lemma EndStepsKeepAccounted(cfg: Config, s: Server, i: nat, x: SessionId)
    requires Ready(cfg, s, x)
    ensures Accounted(cfg, OnPersisted(s, i), x)
    ensures Accounted(cfg, OnRelease(s, i), x)
  {
    if Waits(s, i, Recorded) || Waits(s, i, Releasing) {
      var h := s.handlers[i];
      var s' := if Waits(s, i, Recorded) then OnPersisted(s, i) else OnRelease(s, i);
      SpentMoves(cfg, s.handlers, i, s'.handlers[i], x);
      if h.session == x {
        RunningIsNotIdle(s, x, i);
        assert HandlerInvariant(cfg, s, h);
      }
      MoveKeepsAccounted(cfg, s, s', i, x);
    }
  }

  /** The world moves; a session can only become known with an id never used, so with nothing spent. */
  lemma WorldStepKeepsAccounted(cfg: Config, s: Server, w: World, x: SessionId)
    requires Sound(s) && Accounted(cfg, s, x)
    requires x in w.m.sessions && x !in s.world.m.sessions ==> x !in s.world.sessionIds
    ensures Accounted(cfg, s.(world := w), x)
  {
    var s' := s.(world := w);
    if x !in s.world.sessionIds {
      NothingSpentWithoutHandlers(cfg, s.handlers, x);
    } else {
      assert Idle(s', x) ==> Idle(s, x);
      forall i | 0 <= i < |s.handlers| && s.handlers[i].session == x
        ensures HandlerInvariant(cfg, s', s.handlers[i])
      {
        assert HandlerInvariant(cfg, s, s.handlers[i]);
      }
    }
  }

  lemma RequestKeepsAccounted(cfg: Config, s: Server, e: ServerEvent, x: SessionId)
    requires e.Request? && FreshRequest(s, e)
    requires Ready(cfg, s, x)
    ensures Accounted(cfg, ServerStep(cfg, s, e), x)
  {
    var c := e.connectionId;
    if c in s.world.m.connections && Advances(s.world.m, s.world.m.connections[c], e.seqNo) {
      var own := s.world.m.connections[c];
      var w := Sessions.Step(s.world, AdvanceEvent(own, e.seqNo));
      WorldStepKeepsAccounted(cfg, s, w, x);
      if e.policyAllows && Admits(cfg, s, own, e.nowMs) {
        SameHandlersKeepReserved(cfg, s, s.(world := w), x);
        AdmittedKeepsAccounted(cfg, s.(world := w), own, e.request, e.nowMs, x);
      }
    }
  }

  lemma AdmittedKeepsAccounted(cfg: Config, s: Server, own: SessionId, r: RequestId, nowMs: int, x: SessionId)
    requires Accounted(cfg, s, x) && Exclusive(s, x)
    requires own in s.world.m.sessions && Admits(cfg, s, own, nowMs) && !UsedRequest(s.handlers, own, r)
    ensures Accounted(cfg, s.(guards := s.guards[own := GuardOf(s, own).(inFlight := true)],
                              handlers := s.handlers + [NewHandler(s, own, r, nowMs)]), x)
  {
    var s' := s.(guards := s.guards[own := GuardOf(s, own).(inFlight := true)],
                 handlers := s.handlers + [NewHandler(s, own, r, nowMs)]);
    var n := |s.handlers|;
    assert s'.handlers[..n] == s.handlers;
    assert Spent(cfg, s'.handlers, x) == Spent(cfg, s.handlers, x);
    forall i | 0 <= i < |s'.handlers| && s'.handlers[i].session == x
      ensures HandlerInvariant(cfg, s', s'.handlers[i])
    {
      if i < n {
        assert HandlerInvariant(cfg, s, s.handlers[i]);
      } else {
        assert (own, r) !in s.ledger;
      }
    }
    AdmittedRequestIsDistinct(s.handlers, s'.handlers[n], x);
    forall q: RequestId | (x, q) in s'.ledger
      ensures UsedRequest(s'.handlers, x, q)
    {
      UsedRequestStays(s.handlers, s'.handlers[n], x, q);
    }
  }

  lemma AdmittedRequestIsDistinct(handlers: seq<Handler>, h: Handler, x: SessionId)
    requires forall i, j :: 0 <= i < j < |handlers| && handlers[i].session == handlers[j].session == x ==>
      handlers[i].request != handlers[j].request
    requires !UsedRequest(handlers, h.session, h.request)
    ensures var more := handlers + [h];
      forall i, j :: 0 <= i < j < |more| && more[i].session == more[j].session == x ==>
          more[i].request != more[j].request
  {
  }

  lemma UsedRequestStays(handlers: seq<Handler>, h: Handler, x: SessionId, q: RequestId)
    ensures UsedRequest(handlers, x, q) ==> UsedRequest(handlers + [h], x, q)
  {
    if UsedRequest(handlers, x, q) {
      var i :| 0 <= i < |handlers| && handlers[i].session == x && handlers[i].request == q;
      assert (handlers + [h])[i] == handlers[i];
    }
  }

  /** The steps of the world and the start of a handler. */
  predicate BeforeReservation(e: ServerEvent) {
    e.SessionEvent? || e.Close? || e.Request?
  }

  /** The steps up to the provider's stream. */
  predicate BeforeStream(e: ServerEvent) {
    e.LookupAnswers? || e.LookupFails? || e.Decide? || e.Retrieved?
  }

  lemma FirstStepsKeepAccounted(cfg: Config, s: Server, e: ServerEvent, x: SessionId)
    requires BeforeReservation(e) && ProperEvent(s, e) && FreshRequest(s, e)
    requires Ready(cfg, s, x)
    ensures Accounted(cfg, ServerStep(cfg, s, e), x)
  {
    match e
    case SessionEvent(e') => WorldStepKeepsAccounted(cfg, s, Sessions.Step(s.world, e'), x);
    case Close(c) =>
      CleanUpIsUnreachable(s, c);
      WorldStepKeepsAccounted(cfg, s, Sessions.Step(s.world, RemoveEvent(c)), x);
    case Request(_, _, _, _, _) => RequestKeepsAccounted(cfg, s, e, x);
  }

  lemma MiddleStepsKeepAccounted(cfg: Config, s: Server, e: ServerEvent, x: SessionId)
    requires BeforeStream(e) && cfg.pricing.Some?
    requires Ready(cfg, s, x)
    ensures Accounted(cfg, ServerStep(cfg, s, e), x)
  {
    match e
    case LookupAnswers(i) => LookupStepsKeepAccounted(cfg, s, i, x);
    case LookupFails(i) => LookupStepsKeepAccounted(cfg, s, i, x);
    case Decide(i) => DecideKeepsAccounted(cfg, s, i, x);
    case Retrieved(i, inputTokens, maxChars) => RetrievedKeepsAccounted(cfg, s, i, inputTokens, maxChars, x);
  }

  lemma LastStepsKeepAccounted(cfg: Config, s: Server, e: ServerEvent, x: SessionId)
    requires !BeforeReservation(e) && !BeforeStream(e)
    requires Ready(cfg, s, x)
    ensures Accounted(cfg, ServerStep(cfg, s, e), x)
  {
    match e
    case TokenArrives(i, token) => TokenKeepsAccounted(cfg, s, i, token, x);
    case StreamStops(i) => StreamStopKeepsAccounted(cfg, s, i, x);
    case WriteSucceeds(i) => WriteSuccessKeepsAccounted(cfg, s, i, x);
    case WriteFails(i, applied) => WriteFailureKeepsAccounted(cfg, s, i, applied, x);
    case Persisted(i) => EndStepsKeepAccounted(cfg, s, i, x);
    case Release(i) => EndStepsKeepAccounted(cfg, s, i, x);
  }

  lemma StepKeepsAccounted(cfg: Config, s: Server, e: ServerEvent, x: SessionId)
    requires cfg.pricing.Some? && ProperEvent(s, e) && FreshRequest(s, e)
    requires Ready(cfg, s, x)
    ensures Accounted(cfg, ServerStep(cfg, s, e), x)
  {
    if BeforeReservation(e) {
      FirstStepsKeepAccounted(cfg, s, e, x);
    } else if BeforeStream(e) {
      MiddleStepsKeepAccounted(cfg, s, e, x);
    } else {
      LastStepsKeepAccounted(cfg, s, e, x);
    }
  }

  lemma {:induction false} RunKeepsAccounted(cfg: Config, s: Server, events: seq<ServerEvent>, x: SessionId)
    requires cfg.pricing.Some? && ProperServerRun(cfg, s, events) && FreshRun(cfg, s, events)
    requires Ready(cfg, s, x)
    ensures Accounted(cfg, ServerRun(cfg, s, events), x)
    decreases |events|
  {
    if events != [] {
      StepKeepsSound(cfg, s, events[0]);
      StepKeepsReserved(cfg, s, events[0], x);
      StepKeepsAccounted(cfg, s, events[0], x);
      RunKeepsAccounted(cfg, ServerStep(cfg, s, events[0]), events[1..], x);
    }
  }

  /** The main result: with pricing set and request ids not reused, no interleaving lets the provider
      calls of a session cost more than its limit. Each call stays within the worst case for which
      room was checked, even while it streams. */
  lemma SpendingStaysWithinLimit(cfg: Config, events: seq<ServerEvent>, x: SessionId)
    requires cfg.pricing.Some?
    requires ProperServerRun(cfg, NEW_SERVER, events) && FreshRun(cfg, NEW_SERVER, events)
    ensures Spent(cfg, ServerRun(cfg, NEW_SERVER, events).handlers, x) <= cfg.costLimit
  {
    NewServerIsReserved(cfg, x);
    RunKeepsAccounted(cfg, NEW_SERVER, events, x);
  }
}
