/** What live suggestions can cost at most when nothing is assumed about request ids or pricing. A call that
    another one may follow leaves room for the worst case on the ledger, so only the last call of a session
    can be dearer than that. */
module SpendingCeiling {
  import opened Ids
  import opened Utf16
  import opened Sessions
  import opened Admission
  import opened Reservation
  import opened Spending
  import SuggestionStream

  /** A usage that a request can have. */
  predicate WithinLimits(cfg: Config, inputTokens: nat, outputTokens: nat) {
    inputTokens <= cfg.maxInputTokens && outputTokens <= cfg.maxOutputTokens
  }

  /** A call that leaves the session open for another one costs at most `most`. */
  ghost predicate FollowedCostsAtMost(cfg: Config, most: nat) {
    forall i: nat, o: nat | WithinLimits(cfg, i, o) && !OverBudget(cfg, UsageCost(cfg, i, o)) ::
      UsageCost(cfg, i, o) <= most
  }

  function Multiple(n: nat, m: nat): nat {
    n * m
  }

  lemma OneMoreTime(n: nat, m: nat)
    ensures Multiple(n + 1, m) == Multiple(n, m) + m
  {
  }

  /** `n` calls, all but the last of cost `most`, the last of the worst case. */
  function Ceiling(cfg: Config, n: nat, most: nat): nat {
    if n == 0 then 0 else Multiple(n - 1, most) + MaxRequestCost(cfg)
  }

  function Accepted(s: Server, x: SessionId): nat {
    |Times(s.acceptances, x)|
  }

  /** Should another request be let through, then every call so far was one that another may follow. */
  ghost predicate Settled(cfg: Config, s: Server, x: SessionId, most: nat) {
    !OverBudget(cfg, Total(s.ledger, x)) ==> Spent(cfg, s.handlers, x) <= Multiple(Accepted(s, x), most)
  }

  /** What was spent before the call of the accepted handler `h`. */
  ghost predicate EarlierSettled(cfg: Config, s: Server, h: Handler, most: nat) {
    var n := Accepted(s, h.session);
    n > 0 && Spent(cfg, s.handlers, h.session) <= Multiple(n - 1, most) + Contribution(cfg, h)
  }

  ghost predicate Steady(cfg: Config, s: Server, h: Handler, most: nat) {
    && WithinCallLimits(cfg, h)
    && match h.phase
       case Lookup => NotCalledYet(h) && Settled(cfg, s, h.session, most)
       case Answered(total) =>
         NotCalledYet(h) && Settled(cfg, s, h.session, most) && total == Total(s.ledger, h.session)
       case Retrieving => NotCalledYet(h) && EarlierSettled(cfg, s, h, most)
       case Streaming => h.called && EarlierSettled(cfg, s, h, most)
       case Recording => EarlierSettled(cfg, s, h, most)
       case Recorded => Settled(cfg, s, h.session, most)
       case Releasing => Shut(s, h.session) || Settled(cfg, s, h.session, most)
       case Done => true
  }

  ghost predicate Capped(cfg: Config, s: Server, x: SessionId, most: nat) {
    && (Idle(s, x) ==> Settled(cfg, s, x, most))
    && Spent(cfg, s.handlers, x) <= Ceiling(cfg, Accepted(s, x), most)
    && (Accepted(s, x) > 0 ==> !OverBudget(cfg, 0))
  }

  ghost predicate UnderCeiling(cfg: Config, s: Server, x: SessionId, most: nat) {
    && (forall i :: 0 <= i < |s.handlers| && s.handlers[i].session == x ==> Steady(cfg, s, s.handlers[i], most))
    && Capped(cfg, s, x, most)
  }

  ghost predicate Checked(cfg: Config, s: Server, x: SessionId, most: nat) {
    Sound(s) && Reserved(cfg, s, x) && UnderCeiling(cfg, s, x, most) && FollowedCostsAtMost(cfg, most)
  }

  /** A step of handler `i`: of another session it changes nothing for `x`, of `x` it is enough to look at
      that handler. */
  lemma MoveStaysUnderCeiling(cfg: Config, s: Server, s': Server, i: nat, x: SessionId, most: nat)
    requires UnderCeiling(cfg, s, x, most) && Exclusive(s, x) && TouchesOnly(s, s', i) && !s.handlers[i].phase.Done?
    requires s.handlers[i].session != x ==> GuardOf(s', x) == GuardOf(s, x) && Accepted(s', x) == Accepted(s, x)
    requires s.handlers[i].session == x ==> Steady(cfg, s', s'.handlers[i], most) && Capped(cfg, s', x, most)
    ensures UnderCeiling(cfg, s', x, most)
  {
    if s.handlers[i].session != x {
      OtherSessionIsUntouched(cfg, s, s', i, x);
    }
    forall j | 0 <= j < |s'.handlers| && s'.handlers[j].session == x
      ensures Steady(cfg, s', s'.handlers[j], most)
    {
      if j != i {
        assert Steady(cfg, s, s.handlers[j], most);
        assert s.handlers[i].session == x ==> s.handlers[j].phase.Done?;
      }
    }
  }

  lemma OtherSessionIsUntouched(cfg: Config, s: Server, s': Server, i: nat, x: SessionId)
    requires TouchesOnly(s, s', i) && s.handlers[i].session != x
    ensures Spent(cfg, s'.handlers, x) == Spent(cfg, s.handlers, x) && Total(s'.ledger, x) == Total(s.ledger, x)
  {
    SpentMoves(cfg, s.handlers, i, s'.handlers[i], x);
    if s'.ledger != s.ledger {
      WriteMovesTotal(s.ledger, Key(s.handlers[i]), s'.ledger[Key(s.handlers[i])], x);
    }
  }

  lemma LookupStaysUnderCeiling(cfg: Config, s: Server, i: nat, x: SessionId, most: nat)
    requires Checked(cfg, s, x, most)
    ensures UnderCeiling(cfg, OnLookupAnswers(s, i), x, most) && UnderCeiling(cfg, OnLookupFails(s, i), x, most)
  {
    if Waits(s, i, Lookup) {
      var answered, failed := OnLookupAnswers(s, i), OnLookupFails(s, i);
      SpentMoves(cfg, s.handlers, i, answered.handlers[i], x);
      SpentMoves(cfg, s.handlers, i, failed.handlers[i], x);
      if s.handlers[i].session == x {
        RunningIsNotIdle(s, x, i);
        assert Steady(cfg, s, s.handlers[i], most);
      }
      MoveStaysUnderCeiling(cfg, s, answered, i, x, most);
      MoveStaysUnderCeiling(cfg, s, failed, i, x, most);
    }
  }

  lemma AcceptanceCounts(cfg: Config, s: Server, i: nat, x: SessionId)
    requires i < |s.handlers| && s.handlers[i].phase.Answered? && !OverBudget(cfg, s.handlers[i].phase.total)
    ensures var s' := OnDecide(cfg, s, i);
      Accepted(s', x) == Accepted(s, x) + (if s.handlers[i].session == x then 1 else 0)
  {
    assert OnDecide(cfg, s, i).acceptances[..|s.acceptances|] == s.acceptances;
  }

  /** The lookup showed room, so what was spent so far is settled. */
  lemma OwnAcceptance(cfg: Config, s: Server, i: nat, most: nat)
    requires i < |s.handlers| && s.handlers[i].phase.Answered? && !OverBudget(cfg, s.handlers[i].phase.total)
    requires Steady(cfg, s, s.handlers[i], most) && Exclusive(s, s.handlers[i].session)
    requires Running(s, s.handlers[i].session, i)
    ensures var s' := OnDecide(cfg, s, i);
      Steady(cfg, s', s'.handlers[i], most) && Capped(cfg, s', s.handlers[i].session, most)
  {
    var x, s' := s.handlers[i].session, OnDecide(cfg, s, i);
    RunningIsNotIdle(s, x, i);
    AcceptanceCounts(cfg, s, i, x);
    SpentMoves(cfg, s.handlers, i, s'.handlers[i], x);
    assert Spent(cfg, s'.handlers, x) <= Multiple(Accepted(s, x), most);
  }

  lemma DecideStaysUnderCeiling(cfg: Config, s: Server, i: nat, x: SessionId, most: nat)
    requires Checked(cfg, s, x, most)
    ensures UnderCeiling(cfg, OnDecide(cfg, s, i), x, most)
  {
    if i < |s.handlers| && s.handlers[i].phase.Answered? {
      var s' := OnDecide(cfg, s, i);
      var own := s.handlers[i].session == x;
      assert own ==> Steady(cfg, s, s.handlers[i], most) && Running(s, x, i);
      if !OverBudget(cfg, s.handlers[i].phase.total) {
        AcceptanceCounts(cfg, s, i, x);
        if own {
          OwnAcceptance(cfg, s, i, most);
        }
      } else {
        SpentMoves(cfg, s.handlers, i, s'.handlers[i], x);
      }
      MoveStaysUnderCeiling(cfg, s, s', i, x, most);
    }
  }

  lemma RetrievedStaysUnderCeiling(cfg: Config, s: Server, i: nat, inputTokens: nat, maxChars: nat, x: SessionId,
                                   most: nat)
    requires Checked(cfg, s, x, most)
    ensures UnderCeiling(cfg, OnRetrieved(cfg, s, i, inputTokens, maxChars), x, most)
  {
    if Waits(s, i, Retrieving) {
      var s' := OnRetrieved(cfg, s, i, inputTokens, maxChars);
      var h := s'.handlers[i];
      SpentMoves(cfg, s.handlers, i, h, x);
      if h.session == x {
        RunningIsNotIdle(s, x, i);
        assert Steady(cfg, s, s.handlers[i], most);
        CallCostsAtMostWorst(cfg, h);
      }
      MoveStaysUnderCeiling(cfg, s, s', i, x, most);
    }
  }

  lemma CallCostsAtMostWorst(cfg: Config, h: Handler)
    requires WithinCallLimits(cfg, h)
    ensures Contribution(cfg, h) <= MaxRequestCost(cfg)
  {
    if h.called {
      UsageCostIsMonotone(cfg, h.inputTokens, ByteLength(h.content));
    }
  }

  lemma TokenStaysUnderCeiling(cfg: Config, s: Server, i: nat, token: Text, x: SessionId, most: nat)
    requires Checked(cfg, s, x, most)
    ensures UnderCeiling(cfg, OnToken(cfg, s, i, token), x, most)
  {
    if Waits(s, i, Streaming) {
      var s' := OnToken(cfg, s, i, token);
      var h := s'.handlers[i];
      SpentMoves(cfg, s.handlers, i, h, x);
      if h.session == x {
        RunningIsNotIdle(s, x, i);
        assert Steady(cfg, s, s.handlers[i], most);
        SuggestionStream.AcceptStaysWithinLimits(s.handlers[i].content, token,
                                                 SuggestionStream.OutputLimits(cfg.maxOutputTokens, h.maxChars));
        CallCostsAtMostWorst(cfg, h);
      }
      MoveStaysUnderCeiling(cfg, s, s', i, x, most);
    }
  }

  lemma StopStaysUnderCeiling(cfg: Config, s: Server, i: nat, x: SessionId, most: nat)
    requires Checked(cfg, s, x, most)
    ensures UnderCeiling(cfg, OnStreamStops(s, i), x, most)
  {
    if Waits(s, i, Streaming) {
      var s' := OnStreamStops(s, i);
      SpentMoves(cfg, s.handlers, i, s'.handlers[i], x);
      if s.handlers[i].session == x {
        RunningIsNotIdle(s, x, i);
        assert Steady(cfg, s, s.handlers[i], most);
      }
      MoveStaysUnderCeiling(cfg, s, s', i, x, most);
    }
  }

  /** A recorded call that leaves the session open was one that another may follow. */
  lemma RecordedIsSettled(cfg: Config, s: Server, s': Server, h: Handler, most: nat)
    requires FollowedCostsAtMost(cfg, most) && WithinCallLimits(cfg, h) && EarlierSettled(cfg, s, h, most)
    requires s'.ledger == s.ledger[Key(h) := HandlerCost(cfg, h)] && s'.acceptances == s.acceptances
    requires Spent(cfg, s'.handlers, h.session) == Spent(cfg, s.handlers, h.session)
    ensures Settled(cfg, s', h.session, most)
  {
    var x, n, cost := h.session, Accepted(s, h.session), HandlerCost(cfg, h);
    TotalRemoves(s'.ledger, Key(h), x);
    OneMoreTime(n - 1, most);
    if !OverBudget(cfg, Total(s'.ledger, x)) {
      assert !OverBudget(cfg, cost);
      if h.called {
        assert WithinLimits(cfg, h.inputTokens, ByteLength(h.content));
      }
    }
  }

  lemma WriteStaysUnderCeiling(cfg: Config, s: Server, i: nat, x: SessionId, most: nat)
    requires Checked(cfg, s, x, most)
    ensures UnderCeiling(cfg, OnWriteSucceeds(cfg, s, i), x, most)
  {
    if Waits(s, i, Recording) {
      var h := s.handlers[i];
      var s' := OnWriteSucceeds(cfg, s, i);
      SpentMoves(cfg, s.handlers, i, s'.handlers[i], x);
      if h.session == x {
        RunningIsNotIdle(s, x, i);
        assert Steady(cfg, s, h, most);
        RecordedIsSettled(cfg, s, s', h, most);
      }
      MoveStaysUnderCeiling(cfg, s, s', i, x, most);
    }
  }

  lemma FailedWriteStaysUnderCeiling(cfg: Config, s: Server, i: nat, applied: bool, x: SessionId, most: nat)
    requires Checked(cfg, s, x, most)
    ensures UnderCeiling(cfg, OnWriteFails(cfg, s, i, applied), x, most)
  {
    if Waits(s, i, Recording) {
      var s' := OnWriteFails(cfg, s, i, applied);
      SpentMoves(cfg, s.handlers, i, s'.handlers[i], x);
      if s.handlers[i].session == x {
        RunningIsNotIdle(s, x, i);
        assert Steady(cfg, s, s.handlers[i], most);
      }
      MoveStaysUnderCeiling(cfg, s, s', i, x, most);
    }
  }

  lemma EndStaysUnderCeiling(cfg: Config, s: Server, i: nat, x: SessionId, most: nat)
    requires Checked(cfg, s, x, most)
    ensures UnderCeiling(cfg, OnPersisted(s, i), x, most) && UnderCeiling(cfg, OnRelease(s, i), x, most)
  {
    if Waits(s, i, Recorded) || Waits(s, i, Releasing) {
      var s' := if Waits(s, i, Recorded) then OnPersisted(s, i) else OnRelease(s, i);
      SpentMoves(cfg, s.handlers, i, s'.handlers[i], x);
      if s.handlers[i].session == x {
        RunningIsNotIdle(s, x, i);
        assert Steady(cfg, s, s.handlers[i], most);
      }
      MoveStaysUnderCeiling(cfg, s, s', i, x, most);
    }
  }

  lemma WorldStaysUnderCeiling(cfg: Config, s: Server, w: World, x: SessionId, most: nat)
    requires Sound(s) && UnderCeiling(cfg, s, x, most)
    requires x in w.m.sessions && x !in s.world.m.sessions ==> x !in s.world.sessionIds
    ensures UnderCeiling(cfg, s.(world := w), x, most)
  {
    var s' := s.(world := w);
    if x !in s.world.sessionIds {
      NothingSpentWithoutHandlers(cfg, s.handlers, x);
    } else {
      assert Idle(s', x) ==> Idle(s, x);
      forall i | 0 <= i < |s.handlers| && s.handlers[i].session == x
        ensures Steady(cfg, s', s.handlers[i], most)
      {
        assert Steady(cfg, s, s.handlers[i], most);
      }
    }
  }

  lemma AdmittedStaysUnderCeiling(cfg: Config, s: Server, own: SessionId, r: RequestId, nowMs: int, x: SessionId,
                                  most: nat)
    requires UnderCeiling(cfg, s, x, most) && own in s.world.m.sessions && Admits(cfg, s, own, nowMs)
    ensures UnderCeiling(cfg, s.(guards := s.guards[own := GuardOf(s, own).(inFlight := true)],
                                 handlers := s.handlers + [NewHandler(s, own, r, nowMs)]), x, most)
  {
    var s' := s.(guards := s.guards[own := GuardOf(s, own).(inFlight := true)],
                 handlers := s.handlers + [NewHandler(s, own, r, nowMs)]);
    assert s'.handlers[..|s.handlers|] == s.handlers;
    assert Spent(cfg, s'.handlers, x) == Spent(cfg, s.handlers, x);
    forall i | 0 <= i < |s'.handlers| && s'.handlers[i].session == x
      ensures Steady(cfg, s', s'.handlers[i], most)
    {
      if i < |s.handlers| {
        assert Steady(cfg, s, s.handlers[i], most);
      }
    }
  }

  lemma RequestStaysUnderCeiling(cfg: Config, s: Server, e: ServerEvent, x: SessionId, most: nat)
    requires e.Request? && Checked(cfg, s, x, most)
    ensures UnderCeiling(cfg, ServerStep(cfg, s, e), x, most)
  {
    var c := e.connectionId;
    if c in s.world.m.connections && Advances(s.world.m, s.world.m.connections[c], e.seqNo) {
      var own := s.world.m.connections[c];
      var w := Sessions.Step(s.world, AdvanceEvent(own, e.seqNo));
      WorldStaysUnderCeiling(cfg, s, w, x, most);
      if e.policyAllows && Admits(cfg, s, own, e.nowMs) {
        AdmittedStaysUnderCeiling(cfg, s.(world := w), own, e.request, e.nowMs, x, most);
      }
    }
  }

  lemma StepStaysUnderCeiling(cfg: Config, s: Server, e: ServerEvent, x: SessionId, most: nat)
    requires ProperEvent(s, e) && Checked(cfg, s, x, most)
    ensures UnderCeiling(cfg, ServerStep(cfg, s, e), x, most)
  {
    match e
    case SessionEvent(e') => WorldStaysUnderCeiling(cfg, s, Sessions.Step(s.world, e'), x, most);
    case Close(c) =>
      CleanUpIsUnreachable(s, c);
      WorldStaysUnderCeiling(cfg, s, Sessions.Step(s.world, RemoveEvent(c)), x, most);
    case Request(_, _, _, _, _) => RequestStaysUnderCeiling(cfg, s, e, x, most);
    case LookupAnswers(i) => LookupStaysUnderCeiling(cfg, s, i, x, most);
    case LookupFails(i) => LookupStaysUnderCeiling(cfg, s, i, x, most);
    case Decide(i) => DecideStaysUnderCeiling(cfg, s, i, x, most);
    case Retrieved(i, inputTokens, maxChars) => RetrievedStaysUnderCeiling(cfg, s, i, inputTokens, maxChars, x, most);
    case TokenArrives(i, token) => TokenStaysUnderCeiling(cfg, s, i, token, x, most);
    case StreamStops(i) => StopStaysUnderCeiling(cfg, s, i, x, most);
    case WriteSucceeds(i) => WriteStaysUnderCeiling(cfg, s, i, x, most);
    case WriteFails(i, applied) => FailedWriteStaysUnderCeiling(cfg, s, i, applied, x, most);
    case Persisted(i) => EndStaysUnderCeiling(cfg, s, i, x, most);
    case Release(i) => EndStaysUnderCeiling(cfg, s, i, x, most);
  }

  lemma {:induction false} RunStaysUnderCeiling(cfg: Config, s: Server, events: seq<ServerEvent>, x: SessionId,
                                                most: nat)
    requires ProperServerRun(cfg, s, events) && Checked(cfg, s, x, most)
    ensures Checked(cfg, ServerRun(cfg, s, events), x, most)
    decreases |events|
  {
    if events != [] {
      StepKeepsSound(cfg, s, events[0]);
      StepKeepsReserved(cfg, s, events[0], x);
      StepStaysUnderCeiling(cfg, s, events[0], x, most);
      RunStaysUnderCeiling(cfg, ServerStep(cfg, s, events[0]), events[1..], x, most);
    }
  }

  lemma CeilingGrows(cfg: Config, m: nat, n: nat, most: nat)
    requires m <= n
    ensures Ceiling(cfg, m, most) <= Ceiling(cfg, n, most)
  {
    if m > 0 {
      MulMonotone(m - 1, n - 1, most);
    }
  }

  /** In every interleaving, with request ids reused or not: nothing is spent if not even one worst case fits
      the limit; otherwise every call but the last costs at most what a call that another may follow costs. */
  lemma SpendingStaysUnderCeiling(cfg: Config, events: seq<ServerEvent>, x: SessionId, most: nat)
    requires ProperServerRun(cfg, NEW_SERVER, events) && FollowedCostsAtMost(cfg, most)
    ensures Spent(cfg, ServerRun(cfg, NEW_SERVER, events).handlers, x)
         <= if OverBudget(cfg, 0) then 0 else Ceiling(cfg, cfg.maxRequests, most)
  {
    var s := ServerRun(cfg, NEW_SERVER, events);
    NewServerIsReserved(cfg, x);
    RunStaysUnderCeiling(cfg, NEW_SERVER, events, x, most);
    CeilingGrows(cfg, Accepted(s, x), cfg.maxRequests, most);
  }

  lemma WorstBounds(cfg: Config) returns (most: nat)
    ensures most == MaxRequestCost(cfg) && FollowedCostsAtMost(cfg, most)
  {
    most := MaxRequestCost(cfg);
    forall i: nat, o: nat | WithinLimits(cfg, i, o)
      ensures UsageCost(cfg, i, o) <= most
    {
      UsageCostIsMonotone(cfg, i, o);
    }
  }

  /** In particular at most one worst-case request for each request that may be accepted. */
  lemma SpendingStaysUnderAcceptances(cfg: Config, events: seq<ServerEvent>, x: SessionId)
    requires ProperServerRun(cfg, NEW_SERVER, events)
    ensures Spent(cfg, ServerRun(cfg, NEW_SERVER, events).handlers, x) <= cfg.maxRequests * MaxRequestCost(cfg)
  {
    var most := WorstBounds(cfg);
    SpendingStaysUnderCeiling(cfg, events, x, most);
    if cfg.maxRequests > 0 {
      OneMoreTime(cfg.maxRequests - 1, MaxRequestCost(cfg));
    }
    MulMonotone(0, cfg.maxRequests, MaxRequestCost(cfg));
  }
}
