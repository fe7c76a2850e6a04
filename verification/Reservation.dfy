/** Admission limits that hold in every interleaving: one suggestion in flight for each session, the
    request limit, and the interval limit. */
module Reservation {
  import opened Ids
  import opened Wrappers
  import opened Utf16
  import opened Sessions
  import opened Admission

  /** Times at which the requests of `x` were accepted, in order. */
  function Times(acceptances: seq<Acceptance>, x: SessionId): seq<int> {
    if acceptances == [] then []
    else
      var last := acceptances[|acceptances| - 1];
      Times(acceptances[..|acceptances| - 1], x) + (if last.session == x then [last.at] else [])
  }

  predicate Spaced(times: seq<int>, gap: nat) {
    forall i :: 0 < i < |times| ==> times[i] - times[i - 1] >= gap
  }

  predicate Undecided(h: Handler) {
    h.phase.Lookup? || h.phase.Answered?
  }

  ghost predicate Sound(s: Server) {
    && Mapped(s.world)
    && s.guards.Keys <= s.world.sessionIds
    && (forall i :: 0 <= i < |s.handlers| ==> s.handlers[i].session in s.world.sessionIds)
  }

  predicate Running(s: Server, x: SessionId, i: nat) {
    i < |s.handlers| && s.handlers[i].session == x && !s.handlers[i].phase.Done?
  }

  /** The reservation of `x` is held exactly while one of its handlers runs, and only its latest
      handler can be running. */
  ghost predicate Exclusive(s: Server, x: SessionId) {
    && (forall i, j :: 0 <= i < j < |s.handlers| && s.handlers[i].session == s.handlers[j].session == x ==>
          s.handlers[i].phase.Done?)
    && (GuardOf(s, x).inFlight <==> exists i: nat :: Running(s, x, i))
  }

  predicate CanAccept(cfg: Config, times: seq<int>, nowMs: int) {
    |times| < cfg.maxRequests && (times != [] ==> nowMs - times[|times| - 1] >= cfg.minIntervalMs)
  }

  /** The guard's counters tell the accepted requests, and a request still to be decided would be
      accepted within both limits. */
  ghost predicate Counted(cfg: Config, s: Server, x: SessionId) {
    var times := Times(s.acceptances, x);
    && GuardOf(s, x).acceptedCount == |times| <= cfg.maxRequests
    && GuardOf(s, x).lastAcceptedAt == (if times == [] then None else Some(times[|times| - 1]))
    && Spaced(times, cfg.minIntervalMs)
    && (forall i :: 0 <= i < |s.handlers| && s.handlers[i].session == x && Undecided(s.handlers[i]) ==>
          s.handlers[i].snapshot.acceptedCount == |times| && CanAccept(cfg, times, s.handlers[i].nowMs))
  }

  ghost predicate Reserved(cfg: Config, s: Server, x: SessionId) {
    Exclusive(s, x) && Counted(cfg, s, x)
  }

  /** The clean-up in the close handler never runs: a mapped connection has an active session. So a
      reservation, a count or a block is never forgotten. */
  lemma CleanUpIsUnreachable(s: Server, c: ConnectionId)
    requires Mapped(s.world)
    ensures OnClose(s, c) == s.(world := Sessions.Step(s.world, RemoveEvent(c)))
  {
  }

  lemma StepKeepsWorld(cfg: Config, s: Server, e: ServerEvent)
    requires Mapped(s.world) && ProperEvent(s, e)
    ensures Mapped(ServerStep(cfg, s, e).world)
    ensures s.world.sessionIds <= ServerStep(cfg, s, e).world.sessionIds
  {
    match e
    case SessionEvent(e') => StepKeepsMapped(s.world, e');
    case Close(c) => StepKeepsMapped(s.world, RemoveEvent(c));
    case Request(c, q, _, _, _) =>
      if c in s.world.m.connections {
        StepKeepsMapped(s.world, AdvanceEvent(s.world.m.connections[c], q));
      }
    case _ =>
      assert ServerStep(cfg, s, e).world == s.world;
  }

  lemma StepKeepsSound(cfg: Config, s: Server, e: ServerEvent)
    requires Sound(s) && ProperEvent(s, e)
    ensures Sound(ServerStep(cfg, s, e))
  {
    StepKeepsWorld(cfg, s, e);
    if e.Close? {
      CleanUpIsUnreachable(s, e.connectionId);
    }
  }

  /** A step of handler `i` that neither finishes it nor returns it to an undecided phase. */
  lemma MoveKeepsReserved(cfg: Config, s: Server, s': Server, i: nat, x: SessionId)
    requires Reserved(cfg, s, x) && i < |s.handlers| && !s.handlers[i].phase.Done?
    requires s'.guards == s.guards && s'.acceptances == s.acceptances
    requires |s'.handlers| == |s.handlers| && s'.handlers == s.handlers[i := s'.handlers[i]]
    requires var h := s'.handlers[i];
             h.session == s.handlers[i].session && !h.phase.Done?
             && (Undecided(h) ==>
                   Undecided(s.handlers[i]) && h.nowMs == s.handlers[i].nowMs && h.snapshot == s.handlers[i].snapshot)
    ensures Reserved(cfg, s', x)
  {
    forall j: nat
      ensures Running(s', x, j) <==> Running(s, x, j)
    {
    }
  }

  lemma RequestKeepsReserved(cfg: Config, s: Server, c: ConnectionId, q: nat, r: RequestId, nowMs: int,
                             policyAllows: bool, x: SessionId)
    requires Reserved(cfg, s, x)
    ensures Reserved(cfg, OnRequest(cfg, s, c, q, r, nowMs, policyAllows), x)
  {
    var s' := OnRequest(cfg, s, c, q, r, nowMs, policyAllows);
    var n := |s.handlers|;
    if |s'.handlers| > n && s'.handlers[n].session == x {
      assert forall i: nat :: !Running(s, x, i);
      assert Running(s', x, n);
      forall i | 0 <= i < n && s.handlers[i].session == x
        ensures s.handlers[i].phase.Done?
      {
        assert !Running(s, x, i);
      }
    } else {
      assert forall i: nat :: Running(s', x, i) <==> Running(s, x, i);
    }
  }

  lemma AcceptanceKeepsExclusive(cfg: Config, s: Server, i: nat, x: SessionId)
    requires Exclusive(s, x) && i < |s.handlers| && s.handlers[i].phase.Answered?
    requires !OverBudget(cfg, s.handlers[i].phase.total)
    ensures Exclusive(OnDecide(cfg, s, i), x)
  {
    var s' := OnDecide(cfg, s, i);
    assert forall j: nat :: Running(s', x, j) <==> Running(s, x, j);
    if s.handlers[i].session == x {
      assert Running(s', x, i);
    }
  }

  lemma AcceptanceKeepsCounted(cfg: Config, s: Server, i: nat, x: SessionId)
    requires Reserved(cfg, s, x) && i < |s.handlers| && s.handlers[i].phase.Answered?
    requires !OverBudget(cfg, s.handlers[i].phase.total)
    ensures Counted(cfg, OnDecide(cfg, s, i), x)
  {
    var h := s.handlers[i];
    var s' := OnDecide(cfg, s, i);
    assert s'.acceptances[..|s.acceptances|] == s.acceptances;
    assert Times(s'.acceptances, x) == Times(s.acceptances, x) + (if h.session == x then [h.nowMs] else []);
  }

  lemma DecideKeepsReserved(cfg: Config, s: Server, i: nat, x: SessionId)
    requires Reserved(cfg, s, x)
    ensures Reserved(cfg, OnDecide(cfg, s, i), x)
  {
    if i < |s.handlers| && s.handlers[i].phase.Answered? {
      if OverBudget(cfg, s.handlers[i].phase.total) {
        MoveKeepsReserved(cfg, s, OnDecide(cfg, s, i), i, x);
      } else {
        AcceptanceKeepsExclusive(cfg, s, i, x);
        AcceptanceKeepsCounted(cfg, s, i, x);
      }
    }
  }

  lemma ReleaseKeepsReserved(cfg: Config, s: Server, i: nat, x: SessionId)
    requires Reserved(cfg, s, x)
    ensures Reserved(cfg, OnRelease(s, i), x)
  {
    var s' := OnRelease(s, i);
    if Waits(s, i, Releasing) {
      if s.handlers[i].session == x {
        assert Running(s, x, i);
        assert forall j: nat :: !Running(s', x, j);
      } else {
        assert forall j: nat :: Running(s', x, j) <==> Running(s, x, j);
      }
    }
  }

  lemma RetrievedKeepsReserved(cfg: Config, s: Server, i: nat, inputTokens: nat, maxChars: nat, x: SessionId)
    requires Reserved(cfg, s, x)
    ensures Reserved(cfg, OnRetrieved(cfg, s, i, inputTokens, maxChars), x)
  {
    if Waits(s, i, Retrieving) {
      MoveKeepsReserved(cfg, s, OnRetrieved(cfg, s, i, inputTokens, maxChars), i, x);
    }
  }

  lemma TokenKeepsReserved(cfg: Config, s: Server, i: nat, token: Text, x: SessionId)
    requires Reserved(cfg, s, x)
    ensures Reserved(cfg, OnToken(cfg, s, i, token), x)
  {
    if Waits(s, i, Streaming) {
      MoveKeepsReserved(cfg, s, OnToken(cfg, s, i, token), i, x);
    }
  }

  lemma StreamStopKeepsReserved(cfg: Config, s: Server, i: nat, x: SessionId)
    requires Reserved(cfg, s, x)
    ensures Reserved(cfg, OnStreamStops(s, i), x)
  {
    if Waits(s, i, Streaming) {
      MoveKeepsReserved(cfg, s, OnStreamStops(s, i), i, x);
    }
  }

  lemma LookupStepKeepsReserved(cfg: Config, s: Server, e: ServerEvent, x: SessionId)
    requires e.LookupAnswers? || e.LookupFails?
    requires Reserved(cfg, s, x)
    ensures Reserved(cfg, ServerStep(cfg, s, e), x)
  {
    if Waits(s, e.i, Lookup) {
      MoveKeepsReserved(cfg, s, ServerStep(cfg, s, e), e.i, x);
    }
  }

  lemma WriteStepKeepsReserved(cfg: Config, s: Server, e: ServerEvent, x: SessionId)
    requires e.WriteSucceeds? || e.WriteFails? || e.Persisted?
    requires Reserved(cfg, s, x)
    ensures Reserved(cfg, ServerStep(cfg, s, e), x)
  {
    if Waits(s, e.i, if e.Persisted? then Recorded else Recording) {
      MoveKeepsReserved(cfg, s, ServerStep(cfg, s, e), e.i, x);
    }
  }

  lemma StepKeepsReserved(cfg: Config, s: Server, e: ServerEvent, x: SessionId)
    requires Sound(s) && Reserved(cfg, s, x)
    ensures Reserved(cfg, ServerStep(cfg, s, e), x)
  {
    match e
    case SessionEvent(_) => SameHandlersKeepReserved(cfg, s, ServerStep(cfg, s, e), x);
    case Close(c) => CleanUpIsUnreachable(s, c); SameHandlersKeepReserved(cfg, s, ServerStep(cfg, s, e), x);
    case Request(c, q, r, nowMs, policyAllows) => RequestKeepsReserved(cfg, s, c, q, r, nowMs, policyAllows, x);
    case LookupAnswers(_) => LookupStepKeepsReserved(cfg, s, e, x);
    case LookupFails(_) => LookupStepKeepsReserved(cfg, s, e, x);
    case Decide(i) => DecideKeepsReserved(cfg, s, i, x);
    case Retrieved(i, inputTokens, maxChars) => RetrievedKeepsReserved(cfg, s, i, inputTokens, maxChars, x);
    case TokenArrives(i, token) => TokenKeepsReserved(cfg, s, i, token, x);
    case StreamStops(i) => StreamStopKeepsReserved(cfg, s, i, x);
    case WriteSucceeds(_) => WriteStepKeepsReserved(cfg, s, e, x);
    case WriteFails(_, _) => WriteStepKeepsReserved(cfg, s, e, x);
    case Persisted(_) => WriteStepKeepsReserved(cfg, s, e, x);
    case Release(i) => ReleaseKeepsReserved(cfg, s, i, x);
  }

  lemma SameHandlersKeepReserved(cfg: Config, s: Server, s': Server, x: SessionId)
    requires Reserved(cfg, s, x)
    requires s'.guards == s.guards && s'.acceptances == s.acceptances && s'.handlers == s.handlers
    ensures Reserved(cfg, s', x)
  {
    assert forall j: nat :: Running(s', x, j) <==> Running(s, x, j);
  }

  lemma NewServerIsReserved(cfg: Config, x: SessionId)
    ensures Sound(NEW_SERVER) && Reserved(cfg, NEW_SERVER, x)
  {
  }

  lemma {:induction false} RunKeepsReserved(cfg: Config, s: Server, events: seq<ServerEvent>, x: SessionId)
    requires Sound(s) && Reserved(cfg, s, x) && ProperServerRun(cfg, s, events)
    ensures Sound(ServerRun(cfg, s, events)) && Reserved(cfg, ServerRun(cfg, s, events), x)
    decreases |events|
  {
    if events != [] {
      StepKeepsSound(cfg, s, events[0]);
      StepKeepsReserved(cfg, s, events[0], x);
      RunKeepsReserved(cfg, ServerStep(cfg, s, events[0]), events[1..], x);
    }
  }

  /** In every run from start-up: no reservation, count or block is ever forgotten, because the clean-up in the
      close handler never runs. */
  lemma CloseForgetsNothing(cfg: Config, events: seq<ServerEvent>, c: ConnectionId)
    requires ProperServerRun(cfg, NEW_SERVER, events)
    ensures var s := ServerRun(cfg, NEW_SERVER, events);
      OnClose(s, c).guards == s.guards && OnClose(s, c).blocked == s.blocked
  {
    NewServerIsReserved(cfg, 0);
    RunKeepsReserved(cfg, NEW_SERVER, events, 0);
    CleanUpIsUnreachable(ServerRun(cfg, NEW_SERVER, events), c);
  }

  /** How many of `times` fall in [from, from + width]. */
  function CountWithin(times: seq<int>, from: int, width: nat): nat {
    if times == [] then 0
    else
      var last := times[|times| - 1];
      CountWithin(times[..|times| - 1], from, width) + (if from <= last <= from + width then 1 else 0)
  }

  /** Spaced times that fall in a window reach from its start to the last of them. */
  lemma {:induction false} SpacedTimesReach(times: seq<int>, gap: nat, from: int, width: nat)
    requires Spaced(times, gap)
    ensures var count := CountWithin(times, from, width);
            count > 0 ==> times[|times| - 1] - from >= Reach(gap, count) && Reach(gap, count) <= width
  {
    if times != [] {
      var n := |times| - 1;
      SpacedTimesReach(times[..n], gap, from, width);
      var before := CountWithin(times[..n], from, width);
      if before > 0 {
        assert times[n] - times[n - 1] >= gap;
        ReachGrows(gap, before);
      }
    }
  }

  /** Spaced times fill a window at most as densely as the gap allows. */
  lemma WindowHoldsFewSpacedTimes(times: seq<int>, gap: nat, from: int, width: nat)
    requires Spaced(times, gap) && gap > 0
    ensures CountWithin(times, from, width) <= width / gap + 1
  {
    SpacedTimesReach(times, gap, from, width);
    var count := CountWithin(times, from, width);
    if count > 0 {
      QuotientBounds(gap, count - 1, width);
    }
  }

  /** The least distance from the first to the last of `count` spaced times. */
  function Reach(gap: nat, count: nat): nat
    requires count > 0
  {
    gap * (count - 1)
  }

  lemma ReachGrows(gap: nat, count: nat)
    requires count > 0
    ensures Reach(gap, count + 1) == Reach(gap, count) + gap
  {
  }

  lemma QuotientBounds(gap: nat, k: nat, width: nat)
    requires gap > 0 && Reach(gap, k + 1) <= width
    ensures k <= width / gap
  {
    var q := width / gap;
    assert width == gap * q + width % gap;
    if k > q {
      MulMonotone(q + 1, k, gap);
    }
  }

  /** The main result, over every run from start-up: at most one suggestion of a session is in flight,
      at most `maxRequests` are accepted, and a window of any width holds at most
      `width / minIntervalMs + 1` acceptances. */
  lemma AdmissionLimitsHold(cfg: Config, events: seq<ServerEvent>, x: SessionId, from: int, width: nat)
    requires ProperServerRun(cfg, NEW_SERVER, events)
    ensures var s := ServerRun(cfg, NEW_SERVER, events);
            && (forall i: nat, j: nat :: Running(s, x, i) && Running(s, x, j) ==> i == j)
            && (GuardOf(s, x).inFlight <==> exists i: nat :: Running(s, x, i))
            && |Times(s.acceptances, x)| <= cfg.maxRequests
            && (cfg.minIntervalMs > 0 ==>
                  CountWithin(Times(s.acceptances, x), from, width) <= width / cfg.minIntervalMs + 1)
  {
    NewServerIsReserved(cfg, x);
    RunKeepsReserved(cfg, NEW_SERVER, events, x);
    if cfg.minIntervalMs > 0 {
      var times := Times(ServerRun(cfg, NEW_SERVER, events).acceptances, x);
      WindowHoldsFewSpacedTimes(times, cfg.minIntervalMs, from, width);
    }
  }
}
