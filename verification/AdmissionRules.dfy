/** Which requests get a suggestion, what becomes of them, and what the client is told, over every run of the server
    (services/realtime/src/ws-server.ts:495-526, 886-1058). */
module AdmissionRules {
  import opened Ids
  import opened Wrappers
  import opened Utf16
  import opened Sessions
  import opened Admission
  import opened Reservation
  import opened Spending
  import opened SpendingCeiling
  import SuggestionStream

  /** The connection leads to an active session, and the message is newer than all before. */
  predicate IsTaken(s: Server, c: ConnectionId, seqNo: nat) {
    && c in s.world.m.connections
    && var x := s.world.m.connections[c];
       x in s.world.m.sessions && s.world.m.sessions[x].phase == Active && seqNo > s.world.m.sessions[x].clientSeq
  }

  ghost predicate InFlight(s: Server, x: SessionId) {
    exists i: nat :: Running(s, x, i)
  }

  /** No suggestion of the session is being made, and both limits leave room after those accepted so far. */
  ghost predicate HasTurn(cfg: Config, s: Server, x: SessionId, nowMs: int) {
    x !in s.blocked && !InFlight(s, x) && CanAccept(cfg, Times(s.acceptances, x), nowMs)
  }

  /** A handler at the start of its work. */
  function Started(s: Server, x: SessionId, r: RequestId, nowMs: int): Handler {
    Handler(x, r, nowMs, GuardOf(s, x), Lookup, false, 0, 0, [])
  }

  /** Only the session's client number moves. */
  function Heard(s: Server, x: SessionId, seqNo: nat): Server
    requires x in s.world.m.sessions
  {
    var m := s.world.m;
    s.(world := s.world.(m := m.(sessions := m.sessions[x := m.sessions[x].(clientSeq := seqNo)])))
  }

  lemma AdmitsIffHasTurn(cfg: Config, s: Server, x: SessionId, nowMs: int)
    requires Reserved(cfg, s, x)
    ensures Admits(cfg, s, x, nowMs) <==> HasTurn(cfg, s, x, nowMs)
  {
  }

  /** In every reachable state: a request starts a handler if and only if its message is taken, the policy allows it and
      its session has a turn. A request that is taken but refused moves only the client number, and one that is not
      taken changes nothing. */
  lemma RequestStartsHandlerIff(cfg: Config, events: seq<ServerEvent>, c: ConnectionId, seqNo: nat, r: RequestId,
                                nowMs: int, policyAllows: bool)
    requires ProperServerRun(cfg, NEW_SERVER, events)
    ensures var s := ServerRun(cfg, NEW_SERVER, events);
      var s' := ServerStep(cfg, s, Request(c, seqNo, r, nowMs, policyAllows));
      if !IsTaken(s, c, seqNo) then s' == s
      else
        var x := s.world.m.connections[c];
        if policyAllows && HasTurn(cfg, s, x, nowMs)
        then s' == Heard(s, x, seqNo).(handlers := s.handlers + [Started(s, x, r, nowMs)], guards := s'.guards)
             && InFlight(s', x)
        else s' == Heard(s, x, seqNo)
  {
    var s := ServerRun(cfg, NEW_SERVER, events);
    if IsTaken(s, c, seqNo) {
      var x := s.world.m.connections[c];
      NewServerIsReserved(cfg, x);
      RunKeepsReserved(cfg, NEW_SERVER, events, x);
      AdmitsIffHasTurn(cfg, s, x, nowMs);
      var s' := ServerStep(cfg, s, Request(c, seqNo, r, nowMs, policyAllows));
      if policyAllows && HasTurn(cfg, s, x, nowMs) {
        assert Running(s', x, |s.handlers|);
      }
    }
  }

  /** What the client is told, in every reachable state, in terms of what happened: each reason is given exactly when it
      holds and none of the reasons before it does. */
  lemma ReplyTellsWhy(cfg: Config, events: seq<ServerEvent>, c: ConnectionId, seqNo: nat, nowMs: int,
                      policyAllows: bool)
    requires ProperServerRun(cfg, NEW_SERVER, events)
    ensures var s := ServerRun(cfg, NEW_SERVER, events);
      var reply := ReplyTo(cfg, s, c, seqNo, nowMs, policyAllows);
      if !IsTaken(s, c, seqNo) then reply == NotTaken
      else
        var x := s.world.m.connections[c];
        var times := Times(s.acceptances, x);
        if !policyAllows then reply == Refused(ForbiddenByPolicy)
        else if x in s.blocked then reply == Refused(AccountingBlocked)
        else if InFlight(s, x) then reply == Refused(InProgress)
        else if |times| == cfg.maxRequests then reply == Refused(LimitReached)
        else if CanAccept(cfg, times, nowMs) then reply == Begun
        else reply.Refused? && reply.reason.TooFrequent? && reply.reason.waitMs > 0
             && (forall laterMs: int :: CanAccept(cfg, times, laterMs) <==> laterMs >= nowMs + reply.reason.waitMs)
  {
    var s := ServerRun(cfg, NEW_SERVER, events);
    if IsTaken(s, c, seqNo) {
      var x := s.world.m.connections[c];
      NewServerIsReserved(cfg, x);
      RunKeepsReserved(cfg, NEW_SERVER, events, x);
    }
  }

  // Blocked sessions.

  /** A lookup or a ledger write of the session fails. */
  predicate FailsFor(s: Server, e: ServerEvent, x: SessionId) {
    match e
    case LookupFails(i) => Waits(s, i, Lookup) && s.handlers[i].session == x
    case WriteFails(i, _) => Waits(s, i, Recording) && s.handlers[i].session == x
    case _ => false
  }

  ghost predicate HasFailed(cfg: Config, s: Server, events: seq<ServerEvent>, x: SessionId)
    decreases |events|
  {
    events != [] && (FailsFor(s, events[0], x) || HasFailed(cfg, ServerStep(cfg, s, events[0]), events[1..], x))
  }

  lemma StepBlocksIff(cfg: Config, s: Server, e: ServerEvent, x: SessionId)
    requires Sound(s)
    ensures x in ServerStep(cfg, s, e).blocked <==> x in s.blocked || FailsFor(s, e, x)
  {
    if e.Close? {
      CleanUpIsUnreachable(s, e.connectionId);
    }
  }

  lemma {:induction false} RunBlocksIff(cfg: Config, s: Server, events: seq<ServerEvent>, x: SessionId)
    requires Sound(s) && ProperServerRun(cfg, s, events)
    ensures x in ServerRun(cfg, s, events).blocked <==> x in s.blocked || HasFailed(cfg, s, events, x)
    decreases |events|
  {
    if events != [] {
      StepKeepsSound(cfg, s, events[0]);
      StepBlocksIff(cfg, s, events[0], x);
      RunBlocksIff(cfg, ServerStep(cfg, s, events[0]), events[1..], x);
    }
  }

  /** A session is blocked exactly if a lookup or a ledger write of it has failed, ever. */
  lemma BlockedIffFailed(cfg: Config, events: seq<ServerEvent>, x: SessionId)
    requires ProperServerRun(cfg, NEW_SERVER, events)
    ensures x in ServerRun(cfg, NEW_SERVER, events).blocked <==> HasFailed(cfg, NEW_SERVER, events, x)
  {
    NewServerIsReserved(cfg, x);
    RunBlocksIff(cfg, NEW_SERVER, events, x);
  }

  // The decision.

  ghost predicate Affords(cfg: Config, s: Server, x: SessionId) {
    cfg.pricing.None? || Total(s.ledger, x) + MaxRequestCost(cfg) <= cfg.costLimit
  }

  /** In every reachable state: a request is let through exactly if the session's ledger, as it stands at that moment,
      leaves room for the worst case. The lookup's answer is never out of date. */
  lemma LetThroughIffAffordable(cfg: Config, events: seq<ServerEvent>, i: nat)
    requires ProperServerRun(cfg, NEW_SERVER, events)
    requires i < |ServerRun(cfg, NEW_SERVER, events).handlers|
    requires ServerRun(cfg, NEW_SERVER, events).handlers[i].phase.Answered?
    ensures var s := ServerRun(cfg, NEW_SERVER, events);
      var h, s' := s.handlers[i], ServerStep(cfg, s, Decide(i));
      if Affords(cfg, s, h.session)
      then s' == s.(handlers := s.handlers[i := h.(phase := Retrieving)],
                    acceptances := s.acceptances + [Acceptance(h.session, h.nowMs)], guards := s'.guards)
      else s' == s.(handlers := s.handlers[i := h.(phase := Releasing)])
  {
    var s := ServerRun(cfg, NEW_SERVER, events);
    var x := s.handlers[i].session;
    var most := WorstBounds(cfg);
    NewServerIsReserved(cfg, x);
    RunStaysUnderCeiling(cfg, NEW_SERVER, events, x, most);
    assert Steady(cfg, s, s.handlers[i], most);
  }
}
