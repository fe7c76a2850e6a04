/** Who gets a session, who keeps it, and what its numbers are, over all runs of the session manager
    (services/realtime/src/session-manager.ts:31-177). */
module SessionRules {
  import opened Ids
  import opened Numbers
  import opened Sessions

  /** Every session belongs to a member of its workspace. */
  predicate MembersOnly(m: Manager) {
    forall s | s in m.sessions ::
      (m.sessions[s].actor.userId, m.sessions[s].workspaceId) in m.sessions[s].actor.memberships
  }

  lemma StepKeepsMembers(w: World, e: Event)
    requires MembersOnly(w.m)
    ensures MembersOnly(Step(w, e).m)
  {
  }

  /** Whatever is attempted, in any order and with any ids, no session is ever held by someone who is not a member of
      its workspace. */
  lemma {:induction false} SessionsBelongToMembers(w: World, events: seq<Event>)
    requires MembersOnly(w.m)
    ensures MembersOnly(Run(w, events).m)
    decreases |events|
  {
    if events != [] {
      StepKeepsMembers(w, events[0]);
      SessionsBelongToMembers(Step(w, events[0]), events[1..]);
    }
  }

  lemma NewWorldHasMembersOnly(events: seq<Event>)
    ensures MembersOnly(Run(NEW_WORLD, events).m)
  {
    SessionsBelongToMembers(NEW_WORLD, events);
  }

  /** An attempt to authenticate makes a session exactly if the user is a member of the workspace and the connection
      leads to no session yet; otherwise it changes nothing. */
  lemma AuthenticationSucceedsIff(w: World, e: Event)
    requires Mapped(w) && FreshSession(w, e) && e.AuthenticateEvent?
    ensures var m, m' := w.m, Step(w, e).m;
      && (e.sessionId in m'.sessions
          <==> (e.actor.userId, e.workspaceId) in e.actor.memberships && e.connectionId !in m.connections)
      && (e.sessionId !in m'.sessions ==> m' == m)
      && (e.sessionId in m'.sessions ==>
            && m'.connections == m.connections[e.connectionId := e.sessionId]
            && m'.sessions == m.sessions[e.sessionId := Session(e.connectionId, e.workspaceId, e.actor, Active,
                                                                e.seqNo, 0)])
  {
  }

  // Ended sessions.

  /** A run ends `s`: at some step it is asked to, and `s` is known then. */
  predicate Ends(w: World, events: seq<Event>, s: SessionId)
    decreases |events|
  {
    events != [] &&
    ((events[0] == EndEvent(s) && s in w.m.sessions) || Ends(Step(w, events[0]), events[1..], s))
  }

  predicate IsEnded(w: World, s: SessionId) {
    s in w.m.sessions && w.m.sessions[s].phase == Ended
  }

  lemma StepEndsIff(w: World, e: Event, s: SessionId)
    requires WorldInvariant(w) && Proper(w, e)
    ensures IsEnded(Step(w, e), s) <==> IsEnded(w, s) || (e == EndEvent(s) && s in w.m.sessions)
  {
  }

  /** A session is ended exactly if the run ended it, at any time, in any phase. */
  lemma {:induction false} EndedIffEnded(w: World, events: seq<Event>, s: SessionId)
    requires WorldInvariant(w) && ProperRun(w, events)
    ensures IsEnded(Run(w, events), s) <==> IsEnded(w, s) || Ends(w, events, s)
    decreases |events|
  {
    if events != [] {
      StepKeepsInvariant(w, events[0]);
      StepEndsIff(w, events[0], s);
      EndedIffEnded(Step(w, events[0]), events[1..], s);
    }
  }

  // Resumed sessions.

  /** The session is open, belongs to this user and workspace, and was last on the connection that is named. */
  predicate MayResume(m: Manager, input: ResumeInput) {
    && input.sessionId in m.sessions
    && (input.actor.userId, input.workspaceId) in input.actor.memberships
    && var s := m.sessions[input.sessionId];
       && s.phase in {Active, Disconnected}
       && (s.actor.userId, s.workspaceId, s.connectionId) == (input.actor.userId, input.workspaceId, input.previous)
  }

  /** A resume binds the session to the new connection exactly if it may; it raises both numbers to what the client has
      seen, and the only session it drops is another one that the new connection led to. */
  lemma ResumeSucceedsIff(w: World, input: ResumeInput)
    ensures var m, m', s := w.m, Step(w, ResumeEvent(input)).m, input.sessionId;
      if MayResume(m, input) then
        && m'.sessions.Keys == m.sessions.Keys
                               - (if input.next in m.connections && m.connections[input.next] != s
                                  then {m.connections[input.next]} else {})
        && (forall t | t in m'.sessions && t != s :: m'.sessions[t] == m.sessions[t])
        && m'.sessions[s] == Session(input.next, input.workspaceId, input.actor, Active,
                                     Max(m.sessions[s].clientSeq, input.lastClientSeq),
                                     Max(m.sessions[s].serverSeq, input.lastServerSeq))
        && (forall c :: c in m'.connections <==> c == input.next || (c in m.connections && c != input.previous))
        && (forall c | c in m'.connections ::
              m'.connections[c] == if c == input.next then s else m.connections[c])
      else m' == m
  {
  }

  /** A session leaves in no other way. */
  lemma SessionLeavesIff(w: World, e: Event, s: SessionId)
    requires Mapped(w) && s in w.m.sessions
    ensures s !in Step(w, e).m.sessions
       <==> e.ResumeEvent? && MayResume(w.m, e.input) && e.input.sessionId != s
            && e.input.next in w.m.connections && w.m.connections[e.input.next] == s
  {
  }

  // Numbers.

  /** The client number that a step shows to a session: sent while it is active, or named in a resume. */
  function ClientSeqShown(w: World, e: Event, s: SessionId): nat {
    if e.AdvanceEvent? && e.sessionId == s && s in w.m.sessions && w.m.sessions[s].phase == Active then e.seqNo
    else if e.ResumeEvent? && e.input.sessionId == s && MayResume(w.m, e.input) then e.input.lastClientSeq
    else 0
  }

  function HighestClientSeq(w: World, events: seq<Event>, s: SessionId, soFar: nat): nat
    decreases |events|
  {
    if events == [] then soFar
    else HighestClientSeq(Step(w, events[0]), events[1..], s, Max(soFar, ClientSeqShown(w, events[0], s)))
  }

  /** Each server message takes the next number, and a resume may raise it. */
  function ServerSeqAfter(w: World, e: Event, s: SessionId, soFar: nat): nat {
    if e == ServeEvent(s) then soFar + 1
    else if e.ResumeEvent? && e.input.sessionId == s && MayResume(w.m, e.input) then Max(soFar, e.input.lastServerSeq)
    else soFar
  }

  function LastServerSeq(w: World, events: seq<Event>, s: SessionId, soFar: nat): nat
    decreases |events|
  {
    if events == [] then soFar
    else LastServerSeq(Step(w, events[0]), events[1..], s, ServerSeqAfter(w, events[0], s, soFar))
  }

  lemma StepMovesNumbers(w: World, e: Event, s: SessionId)
    requires WorldInvariant(w) && Proper(w, e) && s in w.m.sessions && s in Step(w, e).m.sessions
    ensures Step(w, e).m.sessions[s].clientSeq == Max(w.m.sessions[s].clientSeq, ClientSeqShown(w, e, s))
    ensures Step(w, e).m.sessions[s].serverSeq == ServerSeqAfter(w, e, s, w.m.sessions[s].serverSeq)
  {
  }

  lemma StepOfKnown(w: World, events: seq<Event>, s: SessionId)
    requires WorldInvariant(w) && ProperRun(w, events) && events != []
    requires s in w.m.sessions && s in Run(w, events).m.sessions
    ensures WorldInvariant(Step(w, events[0])) && s in Step(w, events[0]).m.sessions
  {
    StepKeepsInvariant(w, events[0]);
    if s !in Step(w, events[0]).m.sessions {
      GoneStaysGone(Step(w, events[0]), events[1..], s);
    }
  }

  /** Over any run in which the session stays known, its client number is the highest it was shown. */
  lemma {:induction false} ClientSeqIsHighest(w: World, events: seq<Event>, s: SessionId)
    requires WorldInvariant(w) && ProperRun(w, events)
    requires s in w.m.sessions && s in Run(w, events).m.sessions
    ensures Run(w, events).m.sessions[s].clientSeq == HighestClientSeq(w, events, s, w.m.sessions[s].clientSeq)
    decreases |events|
  {
    if events != [] {
      StepOfKnown(w, events, s);
      StepMovesNumbers(w, events[0], s);
      ClientSeqIsHighest(Step(w, events[0]), events[1..], s);
    }
  }

  /** And its server number counts the messages since the start or since the resume that raised it. */
  lemma {:induction false} ServerSeqCounts(w: World, events: seq<Event>, s: SessionId)
    requires WorldInvariant(w) && ProperRun(w, events)
    requires s in w.m.sessions && s in Run(w, events).m.sessions
    ensures Run(w, events).m.sessions[s].serverSeq == LastServerSeq(w, events, s, w.m.sessions[s].serverSeq)
    decreases |events|
  {
    if events != [] {
      StepOfKnown(w, events, s);
      StepMovesNumbers(w, events[0], s);
      ServerSeqCounts(Step(w, events[0]), events[1..], s);
    }
  }

  /** In every reachable state a client number is taken exactly if the session is active and the number is higher than
      every number that it was shown before; then nothing but the number changes. Otherwise nothing does. */
  lemma NumberIsTakenIff(w: World, events: seq<Event>, s: SessionId, q: nat)
    requires WorldInvariant(w) && ProperRun(w, events) && s in w.m.sessions
    ensures var before, after := Run(w, events).m, Step(Run(w, events), AdvanceEvent(s, q)).m;
      if s in before.sessions && before.sessions[s].phase == Active
         && q > HighestClientSeq(w, events, s, w.m.sessions[s].clientSeq)
      then after == before.(sessions := before.sessions[s := before.sessions[s].(clientSeq := q)])
      else after == before
  {
    if s in Run(w, events).m.sessions {
      ClientSeqIsHighest(w, events, s);
    }
  }

  // What a step leaves alone.

  /** The session that a step is about. */
  predicate About(w: World, e: Event, s: SessionId) {
    match e
    case AuthenticateEvent(t, _, _, _, _) => t == s
    case AdvanceEvent(t, _) => t == s
    case ServeEvent(t) => t == s
    case EndEvent(t) => t == s
    case ResumeEvent(input) => input.sessionId == s
    case RemoveEvent(c) => c in w.m.connections && w.m.connections[c] == s
  }

  /** A step about one session changes no other, except that a resume may drop the temporary one. */
  lemma OtherSessionsAreUntouched(w: World, e: Event, s: SessionId)
    requires !About(w, e, s)
    ensures var m, m' := w.m, Step(w, e).m;
      && (s in m'.sessions ==> s in m.sessions && m'.sessions[s] == m.sessions[s])
      && (s in m.sessions && !e.ResumeEvent? ==> s in m'.sessions)
  {
  }

  /** Closing a connection disconnects its session, and only forgets where the connection led. */
  lemma ClosingDisconnects(w: World, c: ConnectionId)
    requires Mapped(w)
    ensures var m, m' := w.m, Step(w, RemoveEvent(c)).m;
      && m'.connections == m.connections - {c}
      && m'.sessions == if c in m.connections
                        then m.sessions[m.connections[c] := m.sessions[m.connections[c]].(phase := Disconnected)]
                        else m.sessions
  {
  }

  /** Ending a session takes its connection's way to it, and nothing else. */
  lemma EndingUnmaps(w: World, s: SessionId)
    requires s in w.m.sessions && w.m.sessions[s].phase != Ended
    ensures var m, m' := w.m, Step(w, EndEvent(s)).m;
      && m'.connections == m.connections - {m.sessions[s].connectionId}
      && m'.sessions == m.sessions[s := m.sessions[s].(phase := Ended)]
  {
  }
}
