/** The session manager (services/realtime/src/session-manager.ts). Session and connection ids are
    opaque, so they are modelled as numbers; telemetry is not part of this model. */
module Sessions {
  import opened Ids
  import opened Numbers

  datatype Actor = Actor(userId: UserId, memberships: set<(UserId, WorkspaceId)>)

  predicate Authorized(actor: Actor, workspaceId: WorkspaceId) {
    (actor.userId, workspaceId) in actor.memberships
  }

  datatype Phase = Active | Disconnected | Ended

  datatype Session = Session(connectionId: ConnectionId, workspaceId: WorkspaceId, actor: Actor,
                             phase: Phase, clientSeq: nat, serverSeq: nat)

  datatype Manager = Manager(sessions: map<SessionId, Session>, connections: map<ConnectionId, SessionId>)

  datatype ResumeInput = ResumeInput(sessionId: SessionId, previous: ConnectionId, next: ConnectionId,
                                     actor: Actor, workspaceId: WorkspaceId,
                                     lastClientSeq: nat, lastServerSeq: nat)

  predicate CanAuthenticate(m: Manager, connectionId: ConnectionId, actor: Actor, workspaceId: WorkspaceId) {
    Authorized(actor, workspaceId) && connectionId !in m.connections
  }

  function AfterAuthenticate(m: Manager, sessionId: SessionId, connectionId: ConnectionId, actor: Actor,
                        workspaceId: WorkspaceId, initialClientSeq: nat): Manager {
    if CanAuthenticate(m, connectionId, actor, workspaceId)
    then Manager(m.sessions[sessionId := Session(connectionId, workspaceId, actor, Active, initialClientSeq, 0)],
                 m.connections[connectionId := sessionId])
    else m
  }

  predicate Advances(m: Manager, sessionId: SessionId, seqNo: nat) {
    sessionId in m.sessions && m.sessions[sessionId].phase == Active && seqNo > m.sessions[sessionId].clientSeq
  }

  function AfterAdvance(m: Manager, sessionId: SessionId, seqNo: nat): Manager {
    if Advances(m, sessionId, seqNo)
    then m.(sessions := m.sessions[sessionId := m.sessions[sessionId].(clientSeq := seqNo)])
    else m
  }

  function AfterServe(m: Manager, sessionId: SessionId): Manager {
    if sessionId in m.sessions
    then
      var session := m.sessions[sessionId];
      m.(sessions := m.sessions[sessionId := session.(serverSeq := session.serverSeq + 1)])
    else m
  }

  predicate CanEnd(m: Manager, sessionId: SessionId) {
    sessionId in m.sessions && m.sessions[sessionId].phase != Ended
  }

  function AfterEnd(m: Manager, sessionId: SessionId): Manager {
    if CanEnd(m, sessionId)
    then Manager(m.sessions[sessionId := m.sessions[sessionId].(phase := Ended)],
                 m.connections - {m.sessions[sessionId].connectionId})
    else m
  }

  predicate CanResume(m: Manager, input: ResumeInput) {
    && CanEnd(m, input.sessionId)
    && Authorized(input.actor, input.workspaceId)
    && var session := m.sessions[input.sessionId];
       && session.workspaceId == input.workspaceId
       && session.actor.userId == input.actor.userId
       && session.connectionId == input.previous
  }

  /** The sessions left once the temporary session of the new connection is dropped. */
  function WithoutTemporary(m: Manager, input: ResumeInput): map<SessionId, Session> {
    if input.next in m.connections && m.connections[input.next] != input.sessionId
    then m.sessions - {m.connections[input.next]}
    else m.sessions
  }

  function AfterResume(m: Manager, input: ResumeInput): Manager {
    if CanResume(m, input)
    then
      var session := m.sessions[input.sessionId];
      Manager(WithoutTemporary(m, input)[input.sessionId :=
                session.(connectionId := input.next, actor := input.actor, phase := Active,
                         clientSeq := Max(session.clientSeq, input.lastClientSeq),
                         serverSeq := Max(session.serverSeq, input.lastServerSeq))],
              (m.connections - {input.previous})[input.next := input.sessionId])
    else m
  }

  function AfterRemove(m: Manager, connectionId: ConnectionId): Manager {
    if connectionId in m.connections
    then
      var sessionId := m.connections[connectionId];
      Manager(if sessionId in m.sessions && m.sessions[sessionId].phase == Active
              then m.sessions[sessionId := m.sessions[sessionId].(phase := Disconnected)]
              else m.sessions,
              m.connections - {connectionId})
    else m
  }

  /** The class itself: each method updates the two maps in place. */
  class SessionManager {
    var sessions: map<SessionId, Session>
    var connections: map<ConnectionId, SessionId>

    function View(): Manager
      reads this
    {
      Manager(sessions, connections)
    }

    constructor ()
      ensures View() == Manager(map[], map[])
    {
      sessions, connections := map[], map[];
    }

    method Authenticate(sessionId: SessionId, connectionId: ConnectionId, actor: Actor, workspaceId: WorkspaceId,
                        initialClientSeq: nat) returns (accepted: bool)
      modifies this
      ensures accepted == CanAuthenticate(old(View()), connectionId, actor, workspaceId)
      ensures View() == AfterAuthenticate(old(View()), sessionId, connectionId, actor, workspaceId, initialClientSeq)
    {
      if !Authorized(actor, workspaceId) || connectionId in connections {
        return false;
      }
      sessions := sessions[sessionId := Session(connectionId, workspaceId, actor, Active, initialClientSeq, 0)];
      connections := connections[connectionId := sessionId];
      accepted := true;
    }

    method AdvanceClientSeq(sessionId: SessionId, seqNo: nat) returns (accepted: bool)
      modifies this
      ensures accepted == Advances(old(View()), sessionId, seqNo)
      ensures View() == AfterAdvance(old(View()), sessionId, seqNo)
    {
      if sessionId !in sessions || sessions[sessionId].phase != Active || seqNo <= sessions[sessionId].clientSeq {
        return false;
      }
      sessions := sessions[sessionId := sessions[sessionId].(clientSeq := seqNo)];
      accepted := true;
    }

    /** Zero stands for the absent number of an unknown session. */
    method NextServerSeq(sessionId: SessionId) returns (seqNo: nat)
      modifies this
      ensures View() == AfterServe(old(View()), sessionId)
      ensures seqNo == if sessionId in sessions then sessions[sessionId].serverSeq else 0
    {
      if sessionId !in sessions {
        return 0;
      }
      seqNo := sessions[sessionId].serverSeq + 1;
      sessions := sessions[sessionId := sessions[sessionId].(serverSeq := seqNo)];
    }

    method EndSession(sessionId: SessionId) returns (ended: bool)
      modifies this
      ensures ended == CanEnd(old(View()), sessionId)
      ensures View() == AfterEnd(old(View()), sessionId)
    {
      if sessionId !in sessions || sessions[sessionId].phase == Ended {
        return false;
      }
      sessions := sessions[sessionId := sessions[sessionId].(phase := Ended)];
      connections := connections - {sessions[sessionId].connectionId};
      ended := true;
    }

    method ResumeSession(input: ResumeInput) returns (resumed: bool)
      modifies this
      ensures resumed == CanResume(old(View()), input)
      ensures View() == AfterResume(old(View()), input)
    {
      if input.sessionId !in sessions || sessions[input.sessionId].phase == Ended {
        return false;
      }
      var session := sessions[input.sessionId];
      if !Authorized(input.actor, input.workspaceId)
         || session.workspaceId != input.workspaceId
         || session.actor.userId != input.actor.userId
         || session.connectionId != input.previous
      {
        return false;
      }
      if input.next in connections && connections[input.next] != input.sessionId {
        sessions := sessions - {connections[input.next]};
      }
      connections := connections - {input.previous};
      connections := connections[input.next := input.sessionId];
      sessions := sessions[input.sessionId :=
        session.(connectionId := input.next, actor := input.actor, phase := Active,
                 clientSeq := Max(session.clientSeq, input.lastClientSeq),
                 serverSeq := Max(session.serverSeq, input.lastServerSeq))];
      resumed := true;
    }

    method RemoveConnection(connectionId: ConnectionId)
      modifies this
      ensures View() == AfterRemove(old(View()), connectionId)
    {
      if connectionId in connections {
        var sessionId := connections[connectionId];
        if sessionId in sessions && sessions[sessionId].phase == Active {
          sessions := sessions[sessionId := sessions[sessionId].(phase := Disconnected)];
        }
        connections := connections - {connectionId};
      }
    }

    /** While connections and active sessions are paired, this is the number of mapped connections. */
    method ActiveSessionCount() returns (count: nat)
      requires Paired(View())
      ensures count == |connections|
    {
      count := 0;
      var rest := sessions.Keys;
      ghost var seen := {};
      while rest != {}
        invariant rest <= sessions.Keys && seen == (set s | s in sessions && s !in rest && sessions[s].phase == Active)
        invariant count == |seen|
        decreases |rest|
      {
        var s :| s in rest;
        rest := rest - {s};
        if sessions[s].phase == Active {
          count := count + 1;
          seen := seen + {s};
        }
      }
      assert seen == ActiveSessions(View());
      ActiveSessionsAreMappedConnections(View());
    }
  }

  function ActiveSessions(m: Manager): set<SessionId> {
    set s | s in m.sessions && m.sessions[s].phase == Active
  }

  /** A mapped connection has an active session of its own. */
  ghost predicate MappedAreActive(m: Manager) {
    forall c | c in m.connections ::
      && m.connections[c] in m.sessions
      && m.sessions[m.connections[c]].phase == Active
      && m.sessions[m.connections[c]].connectionId == c
  }

  /** Connections and active sessions point at each other. */
  ghost predicate Paired(m: Manager) {
    && MappedAreActive(m)
    && (forall s | s in m.sessions :: m.sessions[s].phase == Active ==>
          m.sessions[s].connectionId in m.connections && m.connections[m.sessions[s].connectionId] == s)
  }

  /** They do, and no session waits to be resumed from a mapped connection. */
  ghost predicate Invariant(m: Manager) {
    && Paired(m)
    && (forall s | s in m.sessions :: m.sessions[s].phase == Disconnected ==>
          m.sessions[s].connectionId !in m.connections)
  }

  lemma ActiveSessionsAreMappedConnections(m: Manager)
    requires Paired(m)
    ensures |ActiveSessions(m)| == |m.connections|
  {
    assert ActiveSessions(m) == m.connections.Values;
    InjectiveMapHasAsManyValues(m.connections);
  }

  /** As long as mapped connections are active, the count of active sessions tells whether all are paired. */
  lemma CountsMatchIffPaired(m: Manager)
    requires MappedAreActive(m)
    ensures |ActiveSessions(m)| == |m.connections| <==> Paired(m)
  {
    if Paired(m) {
      ActiveSessionsAreMappedConnections(m);
    } else {
      InjectiveMapHasAsManyValues(m.connections);
      var s :| s in m.sessions && m.sessions[s].phase == Active
               && !(m.sessions[s].connectionId in m.connections && m.connections[m.sessions[s].connectionId] == s);
      assert s !in m.connections.Values;
      SmallerThan(m.connections.Values, ActiveSessions(m), s);
    }
  }

  lemma SmallerThan(a: set<SessionId>, b: set<SessionId>, s: SessionId)
    requires a <= b && s in b && s !in a
    ensures |a| < |b|
  {
    SubsetIsNoLarger(a, b - {s});
  }

  lemma {:induction false} InjectiveMapHasAsManyValues(f: map<ConnectionId, SessionId>)
    requires forall c, d | c in f && d in f && c != d :: f[c] != f[d]
    ensures |f.Values| == |f|
    decreases |f|
  {
    if f != map[] {
      var c :| c in f;
      var rest := f - {c};
      forall v | v in f.Values
        ensures v in rest.Values + {f[c]}
      {
        var d :| d in f && f[d] == v;
        assert d != c ==> d in rest && rest[d] == v;
      }
      assert f.Values == rest.Values + {f[c]};
      assert f.Keys == rest.Keys + {c};
      InjectiveMapHasAsManyValues(rest);
    } else {
      assert f.Values == {};
    }
  }

  // Each call keeps the invariant exactly under a condition its caller can check.

  predicate AwaitsResume(m: Manager, connectionId: ConnectionId, except: set<SessionId>) {
    exists s :: s in m.sessions && s !in except && m.sessions[s].phase == Disconnected
                && m.sessions[s].connectionId == connectionId
  }

  /** Authenticating is safe exactly when no disconnected session still waits for that connection id. */
  lemma AuthenticateKeepsInvariantIff(m: Manager, sessionId: SessionId, connectionId: ConnectionId, actor: Actor,
                                      workspaceId: WorkspaceId, initialClientSeq: nat)
    requires Invariant(m) && sessionId !in m.sessions
    requires CanAuthenticate(m, connectionId, actor, workspaceId)
    ensures Invariant(AfterAuthenticate(m, sessionId, connectionId, actor, workspaceId, initialClientSeq))
       <==> !AwaitsResume(m, connectionId, {})
  {
    var m' := AfterAuthenticate(m, sessionId, connectionId, actor, workspaceId, initialClientSeq);
    if AwaitsResume(m, connectionId, {}) {
      var s :| s in m.sessions && m.sessions[s].phase == Disconnected && m.sessions[s].connectionId == connectionId;
      assert m'.sessions[s] == m.sessions[s];
    }
  }

  /** Resuming is safe exactly when no other disconnected session waits for the new connection id. It is
      always safe onto a connection that is mapped, which is how the server calls it. */
  lemma ResumeKeepsInvariantIff(m: Manager, input: ResumeInput)
    requires Invariant(m) && CanResume(m, input)
    ensures Invariant(AfterResume(m, input)) <==> !AwaitsResume(m, input.next, {input.sessionId})
    ensures input.next in m.connections ==> Invariant(AfterResume(m, input))
  {
    var m' := AfterResume(m, input);
    if AwaitsResume(m, input.next, {input.sessionId}) {
      var s :| s in m.sessions && s !in {input.sessionId} && m.sessions[s].phase == Disconnected
               && m.sessions[s].connectionId == input.next;
      assert m'.sessions[s] == m.sessions[s];
    }
  }

  // Runs.

  datatype Event =
    | AuthenticateEvent(sessionId: SessionId, connectionId: ConnectionId, actor: Actor, workspaceId: WorkspaceId,
                        seqNo: nat)
    | AdvanceEvent(sessionId: SessionId, seqNo: nat)
    | ServeEvent(sessionId: SessionId)
    | EndEvent(sessionId: SessionId)
    | ResumeEvent(input: ResumeInput)
    | RemoveEvent(connectionId: ConnectionId)

  /** The manager with every id handed out so far. */
  datatype World = World(m: Manager, sessionIds: set<SessionId>, connectionIds: set<ConnectionId>)

  const NEW_WORLD := World(Manager(map[], map[]), {}, {})

  function Apply(m: Manager, e: Event): Manager {
    match e
    case AuthenticateEvent(s, c, actor, workspace, q) => AfterAuthenticate(m, s, c, actor, workspace, q)
    case AdvanceEvent(s, q) => AfterAdvance(m, s, q)
    case ServeEvent(s) => AfterServe(m, s)
    case EndEvent(s) => AfterEnd(m, s)
    case ResumeEvent(input) => AfterResume(m, input)
    case RemoveEvent(c) => AfterRemove(m, c)
  }

  function Step(w: World, e: Event): World {
    var m := Apply(w.m, e);
    if e.AuthenticateEvent?
    then World(m, w.sessionIds + {e.sessionId}, w.connectionIds + {e.connectionId})
    else w.(m := m)
  }

  /** What the server guarantees: ids are fresh, and a session is resumed onto a mapped connection. */
  predicate Proper(w: World, e: Event) {
    && (e.AuthenticateEvent? ==> e.sessionId !in w.sessionIds && e.connectionId !in w.connectionIds)
    && (e.ResumeEvent? ==> e.input.next in w.m.connections)
  }

  /** Less than `Proper`: only session ids are fresh. */
  predicate FreshSession(w: World, e: Event) {
    e.AuthenticateEvent? ==> e.sessionId !in w.sessionIds
  }

  /** Less than the invariant. */
  ghost predicate Mapped(w: World) {
    MappedAreActive(w.m) && w.m.sessions.Keys <= w.sessionIds
  }

  /** It needs no more than fresh session ids, even when a connection authenticates again after it was closed. */
  lemma StepKeepsMapped(w: World, e: Event)
    requires Mapped(w) && FreshSession(w, e)
    ensures Mapped(Step(w, e))
  {
  }

  /** A session that waits to be resumed is ended, or resumed elsewhere, while its old connection id has been
      authenticated again. */
  predicate Collides(m: Manager, e: Event) {
    match e
    case EndEvent(s) =>
      CanEnd(m, s) && m.sessions[s].phase == Disconnected && m.sessions[s].connectionId in m.connections
    case ResumeEvent(input) =>
      && CanResume(m, input) && m.sessions[input.sessionId].phase == Disconnected
      && input.previous in m.connections && input.next != input.previous
    case _ => false
  }

  lemma EndKeepsPairedIff(m: Manager, s: SessionId)
    requires Paired(m)
    ensures Paired(AfterEnd(m, s)) <==> !Collides(m, EndEvent(s))
  {
    if Collides(m, EndEvent(s)) {
      var other := m.connections[m.sessions[s].connectionId];
      assert AfterEnd(m, s).sessions[other] == m.sessions[other];
    }
  }

  lemma ResumeKeepsPairedIff(m: Manager, input: ResumeInput)
    requires Paired(m)
    ensures Paired(AfterResume(m, input)) <==> !Collides(m, ResumeEvent(input))
  {
    if Collides(m, ResumeEvent(input)) {
      var other := m.connections[input.previous];
      assert AfterResume(m, input).sessions[other] == m.sessions[other];
    }
  }

  /** With fresh session ids alone, connections and active sessions stay paired exactly if a step does not
      collide; in particular authenticating, traffic and removal always keep them paired. */
  lemma StepKeepsPairedIff(w: World, e: Event)
    requires Paired(w.m) && Mapped(w) && FreshSession(w, e)
    ensures Paired(Step(w, e).m) <==> !Collides(w.m, e)
  {
    match e
    case EndEvent(s) => EndKeepsPairedIff(w.m, s);
    case ResumeEvent(input) => ResumeKeepsPairedIff(w.m, input);
    case AuthenticateEvent(_, _, _, _, _) =>
    case AdvanceEvent(_, _) =>
    case ServeEvent(_) =>
    case RemoveEvent(_) =>
  }

  /** No step of the run collides, and session ids are fresh. */
  predicate CollisionFree(w: World, events: seq<Event>)
    decreases |events|
  {
    events == []
    || (FreshSession(w, events[0]) && !Collides(w.m, events[0]) && CollisionFree(Step(w, events[0]), events[1..]))
  }

  /** However often connection ids are authenticated again, without a collision connections and active sessions
      stay paired, and their numbers agree. */
  lemma {:induction false} CollisionFreeRunStaysPaired(w: World, events: seq<Event>)
    requires Paired(w.m) && Mapped(w) && CollisionFree(w, events)
    ensures Paired(Run(w, events).m)
    ensures |ActiveSessions(Run(w, events).m)| == |Run(w, events).m.connections|
    decreases |events|
  {
    if events != [] {
      StepKeepsPairedIff(w, events[0]);
      StepKeepsMapped(w, events[0]);
      CollisionFreeRunStaysPaired(Step(w, events[0]), events[1..]);
    } else {
      ActiveSessionsAreMappedConnections(w.m);
    }
  }

  predicate ProperRun(w: World, events: seq<Event>)
    decreases |events|
  {
    events == [] || (Proper(w, events[0]) && ProperRun(Step(w, events[0]), events[1..]))
  }

  function Run(w: World, events: seq<Event>): World
    decreases |events|
  {
    if events == [] then w else Run(Step(w, events[0]), events[1..])
  }

  ghost predicate WorldInvariant(w: World) {
    && Invariant(w.m)
    && w.m.sessions.Keys <= w.sessionIds
    && w.m.connections.Keys <= w.connectionIds
    && (forall s | s in w.m.sessions :: w.m.sessions[s].connectionId in w.connectionIds)
  }

  lemma StepKeepsInvariant(w: World, e: Event)
    requires WorldInvariant(w) && Proper(w, e)
    ensures WorldInvariant(Step(w, e))
  {
    match e
    case AuthenticateEvent(s, c, actor, workspace, q) =>
      if CanAuthenticate(w.m, c, actor, workspace) {
        AuthenticateKeepsInvariantIff(w.m, s, c, actor, workspace, q);
      }
    case ResumeEvent(input) =>
      if CanResume(w.m, input) {
        ResumeKeepsInvariantIff(w.m, input);
      }
    case AdvanceEvent(_, _) =>
    case ServeEvent(_) =>
    case EndEvent(_) =>
    case RemoveEvent(_) =>
  }

  /** In every run, connections and active sessions stay inverse bijections. */
  lemma {:induction false} RunKeepsInvariant(w: World, events: seq<Event>)
    requires WorldInvariant(w) && ProperRun(w, events)
    ensures WorldInvariant(Run(w, events))
    decreases |events|
  {
    if events != [] {
      StepKeepsInvariant(w, events[0]);
      RunKeepsInvariant(Step(w, events[0]), events[1..]);
    }
  }

  /** An ended session stays ended: it is neither resumed, nor dropped, nor created again. */
  lemma {:induction false} EndedStaysEnded(w: World, events: seq<Event>, s: SessionId)
    requires WorldInvariant(w) && ProperRun(w, events)
    requires s in w.m.sessions && w.m.sessions[s].phase == Ended
    ensures s in Run(w, events).m.sessions && Run(w, events).m.sessions[s].phase == Ended
    decreases |events|
  {
    if events != [] {
      StepKeepsInvariant(w, events[0]);
      EndedStaysEnded(Step(w, events[0]), events[1..], s);
    }
  }

  /** A dropped session never comes back. */
  lemma {:induction false} GoneStaysGone(w: World, events: seq<Event>, s: SessionId)
    requires WorldInvariant(w) && ProperRun(w, events)
    requires s in w.sessionIds && s !in w.m.sessions
    ensures s !in Run(w, events).m.sessions
    decreases |events|
  {
    if events != [] {
      StepKeepsInvariant(w, events[0]);
      GoneStaysGone(Step(w, events[0]), events[1..], s);
    }
  }

  /** However often it is resumed, a session keeps its user and its workspace. */
  lemma {:induction false} OwnerNeverChanges(w: World, events: seq<Event>, s: SessionId)
    requires WorldInvariant(w) && ProperRun(w, events)
    requires s in w.m.sessions && s in Run(w, events).m.sessions
    ensures Run(w, events).m.sessions[s].actor.userId == w.m.sessions[s].actor.userId
    ensures Run(w, events).m.sessions[s].workspaceId == w.m.sessions[s].workspaceId
    decreases |events|
  {
    if events != [] {
      var w' := Step(w, events[0]);
      StepKeepsInvariant(w, events[0]);
      if s !in w'.m.sessions {
        GoneStaysGone(w', events[1..], s);
      }
      OwnerNeverChanges(w', events[1..], s);
    }
  }

  /** Once a session has been resumed elsewhere, closing its old connection, at any later time, changes
      nothing. */
  lemma ClosingOldConnectionChangesNothing(w: World, input: ResumeInput, events: seq<Event>)
    requires WorldInvariant(w) && CanResume(w.m, input) && input.next in w.m.connections && input.next != input.previous
    requires ProperRun(Step(w, ResumeEvent(input)), events)
    ensures var later := Run(Step(w, ResumeEvent(input)), events);
            Step(later, RemoveEvent(input.previous)) == later
  {
    StepKeepsInvariant(w, ResumeEvent(input));
    UnmappedStaysUnmapped(Step(w, ResumeEvent(input)), events, input.previous);
  }

  lemma {:induction false} UnmappedStaysUnmapped(w: World, events: seq<Event>, c: ConnectionId)
    requires WorldInvariant(w) && ProperRun(w, events)
    requires c in w.connectionIds && c !in w.m.connections
    ensures c !in Run(w, events).m.connections
    decreases |events|
  {
    if events != [] {
      StepKeepsInvariant(w, events[0]);
      UnmappedStaysUnmapped(Step(w, events[0]), events[1..], c);
    }
  }

  /** Client sequence numbers accepted for `s` along the run. */
  function AcceptedSeqs(w: World, events: seq<Event>, s: SessionId): seq<nat>
    decreases |events|
  {
    if events == [] then []
    else
      var rest := AcceptedSeqs(Step(w, events[0]), events[1..], s);
      if events[0].AdvanceEvent? && events[0].sessionId == s && Advances(w.m, s, events[0].seqNo)
      then [events[0].seqNo] + rest else rest
  }

  /** Server sequence numbers handed out for `s` along the run. */
  function ServedSeqs(w: World, events: seq<Event>, s: SessionId): seq<nat>
    decreases |events|
  {
    if events == [] then []
    else
      var w' := Step(w, events[0]);
      var rest := ServedSeqs(w', events[1..], s);
      if events[0].ServeEvent? && events[0].sessionId == s && s in w'.m.sessions
      then [w'.m.sessions[s].serverSeq] + rest else rest
  }

  predicate StrictlyIncreasing(numbers: seq<nat>) {
    forall i, j :: 0 <= i < j < |numbers| ==> numbers[i] < numbers[j]
  }

  predicate AllAbove(numbers: seq<nat>, floor: int) {
    forall i :: 0 <= i < |numbers| ==> floor < numbers[i]
  }

  function ClientFloor(w: World, s: SessionId): int {
    if s in w.m.sessions then w.m.sessions[s].clientSeq else -1
  }

  function ServerFloor(w: World, s: SessionId): int {
    if s in w.m.sessions then w.m.sessions[s].serverSeq else -1
  }

  /** Across authentication, traffic and any number of resumes, the client numbers that are accepted
      only go up. */
  lemma {:induction false} AcceptedSeqsIncrease(w: World, events: seq<Event>, s: SessionId)
    requires WorldInvariant(w) && ProperRun(w, events)
    ensures StrictlyIncreasing(AcceptedSeqs(w, events, s)) && AllAbove(AcceptedSeqs(w, events, s), ClientFloor(w, s))
    decreases |events|
  {
    if events != [] {
      var w' := Step(w, events[0]);
      StepKeepsInvariant(w, events[0]);
      AcceptedSeqsIncrease(w', events[1..], s);
      if s in w.m.sessions && s !in w'.m.sessions {
        GoneHasNoTraffic(w', events[1..], s);
      }
    }
  }

  /** Likewise for the server numbers that are handed out. */
  lemma {:induction false} ServedSeqsIncrease(w: World, events: seq<Event>, s: SessionId)
    requires WorldInvariant(w) && ProperRun(w, events)
    ensures StrictlyIncreasing(ServedSeqs(w, events, s)) && AllAbove(ServedSeqs(w, events, s), ServerFloor(w, s))
    decreases |events|
  {
    if events != [] {
      var w' := Step(w, events[0]);
      StepKeepsInvariant(w, events[0]);
      ServedSeqsIncrease(w', events[1..], s);
      if s in w.m.sessions && s !in w'.m.sessions {
        GoneHasNoTraffic(w', events[1..], s);
      }
    }
  }

  lemma {:induction false} GoneHasNoTraffic(w: World, events: seq<Event>, s: SessionId)
    requires WorldInvariant(w) && ProperRun(w, events)
    requires s in w.sessionIds && s !in w.m.sessions
    ensures AcceptedSeqs(w, events, s) == [] && ServedSeqs(w, events, s) == []
    decreases |events|
  {
    if events != [] {
      StepKeepsInvariant(w, events[0]);
      GoneHasNoTraffic(Step(w, events[0]), events[1..], s);
    }
  }

  // Connection 0 is authenticated, closed and authenticated again, which leaves session 0 waiting to be resumed
  // from it. Connection 2 belongs to a session of its own.

  const SOMEONE := Actor(0, {(0, 0)})
  const HANDOVER := ResumeInput(0, 0, 2, SOMEONE, 0, 0, 0)
  const REUSED_CONNECTION := [
    AuthenticateEvent(0, 0, SOMEONE, 0, 0), RemoveEvent(0), AuthenticateEvent(1, 0, SOMEONE, 0, 0),
    AuthenticateEvent(2, 2, SOMEONE, 0, 0)]

  function Waiting(phase: Phase): Session {
    Session(0, 0, SOMEONE, phase, 0, 0)
  }

  function Reused(): Manager {
    Manager(map[0 := Waiting(Disconnected), 1 := Waiting(Active), 2 := Waiting(Active).(connectionId := 2)],
            map[0 := 1, 2 := 2])
  }

  lemma ReusedConnectionIsPaired()
    ensures Run(NEW_WORLD, REUSED_CONNECTION).m == Reused()
    ensures Paired(Run(NEW_WORLD, REUSED_CONNECTION).m) && !Invariant(Run(NEW_WORLD, REUSED_CONNECTION).m)
  {
    var w1 := Step(NEW_WORLD, REUSED_CONNECTION[0]);
    var w2 := Step(w1, REUSED_CONNECTION[1]);
    var w3 := Step(w2, REUSED_CONNECTION[2]);
    var w4 := Step(w3, REUSED_CONNECTION[3]);
    assert w1.m == Manager(map[0 := Waiting(Active)], map[0 := 0]);
    assert w2.m == Manager(map[0 := Waiting(Disconnected)], map[]);
    assert w3.m == Manager(map[0 := Waiting(Disconnected), 1 := Waiting(Active)], map[0 := 1]);
    assert REUSED_CONNECTION[3..][1..] == [] && REUSED_CONNECTION[2..][1..] == REUSED_CONNECTION[3..];
    assert REUSED_CONNECTION[1..][1..] == REUSED_CONNECTION[2..];
    assert Run(w3, REUSED_CONNECTION[3..]) == w4;
    assert Run(w2, REUSED_CONNECTION[2..]) == w4;
    assert Run(w1, REUSED_CONNECTION[1..]) == w4;
    assert w4.m.sessions[0].connectionId in w4.m.connections;
  }

  /** A session stays active, and is counted, with no connection left that leads to it. */
  ghost predicate Lost(m: Manager, s: SessionId) {
    && s in m.sessions && m.sessions[s].phase == Active && s !in m.connections.Values
    && |ActiveSessions(m)| == |m.connections| + 1
  }

  lemma EndLosesOther()
    ensures Collides(Reused(), EndEvent(0)) && Lost(AfterEnd(Reused(), 0), 1)
  {
    var m := AfterEnd(Reused(), 0);
    assert m.connections == map[2 := 2];
    assert ActiveSessions(m) == {1, 2};
  }

  lemma ResumeLosesOther()
    ensures Collides(Reused(), ResumeEvent(HANDOVER)) && Lost(AfterResume(Reused(), HANDOVER), 1)
  {
    var m := AfterResume(Reused(), HANDOVER);
    assert m.connections == map[2 := 0];
    assert ActiveSessions(m) == {0, 1};
  }

  /** Ending the waiting session, or resuming it elsewhere, unmaps the connection of the active session 1. */
  lemma ReusedConnectionIsLost(e: Event)
    requires e == EndEvent(0) || e == ResumeEvent(HANDOVER)
    ensures Collides(Run(NEW_WORLD, REUSED_CONNECTION).m, e)
    ensures Lost(Step(Run(NEW_WORLD, REUSED_CONNECTION), e).m, 1)
  {
    ReusedConnectionIsPaired();
    EndLosesOther();
    ResumeLosesOther();
  }
}
