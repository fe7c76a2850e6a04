/** The server's handling of one connection's frames up to the point where audio and requests are handed on
    (services/realtime/src/ws-server.ts:593-745, 751-839). */
module ServerConnection {
  import opened Ids
  import opened Wrappers
  import opened AudioBuffer
  import opened FrameAssembler
  import Sessions
  import opened DesktopClient

  datatype ServerError =
    | MustAuthenticate
    | AuthFailed
    | SessionNotFound
    | SessionMismatch
    | SequenceNotMonotonic
    | WorkspaceMismatch
    | FrameFailure(error: FrameError)

  /** What a valid token stands for, and the id drawn for a new session. */
  datatype Grant = Grant(actor: Sessions.Actor, workspaceId: WorkspaceId, newSessionId: SessionId)

  /** `heard` is the audio handed on; `errors` the errors reported to the client. */
  datatype Server = Server(manager: Sessions.Manager, connectionId: ConnectionId, grant: Grant,
                           authenticated: bool, assembler: Assembler, heard: seq<Item>, errors: seq<ServerError>)

  function Fail(s: Server, e: ServerError): Server {
    s.(errors := s.errors + [e])
  }

  function Assembled(s: Server, assembler: Assembler, event: FrameEvent): Server {
    var next := s.(assembler := assembler);
    match event
    case ErrorEvent(e) => Fail(next, FrameFailure(e))
    case ChunkEvent(c) => next.(heard := s.heard + [ChunkItem(c)])
    case GapEvent(g) => next.(heard := s.heard + [GapItem(g)])
    case _ => next
  }

  function Authenticated(s: Server, seqNo: nat): Server {
    if Sessions.CanAuthenticate(s.manager, s.connectionId, s.grant.actor, s.grant.workspaceId)
    then
      var m := Sessions.AfterAuthenticate(s.manager, s.grant.newSessionId, s.connectionId, s.grant.actor,
                                          s.grant.workspaceId, seqNo);
      s.(manager := Sessions.AfterServe(m, s.grant.newSessionId), authenticated := true)
    else Fail(s, AuthFailed)
  }

  function OnMessage(s: Server, m: Message): Server {
    if !s.authenticated then
      if m.body.AuthHello? then Authenticated(s, m.seqNo) else Fail(s, MustAuthenticate)
    else if s.connectionId !in s.manager.connections
         || s.manager.connections[s.connectionId] !in s.manager.sessions then Fail(s, SessionNotFound)
    else
      var id := s.manager.connections[s.connectionId];
      if m.sessionId != Some(id) then Fail(s, SessionMismatch)
      else if !Sessions.Advances(s.manager, id, m.seqNo) then Fail(s, SequenceNotMonotonic)
      else
        var next := s.(manager := Sessions.AfterAdvance(s.manager, id, m.seqNo));
        if m.body.SessionStart? && m.body.workspaceId != s.manager.sessions[id].workspaceId
        then Fail(next, WorkspaceMismatch)
        else
          var (assembler, event) := OnJson(s.assembler, Some(m.body));
          Assembled(next, assembler, event)
  }

  function OnFrame(s: Server, f: Frame): Server {
    match f
    case Text(m) => OnMessage(s, m)
    case Binary(bytes) =>
      if !s.authenticated then Fail(s, MustAuthenticate)
      else
        var (assembler, event) := OnBinary(s.assembler, bytes);
        if event.ChunkEvent? && (s.connectionId !in s.manager.connections
                                 || s.manager.connections[s.connectionId] !in s.manager.sessions)
        then Fail(s.(assembler := assembler), SessionNotFound)
        else Assembled(s, assembler, event)
  }

  function Received(s: Server, frames: seq<Frame>): Server {
    if frames == [] then s else OnFrame(Received(s, frames[..|frames| - 1]), frames[|frames| - 1])
  }

  class RealtimeConnection {
    const connectionId: ConnectionId
    const grant: Grant
    const manager: Sessions.SessionManager
    const assembler: RealtimeFrameAssembler
    var authenticated: bool
    var heard: seq<Item>
    var errors: seq<ServerError>

    function View(): Server
      reads this, manager, assembler
    {
      Server(manager.View(), connectionId, grant, authenticated, assembler.View(), heard, errors)
    }

    /** A new connection to a server whose session manager is shared. */
    constructor (connectionId: ConnectionId, grant: Grant, manager: Sessions.SessionManager)
      ensures this.manager == manager && fresh(assembler)
      ensures View() == NewServer(manager.View(), connectionId, grant)
    {
      this.connectionId, this.grant, this.manager := connectionId, grant, manager;
      assembler := new RealtimeFrameAssembler();
      authenticated, heard, errors := false, [], [];
    }

    method HandOn(event: FrameEvent)
      modifies this
      ensures View() == Assembled(old(View()), assembler.View(), event)
    {
      match event {
        case ErrorEvent(e) => errors := errors + [FrameFailure(e)];
        case ChunkEvent(c) => heard := heard + [ChunkItem(c)];
        case GapEvent(g) => heard := heard + [GapItem(g)];
        case _ =>
      }
    }

    method OnTextFrame(message: Message)
      modifies this, manager, assembler
      ensures View() == OnMessage(old(View()), message)
    {
      if !authenticated {
        if message.body.AuthHello? {
          var accepted := manager.Authenticate(grant.newSessionId, connectionId, grant.actor, grant.workspaceId,
                                               message.seqNo);
          if !accepted {
            errors := errors + [AuthFailed];
            return;
          }
          authenticated := true;
          var _ := manager.NextServerSeq(grant.newSessionId);
        } else {
          errors := errors + [MustAuthenticate];
        }
        return;
      }
      if connectionId !in manager.connections || manager.connections[connectionId] !in manager.sessions {
        errors := errors + [SessionNotFound];
        return;
      }
      var id := manager.connections[connectionId];
      if message.sessionId != Some(id) {
        errors := errors + [SessionMismatch];
        return;
      }
      var advanced := manager.AdvanceClientSeq(id, message.seqNo);
      if !advanced {
        errors := errors + [SequenceNotMonotonic];
        return;
      }
      if message.body.SessionStart? && message.body.workspaceId != manager.sessions[id].workspaceId {
        errors := errors + [WorkspaceMismatch];
        return;
      }
      var event := assembler.HandleJsonMessage(Some(message.body));
      HandOn(event);
    }

    method OnBinaryFrame(bytes: seq<Byte>)
      modifies this, manager, assembler
      ensures View() == OnFrame(old(View()), Binary(bytes))
    {
      if !authenticated {
        errors := errors + [MustAuthenticate];
        return;
      }
      var event := assembler.HandleBinaryFrame(bytes);
      if event.ChunkEvent? && (connectionId !in manager.connections
                               || manager.connections[connectionId] !in manager.sessions) {
        errors := errors + [SessionNotFound];
        return;
      }
      HandOn(event);
    }
  }

  function NewServer(manager: Sessions.Manager, connectionId: ConnectionId, grant: Grant): Server {
    Server(manager, connectionId, grant, false, FRESH, [], [])
  }

  // The rest of the server runs at the same time: other connections, and messages sent on this one.

  /** What a connection sees of the session manager. */
  datatype Own = Unmapped | Dangling | Mine(sessionId: SessionId, phase: Sessions.Phase, clientSeq: nat,
                                            workspaceId: nat)

  function Sees(m: Sessions.Manager, connectionId: ConnectionId): Own {
    if connectionId !in m.connections then Unmapped
    else if m.connections[connectionId] !in m.sessions then Dangling
    else
      var session := m.sessions[m.connections[connectionId]];
      Mine(m.connections[connectionId], session.phase, session.clientSeq, session.workspaceId)
  }

  /** A frame of this connection arrives, or the session manager changes under it. */
  datatype Arrival = FrameArrives(frame: Frame) | Elsewhere(manager: Sessions.Manager)

  function Arrived(s: Server, arrivals: seq<Arrival>): Server {
    if arrivals == [] then s
    else
      var before := Arrived(s, arrivals[..|arrivals| - 1]);
      match arrivals[|arrivals| - 1]
      case FrameArrives(f) => OnFrame(before, f)
      case Elsewhere(m) => before.(manager := m)
  }

  /** What happens elsewhere does not end, resume or rename this connection's session. */
  predicate Undisturbed(s: Server, arrivals: seq<Arrival>) {
    arrivals == [] ||
    var before := Arrived(s, arrivals[..|arrivals| - 1]);
    && Undisturbed(s, arrivals[..|arrivals| - 1])
    && match arrivals[|arrivals| - 1]
       case FrameArrives(_) => true
       case Elsewhere(m) => Sees(m, s.connectionId) == Sees(before.manager, s.connectionId)
  }

  function FramesOf(arrivals: seq<Arrival>): seq<Frame> {
    if arrivals == [] then []
    else if arrivals[|arrivals| - 1].FrameArrives?
    then FramesOf(arrivals[..|arrivals| - 1]) + [arrivals[|arrivals| - 1].frame]
    else FramesOf(arrivals[..|arrivals| - 1])
  }

  predicate Alike(s: Server, t: Server) {
    && t.(manager := s.manager) == s
    && Sees(s.manager, s.connectionId) == Sees(t.manager, s.connectionId)
  }

  lemma FrameKeepsAlike(s: Server, t: Server, f: Frame)
    requires Alike(s, t)
    ensures Alike(OnFrame(s, f), OnFrame(t, f))
  {
    if f.Text? {
      MessageKeepsAlike(s, t, f.message);
    }
  }

  lemma MessageKeepsAlike(s: Server, t: Server, m: Message)
    requires Alike(s, t)
    ensures Alike(OnMessage(s, m), OnMessage(t, m))
  {
    if s.authenticated && Sees(s.manager, s.connectionId).Mine? {
      var id := s.manager.connections[s.connectionId];
      assert Sessions.Advances(s.manager, id, m.seqNo) == Sessions.Advances(t.manager, id, m.seqNo);
    }
  }

  lemma {:induction false} OnFrameKeepsIdentity(s: Server, arrivals: seq<Arrival>)
    ensures Arrived(s, arrivals).connectionId == s.connectionId
  {
    if arrivals != [] {
      OnFrameKeepsIdentity(s, arrivals[..|arrivals| - 1]);
    }
  }

  /** So a connection hears and reports the same whatever happens elsewhere, and whenever. */
  lemma {:induction false} ElsewhereIsInvisible(s: Server, arrivals: seq<Arrival>)
    requires Undisturbed(s, arrivals)
    ensures Alike(Arrived(s, arrivals), Received(s, FramesOf(arrivals)))
  {
    if arrivals != [] {
      var before, last := arrivals[..|arrivals| - 1], arrivals[|arrivals| - 1];
      ElsewhereIsInvisible(s, before);
      OnFrameKeepsIdentity(s, before);
      if last.FrameArrives? {
        FrameKeepsAlike(Arrived(s, before), Received(s, FramesOf(before)), last.frame);
        assert (FramesOf(before) + [last.frame])[..|FramesOf(before)|] == FramesOf(before);
      }
    }
  }

  predicate Extends(s: Server, t: Server) {
    s.errors <= t.errors && s.heard <= t.heard
  }

  lemma FrameExtends(s: Server, f: Frame)
    ensures Extends(s, OnFrame(s, f))
  {
  }

  lemma {:induction false} FramesExtend(s: Server, frames: seq<Frame>, k: nat)
    requires k <= |frames|
    ensures Extends(Received(s, frames[..k]), Received(s, frames))
    decreases |frames|
  {
    if k < |frames| {
      var before := frames[..|frames| - 1];
      assert frames[..k] == before[..k];
      FramesExtend(s, before, k);
      FrameExtends(Received(s, before), frames[|frames| - 1]);
    } else {
      assert frames[..k] == frames;
    }
  }

  lemma CutOnlyShortens(s: Server, arrivals: seq<Arrival>, frames: seq<Frame>)
    requires Undisturbed(s, arrivals) && FramesOf(arrivals) <= frames
    ensures Extends(Arrived(s, arrivals), Received(s, frames))
  {
    ElsewhereIsInvisible(s, arrivals);
    FramesExtend(s, frames, |FramesOf(arrivals)|);
    assert FramesOf(arrivals) == frames[..|FramesOf(arrivals)|];
  }
}
