/** What one connection can make the server hear, whatever frames it sends
    (services/realtime/src/ws-server.ts:593-839). */
module ConnectionRules {
  import opened Ids
  import opened Wrappers
  import opened AudioBuffer
  import opened FrameAssembler
  import Sessions
  import SessionRules
  import opened DesktopClient
  import opened ServerConnection

  predicate KnowsSession(s: Server) {
    s.connectionId in s.manager.connections && s.manager.connections[s.connectionId] in s.manager.sessions
  }

  function OwnSession(s: Server): Sessions.Session
    requires KnowsSession(s)
  {
    s.manager.sessions[s.manager.connections[s.connectionId]]
  }

  /** What is wrong with a message, the first objection first. */
  function Objection(s: Server, m: Message): Option<ServerError> {
    if !s.authenticated then
      if !m.body.AuthHello? then Some(MustAuthenticate)
      else if (s.grant.actor.userId, s.grant.workspaceId) !in s.grant.actor.memberships
              || s.connectionId in s.manager.connections then Some(AuthFailed)
      else None
    else if !KnowsSession(s) then Some(SessionNotFound)
    else if m.sessionId != Some(s.manager.connections[s.connectionId]) then Some(SessionMismatch)
    else if OwnSession(s).phase != Sessions.Active || m.seqNo <= OwnSession(s).clientSeq
    then Some(SequenceNotMonotonic)
    else if m.body.SessionStart? && m.body.workspaceId != OwnSession(s).workspaceId then Some(WorkspaceMismatch)
    else None
  }

  /** A message that is objected to adds that one error. It is not heard, does not reach the assembler, and leaves the
      session manager alone, but for the number of a message with the wrong workspace. */
  lemma ObjectionIsReported(s: Server, m: Message)
    requires Objection(s, m).Some?
    ensures OnMessage(s, m).errors == s.errors + [Objection(s, m).value]
    ensures OnMessage(s, m).heard == s.heard && OnMessage(s, m).assembler == s.assembler
    ensures OnMessage(s, m).authenticated == s.authenticated
    ensures Objection(s, m).value != WorkspaceMismatch ==> OnMessage(s, m).manager == s.manager
  {
  }

  /** A message without objection is taken: the first makes the session, whose first server number the answer takes, and
      every later one moves its number and goes to the assembler, whose answer is handed on. */
  lemma MessageIsTaken(s: Server, m: Message)
    requires Objection(s, m).None?
    ensures var s' := OnMessage(s, m);
      if !s.authenticated then
        && s' == s.(manager := s'.manager, authenticated := true)
        && s'.manager.connections == s.manager.connections[s.connectionId := s.grant.newSessionId]
        && s'.manager.sessions
           == s.manager.sessions[s.grant.newSessionId := Sessions.Session(s.connectionId, s.grant.workspaceId,
                                                                          s.grant.actor, Sessions.Active, m.seqNo, 1)]
      else
        var id := s.manager.connections[s.connectionId];
        && s' == Assembled(s.(manager := s'.manager), OnJson(s.assembler, Some(m.body)).0,
                           OnJson(s.assembler, Some(m.body)).1)
        && s'.manager == s.manager.(sessions := s.manager.sessions[id := OwnSession(s).(clientSeq := m.seqNo)])
  {
  }

  /** Bytes are heard exactly if the connection is authenticated and has a session, and the assembler makes a chunk of
      them. */
  lemma BytesAreHeardIff(s: Server, bytes: seq<Byte>)
    ensures var s', event := OnFrame(s, Binary(bytes)), OnBinary(s.assembler, bytes).1;
      && s'.manager == s.manager
      && s'.heard == s.heard + (if s.authenticated && KnowsSession(s) && event.ChunkEvent?
                                then [ChunkItem(event.chunk)] else [])
      && s'.errors == s.errors + (if !s.authenticated then [MustAuthenticate]
                                  else if event.ErrorEvent? then [FrameFailure(event.error)]
                                  else if !KnowsSession(s) then [SessionNotFound] else [])
  {
  }

  // Any frames at all.

  predicate Proper(s: Server) {
    && (s.heard != [] || s.assembler != FRESH ==> s.authenticated)
    && (s.authenticated ==> (s.grant.actor.userId, s.grant.workspaceId) in s.grant.actor.memberships)
    && SessionRules.MembersOnly(s.manager)
  }

  lemma FrameKeepsProper(s: Server, f: Frame)
    requires Proper(s)
    ensures Proper(OnFrame(s, f)) && OnFrame(s, f).grant == s.grant
  {
    if f.Text? {
      if Objection(s, f.message).Some? {
        ObjectionIsReported(s, f.message);
      } else {
        MessageIsTaken(s, f.message);
      }
    }
  }

  /** Whatever a connection sends, nothing is heard of it before it is authenticated, and it is authenticated only for a
      user who is a member of the workspace. */
  lemma {:induction false} NothingIsHeardOfStrangers(s: Server, frames: seq<Frame>)
    requires Proper(s)
    ensures Proper(Received(s, frames)) && Received(s, frames).grant == s.grant
    ensures Received(s, frames).heard != [] ==>
              (s.grant.actor.userId, s.grant.workspaceId) in s.grant.actor.memberships
  {
    if frames != [] {
      NothingIsHeardOfStrangers(s, frames[..|frames| - 1]);
      FrameKeepsProper(Received(s, frames[..|frames| - 1]), frames[|frames| - 1]);
    }
  }

  /** The numbers of the messages that were taken. */
  function TakenNumbers(s: Server, frames: seq<Frame>): seq<nat> {
    if frames == [] then []
    else
      var before, last := frames[..|frames| - 1], frames[|frames| - 1];
      if last.Text? && Objection(Received(s, before), last.message).None?
      then TakenNumbers(s, before) + [last.message.seqNo] else TakenNumbers(s, before)
  }

  predicate Numbered(s: Server, numbers: seq<nat>) {
    && (s.authenticated ==> KnowsSession(s))
    && Sessions.StrictlyIncreasing(numbers)
    && (numbers != [] ==> s.authenticated && numbers[|numbers| - 1] <= OwnSession(s).clientSeq)
  }

  lemma MessageKeepsNumbered(s: Server, m: Message, numbers: seq<nat>)
    requires Numbered(s, numbers)
    ensures Numbered(OnMessage(s, m), if Objection(s, m).None? then numbers + [m.seqNo] else numbers)
  {
    if Objection(s, m).Some? {
      ObjectionIsReported(s, m);
    } else {
      MessageIsTaken(s, m);
    }
  }

  /** On a new connection, whatever is sent, messages are taken with strictly increasing numbers: none is ever taken
      twice, and none that comes late. */
  lemma {:induction false} TakenNumbersIncrease(s: Server, frames: seq<Frame>)
    requires !s.authenticated
    ensures Numbered(Received(s, frames), TakenNumbers(s, frames))
  {
    if frames != [] {
      var before, last := frames[..|frames| - 1], frames[|frames| - 1];
      TakenNumbersIncrease(s, before);
      if last.Text? {
        MessageKeepsNumbered(Received(s, before), last.message, TakenNumbers(s, before));
      }
    }
  }

  /** The audio handed on so far is continuous, and the assembler knows where it goes on. */
  predicate Continues(a: Assembler, chunks: seq<Chunk>) {
    && KnowsAll(a.last, chunks) && Continuous(chunks)
    && (a.pending.Some? ==> Follows(a.last, a.pending.value))
  }

  predicate HearsContinuously(s: Server) {
    Continues(s.assembler, ChunksOf(s.heard)) && (s.authenticated ==> KnowsSession(s))
  }

  lemma ItemHeard(heard: seq<Item>, item: Item)
    ensures ChunksOf(heard + [item]) == if item.ChunkItem? then ChunksOf(heard) + [item.chunk] else ChunksOf(heard)
  {
    assert (heard + [item])[..|heard|] == heard;
  }

  lemma JsonContinues(a: Assembler, json: Option<Body>, chunks: seq<Chunk>)
    requires Continues(a, chunks)
    ensures Continues(OnJson(a, json).0, chunks) && !OnJson(a, json).1.ChunkEvent?
  {
  }

  lemma NoChunkIsHeard(s: Server, a: Assembler, event: FrameEvent)
    requires !event.ChunkEvent?
    ensures ChunksOf(Assembled(s, a, event).heard) == ChunksOf(s.heard) && Assembled(s, a, event).assembler == a
  {
    if event.GapEvent? {
      ItemHeard(s.heard, GapItem(event.gap));
    }
  }

  lemma MessageHearsContinuously(s: Server, m: Message)
    requires HearsContinuously(s)
    ensures HearsContinuously(OnMessage(s, m))
  {
    if Objection(s, m).Some? {
      ObjectionIsReported(s, m);
    } else {
      MessageIsTaken(s, m);
      var (a, event) := OnJson(s.assembler, Some(m.body));
      JsonContinues(s.assembler, Some(m.body), ChunksOf(s.heard));
      NoChunkIsHeard(s.(manager := OnMessage(s, m).manager), a, event);
    }
  }

  lemma BytesHeardContinuously(s: Server, bytes: seq<Byte>)
    requires HearsContinuously(s)
    ensures HearsContinuously(OnFrame(s, Binary(bytes)))
  {
    var event := OnBinary(s.assembler, bytes).1;
    if s.authenticated && event.ChunkEvent? {
      ItemHeard(s.heard, ChunkItem(event.chunk));
      ContinuousSnoc(s.assembler.last, ChunksOf(s.heard), event.chunk);
    }
  }

  lemma FrameHearsContinuously(s: Server, f: Frame)
    requires HearsContinuously(s)
    ensures HearsContinuously(OnFrame(s, f))
  {
    match f
    case Text(m) => MessageHearsContinuously(s, m);
    case Binary(bytes) => BytesHeardContinuously(s, bytes);
  }

  /** And the audio handed on is always continuous. */
  lemma {:induction false} HeardStaysContinuous(s: Server, frames: seq<Frame>)
    requires HearsContinuously(s)
    ensures HearsContinuously(Received(s, frames))
  {
    if frames != [] {
      HeardStaysContinuous(s, frames[..|frames| - 1]);
      FrameHearsContinuously(Received(s, frames[..|frames| - 1]), frames[|frames| - 1]);
    }
  }

  lemma NewConnectionHearsContinuously(manager: Sessions.Manager, c: ConnectionId, grant: Grant, frames: seq<Frame>)
    ensures Continuous(ChunksOf(Received(NewServer(manager, c, grant), frames).heard))
  {
    HeardStaysContinuous(NewServer(manager, c, grant), frames);
  }
}
