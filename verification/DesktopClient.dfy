/** The desktop client's side of a connection (apps/desktop/src/protocol/desktopRealtimeSession.ts:212-417 and
    the message builders of apps/desktop/src/protocol/realtimeClient.ts:64-90). */
module DesktopClient {
  import opened Ids
  import opened Numbers
  import opened Wrappers
  import opened AudioBuffer
  import opened FrameAssembler

  datatype Message = Message(seqNo: nat, sessionId: Option<SessionId>, body: Body)

  datatype Frame = Text(message: Message) | Binary(bytes: seq<Byte>)

  datatype Status = Connecting | Streaming | Degraded | Reconnecting | Closed | Failed

  /** `sent` is everything handed to the transport. */
  datatype Client = Client(status: Status, nextSeq: nat, lastClientSeq: nat, sessionId: Option<SessionId>,
                           maxBufferMs: nat, maxBufferBytes: nat, buffer: Buffer, sent: seq<Frame>)

  function SentJson(c: Client, sessionId: Option<SessionId>, body: Body): Client {
    c.(nextSeq := c.nextSeq + 1,
       lastClientSeq := Max(c.lastClientSeq, c.nextSeq),
       sent := c.sent + [Text(Message(c.nextSeq, sessionId, body))])
  }

  function SentBinary(c: Client, bytes: seq<Byte>): Client {
    c.(sent := c.sent + [Binary(bytes)])
  }

  function SentGaps(c: Client, gaps: seq<Gap>): Client
    decreases |gaps|
  {
    if gaps == [] then c else SentGaps(SentJson(c, c.sessionId, AudioGap(gaps[0])), gaps[1..])
  }

  function SentChunks(c: Client, chunks: seq<Chunk>): Client
    decreases |chunks|
  {
    if chunks == [] then c
    else SentChunks(SentBinary(SentJson(c, c.sessionId, ChunkMeta(chunks[0].meta)), chunks[0].bytes), chunks[1..])
  }

  function Flushed(c: Client): Client {
    if c.sessionId.None? then c
    else SentChunks(SentGaps(c.(buffer := Drained(c.buffer)), c.buffer.gaps), c.buffer.chunks)
  }

  function Opened(c: Client): Client {
    SentJson(c, None, AuthHello)
  }

  function Accepted(c: Client, sessionId: SessionId, workspaceId: nat, policyBufferMs: nat): Client {
    var limited := Limited(c.buffer, Min(c.maxBufferMs, policyBufferMs), c.maxBufferBytes);
    var named := c.(buffer := limited, sessionId := Some(sessionId));
    SentJson(named, Some(sessionId), SessionStart(workspaceId)).(status := Streaming)
  }

  function ChunkSent(c: Client, chunk: Chunk): Client {
    var queued := c.(buffer := Enqueued(c.buffer, chunk));
    if c.status == Streaming then Flushed(queued) else queued
  }

  function GapSent(c: Client, gap: Gap): Client {
    var queued := c.(buffer := GapEnqueued(c.buffer, gap));
    if c.status == Streaming then Flushed(queued) else queued
  }

  function SuggestionRequested(c: Client, requestId: nat): Client {
    if c.sessionId.None? then c else SentJson(c, c.sessionId, SuggestionRequest(requestId))
  }

  class DesktopRealtimeSessionClient {
    var status: Status
    var nextSeq: nat
    var lastClientSeq: nat
    var sessionId: Option<SessionId>
    var sent: seq<Frame>
    const maxBufferMs: nat
    const maxBufferBytes: nat
    const audioBuffer: InMemoryAudioBuffer

    function View(): Client
      reads this, audioBuffer
    {
      Client(status, nextSeq, lastClientSeq, sessionId, maxBufferMs, maxBufferBytes, audioBuffer.View(), sent)
    }

    /** A client that has just been asked to start a session; the audio buffer starts empty. */
    constructor (maxBufferMs: nat, maxBufferBytes: nat)
      ensures fresh(audioBuffer)
      ensures View() == NewClient(maxBufferMs, maxBufferBytes)
    {
      status, nextSeq, lastClientSeq, sessionId, sent := Connecting, 1, 0, None, [];
      this.maxBufferMs, this.maxBufferBytes := maxBufferMs, maxBufferBytes;
      audioBuffer := new InMemoryAudioBuffer(maxBufferMs, maxBufferBytes);
    }

    method SendJson(session: Option<SessionId>, body: Body)
      modifies this
      ensures View() == SentJson(old(View()), session, body)
    {
      var message := Message(nextSeq, session, body);
      nextSeq := nextSeq + 1;
      lastClientSeq := Max(lastClientSeq, message.seqNo);
      sent := sent + [Text(message)];
    }

    method HandleOpen()
      modifies this
      ensures View() == Opened(old(View()))
    {
      SendJson(None, AuthHello);
    }

    /** The branch taken when no resume was requested. */
    method HandleAuthAccepted(session: SessionId, workspaceId: nat, policyBufferMs: nat)
      modifies this, audioBuffer
      ensures View() == Accepted(old(View()), session, workspaceId, policyBufferMs)
    {
      audioBuffer.SetLimits(Min(maxBufferMs, policyBufferMs), maxBufferBytes);
      sessionId := Some(session);
      SendJson(sessionId, SessionStart(workspaceId));
      status := Streaming;
    }

    method SendAudioChunk(chunk: Chunk)
      modifies this, audioBuffer
      ensures View() == ChunkSent(old(View()), chunk)
    {
      audioBuffer.Enqueue(chunk);
      if status == Streaming {
        FlushBufferedAudio();
      }
    }

    method SendAudioGap(gap: Gap)
      modifies this, audioBuffer
      ensures View() == GapSent(old(View()), gap)
    {
      audioBuffer.EnqueueGap(gap);
      if status == Streaming {
        FlushBufferedAudio();
      }
    }

    method RequestLiveSuggestion(requestId: nat) returns (accepted: bool)
      modifies this
      ensures accepted == old(sessionId).Some?
      ensures View() == SuggestionRequested(old(View()), requestId)
    {
      if sessionId.None? {
        return false;
      }
      SendJson(sessionId, SuggestionRequest(requestId));
      accepted := true;
    }

    method FlushBufferedAudio()
      modifies this, audioBuffer
      ensures View() == Flushed(old(View()))
    {
      if sessionId.None? {
        return;
      }
      var gaps := audioBuffer.DrainGaps();
      ghost var drainedFirst := View();
      for i := 0 to |gaps|
        invariant audioBuffer.View() == old(audioBuffer.View()).(gaps := [])
        invariant SentGaps(View(), gaps[i..]) == SentGaps(drainedFirst, gaps)
        invariant sessionId == old(sessionId) && status == old(status)
      {
        assert gaps[i..][1..] == gaps[i + 1..];
        SendJson(sessionId, AudioGap(gaps[i]));
      }
      var chunks := audioBuffer.DrainChunks();
      ghost var drained := View();
      GapsIgnoreBuffer(drainedFirst, gaps, old(audioBuffer.View()).(gaps := [], chunks := []));
      for i := 0 to |chunks|
        invariant audioBuffer.View() == Drained(old(audioBuffer.View()))
        invariant SentChunks(View(), chunks[i..]) == SentChunks(drained, chunks)
        invariant sessionId == old(sessionId) && status == old(status)
      {
        assert chunks[i..][1..] == chunks[i + 1..];
        SendJson(sessionId, ChunkMeta(chunks[i].meta));
        sent := sent + [Binary(chunks[i].bytes)];
      }
    }
  }

  function NewClient(maxBufferMs: nat, maxBufferBytes: nat): Client {
    Client(Connecting, 1, 0, None, maxBufferMs, maxBufferBytes, Buffer([], [], maxBufferMs, maxBufferBytes), [])
  }

  lemma {:induction false} GapsIgnoreBuffer(c: Client, gaps: seq<Gap>, b: Buffer)
    ensures SentGaps(c, gaps).(buffer := b) == SentGaps(c.(buffer := b), gaps)
    decreases |gaps|
  {
    if gaps != [] {
      GapsIgnoreBuffer(SentJson(c, c.sessionId, AudioGap(gaps[0])), gaps[1..], b);
    }
  }
}
