/** A first connection end to end: the desktop client prints audio as numbered frames, and the server's
    sequence check and frame assembler read them back. */
module RoundTrip {
  import opened Numbers
  import opened Ids
  import opened Wrappers
  import opened AudioBuffer
  import opened FrameAssembler
  import opened DesktopClient
  import opened ServerConnection
  import Sessions
  import opened Sequences

  /** What the client is configured with and what the server tells it when it accepts. */
  datatype Setting = Setting(sessionId: SessionId, workspaceId: nat, policyBufferMs: nat,
                             maxBufferMs: nat, maxBufferBytes: nat)

  datatype Action =
    | Open
    | Accept
    | SendChunk(chunk: Chunk)
    | SendGap(gap: Gap)
    | Ask(requestId: nat)
    | Report(status: Status)

  function Act(x: Setting, c: Client, a: Action): Client {
    match a
    case Open => Opened(c)
    case Accept => Accepted(c, x.sessionId, x.workspaceId, x.policyBufferMs)
    case SendChunk(chunk) => ChunkSent(c, chunk)
    case SendGap(gap) => GapSent(c, gap)
    case Ask(id) => SuggestionRequested(c, id)
    case Report(status) => c.(status := status)
  }

  function ActAll(x: Setting, actions: seq<Action>): Client {
    if actions == [] then NewClient(x.maxBufferMs, x.maxBufferBytes)
    else Act(x, ActAll(x, actions[..|actions| - 1]), actions[|actions| - 1])
  }

  /** The connection opens once, is accepted once after that, and a report never says that it streams. */
  predicate CanHappen(c: Client, a: Action) {
    match a
    case Open => c.nextSeq == 1
    case Accept => c.nextSeq == 2 && c.sessionId.None?
    case Report(status) => status != Streaming
    case _ => true
  }

  predicate FirstConnection(x: Setting, actions: seq<Action>) {
    actions == [] ||
    (FirstConnection(x, actions[..|actions| - 1])
     && CanHappen(ActAll(x, actions[..|actions| - 1]), actions[|actions| - 1]))
  }

  // What the schedule means, without numbers, frames or a server.

  datatype Letter = Hello | Start(workspaceId: nat) | Request(requestId: nat) | Audio(item: Item)

  datatype Plain = Plain(buffer: Buffer, accepted: bool, streaming: bool, letters: seq<Letter>)

  function GapItems(gaps: seq<Gap>): seq<Item> {
    if gaps == [] then [] else [GapItem(gaps[0])] + GapItems(gaps[1..])
  }

  function ChunkItems(chunks: seq<Chunk>): seq<Item> {
    if chunks == [] then [] else [ChunkItem(chunks[0])] + ChunkItems(chunks[1..])
  }

  function Letters(items: seq<Item>): seq<Letter> {
    if items == [] then [] else [Audio(items[0])] + Letters(items[1..])
  }

  /** The pending gaps go out before the pending chunks. */
  function PlainFlush(p: Plain): Plain {
    p.(buffer := Drained(p.buffer),
       letters := p.letters + Letters(GapItems(p.buffer.gaps) + ChunkItems(p.buffer.chunks)))
  }

  function PlainAct(x: Setting, p: Plain, a: Action): Plain {
    match a
    case Open => p.(letters := p.letters + [Hello])
    case Accept =>
      Plain(Limited(p.buffer, Min(x.maxBufferMs, x.policyBufferMs), x.maxBufferBytes), true, true,
            p.letters + [Start(x.workspaceId)])
    case SendChunk(c) =>
      var queued := p.(buffer := Enqueued(p.buffer, c));
      if p.streaming then PlainFlush(queued) else queued
    case SendGap(g) =>
      var queued := p.(buffer := GapEnqueued(p.buffer, g));
      if p.streaming then PlainFlush(queued) else queued
    case Ask(id) => if p.accepted then p.(letters := p.letters + [Request(id)]) else p
    case Report(_) => p.(streaming := false)
  }

  function PlainActAll(x: Setting, actions: seq<Action>): Plain {
    if actions == [] then Plain(Buffer([], [], x.maxBufferMs, x.maxBufferBytes), false, false, [])
    else PlainAct(x, PlainActAll(x, actions[..|actions| - 1]), actions[|actions| - 1])
  }

  function AudioOf(letters: seq<Letter>): seq<Item> {
    if letters == [] then []
    else if letters[|letters| - 1].Audio? then AudioOf(letters[..|letters| - 1]) + [letters[|letters| - 1].item]
    else AudioOf(letters[..|letters| - 1])
  }

  /** What a schedule flushes, in order. */
  function Flushes(x: Setting, actions: seq<Action>): seq<Item> {
    AudioOf(PlainActAll(x, actions).letters)
  }

  // The printer.

  function Print(sessionId: SessionId, n: nat, letter: Letter): seq<Frame> {
    match letter
    case Hello => [Text(Message(n, None, AuthHello))]
    case Start(w) => [Text(Message(n, Some(sessionId), SessionStart(w)))]
    case Request(id) => [Text(Message(n, Some(sessionId), SuggestionRequest(id)))]
    case Audio(GapItem(g)) => [Text(Message(n, Some(sessionId), AudioGap(g)))]
    case Audio(ChunkItem(c)) => [Text(Message(n, Some(sessionId), ChunkMeta(c.meta))), Binary(c.bytes)]
  }

  /** The letters numbered from 1. */
  function PrintAll(sessionId: SessionId, letters: seq<Letter>): seq<Frame> {
    if letters == [] then []
    else PrintAll(sessionId, letters[..|letters| - 1]) + Print(sessionId, |letters|, letters[|letters| - 1])
  }

  lemma PrintSnoc(sessionId: SessionId, letters: seq<Letter>, letter: Letter)
    ensures PrintAll(sessionId, letters + [letter])
         == PrintAll(sessionId, letters) + Print(sessionId, |letters| + 1, letter)
  {
    assert (letters + [letter])[..|letters|] == letters;
  }

  predicate Printed(x: Setting, c: Client, p: Plain) {
    && c.sent == PrintAll(x.sessionId, p.letters)
    && c.nextSeq == |p.letters| + 1 && c.lastClientSeq == |p.letters|
    && c.buffer == p.buffer
    && c.maxBufferMs == x.maxBufferMs && c.maxBufferBytes == x.maxBufferBytes
    && (c.sessionId == if p.accepted then Some(x.sessionId) else None)
    && (c.status == Streaming <==> p.streaming)
    && (p.streaming ==> p.accepted)
  }

  lemma {:induction false} GapsPrint(x: Setting, c: Client, p: Plain, gaps: seq<Gap>)
    requires Printed(x, c, p) && p.accepted
    ensures Printed(x, SentGaps(c, gaps), p.(letters := p.letters + Letters(GapItems(gaps))))
    decreases |gaps|
  {
    if gaps == [] {
      assert p.letters + [] == p.letters;
    } else {
      var letter := Audio(GapItem(gaps[0]));
      PrintSnoc(x.sessionId, p.letters, letter);
      GapsPrint(x, SentJson(c, c.sessionId, AudioGap(gaps[0])), p.(letters := p.letters + [letter]), gaps[1..]);
      Regroup(p.letters, [letter], Letters(GapItems(gaps[1..])));
    }
  }

  lemma {:induction false} ChunksPrint(x: Setting, c: Client, p: Plain, chunks: seq<Chunk>)
    requires Printed(x, c, p) && p.accepted
    ensures Printed(x, SentChunks(c, chunks), p.(letters := p.letters + Letters(ChunkItems(chunks))))
    decreases |chunks|
  {
    if chunks == [] {
      assert p.letters + [] == p.letters;
    } else {
      var letter := Audio(ChunkItem(chunks[0]));
      PrintSnoc(x.sessionId, p.letters, letter);
      var next := SentBinary(SentJson(c, c.sessionId, ChunkMeta(chunks[0].meta)), chunks[0].bytes);
      ChunksPrint(x, next, p.(letters := p.letters + [letter]), chunks[1..]);
      Regroup(p.letters, [letter], Letters(ChunkItems(chunks[1..])));
    }
  }

  lemma {:induction false} LettersAppend(a: seq<Item>, b: seq<Item>)
    ensures Letters(a + b) == Letters(a) + Letters(b)
  {
    if a == [] {
      assert a + b == b;
    } else {
      assert (a + b)[1..] == a[1..] + b;
      LettersAppend(a[1..], b);
    }
  }

  lemma FlushPrints(x: Setting, c: Client, p: Plain)
    requires Printed(x, c, p) && p.accepted
    ensures Printed(x, Flushed(c), PlainFlush(p))
  {
    var gaps, chunks := c.buffer.gaps, c.buffer.chunks;
    var c0, p0 := c.(buffer := Drained(c.buffer)), p.(buffer := Drained(p.buffer));
    GapsPrint(x, c0, p0, gaps);
    var p1 := p0.(letters := p.letters + Letters(GapItems(gaps)));
    ChunksPrint(x, SentGaps(c0, gaps), p1, chunks);
    FlushedLetters(p.letters, gaps, chunks);
  }

  lemma FlushedLetters(letters: seq<Letter>, gaps: seq<Gap>, chunks: seq<Chunk>)
    ensures letters + Letters(GapItems(gaps)) + Letters(ChunkItems(chunks))
         == letters + Letters(GapItems(gaps) + ChunkItems(chunks))
  {
    LettersAppend(GapItems(gaps), ChunkItems(chunks));
  }

  lemma LetterPrints(x: Setting, c: Client, p: Plain, sessionId: Option<SessionId>, body: Body, letter: Letter)
    requires Printed(x, c, p)
    requires Print(x.sessionId, c.nextSeq, letter) == [Text(Message(c.nextSeq, sessionId, body))]
    ensures Printed(x, SentJson(c, sessionId, body), p.(letters := p.letters + [letter]))
  {
    PrintSnoc(x.sessionId, p.letters, letter);
  }

  lemma QueuedPrints(x: Setting, c: Client, p: Plain, b: Buffer)
    requires Printed(x, c, p)
    ensures Printed(x, c.(buffer := b), p.(buffer := b))
    ensures p.streaming ==> Printed(x, Flushed(c.(buffer := b)), PlainFlush(p.(buffer := b)))
  {
    if p.streaming {
      FlushPrints(x, c.(buffer := b), p.(buffer := b));
    }
  }

  lemma AcceptPrints(x: Setting, c: Client, p: Plain)
    requires Printed(x, c, p)
    ensures Printed(x, Act(x, c, Accept), PlainAct(x, p, Accept))
  {
    PrintSnoc(x.sessionId, p.letters, Start(x.workspaceId));
  }

  lemma OpenPrints(x: Setting, c: Client, p: Plain)
    requires Printed(x, c, p) && CanHappen(c, Open)
    ensures Printed(x, Act(x, c, Open), PlainAct(x, p, Open))
  {
    LetterPrints(x, c, p, None, AuthHello, Hello);
  }

  lemma AskPrints(x: Setting, c: Client, p: Plain, id: nat)
    requires Printed(x, c, p)
    ensures Printed(x, SuggestionRequested(c, id), PlainAct(x, p, Ask(id)))
  {
    if p.accepted {
      LetterPrints(x, c, p, c.sessionId, SuggestionRequest(id), Request(id));
    }
  }

  lemma ChunkPrints(x: Setting, c: Client, p: Plain, chunk: Chunk)
    requires Printed(x, c, p)
    ensures Printed(x, ChunkSent(c, chunk), PlainAct(x, p, SendChunk(chunk)))
  {
    QueuedPrints(x, c, p, Enqueued(c.buffer, chunk));
  }

  lemma GapPrints(x: Setting, c: Client, p: Plain, gap: Gap)
    requires Printed(x, c, p)
    ensures Printed(x, GapSent(c, gap), PlainAct(x, p, SendGap(gap)))
  {
    QueuedPrints(x, c, p, GapEnqueued(c.buffer, gap));
  }

  lemma StepPrints(x: Setting, c: Client, p: Plain, a: Action)
    requires Printed(x, c, p) && CanHappen(c, a)
    ensures Printed(x, Act(x, c, a), PlainAct(x, p, a))
  {
    match a
    case Open => OpenPrints(x, c, p);
    case Accept => AcceptPrints(x, c, p);
    case SendChunk(chunk) => ChunkPrints(x, c, p, chunk);
    case SendGap(gap) => GapPrints(x, c, p, gap);
    case Ask(id) => AskPrints(x, c, p, id);
    case Report(_) =>
  }

  /** The client's frames are the flushed letters, numbered 1, 2, 3, ... without a hole. */
  lemma {:induction false} ClientPrints(x: Setting, actions: seq<Action>)
    requires FirstConnection(x, actions)
    ensures Printed(x, ActAll(x, actions), PlainActAll(x, actions))
  {
    if actions != [] {
      var before := actions[..|actions| - 1];
      ClientPrints(x, before);
      StepPrints(x, ActAll(x, before), PlainActAll(x, before), actions[|actions| - 1]);
    }
  }

  /** The letters of a first connection: nothing, or a hello, or a hello, a start and then no more of either. */
  predicate Legal(x: Setting, letters: seq<Letter>) {
    && (|letters| > 0 ==> letters[0] == Hello)
    && (|letters| > 1 ==> letters[1] == Start(x.workspaceId))
    && forall i :: 2 <= i < |letters| ==> letters[i].Request? || letters[i].Audio?
  }

  lemma {:induction false} LettersAreAudio(items: seq<Item>)
    ensures forall letter | letter in Letters(items) :: letter.Audio?
  {
    if items != [] {
      LettersAreAudio(items[1..]);
    }
  }

  lemma StepIsLegal(x: Setting, c: Client, p: Plain, a: Action)
    requires Printed(x, c, p) && Legal(x, p.letters) && (p.accepted <==> |p.letters| >= 2) && CanHappen(c, a)
    ensures Legal(x, PlainAct(x, p, a).letters) && (PlainAct(x, p, a).accepted <==> |PlainAct(x, p, a).letters| >= 2)
  {
    if a.SendChunk? || a.SendGap? {
      var queued := p.(buffer := if a.SendChunk? then Enqueued(p.buffer, a.chunk) else GapEnqueued(p.buffer, a.gap));
      LettersAreAudio(GapItems(queued.buffer.gaps) + ChunkItems(queued.buffer.chunks));
    }
  }

  lemma {:induction false} LettersAreLegal(x: Setting, actions: seq<Action>)
    requires FirstConnection(x, actions)
    ensures Legal(x, PlainActAll(x, actions).letters)
    ensures PlainActAll(x, actions).accepted <==> |PlainActAll(x, actions).letters| >= 2
  {
    if actions != [] {
      var before := actions[..|actions| - 1];
      LettersAreLegal(x, before);
      ClientPrints(x, before);
      StepIsLegal(x, ActAll(x, before), PlainActAll(x, before), actions[|actions| - 1]);
    }
  }

  // The parser.

  /** The server reads `letters` printed from 1: what it knows and what it has handed on. */
  predicate Parsed(x: Setting, s: Server, letters: seq<Letter>) {
    var e := Hear(AudioOf(letters));
    && s.grant.workspaceId == x.workspaceId && s.grant.newSessionId == x.sessionId
    && s.assembler == Assembler(None, e.last)
    && s.heard == e.heard
    && (s.errors == [] <==> e.clean)
    && (s.authenticated <==> letters != [])
    && (letters == [] ==> Sessions.CanAuthenticate(s.manager, s.connectionId, s.grant.actor, s.grant.workspaceId))
    && (letters != [] ==>
          Sees(s.manager, s.connectionId) == Mine(x.sessionId, Sessions.Active, |letters|, x.workspaceId))
  }

  function ReceivedAll(s: Server, frames: seq<Frame>): Server
    decreases |frames|
  {
    if frames == [] then s else ReceivedAll(OnFrame(s, frames[0]), frames[1..])
  }

  lemma {:induction false} ReceivedAppend(s: Server, a: seq<Frame>, b: seq<Frame>)
    ensures Received(s, a + b) == ReceivedAll(Received(s, a), b)
    decreases |b|
  {
    if b == [] {
      assert a + b == a;
    } else {
      assert a + b == a + [b[0]] + b[1..];
      assert (a + [b[0]])[..|a|] == a;
      ReceivedAppend(s, a + [b[0]], b[1..]);
    }
  }

  lemma AudioOfSnoc(letters: seq<Letter>, letter: Letter)
    ensures AudioOf(letters + [letter]) == if letter.Audio? then AudioOf(letters) + [letter.item] else AudioOf(letters)
  {
    assert (letters + [letter])[..|letters|] == letters;
  }

  /** An accepted message moves the session's number up by one and leaves the rest of the server alone. */
  lemma MessageArrives(x: Setting, s: Server, n: nat, body: Body) returns (next: Server)
    requires s.authenticated && s.grant.workspaceId == x.workspaceId
    requires Sees(s.manager, s.connectionId) == Mine(x.sessionId, Sessions.Active, n, x.workspaceId)
    requires body.SessionStart? ==> body.workspaceId == x.workspaceId
    ensures next == s.(manager := next.manager)
    ensures Sees(next.manager, s.connectionId) == Mine(x.sessionId, Sessions.Active, n + 1, x.workspaceId)
    ensures OnMessage(s, Message(n + 1, Some(x.sessionId), body))
         == Assembled(next, OnJson(s.assembler, Some(body)).0, OnJson(s.assembler, Some(body)).1)
  {
    next := s.(manager := Sessions.AfterAdvance(s.manager, x.sessionId, n + 1));
  }

  lemma ReceivedOne(s: Server, f: Frame)
    ensures ReceivedAll(s, [f]) == OnFrame(s, f)
  {
    assert [f][1..] == [];
  }

  lemma ReceivedTwo(s: Server, f: Frame, g: Frame)
    ensures ReceivedAll(s, [f, g]) == OnFrame(OnFrame(s, f), g)
  {
    assert [f, g][1..] == [g];
    ReceivedOne(OnFrame(s, f), g);
  }

  lemma HelloParses(x: Setting, s: Server)
    requires Parsed(x, s, [])
    ensures Parsed(x, OnFrame(s, Text(Message(1, None, AuthHello))), [Hello])
  {
    AudioOfSnoc([], Hello);
  }

  /** A letter that carries no audio. */
  lemma PlainLetterParses(x: Setting, s: Server, letters: seq<Letter>, letter: Letter, body: Body)
    requires Parsed(x, s, letters) && letters != []
    requires (letter == Start(x.workspaceId) && body == SessionStart(x.workspaceId))
          || (letter.Request? && body == SuggestionRequest(letter.requestId))
    ensures Parsed(x, OnMessage(s, Message(|letters| + 1, Some(x.sessionId), body)), letters + [letter])
  {
    AudioOfSnoc(letters, letter);
    var next := MessageArrives(x, s, |letters|, body);
  }

  lemma GapParses(x: Setting, s: Server, letters: seq<Letter>, g: Gap)
    requires Parsed(x, s, letters) && letters != []
    ensures Parsed(x, OnMessage(s, Message(|letters| + 1, Some(x.sessionId), AudioGap(g))),
                   letters + [Audio(GapItem(g))])
  {
    AudioOfSnoc(letters, Audio(GapItem(g)));
    HearSnoc(AudioOf(letters), GapItem(g));
    var next := MessageArrives(x, s, |letters|, AudioGap(g));
  }

  /** What metadata and bytes together come to: one item heard, or an error. */
  predicate ChunkTaken(s: Server, next: Server, c: Chunk) {
    && next == s.(manager := next.manager, assembler := next.assembler, heard := next.heard, errors := next.errors)
    && next.assembler.pending.None?
    && (if Acceptable(s.assembler.last, c)
        then next.assembler.last == s.assembler.last[c.meta.stream := c.meta.chunkIndex]
             && next.heard == s.heard + [ChunkItem(c)] && next.errors == s.errors
        else next.assembler.last == s.assembler.last && next.heard == s.heard && next.errors != [])
  }

  lemma ChunkArrives(x: Setting, s: Server, n: nat, c: Chunk) returns (next: Server)
    requires s.authenticated && s.grant.workspaceId == x.workspaceId && s.assembler.pending.None?
    requires Sees(s.manager, s.connectionId) == Mine(x.sessionId, Sessions.Active, n, x.workspaceId)
    ensures next == OnFrame(OnMessage(s, Message(n + 1, Some(x.sessionId), ChunkMeta(c.meta))), Binary(c.bytes))
    ensures Sees(next.manager, s.connectionId) == Mine(x.sessionId, Sessions.Active, n + 1, x.workspaceId)
    ensures ChunkTaken(s, next, c)
  {
    var _ := MessageArrives(x, s, n, ChunkMeta(c.meta));
    next := OnFrame(OnMessage(s, Message(n + 1, Some(x.sessionId), ChunkMeta(c.meta))), Binary(c.bytes));
  }

  lemma ChunkIsHeard(x: Setting, s: Server, next: Server, letters: seq<Letter>, c: Chunk)
    requires Parsed(x, s, letters) && letters != [] && ChunkTaken(s, next, c)
    requires Sees(next.manager, s.connectionId) == Mine(x.sessionId, Sessions.Active, |letters| + 1, x.workspaceId)
    ensures Parsed(x, next, letters + [Audio(ChunkItem(c))])
  {
    AudioOfSnoc(letters, Audio(ChunkItem(c)));
    HearSnoc(AudioOf(letters), ChunkItem(c));
  }

  lemma LetterParses(x: Setting, s: Server, letters: seq<Letter>, letter: Letter)
    requires Parsed(x, s, letters)
    requires letter.Hello? <==> letters == []
    requires letter.Start? ==> letter.workspaceId == x.workspaceId
    ensures Parsed(x, ReceivedAll(s, Print(x.sessionId, |letters| + 1, letter)), letters + [letter])
  {
    var frames := Print(x.sessionId, |letters| + 1, letter);
    match letter
    case Hello =>
      HelloParses(x, s);
      ReceivedOne(s, frames[0]);
      assert letters + [Hello] == [Hello];
    case Start(w) =>
      PlainLetterParses(x, s, letters, letter, SessionStart(w));
      ReceivedOne(s, frames[0]);
    case Request(id) =>
      PlainLetterParses(x, s, letters, letter, SuggestionRequest(id));
      ReceivedOne(s, frames[0]);
    case Audio(GapItem(g)) =>
      GapParses(x, s, letters, g);
      ReceivedOne(s, frames[0]);
    case Audio(ChunkItem(c)) =>
      var next := ChunkArrives(x, s, |letters|, c);
      ChunkIsHeard(x, s, next, letters, c);
      ReceivedTwo(s, frames[0], frames[1]);
  }

  lemma {:induction false} ServerParses(x: Setting, s: Server, letters: seq<Letter>)
    requires Legal(x, letters) && Parsed(x, s, [])
    ensures Parsed(x, Received(s, PrintAll(x.sessionId, letters)), letters)
  {
    if letters != [] {
      var before, letter := letters[..|letters| - 1], letters[|letters| - 1];
      ServerParses(x, s, before);
      assert letters == before + [letter];
      LetterParses(x, Received(s, PrintAll(x.sessionId, before)), before, letter);
      ReceivedAppend(s, PrintAll(x.sessionId, before), Print(x.sessionId, |letters|, letter));
    }
  }

  /** The server a first connection reaches: the token is good for the workspace and the connection id is new. */
  predicate Reaches(x: Setting, s: Server) {
    && s == NewServer(s.manager, s.connectionId, s.grant)
    && s.grant.workspaceId == x.workspaceId && s.grant.newSessionId == x.sessionId
    && Sessions.CanAuthenticate(s.manager, s.connectionId, s.grant.actor, s.grant.workspaceId)
  }

  lemma SentRoundTripIff(x: Setting, actions: seq<Action>, s: Server)
    requires FirstConnection(x, actions) && Reaches(x, s)
    ensures var t := Received(s, ActAll(x, actions).sent);
      && (t.errors == [] <==> Continuous(ChunksOf(Flushes(x, actions))))
      && (t.errors == [] <==> t.heard == Flushes(x, actions))
  {
    ClientPrints(x, actions);
    LettersAreLegal(x, actions);
    ServerParses(x, s, PlainActAll(x, actions).letters);
    HeardUnchangedIff(Flushes(x, actions));
  }

  /** For any first connection and any traffic elsewhere, the server reports no error exactly when the flushed
      chunks are continuous, and exactly then it hands on what the client flushed, in order. */
  lemma RoundTripIff(x: Setting, actions: seq<Action>, s: Server, arrivals: seq<Arrival>)
    requires FirstConnection(x, actions) && Reaches(x, s) && Undisturbed(s, arrivals)
    requires FramesOf(arrivals) == ActAll(x, actions).sent
    ensures Arrived(s, arrivals).errors == [] <==> Continuous(ChunksOf(Flushes(x, actions)))
    ensures Arrived(s, arrivals).errors == [] <==> Arrived(s, arrivals).heard == Flushes(x, actions)
  {
    SentRoundTripIff(x, actions, s);
    ElsewhereIsInvisible(s, arrivals);
  }
}
