/** The server's frame assembler (services/realtime/src/frame-assembler.ts:45-116): an audio chunk
    arrives as a text frame with its metadata followed by a binary frame with its bytes. */
module FrameAssembler {
  import opened Wrappers
  import opened AudioBuffer

  datatype Body =
    | AuthHello
    | SessionStart(workspaceId: nat)
    | ChunkMeta(meta: Meta)
    | AudioGap(gap: Gap)
    | SuggestionRequest(requestId: nat)

  datatype FrameError =
    | InvalidMessage
    | MissingBinaryPayload
    | UnexpectedBinaryPayload
    | AudioByteLengthMismatch
    | AudioChunkOutOfOrder

  datatype FrameEvent =
    | JsonEvent(body: Body)
    | MetaAccepted(meta: Meta)
    | ChunkEvent(chunk: Chunk)
    | GapEvent(gap: Gap)
    | ErrorEvent(error: FrameError)

  datatype Assembler = Assembler(pending: Option<Meta>, last: map<Stream, nat>)

  const FRESH := Assembler(None, map[])

  predicate Follows(last: map<Stream, nat>, meta: Meta) {
    meta.stream in last ==> meta.chunkIndex == last[meta.stream] + 1
  }

  /** `None` is a message the schema refuses. */
  function OnJson(a: Assembler, json: Option<Body>): (Assembler, FrameEvent) {
    if json.None? then (a, ErrorEvent(InvalidMessage))
    else if a.pending.Some? then (a.(pending := None), ErrorEvent(MissingBinaryPayload))
    else
      match json.value
      case ChunkMeta(meta) =>
        if Follows(a.last, meta) then (a.(pending := Some(meta)), MetaAccepted(meta))
        else (a, ErrorEvent(AudioChunkOutOfOrder))
      case AudioGap(gap) => (a, GapEvent(gap))
      case _ => (a, JsonEvent(json.value))
  }

  function OnBinary(a: Assembler, bytes: seq<Byte>): (Assembler, FrameEvent) {
    if a.pending.None? then (a, ErrorEvent(UnexpectedBinaryPayload))
    else
      var meta := a.pending.value;
      if |bytes| != meta.byteLength then (a.(pending := None), ErrorEvent(AudioByteLengthMismatch))
      else (Assembler(None, a.last[meta.stream := meta.chunkIndex]), ChunkEvent(Chunk(meta, bytes)))
  }

  class RealtimeFrameAssembler {
    var pendingAudio: Option<Meta>
    var lastChunkIndexByStream: map<Stream, nat>

    function View(): Assembler
      reads this
    {
      Assembler(pendingAudio, lastChunkIndexByStream)
    }

    constructor ()
      ensures View() == FRESH
    {
      pendingAudio, lastChunkIndexByStream := None, map[];
    }

    method HandleJsonMessage(json: Option<Body>) returns (event: FrameEvent)
      modifies this
      ensures (View(), event) == OnJson(old(View()), json)
    {
      if json.None? {
        return ErrorEvent(InvalidMessage);
      }
      if pendingAudio.Some? {
        pendingAudio := None;
        return ErrorEvent(MissingBinaryPayload);
      }
      match json.value {
        case ChunkMeta(meta) =>
          if meta.stream in lastChunkIndexByStream && meta.chunkIndex != lastChunkIndexByStream[meta.stream] + 1 {
            return ErrorEvent(AudioChunkOutOfOrder);
          }
          pendingAudio := Some(meta);
          return MetaAccepted(meta);
        case AudioGap(gap) =>
          return GapEvent(gap);
        case _ =>
          return JsonEvent(json.value);
      }
    }

    method HandleBinaryFrame(bytes: seq<Byte>) returns (event: FrameEvent)
      modifies this
      ensures (View(), event) == OnBinary(old(View()), bytes)
    {
      if pendingAudio.None? {
        return ErrorEvent(UnexpectedBinaryPayload);
      }
      var meta := pendingAudio.value;
      pendingAudio := None;
      if |bytes| != meta.byteLength {
        return ErrorEvent(AudioByteLengthMismatch);
      }
      lastChunkIndexByStream := lastChunkIndexByStream[meta.stream := meta.chunkIndex];
      return ChunkEvent(Chunk(meta, bytes));
    }
  }

  // Audio as the assembler hears it.

  datatype Item = ChunkItem(chunk: Chunk) | GapItem(gap: Gap)

  /** What came of a sequence of items sent as frames: the chunk indices, the items heard, and whether
      every frame was accepted. */
  datatype Ear = Ear(last: map<Stream, nat>, heard: seq<Item>, clean: bool)

  predicate Acceptable(last: map<Stream, nat>, c: Chunk) {
    Follows(last, c.meta) && |c.bytes| == c.meta.byteLength
  }

  function HearOne(e: Ear, item: Item): Ear {
    match item
    case GapItem(_) => e.(heard := e.heard + [item])
    case ChunkItem(c) =>
      if Acceptable(e.last, c) then Ear(e.last[c.meta.stream := c.meta.chunkIndex], e.heard + [item], e.clean)
      else e.(clean := false)
  }

  function Hear(items: seq<Item>): Ear {
    if items == [] then Ear(map[], [], true) else HearOne(Hear(items[..|items| - 1]), items[|items| - 1])
  }

  function ChunksOf(items: seq<Item>): seq<Chunk> {
    if items == [] then []
    else if items[|items| - 1].ChunkItem? then ChunksOf(items[..|items| - 1]) + [items[|items| - 1].chunk]
    else ChunksOf(items[..|items| - 1])
  }

  function OfStream(chunks: seq<Chunk>, stream: Stream): seq<Chunk> {
    if chunks == [] then []
    else if chunks[|chunks| - 1].meta.stream == stream
    then OfStream(chunks[..|chunks| - 1], stream) + [chunks[|chunks| - 1]]
    else OfStream(chunks[..|chunks| - 1], stream)
  }

  predicate Consecutive(chunks: seq<Chunk>) {
    forall i :: 0 < i < |chunks| ==> chunks[i].meta.chunkIndex == chunks[i - 1].meta.chunkIndex + 1
  }

  predicate LengthsMatch(chunks: seq<Chunk>) {
    forall c | c in chunks :: |c.bytes| == c.meta.byteLength
  }

  /** No stream skips or repeats an index, and every chunk has the length it declares. */
  predicate Continuous(chunks: seq<Chunk>) {
    LengthsMatch(chunks) && Consecutive(OfStream(chunks, Microphone)) && Consecutive(OfStream(chunks, System))
  }

  predicate Knows(last: map<Stream, nat>, chunks: seq<Chunk>, stream: Stream) {
    var own := OfStream(chunks, stream);
    && (stream in last <==> own != [])
    && (own != [] ==> last[stream] == own[|own| - 1].meta.chunkIndex)
  }

  predicate KnowsAll(last: map<Stream, nat>, chunks: seq<Chunk>) {
    Knows(last, chunks, Microphone) && Knows(last, chunks, System)
  }

  lemma ConsecutiveSnoc(chunks: seq<Chunk>, c: Chunk)
    ensures Consecutive(chunks + [c]) <==>
      Consecutive(chunks) && (chunks != [] ==> c.meta.chunkIndex == chunks[|chunks| - 1].meta.chunkIndex + 1)
  {
    var more := chunks + [c];
    assert forall i :: 0 <= i < |chunks| ==> more[i] == chunks[i];
    if Consecutive(more) {
      assert chunks != [] ==> more[|chunks|].meta.chunkIndex == more[|chunks| - 1].meta.chunkIndex + 1;
    }
  }

  lemma OfStreamSnoc(chunks: seq<Chunk>, c: Chunk, stream: Stream)
    ensures OfStream(chunks + [c], stream) ==
      if c.meta.stream == stream then OfStream(chunks, stream) + [c] else OfStream(chunks, stream)
  {
    assert (chunks + [c])[..|chunks|] == chunks;
  }

  lemma LengthsMatchSnoc(chunks: seq<Chunk>, c: Chunk)
    ensures LengthsMatch(chunks + [c]) <==> LengthsMatch(chunks) && |c.bytes| == c.meta.byteLength
  {
    assert c in chunks + [c] && forall d | d in chunks :: d in chunks + [c];
  }

  lemma StreamSnoc(last: map<Stream, nat>, chunks: seq<Chunk>, c: Chunk, stream: Stream)
    requires Knows(last, chunks, stream)
    ensures Consecutive(OfStream(chunks + [c], stream)) <==>
      Consecutive(OfStream(chunks, stream)) && (c.meta.stream == stream ==> Follows(last, c.meta))
    ensures Knows(last[c.meta.stream := c.meta.chunkIndex], chunks + [c], stream)
  {
    OfStreamSnoc(chunks, c, stream);
    if c.meta.stream == stream {
      ConsecutiveSnoc(OfStream(chunks, stream), c);
      LastOfSnoc(OfStream(chunks, stream), c);
    }
  }

  lemma LastOfSnoc(chunks: seq<Chunk>, c: Chunk)
    ensures (chunks + [c])[|chunks + [c]| - 1] == c
  {
  }

  lemma ContinuousSnoc(last: map<Stream, nat>, chunks: seq<Chunk>, c: Chunk)
    requires KnowsAll(last, chunks)
    ensures Continuous(chunks + [c]) <==> Continuous(chunks) && Acceptable(last, c)
    ensures KnowsAll(last[c.meta.stream := c.meta.chunkIndex], chunks + [c])
  {
    StreamSnoc(last, chunks, c, Microphone);
    StreamSnoc(last, chunks, c, System);
    LengthsMatchSnoc(chunks, c);
  }

  lemma ContinuousPrefix(chunks: seq<Chunk>, c: Chunk)
    requires Continuous(chunks + [c])
    ensures Continuous(chunks)
  {
    OfStreamSnoc(chunks, c, Microphone);
    OfStreamSnoc(chunks, c, System);
    ConsecutiveSnoc(OfStream(chunks, c.meta.stream), c);
    LengthsMatchSnoc(chunks, c);
  }

  /** Everything is accepted, and so heard unchanged and in order, exactly when the chunks are continuous. */
  lemma {:induction false} HeardUnchangedIff(items: seq<Item>)
    ensures Hear(items).clean <==> Continuous(ChunksOf(items))
    ensures Hear(items).clean <==> Hear(items).heard == items
    ensures |Hear(items).heard| <= |items|
    ensures Hear(items).clean ==> KnowsAll(Hear(items).last, ChunksOf(items))
  {
    if items != [] {
      var before, item := items[..|items| - 1], items[|items| - 1];
      HeardUnchangedIff(before);
      assert items == before + [item];
      var e := Hear(before);
      if e.clean && item.ChunkItem? {
        ContinuousSnoc(e.last, ChunksOf(before), item.chunk);
      } else if item.ChunkItem? && Continuous(ChunksOf(items)) {
        ContinuousPrefix(ChunksOf(before), item.chunk);
      }
    }
  }

  lemma HearSnoc(items: seq<Item>, item: Item)
    ensures Hear(items + [item]) == HearOne(Hear(items), item)
  {
    assert (items + [item])[..|items|] == items;
  }

  predicate Beyond(items: seq<Item>, stream: Stream, index: nat) {
    forall item | item in items :: item.ChunkItem? && item.chunk.meta.stream == stream ==>
        item.chunk.meta.chunkIndex > index
  }

  /** After a hole, no later chunk of the stream is ever heard on the connection. */
  lemma {:induction false} HoleSilencesStream(before: seq<Item>, after: seq<Item>, stream: Stream)
    requires stream in Hear(before).last && Beyond(after, stream, Hear(before).last[stream] + 1)
    ensures stream in Hear(before + after).last && Hear(before + after).last[stream] == Hear(before).last[stream]
    ensures OfStream(ChunksOf(Hear(before + after).heard), stream) == OfStream(ChunksOf(Hear(before).heard), stream)
    decreases |after|
  {
    if after == [] {
      assert before + after == before;
    } else {
      var n := |after| - 1;
      HoleSilencesStream(before, after[..n], stream);
      var mid := before + after[..n];
      assert before + after == mid + [after[n]];
      HearSnoc(mid, after[n]);
      HearOneOfSilenced(Hear(mid), after[n], stream);
    }
  }

  lemma HearOneOfSilenced(e: Ear, item: Item, stream: Stream)
    requires stream in e.last
    requires item.ChunkItem? && item.chunk.meta.stream == stream ==> item.chunk.meta.chunkIndex > e.last[stream] + 1
    ensures stream in HearOne(e, item).last && HearOne(e, item).last[stream] == e.last[stream]
    ensures OfStream(ChunksOf(HearOne(e, item).heard), stream) == OfStream(ChunksOf(e.heard), stream)
  {
    assert (e.heard + [item])[..|e.heard|] == e.heard;
    if item.ChunkItem? {
      OfStreamSnoc(ChunksOf(e.heard), item.chunk, stream);
    }
  }
}
