/** What the frame assembler makes of any sequence of messages and binary frames, orderly or not, told from what it
    answered before (services/realtime/src/frame-assembler.ts:45-116). */
module AssemblerHistory {
  import opened Wrappers
  import opened AudioBuffer
  import opened FrameAssembler

  datatype Input = Json(json: Option<Body>) | Bytes(bytes: seq<Byte>)

  function Answer(a: Assembler, input: Input): (Assembler, FrameEvent) {
    match input
    case Json(json) => OnJson(a, json)
    case Bytes(bytes) => OnBinary(a, bytes)
  }

  function StateAfter(inputs: seq<Input>): Assembler {
    if inputs == [] then FRESH else Answer(StateAfter(inputs[..|inputs| - 1]), inputs[|inputs| - 1]).0
  }

  function Answers(inputs: seq<Input>): seq<FrameEvent> {
    if inputs == [] then []
    else
      var before := inputs[..|inputs| - 1];
      Answers(before) + [Answer(StateAfter(before), inputs[|inputs| - 1]).1]
  }

  /** Metadata was accepted, and nothing has come since but messages that the schema refuses. */
  function Awaited(answers: seq<FrameEvent>): Option<Meta> {
    if answers == [] then None
    else
      match answers[|answers| - 1]
      case MetaAccepted(meta) => Some(meta)
      case ErrorEvent(InvalidMessage) => Awaited(answers[..|answers| - 1])
      case _ => None
  }

  function ChunksHeard(answers: seq<FrameEvent>): seq<Chunk> {
    if answers == [] then []
    else
      var before, last := ChunksHeard(answers[..|answers| - 1]), answers[|answers| - 1];
      if last.ChunkEvent? then before + [last.chunk] else before
  }

  /** The index goes on from the last chunk heard of that stream, or is its first. */
  predicate GoesOn(chunks: seq<Chunk>, meta: Meta) {
    var own := OfStream(chunks, meta.stream);
    own != [] ==> meta.chunkIndex == own[|own| - 1].meta.chunkIndex + 1
  }

  /** The answer to one more input. */
  function Due(answers: seq<FrameEvent>, input: Input): FrameEvent {
    match input
    case Json(None) => ErrorEvent(InvalidMessage)
    case Json(Some(body)) =>
      if Awaited(answers).Some? then ErrorEvent(MissingBinaryPayload)
      else if body.ChunkMeta? then
        if GoesOn(ChunksHeard(answers), body.meta) then MetaAccepted(body.meta) else ErrorEvent(AudioChunkOutOfOrder)
      else if body.AudioGap? then GapEvent(body.gap)
      else JsonEvent(body)
    case Bytes(bytes) =>
      match Awaited(answers)
      case None => ErrorEvent(UnexpectedBinaryPayload)
      case Some(meta) =>
        if |bytes| == meta.byteLength then ChunkEvent(Chunk(meta, bytes)) else ErrorEvent(AudioByteLengthMismatch)
  }

  predicate Remembers(a: Assembler, answers: seq<FrameEvent>) {
    && a.pending == Awaited(answers)
    && KnowsAll(a.last, ChunksHeard(answers))
    && Continuous(ChunksHeard(answers))
    && (a.pending.Some? ==> GoesOn(ChunksHeard(answers), a.pending.value))
  }

  lemma AnswerIsDue(a: Assembler, answers: seq<FrameEvent>, input: Input)
    requires Remembers(a, answers)
    ensures Answer(a, input).1 == Due(answers, input)
  {
    if input.Json? && input.json.Some? && input.json.value.ChunkMeta? {
      FollowsIffGoesOn(a.last, ChunksHeard(answers), input.json.value.meta);
    }
  }

  lemma FollowsIffGoesOn(last: map<Stream, nat>, chunks: seq<Chunk>, meta: Meta)
    requires KnowsAll(last, chunks)
    ensures Follows(last, meta) <==> GoesOn(chunks, meta)
  {
    assert meta.stream == Microphone || meta.stream == System;
  }

  lemma AnswerIsRemembered(a: Assembler, answers: seq<FrameEvent>, input: Input)
    requires Remembers(a, answers)
    ensures Remembers(Answer(a, input).0, answers + [Answer(a, input).1])
  {
    var (a', answer) := Answer(a, input);
    assert (answers + [answer])[..|answers|] == answers;
    AnswerIsDue(a, answers, input);
    if answer.ChunkEvent? {
      FollowsIffGoesOn(a.last, ChunksHeard(answers), a.pending.value);
      ContinuousSnoc(a.last, ChunksHeard(answers), answer.chunk);
    }
  }

  lemma {:induction false} AssemblerRemembers(inputs: seq<Input>)
    ensures Remembers(StateAfter(inputs), Answers(inputs))
  {
    if inputs != [] {
      var before := inputs[..|inputs| - 1];
      AssemblerRemembers(before);
      AnswerIsRemembered(StateAfter(before), Answers(before), inputs[|inputs| - 1]);
    }
  }

  /** Whatever was received before, in any order, an answer is the one due: a chunk is heard exactly if its metadata was
      accepted, nothing came in between but refused messages, and it has the declared length; metadata is accepted
      exactly if none is awaiting its bytes and its index goes on; every other input is answered by its own error. */
  lemma AnswersAreDue(inputs: seq<Input>, input: Input)
    ensures Answers(inputs + [input]) == Answers(inputs) + [Due(Answers(inputs), input)]
  {
    assert (inputs + [input])[..|inputs|] == inputs;
    AssemblerRemembers(inputs);
    AnswerIsDue(StateAfter(inputs), Answers(inputs), input);
  }

  /** So nothing but continuous audio is ever heard, whatever a client sends. */
  lemma HeardIsContinuous(inputs: seq<Input>)
    ensures Continuous(ChunksHeard(Answers(inputs)))
  {
    AssemblerRemembers(inputs);
  }
}
