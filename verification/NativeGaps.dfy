/** What the gaps of the native capture worker declare (apps/desktop/src-tauri/src/microphone_stream.rs:383-413,
    463-479): each stands for samples that were dropped or discarded, in whole chunks counted in 32 bits. */
module NativeGaps {
  import opened Numbers
  import opened AudioBuffer
  import opened Capture
  import opened AudioProcessing
  import opened NativeCapture

  function Declared(events: seq<NativeEvent>, reason: GapReason): nat {
    if events == [] then 0 else Declared(events[..|events| - 1], reason) + DeclaredBy(events[|events| - 1], reason)
  }

  function DeclaredBy(e: NativeEvent, reason: GapReason): nat {
    match e
    case Lost(r, chunks) => if r == reason then chunks else 0
    case _ => 0
  }

  predicate FullyDeclared(s: Shared) {
    && s.log.reportedDropped <= Declared(s.events, LocalBufferFull) * SAMPLES_PER_CHUNK
    && s.log.reportedDiscarded <= Declared(s.events, UserPausedCapture) * SAMPLES_PER_CHUNK
  }

  // A single report.

  /** An estimate covers the samples it stands for exactly as long as it does not saturate. */
  lemma EstimateCoversIff(dropped: nat, rate: nat)
    ensures DroppedChunkEstimate(dropped, rate) * SamplesPerInputChunk(rate) >= dropped
       <==> dropped <= U32_MAX * SamplesPerInputChunk(rate)
    ensures dropped > 0 && dropped <= U32_MAX * SamplesPerInputChunk(rate) ==>
      (DroppedChunkEstimate(dropped, rate) - 1) * SamplesPerInputChunk(rate) < dropped
  {
    if dropped > 0 {
      CeilCoversIff(dropped, SamplesPerInputChunk(rate));
    }
  }

  lemma CeilCoversIff(a: nat, b: Positive)
    requires a >= 1
    ensures CeilDiv(a, b) >= 1 && (CeilDiv(a, b) - 1) * b < a <= CeilDiv(a, b) * b
    ensures CeilDiv(a, b) <= U32_MAX <==> a <= U32_MAX * b
  {
    CeilDivIsTight(a, b);
    var q := CeilDiv(a, b);
    if q <= U32_MAX {
      Scale(q, U32_MAX, b);
    } else {
      Scale(U32_MAX, q - 1, b);
    }
  }

  lemma Scale(m: nat, n: nat, b: nat)
    requires m <= n
    ensures m * b <= n * b
  {
  }

  function Chunks(samples: nat): nat {
    CeilDiv(samples, SAMPLES_PER_CHUNK)
  }

  lemma ChunksAreTight(samples: nat)
    ensures samples <= Chunks(samples) * SAMPLES_PER_CHUNK
    ensures samples == 0 <==> Chunks(samples) == 0
    ensures samples > 0 ==> (Chunks(samples) - 1) * SAMPLES_PER_CHUNK < samples
    ensures DroppedChunkEstimate(samples, RATE) == DroppedOutputChunkEstimate(samples) == SaturatedU32(Chunks(samples))
  {
    assert SamplesPerInputChunk(RATE) == SAMPLES_PER_CHUNK;
    if samples > 0 {
      CeilDivIsTight(samples, SAMPLES_PER_CHUNK);
    }
  }

  /** The sum of two estimates covers its samples exactly as long as it fits into 32 bits. */
  lemma DiscardedCoversIff(input: nat, output: nat)
    ensures input + output <= DiscardedChunks(input, output) * SAMPLES_PER_CHUNK
       <==> Chunks(input) + Chunks(output) <= U32_MAX
  {
    ChunksAreTight(input);
    ChunksAreTight(output);
    WrappedSum(SaturatedU32(Chunks(input)), SaturatedU32(Chunks(output)));
  }

  lemma WrappedSum(a: nat, b: nat)
    requires a <= U32_MAX && b <= U32_MAX
    ensures (a + b) % (U32_MAX + 1) == if a + b <= U32_MAX then a + b else a + b - (U32_MAX + 1)
  {
  }

  // The steps.

  /** A report, if the step makes one, can count its chunks in 32 bits. */
  predicate ReportFits(s: Shared, step: Step) {
    && DroppedReportFits(s, step)
    && (step.WorkerReportedDiscarded? && s.worker.BeforeOutputSwap? && s.flags.channelOpen ==>
          Chunks(s.worker.input) + Chunks(s.counters.discardedOutput) <= U32_MAX)
  }

  predicate DroppedReportFits(s: Shared, step: Step) {
    step.WorkerReportedDropped? && s.worker == BeforeDroppedSwap && s.flags.channelOpen ==>
      s.counters.dropped <= U32_MAX * SAMPLES_PER_CHUNK
  }

  /** The gap that a step sends covers the samples that the step reports. */
  predicate ReportCovers(s: Shared, s': Shared) {
    && s'.log.reportedDropped - s.log.reportedDropped
       <= (Declared(s'.events, LocalBufferFull) - Declared(s.events, LocalBufferFull)) * SAMPLES_PER_CHUNK
    && s'.log.reportedDiscarded - s.log.reportedDiscarded
       <= (Declared(s'.events, UserPausedCapture) - Declared(s.events, UserPausedCapture)) * SAMPLES_PER_CHUNK
  }

  lemma DeclaredSnoc(events: seq<NativeEvent>, e: NativeEvent, reason: GapReason)
    ensures Declared(events + [e], reason) == Declared(events, reason) + DeclaredBy(e, reason)
  {
    assert (events + [e])[..|events|] == events;
  }

  lemma DroppedReportCoversIff(s: Shared)
    ensures ReportCovers(s, WorkerReportsDropped(s)) <==> ReportFits(s, WorkerReportedDropped)
  {
    var e := Lost(LocalBufferFull, DroppedChunkEstimate(s.counters.dropped, RATE));
    DeclaredSnoc(s.events, e, LocalBufferFull);
    DeclaredSnoc(s.events, e, UserPausedCapture);
    assert SamplesPerInputChunk(RATE) == SAMPLES_PER_CHUNK;
    EstimateCoversIff(s.counters.dropped, RATE);
  }

  lemma DiscardedReportCoversIff(s: Shared)
    ensures ReportCovers(s, WorkerReportsDiscarded(s)) <==> ReportFits(s, WorkerReportedDiscarded)
  {
    if s.worker.BeforeOutputSwap? {
      var chunks := DiscardedChunks(s.worker.input, s.counters.discardedOutput);
      DeclaredSnoc(s.events, Lost(UserPausedCapture, chunks), LocalBufferFull);
      DeclaredSnoc(s.events, Lost(UserPausedCapture, chunks), UserPausedCapture);
      DiscardedCoversIff(s.worker.input, s.counters.discardedOutput);
    }
  }

  /** The other steps report no gap. */
  predicate SaysNoGap(s: Shared, s': Shared) {
    && s'.log.reportedDropped == s.log.reportedDropped && s'.log.reportedDiscarded == s.log.reportedDiscarded
    && |s'.events| <= |s.events| + 1
    && s.events <= s'.events
    && (|s'.events| > |s.events| ==> !s'.events[|s.events|].Lost?)
  }

  lemma WorkerSaysNoGap(s: Shared, step: Step)
    requires ByWorker(step) && !step.WorkerReportedDropped? && !step.WorkerReportedDiscarded?
    ensures SaysNoGap(s, Take(s, step))
  {
    match step
    case WorkerCheckedStop =>
    case WorkerSwappedInput =>
    case WorkerCheckedFailure =>
    case WorkerReceived =>
    case WorkerComparedEpoch =>
    case WorkerDiscarded =>
    case WorkerProcessed =>
    case WorkerSentChunk =>
  }

  lemma OthersSayNoGap(s: Shared, step: Step)
    requires !ByWorker(step)
    ensures SaysNoGap(s, Take(s, step))
  {
    assert Take(s, step).events == s.events;
  }

  lemma NoGapIsCovered(s: Shared, s': Shared)
    requires SaysNoGap(s, s')
    ensures ReportCovers(s, s')
  {
    if |s'.events| > |s.events| {
      var e := s'.events[|s.events|];
      assert s'.events == s.events + [e];
      DeclaredSnoc(s.events, e, LocalBufferFull);
      DeclaredSnoc(s.events, e, UserPausedCapture);
    } else {
      assert s'.events == s.events;
    }
  }

  /** A gap covers the samples it reports exactly if its chunks can be counted in 32 bits. */
  lemma ReportCoversIff(s: Shared, step: Step)
    ensures ReportCovers(s, Take(s, step)) <==> ReportFits(s, step)
  {
    if step.WorkerReportedDropped? {
      DroppedReportCoversIff(s);
    } else if step.WorkerReportedDiscarded? {
      DiscardedReportCoversIff(s);
    } else {
      if ByWorker(step) {
        WorkerSaysNoGap(s, step);
      } else {
        OthersSayNoGap(s, step);
      }
      NoGapIsCovered(s, Take(s, step));
    }
  }

  // Runs.

  predicate EveryReportFits(steps: seq<Step>) {
    steps == []
    || (EveryReportFits(steps[..|steps| - 1]) && ReportFits(TakeAll(steps[..|steps| - 1]), steps[|steps| - 1]))
  }

  predicate EveryDroppedReportFits(steps: seq<Step>) {
    steps == []
    || (&& EveryDroppedReportFits(steps[..|steps| - 1])
        && DroppedReportFits(TakeAll(steps[..|steps| - 1]), steps[|steps| - 1]))
  }

  predicate EveryReportCovers(steps: seq<Step>) {
    steps == []
    || (&& EveryReportCovers(steps[..|steps| - 1])
        && ReportCovers(TakeAll(steps[..|steps| - 1]), TakeAll(steps)))
  }

  lemma {:induction false} EveryReportCoversIff(steps: seq<Step>)
    ensures EveryReportCovers(steps) <==> EveryReportFits(steps)
  {
    if steps != [] {
      EveryReportCoversIff(steps[..|steps| - 1]);
      ReportCoversIff(TakeAll(steps[..|steps| - 1]), steps[|steps| - 1]);
    }
  }

  /** In every interleaving, however long, as long as every report fits into 32 bits the declared gaps never fall
      short of the samples they stand for. */
  lemma {:induction false} GapsNeverUnderCount(steps: seq<Step>)
    requires EveryReportFits(steps)
    ensures FullyDeclared(TakeAll(steps))
  {
    if steps != [] {
      GapsNeverUnderCount(steps[..|steps| - 1]);
      ReportCoversIff(TakeAll(steps[..|steps| - 1]), steps[|steps| - 1]);
    }
  }

  // Short runs fit.

  /** More than thirteen years of samples. */
  const MOST_SAMPLES: nat := (U32_MAX - 1) * SAMPLES_PER_CHUNK + 1

  lemma FewSamplesFit(input: nat, output: nat)
    requires input + output <= MOST_SAMPLES
    ensures Chunks(input) + Chunks(output) <= U32_MAX
  {
    ChunksAreTight(input);
    ChunksAreTight(output);
  }

  /** No report can fail to fit before so many samples were captured. */
  lemma {:induction false} ShortRunsFit(steps: seq<Step>)
    requires |TakeAll(steps).log.captured| <= MOST_SAMPLES
    ensures EveryReportFits(steps)
  {
    if steps != [] {
      var before, step := steps[..|steps| - 1], steps[|steps| - 1];
      var s := TakeAll(before);
      CapturedOnlyGrows(s, step);
      ShortRunsFit(before);
      EverySampleIsAccountedFor(before);
      if s.worker.BeforeOutputSwap? {
        FewSamplesFit(s.worker.input, s.counters.discardedOutput);
      }
    }
  }

  lemma CapturedOnlyGrows(s: Shared, step: Step)
    ensures s.log.captured <= Take(s, step).log.captured
  {
    if ByWorker(step) {
      assert Take(s, step).log.captured == s.log.captured;
    } else if ByPause(step) {
      assert Take(s, step).log.captured == s.log.captured;
    }
  }

  // Long runs: what a report of discarded samples can hold is bounded, because the worker reports each time round.

  predicate BuffersAtMost(steps: seq<Step>, bound: nat) {
    forall step | step in steps :: step.CallbackStarted? ==> |step.input| <= bound
  }

  predicate CallbackWithin(c: Callback, bound: nat) {
    match c
    case Loaded(_, input) => |input| <= bound
    case Converted(_, samples) => |samples| <= bound
    case _ => true
  }

  predicate WorkerWithin(w: Worker, bound: nat) {
    match w
    case BeforeOutputSwap(input) => input <= bound
    case Comparing(_, samples) => |samples| <= bound
    case Discarding(count) => count <= bound
    case _ => true
  }

  /** From the report until the worker has dealt with its next message. */
  predicate Fresh(w: Worker) {
    w == BeforeFailureCheck || w == BeforeReceive || w.Comparing? || w.Discarding? || w.Processing?
  }

  /** No message is larger than a buffer, and at most one has been discarded since the last report. */
  predicate InputWithin(s: Shared, bound: nat) {
    && CallbackWithin(s.callback, bound) && WorkerWithin(s.worker, bound)
    && (forall m | m in s.queue :: Size(m) <= bound)
    && s.counters.discardedInput <= bound
    && (Fresh(s.worker) || s.worker.BeforeOutputSwap? || s.worker.Sending? ==> s.counters.discardedInput == 0)
  }

  const MOST_HELD: nat := SAMPLES_PER_CHUNK - 1

  /** What a pause has taken from the processor since the last report, or still can. */
  function PauseOutput(s: Shared): nat {
    s.counters.discardedOutput + HeldByCommand(s.command) + |s.held|
  }

  predicate OutputWithin(s: Shared) {
    && |s.held| <= MOST_HELD && HeldByCommand(s.command) <= MOST_HELD
    && PauseOutput(s) <= if Fresh(s.worker) then 2 * MOST_HELD else 3 * MOST_HELD
  }

  lemma WorkerKeepsInputWithin(s: Shared, step: Step, bound: nat)
    requires InputWithin(s, bound) && ByWorker(step)
    ensures InputWithin(Take(s, step), bound)
  {
    match step
    case WorkerReceived => assert s.queue != [] ==> s.queue[0] in s.queue;
    case _ =>
  }

  lemma StepKeepsInputWithin(s: Shared, step: Step, bound: nat)
    requires InputWithin(s, bound) && (step.CallbackStarted? ==> |step.input| <= bound)
    ensures InputWithin(Take(s, step), bound)
  {
    if ByWorker(step) {
      WorkerKeepsInputWithin(s, step, bound);
    }
  }

  lemma StepKeepsOutputWithin(s: Shared, step: Step)
    requires OutputWithin(s)
    ensures OutputWithin(Take(s, step))
  {
  }

  lemma {:induction false} RunStaysWithin(steps: seq<Step>, bound: nat)
    requires BuffersAtMost(steps, bound)
    ensures InputWithin(TakeAll(steps), bound) && OutputWithin(TakeAll(steps))
  {
    if steps != [] {
      var before, step := steps[..|steps| - 1], steps[|steps| - 1];
      assert step in steps;
      RunStaysWithin(before, bound);
      StepKeepsInputWithin(TakeAll(before), step, bound);
      StepKeepsOutputWithin(TakeAll(before), step);
    }
  }

  /** One buffer that would play for thirteen years. */
  const LARGEST_BUFFER: nat := (U32_MAX - 3) * SAMPLES_PER_CHUNK

  lemma ReportWithinFits(s: Shared)
    requires InputWithin(s, LARGEST_BUFFER) && OutputWithin(s) && s.worker.BeforeOutputSwap?
    ensures Chunks(s.worker.input) + Chunks(s.counters.discardedOutput) <= U32_MAX
  {
    ChunksAreTight(s.worker.input);
    ChunksAreTight(s.counters.discardedOutput);
  }

  /** With buffers of any real size, however long a stream runs and however often it is paused, no report of
      discarded samples fails to fit: whether every report does depends on the dropped samples alone. */
  lemma {:induction false} OnlyDropsCanOverflow(steps: seq<Step>)
    requires BuffersAtMost(steps, LARGEST_BUFFER)
    ensures EveryReportFits(steps) <==> EveryDroppedReportFits(steps)
  {
    if steps != [] {
      var before := steps[..|steps| - 1];
      OnlyDropsCanOverflow(before);
      RunStaysWithin(before, LARGEST_BUFFER);
      if TakeAll(before).worker.BeforeOutputSwap? {
        ReportWithinFits(TakeAll(before));
      }
    }
  }

  // A report that declares nothing.

  lemma SumOfEstimatesWraps()
    ensures DiscardedChunks(MOST_SAMPLES, 1) == 0
  {
    CeilOfMultiple(U32_MAX - 1);
  }

  lemma CeilOfMultiple(q: nat)
    ensures CeilDiv(q * SAMPLES_PER_CHUNK + 1, SAMPLES_PER_CHUNK) == q + 1
  {
  }

  /** The worker comes round with nothing to report. */
  function Round(): seq<Step> {
    [WorkerCheckedStop, WorkerReportedDropped, WorkerSwappedInput, WorkerReportedDiscarded, WorkerCheckedFailure,
     WorkerReceived]
  }

  predicate NothingToReport(s: Shared) {
    s.worker == AtTop && s.flags.channelOpen && !s.flags.stopped && !s.flags.failed && s.counters == Counters(0, 0, 0)
  }

  function TakeMore(s: Shared, steps: seq<Step>): Shared
    decreases |steps|
  {
    if steps == [] then s else TakeMore(Take(s, steps[0]), steps[1..])
  }

  lemma {:induction false} TakeAllAppend(steps: seq<Step>, more: seq<Step>)
    ensures TakeAll(steps + more) == TakeMore(TakeAll(steps), more)
    decreases |more|
  {
    if more == [] {
      assert steps + more == steps;
    } else {
      assert (steps + [more[0]])[..|steps|] == steps;
      assert steps + more == (steps + [more[0]]) + more[1..];
      TakeAllAppend(steps + [more[0]], more[1..]);
    }
  }

  lemma TakeThree(s: Shared, a: Step, b: Step, c: Step)
    ensures TakeMore(s, [a, b, c]) == Take(Take(Take(s, a), b), c)
  {
    var t := Take(Take(s, a), b);
    assert TakeMore(t, [c]) == Take(t, c);
    assert TakeMore(Take(s, a), [b, c]) == TakeMore(t, [c]);
  }

  lemma {:induction false} TakeMoreAppend(s: Shared, steps: seq<Step>, more: seq<Step>)
    ensures TakeMore(s, steps + more) == TakeMore(TakeMore(s, steps), more)
    decreases |steps|
  {
    if steps == [] {
      assert steps + more == more;
    } else {
      assert (steps + more)[1..] == steps[1..] + more;
      TakeMoreAppend(Take(s, steps[0]), steps[1..], more);
    }
  }

  lemma FirstHalf(s: Shared)
    requires NothingToReport(s)
    ensures TakeMore(s, Round()[..3]) == s.(worker := BeforeOutputSwap(0))
  {
    TakeThree(s, WorkerCheckedStop, WorkerReportedDropped, WorkerSwappedInput);
    assert Round()[..3] == [WorkerCheckedStop, WorkerReportedDropped, WorkerSwappedInput];
    assert Take(s, WorkerCheckedStop) == s.(worker := BeforeDroppedSwap);
  }

  lemma SecondHalf(s: Shared)
    requires NothingToReport(s)
    ensures TakeMore(s.(worker := BeforeOutputSwap(0)), Round()[3..]) == WorkerReceives(s.(worker := BeforeReceive))
  {
    TakeThree(s.(worker := BeforeOutputSwap(0)), WorkerReportedDiscarded, WorkerCheckedFailure, WorkerReceived);
    assert Round()[3..] == [WorkerReportedDiscarded, WorkerCheckedFailure, WorkerReceived];
    assert DiscardedChunks(0, 0) == 0;
    assert Take(s.(worker := BeforeOutputSwap(0)), WorkerReportedDiscarded) == s.(worker := BeforeFailureCheck);
  }

  lemma RoundReceives(s: Shared)
    requires NothingToReport(s)
    ensures TakeMore(s, Round()) == WorkerReceives(s.(worker := BeforeReceive))
  {
    FirstHalf(s);
    SecondHalf(s);
    TakeMoreAppend(s, Round()[..3], Round()[3..]);
    assert Round()[..3] + Round()[3..] == Round();
  }

  function Buffered(input: seq<Sample>): seq<Step> {
    [CallbackStarted(input), CallbackChecked, CallbackEnqueued]
  }

  lemma BufferIsQueued(s: Shared, input: seq<Sample>)
    requires NothingToReport(s) && !s.flags.paused && s.callback == Quiet && s.queue == []
    ensures TakeMore(s, Buffered(input))
         == s.(queue := [Samples(s.flags.epoch, input)], log := s.log.(captured := s.log.captured + input))
  {
    TakeThree(s, CallbackStarted(input), CallbackChecked, CallbackEnqueued);
    assert Take(s, CallbackStarted(input)) == s.(callback := Loaded(s.flags.epoch, input));
  }

  const PROCESSED: seq<Step> := [WorkerComparedEpoch, WorkerProcessed, WorkerSentChunk]

  lemma SampleIsProcessed(s: Shared, sample: Sample)
    requires s.worker == Comparing(s.flags.epoch, [sample]) && s.held == []
    ensures TakeMore(s, PROCESSED) == s.(worker := AtTop, held := [sample])
  {
    TakeThree(s, WorkerComparedEpoch, WorkerProcessed, WorkerSentChunk);
    assert Take(s, WorkerComparedEpoch) == s.(worker := Processing([sample]));
    OneSampleIsHeld(s.(worker := Processing([sample])), sample);
  }

  lemma OneSampleIsHeld(s: Shared, sample: Sample)
    requires s.worker == Processing([sample]) && s.held == []
    ensures Take(s, WorkerProcessed) == s.(worker := Sending([]), held := [sample])
  {
    assert [] + [sample] == [sample];
  }

  const PAUSE: seq<Step> := [PauseStarted, PauseAdvancedEpoch, PauseReset]

  lemma SampleIsTaken(s: Shared, sample: Sample)
    requires s.command == NoCommand && s.held == [sample] && s.flags.epoch == 0
    ensures TakeMore(s, PAUSE)
         == s.(flags := s.flags.(paused := true, epoch := 1), held := [], command := BeforeAdd(1))
  {
    TakeThree(s, PauseStarted, PauseAdvancedEpoch, PauseReset);
    var started := s.(command := BeforeEpoch, flags := s.flags.(paused := true));
    assert Take(s, PauseStarted) == started;
    assert Take(started, PauseAdvancedEpoch) == started.(command := BeforeReset, flags := started.flags.(epoch := 1));
  }

  const DISCARDED: seq<Step> := [WorkerComparedEpoch, WorkerDiscarded, PauseAdded]

  lemma BufferIsDiscarded(s: Shared, buffer: seq<Sample>)
    requires s.worker == Comparing(0, buffer) && s.flags.epoch == 1 && s.command == BeforeAdd(1)
    requires s.counters == Counters(0, 0, 0)
    ensures TakeMore(s, DISCARDED)
         == s.(worker := AtTop, command := BeforePauseNote, counters := Counters(0, |buffer|, 1))
  {
    TakeThree(s, WorkerComparedEpoch, WorkerDiscarded, PauseAdded);
    assert Take(s, WorkerComparedEpoch) == s.(worker := Discarding(|buffer|));
  }

  /** The processor holds one sample, and a buffer is queued. */
  function SampleHeld(sample: Sample, buffer: seq<Sample>): seq<Step> {
    [StartNoted] + Round() + Buffered([sample]) + Round() + PROCESSED + Buffered(buffer)
  }

  function Streaming(held: seq<Sample>, queue: seq<Message>, worker: Worker, captured: seq<Sample>): Shared {
    Shared(STARTED.flags, held, queue, Counters(0, 0, 0), Quiet, worker, NoCommand, [Switched(NativeCapturing)],
           Log(captured, 0, 0, 0))
  }

  lemma StartIsNoted()
    ensures TakeAll([StartNoted] + Round()) == Streaming([], [], AtTop, [])
  {
    assert [StartNoted][..0] == [];
    var noted := STARTED.(command := NoCommand, queue := [StateNote(NativeCapturing)]);
    assert TakeAll([StartNoted]) == noted;
    TakeAllAppend([StartNoted], Round());
    RoundReceives(noted);
    assert [StateNote(NativeCapturing)][1..] == [];
  }

  lemma SampleIsReceived(steps: seq<Step>, sample: Sample)
    requires TakeAll(steps) == Streaming([], [], AtTop, [])
    ensures TakeAll(steps + Buffered([sample]) + Round()) == Streaming([], [], Comparing(0, [sample]), [sample])
  {
    TakeAllAppend(steps, Buffered([sample]));
    BufferIsQueued(Streaming([], [], AtTop, []), [sample]);
    assert [] + [sample] == [sample];
    TakeAllAppend(steps + Buffered([sample]), Round());
    RoundReceives(Streaming([], [Samples(0, [sample])], AtTop, [sample]));
  }

  lemma BufferFollows(steps: seq<Step>, sample: Sample, buffer: seq<Sample>)
    requires TakeAll(steps) == Streaming([], [], Comparing(0, [sample]), [sample])
    ensures TakeAll(steps + PROCESSED + Buffered(buffer))
         == Streaming([sample], [Samples(0, buffer)], AtTop, [sample] + buffer)
  {
    TakeAllAppend(steps, PROCESSED);
    SampleIsProcessed(Streaming([], [], Comparing(0, [sample]), [sample]), sample);
    TakeAllAppend(steps + PROCESSED, Buffered(buffer));
    BufferIsQueued(Streaming([sample], [], AtTop, [sample]), buffer);
  }

  lemma SampleIsHeld(sample: Sample, buffer: seq<Sample>)
    ensures TakeAll(SampleHeld(sample, buffer)) == Streaming([sample], [Samples(0, buffer)], AtTop, [sample] + buffer)
  {
    StartIsNoted();
    var noted := [StartNoted] + Round();
    SampleIsReceived(noted, sample);
    BufferFollows(noted + Buffered([sample]) + Round(), sample, buffer);
  }

  /** A pause takes that sample, and the worker discards the buffer, before the next report. */
  function UnderCounted(sample: Sample, buffer: seq<Sample>): seq<Step> {
    SampleHeld(sample, buffer) + PAUSE + Round() + DISCARDED + Round()[..3] + [WorkerReportedDiscarded]
  }

  function Discarded(sample: Sample, buffer: seq<Sample>): Shared {
    Streaming([], [], AtTop, [sample] + buffer)
    .(flags := STARTED.flags.(paused := true, epoch := 1), command := BeforePauseNote,
      counters := Counters(0, |buffer|, 1))
  }

  lemma SampleIsPaused(steps: seq<Step>, sample: Sample, buffer: seq<Sample>)
    requires TakeAll(steps) == Streaming([sample], [Samples(0, buffer)], AtTop, [sample] + buffer)
    ensures TakeAll(steps + PAUSE) == Paused(sample, buffer)
  {
    TakeAllAppend(steps, PAUSE);
    SampleIsTaken(TakeAll(steps), sample);
  }

  function Paused(sample: Sample, buffer: seq<Sample>): Shared {
    Streaming([], [Samples(0, buffer)], AtTop, [sample] + buffer)
    .(flags := STARTED.flags.(paused := true, epoch := 1), command := BeforeAdd(1))
  }

  lemma BothAreDiscarded(steps: seq<Step>, sample: Sample, buffer: seq<Sample>)
    requires TakeAll(steps) == Paused(sample, buffer)
    ensures TakeAll(steps + Round() + DISCARDED) == Discarded(sample, buffer)
  {
    var s := Paused(sample, buffer);
    TakeAllAppend(steps, Round());
    RoundReceives(s);
    TakeAllAppend(steps + Round(), DISCARDED);
    BufferIsDiscarded(s.(queue := [], worker := Comparing(0, buffer)), buffer);
  }

  lemma BothAreReported(steps: seq<Step>)
    requires var s := TakeAll(steps);
      s.worker == AtTop && s.flags.channelOpen && !s.flags.stopped && s.counters == Counters(0, MOST_SAMPLES, 1)
    ensures var s, s' := TakeAll(steps), TakeAll(steps + Round()[..3] + [WorkerReportedDiscarded]);
      s'.events == s.events && s'.log.reportedDiscarded == s.log.reportedDiscarded + MOST_SAMPLES + 1
  {
    var s := TakeAll(steps);
    TakeThree(s, WorkerCheckedStop, WorkerReportedDropped, WorkerSwappedInput);
    assert Round()[..3] == [WorkerCheckedStop, WorkerReportedDropped, WorkerSwappedInput];
    assert Take(s, WorkerCheckedStop) == s.(worker := BeforeDroppedSwap);
    TakeAllAppend(steps, Round()[..3]);
    TakeAllAppend(steps + Round()[..3], [WorkerReportedDiscarded]);
    SumOfEstimatesWraps();
  }

  /** A buffer of just so many samples makes the sum of the two estimates wrap to zero: everything is logged as
      reported, and no gap is sent. */
  lemma ReportDeclaresNothing(sample: Sample, buffer: seq<Sample>)
    requires |buffer| == MOST_SAMPLES
    ensures var s := TakeAll(UnderCounted(sample, buffer));
      s.events == [Switched(NativeCapturing)] && s.log.reportedDiscarded == MOST_SAMPLES + 1 && !FullyDeclared(s)
  {
    var held := SampleHeld(sample, buffer);
    SampleIsHeld(sample, buffer);
    SampleIsPaused(held, sample, buffer);
    BothAreDiscarded(held + PAUSE, sample, buffer);
    BothAreReported(held + PAUSE + Round() + DISCARDED);
    assert [Switched(NativeCapturing)] == [] + [Switched(NativeCapturing)];
    DeclaredSnoc([], Switched(NativeCapturing), UserPausedCapture);
  }
}
