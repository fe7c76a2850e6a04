/** The native capture threads (apps/desktop/src-tauri/src/microphone_stream.rs:217-262, 314-334, 353-363,
    376-479): an audio callback, a worker and the start, pause, resume and stop commands share atomic counters, a
    bounded queue and a locked processor. A step is one access to a counter, the queue, the epoch or the processor,
    with the event the worker sends of it; the worker's own store to the stop flag and the callback's two flag
    loads in a row belong to the step before them. Steps of different threads interleave freely. */
module NativeCapture {
  import opened Numbers
  import opened AudioBuffer
  import opened Capture
  import opened AudioProcessing

  const QUEUE_CAPACITY: nat := 32
  const U32_MAX: nat := 0xFFFF_FFFF

  datatype Message = Samples(epoch: nat, samples: seq<Sample>) | StateNote(state: NativeState)

  /** The callback has nothing, has loaded the epoch, has converted samples to send, or found the queue full or
      gone. */
  datatype Callback =
    | Quiet
    | Loaded(epoch: nat, input: seq<Sample>)
    | Converted(epoch: nat, samples: seq<Sample>)
    | Overflowed(count: nat)
    | Refused

  /** Where the worker is in its loop, and what it holds there. */
  datatype Worker =
    | AtTop
    | BeforeDroppedSwap
    | BeforeInputSwap
    | BeforeOutputSwap(input: nat)
    | BeforeFailureCheck
    | BeforeReceive
    | Comparing(epoch: nat, samples: seq<Sample>)
    | Discarding(count: nat)
    | Processing(samples: seq<Sample>)
    | Sending(chunks: seq<NativeChunk>)
    | Exited

  /** The start command still has a note to send when the threads run. */
  datatype Command = BeforeStartNote | NoCommand | BeforeEpoch | BeforeReset | BeforeAdd(output: nat)
                   | BeforePauseNote | BeforeResumeNote | BeforeUnpause

  datatype Flags = Flags(paused: bool, stopped: bool, failed: bool, failureReported: bool, channelOpen: bool,
                         epoch: nat)

  datatype Counters = Counters(dropped: nat, discardedInput: nat, discardedOutput: nat)

  /** For the statements below: the samples captured, in order, and what became of some of them. */
  datatype Log = Log(captured: seq<Sample>, lost: nat, reportedDropped: nat, reportedDiscarded: nat)

  datatype Shared = Shared(flags: Flags, held: seq<Sample>, queue: seq<Message>, counters: Counters,
                           callback: Callback, worker: Worker, command: Command, events: seq<NativeEvent>, log: Log)

  const STARTED := Shared(Flags(false, false, false, false, true, 0), [], [], Counters(0, 0, 0),
                          Quiet, AtTop, BeforeStartNote, [], Log([], 0, 0, 0))

  function SaturatedU32(n: nat): nat {
    if n <= U32_MAX then n else U32_MAX
  }

  function SamplesPerInputChunk(rate: nat): Positive {
    if rate * CHUNK_DURATION_MS / 1000 >= 1 then rate * CHUNK_DURATION_MS / 1000 else 1
  }

  function DroppedChunkEstimate(dropped: nat, rate: nat): nat {
    if dropped == 0 then 0 else Max(SaturatedU32(CeilDiv(dropped, SamplesPerInputChunk(rate))), 1)
  }

  function DroppedOutputChunkEstimate(dropped: nat): nat {
    if dropped == 0 then 0 else Max(SaturatedU32(CeilDiv(dropped, SAMPLES_PER_CHUNK)), 1)
  }

  const RATE: nat := 16000

  /** The sum is taken in 32 bits. */
  function DiscardedChunks(input: nat, output: nat): nat {
    (DroppedChunkEstimate(input, RATE) + DroppedOutputChunkEstimate(output)) % (U32_MAX + 1)
  }

  function Sent(s: Shared, e: NativeEvent): Shared {
    if s.flags.channelOpen then s.(events := s.events + [e]) else s
  }

  // The audio callback.

  function CallbackStarts(s: Shared, input: seq<Sample>): Shared {
    if s.callback == Quiet then s.(callback := Loaded(s.flags.epoch, input)) else s
  }

  function CallbackChecks(s: Shared): Shared {
    if !s.callback.Loaded? then s
    else if s.flags.paused || s.flags.stopped then s.(callback := Quiet)
    else s.(callback := Converted(s.callback.epoch, s.callback.input),
            log := s.log.(captured := s.log.captured + s.callback.input))
  }

  function CallbackEnqueues(s: Shared): Shared {
    if !s.callback.Converted? then s
    else
      var samples := s.callback.samples;
      if s.worker == Exited then s.(callback := Refused, log := s.log.(lost := s.log.lost + |samples|))
      else if |s.queue| < QUEUE_CAPACITY then
        s.(callback := Quiet, queue := s.queue + [Samples(s.callback.epoch, samples)])
      else s.(callback := Overflowed(|samples|))
  }

  /** A full queue drops the samples, a queue that is gone is a failure. */
  function CallbackSettles(s: Shared): Shared {
    match s.callback
    case Overflowed(count) => s.(callback := Quiet, counters := s.counters.(dropped := s.counters.dropped + count))
    case Refused => s.(callback := Quiet, flags := s.flags.(failed := true))
    case _ => s
  }

  // The worker. Its queue goes away with it.

  function QueuedSamples(queue: seq<Message>): nat {
    if queue == [] then 0 else QueuedSamples(queue[..|queue| - 1]) + Size(queue[|queue| - 1])
  }

  function Size(m: Message): nat {
    match m
    case Samples(_, samples) => |samples|
    case StateNote(_) => 0
  }

  function WorkerExits(s: Shared): Shared {
    s.(worker := Exited, queue := [], log := s.log.(lost := s.log.lost + QueuedSamples(s.queue)))
  }

  function WorkerChecksStop(s: Shared): Shared {
    if s.worker != AtTop then s
    else if s.flags.stopped then WorkerExits(s)
    else s.(worker := BeforeDroppedSwap)
  }

  function WorkerReportsDropped(s: Shared): Shared {
    if s.worker != BeforeDroppedSwap then s
    else if s.counters.dropped == 0 then s.(worker := BeforeInputSwap)
    else
      var count := s.counters.dropped;
      var swapped := s.(counters := s.counters.(dropped := 0));
      if s.flags.channelOpen then
        Sent(swapped.(worker := BeforeInputSwap, log := s.log.(reportedDropped := s.log.reportedDropped + count)),
             Lost(LocalBufferFull, DroppedChunkEstimate(count, RATE)))
      else WorkerExits(swapped.(flags := s.flags.(stopped := true), log := s.log.(lost := s.log.lost + count)))
  }

  function WorkerSwapsInput(s: Shared): Shared {
    if s.worker != BeforeInputSwap then s
    else s.(worker := BeforeOutputSwap(s.counters.discardedInput), counters := s.counters.(discardedInput := 0))
  }

  function WorkerReportsDiscarded(s: Shared): Shared {
    if !s.worker.BeforeOutputSwap? then s
    else
      var count := s.worker.input + s.counters.discardedOutput;
      var chunks := DiscardedChunks(s.worker.input, s.counters.discardedOutput);
      var next := s.(worker := BeforeFailureCheck, counters := s.counters.(discardedOutput := 0));
      if s.flags.channelOpen then
        var reported := next.(log := s.log.(reportedDiscarded := s.log.reportedDiscarded + count));
        if chunks > 0 then Sent(reported, Lost(UserPausedCapture, chunks)) else reported
      else next.(log := s.log.(lost := s.log.lost + count))
  }

  function WorkerChecksFailure(s: Shared): Shared {
    if s.worker != BeforeFailureCheck then s
    else if s.flags.failed && !s.flags.failureReported then
      Sent(s.(worker := BeforeReceive, flags := s.flags.(failureReported := true, stopped := true)), Broken)
    else s.(worker := BeforeReceive)
  }

  /** An empty queue stands for a receive that times out. */
  function WorkerReceives(s: Shared): Shared {
    if s.worker != BeforeReceive then s
    else if s.queue == [] then s.(worker := AtTop)
    else
      var rest := s.(queue := s.queue[1..]);
      match s.queue[0]
      case Samples(epoch, samples) => rest.(worker := Comparing(epoch, samples))
      case StateNote(state) => Sent(rest.(worker := AtTop), Switched(state))
  }

  function WorkerComparesEpoch(s: Shared): Shared {
    if !s.worker.Comparing? then s
    else if s.worker.epoch == s.flags.epoch then s.(worker := Processing(s.worker.samples))
    else s.(worker := Discarding(|s.worker.samples|))
  }

  function WorkerDiscards(s: Shared): Shared {
    if !s.worker.Discarding? then s
    else s.(worker := AtTop,
            counters := s.counters.(discardedInput := s.counters.discardedInput + s.worker.count))
  }

  function WorkerProcesses(s: Shared): Shared {
    if !s.worker.Processing? then s
    else
      var input := s.held + s.worker.samples;
      s.(worker := Sending(Emitted(input, SAMPLES_PER_CHUNK)), held := LeftOver(input, SAMPLES_PER_CHUNK))
  }

  function SampleCount(chunk: NativeChunk): nat {
    |chunk.bytes| / 2
  }

  function SamplesIn(chunks: seq<NativeChunk>): nat {
    if chunks == [] then 0 else SampleCount(chunks[0]) + SamplesIn(chunks[1..])
  }

  function WorkerSendsChunk(s: Shared): Shared {
    if !s.worker.Sending? then s
    else if s.worker.chunks == [] then s.(worker := AtTop)
    else if s.flags.channelOpen then Sent(s.(worker := Sending(s.worker.chunks[1..])), Captured(s.worker.chunks[0]))
    else s.(worker := AtTop, flags := s.flags.(stopped := true),
            log := s.log.(lost := s.log.lost + SamplesIn(s.worker.chunks)))
  }

  // The commands; a lock admits one at a time.

  /** The first note does not wait: without room it is dropped. */
  function StartNotes(s: Shared): Shared {
    if s.command != BeforeStartNote then s
    else if s.worker != Exited && |s.queue| < QUEUE_CAPACITY
    then s.(command := NoCommand, queue := s.queue + [StateNote(NativeCapturing)])
    else s.(command := NoCommand)
  }

  function PauseStarts(s: Shared): Shared {
    if s.command == NoCommand then s.(command := BeforeEpoch, flags := s.flags.(paused := true)) else s
  }

  function PauseAdvancesEpoch(s: Shared): Shared {
    if s.command == BeforeEpoch
    then s.(command := BeforeReset, flags := s.flags.(epoch := (s.flags.epoch + 1) % (U32_MAX + 1)))
    else s
  }

  function PauseResets(s: Shared): Shared {
    if s.command == BeforeReset then s.(command := BeforeAdd(|s.held|), held := []) else s
  }

  function PauseAddsDiscarded(s: Shared): Shared {
    if s.command.BeforeAdd?
    then s.(command := BeforePauseNote,
            counters := s.counters.(discardedOutput := s.counters.discardedOutput + s.command.output))
    else s
  }

  /** A note waits for room in the queue; without a worker the command fails instead. */
  function NoteSent(s: Shared, state: NativeState, next: Command): Shared {
    if s.worker == Exited then s.(command := NoCommand)
    else if |s.queue| < QUEUE_CAPACITY then s.(command := next, queue := s.queue + [StateNote(state)])
    else s
  }

  function PauseNotes(s: Shared): Shared {
    if s.command == BeforePauseNote then NoteSent(s, NativePaused, NoCommand) else s
  }

  function ResumeStarts(s: Shared): Shared {
    if s.command == NoCommand && !s.flags.failed then s.(command := BeforeResumeNote) else s
  }

  function ResumeNotes(s: Shared): Shared {
    if s.command == BeforeResumeNote then NoteSent(s, NativeCapturing, BeforeUnpause) else s
  }

  function ResumeUnpauses(s: Shared): Shared {
    if s.command == BeforeUnpause then s.(command := NoCommand, flags := s.flags.(paused := false)) else s
  }

  function Stops(s: Shared): Shared {
    if s.command == NoCommand then s.(flags := s.flags.(stopped := true)) else s
  }

  datatype Step =
    | CallbackStarted(input: seq<Sample>) | CallbackChecked | CallbackEnqueued | CallbackSettled
    | DeviceFailed | ChannelClosed
    | WorkerCheckedStop | WorkerReportedDropped | WorkerSwappedInput | WorkerReportedDiscarded
    | WorkerCheckedFailure | WorkerReceived
    | WorkerComparedEpoch | WorkerDiscarded | WorkerProcessed | WorkerSentChunk
    | StartNoted
    | PauseStarted | PauseAdvancedEpoch | PauseReset | PauseAdded | PauseNoted
    | ResumeStarted | ResumeNoted | ResumeUnpaused | StopDone

  function Take(s: Shared, step: Step): Shared {
    match step
    case CallbackStarted(input) => CallbackStarts(s, input)
    case CallbackChecked => CallbackChecks(s)
    case CallbackEnqueued => CallbackEnqueues(s)
    case CallbackSettled => CallbackSettles(s)
    case DeviceFailed => s.(flags := s.flags.(failed := true))
    case ChannelClosed => s.(flags := s.flags.(channelOpen := false))
    case WorkerCheckedStop => WorkerChecksStop(s)
    case WorkerReportedDropped => WorkerReportsDropped(s)
    case WorkerSwappedInput => WorkerSwapsInput(s)
    case WorkerReportedDiscarded => WorkerReportsDiscarded(s)
    case WorkerCheckedFailure => WorkerChecksFailure(s)
    case WorkerReceived => WorkerReceives(s)
    case WorkerComparedEpoch => WorkerComparesEpoch(s)
    case WorkerDiscarded => WorkerDiscards(s)
    case WorkerProcessed => WorkerProcesses(s)
    case WorkerSentChunk => WorkerSendsChunk(s)
    case StartNoted => StartNotes(s)
    case PauseStarted => PauseStarts(s)
    case PauseAdvancedEpoch => PauseAdvancesEpoch(s)
    case PauseReset => PauseResets(s)
    case PauseAdded => PauseAddsDiscarded(s)
    case PauseNoted => PauseNotes(s)
    case ResumeStarted => ResumeStarts(s)
    case ResumeNoted => ResumeNotes(s)
    case ResumeUnpaused => ResumeUnpauses(s)
    case StopDone => Stops(s)
  }

  function TakeAll(steps: seq<Step>): Shared {
    if steps == [] then STARTED else Take(TakeAll(steps[..|steps| - 1]), steps[|steps| - 1])
  }

  // Where the captured samples are.

  function HeldByCallback(c: Callback): nat {
    match c
    case Converted(_, samples) => |samples|
    case Overflowed(count) => count
    case _ => 0
  }

  function HeldByWorker(w: Worker): nat {
    match w
    case BeforeOutputSwap(input) => input
    case Comparing(_, samples) => |samples|
    case Discarding(count) => count
    case Processing(samples) => |samples|
    case Sending(chunks) => SamplesIn(chunks)
    case _ => 0
  }

  function HeldByCommand(c: Command): nat {
    match c
    case BeforeAdd(output) => output
    case _ => 0
  }

  function SamplesSent(events: seq<NativeEvent>): nat {
    if events == [] then 0 else SamplesSent(events[..|events| - 1]) + SentBy(events[|events| - 1])
  }

  function SentBy(e: NativeEvent): nat {
    match e
    case Captured(chunk) => SampleCount(chunk)
    case _ => 0
  }

  function InFlight(s: Shared): nat {
    |s.held| + QueuedSamples(s.queue) + HeldByCallback(s.callback) + HeldByWorker(s.worker) + HeldByCommand(s.command)
  }

  function GivenUp(s: Shared): nat {
    s.counters.dropped + s.counters.discardedInput + s.counters.discardedOutput
    + s.log.reportedDropped + s.log.reportedDiscarded + s.log.lost
  }

  predicate Accounted(s: Shared) {
    && |s.log.captured| == SamplesSent(s.events) + InFlight(s) + GivenUp(s)
    && (s.log.lost > 0 ==> s.worker == Exited || s.flags.stopped || !s.flags.channelOpen)
    && (s.worker == Exited ==> s.flags.stopped && s.queue == [])
    && |s.queue| <= QUEUE_CAPACITY
    && |s.held| < SAMPLES_PER_CHUNK
  }

  /** In every interleaving, every captured sample has been sent, is on its way, is counted as dropped or
      discarded, or was lost after the stream stopped or its listener went away. */
  lemma {:induction false} EverySampleIsAccountedFor(steps: seq<Step>)
    ensures Accounted(TakeAll(steps))
  {
    if steps != [] {
      EverySampleIsAccountedFor(steps[..|steps| - 1]);
      StepIsAccounted(TakeAll(steps[..|steps| - 1]), steps[|steps| - 1]);
    }
  }

  // The steps, one by one.

  lemma SentSnoc(events: seq<NativeEvent>, e: NativeEvent)
    ensures SamplesSent(events + [e]) == SamplesSent(events) + SentBy(e)
  {
    assert (events + [e])[..|events|] == events;
  }

  lemma QueuedSnoc(queue: seq<Message>, m: Message)
    ensures QueuedSamples(queue + [m]) == QueuedSamples(queue) + Size(m)
  {
    assert (queue + [m])[..|queue|] == queue;
  }

  lemma {:induction false} QueuedFirst(queue: seq<Message>)
    requires queue != []
    ensures QueuedSamples(queue) == QueuedSamples(queue[1..]) + Size(queue[0])
  {
    var n := |queue| - 1;
    if n > 0 {
      QueuedFirst(queue[..n]);
      assert queue[1..][..n - 1] == queue[..n][1..];
    }
  }

  lemma {:induction false} ProcessingCounts(samples: seq<Sample>, size: Positive)
    ensures SamplesIn(Emitted(samples, size)) + |LeftOver(samples, size)| == |samples|
  {
    if |samples| >= size {
      ProcessingCounts(samples[size..], size);
    }
  }

  lemma CheckingIsAccounted(s: Shared)
    requires Accounted(s)
    ensures Accounted(CallbackChecks(s))
  {
  }

  lemma EnqueueingIsAccounted(s: Shared)
    requires Accounted(s)
    ensures Accounted(CallbackEnqueues(s))
  {
    if s.callback.Converted? && s.worker != Exited && |s.queue| < QUEUE_CAPACITY {
      QueueingIsAccounted(s);
    } else {
      var s' := CallbackEnqueues(s);
      assert InFlight(s') + GivenUp(s') == InFlight(s) + GivenUp(s);
    }
  }

  lemma SettlingIsAccounted(s: Shared)
    requires Accounted(s)
    ensures Accounted(CallbackSettles(s))
  {
    MovingIsAccounted(s, CallbackSettles(s));
  }

  lemma QueueingIsAccounted(s: Shared)
    requires Accounted(s) && s.callback.Converted? && s.worker != Exited && |s.queue| < QUEUE_CAPACITY
    ensures Accounted(CallbackEnqueues(s))
  {
    QueuedSnoc(s.queue, Samples(s.callback.epoch, s.callback.samples));
    var s' := CallbackEnqueues(s);
    assert s'.queue == s.queue + [Samples(s.callback.epoch, s.callback.samples)];
    assert InFlight(s') == InFlight(s);
    assert GivenUp(s') == GivenUp(s);
  }

  lemma ExitingIsAccounted(s: Shared)
    requires Accounted(s) && s.flags.stopped && HeldByWorker(s.worker) == 0
    ensures Accounted(WorkerExits(s))
  {
    var s' := WorkerExits(s);
    assert InFlight(s') + GivenUp(s') == InFlight(s) + GivenUp(s);
  }

  lemma CheckingStopIsAccounted(s: Shared)
    requires Accounted(s)
    ensures Accounted(WorkerChecksStop(s))
  {
    if s.worker == AtTop && s.flags.stopped {
      ExitingIsAccounted(s);
    } else {
      MovingIsAccounted(s, WorkerChecksStop(s));
    }
  }

  lemma ReportingDroppedIsAccounted(s: Shared)
    requires Accounted(s)
    ensures Accounted(WorkerReportsDropped(s))
  {
    if s.worker == BeforeDroppedSwap && s.counters.dropped > 0 {
      if s.flags.channelOpen {
        SentSnoc(s.events, Lost(LocalBufferFull, DroppedChunkEstimate(s.counters.dropped, RATE)));
      } else {
        var stopped := s.(counters := s.counters.(dropped := 0), flags := s.flags.(stopped := true),
                          log := s.log.(lost := s.log.lost + s.counters.dropped));
        assert GivenUp(stopped) == GivenUp(s);
        ExitingIsAccounted(stopped);
      }
    }
  }

  lemma ReportingDiscardedIsAccounted(s: Shared)
    requires Accounted(s)
    ensures Accounted(WorkerReportsDiscarded(s))
  {
    if s.worker.BeforeOutputSwap? {
      var s' := WorkerReportsDiscarded(s);
      assert InFlight(s') + GivenUp(s') == InFlight(s) + GivenUp(s);
      if s'.events != s.events {
        SentSnoc(s.events, Lost(UserPausedCapture, DiscardedChunks(s.worker.input, s.counters.discardedOutput)));
      }
    }
  }

  lemma CheckingFailureIsAccounted(s: Shared)
    requires Accounted(s)
    ensures Accounted(WorkerChecksFailure(s))
  {
    SentSnoc(s.events, Broken);
  }

  lemma ReceivingIsAccounted(s: Shared)
    requires Accounted(s)
    ensures Accounted(WorkerReceives(s))
  {
    if s.queue != [] {
      QueuedFirst(s.queue);
      if s.queue[0].StateNote? {
        SentSnoc(s.events, Switched(s.queue[0].state));
      }
    }
  }

  lemma ProcessingIsAccounted(s: Shared)
    requires Accounted(s)
    ensures Accounted(WorkerProcesses(s))
  {
    if s.worker.Processing? {
      ProcessingCounts(s.held + s.worker.samples, SAMPLES_PER_CHUNK);
    }
  }

  lemma SendingIsAccounted(s: Shared)
    requires Accounted(s)
    ensures Accounted(WorkerSendsChunk(s))
  {
    if s.worker.Sending? && s.worker.chunks != [] {
      var s' := WorkerSendsChunk(s);
      var first, rest := s.worker.chunks[0], s.worker.chunks[1..];
      assert SamplesIn(s.worker.chunks) == SampleCount(first) + SamplesIn(rest);
      if s.flags.channelOpen {
        SentSnoc(s.events, Captured(first));
        assert s'.events == s.events + [Captured(first)] && s'.worker == Sending(rest);
        assert InFlight(s') + SampleCount(first) == InFlight(s) && GivenUp(s') == GivenUp(s);
      } else {
        assert InFlight(s') + GivenUp(s') == InFlight(s) + GivenUp(s);
      }
    }
  }

  lemma NotingIsAccounted(s: Shared, state: NativeState, next: Command)
    requires Accounted(s) && HeldByCommand(s.command) == HeldByCommand(next) == 0
    ensures Accounted(NoteSent(s, state, next))
  {
    if s.worker != Exited && |s.queue| < QUEUE_CAPACITY {
      QueuedSnoc(s.queue, StateNote(state));
      var s' := NoteSent(s, state, next);
      assert s'.queue == s.queue + [StateNote(state)];
      assert QueuedSamples(s'.queue) == QueuedSamples(s.queue);
      assert InFlight(s') == InFlight(s);
      assert GivenUp(s') == GivenUp(s);
    }
  }

  lemma StartNotingIsAccounted(s: Shared)
    requires Accounted(s) && s.command == BeforeStartNote
    ensures Accounted(StartNotes(s))
  {
    if s.worker != Exited && |s.queue| < QUEUE_CAPACITY {
      NotingIsAccounted(s, NativeCapturing, NoCommand);
    } else {
      MovingIsAccounted(s, StartNotes(s));
    }
  }

  /** Moving samples from one holder to another keeps the account. */
  predicate Moves(s: Shared, s': Shared) {
    && s'.log.captured == s.log.captured && s'.events == s.events && s'.queue == s.queue && s'.log.lost == s.log.lost
    && InFlight(s') + GivenUp(s') == InFlight(s) + GivenUp(s)
    && (s.flags.stopped ==> s'.flags.stopped) && (!s.flags.channelOpen ==> !s'.flags.channelOpen)
    && (s'.worker == Exited <==> s.worker == Exited)
    && |s'.held| <= |s.held|
  }

  lemma MovingIsAccounted(s: Shared, s': Shared)
    requires Accounted(s) && Moves(s, s')
    ensures Accounted(s')
  {
  }

  lemma SwappingIsAccounted(s: Shared)
    requires Accounted(s)
    ensures Accounted(WorkerSwapsInput(s))
  {
    MovingIsAccounted(s, WorkerSwapsInput(s));
  }

  lemma ComparingIsAccounted(s: Shared)
    requires Accounted(s)
    ensures Accounted(WorkerComparesEpoch(s))
  {
    MovingIsAccounted(s, WorkerComparesEpoch(s));
  }

  lemma DiscardingIsAccounted(s: Shared)
    requires Accounted(s)
    ensures Accounted(WorkerDiscards(s))
  {
    MovingIsAccounted(s, WorkerDiscards(s));
  }

  lemma PausingStartsIsAccounted(s: Shared)
    requires Accounted(s)
    ensures Accounted(PauseStarts(s))
  {
    MovingIsAccounted(s, PauseStarts(s));
  }

  lemma PauseAdvancesIsAccounted(s: Shared)
    requires Accounted(s)
    ensures Accounted(PauseAdvancesEpoch(s))
  {
    MovingIsAccounted(s, PauseAdvancesEpoch(s));
  }

  lemma ResettingIsAccounted(s: Shared)
    requires Accounted(s)
    ensures Accounted(PauseResets(s))
  {
    MovingIsAccounted(s, PauseResets(s));
  }

  lemma AddingIsAccounted(s: Shared)
    requires Accounted(s)
    ensures Accounted(PauseAddsDiscarded(s))
  {
    MovingIsAccounted(s, PauseAddsDiscarded(s));
  }

  lemma CallbackStepIsAccounted(s: Shared, step: Step)
    requires Accounted(s)
    requires step.CallbackStarted? || step.CallbackChecked? || step.CallbackEnqueued? || step.CallbackSettled?
      || step.DeviceFailed? || step.ChannelClosed?
    ensures Accounted(Take(s, step))
  {
    match step
    case CallbackChecked => CheckingIsAccounted(s);
    case CallbackEnqueued => EnqueueingIsAccounted(s);
    case CallbackSettled => SettlingIsAccounted(s);
    case _ => MovingIsAccounted(s, Take(s, step));
  }

  predicate ByWorker(step: Step) {
    || step.WorkerCheckedStop? || step.WorkerReportedDropped? || step.WorkerSwappedInput?
    || step.WorkerReportedDiscarded? || step.WorkerCheckedFailure? || step.WorkerReceived?
    || step.WorkerComparedEpoch? || step.WorkerDiscarded? || step.WorkerProcessed? || step.WorkerSentChunk?
  }

  lemma WorkerStepIsAccounted(s: Shared, step: Step)
    requires Accounted(s) && ByWorker(step)
    ensures Accounted(Take(s, step))
  {
    match step
    case WorkerCheckedStop => CheckingStopIsAccounted(s);
    case WorkerReportedDropped => ReportingDroppedIsAccounted(s);
    case WorkerSwappedInput => SwappingIsAccounted(s);
    case WorkerReportedDiscarded => ReportingDiscardedIsAccounted(s);
    case WorkerCheckedFailure => CheckingFailureIsAccounted(s);
    case WorkerReceived => ReceivingIsAccounted(s);
    case WorkerComparedEpoch => ComparingIsAccounted(s);
    case WorkerDiscarded => DiscardingIsAccounted(s);
    case WorkerProcessed => ProcessingIsAccounted(s);
    case WorkerSentChunk => SendingIsAccounted(s);
  }

  predicate ByPause(step: Step) {
    step.PauseStarted? || step.PauseAdvancedEpoch? || step.PauseReset? || step.PauseAdded? || step.PauseNoted?
  }

  lemma PauseStepIsAccounted(s: Shared, step: Step)
    requires Accounted(s) && ByPause(step)
    ensures Accounted(Take(s, step))
  {
    match step
    case PauseStarted => PausingStartsIsAccounted(s);
    case PauseAdvancedEpoch => PauseAdvancesIsAccounted(s);
    case PauseReset => ResettingIsAccounted(s);
    case PauseAdded => AddingIsAccounted(s);
    case PauseNoted => if s.command == BeforePauseNote { NotingIsAccounted(s, NativePaused, NoCommand); }
  }

  lemma ResumeStepIsAccounted(s: Shared, step: Step)
    requires Accounted(s)
    requires step.StartNoted? || step.ResumeStarted? || step.ResumeNoted? || step.ResumeUnpaused? || step.StopDone?
    ensures Accounted(Take(s, step))
  {
    match step
    case StartNoted => if s.command == BeforeStartNote { StartNotingIsAccounted(s); }
    case ResumeNoted => if s.command == BeforeResumeNote { NotingIsAccounted(s, NativeCapturing, BeforeUnpause); }
    case _ => MovingIsAccounted(s, Take(s, step));
  }

  lemma StepIsAccounted(s: Shared, step: Step)
    requires Accounted(s)
    ensures Accounted(Take(s, step))
  {
    if ByWorker(step) {
      WorkerStepIsAccounted(s, step);
    } else if ByPause(step) {
      PauseStepIsAccounted(s, step);
    } else if step.StartNoted? || step.ResumeStarted? || step.ResumeNoted? || step.ResumeUnpaused? || step.StopDone? {
      ResumeStepIsAccounted(s, step);
    } else {
      CallbackStepIsAccounted(s, step);
    }
  }
}
