/** The order of the samples that the native capture threads send. */
module NativeOrder {
  import opened AudioBuffer
  import opened Capture
  import opened AudioProcessing
  import opened NativeCapture
  import opened Sequences

  function SamplesOf(e: NativeEvent): seq<Sample> {
    match e
    case Captured(chunk) => FromBytes(chunk.bytes)
    case _ => []
  }

  /** The samples of the chunks sent. */
  function Heard(events: seq<NativeEvent>): seq<Sample> {
    if events == [] then [] else Heard(events[..|events| - 1]) + SamplesOf(events[|events| - 1])
  }

  /** Processed, and on their way to the listener. */
  function Outgoing(w: Worker): seq<Sample> {
    match w
    case Sending(chunks) => Decoded(chunks)
    case _ => []
  }

  /** Received, and on their way to the processor. */
  function Incoming(w: Worker): seq<Sample> {
    match w
    case Comparing(_, samples) => samples
    case Processing(samples) => samples
    case _ => []
  }

  function Carried(m: Message): seq<Sample> {
    match m
    case Samples(_, samples) => samples
    case StateNote(_) => []
  }

  function Queued(queue: seq<Message>): seq<Sample> {
    if queue == [] then [] else Queued(queue[..|queue| - 1]) + Carried(queue[|queue| - 1])
  }

  function Waiting(c: Callback): seq<Sample> {
    match c
    case Converted(_, samples) => samples
    case _ => []
  }

  /** All samples between the microphone and the listener, oldest first. */
  datatype Parts = Parts(heard: seq<Sample>, outgoing: seq<Sample>, held: seq<Sample>, incoming: seq<Sample>,
                         queued: seq<Sample>, waiting: seq<Sample>)

  function PartsOf(s: Shared): Parts {
    Parts(Heard(s.events), Outgoing(s.worker), s.held, Incoming(s.worker), Queued(s.queue), Waiting(s.callback))
  }

  function Pipeline(p: Parts): seq<Sample> {
    p.heard + p.outgoing + p.held + p.incoming + p.queued + p.waiting
  }

  ghost predicate InOrder(s: Shared) {
    Subsequence(Pipeline(PartsOf(s)), s.log.captured)
  }

  lemma HeardSnoc(events: seq<NativeEvent>, e: NativeEvent)
    ensures Heard(events + [e]) == Heard(events) + SamplesOf(e)
  {
    assert (events + [e])[..|events|] == events;
  }

  lemma TellingAddsNoSample(events: seq<NativeEvent>, e: NativeEvent)
    requires !e.Captured?
    ensures Heard(events + [e]) == Heard(events)
  {
    HeardSnoc(events, e);
  }

  lemma QueuedMore(queue: seq<Message>, m: Message)
    ensures Queued(queue + [m]) == Queued(queue) + Carried(m)
  {
    assert (queue + [m])[..|queue|] == queue;
  }

  lemma {:induction false} QueuedFirstOut(queue: seq<Message>)
    requires queue != []
    ensures Queued(queue) == Carried(queue[0]) + Queued(queue[1..])
  {
    var n := |queue| - 1;
    if n > 0 {
      QueuedFirstOut(queue[..n]);
      assert queue[1..][..n - 1] == queue[..n][1..];
      Regroup(Carried(queue[0]), Queued(queue[..n][1..]), Carried(queue[n]));
    } else {
      assert queue[1..] == [] && queue[..0] == [];
    }
  }

  // What a step can do to the parts.

  predicate Moved(p: Parts, q: Parts) {
    Pipeline(q) == Pipeline(p)
  }

  /** Some of the parts, and with them nothing else, are gone. */
  ghost predicate Thinned(p: Parts, q: Parts) {
    forall captured: seq<Sample> | Subsequence(Pipeline(p), captured) :: Subsequence(Pipeline(q), captured)
  }

  lemma PartTakenOut(p: Parts, q: Parts, before: seq<Sample>, part: seq<Sample>, after: seq<Sample>)
    requires Pipeline(p) == before + part + after && Pipeline(q) == before + after
    ensures Thinned(p, q)
  {
    forall captured: seq<Sample> | Subsequence(Pipeline(p), captured)
      ensures Subsequence(Pipeline(q), captured)
    {
      SubsequenceWithoutPart(before, part, after, captured);
    }
  }

  lemma WithoutOutgoing(p: Parts)
    ensures Thinned(p, p.(outgoing := []))
  {
    PartTakenOut(p, p.(outgoing := []), p.heard, p.outgoing, p.held + p.incoming + p.queued + p.waiting);
  }

  lemma WithoutHeld(p: Parts)
    ensures Thinned(p, p.(held := []))
  {
    PartTakenOut(p, p.(held := []), p.heard + p.outgoing, p.held, p.incoming + p.queued + p.waiting);
  }

  lemma WithoutIncoming(p: Parts)
    ensures Thinned(p, p.(incoming := []))
  {
    PartTakenOut(p, p.(incoming := []), p.heard + p.outgoing + p.held, p.incoming, p.queued + p.waiting);
  }

  lemma WithoutQueued(p: Parts)
    ensures Thinned(p, p.(queued := []))
  {
    PartTakenOut(p, p.(queued := []), p.heard + p.outgoing + p.held + p.incoming, p.queued, p.waiting);
  }

  lemma WithoutWaiting(p: Parts)
    ensures Thinned(p, p.(waiting := []))
  {
    PartTakenOut(p, p.(waiting := []), p.heard + p.outgoing + p.held + p.incoming + p.queued, p.waiting, []);
  }

  lemma WaitingIsQueued(p: Parts)
    ensures Moved(p, p.(queued := p.queued + p.waiting, waiting := []))
  {
  }

  lemma QueuedIsIncoming(p: Parts, first: seq<Sample>, rest: seq<Sample>)
    requires p.incoming == [] && p.queued == first + rest
    ensures Moved(p, p.(incoming := first, queued := rest))
  {
    Regroup(p.heard + p.outgoing + p.held, first, rest);
  }

  lemma IncomingIsProcessed(p: Parts, outgoing: seq<Sample>, held: seq<Sample>)
    requires p.outgoing == [] && outgoing + held == p.held + p.incoming
    ensures Moved(p, p.(outgoing := outgoing, held := held, incoming := []))
  {
    Regroup(p.heard, outgoing, held);
    Regroup(p.heard, p.held, p.incoming);
  }

  lemma OutgoingIsHeard(p: Parts, first: seq<Sample>, rest: seq<Sample>)
    requires p.outgoing == first + rest
    ensures Moved(p, p.(heard := p.heard + first, outgoing := rest))
  {
    Regroup(p.heard, first, rest);
  }

  // The steps.

  ghost predicate KeepsOrder(s: Shared, s': Shared) {
    s'.log.captured == s.log.captured && (Moved(PartsOf(s), PartsOf(s')) || Thinned(PartsOf(s), PartsOf(s')))
  }

  lemma CheckingKeepsOrder(s: Shared)
    requires InOrder(s)
    ensures InOrder(CallbackChecks(s))
  {
    var s' := CallbackChecks(s);
    if s'.callback.Converted? && s.callback.Loaded? {
      var input := s.callback.input;
      SubsequenceAppend(Pipeline(PartsOf(s)), s.log.captured, input);
      assert PartsOf(s') == PartsOf(s).(waiting := input);
      assert Pipeline(PartsOf(s')) == Pipeline(PartsOf(s)) + input;
    } else {
      assert PartsOf(s') == PartsOf(s);
    }
  }

  lemma EnqueueingKeepsOrder(s: Shared)
    ensures KeepsOrder(s, CallbackEnqueues(s))
  {
    if s.callback.Converted? {
      var p, p' := PartsOf(s), PartsOf(CallbackEnqueues(s));
      if s.worker != Exited && |s.queue| < QUEUE_CAPACITY {
        QueuedMore(s.queue, Samples(s.callback.epoch, s.callback.samples));
        assert p' == p.(queued := p.queued + p.waiting, waiting := []);
        WaitingIsQueued(p);
      } else {
        assert p' == p.(waiting := []);
        WithoutWaiting(p);
      }
    }
  }

  lemma ExitingKeepsOrder(s: Shared)
    requires Outgoing(s.worker) == Incoming(s.worker) == []
    ensures KeepsOrder(s, WorkerExits(s))
  {
    WithoutQueued(PartsOf(s));
    assert PartsOf(WorkerExits(s)) == PartsOf(s).(queued := []);
  }

  lemma ReportingKeepsOrder(s: Shared)
    ensures KeepsOrder(s, WorkerReportsDropped(s))
  {
    if s.worker == BeforeDroppedSwap && s.counters.dropped > 0 {
      TellingAddsNoSample(s.events, Lost(LocalBufferFull, DroppedChunkEstimate(s.counters.dropped, RATE)));
      WithoutQueued(PartsOf(s));
      assert !s.flags.channelOpen ==> PartsOf(WorkerReportsDropped(s)) == PartsOf(s).(queued := []);
    }
  }

  lemma ReportingDiscardedKeepsOrder(s: Shared)
    ensures KeepsOrder(s, WorkerReportsDiscarded(s))
  {
    var s' := WorkerReportsDiscarded(s);
    if s'.events != s.events {
      TellingAddsNoSample(s.events, s'.events[|s.events|]);
    }
    assert PartsOf(s') == PartsOf(s);
  }

  lemma CheckingFailureKeepsOrder(s: Shared)
    ensures KeepsOrder(s, WorkerChecksFailure(s))
  {
    HeardSnoc(s.events, Broken);
    assert PartsOf(WorkerChecksFailure(s)) == PartsOf(s);
  }

  lemma ReceivingSamplesKeepsOrder(s: Shared)
    requires s.worker == BeforeReceive && s.queue != [] && s.queue[0].Samples?
    ensures KeepsOrder(s, WorkerReceives(s))
  {
    var p, first, rest := PartsOf(s), Carried(s.queue[0]), Queued(s.queue[1..]);
    QueuedFirstOut(s.queue);
    assert PartsOf(WorkerReceives(s)) == p.(incoming := first, queued := rest);
    QueuedIsIncoming(p, first, rest);
  }

  lemma ReceivingNoteKeepsOrder(s: Shared)
    requires s.worker == BeforeReceive && s.queue != [] && s.queue[0].StateNote?
    ensures KeepsOrder(s, WorkerReceives(s))
  {
    QueuedFirstOut(s.queue);
    assert Queued(s.queue) == Queued(s.queue[1..]);
    TellingAddsNoSample(s.events, Switched(s.queue[0].state));
    assert PartsOf(WorkerReceives(s)) == PartsOf(s);
  }

  lemma ReceivingKeepsOrder(s: Shared)
    ensures KeepsOrder(s, WorkerReceives(s))
  {
    if s.worker == BeforeReceive && s.queue != [] {
      if s.queue[0].Samples? {
        ReceivingSamplesKeepsOrder(s);
      } else {
        ReceivingNoteKeepsOrder(s);
      }
    } else {
      assert PartsOf(WorkerReceives(s)) == PartsOf(s);
    }
  }

  lemma ComparingKeepsOrder(s: Shared)
    ensures KeepsOrder(s, WorkerComparesEpoch(s))
  {
    WithoutIncoming(PartsOf(s));
  }

  lemma ProcessingKeepsOrder(s: Shared)
    ensures KeepsOrder(s, WorkerProcesses(s))
  {
    if s.worker.Processing? {
      var s' := WorkerProcesses(s);
      ChunksDecodeToInput(s.held + s.worker.samples, SAMPLES_PER_CHUNK);
      IncomingIsProcessed(PartsOf(s), Outgoing(s'.worker), s'.held);
    }
  }

  lemma SendingKeepsOrder(s: Shared)
    ensures KeepsOrder(s, WorkerSendsChunk(s))
  {
    if s.worker.Sending? && s.worker.chunks != [] {
      var first, rest := s.worker.chunks[0], s.worker.chunks[1..];
      HeardSnoc(s.events, Captured(first));
      OutgoingIsHeard(PartsOf(s), FromBytes(first.bytes), Decoded(rest));
      WithoutOutgoing(PartsOf(s));
    }
  }

  lemma ResettingKeepsOrder(s: Shared)
    ensures KeepsOrder(s, PauseResets(s))
  {
    WithoutHeld(PartsOf(s));
  }

  lemma NotingKeepsOrder(s: Shared, state: NativeState, next: Command)
    ensures KeepsOrder(s, NoteSent(s, state, next))
  {
    QueuedMore(s.queue, StateNote(state));
    assert PartsOf(NoteSent(s, state, next)) == PartsOf(s);
  }

  lemma StartingKeepsOrder(s: Shared)
    ensures KeepsOrder(s, StartNotes(s))
  {
    QueuedMore(s.queue, StateNote(NativeCapturing));
    assert PartsOf(StartNotes(s)) == PartsOf(s);
  }

  /** The steps that touch only counters and flags. */
  lemma CountingKeepsOrder(s: Shared)
    ensures KeepsOrder(s, WorkerSwapsInput(s)) && KeepsOrder(s, WorkerDiscards(s))
  {
    assert PartsOf(WorkerSwapsInput(s)) == PartsOf(s);
    assert PartsOf(WorkerDiscards(s)) == PartsOf(s);
  }

  lemma CheckingStopKeepsOrder(s: Shared)
    ensures KeepsOrder(s, WorkerChecksStop(s))
  {
    if s.worker == AtTop && s.flags.stopped {
      ExitingKeepsOrder(s);
    } else {
      assert PartsOf(WorkerChecksStop(s)) == PartsOf(s);
    }
  }

  lemma WorkerStepKeepsOrder(s: Shared, step: Step)
    requires ByWorker(step)
    ensures KeepsOrder(s, Take(s, step))
  {
    match step
    case WorkerCheckedStop => CheckingStopKeepsOrder(s);
    case WorkerReportedDropped => ReportingKeepsOrder(s);
    case WorkerSwappedInput => CountingKeepsOrder(s);
    case WorkerReportedDiscarded => ReportingDiscardedKeepsOrder(s);
    case WorkerCheckedFailure => CheckingFailureKeepsOrder(s);
    case WorkerReceived => ReceivingKeepsOrder(s);
    case WorkerComparedEpoch => ComparingKeepsOrder(s);
    case WorkerDiscarded => CountingKeepsOrder(s);
    case WorkerProcessed => ProcessingKeepsOrder(s);
    case WorkerSentChunk => SendingKeepsOrder(s);
  }

  lemma OtherStepKeepsOrder(s: Shared, step: Step)
    requires !ByWorker(step) && step != CallbackChecked
    ensures KeepsOrder(s, Take(s, step))
  {
    match step
    case CallbackEnqueued => EnqueueingKeepsOrder(s);
    case PauseReset => ResettingKeepsOrder(s);
    case PauseNoted => NotingKeepsOrder(s, NativePaused, NoCommand);
    case ResumeNoted => NotingKeepsOrder(s, NativeCapturing, BeforeUnpause);
    case StartNoted => StartingKeepsOrder(s);
    case _ =>
  }

  lemma StepKeepsOrder(s: Shared, step: Step)
    requires InOrder(s)
    ensures InOrder(Take(s, step))
  {
    if step == CallbackChecked {
      CheckingKeepsOrder(s);
    } else if ByWorker(step) {
      WorkerStepKeepsOrder(s, step);
    } else {
      OtherStepKeepsOrder(s, step);
    }
  }

  lemma {:induction false} RunKeepsOrder(steps: seq<Step>)
    ensures InOrder(TakeAll(steps))
  {
    if steps != [] {
      RunKeepsOrder(steps[..|steps| - 1]);
      StepKeepsOrder(TakeAll(steps[..|steps| - 1]), steps[|steps| - 1]);
    }
  }

  /** In every interleaving, the chunks sent decode to captured samples in the order in which they were
      captured: none is changed, repeated or moved. */
  lemma SentSamplesAreCapturedInOrder(steps: seq<Step>)
    ensures Subsequence(Heard(TakeAll(steps).events), TakeAll(steps).log.captured)
  {
    var s := TakeAll(steps);
    RunKeepsOrder(steps);
    HeardComesFirst(PartsOf(s), s.log.captured);
  }

  lemma HeardComesFirst(p: Parts, captured: seq<Sample>)
    requires Subsequence(Pipeline(p), captured)
    ensures Subsequence(p.heard, captured)
  {
    var rest := p.outgoing + p.held + p.incoming + p.queued + p.waiting;
    assert Pipeline(p) == p.heard + rest + [];
    SubsequenceWithoutPart(p.heard, rest, [], captured);
    assert p.heard + [] == p.heard;
  }
}
