/** What the native capture threads must do, besides losing nothing unaccounted for: audio of a stream that is left
    alone gets through, notes arrive in order, a failure is told once
    (apps/desktop/src-tauri/src/microphone_stream.rs:217-262, 314-334, 353-363, 376-461). */
module NativeFlow {
  import opened AudioBuffer
  import opened Capture
  import opened AudioProcessing
  import opened NativeCapture
  import opened NativeOrder
  import opened NativeGaps
  import opened Sequences

  // Nothing given up means nothing missing.

  lemma {:induction false} FromBytesLength(bytes: seq<Byte>)
    ensures |FromBytes(bytes)| == |bytes| / 2
  {
    if |bytes| >= 2 {
      FromBytesLength(bytes[2..]);
    }
  }

  lemma {:induction false} HeardLength(events: seq<NativeEvent>)
    ensures |Heard(events)| == SamplesSent(events)
  {
    if events != [] {
      var last := events[|events| - 1];
      HeardLength(events[..|events| - 1]);
      if last.Captured? {
        FromBytesLength(last.chunk.bytes);
      }
    }
  }

  lemma {:induction false} DecodedLength(chunks: seq<NativeChunk>)
    ensures |Decoded(chunks)| == SamplesIn(chunks)
  {
    if chunks != [] {
      FromBytesLength(chunks[0].bytes);
      DecodedLength(chunks[1..]);
    }
  }

  lemma {:induction false} QueuedLength(queue: seq<Message>)
    ensures |Queued(queue)| == QueuedSamples(queue)
  {
    if queue != [] {
      QueuedLength(queue[..|queue| - 1]);
    }
  }

  /** Samples that have left the pipeline, or are being counted out of it. */
  function Missing(s: Shared): nat {
    GivenUp(s)
    + (match s.callback case Overflowed(count) => count case _ => 0)
    + (match s.worker case Discarding(count) => count case BeforeOutputSwap(input) => input case _ => 0)
    + HeldByCommand(s.command)
  }

  lemma PipelineLength(s: Shared)
    requires Accounted(s)
    ensures |Pipeline(PartsOf(s))| + Missing(s) == |s.log.captured|
  {
    HeardLength(s.events);
    QueuedLength(s.queue);
    if s.worker.Sending? {
      DecodedLength(s.worker.chunks);
    }
  }

  lemma {:induction false} WholeSubsequence<T>(a: seq<T>, b: seq<T>)
    requires Subsequence(a, b)
    ensures |a| <= |b| && (|a| == |b| ==> a == b)
    decreases |b|
  {
    if a != [] {
      if a[0] == b[0] && Subsequence(a[1..], b[1..]) {
        WholeSubsequence(a[1..], b[1..]);
      } else {
        WholeSubsequence(a, b[1..]);
      }
    }
  }

  /** In every interleaving: what was sent, with what is on its way, is exactly what was captured, in order, if and only
      if no sample was dropped, discarded or lost. */
  lemma PipelineIsWholeIff(steps: seq<Step>)
    ensures var s := TakeAll(steps);
      Pipeline(PartsOf(s)) == s.log.captured <==> Missing(s) == 0
  {
    var s := TakeAll(steps);
    EverySampleIsAccountedFor(steps);
    RunKeepsOrder(steps);
    PipelineLength(s);
    WholeSubsequence(Pipeline(PartsOf(s)), s.log.captured);
  }

  // A stream that is left alone.

  /** No pause, stop or failure, and somebody listens. */
  predicate LeftAlone(steps: seq<Step>) {
    PauseAdvancedEpoch !in steps && StopDone !in steps && DeviceFailed !in steps && ChannelClosed !in steps
  }

  /** No message finds the queue full. */
  predicate NeverFull(steps: seq<Step>) {
    steps == []
    || (&& NeverFull(steps[..|steps| - 1])
        && (steps[|steps| - 1] == CallbackEnqueued ==> |TakeAll(steps[..|steps| - 1]).queue| < QUEUE_CAPACITY))
  }

  predicate RightEpoch(s: Shared) {
    && s.flags.epoch == 0
    && (s.callback.Loaded? || s.callback.Converted? ==> s.callback.epoch == 0)
    && (forall m | m in s.queue :: m.Samples? ==> m.epoch == 0)
    && (s.worker.Comparing? ==> s.worker.epoch == 0)
  }

  predicate NothingMissing(s: Shared) {
    && s.counters == Counters(0, 0, 0)
    && s.log.lost == 0 && s.log.reportedDropped == 0 && s.log.reportedDiscarded == 0
    && !s.callback.Overflowed? && !s.callback.Refused?
    && !s.worker.Discarding? && (s.worker.BeforeOutputSwap? ==> s.worker.input == 0)
    && !s.command.BeforeAdd? && s.command != BeforeReset
  }

  predicate Well(s: Shared) {
    && s.flags.channelOpen && !s.flags.stopped && !s.flags.failed && s.worker != Exited
    && RightEpoch(s) && NothingMissing(s)
  }

  lemma WorkerKeepsWell(s: Shared, step: Step)
    requires Well(s) && ByWorker(step)
    ensures Well(Take(s, step))
  {
    match step
    case WorkerReceived => assert s.queue != [] ==> s.queue[0] in s.queue;
    case _ =>
  }

  lemma OthersKeepWell(s: Shared, step: Step)
    requires Well(s) && !ByWorker(step) && LeftAlone([step])
    requires step == CallbackEnqueued ==> |s.queue| < QUEUE_CAPACITY
    ensures Well(Take(s, step))
  {
    assert step in [step];
  }

  lemma {:induction false} RunStaysWell(steps: seq<Step>)
    requires LeftAlone(steps) && NeverFull(steps)
    ensures Well(TakeAll(steps))
  {
    if steps != [] {
      var before, last := steps[..|steps| - 1], steps[|steps| - 1];
      assert last in steps;
      RunStaysWell(before);
      if ByWorker(last) {
        WorkerKeepsWell(TakeAll(before), last);
      } else {
        OthersKeepWell(TakeAll(before), last);
      }
    }
  }

  /** In every interleaving of a stream that is left alone and whose queue never fills up, no sample goes missing: what
      was sent, with what is on its way, is exactly what was captured, in order. */
  lemma StreamLeftAloneIsWhole(steps: seq<Step>)
    requires LeftAlone(steps) && NeverFull(steps)
    ensures Pipeline(PartsOf(TakeAll(steps))) == TakeAll(steps).log.captured
  {
    RunStaysWell(steps);
    PipelineIsWholeIff(steps);
  }

  // The worker gets everything out.

  predicate AtRest(s: Shared) {
    s.worker == AtTop && s.queue == []
  }

  /** The one step that the worker can take. */
  function NextOf(w: Worker): Step
    requires w != Exited
  {
    match w
    case AtTop => WorkerCheckedStop
    case BeforeDroppedSwap => WorkerReportedDropped
    case BeforeInputSwap => WorkerSwappedInput
    case BeforeOutputSwap(_) => WorkerReportedDiscarded
    case BeforeFailureCheck => WorkerCheckedFailure
    case BeforeReceive => WorkerReceived
    case Comparing(_, _) => WorkerComparedEpoch
    case Discarding(_) => WorkerDiscarded
    case Processing(_) => WorkerProcessed
    case Sending(_) => WorkerSentChunk
  }

  /** How far the worker still has to go with its message, and then round to the next. */
  function Distance(s: Shared): nat {
    if AtRest(s) then 0
    else
      match s.worker
      case Comparing(_, _) => 10
      case Discarding(_) => 9
      case Processing(_) => 9
      case Sending(_) => 8
      case AtTop => 7
      case BeforeDroppedSwap => 6
      case BeforeInputSwap => 5
      case BeforeOutputSwap(_) => 4
      case BeforeFailureCheck => 3
      case BeforeReceive => 2
      case Exited => 1
  }

  function ChunksLeft(w: Worker): nat {
    match w
    case Sending(chunks) => |chunks|
    case _ => 0
  }

  lemma WorkerMovesOn(s: Shared)
    requires Well(s) && !AtRest(s)
    ensures var s' := Take(s, NextOf(s.worker));
      && s'.callback == s.callback && s'.log.captured == s.log.captured
      && (|s'.queue| < |s.queue|
          || (s'.queue == s.queue && Distance(s') < Distance(s))
          || (s'.queue == s.queue && Distance(s') == Distance(s) && ChunksLeft(s'.worker) < ChunksLeft(s.worker)))
  {
    match s.worker
    case Sending(chunks) =>
    case _ =>
  }

  /** The worker's steps touch neither the callback nor what was captured. */
  predicate SameInput(s: Shared, s': Shared) {
    s'.callback == s.callback && s'.log.captured == s.log.captured
  }

  lemma MoreSteps(s: Shared, step: Step, more: seq<Step>)
    ensures TakeMore(s, [step] + more) == TakeMore(Take(s, step), more)
  {
    assert ([step] + more)[1..] == more;
  }

  /** Left to itself, the worker comes to rest, with its queue empty. */
  lemma {:induction false} WorkerComesToRest(s: Shared) returns (more: seq<Step>)
    requires Well(s)
    ensures forall step | step in more :: ByWorker(step)
    ensures AtRest(TakeMore(s, more)) && SameInput(s, TakeMore(s, more))
    decreases |s.queue|, Distance(s), ChunksLeft(s.worker)
  {
    more := [];
    if !AtRest(s) {
      var step := NextOf(s.worker);
      WorkerMovesOn(s);
      WorkerKeepsWell(s, step);
      more := WorkerComesToRest(Take(s, step));
      MoreSteps(s, step, more);
      more := [step] + more;
    }
  }

  predicate Harmless(step: Step) {
    step != PauseAdvancedEpoch && step != StopDone && step != DeviceFailed && step != ChannelClosed
    && step != CallbackEnqueued
  }

  lemma StayLeftAlone(steps: seq<Step>, more: seq<Step>)
    requires LeftAlone(steps) && forall step | step in more :: Harmless(step)
    ensures LeftAlone(steps + more)
  {
  }

  lemma {:induction false} StayNeverFull(steps: seq<Step>, more: seq<Step>)
    requires NeverFull(steps) && forall step | step in more :: Harmless(step)
    ensures NeverFull(steps + more)
    decreases |more|
  {
    if more == [] {
      assert steps + more == steps;
    } else {
      var n, all := |more| - 1, steps + more;
      assert more[n] in more;
      StayNeverFull(steps, more[..n]);
      assert all[..|all| - 1] == steps + more[..n] && all[|all| - 1] == more[n];
    }
  }

  /** So all audio captured by then gets out: from any point of such a run the worker alone can bring it about that
      everything captured has been sent, in order, but for less than one chunk, and what the callback still has. */
  lemma CapturedAudioGetsOut(steps: seq<Step>) returns (more: seq<Step>)
    requires LeftAlone(steps) && NeverFull(steps)
    ensures forall step | step in more :: ByWorker(step)
    ensures var s := TakeAll(steps + more);
      && SameInput(TakeAll(steps), s)
      && Heard(s.events) + s.held + Waiting(s.callback) == s.log.captured && |s.held| < SAMPLES_PER_CHUNK
  {
    RunStaysWell(steps);
    more := WorkerComesToRest(TakeAll(steps));
    TakeAllAppend(steps, more);
    assert forall step | step in more :: Harmless(step);
    StayLeftAlone(steps, more);
    StayNeverFull(steps, more);
    StreamLeftAloneIsWhole(steps + more);
    EverySampleIsAccountedFor(steps + more);
    RestingPipeline(TakeAll(steps + more));
  }

  lemma RestingPipeline(s: Shared)
    requires AtRest(s)
    ensures Pipeline(PartsOf(s)) == Heard(s.events) + s.held + Waiting(s.callback)
  {
    var p := PartsOf(s);
    assert p.outgoing == [] && p.incoming == [] && p.queued == [];
  }

  // When samples are captured, dropped and discarded.

  /** The callback captures its input exactly if the stream is neither paused nor stopped when it looks. */
  lemma CapturesIff(s: Shared, step: Step)
    ensures Take(s, step).log.captured
         == s.log.captured + (if step == CallbackChecked && s.callback.Loaded? && !s.flags.paused && !s.flags.stopped
                              then s.callback.input else [])
  {
    if ByWorker(step) || ByPause(step) {
      assert Take(s, step).log.captured == s.log.captured;
      assert s.log.captured + [] == s.log.captured;
    }
  }

  /** Samples are dropped exactly if they find the queue of a running worker full. */
  lemma DropsIff(s: Shared, step: Step)
    requires !s.callback.Overflowed?
    ensures Take(s, step).callback.Overflowed?
       <==> step == CallbackEnqueued && s.callback.Converted? && s.worker != Exited && |s.queue| >= QUEUE_CAPACITY
  {
    if ByWorker(step) || ByPause(step) {
      assert Take(s, step).callback == s.callback;
    }
  }

  /** Received samples are processed exactly if no pause has come between their capture and now. */
  lemma ProcessesIff(s: Shared)
    requires s.worker.Comparing?
    ensures Take(s, WorkerComparedEpoch).worker
         == if s.worker.epoch == s.flags.epoch then Processing(s.worker.samples) else Discarding(|s.worker.samples|)
  {
  }

  // The commands, each from end to end.

  /** A pause that finds room for its note: the stream is paused, in a new epoch; what the processor held is counted as
      discarded; the note is queued; and nothing else has changed. */
  lemma PauseCompletes(s: Shared)
    requires s.command == NoCommand && s.worker != Exited && |s.queue| < QUEUE_CAPACITY
    ensures TakeMore(s, [PauseStarted, PauseAdvancedEpoch, PauseReset] + [PauseAdded, PauseNoted])
         == s.(flags := s.flags.(paused := true, epoch := (s.flags.epoch + 1) % 0x1_0000_0000), held := [],
               counters := s.counters.(discardedOutput := s.counters.discardedOutput + |s.held|),
               queue := s.queue + [StateNote(NativePaused)])
  {
    var begun := s.(flags := s.flags.(paused := true, epoch := (s.flags.epoch + 1) % 0x1_0000_0000), held := [],
                    command := BeforeAdd(|s.held|));
    TakeMoreAppend(s, [PauseStarted, PauseAdvancedEpoch, PauseReset], [PauseAdded, PauseNoted]);
    PauseBegins(s);
    PauseEnds(begun);
  }

  lemma PauseBegins(s: Shared)
    requires s.command == NoCommand
    ensures TakeMore(s, [PauseStarted, PauseAdvancedEpoch, PauseReset])
         == s.(flags := s.flags.(paused := true, epoch := (s.flags.epoch + 1) % 0x1_0000_0000), held := [],
               command := BeforeAdd(|s.held|))
  {
    TakeThree(s, PauseStarted, PauseAdvancedEpoch, PauseReset);
    var started := s.(command := BeforeEpoch, flags := s.flags.(paused := true));
    assert Take(s, PauseStarted) == started;
    assert Take(started, PauseAdvancedEpoch)
        == started.(command := BeforeReset, flags := started.flags.(epoch := (s.flags.epoch + 1) % 0x1_0000_0000));
  }

  lemma TakeTwo(s: Shared, a: Step, b: Step)
    ensures TakeMore(s, [a, b]) == Take(Take(s, a), b)
  {
    assert [a, b][1..] == [b];
    assert TakeMore(Take(s, a), [b]) == Take(Take(s, a), b);
  }

  lemma PauseEnds(s: Shared)
    requires s.command.BeforeAdd? && s.worker != Exited && |s.queue| < QUEUE_CAPACITY
    ensures TakeMore(s, [PauseAdded, PauseNoted])
         == s.(counters := s.counters.(discardedOutput := s.counters.discardedOutput + s.command.output),
               queue := s.queue + [StateNote(NativePaused)], command := NoCommand)
  {
    TakeTwo(s, PauseAdded, PauseNoted);
  }

  /** A resume of a stream that has not failed: the note is queued first, and then the stream is no longer paused. */
  lemma ResumeCompletes(s: Shared)
    requires s.command == NoCommand && !s.flags.failed && s.worker != Exited && |s.queue| < QUEUE_CAPACITY
    ensures TakeMore(s, [ResumeStarted, ResumeNoted, ResumeUnpaused])
         == s.(flags := s.flags.(paused := false), queue := s.queue + [StateNote(NativeCapturing)])
  {
    TakeThree(s, ResumeStarted, ResumeNoted, ResumeUnpaused);
    ResumeIsNoted(s);
  }

  lemma ResumeIsNoted(s: Shared)
    requires s.command == NoCommand && !s.flags.failed && s.worker != Exited && |s.queue| < QUEUE_CAPACITY
    ensures Take(Take(s, ResumeStarted), ResumeNoted)
         == s.(command := BeforeUnpause, queue := s.queue + [StateNote(NativeCapturing)])
  {
    assert Take(s, ResumeStarted) == s.(command := BeforeResumeNote);
  }

  /** A stream that has failed is not resumed. */
  lemma FailedIsNotResumed(s: Shared)
    requires s.flags.failed && s.command == NoCommand
    ensures TakeMore(s, [ResumeStarted, ResumeNoted, ResumeUnpaused]) == s
  {
    TakeThree(s, ResumeStarted, ResumeNoted, ResumeUnpaused);
  }

  // Notes.

  function Switches(events: seq<NativeEvent>): seq<NativeState> {
    if events == [] then []
    else
      var before, last := Switches(events[..|events| - 1]), events[|events| - 1];
      if last.Switched? then before + [last.state] else before
  }

  function Noted(queue: seq<Message>): seq<NativeState> {
    if queue == [] then []
    else
      var before, last := Noted(queue[..|queue| - 1]), queue[|queue| - 1];
      if last.StateNote? then before + [last.state] else before
  }

  /** The note that a step of a command leaves, if the worker runs and has room for it. */
  function NoteLeft(s: Shared, step: Step): seq<NativeState> {
    if s.worker == Exited || |s.queue| >= QUEUE_CAPACITY then []
    else if step == StartNoted && s.command == BeforeStartNote then [NativeCapturing]
    else if step == PauseNoted && s.command == BeforePauseNote then [NativePaused]
    else if step == ResumeNoted && s.command == BeforeResumeNote then [NativeCapturing]
    else []
  }

  function NotesLeft(steps: seq<Step>): seq<NativeState> {
    if steps == [] then []
    else NotesLeft(steps[..|steps| - 1]) + NoteLeft(TakeAll(steps[..|steps| - 1]), steps[|steps| - 1])
  }

  function NotesOf(s: Shared): seq<NativeState> {
    Switches(s.events) + Noted(s.queue)
  }

  predicate Listening(s: Shared) {
    s.flags.channelOpen && s.worker != Exited
  }

  lemma SwitchesSnoc(events: seq<NativeEvent>, e: NativeEvent)
    ensures Switches(events + [e]) == Switches(events) + if e.Switched? then [e.state] else []
  {
    assert (events + [e])[..|events|] == events;
  }

  lemma NotedSnoc(queue: seq<Message>, m: Message)
    ensures Noted(queue + [m]) == Noted(queue) + if m.StateNote? then [m.state] else []
  {
    assert (queue + [m])[..|queue|] == queue;
  }

  lemma {:induction false} NotedFirst(queue: seq<Message>)
    requires queue != []
    ensures Noted(queue) == (if queue[0].StateNote? then [queue[0].state] else []) + Noted(queue[1..])
  {
    var n := |queue| - 1;
    if n > 0 {
      NotedFirst(queue[..n]);
      assert queue[1..][..n - 1] == queue[..n][1..];
    } else {
      assert queue[1..] == [] && queue[..0] == [];
    }
  }

  lemma ReceivingMovesNote(s: Shared)
    requires Listening(WorkerReceives(s))
    ensures NotesOf(WorkerReceives(s)) == NotesOf(s)
  {
    if s.worker == BeforeReceive && s.queue != [] {
      NotedFirst(s.queue);
      if s.queue[0].StateNote? {
        var state := s.queue[0].state;
        SwitchesSnoc(s.events, Switched(state));
        Regroup(Switches(s.events), [state], Noted(s.queue[1..]));
      } else {
        assert [] + Noted(s.queue[1..]) == Noted(s.queue[1..]);
      }
    }
  }

  /** The worker's other events say nothing about the state of the stream. */
  predicate SaysNoState(s: Shared, s': Shared) {
    && s'.queue == s.queue && |s'.events| <= |s.events| + 1 && s.events <= s'.events
    && (|s'.events| > |s.events| ==> !s'.events[|s.events|].Switched?)
  }

  lemma WorkerSaysNoState(s: Shared, step: Step)
    requires ByWorker(step) && step != WorkerReceived && Listening(Take(s, step))
    ensures SaysNoState(s, Take(s, step))
  {
    match step
    case WorkerCheckedStop =>
    case WorkerReportedDropped =>
    case WorkerSwappedInput =>
    case WorkerReportedDiscarded =>
    case WorkerCheckedFailure =>
    case WorkerComparedEpoch =>
    case WorkerDiscarded =>
    case WorkerProcessed =>
    case WorkerSentChunk =>
  }

  lemma NoStateKeepsNotes(s: Shared, s': Shared)
    requires SaysNoState(s, s')
    ensures NotesOf(s') == NotesOf(s)
  {
    if |s'.events| > |s.events| {
      var e := s'.events[|s.events|];
      assert s'.events == s.events + [e];
      SwitchesSnoc(s.events, e);
    } else {
      assert s'.events == s.events;
    }
  }

  /** The other threads send nothing, and queue at most one message: a note if they leave one. */
  predicate QueuesNote(s: Shared, s': Shared, left: seq<NativeState>) {
    && s'.events == s.events
    && if |s'.queue| == |s.queue| + 1 then
         && s'.queue[..|s.queue|] == s.queue
         && left == if s'.queue[|s.queue|].StateNote? then [s'.queue[|s.queue|].state] else []
       else s'.queue == s.queue && left == []
  }

  lemma OthersQueueNote(s: Shared, step: Step)
    requires !ByWorker(step) && s.worker != Exited
    ensures QueuesNote(s, Take(s, step), NoteLeft(s, step))
  {
  }

  lemma QueuedNoteIsLeft(s: Shared, s': Shared, left: seq<NativeState>)
    requires QueuesNote(s, s', left)
    ensures NotesOf(s') == NotesOf(s) + left
  {
    if |s'.queue| == |s.queue| + 1 {
      assert s'.queue == s.queue + [s'.queue[|s.queue|]];
      NotedSnoc(s.queue, s'.queue[|s.queue|]);
    } else {
      assert Noted(s.queue) + [] == Noted(s.queue);
    }
    Regroup(Switches(s.events), Noted(s.queue), left);
  }

  lemma WorkerLeavesNotes(s: Shared, step: Step)
    requires ByWorker(step) && Listening(Take(s, step))
    ensures NotesOf(Take(s, step)) == NotesOf(s)
  {
    if step == WorkerReceived {
      ReceivingMovesNote(s);
    } else {
      WorkerSaysNoState(s, step);
      NoStateKeepsNotes(s, Take(s, step));
    }
  }

  lemma ListeningBefore(s: Shared, step: Step)
    requires Listening(Take(s, step))
    ensures Listening(s)
  {
  }

  lemma StepLeavesNotes(s: Shared, step: Step)
    requires Listening(Take(s, step))
    ensures Listening(s) && NotesOf(Take(s, step)) == NotesOf(s) + NoteLeft(s, step)
  {
    ListeningBefore(s, step);
    if ByWorker(step) {
      WorkerLeavesNotes(s, step);
      assert NoteLeft(s, step) == [];
      assert NotesOf(s) + [] == NotesOf(s);
    } else {
      OthersQueueNote(s, step);
      QueuedNoteIsLeft(s, Take(s, step), NoteLeft(s, step));
    }
  }

  /** In every interleaving, as long as somebody listens and the worker runs: the listener was told the states of the
      stream, with those still queued, exactly as the commands left them, in their order. */
  lemma {:induction false} StatesAreToldInOrder(steps: seq<Step>)
    requires Listening(TakeAll(steps))
    ensures NotesOf(TakeAll(steps)) == NotesLeft(steps)
  {
    if steps != [] {
      var before := steps[..|steps| - 1];
      StepLeavesNotes(TakeAll(before), steps[|steps| - 1]);
      StatesAreToldInOrder(before);
    }
  }

  // Failures.

  function TimesBroken(events: seq<NativeEvent>): nat {
    if events == [] then 0
    else TimesBroken(events[..|events| - 1]) + if events[|events| - 1] == Broken then 1 else 0
  }

  predicate FailureTold(s: Shared) {
    && TimesBroken(s.events) <= (if s.flags.failureReported then 1 else 0)
    && (s.flags.channelOpen && s.flags.failureReported ==> TimesBroken(s.events) == 1)
    && (s.flags.failureReported ==> s.flags.failed && s.flags.stopped)
  }

  lemma BrokenSnoc(events: seq<NativeEvent>, e: NativeEvent)
    ensures TimesBroken(events + [e]) == TimesBroken(events) + if e == Broken then 1 else 0
  {
    assert (events + [e])[..|events|] == events;
  }

  /** Every other step adds no such event and leaves the report alone. */
  predicate SaysNotBroken(s: Shared, s': Shared) {
    && |s'.events| <= |s.events| + 1 && s.events <= s'.events
    && (|s'.events| > |s.events| ==> s'.events[|s.events|] != Broken)
    && s'.flags.failureReported == s.flags.failureReported
    && (s.flags.failed ==> s'.flags.failed) && (s.flags.stopped ==> s'.flags.stopped)
    && (s'.flags.channelOpen ==> s.flags.channelOpen)
  }

  lemma OtherStepsSayNotBroken(s: Shared, step: Step)
    requires step != WorkerCheckedFailure
    ensures SaysNotBroken(s, Take(s, step))
  {
    if !ByWorker(step) {
      assert Take(s, step).events == s.events;
    }
  }

  lemma StepTellsFailure(s: Shared, step: Step)
    requires FailureTold(s)
    ensures FailureTold(Take(s, step))
  {
    var s' := Take(s, step);
    if step == WorkerCheckedFailure {
      BrokenSnoc(s.events, Broken);
    } else {
      OtherStepsSayNotBroken(s, step);
      if |s'.events| > |s.events| {
        var e := s'.events[|s.events|];
        assert s'.events == s.events + [e];
        BrokenSnoc(s.events, e);
      } else {
        assert s'.events == s.events;
      }
    }
  }

  /** In every interleaving a failure is told at most once, only when there was one, and then the stream stops; while
      somebody listens, it is told exactly when it is marked as told. */
  lemma {:induction false} FailureIsToldOnce(steps: seq<Step>)
    ensures FailureTold(TakeAll(steps))
  {
    if steps != [] {
      FailureIsToldOnce(steps[..|steps| - 1]);
      StepTellsFailure(TakeAll(steps[..|steps| - 1]), steps[|steps| - 1]);
    }
  }

  /** The worker tells it when it next looks. */
  lemma FailureIsTold(s: Shared)
    requires s.worker == BeforeFailureCheck && s.flags.channelOpen
    ensures var s' := Take(s, WorkerCheckedFailure);
      s'.events == s.events + (if s.flags.failed && !s.flags.failureReported then [Broken] else [])
      && (s.flags.failed ==> s'.flags.failureReported)
  {
  }

  // Stopping.

  /** A stop ends the worker when it next comes to the top of its loop. */
  lemma StopEndsWorker(s: Shared)
    requires s.command == NoCommand && s.worker == AtTop
    ensures TakeMore(s, [StopDone, WorkerCheckedStop]).worker == Exited
  {
    TakeTwo(s, StopDone, WorkerCheckedStop);
  }

  /** Until it is stopped, the worker goes on. */
  lemma WorkerExitsIff(s: Shared, step: Step)
    requires s.worker != Exited
    ensures Take(s, step).worker == Exited
       <==> (step == WorkerCheckedStop && s.worker == AtTop && s.flags.stopped)
            || (step == WorkerReportedDropped && s.worker == BeforeDroppedSwap && s.counters.dropped > 0
                && !s.flags.channelOpen)
  {
  }

  /** Once the worker has ended, nothing is sent any more, whatever happens. */
  lemma {:induction false} EndedWorkerIsSilent(s: Shared, steps: seq<Step>)
    requires s.worker == Exited
    ensures TakeMore(s, steps).worker == Exited && TakeMore(s, steps).events == s.events
    decreases |steps|
  {
    if steps != [] {
      ExitedStaysExited(s, steps[0]);
      EndedWorkerIsSilent(Take(s, steps[0]), steps[1..]);
    }
  }

  lemma ExitedStaysExited(s: Shared, step: Step)
    requires s.worker == Exited
    ensures Take(s, step).worker == Exited && Take(s, step).events == s.events
  {
  }

  /** A worker that finds nobody listening stops the stream, and a callback that finds no worker marks it as failed. */
  lemma GoneIsNoticed(s: Shared)
    ensures s.worker.Sending? && s.worker.chunks != [] && !s.flags.channelOpen ==>
              Take(s, WorkerSentChunk).flags.stopped && Take(s, WorkerSentChunk).worker == AtTop
    ensures s.worker == BeforeDroppedSwap && s.counters.dropped > 0 && !s.flags.channelOpen ==>
              Take(s, WorkerReportedDropped).flags.stopped
    ensures s.callback.Converted? && s.worker == Exited ==>
              TakeMore(s, [CallbackEnqueued, CallbackSettled]).flags.failed
  {
    TakeTwo(s, CallbackEnqueued, CallbackSettled);
  }
}
