/** The shared state of the native capture threads itself (apps/desktop/src-tauri/src/microphone_stream.rs:59-86):
    one method for each step of the state machine, tied to it. */
module MicrophoneStream {
  import opened AudioBuffer
  import opened Capture
  import opened AudioProcessing
  import opened NativeCapture

  class MicrophoneStream {
    var paused: bool
    var stopped: bool
    var failed: bool
    var failureReported: bool
    var channelOpen: bool
    var captureEpoch: nat
    var queue: seq<Message>
    var droppedSamples: nat
    var discardedPauseInput: nat
    var discardedPauseOutput: nat
    var callback: Callback
    var worker: Worker
    var command: Command
    var events: seq<NativeEvent>
    const processor: AudioProcessor
    ghost var log: Log

    ghost function View(): Shared
      reads this, processor
    {
      Shared(Flags(paused, stopped, failed, failureReported, channelOpen, captureEpoch), processor.output, queue,
             Counters(droppedSamples, discardedPauseInput, discardedPauseOutput),
             callback, worker, command, events, log)
    }

    /** The threads run; the start command is not done yet. */
    constructor ()
      ensures View() == STARTED && fresh(processor)
    {
      paused, stopped, failed, failureReported, channelOpen, captureEpoch := false, false, false, false, true, 0;
      queue, droppedSamples, discardedPauseInput, discardedPauseOutput := [], 0, 0, 0;
      callback, worker, command, events := Quiet, AtTop, BeforeStartNote, [];
      processor := new AudioProcessor();
      log := Log([], 0, 0, 0);
    }

    method Send(event: NativeEvent) returns (delivered: bool)
      modifies this
      ensures View() == Sent(old(View()), event) && delivered == channelOpen
    {
      delivered := channelOpen;
      if channelOpen {
        events := events + [event];
      }
    }

    /** The callback runs with `input`. */
    method LoadEpoch(input: seq<Sample>)
      requires callback == Quiet
      modifies this
      ensures View() == CallbackStarts(old(View()), input)
    {
      callback := Loaded(captureEpoch, input);
    }

    /** Sending without waiting. */
    method EnqueueSamples()
      requires callback.Converted?
      modifies this
      ensures View() == CallbackEnqueues(old(View()))
    {
      var epoch, samples := callback.epoch, callback.samples;
      if worker == Exited {
        callback := Refused;
        log := log.(lost := log.lost + |samples|);
      } else if |queue| < QUEUE_CAPACITY {
        callback := Quiet;
        queue := queue + [Samples(epoch, samples)];
      } else {
        callback := Overflowed(|samples|);
      }
    }

    method SettleCallback()
      requires callback.Overflowed? || callback.Refused?
      modifies this
      ensures View() == CallbackSettles(old(View()))
    {
      match callback {
        case Overflowed(count) => droppedSamples := droppedSamples + count;
        case Refused => failed := true;
      }
      callback := Quiet;
    }

    /** The error callback of the device. */
    method FailDevice()
      modifies this
      ensures View() == Take(old(View()), DeviceFailed)
    {
      failed := true;
    }

    method CheckFlags()
      requires callback.Loaded?
      modifies this
      ensures View() == CallbackChecks(old(View()))
    {
      if paused || stopped {
        callback := Quiet;
        return;
      }
      callback := Converted(callback.epoch, callback.input);
      log := log.(captured := log.captured + callback.samples);
    }

    method Exit()
      modifies this
      ensures View() == WorkerExits(old(View()))
    {
      log := log.(lost := log.lost + QueuedSamples(queue));
      queue, worker := [], Exited;
    }

    /** The top of the worker's loop. */
    method CheckStop()
      requires worker == AtTop
      modifies this
      ensures View() == WorkerChecksStop(old(View()))
    {
      if stopped {
        Exit();
      } else {
        worker := BeforeDroppedSwap;
      }
    }

    method ReportDropped()
      requires worker == BeforeDroppedSwap
      modifies this
      ensures View() == WorkerReportsDropped(old(View()))
    {
      var count := droppedSamples;
      droppedSamples := 0;
      if count > 0 {
        var delivered := Send(Lost(LocalBufferFull, DroppedChunkEstimate(count, RATE)));
        if !delivered {
          log := log.(lost := log.lost + count);
          stopped := true;
          Exit();
          return;
        }
        log := log.(reportedDropped := log.reportedDropped + count);
      }
      worker := BeforeInputSwap;
    }

    method SwapInput()
      requires worker == BeforeInputSwap
      modifies this
      ensures View() == WorkerSwapsInput(old(View()))
    {
      worker := BeforeOutputSwap(discardedPauseInput);
      discardedPauseInput := 0;
    }

    method ReportDiscarded()
      requires worker.BeforeOutputSwap?
      modifies this
      ensures View() == WorkerReportsDiscarded(old(View()))
    {
      var input, output := worker.input, discardedPauseOutput;
      discardedPauseOutput := 0;
      var chunks := (DroppedChunkEstimate(input, RATE) + DroppedOutputChunkEstimate(output)) % (U32_MAX + 1);
      if chunks > 0 {
        var _ := Send(Lost(UserPausedCapture, chunks));
      }
      log := if channelOpen then log.(reportedDiscarded := log.reportedDiscarded + (input + output))
             else log.(lost := log.lost + (input + output));
      worker := BeforeFailureCheck;
    }

    method CheckFailure()
      requires worker == BeforeFailureCheck
      modifies this
      ensures View() == WorkerChecksFailure(old(View()))
    {
      if failed && !failureReported {
        failureReported := true;
        var _ := Send(Broken);
        stopped := true;
      }
      worker := BeforeReceive;
    }

    method Receive()
      requires worker == BeforeReceive
      modifies this
      ensures View() == WorkerReceives(old(View()))
    {
      worker := AtTop;
      if |queue| == 0 {
        return;
      }
      var message := queue[0];
      queue := queue[1..];
      match message {
        case Samples(epoch, samples) => worker := Comparing(epoch, samples);
        case StateNote(state) => var _ := Send(Switched(state));
      }
    }

    method CompareEpoch()
      requires worker.Comparing?
      modifies this
      ensures View() == WorkerComparesEpoch(old(View()))
    {
      if worker.epoch == captureEpoch {
        worker := Processing(worker.samples);
      } else {
        worker := Discarding(|worker.samples|);
      }
    }

    method AddDiscardedInput()
      requires worker.Discarding?
      modifies this
      ensures View() == WorkerDiscards(old(View()))
    {
      discardedPauseInput := discardedPauseInput + worker.count;
      worker := AtTop;
    }

    method ProcessSamples()
      requires worker.Processing?
      modifies this, processor
      ensures View() == WorkerProcesses(old(View()))
    {
      var chunks := processor.Process(worker.samples);
      worker := Sending(chunks);
    }

    method SendChunk()
      requires worker.Sending?
      modifies this
      ensures View() == WorkerSendsChunk(old(View()))
    {
      var chunks := worker.chunks;
      worker := AtTop;
      if |chunks| == 0 {
        return;
      }
      var delivered := Send(Captured(chunks[0]));
      if delivered {
        worker := Sending(chunks[1..]);
      } else {
        stopped := true;
        log := log.(lost := log.lost + SamplesIn(chunks));
      }
    }

    method BeginPause()
      requires command == NoCommand
      modifies this
      ensures View() == PauseStarts(old(View()))
    {
      paused := true;
      command := BeforeEpoch;
    }

    method AdvanceEpoch()
      requires command == BeforeEpoch
      modifies this
      ensures View() == PauseAdvancesEpoch(old(View()))
    {
      captureEpoch := (captureEpoch + 1) % (U32_MAX + 1);
      command := BeforeReset;
    }

    method ResetProcessor()
      requires command == BeforeReset
      modifies this, processor
      ensures View() == PauseResets(old(View()))
    {
      var _, discarded := processor.Reset();
      command := BeforeAdd(discarded);
    }

    method AddDiscardedOutput()
      requires command.BeforeAdd?
      modifies this
      ensures View() == PauseAddsDiscarded(old(View()))
    {
      discardedPauseOutput := discardedPauseOutput + command.output;
      command := BeforePauseNote;
    }

    /** Waits, that is changes nothing, while the queue is full. */
    method SendNote(state: NativeState, next: Command)
      modifies this
      ensures View() == NoteSent(old(View()), state, next)
    {
      if worker == Exited {
        command := NoCommand;
      } else if |queue| < QUEUE_CAPACITY {
        queue := queue + [StateNote(state)];
        command := next;
      }
    }

    method NotePause()
      requires command == BeforePauseNote
      modifies this
      ensures View() == PauseNotes(old(View()))
    {
      SendNote(NativePaused, NoCommand);
    }

    method NoteStart()
      requires command == BeforeStartNote
      modifies this
      ensures View() == StartNotes(old(View()))
    {
      command := NoCommand;
      if worker != Exited && |queue| < QUEUE_CAPACITY {
        queue := queue + [StateNote(NativeCapturing)];
      }
    }

    method BeginResume() returns (accepted: bool)
      requires command == NoCommand
      modifies this
      ensures View() == ResumeStarts(old(View())) && accepted == !failed
    {
      accepted := !failed;
      if accepted {
        command := BeforeResumeNote;
      }
    }

    method NoteResume()
      requires command == BeforeResumeNote
      modifies this
      ensures View() == ResumeNotes(old(View()))
    {
      SendNote(NativeCapturing, BeforeUnpause);
    }

    method Unpause()
      requires command == BeforeUnpause
      modifies this
      ensures View() == ResumeUnpauses(old(View()))
    {
      paused := false;
      command := NoCommand;
    }

    method Stop()
      requires command == NoCommand
      modifies this
      ensures View() == Stops(old(View()))
    {
      stopped := true;
    }
  }
}
