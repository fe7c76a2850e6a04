/** The capture controller (apps/desktop/src/protocol/microphoneCaptureController.ts:71-222): native events
    become chunks and gaps on one timeline. */
module Capture {
  import opened Numbers
  import opened Wrappers
  import opened AudioBuffer
  import opened FrameAssembler
  import opened AudioDelivery

  datatype State = Idle | Starting | Capturing | Paused | Stopped | Failed

  datatype NativeFields = NativeFields(bytes: seq<Byte>, durationMs: nat)

  /** A native chunk is never empty (apps/desktop/src/protocol/nativeMicrophoneSource.ts:8-16). */
  type NativeChunk = n: NativeFields | n.bytes != [] && n.durationMs >= 1 witness NativeFields([0], 1)

  datatype NativeState = NativeCapturing | NativePaused | NativeStopped

  datatype NativeEvent =
    | Captured(chunk: NativeChunk)
    | Lost(reason: GapReason, droppedChunks: nat)
    | Broken
    | Switched(state: NativeState)

  type Positive = n: nat | n > 0 witness 1

  datatype Controller = Controller(state: State, generation: nat, nextChunkIndex: nat, streamTimeMs: nat,
                                   pausedAtMs: Option<int>, emitted: seq<Item>)

  const NEW_CONTROLLER := Controller(Idle, 0, 0, 0, None, [])

  function CeilDiv(a: nat, b: Positive): nat {
    (a + b - 1) / b
  }

  function WithChunk(c: Controller, chunk: NativeChunk): Controller {
    var meta := MetaFields(Microphone, c.nextChunkIndex, chunk.durationMs, c.streamTimeMs, |chunk.bytes|);
    c.(nextChunkIndex := c.nextChunkIndex + 1,
       streamTimeMs := c.streamTimeMs + chunk.durationMs,
       emitted := c.emitted + [ChunkItem(Chunk(meta, chunk.bytes))])
  }

  function WithGap(c: Controller, reason: GapReason, droppedChunks: nat, durationMs: nat): Controller
    requires droppedChunks >= 1
  {
    var gap := GapFields(Microphone, c.streamTimeMs, c.streamTimeMs + durationMs, droppedChunks, reason);
    c.(streamTimeMs := c.streamTimeMs + durationMs, emitted := c.emitted + [GapItem(gap)])
  }

  function AfterFailure(c: Controller, chunkMs: Positive): Controller {
    if c.state == Failed || c.state == Stopped then c
    else WithGap(c, DeviceUnavailable, 1, chunkMs).(state := Failed)
  }

  /** The device went back to capturing: a pause that was being timed becomes a gap. */
  function AfterSwitchOn(c: Controller, chunkMs: Positive, now: int): Controller {
    if c.state == Starting then c
    else if c.state == Paused && c.pausedAtMs.Some? then
      var elapsed: nat := Max(1, now - c.pausedAtMs.value);
      var resumed := c.(pausedAtMs := None, state := Capturing);
      WithGap(resumed, UserPausedCapture, Max(1, CeilDiv(elapsed, chunkMs)), elapsed)
    else c.(state := Capturing)
  }

  function AfterNative(c: Controller, chunkMs: Positive, generation: nat, now: int, e: NativeEvent): Controller {
    if generation != c.generation || c.state == Stopped then c
    else
      match e
      case Captured(chunk) => if c.state == Capturing || c.state == Starting then WithChunk(c, chunk) else c
      case Lost(reason, dropped) => WithGap(c, reason, Max(1, dropped), Max(1, dropped) * chunkMs)
      case Broken => AfterFailure(c, chunkMs)
      case Switched(NativePaused) => if c.state == Capturing then c.(pausedAtMs := Some(now), state := Paused) else c
      case Switched(NativeCapturing) => AfterSwitchOn(c, chunkMs, now)
      case Switched(NativeStopped) => c
  }

  datatype Event =
    | Start
    | Stop
    | StartResolved(generation: nat)
    | StartRejected(generation: nat)
    | PauseOrResumeRejected(generation: nat)
    | Native(generation: nat, now: int, event: NativeEvent)

  function After(c: Controller, chunkMs: Positive, e: Event): Controller {
    match e
    case Start =>
      if c.state == Starting || c.state == Capturing then c
      else c.(generation := c.generation + 1, state := Starting)
    case Stop => if c.state == Stopped then c else c.(generation := c.generation + 1, state := Stopped)
    case StartResolved(g) => if g != c.generation || c.state == Stopped then c else c.(state := Capturing)
    case StartRejected(g) => if g == c.generation && c.state != Stopped then AfterFailure(c, chunkMs) else c
    case PauseOrResumeRejected(_) => AfterFailure(c, chunkMs)
    case Native(g, now, event) => AfterNative(c, chunkMs, g, now, event)
  }

  function AfterAll(chunkMs: Positive, events: seq<Event>): Controller {
    if events == [] then NEW_CONTROLLER
    else After(AfterAll(chunkMs, events[..|events| - 1]), chunkMs, events[|events| - 1])
  }

  class ContinuousMicrophoneCaptureController {
    const chunkDurationMs: Positive
    var state: State
    var generation: nat
    var nextChunkIndex: nat
    var streamTimeMs: nat
    var pausedAtMs: Option<int>
    var emitted: seq<Item>

    function View(): Controller
      reads this
    {
      Controller(state, generation, nextChunkIndex, streamTimeMs, pausedAtMs, emitted)
    }

    constructor (chunkDurationMs: Positive)
      ensures this.chunkDurationMs == chunkDurationMs && View() == NEW_CONTROLLER
    {
      this.chunkDurationMs := chunkDurationMs;
      state, generation, nextChunkIndex, streamTimeMs, pausedAtMs, emitted := Idle, 0, 0, 0, None, [];
    }

    method StartCapture()
      modifies this
      ensures View() == After(old(View()), chunkDurationMs, Start)
    {
      if state == Starting || state == Capturing {
        return;
      }
      generation := generation + 1;
      state := Starting;
    }

    method HandleStartResolved(startedAs: nat)
      modifies this
      ensures View() == After(old(View()), chunkDurationMs, StartResolved(startedAs))
    {
      if startedAs != generation || state == Stopped {
        return;
      }
      state := Capturing;
    }

    method HandleStartRejected(startedAs: nat)
      modifies this
      ensures View() == After(old(View()), chunkDurationMs, StartRejected(startedAs))
    {
      if startedAs == generation && state != Stopped {
        Fail();
      }
    }

    /** Unlike the other late answers, this one is not compared with the current generation. */
    method HandlePauseOrResumeRejected(ghost askedOf: nat)
      modifies this
      ensures View() == After(old(View()), chunkDurationMs, PauseOrResumeRejected(askedOf))
    {
      Fail();
    }

    method StopCapture()
      modifies this
      ensures View() == After(old(View()), chunkDurationMs, Stop)
    {
      if state == Stopped {
        return;
      }
      generation := generation + 1;
      state := Stopped;
    }

    method HandleNativeEvent(startedAs: nat, now: int, event: NativeEvent)
      modifies this
      ensures View() == After(old(View()), chunkDurationMs, Native(startedAs, now, event))
    {
      if startedAs != generation || state == Stopped {
        return;
      }
      match event {
        case Captured(chunk) =>
          if state == Capturing || state == Starting {
            SendChunk(chunk);
          }
        case Lost(reason, dropped) =>
          var droppedChunks := Max(1, dropped);
          EmitGap(reason, droppedChunks, droppedChunks * chunkDurationMs);
        case Broken =>
          Fail();
        case Switched(NativePaused) =>
          if state == Capturing {
            pausedAtMs := Some(now);
            state := Paused;
          }
        case Switched(NativeCapturing) =>
          if state == Starting {
            return;
          }
          if state == Paused && pausedAtMs.Some? {
            var elapsedMs := Max(1, now - pausedAtMs.value);
            pausedAtMs := None;
            EmitGap(UserPausedCapture, Max(1, CeilDiv(elapsedMs, chunkDurationMs)), elapsedMs);
          }
          state := Capturing;
        case Switched(NativeStopped) =>
      }
    }

    method SendChunk(chunk: NativeChunk)
      modifies this
      ensures View() == WithChunk(old(View()), chunk)
    {
      var chunkIndex, timestampMs := nextChunkIndex, streamTimeMs;
      nextChunkIndex := nextChunkIndex + 1;
      streamTimeMs := streamTimeMs + chunk.durationMs;
      var meta := MetaFields(Microphone, chunkIndex, chunk.durationMs, timestampMs, |chunk.bytes|);
      emitted := emitted + [ChunkItem(Chunk(meta, chunk.bytes))];
    }

    method EmitGap(reason: GapReason, droppedChunks: nat, durationMs: nat)
      requires droppedChunks >= 1
      modifies this
      ensures View() == WithGap(old(View()), reason, droppedChunks, durationMs)
    {
      var startMs := streamTimeMs;
      streamTimeMs := streamTimeMs + durationMs;
      emitted := emitted + [GapItem(GapFields(Microphone, startMs, streamTimeMs, droppedChunks, reason))];
    }

    method Fail()
      modifies this
      ensures View() == AfterFailure(old(View()), chunkDurationMs)
    {
      if state == Failed || state == Stopped {
        return;
      }
      EmitGap(DeviceUnavailable, 1, chunkDurationMs);
      state := Failed;
    }
  }

  // The timeline.

  /** The items follow each other from `start` to `end` with no hole and no overlap. */
  predicate Tiles(items: seq<Item>, start: nat, end: nat)
    decreases |items|
  {
    if items == [] then start == end
    else
      var last := IntervalOf(items[|items| - 1]);
      start <= last.startMs <= last.endMs == end && last.stream == Microphone
      && Tiles(items[..|items| - 1], start, last.startMs)
  }

  /** Chunk indices count up from zero, and chunks carry the length they declare. */
  predicate Numbered(items: seq<Item>, next: nat) {
    var chunks := ChunksOf(items);
    && |chunks| == next
    && forall i :: 0 <= i < next ==>
         && chunks[i].meta.chunkIndex == i && chunks[i].meta.stream == Microphone
         && |chunks[i].bytes| == chunks[i].meta.byteLength
  }

  predicate OnTimeline(c: Controller) {
    && Tiles(c.emitted, 0, c.streamTimeMs)
    && Numbered(c.emitted, c.nextChunkIndex)
    && (c.state == Paused ==> c.pausedAtMs.Some?)
  }

  lemma ItemSnoc(items: seq<Item>, item: Item)
    ensures ChunksOf(items + [item]) == if item.ChunkItem? then ChunksOf(items) + [item.chunk] else ChunksOf(items)
    ensures forall start: nat, end: nat :: Tiles(items + [item], start, end) <==>
      (start <= IntervalOf(item).startMs <= IntervalOf(item).endMs == end && IntervalOf(item).stream == Microphone
       && Tiles(items, start, IntervalOf(item).startMs))
  {
    assert (items + [item])[..|items|] == items;
  }

  lemma ChunkStaysOnTimeline(c: Controller, chunk: NativeChunk)
    requires OnTimeline(c)
    ensures OnTimeline(WithChunk(c, chunk))
  {
    ItemSnoc(c.emitted, WithChunk(c, chunk).emitted[|c.emitted|]);
  }

  lemma GapStaysOnTimeline(c: Controller, reason: GapReason, droppedChunks: nat, durationMs: nat)
    requires OnTimeline(c) && droppedChunks >= 1
    ensures OnTimeline(WithGap(c, reason, droppedChunks, durationMs))
  {
    ItemSnoc(c.emitted, WithGap(c, reason, droppedChunks, durationMs).emitted[|c.emitted|]);
  }

  lemma NativeStaysOnTimeline(c: Controller, chunkMs: Positive, now: int, e: NativeEvent)
    requires OnTimeline(c)
    ensures OnTimeline(AfterNative(c, chunkMs, c.generation, now, e))
  {
    match e
    case Captured(chunk) => ChunkStaysOnTimeline(c, chunk);
    case Lost(reason, dropped) => GapStaysOnTimeline(c, reason, Max(1, dropped), Max(1, dropped) * chunkMs);
    case Broken => GapStaysOnTimeline(c, DeviceUnavailable, 1, chunkMs);
    case Switched(_) =>
      if c.state == Paused {
        var elapsed: nat := Max(1, now - c.pausedAtMs.value);
        GapStaysOnTimeline(c, UserPausedCapture, Max(1, CeilDiv(elapsed, chunkMs)), elapsed);
      }
  }

  lemma StepStaysOnTimeline(c: Controller, chunkMs: Positive, e: Event)
    requires OnTimeline(c)
    ensures OnTimeline(After(c, chunkMs, e))
  {
    if e.Native? {
      NativeStaysOnTimeline(c, chunkMs, e.now, e.event);
    } else {
      GapStaysOnTimeline(c, DeviceUnavailable, 1, chunkMs);
    }
  }

  /** After any events, the emitted chunks and gaps tile the timeline from zero to the stream time, the chunks
      are numbered without a hole, and a pause is always being timed. */
  lemma {:induction false} EmittedTilesTimeline(chunkMs: Positive, events: seq<Event>)
    ensures OnTimeline(AfterAll(chunkMs, events))
  {
    if events != [] {
      EmittedTilesTimeline(chunkMs, events[..|events| - 1]);
      StepStaysOnTimeline(AfterAll(chunkMs, events[..|events| - 1]), chunkMs, events[|events| - 1]);
    }
  }

  /** What a paused stream may report without leaving the pause. */
  predicate KeepsPause(generation: nat, e: Event) {
    match e
    case StartResolved(g) => g != generation
    case StartRejected(g) => g != generation
    case Native(g, _, event) => g != generation || (event != Broken && event != Switched(NativeCapturing))
    case _ => false
  }

  /** Nothing but a gap is emitted. */
  predicate NoChunkSince(c: Controller, later: Controller) {
    later.generation == c.generation && ChunksOf(later.emitted) == ChunksOf(c.emitted)
  }

  lemma GapIsNoChunk(c: Controller, reason: GapReason, droppedChunks: nat, durationMs: nat)
    requires droppedChunks >= 1
    ensures NoChunkSince(c, WithGap(c, reason, droppedChunks, durationMs))
  {
    ItemSnoc(c.emitted, WithGap(c, reason, droppedChunks, durationMs).emitted[|c.emitted|]);
  }

  lemma PausedStep(c: Controller, chunkMs: Positive, e: Event)
    requires c.state == Paused && KeepsPause(c.generation, e)
    ensures var next := After(c, chunkMs, e);
      next.state == Paused && next.pausedAtMs == c.pausedAtMs && NoChunkSince(c, next)
  {
    if e.Native? && e.event.Lost? {
      GapIsNoChunk(c, e.event.reason, Max(1, e.event.droppedChunks), Max(1, e.event.droppedChunks) * chunkMs);
    }
  }

  lemma {:induction false} PauseIsTimed(c: Controller, chunkMs: Positive, during: seq<Event>)
    requires c.state == Paused && forall e | e in during :: KeepsPause(c.generation, e)
    ensures var later := AfterMore(c, chunkMs, during);
      later.state == Paused && later.pausedAtMs == c.pausedAtMs && NoChunkSince(c, later)
    decreases |during|
  {
    if during != [] {
      assert during[0] in during;
      PausedStep(c, chunkMs, during[0]);
      PauseIsTimed(After(c, chunkMs, during[0]), chunkMs, during[1..]);
    }
  }

  /** However much a stream reports while it is paused, the resume that ends the pause leaves one gap as long
      as the pause, at least a millisecond, of the fewest chunks that cover it, and no chunk was emitted. */
  lemma PauseBecomesGap(c: Controller, chunkMs: Positive, pausedAt: int, during: seq<Event>, resumedAt: int)
    requires c.state == Capturing && forall e | e in during :: KeepsPause(c.generation, e)
    ensures var paused := AfterNative(c, chunkMs, c.generation, pausedAt, Switched(NativePaused));
      var before := AfterMore(paused, chunkMs, during);
      var resumed := AfterNative(before, chunkMs, c.generation, resumedAt, Switched(NativeCapturing));
      var length := Max(1, resumedAt - pausedAt);
      && resumed.state == Capturing && ChunksOf(before.emitted) == ChunksOf(c.emitted)
      && |resumed.emitted| == |before.emitted| + 1 && before.emitted <= resumed.emitted
      && var gap := resumed.emitted[|before.emitted|];
         && gap.GapItem? && gap.gap.reason == UserPausedCapture
         && gap.gap.endMs - gap.gap.startMs == length
         && (gap.gap.droppedChunks - 1) * chunkMs < length <= gap.gap.droppedChunks * chunkMs
  {
    var paused := AfterNative(c, chunkMs, c.generation, pausedAt, Switched(NativePaused));
    assert forall e | e in during :: KeepsPause(paused.generation, e);
    PauseIsTimed(paused, chunkMs, during);
    CeilDivIsTight(Max(1, resumedAt - pausedAt), chunkMs);
  }

  lemma CeilDivIsTight(a: nat, b: Positive)
    requires a >= 1
    ensures CeilDiv(a, b) >= 1 && (CeilDiv(a, b) - 1) * b < a <= CeilDiv(a, b) * b
  {
    var q := CeilDiv(a, b);
    assert a + b - 1 == q * b + (a + b - 1) % b;
    assert q * b >= a;
  }

  predicate LeavesFailed(generation: nat, e: Event) {
    match e
    case Start => true
    case Stop => true
    case StartResolved(g) => g == generation
    case Native(g, _, event) => g == generation && event == Switched(NativeCapturing)
    case _ => false
  }

  /** The failed state is not final: exactly these events leave it. */
  lemma FailedIsLeftIff(c: Controller, chunkMs: Positive, e: Event)
    requires c.state == Failed
    ensures After(c, chunkMs, e).state != Failed <==> LeavesFailed(c.generation, e)
  {
  }

  lemma FailedStep(c: Controller, chunkMs: Positive, e: Event)
    requires c.state == Failed && !LeavesFailed(c.generation, e)
    ensures After(c, chunkMs, e).state == Failed && NoChunkSince(c, After(c, chunkMs, e))
  {
    if e.Native? && e.event.Lost? {
      GapIsNoChunk(c, e.event.reason, Max(1, e.event.droppedChunks), Max(1, e.event.droppedChunks) * chunkMs);
    }
  }

  /** Until then, over any events, the state stays failed and no chunk is emitted. */
  lemma {:induction false} FailedEmitsNoChunk(c: Controller, chunkMs: Positive, events: seq<Event>)
    requires c.state == Failed && forall e | e in events :: !LeavesFailed(c.generation, e)
    ensures AfterMore(c, chunkMs, events).state == Failed && NoChunkSince(c, AfterMore(c, chunkMs, events))
    decreases |events|
  {
    if events != [] {
      assert events[0] in events;
      FailedStep(c, chunkMs, events[0]);
      FailedEmitsNoChunk(After(c, chunkMs, events[0]), chunkMs, events[1..]);
    }
  }

  function AfterMore(c: Controller, chunkMs: Positive, events: seq<Event>): Controller
    decreases |events|
  {
    if events == [] then c else AfterMore(After(c, chunkMs, events[0]), chunkMs, events[1..])
  }

  // Late answers.

  /** The event comes from a stream that was stopped or restarted since. */
  predicate Stale(e: Event, generation: nat) {
    match e
    case StartResolved(g) => g < generation
    case StartRejected(g) => g < generation
    case PauseOrResumeRejected(g) => g < generation
    case Native(g, _, _) => g < generation
    case _ => false
  }

  predicate AtRest(c: Controller) {
    c.state == Failed || c.state == Stopped
  }

  /** Of the late events exactly one has an effect: a pause or resume asked of the old stream is rejected
      while the controller is neither failed nor stopped. */
  lemma LateEventHasEffectIff(c: Controller, chunkMs: Positive, late: Event)
    requires Stale(late, c.generation)
    ensures After(c, chunkMs, late) != c <==> late.PauseOrResumeRejected? && !AtRest(c)
  {
  }

  predicate AnyRejected(events: seq<Event>) {
    exists e :: e in events && e.PauseOrResumeRejected?
  }

  /** Whatever old streams still report, in any number and order, amounts to at most one failure, and changes
      nothing exactly if no pause or resume is rejected or the controller is failed or stopped. */
  lemma {:induction false} StaleEventsFailOnceIff(c: Controller, chunkMs: Positive, events: seq<Event>)
    requires forall e | e in events :: Stale(e, c.generation)
    ensures AfterMore(c, chunkMs, events) == if AnyRejected(events) then AfterFailure(c, chunkMs) else c
    ensures AfterMore(c, chunkMs, events) == c <==> AtRest(c) || !AnyRejected(events)
    decreases |events|
  {
    if events != [] {
      assert events[0] in events && events == [events[0]] + events[1..];
      assert AnyRejected(events) <==> events[0].PauseOrResumeRejected? || AnyRejected(events[1..]);
      StaleEventsFailOnceIff(After(c, chunkMs, events[0]), chunkMs, events[1..]);
    }
    assert !AtRest(c) ==> |AfterFailure(c, chunkMs).emitted| == |c.emitted| + 1;
  }

  lemma {:induction false} GenerationsOnlyGrow(c: Controller, chunkMs: Positive, events: seq<Event>)
    ensures AfterMore(c, chunkMs, events).generation >= c.generation
    decreases |events|
  {
    if events != [] {
      GenerationsOnlyGrow(After(c, chunkMs, events[0]), chunkMs, events[1..]);
    }
  }

  /** Once capture was stopped, whatever happened since, a late event of the stopped stream has an effect
      exactly if it is a rejected pause or resume and the controller is by now neither failed nor stopped. */
  lemma StoppedStreamIsSilencedIff(c: Controller, chunkMs: Positive, since: seq<Event>, late: Event)
    requires c.state != Stopped && Stale(late, c.generation + 1)
    ensures var now := AfterMore(After(c, chunkMs, Stop), chunkMs, since);
      After(now, chunkMs, late) == now <==> AtRest(now) || !late.PauseOrResumeRejected?
  {
    var now := AfterMore(After(c, chunkMs, Stop), chunkMs, since);
    GenerationsOnlyGrow(After(c, chunkMs, Stop), chunkMs, since);
    LateEventHasEffectIff(now, chunkMs, late);
  }

  /** A pause is asked of the first stream, capture is stopped and started again, and the second stream
      captures. Then the pause of the first stream is rejected: the second stream fails with a gap. */
  lemma LateRejectionFailsNewStream(chunkMs: Positive)
    ensures var c := AfterMore(NEW_CONTROLLER, chunkMs,
                               [Start, StartResolved(1), Stop, Start, StartResolved(3)]);
      && c.state == Capturing && c.emitted == [] && Stale(PauseOrResumeRejected(1), c.generation)
      && var failed := After(c, chunkMs, PauseOrResumeRejected(1));
         && failed.state == Failed
         && failed.emitted == [GapItem(GapFields(Microphone, 0, chunkMs, 1, DeviceUnavailable))]
  {
    var c1 := After(NEW_CONTROLLER, chunkMs, Start);
    var c2 := After(c1, chunkMs, StartResolved(1));
    var c3 := After(c2, chunkMs, Stop);
    var c4 := After(c3, chunkMs, Start);
    var c5 := After(c4, chunkMs, StartResolved(3));
    assert AfterMore(c4, chunkMs, [StartResolved(3)]) == c5;
    assert AfterMore(c3, chunkMs, [Start, StartResolved(3)]) == c5;
    assert AfterMore(c2, chunkMs, [Stop, Start, StartResolved(3)]) == c5;
    assert AfterMore(c1, chunkMs, [StartResolved(1), Stop, Start, StartResolved(3)]) == c5;
  }

  /** In the stopped state nothing but a start has any effect: whatever else happens, in any number and order,
      nothing is emitted and nothing changes. */
  lemma {:induction false} OnlyStartLeavesStopped(c: Controller, chunkMs: Positive, events: seq<Event>)
    requires c.state == Stopped && Start !in events
    ensures AfterMore(c, chunkMs, events) == c
    ensures After(c, chunkMs, Start).state == Starting
  {
    if events != [] {
      assert events[0] in events;
      OnlyStartLeavesStopped(c, chunkMs, events[1..]);
    }
  }
}
