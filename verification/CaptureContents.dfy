/** What the capture controller emits, told from its events alone: the audio is the native chunks that arrived while
    the stream was starting or capturing, and each gap stands for one loss, failure or pause
    (apps/desktop/src/protocol/microphoneCaptureController.ts:71-222). */
module CaptureContents {
  import opened Numbers
  import opened Wrappers
  import opened AudioBuffer
  import opened FrameAssembler
  import opened Capture

  // The life of the stream, without numbers, times or audio.

  datatype Life = Life(state: State, generation: nat, pausedAt: Option<int>)

  /** A report of the stream that is running. */
  predicate Current(l: Life, generation: nat) {
    generation == l.generation && l.state != Stopped
  }

  predicate Fails(l: Life, e: Event) {
    match e
    case StartRejected(g) => Current(l, g) && l.state != Failed
    case PauseOrResumeRejected(_) => l.state != Stopped && l.state != Failed
    case Native(g, _, Broken) => Current(l, g) && l.state != Failed
    case _ => false
  }

  predicate Runs(l: Life, e: Event) {
    match e
    case StartResolved(g) => Current(l, g)
    case Native(g, _, Switched(NativeCapturing)) => Current(l, g) && l.state != Starting
    case _ => false
  }

  predicate Pauses(l: Life, e: Event) {
    e.Native? && e.event == Switched(NativePaused) && Current(l, e.generation) && l.state == Capturing
  }

  predicate Starts(l: Life, e: Event) {
    e == Start && l.state != Starting && l.state != Capturing
  }

  predicate Stops(l: Life, e: Event) {
    e == Stop && l.state != Stopped
  }

  /** The pause that is being timed ends. */
  predicate Resumes(l: Life, e: Event) {
    Runs(l, e) && e.Native? && l.state == Paused && l.pausedAt.Some?
  }

  function Later(l: Life, e: Event): Life {
    if Starts(l, e) then l.(state := Starting, generation := l.generation + 1)
    else if Stops(l, e) then l.(state := Stopped, generation := l.generation + 1)
    else if Fails(l, e) then l.(state := Failed)
    else if Resumes(l, e) then l.(state := Capturing, pausedAt := None)
    else if Runs(l, e) then l.(state := Capturing)
    else if Pauses(l, e) then l.(state := Paused, pausedAt := Some(e.now))
    else l
  }

  function LifeAfter(events: seq<Event>): Life {
    if events == [] then Life(Idle, 0, None)
    else Later(LifeAfter(events[..|events| - 1]), events[|events| - 1])
  }

  // What happened to the listener's ears.

  datatype Sound = Heard(audio: NativeFields) | Missing(reason: GapReason, chunks: nat, durationMs: int)

  predicate Arrives(l: Life, e: Event) {
    e.Native? && e.event.Captured? && Current(l, e.generation) && (l.state == Capturing || l.state == Starting)
  }

  predicate Loses(l: Life, e: Event) {
    e.Native? && e.event.Lost? && Current(l, e.generation)
  }

  function PauseLength(l: Life, e: Event): nat
    requires Resumes(l, e)
  {
    Max(1, e.now - l.pausedAt.value)
  }

  function Happening(chunkMs: Positive, l: Life, e: Event): seq<Sound> {
    if Arrives(l, e) then [Heard(e.event.chunk)]
    else if Loses(l, e) then
      [Missing(e.event.reason, Max(1, e.event.droppedChunks), Max(1, e.event.droppedChunks) * chunkMs)]
    else if Fails(l, e) then [Missing(DeviceUnavailable, 1, chunkMs)]
    else if Resumes(l, e) then [Missing(UserPausedCapture, CeilDiv(PauseLength(l, e), chunkMs), PauseLength(l, e))]
    else []
  }

  function Happened(chunkMs: Positive, events: seq<Event>): seq<Sound> {
    if events == [] then []
    else
      var before := events[..|events| - 1];
      Happened(chunkMs, before) + Happening(chunkMs, LifeAfter(before), events[|events| - 1])
  }

  function Told(item: Item): Sound {
    match item
    case ChunkItem(c) => Heard(NativeFields(c.bytes, c.meta.durationMs))
    case GapItem(g) => Missing(g.reason, g.droppedChunks, g.endMs - g.startMs)
  }

  function ToldAll(items: seq<Item>): seq<Sound> {
    if items == [] then [] else ToldAll(items[..|items| - 1]) + [Told(items[|items| - 1])]
  }

  function LifeOf(c: Controller): Life {
    Life(c.state, c.generation, c.pausedAtMs)
  }

  lemma ToldSnoc(items: seq<Item>, item: Item)
    ensures ToldAll(items + [item]) == ToldAll(items) + [Told(item)]
  {
    assert (items + [item])[..|items|] == items;
  }

  lemma ChunkIsTold(c: Controller, chunk: NativeChunk)
    ensures ToldAll(WithChunk(c, chunk).emitted) == ToldAll(c.emitted) + [Heard(chunk)]
    ensures LifeOf(WithChunk(c, chunk)) == LifeOf(c)
  {
    ToldSnoc(c.emitted, WithChunk(c, chunk).emitted[|c.emitted|]);
  }

  lemma GapIsTold(c: Controller, reason: GapReason, droppedChunks: nat, durationMs: nat)
    requires droppedChunks >= 1
    ensures ToldAll(WithGap(c, reason, droppedChunks, durationMs).emitted)
         == ToldAll(c.emitted) + [Missing(reason, droppedChunks, durationMs)]
    ensures LifeOf(WithGap(c, reason, droppedChunks, durationMs)) == LifeOf(c)
  {
    ToldSnoc(c.emitted, WithGap(c, reason, droppedChunks, durationMs).emitted[|c.emitted|]);
  }

  ghost predicate TakesPart(c: Controller, c': Controller, chunkMs: Positive, e: Event) {
    && LifeOf(c') == Later(LifeOf(c), e)
    && ToldAll(c'.emitted) == ToldAll(c.emitted) + Happening(chunkMs, LifeOf(c), e)
  }

  lemma AudioFollows(c: Controller, chunkMs: Positive, g: nat, now: int, event: NativeEvent)
    requires event.Captured? || event.Lost?
    ensures TakesPart(c, AfterNative(c, chunkMs, g, now, event), chunkMs, Native(g, now, event))
  {
    if event.Captured? {
      ChunkIsTold(c, event.chunk);
    } else {
      var dropped := Max(1, event.droppedChunks);
      GapIsTold(c, event.reason, dropped, dropped * chunkMs);
    }
  }

  lemma SwitchFollows(c: Controller, chunkMs: Positive, g: nat, now: int, state: NativeState)
    ensures TakesPart(c, AfterNative(c, chunkMs, g, now, Switched(state)), chunkMs, Native(g, now, Switched(state)))
  {
    var e := Native(g, now, Switched(state));
    if Resumes(LifeOf(c), e) {
      var elapsed := PauseLength(LifeOf(c), e);
      CeilDivIsTight(elapsed, chunkMs);
      GapIsTold(c.(pausedAtMs := None, state := Capturing), UserPausedCapture, CeilDiv(elapsed, chunkMs), elapsed);
    }
  }

  lemma FailureFollows(c: Controller, chunkMs: Positive, e: Event)
    requires e.StartRejected? || e.PauseOrResumeRejected? || (e.Native? && e.event.Broken?)
    ensures TakesPart(c, After(c, chunkMs, e), chunkMs, e)
  {
    GapIsTold(c, DeviceUnavailable, 1, chunkMs);
  }

  lemma StepFollows(c: Controller, chunkMs: Positive, e: Event)
    ensures TakesPart(c, After(c, chunkMs, e), chunkMs, e)
  {
    match e
    case Start =>
    case Stop =>
    case StartResolved(_) =>
    case StartRejected(_) => FailureFollows(c, chunkMs, e);
    case PauseOrResumeRejected(_) => FailureFollows(c, chunkMs, e);
    case Native(g, now, event) =>
      match event {
        case Captured(_) => AudioFollows(c, chunkMs, g, now, event);
        case Lost(_, _) => AudioFollows(c, chunkMs, g, now, event);
        case Broken => FailureFollows(c, chunkMs, e);
        case Switched(state) => SwitchFollows(c, chunkMs, g, now, state);
      }
  }

  /** Over any events: the controller lives the life that its events make, and what it emits is exactly what happened,
      in order: nothing that arrived is left out, and no gap is made up. */
  lemma {:induction false} EmittedIsWhatHappened(chunkMs: Positive, events: seq<Event>)
    ensures LifeOf(AfterAll(chunkMs, events)) == LifeAfter(events)
    ensures ToldAll(AfterAll(chunkMs, events).emitted) == Happened(chunkMs, events)
  {
    if events != [] {
      EmittedIsWhatHappened(chunkMs, events[..|events| - 1]);
      StepFollows(AfterAll(chunkMs, events[..|events| - 1]), chunkMs, events[|events| - 1]);
    }
  }

  // The audio alone.

  /** The native chunks that arrived while the stream was starting or capturing. */
  function Arrived(events: seq<Event>): seq<NativeFields> {
    if events == [] then []
    else
      var before, last := events[..|events| - 1], events[|events| - 1];
      if Arrives(LifeAfter(before), last) then Arrived(before) + [last.event.chunk] else Arrived(before)
  }

  function AudioOf(chunks: seq<Chunk>): seq<NativeFields> {
    seq(|chunks|, i requires 0 <= i < |chunks| => NativeFields(chunks[i].bytes, chunks[i].meta.durationMs))
  }

  function HeardOf(sounds: seq<Sound>): seq<NativeFields> {
    if sounds == [] then []
    else
      var before, last := HeardOf(sounds[..|sounds| - 1]), sounds[|sounds| - 1];
      if last.Heard? then before + [last.audio] else before
  }

  lemma {:induction false} ToldAudio(items: seq<Item>)
    ensures HeardOf(ToldAll(items)) == AudioOf(ChunksOf(items))
  {
    if items != [] {
      var before := ToldAll(items[..|items| - 1]);
      ToldAudio(items[..|items| - 1]);
      assert ToldAll(items)[..|before|] == before;
    }
  }

  /** One event brings at most one sound. */
  lemma HeardMore(sounds: seq<Sound>, more: seq<Sound>)
    requires |more| <= 1
    ensures HeardOf(sounds + more)
         == if more != [] && more[0].Heard? then HeardOf(sounds) + [more[0].audio] else HeardOf(sounds)
  {
    if more == [] {
      assert sounds + more == sounds;
    } else {
      assert (sounds + more)[..|sounds|] == sounds;
    }
  }

  lemma HappeningIsHeard(chunkMs: Positive, l: Life, e: Event)
    ensures |Happening(chunkMs, l, e)| <= 1
    ensures if Arrives(l, e) then Happening(chunkMs, l, e) == [Heard(e.event.chunk)]
            else Happening(chunkMs, l, e) == [] || Happening(chunkMs, l, e)[0].Missing?
  {
  }

  lemma HappenedMore(chunkMs: Positive, before: seq<Event>, last: Event)
    ensures HeardOf(Happened(chunkMs, before) + Happening(chunkMs, LifeAfter(before), last))
         == if Arrives(LifeAfter(before), last) then HeardOf(Happened(chunkMs, before)) + [last.event.chunk]
            else HeardOf(Happened(chunkMs, before))
  {
    HappeningIsHeard(chunkMs, LifeAfter(before), last);
    HeardMore(Happened(chunkMs, before), Happening(chunkMs, LifeAfter(before), last));
  }

  lemma {:induction false} HappenedAudio(chunkMs: Positive, events: seq<Event>)
    ensures HeardOf(Happened(chunkMs, events)) == Arrived(events)
  {
    if events != [] {
      HappenedAudio(chunkMs, events[..|events| - 1]);
      HappenedMore(chunkMs, events[..|events| - 1], events[|events| - 1]);
    }
  }

  /** Bytes and durations of the chunks emitted over any events are those of the native chunks that arrived. */
  lemma AudioIsWhatArrived(chunkMs: Positive, events: seq<Event>)
    ensures AudioOf(ChunksOf(AfterAll(chunkMs, events).emitted)) == Arrived(events)
  {
    EmittedIsWhatHappened(chunkMs, events);
    ToldAudio(AfterAll(chunkMs, events).emitted);
    HappenedAudio(chunkMs, events);
  }
}
