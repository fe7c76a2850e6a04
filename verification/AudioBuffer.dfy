/** The desktop client's bounded audio buffer (apps/desktop/src/protocol/realtimeRecovery.ts:33-95). */
module AudioBuffer {

  type Byte = b: int | 0 <= b < 256

  datatype Stream = Microphone | System

  datatype GapReason = LocalBufferFull | PolicyBufferDisabled | UserPausedCapture | DeviceUnavailable

  datatype MetaFields = MetaFields(stream: Stream, chunkIndex: nat, durationMs: nat, timestampMs: nat, byteLength: nat)

  datatype GapFields = GapFields(stream: Stream, startMs: nat, endMs: nat, droppedChunks: nat, reason: GapReason)

  /** The minimums of the wire schema (packages/contracts/src/realtime.ts:114-147). */
  type Meta = m: MetaFields | m.durationMs >= 1 && m.byteLength >= 1 witness MetaFields(Microphone, 0, 1, 0, 1)

  type Gap = g: GapFields | g.droppedChunks >= 1 witness GapFields(Microphone, 0, 0, 1, LocalBufferFull)

  datatype Chunk = Chunk(meta: Meta, bytes: seq<Byte>)

  datatype Buffer = Buffer(chunks: seq<Chunk>, gaps: seq<Gap>, maxDurationMs: nat, maxBytes: nat)

  function Bytes(chunks: seq<Chunk>): nat {
    if chunks == [] then 0 else |chunks[0].bytes| + Bytes(chunks[1..])
  }

  function DurationMs(chunks: seq<Chunk>): nat {
    if chunks == [] then 0 else chunks[0].meta.durationMs + DurationMs(chunks[1..])
  }

  predicate Within(chunks: seq<Chunk>, maxDurationMs: nat, maxBytes: nat) {
    Bytes(chunks) <= maxBytes && DurationMs(chunks) <= maxDurationMs
  }

  function DroppedGap(c: Chunk): Gap {
    GapFields(c.meta.stream, c.meta.timestampMs, c.meta.timestampMs + c.meta.durationMs, 1, LocalBufferFull)
  }

  function Trimmed(b: Buffer): Buffer
    decreases |b.chunks|
  {
    if b.chunks == [] || Within(b.chunks, b.maxDurationMs, b.maxBytes) then b
    else Trimmed(b.(chunks := b.chunks[1..], gaps := b.gaps + [DroppedGap(b.chunks[0])]))
  }

  function Enqueued(b: Buffer, c: Chunk): Buffer {
    Trimmed(b.(chunks := b.chunks + [c]))
  }

  function GapEnqueued(b: Buffer, g: Gap): Buffer {
    b.(gaps := b.gaps + [g])
  }

  function Limited(b: Buffer, maxDurationMs: nat, maxBytes: nat): Buffer {
    Trimmed(b.(maxDurationMs := maxDurationMs, maxBytes := maxBytes))
  }

  function Drained(b: Buffer): Buffer {
    b.(chunks := [], gaps := [])
  }

  class InMemoryAudioBuffer {
    var chunks: seq<Chunk>
    var gaps: seq<Gap>
    var maxDurationMs: nat
    var maxBytes: nat

    function View(): Buffer
      reads this
    {
      Buffer(chunks, gaps, maxDurationMs, maxBytes)
    }

    constructor (maxDurationMs: nat, maxBytes: nat)
      ensures View() == Buffer([], [], maxDurationMs, maxBytes)
    {
      chunks, gaps := [], [];
      this.maxDurationMs, this.maxBytes := maxDurationMs, maxBytes;
    }

    method SetLimits(maxDurationMs: nat, maxBytes: nat)
      modifies this
      ensures View() == Limited(old(View()), maxDurationMs, maxBytes)
    {
      this.maxDurationMs, this.maxBytes := maxDurationMs, maxBytes;
      TrimToLimits();
    }

    method Enqueue(chunk: Chunk)
      modifies this
      ensures View() == Enqueued(old(View()), chunk)
    {
      chunks := chunks + [chunk];
      TrimToLimits();
    }

    method EnqueueGap(gap: Gap)
      modifies this
      ensures View() == GapEnqueued(old(View()), gap)
    {
      gaps := gaps + [gap];
    }

    method DrainChunks() returns (drained: seq<Chunk>)
      modifies this
      ensures drained == old(chunks)
      ensures View() == old(View()).(chunks := [])
    {
      drained, chunks := chunks, [];
    }

    method DrainGaps() returns (drained: seq<Gap>)
      modifies this
      ensures drained == old(gaps)
      ensures View() == old(View()).(gaps := [])
    {
      drained, gaps := gaps, [];
    }

    method PendingBytes() returns (total: nat)
      ensures total == Bytes(chunks)
    {
      total := 0;
      for i := 0 to |chunks|
        invariant total + Bytes(chunks[i..]) == Bytes(chunks)
      {
        assert chunks[i..][1..] == chunks[i + 1..];
        total := total + |chunks[i].bytes|;
      }
    }

    method PendingDurationMs() returns (total: nat)
      ensures total == DurationMs(chunks)
    {
      total := 0;
      for i := 0 to |chunks|
        invariant total + DurationMs(chunks[i..]) == DurationMs(chunks)
      {
        assert chunks[i..][1..] == chunks[i + 1..];
        total := total + chunks[i].meta.durationMs;
      }
    }

    method TrimToLimits()
      modifies this
      ensures View() == Trimmed(old(View()))
    {
      while true
        invariant Trimmed(View()) == Trimmed(old(View()))
        decreases |chunks|
      {
        var bytes := PendingBytes();
        var duration := PendingDurationMs();
        if |chunks| == 0 || (bytes <= maxBytes && duration <= maxDurationMs) {
          break;
        }
        var dropped := chunks[0];
        chunks, gaps := chunks[1..], gaps + [DroppedGap(dropped)];
      }
    }
  }

  function DroppedGaps(chunks: seq<Chunk>): seq<Gap> {
    if chunks == [] then [] else [DroppedGap(chunks[0])] + DroppedGaps(chunks[1..])
  }

  function DropCount(chunks: seq<Chunk>, maxDurationMs: nat, maxBytes: nat): (k: nat)
    ensures k <= |chunks|
  {
    if chunks == [] || Within(chunks, maxDurationMs, maxBytes) then 0
    else 1 + DropCount(chunks[1..], maxDurationMs, maxBytes)
  }

  lemma {:induction false} DropCountIsFewest(chunks: seq<Chunk>, maxDurationMs: nat, maxBytes: nat)
    ensures var k := DropCount(chunks, maxDurationMs, maxBytes);
      && Within(chunks[k..], maxDurationMs, maxBytes)
      && forall j :: 0 <= j < k ==> !Within(chunks[j..], maxDurationMs, maxBytes)
  {
    assert chunks[0..] == chunks;
    if chunks != [] && !Within(chunks, maxDurationMs, maxBytes) {
      DropCountIsFewest(chunks[1..], maxDurationMs, maxBytes);
      assert forall j :: 0 < j <= |chunks| ==> chunks[j..] == chunks[1..][j - 1..];
    }
  }

  lemma {:induction false} TrimmedDropsCount(b: Buffer)
    ensures var k := DropCount(b.chunks, b.maxDurationMs, b.maxBytes);
      Trimmed(b) == b.(chunks := b.chunks[k..], gaps := b.gaps + DroppedGaps(b.chunks[..k]))
    decreases |b.chunks|
  {
    if b.chunks == [] || Within(b.chunks, b.maxDurationMs, b.maxBytes) {
      assert b.chunks[0..] == b.chunks && b.gaps + [] == b.gaps;
    } else {
      var rest, first := b.chunks[1..], DroppedGap(b.chunks[0]);
      TrimmedDropsCount(b.(chunks := rest, gaps := b.gaps + [first]));
      var n := DropCount(rest, b.maxDurationMs, b.maxBytes);
      assert b.chunks[..n + 1][1..] == rest[..n];
      assert b.gaps + [first] + DroppedGaps(rest[..n]) == b.gaps + ([first] + DroppedGaps(rest[..n]));
    }
  }

  /** Trimming drops the oldest chunks, as few as the limits allow, and declares a gap for each of them. */
  lemma TrimmingDropsFewest(b: Buffer) returns (k: nat)
    ensures k <= |b.chunks|
    ensures Trimmed(b) == b.(chunks := b.chunks[k..], gaps := b.gaps + DroppedGaps(b.chunks[..k]))
    ensures Within(b.chunks[k..], b.maxDurationMs, b.maxBytes)
    ensures forall j :: 0 <= j < k ==> !Within(b.chunks[j..], b.maxDurationMs, b.maxBytes)
  {
    k := DropCount(b.chunks, b.maxDurationMs, b.maxBytes);
    TrimmedDropsCount(b);
    DropCountIsFewest(b.chunks, b.maxDurationMs, b.maxBytes);
  }

  /** Each gap declared for a dropped chunk: its stretch of the timeline, one chunk, and a full buffer as the reason. */
  lemma {:induction false} DroppedGapsDeclare(chunks: seq<Chunk>)
    ensures |DroppedGaps(chunks)| == |chunks|
    ensures forall i :: 0 <= i < |chunks| ==>
      var meta, gap := chunks[i].meta, DroppedGaps(chunks)[i];
      && (gap.stream, gap.startMs, gap.endMs) == (meta.stream, meta.timestampMs, meta.timestampMs + meta.durationMs)
      && gap.droppedChunks == 1 && gap.reason == LocalBufferFull
  {
    if chunks != [] {
      DroppedGapsDeclare(chunks[1..]);
    }
  }

  /** A stretch of one stream's timeline. */
  datatype Interval = Interval(stream: Stream, startMs: nat, endMs: nat)

  function ChunkInterval(c: Chunk): Interval {
    Interval(c.meta.stream, c.meta.timestampMs, c.meta.timestampMs + c.meta.durationMs)
  }

  function GapInterval(g: Gap): Interval {
    Interval(g.stream, g.startMs, g.endMs)
  }

  function ChunkIntervals(chunks: seq<Chunk>): multiset<Interval> {
    if chunks == [] then multiset{} else multiset{ChunkInterval(chunks[0])} + ChunkIntervals(chunks[1..])
  }

  function GapIntervals(gaps: seq<Gap>): multiset<Interval> {
    if gaps == [] then multiset{} else multiset{GapInterval(gaps[0])} + GapIntervals(gaps[1..])
  }

  function Pending(b: Buffer): multiset<Interval> {
    ChunkIntervals(b.chunks) + GapIntervals(b.gaps)
  }

  lemma {:induction false} ChunkIntervalsAppend(a: seq<Chunk>, b: seq<Chunk>)
    ensures ChunkIntervals(a + b) == ChunkIntervals(a) + ChunkIntervals(b)
  {
    if a == [] {
      assert a + b == b;
    } else {
      assert (a + b)[1..] == a[1..] + b;
      ChunkIntervalsAppend(a[1..], b);
    }
  }

  lemma {:induction false} GapIntervalsAppend(a: seq<Gap>, b: seq<Gap>)
    ensures GapIntervals(a + b) == GapIntervals(a) + GapIntervals(b)
  {
    if a == [] {
      assert a + b == b;
    } else {
      assert (a + b)[1..] == a[1..] + b;
      GapIntervalsAppend(a[1..], b);
    }
  }

  lemma GapIntervalsSnoc(gaps: seq<Gap>, g: Gap)
    ensures GapIntervals(gaps + [g]) == GapIntervals(gaps) + multiset{GapInterval(g)}
  {
    GapIntervalsAppend(gaps, [g]);
    assert GapIntervals([g]) == multiset{GapInterval(g)} + GapIntervals([]);
  }

  lemma ChunkIntervalsSnoc(chunks: seq<Chunk>, c: Chunk)
    ensures ChunkIntervals(chunks + [c]) == ChunkIntervals(chunks) + multiset{ChunkInterval(c)}
  {
    ChunkIntervalsAppend(chunks, [c]);
    assert ChunkIntervals([c]) == multiset{ChunkInterval(c)} + ChunkIntervals([]);
  }

  lemma {:induction false} TrimmingConserves(b: Buffer)
    ensures Pending(Trimmed(b)) == Pending(b)
    decreases |b.chunks|
  {
    if b.chunks != [] && !Within(b.chunks, b.maxDurationMs, b.maxBytes) {
      GapIntervalsSnoc(b.gaps, DroppedGap(b.chunks[0]));
      TrimmingConserves(b.(chunks := b.chunks[1..], gaps := b.gaps + [DroppedGap(b.chunks[0])]));
    }
  }

  // Runs.

  datatype BufferAction =
    | Enqueue(chunk: Chunk)
    | EnqueueGap(gap: Gap)
    | SetLimits(maxDurationMs: nat, maxBytes: nat)
    | DrainChunks
    | DrainGaps

  /** A buffer with everything that went in and out of it. */
  datatype BufferRun = BufferRun(buffer: Buffer, taken: multiset<Interval>, given: multiset<Interval>)

  function ActOn(r: BufferRun, a: BufferAction): BufferRun {
    match a
    case Enqueue(c) => r.(buffer := Enqueued(r.buffer, c), taken := r.taken + multiset{ChunkInterval(c)})
    case EnqueueGap(g) => r.(buffer := GapEnqueued(r.buffer, g), taken := r.taken + multiset{GapInterval(g)})
    case SetLimits(d, n) => r.(buffer := Limited(r.buffer, d, n))
    case DrainChunks => r.(buffer := r.buffer.(chunks := []), given := r.given + ChunkIntervals(r.buffer.chunks))
    case DrainGaps => r.(buffer := r.buffer.(gaps := []), given := r.given + GapIntervals(r.buffer.gaps))
  }

  function RunBuffer(maxDurationMs: nat, maxBytes: nat, actions: seq<BufferAction>): BufferRun {
    if actions == [] then BufferRun(Buffer([], [], maxDurationMs, maxBytes), multiset{}, multiset{})
    else ActOn(RunBuffer(maxDurationMs, maxBytes, actions[..|actions| - 1]), actions[|actions| - 1])
  }

  lemma EnqueueAdds(b: Buffer, c: Chunk)
    ensures Pending(Enqueued(b, c)) == Pending(b) + multiset{ChunkInterval(c)}
  {
    ChunkIntervalsSnoc(b.chunks, c);
    TrimmingConserves(b.(chunks := b.chunks + [c]));
  }

  lemma EnqueueGapAdds(b: Buffer, g: Gap)
    ensures Pending(GapEnqueued(b, g)) == Pending(b) + multiset{GapInterval(g)}
  {
    GapIntervalsSnoc(b.gaps, g);
  }

  lemma DrainTakes(b: Buffer)
    ensures Pending(b.(chunks := [])) + ChunkIntervals(b.chunks) == Pending(b)
    ensures Pending(b.(gaps := [])) + GapIntervals(b.gaps) == Pending(b)
  {
  }

  /** One action moves intervals without losing or repeating any. */
  lemma ActionConserves(r: BufferRun, a: BufferAction) returns (added: multiset<Interval>, moved: multiset<Interval>)
    ensures ActOn(r, a).taken == r.taken + added && ActOn(r, a).given == r.given + moved
    ensures Pending(ActOn(r, a).buffer) + moved == Pending(r.buffer) + added
  {
    added, moved := multiset{}, multiset{};
    match a
    case Enqueue(c) =>
      EnqueueAdds(r.buffer, c);
      added := multiset{ChunkInterval(c)};
    case EnqueueGap(g) =>
      EnqueueGapAdds(r.buffer, g);
      added := multiset{GapInterval(g)};
    case SetLimits(d, n) =>
      TrimmingConserves(r.buffer.(maxDurationMs := d, maxBytes := n));
    case DrainChunks =>
      DrainTakes(r.buffer);
      moved := ChunkIntervals(r.buffer.chunks);
    case DrainGaps =>
      DrainTakes(r.buffer);
      moved := GapIntervals(r.buffer.gaps);
  }

  lemma StepConserves(r: BufferRun, a: BufferAction)
    requires r.taken == r.given + Pending(r.buffer)
    ensures ActOn(r, a).taken == ActOn(r, a).given + Pending(ActOn(r, a).buffer)
  {
    var added, moved := ActionConserves(r, a);
    Balance(r.given, moved, Pending(r.buffer), added, Pending(ActOn(r, a).buffer));
  }

  lemma Balance(given: multiset<Interval>, moved: multiset<Interval>, pending: multiset<Interval>,
                added: multiset<Interval>, pending': multiset<Interval>)
    requires pending' + moved == pending + added
    ensures given + pending + added == given + moved + pending'
  {
    assert given + pending + added == given + (pending + added);
    assert given + moved + pending' == given + (pending' + moved);
  }

  lemma StepFits(r: BufferRun, a: BufferAction)
    requires Within(r.buffer.chunks, r.buffer.maxDurationMs, r.buffer.maxBytes)
    ensures var b := ActOn(r, a).buffer; Within(b.chunks, b.maxDurationMs, b.maxBytes)
  {
    match a
    case Enqueue(c) =>
      var k := TrimmingDropsFewest(r.buffer.(chunks := r.buffer.chunks + [c]));
    case EnqueueGap(g) =>
    case SetLimits(d, n) =>
      var k := TrimmingDropsFewest(r.buffer.(maxDurationMs := d, maxBytes := n));
    case DrainChunks =>
    case DrainGaps =>
  }

  /** Over any run, every interval that went in has come out or is still pending, as audio or as a gap,
      and the buffer is within its current limits. */
  lemma {:induction false} BufferConservesIntervals(maxDurationMs: nat, maxBytes: nat, actions: seq<BufferAction>)
    ensures var r := RunBuffer(maxDurationMs, maxBytes, actions);
      && r.taken == r.given + Pending(r.buffer)
      && Within(r.buffer.chunks, r.buffer.maxDurationMs, r.buffer.maxBytes)
  {
    if actions != [] {
      var before := actions[..|actions| - 1];
      BufferConservesIntervals(maxDurationMs, maxBytes, before);
      StepConserves(RunBuffer(maxDurationMs, maxBytes, before), actions[|actions| - 1]);
      StepFits(RunBuffer(maxDurationMs, maxBytes, before), actions[|actions| - 1]);
    }
  }
}
