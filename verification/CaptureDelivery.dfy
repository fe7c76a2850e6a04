/** From the microphone to the server: every millisecond of a capture timeline reaches the server once, as
    audio or as a declared gap, or still waits in the client. */
module CaptureDelivery {
  import opened AudioBuffer
  import opened FrameAssembler
  import opened ServerConnection
  import opened RoundTrip
  import opened AudioDelivery
  import Capture
  import CaptureContents

  function Hit(i: Interval, t: nat): nat {
    if i.startMs <= t < i.endMs then 1 else 0
  }

  /** How many of the items contain the millisecond `t`. */
  function Cover(items: seq<Item>, t: nat): nat {
    if items == [] then 0 else Cover(items[..|items| - 1], t) + Hit(IntervalOf(items[|items| - 1]), t)
  }

  lemma {:induction false} TilesCoverOnce(items: seq<Item>, start: nat, end: nat, t: nat)
    requires Capture.Tiles(items, start, end)
    ensures start <= end
    ensures Cover(items, t) == if start <= t < end then 1 else 0
    decreases |items|
  {
    if items != [] {
      TilesCoverOnce(items[..|items| - 1], start, IntervalOf(items[|items| - 1]).startMs, t);
    }
  }

  lemma {:induction false} CoverAppend(a: seq<Item>, b: seq<Item>, t: nat)
    ensures Cover(a + b, t) == Cover(a, t) + Cover(b, t)
    decreases |b|
  {
    if b == [] {
      assert a + b == a;
    } else {
      var n := |b| - 1;
      assert (a + b)[..|a| + n] == a + b[..n];
      CoverAppend(a, b[..n], t);
    }
  }

  lemma RemoveOne(items: seq<Item>, k: nat, t: nat) returns (rest: seq<Item>)
    requires k < |items|
    ensures |rest| == |items| - 1
    ensures Intervals(items) == Intervals(rest) + multiset{IntervalOf(items[k])}
    ensures Cover(items, t) == Cover(rest, t) + Hit(IntervalOf(items[k]), t)
  {
    var before, upTo, after := items[..k], items[..k + 1], items[k + 1..];
    rest := before + after;
    assert items == upTo + after && upTo[..k] == before;
    IntervalsAppend(upTo, after);
    IntervalsAppend(before, after);
    CoverAppend(upTo, after, t);
    CoverAppend(before, after, t);
  }

  lemma {:induction false} FindInterval(items: seq<Item>, i: Interval) returns (k: nat)
    requires i in Intervals(items)
    ensures k < |items| && IntervalOf(items[k]) == i
  {
    k := |items| - 1;
    if IntervalOf(items[k]) != i {
      k := FindInterval(items[..k], i);
    }
  }

  lemma NoIntervalsNoItems(items: seq<Item>)
    ensures Intervals(items) == multiset{} ==> items == []
  {
    if items != [] {
      assert IntervalOf(items[|items| - 1]) in Intervals(items);
    }
  }

  lemma {:induction false} SameIntervalsCoverAlike(a: seq<Item>, b: seq<Item>, t: nat)
    requires Intervals(a) == Intervals(b)
    ensures Cover(a, t) == Cover(b, t)
    decreases |a|
  {
    if a == [] {
      NoIntervalsNoItems(b);
    } else {
      var n := |a| - 1;
      var i := IntervalOf(a[n]);
      assert i in Intervals(b);
      var k := FindInterval(b, i);
      var rest := RemoveOne(b, k, t);
      LessOne(Intervals(a[..n]), Intervals(rest), i);
      SameIntervalsCoverAlike(a[..n], rest, t);
    }
  }

  lemma LessOne(a: multiset<Interval>, b: multiset<Interval>, i: Interval)
    requires a + multiset{i} == b + multiset{i}
    ensures a == b
  {
    assert a == (a + multiset{i}) - multiset{i} && b == (b + multiset{i}) - multiset{i};
  }

  /** What the client still holds, as items. */
  function Waiting(b: Buffer): seq<Item> {
    GapItems(b.gaps) + ChunkItems(b.chunks)
  }

  lemma WaitingIsPending(b: Buffer)
    ensures Intervals(Waiting(b)) == Pending(b)
  {
    IntervalsAppend(GapItems(b.gaps), ChunkItems(b.chunks));
    GapItemIntervals(b.gaps);
    ChunkItemIntervals(b.chunks);
  }

  lemma NumberedIsContinuous(items: seq<Item>, next: nat)
    requires Capture.Numbered(items, next)
    ensures Continuous(ChunksOf(items))
  {
    var chunks := ChunksOf(items);
    AllMicrophone(chunks);
    assert LengthsMatch(chunks);
  }

  lemma {:induction false} AllMicrophone(chunks: seq<Chunk>)
    requires forall i :: 0 <= i < |chunks| ==> chunks[i].meta.stream == Microphone
    ensures OfStream(chunks, Microphone) == chunks && OfStream(chunks, System) == []
  {
    if chunks != [] {
      AllMicrophone(chunks[..|chunks| - 1]);
    }
  }

  /** The capture controller's chunks and gaps, sent over a first connection on any schedule and with any
      traffic elsewhere, are accepted without an error, and every millisecond of the timeline is covered
      exactly once by what the server handed on together with what the client still holds. */
  lemma EveryMillisecondIsAccountedFor(chunkMs: Capture.Positive, events: seq<Capture.Event>, x: Setting,
                                       actions: seq<Action>, s: Server, arrivals: seq<Arrival>, t: nat)
    requires FirstConnection(x, actions) && Reaches(x, s) && Undisturbed(s, arrivals)
    requires FramesOf(arrivals) == ActAll(x, actions).sent
    requires Offered(actions) == Capture.AfterAll(chunkMs, events).emitted && EachFits(x, actions)
    ensures Arrived(s, arrivals).errors == []
    ensures Cover(Arrived(s, arrivals).heard + Waiting(ActAll(x, actions).buffer), t)
         == if t < Capture.AfterAll(chunkMs, events).streamTimeMs then 1 else 0
  {
    var c := Capture.AfterAll(chunkMs, events);
    Capture.EmittedTilesTimeline(chunkMs, events);
    NumberedIsContinuous(c.emitted, c.nextChunkIndex);
    FrameRoundTrip(x, actions, s, arrivals);
    var heard, waiting := Arrived(s, arrivals).heard, Waiting(ActAll(x, actions).buffer);
    WaitingIsPending(ActAll(x, actions).buffer);
    IntervalsAppend(heard, waiting);
    SameIntervalsCoverAlike(heard + waiting, c.emitted, t);
    TilesCoverOnce(c.emitted, 0, c.streamTimeMs, t);
  }

  lemma AudioOfThree(a: seq<Chunk>, b: seq<Chunk>, c: seq<Chunk>)
    ensures CaptureContents.AudioOf(a + b + c)
         == CaptureContents.AudioOf(a) + CaptureContents.AudioOf(b) + CaptureContents.AudioOf(c)
  {
  }

  /** Under the same conditions, the audio that the server hands on is a contiguous part of what the native stream
      delivered while it was starting or capturing, byte for byte and in order: only the first chunks can be missing,
      dropped before the first flush, and the last, not sent yet. */
  lemma NativeAudioIsHeard(chunkMs: Capture.Positive, events: seq<Capture.Event>, x: Setting, actions: seq<Action>,
                           s: Server, arrivals: seq<Arrival>)
    returns (first: seq<Capture.NativeFields>, last: seq<Capture.NativeFields>)
    requires FirstConnection(x, actions) && Reaches(x, s) && Undisturbed(s, arrivals)
    requires FramesOf(arrivals) == ActAll(x, actions).sent
    requires Offered(actions) == Capture.AfterAll(chunkMs, events).emitted && EachFits(x, actions)
    ensures CaptureContents.Arrived(events)
         == first + CaptureContents.AudioOf(ChunksOf(Arrived(s, arrivals).heard)) + last
  {
    var c := Capture.AfterAll(chunkMs, events);
    Capture.EmittedTilesTimeline(chunkMs, events);
    NumberedIsContinuous(c.emitted, c.nextChunkIndex);
    FrameRoundTrip(x, actions, s, arrivals);
    CaptureContents.AudioIsWhatArrived(chunkMs, events);
    var dropped, rest := FlushesAreContiguous(x, actions);
    AudioOfThree(dropped, ChunksOf(Flushes(x, actions)), rest);
    first, last := CaptureContents.AudioOf(dropped), CaptureContents.AudioOf(rest);
  }
}
