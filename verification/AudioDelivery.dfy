/** What a first connection does to a stream of audio that the client is given to send: when the frames are
    accepted, and where every stretch of the timeline ends up. */
module AudioDelivery {
  import opened Numbers
  import opened Sequences
  import opened AudioBuffer
  import opened FrameAssembler
  import opened DesktopClient
  import opened ServerConnection
  import opened RoundTrip

  /** The audio and the gaps handed to the client, in order. */
  function Offered(actions: seq<Action>): seq<Item> {
    if actions == [] then []
    else
      var before := Offered(actions[..|actions| - 1]);
      match actions[|actions| - 1]
      case SendChunk(c) => before + [ChunkItem(c)]
      case SendGap(g) => before + [GapItem(g)]
      case _ => before
  }

  lemma {:induction false} AudioOfLetters(letters: seq<Letter>, items: seq<Item>)
    ensures AudioOf(letters + Letters(items)) == AudioOf(letters) + items
    decreases |items|
  {
    if items == [] {
      assert letters + [] == letters;
    } else {
      var letter := Audio(items[0]);
      AudioOfSnoc(letters, letter);
      AudioOfLetters(letters + [letter], items[1..]);
      Regroup(letters, [letter], Letters(items[1..]));
      RegroupItems(AudioOf(letters), items);
    }
  }

  lemma RegroupItems(a: seq<Item>, b: seq<Item>)
    requires b != []
    ensures a + [b[0]] + b[1..] == a + b
  {
  }

  lemma {:induction false} ChunksOfAppend(a: seq<Item>, b: seq<Item>)
    ensures ChunksOf(a + b) == ChunksOf(a) + ChunksOf(b)
    decreases |b|
  {
    if b == [] {
      assert a + b == a;
    } else {
      var n := |b| - 1;
      assert (a + b)[..|a| + n] == a + b[..n];
      ChunksOfAppend(a, b[..n]);
    }
  }

  lemma {:induction false} GapItemsHoldNoChunks(gaps: seq<Gap>)
    ensures ChunksOf(GapItems(gaps)) == []
  {
    if gaps != [] {
      GapItemsHoldNoChunks(gaps[1..]);
      ChunksOfAppend([GapItem(gaps[0])], GapItems(gaps[1..]));
    }
  }

  lemma {:induction false} ChunkItemsHoldChunks(chunks: seq<Chunk>)
    ensures ChunksOf(ChunkItems(chunks)) == chunks
  {
    if chunks != [] {
      ChunkItemsHoldChunks(chunks[1..]);
      ChunksOfAppend([ChunkItem(chunks[0])], ChunkItems(chunks[1..]));
      assert ChunksOf([ChunkItem(chunks[0])]) == [] + [chunks[0]];
    }
  }

  lemma ChunksOfPending(b: Buffer)
    ensures ChunksOf(GapItems(b.gaps) + ChunkItems(b.chunks)) == b.chunks
  {
    ChunksOfAppend(GapItems(b.gaps), ChunkItems(b.chunks));
    GapItemsHoldNoChunks(b.gaps);
    ChunkItemsHoldChunks(b.chunks);
  }

  lemma FlushAddsAudio(p: Plain)
    ensures AudioOf(PlainFlush(p).letters)
         == AudioOf(p.letters) + (GapItems(p.buffer.gaps) + ChunkItems(p.buffer.chunks))
    ensures ChunksOf(AudioOf(PlainFlush(p).letters)) == ChunksOf(AudioOf(p.letters)) + p.buffer.chunks
  {
    var items := GapItems(p.buffer.gaps) + ChunkItems(p.buffer.chunks);
    AudioOfLetters(p.letters, items);
    ChunksOfAppend(AudioOf(p.letters), items);
    ChunksOfPending(p.buffer);
  }

  // The flushed chunks are a contiguous part of the offered ones.

  predicate FitsAlone(x: Setting, c: Chunk) {
    |c.bytes| <= x.maxBufferBytes && c.meta.durationMs <= x.maxBufferMs && c.meta.durationMs <= x.policyBufferMs
  }

  predicate EachFits(x: Setting, actions: seq<Action>) {
    forall c | c in ChunksOf(Offered(actions)) :: FitsAlone(x, c)
  }

  predicate Limits(x: Setting, p: Plain) {
    && p.buffer.maxBytes == x.maxBufferBytes
    && p.buffer.maxDurationMs == if p.accepted then Min(x.maxBufferMs, x.policyBufferMs) else x.maxBufferMs
  }

  /** `dropped` went before the first flush; `rest` is still pending, or can no longer be sent. */
  predicate Contiguous(p: Plain, offered: seq<Chunk>, dropped: seq<Chunk>, rest: seq<Chunk>) {
    && offered == dropped + ChunksOf(AudioOf(p.letters)) + rest
    && (p.streaming ==> p.accepted)
    && (!p.accepted ==> AudioOf(p.letters) == [])
    && (p.streaming || !p.accepted ==> rest == p.buffer.chunks)
  }

  /** Once something was flushed, nothing waits while the client streams. */
  predicate Quiet(p: Plain) {
    p.streaming ==> ChunksOf(AudioOf(p.letters)) == [] || p.buffer.chunks == []
  }

  lemma OneChunkStays(b: Buffer, c: Chunk)
    requires b.chunks == [] && |c.bytes| <= b.maxBytes && c.meta.durationMs <= b.maxDurationMs
    ensures Enqueued(b, c) == b.(chunks := [c])
  {
    assert b.chunks + [c] == [c] && [c][1..] == [];
    assert Bytes([c]) == |c.bytes| + Bytes([]) && DurationMs([c]) == c.meta.durationMs + DurationMs([]);
  }

  lemma TrimmingSplits(offered: seq<Chunk>, dropped: seq<Chunk>, b: Buffer) returns (dropped': seq<Chunk>)
    requires offered == dropped + b.chunks
    ensures offered == dropped' + Trimmed(b).chunks
  {
    var k := TrimmingDropsFewest(b);
    dropped' := dropped + b.chunks[..k];
  }

  lemma NothingBetween(a: seq<Chunk>, b: seq<Chunk>)
    ensures a + [] + b == a + b
  {
  }

  /** Before the first flush, a chunk may push out the oldest ones. */
  lemma ChunkQueuedFirst(p: Plain, offered: seq<Chunk>, dropped: seq<Chunk>, c: Chunk) returns (dropped': seq<Chunk>)
    requires Contiguous(p, offered, dropped, p.buffer.chunks) && ChunksOf(AudioOf(p.letters)) == []
    ensures Contiguous(p.(buffer := Enqueued(p.buffer, c)), offered + [c], dropped', Enqueued(p.buffer, c).chunks)
  {
    NothingBetween(dropped, p.buffer.chunks);
    assert offered + [c] == dropped + (p.buffer.chunks + [c]);
    dropped' := TrimmingSplits(offered + [c], dropped, p.buffer.(chunks := p.buffer.chunks + [c]));
    NothingBetween(dropped', Enqueued(p.buffer, c).chunks);
  }

  lemma ChunkQueued(x: Setting, p: Plain, offered: seq<Chunk>, dropped: seq<Chunk>, rest: seq<Chunk>, c: Chunk)
    returns (dropped': seq<Chunk>, rest': seq<Chunk>)
    requires Contiguous(p, offered, dropped, rest) && Quiet(p) && Limits(x, p) && FitsAlone(x, c)
    ensures Contiguous(p.(buffer := Enqueued(p.buffer, c)), offered + [c], dropped', rest')
  {
    var out := ChunksOf(AudioOf(p.letters));
    if p.accepted && (out != [] || !p.streaming) {
      if p.streaming {
        OneChunkStays(p.buffer, c);
      }
      dropped', rest' := dropped, rest + [c];
      assert dropped + out + rest + [c] == dropped + out + (rest + [c]);
    } else {
      rest' := Enqueued(p.buffer, c).chunks;
      dropped' := ChunkQueuedFirst(p, offered, dropped, c);
    }
  }

  lemma FlushKeepsContiguous(p: Plain, offered: seq<Chunk>, dropped: seq<Chunk>, rest: seq<Chunk>)
    requires Contiguous(p, offered, dropped, rest) && p.streaming
    ensures Contiguous(PlainFlush(p), offered, dropped, []) && Quiet(PlainFlush(p))
  {
    FlushAddsAudio(p);
    var out := ChunksOf(AudioOf(p.letters));
    assert dropped + out + rest == dropped + (out + rest) + [];
  }

  lemma AcceptKeepsContiguous(x: Setting, p: Plain, offered: seq<Chunk>, dropped: seq<Chunk>, rest: seq<Chunk>)
    returns (dropped': seq<Chunk>, rest': seq<Chunk>)
    requires Contiguous(p, offered, dropped, rest) && !p.accepted
    ensures Contiguous(PlainAct(x, p, Accept), offered, dropped', rest') && Quiet(PlainAct(x, p, Accept))
  {
    AudioOfSnoc(p.letters, Start(x.workspaceId));
    NothingBetween(dropped, rest);
    var b := p.buffer.(maxDurationMs := Min(x.maxBufferMs, x.policyBufferMs), maxBytes := x.maxBufferBytes);
    dropped' := TrimmingSplits(offered, dropped, b);
    rest' := Trimmed(b).chunks;
    NothingBetween(dropped', rest');
  }

  lemma TrimmingKeepsLimits(b: Buffer)
    ensures Trimmed(b).maxBytes == b.maxBytes && Trimmed(b).maxDurationMs == b.maxDurationMs
  {
    var k := TrimmingDropsFewest(b);
  }

  lemma StepKeepsLimits(x: Setting, p: Plain, a: Action)
    requires Limits(x, p)
    ensures Limits(x, PlainAct(x, p, a))
  {
    match a
    case SendChunk(c) => TrimmingKeepsLimits(p.buffer.(chunks := p.buffer.chunks + [c]));
    case Accept =>
      TrimmingKeepsLimits(p.buffer.(maxDurationMs := Min(x.maxBufferMs, x.policyBufferMs),
                                    maxBytes := x.maxBufferBytes));
    case _ =>
  }

  lemma StepKeepsContiguous(x: Setting, p: Plain, a: Action, offered: seq<Chunk>, dropped: seq<Chunk>, rest: seq<Chunk>)
    returns (dropped': seq<Chunk>, rest': seq<Chunk>)
    requires Contiguous(p, offered, dropped, rest) && Quiet(p) && Limits(x, p)
    requires a.Accept? ==> !p.accepted
    requires a.SendChunk? ==> FitsAlone(x, a.chunk)
    ensures Contiguous(PlainAct(x, p, a), if a.SendChunk? then offered + [a.chunk] else offered, dropped', rest')
    ensures Quiet(PlainAct(x, p, a))
  {
    dropped', rest' := dropped, rest;
    match a
    case Open => AudioOfSnoc(p.letters, Hello);
    case Accept => dropped', rest' := AcceptKeepsContiguous(x, p, offered, dropped, rest);
    case SendChunk(c) =>
      dropped', rest' := ChunkQueued(x, p, offered, dropped, rest, c);
      if p.streaming {
        FlushKeepsContiguous(p.(buffer := Enqueued(p.buffer, c)), offered + [c], dropped', rest');
        rest' := [];
      }
    case SendGap(g) =>
      if p.streaming {
        FlushKeepsContiguous(p.(buffer := GapEnqueued(p.buffer, g)), offered, dropped, rest);
        rest' := [];
      }
    case Ask(id) => AudioOfSnoc(p.letters, Request(id));
    case Report(_) =>
  }

  /** Chunks are dropped only before the first flush or after the last one. */
  lemma {:induction false} FlushesAreContiguous(x: Setting, actions: seq<Action>)
    returns (dropped: seq<Chunk>, rest: seq<Chunk>)
    requires FirstConnection(x, actions) && EachFits(x, actions)
    ensures Contiguous(PlainActAll(x, actions), ChunksOf(Offered(actions)), dropped, rest)
    ensures Quiet(PlainActAll(x, actions)) && Limits(x, PlainActAll(x, actions))
  {
    dropped, rest := [], [];
    if actions != [] {
      var before, a := actions[..|actions| - 1], actions[|actions| - 1];
      var offered := Offered(before);
      if a.SendChunk? {
        ChunksOfAppend(offered, [ChunkItem(a.chunk)]);
        assert ChunksOf(Offered(actions)) == ChunksOf(offered) + [a.chunk];
      } else if a.SendGap? {
        ChunksOfAppend(offered, [GapItem(a.gap)]);
      }
      dropped, rest := FlushesAreContiguous(x, before);
      ClientPrints(x, before);
      StepKeepsLimits(x, PlainActAll(x, before), a);
      dropped, rest := StepKeepsContiguous(x, PlainActAll(x, before), a, ChunksOf(offered), dropped, rest);
    }
  }

  lemma {:induction false} OfStreamAppend(a: seq<Chunk>, b: seq<Chunk>, stream: Stream)
    ensures OfStream(a + b, stream) == OfStream(a, stream) + OfStream(b, stream)
    decreases |b|
  {
    if b == [] {
      assert a + b == a;
    } else {
      var n := |b| - 1;
      assert (a + b)[..|a| + n] == a + b[..n];
      OfStreamAppend(a, b[..n], stream);
    }
  }

  lemma ConsecutivePart(a: seq<Chunk>, b: seq<Chunk>, c: seq<Chunk>)
    requires Consecutive(a + b + c)
    ensures Consecutive(b)
  {
    var all := a + b + c;
    assert forall i :: 0 <= i < |b| ==> all[|a| + i] == b[i];
  }

  lemma ContinuousPart(a: seq<Chunk>, b: seq<Chunk>, c: seq<Chunk>)
    requires Continuous(a + b + c)
    ensures Continuous(b)
  {
    OfStreamAppend(a + b, c, Microphone);
    OfStreamAppend(a, b, Microphone);
    ConsecutivePart(OfStream(a, Microphone), OfStream(b, Microphone), OfStream(c, Microphone));
    OfStreamAppend(a + b, c, System);
    OfStreamAppend(a, b, System);
    ConsecutivePart(OfStream(a, System), OfStream(b, System), OfStream(c, System));
    assert forall d | d in b :: d in a + b + c;
  }

  // Every offered interval is flushed or pending.

  function IntervalOf(item: Item): Interval {
    match item
    case ChunkItem(c) => ChunkInterval(c)
    case GapItem(g) => GapInterval(g)
  }

  function Intervals(items: seq<Item>): multiset<Interval> {
    if items == [] then multiset{}
    else Intervals(items[..|items| - 1]) + multiset{IntervalOf(items[|items| - 1])}
  }

  lemma IntervalsSnoc(items: seq<Item>, item: Item)
    ensures Intervals(items + [item]) == Intervals(items) + multiset{IntervalOf(item)}
  {
    assert (items + [item])[..|items|] == items;
  }

  lemma {:induction false} IntervalsAppend(a: seq<Item>, b: seq<Item>)
    ensures Intervals(a + b) == Intervals(a) + Intervals(b)
    decreases |b|
  {
    if b == [] {
      assert a + b == a;
    } else {
      var before, last := b[..|b| - 1], b[|b| - 1];
      assert a + b == (a + before) + [last];
      IntervalsSnoc(a + before, last);
      IntervalsAppend(a, before);
      RegroupIntervals(Intervals(a), Intervals(before), multiset{IntervalOf(last)});
    }
  }

  lemma RegroupIntervals(a: multiset<Interval>, b: multiset<Interval>, c: multiset<Interval>)
    ensures a + b + c == a + (b + c)
  {
  }

  lemma IntervalsOfOne(item: Item)
    ensures Intervals([item]) == multiset{IntervalOf(item)}
  {
    assert Intervals([item]) == Intervals([]) + multiset{IntervalOf(item)};
  }

  lemma {:induction false} GapItemIntervals(gaps: seq<Gap>)
    ensures Intervals(GapItems(gaps)) == GapIntervals(gaps)
  {
    if gaps != [] {
      GapItemIntervals(gaps[1..]);
      IntervalsAppend([GapItem(gaps[0])], GapItems(gaps[1..]));
      IntervalsOfOne(GapItem(gaps[0]));
    }
  }

  lemma {:induction false} ChunkItemIntervals(chunks: seq<Chunk>)
    ensures Intervals(ChunkItems(chunks)) == ChunkIntervals(chunks)
  {
    if chunks != [] {
      ChunkItemIntervals(chunks[1..]);
      IntervalsAppend([ChunkItem(chunks[0])], ChunkItems(chunks[1..]));
      IntervalsOfOne(ChunkItem(chunks[0]));
    }
  }

  /** Where the offered intervals are. */
  function Held(p: Plain): multiset<Interval> {
    Intervals(AudioOf(p.letters)) + Pending(p.buffer)
  }

  lemma FlushKeepsHeld(p: Plain)
    ensures Held(PlainFlush(p)) == Held(p)
  {
    FlushAddsAudio(p);
    var gaps, chunks := GapItems(p.buffer.gaps), ChunkItems(p.buffer.chunks);
    IntervalsAppend(AudioOf(p.letters), gaps + chunks);
    IntervalsAppend(gaps, chunks);
    GapItemIntervals(p.buffer.gaps);
    ChunkItemIntervals(p.buffer.chunks);
  }

  lemma LetterKeepsHeld(p: Plain, letter: Letter)
    requires !letter.Audio?
    ensures Held(p.(letters := p.letters + [letter])) == Held(p)
  {
    AudioOfSnoc(p.letters, letter);
  }

  lemma ChunkAddsHeld(p: Plain, c: Chunk) returns (queued: Plain)
    ensures queued == p.(buffer := Enqueued(p.buffer, c))
    ensures Held(queued) == Held(p) + multiset{ChunkInterval(c)} == Held(PlainFlush(queued))
  {
    queued := p.(buffer := Enqueued(p.buffer, c));
    EnqueueAdds(p.buffer, c);
    FlushKeepsHeld(queued);
  }

  lemma GapAddsHeld(p: Plain, g: Gap) returns (queued: Plain)
    ensures queued == p.(buffer := GapEnqueued(p.buffer, g))
    ensures Held(queued) == Held(p) + multiset{GapInterval(g)} == Held(PlainFlush(queued))
  {
    queued := p.(buffer := GapEnqueued(p.buffer, g));
    EnqueueGapAdds(p.buffer, g);
    FlushKeepsHeld(queued);
  }

  lemma AcceptKeepsHeld(x: Setting, p: Plain)
    ensures Held(PlainAct(x, p, Accept)) == Held(p)
  {
    AudioOfSnoc(p.letters, Start(x.workspaceId));
    TrimmingConserves(p.buffer.(maxDurationMs := Min(x.maxBufferMs, x.policyBufferMs), maxBytes := x.maxBufferBytes));
  }

  lemma StepConservesHeld(x: Setting, p: Plain, a: Action)
    ensures Held(PlainAct(x, p, a)) == match a
      case SendChunk(c) => Held(p) + multiset{ChunkInterval(c)}
      case SendGap(g) => Held(p) + multiset{GapInterval(g)}
      case _ => Held(p)
  {
    match a
    case Open => LetterKeepsHeld(p, Hello);
    case Accept => AcceptKeepsHeld(x, p);
    case SendChunk(c) => var queued := ChunkAddsHeld(p, c);
    case SendGap(g) => var queued := GapAddsHeld(p, g);
    case Ask(id) => LetterKeepsHeld(p, Request(id));
    case Report(_) =>
  }

  lemma {:induction false} OfferedIsHeld(x: Setting, actions: seq<Action>)
    ensures Held(PlainActAll(x, actions)) == Intervals(Offered(actions))
  {
    if actions != [] {
      var before, a := actions[..|actions| - 1], actions[|actions| - 1];
      OfferedIsHeld(x, before);
      StepConservesHeld(x, PlainActAll(x, before), a);
      match a
      case SendChunk(c) =>
        IntervalsAppend(Offered(before), [ChunkItem(c)]);
        IntervalsOfOne(ChunkItem(c));
      case SendGap(g) =>
        IntervalsAppend(Offered(before), [GapItem(g)]);
        IntervalsOfOne(GapItem(g));
      case _ =>
    }
  }

  lemma SentFramesAreHeard(x: Setting, actions: seq<Action>, s: Server)
    requires FirstConnection(x, actions) && Reaches(x, s)
    requires Continuous(ChunksOf(Offered(actions))) && EachFits(x, actions)
    ensures Received(s, ActAll(x, actions).sent).errors == []
    ensures Received(s, ActAll(x, actions).sent).heard == Flushes(x, actions)
  {
    var dropped, rest := FlushesAreContiguous(x, actions);
    ContinuousPart(dropped, ChunksOf(Flushes(x, actions)), rest);
    SentRoundTripIff(x, actions, s);
  }

  /** The frame round trip. If the offered chunks are continuous and each fits the buffer by itself, then on a
      first connection, whatever the schedule and the traffic elsewhere, the server reports no error, hands on
      exactly what was flushed, in order, and what it handed on together with what the client still holds is
      what was offered. */
  lemma FrameRoundTrip(x: Setting, actions: seq<Action>, s: Server, arrivals: seq<Arrival>)
    requires FirstConnection(x, actions) && Reaches(x, s) && Undisturbed(s, arrivals)
    requires FramesOf(arrivals) == ActAll(x, actions).sent
    requires Continuous(ChunksOf(Offered(actions))) && EachFits(x, actions)
    ensures Arrived(s, arrivals).errors == []
    ensures Arrived(s, arrivals).heard == Flushes(x, actions)
    ensures Intervals(Arrived(s, arrivals).heard) + Pending(ActAll(x, actions).buffer) == Intervals(Offered(actions))
  {
    SentFramesAreHeard(x, actions, s);
    ElsewhereIsInvisible(s, arrivals);
    ClientPrints(x, actions);
    OfferedIsHeld(x, actions);
  }

  /** A connection that is lost on the way has heard a part of it, from the start, and reported no error. */
  lemma CutRoundTrip(x: Setting, actions: seq<Action>, s: Server, arrivals: seq<Arrival>)
    requires FirstConnection(x, actions) && Reaches(x, s) && Undisturbed(s, arrivals)
    requires FramesOf(arrivals) <= ActAll(x, actions).sent
    requires Continuous(ChunksOf(Offered(actions))) && EachFits(x, actions)
    ensures Arrived(s, arrivals).errors == [] && Arrived(s, arrivals).heard <= Flushes(x, actions)
  {
    SentFramesAreHeard(x, actions, s);
    CutOnlyShortens(s, arrivals, ActAll(x, actions).sent);
  }

  /** While the client streams, nothing it is given stays behind. */
  lemma StreamingHoldsNothingBack(x: Setting, actions: seq<Action>, a: Action)
    requires FirstConnection(x, actions + [a]) && (a.SendChunk? || a.SendGap?)
    requires ActAll(x, actions).status == Streaming
    ensures Pending(ActAll(x, actions + [a]).buffer) == multiset{}
  {
    assert (actions + [a])[..|actions|] == actions;
    ClientPrints(x, actions + [a]);
    ClientPrints(x, actions);
  }
}
