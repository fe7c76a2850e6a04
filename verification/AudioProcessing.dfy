/** The audio processor of the native capture worker (apps/desktop/src-tauri/src/microphone_stream.rs:285-311)
    at 16 kHz, where resampling passes samples through: batches of samples become chunks of fixed size. */
module AudioProcessing {
  import opened AudioBuffer
  import opened Capture
  import opened Sequences

  type Sample = x: int | -0x8000 <= x < 0x8000

  const SAMPLES_PER_CHUNK: nat := 1600
  const CHUNK_DURATION_MS: nat := 100

  // 16-bit little-endian samples.

  function LowByte(x: Sample): Byte {
    x % 256
  }

  function HighByte(x: Sample): Byte {
    x / 256 % 256
  }

  function ToBytes(samples: seq<Sample>): (bytes: seq<Byte>)
    ensures |bytes| == 2 * |samples|
  {
    if samples == [] then [] else [LowByte(samples[0]), HighByte(samples[0])] + ToBytes(samples[1..])
  }

  function FromPair(low: Byte, high: Byte): Sample {
    var u := low + 256 * high;
    if u < 0x8000 then u else u - 0x10000
  }

  function FromBytes(bytes: seq<Byte>): seq<Sample> {
    if |bytes| < 2 then [] else [FromPair(bytes[0], bytes[1])] + FromBytes(bytes[2..])
  }

  lemma PairRoundTrip(x: Sample)
    ensures FromPair(LowByte(x), HighByte(x)) == x
  {
    var q := x / 256;
    assert x == 256 * q + x % 256;
    assert q % 256 == if q >= 0 then q else q + 256;
  }

  lemma {:induction false} BytesRoundTrip(samples: seq<Sample>)
    ensures FromBytes(ToBytes(samples)) == samples
  {
    if samples != [] {
      PairRoundTrip(samples[0]);
      assert ToBytes(samples)[2..] == ToBytes(samples[1..]);
      BytesRoundTrip(samples[1..]);
    }
  }

  function ToChunk(samples: seq<Sample>): NativeChunk
    requires samples != []
  {
    NativeFields(ToBytes(samples), CHUNK_DURATION_MS)
  }

  /** The full chunks in a run of samples, and what is left over. */
  function Emitted(samples: seq<Sample>, size: Positive): seq<NativeChunk> {
    if |samples| < size then [] else [ToChunk(samples[..size])] + Emitted(samples[size..], size)
  }

  function LeftOver(samples: seq<Sample>, size: Positive): (rest: seq<Sample>)
    ensures |rest| < size
  {
    if |samples| < size then samples else LeftOver(samples[size..], size)
  }

  class AudioProcessor {
    var output: seq<Sample>

    constructor ()
      ensures output == []
    {
      output := [];
    }

    method Process(samples: seq<Sample>) returns (chunks: seq<NativeChunk>)
      modifies this
      ensures chunks == Emitted(old(output) + samples, SAMPLES_PER_CHUNK)
      ensures output == LeftOver(old(output) + samples, SAMPLES_PER_CHUNK)
    {
      output := output + samples;
      chunks := [];
      ghost var all := output;
      while |output| >= SAMPLES_PER_CHUNK
        invariant chunks + Emitted(output, SAMPLES_PER_CHUNK) == Emitted(all, SAMPLES_PER_CHUNK)
        invariant LeftOver(output, SAMPLES_PER_CHUNK) == LeftOver(all, SAMPLES_PER_CHUNK)
        decreases |output|
      {
        ghost var before := output;
        var drained := Drain();
        var bytes := LittleEndian(drained);
        NextChunk(before, SAMPLES_PER_CHUNK, chunks);
        chunks := chunks + [NativeFields(bytes, CHUNK_DURATION_MS)];
      }
    }

    method Drain() returns (drained: seq<Sample>)
      requires |output| >= SAMPLES_PER_CHUNK
      modifies this
      ensures drained == old(output)[..SAMPLES_PER_CHUNK]
      ensures output == old(output)[SAMPLES_PER_CHUNK..]
    {
      drained, output := output[..SAMPLES_PER_CHUNK], output[SAMPLES_PER_CHUNK..];
    }

    /** At this rate the resampler itself holds nothing. */
    method Reset() returns (discardedInput: nat, discardedOutput: nat)
      modifies this
      ensures discardedInput == 0 && discardedOutput == |old(output)|
      ensures output == []
    {
      discardedInput, discardedOutput := 0, |output|;
      output := [];
    }
  }

  method LittleEndian(samples: seq<Sample>) returns (bytes: seq<Byte>)
    ensures bytes == ToBytes(samples)
  {
    bytes := [];
    for i := 0 to |samples|
      invariant bytes + ToBytes(samples[i..]) == ToBytes(samples)
    {
      assert samples[i..][1..] == samples[i + 1..];
      bytes := bytes + [LowByte(samples[i]), HighByte(samples[i])];
    }
  }

  lemma NextChunk(samples: seq<Sample>, size: Positive, chunks: seq<NativeChunk>)
    requires |samples| >= size
    ensures chunks + Emitted(samples, size) == chunks + [ToChunk(samples[..size])] + Emitted(samples[size..], size)
    ensures LeftOver(samples, size) == LeftOver(samples[size..], size)
  {
  }

  // What the chunks hold.

  function Decoded(chunks: seq<NativeChunk>): seq<Sample> {
    if chunks == [] then [] else FromBytes(chunks[0].bytes) + Decoded(chunks[1..])
  }

  lemma {:induction false} DecodedAppend(a: seq<NativeChunk>, b: seq<NativeChunk>)
    ensures Decoded(a + b) == Decoded(a) + Decoded(b)
  {
    if a == [] {
      assert a + b == b;
    } else {
      assert (a + b)[1..] == a[1..] + b;
      DecodedAppend(a[1..], b);
    }
  }

  predicate FullSize(chunks: seq<NativeChunk>, size: Positive) {
    forall c | c in chunks :: |c.bytes| == 2 * size && c.durationMs == CHUNK_DURATION_MS
  }

  /** No sample is lost, repeated, changed or moved: the chunks decode to the input up to the left-over. */
  lemma {:induction false} ChunksDecodeToInput(samples: seq<Sample>, size: Positive)
    ensures Decoded(Emitted(samples, size)) + LeftOver(samples, size) == samples
    ensures FullSize(Emitted(samples, size), size)
    decreases |samples|
  {
    if |samples| >= size {
      var first, rest := samples[..size], samples[size..];
      BytesRoundTrip(first);
      ChunksDecodeToInput(rest, size);
      Regroup(first, Decoded(Emitted(rest, size)), LeftOver(rest, size));
    }
  }

  lemma {:induction false} EmittedInTwoSteps(a: seq<Sample>, b: seq<Sample>, size: Positive)
    ensures Emitted(a + b, size) == Emitted(a, size) + Emitted(LeftOver(a, size) + b, size)
    ensures LeftOver(a + b, size) == LeftOver(LeftOver(a, size) + b, size)
    decreases |a|
  {
    if |a| >= size {
      assert (a + b)[..size] == a[..size] && (a + b)[size..] == a[size..] + b;
      EmittedInTwoSteps(a[size..], b, size);
    }
  }

  function Concat(batches: seq<seq<Sample>>): seq<Sample> {
    if batches == [] then [] else Concat(batches[..|batches| - 1]) + batches[|batches| - 1]
  }

  /** Everything a processor emits for batches that come one after the other, and what it holds then. */
  function ProcessAll(batches: seq<seq<Sample>>, size: Positive): (seq<NativeChunk>, seq<Sample>) {
    if batches == [] then ([], [])
    else
      var (chunks, held) := ProcessAll(batches[..|batches| - 1], size);
      var input := held + batches[|batches| - 1];
      (chunks + Emitted(input, size), LeftOver(input, size))
  }

  /** However the samples are cut into batches, the chunks are those of the whole input. */
  lemma {:induction false} BatchingDoesNotMatter(batches: seq<seq<Sample>>, size: Positive)
    ensures ProcessAll(batches, size) == (Emitted(Concat(batches), size), LeftOver(Concat(batches), size))
  {
    if batches != [] {
      var before, last := batches[..|batches| - 1], batches[|batches| - 1];
      BatchingDoesNotMatter(before, size);
      EmittedInTwoSteps(Concat(before), last, size);
    }
  }

  /** So two ways of cutting the same samples emit the same chunks, and these decode back to the samples. */
  lemma SameSamplesSameChunks(a: seq<seq<Sample>>, b: seq<seq<Sample>>, size: Positive)
    requires Concat(a) == Concat(b)
    ensures ProcessAll(a, size) == ProcessAll(b, size)
    ensures Decoded(ProcessAll(a, size).0) + ProcessAll(a, size).1 == Concat(a)
  {
    BatchingDoesNotMatter(a, size);
    BatchingDoesNotMatter(b, size);
    ChunksDecodeToInput(Concat(a), size);
  }
}
