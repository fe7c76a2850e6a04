/** What the byte budgets count: the UTF-8 encoding of section 3 of RFC 3629, as the runtime's encoder writes it
    (services/ai-orchestrator/src/index.ts:889-891). A surrogate without its partner becomes U+FFFD. */
module Utf8 {
  import opened Utf16

  type Octet = b: int | 0 <= b < 256

  type CodePoint = c: int | 0 <= c < 0x11_0000

  function FirstCodePoint(t: Text): CodePoint
    requires t != []
  {
    if StartsWithPair(t) then 0x1_0000 + (t[0] as int - 0xD800) * 0x400 + (t[1] as int - 0xDC00)
    else if IsHigh(t[0]) || IsLow(t[0]) then 0xFFFD
    else t[0]
  }

  function CodePoints(t: Text): seq<CodePoint>
    decreases |t|
  {
    if t == [] then [] else [FirstCodePoint(t)] + CodePoints(t[FirstUnits(t)..])
  }

  /** Six bits of a continuation byte. */
  function Continuation(bits: int): Octet {
    0x80 + bits % 64
  }

  function EncodeOne(c: CodePoint): seq<Octet> {
    if c < 0x80 then [c]
    else if c < 0x800 then [0xC0 + c / 64, Continuation(c)]
    else if c < 0x1_0000 then [0xE0 + c / 4096, Continuation(c / 64), Continuation(c)]
    else [0xF0 + c / 262144, Continuation(c / 4096), Continuation(c / 64), Continuation(c)]
  }

  function Encode(codePoints: seq<CodePoint>): seq<Octet> {
    if codePoints == [] then [] else EncodeOne(codePoints[0]) + Encode(codePoints[1..])
  }

  /** How many bytes a first byte announces. */
  function Announced(first: Octet): nat {
    if first < 0x80 then 1 else if first < 0xE0 then 2 else if first < 0xF0 then 3 else 4
  }

  /** The bits of a byte without its mark. */
  function Bits(b: Octet, mark: int): int {
    b as int - mark
  }

  function DecodeOne(bytes: seq<Octet>): int
    requires bytes != [] && |bytes| == Announced(bytes[0])
  {
    if |bytes| == 1 then bytes[0]
    else if |bytes| == 2 then Bits(bytes[0], 0xC0) * 64 + Bits(bytes[1], 0x80)
    else if |bytes| == 3 then Bits(bytes[0], 0xE0) * 4096 + Bits(bytes[1], 0x80) * 64 + Bits(bytes[2], 0x80)
    else Bits(bytes[0], 0xF0) * 262144 + Bits(bytes[1], 0x80) * 4096 + Bits(bytes[2], 0x80) * 64 + Bits(bytes[3], 0x80)
  }

  function Decode(bytes: seq<Octet>): seq<int>
    decreases |bytes|
  {
    if bytes == [] || |bytes| < Announced(bytes[0]) then []
    else [DecodeOne(bytes[..Announced(bytes[0])])] + Decode(bytes[Announced(bytes[0])..])
  }

  lemma SplitBits(c: int)
    ensures c == c / 64 * 64 + c % 64
    ensures c / 64 / 64 == c / 4096 && c / 4096 / 64 == c / 262144
  {
  }

  lemma OneReadsBack(c: CodePoint)
    ensures var bytes := EncodeOne(c); Announced(bytes[0]) == |bytes| && DecodeOne(bytes) == c
  {
    SplitBits(c);
    SplitBits(c / 64);
    SplitBits(c / 4096);
  }

  /** Round trip: encoded code points are read back. */
  lemma {:induction false} EncodedReadsBack(codePoints: seq<CodePoint>)
    ensures Decode(Encode(codePoints)) == codePoints
  {
    if codePoints != [] {
      var first, rest := EncodeOne(codePoints[0]), Encode(codePoints[1..]);
      OneReadsBack(codePoints[0]);
      assert (first + rest)[..|first|] == first && (first + rest)[|first|..] == rest;
      EncodedReadsBack(codePoints[1..]);
    }
  }

  lemma FirstBytesAreEncoded(t: Text)
    requires t != []
    ensures |EncodeOne(FirstCodePoint(t))| == FirstBytes(t)
  {
  }

  /** The byte length of a text is the length of its encoding. */
  lemma {:induction false} ByteLengthIsEncodedLength(t: Text)
    ensures |Encode(CodePoints(t))| == ByteLength(t)
    decreases |t|
  {
    if t != [] {
      FirstBytesAreEncoded(t);
      ByteLengthIsEncodedLength(t[FirstUnits(t)..]);
      assert CodePoints(t)[1..] == CodePoints(t[FirstUnits(t)..]);
    }
  }
}
