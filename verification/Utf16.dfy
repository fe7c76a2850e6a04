/** Text as the repository's runtime sees it: a sequence of UTF-16 code units.
    Lengths and slices count code units; budgets count UTF-8 bytes, computed per
    section 3 of RFC 3629 after pairing surrogates. A lone surrogate encodes as
    U+FFFD, which takes three bytes. */
module Utf16 {

  type CodeUnit = u: int | 0 <= u < 0x1_0000

  type Text = seq<CodeUnit>

  const NEWLINE: CodeUnit := 10
  const SPACE: CodeUnit := 32
  const CARRIAGE_RETURN: CodeUnit := 13
  const BLANK_LINE: Text := [NEWLINE, NEWLINE]

  /** A literal of the source, code unit by code unit. */
  function Ascii(s: string): Text {
    seq(|s|, i requires 0 <= i < |s| => if s[i] as int < 0x80 then s[i] as int else 0x3F)
  }

  predicate IsHigh(u: CodeUnit) {
    0xD800 <= u < 0xDC00
  }

  predicate IsLow(u: CodeUnit) {
    0xDC00 <= u < 0xE000
  }

  predicate StartsWithPair(t: Text) {
    |t| >= 2 && IsHigh(t[0]) && IsLow(t[1])
  }

  predicate EndsHigh(t: Text) {
    t != [] && IsHigh(t[|t| - 1])
  }

  predicate StartsLow(t: Text) {
    t != [] && IsLow(t[0])
  }

  /** Code units taken by the first code point. */
  function FirstUnits(t: Text): nat
    requires t != []
  {
    if StartsWithPair(t) then 2 else 1
  }

  /** UTF-8 bytes taken by the first code point. */
  function FirstBytes(t: Text): nat
    requires t != []
  {
    if StartsWithPair(t) then 4 else if t[0] < 0x80 then 1 else if t[0] < 0x800 then 2 else 3
  }

  function ByteLength(t: Text): nat
    decreases |t|
  {
    if t == [] then 0 else FirstBytes(t) + ByteLength(t[FirstUnits(t)..])
  }

  /** Appending leaves the first code point alone unless it is the open half of a pair. */
  lemma FirstOfAppend(a: Text, b: Text)
    requires a != [] && !(|a| == 1 && EndsHigh(a) && StartsLow(b))
    ensures FirstUnits(a + b) == FirstUnits(a) && FirstBytes(a + b) == FirstBytes(a)
    ensures (a + b)[FirstUnits(a)..] == a[FirstUnits(a)..] + b
    ensures EndsHigh(a[FirstUnits(a)..]) == (FirstUnits(a) < |a| && EndsHigh(a))
  {
    assert (a + b)[0] == a[0];
    if |a| > 1 {
      assert (a + b)[1] == a[1];
    }
  }

  /** Concatenation saves exactly two bytes when it completes a surrogate pair, and none otherwise. */
  lemma {:induction false} ByteLengthAppend(a: Text, b: Text)
    ensures ByteLength(a + b) + (if EndsHigh(a) && StartsLow(b) then 2 else 0) == ByteLength(a) + ByteLength(b)
    decreases |a|
  {
    if a == [] {
      assert a + b == b;
    } else if |a| == 1 && EndsHigh(a) && StartsLow(b) {
      assert (a + b)[2..] == b[1..];
      assert FirstUnits(b) == 1;
    } else {
      FirstOfAppend(a, b);
      ByteLengthAppend(a[FirstUnits(a)..], b);
      assert FirstUnits(a) == |a| ==> !(EndsHigh(a) && StartsLow(b));
    }
  }

  /** An ASCII text takes one byte for each code unit. */
  lemma {:induction false} AsciiTakesOneByteEach(s: string)
    ensures ByteLength(Ascii(s)) == |s| && !EndsHigh(Ascii(s)) && !StartsLow(Ascii(s))
  {
    if s != [] {
      AsciiTakesOneByteEach(s[1..]);
      assert Ascii(s)[1..] == Ascii(s[1..]);
    }
  }

  /** A prefix, even one that cuts a surrogate pair, never takes more bytes than the whole. */
  lemma PrefixTakesNoMoreBytes(t: Text, k: nat)
    requires k <= |t|
    ensures ByteLength(t[..k]) <= ByteLength(t)
  {
    ByteLengthAppend(t[..k], t[k..]);
    assert t[..k] + t[k..] == t;
    if StartsLow(t[k..]) {
      assert ByteLength(t[k..]) >= 3;
    }
  }

  /** k is a position between two code points of t. */
  predicate Boundary(t: Text, k: nat)
    decreases |t|
  {
    k == 0 || (t != [] && FirstUnits(t) <= k && Boundary(t[FirstUnits(t)..], k - FirstUnits(t)))
  }

  /** Code units of the longest run of whole code points that fits in `budget` bytes. */
  function FittingUnits(t: Text, budget: int): (k: nat)
    ensures k <= |t|
    decreases |t|
  {
    if t == [] || FirstBytes(t) > budget then 0
    else FirstUnits(t) + FittingUnits(t[FirstUnits(t)..], budget - FirstBytes(t))
  }

  /** The result of cutting `t` to `budget` bytes without splitting a code point. */
  function Truncated(t: Text, budget: int): Text {
    t[..FittingUnits(t, budget)]
  }

  /** The cut is the longest: a code-point boundary of `t` fits exactly when it is not past the cut. */
  lemma {:induction false} TruncatedIsLongest(t: Text, budget: nat)
    ensures Boundary(t, |Truncated(t, budget)|)
    ensures ByteLength(Truncated(t, budget)) <= budget
    ensures forall k: nat | k <= |t| && Boundary(t, k) :: ByteLength(t[..k]) <= budget <==> k <= |Truncated(t, budget)|
    decreases |t|
  {
    if t != [] {
      var n, w := FirstUnits(t), FirstBytes(t);
      if w <= budget {
        TruncatedIsLongest(t[n..], budget - w);
        PrefixBytes(t, n + FittingUnits(t[n..], budget - w));
      }
      forall k: nat | k <= |t| && Boundary(t, k)
        ensures ByteLength(t[..k]) <= budget <==> k <= |Truncated(t, budget)|
      {
        if k > 0 {
          PrefixBytes(t, k);
        }
      }
    }
  }

  lemma PrefixBytes(t: Text, k: nat)
    requires t != [] && FirstUnits(t) <= k <= |t|
    ensures ByteLength(t[..k]) == FirstBytes(t) + ByteLength(t[FirstUnits(t)..][..k - FirstUnits(t)])
  {
    assert t[..k][FirstUnits(t)..] == t[FirstUnits(t)..][..k - FirstUnits(t)];
  }

  /** A text within the budget is left whole. */
  lemma {:induction false} FittingTextIsKept(t: Text, budget: int)
    requires ByteLength(t) <= budget
    ensures Truncated(t, budget) == t
    decreases |t|
  {
    if t != [] {
      FittingTextIsKept(t[FirstUnits(t)..], budget - FirstBytes(t));
    }
  }

  /** A fitting run of whole code points in front is kept, and the cut goes on in what follows. */
  lemma {:induction false} FittingPrefixIsKept(a: Text, b: Text, budget: int)
    requires ByteLength(a) <= budget
    requires !(EndsHigh(a) && StartsLow(b))
    ensures FittingUnits(a + b, budget) == |a| + FittingUnits(b, budget - ByteLength(a))
    decreases |a|
  {
    if a == [] {
      assert a + b == b;
    } else {
      FirstOfAppend(a, b);
      FittingPrefixIsKept(a[FirstUnits(a)..], b, budget - FirstBytes(a));
    }
  }

  /** White space as `String.prototype.trim` and the class `\s` understand it. */
  predicate IsSpace(u: CodeUnit) {
    9 <= u <= 13 || u == 0x20 || u == 0xA0 || u == 0x1680 || 0x2000 <= u <= 0x200A
    || u == 0x2028 || u == 0x2029 || u == 0x202F || u == 0x205F || u == 0x3000 || u == 0xFEFF
  }

  function TrimStart(t: Text): (r: Text)
    ensures r == [] || !IsSpace(r[0])
  {
    if t == [] || !IsSpace(t[0]) then t else TrimStart(t[1..])
  }

  function TrimEnd(t: Text): (r: Text)
    ensures r <= t
    ensures r == [] || !IsSpace(r[|r| - 1])
  {
    if t == [] || !IsSpace(t[|t| - 1]) then t else TrimEnd(t[..|t| - 1])
  }

  function Trim(t: Text): (r: Text)
    ensures r == [] || (!IsSpace(r[0]) && !IsSpace(r[|r| - 1]))
  {
    TrimEnd(TrimStart(t))
  }

  /** `parts.join(separator)`. */
  function Join(parts: seq<Text>, separator: Text): Text {
    if parts == [] then []
    else if |parts| == 1 then parts[0]
    else parts[0] + separator + Join(parts[1..], separator)
  }

  predicate BreakAt(t: Text, k: int) {
    0 <= k && k + 1 < |t| && t[k] == NEWLINE && t[k + 1] == NEWLINE
  }

  /** `indexOf("\n\n")`. */
  function IndexOfBreak(t: Text): (k: int)
    ensures k >= 0 ==> BreakAt(t, k)
    ensures forall j :: 0 <= j && (k < 0 || j < k) ==> !BreakAt(t, j)
  {
    if |t| < 2 then -1
    else if BreakAt(t, 0) then 0
    else
      var k := IndexOfBreak(t[1..]);
      assert forall j :: j > 0 ==> BreakAt(t, j) == BreakAt(t[1..], j - 1);
      if k < 0 then -1 else k + 1
  }
}
