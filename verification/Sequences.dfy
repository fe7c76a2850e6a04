/** What several modules need of sequences. */
module Sequences {

  lemma Regroup<T>(a: seq<T>, b: seq<T>, c: seq<T>)
    ensures a + b + c == a + (b + c)
  {
  }

  /** `a` is what is left of `b` when some elements are taken out. */
  predicate Subsequence<T(==)>(a: seq<T>, b: seq<T>) {
    a == [] || (b != [] && ((a[0] == b[0] && Subsequence(a[1..], b[1..])) || Subsequence(a, b[1..])))
  }

  lemma {:induction false} SubsequenceOfItself<T>(a: seq<T>)
    ensures Subsequence(a, a)
  {
    if a != [] {
      SubsequenceOfItself(a[1..]);
    }
  }

  lemma {:induction false} SubsequenceAppend<T>(a: seq<T>, b: seq<T>, more: seq<T>)
    requires Subsequence(a, b)
    ensures Subsequence(a + more, b + more)
    decreases |b|
  {
    if a == [] {
      assert a + more == more;
      SuffixIsSubsequence(b, more);
    } else {
      assert (b + more)[1..] == b[1..] + more && (a + more)[1..] == a[1..] + more;
      if a[0] == b[0] && Subsequence(a[1..], b[1..]) {
        SubsequenceAppend(a[1..], b[1..], more);
      } else {
        SubsequenceAppend(a, b[1..], more);
      }
    }
  }

  lemma {:induction false} SuffixIsSubsequence<T>(before: seq<T>, a: seq<T>)
    ensures Subsequence(a, before + a)
  {
    if before == [] {
      assert before + a == a;
      SubsequenceOfItself(a);
    } else {
      assert (before + a)[1..] == before[1..] + a;
      SuffixIsSubsequence(before[1..], a);
    }
  }

  /** Taking a part out of the middle leaves a subsequence. */
  lemma {:induction false} SubsequenceWithoutPart<T>(a: seq<T>, part: seq<T>, c: seq<T>, b: seq<T>)
    requires Subsequence(a + part + c, b)
    ensures Subsequence(a + c, b)
    decreases |b|
  {
    var whole := a + part + c;
    if a + c != [] {
      if whole[0] == b[0] && Subsequence(whole[1..], b[1..]) {
        if a != [] {
          assert whole[1..] == a[1..] + part + c && (a + c)[1..] == a[1..] + c;
          SubsequenceWithoutPart(a[1..], part, c, b[1..]);
        } else if part != [] {
          assert a == [] && whole[1..] == a + part[1..] + c;
          SubsequenceWithoutPart(a, part[1..], c, b[1..]);
        } else {
          assert whole == a + c;
        }
      } else {
        SubsequenceWithoutPart(a, part, c, b[1..]);
      }
    }
  }
}
