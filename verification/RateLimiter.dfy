/** The fixed-window rate limiter of the API (services/api/src/http-server.ts:250-289). */
module RateLimiter {
  import opened Wrappers
  import opened Sequences

  type Key = nat

  datatype Bucket = Bucket(windowStartedAtMs: int, count: nat)

  /** `Some` carries the seconds to wait. */
  type Decision = Option<int>

  const SWEEP_ABOVE: nat := 10_000

  predicate Expired(b: Bucket, nowMs: int, windowMs: int) {
    nowMs - b.windowStartedAtMs >= windowMs
  }

  function Swept(buckets: map<Key, Bucket>, nowMs: int, windowMs: int): map<Key, Bucket> {
    map k | k in buckets && !Expired(buckets[k], nowMs, windowMs) :: buckets[k]
  }

  function CeilSeconds(ms: int): int {
    -(-ms / 1000)
  }

  function RetryAfter(b: Bucket, nowMs: int, windowMs: int): int {
    var seconds := CeilSeconds(windowMs - (nowMs - b.windowStartedAtMs));
    if seconds >= 1 then seconds else 1
  }

  /** One request, without the sweep. */
  function Counted(buckets: map<Key, Bucket>, key: Key, nowMs: int, windowMs: int): Bucket {
    if key !in buckets || Expired(buckets[key], nowMs, windowMs) then Bucket(nowMs, 1)
    else buckets[key].(count := buckets[key].count + 1)
  }

  function Decide(buckets: map<Key, Bucket>, key: Key, nowMs: int, windowMs: int, maxRequests: int): Decision {
    if key !in buckets || Expired(buckets[key], nowMs, windowMs) then None
    else if buckets[key].count + 1 <= maxRequests then None
    else Some(RetryAfter(buckets[key], nowMs, windowMs))
  }

  function BeforeRequest(buckets: map<Key, Bucket>, nowMs: int, windowMs: int, sweepAbove: nat): map<Key, Bucket> {
    if |buckets| > sweepAbove then Swept(buckets, nowMs, windowMs) else buckets
  }

  class Limiter {
    const windowMs: int
    const maxRequests: int
    var buckets: map<Key, Bucket>

    constructor (windowMs: int, maxRequests: int)
      ensures this.windowMs == windowMs && this.maxRequests == maxRequests && buckets == map[]
    {
      this.windowMs, this.maxRequests, buckets := windowMs, maxRequests, map[];
    }

    method Consume(key: Key, nowMs: int) returns (retryAfter: Decision)
      modifies this
      ensures var before := BeforeRequest(old(buckets), nowMs, windowMs, SWEEP_ABOVE);
        && buckets == before[key := Counted(before, key, nowMs, windowMs)]
        && retryAfter == Decide(before, key, nowMs, windowMs, maxRequests)
    {
      if |buckets| > SWEEP_ABOVE {
        Sweep(nowMs);
      }
      if key !in buckets || nowMs - buckets[key].windowStartedAtMs >= windowMs {
        buckets := buckets[key := Bucket(nowMs, 1)];
        return None;
      }
      var current := buckets[key].(count := buckets[key].count + 1);
      buckets := buckets[key := current];
      if current.count <= maxRequests {
        return None;
      }
      var seconds := CeilSeconds(windowMs - (nowMs - current.windowStartedAtMs));
      return Some(if seconds >= 1 then seconds else 1);
    }

    method Sweep(nowMs: int)
      modifies this
      ensures buckets == Swept(old(buckets), nowMs, windowMs)
    {
      var rest := buckets.Keys;
      ghost var whole := buckets;
      while rest != {}
        invariant rest <= whole.Keys
        invariant buckets == map k | k in whole && (k in rest || !Expired(whole[k], nowMs, windowMs)) :: whole[k]
        decreases |rest|
      {
        var key :| key in rest;
        rest := rest - {key};
        if nowMs - buckets[key].windowStartedAtMs >= windowMs {
          buckets := buckets - {key};
        }
      }
    }
  }

  // Runs.

  datatype Request = Request(key: Key, atMs: int)

  datatype Rules = Rules(windowMs: int, maxRequests: int, sweepAbove: nat)

  predicate Ordered(requests: seq<Request>) {
    forall i :: 0 < i < |requests| ==> requests[i - 1].atMs <= requests[i].atMs
  }

  function Buckets(rules: Rules, requests: seq<Request>): map<Key, Bucket> {
    if requests == [] then map[]
    else
      var last := requests[|requests| - 1];
      var buckets := Buckets(rules, requests[..|requests| - 1]);
      var before := BeforeRequest(buckets, last.atMs, rules.windowMs, rules.sweepAbove);
      before[last.key := Counted(before, last.key, last.atMs, rules.windowMs)]
  }

  /** What request `r` gets after `requests`. */
  function Answer(rules: Rules, requests: seq<Request>, r: Request): Decision {
    Decide(BeforeRequest(Buckets(rules, requests), r.atMs, rules.windowMs, rules.sweepAbove),
           r.key, r.atMs, rules.windowMs, rules.maxRequests)
  }

  // Sweeping.

  function Live(buckets: map<Key, Bucket>, key: Key, nowMs: int, windowMs: int): Option<Bucket> {
    if key in buckets && !Expired(buckets[key], nowMs, windowMs) then Some(buckets[key]) else None
  }

  ghost predicate Agree(a: map<Key, Bucket>, b: map<Key, Bucket>, nowMs: int, windowMs: int) {
    forall key :: Live(a, key, nowMs, windowMs) == Live(b, key, nowMs, windowMs)
  }

  lemma AgreeLater(a: map<Key, Bucket>, b: map<Key, Bucket>, nowMs: int, laterMs: int, windowMs: int)
    requires Agree(a, b, nowMs, windowMs) && nowMs <= laterMs
    ensures Agree(a, b, laterMs, windowMs)
  {
    forall key
      ensures Live(a, key, laterMs, windowMs) == Live(b, key, laterMs, windowMs)
    {
      assert Live(a, key, nowMs, windowMs) == Live(b, key, nowMs, windowMs);
    }
  }

  lemma SweepAgrees(buckets: map<Key, Bucket>, nowMs: int, windowMs: int, sweepAbove: nat)
    ensures Agree(BeforeRequest(buckets, nowMs, windowMs, sweepAbove), buckets, nowMs, windowMs)
  {
  }

  lemma AgreeingLimitersAnswerAlike(a: map<Key, Bucket>, b: map<Key, Bucket>, r: Request, windowMs: int,
                                    maxRequests: int)
    requires Agree(a, b, r.atMs, windowMs)
    ensures Decide(a, r.key, r.atMs, windowMs, maxRequests) == Decide(b, r.key, r.atMs, windowMs, maxRequests)
    ensures Agree(a[r.key := Counted(a, r.key, r.atMs, windowMs)],
                  b[r.key := Counted(b, r.key, r.atMs, windowMs)], r.atMs, windowMs)
  {
    assert Live(a, r.key, r.atMs, windowMs) == Live(b, r.key, r.atMs, windowMs);
    var a', b' := a[r.key := Counted(a, r.key, r.atMs, windowMs)], b[r.key := Counted(b, r.key, r.atMs, windowMs)];
    forall key
      ensures Live(a', key, r.atMs, windowMs) == Live(b', key, r.atMs, windowMs)
    {
      assert Live(a, key, r.atMs, windowMs) == Live(b, key, r.atMs, windowMs);
    }
  }

  lemma AgreeJoins(a: map<Key, Bucket>, b: map<Key, Bucket>, c: map<Key, Bucket>, nowMs: int, windowMs: int)
    requires Agree(a, b, nowMs, windowMs) && Agree(b, c, nowMs, windowMs)
    ensures Agree(a, c, nowMs, windowMs) && Agree(b, a, nowMs, windowMs)
  {
    forall key
      ensures Live(a, key, nowMs, windowMs) == Live(c, key, nowMs, windowMs)
    {
      assert Live(a, key, nowMs, windowMs) == Live(b, key, nowMs, windowMs);
    }
  }

  /** Whatever two limiters sweep away, they agree on every bucket that still matters. */
  lemma {:induction false} SweepsAgree(rules: Rules, sweepAbove: nat, requests: seq<Request>, nowMs: int)
    requires Ordered(requests) && (requests != [] ==> requests[|requests| - 1].atMs <= nowMs)
    ensures Agree(BeforeRequest(Buckets(rules, requests), nowMs, rules.windowMs, rules.sweepAbove),
                  BeforeRequest(Buckets(rules.(sweepAbove := sweepAbove), requests), nowMs, rules.windowMs, sweepAbove),
                  nowMs, rules.windowMs)
  {
    var a, b := Buckets(rules, requests), Buckets(rules.(sweepAbove := sweepAbove), requests);
    if requests != [] {
      var last := requests[|requests| - 1];
      SweepsAgree(rules, sweepAbove, requests[..|requests| - 1], last.atMs);
      var before, other := requests[..|requests| - 1], rules.(sweepAbove := sweepAbove);
      AgreeingLimitersAnswerAlike(
        BeforeRequest(Buckets(rules, before), last.atMs, rules.windowMs, rules.sweepAbove),
        BeforeRequest(Buckets(other, before), last.atMs, rules.windowMs, sweepAbove),
        last, rules.windowMs, rules.maxRequests);
      AgreeLater(a, b, last.atMs, nowMs, rules.windowMs);
    }
    SweepAgrees(a, nowMs, rules.windowMs, rules.sweepAbove);
    SweepAgrees(b, nowMs, rules.windowMs, sweepAbove);
    var a' := BeforeRequest(a, nowMs, rules.windowMs, rules.sweepAbove);
    var b' := BeforeRequest(b, nowMs, rules.windowMs, sweepAbove);
    AgreeJoins(a', a, b, nowMs, rules.windowMs);
    AgreeJoins(b', b, a, nowMs, rules.windowMs);
    AgreeJoins(a', b, b', nowMs, rules.windowMs);
  }

  /** Under a clock that does not go back, sweeping never changes an answer. */
  lemma SweepingChangesNoAnswer(rules: Rules, sweepAbove: nat, requests: seq<Request>, r: Request)
    requires Ordered(requests + [r])
    ensures Answer(rules, requests, r) == Answer(rules.(sweepAbove := sweepAbove), requests, r)
  {
    OrderedPrefix(requests, r);
    SweepsAgree(rules, sweepAbove, requests, r.atMs);
    AgreeingLimitersAnswerAlike(
      BeforeRequest(Buckets(rules, requests), r.atMs, rules.windowMs, rules.sweepAbove),
      BeforeRequest(Buckets(rules.(sweepAbove := sweepAbove), requests), r.atMs, rules.windowMs, sweepAbove),
      r, rules.windowMs, rules.maxRequests);
  }

  lemma OrderedPrefix(requests: seq<Request>, r: Request)
    requires Ordered(requests + [r])
    ensures Ordered(requests) && (requests != [] ==> requests[|requests| - 1].atMs <= r.atMs)
  {
    var all := requests + [r];
    assert forall i :: 0 <= i < |requests| ==> all[i] == requests[i];
    if requests != [] {
      assert all[|requests| - 1].atMs <= all[|requests|].atMs;
    }
  }

  // Keys do not share windows.

  /** When the key asked, admitted or not. */
  function Asked(requests: seq<Request>, key: Key): seq<int> {
    if requests == [] then []
    else
      var before, last := Asked(requests[..|requests| - 1], key), requests[|requests| - 1];
      if last.key == key then before + [last.atMs] else before
  }

  /** The window a key is in, with the requests made in it: the first request after a window is over opens the next. */
  function Window(windowMs: int, times: seq<int>): Option<Bucket> {
    if times == [] then None
    else
      var t := times[|times| - 1];
      match Window(windowMs, times[..|times| - 1])
      case None => Some(Bucket(t, 1))
      case Some(b) => if t < b.windowStartedAtMs + windowMs then Some(Bucket(b.windowStartedAtMs, b.count + 1))
                      else Some(Bucket(t, 1))
  }

  function Open(w: Option<Bucket>, nowMs: int, windowMs: int): Option<Bucket> {
    if w.Some? && nowMs < w.value.windowStartedAtMs + windowMs then w else None
  }

  lemma {:induction false} LiveBucketIsWindow(rules: Rules, requests: seq<Request>, key: Key, nowMs: int)
    requires Ordered(requests) && (requests != [] ==> requests[|requests| - 1].atMs <= nowMs)
    ensures Live(Buckets(rules, requests), key, nowMs, rules.windowMs)
         == Open(Window(rules.windowMs, Asked(requests, key)), nowMs, rules.windowMs)
  {
    if requests != [] {
      var before, last := requests[..|requests| - 1], requests[|requests| - 1];
      var buckets := Buckets(rules, before);
      LiveBucketIsWindow(rules, before, key, last.atMs);
      SweepAgrees(buckets, last.atMs, rules.windowMs, rules.sweepAbove);
      var swept := BeforeRequest(buckets, last.atMs, rules.windowMs, rules.sweepAbove);
      assert Live(swept, key, last.atMs, rules.windowMs) == Live(buckets, key, last.atMs, rules.windowMs);
      if last.key == key {
        var own := Asked(before, key);
        assert (own + [last.atMs])[..|own|] == own;
      } else {
        LiveBucketIsWindow(rules, before, key, nowMs);
        SweptLater(buckets, key, last.atMs, nowMs, rules);
      }
    }
  }

  lemma SweptLater(buckets: map<Key, Bucket>, key: Key, nowMs: int, laterMs: int, rules: Rules)
    requires nowMs <= laterMs
    ensures Live(BeforeRequest(buckets, nowMs, rules.windowMs, rules.sweepAbove), key, laterMs, rules.windowMs)
         == Live(buckets, key, laterMs, rules.windowMs)
  {
  }

  /** A request is refused exactly if its key's own window is still open and already holds as many requests as are
      allowed; what other keys do, and what is swept, never matters. */
  lemma RefusedIffWindowIsFull(rules: Rules, requests: seq<Request>, r: Request)
    requires Ordered(requests + [r])
    ensures var w := Window(rules.windowMs, Asked(requests, r.key));
      Answer(rules, requests, r).Some?
      <==> w.Some? && r.atMs < w.value.windowStartedAtMs + rules.windowMs && w.value.count >= rules.maxRequests
  {
    OrderedPrefix(requests, r);
    LiveBucketIsWindow(rules, requests, r.key, r.atMs);
    SweepAgrees(Buckets(rules, requests), r.atMs, rules.windowMs, rules.sweepAbove);
    var before := BeforeRequest(Buckets(rules, requests), r.atMs, rules.windowMs, rules.sweepAbove);
    assert Live(before, r.key, r.atMs, rules.windowMs) == Live(Buckets(rules, requests), r.key, r.atMs, rules.windowMs);
  }

  // How many requests an interval admits.

  /** When the requests of `key` were admitted. */
  function Admitted(rules: Rules, requests: seq<Request>, key: Key): seq<int> {
    if requests == [] then []
    else
      var before, last := requests[..|requests| - 1], requests[|requests| - 1];
      if last.key == key && Answer(rules, before, last).None?
      then Admitted(rules, before, key) + [last.atMs]
      else Admitted(rules, before, key)
  }

  function CountIn(times: seq<int>, fromMs: int, toMs: int): nat {
    if times == [] then 0
    else CountIn(times[..|times| - 1], fromMs, toMs) + if fromMs <= times[|times| - 1] < toMs then 1 else 0
  }

  /** The most that one window admits: its first request is always admitted. */
  function PerWindow(maxRequests: int): nat {
    if maxRequests >= 1 then maxRequests else 1
  }

  function TakenBy(b: Bucket, maxRequests: int): nat {
    if b.count <= PerWindow(maxRequests) then b.count else PerWindow(maxRequests)
  }

  predicate AllBelow(times: seq<int>, limitMs: int) {
    forall i :: 0 <= i < |times| ==> times[i] < limitMs
  }

  /** What the current window of a key says about everything admitted for it so far. */
  ghost predicate Bounded(times: seq<int>, b: Bucket, windowMs: int, maxRequests: int) {
    && b.count >= 1
    && AllBelow(times, b.windowStartedAtMs + windowMs)
    && (forall fromMs, toMs :: fromMs > b.windowStartedAtMs ==>
          CountIn(times, fromMs, toMs) <= TakenBy(b, maxRequests) - 1)
    && (forall fromMs, toMs :: fromMs >= b.windowStartedAtMs ==>
          CountIn(times, fromMs, toMs) <= TakenBy(b, maxRequests))
    && (forall fromMs, toMs :: fromMs > b.windowStartedAtMs - windowMs ==>
          CountIn(times, fromMs, toMs) <= PerWindow(maxRequests) - 1 + TakenBy(b, maxRequests))
  }

  lemma CountInSnoc(times: seq<int>, t: int, fromMs: int, toMs: int)
    ensures CountIn(times + [t], fromMs, toMs) == CountIn(times, fromMs, toMs) + if fromMs <= t < toMs then 1 else 0
  {
    assert (times + [t])[..|times|] == times;
  }

  lemma {:induction false} CountInNone(times: seq<int>, fromMs: int, toMs: int)
    requires AllBelow(times, fromMs)
    ensures CountIn(times, fromMs, toMs) == 0
  {
    if times != [] {
      CountInNone(times[..|times| - 1], fromMs, toMs);
    }
  }

  lemma WindowOpens(times: seq<int>, b: Bucket, nowMs: int, windowMs: int, maxRequests: int)
    requires Bounded(times, b, windowMs, maxRequests) && Expired(b, nowMs, windowMs) && windowMs >= 1
    ensures Bounded(times + [nowMs], Bucket(nowMs, 1), windowMs, maxRequests)
  {
    forall fromMs, toMs | fromMs > nowMs - windowMs
      ensures CountIn(times + [nowMs], fromMs, toMs) <= PerWindow(maxRequests)
      ensures fromMs >= nowMs ==> CountIn(times + [nowMs], fromMs, toMs) <= 1
      ensures fromMs > nowMs ==> CountIn(times + [nowMs], fromMs, toMs) == 0
    {
      CountInSnoc(times, nowMs, fromMs, toMs);
      assert CountIn(times, fromMs, toMs) <= TakenBy(b, maxRequests) - 1;
      if fromMs >= nowMs {
        CountInNone(times, fromMs, toMs);
      }
    }
  }

  lemma AdmissionFills(times: seq<int>, b: Bucket, nowMs: int, windowMs: int, maxRequests: int)
    requires Bounded(times, b, windowMs, maxRequests) && !Expired(b, nowMs, windowMs) && b.count + 1 <= maxRequests
    ensures Bounded(times + [nowMs], b.(count := b.count + 1), windowMs, maxRequests)
  {
    var more, taken, start := times + [nowMs], TakenBy(b, maxRequests), b.windowStartedAtMs;
    assert TakenBy(b.(count := b.count + 1), maxRequests) == taken + 1;
    forall fromMs, toMs | fromMs > start
      ensures CountIn(more, fromMs, toMs) <= taken
    {
      CountInSnoc(times, nowMs, fromMs, toMs);
    }
    forall fromMs, toMs | fromMs >= start
      ensures CountIn(more, fromMs, toMs) <= taken + 1
    {
      CountInSnoc(times, nowMs, fromMs, toMs);
    }
    forall fromMs, toMs | fromMs > start - windowMs
      ensures CountIn(more, fromMs, toMs) <= PerWindow(maxRequests) + taken
    {
      CountInSnoc(times, nowMs, fromMs, toMs);
    }
  }

  lemma RefusalFills(times: seq<int>, b: Bucket, windowMs: int, maxRequests: int)
    requires Bounded(times, b, windowMs, maxRequests)
    ensures Bounded(times, b.(count := b.count + 1), windowMs, maxRequests)
  {
    assert TakenBy(b.(count := b.count + 1), maxRequests) >= TakenBy(b, maxRequests);
  }

  lemma FirstWindow(nowMs: int, windowMs: int, maxRequests: int)
    requires windowMs >= 1
    ensures Bounded([nowMs], Bucket(nowMs, 1), windowMs, maxRequests)
  {
    forall fromMs, toMs
      ensures CountIn([nowMs], fromMs, toMs) <= 1
      ensures fromMs > nowMs ==> CountIn([nowMs], fromMs, toMs) == 0
    {
      CountInSnoc([], nowMs, fromMs, toMs);
      assert [] + [nowMs] == [nowMs];
    }
  }

  /** The limiter that never sweeps. */
  ghost predicate KeyBounded(rules: Rules, requests: seq<Request>, key: Key) {
    var buckets, times := Buckets(rules, requests), Admitted(rules, requests, key);
    if key in buckets then Bounded(times, buckets[key], rules.windowMs, rules.maxRequests) else times == []
  }

  lemma {:induction false} KeysStayBounded(rules: Rules, requests: seq<Request>, key: Key)
    requires Ordered(requests) && rules.windowMs >= 1 && rules.sweepAbove >= |requests|
    ensures KeyBounded(rules, requests, key) && |Buckets(rules, requests)| <= |requests|
    ensures requests != [] && key in Buckets(rules, requests) ==>
      Buckets(rules, requests)[key].windowStartedAtMs <= requests[|requests| - 1].atMs
  {
    if requests != [] {
      var before, last := requests[..|requests| - 1], requests[|requests| - 1];
      KeysStayBounded(rules, before, key);
      var buckets := Buckets(rules, before);
      assert BeforeRequest(buckets, last.atMs, rules.windowMs, rules.sweepAbove) == buckets;
      assert |buckets[last.key := Counted(buckets, last.key, last.atMs, rules.windowMs)]| <= |buckets| + 1;
      if last.key == key {
        if key !in buckets {
          FirstWindow(last.atMs, rules.windowMs, rules.maxRequests);
          assert [] + [last.atMs] == [last.atMs];
        } else if Expired(buckets[key], last.atMs, rules.windowMs) {
          WindowOpens(Admitted(rules, before, key), buckets[key], last.atMs, rules.windowMs, rules.maxRequests);
        } else {
          if buckets[key].count + 1 <= rules.maxRequests {
            AdmissionFills(Admitted(rules, before, key), buckets[key], last.atMs, rules.windowMs, rules.maxRequests);
          } else {
            RefusalFills(Admitted(rules, before, key), buckets[key], rules.windowMs, rules.maxRequests);
          }
        }
      }
    }
  }

  lemma {:induction false} AdmittedWithoutSweeps(rules: Rules, sweepAbove: nat, requests: seq<Request>, key: Key)
    requires Ordered(requests)
    ensures Admitted(rules, requests, key) == Admitted(rules.(sweepAbove := sweepAbove), requests, key)
  {
    if requests != [] {
      var before, last := requests[..|requests| - 1], requests[|requests| - 1];
      assert before + [last] == requests;
      AdmittedWithoutSweeps(rules, sweepAbove, before, key);
      SweepingChangesNoAnswer(rules, sweepAbove, before, last);
    }
  }

  lemma {:induction false} UnsweptIntervalAdmitsFew(rules: Rules, requests: seq<Request>, key: Key, fromMs: int)
    requires Ordered(requests) && rules.windowMs >= 1 && rules.sweepAbove >= |requests|
    ensures CountIn(Admitted(rules, requests, key), fromMs, fromMs + rules.windowMs)
        <= 2 * PerWindow(rules.maxRequests) - 1
  {
    if requests != [] {
      var before, last := requests[..|requests| - 1], requests[|requests| - 1];
      if last.atMs >= fromMs + rules.windowMs {
        UnsweptIntervalAdmitsFew(rules, before, key, fromMs);
        CountInSnoc(Admitted(rules, before, key), last.atMs, fromMs, fromMs + rules.windowMs);
      } else {
        KeysStayBounded(rules, requests, key);
      }
    }
  }

  /** Under a clock that does not go back, any interval as long as the window admits fewer than twice the
      requests of one window, per key, with sweeps or without. */
  lemma AnyIntervalAdmitsFew(rules: Rules, requests: seq<Request>, key: Key, fromMs: int)
    requires Ordered(requests)
    ensures CountIn(Admitted(rules, requests, key), fromMs, fromMs + rules.windowMs)
        <= 2 * PerWindow(rules.maxRequests) - 1
  {
    if rules.windowMs >= 1 {
      AdmittedWithoutSweeps(rules, |requests|, requests, key);
      UnsweptIntervalAdmitsFew(rules.(sweepAbove := |requests|), requests, key, fromMs);
    } else {
      EmptyIntervalCountsNone(Admitted(rules, requests, key), fromMs, fromMs + rules.windowMs);
    }
  }

  lemma {:induction false} EmptyIntervalCountsNone(times: seq<int>, fromMs: int, toMs: int)
    requires toMs <= fromMs
    ensures CountIn(times, fromMs, toMs) == 0
  {
    if times != [] {
      EmptyIntervalCountsNone(times[..|times| - 1], fromMs, toMs);
    }
  }

  lemma AdmittedSnoc(rules: Rules, requests: seq<Request>, r: Request)
    requires |Buckets(rules, requests)| <= rules.sweepAbove
    ensures Buckets(rules, requests + [r])
         == Buckets(rules, requests)[r.key := Counted(Buckets(rules, requests), r.key, r.atMs, rules.windowMs)]
    ensures Admitted(rules, requests + [r], r.key) ==
      if Decide(Buckets(rules, requests), r.key, r.atMs, rules.windowMs, rules.maxRequests).None?
      then Admitted(rules, requests, r.key) + [r.atMs] else Admitted(rules, requests, r.key)
  {
    assert (requests + [r])[..|requests|] == requests;
  }

  lemma FirstOfOnlyKey(rules: Rules, key: Key, nowMs: int) returns (requests: seq<Request>)
    ensures Ordered(requests) && requests != [] && requests[|requests| - 1].atMs == nowMs
    ensures Buckets(rules, requests) == map[key := Bucket(nowMs, 1)] && Admitted(rules, requests, key) == [nowMs]
  {
    requests := [Request(key, nowMs)];
    var none: map<Key, Bucket> := map[];
    assert requests[..0] == [] && Buckets(rules, requests[..0]) == none;
    assert BeforeRequest(none, nowMs, rules.windowMs, rules.sweepAbove) == none;
    assert Admitted(rules, requests[..0], key) == [];
  }

  /** One more request of the only key there is. */
  lemma NextOfOnlyKey(rules: Rules, requests: seq<Request>, key: Key, b: Bucket, nowMs: int)
      returns (more: seq<Request>)
    requires Buckets(rules, requests) == map[key := b] && rules.sweepAbove >= 1 && Ordered(requests)
    requires requests != [] && requests[|requests| - 1].atMs <= nowMs
    ensures Ordered(more) && more != [] && more[|more| - 1].atMs == nowMs
    ensures var opens := Expired(b, nowMs, rules.windowMs);
      && Buckets(rules, more) == map[key := if opens then Bucket(nowMs, 1) else b.(count := b.count + 1)]
      && Admitted(rules, more, key) ==
           if opens || b.count + 1 <= rules.maxRequests then Admitted(rules, requests, key) + [nowMs]
           else Admitted(rules, requests, key)
  {
    more := requests + [Request(key, nowMs)];
    AdmittedSnoc(rules, requests, Request(key, nowMs));
  }

  function Repeat(t: int, n: nat): seq<int> {
    if n == 0 then [] else Repeat(t, n - 1) + [t]
  }

  lemma {:induction false} CountInMore(times: seq<int>, t: int, n: nat, fromMs: int, toMs: int)
    ensures CountIn(times + Repeat(t, n), fromMs, toMs) == CountIn(times, fromMs, toMs) + if fromMs <= t < toMs then n
        else 0
  {
    if n == 0 {
      assert times + [] == times;
    } else {
      Regroup(times, Repeat(t, n - 1), [t]);
      CountInMore(times, t, n - 1, fromMs, toMs);
      CountInSnoc(times + Repeat(t, n - 1), t, fromMs, toMs);
    }
  }

  /** `n` more requests of the only key there is, all within its window and its allowance. */
  lemma {:induction false} FillWindow(rules: Rules, requests: seq<Request>, key: Key, b: Bucket, nowMs: int, n: nat)
    returns (more: seq<Request>)
    requires Buckets(rules, requests) == map[key := b] && rules.sweepAbove >= 1 && Ordered(requests)
    requires requests != [] && requests[|requests| - 1].atMs <= nowMs && !Expired(b, nowMs, rules.windowMs)
    requires n == 0 || b.count + n <= rules.maxRequests
    ensures Ordered(more) && more != [] && more[|more| - 1].atMs <= nowMs
    ensures Buckets(rules, more) == map[key := b.(count := b.count + n)]
    ensures Admitted(rules, more, key) == Admitted(rules, requests, key) + Repeat(nowMs, n)
  {
    if n == 0 {
      more := requests;
    } else {
      var most := FillWindow(rules, requests, key, b, nowMs, n - 1);
      more := NextOfOnlyKey(rules, most, key, b.(count := b.count + n - 1), nowMs);
      assert Admitted(rules, more, key) == Admitted(rules, most, key) + [nowMs];
      Regroup(Admitted(rules, requests, key), Repeat(nowMs, n - 1), [nowMs]);
    }
  }

  /** One request, the rest of its allowance at the end of its window, and the next window filled right after. */
  lemma TwoFullWindows(rules: Rules, key: Key) returns (requests: seq<Request>)
    requires rules.windowMs >= 2 && rules.sweepAbove >= 1
    ensures Ordered(requests)
    ensures var w, rest := rules.windowMs, PerWindow(rules.maxRequests) - 1;
      Admitted(rules, requests, key) == [0] + Repeat(w - 1, rest) + [w] + Repeat(w, rest)
  {
    var w, rest := rules.windowMs, PerWindow(rules.maxRequests) - 1;
    requests := FirstOfOnlyKey(rules, key, 0);
    requests := FillWindow(rules, requests, key, Bucket(0, 1), w - 1, rest);
    requests := NextOfOnlyKey(rules, requests, key, Bucket(0, 1 + rest), w);
    requests := FillWindow(rules, requests, key, Bucket(w, 1), w, rest);
  }

  /** The bound is reached, whatever the allowance: an interval as long as the window can admit twice the
      requests of one window less one. */
  lemma BoundIsReached(rules: Rules, key: Key) returns (requests: seq<Request>)
    requires rules.windowMs >= 2 && rules.sweepAbove >= 1
    ensures Ordered(requests)
    ensures var from := rules.windowMs - 1;
      CountIn(Admitted(rules, requests, key), from, from + rules.windowMs) == 2 * PerWindow(rules.maxRequests) - 1
  {
    var w, rest := rules.windowMs, PerWindow(rules.maxRequests) - 1;
    requests := TwoFullWindows(rules, key);
    CountInMore([0] + Repeat(w - 1, rest) + [w], w, rest, w - 1, w - 1 + w);
    CountInSnoc([0] + Repeat(w - 1, rest), w, w - 1, w - 1 + w);
    CountInMore([0], w - 1, rest, w - 1, w - 1 + w);
    CountInSnoc([], 0, w - 1, w - 1 + w);
    assert [] + [0] == [0];
  }

  lemma {:induction false} UnsweptInstantAdmitsOneWindow(rules: Rules, requests: seq<Request>, key: Key, fromMs: int)
    requires Ordered(requests) && rules.windowMs == 1 && rules.sweepAbove >= |requests|
    ensures CountIn(Admitted(rules, requests, key), fromMs, fromMs + 1) <= PerWindow(rules.maxRequests)
  {
    if requests != [] {
      var before, last := requests[..|requests| - 1], requests[|requests| - 1];
      if last.atMs >= fromMs + 1 {
        UnsweptInstantAdmitsOneWindow(rules, before, key, fromMs);
        CountInSnoc(Admitted(rules, before, key), last.atMs, fromMs, fromMs + 1);
      } else {
        KeysStayBounded(rules, requests, key);
      }
    }
  }

  /** A window of a millisecond or none. */
  lemma InstantAdmitsOneWindow(rules: Rules, requests: seq<Request>, key: Key, fromMs: int)
    requires Ordered(requests) && rules.windowMs <= 1
    ensures CountIn(Admitted(rules, requests, key), fromMs, fromMs + rules.windowMs) <= PerWindow(rules.maxRequests)
  {
    if rules.windowMs == 1 {
      AdmittedWithoutSweeps(rules, |requests|, requests, key);
      UnsweptInstantAdmitsOneWindow(rules.(sweepAbove := |requests|), requests, key, fromMs);
    } else {
      EmptyIntervalCountsNone(Admitted(rules, requests, key), fromMs, fromMs + rules.windowMs);
    }
  }

  /** How many requests of `key` the interval that starts at `fromMs` and is as long as the window admits. */
  function AdmittedFrom(rules: Rules, requests: seq<Request>, key: Key, fromMs: int): nat {
    CountIn(Admitted(rules, requests, key), fromMs, fromMs + rules.windowMs)
  }

  ghost predicate IntervalsAdmitOneWindow(rules: Rules) {
    forall requests, key, fromMs | Ordered(requests) ::
      AdmittedFrom(rules, requests, key, fromMs) <= PerWindow(rules.maxRequests)
  }

  /** So an interval as long as the window admits at most the requests of one window exactly if a window has
      one request, or lasts less than two milliseconds. */
  lemma OneWindowIsTheBoundIff(rules: Rules)
    requires rules.sweepAbove >= 1
    ensures IntervalsAdmitOneWindow(rules) <==> rules.maxRequests <= 1 || rules.windowMs <= 1
  {
    if rules.maxRequests <= 1 || rules.windowMs <= 1 {
      forall requests, key, fromMs | Ordered(requests)
        ensures AdmittedFrom(rules, requests, key, fromMs) <= PerWindow(rules.maxRequests)
      {
        if rules.maxRequests <= 1 {
          AnyIntervalAdmitsFew(rules, requests, key, fromMs);
        } else {
          InstantAdmitsOneWindow(rules, requests, key, fromMs);
        }
      }
    } else {
      var requests := BoundIsReached(rules, 0);
      assert AdmittedFrom(rules, requests, 0, rules.windowMs - 1) > PerWindow(rules.maxRequests);
    }
  }

  // The advised wait.

  predicate OthersOnly(requests: seq<Request>, key: Key) {
    forall i :: 0 <= i < |requests| ==> requests[i].key != key
  }

  lemma {:induction false} BucketOfQuietKey(rules: Rules, before: seq<Request>, since: seq<Request>, key: Key)
    requires OthersOnly(since, key)
    ensures var now, was := Buckets(rules, before + since), Buckets(rules, before);
      key in now ==> key in was && now[key] == was[key]
    decreases |since|
  {
    if since == [] {
      assert before + since == before;
    } else {
      var n := |since| - 1;
      assert (before + since)[..|before| + n] == before + since[..n];
      BucketOfQuietKey(rules, before, since[..n], key);
    }
  }

  /** A key that was refused and then left alone for the advised seconds is admitted. */
  lemma AdvisedWaitIsEnough(rules: Rules, before: seq<Request>, refused: Request, since: seq<Request>, again: Request)
    requires Answer(rules, before, refused).Some? && again.key == refused.key && OthersOnly(since, refused.key)
    requires again.atMs >= refused.atMs + 1000 * Answer(rules, before, refused).value
    ensures Answer(rules, before + [refused] + since, again).None?
  {
    assert (before + [refused])[..|before|] == before;
    BucketOfQuietKey(rules, before + [refused], since, refused.key);
  }

  predicate AllBy(requests: seq<Request>, latestMs: int) {
    forall i :: 0 <= i < |requests| ==> requests[i].atMs <= latestMs
  }

  lemma {:induction false} LiveBucketSurvives(rules: Rules, before: seq<Request>, since: seq<Request>, key: Key,
                                              latestMs: int)
    requires OthersOnly(since, key) && AllBy(since, latestMs)
    requires key in Buckets(rules, before) && !Expired(Buckets(rules, before)[key], latestMs, rules.windowMs)
    ensures var now, was := Buckets(rules, before + since), Buckets(rules, before);
      key in now && now[key] == was[key]
    decreases |since|
  {
    if since == [] {
      assert before + since == before;
    } else {
      var n := |since| - 1;
      assert (before + since)[..|before| + n] == before + since[..n];
      LiveBucketSurvives(rules, before, since[..n], key, latestMs);
    }
  }

  /** The advice is not a whole second too long: after a second less the key is still refused. */
  lemma ShorterWaitIsRefused(rules: Rules, before: seq<Request>, refused: Request, since: seq<Request>, again: Request)
    requires Answer(rules, before, refused).Some? && again.key == refused.key
    requires OthersOnly(since, refused.key) && AllBy(since, again.atMs)
    requires refused.atMs <= again.atMs
    requires again.atMs <= refused.atMs + 1000 * (Answer(rules, before, refused).value - 1)
    requires Answer(rules, before, refused).value > 1
    ensures Answer(rules, before + [refused] + since, again).Some?
  {
    assert (before + [refused])[..|before|] == before;
    LiveBucketSurvives(rules, before + [refused], since, refused.key, again.atMs);
  }
}
