/** Request ids that are reused. The ledger keeps one record for each request of a session, so a second call
    under the same id replaces the cost of the first, and the cost limit holds only for some configurations:
    exactly which, for all of them. */
module RequestReuse {
  import opened Ids
  import opened Wrappers
  import opened Utf16
  import opened Sessions
  import opened Admission
  import opened Spending
  import opened SpendingCeiling
  import SuggestionStream

  /** A ledger write raises the session's total by its cost exactly when the request had no cost on
      record. */
  lemma WriteAddsItsCostIff(ledger: map<(SessionId, RequestId), nat>, x: SessionId, r: RequestId, cost: nat)
    ensures Total(ledger[(x, r) := cost], x) == Total(ledger, x) + cost
       <==> ((x, r) in ledger ==> ledger[(x, r)] == 0)
  {
    WriteMovesTotal(ledger, (x, r), cost, x);
  }

  // A session that always asks under the same id.

  const CALLER := Actor(0, {(0, 0)})

  /** What a call uses: input tokens, output tokens, and the character limit of its prompt. */
  datatype Usage = Usage(input: nat, output: nat, maxChars: nat)

  predicate Possible(cfg: Config, u: Usage) {
    WithinLimits(cfg, u.input, u.output) && u.output <= u.maxChars
  }

  function CostOf(cfg: Config, u: Usage): nat {
    UsageCost(cfg, u.input, u.output)
  }

  function Letters(n: nat): Text {
    seq(n, _ => 0x61)
  }

  lemma {:induction false} LettersTakeOneByteEach(n: nat)
    ensures ByteLength(Letters(n)) == n
  {
    if n > 0 {
      assert Letters(n)[1..] == Letters(n - 1);
      LettersTakeOneByteEach(n - 1);
    }
  }

  lemma LettersAreAccepted(n: nat, limits: SuggestionStream.OutputLimits)
    requires n <= limits.maxTokens && n <= limits.maxChars
    ensures SuggestionStream.Accept([], Letters(n), limits) == Letters(n)
  {
    assert [] + Letters(n) == Letters(n);
    LettersTakeOneByteEach(n);
    FittingTextIsKept(Letters(n), limits.maxTokens);
  }

  function SignIn(): ServerEvent {
    SessionEvent(AuthenticateEvent(0, 0, CALLER, 0, 0))
  }

  /** The time of the `k`-th call. */
  function At(cfg: Config, k: nat): int {
    k * cfg.minIntervalMs
  }

  function Opening(cfg: Config, k: nat): seq<ServerEvent> {
    [Request(0, k + 1, 0, At(cfg, k), true), LookupAnswers(k), Decide(k)]
  }

  function Stream(k: nat, u: Usage): seq<ServerEvent> {
    [Retrieved(k, u.input, u.maxChars), TokenArrives(k, Letters(u.output)), StreamStops(k)]
  }

  function Closing(k: nat): seq<ServerEvent> {
    [WriteSucceeds(k), Persisted(k), Release(k)]
  }

  /** The `k`-th call of session 0, always as request 0. */
  function Call(cfg: Config, k: nat, u: Usage): seq<ServerEvent> {
    Opening(cfg, k) + Stream(k, u) + Closing(k)
  }

  function Calls(cfg: Config, k: nat, u: Usage): seq<ServerEvent> {
    if k == 0 then [SignIn()] else Calls(cfg, k - 1, u) + Call(cfg, k - 1, u)
  }

  function GuardAfter(cfg: Config, k: nat): Guard {
    Guard(if k == 0 then None else Some(At(cfg, k - 1)), k, false)
  }

  function Signed(k: nat): Manager {
    Manager(map[0 := Session(0, 0, CALLER, Active, k, 0)], map[0 := 0])
  }

  /** After `k` calls that cost `spent`, the ledger shows only the last of them. */
  ghost predicate AfterCalls(cfg: Config, s: Server, k: nat, spent: nat, shown: nat) {
    && s.world.m == Signed(k)
    && s.blocked == {}
    && s.ledger == (if k == 0 then map[] else map[(0, 0) := shown])
    && GuardOf(s, 0) == GuardAfter(cfg, k)
    && |s.handlers| == k && Spent(cfg, s.handlers, 0) == spent
  }

  lemma {:induction false} RunAppends(cfg: Config, s: Server, a: seq<ServerEvent>, b: seq<ServerEvent>)
    ensures ServerRun(cfg, s, a + b) == ServerRun(cfg, ServerRun(cfg, s, a), b)
    ensures ProperServerRun(cfg, s, a + b) <==>
      ProperServerRun(cfg, s, a) && ProperServerRun(cfg, ServerRun(cfg, s, a), b)
    decreases |a|
  {
    if a == [] {
      assert a + b == b;
    } else {
      assert (a + b)[1..] == a[1..] + b;
      RunAppends(cfg, ServerStep(cfg, s, a[0]), a[1..], b);
    }
  }

  lemma {:induction false} RunOfSteps(cfg: Config, s: Server, events: seq<ServerEvent>)
    requires forall e | e in events :: !e.SessionEvent?
    ensures ProperServerRun(cfg, s, events)
    decreases |events|
  {
    if events != [] {
      RunOfSteps(cfg, ServerStep(cfg, s, events[0]), events[1..]);
    }
  }

  lemma RunOfThree(cfg: Config, s: Server, a: ServerEvent, b: ServerEvent, c: ServerEvent)
    ensures ServerRun(cfg, s, [a, b, c]) == ServerStep(cfg, ServerStep(cfg, ServerStep(cfg, s, a), b), c)
  {
    var s1 := ServerStep(cfg, s, a);
    var s2 := ServerStep(cfg, s1, b);
    assert [a, b, c][1..] == [b, c] && [b, c][1..] == [c] && [c][1..] == [];
    assert ServerRun(cfg, s2, [c]) == ServerStep(cfg, s2, c);
    assert ServerRun(cfg, s1, [b, c]) == ServerRun(cfg, s2, [c]);
  }

  lemma TotalOfOneRecord(shown: nat)
    ensures Total(map[], 0) == 0 && Total(map[(0, 0) := shown], 0) == shown
  {
    var ledger := map[(0, 0) := shown];
    TotalRemoves(ledger, (0, 0), 0);
    assert ledger - {(0, 0)} == map[];
  }

  lemma RequestIsAdmitted(cfg: Config, s: Server, k: nat, spent: nat, shown: nat) returns (s': Server)
    requires AfterCalls(cfg, s, k, spent, shown) && k < cfg.maxRequests
    ensures s' == OnRequest(cfg, s, 0, k + 1, 0, At(cfg, k), true)
    ensures s'.world.m == Signed(k + 1) && s'.blocked == {} && s'.ledger == s.ledger
    ensures s'.handlers == s.handlers + [NewHandler(s, 0, 0, At(cfg, k))]
    ensures 0 in s'.guards && s'.guards[0] == GuardAfter(cfg, k).(inFlight := true)
  {
    assert k > 0 ==> At(cfg, k) - At(cfg, k - 1) == cfg.minIntervalMs;
    s' := OnRequest(cfg, s, 0, k + 1, 0, At(cfg, k), true);
  }

  /** What the ledger shows leaves room. */
  lemma RequestIsDecided(cfg: Config, s: Server, k: nat)
    requires |s.handlers| == k + 1 && s.handlers[k].phase == Lookup && s.handlers[k].session == 0
    requires !OverBudget(cfg, Total(s.ledger, 0))
    ensures var h := s.handlers[k];
      var s' := OnDecide(cfg, OnLookupAnswers(s, k), k);
      && s'.world == s.world && s'.blocked == s.blocked && s'.ledger == s.ledger
      && s'.handlers == s.handlers[k := h.(phase := Retrieving)]
      && s'.guards == s.guards[0 := Guard(Some(h.nowMs), h.snapshot.acceptedCount + 1, true)]
  {
    var answered := OnLookupAnswers(s, k);
    assert answered.handlers[k] == s.handlers[k].(phase := Answered(Total(s.ledger, 0)));
    assert OnDecide(cfg, answered, k).handlers == s.handlers[k := s.handlers[k].(phase := Retrieving)];
  }

  lemma CallIsAccepted(cfg: Config, s: Server, k: nat, spent: nat, shown: nat) returns (s': Server)
    requires AfterCalls(cfg, s, k, spent, shown) && k < cfg.maxRequests
    requires !OverBudget(cfg, if k == 0 then 0 else shown)
    ensures s' == ServerRun(cfg, s, Opening(cfg, k))
    ensures s'.world.m == Signed(k + 1) && s'.blocked == {} && s'.ledger == s.ledger
    ensures s'.handlers == s.handlers + [NewHandler(s, 0, 0, At(cfg, k)).(phase := Retrieving)]
    ensures 0 in s'.guards && s'.guards[0] == Guard(Some(At(cfg, k)), k + 1, true)
  {
    TotalOfOneRecord(shown);
    var admitted := RequestIsAdmitted(cfg, s, k, spent, shown);
    RequestIsDecided(cfg, admitted, k);
    s' := OnDecide(cfg, OnLookupAnswers(admitted, k), k);
    RunOfThree(cfg, s, Request(0, k + 1, 0, At(cfg, k), true), LookupAnswers(k), Decide(k));
  }

  /** What a finished call leaves of its handler. */
  function Finished(h: Handler, u: Usage): Handler {
    h.(phase := Done, called := true, inputTokens := u.input, maxChars := u.maxChars, content := Letters(u.output))
  }

  /** The call is made and stopped. */
  lemma CallIsMade(cfg: Config, s: Server, k: nat, u: Usage)
    requires Possible(cfg, u) && |s.handlers| == k + 1
    requires s.handlers[k].session in s.world.m.sessions
    requires s.handlers[k].phase == Retrieving && s.handlers[k].content == []
    ensures ServerRun(cfg, s, Stream(k, u)) == Put(s, k, Finished(s.handlers[k], u).(phase := Recording))
  {
    LettersAreAccepted(u.output, SuggestionStream.OutputLimits(cfg.maxOutputTokens, u.maxChars));
    RunOfThree(cfg, s, Retrieved(k, u.input, u.maxChars), TokenArrives(k, Letters(u.output)), StreamStops(k));
  }

  /** It is recorded over the previous one, and released. */
  lemma CallIsRecorded(cfg: Config, s: Server, k: nat)
    requires |s.handlers| == k + 1 && s.handlers[k].phase == Recording
    requires s.handlers[k].session == 0 && 0 in s.guards && s.handlers[k].request == 0
    ensures var cost := HandlerCost(cfg, s.handlers[k]);
      ServerRun(cfg, s, Closing(k)) == Put(s, k, s.handlers[k].(phase := Done))
        .(ledger := s.ledger[(0, 0) := cost], guards := s.guards[0 := s.guards[0].(inFlight := false)])
  {
    RunOfThree(cfg, s, WriteSucceeds(k), Persisted(k), Release(k));
  }

  lemma OneMoreHandler(cfg: Config, handlers: seq<Handler>, h: Handler)
    requires h.session == 0
    ensures Spent(cfg, handlers + [h], 0) == Spent(cfg, handlers, 0) + Contribution(cfg, h)
  {
    assert (handlers + [h])[..|handlers|] == handlers;
  }

  /** One more call under the same id: the ledger forgets the previous one. */
  lemma OneMoreCall(cfg: Config, s: Server, k: nat, spent: nat, shown: nat, u: Usage)
    requires AfterCalls(cfg, s, k, spent, shown) && k < cfg.maxRequests && Possible(cfg, u)
    requires !OverBudget(cfg, if k == 0 then 0 else shown)
    ensures AfterCalls(cfg, ServerRun(cfg, s, Call(cfg, k, u)), k + 1, spent + CostOf(cfg, u), CostOf(cfg, u))
  {
    RunAppends(cfg, s, Opening(cfg, k) + Stream(k, u), Closing(k));
    RunAppends(cfg, s, Opening(cfg, k), Stream(k, u));
    var s1 := CallIsAccepted(cfg, s, k, spent, shown);
    CallIsMade(cfg, s1, k, u);
    var h := Finished(s1.handlers[k], u);
    var s2 := Put(s1, k, h.(phase := Recording));
    CallIsRecorded(cfg, s2, k);
    assert s2.handlers[k] == h.(phase := Recording);
    CallCounts(cfg, s, ServerRun(cfg, s2, Closing(k)), k, h, u);
  }

  lemma CallCounts(cfg: Config, s: Server, s': Server, k: nat, h: Handler, u: Usage)
    requires |s.handlers| == k && s'.handlers == s.handlers + [h]
    requires s'.world.m == Signed(k + 1) && s'.blocked == {} && GuardOf(s', 0) == GuardAfter(cfg, k + 1)
    requires h.session == 0 && h.called && h.inputTokens == u.input && h.content == Letters(u.output)
    requires s'.ledger == map[(0, 0) := HandlerCost(cfg, h)]
    ensures AfterCalls(cfg, s', k + 1, Spent(cfg, s.handlers, 0) + CostOf(cfg, u), CostOf(cfg, u))
  {
    LettersTakeOneByteEach(u.output);
    OneMoreHandler(cfg, s.handlers, h);
  }

  /** `k` calls of one usage, all under one id. */
  lemma {:induction false} ReusedRequestIdSpends(cfg: Config, k: nat, u: Usage)
    requires k <= cfg.maxRequests && Possible(cfg, u) && !OverBudget(cfg, 0) && !OverBudget(cfg, CostOf(cfg, u))
    ensures ProperServerRun(cfg, NEW_SERVER, Calls(cfg, k, u))
    ensures AfterCalls(cfg, ServerRun(cfg, NEW_SERVER, Calls(cfg, k, u)), k,
                       Multiple(k, CostOf(cfg, u)), CostOf(cfg, u))
  {
    if k == 0 {
      var s' := ServerStep(cfg, NEW_SERVER, SignIn());
      assert ServerRun(cfg, s', []) == s';
    } else {
      ReusedRequestIdSpends(cfg, k - 1, u);
      var s := ServerRun(cfg, NEW_SERVER, Calls(cfg, k - 1, u));
      OneMoreCall(cfg, s, k - 1, Multiple(k - 1, CostOf(cfg, u)), CostOf(cfg, u), u);
      OneMoreTime(k - 1, CostOf(cfg, u));
      RunOfSteps(cfg, s, Call(cfg, k - 1, u));
      RunAppends(cfg, NEW_SERVER, Calls(cfg, k - 1, u), Call(cfg, k - 1, u));
    }
  }

  /** Calls of one usage and then one of the worst case, all under one id. */
  function Overspending(cfg: Config, u: Usage): seq<ServerEvent>
    requires cfg.maxRequests > 0
  {
    Calls(cfg, cfg.maxRequests - 1, u) + Call(cfg, cfg.maxRequests - 1, Worst(cfg))
  }

  function Worst(cfg: Config): Usage {
    Usage(cfg.maxInputTokens, cfg.maxOutputTokens, cfg.maxOutputTokens)
  }

  /** The ceiling is reached. */
  lemma CeilingIsReached(cfg: Config, u: Usage)
    requires cfg.maxRequests > 0 && Possible(cfg, u) && !OverBudget(cfg, 0) && !OverBudget(cfg, CostOf(cfg, u))
    ensures ProperServerRun(cfg, NEW_SERVER, Overspending(cfg, u))
    ensures Spent(cfg, ServerRun(cfg, NEW_SERVER, Overspending(cfg, u)).handlers, 0)
         == Ceiling(cfg, cfg.maxRequests, CostOf(cfg, u))
  {
    var n := cfg.maxRequests - 1;
    ReusedRequestIdSpends(cfg, n, u);
    var s := ServerRun(cfg, NEW_SERVER, Calls(cfg, n, u));
    OneMoreCall(cfg, s, n, Multiple(n, CostOf(cfg, u)), CostOf(cfg, u), Worst(cfg));
    RunOfSteps(cfg, s, Call(cfg, n, Worst(cfg)));
    RunAppends(cfg, NEW_SERVER, Calls(cfg, n, u), Call(cfg, n, Worst(cfg)));
  }

  // When the limit holds whatever the clients do.

  ghost predicate LimitHolds(cfg: Config) {
    forall events, x | ProperServerRun(cfg, NEW_SERVER, events) ::
      Spent(cfg, ServerRun(cfg, NEW_SERVER, events).handlers, x) <= cfg.costLimit
  }

  /** Not even one worst case fits, or as many calls as may be accepted fit, each but the last as dear as a
      call that another may follow. */
  ghost predicate RoomForAll(cfg: Config) {
    || OverBudget(cfg, 0)
    || cfg.maxRequests == 0
    || forall i: nat, o: nat | WithinLimits(cfg, i, o) && !OverBudget(cfg, UsageCost(cfg, i, o)) ::
         Ceiling(cfg, cfg.maxRequests, UsageCost(cfg, i, o)) <= cfg.costLimit
  }

  /** The most that every call but the last may cost. */
  function Share(cfg: Config): nat
    requires cfg.maxRequests > 0 && !OverBudget(cfg, 0) && cfg.pricing.Some?
  {
    if cfg.maxRequests == 1 then MaxRequestCost(cfg) else (cfg.costLimit - MaxRequestCost(cfg)) / (cfg.maxRequests - 1)
  }

  lemma ShareFits(cfg: Config, cost: nat)
    requires cfg.maxRequests > 0 && !OverBudget(cfg, 0) && cfg.pricing.Some? && cost <= MaxRequestCost(cfg)
    ensures Ceiling(cfg, cfg.maxRequests, Share(cfg)) <= cfg.costLimit
    ensures Ceiling(cfg, cfg.maxRequests, cost) <= cfg.costLimit ==> cost <= Share(cfg)
  {
    var n := cfg.maxRequests - 1;
    if n > 0 {
      var room := cfg.costLimit - MaxRequestCost(cfg);
      QuotientIsLargest(n, room, cost);
    }
  }

  lemma QuotientIsLargest(n: nat, room: nat, cost: nat)
    requires n > 0
    ensures Multiple(n, room / n) <= room
    ensures Multiple(n, cost) <= room ==> cost <= room / n
  {
    var q := room / n;
    assert room == n * q + room % n;
    if cost > q {
      MulMonotone(q + 1, cost, n);
      OneMoreTime(q, n);
    }
  }

  /** Exactly when the cost limit holds over every run, with request ids reused or not. */
  lemma LimitHoldsIff(cfg: Config)
    requires cfg.pricing.Some?
    ensures LimitHolds(cfg) <==> RoomForAll(cfg)
  {
    if RoomForAll(cfg) {
      forall events, x | ProperServerRun(cfg, NEW_SERVER, events)
        ensures Spent(cfg, ServerRun(cfg, NEW_SERVER, events).handlers, x) <= cfg.costLimit
      {
        RoomSuffices(cfg, events, x);
      }
    } else {
      var i: nat, o: nat :| WithinLimits(cfg, i, o) && !OverBudget(cfg, UsageCost(cfg, i, o))
                            && Ceiling(cfg, cfg.maxRequests, UsageCost(cfg, i, o)) > cfg.costLimit;
      CeilingIsReached(cfg, Usage(i, o, o));
      assert ProperServerRun(cfg, NEW_SERVER, Overspending(cfg, Usage(i, o, o)));
    }
  }

  lemma RoomSuffices(cfg: Config, events: seq<ServerEvent>, x: SessionId)
    requires cfg.pricing.Some? && RoomForAll(cfg) && ProperServerRun(cfg, NEW_SERVER, events)
    ensures Spent(cfg, ServerRun(cfg, NEW_SERVER, events).handlers, x) <= cfg.costLimit
  {
    if OverBudget(cfg, 0) || cfg.maxRequests == 0 {
      var most := WorstBounds(cfg);
      SpendingStaysUnderCeiling(cfg, events, x, most);
    } else {
      forall i: nat, o: nat | WithinLimits(cfg, i, o) && !OverBudget(cfg, UsageCost(cfg, i, o))
        ensures UsageCost(cfg, i, o) <= Share(cfg)
      {
        UsageCostIsMonotone(cfg, i, o);
        ShareFits(cfg, UsageCost(cfg, i, o));
      }
      SpendingStaysUnderCeiling(cfg, events, x, Share(cfg));
      ShareFits(cfg, 0);
    }
  }

  /** When two worst cases fit the limit, it holds exactly if all of them fit. */
  lemma LimitHoldsIffAllWorstCasesFit(cfg: Config)
    requires cfg.pricing.Some? && 2 * MaxRequestCost(cfg) <= cfg.costLimit
    ensures LimitHolds(cfg) <==> cfg.maxRequests * MaxRequestCost(cfg) <= cfg.costLimit
  {
    LimitHoldsIff(cfg);
    RoomForAllIffWorstCasesFit(cfg);
  }

  lemma RoomForAllIffWorstCasesFit(cfg: Config)
    requires cfg.pricing.Some? && 2 * MaxRequestCost(cfg) <= cfg.costLimit
    ensures RoomForAll(cfg) <==> cfg.maxRequests * MaxRequestCost(cfg) <= cfg.costLimit
  {
    var n := cfg.maxRequests;
    assert WithinLimits(cfg, cfg.maxInputTokens, cfg.maxOutputTokens);
    if n > 0 {
      forall i: nat, o: nat | WithinLimits(cfg, i, o)
        ensures Ceiling(cfg, n, UsageCost(cfg, i, o)) <= Ceiling(cfg, n, MaxRequestCost(cfg))
      {
        UsageCostIsMonotone(cfg, i, o);
        MulMonotone(UsageCost(cfg, i, o), MaxRequestCost(cfg), n - 1);
      }
      CeilingOfWorst(cfg);
    } else {
      MulMonotone(0, n, MaxRequestCost(cfg));
    }
  }

  lemma CeilingOfWorst(cfg: Config)
    requires cfg.maxRequests > 0
    ensures Ceiling(cfg, cfg.maxRequests, MaxRequestCost(cfg)) == cfg.maxRequests * MaxRequestCost(cfg)
  {
    OneMoreTime(cfg.maxRequests - 1, MaxRequestCost(cfg));
  }

  /** The default limits, with two and eight dollars for a million tokens. */
  const DEFAULTS := Config(2000, 30, 8192, 256, 150_000, Some(Pricing(2_000_000, 8_000_000)))

  /** An input on which the limit fails: thirty requests of 2000 input and 200 output tokens, two seconds
      apart and under one id, cost 168000 with a limit of 150000, while the ledger shows 5600. */
  lemma DefaultsCanBeOverspent()
    ensures var run := Calls(DEFAULTS, 30, Usage(2000, 200, 420));
      && ProperServerRun(DEFAULTS, NEW_SERVER, run)
      && Spent(DEFAULTS, ServerRun(DEFAULTS, NEW_SERVER, run).handlers, 0) == 168_000 > DEFAULTS.costLimit
      && Total(ServerRun(DEFAULTS, NEW_SERVER, run).ledger, 0) == 5_600
  {
    var u := Usage(2000, 200, 420);
    assert CostOf(DEFAULTS, u) == 5_600;
    assert MaxRequestCost(DEFAULTS) == 18_432;
    ReusedRequestIdSpends(DEFAULTS, 30, u);
    TotalOfOneRecord(5_600);
    assert Multiple(30, 5_600) == 168_000;
  }
}
