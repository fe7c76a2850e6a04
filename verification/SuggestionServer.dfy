/** The server's handlers as they run: each method is the stretch of one handler from one `await` to
    the next, updating the shared maps in place. Each is proved to take the step that `Admission`
    gives for it, so what holds of all runs there holds of any interleaving of these calls. */
module SuggestionServer {
  import opened Ids
  import opened Wrappers
  import opened Utf16
  import opened Sessions
  import opened Admission
  import SuggestionStream

  class LiveSuggestions {
    const cfg: Config
    const manager: SessionManager
    var guards: map<SessionId, Guard>
    var blocked: set<SessionId>
    var ledger: map<(SessionId, RequestId), nat>
    var handlers: seq<Handler>
    ghost var acceptances: seq<Acceptance>
    ghost var sessionIds: set<SessionId>
    ghost var connectionIds: set<ConnectionId>

    ghost function View(): Server
      reads this, manager
    {
      Server(World(manager.View(), sessionIds, connectionIds), guards, blocked, ledger, handlers, acceptances)
    }

    constructor (cfg: Config)
      ensures fresh(manager) && this.cfg == cfg && View() == NEW_SERVER
    {
      this.cfg := cfg;
      manager := new SessionManager();
      guards, blocked, ledger, handlers, acceptances := map[], {}, map[], [], [];
      sessionIds, connectionIds := {}, {};
    }

    /** The `auth.hello` message, once the token and the policy are known. */
    method Authenticate(sessionId: SessionId, c: ConnectionId, actor: Actor, workspaceId: WorkspaceId, seqNo: nat)
      modifies this, manager
      ensures View() == ServerStep(cfg, old(View()),
                                   SessionEvent(AuthenticateEvent(sessionId, c, actor, workspaceId, seqNo)))
    {
      var _ := manager.Authenticate(sessionId, c, actor, workspaceId, seqNo);
      sessionIds, connectionIds := sessionIds + {sessionId}, connectionIds + {c};
    }

    method Resume(input: ResumeInput)
      modifies this, manager
      ensures View() == ServerStep(cfg, old(View()), SessionEvent(ResumeEvent(input)))
    {
      var _ := manager.ResumeSession(input);
    }

    method CloseConnection(c: ConnectionId)
      modifies this, manager
      ensures View() == OnClose(old(View()), c)
    {
      if c in manager.connections {
        var x := manager.connections[c];
        if x in manager.sessions && manager.sessions[x].phase == Ended {
          guards := guards - {x};
          blocked := blocked - {x};
        }
      }
      manager.RemoveConnection(c);
    }

    method HandleRequest(c: ConnectionId, seqNo: nat, request: RequestId, nowMs: int, policyAllows: bool)
      returns (reply: Reply)
      modifies this, manager
      ensures reply == ReplyTo(cfg, old(View()), c, seqNo, nowMs, policyAllows)
      ensures View() == OnRequest(cfg, old(View()), c, seqNo, request, nowMs, policyAllows)
    {
      if c !in manager.connections {
        return NotTaken;
      }
      var x := manager.connections[c];
      var advanced := manager.AdvanceClientSeq(x, seqNo);
      if !advanced {
        return NotTaken;
      }
      if !policyAllows {
        return Refused(ForbiddenByPolicy);
      }
      var g := if x in guards then guards[x] else NEW_GUARD;
      if x in blocked {
        return Refused(AccountingBlocked);
      }
      if g.inFlight {
        return Refused(InProgress);
      }
      if g.acceptedCount >= cfg.maxRequests {
        return Refused(LimitReached);
      }
      if g.lastAcceptedAt.Some? {
        var elapsedMs := nowMs - g.lastAcceptedAt.value;
        if elapsedMs < cfg.minIntervalMs {
          return Refused(TooFrequent(cfg.minIntervalMs - elapsedMs));
        }
      }
      guards := guards[x := g.(inFlight := true)];
      handlers := handlers + [Handler(x, request, nowMs, g, Lookup, false, 0, 0, [])];
      return Begun;
    }

    /** `getSessionEstimatedCostMicrousd`: sums the session's records in any order. */
    method SessionCost(x: SessionId) returns (total: nat)
      ensures total == Total(ledger, x)
    {
      total := 0;
      var rest := ledger;
      while rest != map[]
        invariant total + Total(rest, x) == Total(ledger, x)
        decreases |rest|
      {
        var k :| k in rest;
        TotalRemoves(rest, k, x);
        total := total + Weight(rest, k, x);
        rest := rest - {k};
      }
    }

    method AnswerLookup(i: nat)
      requires Waits(View(), i, Lookup)
      modifies this
      ensures View() == OnLookupAnswers(old(View()), i)
    {
      var total := SessionCost(handlers[i].session);
      handlers := handlers[i := handlers[i].(phase := Answered(total))];
    }

    method FailLookup(i: nat)
      requires Waits(View(), i, Lookup)
      modifies this
      ensures View() == OnLookupFails(old(View()), i)
    {
      blocked := blocked + {handlers[i].session};
      handlers := handlers[i := handlers[i].(phase := Releasing)];
    }

    method DecideBudget(i: nat)
      requires i < |handlers| && handlers[i].phase.Answered?
      modifies this
      ensures View() == OnDecide(cfg, old(View()), i)
    {
      var h := handlers[i];
      if cfg.pricing.Some? && h.phase.total + MaxRequestCost(cfg) > cfg.costLimit {
        handlers := handlers[i := h.(phase := Releasing)];
        return;
      }
      guards := guards[h.session := Guard(Some(h.nowMs), h.snapshot.acceptedCount + 1, true)];
      acceptances := acceptances + [Acceptance(h.session, h.nowMs)];
      handlers := handlers[i := h.(phase := Retrieving)];
    }

    /** The start of `recordSuggestionUsage`: an unknown session records nothing. */
    method BeginRecord(i: nat)
      requires i < |handlers|
      modifies `handlers
      ensures handlers == old(handlers)[i := old(handlers)[i].(phase := AfterUsage(old(View()), old(handlers)[i]))]
    {
      var known := handlers[i].session in manager.sessions;
      handlers := handlers[i := handlers[i].(phase := if known then Recording else Releasing)];
    }

    method StartProvider(i: nat, inputTokens: nat, maxChars: nat)
      requires Waits(View(), i, Retrieving)
      modifies this
      ensures View() == OnRetrieved(cfg, old(View()), i, inputTokens, maxChars)
    {
      handlers := handlers[i := handlers[i].(inputTokens := inputTokens, maxChars := maxChars)];
      if inputTokens > cfg.maxInputTokens {
        BeginRecord(i);
      } else {
        handlers := handlers[i := handlers[i].(phase := Streaming, called := true)];
      }
    }

    method ReceiveToken(i: nat, token: Text)
      requires Waits(View(), i, Streaming)
      modifies this
      ensures View() == OnToken(cfg, old(View()), i, token)
    {
      var h := handlers[i];
      var bounded := SuggestionStream.TruncateToTokenBudget(h.content + token, cfg.maxOutputTokens);
      var content := if |bounded| <= h.maxChars then bounded else bounded[..h.maxChars];
      handlers := handlers[i := h.(content := content)];
    }

    /** The provider completed, failed, or stopped without completing: each has a usage to record. */
    method StopStream(i: nat)
      requires Waits(View(), i, Streaming)
      modifies this
      ensures View() == OnStreamStops(old(View()), i)
    {
      BeginRecord(i);
    }

    method WriteUsage(i: nat)
      requires Waits(View(), i, Recording)
      modifies this
      ensures View() == OnWriteSucceeds(cfg, old(View()), i)
    {
      var h := handlers[i];
      ledger := ledger[(h.session, h.request) := UsageCost(cfg, h.inputTokens, ByteLength(h.content))];
      handlers := handlers[i := h.(phase := Recorded)];
    }

    /** A write that failed for its caller, whether or not the store applied it. */
    method FailWrite(i: nat, applied: bool)
      requires Waits(View(), i, Recording)
      modifies this
      ensures View() == OnWriteFails(cfg, old(View()), i, applied)
    {
      var h := handlers[i];
      if applied {
        ledger := ledger[(h.session, h.request) := UsageCost(cfg, h.inputTokens, ByteLength(h.content))];
      }
      blocked := blocked + {h.session};
      handlers := handlers[i := h.(phase := Releasing)];
    }

    method FinishPersisting(i: nat)
      requires Waits(View(), i, Recorded)
      modifies this
      ensures View() == OnPersisted(old(View()), i)
    {
      handlers := handlers[i := handlers[i].(phase := Releasing)];
    }

    /** The `finally` block. */
    method ReleaseReservation(i: nat)
      requires Waits(View(), i, Releasing)
      modifies this
      ensures View() == OnRelease(old(View()), i)
    {
      var x := handlers[i].session;
      if x in guards {
        guards := guards[x := guards[x].(inFlight := false)];
      }
      handlers := handlers[i := handlers[i].(phase := Done)];
    }
  }
}
