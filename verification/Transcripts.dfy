/** Live transcripts: what the processor lets through
    (services/realtime/src/transcript-processor.ts:35-84), what the server keeps for replay
    (services/realtime/src/ws-server.ts:281-320, 394-401), and what a client that lost its connection
    has afterwards (apps/desktop/src/protocol/desktopRealtimeSession.ts:424-445). */
module Transcripts {

  type SegmentId = nat

  datatype Transcript = Transcript(segment: SegmentId, text: string, startMs: nat, final: bool)

  datatype Suppression = DuplicateFinal | PartialAfterFinal | TimestampOutOfOrder | SessionClosed

  datatype Verdict = Emit | Suppress(reason: Suppression)

  /** State of the processor: for each segment seen, whether its final was seen. */
  datatype Progress = Progress(finals: map<SegmentId, bool>, lastStartMs: nat, closed: bool)

  const NEW_PROGRESS := Progress(map[], 0, false)

  function Judge(p: Progress, t: Transcript): Verdict {
    if p.closed then Suppress(SessionClosed)
    else if t.segment in p.finals && p.finals[t.segment]
    then Suppress(if t.final then DuplicateFinal else PartialAfterFinal)
    else if t.segment !in p.finals && t.startMs < p.lastStartMs then Suppress(TimestampOutOfOrder)
    else Emit
  }

  function Advance(p: Progress, t: Transcript): Progress {
    if Judge(p, t) == Emit
    then p.(finals := p.finals[t.segment := t.final],
            lastStartMs := if t.startMs > p.lastStartMs then t.startMs else p.lastStartMs)
    else p
  }

  class TranscriptProcessor {
    var finals: map<SegmentId, bool>
    var lastAcceptedStartMs: nat
    var closed: bool

    function View(): Progress
      reads this
    {
      Progress(finals, lastAcceptedStartMs, closed)
    }

    constructor ()
      ensures View() == NEW_PROGRESS
    {
      finals, lastAcceptedStartMs, closed := map[], 0, false;
    }

    method Process(t: Transcript) returns (verdict: Verdict)
      modifies this
      ensures verdict == Judge(old(View()), t)
      ensures View() == Advance(old(View()), t)
    {
      if closed {
        return Suppress(SessionClosed);
      }
      var wasFinal := t.segment in finals && finals[t.segment];
      if t.final && wasFinal {
        return Suppress(DuplicateFinal);
      }
      if !t.final && wasFinal {
        return Suppress(PartialAfterFinal);
      }
      if t.segment !in finals && t.startMs < lastAcceptedStartMs {
        return Suppress(TimestampOutOfOrder);
      }
      finals := finals[t.segment := t.final];
      if t.startMs > lastAcceptedStartMs {
        lastAcceptedStartMs := t.startMs;
      }
      return Emit;
    }

    method Close()
      modifies this
      ensures View() == old(View()).(closed := true)
    {
      closed := true;
    }
  }

  datatype Event = Heard(transcript: Transcript) | Closing

  function Progressed(p: Progress, e: Event): Progress {
    match e
    case Heard(t) => Advance(p, t)
    case Closing => p.(closed := true)
  }

  function StateAfter(events: seq<Event>): Progress {
    if events == [] then NEW_PROGRESS
    else Progressed(StateAfter(events[..|events| - 1]), events[|events| - 1])
  }

  /** What the processor emits over a run. */
  function Emitted(events: seq<Event>): seq<Transcript> {
    if events == [] then []
    else
      var n := |events| - 1;
      if events[n].Heard? && Judge(StateAfter(events[..n]), events[n].transcript) == Emit
      then Emitted(events[..n]) + [events[n].transcript] else Emitted(events[..n])
  }

  function Segments(ts: seq<Transcript>): set<SegmentId> {
    if ts == [] then {} else Segments(ts[..|ts| - 1]) + {ts[|ts| - 1].segment}
  }

  /** Segments whose final is among `ts`. */
  function Finished(ts: seq<Transcript>): set<SegmentId> {
    if ts == [] then {}
    else Finished(ts[..|ts| - 1]) + (if ts[|ts| - 1].final then {ts[|ts| - 1].segment} else {})
  }

  function LatestStart(ts: seq<Transcript>): nat {
    if ts == [] then 0
    else
      var before := LatestStart(ts[..|ts| - 1]);
      if ts[|ts| - 1].startMs > before then ts[|ts| - 1].startMs else before
  }

  /** What may follow `before`: nothing of a finished segment, and no new segment that starts before
      something already emitted. */
  predicate MayFollow(before: seq<Transcript>, t: Transcript) {
    t.segment !in Finished(before) && (t.segment in Segments(before) || t.startMs >= LatestStart(before))
  }

  predicate Lawful(ts: seq<Transcript>) {
    ts == [] || (Lawful(ts[..|ts| - 1]) && MayFollow(ts[..|ts| - 1], ts[|ts| - 1]))
  }

  ghost predicate Reflects(p: Progress, ts: seq<Transcript>) {
    && p.finals.Keys == Segments(ts)
    && (forall s :: s in p.finals ==> (p.finals[s] <==> s in Finished(ts)))
    && Finished(ts) <= Segments(ts)
    && p.lastStartMs == LatestStart(ts)
  }

  lemma JudgeMatches(p: Progress, ts: seq<Transcript>, t: Transcript)
    requires Reflects(p, ts)
    ensures Judge(p, t) == Emit <==> !p.closed && MayFollow(ts, t)
  {
  }

  lemma EmitKeepsReflects(p: Progress, ts: seq<Transcript>, t: Transcript)
    requires Reflects(p, ts) && Lawful(ts) && Judge(p, t) == Emit
    ensures Reflects(Advance(p, t), ts + [t]) && Lawful(ts + [t])
  {
    JudgeMatches(p, ts, t);
    assert (ts + [t])[..|ts|] == ts;
    assert Segments(ts + [t]) == Segments(ts) + {t.segment};
    assert Finished(ts + [t]) == Finished(ts) + (if t.final then {t.segment} else {});
    assert Advance(p, t).finals == p.finals[t.segment := t.final];
  }

  lemma {:induction false} ProcessorReflectsEmitted(events: seq<Event>)
    ensures Lawful(Emitted(events)) && Reflects(StateAfter(events), Emitted(events))
  {
    if events != [] {
      var n := |events| - 1;
      ProcessorReflectsEmitted(events[..n]);
      var p, ts := StateAfter(events[..n]), Emitted(events[..n]);
      if events[n].Heard? && Judge(p, events[n].transcript) == Emit {
        EmitKeepsReflects(p, ts, events[n].transcript);
      }
    }
  }

  /** Over any run, the processor emits a transcript exactly when it is open and the transcript may
      follow what it has emitted. */
  lemma EmitsExactlyWhatMayFollow(events: seq<Event>, t: Transcript)
    ensures Lawful(Emitted(events))
    ensures Judge(StateAfter(events), t) == Emit <==> !StateAfter(events).closed && MayFollow(Emitted(events), t)
  {
    ProcessorReflectsEmitted(events);
    JudgeMatches(StateAfter(events), Emitted(events), t);
  }

  /** The reason given for a suppression, over any run, in terms of what happened: the processor was closed; or the
      segment's final was emitted, and this is another one or a partial; or a new segment starts too early. */
  lemma SuppressionTellsWhy(events: seq<Event>, t: Transcript)
    ensures var verdict, before := Judge(StateAfter(events), t), Emitted(events);
      if Closing in events then verdict == Suppress(SessionClosed)
      else if t.segment in Finished(before) then
        verdict == Suppress(if t.final then DuplicateFinal else PartialAfterFinal)
      else if t.segment !in Segments(before) && t.startMs < LatestStart(before)
      then verdict == Suppress(TimestampOutOfOrder)
      else verdict == Emit
  {
    ProcessorReflectsEmitted(events);
    ClosedIffClosing(events);
  }

  lemma {:induction false} ClosedIffClosing(events: seq<Event>)
    ensures StateAfter(events).closed <==> Closing in events
  {
    if events != [] {
      var n := |events| - 1;
      ClosedIffClosing(events[..n]);
      assert events == events[..n] + [events[n]];
    }
  }

  /** The processor is closed exactly once it has been closed, and nothing is emitted afterwards. */
  lemma {:induction false} NothingAfterClose(events: seq<Event>, later: seq<Event>)
    requires Closing in events
    ensures StateAfter(events + later).closed
    ensures Emitted(events + later) == Emitted(events)
    decreases |later|, |events|
  {
    if later != [] {
      var n := |later| - 1;
      NothingAfterClose(events, later[..n]);
      assert (events + later)[..|events| + n] == events + later[..n];
    } else {
      assert events + later == events;
      var n := |events| - 1;
      if events[n] != Closing {
        NothingAfterClose(events[..n], []);
        assert events[..n] + [] == events[..n];
      }
    }
  }

  /** Nothing of a segment follows its final. */
  lemma {:induction false} FinalIsLast(ts: seq<Transcript>, i: nat, j: nat)
    requires Lawful(ts) && i < j < |ts| && ts[i].final
    ensures ts[j].segment != ts[i].segment
  {
    var n := |ts| - 1;
    if j < n {
      FinalIsLast(ts[..n], i, j);
    } else {
      FinalIsFinished(ts[..n], i);
    }
  }

  lemma {:induction false} FinalIsFinished(ts: seq<Transcript>, i: nat)
    requires i < |ts| && ts[i].final
    ensures ts[i].segment in Finished(ts)
  {
    var n := |ts| - 1;
    if i < n {
      FinalIsFinished(ts[..n], i);
    }
  }

  /** A transcript that starts before something emitted earlier continues a segment opened before it. */
  lemma {:induction false} LateStartContinues(ts: seq<Transcript>, i: nat, j: nat)
    requires Lawful(ts) && i < j < |ts| && ts[j].startMs < ts[i].startMs
    ensures ts[j].segment in Segments(ts[..j])
  {
    var n := |ts| - 1;
    if j < n {
      LateStartContinues(ts[..n], i, j);
      assert ts[..n][..j] == ts[..j];
    } else {
      LatestStartIsLatest(ts[..n], i);
    }
  }

  lemma {:induction false} LatestStartIsLatest(ts: seq<Transcript>, i: nat)
    requires i < |ts|
    ensures ts[i].startMs <= LatestStart(ts)
  {
    var n := |ts| - 1;
    if i < n {
      LatestStartIsLatest(ts[..n], i);
    }
  }
}
