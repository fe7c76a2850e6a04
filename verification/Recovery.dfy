/** Recovery after a lost connection: the server's bounded replay buffer
    (services/realtime/src/ws-server.ts:112, 281-320, 394-401) against the client's list of transcripts
    (apps/desktop/src/protocol/desktopRealtimeSession.ts:424-445, 500-502). */
module Recovery {
  import opened Transcripts
  import DesktopClient

  datatype Message = Message(seqNo: nat, transcript: Transcript)

  const MAX_REPLAYABLE: nat := 1000

  /** How many finals are kept as context for suggestions. */
  const MAX_CONTEXT: nat := 100

  /** The last `count` messages, or all of them. */
  function LastOnes<T>(s: seq<T>, count: nat): seq<T> {
    if s == [] || count == 0 then [] else LastOnes(s[..|s| - 1], count - 1) + [s[|s| - 1]]
  }

  lemma {:induction false} LastOnesKeepsFew<T>(s: seq<T>, count: nat)
    requires |s| <= count
    ensures LastOnes(s, count) == s
  {
    if s != [] {
      LastOnesKeepsFew(s[..|s| - 1], count - 1);
    }
  }

  lemma {:induction false} LastOnesIsSlice<T>(s: seq<T>, drop: nat)
    requires drop <= |s|
    ensures LastOnes(s, |s| - drop) == s[drop..]
  {
    var n := |s| - 1;
    if drop <= n {
      LastOnesIsSlice(s[..n], drop);
      assert s[drop..] == s[..n][drop..] + [s[n]];
    }
  }

  lemma {:induction false} LastOnesNest<T>(s: seq<T>, most: nat, count: nat)
    requires count <= most
    ensures LastOnes(LastOnes(s, most), count) == LastOnes(s, count)
  {
    if s != [] && count > 0 {
      var before := LastOnes(s[..|s| - 1], most - 1);
      assert (before + [s[|s| - 1]])[..|before|] == before;
      LastOnesNest(s[..|s| - 1], most - 1, count - 1);
    }
  }

  function Finals(h: seq<Message>): seq<Message> {
    if h == [] then []
    else if h[|h| - 1].transcript.final then Finals(h[..|h| - 1]) + [h[|h| - 1]]
    else Finals(h[..|h| - 1])
  }

  function Above(h: seq<Message>, seqNo: nat): seq<Message> {
    if h == [] then []
    else if h[|h| - 1].seqNo > seqNo then Above(h[..|h| - 1], seqNo) + [h[|h| - 1]]
    else Above(h[..|h| - 1], seqNo)
  }

  function UpTo(h: seq<Message>, seqNo: nat): seq<Message> {
    if h == [] then []
    else if h[|h| - 1].seqNo <= seqNo then UpTo(h[..|h| - 1], seqNo) + [h[|h| - 1]]
    else UpTo(h[..|h| - 1], seqNo)
  }

  predicate Below(h: seq<Message>, seqNo: nat) {
    forall m | m in h :: m.seqNo < seqNo
  }

  predicate Increasing(h: seq<Message>) {
    h == [] || (Increasing(h[..|h| - 1]) && Below(h[..|h| - 1], h[|h| - 1].seqNo))
  }

  lemma {:induction false} IncreasingIsPairwise(h: seq<Message>, i: nat, j: nat)
    requires Increasing(h) && i < j < |h|
    ensures h[i].seqNo < h[j].seqNo
  {
    var n := |h| - 1;
    if j < n {
      IncreasingIsPairwise(h[..n], i, j);
    } else {
      assert h[..n][i] in h[..n];
    }
  }

  lemma {:induction false} IncreasingAppend(a: seq<Message>, b: seq<Message>)
    requires Increasing(a) && Increasing(b)
    requires forall m | m in b :: Below(a, m.seqNo)
    ensures Increasing(a + b)
  {
    if b == [] {
      assert a + b == a;
    } else {
      var n := |b| - 1;
      IncreasingAppend(a, b[..n]);
      assert (a + b)[..|a| + n] == a + b[..n];
      assert b[n] in b;
    }
  }

  /** One session on the server: its last server number, its replay buffer, its suggestion context, and, for
      the statements below, every transcript message it has sent. */
  datatype Relay = Relay(serverSeq: nat, replayable: seq<Message>, context: seq<Transcript>, history: seq<Message>)

  const NEW_RELAY := Relay(0, [], [], [])

  /** Sending a transcript, sending anything else, and being resumed by a client that saw `lastServerSeq`. */
  datatype Action = Send(transcript: Transcript) | SendOther | Resume(lastServerSeq: nat)

  function Act(r: Relay, a: Action): Relay {
    match a
    case Send(t) =>
      var m := Message(r.serverSeq + 1, t);
      var sent := r.(serverSeq := m.seqNo, history := r.history + [m]);
      if t.final
      then sent.(replayable := LastOnes(r.replayable + [m], MAX_REPLAYABLE),
                 context := LastOnes(r.context + [t], MAX_CONTEXT))
      else sent
    case SendOther => r.(serverSeq := r.serverSeq + 1)
    case Resume(last) => if last > r.serverSeq then r.(serverSeq := last) else r
  }

  function ActAll(actions: seq<Action>): Relay {
    if actions == [] then NEW_RELAY else Act(ActAll(actions[..|actions| - 1]), actions[|actions| - 1])
  }

  class TranscriptRelay {
    var serverSeq: nat
    var replayable: seq<Message>
    var context: seq<Transcript>
    ghost var history: seq<Message>

    ghost function View(): Relay
      reads this
    {
      Relay(serverSeq, replayable, context, history)
    }

    constructor ()
      ensures View() == NEW_RELAY
    {
      serverSeq, replayable, context, history := 0, [], [], [];
    }

    method SendTranscript(t: Transcript)
      modifies this
      ensures View() == Act(old(View()), Send(t))
    {
      serverSeq := serverSeq + 1;
      var message := Message(serverSeq, t);
      if t.final {
        replayable := CutToLast(replayable + [message], MAX_REPLAYABLE);
        context := CutToLast(context + [t], MAX_CONTEXT);
      }
      history := history + [message];
    }

    method ReplayTranscripts(lastServerSeq: nat) returns (sent: seq<Message>)
      ensures sent == Above(replayable, lastServerSeq)
    {
      sent := [];
      for i := 0 to |replayable|
        invariant sent == Above(replayable[..i], lastServerSeq)
      {
        assert replayable[..i + 1][..i] == replayable[..i];
        if replayable[i].seqNo > lastServerSeq {
          sent := sent + [replayable[i]];
        }
      }
      assert replayable[..|replayable|] == replayable;
    }
  }

  /** `splice(0, length - most)`, for a list that has grown too long. */
  method CutToLast<T>(list: seq<T>, most: nat) returns (kept: seq<T>)
    ensures kept == LastOnes(list, most)
  {
    kept := list;
    if |list| > most {
      LastOnesIsSlice(list, |list| - most);
      kept := list[|list| - most..];
    } else {
      LastOnesKeepsFew(list, most);
    }
  }

  /** In every run, the buffer and the context are exactly the last finals of the full history, whose numbers
      only go up. */
  lemma {:induction false} BufferIsLastFinals(actions: seq<Action>)
    ensures Numbered(ActAll(actions)) && Buffered(ActAll(actions)) && HasContext(ActAll(actions))
  {
    if actions != [] {
      BufferIsLastFinals(actions[..|actions| - 1]);
      ActKeepsNumbered(ActAll(actions[..|actions| - 1]), actions[|actions| - 1]);
      ActKeepsBuffered(ActAll(actions[..|actions| - 1]), actions[|actions| - 1]);
      ActKeepsContext(ActAll(actions[..|actions| - 1]), actions[|actions| - 1]);
    }
  }

  /** What was sent before the last action, transcripts and other messages alike. */
  function SentBefore(actions: seq<Action>): nat {
    if actions == [] then 0 else SentBefore(actions[..|actions| - 1]) + if actions[|actions| - 1].Resume? then 0 else 1
  }

  predicate NeverRaised(actions: seq<Action>) {
    forall i :: 0 <= i < |actions| && actions[i].Resume? ==>
      actions[i].lastServerSeq <= SentBefore(actions[..i])
  }

  /** The transcripts among the messages, each with its place among all messages. */
  function Places(actions: seq<Action>): seq<Message> {
    if actions == [] then []
    else
      var before, last := actions[..|actions| - 1], actions[|actions| - 1];
      if last.Send? then Places(before) + [Message(SentBefore(actions), last.transcript)] else Places(before)
  }

  /** Unless a client claims to have seen more than was sent, messages of every kind are numbered 1, 2, 3, ... without a
      hole, and the history has every transcript with its own number. */
  lemma {:induction false} NumbersArePlaces(actions: seq<Action>)
    requires NeverRaised(actions)
    ensures ActAll(actions).serverSeq == SentBefore(actions) && ActAll(actions).history == Places(actions)
  {
    if actions != [] {
      var n := |actions| - 1;
      forall i | 0 <= i < n && actions[..n][i].Resume?
        ensures actions[..n][i].lastServerSeq <= SentBefore(actions[..n][..i])
      {
        assert actions[..n][..i] == actions[..i];
      }
      NumbersArePlaces(actions[..n]);
    }
  }

  /** A claim beyond that moves the numbering up to it, and any other claim leaves it alone. */
  lemma ResumeRaisesNumber(r: Relay, last: nat)
    ensures Act(r, Resume(last)).serverSeq >= last && Act(r, Resume(last)).serverSeq >= r.serverSeq
    ensures Act(r, Resume(last)) == r || Act(r, Resume(last)) == r.(serverSeq := last)
  {
  }

  predicate Numbered(r: Relay) {
    Increasing(r.history) && Below(r.history, r.serverSeq + 1)
  }

  predicate Buffered(r: Relay) {
    r.replayable == LastOnes(Finals(r.history), MAX_REPLAYABLE)
  }

  lemma ActKeepsNumbered(r: Relay, a: Action)
    requires Numbered(r)
    ensures Numbered(Act(r, a))
  {
    if a.Send? {
      var m := Message(r.serverSeq + 1, a.transcript);
      assert (r.history + [m])[..|r.history|] == r.history;
    }
  }

  lemma ActKeepsBuffered(r: Relay, a: Action)
    requires Buffered(r)
    ensures Buffered(Act(r, a))
  {
    if a.Send? {
      var m := Message(r.serverSeq + 1, a.transcript);
      assert (r.history + [m])[..|r.history|] == r.history;
      if a.transcript.final {
        LastOnesExtend(Finals(r.history), m, MAX_REPLAYABLE);
      }
    }
  }

  predicate HasContext(r: Relay) {
    r.context == LastOnes(TranscriptsOf(Finals(r.history)), MAX_CONTEXT)
  }

  lemma ActKeepsContext(r: Relay, a: Action)
    requires HasContext(r)
    ensures HasContext(Act(r, a))
  {
    if a.Send? {
      var m := Message(r.serverSeq + 1, a.transcript);
      var finals := Finals(r.history);
      assert (r.history + [m])[..|r.history|] == r.history;
      LastOnesExtend(TranscriptsOf(finals), a.transcript, MAX_CONTEXT);
      assert TranscriptsOf(finals + [m]) == TranscriptsOf(finals) + [a.transcript];
    }
  }

  lemma LastOnesExtend<T>(s: seq<T>, m: T, count: nat)
    ensures LastOnes(LastOnes(s, count) + [m], count) == LastOnes(s + [m], count)
  {
    var kept := LastOnes(s, count);
    if count > 0 {
      LastOnesNest(s, count, count - 1);
      assert (kept + [m])[..|kept|] == kept && (s + [m])[..|s|] == s;
    }
  }

  /** The client's list after one more transcript: it replaces what it had for the segment. */
  function Upsert(list: seq<Transcript>, t: Transcript): seq<Transcript> {
    Without(list, t.segment) + [t]
  }

  function Without(list: seq<Transcript>, segment: SegmentId): seq<Transcript> {
    if list == [] then []
    else if list[|list| - 1].segment != segment then Without(list[..|list| - 1], segment) + [list[|list| - 1]]
    else Without(list[..|list| - 1], segment)
  }

  function ClientList(received: seq<Message>): seq<Transcript> {
    if received == [] then []
    else Upsert(ClientList(received[..|received| - 1]), received[|received| - 1].transcript)
  }

  class TranscriptView {
    var transcripts: seq<Transcript>
    var status: DesktopClient.Status

    /** A transcript also shows that the client is back on its feet. */
    method UpsertTranscript(t: Transcript)
      modifies this
      ensures transcripts == Upsert(old(transcripts), t)
      ensures status == if old(status).Reconnecting? then DesktopClient.Streaming else old(status)
    {
      var kept: seq<Transcript> := [];
      for i := 0 to |transcripts|
        invariant transcripts == old(transcripts) && status == old(status)
        invariant kept == Without(transcripts[..i], t.segment)
      {
        assert transcripts[..i + 1][..i] == transcripts[..i];
        if transcripts[i].segment != t.segment {
          kept := kept + [transcripts[i]];
        }
      }
      assert transcripts[..|transcripts|] == transcripts;
      transcripts := kept + [t];
      if status.Reconnecting? {
        status := DesktopClient.Streaming;
      }
    }
  }

  lemma {:induction false} WithoutKeepsOthers(list: seq<Transcript>, segment: SegmentId, t: Transcript)
    ensures t in Without(list, segment) <==> t in list && t.segment != segment
  {
    if list != [] {
      var n := |list| - 1;
      WithoutKeepsOthers(list[..n], segment, t);
      assert list == list[..n] + [list[n]];
    }
  }

  /** The client shows one entry for each segment, the last it received. */
  lemma {:induction false} ClientKeepsLatest(received: seq<Message>, i: nat)
    requires i < |received|
    requires forall j :: i < j < |received| ==> received[j].transcript.segment != received[i].transcript.segment
    ensures received[i].transcript in ClientList(received)
  {
    var n := |received| - 1;
    if i < n {
      ClientKeepsLatest(received[..n], i);
      WithoutKeepsOthers(ClientList(received[..n]), received[n].transcript.segment, received[i].transcript);
    }
  }

  /** And it shows nothing it did not receive. */
  lemma {:induction false} ClientShowsOnlyReceived(received: seq<Message>, t: Transcript)
    requires t in ClientList(received)
    ensures exists m :: m in received && m.transcript == t
  {
    var n := |received| - 1;
    if t != received[n].transcript {
      WithoutKeepsOthers(ClientList(received[..n]), received[n].transcript.segment, t);
      ClientShowsOnlyReceived(received[..n], t);
      var m :| m in received[..n] && m.transcript == t;
      assert m in received;
    } else {
      assert received[n] in received;
    }
  }

  /** The messages after which no more of their segment came, in order. */
  function Latest(received: seq<Message>): seq<Transcript> {
    if received == [] then []
    else if exists m :: m in received[1..] && m.transcript.segment == received[0].transcript.segment
    then Latest(received[1..])
    else [received[0].transcript] + Latest(received[1..])
  }

  lemma {:induction false} LatestSnoc(received: seq<Message>, m: Message)
    ensures Latest(received + [m]) == Upsert(Latest(received), m.transcript)
  {
    if received == [] {
      assert [m][1..] == [] && received + [m] == [m];
      assert Latest([m]) == [m.transcript] + Latest([]);
    } else {
      var first, rest := received[0], received[1..];
      assert (received + [m])[1..] == rest + [m];
      LatestSnoc(rest, m);
      WithoutFirst(first.transcript, Latest(rest), m.transcript.segment);
    }
  }

  lemma {:induction false} WithoutFirst(t: Transcript, list: seq<Transcript>, segment: SegmentId)
    ensures Without([t] + list, segment)
         == if t.segment == segment then Without(list, segment) else [t] + Without(list, segment)
  {
    var whole := [t] + list;
    if list == [] {
      assert whole == [t] && [t][..0] == [];
    } else {
      var n := |list| - 1;
      assert whole[..n + 1] == [t] + list[..n];
      WithoutFirst(t, list[..n], segment);
    }
  }

  /** The client's list, exactly: of each segment the last transcript received, in the order of their arrival. */
  lemma {:induction false} ClientListIsLatest(received: seq<Message>)
    ensures ClientList(received) == Latest(received)
  {
    if received != [] {
      var n := |received| - 1;
      ClientListIsLatest(received[..n]);
      LatestSnoc(received[..n], received[n]);
      assert received == received[..n] + [received[n]];
    }
  }

  lemma {:induction false} FilterMembers(h: seq<Message>, seqNo: nat, m: Message)
    ensures m in Above(h, seqNo) <==> m in h && m.seqNo > seqNo
    ensures m in UpTo(h, seqNo) <==> m in h && m.seqNo <= seqNo
    ensures m in Finals(h) <==> m in h && m.transcript.final
  {
    if h != [] {
      var n := |h| - 1;
      FilterMembers(h[..n], seqNo, m);
      assert h == h[..n] + [h[n]];
    }
  }

  lemma {:induction false} FiltersKeepOrder(h: seq<Message>, seqNo: nat)
    requires Increasing(h)
    ensures Increasing(Above(h, seqNo)) && Increasing(UpTo(h, seqNo)) && Increasing(Finals(h))
  {
    if h != [] {
      var n := |h| - 1;
      FiltersKeepOrder(h[..n], seqNo);
      forall m: Message
        ensures m in Above(h[..n], seqNo) || m in UpTo(h[..n], seqNo) || m in Finals(h[..n]) ==> m in h[..n]
      {
        FilterMembers(h[..n], seqNo, m);
      }
      IncreasingSnoc(Above(h[..n], seqNo), h[n]);
      IncreasingSnoc(UpTo(h[..n], seqNo), h[n]);
      IncreasingSnoc(Finals(h[..n]), h[n]);
    }
  }

  lemma IncreasingSnoc(h: seq<Message>, m: Message)
    requires Increasing(h) && Below(h, m.seqNo)
    ensures Increasing(h + [m])
  {
    assert (h + [m])[..|h|] == h;
  }

  lemma {:induction false} LastOnesKeepOrder(h: seq<Message>, count: nat)
    requires Increasing(h)
    ensures Increasing(LastOnes(h, count))
    ensures forall m | m in LastOnes(h, count) :: m in h
  {
    if h != [] && count > 0 {
      var n := |h| - 1;
      LastOnesKeepOrder(h[..n], count - 1);
      IncreasingSnoc(LastOnes(h[..n], count - 1), h[n]);
    }
  }

  lemma {:induction false} FiltersCommute(h: seq<Message>, seqNo: nat)
    ensures Finals(Above(h, seqNo)) == Above(Finals(h), seqNo)
  {
    if h != [] {
      var n := |h| - 1;
      FiltersCommute(h[..n], seqNo);
      var a, f := Above(h[..n], seqNo), Finals(h[..n]);
      assert (a + [h[n]])[..|a|] == a && (f + [h[n]])[..|f|] == f;
    }
  }

  /** In an increasing history, cutting to the last ones and cutting at a number commute. */
  lemma {:induction false} AboveLastOnes(h: seq<Message>, seqNo: nat, count: nat)
    requires Increasing(h)
    ensures Above(LastOnes(h, count), seqNo) == LastOnes(Above(h, seqNo), count)
  {
    if h != [] && count > 0 {
      var n := |h| - 1;
      var kept := LastOnes(h[..n], count - 1);
      assert (kept + [h[n]])[..|kept|] == kept;
      AboveLastOnes(h[..n], seqNo, count - 1);
      if h[n].seqNo > seqNo {
        var above := Above(h[..n], seqNo);
        assert (above + [h[n]])[..|above|] == above;
      } else {
        NoneAbove(h[..n], seqNo);
      }
    }
  }

  lemma {:induction false} NoneAbove(h: seq<Message>, seqNo: nat)
    requires Below(h, seqNo + 1)
    ensures Above(h, seqNo) == []
  {
    if h != [] {
      assert h[|h| - 1] in h;
      NoneAbove(h[..|h| - 1], seqNo);
    }
  }

  /** No message of a segment is numbered after the segment's final. */
  predicate FinalsClose(h: seq<Message>) {
    forall m, m' :: m in h && m' in h && m.transcript.final && m.seqNo < m'.seqNo ==>
      m'.transcript.segment != m.transcript.segment
  }

  function TranscriptsOf(h: seq<Message>): seq<Transcript> {
    seq(|h|, i requires 0 <= i < |h| => h[i].transcript)
  }

  /** What one processor emits, numbered in order, has this property. */
  lemma ProcessorFinalsClose(h: seq<Message>)
    requires Increasing(h) && Lawful(TranscriptsOf(h))
    ensures FinalsClose(h)
  {
    forall m, m' | m in h && m' in h && m.transcript.final && m.seqNo < m'.seqNo
      ensures m'.transcript.segment != m.transcript.segment
    {
      var i :| 0 <= i < |h| && h[i] == m;
      var j :| 0 <= j < |h| && h[j] == m';
      if j < i {
        IncreasingIsPairwise(h, j, i);
      }
      FinalIsLast(TranscriptsOf(h), i, j);
    }
  }

  /** What the client has received: everything up to `seqNo`, then the replay asked for with it, from a
      buffer of the last `most` finals. */
  function ReceivedAfterResume(h: seq<Message>, seqNo: nat, most: nat): seq<Message> {
    UpTo(h, seqNo) + Above(LastOnes(Finals(h), most), seqNo)
  }

  lemma ReplayIsLastMissedFinals(h: seq<Message>, seqNo: nat, most: nat)
    requires Increasing(h)
    ensures ReceivedAfterResume(h, seqNo, most) == UpTo(h, seqNo) + LastOnes(Finals(Above(h, seqNo)), most)
    ensures Increasing(ReceivedAfterResume(h, seqNo, most))
    ensures forall m :: m in ReceivedAfterResume(h, seqNo, most) ==> m in h
  {
    FiltersKeepOrder(h, seqNo);
    AboveLastOnes(Finals(h), seqNo, most);
    FiltersCommute(h, seqNo);
    var missed := Finals(Above(h, seqNo));
    FiltersKeepOrder(Above(h, seqNo), seqNo);
    LastOnesKeepOrder(missed, most);
    forall m: Message
      ensures m in UpTo(h, seqNo) ==> m in h && m.seqNo <= seqNo
      ensures m in missed ==> m in h && m.seqNo > seqNo
    {
      FilterMembers(h, seqNo, m);
      FilterMembers(Above(h, seqNo), seqNo, m);
    }
    IncreasingAppend(UpTo(h, seqNo), LastOnes(missed, most));
  }

  /** If no more finals were missed than the buffer holds, the client ends up with every final. */
  lemma MissedFinalsAreRecovered(h: seq<Message>, seqNo: nat, most: nat, m: Message)
    requires Increasing(h) && FinalsClose(h) && m in Finals(h)
    requires |Finals(Above(h, seqNo))| <= most
    ensures m.transcript in ClientList(ReceivedAfterResume(h, seqNo, most))
  {
    ReplayIsLastMissedFinals(h, seqNo, most);
    FilterMembers(h, seqNo, m);
    FilterMembers(Above(h, seqNo), seqNo, m);
    LastOnesKeepsFew(Finals(Above(h, seqNo)), most);
    var received := ReceivedAfterResume(h, seqNo, most);
    assert m in received;
    var i :| 0 <= i < |received| && received[i] == m;
    forall j | i < j < |received|
      ensures received[j].transcript.segment != m.transcript.segment
    {
      assert received[j] in received;
      IncreasingIsPairwise(received, i, j);
    }
    ClientKeepsLatest(received, i);
  }

  lemma {:induction false} FirstIsDropped(h: seq<Message>, count: nat)
    requires Increasing(h) && |h| > count
    ensures h[0] !in LastOnes(h, count)
  {
    if count > 0 {
      FirstIsDropped(h[..|h| - 1], count - 1);
      IncreasingIsPairwise(h, 0, |h| - 1);
    }
  }

  lemma NumbersAreDistinct(h: seq<Message>, m: Message, m': Message)
    requires Increasing(h) && m in h && m' in h && m.seqNo == m'.seqNo
    ensures m == m'
  {
    var i :| 0 <= i < |h| && h[i] == m;
    var j :| 0 <= j < |h| && h[j] == m';
    if i < j {
      IncreasingIsPairwise(h, i, j);
    } else if j < i {
      IncreasingIsPairwise(h, j, i);
    }
  }

  /** A final that was not received is not shown: nothing else carries its text as its segment's final. */
  lemma UnsentFinalIsNotShown(h: seq<Message>, received: seq<Message>, m: Message)
    requires Increasing(h) && FinalsClose(h) && m in h && m.transcript.final
    requires m !in received && forall m' | m' in received :: m' in h
    ensures m.transcript !in ClientList(received)
  {
    forall m' | m' in received
      ensures m'.transcript != m.transcript
    {
      if m'.seqNo == m.seqNo {
        NumbersAreDistinct(h, m, m');
      }
    }
    if m.transcript in ClientList(received) {
      ClientShowsOnlyReceived(received, m.transcript);
    }
  }

  /** If more were missed, the first of them is lost. */
  lemma FirstMissedFinalIsLost(h: seq<Message>, seqNo: nat, most: nat)
    requires Increasing(h) && FinalsClose(h)
    requires |Finals(Above(h, seqNo))| > most
    ensures Finals(Above(h, seqNo))[0] in Finals(h)
    ensures Finals(Above(h, seqNo))[0].transcript !in ClientList(ReceivedAfterResume(h, seqNo, most))
  {
    var missed := Finals(Above(h, seqNo));
    var first := missed[0];
    ReplayIsLastMissedFinals(h, seqNo, most);
    FilterMembers(Above(h, seqNo), seqNo, first);
    FilterMembers(h, seqNo, first);
    FiltersKeepOrder(h, seqNo);
    FiltersKeepOrder(Above(h, seqNo), seqNo);
    FirstIsDropped(missed, most);
    UnsentFinalIsNotShown(h, ReceivedAfterResume(h, seqNo, most), first);
  }

  /** The main result. The server has sent, in any run, the emissions of one transcript processor; the
      client received them up to `seqNo` and then resumed. It holds every final if and only if the
      server sent at most 1000 finals that it missed. */
  lemma ClientRecoversIff(actions: seq<Action>, seqNo: nat)
    requires Lawful(TranscriptsOf(ActAll(actions).history))
    ensures var r := ActAll(actions);
            var received := UpTo(r.history, seqNo) + Above(r.replayable, seqNo);
            (forall m :: m in Finals(r.history) ==> m.transcript in ClientList(received))
              <==> |Finals(Above(r.history, seqNo))| <= MAX_REPLAYABLE
  {
    BufferIsLastFinals(actions);
    var h := ActAll(actions).history;
    ProcessorFinalsClose(h);
    if |Finals(Above(h, seqNo))| <= MAX_REPLAYABLE {
      forall m | m in Finals(h)
        ensures m.transcript in ClientList(ReceivedAfterResume(h, seqNo, MAX_REPLAYABLE))
      {
        MissedFinalsAreRecovered(h, seqNo, MAX_REPLAYABLE, m);
      }
    } else {
      FirstMissedFinalIsLost(h, seqNo, MAX_REPLAYABLE);
    }
  }
}
