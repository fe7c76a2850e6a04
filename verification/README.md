# A verified model of the live-session pipeline

This project models the live-session pipeline of the desktop meeting assistant and proves what it guarantees:
audio is captured, buffered, framed and sent; the server checks and assembles the frames; transcripts are
emitted, kept for replay and recovered; live suggestions are admitted, bounded, streamed and billed. Three
smaller algorithms and state machines stand beside it: document chunking, the API's rate limiter and workspace
memberships.

Check it with `dafny verify dfyconfig.toml`.

## How it is organised

| files | part of the program |
|---|---|
| `Admission`, `Reservation`, `AdmissionRules`, `RequestLife`, `Spending`, `SpendingCeiling`, `RequestReuse`, `SuggestionServer` | suggestion handlers as interleaved atomic stretches between two awaits; limits and cost, with request ids reused or not |
| `SuggestionStream`, `SuggestionView`, `SourceContext`, `PromptInput`, `Utf16`, `Utf8` | what is sent to a provider and what comes back, in UTF-16 code units and UTF-8 bytes |
| `Sessions`, `SessionRules` | the session manager |
| `Transcripts`, `Recovery` | transcript processor, replay buffer, client list |
| `AudioBuffer`, `DesktopClient`, `FrameAssembler`, `AssemblerHistory`, `ServerConnection`, `ConnectionRules`, `RoundTrip`, `AudioDelivery` | the client prints frames, the server parses them, and what any other frames come to |
| `Capture`, `CaptureContents`, `CaptureDelivery` | the capture controller, its timeline and its audio, up to the server |
| `AudioProcessing`, `NativeCapture`, `NativeOrder`, `NativeFlow`, `NativeGaps`, `MicrophoneStream` | the native capture threads |
| `Sse`, `DocumentWords`, `Chunking`, `DocumentChunks`, `DocumentReading`, `RateLimiter`, `Memberships` | event-stream splitting, document chunking, rate limiting, memberships |
| `Ids`, `Numbers`, `Sequences`, `Wrappers` | what several of them need |

Stateful objects of the program are classes whose methods update fields in place; each method is tied to a
function of the old state, and the guarantees are proved about runs of those functions. The server's suggestion
handlers and the native threads are state machines whose steps are the stretches the program runs atomically.

## Where the code falls short of what one might expect

- Clients that reuse a request id in a session can spend more than its cost limit, because the ledger keeps one
  record a request. `LimitHoldsIff` says for which configurations the limit holds all the same, and
  `DefaultsCanBeOverspent` gives a run with the default limits that exceeds it.
- Completed text and streamed text can differ: a surrogate pair split between two tokens at the end of the
  budget takes back a code unit the client was sent. `ClientTextMatchesContentIff` gives the exact condition.
- More than 1000 finals missed before a resume lose the first of them. `ClientRecoversIff` is exact.
- A hole in a stream's chunk indices silences the stream for the rest of the connection (`HoleSilencesStream`).
- The failed state of the capture controller is left by a late event of the current stream (`FailedEmitsNoChunk`
  names those that leave it).
- An interval as long as a rate-limit window admits up to 2m - 1 requests, not m, and this is reached for every m.
- A pause or resume that is rejected late is not compared with the current generation: asked of a stream that was
  stopped since, it fails the stream that captures now (`LateRejectionFailsNewStream`). `LateEventHasEffectIff` says
  that no other late event has an effect.
- Two hello messages on one socket can both pass the authentication check while the first token is validated. If
  the socket closes in between, its connection id is authenticated a second time. That step alone keeps active
  sessions and mapped connections paired, but leaves the first session waiting to be resumed from a connection that
  belongs to another. When it is then resumed from a new connection, or ended, the other session stays active with
  no connection, and the number of active sessions is too high (`ReusedConnectionIsLost`). `StepKeepsPairedIff` says
  that nothing else breaks the pairing. Admission and spending are proved for such runs too.
- An event stream whose lines end in a carriage return and a line feed, as the standard allows, is taken for a single
  frame (`CutIffLineFeedsMeet`).
- The sum of the two estimates in a report of discarded samples wraps in 32 bits, in a build without overflow
  checks. It takes a single buffer of thirteen years of audio to reach that (`OnlyDropsCanOverflow`,
  `ReportDeclaresNothing`).

## Model

| member | source | states |
|---|---|---|
| `Spending.SpendingStaysWithinLimit` | services/realtime/src/ws-server.ts:897-1056 | Main result. In every interleaving of any number of suggestion handlers, sessions and connections, with pricing set and request ids not reused, the summed cost of all provider calls of a session (finished, still streaming, or with a failed ledger write) is within its cost limit |
| `SpendingCeiling.SpendingStaysUnderCeiling` | services/realtime/src/ws-server.ts:950-988 | With nothing assumed about request ids or pricing: nothing is spent if not one worst case fits the limit, and otherwise at most one worst case plus, for every other request that may be accepted, the dearest call that another may follow |
| `SpendingCeiling.SpendingStaysUnderAcceptances` | services/realtime/src/ws-server.ts:920-988 | In particular at most the request limit times the worst-case request cost |
| `RequestReuse.LimitHoldsIff` | services/realtime/src/ws-server.ts:967-988 | For every priced configuration, exactly when the cost limit holds over every run, with request ids reused or not: when that ceiling is within the limit |
| `RequestReuse.LimitHoldsIffAllWorstCasesFit` | services/realtime/src/configured-server.ts:40-46 | If two worst cases fit the limit, it holds over every run if and only if as many worst cases fit as requests may be accepted |
| `RequestReuse.CeilingIsReached` | services/realtime/src/usage-ledger.ts:54-69 | For every configuration, a run under one request id that spends exactly the ceiling |
| `RequestReuse.ReusedRequestIdSpends` | services/realtime/src/usage-ledger.ts:54-69 | Any number of calls under one id are all let through when one of them leaves room for the worst case, and the ledger shows only the last |
| `RequestReuse.DefaultsCanBeOverspent` | services/realtime/src/usage-ledger.ts:54-69 | An input: with the default limits and two and eight dollars for a million tokens, thirty requests under one id cost 168000 with a limit of 150000, while the ledger shows 5600 |
| `RequestReuse.WriteAddsItsCostIff` | services/realtime/src/usage-ledger.ts:54-69 | A ledger write raises the session total by its cost exactly when that request had no cost on record before |
| `Reservation.AdmissionLimitsHold` | services/realtime/src/ws-server.ts:897-992 | In every reachable state at most one suggestion of a session is in flight, the reservation flag says exactly whether one is, at most the maximum is accepted, and any window holds at most width / interval + 1 acceptances |
| `Reservation.CloseForgetsNothing` | services/realtime/src/ws-server.ts:1121-1130 | In every run, a close forgets no reservation, count or block: its clean-up never runs, because a mapped connection never has an ended session |
| `Reservation.WindowHoldsFewSpacedTimes` | services/realtime/src/ws-server.ts:929-942 | Times at least one interval apart fill a window at most width / interval + 1 times |
| `Spending.StepKeepsAccounted` | services/realtime/src/ws-server.ts:495-526 | What every atomic step keeps: what was spent is on the ledger except the running call of the session, for which worst-case room was checked; or the session is blocked |
| `Spending.WriteFailureKeepsAccounted` | services/realtime/src/ws-server.ts:514-525 | A failed ledger write, applied to the store or not, blocks the session, so the unaccounted call cannot be followed by another |
| `AdmissionRules.RequestStartsHandlerIff` | services/realtime/src/ws-server.ts:886-948 | In every reachable state a request starts a handler if and only if its connection leads to an active session, its number is higher than the last one taken, the policy allows it, the session is not blocked, none of its handlers runs, and both limits leave room after the times accepted so far. A refused request moves only the client number, one that is not taken nothing |
| `AdmissionRules.ReplyTellsWhy` | services/realtime/src/ws-server.ts:887-941 | What the client is told, in terms of what happened: each reason exactly when it holds and none before it does; a request repeated after the advised wait passes the interval check, and not a millisecond earlier |
| `AdmissionRules.BlockedIffFailed` | services/realtime/src/ws-server.ts:495-526 | A session is blocked if and only if a lookup or a ledger write of it has ever failed |
| `AdmissionRules.LetThroughIffAffordable` | services/realtime/src/ws-server.ts:967-988 | In every reachable state a request is let through if and only if the ledger as it stands then leaves room for the worst case: the answer of the lookup is never out of date |
| `RequestLife.RequestCompletes` | services/realtime/src/ws-server.ts:949-1056 | A request from its lookup to its end: accepted and counted, content equal to all the provider said, exact cost on the ledger, session free again, nothing else changed |
| `RequestLife.FailedLookupBlocks` | services/realtime/src/ws-server.ts:957-966 | A failed lookup blocks the session, counts and spends nothing, and gives the reservation back |
| `RequestLife.UnaffordableIsRefused` | services/realtime/src/ws-server.ts:967-981 | A request without room on the ledger changes nothing but its own end |
| `RequestLife.TooMuchInputIsRecorded` | services/ai-orchestrator/src/index.ts:345-352 | Input over its budget goes to the ledger without a provider call |
| `RequestLife.IsNotRecorded` | services/realtime/src/ws-server.ts:514-525 | A failed write ends the request and blocks the session, applied or not |
| `RequestLife.GoneSessionRecordsNothing` | services/realtime/src/ws-server.ts:500-503 | A session that is gone by then has nothing recorded |
| `Admission.UsageCostIsMonotone` | services/realtime/src/configured-server.ts:40-46 | A usage within the token limits costs at most the worst-case request cost computed at start-up |
| `Admission.UsageCostIsRoundedUp` | services/realtime/src/usage-ledger.ts:173-190 | A priced usage costs the least whole number of micro-dollars that covers input and output, each at its own price |
| `Admission.WriteMovesTotal` | services/realtime/src/usage-ledger.ts:54-83 | A write adds its cost to the session total and takes away what the same request had recorded |
| `SuggestionServer.LiveSuggestions.HandleRequest` | services/realtime/src/ws-server.ts:886-948 | The synchronous stretch of a request whose number was accepted: policy, block, in-flight, count and interval checks, then the reservation |
| `SuggestionServer.LiveSuggestions.SessionCost` | services/realtime/src/usage-ledger.ts:72-83 | The loop over the ledger adds up exactly the records of the session |
| `SuggestionServer.LiveSuggestions.AnswerLookup` | services/realtime/src/ws-server.ts:950-956 | The cost lookup answers with the session total of that moment |
| `SuggestionServer.LiveSuggestions.FailLookup` | services/realtime/src/ws-server.ts:957-966 | A failed lookup blocks the session |
| `SuggestionServer.LiveSuggestions.DecideBudget` | services/realtime/src/ws-server.ts:967-988 | Refused when total plus worst case exceeds the limit, else accepted and counted from the snapshot taken at the request |
| `SuggestionServer.LiveSuggestions.StartProvider` | services/ai-orchestrator/src/index.ts:345-370 | Input over its budget is rejected before the provider is called |
| `SuggestionServer.LiveSuggestions.ReceiveToken` | services/ai-orchestrator/src/index.ts:371-389 | One provider token is cut to the output limits |
| `SuggestionServer.LiveSuggestions.StopStream` | services/ai-orchestrator/src/index.ts:393-429 | Completed, failed or incomplete streams all have a usage to record |
| `SuggestionServer.LiveSuggestions.WriteUsage` | services/realtime/src/ws-server.ts:505-513 | A write that succeeds puts the cost on the ledger |
| `SuggestionServer.LiveSuggestions.FailWrite` | services/realtime/src/ws-server.ts:514-525 | A write that fails blocks the session |
| `SuggestionServer.LiveSuggestions.ReleaseReservation` | services/realtime/src/ws-server.ts:1048-1056 | The finally block gives the reservation back and touches nothing else of the guard |
| `SuggestionServer.LiveSuggestions.CloseConnection` | services/realtime/src/ws-server.ts:1121-1131 | Close: clean-up of an ended session, then removal of the connection |
| `SuggestionStream.StreamProvider` | services/ai-orchestrator/src/index.ts:353-429 | The loop over provider events: deltas are numbered 0, 1, 2, ..., are never empty, and content and billed output stay within the byte and character limits, for any provider |
| `SuggestionStream.TruncateToTokenBudget` | services/ai-orchestrator/src/index.ts:893-912 | The loop computes the truncation whose meaning `TruncatedIsLongest` gives |
| `SuggestionStream.OutputStaysWithinLimits` | services/ai-orchestrator/src/index.ts:371-377 | Whatever the provider sends, the content is within both limits |
| `SuggestionStream.EverythingSaidIsKeptIff` | services/ai-orchestrator/src/index.ts:371-391 | For any provider events the content is everything the provider said if and only if that fits both limits, and then every token is sent on as it is |
| `SuggestionStream.AcceptIsLongestCut` | services/ai-orchestrator/src/index.ts:372-377 | After a token the content is the longest run of whole code points of content and token within the byte budget, cut to the character limit |
| `SuggestionStream.AcceptTakesAllIff` | services/ai-orchestrator/src/index.ts:372-377 | A token is taken whole if and only if content and token fit both limits |
| `SuggestionStream.CompletesIff` | services/ai-orchestrator/src/index.ts:393-429 | The stream is complete if and only if the provider completed it; the model is the one named last |
| `SuggestionStream.AcceptExtendsUnlessPairSplit` | services/ai-orchestrator/src/index.ts:372-377 | A token extends the content if and only if it does not complete a surrogate pair that no longer fits; otherwise exactly the last code unit is taken back |
| `SuggestionStream.DeltasAccountForContent` | services/ai-orchestrator/src/index.ts:376-387 | The code units sent are those of the content plus one for every pair that was split |
| `SuggestionStream.ClientTextMatchesContentIff` | services/ai-orchestrator/src/index.ts:376-387 | The concatenated deltas equal the completed content if and only if no pair was split |
| `SuggestionStream.BasicPlaneNeverSplits` | services/ai-orchestrator/src/index.ts:372-377 | Tokens without surrogates never split a pair |
| `SuggestionStream.SplitPairShrinksContent` | services/ai-orchestrator/src/index.ts:372-377 | Concrete input on which the content shrinks while the client keeps what it was sent |
| `SuggestionView.RequestsDoNotMix` | apps/desktop/src/protocol/desktopRealtimeSession.ts:447-498 | However the messages of different requests interleave, the text shown for a request is determined by its own messages |
| `SuggestionView.EntryIsOwn` | apps/desktop/src/protocol/desktopRealtimeSession.ts:447-498 | The whole entry of a request, with id, kind, sources and details, is made by its own messages, however they interleave with others |
| `SuggestionView.OthersStay` | apps/desktop/src/protocol/desktopRealtimeSession.ts:447-498 | A message leaves the entries of other requests alone, in their order, and puts its own last |
| `SuggestionView.ShownTextIsContentIff` | apps/desktop/src/protocol/desktopRealtimeSession.ts:447-471 | Just before completion the client shows the concatenated deltas, which are the completed content if and only if no pair was split |
| `SuggestionView.CompletionShowsContent` | apps/desktop/src/protocol/desktopRealtimeSession.ts:473-498 | After completion the client shows the completed content, its sources and its other details |
| `SuggestionView.SuggestionList.RequestLiveSuggestion` | apps/desktop/src/protocol/desktopRealtimeSession.ts:231-245 | A request adds an empty streaming suggestion |
| `SuggestionView.SuggestionList.AppendSuggestionToken` | apps/desktop/src/protocol/desktopRealtimeSession.ts:447-471 | A token replaces the entries of its request by one extended entry, which keeps its kind, sources and other details |
| `SuggestionView.SuggestionList.CompleteSuggestion` | apps/desktop/src/protocol/desktopRealtimeSession.ts:473-498 | Completion replaces the entries of its request by the completed one, with its sources and other details |
| `Utf16.TruncatedIsLongest` | services/ai-orchestrator/src/index.ts:893-912 | The cut falls between code points, fits, and a code-point boundary fits exactly when it is not past the cut |
| `Utf8.ByteLengthIsEncodedLength` | services/ai-orchestrator/src/index.ts:889-891 | The byte length that budgets count is the length of the UTF-8 encoding (section 3 of RFC 3629), with U+FFFD for a lone surrogate |
| `Utf8.EncodedReadsBack` | services/ai-orchestrator/src/index.ts:889-891 | Round trip: encoded code points are decoded again |
| `Utf16.ByteLengthAppend` | services/ai-orchestrator/src/index.ts:889-891 | UTF-8 length (section 3 of RFC 3629): concatenation saves two bytes exactly when it completes a surrogate pair |
| `Utf16.PrefixTakesNoMoreBytes` | services/ai-orchestrator/src/index.ts:889-891 | A prefix, even one that cuts a pair, never takes more bytes |
| `SourceContext.AssembleUntrustedSourceContext` | services/ai-orchestrator/src/index.ts:840-887 | The context and the cited chunks are those of one packing of the chunks, each with its header line and trimmed text, behind the warning |
| `SourceContext.SourceContextFitsBudget` | services/ai-orchestrator/src/index.ts:840-887 | The assembled context never exceeds its byte budget |
| `SourceContext.ContextReads` | services/ai-orchestrator/src/index.ts:846-882 | The text of the context: the warning, and then for every cited chunk its document id, chunk id and title in their places and the part of its own text that was kept |
| `SourceContext.EachChunkGetsWhatIsLeft` | services/ai-orchestrator/src/index.ts:858-882 | Every chunk in turn is cited with the longest run of whole code points that the rest of the budget holds behind its header, and left out if and only if not even one fits |
| `SourceContext.CitedChunksKeepOrder` | services/ai-orchestrator/src/index.ts:858-882 | The cited chunks are a subsequence of the input |
| `SourceContext.CitedChunksAreEmbedded` | services/ai-orchestrator/src/index.ts:871-880 | Exactly the embedded chunks are cited, each behind its own header line with a nonempty prefix of its trimmed text |
| `SourceContext.EverythingFitsNothingIsLost` | services/ai-orchestrator/src/index.ts:858-882 | When everything fits, every chunk that is not blank is cited with its whole text |
| `SourceContext.OnlyLastEntryIsCut` | services/ai-orchestrator/src/index.ts:874-881 | Only the last cited chunk can be cut |
| `PromptInput.AssembleRollingTranscriptContext` | services/ai-orchestrator/src/index.ts:238-268 | The loop takes lines from the newest back and joins them; the context never exceeds its character limit |
| `PromptInput.TakenIsLongestSuffix` | services/ai-orchestrator/src/index.ts:250-267 | When the newest line fits, the longest run of newest lines within the limit is kept: a suffix fits if and only if it is not longer. Otherwise the newest line alone is kept, cut to the limit |
| `PromptInput.ContextShowsNewest` | services/ai-orchestrator/src/index.ts:238-268 | The assembled context for any segments: of the final ones with a text the newest, no more than the maximum, one labelled line each, as many as fit; none left out ends later than one that is kept |
| `PromptInput.NewestSegmentsAreKept` | services/ai-orchestrator/src/index.ts:245-248 | Of the sorted segments exactly the last are kept, as many as the maximum says |
| `PromptInput.FinalsAreThoseThatSpeak` | services/ai-orchestrator/src/index.ts:245-246 | The segments considered are exactly the final ones with a text, each as often as it came, in arrival order |
| `PromptInput.ProviderInputReads` | services/ai-orchestrator/src/index.ts:822-838 | The text sent to the provider line by line: every piece under its own title, or its placeholder |
| `PromptInput.SortByEndIsStable` | services/ai-orchestrator/src/index.ts:245-248 | Segments come in end-time order, and those of one end time in the order given |
| `PromptInput.SectionsBoundInput` | services/ai-orchestrator/src/index.ts:945-980 | Measured input is bounded by the section budgets, or by the placeholders that stand in for empty sections, so a configuration whose sections leave room never has a request rejected |
| `Sessions.RunKeepsInvariant` | services/realtime/src/session-manager.ts:31-177 | Over all runs with fresh ids, the connection map and the active sessions are inverse bijections |
| `Sessions.ActiveSessionsAreMappedConnections` | services/realtime/src/session-manager.ts:179-185 | While connections and active sessions are paired, the number of active sessions is the number of mapped connections |
| `Sessions.CountsMatchIffPaired` | services/realtime/src/session-manager.ts:179-185 | As long as mapped connections are active, these two numbers agree if and only if connections and active sessions are paired |
| `Sessions.StepKeepsPairedIff` | services/realtime/src/session-manager.ts:31-177 | With fresh session ids alone, a step keeps them paired if and only if it does not end a waiting session whose connection id was authenticated again, nor resume it elsewhere; authenticating, traffic and removal always keep them paired |
| `Sessions.CollisionFreeRunStaysPaired` | services/realtime/src/session-manager.ts:31-177 | So they stay paired, and the numbers agree, over every run without such a step, however often connection ids are authenticated again |
| `Sessions.ReusedConnectionIsPaired` | services/realtime/src/session-manager.ts:168-177 | A run that authenticates a connection id a second time: still paired, with the first session waiting |
| `Sessions.ReusedConnectionIsLost` | services/realtime/src/session-manager.ts:140-150 | That run followed by the end of the waiting session, or by its resume from another connection: a session stays active and counted with no connection that leads to it |
| `Sessions.StepKeepsMapped` | services/realtime/src/session-manager.ts:31-177 | With fresh session ids alone, even when a connection id is authenticated again, a mapped connection has an active session of its own |
| `Sessions.AuthenticateKeepsInvariantIff` | services/realtime/src/session-manager.ts:31-71 | Authenticating keeps the invariant (paired, and no session waits for a mapped connection) exactly when no disconnected session still waits for that connection id |
| `Sessions.ResumeKeepsInvariantIff` | services/realtime/src/session-manager.ts:122-166 | Resuming keeps it exactly when no other disconnected session waits for the new connection id; always when that id is mapped |
| `Sessions.EndedStaysEnded` | services/realtime/src/session-manager.ts:98-139 | An ended session stays ended over any run |
| `Sessions.GoneStaysGone` | services/realtime/src/session-manager.ts:140-143 | A dropped temporary session never comes back |
| `Sessions.OwnerNeverChanges` | services/realtime/src/session-manager.ts:130-150 | Resumes never change the user or the workspace of a session |
| `Sessions.ClosingOldConnectionChangesNothing` | services/realtime/src/session-manager.ts:140-177 | Once a session was resumed elsewhere, closing its old connection at any later time changes nothing |
| `Sessions.AcceptedSeqsIncrease` | services/realtime/src/session-manager.ts:83-89 | Across authentication, traffic and resumes, accepted client numbers strictly increase |
| `Sessions.ServedSeqsIncrease` | services/realtime/src/session-manager.ts:91-96 | Across the same runs, the server numbers handed out strictly increase |
| `SessionRules.NewWorldHasMembersOnly` | services/realtime/src/session-manager.ts:31-166 | Over every run from the start, whatever is attempted with whatever ids, every session belongs to a member of its workspace |
| `SessionRules.AuthenticationSucceedsIff` | services/realtime/src/session-manager.ts:37-71 | An attempt makes a session if and only if the user is a member of the workspace and the connection leads to no session yet; then it is active with the number given, and otherwise nothing changes |
| `SessionRules.ResumeSucceedsIff` | services/realtime/src/session-manager.ts:122-166 | A resume binds the session to the new connection if and only if it is open, the user is a member and its owner, and the old connection is named rightly; all that changes then, session by session and connection by connection |
| `SessionRules.EndedIffEnded` | services/realtime/src/session-manager.ts:98-120 | Over every run a session is ended if and only if the run ended it at a step at which it was known |
| `SessionRules.SessionLeavesIff` | services/realtime/src/session-manager.ts:140-143 | A session leaves the manager if and only if a resume onto its connection drops it |
| `SessionRules.NumberIsTakenIff` | services/realtime/src/session-manager.ts:83-89 | In every reachable state a client number is taken if and only if the session is active and the number is higher than every number it was shown |
| `SessionRules.ClientSeqIsHighest` | services/realtime/src/session-manager.ts:83-89 | Over every run the client number of a session is the highest it was shown, while active or on a resume |
| `SessionRules.ServerSeqCounts` | services/realtime/src/session-manager.ts:91-96 | Over every run the server number counts the messages, from the start or from the resume that raised it |
| `SessionRules.OtherSessionsAreUntouched` | services/realtime/src/session-manager.ts:31-177 | A step about one session changes no other |
| `SessionRules.ClosingDisconnects` | services/realtime/src/session-manager.ts:168-177 | A close disconnects the session of the connection and only forgets where the connection led |
| `SessionRules.EndingUnmaps` | services/realtime/src/session-manager.ts:98-120 | An end marks the session and unmaps its connection, and changes nothing else |
| `Sessions.SessionManager.Authenticate` | services/realtime/src/session-manager.ts:31-71 | When it is accepted, and the new maps |
| `Sessions.SessionManager.AdvanceClientSeq` | services/realtime/src/session-manager.ts:83-89 | When a number is accepted, and the new maps |
| `Sessions.SessionManager.NextServerSeq` | services/realtime/src/session-manager.ts:91-96 | The number handed out, and the new maps |
| `Sessions.SessionManager.EndSession` | services/realtime/src/session-manager.ts:98-120 | When it is accepted, and the new maps |
| `Sessions.SessionManager.ResumeSession` | services/realtime/src/session-manager.ts:122-166 | When it is accepted, and the new maps, with the temporary session dropped |
| `Sessions.SessionManager.RemoveConnection` | services/realtime/src/session-manager.ts:168-177 | The new maps |
| `Sessions.SessionManager.ActiveSessionCount` | services/realtime/src/session-manager.ts:179-185 | While connections and active sessions are paired, the loop counts as many active sessions as there are mapped connections |
| `Transcripts.EmitsExactlyWhatMayFollow` | services/realtime/src/transcript-processor.ts:47-80 | Over any run a transcript is emitted if and only if the processor is open, its segment has no final yet, and it continues a segment or starts no earlier than everything emitted |
| `Transcripts.SuppressionTellsWhy` | services/realtime/src/transcript-processor.ts:47-80 | The reason given for a suppression, over any run, in terms of what was emitted before |
| `Transcripts.NothingAfterClose` | services/realtime/src/transcript-processor.ts:51-53 | Nothing is emitted after close |
| `Transcripts.FinalIsLast` | services/realtime/src/transcript-processor.ts:55-61 | Nothing of a segment, partial or final, follows its final |
| `Transcripts.LateStartContinues` | services/realtime/src/transcript-processor.ts:63-73 | The first emission of a segment starts no earlier than every start emitted before it |
| `Transcripts.TranscriptProcessor.Process` | services/realtime/src/transcript-processor.ts:47-80 | The verdict, with its reason, and the new state |
| `Transcripts.TranscriptProcessor.Close` | services/realtime/src/transcript-processor.ts:82-84 | Closing changes nothing else |
| `Recovery.ClientRecoversIff` | services/realtime/src/ws-server.ts:281-320 | Main result: a client that received the messages up to some number and then the replay holds every final of one transcript processor if and only if it missed at most 1000 finals |
| `Recovery.BufferIsLastFinals` | services/realtime/src/ws-server.ts:292-302 | In every run the replay buffer is exactly the last (at most 1000) finals of the whole history, whose numbers strictly increase, and the suggestion context exactly the last (at most 100) |
| `Recovery.NumbersArePlaces` | services/realtime/src/session-manager.ts:91-96 | Messages of all kinds are numbered 1, 2, 3, ... without a hole, unless a client claims to have seen more than was sent, and the history has every transcript under its place |
| `Recovery.ResumeRaisesNumber` | services/realtime/src/session-manager.ts:150-151 | A claim beyond that moves the numbering up to it |
| `Recovery.MissedFinalsAreRecovered` | services/realtime/src/ws-server.ts:394-401 | If at most as many finals were missed as the buffer holds, the client ends up with every final |
| `Recovery.FirstMissedFinalIsLost` | services/realtime/src/ws-server.ts:296-301 | If more were missed, the first of them is lost to the client |
| `Recovery.AboveLastOnes` | services/realtime/src/ws-server.ts:394-401 | In an increasing history, cutting to the last ones and cutting at a number commute |
| `Recovery.ClientKeepsLatest` | apps/desktop/src/protocol/desktopRealtimeSession.ts:424-445 | The client shows for every segment the last transcript it received |
| `Recovery.ClientListIsLatest` | apps/desktop/src/protocol/desktopRealtimeSession.ts:424-445 | The list of the client, exactly: of each segment the last transcript received, in order of arrival |
| `Recovery.ClientShowsOnlyReceived` | apps/desktop/src/protocol/desktopRealtimeSession.ts:424-445 | The client shows nothing it did not receive |
| `Recovery.TranscriptRelay.SendTranscript` | services/realtime/src/ws-server.ts:281-320 | Numbering, and pushing to and cutting the replay buffer and the suggestion context |
| `Recovery.TranscriptRelay.ReplayTranscripts` | services/realtime/src/ws-server.ts:394-401 | Replays exactly the buffered messages above the given number |
| `Recovery.TranscriptView.UpsertTranscript` | apps/desktop/src/protocol/desktopRealtimeSession.ts:424-445 | Replaces the entries of the segment, and takes the client out of the reconnecting status |
| `RoundTrip.RoundTripIff` | services/realtime/src/ws-server.ts:808-839 | For any schedule of enqueues, gaps, suggestion requests and reports on a first connection, and any traffic elsewhere on the server, the server reports no error if and only if the flushed chunks are continuous, and exactly then hands on what was flushed, in order |
| `AudioDelivery.FrameRoundTrip` | apps/desktop/src/protocol/desktopRealtimeSession.ts:248-260 | If the offered chunks are continuous and each fits the buffer alone, the server reports no error, hands on exactly what was flushed, and that plus what the client still holds is, as a multiset of intervals, what was offered |
| `AudioDelivery.CutRoundTrip` | apps/desktop/src/protocol/desktopRealtimeSession.ts:402-417 | If only some first part of the frames arrives, still no error, and a first part of the audio is heard |
| `AudioDelivery.FlushesAreContiguous` | apps/desktop/src/protocol/desktopRealtimeSession.ts:404-417 | Chunks are dropped only before the first flush or after the last, so the flushed chunks are a contiguous part of the offered ones |
| `AudioDelivery.StreamingHoldsNothingBack` | apps/desktop/src/protocol/desktopRealtimeSession.ts:248-260 | While the client streams, nothing it is given stays behind |
| `RoundTrip.ClientPrints` | apps/desktop/src/protocol/realtimeClient.ts:64-90 | The client's frames are the flushed items and requests numbered 1, 2, 3, ... without a hole |
| `RoundTrip.ServerParses` | services/realtime/src/frame-assembler.ts:49-115 | The server reads printed messages back: what it hands on, whether it reported an error, and the sequence number and chunk indices it then expects |
| `FrameAssembler.HeardUnchangedIff` | services/realtime/src/frame-assembler.ts:60-63 | Items are all accepted, and so heard unchanged and in order, exactly when no stream skips or repeats an index and every chunk has its declared length |
| `FrameAssembler.HoleSilencesStream` | services/realtime/src/frame-assembler.ts:60-63 | After a hole no later chunk of the stream is accepted on the connection |
| `AssemblerHistory.AnswersAreDue` | services/realtime/src/frame-assembler.ts:45-116 | For any messages and binary frames in any order, each answer is determined by the answers before: when metadata is accepted, when a chunk is heard, and which error every other input gets |
| `AssemblerHistory.HeardIsContinuous` | services/realtime/src/frame-assembler.ts:45-116 | Nothing but continuous audio is ever heard, whatever is sent |
| `FrameAssembler.RealtimeFrameAssembler.HandleJsonMessage` | services/realtime/src/frame-assembler.ts:49-92 | The event and the new state, for every message and state |
| `FrameAssembler.RealtimeFrameAssembler.HandleBinaryFrame` | services/realtime/src/frame-assembler.ts:94-115 | The event and the new state; indices advance only on an accepted chunk |
| `ServerConnection.ElsewhereIsInvisible` | services/realtime/src/ws-server.ts:808-839 | Whatever the rest of the server does between frames, a connection hears and reports the same, as long as its own session is not ended, resumed or renamed |
| `ConnectionRules.ObjectionIsReported` | services/realtime/src/ws-server.ts:593-839 | A message that is objected to adds the first objection as an error, is not heard, and changes nothing else but, with a wrong workspace, its number |
| `ConnectionRules.MessageIsTaken` | services/realtime/src/ws-server.ts:593-839 | A message without objection makes the session, or moves its number and is handed to the assembler |
| `ConnectionRules.BytesAreHeardIff` | services/realtime/src/ws-server.ts:596-615 | Bytes are heard if and only if the connection is authenticated, has a session, and the assembler makes a chunk of them |
| `ConnectionRules.NothingIsHeardOfStrangers` | services/realtime/src/ws-server.ts:593-745 | Whatever frames a connection sends, nothing is heard before it is authenticated, and only a member of the workspace is |
| `ConnectionRules.TakenNumbersIncrease` | services/realtime/src/ws-server.ts:751-839 | Whatever frames it sends, messages are taken with strictly increasing numbers, so none twice |
| `ConnectionRules.NewConnectionHearsContinuously` | services/realtime/src/ws-server.ts:593-839 | Whatever frames it sends, the audio handed on is continuous |
| `ServerConnection.RealtimeConnection.OnTextFrame` | services/realtime/src/ws-server.ts:808-839 | Dispatch order of a text frame of an authenticated connection: session id, sequence, workspace, assembler; before that, authentication and session lookup |
| `ServerConnection.RealtimeConnection.OnBinaryFrame` | services/realtime/src/ws-server.ts:596-615 | Dispatch order of a binary frame |
| `DesktopClient.DesktopRealtimeSessionClient.SendJson` | apps/desktop/src/protocol/desktopRealtimeSession.ts:419-422 | One message takes one sequence number and is handed to the transport |
| `DesktopClient.DesktopRealtimeSessionClient.HandleOpen` | apps/desktop/src/protocol/desktopRealtimeSession.ts:271-280 | Sends the hello |
| `DesktopClient.DesktopRealtimeSessionClient.HandleAuthAccepted` | apps/desktop/src/protocol/desktopRealtimeSession.ts:371-392 | New buffer limits, session start, streaming |
| `DesktopClient.DesktopRealtimeSessionClient.SendAudioChunk` | apps/desktop/src/protocol/desktopRealtimeSession.ts:248-253 | Enqueues, and flushes only while streaming |
| `DesktopClient.DesktopRealtimeSessionClient.SendAudioGap` | apps/desktop/src/protocol/desktopRealtimeSession.ts:255-260 | Enqueues a gap, and flushes only while streaming |
| `DesktopClient.DesktopRealtimeSessionClient.FlushBufferedAudio` | apps/desktop/src/protocol/desktopRealtimeSession.ts:402-417 | Sends all gaps, then every chunk as metadata and bytes, and leaves the buffer empty |
| `DesktopClient.DesktopRealtimeSessionClient.RequestLiveSuggestion` | apps/desktop/src/protocol/desktopRealtimeSession.ts:212-246 | Needs a session, and sends one message |
| `AudioBuffer.BufferConservesIntervals` | apps/desktop/src/protocol/realtimeRecovery.ts:33-95 | Over any enqueues, limit changes and drains, the multiset of intervals that went in is what came out plus what is pending, and both limits hold |
| `AudioBuffer.TrimmingDropsFewest` | apps/desktop/src/protocol/realtimeRecovery.ts:70-87 | Trimming drops the oldest chunks, as few as the limits allow, and declares one gap for each |
| `AudioBuffer.DroppedGapsDeclare` | apps/desktop/src/protocol/realtimeRecovery.ts:70-87 | The gap declared for a dropped chunk has its stretch of the timeline, one chunk, and a full buffer as the reason |
| `AudioBuffer.InMemoryAudioBuffer.SetLimits` | apps/desktop/src/protocol/realtimeRecovery.ts:39-42 | New limits, then trimming |
| `AudioBuffer.InMemoryAudioBuffer.Enqueue` | apps/desktop/src/protocol/realtimeRecovery.ts:44-47 | Appends, then trims |
| `AudioBuffer.InMemoryAudioBuffer.EnqueueGap` | apps/desktop/src/protocol/realtimeRecovery.ts:49-51 | Appends a gap |
| `AudioBuffer.InMemoryAudioBuffer.DrainChunks` | apps/desktop/src/protocol/realtimeRecovery.ts:53-55 | Returns and removes the chunks |
| `AudioBuffer.InMemoryAudioBuffer.DrainGaps` | apps/desktop/src/protocol/realtimeRecovery.ts:57-59 | Returns and removes the gaps |
| `AudioBuffer.InMemoryAudioBuffer.TrimToLimits` | apps/desktop/src/protocol/realtimeRecovery.ts:70-87 | The loop reaches the trimmed buffer |
| `CaptureDelivery.EveryMillisecondIsAccountedFor` | apps/desktop/src/protocol/microphoneCaptureController.ts:125-222 | End to end: the controller's chunks and gaps, sent on a first connection on any schedule, are accepted without error, and every millisecond of the timeline is covered exactly once by what the server handed on and what the client still holds |
| `CaptureDelivery.NativeAudioIsHeard` | apps/desktop/src/protocol/microphoneCaptureController.ts:125-192 | End to end: the audio the server hands on is a contiguous part of the native chunks that arrived, byte for byte and in order |
| `CaptureContents.EmittedIsWhatHappened` | apps/desktop/src/protocol/microphoneCaptureController.ts:71-222 | Over any events: state and generation are those of a reference life of the stream, and the emitted items are exactly, in order, the native chunks that arrived while it was starting or capturing and one gap for each loss, failure and timed pause, with reason, chunks and length |
| `CaptureContents.AudioIsWhatArrived` | apps/desktop/src/protocol/microphoneCaptureController.ts:130-134 | Bytes and durations of the emitted chunks are exactly those of the native chunks of the current generation that arrived while starting or capturing |
| `Capture.EmittedTilesTimeline` | apps/desktop/src/protocol/microphoneCaptureController.ts:125-222 | After any events, the emitted chunks and gaps tile the timeline from 0 to the stream time with no hole or overlap, and chunks are numbered 0, 1, 2, ... |
| `Capture.PauseBecomesGap` | apps/desktop/src/protocol/microphoneCaptureController.ts:147-166 | However much the stream reports while it is paused, no chunk is emitted and the resume that ends the pause leaves one gap exactly as long as the pause, of the fewest chunks that cover it |
| `Capture.OnlyStartLeavesStopped` | apps/desktop/src/protocol/microphoneCaptureController.ts:71-128 | In the stopped state nothing but a start has any effect, over any events |
| `Capture.FailedEmitsNoChunk` | apps/desktop/src/protocol/microphoneCaptureController.ts:130-166 | The failed state is not final: until one of the events that leave it (a start, a stop, a late start, a capturing note of the current stream), over any events, it stays and no chunk is emitted |
| `Capture.LateEventHasEffectIff` | apps/desktop/src/protocol/microphoneCaptureController.ts:97-128 | An event of an older generation has an effect if and only if it is a rejected pause or resume and the controller is neither failed nor stopped |
| `Capture.StaleEventsFailOnceIff` | apps/desktop/src/protocol/microphoneCaptureController.ts:97-128 | Any number of events of older generations, in any order, amount to one failure if a pause or resume among them is rejected, and to nothing otherwise; they change nothing if and only if none is rejected or the controller is failed or stopped |
| `Capture.StoppedStreamIsSilencedIff` | apps/desktop/src/protocol/microphoneCaptureController.ts:97-128 | After a stop, whatever happened since, a late event of the stopped stream has no effect if and only if it is no rejected pause or resume or the controller is failed or stopped |
| `Capture.LateRejectionFailsNewStream` | apps/desktop/src/protocol/microphoneCaptureController.ts:97-111 | An input: the pause of a stopped stream is rejected after the next stream captures, which then fails with a gap |
| `Capture.ContinuousMicrophoneCaptureController.StartCapture` | apps/desktop/src/protocol/microphoneCaptureController.ts:71-81 | New generation, starting |
| `Capture.ContinuousMicrophoneCaptureController.HandleStartResolved` | apps/desktop/src/protocol/microphoneCaptureController.ts:82-89 | Capturing, unless stale or stopped |
| `Capture.ContinuousMicrophoneCaptureController.HandleStartRejected` | apps/desktop/src/protocol/microphoneCaptureController.ts:90-94 | Fails, unless stale or stopped |
| `Capture.ContinuousMicrophoneCaptureController.HandlePauseOrResumeRejected` | apps/desktop/src/protocol/microphoneCaptureController.ts:97-111 | Fails, whichever stream the pause or resume was asked of |
| `Capture.ContinuousMicrophoneCaptureController.StopCapture` | apps/desktop/src/protocol/microphoneCaptureController.ts:113-123 | New generation, stopped |
| `Capture.ContinuousMicrophoneCaptureController.HandleNativeEvent` | apps/desktop/src/protocol/microphoneCaptureController.ts:125-168 | The whole new state for every native event |
| `Capture.ContinuousMicrophoneCaptureController.SendChunk` | apps/desktop/src/protocol/microphoneCaptureController.ts:170-192 | Emits a chunk at the stream time and moves it on |
| `Capture.ContinuousMicrophoneCaptureController.EmitGap` | apps/desktop/src/protocol/microphoneCaptureController.ts:194-210 | Emits a gap at the stream time and moves it on |
| `Capture.ContinuousMicrophoneCaptureController.Fail` | apps/desktop/src/protocol/microphoneCaptureController.ts:212-222 | A one-chunk gap and the failed state, unless failed or stopped |
| `NativeCapture.EverySampleIsAccountedFor` | apps/desktop/src-tauri/src/microphone_stream.rs:376-461 | In every interleaving of callback, worker, pause, resume and stop, captured samples equal those sent, held, queued, in flight, dropped and discarded; samples are lost only after the stream stopped or its listener went away; the queue and the held samples stay bounded |
| `NativeOrder.SentSamplesAreCapturedInOrder` | apps/desktop/src-tauri/src/microphone_stream.rs:424-450 | In every interleaving, the chunks sent decode to captured samples in the order in which they were captured: none is changed, repeated or moved |
| `NativeFlow.PipelineIsWholeIff` | apps/desktop/src-tauri/src/microphone_stream.rs:314-461 | In every interleaving, what was sent with what is on its way is exactly what was captured, in order, if and only if no sample was dropped, discarded or lost |
| `NativeFlow.StreamLeftAloneIsWhole` | apps/desktop/src-tauri/src/microphone_stream.rs:314-461 | In every interleaving without pause, stop, failure or full queue, nothing goes missing |
| `NativeFlow.CapturedAudioGetsOut` | apps/desktop/src-tauri/src/microphone_stream.rs:376-461 | From any point of such a run the worker alone can send everything captured, but for less than one chunk |
| `NativeFlow.CapturesIff` | apps/desktop/src-tauri/src/microphone_stream.rs:353-363 | Input is captured if and only if the stream is neither paused nor stopped when the callback looks |
| `NativeFlow.DropsIff` | apps/desktop/src-tauri/src/microphone_stream.rs:314-334 | Samples are dropped if and only if they find the queue of a running worker full |
| `NativeFlow.ProcessesIff` | apps/desktop/src-tauri/src/microphone_stream.rs:426-451 | Received samples are processed if their epoch is the current one, and discarded otherwise |
| `NativeFlow.PauseCompletes` | apps/desktop/src-tauri/src/microphone_stream.rs:217-242 | A pause from end to end: paused, next epoch, held samples counted as discarded, note queued, nothing else changed |
| `NativeFlow.ResumeCompletes` | apps/desktop/src-tauri/src/microphone_stream.rs:244-262 | A resume from end to end: note queued, then no longer paused |
| `NativeFlow.FailedIsNotResumed` | apps/desktop/src-tauri/src/microphone_stream.rs:253-255 | A stream that failed is not resumed |
| `NativeFlow.StatesAreToldInOrder` | apps/desktop/src-tauri/src/microphone_stream.rs:452-456 | In every interleaving the states told, with those still queued, are exactly those the commands left, in order |
| `NativeFlow.FailureIsToldOnce` | apps/desktop/src-tauri/src/microphone_stream.rs:415-422 | In every interleaving a failure is told at most once, only when there was one, and the stream stops |
| `NativeFlow.FailureIsTold` | apps/desktop/src-tauri/src/microphone_stream.rs:415-422 | The worker tells it when it next looks |
| `NativeFlow.StopEndsWorker` | apps/desktop/src-tauri/src/microphone_stream.rs:382-382 | A stop ends the worker at the top of its loop |
| `NativeFlow.WorkerExitsIff` | apps/desktop/src-tauri/src/microphone_stream.rs:382-397 | The worker ends only when it is stopped or nobody listens |
| `NativeFlow.EndedWorkerIsSilent` | apps/desktop/src-tauri/src/microphone_stream.rs:382-382 | Once it has ended nothing is sent, whatever happens |
| `NativeFlow.GoneIsNoticed` | apps/desktop/src-tauri/src/microphone_stream.rs:314-334 | A worker without a listener stops the stream, a callback without a worker marks it as failed |
| `NativeGaps.GapsNeverUnderCount` | apps/desktop/src-tauri/src/microphone_stream.rs:383-413 | In every interleaving, however long, as long as every report fits into 32 bits, the chunks declared in gaps never fall short of the samples reported as dropped or discarded |
| `NativeGaps.EveryReportCoversIff` | apps/desktop/src-tauri/src/microphone_stream.rs:383-413 | Over every run, the gap of each report covers its samples if and only if each report fits into 32 bits |
| `NativeGaps.DiscardedCoversIff` | apps/desktop/src-tauri/src/microphone_stream.rs:405-408 | A report of discarded samples covers them if and only if the two numbers of chunks add up within 32 bits |
| `NativeGaps.OnlyDropsCanOverflow` | apps/desktop/src-tauri/src/microphone_stream.rs:399-413 | With buffers below thirteen years of samples each, however long the stream runs and however often it is paused, only a report of dropped samples can fail to fit |
| `NativeGaps.ShortRunsFit` | apps/desktop/src-tauri/src/microphone_stream.rs:383-413 | Until more than thirteen years of samples were captured, every report fits |
| `NativeGaps.ReportDeclaresNothing` | apps/desktop/src-tauri/src/microphone_stream.rs:405-413 | A run with one such buffer in which the sum of the two estimates wraps to zero: samples are taken off the counters and no gap is sent |
| `NativeGaps.EstimateCoversIff` | apps/desktop/src-tauri/src/microphone_stream.rs:463-479 | An estimate covers its samples if and only if it does not saturate at 32 bits, and is otherwise the least that does |
| `AudioProcessing.BatchingDoesNotMatter` | apps/desktop/src-tauri/src/microphone_stream.rs:285-305 | However the samples are cut into batches, the emitted chunks and the remainder are those of the concatenated input since the last reset |
| `AudioProcessing.SameSamplesSameChunks` | apps/desktop/src-tauri/src/microphone_stream.rs:285-305 | Two ways of cutting the same samples emit the same chunks, which decode back to the samples |
| `AudioProcessing.ChunksDecodeToInput` | apps/desktop/src-tauri/src/microphone_stream.rs:285-305 | The chunks are of full size, and decoding them from little-endian bytes gives back the input up to the remainder |
| `AudioProcessing.BytesRoundTrip` | apps/desktop/src-tauri/src/microphone_stream.rs:291-293 | Little-endian encoding of 16-bit samples is undone by decoding |
| `AudioProcessing.AudioProcessor.Process` | apps/desktop/src-tauri/src/microphone_stream.rs:285-305 | The loops emit the full chunks of held and new samples and keep the remainder |
| `AudioProcessing.AudioProcessor.Reset` | apps/desktop/src-tauri/src/microphone_stream.rs:307-311 | Forgets the held samples and reports how many |
| `MicrophoneStream.MicrophoneStream.EnqueueSamples` | apps/desktop/src-tauri/src/microphone_stream.rs:314-334 | Queues without waiting, or finds the queue full or closed |
| `MicrophoneStream.MicrophoneStream.SettleCallback` | apps/desktop/src-tauri/src/microphone_stream.rs:327-332 | A full queue drops and counts the samples, a closed one is a failure |
| `MicrophoneStream.MicrophoneStream.LoadEpoch` | apps/desktop/src-tauri/src/microphone_stream.rs:354-355 | The callback takes its input and the epoch |
| `MicrophoneStream.MicrophoneStream.CheckFlags` | apps/desktop/src-tauri/src/microphone_stream.rs:354-361 | Paused or stopped input is not captured |
| `MicrophoneStream.MicrophoneStream.CheckStop` | apps/desktop/src-tauri/src/microphone_stream.rs:382-382 | A stopped worker exits, and its queue with it |
| `MicrophoneStream.MicrophoneStream.ReportDropped` | apps/desktop/src-tauri/src/microphone_stream.rs:383-397 | Swaps the dropped counter and reports it, or stops when nobody listens |
| `MicrophoneStream.MicrophoneStream.ReportDiscarded` | apps/desktop/src-tauri/src/microphone_stream.rs:399-413 | Swaps the discarded counters and reports them |
| `MicrophoneStream.MicrophoneStream.CheckFailure` | apps/desktop/src-tauri/src/microphone_stream.rs:415-422 | Reports a failure once and stops |
| `MicrophoneStream.MicrophoneStream.Receive` | apps/desktop/src-tauri/src/microphone_stream.rs:424-425 | Takes the oldest message or times out |
| `MicrophoneStream.MicrophoneStream.CompareEpoch` | apps/desktop/src-tauri/src/microphone_stream.rs:426-451 | Samples of an older epoch are discarded and counted |
| `MicrophoneStream.MicrophoneStream.ProcessSamples` | apps/desktop/src-tauri/src/microphone_stream.rs:427-431 | Processes under the lock |
| `MicrophoneStream.MicrophoneStream.SendChunk` | apps/desktop/src-tauri/src/microphone_stream.rs:432-443 | Sends the next chunk, or stops when nobody listens |
| `MicrophoneStream.MicrophoneStream.NoteStart` | apps/desktop/src-tauri/src/microphone_stream.rs:200-200 | The first note, without waiting |
| `MicrophoneStream.MicrophoneStream.AdvanceEpoch` | apps/desktop/src-tauri/src/microphone_stream.rs:226-226 | A pause advances the epoch, in 32 bits |
| `MicrophoneStream.MicrophoneStream.NotePause` | apps/desktop/src-tauri/src/microphone_stream.rs:238-241 | The pause note waits for room, and fails without a worker |
| `MicrophoneStream.MicrophoneStream.BeginResume` | apps/desktop/src-tauri/src/microphone_stream.rs:253-255 | A failed stream is not resumed |
| `MicrophoneStream.MicrophoneStream.NoteResume` | apps/desktop/src-tauri/src/microphone_stream.rs:256-259 | The resume note waits for room, and fails without a worker |
| `MicrophoneStream.MicrophoneStream.Unpause` | apps/desktop/src-tauri/src/microphone_stream.rs:260-260 | Capturing goes on only after the note |
| `MicrophoneStream.MicrophoneStream.ResetProcessor` | apps/desktop/src-tauri/src/microphone_stream.rs:227-231 | A pause resets the processor and takes what it held |
| `MicrophoneStream.MicrophoneStream.AddDiscardedOutput` | apps/desktop/src-tauri/src/microphone_stream.rs:232-237 | What the reset discarded is counted |
| `Sse.SplitStream` | services/ai-orchestrator/src/index.ts:992-1023 | For every way of cutting the response into reads, the loop extracts the frames of the whole text |
| `Sse.FramesAreLeftmostSplit` | services/ai-orchestrator/src/index.ts:1005-1015 | Those frames are the leftmost split on a blank line: joined they give the text back, and no frame holds a break |
| `Sse.LeftmostSplitIsUnique` | services/ai-orchestrator/src/index.ts:1005-1015 | There is only one such split |
| `Sse.MoreTextResumesAtTail` | services/ai-orchestrator/src/index.ts:1005-1015 | Cutting what has arrived and going on from its tail is cutting the whole |
| `Sse.ReadPayloads` | services/ai-orchestrator/src/index.ts:1005-1034 | The payloads do not depend on how the response was cut into reads |
| `Sse.EncodedPayloadsReadBack` | services/ai-orchestrator/src/index.ts:1025-1034 | One-line payloads written as events are read back in order, except end marks |
| `Sse.FrameDataIsJoined` | services/ai-orchestrator/src/index.ts:1025-1034 | The data of a frame is the values of its data lines, joined, wherever they stand among other lines, however lines end, and with or without a space |
| `Sse.CutIffLineFeedsMeet` | services/ai-orchestrator/src/index.ts:1005-1015 | A response is cut if and only if two line feeds meet; one whose lines end in carriage return and line feed is never cut |
| `Chunking.SplitLongParagraph` | services/knowledge/src/index.ts:915-938 | The loop computes the greedy pieces |
| `Chunking.SplitIsLossless` | services/knowledge/src/index.ts:915-938 | Joining the pieces with spaces gives back the paragraph |
| `Chunking.PiecesFitUnlessOneWord` | services/knowledge/src/index.ts:920-931 | Every piece is within the limit unless it is one word |
| `Chunking.GreedyUsesFewestPieces` | services/knowledge/src/index.ts:920-931 | No in-order split into pieces that are within the limit or one word uses fewer pieces, whatever the words |
| `Chunking.GreedyIsFittingSplit` | services/knowledge/src/index.ts:915-938 | The greedy pieces are such a split themselves |
| `DocumentChunks.ChunkDocumentText` | services/knowledge/src/index.ts:281-321 | The whole function, its loop over text included, computes the packing of the normalised paragraphs |
| `DocumentChunks.ChunksKeepEveryWord` | services/knowledge/src/index.ts:281-321 | The chunks of a document hold exactly its words, in order |
| `DocumentChunks.ChunksAreWellPacked` | services/knowledge/src/index.ts:294-312 | No chunk is empty, none is over the limit unless it is one word, and no packed chunk had room for the next paragraph |
| `DocumentReading.ChunksReadBack` | services/knowledge/src/index.ts:281-321 | If no paragraph is too long, the chunks with blank lines between them are read back as the paragraphs of the document |
| `DocumentReading.ParagraphsReadBack` | services/knowledge/src/index.ts:281-290 | Round trip: normalised paragraphs with blank lines between them are read back as they are |
| `DocumentReading.ParagraphsArePlain` | services/knowledge/src/index.ts:281-290 | No paragraph holds a blank line, a double space or other white space |
| `DocumentWords.ParagraphsKeepWords` | services/knowledge/src/index.ts:282-290 | Normalisation keeps every word, in order |
| `RateLimiter.AnyIntervalAdmitsFew` | services/api/src/http-server.ts:264-289 | Under a clock that does not go back, any interval as long as the window admits at most 2m - 1 requests of a key, m being the requests of one window (at least one) |
| `RateLimiter.RefusedIffWindowIsFull` | services/api/src/http-server.ts:264-289 | A request is refused if and only if the window of its own key is open and full; other keys and sweeps never matter |
| `RateLimiter.BoundIsReached` | services/api/src/http-server.ts:279-287 | The bound 2m - 1 is reached for every m and every window of at least two milliseconds |
| `RateLimiter.OneWindowIsTheBoundIff` | services/api/src/http-server.ts:279-287 | Intervals as long as the window admit at most m requests exactly when m is one or the window lasts at most a millisecond |
| `RateLimiter.SweepingChangesNoAnswer` | services/api/src/http-server.ts:271-277 | Sweeping expired buckets, at any threshold, never changes an answer |
| `RateLimiter.AdvisedWaitIsEnough` | services/api/src/http-server.ts:288-288 | A refused key left alone for the advised seconds is admitted next |
| `RateLimiter.ShorterWaitIsRefused` | services/api/src/http-server.ts:288-288 | After a second less, with only other keys in between, the key is refused again |
| `RateLimiter.Limiter.Consume` | services/api/src/http-server.ts:264-289 | The answer and the new buckets |
| `RateLimiter.Limiter.Sweep` | services/api/src/http-server.ts:271-277 | The loop removes exactly the expired buckets |
| `Memberships.OwnedIffStaysOwned` | services/api/src/identity-repository.ts:434-458 | Over any sequence of upserts and deletes by anyone, a workspace has an owner at the end if and only if it had one at the start |
| `Memberships.LastOwnerRefusalIff` | services/api/src/identity-repository.ts:451-457 | The last-owner refusal is given exactly to a sole owner who gives up the role or leaves |
| `Memberships.ChangeIsMadeIff` | services/api/src/identity-repository.ts:434-458 | A change is made if and only if an owner makes it, or an admin where neither side is an owner, and an owner is left; then the target has the role asked for, and nobody else changes |
| `Memberships.RefusalTellsWhy` | services/api/src/identity-repository.ts:440-449 | Outsiders and plain members, and admins who reach for ownership, are told so |
| `Memberships.RoleIsLastGiven` | services/api/src/identity-repository.ts:217-317 | Over any attempts by anyone, a role is the one last given by a permitted change |
| `Memberships.OwnershipChangesByOwners` | services/api/src/identity-repository.ts:445-449 | Over any sequence, who becomes or stops being an owner does so by an act of someone who was an owner of that workspace then |
| `Memberships.PlainMembersChangeNothing` | services/api/src/identity-repository.ts:440-443 | Users who are neither owner nor admin change nothing, however often they try |
| `Memberships.PgIdentityRepository.UpsertWorkspaceMembership` | services/api/src/identity-repository.ts:217-278 | The refusal, or the new rows |
| `Memberships.PgIdentityRepository.DeleteWorkspaceMembership` | services/api/src/identity-repository.ts:280-317 | The refusal, or the new rows, and whether a row was deleted |

## Left out

- SpendingStaysWithinLimit: assumes that request ids are not reused in a session, which `LimitHoldsIff` does not, and that session ids are fresh; they are built from a random connection id and the time, and two are taken never to coincide. Without pricing there is no limit to state.
- LimitHoldsIff: the input tokens of a request and the character limit of its prompt can be any number in the machine; which inputs a given prompt and configuration can produce is not part of this model.
- RunKeepsInvariant: assumes fresh connection ids as well as fresh session ids, see the second authentication above; `CollisionFreeRunStaysPaired` assumes only the latter.
- FrameRoundTrip: covers a first connection. After a resume the client numbers from 1 again while the server keeps the maximum, so nothing of the kind is claimed there. It assumes that each chunk fits the buffer by itself; `RoundTripIff` needs no such assumption. No error means none from authentication, dispatch, sequence check or assembler, as for `RoundTripIff`.
- RoundTripIff: schedules do not include the message that ends a session, after which the server refuses further frames, nor an end or resume of the session from elsewhere. No error means none from authentication, dispatch, sequence check or assembler: the errors that the same dispatcher sends for rate limits, speech-to-text, policy and persistence are not part of this model.
- ClientRecoversIff: is about one transcript processor; the server starts a new one on a resume, which may emit a segment again. No final is sent between the prefix and the replay.
- EverySampleIsAccountedFor: at 16 kHz, where resampling passes samples through; the resampler's arithmetic at other rates is not part of this model. It does not say that samples captured before a pause never appear after it: the epoch is compared outside the lock.
- GapsNeverUnderCount: assumes that each report fits into 32 bits, which is what it takes (`EveryReportCoversIff`); the two counters themselves are unbounded here and 64 bits wide in the program.
- AnyIntervalAdmitsFew: assumes a clock that does not go back.
- EncodedPayloadsReadBack: payloads of one line that do not start with white space; several data lines in one event are modelled but not part of the round trip.
- Numbers of the program are doubles or fixed-width integers; the model uses unbounded integers, and says so where the width matters (32-bit estimates, epochs, UTF-16 code units). Times and durations are whole milliseconds; chunks and gaps satisfy the minimums of the wire schema by type.
- JSON, schema validation, sockets, timers, SQL text, telemetry, persistence sinks, cryptography and token validation: their results are parameters of the steps.
- Error replies to a suggestion request take server sequence numbers; the model returns the reply and leaves its number to the session manager's own steps, since admission does not depend on it.
- A suggestion request that arrives between the metadata and the bytes of a chunk is refused by the assembler before admission; the admission state machine leaves this refusal out, since it only removes requests.
- External transports of suggestion providers: a provider is an arbitrary sequence of tokens that may complete, fail or stop.
- The texts of the prompt templates are parameters; an absent user prompt is an empty one.
- The sort of transcript segments is a stable insertion sort on end time, as the language requires of its library sort.
- The desktop client before it connects and while it reconnects; its audio is modelled from the start of a connection, with an empty buffer.
- Snapshots, last-error fields, stream handles and state-change callbacks of the capture controller and the desktop client; reconnect timers and delays.
- The in-memory identity repository, whose check and update are separated by an await; audit logs and user rows.
- Knowledge retrieval, scoring, access filters and embeddings; document storage.
- The worker's exit when every sender of its queue is gone, which cannot happen while the stream is registered.
