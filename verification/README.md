# tokenlive-gateway: verified core

A Dafny model of the parts of the gateway where a mistake is hard to see: the circuit
breakers and their probe permits, the translation of streams between LLM protocols, the
quota accounting, event-stream framing, retries, hedging and routing, smooth weighted
round-robin, the event publisher and the compensation queue.

How the model is built:

- Code that works on values is a set of functions on datatypes. Code that updates an
  object is a class whose methods are proved to compute such a function of the object's
  value, so that what is proved about the function holds of the object.
- Concurrent code is a machine over steps. Every body that runs under one mutex, every
  channel operation and every store operation is one step; a run is any sequence of steps,
  and what is stated of `Run(steps)` holds in every interleaving. A step that is not enabled
  leaves the state as it is.
- Clocks, decoded JSON, answers of the store, the providers, the routers and the load
  balancers are inputs: parameters of a step, or functions from the attempt number to an
  answer. Clocks are arbitrary unless a statement says otherwise. Integers are unbounded.
- Steps have no preconditions, so every sequence of steps from the initial state counts.

| file | what it models |
|---|---|
| `Breaker.dfy`, `BreakerLeases.dfy`, `BreakerOutcomes.dfy`, `BreakerLegacy.dfy` | one breaker; leases over two breakers with rollback; which outcomes count, and resets; the un-tokened permit calls beside them |
| `BreakerWindow.dfy`, `BreakerWindowExact.dfy` | the sample window against a plain log of all samples; exactly when they agree |
| `ChatStream.dfy`, `ChatToMessages.dfy`, `MessagesGrammar.dfy`, `MessagesHead.dfy`, `MessagesToChat.dfy` | Chat frames and what they say; Chat to Messages; a reader of the Messages event grammar; how a message begins and ends; Messages to Chat and the round trip |
| `ToolNames.dfy`, `ChatToResponses.dfy`, `ResponsesGrammar.dfy`, `ResponsesCalls.dfy` | tool name mapping; Chat to Responses; a reader of Responses events by output index; identifiers and names of the calls |
| `Quota.dfy`, `QuotaProtocol.dfy`, `QuotaUsage.dfy`, `FixedWindow.dfy`, `TokenBucket.dfy` | speculative charges, rollback, settlement; the same for concurrent calls; what a settled call comes to; the counters |
| `SseParser.dfy`, `SseStandard.dfy`, `FrameScanner.dfy` | incremental event-stream parsing; when it agrees with the standard; the forwarding loop that writes whole frames |
| `Cluster.dfy`, `ClusterDecisions.dfy`, `Hedging.dfy`, `HedgingProgress.dfy`, `SmartRouting.dfy` | retry and model fallback; when there is another attempt; the hedged race; that it ends and why; score routing |
| `WeightedRoundRobin.dfy`, `Publisher.dfy` | load balancing; asynchronous events |
| `Compensation.dfy`, `CompensationPlaces.dfy`, `CompensationLoss.dfy` | the retry queue and its worker; where a task is; when it is lost |
| `CompensationRetries.dfy`, `CompensationTimes.dfy`, `CompensationOutcomes.dfy`, `CompensationRuns.dfy` | what each copy of a task has behind it and how late it is retried; how often a task is compensated in a run; what became of it; runs that show what the conditions are for |
| `Ordering.dfy`, `Search.dfy`, `Strings.dfy`, `Options.dfy` | the ascending sequence of a set; the first element with a property; prefixes; optional values |

## Model

| member | source | states |
|---|---|---|
| `Breaker.BreakerEntry.ExpireBuckets` | pkg/core/circuit_breaker.go:169-181 | drops exactly the leading buckets older than the window |
| `Breaker.BreakerEntry.CountFailures` | pkg/core/circuit_breaker.go:188-204 | the failures of the window in use: buckets for a time window, the list otherwise |
| `Breaker.BreakerEntry.ComputeState` | pkg/core/circuit_breaker.go:183-241 | the whole new state of the entry, epoch and permit included |
| `Breaker.BreakerEntry.AppendSample` | pkg/core/circuit_breaker.go:82-115 | where a sample goes in each state and window type, and what is pushed out |
| `Breaker.BreakerEntry.RecordLocked` | pkg/core/circuit_breaker.go:57-158 | settings with defaults, state, sample and state again; returns the states before and after |
| `Breaker.BreakerEntry.ResetEntry` | pkg/core/circuit_breaker.go:243-260 | Closed, no samples, a new epoch with no permit outstanding |
| `Breaker.BreakerEntry.CheckAndResetOnVersionChange` | pkg/core/circuit_breaker.go:262-283 | the first version is adopted, a different one resets |
| `Breaker.BreakerEntry.AcquirePermit` | pkg/core/circuit_breaker.go:500-533 | one breaker's part of an acquisition; when it admits is stated by `BreakerLeases.AdmittedIff` |
| `Breaker.BreakerEntry.ReleasePermit` | pkg/core/circuit_breaker.go:535-545 | only the epoch and token of the outstanding permit return it |
| `Breaker.BreakerEntry.TryAcquireHalfOpenPermit` | pkg/core/circuit_breaker.go:285-304 | the un-tokened acquisition |
| `Breaker.BreakerEntry.ReleaseHalfOpenPermit` | pkg/core/circuit_breaker.go:787-799 | the un-tokened return never touches a tokened permit |
| `BreakerLeases.RunKeepsInv` | pkg/core/circuit_breaker.go:483-564 | in every interleaving of leases, un-tokened calls, resets, version changes and polls: permit counts, tokens and epochs stay consistent and every outstanding token has an owner |
| `BreakerLeases.AtMostOneProbe` | pkg/core/circuit_breaker.go:500-545 | at most one probe in flight per breaker; a tokened one only in HalfOpen, owned by exactly one un-ended lease |
| `BreakerLeases.EndedLeaseHoldsNothing` | pkg/core/circuit_breaker.go:500-549 | a lease that ended, or was rolled back after its second breaker refused, holds nothing on any breaker |
| `BreakerLeases.OnlyOwnerReturnsPermit` | pkg/core/circuit_breaker.go:535-564 | after any step but the owner's own release the permit is still outstanding and still owned, or its epoch is over |
| `BreakerLeases.LeasesLeakNothing` | pkg/core/circuit_breaker.go:483-564 | without un-tokened acquisitions, once all leases have ended no breaker counts a probe |
| `BreakerLeases.AdmittedIff` | pkg/core/circuit_breaker.go:498-533 | in every run, a lease that asks a breaker is admitted if and only if the breaker is then closed, or half-open with no probe in flight and no active prober; otherwise it is turned away |
| `BreakerLeases.NoPermitWhileOpen` | pkg/core/circuit_breaker.go:498-533 | in every run, a lease gains a permit only by being admitted, and never on an open breaker |
| `BreakerOutcomes.LeaseHasAllItsPermits` | pkg/core/circuit_breaker.go:498-533 | in every run, the permits of a lease are those of its breakers in order, and it is used only once it has them all |
| `BreakerOutcomes.OutcomeCountsIff` | pkg/core/circuit_breaker.go:582-677 | an outcome counts if and only if its permit is of the present epoch and version; one with a new version makes the breaker as new instead, any other is sampled once; nothing else changes |
| `BreakerOutcomes.ResetsMakeAsNew` | pkg/core/circuit_breaker.go:243-283 | what a reset and a version change leave of a breaker: no samples, no permit, a new epoch |
| `BreakerLegacy.OutIsCounted` | pkg/core/circuit_breaker.go:285-304 | in every run a breaker counts a probe without a token exactly if an un-tokened acquisition was granted and has been neither returned nor ended with its epoch |
| `BreakerOutcomes.LegacyAdmittedIff` | pkg/core/circuit_breaker.go:285-304 | in every run, an un-tokened call is admitted under the same condition as a lease, and is the probe if the breaker is half-open |
| `BreakerOutcomes.LegacyReturnIff` | pkg/core/circuit_breaker.go:787-799 | in every run, an un-tokened return gives back an un-tokened probe and nothing else |
| `BreakerLegacy.LeaksIff` | pkg/core/circuit_breaker.go:285-304 | once all leases have ended, a breaker counts no probe if and only if no un-tokened permit is out |
| `BreakerLegacy.StaysOut` | pkg/core/circuit_breaker.go:787-799 | such a permit stays out, whatever callers and clocks do, until an un-tokened return or record, a reset, another version, or an outcome recorded through a lease of its epoch |
| `BreakerLegacy.OutBlocks` | pkg/core/circuit_breaker.go:500-533 | while it is out the breaker is half-open and refuses every lease and every un-tokened call |
| `BreakerLegacy.LegacyPermitLeaks` | pkg/core/circuit_breaker.go:285-304 | a run without any lease that ends with an un-tokened permit out |
| `BreakerLeases.RecordKeeps` | pkg/core/circuit_breaker.go:582-677 | recording an outcome through a lease, version check included, keeps the permit invariant |
| `BreakerWindow.StatesMatchSamples` | pkg/core/circuit_breaker.go:183-241 | in every run, with any settings: Closed is below its threshold; HalfOpen has only successes, fewer than it needs to close |
| `BreakerWindow.OpenIsLeftOnlyBy` | pkg/core/circuit_breaker.go:206-211 | Open is left only by a reset or a version change of this breaker, or the recovery timeout in force |
| `BreakerWindowExact.WindowRefinesLog` | pkg/core/circuit_breaker.go:57-181 | with fixed settings that meet the condition of the next row and a clock that does not run back, the entry agrees in state, opening time and time-window failures with a log of all samples filtered by the window |
| `BreakerWindowExact.WindowRefinesLogIff` | pkg/core/circuit_breaker.go:79-115 | the state and opening time always agree if and only if the window is a time window, the closing threshold fits into it, the failure threshold exceeds it, or the failure threshold is 1 |
| `BreakerWindowExact.LongListOpens` | pkg/core/circuit_breaker.go:79-115 | for all other settings, a run after which the breaker is open though too few of the last windowSize samples failed |
| `BreakerWindowExact.CountWindowExactIff` | pkg/core/circuit_breaker.go:79-115 | the list is always exactly the last windowSize samples if and only if the closing threshold fits into the window or the failure threshold exceeds it; otherwise a run is given where it is longer |
| `ChatToMessages.Stream.FeedJSON` | pkg/llm/translate/chat_messages_stream.go:100-232 | the new state and the events of one frame |
| `ChatToMessages.Stream.FeedToolCall` | pkg/llm/translate/chat_messages_stream.go:165-217 | a block per tool index, opened at its first fragment |
| `ChatToMessages.Stream.CloseOpenBlocks` | pkg/llm/translate/chat_messages_stream.go:365-375 | stops all open blocks in ascending order |
| `ChatToMessages.Stream.FinalizeSuccess` | pkg/llm/translate/chat_messages_stream.go:377-391 | the closing events of a completed stream |
| `ChatToMessages.Stream.FinishStream` | pkg/llm/translate/chat_messages_stream.go:234-263 | the state and events at the end, and whether the stream completed |
| `Ordering.SortSet` | pkg/llm/translate/chat_messages_stream.go:365-375 | sorting the keys, collected in any order, gives their one ascending sequence |
| `MessagesGrammar.FeedsAreLinked` | pkg/llm/translate/chat_messages_stream.go:100-232 | before Finish every trace is a grammatical beginning and carries exactly the text, reasoning and tool calls fed so far |
| `MessagesGrammar.TraceIsGrammatical` | pkg/llm/translate/chat_messages_stream.go:100-391 | every trace is accepted by the grammar reader, has the content of the frames with each call under its own identifier, stops each block once, and ends with message_delta (the stop reason of the frames' finish) and message_stop if and only if a completion signal was seen |
| `MessagesGrammar.ToolIdsCollideIff` | pkg/llm/translate/chat_messages_stream.go:165-217 | two calls are announced under one identifier if and only if their identifiers agree without prefix |
| `MessagesHead.MessageIsHeaded` | pkg/llm/translate/chat_messages_stream.go:100-391 | message_start has the identifier, the model and the usage known when the first content came; the closing events have the stop reason and the final usage; no events at all exactly if nothing was said and no completion seen |
| `ChatStream.ThinkingPrefers` | pkg/llm/translate/chat_messages_stream.go:100-232 | of the four names for reasoning the first that is used counts |
| `MessagesGrammar.SilentAfterFinish` | pkg/llm/translate/chat_messages_stream.go:100-103 | nothing is emitted after Finish, by frames or by finishing again |
| `MessagesToChat.MessagesStream.FeedJSON` | pkg/llm/translate/messages_chat_stream.go:64-307 | the new state and the chunks of one event |
| `MessagesToChat.GrammaticalStreamsKeepContent` | pkg/llm/translate/messages_chat_stream.go:113-285 | every grammatical Messages stream keeps its text, reasoning and tool calls with their identifiers; one finish chunk, with the finish reason for the stop reason, once that is known |
| `MessagesToChat.EveryStreamIsConveyed` | pkg/llm/translate/messages_chat_stream.go:64-307 | for any payloads, grammatical or not: all text, reasoning and errors in order, and one finish chunk if and only if some payload ends the message, with the reason of the first that does |
| `MessagesToChat.ChunksAreNamed` | pkg/llm/translate/messages_chat_stream.go:64-307 | every chunk carries the latest message identifier at the time it is written |
| `MessagesToChat.RoundTrip` | pkg/llm/translate/messages_chat_stream.go:113-336 | Chat to Messages and back, for every frame sequence: same text, same reasoning, same calls with their identifiers, renumbered by first appearance, one finish chunk with the canonical reason exactly if the stream was complete |
| `ToolNames.ToolNameMapper.SanitizeAndRegister` | pkg/llm/translate/tool_name_mapper.go:44-73 | the three maps after a registration, and the name returned |
| `ToolNames.ToolNameMapper.FindFree` | pkg/llm/translate/tool_name_mapper.go:58-67 | the unbounded suffix search ends, at the first free number |
| `ToolNames.ToolNameMapper.SanitizeToolName` | pkg/llm/translate/tool_name_mapper.go:104-119 | every other character becomes an underscore, position by position |
| `ToolNames.ToolNameMapper.Restore` | pkg/llm/translate/tool_name_mapper.go:77-82 | the registered pair, or the split at the last dot |
| `ToolNames.FirstFreeIsLeast` | pkg/llm/translate/tool_name_mapper.go:58-67 | the number found is the least free one |
| `ToolNames.FirstFreeNameIsGiven` | pkg/llm/translate/tool_name_mapper.go:44-73 | after any history a new pair is given its sanitized dotted name if that is free, and otherwise that name with the first of _2, _3, ... that is |
| `ToolNames.SplitsAtLastDot` | pkg/llm/translate/helpers.go:22-27 | a name is split into two non-empty parts at its last dot if and only if there are such parts |
| `ToolNames.NamesAreStable` | pkg/llm/translate/tool_name_mapper.go:44-82 | later registrations change no name given and no way back |
| `ToolNames.RestoreUndoesIff` | pkg/llm/translate/tool_name_mapper.go:44-82 | a registered pair is restored if and only if no different pair with the same key was registered before it |
| `ToolNames.RoundTrip` | pkg/llm/translate/tool_name_mapper.go:44-119 | without NUL in namespaces, after any history: every pair is restored, distinct pairs have distinct names, names are in the safe alphabet |
| `ToolNames.NulConfuses` | pkg/llm/translate/tool_name_mapper.go:45-48 | two pairs that share a key because of a NUL; the second is restored as the first |
| `ChatToResponses.ResponsesStream.FeedJSON` | pkg/llm/translate/chat_responses_stream.go:48-255 | the new state and the events of one frame |
| `ChatToResponses.ResponsesStream.FeedToolCall` | pkg/llm/translate/chat_responses_stream.go:170-250 | one fragment: opening, naming and announcing its call |
| `ChatToResponses.ResponsesStream.SendReasoningDelta` | pkg/llm/translate/chat_responses_stream.go:551-571 | opens the reasoning item at the next output index, then its delta |
| `ChatToResponses.ResponsesStream.SendPlainText` | pkg/llm/translate/chat_responses_stream.go:517-549 | opens the message item at the next output index, then its delta |
| `ChatToResponses.ResponsesStream.NoteUsage` | pkg/llm/translate/chat_responses_stream.go:497-510 | a field changes only to a positive value |
| `ChatToResponses.ResponsesStream.FinishCalls` | pkg/llm/translate/chat_responses_stream.go:393-463 | closes the calls by ascending upstream index and lists their items |
| `ChatToResponses.ResponsesStream.FinishStream` | pkg/llm/translate/chat_responses_stream.go:259-487 | the closing events, in order |
| `ResponsesGrammar.FeedsAreLinked` | pkg/llm/translate/chat_responses_stream.go:48-255 | before Finish every output index holds what was said about its item so far |
| `ResponsesGrammar.EveryItemIsTold` | pkg/llm/translate/chat_responses_stream.go:48-487 | the output indices used are exactly 0..n-1, one per item in order of first appearance; each index is read without violation and finished once with the concatenation of its fragments |
| `ResponsesGrammar.ResponseIsFramed` | pkg/llm/translate/chat_responses_stream.go:120-146 | if any frame is a chunk: created and in_progress first, done and completed last with the same output list, which names every item once as it was finished, reasoning, text, then calls by upstream index; nothing if no frame is |
| `ResponsesCalls.ResponseIsHeaded` | pkg/llm/translate/chat_responses_stream.go:100-146 | created and in_progress carry the identifier and the model of the first chunk, or the model of the request |
| `ResponsesCalls.IdIsPrefixed` | pkg/llm/translate/helpers.go:9-20 | how an identifier is brought under a prefix, in each of the four cases |
| `ResponsesCalls.CallsAreTold` | pkg/llm/translate/chat_responses_stream.go:170-463 | for every frame sequence, each call is finished with the identifier, the name, the kind and the arguments its fragments give it; it was announced exactly if they give it a name, and all its events name the same call |
| `ResponsesCalls.AnnouncementsAreTold` | pkg/llm/translate/chat_responses_stream.go:170-250 | for every frame sequence, each call announced is one of the upstream's calls, at its output index, as it is after the first fragment that gives it a name |
| `ResponsesCalls.ToolSurvivesIff` | pkg/llm/translate/chat_responses_stream.go:187-200 | the client sees the registered tool that the upstream named if and only if the tool has a namespace, or no fragment follows the one with the name, or restoring the tool's own name leaves it alone |
| `ResponsesCalls.DottedNameIsSplit` | pkg/llm/translate/chat_responses_stream.go:187-200 | a registered tool that the client sees under another name from its second fragment on |
| `ResponsesCalls.UnmappedNameIsSplit` | pkg/llm/translate/chat_responses_stream.go:187-200 | without a mapper the first name is split at its last dot, whatever fragments follow |
| `ResponsesGrammar.UsageIsLastPositive` | pkg/llm/translate/chat_responses_stream.go:497-510 | final usage is, field by field, the last positive value reported |
| `ResponsesGrammar.SilentAfterFinish` | pkg/llm/translate/chat_responses_stream.go:259-263 | nothing is emitted after Finish |
| `Quota.Limiter.Execute` | pkg/limiter/token.go:27-99 | charges all windows or none; charged exactly if every window passes |
| `Quota.Limiter.Rollback` | pkg/limiter/token.go:101-119 | gives back exactly what the first windows were charged |
| `Quota.Limiter.RecordReservations` | pkg/limiter/reservation.go:12-31 | one reservation per window |
| `Quota.Limiter.SettleLimits` | pkg/filters/outbound/token_settlement.go:237-276 | each reservation on a fixed window moves its counter from the estimate to the tokens or the cost used, by its policy's type (to nothing if the call is not charged); stops at a store error and can be repeated |
| `Quota.RecordsStandForCharges` | pkg/limiter/reservation.go:12-31 | the reservations of a policy stand for the same total as its charges |
| `QuotaProtocol.CountersAreConserved` | pkg/limiter/token.go:27-119 | in every interleaving each counter is the sum over the requests of settled actuals, unsettled estimates, charges not yet rolled back, and rollbacks of theirs the store refused |
| `QuotaProtocol.LeaksAreAttributed` | pkg/limiter/token.go:101-119 | every amount a refused rollback left on a counter belongs to one request |
| `QuotaProtocol.ContributionIs` | pkg/limiter/token.go:27-119 | all a request's steps added to a counter is what it holds there and what its refused rollbacks left there |
| `QuotaProtocol.RefundsAreExact` | pkg/store/memory.go:39-47 | the floor at 0 never cuts a refund: a counter has what a rollback or a settlement comes to take, and goes down by just that |
| `QuotaUsage.SettledCallsNetUsage` | pkg/invoker/child_accounting.go:33-49 | a settled call has added to each counter the reported tokens for each fixed window of its token policies there and the reported cost for each of its cost policies (nothing if it was rejected or failed), plus what its refused rollbacks left; so exactly the usage if and only if none of its rollbacks on that counter was refused |
| `QuotaUsage.CallsReserveTheirPolicies` | pkg/limiter/reservation.go:12-31 | in every run a call has reserved, in order, every window of a beginning of its policies, of all of them once it is admitted, except those whose limit key was charged before |
| `QuotaUsage.ReportIsKept` | pkg/invoker/child_accounting.go:33-49 | a call is settled with the usage that was reported for it |
| `QuotaUsage.RefusedRollbackStays` | pkg/limiter/token.go:101-119 | a rejected call whose refused rollback leaves its charge on the counter |
| `QuotaProtocol.SettlingAgainIsFree` | pkg/filters/outbound/token_settlement.go:237-276 | further settlement passes charge nothing |
| `QuotaProtocol.SettledStaysSettled` | pkg/filters/outbound/token_settlement.go:237-276 | no step changes a settled reservation |
| `QuotaProtocol.AdmittedIffWithinThreshold` | pkg/filters/inbound/limit.go:41-121 | in every run, a charge passes a fixed window if and only if the store answers and everything charged on it by all calls, this charge included, is within the threshold; a burst window if and only if its bucket allows it; otherwise the attempt is rolled back |
| `QuotaProtocol.OnlyWaitingPoliciesRetry` | pkg/filters/inbound/limit.go:41-121 | in every run, a policy is tried again only if it was over its limit and waits, after all its charges were dealt with; otherwise the call is rejected |
| `FixedWindow.RateLimitEntry.IncrBy` | pkg/store/memory.go:26-37 | a charge after the end of the window starts a new one |
| `FixedWindow.RateLimitEntry.RefundBy` | pkg/store/memory.go:39-47 | a refund with its floor |
| `FixedWindow.OneEpochIsPlainCounter` | pkg/store/memory.go:19-47 | within one window the entry is the plain counter of the accounting |
| `FixedWindow.CountsSinceLatestOpening` | pkg/store/memory.go:19-47 | for any charges and refunds at any clocks: the count is the plain counter over the operations since the charge that opened the latest window |
| `TokenBucket.BucketEntry.ApplyRequest` | pkg/store/memory.go:55-90 | refill, decision and new balance of one request |
| `TokenBucket.NeverOverspends` | pkg/store/memory.go:55-90 | in every run, also with clocks that run back: balance within capacity, net use plus balance within capacity plus what time generated |
| `TokenBucket.NoDebtIff` | pkg/store/memory.go:242-253 | without adjustments the balance never goes below 0, if and only if neither rate nor capacity is negative |
| `TokenBucket.AdmittedIsBounded` | pkg/store/memory.go:242-253 | net admitted is within capacity plus rate times elapsed time over window |
| `TokenBucket.RequestGets` | pkg/store/memory.go:55-90 | after any run, a take is admitted if and only if the refilled balance covers it, and lowers it by just that; a refused take costs nothing; refunds and adjustments always count, up to the capacity |
| `TokenBucket.TokensAreConserved` | pkg/store/memory.go:55-90 | in every run, what was used, what is left and what spilled over is the capacity and what time generated |
| `SseParser.Parser.FeedBytes` | pkg/llm/sse_parser.go:31-69 | the parser state and events after one feed |
| `SseParser.Parser.ParseOne` | pkg/llm/sse_parser.go:72-107 | the event of one block, if it has data |
| `SseParser.ChunkingIsInvisible` | pkg/llm/sse_parser.go:31-69 | any cut of the stream, between CR and LF too, gives the same events and state as one feed |
| `SseParser.ParserIsAutomaton` | pkg/llm/sse_parser.go:31-107 | the events are those of a line-by-line automaton that reads the lines beginning with `data:` and dispatches at an empty line |
| `SseStandard.ParserMeetsStandardIff` | pkg/llm/sse_parser.go:31-107 | their data is that of the events of section 9.2.6 of the WHATWG HTML Standard, read by a definition of its own, if and only if no block with a line just `data` is ended |
| `SseStandard.BareDataIsMissed` | pkg/llm/sse_parser.go:72-107 | a stream on which they differ |
| `SseStandard.DoneMarksSentinel` | pkg/llm/sse_parser.go:72-107 | an event is marked as the end exactly if its data is `[DONE]` between white space |
| `FrameScanner.CompletePrefixLen` | pkg/llm/providers/openai.go:321-351 | the length of the longest complete prefix found from a start; what ends one is stated by `FrameScanner.EndAtIff` |
| `FrameScanner.EndAtIff` | pkg/llm/providers/openai.go:321-351 | the scan finds an end at a position exactly if LF LF, LF CRLF, CR CR, CRLF LF or CRLF CRLF starts there, and where it ends |
| `FrameScanner.StreamPump.OnRead` | pkg/llm/providers/openai.go:167-278 | what one read writes, keeps pending and sniffs |
| `FrameScanner.ScanNeverMissesAFrame` | pkg/llm/providers/openai.go:167-278 | at every read of every run the tail scan finds what a scan from 0 would |
| `FrameScanner.NoByteIsLost` | pkg/llm/providers/openai.go:167-278 | written plus pending is what was read, in every run, up to and with the read that exceeds the frame limit |
| `FrameScanner.FramesAreWhole` | pkg/llm/providers/openai.go:167-278 | a parser fed the written bytes holds at most one line end, so no event is torn |
| `FrameScanner.KeptBackIff` | pkg/llm/providers/openai.go:167-278 | in every run, an event that is complete is kept back if and only if a lone CR ends it after an LF in the pending bytes |
| `FrameScanner.NothingKeptBack` | pkg/llm/providers/openai.go:167-278 | so none is, where every CR is followed by its LF or there is no CR |
| `FrameScanner.LoneCrKeepsBack` | pkg/llm/providers/openai.go:167-278 | a read after which one is |
| `FrameScanner.FailsIffTooLong` | pkg/llm/providers/openai.go:167-278 | in every run, the loop gives up if and only if more than a mebibyte is pending |
| `WeightedRoundRobin.LoadBalancer.Select` | pkg/lbs/weighted_round_robin.go:25-71 | the new weights and the endpoint selected |
| `WeightedRoundRobin.StoredWeightsSumToZero` | pkg/lbs/weighted_round_robin.go:25-71 | over any sequence of endpoint lists the stored weights sum to 0 |
| `WeightedRoundRobin.PickFinds` | pkg/lbs/weighted_round_robin.go:47-62 | the first endpoint of greatest raised weight if one is not negative, the last endpoint otherwise |
| `WeightedRoundRobin.PickIsMaximumIff` | pkg/lbs/weighted_round_robin.go:47-62 | exactly when the search with its negative start finds a maximum |
| `WeightedRoundRobin.ChangingListsMissMaximum` | pkg/lbs/weighted_round_robin.go:25-71 | two selections from changing lists after which the search misses the maximum |
| `WeightedRoundRobin.PickLeaves` | pkg/lbs/weighted_round_robin.go:47-68 | every endpoint raised by its weight, the selected one lowered by the total |
| `WeightedRoundRobin.NeverAPickAhead` | pkg/lbs/weighted_round_robin.go:25-71 | for a fixed set starting at weight 0, after any k picks, picks times total stays below k times weight plus total |
| `WeightedRoundRobin.BlocksAreExact` | pkg/lbs/weighted_round_robin.go:25-71 | for a fixed set starting at weight 0, after m blocks of total-weight picks every endpoint was picked m times its weight and all weights are 0 |
| `Hedging.RaceSession.ClaimWinner` | pkg/invoker/hedging.go:442-458 | the first claim stands |
| `Hedging.RaceSession.TryWin` | pkg/invoker/hedging.go:471-517 | the claim made by a write, and whether its bytes go on |
| `Hedging.WinnerIsFinal` | pkg/invoker/hedging.go:442-517 | winner and winner context are decided once |
| `Hedging.ClientSeesOnlyTheWinner` | pkg/invoker/hedging.go:373-517 | in every interleaving the client has the winner's writes in order and nothing else; the headers a write sends are sent once at most, by the winner, before its bytes |
| `Hedging.ReturnedContextIsTheWinners` | pkg/invoker/hedging.go:139-254 | success copies back the context of the sub-call whose bytes the client has, after it completed |
| `Hedging.AllFailedMeansAllFailed` | pkg/invoker/hedging.go:139-254 | "all failed" only if both failed, none won and nothing was sent |
| `HedgingProgress.WinnerIsNotCut` | pkg/invoker/hedging.go:373-517 | in every run, the winner is cancelled only with the session or after its own failure, and otherwise all it began to write goes on to the client in order |
| `HedgingProgress.ResultsAreJustified` | pkg/invoker/hedging.go:139-254 | each result has its reason: a terminal failure, a cancelled session, or a completed winner whose loser is cancelled and whose writes the client has |
| `HedgingProgress.TerminalIffReported` | pkg/invoker/hedging.go:373-517 | the session is terminal if and only if some failure was reported so |
| `HedgingProgress.TerminalEndsRace` | pkg/invoker/hedging.go:139-254 | after a terminal failure the answer is never "all failed", and the caller's next check returns it |
| `HedgingProgress.CallerIsNeverStuck` | pkg/invoker/hedging.go:139-254 | in every run, once the sub-calls have nothing left to do the caller has returned or can go on: no wake-up is missed |
| `Cluster.InvokeCluster` | pkg/invoker/cluster.go:126-378 | the retry loop: error, context and log of upstream calls |
| `Cluster.TryOnce` | pkg/invoker/cluster.go:141-375 | one pass: discovery, exclusion, routers, selection, lease, call, decision |
| `Cluster.NextEndpointAfter` | pkg/invoker/cluster.go:430-449 | the cursor search |
| `Cluster.HasRemainingEndpoint` | pkg/invoker/cluster.go:421-428 | whether an endpoint is not excluded |
| `Cluster.ObservedAttempt.SequentialOutcome` | pkg/invoker/attempt_observer.go:40-58 | what the breaker hears, and the end of the lease |
| `Cluster.ObservedAttempt.Release` | pkg/invoker/attempt_observer.go:36-38 | ends the lease unless it has ended |
| `Cluster.InvokeWithFallback` | pkg/core/invoker.go:52-69 | the model loop and its fallback chain; how many models are tried |
| `Cluster.NextAfterFinds` | pkg/invoker/cluster.go:430-449 | the search finds an endpoint exactly if one is not ruled out |
| `Cluster.ClusterIsBounded` | pkg/invoker/cluster.go:126-378 | at most max(1, retries + 1) upstream calls, only the last of them final, with exclusion no endpoint twice; success exactly if the last call succeeded |
| `Cluster.NoCallAfterFirstByte` | pkg/core/invoker.go:52-87 | over models and retries together no call follows one that sent its first byte or succeeded |
| `Cluster.EveryLeaseEnds` | pkg/invoker/attempt_observer.go:28-58 | every lease begun is ended once, before the next begins and before the request returns; before that at most one record, and exactly what its call's outcome is to the breaker |
| `ClusterDecisions.SelectionIsChosen` | pkg/invoker/cluster.go:238-262 | the endpoint of an attempt: for round robin after a first attempt the next eligible one after the last in discovery order, going round; otherwise an eligible one, if the balancer picks any |
| `ClusterDecisions.UnselectedEnds` | pkg/invoker/cluster.go:141-237 | an attempt that cannot select ends the request without a call, with the error of the first thing that was missing |
| `ClusterDecisions.SelectedDecides` | pkg/invoker/cluster.go:238-378 | an attempt that selects calls the endpoint chosen unless the breaker refuses; another attempt follows exactly after a refusal under exclusion and after a retryable failure with an endpoint left |
| `ClusterDecisions.RetriesWhileCalledFor` | pkg/invoker/cluster.go:126-378 | attempts follow each other exactly as long as they call for another; the last one's answer is the answer |
| `ClusterDecisions.NextModelIff` | pkg/core/invoker.go:52-87 | the next model is tried if and only if the request may go on and one is left; the last one's answer is the answer |
| `SmartRouting.Validate` | pkg/core/smart_routing_config.go:49-81 | accepted exactly if the ranges are an ascending contiguous partition of 0..100 over at least two other models and the header is in order |
| `SmartRouting.SmartRangeIndex` | pkg/invoker/smart_request.go:155-162 | the first range that covers the score, or -1 if none does |
| `SmartRouting.PartitionIsTotal` | pkg/core/smart_routing_config.go:65-79 | over a partition each score in 0..100 is covered by exactly one range, no other by any |
| `SmartRouting.AcceptedNeverUnmatched` | pkg/invoker/smart.go:115-123 | with an accepted document the search always finds the one range |
| `SmartRouting.InvokeTargets` | pkg/invoker/smart.go:124-172 | the escalation loop |
| `SmartRouting.JudgedClimbs` | pkg/invoker/smart.go:124-172 | after a judgment: strictly increasing ranges from the score's, no model twice, each but the last unusable or a retryable failure, none passed over; "no target" only if all from the score's range upwards were |
| `SmartRouting.UnjudgedTakesHighest` | pkg/invoker/smart.go:124-172 | without one: at most one target invoked, and the model of every higher range was found unusable |
| `SmartRouting.Route` | pkg/invoker/smart.go:110-172 | the whole decision; "invalid partition" is never answered |
| `Publisher.AsyncPublisher.PublishEvent` | pkg/events/publisher_async.go:87-104 | the critical section of a publish |
| `Publisher.AsyncPublisher.StopAdmission` | pkg/events/publisher_async.go:107-111 | the critical section of a stop |
| `Publisher.AsyncPublisher.Admit` | pkg/events/publisher_async.go:149-156 | the worker publishes a taken event or leaves it pending |
| `Publisher.AsyncPublisher.Drain` | pkg/events/publisher_async.go:115-133 | after the drain everything accepted is published |
| `Publisher.ClosedMeansDrained` | pkg/events/publisher_async.go:115-161 | when Close has returned the delegate was handed the accepted events, each once and in order; before that a prefix |
| `Publisher.NothingAfterClose` | pkg/events/publisher_async.go:87-136 | nothing is sent on the closed channel or through the closed delegate |
| `Publisher.StopEndsAdmission` | pkg/events/publisher_async.go:87-113 | nothing is accepted once a stop or a close has begun |
| `Publisher.AcceptedIff` | pkg/events/publisher_async.go:87-104 | in every run, an event is accepted if and only if no stop has begun, the toggles set last do not switch its kind off, and the channel has room; it is then the last one accepted |
| `Publisher.CloseEnds` | pkg/events/publisher_async.go:107-161 | once Close has begun some thread can always go on, and no step puts the end off |
| `Publisher.CloseReturns` | pkg/events/publisher_async.go:107-161 | so from wherever Close has begun it can return, with everything accepted published |
| `Compensation.CompensationWorker.EnqueueTask` | pkg/compensation/queue.go:107-123 | a task at the end of the stream, or a store error and nothing changed |
| `Compensation.CompensationWorker.ClaimDelayed` | pkg/compensation/queue.go:127-156 | due tasks are added to the stream and then removed, one after the other, up to the first store error |
| `Compensation.CompensationWorker.ReadMessages` | pkg/compensation/worker.go:109-121 | the first ten unread messages become the batch |
| `Compensation.CompensationWorker.ProcessBatch` | pkg/compensation/worker.go:106-129 | a batch is read and its messages are handled in order, as the steps of the machine |
| `Compensation.CompensationWorker.HandleFailure` | pkg/compensation/worker.go:179-199 | a dead letter at the limit, otherwise a delayed retry; neither if the store refuses |
| `Compensation.CompensationWorker.HandleMessage` | pkg/compensation/worker.go:132-176 | one message, as the steps of the machine, with store errors |
| `CompensationPlaces.ExactlyOnePlace` | pkg/compensation/worker.go:132-244 | with unique identifiers, in every run in which no claim is cut off between its two operations and no acknowledgement is missed after the work is done: an enqueued task is in exactly one of stream, hand, delay, unacknowledged, dead letters, resolved, dropped, or in none exactly if the store refused to keep it |
| `CompensationPlaces.ExactlyOnePlaceIff` | pkg/compensation/worker.go:132-244 | with unique identifiers, this holds at every moment of a run if and only if no claim was cut off and no acknowledgement missed in that way |
| `CompensationRuns.CutOffClaimDuplicates` | pkg/compensation/queue.go:138-154 | a run with a claim cut off, after which a task is in two places |
| `CompensationRetries.CompensationsAreBounded` | pkg/compensation/worker.go:179-199 | in every run, crashes and store errors included, no copy of a task has more than max(1, MaxRetries - first) compensations behind it, and a dead letter exactly that many; MaxRetries is 5 if not set |
| `CompensationTimes.TimesAreAllowed` | pkg/compensation/worker.go:161-199 | counted over the run, in every run: an identifier is compensated at most max(1, MaxRetries - first) times for each time it is enqueued, and max(1, MaxRetries - attempt) times more for each claim of it that is cut off |
| `CompensationTimes.TimesAreBounded` | pkg/compensation/worker.go:161-199 | so with unique identifiers and no claim cut off, whatever else fails, a task is compensated at most max(1, MaxRetries - first) times |
| `CompensationTimes.DeadLettersAreSpent` | pkg/compensation/worker.go:179-190 | and a dead letter exactly that often |
| `CompensationTimes.CopiesAreGenuine` | pkg/compensation/worker.go:161-199 | in every run each copy comes from an enqueued task that was compensated at least as often as the copy says |
| `CompensationRuns.CutOffClaimRepeats` | pkg/compensation/queue.go:138-154 | a run with a claim cut off in which a task with two attempts is compensated three times |
| `CompensationRuns.CrashForgetsAttempt` | pkg/compensation/worker.go:161-199 | a crash after a failed attempt, after which the only copy does not know of the attempt |
| `CompensationRetries.RetriesAreDelayed` | pkg/compensation/worker.go:192-197 | in every run, crashes and store errors included: a task about to be compensated again was stored as that retry at an earlier step and found due at a step in between, whose clock was at least attempt² seconds later |
| `CompensationRetries.DelaysAreExact` | pkg/compensation/worker.go:179-199 | in every run, a delayed entry is a failed task stored before its last attempt, due exactly attempt² seconds after the clock of that step |
| `CompensationOutcomes.ResolvedIffSucceeded` | pkg/compensation/worker.go:132-176 | in every run, the resolved tasks are those whose compensation succeeded and the dropped ones those without a compensator, in order |
| `CompensationOutcomes.FailuresAreRecorded` | pkg/compensation/worker.go:161-190 | in every run, a task about to be stored is the outcome of a failed compensation: one attempt more, with its error |
| `CompensationLoss.NothingIsLost` | pkg/compensation/worker.go:132-244 | whatever crashes and store errors there are, an enqueued task is resolved, dropped, dead or still has a copy, unless the store refused to keep it after a failure |
| `CompensationLoss.LostIff` | pkg/compensation/worker.go:179-236 | in the runs of `ExactlyOnePlace`, between batches: a task has no copy left if and only if the store refused to keep it, since the worker acknowledges it all the same |
| `CompensationRuns.RefusedTaskIsLost` | pkg/compensation/worker.go:179-244 | a run after which a task has no copy left |

## Left out

- HTTP, WebSocket, Redis and Lua, Kafka, ClickHouse, Kubernetes, configuration loading, logging and metrics: plumbing.
- JSON decoding and encoding, item and chunk identifiers that no statement below names, timestamps: frames and events are datatypes with the fields the statements need.
- Breaker.BreakerEntry.RecordLocked: does not set the threshold and current value carried by the opened event, which no decision reads.
- BreakerLeases.RecordKeeps: policy lookup and error matching (which policies apply, whether an error counts) are inputs of the step.
- ChatToMessages.Stream.FeedJSON: does not return the diagnostics (character counts, flush hints, cached tokens), which no event depends on.
- MessagesToChat.MessagesStream.FeedJSON: does not return diagnostics either, nor model created timestamps and token usage fields.
- ChatToResponses.ResponsesStream.FeedJSON: does not return diagnostics (the end marker and the finish reason go nowhere else).
- ChatToResponses.ResponsesStream.FinishCalls: a custom call's item carries its argument text; taking the patch out of that text is JSON work.
- ResponsesGrammar.EveryItemIsTold: names are the subject of ResponsesCalls.CallsAreTold; it does not say that a call is announced before its deltas, since its name may come late or never; of a call that turned custom it says only that the deltas sent are a beginning of its arguments.
- The Responses to Messages and non-streaming translators: per-message rewrites without a state machine.
- Quota.Limiter.Execute: a burst window is charged in a token bucket, whose answer is an input; the counters live within one window epoch, and estimates and usage are not negative.
- QuotaProtocol.CountersAreConserved: covers token and cost policies, which share one structure; request-count limits record no reservation. The settlement loop that estimates again instead of using reservations is not modelled.
- QuotaProtocol.AdmittedIffWithinThreshold: waiting for capacity is a further attempt of the same policy; the wait itself is not modelled.
- FixedWindow.OneEpochIsPlainCounter: covers one window; FixedWindow.CountsSinceLatestOpening covers any number of them.
- TokenBucket.NeverOverspends: balances are real numbers without rounding; rate, capacity and window are fixed over a run, and the window is positive, since the source divides by it.
- WeightedRoundRobin.PickFinds: for endpoint lists with distinct identifiers, as are the fairness statements; the zero-sum statement needs no such condition.
- FrameScanner.StreamPump.OnRead: the error sniffing, usage accounting and client write errors of the loop are not modelled.
- SseParser.ParserIsAutomaton: characters stand for decoded text.
- SseStandard.ParserMeetsStandardIff: covers the data field of a stream whose byte order mark has been removed; the code reads no other field and does not look for the mark.
- Hedging.ClientSeesOnlyTheWinner: begins when the two endpoints are chosen; timers and cancellations are steps that may happen at any time. Headers and status that a provider sets directly through the embedded writer pass around the race and are not modelled. A failed sub-call cancels its own context in the step that reports its failure.
- Cluster.InvokeCluster: sleeping, timeouts and the saved fields of the last attempt are not modelled; routers keep some of their endpoints and load balancers pick one of theirs.
- Cluster.ObservedAttempt.SequentialOutcome: the latency penalty is not modelled, and whether a call was slow is an input.
- SmartRouting.Validate: white space, case folding and lower case are parameters.
- SmartRouting.Route: building and parsing the judge call are not modelled; its score is an input in 0..100, the range its parser accepts.
- CompensationPlaces.ExactlyOnePlace: there is one worker; messages read but not acknowledged by a crashed worker are never read again, as in the source.
- CompensationLoss.LostIff: leaves out the runs that leave a task twice, where a task may be refused and still have a copy; CompensationLoss.NothingIsLost covers them.
- CompensationRetries.RetriesAreDelayed: clocks are whole milliseconds.
- ResponsesCalls.ToolSurvivesIff: for tools with a name that the mapper restores at all, which ToolNames.RestoreUndoesIff decides.
- Publisher.ClosedMeansDrained: handing an event to the delegate is one step, whatever the delegate answers.
- Simple selectors and filters (random, cost, priority, capability, authentication, aliases): easy members only.
