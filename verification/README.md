# digcore: state machines and transformations, verified

A Dafny model of the parts of digcore that carry state from one call to the next or rewrite
data: the conversation history on its way to the AI, the life cycle of an alert, remote
sessions around a shared semaphore, the window of collected alerts, the shell word splitter,
and some smaller structures. Every file holds one module and its head names the Go files it
follows. `dafny verify dfyconfig.toml` checks the whole project.

Go code that changes things step by step is written here as methods with loops and as classes
with fields. Each of them is proved equal to a function of its inputs or of the old state, and
the properties are lemmas about these functions: over every input, every run, or every
reachable state. What the outside world decides (the AI's replies, tool results, whether a
notifier accepts an event, runners, clocks) is a parameter.

- **Messages, Compact, Bedrock, ChatStream, DiagnoseLoop.** A history is a system prompt
  followed by whole groups: a lone user or assistant message, or an assistant message with
  k >= 1 tool calls followed by exactly its k replies in order. The loops extend it,
  `trimHistory` and `CompactMessages` shorten it, and the Bedrock converter rewrites it into
  alternating speakers; call/reply pairing survives all of it. `ChatStream` follows the Go
  slice behind the history as well: what the array holds behind the visible messages decides
  what a rollback brings back.
- **Alerts.** One key is a small machine; the engine is proved to be one such machine for every
  key. Trace properties hold over unbounded sequences of events.
- **SessionProtocol, SessionManager, SessionMachine.** What one session sends, the table of
  sessions, and all interleavings of starts, cancels, disconnects, goroutine ends and local
  diagnoses around the semaphore.
- **Aggregator.** Any interleaving of Submit, timer callbacks (stale ones included) and
  Shutdown.
- **Shell.** The goto machine against an automaton that reads one character at a time (quoting
  as in section 2.2 of the Shell Command Language chapter of IEEE Std 1003.1-2017), and against
  a printer that quotes words.
- **RingBuffer, Registry, Reconnect, Failover, Report.** Refinements and bounds. Valid text is
  that of sections 3 and 4 of RFC 3629.

Three places where the code does less than its comments or its names promise, each with its exact
condition:

- `trimHistory` (`diagnose/streaming.go:322-325`) is said never to split a tool-call sequence.
  It does, exactly when its forced cut lands on a tool reply (`TrimmedWholeIff`, and an instance
  in `TrimmedSplitsLongExchange`). Called from `HandleMessage` it never takes that cut
  (`TrimmedTurn`).
- `HandleMessage` (`diagnose/streaming.go:71-72`) is said to roll the user message back on an
  error. It slices by a length taken before compaction. A failed turn keeps the promise when only
  the new message stood behind the prompt, when no list of the turn was over the limit, or when the
  failing call saw the prompt alone (`FailedTurnRestores`), and only then if the first message
  behind the prompt does not come again (`FailedTurnIff`; `FirstCallFailureIff` needs no such
  hypothesis). Otherwise the rollback keeps the wrong messages, as in the run of
  `CompactedRollbackSplits`, or panics (`FirstCallPanicsIff`).
- A finishing session removes by id whatever session stands under its id
  (`server/session_handler.go:84`), so a session can run without being registered:
  `FinishRemovesOtherIff` says when, `IdReuseIsReachable` and `ReusedIsOvertaken` that it happens,
  and `RunningIsListedUnlessAsked` that it does not as long as every id is used once.

## Model

| member | source | states |
|---|---|---|
| Messages.SuffixWholeIff | diagnose/aiclient/compact.go:78-98 | cutting whole groups leaves whole groups exactly when the cut is not in front of a tool reply |
| Messages.ReplyInsideExchange | diagnose/aiclient/compact.go:83-90 | in a history every tool reply stands in the unbroken run of tool messages behind a call, which is what the parser relies on |
| Messages.GroupsAppend | diagnose/streaming.go:143-186 | whole groups behind whole groups are whole groups |
| Messages.ExchangeIsWhole | diagnose/streaming.go:143-186 | an assistant message with calls and one reply for each call, in order and with its id, is a whole group |
| Compact.EstimateMessageTokens | diagnose/aiclient/compact.go:66-76 | half the runes of the text, rounded up, and 4, and for each call half its name, half its arguments, both rounded up, and 10 |
| Compact.EstimateMessagesTokens | diagnose/aiclient/compact.go:49-57 | the sum of these costs over the list |
| Compact.TokensSplit | diagnose/aiclient/compact.go:26-34 | the estimate of a suffix is that of its parts, and a longer suffix costs strictly more |
| Compact.ParseGroup | diagnose/aiclient/compact.go:82-95 | a group reaches from one boundary to the next, with no boundary inside, and carries the estimate of its messages |
| Compact.ParseMessageGroups | diagnose/aiclient/compact.go:78-98 | the groups partition messages[1:] exactly at the places where no tool exchange is cut |
| Compact.CompactMessages | diagnose/aiclient/compact.go:9-47 | returns the specified compaction on every input, and the keepFrom == 0 return is unreachable |
| Compact.CompactedIsLongestFit | diagnose/aiclient/compact.go:3-47 | over budget: system prompt plus the longest suffix of whole groups that fits, something is removed, and the estimate is within budget if and only if the prompt alone is |
| Compact.CompactedUnchangedIff | diagnose/aiclient/compact.go:8-17 | compaction leaves a list alone if and only if it has at most one message, the budget is not positive, or the costs are within it |
| Compact.HistoryBoundary | diagnose/aiclient/compact.go:78-98 | in a history the boundaries of groups are exactly the places in front of no tool reply |
| Compact.CompactedIsHistory | diagnose/aiclient/compact.go:3-8 | compaction of a history is a history: no reply is separated from its call |
| Bedrock.ConvertAssistantMessage | diagnose/aiclient/bedrock.go:207-230 | read back, the blocks say the text unless it is empty and there are calls, then every call with its id, name and arguments, raw exactly when they are JSON |
| Bedrock.ConvertMessage | diagnose/aiclient/bedrock.go:192-246 | read back, the blocks say what the fields of the message say: text and calls of the assistant, id and text of a tool reply, the text of anything else for the user |
| Bedrock.MergeConsecutiveMessages | diagnose/aiclient/bedrock.go:248-264 | merging in place computes the merged list |
| Bedrock.MergedKeepsBlocks | diagnose/aiclient/bedrock.go:248-264 | the merged list alternates the speakers, and keeps every block with its speaker, in order |
| Bedrock.AlternatingUnique | diagnose/aiclient/bedrock.go:248-264 | an alternating list without empty messages is determined by its blocks, so the previous row fixes the result |
| Bedrock.BuildConverseRequest | diagnose/aiclient/bedrock.go:167-190 | read back, the request says, in order and by the same speakers, exactly what the fields of the messages say, and the system texts apart, wherever they stand |
| Bedrock.RequestSaysAll | diagnose/aiclient/bedrock.go:167-264 | the same for the specified request, for every list of messages: conversion and merging lose, add and reorder nothing |
| Bedrock.GroupsArePaired | diagnose/aiclient/bedrock.go:168-264 | whole groups become strictly alternating messages in which each assistant message's tool uses are answered, in order, by the next message, with no result unasked for |
| Bedrock.HistoryIsPaired | diagnose/aiclient/bedrock.go:168-190 | the request built from a history has that shape, and its system text is the system prompt |
| ChatStream.TrimHistory | diagnose/streaming.go:326-358 | everything up to 41 messages; else the prompt and what follows the first of the last 40 messages that is no tool reply and no call; if there is none, everything up to 80 messages and the last 40 beyond |
| ChatStream.TrimmedWholeIff | diagnose/streaming.go:322-358 | a trimmed history is a history if and only if the forced cut is not taken or does not land on a tool reply |
| ChatStream.TrimmedSplitsLongExchange | diagnose/streaming.go:322-358 | a history that trimming splits: one call with 80 replies |
| ChatStream.TrimmedTurn | diagnose/streaming.go:73-81 | with the new user message behind it: no forced cut, no split exchange, 2 to 41 messages, the user message last, and nothing trimmed up to 40 earlier messages |
| ChatStream.LoopKeepsHistory | diagnose/streaming.go:91-190 | from a history the rounds send only histories and end with one |
| ChatStream.LoopAppends | diagnose/streaming.go:91-190 | without compaction the rounds only append |
| ChatStream.TurnIsTold | diagnose/streaming.go:73-190 | for every turn, from its rounds alone: the status, what was handed to the AI round by round, how the history ends, and, if no list is over the limit, what stands behind the new message, field by field |
| ChatStream.StopsSomewhere | diagnose/streaming.go:94-133 | the rounds of a turn stop somewhere: at the first that calls no tools, or at 20 |
| ChatStream.FailedTurnRollsBack | diagnose/streaming.go:71-88 | a failed turn without compaction leaves the trimmed history without the new message, a history again, and the history before the call if that had at most 40 messages |
| ChatStream.FirstCallFailureIff | diagnose/streaming.go:71-88 | when the first AI call fails, the rollback is right if and only if there is no limit, the estimate is within it, compaction leaves the prompt alone, or it drops one of messages that are all alike |
| ChatStream.FailedTurnRestores | diagnose/streaming.go:71-88 | for every failed turn: the rollback is right if only the new message followed the prompt, if no message list of the turn is over the limit when its AI call is due, or if the first list that is over has no group that fits and the AI call behind it fails |
| ChatStream.FailedTurnIff | diagnose/streaming.go:71-88 | and only if, when the first message behind the prompt does not come again in the turn; the conditions unroll the turn's input and do not mention its result |
| ChatStream.FirstCallPanicsIff | diagnose/streaming.go:79-85 | when the first AI call fails, the rollback panics if and only if compaction copied more than the prompt but less than the rollback cuts at |
| ChatStream.CompactedRollbackSplits | diagnose/streaming.go:79-88 | a new stream with limit 9 that answers one message reaches a history on which a failed turn keeps the new user message and leaves a call without its replies |
| ChatStream.RunSendsHistories | diagnose/streaming.go:71-190 | over any run of turns and resets in which no turn fails after compaction, every message list sent is a history, its Bedrock request alternates and is paired, and the run ends with a history |
| ChatStream.UnlimitedIsClean | diagnose/streaming.go:99-101 | with contextWindowLimit <= 0 every run is such a run |
| ChatStream.RunSendsWithinLimit | diagnose/streaming.go:99-107 | over any run, failed turns included, every message list sent is estimated within the limit or is the system prompt alone |
| ChatStream.Stream.constructor | diagnose/streaming.go:54-69 | the history starts as the system prompt |
| ChatStream.Stream.CallTools | diagnose/streaming.go:143-186 | appends the assistant message and one reply for each call |
| ChatStream.Stream.Shorten | diagnose/streaming.go:99-101 | compaction, as a copy or as a shorter view of the same array |
| ChatStream.AppendWritesArray | diagnose/streaming.go:75-85 | append writes over what the array holds behind the slice, or moves to a longer array of zero messages, which is what a rollback can see |
| ChatStream.Stream.TakeRound | diagnose/streaming.go:95-186 | one round: it is the last exactly when no tools are called, fails exactly without a reply, and a reply is answered and appended as it is |
| ChatStream.Stream.ConversationLoop | diagnose/streaming.go:91-190 | the reply is the text of the first round without calls, or the notice about incomplete rounds; each list handed over is the prepared one, followed by the calls and one output for each call |
| ChatStream.Stream.Rollback | diagnose/streaming.go:84 | a slice expression looks into the spare room of the array and panics beyond it |
| ChatStream.Stream.HandleMessage | diagnose/streaming.go:73-88 | one call is one turn behind the trimmed history with the new message: it returns the text of the first round without calls and leaves the conversation that led to it, and fails exactly if that round has no reply |
| ChatStream.Stream.Clear | diagnose/streaming.go:365-372 | Reset keeps the system prompt alone, or nothing |
| DiagnoseLoop.Prepare | diagnose/engine.go:271-287 | over the limit the list becomes one that keeps its first message and is within the limit, or that message alone; otherwise nothing is dropped; then the context warning when the estimate is first over 90 percent, or else the warning of the last round |
| DiagnoseLoop.CallTools | diagnose/engine.go:300-373 | the calls and one output for each call go behind the list, field by field, and the estimate is the reported total, or the running one, plus theirs |
| DiagnoseLoop.Diagnose | diagnose/engine.go:251-391 | the report is the text of the first round without calls; without a reply the diagnosis fails, and without such a round it is incomplete; and how many lists are sent |
| DiagnoseLoop.DiagnosisIsTraced | diagnose/engine.go:251-384 | a whole diagnosis, round by round, with the running estimate told from the reported totals and the messages: what each round begins with, keeps, adds and sends |
| DiagnoseLoop.ContextWarningComesOnce | diagnose/engine.go:276-281 | the context warning ends exactly the list of the first round that is over 90 percent of the limit |
| DiagnoseLoop.DiagnosisSendsHistories | diagnose/engine.go:251-391 | in every run of a diagnosis each message list sent is a history and its Bedrock request alternates and is paired |
| DiagnoseLoop.LastRoundAsksForReport | diagnose/engine.go:276-287 | at most one AI call a round, and a call in the last round ends with the instruction to stop calling tools |
| Alerts.KeyIndependence | engine/engine.go:33-63 | for every key, cache entry, diagnosis latch and effects of an interleaved run are those of the key's own events alone |
| Alerts.EpisodesKeepPromises | engine/engine.go:100-148 | in every episode of a key, whatever settings its events come with: NotifyCount and LastSent are the number and time of successful sends, the cached event is the last one sent or the one that raised the alert, FirstFireTime stays, each send respects the RepeatNumber, RepeatInterval and ForDuration (in whole seconds) under which it is made, and there is one diagnosis if some send could ask for one |
| Alerts.EngineKeepsPromises | engine/engine.go:25-148 | the same for every key of the whole engine, over any interleaving of keys |
| Alerts.EpisodeDecidesEffects | engine/engine.go:66-148 | behind any run of a key: an alert is sent exactly when the episode so far makes it due, a diagnosis is asked for exactly at the first successful send that finds an aggregator, a recovery is forwarded exactly when recoveries are on and the last successful send has a positive time |
| Alerts.DeliveriesAreCyclic | engine/engine.go:80-97 | with recovery notifications and positive times, what is delivered for a key is (A+ R)* A* |
| Alerts.EngineDeliveriesAreCyclic | engine/engine.go:25-97 | the same for every key of the whole engine, for the inputs PushRawEvents makes of events without a negative time |
| Alerts.RunAppends | engine/engine.go:25-64 | the runs of two queues, one behind the other, are one run |
| Alerts.DiagnosedIsCached | engine/engine.go:66-97 | diagnosed keys are always cached keys, for any mixture of settings |
| Alerts.Engine.HandleRecoveryEvent | engine/engine.go:80-97 | the step of a recovery on the cache, the latch and the notifiers |
| Alerts.Engine.HandleFirstAlert | engine/engine.go:103-120 | the first alert of an episode: cached in any case, sent at once without ForDuration |
| Alerts.Engine.HandleRepeatedAlert | engine/engine.go:122-147 | a further alert: the three checks in order, and the cache changes only on a successful send |
| Alerts.Engine.HandleAlertEvent | engine/engine.go:99-148 | both branches together, over mutable events in the cache |
| Alerts.Engine.MayTriggerDiagnose | engine/engine.go:66-78 | submits once until the key recovers |
| Alerts.Engine.Push | engine/engine.go:33-62 | one turn of the loop is one step of the model on the key and status of the event and its time, or the time of the push if it has none |
| Alerts.Engine.PushRawEvents | engine/engine.go:25-64 | a queue is the run of its inputs: nil events are skipped, every other input has the key, status and time of its event, or the time of the push if that is zero; with a positive time of the push and no negative event time all times are positive |
| SessionManager.Manager.Add | server/session.go:87-96 | registers unless the id is taken, as the Add step of the session machine does |
| SessionManager.Manager.Remove | server/session.go:98-109 | removes and cancels whatever stands under the id, cancels nothing else, and is the CancelMessage step of the session machine |
| SessionManager.Manager.Get | server/session.go:111-116 | the only registered session with that id, or nil when no registered session has it |
| SessionManager.Manager.CancelAll | server/session.go:125-143 | empties the table, cancels every session that was in it, and is the Disconnect step of the session machine |
| SessionProtocol.RunInspectOrDiagnose | server/session_handler.go:206-252 | message by message: which error and text is sent, or every streamed piece and then nothing or the error of the runner; and the report is the runner's, or empty |
| SessionProtocol.ProcessTurn | server/session_handler.go:293-317 | every streamed piece and then the reply, the error or the answer to a panic, each with its text; it ends the chat exactly on an error in a done context |
| SessionProtocol.RunChat | server/session_handler.go:254-341 | message by message: the error that prevents a chat, or the turns one behind the other until one ends the chat |
| SessionProtocol.RunRemoteSession | server/session_handler.go:158-204 | message by message what a session of each kind sends, closed by one output that carries the report of the runner or an empty one |
| SessionProtocol.ScriptClosesOnce | server/session_handler.go:170-204 | exactly one done=true output, behind everything else, and no ACK from the goroutine |
| SessionMachine.RunKeepsInv | server/session_handler.go:43-86 | every interleaving keeps: slots equal holders and stay within capacity, table entries are live, removed sessions are cancelled, messages follow the phase |
| SessionMachine.Semaphore | diagnose/engine.go:496-510 | in every reachable state the slots held are those of running local diagnoses and of sessions between TrySem and ReleaseSem; never over capacity; every registered session holds its own |
| SessionMachine.SlotsStep | diagnose/engine.go:87-96 | one action of any goroutine conserves the slots |
| SessionMachine.RemovedImpliesCancelled | server/session.go:98-143 | a session that was registered and is not in the table is cancelled or about to be by whoever took it out |
| SessionMachine.Protocol | server/session_handler.go:12-87 | each start is answered once, positively exactly for sessions that were registered, before any output; an ended session has sent one closing output, last |
| SessionMachine.FinishRemovesOtherIff | server/session_handler.go:82-86 | a finishing session takes another one out of the table if and only if that one is registered under its id on its connection, and that one is then cancelled while it runs |
| SessionMachine.FinishTakesOwn | server/session_handler.go:82-86 | when no id of a connection was registered twice, a finishing session takes only itself out of the table |
| SessionMachine.RunningIsListedUnlessAsked | server/session_handler.go:63-86 | in every run that registers each id once, a session that has not ended stands in the table unless a cancel message for it or the loss of its connection came in |
| SessionMachine.ConnectionsAreApart | server/session.go:75-79 | what happens on one connection leaves the tables of the others alone |
| SessionMachine.FinishTakesLikeCancel | server/session_handler.go:84-150 | a finishing session does to the table what a cancel message with its id does |
| SessionMachine.IdReuseIsReachable | server/session_handler.go:142-156 | an id can be used again before the cancelled session that had it has ended |
| SessionMachine.ReusedIsOvertaken | server/session_handler.go:82-86 | the old session then ends while the new one is registered under its id |
| Aggregator.RunKeepsInv | diagnose/aggregator.go:37-114 | under any interleaving pending and timers have equal keys, events and checks stay aligned, and for every key what was accepted is what was submitted or dropped followed by what is pending, in order |
| Aggregator.DiagnoseAggregator.SubmitEvent | diagnose/aggregator.go:35-125 | an event is accepted exactly if AI and diagnosis are enabled, it is no recovery and it is severe enough; it goes behind the window of its plugin and target, which keeps its settings, or opens one with its own settings or one and ten minutes; other windows stay |
| Aggregator.DiagnoseAggregator.OnTimer | diagnose/aggregator.go:88-102 | a callback is one step and hands on exactly the removed request |
| Aggregator.DiagnoseAggregator.ShutDown | diagnose/aggregator.go:105-114 | the loop over the timers is one step, and leaves nothing pending |
| Shell.RoundTrip | pkg/shell/shellquote.go:25-66 | any list of words, single-quoted with quotes escaped and joined with blanks, splits into itself |
| Shell.DoubleRoundTrip | pkg/shell/shellquote.go:22-157 | any list of words, double-quoted with a backslash in front of dollar, backquote, double quote and backslash, and joined with blanks, splits into itself |
| Shell.BackslashInDoubleQuotes | pkg/shell/shellquote.go:131-157 | between double quotes a backslash and a newline vanish, the backslash goes in front of these four characters, and stays in front of any other |
| Shell.PlainRoundTrip | pkg/shell/shellquote.go:18-103 | words without blanks, newlines, tabs, quotes and backslashes are kept whole, and end at every blank, newline or tab |
| Shell.BackslashOutside | pkg/shell/shellquote.go:44-118 | outside quotes a backslash and a newline vanish, and any other character behind a backslash is kept |
| Shell.PiecesTouch | pkg/shell/shellquote.go:71-157 | pieces that touch are one word, however each is quoted |
| Shell.LeftOpen | pkg/shell/shellquote.go:107-156 | what is left open at the end is reported: the single quote, the double quote or the escape |
| Shell.LeadingSeparator | pkg/shell/shellquote.go:38-43 | a separator in front of a line does not matter |
| Shell.SplitsConcatenate | pkg/shell/shellquote.go:34-66 | if a splits without error, then a, a separator and b split into the words of a followed by the words, or words and error, of b |
| Shell.ScanRaw | pkg/shell/shellquote.go:71-103 | the raw block does what the automaton does up to the next quote, escape, separator or the end |
| Shell.ScanDouble | pkg/shell/shellquote.go:131-157 | the slice-and-flush block does what the automaton does up to the closing quote, or the quote is unterminated |
| Shell.SplitWord | pkg/shell/shellquote.go:68-161 | the goto machine terminates and yields the automaton's next word and the rest, or its error |
| Shell.QuoteSplit | pkg/shell/shellquote.go:25-66 | the same words, or the same words so far and the same error, as the automaton, on every input |
| RingBuffer.Ring.constructor | server/ringbuf.go:20-28 | an empty buffer of the given capacity, or 1000 |
| RingBuffer.Ring.Push | server/ringbuf.go:30-40 | the element goes behind the queue, and the oldest one goes when the buffer was full |
| RingBuffer.TakeSlots | server/ringbuf.go:57-63 | the loop reads the n oldest elements in order and clears exactly their slots |
| RingBuffer.Ring.Drain | server/ringbuf.go:42-66 | returns and removes the oldest elements in order, as many as asked for or all; unused slots are nil |
| RingBuffer.Ring.Len | server/ringbuf.go:68-73 | the length of the queue |
| RingBuffer.FlushAlertEvents | server/conn.go:366-402 | an undisturbed flush terminates; batches, lost batch and rest concatenate to the buffer; batches hold 100 events except the last; it ends empty or at the first batch that is not delivered |
| RingBuffer.SentIsSubsequence | server/conn.go:366-402 | under any interleaving of pushes and batches, what was sent are pushes in order, each at most once, all older than what the buffer still holds |
| Reconnect.BackoffInRange | server/conn.go:491-543 | over any errors the backoff stays within 1 second and 30 minutes |
| Reconnect.PlainFailuresDouble | server/conn.go:534-542 | the k-th plain failure behind a lost live connection waits min(2^k s, 300 s), whatever came before |
| Reconnect.AuthFailuresDouble | server/conn.go:524-532 | from the start, k earlier auth failures make the wait min(2^k min, 30 min) |
| Reconnect.LongPlainWaitFollowsAuth | server/conn.go:524-542 | a plain failure waits over 300 seconds only directly behind an auth failure |
| Reconnect.BackoffIsForgotten | server/conn.go:513-537 | a requested disconnect or a lost live connection makes all earlier errors irrelevant |
| Reconnect.RequestedWait | server/conn.go:509-542 | behind any errors: a requested disconnect waits as long as it says, but at least a second; no error waits for nothing; every other error waits for the backoff as it stands |
| Reconnect.RunForever | server/conn.go:203-236 | the loop waits, before jitter, as the function of the errors so far says |
| Failover.ChatWithRetry | diagnose/aiclient/retry.go:18-65 | attempts follow each other exactly while they end in one of the statuses 429, 500, 502, 503, 504 or an error without a status that is no cancellation; the first other outcome, the last attempt or the context decides |
| Failover.RetryBounded | diagnose/aiclient/retry.go:21-44 | at least one call and at most MaxRetries + 1 |
| Failover.ExhaustedMovesOn | diagnose/aiclient/failover.go:138-148 | when every attempt ends in a retryable error all are made, the last error is returned, and the next model is due |
| Failover.RetryableFailsOver | diagnose/aiclient/failover.go:194-203 | a retryable error is failover-eligible, and the converse fails only for other statuses from 500 up |
| Failover.ChatByPriority | diagnose/aiclient/failover.go:137-149 | models in priority order, each behind one that failed with 429, a status from 500 up or an error without a status that is no cancellation; none behind the first other result, whose model is named |
| Failover.CallsAreOrderedAndBounded | diagnose/aiclient/failover.go:137-149 | the calls go through the models in order, 1 to MaxRetries + 1 for each, at most len * (MaxRetries + 1) together |
| Failover.FailoverClient.PinModel | diagnose/aiclient/failover.go:152-164 | an unknown name changes nothing; the empty name unpins |
| Failover.FailoverClient.Chat | diagnose/aiclient/failover.go:113-150 | no models, a pinned model without failover, or the models by priority |
| Report.TruncateUTF8 | diagnose/report.go:82-95 | on any bytes: all of them if they fit, else as many as fit in front of the last byte that can start a character |
| Report.PrefixValidIff | diagnose/report.go:91-94 | in valid text a prefix is valid exactly when it does not stop in front of a tail byte |
| Report.TruncatedIsValid | diagnose/report.go:82-95 | of valid text: a valid prefix within the limit that loses at most 3 bytes against it |
| Report.TruncatedIsLongest | diagnose/report.go:82-95 | no longer valid prefix fits |
| Report.FormatReportDescription | diagnose/report.go:19-43 | header, report and footer; the report is cut and noted, or just cut where there is no room for the note; the header is cut alone where header and footer do not fit |
| Report.Description | diagnose/report.go:12-18 | never over 2048 bytes, and it starts with the header when header and footer fit |
| Report.DescriptionIsValid | diagnose/report.go:19-43 | valid parts make valid text |
| Report.DescriptionKeepsFrame | diagnose/report.go:19-43 | header and footer stay whole when they fit; the report is whole if it fits, and otherwise at most 3 bytes of the limit are unused |
| Registry.RunKeepsIndex | diagnose/registry.go:30-70 | in every registry that registrations build, the index is exactly the name index of the disjoint category lists, and its size the sum of their lengths |
| Registry.StepKeepsIndex | diagnose/registry.go:30-70 | one registration keeps that, duplicates and category updates included |
| Registry.OwnerDecides | diagnose/registry.go:324-340 | the one category that owns a tool decides whether some category lists it for an operating system |
| Registry.FilteredHolds | diagnose/registry.go:121-127 | the filtered list holds exactly the supported tools |
| Registry.FilteredAppends | diagnose/registry.go:121-127 | and it keeps their order |
| Registry.ToolRegistry.Register | diagnose/registry.go:30-55 | a taken name changes nothing; otherwise the tool goes behind those of its category, made from its name and the scope of the tool if new, and into the index, which stays exact |
| Registry.ToolRegistry.RegisterCategory | diagnose/registry.go:57-70 | plugin, description and scope are set; tools, index and other categories stay |
| Registry.ToolRegistry.Get | diagnose/registry.go:91-97 | finds a tool if and only if some category lists one of that name, and then it is the listed tool |
| Registry.ToolRegistry.ByPluginForOS | diagnose/registry.go:112-128 | exactly the tools of the category that name the system or none, if the description names the system or none, in order |
| Registry.ToolRegistry.ToolSupportedOn | diagnose/registry.go:322-354 | for every order of visiting the map: true if and only if some category offers a tool of that name on the system, which is when ByPluginForOS lists it; the final return true is unreachable |
| Registry.ToolRegistry.ToolCount | diagnose/registry.go:260-265 | the number of tools over all category lists |

## Left out

- ChatStream.FirstCallFailureIff: covers failures of the first AI call of a turn; later failures are FailedTurnRestores and FailedTurnIff.
- ChatStream.FirstCallPanicsIff: covers the first AI call of a turn; whether a later rollback panics depends on the size the runtime gives a grown array.
- ChatStream.FailedTurnIff: the only-if half assumes that the first message behind the prompt does not come again in the turn; with repeated messages a wrong rollback can produce the right list by coincidence.
- ChatStream.RunSendsHistories: excludes runs in which a turn fails after a compaction, because CompactedRollbackSplits shows that they need not leave a history.
- ChatStream.Stream.HandleMessage: the size the Go runtime gives a grown array is a parameter; what follows a panic in the rollback is not modelled.
- Alerts.Engine.PushRawEvents: events are new objects with zero counters, as server/conn.go:47-48 says they are; the key computed by clean (labels, MD5) is given with the event.
- Alerts.Engine.Push: the submission to the aggregator is an effect in the log; its outcome is modelled in Aggregator.
- SessionMachine.Semaphore: safety only; that sessions end and slots come free is not claimed, and the admission checks in front of Submit (cooldown, daily tokens) are one bit.
- SessionMachine.Protocol: sends are attempts, which a closed connection drops; runners do not call back after returning and do not panic; handleSessionInput and the metadata of outputs are not modelled.
- Aggregator.RunKeepsInv: what the engine does with a submitted request, and the length of the window, are not modelled.
- Shell.QuoteSplit: text is a sequence of decoded runes, and the Windows branch that keeps the backslash (pkg/shell/shellquote.go:86-87) is not modelled.
- RingBuffer.FlushAlertEvents: encoding and sending are one bit for each batch; nil events are not pushed.
- Reconnect.RunForever: jitter and sleeping are not modelled, and durations do not wrap around at 64 bits.
- Failover.ChatWithRetry: the lengths of the waits between attempts and their jitter are not modelled; an APIError is taken to be the innermost error, so that none is also a cancellation.
- Report.FormatReportDescription: header, footer and the note about the cut are given as bytes; how they are formatted is not modelled.
- Registry.ToolRegistry.Register: a category is a value in the map and the index holds the tool itself, so sharing of pointers with callers is not captured; strings.ToLower is a parameter.
- Bedrock.BuildConverseRequest: inference settings, tool definitions, SigV4 and JSON encoding are not modelled; json.Valid is a parameter.
- DiagnoseLoop.Diagnose: the session record, progress events and the bodies of tools are not modelled; the report of exhausted rounds is one constant.
- Token estimates use unbounded integers; no wrap-around at 64 bits is modelled anywhere.
- HTTP, WebSocket, subprocesses, TLS, logging, configuration, notifier bodies, prompts, console output and the MCP client: plumbing or library calls.
- pkg/filter, pkg/safe, pkg/choice, pkg/conv and the config types: matching lives in other libraries, or the members would be easy.
