# mush: a verified model of the agent run and what surrounds it

This project models the core of mush, a terminal coding agent, in Dafny and proves properties of it.
`dafny verify dfyconfig.toml` checks everything.

The centre is the agent run. `AgentLoop.dfy` is the loop itself, with its turns, request attempts,
streamed replies, tool phase, overflow recovery and cancellation. Everything outside the loop is a
`World` that may answer anything: provider replies, hook verdicts, and a cancel token that can fire at
every point the program can be interrupted. The tools are any steps over the files their calls name,
and may differ from batch to batch. `Protocol.dfy` is an automaton over single events. The loop is
proved to emit only traces this automaton accepts, to end, to keep its own conversation equal to the
one the events amount to, and to send a bounded number of requests. Everything that consumes the events
is then proved against every trace the automaton accepts:

- `Grammar.dfy` reads the order of events off the trace alone.
- `Pairing.dfy` says when every request carries a conversation in which each tool call has its result.
- `Transcript.dfy` is the consumer that decides what is safe to commit to the session, `Headless.dfy`
  the driver that saves it.
- `JsonEvents.dfy` is the consumer that renders the events as JSON lines, rebuilds the streamed reply
  and keeps a ledger; `JsonHistory.dfy` tells its lines from the events alone.
- `Untidy.dfy` holds concrete runs in which a provider reply repeats a call id, or ends as aborted
  although it calls tools, and shows which guarantees those break.

`Partials.dfy` is the streamed reply that both the loop and the JSON consumer rebuild. `Grouping.dfy`
runs tool calls grouped by file under an arbitrary scheduler and proves the outcome is that of running
them one by one. `Retry.dfy` is the backoff arithmetic and the one-shot retry driver.

Around the run: `Client.dfy` is the daemon client's reconnect and resend protocol over links that may
drop, hang or answer late. `Election.dfy` is the daemon launch election as steps of concurrent processes
over a lock, a socket path and daemons that can die. `Saver.dfy` is the coalescing session saver.
`Overrides.dfy` edits nested configuration tables in place. `Truncation.dfy` and `Redaction.dfy` are the
text algorithms, over the character functions of `Text.dfy`.

Where a stated guarantee is false in general, the model keeps the code as it is and states exactly when
it holds:

- Session and held-back messages are the loop's own conversation exactly when every tool result so far was
  the first for its id since a reply that was neither aborted nor failed, and no steering batch repeated the
  follow-up injected right before it (`TranscriptIsConversation`). For a complete run: exactly when every tool
  result answered such a reply with distinct call ids and no steering batch was such a repeat
  (`SessionIsConversation`).
- A request carries a well paired history exactly when every reply since the last compaction was tidy, that
  is, called no tool or was neither aborted nor failed and named each call once (`PairedIffTidy`,
  `SentIsPairedIffTidy`).
- Results of one turn show up in the `turn_end` of a later one exactly after an aborted reply that
  called tools (`LeftoversComeFromAbortedReplies`).
- At most one daemon is live while launchers wait for the daemon they spawned to answer or die
  (`ElectionIsSafe`). A launcher may stop waiting earlier, by timing out or dying, exactly if no candidate is
  left that could launch (`GivingUpIsSafeIff`); otherwise two daemons can end up serving (`GivingUpSplits`).
- Fetched steering is injected, in order, except a last batch still pending when the run is cancelled or its
  turn budget is used up (`Run`).
- An accepted override sets its path, except the key `rlm`, which is accepted and ignored
  (`ApplyOverride`).

A method that stands for a wait or an outside answer picks any value. Integers are unbounded, durations
are exact reals, and a message's timestamp, usage and provider identity are one opaque string.

## Model

| member | source | states |
|---|---|---|
| AgentLoop.AgentLoop.Run | crates/mush-agent/src/agent_loop.rs:233-685 | every run ends; its trace is accepted up to the final `AgentEnd`, and the loop's own messages are the conversation its events amount to; the provider was asked with exactly the histories of its requests, in order, each the conversation of the moment with a turn open and no overflow pending; the context transform was given the conversation of the moment and told `Overflowed` exactly when an overflow was pending; the outcome reported for each executed call is what it returns when its batch runs one by one in input order on the files the batch found; at most 2·(1+MAX_RETRIES) requests for each budgeted turn and each follow-up plus one for each network loss; the steering batches injected are the non-empty ones fetched, in order, but for a last one still pending when the run was cancelled or its turn budget was used up; an open network wait at the end only if cancelled; every non-empty follow-up fetched was injected, in order; the run ends because it was cancelled, reported an error, used up its turn budget or got an empty follow-up |
| AgentLoop.SentIsPairedIffTidy | crates/mush-agent/src/agent_loop.rs:535-656 | a request a run sent carried a history in which every call has its result exactly when every reply between the last compaction and the request was tidy |
| AgentLoop.AgentLoop.constructor | crates/mush-agent/src/agent_loop.rs:240-252 | a fresh loop has emitted, sent, transformed and run nothing, has nothing pending, and its protocol state is the initial one |
| AgentLoop.AgentLoop.Open | crates/mush-agent/src/agent_loop.rs:238-252 | start event, pre-session hooks and the first steering fetch lead to the head of the turn loop, with that batch pending; the hooks run once at their point, their results are yielded in order and steering is fetched once |
| AgentLoop.AgentLoop.RunTurns | crates/mush-agent/src/agent_loop.rs:254-681 | turns and follow-ups end within the bounds of the run, with the loop's messages still those of its trace, and for one of the four reasons a run may end |
| AgentLoop.AgentLoop.TryResume | crates/mush-agent/src/agent_loop.rs:671-677 | an empty follow-up changes nothing, any other enters the conversation and one event |
| AgentLoop.AgentLoop.Resume | crates/mush-agent/src/agent_loop.rs:671-677 | a follow-up enters the conversation and one event, and the run goes on |
| AgentLoop.AgentLoop.EndRun | crates/mush-agent/src/agent_loop.rs:679-681 | the run ends with one event, its conversation as it was |
| AgentLoop.AgentLoop.Turns | crates/mush-agent/src/agent_loop.rs:254-669 | turns end, at the latest with the budget; the request bound holds at every way out; an uncancelled stop means the budget is used up |
| AgentLoop.AgentLoop.Turn | crates/mush-agent/src/agent_loop.rs:255-669 | one turn advances the index or uses the one overflow retry, ends the run, rests or stops; it costs at most 1+MAX_RETRIES requests plus its network losses; no fetched steering is lost in it; an uncancelled stop has just announced the used-up budget |
| AgentLoop.AgentLoop.Conclude | crates/mush-agent/src/agent_loop.rs:507-533 | exactly when the attempts of a turn are followed by the one overflow retry, by a rest, or by the next turn; everything else ends or stops the run; the error and the reply a run ends with; the overflow kept for the retry is the attempt's error |
| AgentLoop.AgentLoop.BeginTurn | crates/mush-agent/src/agent_loop.rs:256-298 | stops if cancelled, else a request may go out: steering injected, turn open, no overflow pending; a token already cancelled stops the turn before anything is yielded |
| AgentLoop.AgentLoop.FetchSteering | crates/mush-agent/src/agent_loop.rs:664-668 | what is fetched is pending |
| AgentLoop.AgentLoop.InjectSteering | crates/mush-agent/src/agent_loop.rs:261-265 | the pending batch enters the conversation and one event, once |
| AgentLoop.AgentLoop.PrepareContext | crates/mush-agent/src/agent_loop.rs:272-298 | the transform's own answer is followed: a compacted history replaces the conversation, an unchanged one leaves it, and an overflow it left unchanged is the run's error |
| AgentLoop.AgentLoop.AskTransform | crates/mush-agent/src/agent_loop.rs:273-279 | the transform is given the conversation, and told of an overflow exactly when one is pending |
| AgentLoop.AgentLoop.Compact | crates/mush-agent/src/agent_loop.rs:288-295 | the compacted history replaces the conversation and is announced with the old length |
| AgentLoop.AgentLoop.FailOverflow | crates/mush-agent/src/agent_loop.rs:280-286 | an overflow that was not compacted is the run's one error |
| AgentLoop.AgentLoop.Ask | crates/mush-agent/src/agent_loop.rs:312-495 | the attempts of a turn end; they send at most 1+MAX_RETRIES requests plus one for each network loss; they leave a final reply, an aborted partial or the end of the run; unless cancelled the turn sent one request, one more for each retry made and one more for each network loss; without a cancel or a lost network the loop sleeps exactly the delays drawn for its retries, each under its number, and five of them that no server timed take between 23.25 and 38.75 seconds in all |
| AgentLoop.AgentLoop.Send | crates/mush-agent/src/agent_loop.rs:320-337 | the wait is slept out or cut short by a cancel; the provider is asked at most once, with the conversation; sleep and request are each raced against the token; no answer only after a cancel |
| AgentLoop.AgentLoop.Attempt | crates/mush-agent/src/agent_loop.rs:338-367 | a repeated attempt costs one retry or one network loss and waits the delay of its number; a rejected request is retried exactly if it is retryable, a retry is left and the server asks for no more than the cap; a stream leads to what its script amounts to |
| AgentLoop.AgentLoop.HearOut | crates/mush-agent/src/agent_loop.rs:369-494 | unless cancelled, an attempt's outcome is a function of the stream's script: its first error, else its last final message, else that there was none, decides between overflow, lost network, retry, final reply and the end of the run, with the error texts |
| AgentLoop.AgentLoop.ReadReply | crates/mush-agent/src/agent_loop.rs:369-448 | while a stream is read the loop's partial is the one its events rebuild; a drained stream was passed on event by event, in order; a cancel may win before any event and before the end; every other end leaves the turn in its own state; the token is raced at every event and at the end |
| AgentLoop.AgentLoop.ReadEvent | crates/mush-agent/src/agent_loop.rs:374-447 | one event ends the stream or is passed on, announced first if it opens the reply |
| AgentLoop.AgentLoop.ForwardEvent | crates/mush-agent/src/agent_loop.rs:382-389 | exactly the first start announces a message; every event is folded into the partial and passed on |
| AgentLoop.AgentLoop.FailReply | crates/mush-agent/src/agent_loop.rs:390-436 | exactly which error texts are an overflow, a lost network or a retry, in that order, and what each yields; anything else keeps the errored reply in the conversation if it has content, reports the error and ends the run |
| AgentLoop.AgentLoop.JudgeReply | crates/mush-agent/src/agent_loop.rs:450-494 | exactly when a drained stream is an overflow, waited out, retried or closed, and with which message; closed without error it is the provider's own final one; with the events each yields |
| AgentLoop.AgentLoop.Discard | crates/mush-agent/src/agent_loop.rs:402-404 | what was streamed is dropped on both sides, told with its error |
| AgentLoop.AgentLoop.GoOffline | crates/mush-agent/src/agent_loop.rs:401-410 | a lost network drops the partial and announces one wait, for a delay drawn for the number of that wait |
| AgentLoop.AgentLoop.EndInError | crates/mush-agent/src/agent_loop.rs:428-435 | an errored reply is announced and kept in the conversation, one error is reported, the run ends |
| AgentLoop.AgentLoop.KeepAborted | crates/mush-agent/src/agent_loop.rs:497-505 | a cancelled reply is kept as far as it was streamed |
| AgentLoop.AgentLoop.CloseTurn | crates/mush-agent/src/agent_loop.rs:532-669 | a completed reply rests exactly if it calls no tools, else its turn counts and the run goes on or stops |
| AgentLoop.AgentLoop.Rest | crates/mush-agent/src/agent_loop.rs:544-551 | a reply without calls runs the stop hooks, yields their results and ends its turn under an index that does not advance |
| AgentLoop.AgentLoop.AcceptReply | crates/mush-agent/src/agent_loop.rs:519-533 | a completed reply owes each of its calls and rearms the overflow retry |
| AgentLoop.AgentLoop.UseTools | crates/mush-agent/src/agent_loop.rs:553-656 | each call of a reply is answered once; unless cancelled, exactly the calls that were allowed and not blocked ran, on the files of the moment, and what each is reported with and what the files end as are those of running them one by one in input order; exactly the reply's calls are put up for confirmation, in order |
| AgentLoop.AgentLoop.RunConfirmed | crates/mush-agent/src/agent_loop.rs:571-655 | of the confirmed calls exactly those not blocked run |
| AgentLoop.AgentLoop.ConfirmCalls | crates/mush-agent/src/agent_loop.rs:553-568 | the confirmed calls are exactly those allowed, in order, and stay owed; every other is answered at once with its reason |
| AgentLoop.AgentLoop.ConfirmCall | crates/mush-agent/src/agent_loop.rs:555-567 | one verdict on this very call lets it through or answers it with the reason |
| AgentLoop.AgentLoop.RunPreHooks | crates/mush-agent/src/agent_loop.rs:571-586 | the allowed calls are exactly those whose hooks do not block, in order, and stay owed; a blocked one is answered at once; the pre-tool hooks run once for each call, under its name, and yield their results |
| AgentLoop.AgentLoop.VetCall | crates/mush-agent/src/agent_loop.rs:572-585 | one run of the call's pre-tool hooks lets it through exactly if every blocking one succeeded; its results are yielded, and a blocked call is answered with their feedback |
| AgentLoop.AgentLoop.EmitHooks | crates/mush-agent/src/agent_loop.rs:574-576 | every result of a run of hooks is yielded, in order |
| AgentLoop.AgentLoop.VetCalls | crates/mush-agent/src/agent_loop.rs:571-594 | vetting and then announcing, event by event |
| AgentLoop.AgentLoop.AnnounceCalls | crates/mush-agent/src/agent_loop.rs:588-594 | every allowed call is announced once, in order |
| AgentLoop.AgentLoop.AnnounceCall | crates/mush-agent/src/agent_loop.rs:588-594 | a call that is due and not announced yet is announced |
| AgentLoop.AgentLoop.ReportAll | crates/mush-agent/src/agent_loop.rs:598-602 | every call is answered once, in order, with the same error |
| AgentLoop.AgentLoop.RunAllowed | crates/mush-agent/src/agent_loop.rs:596-655 | a token already cancelled answers every allowed call without running any; a cancel during execution answers every one; otherwise each is answered with its own outcome and steering is fetched once |
| AgentLoop.AgentLoop.RunBatch | crates/mush-agent/src/agent_loop.rs:606-650 | every call of the batch is executed and reported once, in order, with the outcome it has when the batch runs one by one; the files are those of that run |
| AgentLoop.AgentLoop.ExecuteAllowed | crates/mush-agent/src/agent_loop.rs:606-633 | for any tools, grouped execution returns the results, in input order, and the files of running the calls one by one |
| AgentLoop.AgentLoop.ReportExecution | crates/mush-agent/src/agent_loop.rs:635-650 | the post-tool hooks of the call run and yield their results; the reported result is the execution's own content, then the hooks' feedback, then attachments, with the execution's outcome |
| AgentLoop.AgentLoop.ReportExecutions | crates/mush-agent/src/agent_loop.rs:635-650 | every execution is reported once, in order, with the result at its own position; each after one run of its post-tool hooks |
| AgentLoop.AgentLoop.EndToolTurn | crates/mush-agent/src/agent_loop.rs:658-668 | a tool turn counts; the run stops exactly when the budget is reached; steering already pending is kept, else more is fetched, once |
| AgentLoop.AgentLoop.CountTurn | crates/mush-agent/src/agent_loop.rs:658-659 | a turn that used tools ends under its index, which then advances |
| AgentLoop.AgentLoop.ReachBudget | crates/mush-agent/src/agent_loop.rs:661-664 | the used-up budget is announced before the run stops |
| Protocol.QuietStep | crates/mush-agent/src/agent_loop.rs:237-682 | events without messages leave the conversation alone and never end the answering of a reply early |
| Protocol.PrefixAccepted | crates/mush-agent/src/agent_loop.rs:237-682 | every prefix of an accepted trace is accepted |
| Grammar.Frame | crates/mush-agent/src/agent_loop.rs:237-267 | the start event is first and only; nothing follows the end; an error is followed by it; a steering batch by its turn |
| Grammar.CompleteEnds | crates/mush-agent/src/agent_loop.rs:433-681 | a complete run ends exactly once, last |
| Grammar.TurnsAreNumbered | crates/mush-agent/src/agent_loop.rs:267-669 | a turn starts and ends under the number of tool turns before it, below the budget; it ends with the last ended reply, each of whose calls was answered exactly once |
| Grammar.EveryCallIsAnswered | crates/mush-agent/src/agent_loop.rs:553-656 | when a turn starts or the run ends every call of the last ended reply was answered exactly once, also by a cancelled tool phase; only a failed reply, or one cut short right before the end, leaves calls unanswered |
| Grammar.SuccessWasAnnounced | crates/mush-agent/src/agent_loop.rs:588-650 | a call reports success only if it was announced since its reply ended |
| Grammar.WaitsAreRestored | crates/mush-agent/src/agent_loop.rs:338-350 | a network wait is followed by another, by the restored network or by the end; the network is restored only from a wait |
| Grammar.OneRecoveryPerReply | crates/mush-agent/src/agent_loop.rs:507-519 | no turn starts more than twice before a reply ends, and its second start is followed by a compaction or an error |
| Pairing.RequestsAreWellPaired | crates/mush-agent/src/agent_loop.rs:535-656 | over neat injections a request carries a history in which each call has its result exactly when every reply between the last compaction and the request was tidy |
| Pairing.PairedIffTidy | crates/mush-agent/src/agent_loop.rs:532-656 | between replies the history is well paired exactly when every reply since the last compaction was tidy |
| Untidy.RepeatedIdsUnpair | crates/mush-agent/src/agent_loop.rs:535-656 | a concrete run with a repeated call id: the history is not well paired and the transcript drops a result |
| Untidy.AbortedCallsLeak | crates/mush-cli/src/json_events.rs:100-114 | a concrete run with an aborted reply that calls a tool: its result is left to a later turn |
| Partials.PartialMessage.constructor | crates/mush-ai/src/stream.rs:72-78 | a partial starts with the parts of its start message, at their indices |
| Partials.PartialMessage.Apply | crates/mush-ai/src/stream.rs:80-146 | one edit of the part table is the specified one |
| Partials.PartialMessage.TakeSnapshot | crates/mush-ai/src/stream.rs:148-154 | the snapshot lists the parts by index |
| Partials.PartialMessage.HasContent | crates/mush-ai/src/stream.rs:156-159 | there is content exactly when the snapshot has some |
| Partials.SlotsAreIndependent | crates/mush-ai/src/stream.rs:80-146 | every index ends as its own events leave it, whatever the others saw in between |
| Partials.MergesAgree | crates/mush-ai/src/stream.rs:80-146 | two merges of the same per-index streams rebuild the same message |
| Partials.TextIsItsDeltas | crates/mush-ai/src/stream.rs:83-100 | a text part is its deltas joined in order, whatever surrounds them |
| Partials.ThinkingIsItsDeltas | crates/mush-ai/src/stream.rs:101-120 | a thinking part is its deltas joined in order and stays unsigned, whatever surrounds them |
| Partials.DeltasContinue | crates/mush-ai/src/stream.rs:86-94 | text deltas without a start continue a text and start one over anything else |
| Partials.ThinkingContinues | crates/mush-ai/src/stream.rs:105-117 | so do thinking deltas, keeping a signature |
| Partials.EndsDecide | crates/mush-ai/src/stream.rs:95-146 | a part that ended holds what its end event says: the text, the thinking, the tool call |
| Partials.CallsShowAtTheirEnd | crates/mush-ai/src/stream.rs:80-146 | a tool call shows nothing until it ends |
| Partials.WholeMessagesShow | crates/mush-ai/src/stream.rs:72-168 | after a start, a final message or an error the snapshot is that message; a finished partial is its snapshot but for how it stopped |
| Partials.SnapshotIsInIndexOrder | crates/mush-ai/src/stream.rs:148-154 | the snapshot lists exactly the parts, by ascending index |
| Grouping.SameKeyIffSamePath | crates/mush-agent/src/tool_grouping.rs:19-25 | two spellings of a path share a key exactly when they name the same components from the same root |
| Grouping.KeyKeepsComponents | crates/mush-agent/src/tool_grouping.rs:19-25 | normalising a path keeps its components and its root |
| Grouping.EditsAreKeyed | crates/mush-agent/src/tool_grouping.rs:6-17 | exactly the calls named edit or write, in any letter case, that have a path have a key, and it is that path normalised |
| Grouping.SpellingDoesNotMatter | crates/mush-agent/src/tool_grouping.rs:19-25 | doubled slashes, a slash at the end and `.` components leave the key as it is |
| Grouping.PlainPathIsItsKey | crates/mush-agent/src/tool_grouping.rs:19-25 | a path spelled without them is its own key |
| Grouping.GroupByPath | crates/mush-agent/src/tool_grouping.rs:27-48 | the groups partition the inputs, in input order, one group for each key |
| Grouping.ExecuteGrouped | crates/mush-agent/src/tool_grouping.rs:50-77 | under every scheduler the results and the files are those of running the calls one by one in input order |
| Grouping.NoOverlap | crates/mush-agent/src/tool_grouping.rs:59-68 | two calls on one key never run at the same time |
| Grouping.EditsNeverOverlap | crates/mush-agent/src/agent_loop.rs:606-621 | two edits or writes of the loop whose paths have the same components and root never run at the same time |
| Grouping.SortOrdered | crates/mush-agent/src/tool_grouping.rs:74-74 | sorting by index orders the results and permutes them |
| Grouping.OrderedIsTagged | crates/mush-agent/src/tool_grouping.rs:69-76 | an ordered permutation of the indexed results is the results in input order |
| Transcript.Transcript.Apply | crates/mush-cli/src/headless.rs:132-177 | one event changes transcript and session as specified and tells whether the session is to be saved |
| Transcript.Transcript.Drain | crates/mush-cli/src/headless.rs:171-173 | everything held back moves to the session, in order |
| Transcript.TranscriptIsConversation | crates/mush-cli/src/headless.rs:132-177 | after every prefix of a run without compaction, session and held-back messages are the loop's conversation exactly when every tool result was the first for its id since a reply that can be replayed and no steering batch repeated the follow-up injected right before it; exactly those events are dropped |
| Transcript.SessionIsConversation | crates/mush-cli/src/headless.rs:132-177 | a complete run without compaction leaves the loop's conversation in the session exactly when every tool result answered a tidy reply and no steering batch repeated the follow-up injected right before it |
| Transcript.SessionIsResumable | crates/mush-cli/src/headless.rs:132-177 | after every prefix of any run the session is well paired, whatever the provider replied |
| Transcript.EndedIsComplete | crates/mush-cli/src/headless.rs:128-130 | after a complete run nothing is awaited or held back |
| Transcript.TidyRunsDropOnlyEchoes | crates/mush-cli/src/headless.rs:149-165 | with tidy replies no tool result is dropped; only a steering batch equal to the last follow-up can be |
| Headless.OnlySavesChange | crates/mush-cli/src/main.rs:835-837 | the session changes exactly when a save is asked for |
| Headless.PrintMode | crates/mush-cli/src/main.rs:812-908 | every version of the session ever saved is well paired; an unsignalled run is seen to its end, is never incomplete, fails exactly if it reported an error, and leaves the loop's conversation on disk exactly when every tool result answered a tidy reply and no steering batch repeated the follow-up before it; cancelled exactly if signalled, cut short only after the deadline; the error is the last one reported; one save at the start, one for each commit, one on the signal, one at the end |
| JsonEvents.JsonEvents.constructor | crates/mush-cli/src/json_events.rs:43-55 | a new consumer holds its prompt and nothing else |
| JsonEvents.JsonEvents.Apply | crates/mush-cli/src/json_events.rs:57-207 | one event changes the consumer and yields lines as specified |
| JsonEvents.JsonEvents.PushMessage | crates/mush-cli/src/json_events.rs:209-215 | a message is started, ended and listed |
| JsonEvents.JsonEvents.EndTurn | crates/mush-cli/src/json_events.rs:217-226 | an open turn is closed with its results, a closed one is left alone |
| JsonEvents.JsonEvents.FinishRetry | crates/mush-cli/src/json_events.rs:228-241 | retries under way are closed under their number |
| JsonEvents.LedgerIsSound | crates/mush-cli/src/json_events.rs:57-241 | over any events: `agent_end` lists exactly the ended messages, `turn_end` closes an open turn and carries exactly the results reported since the last one, retry attempts count 1, 2, …, k and their end carries k |
| JsonHistory.LinesAreTold | crates/mush-cli/src/json_events.rs:57-241 | stream events aside, the lines of an event are a function of the events before it: each message as the event carries it, each turn with the reply that ended it and the results since the last, each retry with its number and outcome, a tool's arguments, the messages listed at the end |
| JsonHistory.PayloadsAreCarried | crates/mush-cli/src/json_events.rs:57-215 | the messages of all `message_end` lines are the prompt at the first turn start and the replies, results, steering and failures the events carry, as they carry them |
| JsonEvents.AgentEndListsEveryMessage | crates/mush-cli/src/json_events.rs:200-203 | the last line of a complete run lists the payloads of all its `message_end` lines |
| JsonEvents.RunsStaySynced | crates/mush-cli/src/json_events.rs:68-101 | along every run the rebuilt partial is the loop's own, but between an announcement and its first event |
| JsonEvents.UpdatesShowTheLoopsPartial | crates/mush-cli/src/json_events.rs:75-88 | after every stream event both partials are equal and an update line shows their snapshot |
| JsonEvents.AbortedContentWasShown | crates/mush-agent/src/agent_loop.rs:497-505 | the content kept of a cancelled reply is the snapshot the consumer has |
| JsonEvents.LeftoversComeFromAbortedReplies | crates/mush-cli/src/json_events.rs:100-226 | when a turn starts, earlier results still wait exactly if the last reply was an aborted one that called tools |
| JsonEvents.TurnsCarryTheirOwnResults | crates/mush-cli/src/json_events.rs:139-226 | without such replies a turn's line never carries another turn's results |
| Retry.RetryDelayContract | crates/mush-ai/src/registry.rs:205-220 | refused exactly when the server asks for more than the cap; else at least what it asked and at most the cap |
| Retry.NetworkDelaysGrow | crates/mush-ai/src/registry.rs:229-232 | for every jitter, network waits grow over the first seven tries and then lie between 45 and 60 seconds |
| Retry.DelayIsJitteredBackoff | crates/mush-ai/src/registry.rs:193-239 | for the jitter's unit u the delay is 1, 2, 4, 8 and from the fifth retry 16 seconds times 0.75 + u/2, or the server's wait if that is longer |
| Retry.NetworkDelayIsJitteredBackoff | crates/mush-ai/src/registry.rs:229-232 | likewise 1, 2, 4, 8, 16, 32 and then 60 seconds, never more than 60 |
| Retry.DrawsAreClamped | crates/mush-ai/src/registry.rs:193-195 | a draw outside the unit interval counts as its nearest end |
| Retry.MillisRoundDown | crates/mush-agent/src/agent_loop.rs:715-716 | a wait is told in whole milliseconds, rounded down |
| Retry.FiveHeaderFreeRetries | crates/mush-ai/src/registry.rs:193-239 | the delays of five retries no server timed, drawn for numbers 1 to 5, add up to between 23.25 and 38.75 seconds |
| Retry.Retries.Failed | crates/mush-agent/src/agent_loop.rs:699-708 | a failure is counted and its delay is that of its number, refused exactly when the server asks for more than the cap |
| Retry.Retries.Offline | crates/mush-agent/src/agent_loop.rs:710-717 | a network wait is counted, announced and flagged, and its delay is drawn for its number |
| Retry.Retries.BackOnline | crates/mush-agent/src/agent_loop.rs:719-722 | the flag is read and cleared |
| Retry.CollectTextRetrying | crates/mush-ai/src/oneshot.rs:143-204 | at most MAX_RETRIES+1 calls; every answer before the last was transient and within the cap; the last is text, permanent, asks for too long, or came with no retry left; the driver sleeps exactly the delays of its retries, and five that no server timed take between 23.25 and 38.75 seconds in all |
| Client.CommandIdsDiffer | crates/mush-daemon/src/client.rs:285-289 | two sends, of any clients, never share a command id |
| Client.DigitsAreDecimal | crates/mush-daemon/src/client.rs:285-289 | the number in a command id is written in decimal, without leading zeros |
| Client.NeverSentAfterAck | crates/mush-daemon/src/client.rs:276-283 | an acknowledged command belongs to a finished send and is never on the wire again |
| Client.SharedIdIsARetry | crates/mush-daemon/src/client.rs:354-385 | two transmissions under one command id are a send and its retry: same payload, same generation, no acknowledgement on the second, and no third |
| Client.DaemonConnection.constructor | crates/mush-daemon/src/client.rs:96-108 | a new connection has sent and received nothing |
| Client.DaemonConnection.Absorb | crates/mush-daemon/src/client.rs:176-202 | events are buffered in order of arrival, the cursor stays past all of them, and the state is the one last told of |
| Client.DaemonConnection.AbsorbUnrequested | crates/mush-daemon/src/client.rs:204-213 | a stray frame is absorbed, a malformed one dropped |
| Client.DaemonConnection.NextRequestId | crates/mush-daemon/src/client.rs:291-295 | request ids increase, across reconnects |
| Client.DaemonConnection.Exchange | crates/mush-daemon/src/client.rs:247-274 | the request goes out once unless the connection is closed or a failure is counted; the outcome is the first frame with its id, else a failure, a drop, a goodbye or the end of the link; no frame read is lost |
| Client.DaemonConnection.Attach | crates/mush-daemon/src/client.rs:116-132 | the cursor is taken only from the answer to this very attach; every other end has its cause |
| Client.DaemonConnection.Redial | crates/mush-daemon/src/client.rs:140-149 | one dial; if a worker greets, a reattach from the cursor goes out and the new link is read from its start; being up means it was taken |
| Client.DaemonConnection.Reconnect | crates/mush-daemon/src/client.rs:134-158 | only reattaches go out; up means the last one was taken from its cursor; giving up closes the connection, and not before a dial was tried |
| Client.DaemonConnection.RequestForever | crates/mush-daemon/src/client.rs:234-245 | the request goes out at most once, reattaches after it; `Closed` means the connection is closed, `Reconnected` that the last reattach was answered or the worker said so; every other outcome is the worker's answer, a counted failure or a drop |
| Client.DaemonConnection.Ask | crates/mush-daemon/src/client.rs:223-232 | the same under a timeout that may strike anywhere and is then the cause |
| Client.DaemonConnection.RequestNext | crates/mush-daemon/src/client.rs:215-221 | a query's reply carries the query's fresh id; every other outcome has its cause |
| Client.DaemonConnection.MakeEnvelope | crates/mush-daemon/src/client.rs:276-283 | an acknowledgement is handed out once |
| Client.DaemonConnection.Send | crates/mush-daemon/src/client.rs:354-385 | a command goes out at most twice, both times under the next command id, the second time only in the generation of the first; the first transmission acknowledges the send before, the second nothing; a reply answers one of the two; a reconnect is reported only if the generation changed or the second transmission had gone out; the first transmission goes out unless the connection is closed or a failure is counted; `Closed` means closed, and every other error is the worker's answer, a counted failure, a timeout or a reattach |
| Client.DaemonConnection.NextEvent | crates/mush-daemon/src/client.rs:387-404 | events are delivered in order of arrival, none of those received lost or repeated, across reconnects; nothing comes back only if the connection is closed or the wait was dropped |
| Client.DaemonConnection.TryNextEvent | crates/mush-daemon/src/client.rs:406-417 | the same without waiting: nothing is sent, no frame is lost, and nothing comes back only if closed or no frame is here |
| Client.Connect | crates/mush-daemon/src/client.rs:89-114 | a connection starts with one attach of a new client; without failures and drops it succeeds whenever the worker greets the client and takes it in |
| Client.Dial | crates/mush-daemon/src/client.rs:305-334 | a dial succeeds exactly if the link opened with a hello in time, and hands on its state, cursor and the frames after it |
| Election.ElectionIsSafe | crates/mush-daemon/src/election.rs:19-84 | in every run in which launchers wait for their daemon to answer or die, at most one daemon is live at a time, and only a daemon's own exit removes its live socket |
| Election.RunsKeepInv | crates/mush-daemon/src/election.rs:41-84 | the invariant behind it holds after every patient run from any state that has it |
| Election.LockKeepsSingle | crates/mush-daemon/src/election.rs:45-57 | taking and leaving the lock keeps it |
| Election.LaunchKeepsSingle | crates/mush-daemon/src/election.rs:58-72 | removing the socket and spawning keep it, and no live socket is removed |
| Election.PendingKeepsSingle | crates/mush-daemon/src/supervisor.rs:892-908 | a starting daemon that probes, reclaims and binds keeps it |
| Election.LeavingKeepsSingle | crates/mush-daemon/src/supervisor.rs:907-913 | a daemon that closes or dies keeps it |
| Election.AnswerIsOwn | crates/mush-daemon/src/election.rs:74-83 | a launcher that sees an answer sees the daemon it spawned |
| Election.ImpatienceSplits | crates/mush-daemon/src/election.rs:73-80 | a concrete run from an idle start, with one early timeout, in which two daemons end up serving |
| Election.GivingUpSplits | crates/mush-daemon/src/election.rs:73-80 | whatever patient run came before: once a launcher times out or dies while its daemon is still starting, and some candidate can still launch, the run can go on with nobody else giving up until two daemons serve |
| Election.GivingUpIsSafeIff | crates/mush-daemon/src/election.rs:19-84 | after a patient run, a step leaves at most one daemon live in every patient continuation exactly if it is patient itself or nobody is left to launch |
| Election.WatchersStartNothing | crates/mush-daemon/src/election.rs:19-40 | while a daemon answers, watching clients change nothing |
| Election.LaunchSucceeds | crates/mush-daemon/src/election.rs:41-84 | where nobody answers and the lock is free, an idle candidate can launch a daemon that serves and leaves the lock free |
| Election.LeavesCleanly | crates/mush-daemon/src/supervisor.rs:907-913 | a serving daemon can leave and takes its path with it |
| Election.WhoTouchesWhat | crates/mush-daemon/src/election.rs:41-84 | every action moves only its own process; who clears and who takes the path, who takes and who frees the lock; a held lock turns others away |
| Saver.RunSaver | crates/mush-cli/src/main.rs:2018-2026 | however the batches fall, the store ends as if every snapshot had been saved in order and the blank sessions deleted |
| Saver.LatestPerSession | crates/mush-cli/src/main.rs:2043-2058 | a drained batch is reduced to one snapshot for each session, its last |
| Saver.SameLastSameBooks | crates/mush-cli/src/main.rs:2018-2026 | sequences that end every session alike leave the same store, whatever their order |
| Saver.SavedAllKeepsTheLast | crates/mush-cli/src/main.rs:2075-2083 | saving in order leaves each session its last snapshot, marked blank exactly if that one is |
| Saver.AbsentIffBlank | crates/mush-cli/src/main.rs:2075-2089 | at the end a saved session is absent exactly when its last snapshot had neither a message nor a title |
| Saver.SnapshotWriter.Save | crates/mush-cli/src/main.rs:2075-2083 | one snapshot is stored and its session marked as blank exactly if it has neither a message nor a title |
| Saver.SnapshotWriter.Finish | crates/mush-cli/src/main.rs:2085-2089 | exactly the blank sessions are deleted |
| Overrides.Document.ApplyOverride | crates/mush-cli/src/config.rs:690-727 | a rejected override changes nothing; an accepted one sets its path and opens the way to it, and every other path reads as before, except that `rlm=true` is accepted and ignored |
| Overrides.Document.Descend | crates/mush-cli/src/config.rs:714-724 | one step down finds a table or makes one, even over a scalar, and changes no other reading |
| Overrides.Document.Insert | crates/mush-cli/src/config.rs:725-725 | the value and its tables replace whatever was there |
| Overrides.Document.Walk | crates/mush-cli/src/config.rs:713-724 | the walk opens exactly the parents |
| Overrides.Document.constructor | crates/mush-cli/src/config.rs:714-717 | an empty table reads nothing below its root |
| Overrides.Document.ApplyOverrides | crates/mush-cli/src/config.rs:670-672 | the overrides before the first rejected one, and no others, take effect in order; the first rejection is the error |
| Overrides.RetiredIsIgnored | crates/mush-cli/src/config.rs:699-701 | `rlm=true` is accepted and sets nothing |
| Overrides.PathOfSpec | crates/mush-cli/src/config.rs:695-702 | the path is what stands before the first `=`, without the space around it, split at its dots |
| Overrides.VerdictOfSpec | crates/mush-cli/src/config.rs:690-708 | exactly when an override is rejected and why, character by character |
| Overrides.ShapelessSpec | crates/mush-cli/src/config.rs:695-705 | without a `=`, or with nothing before it, it has no shape |
| Overrides.LastOneWins | crates/mush-cli/src/config.rs:670-672 | after any list of overrides every path reads what the last override touching it says, else what it read before |
| Overrides.DivergingCommute | crates/mush-cli/src/config.rs:670-672 | neighbouring overrides of diverging paths can be swapped anywhere in the list |
| Overrides.GraftedReads | crates/mush-cli/src/config.rs:725-725 | a grafted value reads as itself at its path, and nothing else changes |
| Overrides.GraftedIsTree | crates/mush-cli/src/config.rs:713-725 | the edited tables are still a tree |
| Truncation.CollectWithin | crates/mush-agent/src/truncation.rs:221-240 | as many lines as fit both limits at all |
| Truncation.CollectHead | crates/mush-agent/src/truncation.rs:211-213 | the longest fitting prefix of the lines |
| Truncation.CollectTail | crates/mush-agent/src/truncation.rs:215-219 | the longest fitting suffix of the lines |
| Truncation.TruncateForTool | crates/mush-agent/src/truncation.rs:128-209 | output within the limits is untouched; else one notice replaces all text before the other parts, kept and omitted lines add up, and the preview is the longest fitting end or a sample of one line |
| Truncation.PreviewIsBounded | crates/mush-agent/src/truncation.rs:171-196 | the preview stays within the byte limit, but for the marker of a sampled line |
| Truncation.CutsAtTheLastLineEnd | crates/mush-agent/src/truncation.rs:63-72 | a text over budget is cut at its last line end within the budget, else after as many whole characters as fit |
| Truncation.HeadSampleIsLongest | crates/mush-agent/src/truncation.rs:262-264 | the longest prefix of whole characters that fits |
| Truncation.TailSampleIsLongest | crates/mush-agent/src/truncation.rs:266-268 | the longest suffix of whole characters that fits |
| Truncation.JoinedBytesIsSize | crates/mush-agent/src/truncation.rs:229-238 | the bytes counted are the size of the joined lines |
| Truncation.LineByLine | crates/mush-agent/src/truncation.rs:145-145 | a line ends at its newline, with a carriage return before that |
| Truncation.LinesOfJoined | crates/mush-agent/src/truncation.rs:135-145 | the lines of joined lines are those lines, with or without a newline at the end |
| Truncation.OthersStay | crates/mush-agent/src/truncation.rs:198-200 | the other parts stay, in order |
| Truncation.TextsStay | crates/mush-agent/src/truncation.rs:135-142 | the texts that are joined are all of them, in order |
| Truncation.OversizedLineIsSampled | crates/mush-agent/src/truncation.rs:171-196 | a line that alone does not fit is shown as its longest fitting end with a marker line |
| Text.WidthIsUtf8 | crates/mush-agent/src/truncation.rs:229-238 | a character counts as many bytes as its well-formed UTF-8 encoding, from which it comes back |
| Redaction.RedactSecretsPreserving | crates/mush-ai/src/wire_log.rs:60-73 | the character loop renders the text's tokens with each word redacted |
| Redaction.FlushWord | crates/mush-ai/src/wire_log.rs:75-86 | a finished word is appended redacted, an empty one not at all |
| Redaction.RedactSecretText | crates/mush-ai/src/request_snapshot.rs:253-262 | the word loop joins the redacted words with single spaces |
| Redaction.RedactedWord | crates/mush-ai/src/request_snapshot.rs:264-271 | a secret word keeps exactly the punctuation around it |
| Redaction.WordByItsCore | crates/mush-ai/src/request_snapshot.rs:264-271 | a word is redacted exactly if what its punctuation wraps is a secret, and then only that |
| Redaction.SecretsByTheirPrefix | crates/mush-ai/src/request_snapshot.rs:273-282 | a secret has at least twelve bytes and begins with sk-, sk_, eyJ or sess- |
| Redaction.JoinedBySpaces | crates/mush-ai/src/request_snapshot.rs:253-262 | joined words are those words again with a single space in every gap |
| Text.PunctuationIsTheRest | crates/mush-ai/src/wire_log.rs:79-79 | the punctuation trimmed off is printable ASCII without letters and digits |
| Redaction.RedactedIsNoSecret | crates/mush-ai/src/request_snapshot.rs:264-282 | a redacted word no longer looks like a secret and is not redacted again |
| Redaction.TokensRender | crates/mush-ai/src/wire_log.rs:63-70 | splitting a text into words and whitespace loses nothing |
| Redaction.RenderTokens | crates/mush-ai/src/wire_log.rs:63-70 | proper tokens are the only ones that render to their text |
| Redaction.OutputTokens | crates/mush-ai/src/wire_log.rs:60-86 | the output has the same whitespace in the same places and the redacted words between |
| Redaction.WhitespaceIsPreserved | crates/mush-ai/src/wire_log.rs:60-73 | every whitespace character stays, in order |
| Redaction.PreservingIsIdempotent | crates/mush-ai/src/wire_log.rs:60-86 | redacting twice is redacting once |
| Redaction.NoSecretIsLeft | crates/mush-ai/src/wire_log.rs:60-86 | no word of the output looks like a secret once trimmed |
| Redaction.RedactorsAgree | crates/mush-ai/src/request_snapshot.rs:253-271 | the snapshot redactor is the word join of the wire-log redactor |

## Left out

- Transports and processes: HTTP, sockets, files, spawning, signals, keyring and clocks are parameters or arbitrary answers; failed writes of the session file are not modelled.
- Error classification: the classifiers of error texts (retryable, unreachable, context overflow) are arbitrary predicates, the same in every use within a run.
- Compaction: the context transform returns any history; applying a compaction to the session (`apply_context_compaction`) is not part of this model, so the session theorems are about runs without compaction.
- Finite runs: a stream is a finite script, and a `World` bounds network losses and non-empty follow-ups; an endlessly silent provider is a run that is cancelled or never ends.
- JSON values: a message stands for its rendered value; usage, token counts and the delay shown in `auto_retry_start` are not modelled.
- Tool execution: what a tool does is any finite number of steps on the one file its key names, fixed for a batch of calls; tools without a key touch no shared file, and an interrupted batch leaves arbitrary files.
- Redaction by regular expression and the wording of hook feedback: functions of the configuration; attached file context is any text appended after a result.
- `collect_stream_text`: reduced to its possible outcomes; how it gathers text is not modelled.
- Client ids: request and command numbers do not wrap around at 64 bits; session state, history and tree queries are one kind of query, and the worker's side is not modelled, so nothing is claimed about commands being applied once.
- Election steps: creating directories and the log file can fail only as one step; connecting to a listening socket always succeeds; a launcher killed while its daemon starts counts as one that did not wait.
- Saver: the append-only history file, timestamps and failed saves are not modelled.
- Config parsing: TOML parsing and the schema check are parameters; removing a retired key from the file itself is not modelled.
- Text: floating-point rounding of durations is not modelled; durations are exact.
- `Lines` and `Trim`: standard library functions written out; the wording of the truncation notice is a parameter.
