# One agent turn, verified

This project models what happens to a conversation while the agent of the repository takes one turn: the history is
sanitized, trimmed, compressed and resolved, the model is called, its tool calls are executed, steering messages are
injected, and the turn ends by a last message, by an error, or by being undone. Around that it models the concurrency
tokens of sub-turns, the shutdown of the message bus, the guard against repeated calls, and three fast forms with their
simple meaning: the two-row edit distance, the memory budget, and the cache of the system prompt.

The first half shares one contract, `Messages.WellFormed`: an assistant message that calls tools follows a user or
tool message and is directly followed by exactly the results of its calls, tool results stand nowhere else, and there
are no system messages. A prompt starts with one system message, unless all of it is suppressed, and is legal when what
stands behind that message is well formed (`Messages.LegalPrompt`). `Pipeline` composes the stages: a prompt is built
from the session, extended by injected messages, resolved, rebuilt when it overflows, and extended by calls and their
results; over a whole turn it is legal if and only if every round since the last rebuild was clean. Turns come in two
kinds: a turn with a channel of pending results is a sub-turn and keeps no history (`ExecuteTools.Occurs`), and all
others have no channel.

Code that works step by step is a class or a method with loops, proved equal to a function on values; the properties
are lemmas about those functions. What comes from outside (model replies, hooks, approvals, tool results, prompt
builders, token estimates, the media store, the file system, other users of a queue) is data of a run or a function
parameter, and every property holds for all of it. The sub-turns and the bus are state machines over the steps of
their goroutines.

| file | models |
|---|---|
| `Messages.dfy` | messages and the contract |
| `Sanitize.dfy` | the two passes over a history |
| `ContextBudget.dfy`, `Compression.dfy` | turn boundaries, trimming, emergency compression |
| `TurnState.dfy`, `ContextRetry.dfy` | the restore point, the retry loop with its overflow rebuild |
| `Media.dfy` | media references and the images shown behind tool results |
| `RepeatGuard.dfy`, `ExecuteTools.dfy` | the repeat guard, the tool phase |
| `Prompt.dfy`, `TurnSetup.dfy` | the prompt; the setup of a turn with its proactive compression |
| `Pipeline.dfy`, `TurnImages.dfy` | the stages over a whole turn, and the images shown in it |
| `TurnEnd.dfy` | the exits of a turn, and what each leaves in the session |
| `Steering.dfy`, `TurnLoop.dfy`, `ToolSteering.dfy` | the steering queue, the loop of the turn, its view of the tool phase |
| `SubTurns.dfy`, `MessageBus.dfy` | the concurrency protocols |
| `ToolHint.dfy`, `MemoryBudget.dfy`, `PromptCache.dfy` | fast forms |
| `Strings.dfy`, `Wrappers.dfy` | helpers |

## Where the code and its comments part

The model follows the code. Each of these is a lemma, with the exact condition beside it where there is one.

- An abort undoes a turn only on the exits that reach the restore (`TurnEnd.AlwaysUndoneIff`). A hard abort that cuts
  short the wait between two model calls sets no flag: the turn is finalized, and a last message is stored behind
  everything else it stored (`TurnEnd.BackoffAbortKeepsTurn`). A hook that aborts the turn, and a model call that fails,
  leave the session as it is (`TurnEnd.HookAbortKeepsTurn`), with a call that is only half answered when the hook aborts
  between calls (`TurnEnd.HookAbortHalfAnswers`).
- In a sub-turn, a result polled between two tool calls stands between two tool results and makes the messages illegal
  (`ExecuteTools.EveryCallAnswered`, `ExecuteTools.SubTurnResultIsWedgedIn`). No session is concerned: the store of a
  polled result beside the record is never reached, since only turns without a history have a channel, and so every
  refresh of the restore point is exact (`ExecuteTools.PhasePersists`, `Pipeline.EveryRefreshIsExact`).
- Compressing a single turn keeps the user message alone, which is no suffix (`Compression.CompressKeepsSuffixIff`); done
  in the middle of that turn it makes the user message survive an abort (`ContextRetry.CompactionTracelessIff`). A
  history without user messages is cut in the middle of an exchange if a tool result stands there
  (`Compression.CompressSplitsExchangeIff`). A stored session lacks user messages only if every turn on it began with
  neither text nor media (pkg/agent/pipeline_setup.go stores no user message then).
- Trimming skips a turn when the history does not start with a user message (`ContextBudget.TrimIsLongestIff`), and it
  fails exactly when no slice it tries fits, which for a builder that is not monotone is not the same as the empty
  history not fitting (`ContextBudget.TrimFitsIff`).
- A second overflow round in one turn drops messages of the active turn (`ContextRetry.SecondRoundDropsActiveTurn`).
- A parent is marked finished for deliveries only by a hard abort, and only while it runs, so a result that finds a full
  channel after its parent ended blocks its goroutine for good (`SubTurns.DeliveryLeaks`, `SubTurns.LeakIsForever`).
  That can happen if and only if sub-turns may have sub-turns of their own, that is with a maximal depth of at least 2
  (`SubTurns.LeakIff`), and never for a parent with no more asynchronous children than its channel has room for
  (`SubTurns.FewChildrenDeliver`).
- A panicked child delivers its result before it gives back its tokens, against the comment that explains the order of
  release and delivery. Under the same condition it makes a parent wait until the wait times out
  (`SubTurns.TimeoutNeededIff`), and, when its delivery leaks, it keeps its slot in the pool of the process: a whole pool
  can be lost so, and then no spawn of that level gets a slot any more (`SubTurns.PoolLossIff`, `SubTurns.PoolStaysLost`).
- When the setup of a turn compresses the session, the recorded start of the turn stays that of the longer prompt. Images
  of tool results below it become path tags and are never shown (`TurnSetup.StartInPlaceIff`,
  `TurnSetup.TurnShowsImagesIff`, `TurnImages.FirstHiddenIff`).
- With a limit of 1 or 2 the repeat guard holds back calls whose results change (`RepeatGuard.ChangingIsFreeIff`).
- A prompt variant stored under an older baseline is served although it is stale when files created after the baseline
  are deleted again (`PromptCache.StaleIff`, `PromptCache.VariantGoesStale`). The same condition governs a build that a
  write overlaps, against the comment that such a write is always noticed.

## Model

| member | source | states |
|---|---|---|
| Sanitizer.FindsAssistant | pkg/agent/context.go:1321-1336 | whether the message a tool result looks back to, past other results, is an assistant message with calls |
| Sanitizer.DropMisplaced | pkg/agent/context.go:1305-1364 | the first pass, message by message, yields `PassOne` |
| Sanitizer.CollectBlock | pkg/agent/context.go:1391-1426 | the results that follow a call message, each expected id once, and where the run ends |
| Sanitizer.KeepNext | pkg/agent/context.go:1376-1477 | one step of the second pass keeps a message, a whole exchange, or drops the exchange with all its results |
| Sanitizer.Sanitize | pkg/agent/context.go:1300-1478 | the two passes together yield `Sanitized` |
| Sanitizer.SanitizedWellFormed | pkg/agent/context.go:1300-1478 | whatever the input, the output is well formed |
| Sanitizer.FixedPoints | pkg/agent/context.go:1300-1478 | a history is left unchanged if and only if it is well formed |
| Sanitizer.Idempotent | pkg/agent/context.go:1300-1478 | sanitizing twice is sanitizing once |
| Sanitizer.DistributesOverTurnCut | pkg/agent/context.go:1300-1478 | sanitizing distributes over a cut in front of a user message |
| Sanitizer.CutShowsSuffix | pkg/agent/context_budget.go:20-28 | cutting at a turn boundary shows the provider a suffix of what it would have seen, and keeps a history well formed |
| Sanitizer.PlainMessagesSurvive | pkg/agent/context.go:1300-1478 | user messages and assistant messages without calls survive in order |
| Sanitizer.MisplacedLeavesRest | pkg/agent/context.go:1305-1364 | a system message, a result without a call, and a call with a wrong predecessor are dropped at any place, and all other messages come out as if they had never been there |
| Sanitizer.ExchangeSurvives | pkg/agent/context.go:1376-1477 | at any place where a call may stand an exchange survives exactly when no call id is empty and every call has a result, and then with the first result of every id; what stands in front of it and behind it does not depend on that |
| Sanitizer.BlockIds | pkg/agent/context.go:1376-1477 | the ids kept from a run are the expected ones that occur in it |
| Sanitizer.LegalIffWellFormed | pkg/agent/context.go:1300-1478 | the left-to-right reading of the contract and the message-by-message one agree |
| ContextBudget.ParseTurnBoundaries | pkg/agent/context_budget.go:20-28 | the positions of the user messages, in order |
| ContextBudget.FindSafeBoundary | pkg/agent/context_budget.go:34-75 | the nearest boundary at or before the target, else the first behind it; 0 for a single turn; the target only without user messages |
| ContextBudget.LastAtMost | pkg/agent/context_budget.go:50-61 | the last boundary at or before the target |
| ContextBudget.IsOverContextBudget | pkg/agent/context_budget.go:92-107 | true exactly when messages, tool definitions and reserve exceed the window |
| ContextBudget.RoomIsShared | pkg/agent/context_budget.go:92-107 | tool definitions, output reserve and every message take their share of the window, one like the other |
| ContextBudget.NextTried | pkg/agent/context_budget.go:142-159 | the next slice tried starts at the next tried position; none lies in between |
| ContextBudget.TrimHistoryToFit | pkg/agent/context_budget.go:112-140 | terminates for every prompt builder; returns the first tried slice whose prompt fits; fails exactly when no tried slice fits |
| ContextBudget.TrimFitsIff | pkg/agent/context_budget.go:112-140 | the trim succeeds exactly when some tried slice fits; that is the empty history fitting when dropping everything never makes a prompt too long |
| ContextBudget.TrimIsLongest | pkg/agent/context_budget.go:112-159 | for a history that starts with a user message the result is the longest fitting turn-aligned suffix |
| ContextBudget.TrimSkipsATurn | pkg/agent/context_budget.go:142-159 | otherwise a fitting longer suffix can be passed over |
| ContextBudget.TrimIsLongestIff | pkg/agent/context_budget.go:112-159 | the result is the longest for every builder and budget if and only if the history starts with a user message or has at most one turn |
| ContextBudget.TrimKeepsExchanges | pkg/agent/context_budget.go:112-159 | what is kept shows the provider a suffix, and no exchange is split |
| TurnState.MessageSlicesEquivalent | pkg/agent/turn_state.go:808-862 | equal up to prompt tags and the local form of the calls |
| TurnState.EquivalentIff | pkg/agent/turn_state.go:808-862 | two messages are the same exactly when role, content, answered call, media, and ids and wire forms of the calls agree |
| TurnState.MatchingTurnMessageTail | pkg/agent/turn_state.go:784-792 | the longest tail of the history that matches the tail of the persisted messages |
| TurnState.SplitHistoryForActiveTurn | pkg/agent/turn_state.go:794-806 | the two parts reassemble to the history and the second is the longest matched tail |
| TurnState.Turn.StoreMessage | pkg/agent/turn_state.go:731-735 | stores a message in the session and records it |
| TurnState.Turn.RefreshRestorePointFromSession | pkg/agent/turn_state.go:743-754 | the restore point becomes the session without its longest matched tail, with the summary of the session |
| TurnState.Turn.RestoreSession | pkg/agent/turn_state.go:773-782 | history and summary of the session are those of the restore point |
| TurnState.MatchIsExact | pkg/agent/turn_state.go:784-792 | a tail the turn persisted is matched in full and never exceeded |
| TurnState.RefreshIsExact | pkg/agent/turn_state.go:743-754 | after a suffix-keeping compaction the refreshed restore point ends where the turn began |
| TurnState.AbortLeavesNoTrace | pkg/agent/turn_coord.go:316-332 | over any interleaving of persisted messages and suffix-keeping compactions the session is the restore point plus a suffix of the persisted messages, and the restore point a suffix of the history before the turn: so the exits that restore the session undo the turn; which exits those are is `TurnEnd.AlwaysUndoneIff` |
| TurnState.TurnStartsUndoable | pkg/agent/turn_state.go:724-729 | a new turn satisfies what `AbortLeavesNoTrace` keeps |
| TurnState.RefreshExactIffAllRecorded | pkg/agent/turn_state.go:743-754 | a refresh finds the place where the turn began if and only if every stored message was recorded |
| TurnState.PersistsKeepSplit | pkg/agent/turn_state.go:731-754 | messages that are stored and recorded leave the place where the turn began, and a refresh finds it |
| Compression.ForceCompression | pkg/agent/context_legacy.go:118-173 | new history and summary of the session, what was dropped is counted in the note; nothing changes when there is nothing to compress |
| Compression.LastUserMessage | pkg/agent/context_legacy.go:137-143 | the one user message of a single turn |
| Compression.OneTurnBoundary | pkg/agent/context_legacy.go:118-146 | with at most one turn the boundary next to the middle is that turn, or the middle |
| Compression.CompressKeepsSuffixIff | pkg/agent/context_legacy.go:118-173 | compression keeps a suffix if and only if the history is not one single turn; of that it keeps the user message alone |
| Compression.CompressKeepsExchanges | pkg/agent/context_legacy.go:118-173 | a well-formed history stays well formed |
| Compression.CompressSplitsExchangeIff | pkg/agent/context_legacy.go:118-146 | compression leaves a history that starts with a tool result if and only if there is no user message and a tool result stands in the middle |
| ContextRetry.CompactSession | pkg/agent/pipeline_llm.go:417-435 | compaction of the session followed by a refresh of the restore point |
| ContextRetry.TrimBeforeActiveTurn | pkg/agent/pipeline_llm.go:441-507 | only the part before the matched tail is trimmed; the prompt holds the trimmed part and the whole tail |
| ContextRetry.RebuildPrompt | pkg/agent/pipeline_llm.go:441-507 | history, messages, start of the turn and call messages after the rebuild, from the trimmed part and the matched tail; it fits exactly when some tried slice does |
| ContextRetry.RebuildAfterOverflow | pkg/agent/pipeline_llm.go:417-507 | one overflow round: compaction, refresh, rebuild |
| ContextRetry.CallWithRetry | pkg/agent/pipeline_llm.go:299-510 | every attempt but the last was retried and the last decides the outcome; it fails exactly when the last error cannot be retried in this turn, the retries are used up, the sleep was cut short, or the last rebuild does not fit; one compaction per overflow and no other change of the session; a rebuilt prompt that is sent fits |
| ContextRetry.RetriesUntilResponse | pkg/agent/pipeline_llm.go:299-510 | when every attempt before the j-th can be retried, the rebuilds fit and the j-th responds, the call responds after exactly j retries |
| ContextRetry.RetryIsDetermined | pkg/agent/pipeline_llm.go:299-510 | outcome and number of calls are determined by the attempts and the rebuilds |
| ContextRetry.CompactionSplits | pkg/agent/pipeline_llm.go:441-507 | after a suffix-keeping compaction the protected part is a suffix of the persisted messages, and shorter only when nothing older is left |
| ContextRetry.RebuildKeepsActiveTurn | pkg/agent/pipeline_llm.go:441-507 | the rebuilt history is a suffix of the older history followed by every message of the active turn that compaction left, whether or not the prompt fits |
| ContextRetry.ActiveTurnWholeIff | pkg/agent/pipeline_llm.go:417-507 | the active turn survives an overflow round as a whole if and only if the session is no single turn and the cut lies before it |
| ContextRetry.ActiveTurnWholeIffCounts | pkg/agent/pipeline_llm.go:417-507 | a turn that starts with a user message survives as a whole if and only if something is in front of it and its user messages are at most one more than those in front |
| ContextRetry.CompactionTracelessIff | pkg/agent/context_legacy.go:118-173 | a compression in the middle of a turn leaves it undoable if and only if the session is not one single turn or has at most two messages; of a single turn the user message stays |
| ContextRetry.SecondRoundDropsActiveTurn | pkg/agent/pipeline_llm.go:417-507 | whenever the retry loop overflows twice or more on a session of one older turn and the active turn, only the user message of the active turn is left, none of it is protected, and the rebuilt history holds at most that message |
| Media.ResolveRefs | pkg/agent/agent_media.go:95-133 | one message: plain references stay, resolved ones become path tags, images are collected for tool results of the current turn |
| Media.OneRef | pkg/agent/agent_media.go:95-133 | one reference: kept when it is no media reference, a tag when it is found, an image when it could be encoded |
| Media.RefsAppend | pkg/agent/agent_media.go:95-133 | references are resolved one by one, in order |
| Media.ResolvedSays | pkg/agent/agent_media.go:135-146 | the tags of what was found are put into the content, which stays otherwise; plain references stay |
| Media.ResolveMediaRefs | pkg/agent/agent_media.go:60-149 | the loop yields `ResolvedHistory`; without a store nothing changes |
| Media.EveryMessageStays | pkg/agent/agent_media.go:60-149 | without the insertions the result is the input, message for message |
| Media.EveryImageShownOnce | pkg/agent/agent_media.go:60-149 | the inserted images are those of the current turn's tool results, each once and in order |
| Media.RenderShows | pkg/agent/agent_media.go:60-149 | message by message: what is kept is resolved in its place, what is inserted is a user message with the images |
| Media.InsertedBehindRuns | pkg/agent/agent_media.go:74-80 | every insertion directly follows a complete run of tool results |
| Media.ResolvingKeepsContract | pkg/agent/agent_media.go:60-149 | the result is well formed if and only if the input is |
| Media.ResolvingKeepsPrompt | pkg/agent/agent_media.go:60-149 | a prompt with its system message is legal after resolving if and only if it was before |
| Media.ResolvingKeepsOpening | pkg/agent/agent_media.go:60-149 | the result ends with a user message or a tool result if and only if the input does |
| Media.ResolvingTwiceIsOnce | pkg/agent/agent_media.go:60-149 | resolving again, with any later start of the turn, changes nothing |
| RepeatGuard.GuardFields.CheckRepeatedToolCall | pkg/agent/repeat_guard.go:63-72 | the decision and the warning flag |
| RepeatGuard.GuardFields.RecordToolResult | pkg/agent/repeat_guard.go:76-89 | the count goes up for an equal execution and starts again otherwise |
| RepeatGuard.RunRemembers | pkg/agent/repeat_guard.go:63-89 | over every run the count is the length of the trailing run of equal executions, at most max(1, limit - 1), and the flag says whether a warning came since |
| RepeatGuard.FreshRunRemembers | pkg/agent/repeat_guard.go:63-89 | the same for every turn, which starts with a fresh guard |
| RepeatGuard.HeldBackIff | pkg/agent/repeat_guard.go:63-72 | a call is held back exactly after limit - 1 equal executions of it, and the turn is stopped only after a warning |
| RepeatGuard.ChangingIsFreeIff | pkg/agent/pipeline_execute.go:197-235 | calls whose results keep changing are never held back if and only if the limit is off or at least 3 |
| ExecuteTools.TurnExecution.AppendSkippedToolResult | pkg/agent/pipeline_execute.go:880-904 | a call that did not run is answered in the messages, and in the session and the record unless the turn keeps no history |
| ExecuteTools.TurnExecution.AppendSkippedFrom | pkg/agent/pipeline_execute.go:228-232 | every call from i on is answered with the notice, in order |
| ExecuteTools.TurnExecution.AnswerCall | pkg/agent/pipeline_execute.go:738-795 | store the result, poll steering, look for an interrupt, poll one sub-turn result |
| ExecuteTools.TurnExecution.RunTool | pkg/agent/pipeline_execute.go:479-643 | approval, profile, run, after-hook: which of them ends the call and how |
| ExecuteTools.TurnExecution.HandleCall | pkg/agent/pipeline_execute.go:147-477 | one call: interrupt, unknown tool, profile, repeat guard and before-hook in the order of the source |
| ExecuteTools.TurnExecution.RefuseToolsSuspended | pkg/agent/pipeline_execute.go:921-935 | while suspended every call is answered with a refusal and the turn goes on |
| ExecuteTools.TurnExecution.FinishTools | pkg/agent/pipeline_execute.go:796-872 | pending steering, late steering, a summary when all results were handled, or another round |
| ExecuteTools.TurnExecution.ExecuteTools | pkg/agent/pipeline_execute.go:112-872 | the whole phase: messages, session, record, pending steering, guard, flags and control; an abort leaves the messages for the model as they were |
| ExecuteTools.OneCallAdds | pkg/agent/pipeline_execute.go:146-795 | one call adds exactly one result with its id, and behind it at most one sub-turn result, or nothing when it aborts or trips the guard |
| ExecuteTools.LoopAdds | pkg/agent/pipeline_execute.go:145-796 | the loop answers every call exactly once and in order; a sub-turn result comes before a tool result exactly when one was polled before the last call |
| ExecuteTools.ResultsKeepContractIff | pkg/agent/pipeline_execute.go:112-872 | with the results of a call message behind it a prompt is legal if and only if it was before, ended with a user message or a tool result, the call ids can be told apart, and no sub-turn result stands in front of a tool result |
| ExecuteTools.EveryCallAnswered | pkg/agent/pipeline_execute.go:112-935 | for every outcome that does not abort: one result per call, in order, each with the content and media that script and guard determine, and the exact condition for the prompt, its system message included, to be legal |
| ExecuteTools.EveryReplyIsRight | pkg/agent/pipeline_execute.go:147-872 | messages and session say, call by call, the result of the tool or of the hook that answers for it, or the wording of the refusal that applies: hint, profile, repetition, denial with its reason, steering, interrupt, suspension |
| ExecuteTools.WhatBecomesOfACall | pkg/agent/pipeline_execute.go:147-643 | exactly when a call is performed, when it hard-aborts and when a hook aborts, in terms of hooks, approval, profile, guard and aborts; and what the guard remembers then |
| ExecuteTools.PolledResultIsShown | pkg/agent/pipeline_execute.go:780-793 | a polled sub-turn result stands behind the result of the call, word for word, as a message of the user |
| ExecuteTools.AnsweredByToolsIff | pkg/agent/pipeline_execute.go:796-872 | the phase ends the turn with its own summary exactly when every call that got its turn was performed with a handled result and no steering came |
| ExecuteTools.QuietPolls | pkg/agent/pipeline_execute.go:780-793 | with no sub-turn result before the last call nothing is wedged in, and so never in a turn without a channel |
| ExecuteTools.SubTurnResultIsWedgedIn | pkg/agent/pipeline_execute.go:780-793 | in a turn with a channel a first call that runs undisturbed, with a sub-turn result polled behind it and another call to come, leaves an illegal prompt, whatever becomes of the other calls; the session is not touched |
| ExecuteTools.SubTurnResultCanBeWedgedIn | pkg/agent/pipeline_execute.go:780-793 | that happens in a sub-turn with every limit of the repeat guard: two calls that simply run |
| ExecuteTools.PhasePersists | pkg/agent/pipeline_execute.go:112-935 | in every kind of turn there is, whatever the phase stores it records, on every exit; a turn that keeps no history stores nothing |
| ExecuteTools.RefreshStaysExact | pkg/agent/turn_state.go:743-754 | a refresh behind the phase finds the place where the turn began |
| ExecuteTools.OneCallFate | pkg/agent/pipeline_execute.go:147-795 | what becomes of a call, decided by its script and the guard: answered by a notice, ended, or performed; with what each does to the guard, the pending steering and the number of messages, and when the loop goes on |
| ExecuteTools.LoopFollowsGuard | pkg/agent/pipeline_execute.go:197-235 | what the loop does to the guard is a run of the guard |
| ExecuteTools.TripIsEarned | pkg/agent/pipeline_execute.go:212-235 | the loop ends the turn only behind max(1, limit - 1) identical executions of the call and a warning since they began |
| ExecuteTools.NoSteeringIsDropped | pkg/agent/pipeline_execute.go:748-822 | the phase leaves at most one batch of steering pending and ends the turn only when none is |
| Prompt.BuildMessagesFromPrompt | pkg/agent/context.go:1241-1297 | one system message unless its text is blank, the sanitized history, the current message; an empty user message when there is nothing else |
| Prompt.UsersKeepPromptIff | pkg/agent/turn_coord.go:176-208 | user messages behind a prompt neither break nor repair it, and let the next message call tools |
| Prompt.BuiltIsLegal | pkg/agent/context.go:1241-1297 | whatever is stored, the prompt built from it is legal; it starts with the system text unless that is blank, and behind it shows the sanitized history and the current message |
| Pipeline.RebuildIsLegal | pkg/agent/pipeline_llm.go:441-507 | a rebuilt conversation is legal whatever the session holds |
| Pipeline.AskedLegalIff | pkg/agent/turn_coord.go:176-208 | injecting user messages and resolving neither break nor repair a prompt; an overflow rebuild makes it legal |
| Pipeline.RoundLegalIff | pkg/agent/turn_coord.go:111-288 | a round leaves a legal prompt if and only if it was legal or rebuilt, and the round is clean |
| Pipeline.ConversationLegalIff | pkg/agent/turn_coord.go:111-288 | over a whole turn with injections, resolving, overflow rebuilds and tool phases the prompt is legal, and what stands behind its system message a fixed point of the sanitizer, if and only if every round was clean since the last rebuild, or since the start when that was legal |
| Pipeline.SinceRebuild | pkg/agent/turn_coord.go:111-288 | with a rebuild the condition is that of the rounds from the last one on, whatever came before |
| Pipeline.TurnLegalIff | pkg/agent/turn_coord.go:98-288 | a turn that starts with a built prompt and never overflows leaves a legal prompt if and only if every round was clean |
| Pipeline.NextRequestIsLegal | pkg/agent/pipeline_llm.go:33-36 | what the model is asked with in the next round is legal under the same condition, or after a rebuild |
| Pipeline.TrimmedIsCut | pkg/agent/pipeline_llm.go:441-507 | the history a rebuild is made from is the compressed session from a tried cut on, in front of the active turn at the latest |
| Pipeline.RebuildShowsAll | pkg/agent/pipeline_llm.go:417-507 | for a well-formed session whose protected part starts with a user message the sanitizer drops nothing of the trimmed history and the active turn |
| Pipeline.CleanWithoutChannel | pkg/agent/pipeline_execute.go:780-793 | in a turn without a channel a round is clean exactly when its calls stand behind a user message or a tool result and their ids can be told apart |
| Pipeline.SessionStaysWellFormed | pkg/agent/turn_coord.go:111-288 | the session stays well formed over injections, compressions, results and summaries when the calls stand behind a user message or a tool result and their ids can be told apart; no poll can spoil it |
| Pipeline.RoundStores | pkg/agent/turn_coord.go:176-288 | what a round adds to the session and the record of a turn that keeps a history: the injected messages as they came, the call, one result per call with what it says, and possibly the summary |
| Pipeline.EveryRefreshIsExact | pkg/agent/turn_state.go:743-754 | in every kind of turn and over every run a refresh finds the place where the turn began, with a suffix of the older history in front of it, as long as no compression finds the session to be one single turn of more than two messages |
| TurnSetup.SetupTurn | pkg/agent/pipeline_setup.go:17-149 | prompt, recorded start, session, record and restore point after the setup; the session is compressed and the history trimmed exactly when the first prompt is too long |
| TurnSetup.SetupIsLegal | pkg/agent/pipeline_setup.go:41-96 | every turn starts with a legal prompt, compressed or not |
| TurnSetup.TurnLegalFromSession | pkg/agent/turn_coord.go:98-288 | from the session to the last round: the conversation is legal if and only if every round was clean since the last rebuild or the setup |
| TurnSetup.SetupIsExactIff | pkg/agent/pipeline_setup.go:49-65 | after the setup a refresh is exact if and only if nothing was compressed, or the session was no single turn of more than two messages |
| TurnSetup.EveryRefreshFromSession | pkg/agent/turn_state.go:743-754 | from the session on every refresh of the turn is exact |
| TurnSetup.StartInPlaceIff | pkg/agent/pipeline_setup.go:42-148 | the recorded start lies in the conversation if and only if the setup did not compress, or its second prompt reaches up to the start in the first |
| TurnSetup.TurnShowsImagesIff | pkg/agent/agent_media.go:100-133 | over a whole turn every image of its tool results is shown once and in order if and only if none stands below the recorded start; none does when the start is in place |
| TurnImages.ImagesShownIff | pkg/agent/pipeline_llm.go:33-36 | the same from any conversation, overflows included; the images due are those hidden and those inserted |
| TurnImages.NothingHidden | pkg/agent/pipeline_llm.go:475 | with the start in the conversation no image is hidden in any round |
| TurnImages.FirstHiddenIff | pkg/agent/agent_media.go:107-133 | an image of the first results is hidden if and only if its tool result stands below the start |
| Media.InsertedFromStart | pkg/agent/agent_media.go:100-149 | a resolution inserts exactly the images of the tool results from the start on |
| Media.InsertedIff | pkg/agent/agent_media.go:100-149 | an image is inserted exactly when a tool result from the start on refers to it and it could be encoded |
| TurnEnd.AbortTurn | pkg/agent/turn_coord.go:316-332 | the session becomes what the restore point holds, unless the turn keeps no history |
| TurnEnd.Finalize | pkg/agent/pipeline_finalize.go:19-66 | a last message is stored, or nothing when the tools handled all results; then a requested hard abort still restores the session |
| TurnEnd.EndTurn | pkg/agent/turn_coord.go:89-312 | for every exit, written out: a hard abort that was seen restores history and summary and is reported as such, an error leaves both, an answer or the end of the loop stores the last message, and tools that answered the user store nothing more |
| TurnEnd.CallOrEnd | pkg/agent/turn_coord.go:214-248 | the retry loop and the exit behind it: compactions, then what the outcome makes of the session |
| TurnEnd.ToolsOrEnd | pkg/agent/turn_coord.go:249-286 | the tool phase and the exit behind it; when the turn goes on no result counts as handled |
| TurnEnd.RollBack | pkg/agent/steering.go:474-481 | the session is cut back to its length before the turn |
| TurnEnd.AlwaysUndoneIff | pkg/agent/turn_coord.go:89-332 | an exit undoes every turn of persisted messages and suffix-keeping compactions, with or without a rollback beside it, exactly when a hard abort was seen: in front of a round, behind the loop, in the model call or the tools, or at last when the tools have answered everything |
| TurnEnd.SeenAbortUndoes | pkg/agent/turn_coord.go:89-332 | every exit on which the abort is seen leaves a suffix of the older history and the status Aborted |
| TurnEnd.TracelessIff | pkg/agent/turn_coord.go:89-332 | for one turn, exactly when its end leaves nothing of it: the exit restores, or nothing was stored, or the rollback cuts off everything and no compaction took older messages |
| TurnEnd.BackoffAbortKeepsTurn | pkg/agent/pipeline_llm.go:379-383 | a hard abort during the back-off completes the turn with a last message; only a rollback behind it helps, and only when no older message was compacted away |
| TurnEnd.HookAbortKeepsTurn | pkg/agent/turn_coord.go:216-241 | a hook abort and a failed call leave the session as it is, which is a suffix of the older history if and only if none of the turn is in it |
| TurnEnd.HookAbortHalfAnswers | pkg/agent/pipeline_execute.go:468-477 | in a turn that keeps a history a hook that aborts between calls leaves a call message in the session that is not answered in full, so that the session is not well formed |
| TurnEnd.HookMayAbort | pkg/agent/pipeline_execute.go:468-477 | that happens: a hook in front of the first call that asks for it aborts the tools |
| Steering.SteeringQueue.PushScope | pkg/agent/steering.go:67-78 | appends to the list of the scope unless ten messages wait |
| Steering.SteeringQueue.DequeueLocked | pkg/agent/steering.go:105-127 | the oldest message, or all of them, according to the mode; an empty list is forgotten |
| Steering.SteeringQueue.DequeueScoped | pkg/agent/steering.go:82-87 | the batch of the normalized scope |
| Steering.SteeringQueue.DequeueScopeWithFallback | pkg/agent/steering.go:91-103 | the batch of the scope if it has one, else that of the manual scope |
| Steering.SteeringQueue.LenScope | pkg/agent/steering.go:130-134 | how many messages wait in the scope |
| Steering.SteeringQueue.ClearScope | pkg/agent/steering.go:136-146 | empties a scope and counts what was dropped |
| Steering.SteeringQueue.SetMode | pkg/agent/steering.go:149-153 | changes the mode and nothing else |
| Steering.DequeuesNothingIff | pkg/agent/steering.go:105-109 | a poll comes back empty exactly when nothing waits, and then changes nothing |
| Steering.PollTakes | pkg/agent/steering.go:105-127 | one at a time takes the oldest message, drain all takes everything; other scopes keep theirs |
| Steering.PushIsAcceptedIff | pkg/agent/steering.go:67-78 | a push is accepted exactly while fewer than ten messages wait in the scope, and waits behind them |
| Steering.FallbackTakes | pkg/agent/steering.go:91-103 | the manual scope is polled exactly when nothing waits in the own scope, or there is none |
| Steering.ClearEmpties | pkg/agent/steering.go:136-146 | clearing empties the scope, says how many waited, and leaves the other scopes alone |
| Steering.RunKeepsFifo | pkg/agent/steering.go:67-153 | over any run of pushes, polls, clearings and mode changes each scope is first in, first out: accepted is removed followed by waiting |
| TurnLoop.TurnRunner.FillPending | pkg/agent/turn_coord.go:129-142 | the pending list takes over what waited, or the initial poll |
| TurnLoop.TurnRunner.InjectPending | pkg/agent/turn_coord.go:160-206 | a sub-turn result joins the pending list, and the list is injected |
| TurnLoop.TurnRunner.PollSteering | pkg/agent/steering.go:245-250 | a poll moves a batch into the shared list |
| TurnLoop.TurnRunner.PollBetweenCalls | pkg/agent/pipeline_execute.go:748-777 | polling stops with the first batch found |
| TurnLoop.TurnRunner.ExecuteTools | pkg/agent/pipeline_execute.go:738-872 | what the tool phase does with steering, and how it ends the turn |
| TurnLoop.TurnRunner.CallModel | pkg/agent/turn_coord.go:216-286 | which outcomes end the turn; a call under a graceful interrupt is the last one |
| TurnLoop.TurnRunner.RunRound | pkg/agent/turn_coord.go:116-286 | one round of the loop |
| TurnLoop.TurnRunner.RunTurn | pkg/agent/turn_coord.go:111-312 | the loop, one round after the other until the turn ends |
| TurnLoop.HowARoundBegins | pkg/agent/turn_coord.go:116-158 | a hard abort comes first; the loop goes on while an iteration is left, a message waits or an interrupt is unanswered; a turn whose parent is gone leaves |
| TurnLoop.WhatARoundInjects | pkg/agent/turn_coord.go:129-208 | a round injects what was pending, in the first round what the poll finds, later what the phases left, and the polled sub-turn result |
| TurnLoop.HowACallEnds | pkg/agent/turn_coord.go:216-248 | which outcome gives which status; behind a graceful interrupt the turn never goes on |
| TurnLoop.PolledIsInjectedOnce | pkg/agent/turn_coord.go:111-208 | in a turn that is not aborted whatever it started with or polled is injected exactly once, in polling order, for both modes and mode changes |
| TurnLoop.PolledInAcceptanceOrder | pkg/agent/steering.go:67-127 | what the turn polled from its scope is what the queue accepted first, in that order, and the rest still waits |
| TurnLoop.RoundsAreBounded | pkg/agent/turn_coord.go:116-119 | at most MaxIterations rounds, one more per injected message, and one |
| TurnLoop.BoundIsReached | pkg/agent/turn_coord.go:116-119 | for every limit the bound is attained: tool rounds up to the limit, and one more for a graceful interrupt |
| ToolSteering.OneCallPolls | pkg/agent/pipeline_execute.go:738-777 | the queue is polled exactly behind the calls that ran, and steering found there skips the rest |
| ToolSteering.LoopPolls | pkg/agent/pipeline_execute.go:748-777 | the batch the loop leaves pending is the one its polls of the queue yield |
| ToolSteering.PhasesAgree | pkg/agent/turn_coord.go:251-286 | the tool phase as the loop of the turn sees it leaves the same steering pending and ends the turn in the same way as the phase that executes the calls |
| SubTurns.StepKeepsInv | pkg/agent/subturn.go:287-348 | every step keeps the accounts of all semaphores and pools, their capacities, and who waits for whom |
| SubTurns.TokensAccounted | pkg/agent/subturn.go:290-348 | in every reachable state, with panics, aborts and timeouts, each semaphore and pool holds one token per spawn between acquire and release, at most its capacity |
| SubTurns.RejectedForDepthIff | pkg/agent/subturn.go:311-348 | a spawn past the semaphore is rejected for its depth exactly when it is one level deeper than allowed, and otherwise gets a slot exactly when one is free |
| SubTurns.OnlyTooDeepIsRejected | pkg/agent/subturn.go:311-319 | over every run only spawns of depth maxDepth + 1 leave that way |
| SubTurns.AllowedSpawnStarts | pkg/agent/subturn.go:321-348 | with a free slot two steps make a spawn of an allowed depth run |
| SubTurns.EveryDepthRuns | pkg/agent/subturn.go:311-348 | for every configuration and every depth up to the maximum a reachable state in which a sub-turn of that depth runs |
| SubTurns.SemaphoreOpensIff | pkg/agent/subturn.go:290-309 | a spawn waits for the semaphore of its parent exactly while all tokens are taken |
| SubTurns.RunningTurnMay | pkg/agent/subturn.go:262-290 | a running turn that waits for nobody may spawn in either way at any depth, finish, be aborted, panic and poll |
| SubTurns.StuckIffSettled | pkg/agent/subturn.go:287-348 | with panics and timeouts, no step is possible if and only if every turn has finished or leaks its delivery |
| SubTurns.NoTimeoutNeeded | pkg/agent/subturn.go:78-92 | unless a panicked spawn finds the channel of its parent full, the same holds when no wait times out |
| SubTurns.AdvanceWorks | pkg/agent/subturn.go:485-537 | every step on the way out uses up some of the work that is left |
| SubTurns.EverythingDrains | pkg/agent/subturn.go:485-643 | every schedule of the remaining steps is finite and ends with everything finished or leaked; without a panic, or when sub-turns have no sub-turns, also without any timeout |
| SubTurns.PanicNeedsTimeout | pkg/agent/subturn.go:485-537 | for every configuration with sub-turns of sub-turns a reachable state in which panicked children hold all tokens of a kind and only the timeout of the waiting parent goes on |
| SubTurns.TimeoutNeededIff | pkg/agent/subturn.go:485-537 | a reachable state that is not settled and goes on by a timeout alone exists if and only if sub-turns may have sub-turns |
| SubTurns.DeliveryLeaks | pkg/agent/turn_state.go:878-918 | for every configuration with sub-turns of sub-turns a reachable state in which everything else has finished and a delivery to an ended parent is blocked |
| SubTurns.LeakIsForever | pkg/agent/subturn.go:576-643 | a leaked delivery stays leaked under every run, the turn in its phase and with its tokens |
| SubTurns.LeakIff | pkg/agent/subturn.go:576-643 | a leak is reachable if and only if sub-turns may have sub-turns |
| SubTurns.PoolCanBeLost | pkg/agent/subturn.go:484-537 | for every configuration with sub-turns of sub-turns a reachable state in which everything else has finished and all slots of the second level are held by panicked turns whose delivery has leaked |
| SubTurns.PoolStaysLost | pkg/agent/subturn.go:321-348 | a lost pool stays lost under every run, and no spawn of its level can take a slot again |
| SubTurns.PoolLossIff | pkg/agent/subturn.go:484-537 | a pool can be lost if and only if sub-turns may have sub-turns |
| SubTurns.FewChildrenDeliver | pkg/agent/subturn.go:576-643 | a turn with no more asynchronous children than its channel has room for takes every result at once |
| SubTurns.AbortUnblocks | pkg/agent/turn_state.go:878-918 | a hard abort of a running turn lets every delivery to it through |
| MessageBus.StepKeepsInv | pkg/bus/bus.go:121-202 | no send on a closed channel, publishers inside are counted, channels close in order, and each stream conserves its messages |
| MessageBus.NothingLost | pkg/bus/bus.go:121-202 | in every interleaving: no send on a closed channel; accepted is received and drained, then buffered, in order; after Close nothing is left |
| MessageBus.PublishesWhileOpen | pkg/bus/bus.go:121-202 | until Close raises its flag a publisher gets its message into every stream with room, behind what was accepted before; afterwards it does not get in |
| MessageBus.ReceivesOldest | pkg/bus/bus.go:121-202 | a consumer gets the oldest buffered message of a stream whenever there is one, also during the shutdown |
| MessageBus.RunDrains | pkg/bus/bus.go:342-379 | once drained, a bus stays drained |
| MessageBus.StepWorks | pkg/bus/bus.go:342-379 | behind the flag every step uses up work, and nobody enters |
| MessageBus.CloseNeverStuck | pkg/bus/bus.go:342-379 | until Close has completed some publisher or Close itself can go on without a consumer |
| MessageBus.CloseCompletes | pkg/bus/bus.go:342-379 | every run behind the flag is finite, and where it cannot go on Close has completed |
| ToolHint.FillRow | pkg/agent/tool_hint.go:99-119 | one row of the table from the row before |
| ToolHint.LevenshteinDistance | pkg/agent/tool_hint.go:81-121 | the two-row form, with its operands swapped when the second is longer, computes the distance |
| ToolHint.ClosestToolName | pkg/agent/tool_hint.go:64-75 | the first of the closest candidates and its distance; -1 without candidates |
| ToolHint.DistanceIsShortest | pkg/agent/tool_hint.go:81-121 | the distance is the length of a shortest script of insertions, deletions and substitutions |
| ToolHint.Symmetric | pkg/agent/tool_hint.go:89-91 | the swap of the operands is justified |
| ToolHint.ZeroOnlyOnEqual | pkg/agent/tool_hint.go:81-121 | the distance is 0 exactly on equal strings |
| ToolHint.TriangleInequality | pkg/agent/tool_hint.go:81-121 | the distance over a third string is never shorter |
| MemoryBudget.FirstSectionEnd | pkg/agent/memory_budget.go:139-150 | a heading with exactly one heading in front of it, which is unique; with fewer than two headings behind the first line, or 0 for no lines |
| MemoryBudget.SelectLines | pkg/agent/memory_budget.go:45-68 | the greedy choice: the first section, then the rules and then the rest, newest first, each line that fits |
| MemoryBudget.RenderKeptLines | pkg/agent/memory_budget.go:93-113 | the kept lines in file order, with the breaks between them |
| MemoryBudget.LastLineTail | pkg/agent/memory_budget.go:123-134 | the end of the last line that is not blank, cut to two and a half characters per token |
| MemoryBudget.LastLineTailIs | pkg/agent/memory_budget.go:123-134 | the end of the last line that is not blank, two and a half runes for every token, or all of it |
| MemoryBudget.TokensPerRune | pkg/agent/memory_budget.go:115-119 | five runes are two tokens; a line is rounded up and costs one more for its break |
| MemoryBudget.BudgetMemoryContext | pkg/agent/memory_budget.go:39-87 | when the content is capped and what replaces it |
| MemoryBudget.TakeAllAccounts | pkg/agent/memory_budget.go:45-68 | the budget spent is the cost of the kept lines, none of them blank |
| MemoryBudget.KeptIff | pkg/agent/memory_budget.go:45-68 | a line is kept exactly when it is not blank and fits into what lines of higher priority left |
| MemoryBudget.PriorityIs | pkg/agent/memory_budget.go:45-68 | lines are offered the budget in this order: the opening section from the top, rule lines newest first, everything else newest first |
| MemoryBudget.OmittedForShorter | pkg/agent/memory_budget.go:45-68 | a line is left out while one of lower priority is kept only if that one is shorter |
| MemoryBudget.NothingMoreFits | pkg/agent/memory_budget.go:45-68 | no line left out would still fit |
| MemoryBudget.OmittedLinesDoNotFit | pkg/agent/memory_budget.go:45-68 | the same for the whole block, with the accounts of the budget |
| MemoryBudget.KeptIndicesInOrder | pkg/agent/memory_budget.go:76-80 | the kept lines are a subsequence of the file |
| MemoryBudget.RenderedReadsBack | pkg/agent/memory_budget.go:93-113 | read line by line the rendered text gives back the kept lines, whole and in file order |
| MemoryBudget.BlockShowsKept | pkg/agent/memory_budget.go:39-87 | the block is the header and a text that reads back as the kept lines |
| MemoryBudget.BlockWithinBudget | pkg/agent/memory_budget.go:39-119 | the block is within the budget if and only if the bare header is, despite rounding per line |
| PromptCache.BuildCacheBaseline | pkg/agent/context.go:758-803 | which tracked paths exist, the skill files with their times, and the latest time of all |
| PromptCache.ContextBuilder.FileChangedSince | pkg/agent/context.go:847-865 | created, deleted, or newer than the baseline |
| PromptCache.ContextBuilder.SkillFilesChangedSince | pkg/agent/context.go:876-931 | any skill file created, deleted or with another time |
| PromptCache.ContextBuilder.SourceFilesChanged | pkg/agent/context.go:812-837 | whether anything tracked differs from the baseline |
| PromptCache.ContextBuilder.BuildSystemPromptWithCache | pkg/agent/context.go:441-482 | serves the cached prompt while nothing changed, else builds, takes a new baseline and drops the variants |
| PromptCache.ContextBuilder.CachedVariant | pkg/agent/context.go:577-585 | serves a variant while nothing changed since the baseline |
| PromptCache.ContextBuilder.StoreCachedVariant | pkg/agent/context.go:587-613 | keeps an older baseline if there is one; a new floor retires variants of the same shape |
| PromptCache.ContextBuilder.BuildSystemPromptForVariant | pkg/agent/context.go:516-545 | lookup, build and store of a variant |
| PromptCache.ContextBuilder.InvalidateCache | pkg/agent/context.go:710-721 | everything cached is forgotten |
| PromptCache.UnchangedMeansSame | pkg/agent/context.go:812-931 | a workspace that passes the check shows a build the same files as the one the baseline was taken of |
| PromptCache.SameFilesSeen | pkg/agent/definition.go:80-134 | every document a build reads is among the files that are watched, in both layouts |
| PromptCache.RootsAreWatched | pkg/agent/context.go:812-837 | a skill root that comes, goes or is written to makes the cache build again |
| PromptCache.StaleIff | pkg/agent/context.go:587-612 | a prompt validated by an older baseline can be served stale if and only if all the baseline saw is intact and the prompt was built from something else |
| PromptCache.RunKeepsInv | pkg/agent/context.go:441-482 | the baseline, the cached prompt and every variant belong to the workspaces they were taken of, over every run |
| PromptCache.DefaultCacheIsTransparent | pkg/agent/context.go:441-482 | over any run of writes with strictly increasing times, deletions and lookups the default cache returns what an uncached build returns |
| PromptCache.ServedWhileUnchanged | pkg/agent/context.go:441-482 | while nothing changed the cached prompt is served whatever a build would give |
| PromptCache.VariantServedWhileUnchanged | pkg/agent/context.go:577-585 | the same for variants |
| PromptCache.InvalidatedIsRebuilt | pkg/agent/context.go:710-721 | after an invalidation nothing is served from the cache |
| PromptCache.StoredVariantsIff | pkg/agent/context.go:587-613 | a variant with a new floor takes the place of those of its shape with a floor, and of no other |
| PromptCache.VariantIsCurrentIf | pkg/agent/context.go:577-585 | a variant is current when nothing a build sees had changed between the baseline and its own build |
| PromptCache.VariantGoesStale | pkg/agent/context.go:587-612 | create a file, build a variant, delete the file: the variant is served stale |

## Left out

- TurnEnd.TracelessIff: the rollback of a stop falls in front of the exit or behind it, not between two results stored by one tool phase; without a whole older history the messages of the turn must differ from the older ones.
- SubTurns.LeakIsForever: turns are never removed, and a finished turn is never started again.
- TurnLoop.PolledInAcceptanceOrder: speaks of scopes nobody else takes from while the turn runs; the manual scope is shared by design.
- PromptCache.DefaultCacheIsTransparent: a lookup is one step; a write that overlaps a build is covered by StaleIff instead, and the daily notes, which the baseline does not track, are no part of a build.
- SubTurns.EverythingDrains: an asynchronous spawn runs on its own goroutine, as its callers arrange.
- ContextRetry.CallWithRetry: waiting between retries, notices to the user and the kinds of network errors are not modelled beyond whether an error is retried.
- The session store itself (files, SQLite, message filters, metadata) and the seahorse context manager; the legacy context manager's summarization.
- The summary of the session at the end of a turn, focus windows and their escalation beyond "the round is repeated".
- Media delivery to channels, file access and encoding of images: a lookup says what a reference resolves to.
- Case folding of tool names, token estimates of messages, prompt text, signatures and hashes are function parameters or strings.
- The hint text for unknown tools: string formatting.
- SubTurns.PoolStaysLost: the length of a timeout is not modelled; a wait may time out at any moment.
- TurnImages.ImagesShownIff: what a reference resolves to does not change during the turn; a rebuild after an overflow shows the images of the active turn anew, in the prompt that replaces the conversation.
- The ad-hoc parent that has a result channel (pkg/agent/agent_init.go:343-348): it spawns sub-turns but never runs a turn loop.
- Sub-turn stores: a sub-turn keeps no history, so that its ephemeral store (pkg/agent/subturn.go:743-747) stays empty.
- Per-session mutual exclusion of turns, the cascade of a hard abort, logging, events, telemetry, streaming, statistics of the bus.
- Goroutines, channels, mutexes and wait-groups of sub-turns and bus are steps of state machines rather than imperative code.
- Walk and stat errors other than a missing file in the check of the prompt cache.
- Go slices are sequences of values here, so that aliasing of a backing array is not modelled; the arrays of the edit distance are arrays.
