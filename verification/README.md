# Agent runtime, streaming converter and weight layouts, modelled and proved in Dafny

The project models four parts of the repository and proves what they promise.

1. **The agent run** (`agent/session.go`, `agent/compactor.go`, `agent/approval.go`).
   `Session.Run` is a loop over four phases: ask the model, run its tool calls, compact the history,
   finish. The project follows it through server errors, cancellation at any moment, disabled tools,
   the round limit, denied approvals, tool results cut to a token budget and both kinds of compaction.
   The main result (`Sessions.Session.Run`) is about every run, whatever the outside world answers. It tells the
   run as a list of turns: a reply is taken in, an error is told to the model or ends the run, calls are answered, or
   a compaction replaces what stood before. `Chronicle` says that the turns are those of a grammar (`MayFollow`),
   that the history is exactly what they make of the initial one, that the requests are exactly the history each time
   the model is asked, and that the turns are those of the replies and answers. For well behaved replies it follows that
   history and requests are well paired: each assistant message with calls is followed at once by one result per
   call, in order (`Histories.HistoryIsPaired`). Everything else needs no assumption on the replies.
   The run ends within a stated number of steps whenever it has a limit, and only then: without one the model can be
   asked without end. It ends with one terminal event, which comes last, and for one of the reasons listed
   (`Why`). Whatever was executed was cleared: it needed no approval, or its scope was allowed at the start or by
   an answer of the user since, or the user allowed the batch that it belonged to; and what is allowed at the end is
   exactly what was at the start and those answers. Unless a sink fails, the calls that count are those of
   the replies that the model gave, each is finished exactly once and in order, the executions are exactly those
   of the answers, and a batch that is not stopped runs every call of a known tool. Calls stay open in two
   cases; both are given exactly, each with a witness.
2. **The Anthropic streaming converter** (`anthropic/anthropic.go`). Partial responses in any order give one
   well-formed event stream; a client that assembles it holds exactly what was received; and it ends up with the
   blocks that the one-shot conversion makes of the merged response exactly when the responses come in phase
   order and the calls are distinct and can be encoded.
3. **Weight layouts** (`convert/convert_qwen3next.go`, `convert/convert_glmocr.go`, `convert/convert_gptoss.go`).
   The row-major index arithmetic computes the intended permutations, each with its inverse.
4. **Non-finite JSON numbers** (`convert/json_compat.go`). A scanner with string and escape state: strings are kept,
   exactly the whole tokens outside strings are replaced, and doing it twice changes nothing more.

How it is built:

- Code that changes state is a class or a method with loops (`Session`, `RunState`, `ApprovalState`,
  `StreamConverter`, the array loops of the converters); code made of expressions is functions. The contracts of the
  methods speak about values (`RunView`, `Account`, `Conv`, a byte sequence), and the lemmas are about those.
- Everything outside is a `World`: what the model, the tools, the user, the summariser, the sinks and the
  context answer, as arbitrary functions of the moment they are asked. `Env` asks and keeps a ghost trace; an
  `Account` is what a trace amounts to.
- Text is sequences of code points. Lengths that markers print are at most 2^63 - 1 (`Text.MAX_INT`), as Go's `int` is.
- A tensor is a shape and its elements in row-major order. Reshape, transpose, slice and concat are given by the
  elements of their results; the tensor library itself is not part of this model.

## Model

| member | source | states |
|---|---|---|
| Truncation.TruncateKeepsBothEnds | agent/session.go:1029-1050 | a truncated text is exactly the stated number of runes from the two ends of the original with one marker in between |
| Truncation.TruncateAgain | agent/session.go:1029-1081 | a second truncation drops the first marker and counts that instead of what it stood for; the ends stay |
| Truncation.TruncateAgainIff | agent/session.go:1029-1081 | truncation is not idempotent: a second one changes nothing exactly when the marker prints as many tokens as it has itself |
| Truncation.TruncateKeepsPrefix | agent/session.go:1029-1050 | a prefix no longer than the head is there after truncation if and only if it was before |
| ToolBudget.ToolMarkerLength | agent/session.go:1052-1081 | the marker in a cut tool result has at most 223 runes, for every 63-bit count |
| ToolBudget.ToolOmissionLength | agent/session.go:1029-1035 | the notice that replaces a whole result has at most 183 runes and is recognised as an omission |
| ToolBudget.ResultStaysBelowBudget | agent/session.go:886-915 | with the marker reserve left, every result of any size ends strictly below the budget |
| ToolBudget.ResultWithoutReserve | agent/session.go:886-915 | without the reserve it is below the budget as it is, or replaced by exactly the omission notice |
| ToolBudget.ResultFitsOrIsOmitted | agent/session.go:886-915 | for every positive budget: below it, or visibly omitted |
| ToolBudget.ResultBelowBudgetIff | agent/session.go:886-915 | the exact condition to end below a positive budget: the result does as it is, or the reserve is there, or the notice of omission fits |
| ToolBudget.ReserveIsNeeded | agent/session.go:886-915 | with room for up to 42 tokens left, every result that does not fit as it is is omitted and still goes over the budget |
| ToolBudget.CutAgainDiffers | agent/session.go:1029-1081 | every tool result more than 224 runes over its limit changes when it is cut again |
| ToolBudget.CutChangesNothingIff | agent/session.go:1029-1081 | a cut leaves a text alone exactly when it is short enough, or already carries the marker for its own length in that place |
| Compactor.SplitCompactionMessages | agent/compactor.go:537-588 | the loops compute a split: system prefix, last summary, archive and suffix as IsSplit defines them, ok exactly when there are candidates |
| Compactor.CollectCandidates | agent/compactor.go:548-565 | the pass drops exactly the compaction messages and finds the last summary |
| Compactor.UserTurnIndexes | agent/compactor.go:567-572 | the positions of all user turns, last first |
| Compactor.SplitConserves | agent/compactor.go:537-588 | prefix, archive and suffix together are the input without its compaction messages, in order |
| Compactor.SplitArchivesAUserTurn | agent/compactor.go:573-588 | whenever there is a user turn one is archived; the suffix holds min(keep, users - 1) of them |
| Compactor.SplitIsUnique | agent/compactor.go:537-588 | a history has only one split for a request |
| Compactor.SplitOfCompacted | agent/compactor.go:134-141 | splitting a freshly compacted history gives back the prefix, the summary and the kept turns |
| Compactor.SummaryTextOfContinued | agent/compactor.go:306-335 | with the continue instruction, reading back gives the trimmed summary, always |
| Compactor.SummaryTextOfPlain | agent/compactor.go:641-646 | without it, exactly when the trimmed summary does not itself end in the instruction |
| CompactionPrompt.FitCompactionMessagesToBudget | agent/compactor.go:498-522 | the loop is sixteen rounds of Shrink, left early only where further rounds change nothing |
| CompactionPrompt.LargestCompactionContentMessage | agent/compactor.go:524-535 | the first of the longest non-empty contents, or -1 |
| CompactionPrompt.FitKeepsTheRest | agent/compactor.go:498-522 | fitting changes nothing but contents |
| CompactionPrompt.CutShortensJson | agent/compactor.go:481-522 | cutting a content shortens its JSON text by at least the cut less 227, escapes included |
| CompactionPrompt.OneRoundFits | agent/compactor.go:498-522 | if the longest content exceeds 4 * overage + 256 runes one round brings the prompt within the budget |
| CompactionPrompt.FitFailsOnlyOnShortContents | agent/compactor.go:498-522 | fitting ends over the budget only if every round found nothing but contents of at most that length |
| CompactionPrompt.RoundDoesNotLengthenIff | agent/compactor.go:498-522 | a round does not lengthen the prompt exactly when the longest content has more than 4 * overage + 256 runes or its JSON text is as long as the notice that takes its place |
| CompactionPrompt.ShortContentLengthens | agent/compactor.go:498-522 | so for a short content a round costs tokens |
| Pairing.PairedMeansAnswered | agent/session.go:240-330 | in a paired history call k of a message is answered by the k-th message after it |
| Pairing.PairedMeansCalled | agent/session.go:240-330 | and every tool result stands where a call put it |
| Pairing.BatchStaysWhole | agent/compactor.go:548-565 | the filter of a compaction keeps or drops a call with its results as a whole |
| Pairing.BatchStaysWholeIff | agent/compactor.go:590-646 | it does exactly when the results are summaries if and only if the call is a compaction call |
| Pairing.InventedSummaryCallIsTornApart | agent/compactor.go:548-565 | a made-up call to the summary tool is the counterexample |
| Pairing.CompactionKeepsPairing | agent/compactor.go:90-142 | compacting a paired history leaves a paired one, for every split and every summary |
| Pairing.SanitizeKeepsPairing | agent/session.go:981-997 | cutting tool results to the fixed limit keeps a history paired, summaries included |
| Pairing.RequestKeepsPairing | agent/session.go:443-470 | what goes out to the model is as well paired as the history |
| Approvals.ApprovalState.Set | agent/approval.go:47-56 | replaces the state by exactly the given grants |
| Approvals.ApprovalState.GrantAll | agent/approval.go:58-66 | allows everything, and keeps what was allowed |
| Approvals.ApprovalState.Allows | agent/approval.go:77-88 | a scope is allowed by a grant of everything or of itself |
| Approvals.ApprovalState.GrantScopes | agent/approval.go:109-130 | adds exactly the trimmed, non-empty scopes |
| Approvals.ApprovalState.Apply | agent/approval.go:90-107 | merges an approval; the answer says whether it grants anything |
| Approvals.AllowedScopeIsRemembered | agent/approval.go:77-130 | allowing the scope that was asked for has an effect next time exactly when it is non-empty and trimmed, unless it was covered already |
| Approvals.CoveredByHistory | agent/approval.go:90-130 | after any list of approvals a scope is covered exactly when it was before, or one of them allowed everything or a text that trims to it |
| ToolBatch.AskedAbout | agent/session.go:496-509 | exactly the calls of known tools that need approval are put to the user |
| ToolBatch.NothingToAsk | agent/approval.go:145-157 | nothing once everything is allowed |
| ToolBatch.FinishedOnceInOrder | agent/session.go:545-633 | the finished events of a batch name its calls once each, in order |
| ToolBatch.StartedThenFinished | agent/session.go:582-629 | each start is followed at once by the finish of the same call |
| ToolBatch.BatchStaysBelowThreshold | agent/session.go:472-633 | a non-empty batch that ran to its end records an overflow, or history and batch stay below the threshold; ExecuteToolCalls promises the same |
| ToolBatch.AnswersArePaired | agent/session.go:472-670 | the messages of a batch answer its calls, ID by ID |
| Reattach.RefitsArePaired | agent/session.go:796-812 | results put back after compaction still answer their calls |
| Reattach.RefitUsesOriginalText | agent/session.go:787-812 | with distinct IDs exactly the omitted results are cut afresh from their original text; every other one is cut from its message |
| Reattach.RefitKeepsMessageIff | agent/session.go:796-812 | such another one keeps its message exactly when it is within the limit of the window and fits at the running total, or carries the marker for its own length |
| Reattach.CutResultIsRecounted | agent/session.go:796-812 | one that had been cut by more than 224 runes does not keep it where the whole cut fits: it is cut again |
| Reattach.ReattachedIsPaired | agent/session.go:760-818 | the batch stays whole and paired across the compaction that it caused |
| Reattach.ReattachmentFits | agent/session.go:796-812 | what is put back fits the window with what stands before it, or some result in it has been left out visibly |
| Replies.PlainReplyStands | agent/session.go:387-441 | pieces from the assistant, or from nobody in particular, add up to replies that can stand in a history, also when a sink cuts them off |
| Clearing.BatchIsLawful | agent/session.go:493-543 | a batch with at most one prompt, for exactly what has to be asked, keeps every execution of the run cleared |
| Clearing.LawfulGrows | agent/approval.go:90-130 | what is allowed only grows during a run |
| Histories.HistoryIsPaired | agent/session.go:240-369 | whatever the turns of a run, if its initial history is paired and its replies can stand, its history is paired but for the calls still to be answered |
| Histories.RequestsArePaired | agent/session.go:240-269 | and so is every request |
| Histories.RequestAt | agent/session.go:387-396 | each time the model is asked it is given the history as it is then |
| Histories.FirstRequest | agent/session.go:154-204 | the first request is the history that the run began with |
| Histories.HistoryOnlyGrows | agent/session.go:332-369 | without a compactor nothing is ever replaced: the history is the initial one and what every turn adds, in order |
| Histories.UnstoppedBatchRunsAll | agent/session.go:545-633 | a batch that did not stop executed exactly its calls of known tools |
| Histories.ReattachedBatchFits | agent/session.go:760-818 | in every run, a batch put back after a compaction fits the window, or some result in it has been left out visibly |
| Chronicles.VoicesStand | agent/session.go:387-441 | what a run takes in of well behaved replies can stand in a history, also when a sink cuts it off |
| Chronicles.ReplacedTurn | agent/session.go:332-369 | a compaction phase adds at most one turn, which replaces the history along a split or by a reattachment |
| Environment.ClosedMeansLast | agent/session.go:371-385 | an account with one terminal event and nothing behind it is that of a trace that ends in its only terminal event |
| Sessions.Session.SkipToolCalls | agent/session.go:657-670 | every call is answered with the given text, cut to the fixed limit, and finished as skipped; nothing runs |
| Sessions.Session.DisabledToolCalls | agent/session.go:635-655 | every call is answered with the notice, fitted at the running total, and finished as disabled |
| Sessions.Session.AuthorizeToolCalls | agent/approval.go:171-187 | when the user is asked, what is answered and what it does to the grants |
| Sessions.Session.RunToolCalls | agent/session.go:545-633 | calls run in order until the context is canceled, the rest is skipped; results are fitted at the running total and omissions recorded |
| Sessions.Session.DenyToolCalls | agent/session.go:529-539 | every call of a denied batch is answered with the reason and nothing runs |
| Sessions.Session.ExecuteToolCalls | agent/session.go:472-633 | a batch answers every call in order, runs only what was cleared, all in the directory it began in; a denied one runs nothing and carries the user's reason; unless a sink fails it fails exactly when something has to be asked and the prompt fails in a live context |
| Sessions.Session.IsContextCanceledError | agent/session.go:713-721 | exactly which errors count as cancellation |
| Sessions.Session.ChatRound | agent/session.go:387-441 | one request with the history as it is; every piece is passed on to the sinks in order; the reply is the sum of the pieces, cut short only by a failing sink; which errors count as cancellation |
| Sessions.Session.MaybeCompact | agent/compactor.go:90-142 | compacts exactly along the split, with the trimmed and truncated summary, whenever it is due, possible and the summariser gives one, or failing that the fallback does; otherwise the history stays |
| Sessions.Session.MaybeCompactHistory | agent/session.go:723-758 | the history is kept or compacted as above, fallback included, pairing is kept, and the error is that of the budget check |
| Sessions.Session.CompactForToolOutputOverflow | agent/session.go:760-818 | everything is archived and the batch put back behind the summary, refitted to the window, or the history stays; what is put back fits, or says that something is left out |
| Sessions.Session.IndexOverflows | agent/session.go:787-790 | the last overflow recorded under each ID |
| Sessions.Session.RunModelStep | agent/session.go:240-317 | keeps the invariant and shortens the run; sends exactly one request, the current history; server errors are retried exactly twice in a row; where a reply leads |
| Sessions.Session.FollowUp | agent/session.go:270-317 | a reply with calls is skipped, refused, left open or sent to the tools phase, in that order of precedence, and which calls are open afterwards |
| Sessions.Session.RunToolStep | agent/session.go:319-330 | keeps the invariant, the clearance of what ran included, and adds exactly the batch; unless a sink fails it fails exactly when the prompt does in a live context, and then the calls stay open |
| Sessions.Session.RunCompactionStep | agent/session.go:332-369 | keeps the invariant and shortens the run; the history is replaced along a split or by a reattachment, when it is time to and the summariser gives a summary, and stays as it is otherwise; how the round ends follows from how its batch stopped |
| Sessions.Session.FinishRun | agent/session.go:371-385 | the one terminal event is last; the result is the history of the run |
| Sessions.Session.Run | agent/session.go:154-204 | every run, in every state: history, requests and answers are those of its turns, paired for well behaved replies; one request at least in three steps, over within StepLimit steps if it is limited; and at the end RunOver: executions cleared by prompts of the account, accepted calls those of the replies, events and executions those of the answers, a reason for the end, and which calls stay open |
| Sessions.ResolvedMaxToolRounds | agent/session.go:871-879 | a run has no limit exactly when a negative one, or none for a cloud model, is asked for; otherwise it is the one asked for, or 100 |
| Runs.LimitedRunIsCheap | agent/session.go:301-366 | with limit m at least one and at most 3 * (m + 1) calls of the model, and at most m batches |
| Runs.EveryCallIsFinishedIff | agent/session.go:545-670 | unless a sink fails: every call of every reply that was taken in is finished exactly once, in order, if and only if the run was not given up over a failing prompt and had a registry for the calls; every start is followed at once by its finish |
| Runs.ExecutedCallWasCleared | agent/session.go:493-543 | whatever a run executed was a call of a known tool that needed no approval, or whose scope was allowed at the start or by an earlier answer of the user, or that was in a request of its own batch which the user allowed |
| Runs.UnstoppedBatchWasExecuted | agent/session.go:545-633 | unless a sink fails, every call of a known tool in a batch that did not stop is among the executions of the run |
| Runs.HistoryWithoutCompactor | agent/session.go:240-369 | without a compactor the final history is the initial one, every reply, the errors told to the model and every answer, in order |
| Runs.InsistentRunGoesOn | agent/session.go:284-313 | a run without a limit, or with tools disabled, is never over while the model asks for an unknown tool again and again |
| Runs.NeverEnds | agent/session.go:154-204 | so Session.Run is not over after any number of steps, of which every third at least asks the model again: with Run this makes Limited the exact condition for ending |
| Runs.NoRegistryLeavesCallsOpen | agent/session.go:284-300 | a whole run without a registry that ends with its calls unfinished |
| Runs.FailingPromptLeavesCallsOpen | agent/session.go:510-527 | the first two steps of a run that is then over, with its calls unfinished, because the prompt failed in a live context |
| Streaming.StreamConverter.Process | anthropic/anthropic.go:749-980 | the new state and the events are those of ProcessOf |
| StreamGrammar.StreamIsWellFormed | anthropic/anthropic.go:749-980 | any responses ending in one Done: message_start, blocks 0, 1, 2, ... one open at a time, each start, deltas, stop, at most one for thinking, message_delta, message_stop |
| StreamContent.FirstsAreFirst | anthropic/anthropic.go:861-932 | the tool blocks have distinct IDs, and exactly those that some encodable call had |
| StreamContent.StreamIsFaithful | anthropic/anthropic.go:779-932 | after any responses the client holds all content, the thinking until its block was closed, and the first sendable occurrence of each call |
| StreamContent.StreamDelivers | anthropic/anthropic.go:779-980 | and at the end the reason and usage of the last response; the reason is tool_use exactly when a tool block was sent |
| StreamContent.StreamingRefinesOneShot | anthropic/anthropic.go:656-715 | in phase order, with distinct encodable calls, streaming gives exactly the blocks, reason and usage of ToMessagesResponse on the merged response |
| StreamContent.StreamingAgreesIff | anthropic/anthropic.go:656-980 | for every whole stream, the client has the blocks of the one-shot conversion if and only if the responses come in phase order and the calls are distinct and can be encoded |
| StreamContent.OutOfOrderDiffers | anthropic/anthropic.go:779-860 | an instance: text before thinking arrives in that order, and is converted in the other |
| GptOss.ShuffleNibbles | convert/convert_gptoss.go:227-238 | in every 16-byte block the 32 values, read low nibbles first and then high, are the old ones read byte by byte |
| GptOss.ShuffleLosesNothing | convert/convert_gptoss.go:227-238 | blocks are equal exactly when their shuffles are |
| GlmOcr.NormalToNeoX | convert/convert_glmocr.go:22-77 | the three loops give the repacked matrix: rotary rows of each whole head even ones first, the other rows as they are, zero in rows that fill no head |
| GlmOcr.RowsArePermuted | convert/convert_glmocr.go:50-73 | source and target row are inverse to each other and stay in their head |
| GlmOcr.NothingIsLost | convert/convert_glmocr.go:22-77 | if the head size divides the rows every element is found at the target of its row |
| GlmOcr.LosslessIff | convert/convert_glmocr.go:22-77 | equal repacked matrices come from equal matrices exactly when the head size divides the rows |
| GlmOcr.RepackedDetermines | convert/convert_glmocr.go:22-77 | the result is determined by the input |
| Tensors.IndexOfPosition | convert/convert_qwen3next.go:1349-1375 | row-major positions determine the element of a shape of any rank |
| HeadLayout.ReorderHeadLayout | convert/convert_qwen3next.go:1325-1376 | along the chosen axis of any shape feature (k, v, d) goes to (v, k, d); where the shape does not fit the data is unchanged; no error |
| HeadLayout.SwapsHeads | convert/convert_qwen3next.go:1359-1367 | lane d of value head v of key head k becomes lane d of key head k of value head v |
| HeadLayout.ReorderingUndone | convert/convert_qwen3next.go:1325-1376 | reordering with the head counts exchanged gives back the data |
| HeadLayout.ReorderingDetermined | convert/convert_qwen3next.go:1325-1376 | the result is determined by the input |
| AttnQkv.RepackAttnQkv | convert/convert_qwen3next.go:1188-1244 | in both layouts query and key features stay, value features are swapped, and other shapes are left alone |
| AttnQkv.FeaturesArePermuted | convert/convert_qwen3next.go:1188-1244 | features are permuted, and only among the value features |
| AttnQkv.LayoutsAgree | convert/convert_qwen3next.go:1206-1239 | repacking commutes with transposing: both layouts of the same matrix stay transposes of each other |
| Qkvz.QkvzSpec | convert/convert_qwen3next.go:1389-1423 | a split is given exactly when the heads are positive and divide evenly and the shape has a row for every lane of all query, key, value and gate heads; the rows of both outputs add up to the input's |
| Qkvz.RowsAddUpIff | convert/convert_qwen3next.go:1400-1422 | they do exactly when value heads divide evenly by key heads |
| Qkvz.RepackQkvz | convert/convert_qwen3next.go:1453-1537 | each output row is the input row of the same lane of the same part of the same key head |
| Qkvz.InputRowsAreLanes | convert/convert_qwen3next.go:1471-1494 | every input row is exactly one lane of one part |
| Qkvz.OutputRowsAreLanes | convert/convert_qwen3next.go:1496-1532 | so is every row of either output, hence every input row is in exactly one place |
| Qkvz.NothingIsLost | convert/convert_qwen3next.go:1453-1537 | the two outputs together determine the input |
| JsonCompat.SanitizeNonFiniteJson | convert/json_compat.go:13-68 | the scanner computes Sanitized, which is given place by place and never longer than the input |
| JsonCompat.StringsAreCopied | convert/json_compat.go:25-43 | bytes in strings, and the quotes, are copied |
| JsonCompat.ModeIsKept | convert/json_compat.go:25-43 | quotes and escapes of the output are read as those of the input |
| JsonCompat.NoTokenIsLeft | convert/json_compat.go:45-85 | no whole token is left outside strings |
| JsonCompat.UnchangedIff | convert/json_compat.go:13-85 | nothing changes exactly when there was none |
| JsonCompat.Idempotent | convert/json_compat.go:13-85 | doing it twice is doing it once |

## Left out

- Sessions.Session.Run: is followed for a given number of steps (fuel), since a run without a limit need not end; for limited runs every number from StepLimit on is enough, and below that the invariant of the state reached is stated.
- Sessions.Session.Run: pairing is promised for replies that can stand in a history (WellBehaved): what their pieces add up to is no tool result, only the assistant has calls, and none is to a tool named `summary`; what happens otherwise is Pairing.InventedSummaryCallIsTornApart, and Pairing.BatchStaysWholeIff gives the exact condition.
- Sessions.Session.Run: when a sink fails in the middle of a reply or a batch, executions are still all cleared, but the accepted calls and the tool events are only tied to the replies and answers before the failure.
- Sessions.Session.ExecuteToolCalls: the loop is a method of its own (RunToolCalls), as are the denied and the abandoned batch; the copy of the history that the source keeps beside it is never read and is not modelled.
- Sessions.Session.MaybeCompact: the summariser is one question to the world; the prompt it is asked with is modelled apart, in CompactionPrompt.
- Skill discovery and activation: an activated skill adds a paired call and result, which can stand in the initial history.
- Token estimates of whole requests (tools, format, system prompt): an arbitrary function of the history, and the context window and compaction threshold are given numbers; the estimates of single messages are modelled.
- Error texts of the budget checks and of validateRun are abbreviated; error values carry a text, a status and whether they are the context's own.
- Events carry what the proofs need: call, name, status and content of tool events, but not run metadata, arguments, triggers, working directories of finished events or separate error texts. RunResult leaves out the last response but for its prompt count.
- Message images, tool definitions, request options and keep-alive: only passed through.
- How tool calls and their arguments look in the JSON of a compaction prompt: an arbitrary function (Fields); the escaping of contents is modelled rune by rune.
- Roles are four known ones or any other text. Locks, goroutines, UUIDs, trace logging and the type and role constants of Anthropic events: no bearing on the properties.
- StreamConverter.Process is split into the parts of its body; its token counters are written but not read across calls, so State leaves them out. JSON encoding of arguments is an arbitrary function that may fail.
- The documentation of Truncate says at most MaxRunes runes (agent/session.go:1024-1025); the marker is added on top of that, and the lemmas state what the code does.
- GlmOcr.NormalToNeoX: the rotary size is a given number, at most the head size, instead of a float32 fraction; the check of the expected head count only logs.
- GptOss.ShuffleNibbles: requires whole blocks of 16 bytes, without which the source goes out of range; joining blocks with scales is the tensor library's.
- HeadLayout.ReorderHeadLayout: the number of elements must be that of the shape, as the tensor library demands; lengths are unbounded integers, and how the library treats dimensions of zero is not part of this model.
- AttnQkv.RepackAttnQkv: whether the model wants its value heads reordered is given, not read from model names; repackConv1D follows the same pattern and repackSSMA needs floating point.
- Qkvz.RepackQkvz: slices keep an axis of length one, which the library drops; the reshape that follows makes no difference between the two.
- Floating-point values and model-specific tables of keys and names.
