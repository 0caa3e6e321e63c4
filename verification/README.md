# A verified model of the noloong agent kernel

Noloong's kernel turns model-provider streams into agent events, keeps an event-sourced state, compacts
its history, and is driven from a chat through the Telegram bridge. This project models the parts of it that
carry state from one step to the next, and proves what they keep over whole runs.

| module | what it models |
|---|---|
| `SseDecoder`, `SseStandard` | the incremental event-stream decoder; its relation to sections 9.2.5 and 9.2.6 of the WHATWG HTML Living Standard |
| `SseDriver`, `ProviderCalls` | the reconnect loop around the decoder, and the provider call above it with its refresh after a 401; the call from the network to the events |
| `ModelEvents`; `Responses`, `ResponsesToolCalls`, `ResponsesItems`, `ResponsesOutput`; `ChatCompletions`, `ChatReasoning`, `ChatOutput`; `Anthropic`, `AnthropicOutput` | the three stream state machines: what their tool calls are made of, and what else they emit |
| `Reducer`, `Compaction` | the replay function of the agent state; the planner of compactions and its effect on the state |
| `ToolNames` | the codec between tool names and the aliases a provider accepts |
| `Callback`, `Approval`, `Bridge` | short callback keys, approvals, and the routing of replies |
| `Agent` | the queues of pending messages, and the slot that admits one run at a time |
| `Wrappers`, `Text`, `Messages` | what these share: options and results, strings and numerals, messages |

Each component that changes state in the source is a class whose methods do the same in place. Its contracts
tie the new state to a function on values, and the theorems are about these functions: the value of
`SseDecoder` is its buffer, that of `AgentState` is a `Snapshot`, that of the callback store a `Store`.

Networks, clocks and other callers are arbitrary. A `World` in `SseDriver` fixes what every attempt meets, so a
theorem about all worlds is one about all network behaviours; `Env` fixes what the frame handler answers, and
the answer may depend on everything it was given before. Time in `Callback` is a natural number that is passed in.
Interleaved callers are lists of steps in any order.

Some expected properties do not hold for all inputs, and for these the exact condition is proved.

- The decoder differs from the standard exactly on the streams that `SseStandard.DecoderMeetsStandardIff`
  describes; `LoneCrIsDelivered` and `LoneCrHidesLine` are streams of both kinds.
- The emitted reasoning text differs from the accumulated one exactly when a value changed text that was already
  shown (`ChatReasoning.EmittedIsRenderedIff`); `EarlierEntryIsEmittedAgain` is an instance.
- A responses tool call is emitted exactly when it is reported done and not before anything was said about it
  (`ResponsesToolCalls.KeyIsCalledIff`); `EarlyDoneReportLosesCall` is a stream that loses one.
- A button that was just added to a message works until it expires, except when its entry is the first in order of
  one too many (`Approval.FreshButtonResolvesIff`), which a clock that moves on rules out.

`dafny verify dfyconfig.toml` checks the whole project.

## Model

| member | source | states |
|---|---|---|
| `SseDecoder.FindFrameBoundary` | crates/noloong-agent-core/src/sse.rs:386-395 | The scan line by line finds the frame that ends at the first blank line, and none when no blank line is complete. |
| `SseDecoder.LineBoundaryIff` | crates/noloong-agent-core/src/sse.rs:397-406 | A line boundary is found if and only if it is the first CR or LF, a CR taking an LF right behind it along and not standing last in the buffer. |
| `SseDecoder.SseDecoder.Push` | crates/noloong-agent-core/src/sse.rs:350-357 | A push hands the handler the data of every frame now complete, in order, until it stops or fails, and keeps the rest in the buffer. |
| `SseDecoder.SseDecoder.Finish` | crates/noloong-agent-core/src/sse.rs:359-367 | At the end a non-blank rest is delivered as if a blank line followed. |
| `SseDecoder.SseDecoder.DrainFrames` | crates/noloong-agent-core/src/sse.rs:369-383 | The drain loop meets its specification on a buffer that shrinks frame by frame. |
| `SseDecoder.SseDecoder.EmitFrameData` | crates/noloong-agent-core/src/sse.rs:408-456 | The two buffers for one and for several data lines together hold the LF-join of the data values; an empty join and invalid UTF-8 are not handed on. |
| `SseDecoder.FrameBoundaryStays` | crates/noloong-agent-core/src/sse.rs:386-406 | A frame found in a buffer is found at the same place after any bytes are appended. |
| `SseDecoder.DrainLeavesNoFrame` | crates/noloong-agent-core/src/sse.rs:369-383 | After a drain that was not stopped the buffer holds no complete frame. |
| `SseDecoder.ChunkIndependence` | crates/noloong-agent-core/src/sse.rs:349-383 | For every byte string and every way to cut it into chunks, pushing the chunks and finishing gives the handler the same data and the same end as pushing it whole; also when the handler stops or fails. |
| `SseStandard.DecoderDeliversBlocks` | crates/noloong-agent-core/src/sse.rs:359-456 | Cut in any way, a stream delivers the data of its blank-line-terminated blocks and of a flushed last block, skipping exactly the empty ones. |
| `SseStandard.StreamIsHandedOver` | crates/noloong-agent-core/src/sse.rs:349-470 | However it is cut, a stream hands its payloads over in order until the handler stops or fails or one is not UTF-8, which is an error and is not handed over; it stays open exactly when all were taken. |
| `SseStandard.StandardIsBlocks` | crates/noloong-agent-core/src/sse.rs:408-464 | The line-by-line interpretation of section 9.2.6, with its own reading of fields and its own data buffer, on the lines of section 9.2.5 and a flushed end, dispatches as its non-empty payloads the LF-joins of the data values of the same blocks. |
| `SseStandard.DataFieldIsField` | crates/noloong-agent-core/src/sse.rs:458-464 | The decoder takes a line for data if and only if what stands before its first colon, or the whole line, is `data`, and reads as its value what stands behind the colon and, if there is one, a space. |
| `SseStandard.DataFieldForms` | crates/noloong-agent-core/src/sse.rs:458-464 | For every value: `data: ` and `data:` in front of it are read as that value, of which only the first space may be lost; a bare `data` is empty. |
| `SseStandard.OtherFieldsAreSkipped` | crates/noloong-agent-core/src/sse.rs:458-464 | A line with any other field name, or a comment, has no data. |
| `SseStandard.ReadDataOfBlock` | crates/noloong-agent-core/src/sse.rs:408-464 | What the decoder reads of one block next to what the standard says of it, in all cases: a lone CR before the blank line stays in the last value. |
| `SseStandard.BlockMeetsStandard` | crates/noloong-agent-core/src/sse.rs:386-464 | One block's data is the standard's if and only if the block does not end with a lone CR after a `data:` line, or after a bare `data` line when there is other data. |
| `SseStandard.CrLfStreamsMeetStandard` | crates/noloong-agent-core/src/sse.rs:359-464 | On every stream in which each CR is followed by LF the decoder delivers the standard's non-empty payloads, however it is cut. |
| `SseStandard.DecoderMeetsStandardIff` | crates/noloong-agent-core/src/sse.rs:359-464 | For all streams: the delivered payloads are the standard's if and only if no block departs in that way. |
| `SseStandard.LoneCrIsDelivered` | crates/noloong-agent-core/src/sse.rs:386-464 | The stream `data: x` CR CR LF departs: the decoder delivers `x` with a CR, the standard `x`. |
| `SseStandard.LoneCrHidesLine` | crates/noloong-agent-core/src/sse.rs:386-464 | The stream `data: x` LF `data` CR CR LF departs: the standard delivers `x` with an LF, the decoder only `x`. |
| `SseDriver.ReadSseResponse` | crates/noloong-agent-core/src/sse.rs:173-285 | The read loop, with its flags for delivered data and a terminal frame, comes to the result and the handled frames of its specification. |
| `SseDriver.RunSseAttempt` | crates/noloong-agent-core/src/sse.rs:95-151 | One attempt: cancelled, failed, refused, retryable or read; a request goes out exactly in the cases that send one. |
| `SseDriver.RunSseModelStream` | crates/noloong-agent-core/src/sse.rs:57-88 | The reconnect loop, which resets its flags before each attempt, comes to its specification, and records every request with the frames handled before it. |
| `SseDriver.RunStreamModel` | crates/noloong-agent-core/src/responses.rs:570-624 | The loop with the refresh after a 401 comes to its specification over at most two driver calls. |
| `SseDriver.RetryableTryIff` | crates/noloong-agent-core/src/sse.rs:95-336 | An attempt may be repeated if and only if it could not send; or the response had status 408, 429 or 500 to 599 and its error body was not cancelled; or a successful response broke off with no payload in its body. |
| `SseDriver.RefusedTryIff` | crates/noloong-agent-core/src/sse.rs:132-151 | An attempt fails with a status if and only if the response had it, it is neither successful nor one of those, and the error body was not cancelled. |
| `SseDriver.AbortedTryIff` | crates/noloong-agent-core/src/sse.rs:95-233 | With a sink that takes the events, an attempt is aborted if and only if it is cancelled before or while sending, in an error body, or while a body is read on which the handler neither stopped nor failed. |
| `SseDriver.ReadIsDelivery` | crates/noloong-agent-core/src/sse.rs:173-306 | With a sink that takes the events: reading a body, however it arrives and ends, hands its payloads over in order, and comes to what the handler made of them and how the body ended. |
| `SseDriver.SinkFailureEndsReading` | crates/noloong-agent-core/src/sse.rs:225-302 | The first chunk whose events the sink does not take ends the attempt with the sink's failure. |
| `SseDriver.RetryableTryKeepsLog` | crates/noloong-agent-core/src/sse.rs:95-130 | A retryable attempt has handed nothing to the handler, in every world. |
| `SseDriver.RefusedCallKeepsLog` | crates/noloong-agent-core/src/responses.rs:570-624 | Neither has a driver call that ends in a 401. |
| `SseDriver.RetrySafety` | crates/noloong-agent-core/src/responses.rs:570-624 | For every network: each request leaves before any frame was handled, there are at most 2 * (max_reconnects + 1), one for each attempt, unless the last one was given up before, all frames come from the last attempt, none is handled after the handler stopped or failed, and success means the last one was terminal and reached the sink. |
| `SseDriver.DriverIsSafe` | crates/noloong-agent-core/src/sse.rs:57-130 | One driver call makes at most max_reconnects + 1 attempts, of which only the last one feeds the handler. |
| `SseDriver.ProviderCallIsSafe` | crates/noloong-agent-core/src/chat_completions.rs:388-458 | The 401 refresh adds at most one driver call, and only after one that handed nothing to the handler. |
| `SseDriver.DriverReachesTerminal` | crates/noloong-agent-core/src/sse.rs:57-88 | Told by the attempts alone: those that may be repeated are, and the first terminal response within reach makes the call succeed with the payloads that lead to it. |
| `SseDriver.DriverEndsAt` | crates/noloong-agent-core/src/sse.rs:57-88 | A driver call goes on exactly while attempts may be repeated, reconnects are left and pauses are not cancelled; it ends with the verdict of the first other attempt, or as failed when reconnects are used up, or as aborted. |
| `SseDriver.RefusedCallIff` | crates/noloong-agent-core/src/sse.rs:57-151 | A driver call fails with a status if and only if its last attempt was refused with it. |
| `SseDriver.RefreshedIff` | crates/noloong-agent-core/src/responses.rs:570-624 | The provider calls the driver again if and only if headers resolve, the last attempt was refused with a 401, and the refresh asks for a retry; when the refresh or the new headers fail the request fails, and otherwise the first call stands. |
| `SseDriver.ProviderCallRecovers` | crates/noloong-agent-core/src/responses.rs:570-624 | After such a 401 attempts start anew with all reconnects, and a terminal response within reach makes the call succeed. |
| `SseDriver.ReadIsChunkIndependent` | crates/noloong-agent-core/src/sse.rs:173-239 | As long as the sink takes the events of the body, an attempt's frames and result do not depend on how the body arrives in chunks, whatever ends it. |
| `SseDriver.ReconnectDelayGrows` | crates/noloong-agent-core/src/sse.rs:323-330 | The pauses never shrink from one reconnect to the next and never pass the maximum, also where the product overflows. |
| `SseDriver.ReconnectDelayDoubles` | crates/noloong-agent-core/src/sse.rs:323-330 | The first pause is the initial one and each is twice the one before, up to the maximum and 31 doublings. |
| `ProviderCalls.CallEndsWithDone` | crates/noloong-agent-core/src/responses.rs:570-624 | For every network and every stream state behind the handler: the frames of a successful call are accepted, the state is done with the last of them and not before. |
| `ProviderCalls.CallSucceeds` | crates/noloong-agent-core/src/responses.rs:570-624 | For every network and every stream state behind the handler: when a successful response within reach holds payloads of which the first ones bring the state to its end, the call succeeds with exactly these. |
| `ProviderCalls.ResponsesCallIsWellFormed` | crates/noloong-agent-core/src/responses.rs:566-630 | For every network, a successful responses call emits one terminal event, last, and begins with its start or its failure. |
| `ProviderCalls.AnthropicCallIsWellFormed` | crates/noloong-agent-core/src/anthropic_messages.rs:300-337 | For every network, a successful Anthropic call emits one terminal event, last. |
| `ProviderCalls.ChatCallIsWellFormed` | crates/noloong-agent-core/src/chat_completions.rs:385-464 | For every network, the frames of a chat call that the driver completes are all read, and when closing succeeds the events begin with the start and have one terminal event, last. |
| `Reducer.CollectDistinct` | crates/noloong-agent-core/src/reducer.rs:297-308 | The loop over names returns the set, or the first complaint: a blank name or one seen before. |
| `Reducer.DistinctNamesIff` | crates/noloong-agent-core/src/reducer.rs:297-308 | Names are accepted if and only if none is blank or repeated, and then all are in the set. |
| `Reducer.FirstComplaint` | crates/noloong-agent-core/src/reducer.rs:297-308 | Names are rejected for the first of them that is blank or was seen before, and with the complaint about that. |
| `Reducer.CompactionAcceptedIff` | crates/noloong-agent-core/src/reducer.rs:187-253 | A compaction is accepted if and only if its ids are valid and partition the current ids and its system summary has a new, non-blank id. |
| `Reducer.EffectAcceptedIff` | crates/noloong-agent-core/src/reducer.rs:83-295 | Other effects are accepted if and only if ids, keys and names are not blank and not repeated, and a replacement is not empty and replaces all current messages. |
| `Reducer.AgentState.ValidateEffectForState` | crates/noloong-agent-core/src/reducer.rs:121-133 | Validation reads the state only, and accepts what its specification accepts. |
| `Reducer.AgentState.ApplyEffect` | crates/noloong-agent-core/src/reducer.rs:135-176 | An accepted effect leads to the specified state; a rejected one changes nothing. |
| `Reducer.AgentState.ApplyEvent` | crates/noloong-agent-core/src/reducer.rs:16-81 | An accepted event leads to the specified state; a rejected one changes nothing. |
| `Reducer.ReduceEvents` | crates/noloong-agent-core/src/reducer.rs:8-14 | Applying a log in place is its replay: the state it leads to, or the complaint about its first rejected event. |
| `Reducer.ReplayKeepsOpenApprovals` | crates/noloong-agent-core/src/reducer.rs:16-81 | After every accepted log the pending approvals are exactly those requested and since then neither replaced, resolved nor expired, nor cleared by the end of a run, each under its own id. |
| `Reducer.ReplayCountsTurns` | crates/noloong-agent-core/src/reducer.rs:51-53 | After every accepted log the number of completed turns is the number of turn-completed events in it. |
| `Reducer.ReplayHasLastStatus` | crates/noloong-agent-core/src/reducer.rs:16-81 | After every accepted log, run id, status and error are what the last event that says something about them says. |
| `Reducer.ReplayHasActivePhase` | crates/noloong-agent-core/src/reducer.rs:16-81 | A phase is active if and only if it was started, or a run paused in it, and since then neither it was completed, nor another started, nor anything failed or ended. |
| `Reducer.ReplayHasLastValue` | crates/noloong-agent-core/src/reducer.rs:135-176 | A context key has the value that was set last, unless it was removed since. |
| `Reducer.ReplayOffersLastTools` | crates/noloong-agent-core/src/reducer.rs:135-176 | Exactly the tools of the last list are available. |
| `Reducer.MessagesAreAppended` | crates/noloong-agent-core/src/reducer.rs:135-176 | As long as no compaction or replacement comes, messages are those before and those appended since, in the order of the log. |
| `Reducer.RewrittenMessages` | crates/noloong-agent-core/src/reducer.rs:135-176 | A compaction leaves its summary and the messages with retained ids, a replacement leaves its own messages. |
| `Reducer.KeptAre` | crates/noloong-agent-core/src/reducer.rs:158-170 | Exactly the messages with retained ids stay, in their order. |
| `Reducer.ReplayIsWellFormed` | crates/noloong-agent-core/src/reducer.rs:83-176 | After every accepted log message ids and context keys are not blank, and tools and approvals are filed under their own name or id. |
| `Compaction.FindCutPoint` | crates/noloong-agent-core/src/compaction.rs:634-676 | The backward loop over token counts finds the target, and from it the cut: the next valid one, or else the last one before, or else the first. |
| `Compaction.CutPointIff` | crates/noloong-agent-core/src/compaction.rs:634-690 | The history is cut at an index if and only if its turn has a start and it is the first user or assistant message at or after the target, or else the last one before it, or, when the target is not reached, the first of all. |
| `Compaction.CompactsIff` | crates/noloong-agent-core/src/compaction.rs:424-520 | A plan is made if and only if the threshold is reached, there is such a cut, and it leaves something out that is new or was summarized before; the plan retains the messages from the cut on, and a skip tells the tokens. |
| `Compaction.CoveredPart` | crates/noloong-agent-core/src/compaction.rs:606-613 | What a summary covers ends with the last system message that carries the mark. |
| `Compaction.PlanConservesHistory` | crates/noloong-agent-core/src/compaction.rs:424-520 | What the last summary covers, the messages to summarize, the prefix of the split turn and the retained messages are the history, in order; the dropped and retained ids are all ids; something is dropped and something retained. |
| `Compaction.PlanCountsTokens` | crates/noloong-agent-core/src/compaction.rs:431-515 | The sums of a plan are those of the whole history, which reaches the threshold, and of the retained messages. |
| `Compaction.CutShape` | crates/noloong-agent-core/src/compaction.rs:634-690 | Retained messages start with a user or an assistant message; the turn is split if and only if it is an assistant's, and then the prefix is non-empty and its first message is its only user message. |
| `Compaction.RetainedBudget` | crates/noloong-agent-core/src/compaction.rs:634-676 | The retained messages after the first total less than keep_recent_tokens if and only if a valid cut lies at or after the target, or the target is not reached. |
| `Compaction.RetainedReachesBudget` | crates/noloong-agent-core/src/compaction.rs:653-663 | When a user or assistant message stands at the target, the messages from there on are retained, and they reach keep_recent_tokens. |
| `Compaction.PlannedCompactionIsAccepted` | crates/noloong-agent-core/src/phase/standard.rs:124-148 | With distinct, non-blank ids and a new summary id, the reducer accepts every planned compaction, and the history becomes exactly the summary and the retained messages. |
| `Compaction.RunIsSummaryPlusSuffix` | crates/noloong-agent-core/src/compaction.rs:424-551 | Over every run of fresh appends and planned compactions nothing is rejected; until the first compaction the history is what was appended, and ever after the last summary at index 0 and a suffix of what was appended. |
| `Compaction.NextPlanCarriesSummary` | crates/noloong-agent-core/src/compaction.rs:439-551 | Over every run, the next plan carries on the text of the last summary, unless it is blank, and besides it only what was appended. |
| `Compaction.VisibleTextOneMore` | crates/noloong-agent-core/src/compaction.rs:615-626 | The visible text of a message is its text blocks in order with line breaks between; other blocks add nothing. |
| `Compaction.SummariesDiffer` | crates/noloong-agent-core/src/compaction.rs:522-541 | Summaries of different runs or turns have different ids and different marks. |
| `ToolNames.UniqueProviderName` | crates/noloong-agent-core/src/tool_names.rs:103-122 | The search ends with the first alias in the order of attempts that is not in use, after at most one numbered alias more than there are used ones. |
| `ToolNames.SuffixedProviderName` | crates/noloong-agent-core/src/tool_names.rs:141-153 | A suffixed alias is non-empty, at most 64 long and over letters, digits, `_` and `-`. |
| `ToolNames.SuffixedNameShape` | crates/noloong-agent-core/src/tool_names.rs:141-153 | It ends with the whole suffix and attempt number, begins with the base or a part of it, and loses some of the base only when it would otherwise be longer than 64, and then it is exactly 64 long. |
| `ToolNames.AttemptsDiffer` | crates/noloong-agent-core/src/tool_names.rs:141-153 | Different attempt numbers give different aliases, although the base may be cut differently. |
| `ToolNames.NewWithMessageHistory` | crates/noloong-agent-core/src/tool_names.rs:18-56 | The codec built in place from tools and message history is a function of the set of their names, and encodes exactly the declared tools and those that some message calls or has a result of. |
| `ToolNames.NamesInMessages` | crates/noloong-agent-core/src/tool_names.rs:93-101 | The names of a history are exactly those in its tool-call and tool-result blocks. |
| `ToolNames.CodecCovers` | crates/noloong-agent-core/src/tool_names.rs:18-101 | The finished codec encodes exactly the declared names and those. |
| `ToolNames.ReplaceUnsafe` | crates/noloong-agent-core/src/tool_names.rs:124-139 | Every character the provider does not allow becomes an underscore, and all others stay. |
| `ToolNames.SafeCharacters` | crates/noloong-agent-core/src/tool_names.rs:124-139 | Allowed are exactly the ASCII letters and digits, the underscore and the hyphen. |
| `ToolNames.SuffixIsHash` | crates/noloong-agent-core/src/tool_names.rs:155-162 | The eight hexadecimal digits of a suffix stand for the low 32 bits of the hash. |
| `ToolNames.CodecIsBijection` | crates/noloong-agent-core/src/tool_names.rs:22-90 | Exactly the names of the set are encoded, decoding undoes encoding, encoding undoes decoding, and every alias fits the provider. |
| `ToolNames.AliasIs` | crates/noloong-agent-core/src/tool_names.rs:22-153 | The alias of every name in the finished codec: its base, when that fits, no other name has it and no earlier name got it as an alias, and otherwise the first of its suffixed aliases that no earlier name got. |
| `ToolNames.NameIsKeptIff` | crates/noloong-agent-core/src/tool_names.rs:22-56 | In the finished codec a name stays as it is if and only if it fits the provider and either no other name has its base and no name with an earlier base got it as an alias, or it happens to be itself the suffixed alias it is due, every earlier attempt being in use. |
| `ToolNames.OwnAliasIsFullLength` | crates/noloong-agent-core/src/tool_names.rs:103-153 | Only a name of exactly 64 characters that ends with its own hash, or with that and a number, can be the suffixed alias it is due. |
| `ToolNames.ShortNameIsKeptIff` | crates/noloong-agent-core/src/tool_names.rs:22-56 | A name shorter than 64 stays as it is if and only if it fits the provider, no other name has its base, and no name with an earlier base got it as an alias. |
| `Responses.ResponsesStreamState.ApplyChunk` | crates/noloong-agent-core/src/responses.rs:1333-1372 | One frame changes the state in place and emits events as specified; a failure is that of the specification. |
| `Responses.ResponsesStreamState.AbsorbFunctionCallItem` | crates/noloong-agent-core/src/responses.rs:1617-1641 | An item updates the call under its key, where empty values change nothing, and its output index. |
| `Responses.ResponsesStreamState.AbsorbFunctionArgumentsDelta` | crates/noloong-agent-core/src/responses.rs:1440-1450 | A delta is appended to the arguments of the call it names. |
| `Responses.ResponsesStreamState.FunctionArgumentsDone` | crates/noloong-agent-core/src/responses.rs:1452-1462 | The item or else the full arguments are taken over before the call is emitted. |
| `Responses.ResponsesStreamState.ItemDone` | crates/noloong-agent-core/src/responses.rs:1464-1483 | A function call is taken over and emitted, a reasoning item is emitted once. |
| `Responses.ResponsesStreamState.EmitToolCallFromKey` | crates/noloong-agent-core/src/responses.rs:1668-1679 | A call is emitted once; a key without a call is marked as emitted all the same. |
| `Responses.ResponsesStreamState.OutputItemEvents` | crates/noloong-agent-core/src/responses.rs:1578-1594 | The loop over the completed output emits reasoning and the calls that were not emitted before. |
| `Responses.ResponsesStreamState.ReasoningTextDone` | crates/noloong-agent-core/src/responses.rs:1505-1537 | A closing reasoning frame emits what its own text adds, and the snapshot. |
| `Responses.ResponsesStreamState.Finish` | crates/noloong-agent-core/src/responses.rs:1729-1739 | Closing emits the end, with a start if there was none, and only once. |
| `Responses.FrameEndsWell` | crates/noloong-agent-core/src/responses.rs:1333-1388 | A frame before the end emits no terminal event; the frame that ends the stream emits one, last; nothing comes before the start except a failure. |
| `Responses.StreamIsWellFormed` | crates/noloong-agent-core/src/responses.rs:1333-1388 | Fed until its first done frame and then closed, every stream emits exactly one terminal event, last, and its first event is its start or its failure. |
| `ResponsesToolCalls.ToolCallsFollowReports` | crates/noloong-agent-core/src/responses.rs:1431-1483 | For all frame sequences: reading fails if and only if a frame is not JSON or a call to emit has an unknown name, and otherwise the tool-call events are the calls that the reports in the frames ask for, in order. |
| `ResponsesToolCalls.EachKeyOnce` | crates/noloong-agent-core/src/responses.rs:1668-1679 | The calls stand at exactly the first done reports of keys mentioned before, so there is at most one call per key. |
| `ResponsesToolCalls.KeyIsCalledIff` | crates/noloong-agent-core/src/responses.rs:1668-1679 | A key has a call if and only if it is reported done and no done report of it comes before something was said about it. |
| `ResponsesToolCalls.CallsAtPositions` | crates/noloong-agent-core/src/responses.rs:1668-1679 | Each call is put together from the reports before its position that are about its key. |
| `ResponsesToolCalls.CallsHaveLastNames` | crates/noloong-agent-core/src/responses.rs:1617-1641 | In every stream, a call has the last non-empty call id said about its key before its position, or else the key, and the tool whose alias is the last non-empty name. |
| `ResponsesToolCalls.ArgumentsAfterFull` | crates/noloong-agent-core/src/responses.rs:1440-1462 | The arguments of a key are the last full ones reported, followed by the deltas after them. |
| `ResponsesToolCalls.ArgumentsAreDeltas` | crates/noloong-agent-core/src/responses.rs:1440-1450 | Without full arguments they are the deltas in order of arrival. |
| `ResponsesToolCalls.EarlyDoneReportLosesCall` | crates/noloong-agent-core/src/responses.rs:1668-1679 | Two frames that lose a call: its done report comes before anything was said about it. |
| `ResponsesItems.EventKeyIsNamed` | crates/noloong-agent-core/src/responses.rs:1643-1661 | In an orderly stream a frame that names a call by output index or by item id is taken to be about that item. |
| `ResponsesItems.ItemKeyIs` | crates/noloong-agent-core/src/responses.rs:1794-1801 | An item goes by its id, or else by its call id, or else as `output-0`. |
| `ResponsesItems.UnknownIndexIsItsOwnKey` | crates/noloong-agent-core/src/responses.rs:1643-1661 | Output indices that stand for no item are calls of their own, one for each index. |
| `ResponsesItems.EachItemIsCalledOnce` | crates/noloong-agent-core/src/responses.rs:1431-1483 | In every stream where items are added before they are reported on, and ids and output indices agree, each item that one of the three routes reports done is called exactly once, and no other item. |
| `ResponsesItems.CallHasItsParts` | crates/noloong-agent-core/src/responses.rs:1431-1783 | In every such stream, a call has the last non-empty call id, or else its key, and the tool of the last non-empty name among the items that added it and the item of the first frame that reports it done; and it has the full arguments of that frame, or, when it gives none, those its item was last added with and the deltas since. |
| `ResponsesItems.AddedArgumentsAndDeltas` | crates/noloong-agent-core/src/responses.rs:1431-1450 | When the item is added with arguments, these are followed by all deltas about it after that, in order. |
| `ResponsesItems.ArgumentsAreDeltasOf` | crates/noloong-agent-core/src/responses.rs:1440-1450 | When it is never added with arguments, they are all deltas about it, in order. |
| `ResponsesOutput.TextIsEmittedWhole` | crates/noloong-agent-core/src/responses.rs:1387-1429 | In every stream, the text events put together are the text of the frames. |
| `ResponsesOutput.ThoughtsAreEmittedWhole` | crates/noloong-agent-core/src/responses.rs:1485-1503 | In every stream and for each key, the streamed thoughts put together are the deltas about it. |
| `ResponsesOutput.SnapshotsAreTextSoFar` | crates/noloong-agent-core/src/responses.rs:1505-1537 | In every stream, snapshots come exactly with the frames that end a reasoning of which something is known, and have its text: the last one given as a whole and the deltas since, under the kind of the last delta. |
| `ResponsesOutput.ItemsAreEmittedOnce` | crates/noloong-agent-core/src/responses.rs:1596-1615 | In every stream, whole reasoning items, alone or in the output of the response, are emitted as they came, once for each identity. |
| `ResponsesOutput.StartsAre` | crates/noloong-agent-core/src/responses.rs:1374-1385 | The starts of a stream are one for each created response, with its id or the one made of run and turn, after one made of run and turn when something was emitted before. |
| `ResponsesOutput.StreamEndsAs` | crates/noloong-agent-core/src/responses.rs:1539-1576 | A stream is fed until done exactly up to its first frame that stands for an end, and its last event is that end: a stop, a length or an error after an incomplete response, or the message of a failure. |
| `ChatCompletions.ChatStreamState.AbsorbFragment` | crates/noloong-agent-core/src/chat_completions.rs:1108-1152 | A fragment sets the last non-empty id and name of its index and appends its arguments. |
| `ChatCompletions.ChatStreamState.AbsorbToolCallChunks` | crates/noloong-agent-core/src/chat_completions.rs:1108-1137 | The loop over a chunk's fragments; one without an index has its position. |
| `ChatCompletions.ChatStreamState.ExtractThinkingDelta` | crates/noloong-agent-core/src/chat_completions.rs:1154-1187 | A reasoning value is merged into its field, and what the rendered text gained is emitted. |
| `ChatCompletions.ChatStreamState.ApplyChunk` | crates/noloong-agent-core/src/chat_completions.rs:1052-1084 | The loop over choices applies them in order. |
| `ChatCompletions.ChatStreamState.HandleData` | crates/noloong-agent-core/src/chat_completions.rs:416-441 | The first frame starts the stream, the done marker ends it, other frames are chunks. |
| `ChatCompletions.ChatStreamState.FinishEvents` | crates/noloong-agent-core/src/chat_completions.rs:1086-1106 | Closing emits the calls in ascending order of their index and then the end, once. |
| `ChatCompletions.StateHoldsFragments` | crates/noloong-agent-core/src/chat_completions.rs:1108-1137 | However fragments of different indices interleave, the call at an index is put together from the fragments of that index alone, in order of arrival. |
| `ChatCompletions.StreamIsWellFormed` | crates/noloong-agent-core/src/chat_completions.rs:416-461 | Every stream that is read and closed successfully starts with its start and has one terminal event, last; just before it stand the calls, one for each index that had a fragment, in order of the index. |
| `ChatCompletions.ClosedOnce` | crates/noloong-agent-core/src/chat_completions.rs:1086-1106 | Closing a stream that was closed emits nothing. |
| `ChatOutput.ContentIsEmittedWhole` | crates/noloong-agent-core/src/chat_completions.rs:1052-1084 | In every stream, the text events put together are the contents of the choices, and media are handed on in order. |
| `ChatOutput.StreamEndsAs` | crates/noloong-agent-core/src/chat_completions.rs:1086-1106 | A closed stream started once, with its stream id, and ends with the last finish reason that a choice gave, or a plain stop. |
| `ChatOutput.FragmentsAreOfChoices` | crates/noloong-agent-core/src/chat_completions.rs:1108-1152 | The fragments of a stream are read off its choices: each object of a list, under its own index or its position, and then the call of the older kind under index 0. |
| `ChatOutput.ReasoningOfDelta` | crates/noloong-agent-core/src/chat_completions.rs:1298-1321 | A delta's reasoning is the first of its four fields that holds any; of a list of details only the objects count. |
| `ChatOutput.ThoughtOfDelta` | crates/noloong-agent-core/src/chat_completions.rs:1154-1187 | A delta with reasoning emits one event, under the name of its field, with the text gained, as a summary if nothing but summaries is there. |
| `ChatCompletions.ThinkingFollowsValues` | crates/noloong-agent-core/src/chat_completions.rs:1154-1187 | For each field, the thinking text of the stream is what the field's values emit, and for string values it is the accumulated text. |
| `ChatReasoning.MergeDetailLoop` | crates/noloong-agent-core/src/chat_completions.rs:1385-1406 | The loop over the fields of an entry merges each of them once. |
| `ChatReasoning.MergeDetailsLoop` | crates/noloong-agent-core/src/chat_completions.rs:1351-1383 | Each update goes into the entry with its index, or else with its id, or else to the end. |
| `ChatReasoning.MergedFieldIs` | crates/noloong-agent-core/src/chat_completions.rs:1385-1422 | An update goes on with texts, data and summaries, or replaces them when it repeats them from the start; it replaces the other fields it has, and leaves the rest. |
| `ChatReasoning.FindDetailIff` | crates/noloong-agent-core/src/chat_completions.rs:1371-1383 | An update belongs to the first entry with its numeric index, or, if there is none, to the first with its id. |
| `ChatReasoning.MergeOneIs` | crates/noloong-agent-core/src/chat_completions.rs:1351-1369 | An update changes only the entry it belongs to, or adds one at the end. |
| `ChatReasoning.MergeValueIs` | crates/noloong-agent-core/src/chat_completions.rs:1323-1349 | Texts go on in the text fields, lists of details and objects are merged, and any other value replaces the one before. |
| `ChatReasoning.PiecesAddUp` | crates/noloong-agent-core/src/chat_completions.rs:1408-1414 | Pieces, none of which repeats all before it, add up to their concatenation. |
| `ChatReasoning.LastTextStands` | crates/noloong-agent-core/src/chat_completions.rs:1408-1414 | Texts that each go on from the one before end up as the last one. |
| `ChatReasoning.DetailTextIs` | crates/noloong-agent-core/src/chat_completions.rs:1453-1468 | An entry shows its text, or else its summary, or else the non-empty texts of its summary's parts with blank lines between. |
| `ChatReasoning.EmittedIsRenderedIff` | crates/noloong-agent-core/src/chat_completions.rs:1154-1187 | For all values: the emitted texts put together are the rendered value if and only if every value only added to it. |
| `ChatReasoning.StringFieldsAreEmittedWhole` | crates/noloong-agent-core/src/chat_completions.rs:1408-1414 | For string values, any mix of pieces and cumulative texts is emitted exactly as accumulated. |
| `ChatReasoning.GrowingDetailsAreEmittedWhole` | crates/noloong-agent-core/src/chat_completions.rs:1351-1468 | So are lists of text details whose updates extend the last entry or add one. |
| `ChatReasoning.EarlierEntryIsEmittedAgain` | crates/noloong-agent-core/src/chat_completions.rs:1351-1492 | Two values for which it is not so: the second extends an entry before the last. |
| `Anthropic.AnthropicStreamState.ApplyChunk` | crates/noloong-agent-core/src/anthropic_messages.rs:860-905 | One frame changes the state in place and emits events as specified. |
| `Anthropic.AnthropicStreamState.ContentBlockStart` | crates/noloong-agent-core/src/anthropic_messages.rs:918-958 | A block opens a call or a thinking text under its index. |
| `Anthropic.AnthropicStreamState.ContentBlockDelta` | crates/noloong-agent-core/src/anthropic_messages.rs:960-1017 | A piece goes to the call or the thinking text of its index, or is emitted as text. |
| `Anthropic.AnthropicStreamState.ContentBlockStop` | crates/noloong-agent-core/src/anthropic_messages.rs:1019-1042 | The end of a block emits its call and closes it. |
| `Anthropic.AnthropicStreamState.FinishEvents` | crates/noloong-agent-core/src/anthropic_messages.rs:1044-1052 | Closing emits the end once. |
| `Anthropic.StreamIsWellFormed` | crates/noloong-agent-core/src/anthropic_messages.rs:860-905 | Fed until its first done frame and then closed, every stream emits exactly one terminal event, last. |
| `Anthropic.ToolCallsFollowBlocks` | crates/noloong-agent-core/src/anthropic_messages.rs:918-1042 | For all frame sequences: the tool calls are one for each stop of a block with an open call, made of that block's own frames, whatever other blocks do in between. |
| `Anthropic.OpenCallIsItsPieces` | crates/noloong-agent-core/src/anthropic_messages.rs:918-1017 | A call that is still open has the id and name of its start and its input, unless that is the empty object, followed by all pieces since, in order. |
| `AnthropicOutput.StreamIsEmittedWhole` | crates/noloong-agent-core/src/anthropic_messages.rs:860-1017 | In every stream, the text events put together are the text of the frames, the streamed thoughts of each block are its pieces, and there is a start for each message that starts, with its id or the one made of run and turn. |
| `AnthropicOutput.StreamEndsAs` | crates/noloong-agent-core/src/anthropic_messages.rs:860-1052 | A stream is fed until done exactly up to its first end of the message or error, and its last event is that error, or the end with the last stop reason given. |
| `AnthropicOutput.SnapshotsAreOpenThinking` | crates/noloong-agent-core/src/anthropic_messages.rs:960-1042 | In every stream, a thinking block is emitted as a whole exactly when it is signed and when it stops, with the text and the signature it has then. |
| `AnthropicOutput.OpenThinkingIsItsPieces` | crates/noloong-agent-core/src/anthropic_messages.rs:960-1017 | Thinking that was started and not stopped has all its pieces in order. |
| `Callback.Base36` | crates/noloong-agent-telegram/src/callback.rs:115-129 | The loop over remainders yields the base-36 numeral. |
| `Callback.KeysAreShortAndDistinct` | crates/noloong-agent-telegram/src/callback.rs:115-129 | On 64-bit numbers the numeral is injective and at most 13 characters long. |
| `Text.NumeralReadsBack` | crates/noloong-agent-telegram/src/callback.rs:115-129 | A numeral, with digits 0 to 9 and a to z, stands for its number, and only that of zero begins with a zero. |
| `Callback.ShortCallbackStore.ReserveKey` | crates/noloong-agent-telegram/src/callback.rs:33-37 | A reservation sweeps, counts up and returns the numeral of the count. |
| `Callback.ShortCallbackStore.InsertReserved` | crates/noloong-agent-telegram/src/callback.rs:45-55 | An insertion sweeps, stores, and evicts down to the capacity. |
| `Callback.ShortCallbackStore.Insert` | crates/noloong-agent-telegram/src/callback.rs:39-43 | A reservation and an insertion under its key. |
| `Callback.ShortCallbackStore.SweepOverflow` | crates/noloong-agent-telegram/src/callback.rs:89-101 | The loop removes the oldest entry, by time and then by key, until the rest fits. |
| `Callback.ShortCallbackStore.Remove` | crates/noloong-agent-telegram/src/callback.rs:57-60 | A removal returns the live value and takes it out. |
| `Callback.ShortCallbackStore.Lookup` | crates/noloong-agent-telegram/src/callback.rs:62-65 | A lookup returns the live value and only sweeps. |
| `Callback.ShortCallbackStore.Find` | crates/noloong-agent-telegram/src/callback.rs:67-72 | A search returns the first live match in the order of the keys and only sweeps. |
| `Callback.ShortCallbackStore.RemoveWhere` | crates/noloong-agent-telegram/src/callback.rs:74-81 | A removal by a test takes out exactly that match. |
| `Callback.ExpiryDropsPrefix` | crates/noloong-agent-telegram/src/callback.rs:83-87 | On a store that holds a queue in order of time, expiry drops a prefix. |
| `Callback.EvictionDropsFront` | crates/noloong-agent-telegram/src/callback.rs:89-101 | Eviction keeps exactly the newest entries, as many as there is room for. |
| `Callback.InsertedEntries` | crates/noloong-agent-telegram/src/callback.rs:45-55 | After an insertion the store holds the value from the time of its creation on, and besides it only what was alive at the sweep; as long as there is room it holds all of that. |
| `Callback.StoreRefinesQueue` | crates/noloong-agent-telegram/src/callback.rs:33-101 | Over every run of reservations, insertions, removals and lookups on an increasing clock with fresh keys, the store holds exactly the queue that expiry shortens from the front, insertion appends to and cuts to capacity, and removal takes an item from; its items are those inserted. |
| `Callback.CapacityIsKept` | crates/noloong-agent-telegram/src/callback.rs:45-101 | Over every run, whatever the keys and the clock, no more than max_entries are held. |
| `Callback.ReservedKeysNeverRepeat` | crates/noloong-agent-telegram/src/callback.rs:33-37 | Over every run in which the counter stays in 64 bits, no two reservations give out the same key. |
| `Callback.NothingStaleIsReturned` | crates/noloong-agent-telegram/src/callback.rs:57-65 | A lookup or removal by key returns a value if and only if it is stored and no older than the time to live. |
| `Callback.SearchReturnsFirstFit` | crates/noloong-agent-telegram/src/callback.rs:67-81 | A search returns the first key that passes the test among those not too old, and nothing only if there is none. |
| `Approval.CallbackDataRoundTrip` | crates/noloong-agent-telegram/src/approval.rs:158-216 | Data is read as an outcome and a key if and only if it is `ap:a:` for Allow, or `ap:d:` for Deny, and the key. |
| `Approval.CallbackDataFits` | crates/noloong-agent-telegram/src/approval.rs:158-171 | The data of every button with a reserved key is at most 18 single-byte characters, within the 64 bytes allowed. |
| `Approval.TelegramApprovalStore.Allocate` | crates/noloong-agent-telegram/src/approval.rs:31-35 | Buttons get the next key. |
| `Approval.TelegramApprovalStore.Insert` | crates/noloong-agent-telegram/src/approval.rs:37-52 | The target of an approval is stored under its buttons' key. |
| `Approval.TelegramApprovalStore.ResolveCallback` | crates/noloong-agent-telegram/src/approval.rs:54-58 | A button consumes the target under its key; other data changes nothing. |
| `Approval.TelegramApprovalStore.Lookup` | crates/noloong-agent-telegram/src/approval.rs:60-64 | A lookup by button answers the same and consumes nothing. |
| `Approval.TelegramApprovalStore.LookupId` | crates/noloong-agent-telegram/src/approval.rs:66-76 | A lookup by approval id answers with the first live target. |
| `Approval.TelegramApprovalStore.ResolveId` | crates/noloong-agent-telegram/src/approval.rs:78-87 | A resolution by id consumes the first live target with it. |
| `Approval.LookupsNeverConsume` | crates/noloong-agent-telegram/src/approval.rs:60-76 | Over every run, leaving out a lookup changes no answer after it. |
| `Approval.LookupsAnswerAlike` | crates/noloong-agent-telegram/src/approval.rs:60-76 | A lookup, by button or by id, answers what the resolution would answer. |
| `Approval.ResolutionById` | crates/noloong-agent-telegram/src/approval.rs:78-87 | A resolution by id answers with the target of the first live key of the approval and the outcome asked for, and consumes that key; it answers nothing if and only if no target is live. |
| `Approval.ResolutionsAreCovered` | crates/noloong-agent-telegram/src/approval.rs:54-87 | Over every run, an approval's successful Allow, Deny and by-id resolutions and its targets still held are together no more than those held at first and inserted since. |
| `Approval.ResolvedAtMostOnce` | crates/noloong-agent-telegram/src/approval.rs:54-87 | An approval that is inserted once is resolved at most once, by whatever route. |
| `Approval.FreshButtonResolvesIff` | crates/noloong-agent-telegram/src/approval.rs:37-58 | In a store within its capacity, the target just inserted is resolved by either button, with that button's outcome, if and only if it has not expired and was not the first in order of one too many entries. |
| `Approval.FreshButtonResolves` | crates/noloong-agent-telegram/src/approval.rs:37-58 | On a clock that moves on, in a store with any capacity at all, it is resolved exactly until it expires. |
| `Bridge.TelegramBridgeState.PushPendingRunReplyTarget` | crates/noloong-agent-telegram/src/bridge.rs:1046-1054 | A prompt goes to the end of its chat's queue. |
| `Bridge.TelegramBridgeState.RollbackPendingRunReplyTarget` | crates/noloong-agent-telegram/src/bridge.rs:1056-1070 | A rollback removes the last prompt only if it is that message, and an empty queue altogether. |
| `Bridge.TelegramBridgeState.ObserveDisplayReplyTarget` | crates/noloong-agent-telegram/src/bridge.rs:913-967 | A starting run takes the front prompt, messages of a run are answered with its target, an ending run loses it. |
| `Bridge.TelegramBridgeState.RemoveSessionIfActive` | crates/noloong-agent-telegram/src/bridge.rs:1072-1089 | Deleting the active session of a chat deletes its queue and its targets; deleting another removes only its display route. |
| `Bridge.TelegramBridgeState.SubmitUserMessage` | crates/noloong-agent-telegram/src/bridge.rs:292-332 | A message is bound to a run only when it starts one, and a failed request leaves the whole state as it was. |
| `Bridge.QueuesAreNeverEmpty` | crates/noloong-agent-telegram/src/bridge.rs:1046-1089 | Over every run of steps no stored queue is empty. |
| `Bridge.RollbackUndoesPush` | crates/noloong-agent-telegram/src/bridge.rs:1046-1070 | An immediate rollback restores the whole state. |
| `Bridge.RollbackAmongOtherChats` | crates/noloong-agent-telegram/src/bridge.rs:309-329 | A rollback after any steps of other chats restores its chat, and leaves the others as if nothing had been pushed. |
| `Bridge.PromptsAreTakenInOrder` | crates/noloong-agent-telegram/src/bridge.rs:922-941 | Over every run, the prompts runs have taken from a chat followed by those waiting are its prompts in order, of which rollbacks and deletions remove only waiting ones. |
| `Bridge.PromptsAreConserved` | crates/noloong-agent-telegram/src/bridge.rs:922-941 | Without rollbacks and deletions, the prompts taken followed by those waiting are all that were pushed, in order. |
| `Bridge.RunHasThePromptItTook` | crates/noloong-agent-telegram/src/bridge.rs:922-953 | At every moment of every run, a run of a chat has a target if and only if some start handed it that prompt and since then it has neither ended nor been started again with a prompt waiting, nor lost its session. |
| `Bridge.MessagesAnswerThePrompt` | crates/noloong-agent-telegram/src/bridge.rs:942-967 | What a run says, in part or at last, is answered with exactly that prompt, and no other event with any. |
| `Bridge.StepIsLocal` | crates/noloong-agent-telegram/src/bridge.rs:913-1089 | A step is a step of its own chat's machine and changes nothing for another chat. |
| `Bridge.ChatsAreIndependent` | crates/noloong-agent-telegram/src/bridge.rs:913-1089 | Over every interleaving, what is held for a chat is what its own steps alone make of it. |
| `Bridge.RouteIsLastRecorded` | crates/noloong-agent-telegram/src/bridge.rs:1038-1089 | Over every run, a session is displayed in a chat if and only if that was recorded last and the session was not deleted since. |
| `Bridge.SessionIsLastRecorded` | crates/noloong-agent-telegram/src/bridge.rs:982-1089 | Over every run, a chat has a session if and only if that was recorded last for it and not deleted since. |
| `Agent.PendingMessageQueue.Enqueue` | crates/noloong-agent-core/src/agent.rs:50-52 | A message goes to the end. |
| `Agent.PendingMessageQueue.Prepend` | crates/noloong-agent-core/src/agent.rs:54-58 | The loop from the back puts a batch in front, in its order. |
| `Agent.PendingMessageQueue.Drain` | crates/noloong-agent-core/src/agent.rs:77-82 | A drain takes everything, or one message, as the mode says. |
| `Agent.QueueConservesOrder` | crates/noloong-agent-core/src/agent.rs:50-82 | For every mix of enqueues, mode switches and drains, the messages drained followed by those that remain are all messages in the order of their arrival. |
| `Agent.DrainTakes` | crates/noloong-agent-core/src/agent.rs:77-82 | A drain takes all messages, or only the first, as the mode says, and leaves the others. |
| `Agent.ModeIsLastSet` | crates/noloong-agent-core/src/agent.rs:60-82 | The mode is that of the last switch. |
| `Agent.ClearStartsAnew` | crates/noloong-agent-core/src/agent.rs:50-82 | What came before a clearing is gone, and from then on messages come out in the order of their arrival. |
| `Agent.PrependUndoesDrain` | crates/noloong-agent-core/src/agent.rs:54-82 | Prepending a drained batch, after any enqueues and mode switches in between, gives the queue that would be there without the drain. |
| `Agent.MutualExclusion` | crates/noloong-agent-core/src/agent.rs:409-449 | In every interleaving, resets and aborts of paused runs included, at most one caller holds the slot, and the flag is set exactly while one does. |
| `Agent.RefusedIffHeld` | crates/noloong-agent-core/src/agent.rs:421-427 | A caller is refused, with nothing changed, if and only if another one holds the slot. |
| `Agent.HolderIsAlone` | crates/noloong-agent-core/src/agent.rs:409-475 | In every interleaving, resets and aborts of paused runs included: as long as a caller holds the slot, everything is as if no other caller were there. |
| `Agent.RunsAreSerial` | crates/noloong-agent-core/src/agent.rs:170-475 | In every interleaving of callers, with resets and aborts while the slot is free, the state is what released runs, resets and aborts make of it one after another, and a run in progress has only its own events on top of what it found. |
| `Agent.UninterruptedRun` | crates/noloong-agent-core/src/agent.rs:409-450 | A caller that finds the slot free has its outcome and leaves the slot free. |
| `Agent.Agent.RunExclusive` | crates/noloong-agent-core/src/agent.rs:409-450 | In place: refused with nothing changed if a run is active; otherwise the state is the report's, or what the emitted events made of it when the operation fails, and the slot is free again. |

## Left out

- HTTP, TLS, timers, cancellation tokens and the async runtime: an attempt meets one of the outcomes of `SseDriver.Attempt`, and the order of concurrent steps is arbitrary.
- JSON parsing and serialization: frames, effects and reasoning values are datatypes, a frame that is not JSON is `Malformed`, and tool arguments stay the text they arrive in: the source reads them as JSON and falls back to the text, so that reading never fails.
- UTF-8: whether a byte string is valid is part of `Env`. The hash of tool names is an arbitrary function to 64-bit numbers.
- Texts of error messages: an error is its reason.
- Request payloads, headers, media rules, usage counters and audio decoding of the three providers: mostly one-branch mappings.
- `SseDriver.RunStreamModel`: which events a frame turns into is left to the stream modules, and `ProviderCalls` puts both together.
- `ProviderCalls.CallEndsWithDone`: how data becomes frames is any function of the data.
- `SseDriver.ReadIsChunkIndependent`: says nothing about a sink that fails while the body is read, because events are handed to the sink once per chunk and a failure therefore comes at a chunk's end, as `SinkFailureEndsReading` says.
- `SseStandard.DecoderDeliversBlocks`: event names, ids, retry times and the byte order mark are not read by the decoder and not modelled. A single empty data block is dropped and an unterminated last block is flushed, both unlike the standard; the statements say so.
- `Responses.StreamIsWellFormed`: a second `response.created` frame emits a second start, and frames after a done frame are not read, as in the driver.
- `ResponsesItems.EachItemIsCalledOnce`: `PartialResponsesToolCall.item_id` is written but never read by the source and is not part of the state.
- `Anthropic.StreamIsWellFormed`: no start is promised, because the source emits one only for a `message_start` frame.
- `ChatReasoning.GrowingDetailsAreEmittedWhole`: covers entries with a text; entries rendered from summaries are covered by `EmittedIsRenderedIff` only.
- Reading the state of a stream after it failed: contracts say nothing about it.
- `Compaction.RunIsSummaryPlusSuffix`: appended messages are assumed to be new, not blank in id and not themselves summaries, because appending does not check ids. It does not claim progress: a plan may drop nothing but the previous summary.
- `Compaction.PlanCountsTokens`: token sums are unbounded where the source adds 64-bit numbers, and the threshold, a ratio of floating-point numbers in the source, is given.
- Compactions that only change the request, replacements of all messages by a compactor, and the prompts for the summarizer.
- `Reducer.ReplayIsWellFormed`: ids are not claimed to be distinct, because appending does not check them.
- `ToolNames.CodecIsBijection`: for fewer than 2^32 - 4 names, since the attempt counter has 32 bits.
- `Callback.StoreRefinesQueue`: for a clock that moves on between calls and keys that are inserted once, which `ReservedKeysNeverRepeat` provides; each call reads the clock once where the source may read it for every entry.
- `Callback.ShortCallbackStore.ReserveKey`: does not model the overflow of the 64-bit counter.
- Rendering of approvals, catalog texts, and sending the decision to the server.
- `Bridge.TelegramBridgeState.SubmitUserMessage`: nothing else happens between the push and the reply; steps in between are covered by the theorems about runs, where push and rollback are steps of their own. Creating and subscribing to sessions, profiles and statuses from descriptors are left out.
- `Agent.RunsAreSerial`: not with resets and aborts of paused runs while a run is active, which change its state without the slot; `HolderIsAlone` includes them. Futures that are dropped, failures of listeners, the checks before `continue_run` and `resume_tool_approvals`, and notifications of waiting callers are left out.
- What an operation does inside a run, in particular the order of its phases.
- The command line, configuration, storage, JSON-RPC extensions, the Weixin and Telegram handlers, the desktop application and the conformance runner.
