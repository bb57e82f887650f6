# Verified model of the streaming, training-queue and data-path logic

This project models, in Dafny 4.11, the parts of the repository whose behaviour spans many
calls or many inputs, and proves what they guarantee over whole runs:

- **Messages API streaming** (`anthropic/anthropic.go`): the converter from chat chunks to
  streaming events, with the non-streaming conversion it has to agree with.
  Files `Messages`, `StreamConverter` (the class and its operations on values), `StreamClient`
  (a reader that folds events into blocks, and the protocol by positions), `StreamGrammar`
  (reader and protocol accept the same streams), `StreamInput` (conditions on chunks alone),
  `StreamRuns`, `StreamTheorems`, `StreamLayout`, `StreamResponse` and `StreamAnyInput` (the
  results).
- **Training jobs** (`training.py`): the job queue (`QueueState`, the class in `Jobs`, history
  clean-up in `History`), and the queue together with its clients, the one worker loop and the
  threads that read script output, as a state machine over all interleavings (`Worker`,
  `WorkerInvariant`, `WorkerRuns`, `JoinedRuns`, `LateReader`), with the filling in of paths
  (`Placeholders`), what one script does to its job (`Scripts`) and what the table says of
  submitted jobs (`JobRecords`); newline framing of requests (`Framing`).
- **Supervised fine-tuning data** (`training_format.py`, `training_labels.py`,
  `training_pack.py`): both renderers (`SftFormat`), reading rendered samples back
  (`SftReadBack`, with `Texts`), completion-only labels from samples to
  blocks (`Labels`), the packer and its optimality (`Packing`, `PackingTheorems`).
- **Export reading** (`training_recipes.py`): the parent walk and the pairing of turns (`Recipes`).
- **Tool-call repair** (`api/tool_autocorrect.go`): moving buried arguments (`ToolArguments`).

`dafny verify dfyconfig.toml` checks the whole project.

## Main results

1. For every chunk sequence whatsoever, the emitted stream is well formed if and only if the
   chunks up to the first Done never bring the first thinking while text is left open and all
   later chunks are silent (`WellFormedStreams`). The text-then-thinking stream that the
   converter gets wrong is `ThinkingAfterTextBreaks`.
2. Every well-formed stream leaves its client with what the chunks said in the order of arrival:
   one block for the thinking up to its first interruption (later thinking is dropped), one for
   each uninterrupted run of text and one for the first encodable call of each tool id, with the
   closing chunk's stop reason and usage (`WellFormedStreamHolds`). A stream in the order thinking, text, tools is block for block the
   non-streaming answer if and only if every call encodes and no id repeats
   (`StreamIsResponseExactlyWhen`, `SecondCallIsLost`); otherwise it is that answer restricted to
   the first encodable call of each id (`StreamAgreesWithResponse`).
3. In every interleaving the deque holds exactly the waiting jobs, started jobs followed by
   queued jobs are the submitted ones in order without the cancelled ones, and at most one job
   runs and it is the current one (`EveryRun`). A completed job keeps its first result for ever
   (`CompletedForever`), and an early completion made for its own running job names that job's
   output path, with the job id in place of every `{job_id}` (`ExpandFillsIn`), and wins over any
   time-out, kill, exit code or report (`EarlyCompletionWins`). The table says of every job what
   was submitted, and the history drops the oldest finished jobs first (`EveryJobRecorded`,
   `OldestDroppedFirst`).
4. A run keeps to the allowed status edges, and never leaves a terminal status, if and only if no
   early completion reaches a failed job (`RunEdgesExactlyWhen`, `TerminalKeptExactlyWhen`). Every
   early completion is for its reader's own job if and only if readers ask for the job id only
   while the worker has their own job in hand (`AimsOwnExactlyWhen`). Waiting for the reader
   before a script call returns would be enough for all of these (`JoinSuffices`); the source does
   not wait after a time-out, and two runs show a failed job turned into a completed one and the
   next job completed by the previous job's reader (`FailedJobBecomesCompleted`,
   `NextJobIsCompleted`).
5. The packer uses the fewest blocks of any cutting into consecutive unsplit groups
   (`FewestBlocks`), within a block every row but the last ends with the separator
   (`RowsInBlockAreSeparated`), and prompt masks survive tokenizing, separators and packing
   (`MasksSurvivePacking`).
6. A rendered sample reads back as its messages, or its fields, in the layouts that are the
   repository's own (`RenderedReadsBack`). The masking renderer's full text is the plain
   renderer's text in every mode. Its prompt is the
   one prefix after which exactly the last reply with its end mark follows, where the layout is
   the repository's own; with a tokenizer's template it is the template's rendering of the
   messages before the last when that is a prefix, and what then follows is the template's choice
   (`FormatSftPromptAndFull`, `PromptIsUnique`).
7. Over a whole repair a required key moves if and only if it is missing, declared and buried in
   exactly one undeclared place from the start, provided that no value that can move would itself
   bury a missing required key (`MovedExactlyWhen`; `MovedValueCanBury` shows the proviso is
   needed even without coercion), and nothing is overwritten or lost (`HoistingConserves`).
8. The requests handled are always the first lines received, whatever the reads; unless the last
   one timed out they are all lines up to the first that raises (`HandledInOrder`,
   `HandledUpToRaise`), and a time-out makes the way the bytes were split matter
   (`TimeoutHoldsBack`).

## Where the code and its comments differ

- `training_pack.py` says each row is truncated first and separated after; the code appends the
  separator first, so a row that fills a block loses its separator (`FullRowLosesSeparator`). The
  model follows the code: `SeparatorKeptExactlyWhen` says which rows end with the separator, and
  `RowsInBlockAreSeparated` that the lost ones never stand between two rows of a block.
- The docstring of `resolve_format_mode` says an unnamed format falls back to alpaca; the code
  never does (`EmptyRequestIsChatml`). `DocumentedExactlyWhen` says when the two agree.
- The comment on `usageFromMetrics` gives total input as the sum of the three parts; the code
  clamps at zero, so this holds exactly when the cache counts do not exceed the prompt count.

## Model

| member | source | states |
|---|---|---|
| `Messages.UsageFromMetrics` | anthropic/anthropic.go:848-866 | the output and cache counts are those of the metrics, and the three input counts add up to the prompt count, as documented, or to the cache counts where these exceed it |
| `Messages.MapStopReason` | anthropic/anthropic.go:868-889 | "max_tokens" exactly when the reason is "length" in any case; else "tool_use" exactly when tools were called; "end_turn" exactly for the reason "stop" and "" for none, without calls or stop sequence; "stop_sequence" exactly on the rest |
| `Messages.ToMessagesResponse` | anthropic/anthropic.go:807-846 | the non-streaming answer: thinking, text and every tool call as blocks in that order, with the usage, and with each stop reason given exactly when the answer calls for it |
| `StreamConverter.StreamConverter.constructor` | anthropic/anthropic.go:891-915 | a new converter stands at the start of an empty run |
| `StreamConverter.StreamConverter.Process` | anthropic/anthropic.go:924-1155 | after each call the fields and the log of events are those of the run over all chunks seen, the one the stream results speak about |
| `StreamConverter.StreamConverter.StartAndThink` | anthropic/anthropic.go:927-986 | the opening and thinking stages change the fields and emit the events their operations on values give |
| `StreamConverter.StreamConverter.WriteContent` | anthropic/anthropic.go:988-1027 | the text stage, closing thinking and opening text as needed |
| `StreamConverter.StreamConverter.FinishMessage` | anthropic/anthropic.go:1102-1152 | the closing stage on Done, and nothing otherwise; the stop reason it sends is the one `MapStopReason` characterises |
| `StreamConverter.StreamConverter.SendCalls` | anthropic/anthropic.go:1029-1100 | the tool-call loop equals the calls processed one by one: repeated ids skipped, open blocks closed first, unencodable calls dropped |
| `StreamGrammar.ClientAcceptsExactlyWellFormed` | anthropic/anthropic.go:917-1155 | the event-folding client completes on exactly the sequences with message_start once and first, blocks numbered 0,1,2 without gap or overlap, every delta and stop inside the open block of its own index and kind, and the two closing events last |
| `StreamRuns.RunFlags` | anthropic/anthropic.go:891-905 | in any chunk order the flags say: text is open exactly when some chunk brought text and every later call repeats an encoded id; thinking is done exactly when a chunk after it brought text or a new id; the sent set is the set of encodable ids |
| `StreamRuns.RunSays` | anthropic/anthropic.go:959-1100 | in any chunk order the text deltas join to the content, the thinking deltas to the thinking received until its block closed, and the tool blocks are the first encodable calls of each id with their encoded arguments |
| `StreamRuns.FirstEvent` | anthropic/anthropic.go:927-957 | the first event of every stream carries the converter's id and model and the first chunk's usage with no output, or the estimate when that chunk reports no prompt tokens at all |
| `StreamRuns.ToolIdsOnce` | anthropic/anthropic.go:1029-1100 | each encodable tool id starts exactly one tool block, and no other id does |
| `StreamTheorems.WellFormedExactlyWhenAdmissible` | anthropic/anthropic.go:959-1155 | a stream ending in its one Done is well formed if and only if no chunk brings the first thinking while text is left open |
| `StreamTheorems.ThinkingAfterTextBreaks` | anthropic/anthropic.go:959-973 | text followed by the first thinking yields an ill-formed stream |
| `StreamAnyInput.WellFormedStreams` | anthropic/anthropic.go:924-1155 | for every chunk sequence, with any number of Done chunks: well formed if and only if the chunks up to the first Done are admissible and every later one is silent |
| `StreamLayout.AdmissibleStreamHolds` | anthropic/anthropic.go:924-1155 | every admissible stream ending in its one Done leaves the client with what the chunks said in order of arrival, one block for the thinking up to its first interruption, one for each uninterrupted run of text and one for the first encodable call of each id, and with the closing chunk's usage and each stop reason exactly when the reason, the sequence and the encodable calls ask for it |
| `StreamAnyInput.WellFormedStreamHolds` | anthropic/anthropic.go:924-1155 | so does every well-formed stream at all, for the chunks up to its first Done |
| `StreamResponse.StreamAgreesWithResponse` | anthropic/anthropic.go:807-1155 | a phase-ordered stream folds to the content blocks, stop reason, stop sequence and usage of the non-streaming conversion of the merged answer with its deliverable calls |
| `StreamResponse.StreamIsResponseExactlyWhen` | anthropic/anthropic.go:807-1155 | a phase-ordered stream folds to the non-streaming conversion of the merged answer itself, with a counterpart for every content block, if and only if every call encodes and no id repeats |
| `StreamResponse.SecondCallIsLost` | anthropic/anthropic.go:1029-1071 | of two calls of which the second does not encode or repeats the first's id, the client gets one tool block where the non-streaming answer has two |
| `QueueState.AppendKeepsExactlyWhen` | training.py:221-241 | submission keeps the deque invariant if and only if no job of the drawn id is waiting |
| `QueueState.FinishKeepsExactlyWhen` | training.py:257-298 | completing or failing a job keeps the deque invariant if and only if the job is not waiting |
| `QueueState.CleanupKeeps` | training.py:366-380 | clean-up drops no waiting or running job, changes no job it keeps and leaves deque, flag and current job alone, so the deque invariant holds after it if and only if it held before |
| `Jobs.JobQueue.Submit` | training.py:169-241 | the job stands in the table exactly as submitted, waiting, without result or error, and at the end of the deque; the wake-up flag is set, no waiting or running job is gone and no other has changed; the invariant holds after it if and only if no job of that id was waiting |
| `Jobs.JobQueue.CleanupOldJobs` | training.py:366-380 | the loop over the newest-first list keeps exactly the jobs chosen by the specification, active ones unchanged, and the invariant holds after it if and only if it held before |
| `Jobs.JobQueue.GetNext` | training.py:243-255 | takes the head of the deque, marks it running and current, clears the flag when the deque empties; otherwise changes nothing |
| `Jobs.JobQueue.CompleteJob` | training.py:257-275 | completes once: a completed job and its result are left as they are |
| `Jobs.JobQueue.FailJob` | training.py:277-298 | fails the job unless it has completed |
| `Jobs.JobQueue.UpdateProgress` | training.py:300-314 | changes the progress of a known job and nothing else, keeping the invariant |
| `Jobs.JobQueue.CancelJob` | training.py:316-330 | cancels exactly the waiting jobs, removing the id from the deque |
| `Jobs.JobQueue.GetQueueStatus` | training.py:350-364 | the reported pending count equals the queue length; the other counts are those of the table |
| `History.CleanupKeepsNewest` | training.py:366-380 | never drops an active job, keeps at most max_history finished ones when it acts, never drops a finished job while keeping a later one in the newest-first order, drops none while fewer than max_history are kept, and keeps the queue invariant |
| `History.NewestFirstSorts` | training.py:370-372 | the order used is sorted by submission time, newest first |
| `History.NewestFirstIsStable` | training.py:370-372 | jobs submitted at the same time stay in the order of the table |
| `JobRecords.EveryJobRecorded` | training.py:221-380 | in every state of every run each job in the table has the command, output path and time of its own submission |
| `JobRecords.OldestDroppedFirst` | training.py:221-380 | in every run, when a job is dropped from the table every finished job kept was submitted no earlier, and the table held at least twice the limit |
| `WorkerRuns.EveryRun` | training.py:221-330 | in every state of every interleaving: the deque holds exactly the waiting jobs, each once; the wake-up flag is set exactly when it is non-empty; started then queued jobs are the submitted ones in order without the cancelled ones; at most one job runs and it is the current one; a reader's path is its job's output path with the job id in place of every placeholder |
| `WorkerRuns.Extend` | training.py:677-759 | whatever action is enabled at the end of a run can be taken and the run goes on; the worker goes on with the job it took even when the table has dropped it |
| `WorkerRuns.StatusEdges` | training.py:243-330 | in any run a step moves statuses only along pending to cancelled or running and running to completed or failed, only waiting jobs appear and only finished ones disappear, if and only if it is not an early completion that reaches a failed job |
| `WorkerRuns.RunEdgesExactlyWhen` | training.py:243-330 | a whole run keeps to those edges if and only if no early completion in it reaches a failed job |
| `WorkerRuns.TerminalForever` | training.py:257-330 | a finished job keeps its status for as long as no early completion reaches a failed job |
| `WorkerRuns.CompletedForever` | training.py:257-298 | in every run a completed job keeps its status and first result whatever later calls say |
| `WorkerRuns.EarlyCompletionWins` | training.py:1474-1512 | in every run an early completion made for its own running job completes it with a result naming the job's output path with the job id in place of every placeholder, and that stays to the end of the run, through time-out, kill and any exit code |
| `Placeholders.ExpandFillsIn` | training.py:1237-1247 | the expanded path is the one that has the job id exactly where the path has "{job_id}", however the path is cut at its placeholders |
| `Placeholders.UnchangedExactlyWhen` | training.py:1237-1247 | a path changes if and only if it holds the placeholder |
| `Scripts.LineEffect` | training.py:1538-1573 | a progress line that goes back by more than 0.01 counts for nothing; any other sets the progress; a counting line that announces the end completes training, and begins the early completion when the artifact is there for the first time |
| `Scripts.ExitSucceedsExactlyWhen` | training.py:1594-1630 | a script succeeds if and only if it exits with zero, or was completed early, or had announced the end of training and left an artifact; the result carries the exit code, the flags, the progress and the artifact's path if there is one |
| `Scripts.JobAfterExit` | training.py:1594-1630 | once reported, a running job has completed or failed as the script did, and a job completed early is unchanged |
| `Scripts.JobAfterHandler` | training.py:257-298 | once reported, a running job has completed with its handler's result or failed with its error |
| `WorkerRuns.AimsOwnExactlyWhen` | training.py:1485-1500 | over a whole run every early completion is for its reader's own job if and only if readers ask for the job id only while the worker has their own job in hand, after its id is set and before it is cleared |
| `JoinedRuns.EveryJoinedRun` | training.py:1571-1590 | when a script call returns only after its reader has finished, a live reader always belongs to the script being run, and until its early completion is made that script's job is the running one |
| `JoinedRuns.JoinSuffices` | training.py:1571-1590 | such a run meets all three conditions: readers ask while their own job is in hand, early completions are made for their own running job, none reaches a failed job |
| `LateReader.FailedJobBecomesCompleted` | training.py:1576-1588 | after a time-out the reader turns the failed job into a completed one |
| `LateReader.NextJobIsCompleted` | training.py:1488-1500 | after a time-out the reader aims at and completes the next job with its own artifact's path while that job is still handled |
| `Framing.Connection.Receive` | training.py:1749-1776 | after any reads, the requests handled followed by the complete lines still in the buffer are the non-empty newline-ended lines of all bytes received; a read handles lines up to the first whose handling times out or raises; the connection closes exactly on a request that raises, and while it is open complete lines wait only behind one that timed out |
| `Framing.Connection.HandleLines` | training.py:1759-1776 | the loop takes lines off the buffer front in order and handles the non-empty ones, stops behind the first that times out or raises, and otherwise leaves no newline |
| `Framing.HandledInOrder` | training.py:1749-1776 | the requests handled are always the first lines received, and all of them if and only if no line waits in the buffer; lines wait in an open connection only behind a time-out |
| `Framing.HandledUpToRaise` | training.py:1759-1776 | unless the last request handled timed out, the requests handled are the lines received up to the first that raises, and the connection stays open, with the unfinished tail in the buffer, if and only if none does |
| `Framing.SplitIndependent` | training.py:1749-1776 | unless the last request handled timed out, two ways of splitting the same bytes into reads handle the same requests and end alike |
| `Framing.SameRequestsExactlyWhen` | training.py:1749-1776 | in general two ways of splitting the same bytes have handled the same requests if and only if as many lines wait in either buffer |
| `Framing.TimeoutHoldsBack` | training.py:1749-1776 | two requests of which the first times out: in one read the second is left waiting, in two reads both are handled |
| `Framing.RoundTrip` | training.py:1760-1764 | splitting newline-ended requests and an unfinished tail gives back the requests in order and the tail |
| `Packing.PackLabeledTokenIdLists` | training_pack.py:47-116 | fails exactly below one token; else the blocks are the concatenations, ids and labels alike, of the greedy groups of the normalized rows, each with an attention mask of its own length that is 1 everywhere |
| `Packing.PackTokenIdLists` | training_pack.py:20-44 | full-token packing yields labels equal to ids, on the same greedy groups, with attention 1 everywhere |
| `PackingTheorems.PackedBlocksAreTheRows` | training_pack.py:80-116 | the blocks concatenate to the normalized rows in order, ids and labels alike; every block is non-empty and within the limit |
| `PackingTheorems.GreedyCuts` | training_pack.py:94-109 | no row is split between two blocks: the groups hold the rows whole and in order |
| `PackingTheorems.FewestBlocks` | training_pack.py:94-109 | no way of cutting the rows into consecutive unsplit groups within the limit has fewer groups |
| `PackingTheorems.NeighboursOverflow` | training_pack.py:94-109 | any two neighbouring blocks together exceed the limit |
| `PackingTheorems.BlockCountBound` | training_pack.py:94-109 | fewer than 2 * tokens / max_length + 1 blocks |
| `PackingTheorems.SeparatorKeptExactlyWhen` | training_pack.py:80-92 | a normalized row ends with the separator if and only if the row was shorter than the limit or has the separator as the last token kept |
| `PackingTheorems.FullRowLosesSeparator` | training_pack.py:80-92 | a row that fills a block is left without the separator |
| `PackingTheorems.RowsInBlockAreSeparated` | training_pack.py:80-109 | within every block each row but the last ends with the separator |
| `SftFormat.AsMessages` | training_format.py:15-35 | the loop over messages, or the prompt and response fields, give the specified turns |
| `SftFormat.ResolveFormatMode` | training_format.py:100-134 | a named format is the one of that name; an unnamed one is hf exactly when the tokenizer has a template, else Llama 3 exactly when the names look like it and not like ChatML, else ChatML |
| `SftFormat.DocumentedExactlyWhen` | training_format.py:104-134 | the mode is the documented one if and only if the format is named, or the tokenizer has a template, or the names look like ChatML: the documented fallback to alpaca never happens |
| `SftFormat.EmptyRequestIsChatml` | training_format.py:104-134 | the empty request without a tokenizer gives ChatML where the documentation says alpaca |
| `SftFormat.FormatChatml` | training_format.py:52-60 | the loop gives the rendered turns joined by newlines, the text that `SftReadBack.ChatmlReadsBack` reads back |
| `SftFormat.FormatLlama3` | training_format.py:63-77 | the loop gives the opening mark and the rendered turns in order |
| `SftFormat.FormatSftSample` | training_format.py:38-165 | the plain renderer gives the specified text in every mode, the one that `SftReadBack.RenderedReadsBack` reads back |
| `SftReadBack.RenderedReadsBack` | training_format.py:38-165 | per mode: the Modelfile's or the template's own text, else a text from which a reader that knows the marks only returns the sample's messages, or its fields, wherever no content holds the mark that ends it; a tokenizer without a usable template falls back to ChatML |
| `SftReadBack.ChatmlReadsBack` | training_format.py:52-60 | a ChatML text reads back as exactly the roles and contents in order, unknown roles as the user |
| `SftReadBack.Llama3ReadsBack` | training_format.py:63-77 | a Llama 3 text reads back as exactly the roles and contents in order, roles but system and assistant as the user |
| `SftReadBack.AlpacaReadsBack` | training_format.py:38-49 | the legacy layout reads back as the system text if there is one, the prompt and the response |
| `SftReadBack.FieldsAreFirst` | training_format.py:28-35 | prompt, response and system are the first field present of prompt, instruction, input; of response, output, completion; and of system |
| `SftReadBack.MessageFields` | training_format.py:18-25 | a message's content is its content field, else its text; its role is the trimmed role field, else the user |
| `SftReadBack.StripTrims` | training_format.py:22-22 | trimming takes away surrounding space only, and all of it |
| `SftReadBack.NamesSearched` | training_format.py:118-133 | an unnamed format looks for a word in the lower-case tokenizer name or model name, never across the two |
| `SftFormat.FormatSftPromptAndFull` | training_labels.py:23-111 | in every mode the full text is the plain renderer's text and the prompt a prefix of it: exactly the last reply with its end mark follows it in the alpaca, ChatML and Llama 3 layouts, it is the template's rendering of the messages before the last in hf mode when that is a prefix, and it is the whole text where the mode cannot split |
| `SftFormat.PromptIsUnique` | training_labels.py:23-111 | the split is determined: one prompt only meets that condition |
| `Labels.MaskLabelsCompletionOnly` | training_labels.py:114-129 | masks exactly the prompt's tokens when they begin the row, never the last token, and nothing otherwise |
| `Labels.TokenizeCompletionOnlyCorpus` | training_labels.py:132-164 | each row holds the tokens of the plain renderer's text, masked by the prompt part of that text, with attention 1 everywhere |
| `Labels.TokenizeAndPackCompletionOnly` | training_labels.py:167-193 | the blocks are the packed labelled rows of the samples with untrained separators and attention 1 everywhere |
| `Labels.CorpusRow` | training_labels.py:151-157 | the labels masked are exactly those of the prompt's tokens, cut so that the last token stays, when these begin the row, and none otherwise; every other label is its own token and a non-empty row trains on its last token |
| `Labels.NormalKeepsLabels` | training_pack.py:80-99 | normalizing a row within the limit keeps all of it, and appends the separator, untrained, exactly when there is one, the row does not end with it and there is room |
| `Labels.MasksSurvivePacking` | training_labels.py:174-193 | from samples to blocks the number of trainable labels is conserved, every label is -100 or its own token, and every non-empty row keeps a trainable label |
| `Recipes.Walk` | training_recipes.py:208-217 | the walk terminates on any mapping with a duplicate-free parent chain from the start that cannot be continued |
| `Recipes.ChainIsUnique` | training_recipes.py:208-217 | that chain is unique |
| `Recipes.WalkReachesTopExactlyWhen` | training_recipes.py:208-217 | the chain ends at an object whose parent is no string if and only if climbing from the start ever meets one |
| `Recipes.AcyclicWalkReachesTop` | training_recipes.py:208-217 | in a closed mapping without cycles the walk ends at an object whose parent is no string |
| `Recipes.FindTip` | training_recipes.py:195-206 | the current node when it is in the mapping, else the first entry whose parent is false or an empty string, else none, and then no entry has such a parent |
| `Recipes.LinearMessages` | training_recipes.py:187-230 | the messages along the tip's parent chain, root first, with the tip chosen as the current node or the first entry without a parent; each has text and is by the user, the assistant or the system |
| `Recipes.LinearIsUnique` | training_recipes.py:187-230 | one message list only meets that description |
| `Recipes.TurnCounts` | training_recipes.py:218-230 | a node counts as a turn exactly when it has a message with text by the user, the assistant or the system |
| `Recipes.PairsFromTurnMessages` | training_recipes.py:233-245 | the pairs are exactly the user turns directly followed by an assistant turn among the non-empty user and assistant turns |
| `ToolArguments.Arguments.FindUniqueBuried` | api/tool_autocorrect.go:236-259 | finds a parent exactly when there is one and only one undeclared burial place |
| `ToolArguments.Arguments.Set` | api/types.go:556-564 | updates in place or appends, keeping the insertion order |
| `ToolArguments.Arguments.HoistBuriedRequired` | api/tool_autocorrect.go:209-234 | the in-place loop gives the arguments of the traced run and keeps the old keys in their order in front |
| `ToolArguments.HoistingConserves` | api/tool_autocorrect.go:209-234 | over all required keys nothing is overwritten or lost: each old value is kept less the fields that moved, and each moved field is, coerced, the value of its own missing required key, buried from the start in that place alone |
| `ToolArguments.MovedExactlyWhen` | api/tool_autocorrect.go:209-259 | over all required keys, when no value that can move would itself bury a missing required key: a key moves if and only if it is required, missing, declared, and buried in exactly one undeclared place of the arguments first given, and it moves from that place |
| `ToolArguments.DeclaredStays` | api/tool_autocorrect.go:236-259 | a field that the schema of its object declares stays where it is, whatever is required |
| `ToolArguments.UndeclaredMoves` | api/tool_autocorrect.go:209-259 | a missing required field declared at the top moves out of the only object that holds it when that object declares no fields, or not this one |
| `ToolArguments.MovedValueCanBury` | api/tool_autocorrect.go:209-259 | otherwise, even with values moved unchanged, a key buried nowhere at first can move out of a value that has moved |

## Left out

- Jobs.JobQueue.Submit: when the drawn id is already waiting the source's deque holds two job objects of that id; the model's deque holds the id twice.
- WorkerRuns.EveryRun: takes submitted ids as never repeating; the source draws eight random characters and does not check.
- Labels.MasksSurvivePacking: takes the tokenizer as any function to non-negative ids, at most max_length of them; what a real tokenizer returns is not modelled.
- JoinedRuns.JoinSuffices: speaks of runs that wait for the reader, which the source does after a normal exit only, for at most ten seconds.
- Jobs are values in the table and the deque holds their ids; aliasing between the deque's job objects and the table is not modelled.
- Timestamps are ordered keys; start and completion times, progress messages and metrics are left out.
- Newest-first sorting is a stable insertion standing for the library sort.
- Value coercion of tool arguments (api/tool_autocorrect.go:37-205) is a parameter, so when it yields objects is not said; JSON encoding of arguments is given with them.
- Writing the non-streaming answer out (middleware/anthropic.go:75-77), which fails as a whole when a call does not encode; answers are compared as values.
- Template application, Modelfile rendering and tokenizers are parameters; lower-casing is ASCII only.
- Message text extraction from export content parts is given as the node's cleaned role and text.
- A script's process, files and timers are the environment's choices; the killed child is one of the possible exits.
- The synchronous train and run_script commands, the idle-unload timer and the memory-relief hooks.
- How handling one request ends (answered, timed out, raised) is the environment's choice; JSON decoding of requests, sockets, broadcasting to clients, and the other request commands.
- 64-bit wrap-around of block indices and token counts.
- Request conversion, web search and token estimation in anthropic/anthropic.go, and all commands, model code and services of the repository.
