# mimo2codex, modelled and proved in Dafny

mimo2codex translates between the Responses API that Codex speaks and the Chat Completions API
that upstream models offer. Around the translator it keeps some local state: backups of the Codex
configuration, an hourly rollup of its request log, and a data directory that can be moved. A
small Go service beside it answers questions about the documentation with an agent loop.

This project models those parts and proves what they promise, for every input, every chunking,
every interleaving and every failing step. `dafny verify dfyconfig.toml` checks all of it.

Code that works step by step in the original is a class or a method with loops here, proved equal
to a specification function; the laws are lemmas about that function.

| Part | Modules |
|---|---|
| Chat history: what well paired means, the two repair passes, the request assembler, the system merge, compaction, and all of them in a row | `ChatTypes`, `Pairing`, `Repair`, `RepairTwice`, `ReqToChat`, `ReqContent`, `MergeSystem`, `AutoCompact`, `Pipeline` |
| Inline `<think>` blocks: the chunked splitter, the one-pass scan it should equal, the regex form | `ThinkSplitter`, `InlineThink` |
| One-shot translation, and the round trip back through the assembler | `ResponseTypes`, `RespToResponses`, `RoundTrip` |
| Streaming translation: the machine, the class that performs it, a client that replays its events, and the laws | `StreamMachine`, `StreamToSse`, `StreamProtocol`, `StreamNesting`, `StreamOrder`, `StreamConservation`, `StreamTwoRuns`, `StreamAgreement`, `StreamDeltas`, `StreamOneShot` |
| `config.toml` merge | `TomlMerge`, `TomlLines`, `TomlMergeLaws`, `TomlVerbatim`, `TomlRead` |
| Codex configuration: apply in two modes, backups, pruning, restore | `CodexFiles`, `CodexHistory`, `CodexState`, `CodexRuns` |
| Request statistics: buckets, log and backfill, readings | `StatsRollup`, `StatsRows`, `StatsBackfill`, `StatsReads` |
| Moving the data directory | `Migration` |
| Documentation agent: one streamed reply, the turns sent back, the rounds of a question, the session | `AskReply`, `AskTurns`, `AskRounds`, `AskLoop` |

## Where the code and its promise part

The model follows the code. Where a law fails, it is proved exactly when it holds, and a concrete
input shows the failure.

- The think splitter keeps a held-back tail when a tag ends exactly at the end of the buffer, and
  delivers it twice (src/translate/minimaxCompat.ts:324-352). Delivery is exact at every point of a
  stream if and only if that never happens (`ThinkSplitter.FaithfulIffNeverStale`); the variant that
  clears the tail is exact for every chunking (`ThinkSplitter.ClearedDeliversScan`).
- The lazy regex keeps an unclosed block in the content, the scan does not
  (`InlineThink.UnclosedBlock`); the two agree if and only if every opened block is closed
  (`InlineThink.RegexAgreesIffClosed`).
- A second repair can reorder placeholders when a call without an id stands before an unanswered
  call with one (`RepairTwice.EmptyCallIdReorders`), and only then (`RepairTwice.RepairSettlesIff`).
- The comment at src/translate/streamToSse.ts:337 says done events follow the order in which calls
  were opened; the code sorts them by upstream index (`StreamOrder.LaterCallFirst`). The two orders
  are the same if and only if call indexes first appear in ascending order
  (`StreamOrder.CallsDoneAsOpenedIff`); and every item's place in the final output is its
  `output_index` if and only if, besides, nothing is said after a call
  (`StreamOrder.PlacedByIndexIff`, `StreamOrder.TextAfterCall`).
- A stream does not always end with the output of the one-shot form: it starts a new item at every
  change of channel (`StreamAgreement.ReasoningAfterText`). The two agree if and only if the spoken
  items are the one-shot ones and every call is whole (`StreamAgreement.StreamAgreesIff`).
- A line of `config.toml` that ends in two carriage returns and a line feed loses one of them at
  the first merge and the other at the second (`TomlMergeLaws.DoubledCrShrinksAgain`);
  last-writer-wins holds if and only if no surviving line ends in a carriage return
  (`TomlMergeLaws.LastWriterWins`).
- The comment at src/codex/tomlMerge.ts:10-11 says every other byte is left in place; a line with a
  Windows line ending is not (`TomlVerbatim.CrLfNotVerbatim`). The merged file has the user's kept
  lines as they were written if and only if none is an empty line after an empty line and none ends in a
  carriage return before its line feed (`TomlVerbatim.VerbatimIff`).
- The two configuration files are pruned independently, so an old unpreserved pair can lose one
  half, and restoring it deletes a file that did exist (`CodexRuns.OldPairLosesHalf`). A restore is
  exact if and only if neither half has been pruned (`CodexRuns.RestoreReproduces`).
- The comment at src/codex/preserveLogin.ts:58-65 promises exactly one rollback point, as for the
  overwriting apply; keeping a login first and overwriting it later makes two
  (`CodexRuns.TwoRollbackPoints`). The number is given exactly for every run of applies
  (`CodexRuns.RollbackPoints`): one for the first apply if it keeps the login and nothing is
  preserved yet, and one for the first that overwrites it.
- The rollup misses old rows that were deleted before the backfill reached them
  (`StatsBackfill.DeletedBeforeItsTurn`); once done it is the aggregate of the whole history if and
  only if no delete took a logged row at or below the cursor (`StatsBackfill.DoneCoversHistory`).
- The test for "target inside the data directory" takes a directory whose name begins with two dots
  for outside (src/admin/migration.ts:85-91, `Migration.DottedTargetAccepted`); that is the only
  exception (`Migration.AcceptedPairs`). A run into such a target adds to the source and changes
  nothing else of it (`Migration.SourceUntouchedIff`).
- The header of src/admin/migration.ts:13-14 says a failed copy leaves no partial destination; in a
  target that existed before, the part of the failing file stays (`Migration.PartialCopyStays`).
  Nothing of the run is left if and only if the target it made can be removed or, in one that was
  there, no removal fails and the failing copy left no part (`Migration.NothingLeftIff`).
- The agent loop sends calls without an id back as they came (`AskTurns.UnnamedCallUnpaired`); its
  histories are well paired on the wire if and only if every call had an id
  (`AskTurns.HistoryPaired`).

One comment only describes the code wrongly: the summary cache is called least-recently-used
(src/translate/autoCompact.ts:185-238), but a hit does not refresh an entry, so it is first in, first
out (`AutoCompact.SummaryCache.Store`, `AutoCompact.Summarize`).

## Model

| member | source | states |
|---|---|---|
| Pairing.PairedIffIndexed | src/translate/reqToChat.ts:841-902 | the left-to-right test used in the proofs is the demand as documented: each tool message answers a call declared by the assistant message opening its run, and each declared call is answered in that run |
| Repair.RemoveOrphanToolMessages | src/translate/reqToChat.ts:841-868 | the splicing loop drops exactly the tool messages with no call in scope |
| Repair.EnsureToolCallsHaveOutputs | src/translate/reqToChat.ts:876-902 | the splicing loop adds one placeholder per unanswered call at the end of its run and nothing else |
| Repair.SeenInRun | src/translate/reqToChat.ts:881-887 | the inner scan finds the end of the run and the ids answered in it |
| Repair.RepairWellPaired | src/translate/reqToChat.ts:814-817 | for every message list, repair ends well paired |
| Repair.RepairByRun | src/translate/reqToChat.ts:841-902 | non-tool messages keep their place; each run is its in-scope results in order, then one placeholder per call they leave unanswered |
| Repair.RepairIdentity | src/translate/reqToChat.ts:841-902 | with non-empty call ids a well-paired list is left alone |
| RepairTwice.RepairIdempotent | src/translate/reqToChat.ts:841-902 | with non-empty call ids repairing twice is repairing once |
| RepairTwice.EmptyCallIdReorders | src/translate/reqToChat.ts:876-902 | a concrete history with an empty call id that a second repair reorders |
| RepairTwice.RepairSettlesIff | src/translate/reqToChat.ts:841-902 | for every history, a second repair changes nothing if and only if no assistant turn has a call without an id before an unanswered call with one |
| ReqToChat.FlushAssistant | src/translate/reqToChat.ts:661-686 | the pending slots become one assistant message and are emptied; nothing is appended when they are empty |
| ReqToChat.TakeItem | src/translate/reqToChat.ts:707-812 | one input item takes the three-slot state where the assembly function says |
| ReqToChat.InputItemsToMessages | src/translate/reqToChat.ts:688-818 | the loop yields the repaired assembly of all items |
| ReqToChat.AssemblyLosesNothing | src/translate/reqToChat.ts:688-813 | before repair nothing is lost: calls in order, reasoning and assistant text concatenated, every other message once and in order |
| ReqContent.AssemblyTellsItems | src/translate/reqToChat.ts:70-190 | before repair, by the fields of the items: each user and system message carries all text of its parts and, where the model sees images, all images in order, or else their notice; each tool message its output's text and the notice of its images; each call its id, name and arguments, `{}` where they are no JSON; assistant text and reasoning joined |
| ReqContent.HistoryTells | src/translate/reqToChat.ts:688-818 | the same of what is sent after repair; every tool message gives the output of an item or says there was none |
| ReqToChat.BackfillReasoning | src/translate/reqToChat.ts:1039-1045 | placeholder reasoning on exactly the assistant messages without any |
| ReqToChat.ReqToChatMessages | src/translate/reqToChat.ts:904-1045 | instructions, advisory note, history and backfill in the order the code gives them, well paired |
| ReqToChat.RequestWellPaired | src/translate/reqToChat.ts:970-975 | for every request the messages are well paired, after note insertion and backfill too, and no assistant message lacks reasoning unless thinking is off |
| ReqContent.RequestTells | src/translate/reqToChat.ts:904-1045 | a request is its instructions, its note, its history, in this order; only an assistant message without reasoning is given the placeholder, and only with thinking on |
| MergeSystem.MergeSystemMessagesInPlace | src/translate/minimaxCompat.ts:198-217 | in place: one leading system message with all texts joined, the rest untouched |
| MergeSystem.MergeKeepsPairing | src/translate/minimaxCompat.ts:198-217 | merging system messages keeps a history well paired |
| MergeSystem.MergedShape | src/translate/minimaxCompat.ts:198-217 | at most one system message, at the front; every other message kept in order; merging again changes nothing |
| MergeSystem.MergeSays | src/translate/minimaxCompat.ts:198-217 | the list is left alone, or one message leads with every plain text of the system messages, in order with a blank line between any two, and all other messages follow |
| AutoCompact.EstimateMessageTokens | src/translate/autoCompact.ts:31-50 | the accumulating estimate is the cost of the message |
| AutoCompact.EstimateTokens | src/translate/autoCompact.ts:52-56 | the estimate of a list is the sum over its messages |
| AutoCompact.CostMeans | src/translate/autoCompact.ts:31-50 | a message costs a token for every four characters of its text, reasoning and calls, its role's name, four more and eight per call, rounded up, and 1024 per image |
| AutoCompact.PlanChatCompaction | src/translate/autoCompact.ts:70-112 | the index loops find the plan if there is one worth taking |
| AutoCompact.PlanMeaning | src/translate/autoCompact.ts:70-112 | head, middle and tail are the original list; the tail is the longest suffix after the head that starts at a user message and fits the budget; the middle costs at least 1000 |
| AutoCompact.CompactionCost | src/translate/autoCompact.ts:242-251 | after is before less the middle plus the summary |
| AutoCompact.CompactionSound | src/translate/autoCompact.ts:242-251 | compaction keeps pairing and stays within head, summary and tail budget |
| AutoCompact.SummaryStands | src/translate/autoCompact.ts:242-250 | the message put in says how many it stands for and then the trimmed summary |
| Core.TrimParts | src/translate/autoCompact.ts:247-249 | trimming takes white space from both ends, and leaves none there |
| AutoCompact.KeysDiffer | src/translate/autoCompact.ts:186-191 | no two models and no two renderings share a cache entry |
| AutoCompact.SummaryCache.Store | src/translate/autoCompact.ts:233-237 | a new entry evicts the oldest, so there are never more than 64 |
| AutoCompact.Summarize | src/translate/autoCompact.ts:219-240 | what is remembered is used; only then a new answer, unless it failed or is blank, and only a usable one is stored |
| AutoCompact.MaybeCompactChat | src/translate/autoCompact.ts:210-265 | nothing changes, or one message stands for all between the leading instructions and the longest tail in the budget that starts with the user, with the estimates reported; pairing is kept either way |
| Pipeline.PrepareChat | src/server.ts:770-815 | what goes upstream is the request's messages, merged where the provider wants that and shortened where there is a trigger, and it is well paired whatever the summariser answers |
| ThinkSplitter.InlineThinkSplitter.MaybeCarryTail | src/translate/minimaxCompat.ts:308-321 | holds back the longest tail that may begin the awaited tag |
| ThinkSplitter.InlineThinkSplitter.ProcessChunk | src/translate/minimaxCompat.ts:323-357 | the buffer loop delivers what the splitter function says, tail kept at a tag's end included |
| ThinkSplitter.InlineThinkSplitter.FlushCarry | src/translate/minimaxCompat.ts:359-366 | the held-back tail is delivered on the current side |
| ThinkSplitter.ClearedDeliversScan | src/translate/minimaxCompat.ts:301-369 | with the tail cleared on entry, all outputs plus the flush are the one-pass scan of the whole string, for every chunking |
| ThinkSplitter.NeverStaleIsCleared | src/translate/minimaxCompat.ts:323-357 | the code equals that variant while no buffer begun with a tail ends exactly at a tag |
| ThinkSplitter.FaithfulIffNeverStale | src/translate/minimaxCompat.ts:323-366 | outputs equal the scan at every stopping point if and only if no buffer begun with a tail ends exactly at a tag |
| ThinkSplitter.SplitTagExample | src/translate/minimaxCompat.ts:324-352 | the chunks `<think` and `>` deliver wrongly |
| InlineThink.PiecesAreScan | src/translate/minimaxCompat.ts:323-357 | scanning into separate blocks and scanning into one reasoning text are the same scan |
| InlineThink.SplitInlineThink | src/translate/minimaxCompat.ts:245-262 | the exec loop finds the global lazy matches, blocks joined by a blank line |
| InlineThink.RegexAgreesIffClosed | src/translate/minimaxCompat.ts:245-262 | the regex form and the scan give the same content and the same blocks if and only if no block is left open |
| InlineThink.RegexFinds | src/translate/minimaxCompat.ts:245-262 | what the regex finds, told by the scan: the same, but for a last block that never closed, which stays in the content behind its tag |
| InlineThink.UnclosedBlock | src/translate/minimaxCompat.ts:245-262 | on `<think>a` the regex leaves all in the content and the scan takes `a` for reasoning |
| InlineThink.ApplyInlineThinkSplitToMessage | src/translate/minimaxCompat.ts:271-290 | the message keeps what the scan calls content, an unclosed block included, and its closed blocks join the reasoning it had, a blank line between any two; without a closed block that says anything it stays as it was |
| RespToResponses.Translate | src/translate/respToResponses.ts:80-191 | output is reasoning, message and calls of the rewritten message; usage is passed on field by field; incomplete exactly on `length` |
| RespToResponses.AddCalls | src/translate/respToResponses.ts:143-161 | the push loop adds one item per call in order, arguments salvaged |
| RespToResponses.CallsIgnoreIds | src/translate/respToResponses.ts:143-161 | call items are the same whatever ids are generated |
| RespToResponses.OutputDrawn | src/translate/respToResponses.ts:98-161 | every item has an id of its kind from a token of its own |
| RoundTrip.TurnAbsorbed | src/translate/reqToChat.ts:732-814 | a translated reply fed back with its outputs is absorbed as exactly one assistant message and the results |
| RoundTrip.ConversationRoundTrip | src/translate/respToResponses.ts:98-161 | whole conversations: user messages with any parts, and replies translated and fed back with one output per call, rebuild the same messages, same reasoning, content and calls, arguments unchanged when valid JSON and `{}` otherwise |
| RoundTrip.HidingKeepsHistory | src/translate/reqToChat.ts:756-791 | the output of a stream with reasoning hidden rebuilds the same history as with it shown |
| StreamToSse.Sink.Write | src/translate/streamToSse.ts:91-93 | writes after the peer has gone are dropped |
| StreamToSse.StreamState.EmitTo | src/translate/streamToSse.ts:82-93 | events are numbered 0, 1, 2 and so on without a gap |
| StreamToSse.StreamState.BeginReasoning | src/translate/streamToSse.ts:127-155 | closes the active item, opens a reasoning item at the next output index |
| StreamToSse.StreamState.BeginMessage | src/translate/streamToSse.ts:157-180 | closes the active item, opens a message item and its content part |
| StreamToSse.StreamState.BeginToolCall | src/translate/streamToSse.ts:191-226 | closes the active item, records a call with its own output index and announces it |
| StreamToSse.StreamState.FinalizeActive | src/translate/streamToSse.ts:228-300 | the active item's done events and final item, then nothing active |
| StreamToSse.StreamState.FinalizeToolCall | src/translate/streamToSse.ts:339-365 | done arguments are the call's buffer when it is empty or parses, and `{}` otherwise; the same final item |
| StreamToSse.StreamState.FinalizeToolCalls | src/translate/streamToSse.ts:336-366 | every call is finished, in ascending upstream index |
| StreamToSse.StreamState.AddReasoning | src/translate/streamToSse.ts:406-423 | a reasoning delta extends or opens a reasoning item |
| StreamToSse.StreamState.AddText | src/translate/streamToSse.ts:425-433 | a content delta extends or opens a message |
| StreamToSse.StreamState.AddAnnotations | src/translate/streamToSse.ts:439-453 | annotations go to the open message, one event each, numbered on |
| StreamToSse.StreamState.AddCallDelta | src/translate/streamToSse.ts:455-473 | a fragment opens its call or extends it, and only it |
| StreamToSse.StreamState.ProcessChunk | src/translate/streamToSse.ts:368-478 | a chunk takes exactly the machine's steps for it |
| StreamToSse.StreamState.FlushThinkSplitter | src/translate/streamToSse.ts:496-521 | the splitter's tail becomes ordinary deltas |
| StreamToSse.PipeChatStreamToResponses | src/translate/streamToSse.ts:523-577 | for every chunk sequence, ending, and moment the peer may go, from the start on: what the peer got, where the machine stands, and the answer kept: cut short, completed if the upstream ended, broken with its message if it threw, with the usage and truncation the chunks say |
| StreamProtocol.EveryStreamAccepted | src/translate/streamToSse.ts:91-577 | for every chunk sequence and ending, a strict client accepts the log to its end with every announced item finished and rebuilt from its deltas |
| StreamNesting.EveryStreamWellNested | src/translate/streamToSse.ts:127-366 | created, in progress, one terminal event and it is last; each output index has one added and one later done event under the same id with all its events between; the item in the done event is of the kind announced and is its deltas and annotations put together, and hidden reasoning streams none |
| StreamDeltas.StreamEnds | src/translate/streamToSse.ts:531-571 | created and in progress with nothing in them; then no such event until the last, which is completed if the upstream ended and failed with its message if it threw, and shows the output, the last usage sent field by field, and whether the last finish reason was `length` |
| StreamDeltas.StreamCites | src/translate/streamToSse.ts:182-189 | the messages cite exactly what the chunks cite, in order and field by field |
| StreamDeltas.StreamCalls | src/translate/streamToSse.ts:191-226 | the calls come last in the output, one per index the chunks name, each made of the deltas at its index: the first id or a made-up one, the first name given, its namespace, all fragments joined, `{}` where they are no JSON |
| StreamDeltas.StreamNames | src/translate/streamToSse.ts:127-226 | every item is announced under an id of its kind from a token of its own, and every call with the namespace of its name |
| StreamOrder.DoneItemsAreOutput | src/translate/streamToSse.ts:228-366 | the items of the done events, in log order, are the final output, and so is the output of the terminal event |
| StreamOrder.CallsDoneAsOpenedIff | src/translate/streamToSse.ts:336-339 | calls are done in the order they were opened if and only if their indexes first appear in ascending order |
| StreamOrder.PlacedByIndexIff | src/translate/streamToSse.ts:336-366 | every item stands in the final output at its output index if and only if, besides, no reasoning, text or citation follows a call |
| StreamOrder.LaterCallFirst | src/translate/streamToSse.ts:336-339 | a stream whose calls are done against the order they were opened in |
| StreamOrder.TextAfterCall | src/translate/streamToSse.ts:336-366 | a stream whose output is not in the order of the output indexes |
| StreamConservation.StreamConserves | src/translate/streamToSse.ts:312-366 | whatever the interleaving, all reasoning, text and annotations reach the final items in order, and each call carries its own fragments, id and name |
| StreamConservation.PlainStreamText | src/translate/streamToSse.ts:406-433 | without extraction the texts are the content deltas and the encrypted contents the reasoning deltas, concatenated |
| StreamConservation.SplitStreamText | src/translate/streamToSse.ts:394-404 | with extraction, when no tail goes stale, the texts are the content of the one-pass scan, and the encrypted contents are each chunk's own reasoning followed by what was taken out of it, the parts taken out being the reasoning of that scan |
| StreamConservation.InlineStreamText | src/translate/streamToSse.ts:394-404 | when the reasoning is all in the content and no tail goes stale, texts and encrypted contents are the two sides of the one-pass scan |
| StreamTwoRuns.HidingOnlyErases | src/translate/streamToSse.ts:143-154 | the run that hides reasoning is the run that shows it with summaries and their events erased |
| StreamAgreement.StreamAgreesIff | src/translate/streamToSse.ts:565-576 | for every chunk sequence the final output is the one-shot translation of the message the deltas spell, up to generated ids, if and only if the spoken items are the one-shot ones and every call has its id in its first fragment and a name; the usage is the last one sent |
| StreamAgreement.StreamRefinesOneShot | src/translate/respToResponses.ts:80-161 | reasoning before content before calls, in any interleaving of calls, is enough |
| StreamOneShot.StreamIsOneShot | src/translate/respToResponses.ts:80-161 | without extraction, told by the chunks: if none thinks after one that talked or called, none talks after one that called, every call is whole and citations come with text, the stream ends with the one-shot translation of the texts joined, the citations and one call per index |
| StreamAgreement.ReasoningAfterText | src/translate/streamToSse.ts:406-433 | a stream with reasoning after text, which ends with other output than the one-shot form |
| TomlMerge.TrimEdges | src/codex/tomlMerge.ts:38-44 | exactly the blank lines at both ends go |
| TomlMerge.RemoveTable | src/codex/tomlMerge.ts:50-64 | a line goes exactly when the nearest header above it is our table's or a subtable's |
| TomlMerge.FilterRoot | src/codex/tomlMerge.ts:96-97 | exactly the four managed settings go |
| TomlMerge.MergeCodexProviderToml | src/codex/tomlMerge.ts:80-107 | the merge as composed of its passes |
| TomlMergeLaws.MergePreserves | src/codex/tomlMerge.ts:17-19 | the non-blank lines afterwards are the managed settings, the user's other root lines, the user's lines outside our table and our table, each in its own order |
| TomlMergeLaws.MergedLines | src/codex/tomlMerge.ts:97-106 | line for line, what the merged file is |
| TomlMergeLaws.LastWriterWins | src/codex/tomlMerge.ts:80-107 | merging p and then q for the same provider is merging q alone, if and only if no surviving user line ends in a carriage return |
| TomlMergeLaws.OrdinaryFileSettles | src/codex/tomlMerge.ts:87 | a file whose carriage returns all stand before line feeds keeps that law, and a repeated merge changes nothing |
| TomlMergeLaws.DoubledCrShrinksAgain | src/codex/tomlMerge.ts:87 | a concrete file that a second merge changes again, and a third does not |
| TomlMergeLaws.BuiltBlock | src/setup/snippets.ts:198-219 | the block the program builds is a single table, as the laws ask |
| TomlRead.MergeSets | src/codex/tomlMerge.ts:66-78 | read back, the merged file sets the model and the provider once each above all tables, to the patch's values in quotes, and the two numbers once each or not at all |
| TomlRead.MergeReads | src/codex/tomlMerge.ts:80-107 | read back, the merged file is the program's settings, every entry of the user's file in its own table and order but those four settings and the program's own tables, and the program's table |
| TomlRead.BuiltReads | src/setup/snippets.ts:198-205 | the table the program builds, read back: its header, where the proxy listens, and how to talk to it |
| TomlVerbatim.VerbatimIff | src/codex/tomlMerge.ts:10-11 | the merged file is the managed settings, the user's kept lines as they were written and our table if and only if none of the kept lines is an empty line after an empty line and none ends in a carriage return before its line feed |
| TomlVerbatim.CrLfNotVerbatim | src/codex/tomlMerge.ts:87 | the merged file of a line with a Windows line ending, given exactly; the carriage return is gone |
| CodexFiles.TrackedFile.BackupFile | src/codex/files.ts:83-98 | a backup of exactly the live content, if there is a live file |
| CodexFiles.TrackedFile.ListBackups | src/codex/files.ts:112-136 | all backups, newest first |
| CodexFiles.TrackedFile.PruneBackups | src/codex/files.ts:141-151 | a backup goes exactly when it is unpreserved and as many unpreserved ones as are kept are newer |
| CodexFiles.TrackedFile.DeleteBackupsAt | src/codex/files.ts:156-168 | the backup of that time goes, and is counted |
| CodexFiles.RankIsIndex | src/codex/files.ts:141-145 | the place in the newest-first list is the number of newer backups |
| CodexState.CodexDir.ApplyCodex | src/codex/state.ts:44-75 | backups, sentinel, merged config, pruning, in that order, as one step of the directory |
| CodexState.CodexDir.ApplyCodexPreserveLogin | src/codex/preserveLogin.ts:52-99 | the same step with auth.json written only when missing and tagged only the first time |
| CodexState.CodexDir.ListBackupPairs | src/codex/state.ts:126-154 | every time either file has a backup of, newest first, each half the backup of its own file |
| CodexState.CodexDir.RestoreCodex | src/codex/state.ts:164-183 | both files as their halves say, a missing half deleting the file; nothing when there is no pair |
| CodexState.CodexDir.DeleteBackupPair | src/codex/state.ts:188-202 | refused exactly when either half is preserved, unless forced; otherwise both halves go, and nothing else, and are counted |
| CodexHistory.BackupsHeld | src/codex/files.ts:138-151 | after any run of applies a file's backup is there exactly when it was made and is preserved or among the ten newest, with its content |
| CodexRuns.RestoreReproduces | src/codex/state.ts:156-183 | in every reachable state, restoring gives back both files as they were if and only if neither half was pruned, and a pair is offered while either half is there |
| CodexRuns.PreservedAndRecentRestore | src/codex/state.ts:36-43 | preserved pairs and the ten newest others always restore exactly |
| CodexRuns.FewBackups | src/codex/state.ts:65-66 | never more than ten unpreserved backups of either file |
| CodexRuns.LiveAfterApply | src/codex/state.ts:44-63 | whatever the run before, an apply leaves a config.toml that reads as its target's settings and table and all the user had, or the first file where there was none, and the program's login or, where it is kept, the user's |
| CodexRuns.PreservedForever | src/codex/files.ts:138-140 | a preserved backup stays, unchanged, through any further applies, restores and outside edits |
| CodexRuns.OverwrittenLoginRecoverable | src/codex/state.ts:40-43 | however the run goes on, the login an overwriting apply found can be restored with its config.toml |
| CodexRuns.ExternalLoginSafe | src/codex/state.ts:40-43 | an external login that only applies touch up to the first that overwrites it: while there is none it stays live, and afterwards the pair of that apply restores it, whatever else the run does |
| CodexRuns.RollbackPoints | src/codex/preserveLogin.ts:58-65 | how many applies of a run tag an external login: one for the first apply if it keeps the login and nothing is preserved yet, and one for the first that overwrites it |
| CodexRuns.TwoRollbackPoints | src/codex/preserveLogin.ts:58-65 | a run that tags the same login twice |
| CodexRuns.OneRollbackPoint | src/codex/preserveLogin.ts:58-65 | applies that keep the login tag at most one pair |
| CodexRuns.OldPairLosesHalf | src/codex/state.ts:65-66 | a concrete run whose oldest pair restores wrongly |
| StatsRollup.FindLatencyBucket | src/db/stats.ts:34-39 | the first bound the duration does not exceed, or the open top |
| StatsRollup.AggregateAdds | src/db/stats.ts:86-103 | a row joins the aggregate from any place: the order rows are folded in does not matter |
| StatsRollup.UpsertIndexes | src/db/stats.ts:106-127 | one upsert keeps the rollup the aggregate of one row more |
| StatsBackfill.StatsDb.SeedStatsBackfill | src/db/index.ts:101-116 | the boundary is the largest live id, taken once |
| StatsBackfill.StatsDb.UpsertOne | src/db/stats.ts:106-127 | the bucket of the row's own provider and models, at the hour it was logged in, grows by the row, its duration counted in the slot it falls in; no other bucket changes |
| StatsBackfill.StatsDb.InsertLog | src/db/logs.ts:37-87 | row and bucket together, under an id never used before |
| StatsBackfill.StatsDb.DeleteLogsBefore | src/db/logs.ts:263-266 | exactly the rows logged before that time go, and are counted; the rollup stays |
| StatsBackfill.StatsDb.DeleteOldestLogs | src/db/logs.ts:274-286 | the floored share of rows goes, none of them newer than a row left |
| StatsBackfill.StatsDb.DeleteAllLogs | src/db/logs.ts:268-270 | every row leaves the log and is counted; rollup and cursor stay |
| StatsBackfill.StatsDb.BackfillStatsChunk | src/db/stats.ts:161-195 | the newest rows at or below the cursor are folded in, the cursor moves below them, done as the code says |
| StatsBackfill.RunsSound | src/db/stats.ts:146-150 | over every interleaving of inserts, deletes and chunks the rollup is the aggregate of exactly the counted rows, no row twice |
| StatsBackfill.DoneCounts | src/db/index.ts:94-100 | once done, the counted rows are all rows ever logged but those deleted before their turn |
| StatsBackfill.DoneCoversHistory | src/db/index.ts:94-100 | once done, the rollup is the aggregate of every row ever logged if and only if no delete took a logged row at or below the cursor before |
| StatsBackfill.DeletedBeforeItsTurn | src/db/stats.ts:161-195 | a run that ends done with an old row in no bucket |
| StatsBackfill.ChunkProgress | src/db/stats.ts:161-195 | each chunk reports done or lowers the cursor, and done is final |
| StatsBackfill.ChunkTakes | src/db/stats.ts:161-195 | a chunk takes the rows from the cursor down to the next, as many as it may, and reports their number; it is done when there was room for more or nothing is left below |
| StatsBackfill.BackfillTerminates | src/db/stats.ts:161-195 | the backfill ends within as many chunks as the boundary id counts, whatever happens in between |
| StatsReads.AggregateAddsUp | src/db/stats.ts:74-127 | an aggregate is one request per row, the rows' errors and tokens added up, and their latest time; nothing for no rows |
| StatsReads.ReadingsRefineLog | src/db/logs.ts:243-261 | in every run each reading is the aggregate of the counted rows in its window and groups |
| StatsReads.ReadingTellsRows | src/db/logs.ts:243-261 | in every run a reading tells the number, errors, tokens, latest time, durations and slots of exactly the counted rows from the asked hour on by the asked provider and models, by the rows' own fields |
| StatsReads.WindowCovers | src/db/logs.ts:240-242 | a window covers every row asked for and less than an hour more |
| StatsReads.HistogramComplete | src/db/stats.ts:106-127 | histogram counts sum to the number of timed rows |
| StatsReads.PercentilesFromBuckets | src/db/stats.ts:44-59 | the cumulative walk, and p50, p95, p99 in order |
| StatsReads.NearestRankExists | src/db/stats.ts:41-43 | every list that is not empty has a nearest-rank quantile, one of the list |
| StatsReads.PercentileIsNearestRank | src/db/stats.ts:41-59 | a reported percentile is the upper edge of the bucket that holds the nearest-rank quantile of the durations themselves, or 15000 for the open top |
| StatsReads.SumBuckets | src/db/logs.ts:247-259 | summing the selected buckets in any order is the aggregate over the log |
| StatsReads.AggregateLatency | src/db/logs.ts:370-396 | of the durations of the counted rows logged from the start of that hour on: their number, their mean to the nearest whole number, and the edges of the buckets of their quantiles |
| Migration.InsideTest | src/admin/migration.ts:85-91 | inside means inside, unless the next segment begins with two dots |
| Migration.AcceptedPairs | src/admin/migration.ts:93-117 | a pair is accepted exactly when the directories are disjoint, with that same exception |
| Migration.DottedTargetAccepted | src/admin/migration.ts:85-91 | a directory inside the data directory that is accepted |
| Migration.SourceUntouchedIff | src/admin/migration.ts:263-337 | with nothing changed outside a target that began empty, every source file is as it was, and no other is there unless the target lies inside the source and is not empty |
| Migration.ProgressWithinTotals | src/admin/migration.ts:274-337 | progress counts files one by one, never past the totals, and meets them at the end |
| Migration.FramesWithinTotals | src/admin/migration.ts:268-360 | however a run ends, no frame goes past the totals announced, and one that gets to the pointer has met them |
| Migration.FramesTell | src/admin/migration.ts:268-360 | every run's frames end with how it ended; before that, if anything was copied, the scan and a frame before each file with the files and bytes copied so far and its name |
| Migration.VerdictMeans | src/admin/migration.ts:211-378 | a run succeeds if and only if it was let in and no step failed, and otherwise ends for the first step that did |
| Migration.AfterMeans | src/admin/migration.ts:338-378 | the pointer moves on success alone, with every file in the target; what is closed, reopened and switched afterwards |
| Migration.Host.CopyAll | src/admin/migration.ts:274-337 | file after file with a frame before each, up to the first failure |
| Migration.Host.RollBack | src/admin/migration.ts:301-314 | copied files go unless stuck; a target this run made goes altogether, unless its removal fails |
| Migration.NothingLeftIff | src/admin/migration.ts:13-14 | when a failed copy leaves nothing of the run, exactly |
| Migration.PartialCopyStays | src/admin/migration.ts:293-314 | a failed copy that leaves half a file |
| Migration.Host.RunMigration | src/admin/migration.ts:211-378 | for every pair of directories and every combination of failing steps: all frames told, what the target holds afterwards, that no file outside it and none of the source changes, that the pointer moves only after every file is in place, that failure after going offline ends in service with a reopen tried, and success in maintenance with a restart required |
| AskReply.ArgumentsJoin | docbackend/internal/data/upstream.go:275-293 | whatever is interleaved, a call's arguments are its own fragments in arrival order |
| AskReply.CallsAscend | docbackend/internal/data/upstream.go:300-326 | assembled calls come in ascending index, one per non-negative index seen |
| AskReply.CallNamed | docbackend/internal/data/upstream.go:275-325 | a call has the last id, name and kind its fragments gave, and the kind `function` if none |
| AskReply.FinishLast | docbackend/internal/data/upstream.go:255-326 | the finish kept is the last one that says anything |
| AskReply.Assemble | docbackend/internal/data/upstream.go:304-325 | the index loop over the slots yields those calls |
| AskLoop.AskSession.WrappedEvent | docbackend/internal/biz/ask.go:220-240 | the record is updated by every event offered, whether or not it gets through |
| AskLoop.AskSession.StreamChat | docbackend/internal/data/upstream.go:225-335 | what one upstream call comes to, and every event offered by it, up to one that fails |
| AskLoop.AskSession.AnswerCalls | docbackend/internal/biz/ask.go:393-436 | one tool message per call, in order; three events per call, the last with all documents so far, up to one that fails |
| AskLoop.AskSession.Stream | docbackend/internal/biz/ask.go:343-440 | every event offered, every request made and every exit, exactly; each of at most four requests is, message by message, the opening and every turn before it: the reply as it was, and per call a tool message with what its tool gave; the browser is told of each call that it is made, what it gave and all documents so far; what is saved and shown of text and thought is what the turns hold |
| AskRounds.OutcomeRight | docbackend/internal/biz/ask.go:343-440 | an answer if and only if the last completed turn called nothing; quit, failure and interruption if and only if their causes; each turn the upstream reply in its place |
| AskRounds.FailureOnlyCuts | docbackend/internal/biz/ask.go:239-240 | a browser that stops listening only cuts: the events are those of the undisturbed run up to the failing one, the turns its first turns |
| AskRounds.SaidIsResult | docbackend/internal/data/upstream.go:255-272 | the text and thoughts the browser is shown of a reply are the text and the reasoning kept of it |
| AskTurns.RequestsCarry | docbackend/internal/biz/ask.go:373-436 | each request is the opening and all turns before it, message by message |
| AskRounds.AskedTalks | docbackend/internal/biz/ask.go:393-436 | of every call of a turn that was answered the browser is told three things in order, with the very text that goes upstream and all documents found so far |
| AskReply.RecordMeans | docbackend/internal/biz/ask.go:220-264 | the saved answer is the delta texts joined, the thinking the thoughts, the slugs all that were listed, the count one per tool call |
| AskTurns.HistoryPaired | docbackend/internal/biz/ask.go:373-436 | every history sent is well paired on the wire if and only if every call in it had an id |
| AskTurns.UnnamedCallUnpaired | docbackend/internal/biz/ask.go:373-436 | one call without an id makes a history that is not well paired |
| AskTurns.HistoryReasons | docbackend/internal/biz/ask.go:382-391 | every assistant turn sent back has non-empty reasoning |

## Left out

- HTTP server, admin routes, OAuth, cookies, sqlite and GORM access, process spawning: tables are maps, `AUTOINCREMENT` is a counter, the file system is a value, and each failing step is a parameter.
- The `detail` of an image part, which is passed on beside its url.
- JSON parsing, sha1, nanoid and the clock: an abstract validity test with `{}` valid, a key as a pair, ids made from a counter, and timestamps that grow from apply to apply.
- Image materialisation, tool-schema mapping, the wording of notes and logs, provider presets, error-message matching: branching without an invariant behind it.
- Provider selection, settings, retry backoff, argument and dotenv parsing, version comparison, the Go rate limiter and HTML sanitising.
- String lengths count characters, not UTF-16 units; UTF-8 split across network chunks is not modelled.
- A function call whose `arguments` are absent is taken like one whose arguments are empty.
- The rendering of the middle of a conversation as text, and the summariser's answer, are parameters.
- RespToResponses.Translate: does not carry the response's echo of request settings.
- StreamAgreement.StreamAgreesIff: leaves the status out, which a stream that ended calls completed and the one-shot form calls incomplete on `length`.
- StreamToSse.PipeChatStreamToResponses: the peer goes only between chunks, where the original can notice it; events are values, so the original's snapshots sharing one mutable output array are not modelled; heartbeats and the bytes of the wire format are not either.
- ReqToChat.AssemblyLosesNothing: speaks of the assembly before repair; an output cut off from its call by a reasoning item is replaced by a placeholder afterwards.
- TomlMergeLaws.LastWriterWins: asks for one-line names and a block that is a single table without blank lines, as the program builds it.
- CodexRuns.RunsSound: I/O errors, backups in the same millisecond and legacy backup names are not modelled; runs start without backups; manual deletion is modelled as an operation but is no step of a run.
- StatsBackfill.RunsSound: a crash inside a chunk is not a step; the cursor is written outside the row transaction, so exactly-once holds for chunks that run to completion.
- StatsReads.PercentilesFromBuckets: in exact arithmetic; the original multiplies floating-point quantiles.
- Migration.Host.RunMigration: files are below directories by their path; empty directories, links, concurrent changes, and the file system root as a target are not modelled, and the disk is the one after the database is closed.
- AskLoop.AskSession.Stream: rate limiting, question trimming and the search itself are outside; a tool is a function from name and arguments to its result.
