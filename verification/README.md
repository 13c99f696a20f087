# hermes-agent: the conversation-history engine and its neighbours, in Dafny

The agent keeps one growing list of messages. It calls the provider with that
list, runs the tools the reply asks for, appends their results, saves the list
after each step, and shortens it when it gets too long. After a crash it reads
the saved list back and goes on. All of this is safe only as long as every
assistant message with calls is immediately followed by exactly the results of
those calls. This project models that engine step by step and proves, for every
history, every cut, every budget and every environment:

* compression repairs whatever its head cut breaks (`CompressorTheorems`),
* every provider call of every turn, fresh or resumed, sees complete tool blocks
  and every checkpoint can be resumed (`AgentSafety`),
* the record of a turn accounts for everything in it: each request, saved message, tool
  run and compression is what the state rebuilt from the entries before calls for, with
  the messages written out, and the whole record rebuilds the final state (`TurnLaws`),
* a resumption from a checkpoint makes the requests and tool runs that were still to
  come and ends with the answer, history and files of the uninterrupted turn, if and
  only if the saved history is not compressed as soon as it is saved or that
  compression is inert; for a list of crashes, at each of them if and only if this
  holds at each; and after a crash while tools ran if and only if they come to the
  same on what the crash left (`CrashResume`),
* parallel tool execution refines sequential execution, whole calls in any order
  and single steps in any interleaving; and for tools that keep to their own paths
  exactly when no read concerns a written path (`ParallelTheorems`,
  `Interleaving`, `ParallelLimits`, `PathSpelling`); and a whole turn in which the
  calls run together keep to their paths is that of an agent that runs all calls one
  after the other (`SequentialAgent`).

Beside the engine stand the smaller algorithmic cores of the workspace: the
message splitter, memory truncation, streaming tool-call assembly, cron slots,
the managed-agent sync, and the refusals that are printed as text and later read
back.

## How it is built

Each source file that updates state has a class or methods whose contracts equate
the new state with a function of the old one; the theorems are lemmas about those
functions. Beside the theorems, each of these functions is characterised without
naming what it is computed from: by an if-and-only-if with a relation that holds of
one outcome only (`TurnLaws`, `CompressionLaws`, `SyncLaws` and the `...Iff`, `...Means`
and `...Exact` lemmas), in which texts and numbers of the code are written out. Everything the engine asks of the outside (provider, tools, memory,
the summarising model, hash-set iteration order, the order in which concurrent calls
complete) is a function of a clock that advances at each consultation
(`AgentLoop.Env`), so a proof for all environments covers every behaviour over time.
The loop in place and the safety of its turns assume nothing of the tools.
`AgentLoop.Turn` records what an observer can see: checkpoints, provider requests,
tool runs, compressions.

| module | role |
|---|---|
| `Messages`, `Blocks`, `TokenCounter` | messages, tool blocks, the token measure |
| `Sanitizer`, `SanitizerTheorems`, `BlockRepair` | orphan removal and stub insertion on any history |
| `Compressor`, `CompressorTheorems`, `CompressionLaws` | pruning, tail search, cutting, and what compression guarantees and does |
| `PathConflicts`, `IndexSort`, `Parallel`, `ParallelTheorems`, `Interleaving`, `ParallelLimits`, `PathSpelling` | tool scheduling |
| `Budget`, `AgentLoop`, `AgentSafety` | the loop in place, and safety over whole turns |
| `TurnLaws` | what the record of a turn says, entry by entry |
| `SequentialAgent` | when the order of completion shows nowhere in a turn |
| `CrashResume`, `ResumeLimits` | crash recovery, and where it ends |
| `MessageSplit`, `MemoryTruncation`, `ToolAssembler`, `Cron` | the smaller cores |
| `Names`, `AgentSync`, `SyncLaws`, `AgentDiff` | managed agents: YAML, versions, drift |
| `TextSearch`, `RejectionText`, `RejectionPhrases`, `RejectionTheorems`, `PolicyRefusals` | refusals printed and read back |

## What the code does not do

Some statements one might expect are false of the code; each is proved false
with a concrete input or an exact condition.

* A compression that directly followed the checkpoint is lost by a crash. This shows,
  in the next request at the latest, if and only if the saved history ends in a tool
  result, reaches the pressure threshold or the message cap, and compressing it would
  clear or cut something (`CrashResume.CrashAnywhere`, `CrashResume.LostOnResume`);
  later compressions do no harm. `ResumeLimits.CompressionAfterCheckpointDiverges` is
  a run with a different answer.
* A fresh agent does not have the summary that the crashed one held. It can replace
  one in every turn if and only if that one held none
  (`ResumeLimits.FreshAgentSufficesIff`); in a given turn also when no summary is made
  behind the checkpoint or the summariser does not look at the one before
  (`CrashResume.CarriesOver`).
* A fresh agent reads the memory anew. A turn begun with an outdated snapshot of it is
  not recovered (`CrashResume.StaleSnapshotShows`).
* Emitted messages fit the limit exactly while the text has fewer than
  5000·(E+1) characters, E being the limit less the reserved prefix: from there
  on some text of every length does not fit
  (`MessageSplit.FitsExactlyBelow`). A limit of 12 or less makes no progress
  (`MessageSplit.NoProgressWithoutRoom`).
* The admission test for parallel execution looks at writers only. Tools that keep
  to their own paths cannot show the order in which they ran if and only if no read
  concerns a written path (`ParallelLimits.OrderNeverShowsIff`), and the test admits
  batches where one does (`ParallelLimits.ReadMayRaceWrite`).
* The admission test compares paths as spelled, while tools resolve them. It misses an
  overlap, or sees one that is not there, exactly when the components as spelled and as
  resolved disagree (`PathSpelling.TestErrsWhen`): never between spelled-out relative
  paths (`PathSpelling.PlainPathsTell`), but for "notes.txt" and "./notes.txt"
  (`PathSpelling.DotHidesOverlap`) and between an absolute path and a relative one
  (`PathSpelling.AbsoluteAndRelative`).
* A crash while tools run makes the whole batch run again. That goes unnoticed if and
  only if the calls come to the same on the files the crash left
  (`CrashResume.CrashWhileToolsRun`); where they keep to the paths they name, if and
  only if every writer that had taken effect repeats itself
  (`CrashResume.CrashAmidBatch`).
* A user message repairs nothing: pushed on a history with an unfinished block, it
  makes the next request malformed (`AgentSafety.UserTurnSafeIff`).
* A refusal reads back exactly when no blocked server's name passes for the dash
  of an empty list (`RejectionTheorems.RejectionReadsBack`).
* The drift shown beside a sync plan is empty although the plan publishes exactly
  when the recorded and the wanted specification differ only in how their names
  are divided at ", " (`AgentDiff.DriftAgreesWithAction`, `AgentDiff.CommaHidesDrift`).

## Model

| member | source | states |
|---|---|---|
| Blocks.BlocksBeforeBoundary | crates/hermes-agent/src/compressor.rs:78-101 | everything in front of the last boundary at or before a head cut is whole blocks |
| Blocks.CutInsideBlock | crates/hermes-agent/src/compressor.rs:78-101 | a cut elsewhere falls inside exactly the block that starts there |
| Blocks.CutBetweenBlocks | crates/hermes-agent/src/compressor.rs:233-253 | cutting well-formed blocks at a message that is not a tool result leaves whole blocks on both sides |
| Blocks.CoverIsRearrangement | crates/hermes-agent/src/compressor.rs:285-287 | answered and stubbed ids that cover a caller's ids without repetition are exactly a rearrangement of them |
| Messages.PartsRead | crates/hermes-core/src/message.rs:79-91 | the text of a content is that of its text parts, one after the other; images contribute nothing |
| TokenCounter.CountMessage | crates/hermes-agent/src/token_counter.rs:10-21 | the running count ends at the message's token measure |
| TokenCounter.MessageWeight | crates/hermes-agent/src/token_counter.rs:6-21 | what each part of a message adds to its measure: four tokens, and a token for every four bytes begun of text, call name, arguments and reasoning |
| TokenCounter.RequestWeight | crates/hermes-agent/src/token_counter.rs:27-32 | what prompt, each message and each tool add to a request |
| TokenCounter.RequestGrows | crates/hermes-agent/src/token_counter.rs:27-32 | a longer history raises the request estimate by exactly the weight of what was added, at least four tokens a message |
| TokenCounter.HistoryTokensConcat | crates/hermes-agent/src/token_counter.rs:23-25 | the measure of a history is additive, which all token accounting rests on |
| Sanitizer.SanitizeToolPairs | crates/hermes-agent/src/compressor.rs:260-319 | the in-place removal and descending insertions leave the history that orphan-free messages woven with stub runs describe, for any history and any iteration order |
| Sanitizer.SortDescendingSorted | crates/hermes-agent/src/compressor.rs:288-318 | the insertions end up in descending position order, and those for one position keep their order |
| Sanitizer.InsertionStep | crates/hermes-agent/src/compressor.rs:288-318 | inserting at a position no later than all done so far does not move them: one insertion extends the weave |
| Sanitizer.NextInsertion | crates/hermes-agent/src/compressor.rs:288-318 | each step of the descending loop inserts within the list and weaves one stub more |
| Sanitizer.SortedInsertions | crates/hermes-agent/src/compressor.rs:288-318 | sorting the insertions changes neither the run of stubs at any position nor the woven result |
| Sanitizer.FirstIssuerFound | crates/hermes-agent/src/compressor.rs:288-318 | every expected id has a first assistant that issued it |
| Sanitizer.PositionsInRange | crates/hermes-agent/src/compressor.rs:288-318 | every stub goes behind an existing message |
| SanitizerTheorems.SanitizedIds | crates/hermes-agent/src/compressor.rs:260-319 | issued ids are untouched; answers are the surviving ones plus one per missing id |
| SanitizerTheorems.SanitizedIsPaired | crates/hermes-agent/src/compressor.rs:260-319 | for any history, the result ids afterwards are exactly the issued ids: every answered id as often as before, every missing one exactly once |
| SanitizerTheorems.SurvivorsKeepOrder | crates/hermes-agent/src/compressor.rs:260-319 | taking the stubs out again gives the surviving messages in their order |
| SanitizerTheorems.RetainedExact | crates/hermes-agent/src/compressor.rs:269-283 | every message stays, wherever it stands, but a result of a call that nobody made |
| SanitizerTheorems.StubPlacement | crates/hermes-agent/src/compressor.rs:285-318 | each stub stands in the run right behind the first assistant that issued its id, and that run holds only stubs for ids first issued there |
| SanitizerTheorems.SanitizedIsIdentity | crates/hermes-agent/src/compressor.rs:260-319 | nothing changes if and only if the history was already paired |
| SanitizerTheorems.SanitizedIsIdempotent | crates/hermes-agent/src/compressor.rs:260-319 | a second repair changes nothing, whatever the iteration orders |
| BlockRepair.WellFormedIsPaired | crates/hermes-agent/src/compressor.rs:285-287 | complete tool blocks are paired |
| BlockRepair.MissingFromPartialBlock | crates/hermes-agent/src/compressor.rs:260-319 | after a cut, the missing ids are exactly those the split block no longer answers |
| BlockRepair.RepairPartialBlock | crates/hermes-agent/src/compressor.rs:260-319 | repairing blocks, a split block and blocks touches the split block only, and completes it |
| BlockRepair.CompletedIsUnit | crates/hermes-agent/src/compressor.rs:285-318 | a split block with its stubs is a complete block again |
| Compressor.PruneToolResults | crates/hermes-agent/src/compressor.rs:126-150 | overwriting in place truncates long tool results in front of the token boundary and nothing else |
| Compressor.FindTailStart | crates/hermes-agent/src/compressor.rs:218-256 | the backward scan, the three-message minimum and the realignment give the specified tail start |
| Compressor.FindIssuer | crates/hermes-agent/src/compressor.rs:240-253 | the realignment finds the nearest earlier assistant that issued the id |
| Compressor.PressurePersists | crates/hermes-agent/src/compressor.rs:64-69 | once due, compression stays due while the history grows, and it is due at the latest at a quarter as many messages as the threshold |
| Compressor.ContextCompressor.Summarize | crates/hermes-agent/src/compressor.rs:154-213 | the summary, or its fallback, becomes the next call's previous summary |
| Compressor.ContextCompressor.Run | crates/hermes-agent/src/compressor.rs:72-122 | the in-place compression yields the history, result and previous summary of `Compress` |
| CompressorTheorems.BoundaryIsLast | crates/hermes-agent/src/compressor.rs:126-136 | the token boundary is the last place from which the rest reaches the budget |
| CompressorTheorems.PruningSaves | crates/hermes-agent/src/compressor.rs:126-150 | pruning never raises the token count, and keeps it only if it changed nothing |
| CompressorTheorems.ScansAgree | crates/hermes-agent/src/compressor.rs:218-231 | the scan after pruning finds the boundary that pruning itself used |
| CompressorTheorems.PruningKeepsBlocks | crates/hermes-agent/src/compressor.rs:126-150 | pruning keeps length, roles, calls and ids, hence the blocks |
| CompressorTheorems.AlignedBetweenBlocks | crates/hermes-agent/src/compressor.rs:240-253 | realignment leads to a message that is not a tool result |
| CompressorTheorems.TailStartsBetweenBlocks | crates/hermes-agent/src/compressor.rs:218-256 | the tail starts between two blocks, for every budget |
| CompressorTheorems.RepairAfterCut | crates/hermes-agent/src/compressor.rs:97-108 | after any head cut, the repair gives the completed head, the summary and the untouched tail, well-formed |
| CompressorTheorems.CompressionKeepsBlocks | crates/hermes-agent/src/compressor.rs:72-122 | main result: compression preserves well-formed blocks for every head size, budget and summary |
| CompressorTheorems.CompressionShape | crates/hermes-agent/src/compressor.rs:78-121 | the result is the pruned head with stubs only, one summary, the pruned tail; exact length and token accounting; no more stubs than messages removed |
| CompressorTheorems.StubsWithinRemoved | crates/hermes-agent/src/compressor.rs:288-318 | stubs never outnumber the removed messages, and none arise when the cut is between blocks |
| CompressorTheorems.CompressionKeepsTail | crates/hermes-agent/src/compressor.rs:80-112 | every suffix behind the tail start survives unchanged |
| CompressorTheorems.CompressionKeepsNewest | crates/hermes-agent/src/compressor.rs:233-253 | at least the three newest messages survive, and those behind the token boundary keep their text |
| CompressorTheorems.NothingIsCut | crates/hermes-agent/src/compressor.rs:85-92 | below the budget only pruning happens |
| CompressionLaws.PruningClears | crates/hermes-agent/src/compressor.rs:126-150 | exactly the tool results of more than 200 bytes are cleared behind which the budget is reached, or in all if it never is; everything else about every message stays |
| CompressionLaws.TailIffStart | crates/hermes-agent/src/compressor.rs:218-256 | on complete blocks, the tail is the shortest that begins with no tool result, holds three messages and reaches the budget, and nothing else is |
| CompressionLaws.NearestIssuer | crates/hermes-agent/src/compressor.rs:240-253 | on any history, realignment goes back to the nearest message that made the call |
| CompressionLaws.CompressionMeans | crates/hermes-agent/src/compressor.rs:72-122 | main result: head as asked for, stubs for the calls whose results went, one wrapped summary, tail; nothing else is put in or changed, and the numbers reported are those |
| Budget.IterationBudget.constructor | crates/hermes-agent/src/budget.rs:15-20 | a fresh budget is full |
| Budget.IterationBudget.TryConsume | crates/hermes-agent/src/budget.rs:25-31 | one turn is taken if one is left, otherwise nothing changes |
| Budget.IterationBudget.Refund | crates/hermes-agent/src/budget.rs:34-36 | turns come back up to the maximum |
| PathConflicts.HasPathConflicts | crates/hermes-agent/src/parallel.rs:127-144 | true if and only if two positions hold paths of which one is the other or lies under it, by components |
| PathConflicts.UnderIsTextual | crates/hermes-agent/src/parallel.rs:127-144 | the component test is equality or textual prefix up to a slash |
| PathConflicts.ConflictingByContents | crates/hermes-agent/src/parallel.rs:127-144 | whether paths conflict depends only on which paths occur how often |
| PathConflicts.ConflictsIgnoreOrder | crates/hermes-agent/src/parallel.rs:127-144 | hence the test does not depend on the order of the list |
| Parallel.ShouldParallelize | crates/hermes-agent/src/parallel.rs:81-124 | true if and only if there are two calls, none asks the user or is exclusive, and no two that may write overlap |
| Parallel.AdmittedIff | crates/hermes-agent/src/parallel.rs:81-124 | the calls are admitted if and only if there are two, none asks the user or is exclusive, and no two that may write overlap |
| Parallel.ExecuteSequential | crates/hermes-agent/src/parallel.rs:220-258 | results and files of running the calls in order |
| Parallel.ExecuteParallel | crates/hermes-agent/src/parallel.rs:149-217 | for every completion order, results sorted by index, and files, of running the calls in that order |
| IndexSort.SortByIndexSorts | crates/hermes-agent/src/parallel.rs:214-216 | the sort is a rearrangement in ascending index order |
| Parallel.SortRestoresOrder | crates/hermes-agent/src/parallel.rs:214-216 | sorting results collected in any order puts the k-th call's result at position k |
| Parallel.OneResultPerCall | crates/hermes-agent/src/parallel.rs:149-217 | exactly one result per call, in call order, with its id and tool name |
| Parallel.SequenceIff | crates/hermes-agent/src/parallel.rs:220-258 | sequential execution is the only outcome in which each call acts on the files the call before left and its answer stands at its place |
| Parallel.AtOnceIff | crates/hermes-agent/src/parallel.rs:149-217 | the same for concurrent execution, in the order of completion |
| ParallelTheorems.WriterRegionsDisjoint | crates/hermes-agent/src/parallel.rs:81-124 | no file lies under two admitted writers' paths |
| ParallelTheorems.AnyOrderRunsAlone | crates/hermes-agent/src/parallel.rs:149-217 | in any order each call sees its region as at the start: every result and every file is as if the call ran alone |
| ParallelTheorems.OrdersLeaveSameFiles | crates/hermes-agent/src/parallel.rs:149-217 | all completion orders leave the same file map |
| ParallelTheorems.ResultsRunAlone | crates/hermes-agent/src/parallel.rs:149-217 | every result is the one its call gives on the original files |
| ParallelTheorems.ParallelRefinesSequential | crates/hermes-agent/src/parallel.rs:149-258 | main result: for every completion order, results and files are those of sequential execution |
| ParallelTheorems.StatelessOrder | crates/hermes-agent/src/parallel.rs:149-217 | tools that depend on their call only give the same results in every order |
| Interleaving.WholeKeepsToPaths | crates/hermes-agent/src/parallel.rs:149-217 | tools whose steps keep to their paths keep to them as a whole |
| Interleaving.InterleavedAsAlone | crates/hermes-agent/src/parallel.rs:149-217 | at any point of any interleaving each call stands where it would stand alone, in its state and in its region of the files |
| Interleaving.InterleavingRefinesSequential | crates/hermes-agent/src/parallel.rs:149-258 | main result: for every interleaving of the steps of admitted calls, results and files are those of sequential execution |
| ParallelLimits.OrderNeverShowsIff | crates/hermes-agent/src/parallel.rs:81-124 | for calls whose written paths do not conflict no tool that keeps to its own path can show the order, if and only if no read concerns a path overlapping a written one |
| ParallelLimits.ReadMayRaceWrite | crates/hermes-agent/src/parallel.rs:97-124 | a write and a read of one path are admitted together |
| ParallelLimits.BehindCrash | crates/hermes-agent/src/parallel.rs:149-217 | what each call does when some calls of the batch had taken effect before a crash |
| ParallelLimits.RerunAfterCrash | crates/hermes-agent/src/loop_runner.rs:279-308 | running a batch again after a crash in the middle gives the files and results of an uninterrupted run if and only if every writer that had taken effect repeats itself |
| PathSpelling.OrderNeverTellsIff | crates/hermes-agent/src/parallel.rs:81-124 | for any calls and any way of resolving paths: tools that keep to the places they resolve cannot show the order, if and only if no write and no other call concern overlapping places |
| PathSpelling.LexicalLaws | crates/hermes-tools/src/path_utils.rs:6-18 | the place that components name: empty ones and "." count for nothing, ".." takes back the one before, spelled-out ones stay |
| PathSpelling.PlacesOverlapIff | crates/hermes-tools/src/path_utils.rs:6-18 | places that two spellings name from a directory overlap exactly when one list of resolved components begins with the other |
| PathSpelling.TestErrsWhen | crates/hermes-agent/src/parallel.rs:127-144 | for any two spellings, the test misses an overlap, or sees one that is not there, exactly when components as spelled and as resolved disagree on it |
| PathSpelling.AbsoluteAndRelative | crates/hermes-tools/src/path_utils.rs:6-18 | between an absolute and a relative path the test never sees an overlap, and exactly when it misses one |
| PathSpelling.PlainPathsTell | crates/hermes-tools/src/path_utils.rs:6-18 | resolved against any directory, spelled-out relative paths overlap exactly when their spellings do |
| PathSpelling.DotHidesOverlap | crates/hermes-tools/src/path_utils.rs:6-18 | two spellings of one place that the test finds apart |
| AgentLoop.Agent.constructor | crates/hermes-agent/src/loop_runner.rs:164-204 | a new agent has a full budget, no previous summary and an up-to-date snapshot of the memory |
| AgentLoop.Agent.RunCalls | crates/hermes-agent/src/loop_runner.rs:279-296 | admitted calls run at the same time and complete in the order of that moment, others one after the other; results in call order, and files, are those of that |
| AgentLoop.Agent.ExecuteToolCalls | crates/hermes-agent/src/loop_runner.rs:279-308 | the new state is that behind the executed calls: one result message per call is appended and checkpointed, files and snapshot are updated; a successful memory write is reported |
| AgentLoop.Agent.DoCompression | crates/hermes-agent/src/loop_runner.rs:533-578 | the state becomes the compacted one; the prompt is rebuilt only when something was compressed |
| AgentLoop.Agent.PostToolExecutionMaintenance | crates/hermes-agent/src/loop_runner.rs:310-355 | prompt refresh, compression under pressure and the 500-message cap, in that order |
| AgentLoop.Agent.LoopBody | crates/hermes-agent/src/loop_runner.rs:401-494 | one turn of the loop ends the run or leads to the state the rest of the run starts from |
| AgentLoop.Agent.Loop | crates/hermes-agent/src/loop_runner.rs:401-507 | the loop terminates with outcome, state, budget and observations of `RunLoop` |
| AgentLoop.Agent.RunConversationInner | crates/hermes-agent/src/loop_runner.rs:357-507 | a whole turn in place does exactly what `Turn` says |
| TurnLaws.ToolRunIff | crates/hermes-agent/src/loop_runner.rs:279-290 | what a batch does is decided by admission and the order of completion |
| TurnLaws.InSequenceWhen | crates/hermes-agent/src/parallel.rs:81-124 | a single call, an exclusive tool, a question to the user or writes that meet: the calls run in order, whatever the tools do |
| TurnLaws.ExecutedAppends | crates/hermes-agent/src/loop_runner.rs:279-308 | each call appends one message with what its tool said, under its own id and name; the files are those left; a successful memory write refreshes the snapshot |
| TurnLaws.SingleCall | crates/hermes-agent/src/loop_runner.rs:279-308 | a single call appends exactly what its tool answers on the files at hand |
| TurnLaws.CompactedMeans | crates/hermes-agent/src/loop_runner.rs:533-578 | what the summarising model is given, and when memory and prompt are renewed |
| TurnLaws.TurnIsRecord | crates/hermes-agent/src/loop_runner.rs:357-528 | main result: in every turn each entry of the record is what the state rebuilt from the entries before it calls for, and what must follow it follows; the record rebuilds the final state |
| TurnLaws.TurnSpends | crates/hermes-agent/src/loop_runner.rs:401-507 | provider calls and what is left make up the budget exactly; an answer is the text of the last message; exhausted means nothing is left |
| AgentSafety.UnansweredExact | crates/hermes-agent/src/loop_runner.rs:68-93 | pending are exactly the calls without a result |
| AgentSafety.UnansweredInOrder | crates/hermes-agent/src/loop_runner.rs:68-93 | pending calls keep their order: those of two stretches of calls come one stretch after the other |
| AgentSafety.PendingAtEnd | crates/hermes-agent/src/loop_runner.rs:68-93 | the last caller decides what is pending as long as only tool messages follow it |
| AgentSafety.WellFormedHasNothingPending | crates/hermes-agent/src/loop_runner.rs:68-93 | complete blocks leave nothing pending |
| AgentSafety.NothingPendingIffWellFormed | crates/hermes-agent/src/loop_runner.rs:68-93 | on a resumable history nothing is pending if and only if all blocks are complete |
| AgentSafety.BoundaryClassifies | crates/hermes-agent/src/loop_runner.rs:103-139 | the boundary's kind and safe action say exactly whether calls are unanswered, the turn is complete, or the provider is next |
| AgentSafety.PendingCallsComplete | crates/hermes-agent/src/loop_runner.rs:279-308 | running what is pending turns a resumable history into a well-formed one |
| AgentSafety.ReplyIsResumable | crates/hermes-agent/src/loop_runner.rs:465-475 | pushing a reply leaves a resumable history whose pending calls are the reply's |
| AgentSafety.MaintenanceKeepsBlocks | crates/hermes-agent/src/loop_runner.rs:310-355 | refresh, pressure compression and forced compression all keep the blocks |
| AgentSafety.ToolPhaseIsSafe | crates/hermes-agent/src/loop_runner.rs:279-355 | running pending calls checkpoints a resumable history and ends well-formed, without a provider call |
| AgentSafety.LoopIsSafe | crates/hermes-agent/src/loop_runner.rs:401-507 | from any resumable history, every request is well-formed, every checkpoint resumable, and provider calls plus what is left stay within the budget |
| AgentSafety.TurnIsSafe | crates/hermes-agent/src/loop_runner.rs:357-528 | main result: the same for whole turns, fresh or resumed |
| AgentSafety.UserTurnSafeIff | crates/hermes-agent/src/loop_runner.rs:357-400 | all requests of a user turn are well-formed if and only if the history it was pushed on was |
| SequentialAgent.BatchInSequence | crates/hermes-agent/src/parallel.rs:149-258 | calls that keep to their paths do, completing in any order, what they do one after the other |
| SequentialAgent.TurnRefinesSequential | crates/hermes-agent/src/loop_runner.rs:357-528 | main result: a turn whose batches keep to their paths is, in outcome, state and everything observed, the turn of an agent that runs all calls one after the other |
| CrashResume.QuietAfterPending | crates/hermes-agent/src/loop_runner.rs:68-139 | once pending calls are answered the loop goes straight to the provider |
| CrashResume.SameLoop | crates/hermes-agent/src/loop_runner.rs:401-507 | where nothing is pending, runs on the same history and files do the same, compressions included, whether resuming or not, at any clock and with any larger budget |
| CrashResume.SameProviderPhase | crates/hermes-agent/src/loop_runner.rs:434-494 | the same from a provider call on |
| CrashResume.SequentialIsSteady | crates/hermes-agent/src/parallel.rs:220-258 | calls that are not admitted to run at the same time come out the same at any time |
| CrashResume.ConfinedIsSteady | crates/hermes-agent/src/parallel.rs:149-217 | so do admitted calls that keep to the paths they name, whatever the order of completion |
| CrashResume.ResumeFinalAnswer | crates/hermes-agent/src/loop_runner.rs:403-413 | a checkpointed final answer is returned with no provider call and no tool run |
| CrashResume.CrashBeforeTools | crates/hermes-agent/src/loop_runner.rs:279-308 | a crash between a reply and its results is made up by running the pending calls, if they come to the same on the files it left |
| CrashResume.CrashAfterTools | crates/hermes-agent/src/loop_runner.rs:279-308 | a crash after the results were saved goes on with the provider call |
| CrashResume.CrashInToolTurn | crates/hermes-agent/src/loop_runner.rs:401-507 | what a crash at any checkpoint comes to in a stretch that runs pending calls |
| CrashResume.CrashInProviderPhase | crates/hermes-agent/src/loop_runner.rs:401-507 | the same from a provider call on |
| CrashResume.ResultsCompressWhen | crates/hermes-agent/src/loop_runner.rs:310-355 | saved results are compressed at once exactly when they are too heavy or too long, and what follows finds them as they were exactly when that is not so or the compression is inert |
| CrashResume.CompactedKeeps | crates/hermes-agent/src/compressor.rs:78-92 | a compression leaves no trace if and only if it clears nothing and cuts nothing; one that makes no summary but changes something makes the history lighter |
| CrashResume.ShortHistoryIsInert | crates/hermes-agent/src/compressor.rs:84-89 | histories no longer than the protected head and tail together are never cut |
| CrashResume.ToolPhaseStaysCurrent | crates/hermes-agent/src/loop_runner.rs:319-331 | the prompt in use stays the one that a fresh agent would build from the files |
| CrashResume.ToolPhaseHolds | crates/hermes-agent/src/loop_runner.rs:279-355 | the summary held and the files after tools ran are those that the events tell |
| CrashResume.CompressionFollowsWhen | crates/hermes-agent/src/loop_runner.rs:310-355 | whether a compression follows a checkpoint can be told from the saved history and the files |
| CrashResume.LostShows | crates/hermes-agent/src/loop_runner.rs:310-355 | a compression that made a summary or changed the history shows, in itself or in the next request |
| CrashResume.LostNeverRecovers | crates/hermes-agent/src/loop_runner.rs:357-528 | no summary given to the resumption makes up for a lost compression |
| CrashResume.CrashAnywhere | crates/hermes-agent/src/loop_runner.rs:357-528 | main result: resuming from any checkpoint of any turn makes the requests, tool runs, checkpoints and summaries that were left and ends with the same answer, history and files, if and only if the saved history is not compressed at once or that compression is inert |
| CrashResume.CrashWithSummary | crates/hermes-agent/src/loop_runner.rs:357-528 | the same when the resumption is given the summary held, however much is compressed later |
| CrashResume.CrashOfFreshAgent | crates/hermes-agent/src/loop_runner.rs:357-528 | the same for a fresh agent when no summary was held at the checkpoint |
| CrashResume.CrashWhileToolsRun | crates/hermes-agent/src/loop_runner.rs:279-308 | after a crash while calls ran, whatever files it left, the resumption recovers if and only if the calls come to the same on them |
| CrashResume.CrashAmidBatch | crates/hermes-agent/src/loop_runner.rs:279-308 | for calls that keep to their paths that is so if and only if every writer that had taken effect repeats itself |
| CrashResume.StaleSnapshotShows | crates/hermes-agent/src/loop_runner.rs:376-384 | a turn begun with an outdated snapshot of the memory is not recovered by a fresh agent |
| CrashResume.EachRecoversIff | crates/hermes-agent/src/loop_runner.rs:357-528 | a turn that crashes again and again recovers every time if and only if no crash loses a compression |
| CrashResume.ManyCrashes | crates/hermes-agent/src/loop_runner.rs:357-528 | if it recovers every time, it ends with the answer, history and files of the turn that never crashed |
| CrashResume.ResumeRunsOnlyUnanswered | crates/hermes-agent/src/loop_runner.rs:68-93 | resuming first runs exactly the unanswered calls, in call order; answered ones are not run again |
| ResumeLimits.CompressionAfterCheckpointDiverges | crates/hermes-agent/src/loop_runner.rs:310-355 | a turn whose results were saved and then compressed, and whose resumption answers differently |
| ResumeLimits.MissingSummaryDiverges | crates/hermes-agent/src/compressor.rs:154-213 | for every held summary, a turn whose resumption answers the same with it and differently without it |
| ResumeLimits.FreshAgentSufficesIff | crates/hermes-agent/src/compressor.rs:154-213 | a fresh agent can replace one in every turn if and only if that one held no summary |
| MessageSplit.SplitMessage | crates/hermes-gateway/src/message_split.rs:9-63 | the loop and the numbering give the specified chunks and prefixes |
| MessageSplit.NoProgressWithoutRoom | crates/hermes-gateway/src/message_split.rs:14-54 | a chunk of a long text is empty if and only if the limit is 12 or less |
| MessageSplit.ChunksConcat | crates/hermes-gateway/src/message_split.rs:19-54 | the chunks are non-empty, within the limit and concatenate to the text |
| MessageSplit.ChunksIff | crates/hermes-gateway/src/message_split.rs:19-54 | the chunks are the only division of the text in which each chunk ends behind the last newline of its window, or fills a window without one |
| MessageSplit.MessagesMean | crates/hermes-gateway/src/message_split.rs:9-63 | main result: a text within the limit is sent as it is, a longer one as the numbered chunks of that division, twelve characters reserved |
| MessageSplit.NeighboursExceed | crates/hermes-gateway/src/message_split.rs:19-54 | two neighbouring chunks together exceed the limit |
| MessageSplit.ChunkCountBound | crates/hermes-gateway/src/message_split.rs:19-54 | half the number of chunks times E+1 is at most the length of the text |
| MessageSplit.DecimalLength | crates/hermes-gateway/src/message_split.rs:56-62 | a number has at most d digits if and only if it is below ten to the d |
| MessageSplit.ShortTextsFit | crates/hermes-gateway/src/message_split.rs:9-63 | every message, prefix included, fits while the text is shorter than 5000·(E+1) |
| MessageSplit.DenseTextDoesNotFit | crates/hermes-gateway/src/message_split.rs:9-63 | for every length from there on, some text has a message that does not fit |
| MessageSplit.FitsExactlyBelow | crates/hermes-gateway/src/message_split.rs:9-63 | the bound is exact: all texts of a length fit if and only if it is below 5000·(E+1) |
| MessageSplit.ValueOfDecimal | crates/hermes-gateway/src/message_split.rs:56-62 | printed numbers read back |
| MessageSplit.RoundTrip | crates/hermes-gateway/src/message_split.rs:19-62 | stripping each prefix at the first closing mark and concatenating gives the text; the k-th of N messages reads "k" and "N" |
| MemoryTruncation.TruncateEntries | crates/hermes-memory/src/builtin.rs:11-41 | the reverse accumulation gives the kept entries joined |
| MemoryTruncation.JoinOfEntries | crates/hermes-memory/src/builtin.rs:11-41 | joining the split gives the content back, however the separator overlaps itself |
| MemoryTruncation.EntriesIff | crates/hermes-memory/src/builtin.rs:11-41 | the entries are the only list that joins to the content and holds no separator but those between entries, overlaps included |
| MemoryTruncation.EntriesOfSuffix | crates/hermes-memory/src/builtin.rs:11-41 | trailing entries, joined, split into exactly those entries again |
| MemoryTruncation.KeptStartIsLeast | crates/hermes-memory/src/builtin.rs:24-37 | the loop stops at the least start whose join fits |
| MemoryTruncation.FitsFrom | crates/hermes-memory/src/builtin.rs:24-37 | exactly the suffixes from the kept start on fit |
| MemoryTruncation.FittingContentIsKept | crates/hermes-memory/src/builtin.rs:12-14 | the early return agrees with what the loop would give |
| MemoryTruncation.TruncationKeepsNewest | crates/hermes-memory/src/builtin.rs:11-41 | main result: the result fits, is a suffix of the content, holds the most trailing entries that fit, and splits into exactly those |
| ToolAssembler.ToolCallAssembler.Start | crates/hermes-provider/src/tool_assembler.rs:31-40 | the start is recorded |
| ToolAssembler.ToolCallAssembler.AppendArguments | crates/hermes-provider/src/tool_assembler.rs:45-49 | the fragment is recorded, with no effect at an index that was not started |
| ToolAssembler.ToolCallAssembler.Finish | crates/hermes-provider/src/tool_assembler.rs:55-76 | the calls assembled from the whole trace, in ascending index order whatever the drain order, and an empty assembler |
| ToolAssembler.GatheredExtends | crates/hermes-provider/src/tool_assembler.rs:31-49 | last start plus the fragments behind it is what one more delta updates |
| ToolAssembler.AssembledPerIndex | crates/hermes-provider/src/tool_assembler.rs:31-49 | the pending map at an index is what the trace's projection to that index gathers |
| ToolAssembler.ItemsPerIndex | crates/hermes-provider/src/tool_assembler.rs:55-76 | finishing yields the started indices once each, ascending, each with its projection's call |
| ToolAssembler.FinishedCalls | crates/hermes-provider/src/tool_assembler.rs:55-76 | each started index gives one call with its last start's id and name and the arguments parsed from the text behind that start, wrapped only if they do not parse |
| ToolAssembler.InterleavingIrrelevant | crates/hermes-provider/src/tool_assembler.rs:31-76 | main result: traces with equal projections give equal calls |
| Cron.JobStore.Create | crates/hermes-cron/src/store.rs:63-67 | the job is appended |
| Cron.JobStore.Update | crates/hermes-cron/src/store.rs:69-81 | the first job of that id is replaced, and whether there was one |
| Cron.UpdatedAt | crates/hermes-cron/src/store.rs:69-81 | of the jobs with that id the first one is replaced, and nothing else |
| Cron.JobStore.Remove | crates/hermes-cron/src/store.rs:83-90 | all jobs of that id are gone, and whether there was one |
| Cron.WithoutExact | crates/hermes-cron/src/store.rs:83-90 | every job stays, wherever it stands, but those of the id |
| Cron.CronScheduler.MarkCompleted | crates/hermes-cron/src/scheduler.rs:293-330 | the job's record after a run is written |
| Cron.CronScheduler.Tick | crates/hermes-cron/src/scheduler.rs:57-122 | the loop over the job snapshot gives the store and executions of `TickJobs` |
| Cron.TickPerJob | crates/hermes-cron/src/scheduler.rs:57-122 | a tick changes each job as if it were alone |
| Cron.TickRunsOnce | crates/hermes-cron/src/scheduler.rs:57-122 | a tick executes a job once if it is enabled and its time has come, for that time, and otherwise not at all |
| Cron.NextTick | crates/hermes-cron/src/scheduler.rs:57-122 | what one more tick adds to a run, job by job |
| Cron.IntervalRunsEverySlotOnce | crates/hermes-cron/src/scheduler.rs:293-330 | main result: over any ticks the j-th execution is for slot first + j·I, at a tick no earlier than the slot, and the next slot is the one after |
| Cron.IntervalRunBound | crates/hermes-cron/src/job.rs:88-106 | up to time t at most (t − first)/I + 1 executions happen, none before the first slot |
| Cron.IntervalRunsCatchUp | crates/hermes-cron/src/scheduler.rs:57-122 | m ticks at or after slot m−1 give at least m executions |
| Cron.OnceRunsAtMostOnce | crates/hermes-cron/src/scheduler.rs:293-330 | a one-off job runs at most once and is then disabled |
| Cron.LastRunIsRecorded | crates/hermes-cron/src/scheduler.rs:293-330 | over any ticks a job carries time, status and error of its last run, and is untouched if it never ran; one to run once is then disabled |
| Cron.CronExprFollows | crates/hermes-cron/src/scheduler.rs:293-330 | over any ticks a job with a cron expression runs for its first slot and then for the slot the expression gives behind the end of each run |
| Names.NormalizeNamesNormal | crates/hermes-managed/src/yaml.rs:353-360 | the list becomes strictly ascending, trimmed, free of blanks, and holds exactly the trimmed names |
| Names.NormalizeNamesIdempotent | crates/hermes-managed/src/yaml.rs:353-360 | a canonical list stays as it is |
| Names.TrimIff | crates/hermes-managed/src/yaml.rs:353-360 | trimming takes exactly the blanks off both ends |
| Names.LineEndsTrimmed | crates/hermes-managed/src/yaml.rs:88-91 | exactly the line ends behind the prompt go |
| Names.LessEqByCharacter | crates/hermes-managed/src/yaml.rs:353-360 | names are sorted as in a dictionary |
| AgentSync.NormalizeFieldsIdempotent | crates/hermes-managed/src/yaml.rs:79-97 | normalising twice is normalising once |
| AgentSync.DefaultsAreFixed | crates/hermes-managed/src/publish.rs:24-52 | a specification with defaults filled in is canonical: neither normalisation nor defaults change it again |
| AgentSync.VersionRoundTrip | crates/hermes-managed/src/yaml.rs:145-195 | the version recorded from a canonical specification gives that specification back |
| SyncLaws.AcceptedIff | crates/hermes-managed/src/yaml.rs:99-143 | a specification is refused with the first fault it has, and accepted if it has none: what is given before what is configured, everything else as given, in canonical form |
| AgentSync.RenderedMetadata | crates/hermes-managed/src/yaml.rs:335-343 | the hash written into the first line is the one read out |
| AgentSync.PlanFacts | crates/hermes-cli/src/agents.rs:500-562 | what each action of a plan says about agent, version and hashes |
| AgentSync.PlanOnRendered | crates/hermes-cli/src/agents.rs:500-562 | planning on a rewritten file with an equal latest version does nothing and agrees on all hashes |
| SyncLaws.PlannedIff | crates/hermes-cli/src/agents.rs:500-562 | when there is a plan and what hashes it carries, and otherwise why there is none |
| SyncLaws.AppliedStoreFrame | crates/hermes-cli/src/agents.rs:564-621 | applying a plan touches no other agent and adds at most the agent and one version, with every field wanted, behind those there are |
| SyncLaws.FirstMetadataLine | crates/hermes-managed/src/yaml.rs:335-343 | the first line that holds a hash decides, all others are passed over |
| SyncLaws.RenderedText | crates/hermes-managed/src/yaml.rs:168-177 | a rewritten file holds the hash on its first line and the serialised specification behind it |
| AgentSync.SyncTarget.WriteSyncMetadata | crates/hermes-cli/src/agents.rs:623-630 | the file becomes the canonical text with its hash, or stays when the specification is invalid |
| AgentSync.SyncTarget.ApplySyncPlan | crates/hermes-cli/src/agents.rs:564-621 | store and file after a plan, also when the model preflight refuses |
| AgentSync.SyncConverges | crates/hermes-cli/src/agents.rs:500-630 | main result: applying any plan and planning again gives no action, the same specification and three equal hashes |
| AgentSync.RetryAfterRefusedPreflight | crates/hermes-cli/src/agents.rs:564-621 | after a refused preflight the next plan publishes the same specification |
| AgentSync.RepairAfterLostWrite | crates/hermes-cli/src/agents.rs:564-630 | when the version was stored but the file write was lost, the next plan writes the metadata only, or nothing if it was right |
| AgentDiff.CutOfJoined | crates/hermes-managed/src/yaml.rs:377-383 | cutting a joined list at ", " gives its names, each cut |
| AgentDiff.RenderListTells | crates/hermes-managed/src/yaml.rs:377-383 | two lists render alike if and only if their names fall into the same pieces |
| AgentDiff.NothingListedIff | crates/hermes-managed/src/yaml.rs:197-288 | no field is listed if and only if there is a version and nothing differs but how names are divided |
| AgentDiff.ChangesAreListed | crates/hermes-managed/src/yaml.rs:197-288 | exactly the fields that differ are listed, each once, in their order |
| AgentDiff.DriftAgreesWithAction | crates/hermes-cli/src/agents.rs:525-549 | a plan that publishes nothing shows no drift; one that publishes shows none if and only if only the division of names differs |
| AgentDiff.CommaHidesDrift | crates/hermes-cli/src/agents.rs:525-549 | a store and a file for which the plan publishes and the drift shown is empty |
| AgentDiff.DriftCanBeHidden | crates/hermes-cli/src/agents.rs:525-549 | codec, configuration, store and file with such a plan exist |
| TextSearch.AfterFirst | crates/hermes-managed/src/filtered_registry.rs:626-629 | a phrase ruled out in front of a place is first found there |
| TextSearch.StopsThere | crates/hermes-managed/src/filtered_registry.rs:630-645 | a list is read up to the first parenthesis or semicolon |
| TextSearch.JoinedNames | crates/hermes-managed/src/filtered_registry.rs:630-645 | splitting a joined list at commas and trimming gives its names back |
| TextSearch.ListRefutes | crates/hermes-managed/src/filtered_registry.rs:618-624 | a printed list of blank-free names cannot be taken for part of a phrase, whatever else the names hold |
| RejectionPhrases.NoPolicyCode | crates/hermes-managed/src/filtered_registry.rs:903-924 | no capability message contains any phrase of the other refusals |
| RejectionPhrases.OtherVerbAbsent | crates/hermes-managed/src/filtered_registry.rs:925-955 | two capability messages with different verbs do not contain each other's phrase |
| RejectionPhrases.SingleDash | crates/hermes-managed/src/filtered_registry.rs:930-939 | "capability: -" is printed if and only if the blocked list begins with a dash |
| RejectionPhrases.ListReadBack | crates/hermes-managed/src/filtered_registry.rs:618-645 | a printed list reads back if and only if it is not the single name "-" |
| RejectionTheorems.SingleLists | crates/hermes-managed/src/filtered_registry.rs:647-696 | the tools and blocked servers read out of a one-capability message are the printed ones |
| RejectionTheorems.BothDash | crates/hermes-managed/src/filtered_registry.rs:925-929 | each dash test on a two-capability message speaks of its own list only |
| RejectionTheorems.PromptServersRead | crates/hermes-managed/src/filtered_registry.rs:683-694 | the first occurrence of the prompt prefix is the printed one |
| RejectionTheorems.ResourceServersRead | crates/hermes-managed/src/filtered_registry.rs:683-694 | the resource prefix is not found in the prompt list's prefix |
| RejectionTheorems.MessageReadsBack | crates/hermes-managed/src/filtered_registry.rs:530-581 | for each of the four messages, the code reads back if and only if the lists tell none from some, and the lists if and only if none is "-" |
| RejectionTheorems.RejectionReadsBack | crates/hermes-managed/src/filtered_registry.rs:861-980 | main result: the rejection read from the message is the structured one, up to lists that are not printed, if and only if no printed list passes for a dash |
| RejectionTheorems.UndashedReadsBack | crates/hermes-managed/src/filtered_registry.rs:806-858 | for names that do not begin with a dash reading always succeeds, and loses just the blocked servers of a capability that is not missing |
| PolicyRefusals.PolicyReadsBack | crates/hermes-managed/src/filtered_registry.rs:903-924 | main result: each of the nine refusals of operator policy, as printed, is read back with its own code, whatever tools and servers it names |
| PolicyRefusals.RefusalNames | crates/hermes-managed/src/filtered_registry.rs:130-147 | each of them names the tools it is about, and the servers where it is about those |
| PolicyRefusals.InvalidReadsBack | crates/hermes-managed/src/filtered_registry.rs:956-963 | complaints about the policy itself are read back as such |
| PolicyRefusals.RequestedAreListed | crates/hermes-managed/src/filtered_registry.rs:861-895 | the reader sorts the requested tools into read-only, with side effects and dynamic, each once and in order, and fails exactly without a known phrase or without any such tool |
| PolicyRefusals.VerdictMeans | crates/hermes-managed/src/filtered_registry.rs:356-393 | which unavailable tools are about prompts and which about resources, and the servers kept out by the allowlist, decide code and attribution |
| PolicyRefusals.ServersNamed | crates/hermes-managed/src/filtered_registry.rs:530-581 | the message names the servers that were asked |

## Left out

- Provider HTTP and streaming transports, MCP connections, Signet audit, SQLite, file locks and file writes: the provider is a function, stores are sequences and maps.
- Thresholds computed from floating-point ratios: the compressor takes the resulting token counts.
- The text of the summarising prompt and the serialisation of messages into it: the summariser is a function of previous summary, messages and memory contribution.
- Prompt-cache segments, memory providers and skill injection: the memory block is a function of the files, and no skill is active.
- Background prefetch and memory sync after a turn: they do not touch the history.
- Tool tasks that panic: the code loses the call's id there, and the model's tools always return.
- ExecuteParallel: a task takes effect as a whole when it completes; `Interleaving` shows that taking turns at single steps makes no difference.
- ExecuteToolCalls: the snapshot of the memory is taken at the end of the calls, not at each memory write among them; the same when only memory writes change the memory.
- Reused call ids: providers are assumed to give every new call an id unused in the request; `SanitizerTheorems` does without that assumption.
- Offsets between UTF-8 bytes and characters: the history engine and truncation work on bytes, the splitter on characters.
- CrashAnywhere: assumes an environment that does the same at any time on the same history and files, memory that only memory writes change, batches behind the checkpoint that come out the same at any time (`CrashResume.SteadyBatch`), a turn begun with an up-to-date snapshot that did not use up its budget, a resume with at least that budget, and a summary that carries over.
- PlaceFrom: symbolic links and the home directory abbreviation are not resolved.
- ParallelRefinesSequential: assumes that writers keep to the path they name and that the other calls look at nothing a writer may change; `ParallelLimits.OrderNeverShowsIff` says when tools that keep to their own paths meet this.
- IntervalRunsEverySlotOnce: assumes distinct job ids and an enabled job with a first slot; ticks may come at any times.
- SyncConverges: assumes that the model preflight accepts; `AgentSync.RetryAfterRefusedPreflight` says what happens when it does not.
- SplitMessage: requires room behind the prefix, since the code's loop does not terminate without it.
- Cron expressions and date parsing: the next time of such a schedule is a parameter, as is the outcome of a job.
- Cron edits made while a tick holds its snapshot, a zero interval, and overflow of 64-bit minutes.
- YAML and SHA-256: a codec assumed to give back the specification at hand from what it serialised, also behind a comment line; numbers in the drift are compared as values.
- Complaints about an invalid policy: their phrases are modelled in the reader, their printers are not.
- Configuration summaries copied into a rejection: the same on both paths.
- RejectionReadsBack: names are not empty and hold no white space, comma, parenthesis or semicolon, at which the reader cuts.
- Command-line printing, the REPL, chat adapters, approval prompts and configuration loading: input and output only.
