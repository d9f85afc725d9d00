# HarnessLab: verified models of its core

HarnessLab benchmarks coding agents and replays recorded runs. This project
models the parts of it that carry hard invariants and proves what they keep:

- **The worker pool of one benchmark wave** (`WorkerPool`, `WaveSafety`,
  `WaveOutcomes`, `WaveProgress`, `WaveStuck`) as an interleaving transition system
  with one step for each atomic operation: conservation of jobs, reports that hold
  exactly what the jobs brought back, what still happens after a stop, a
  cancellation or a used-up budget, the token overshoot bound, a bound on the length of every interleaving, and the exact condition
  under which a wave can get stuck for ever.
- **Retry waves and the report** (`RetryWaves`, `Report`, `ReportLaws`,
  `ReportFields`): which jobs run again, how often, and what every field of the
  report means.
- **Record and replay** (`Text`, `Placeholders`, `Json`, `Canonicalize`,
  `TextStability`, `Stability`, `PathText`, `Relocation`, `TreeRewriter`, `ReplayStore`,
  `Aggregator`, `StoredText`, `RecordReplay`, `Fidelity`, `Conversation`): a replay in
  another workspace, strict or with fallback, follows the recorded run, resting on relocation and cross-root
  stability of the canonicalizer, on the injective hash pre-image and on
  earliest-entry-wins lookup. `CodecModel` and `ReplayExample` show that what the
  theorem asks can be met.
- **The event normalizer** (`Normalizer`, `EventText`, `Metrics`, `Correlation`,
  `ToolNames`, `CallUsage`, `StreamReplay`, `StreamedTools`): bracketing, counters, announced
  tool calls and their names, usage, and exactly when a replayed stream gives the
  same trace as the live one, for every stream of frames with at most one choice:
  ended by a completion, ended by a done chunk, gone on after its end, or left open.
- **The trajectory diff** (`Steps`, `StepFields`, `Diff`), **optimizer selection** (`Pareto`,
  `Gate`), **the matrix product** (`Matrix`, `VariantNames`) and **redaction**
  (`Redact`, `RedactTexts`).

Code that updates fields or loops is modelled by classes and methods, each
proved against a function; the laws are lemmas about those functions.

## Where the code differs from its documentation

The models follow the code. Each difference has an input that shows it and the
exact condition under which the code does meet what is described.

- A wave can hang: the feeder's early return skips `close(jobCh)`
  (`internal/benchmark/scheduler.go:145-147`), and a worker that saw the stop
  flag leaves the feeder without a receiver. `WaveStuck.CancelWedges` and
  `WaveStuck.BudgetWedges` reach such states; `WaveStuck.SettlesIff` says exactly
  which waves always end, soon, with every job settled.
- `internal/optimize/eval.go:91` compares holdout results with the baseline's
  dev pass, where the rule describes the baseline's holdout pass
  (`Gate.GateAgreesIffBaselinesEqual`), and a candidate below the baseline on
  dev is accepted whatever its holdout result (`Gate.WorseVariantAccepted`, and
  exactly when that happens, `Gate.AcceptedKeepUpIff`).
- A divergence is documented to carry step 0 for a run that has ended
  (`internal/diff/diff.go:67`); the code gives both runs the same step number
  (`Diff.EndedRunNumbered`), so the two agree exactly when neither run has ended
  at the divergence (`Diff.StepZeroIff`).
- The token fields described as state of the current call
  (`internal/runtime/trpc/normalize.go:29`) outlive it: a call without usage
  counts the previous usage again (`CallUsage.UsageCountedTwice`, and exactly
  when, `CallUsage.CallCountsOwnUsageIff`).
- A replayed stream need not leave the live trace. `StreamedTools.StreamReplaysIff`
  is the exact condition for every stream of frames with at most one choice. In
  each class the first frame has to carry the model name;
  beyond that, by how the stream ends: (1) With a completion that repeats the text
  and the newly announced calls: the live trace has lost the calls' arguments
  (`StreamReplay.StreamedToolCallDiffers`), so the two agree exactly when no call
  has any (`StreamedTools.StreamedCallsReplayIff`). (2) With a done chunk: calls
  seen only in deltas are not stored (`StreamedTools.DroppedCallDiffers`), so they
  agree exactly when no delta names a call or brings a new id
  (`StreamedTools.EndsInDoneChunkIff`). (3) With another model frame after its end,
  or no end: they always differ (`StreamedTools.LaterFrameDiffers`,
  `StreamedTools.OpenStreamDiffers`).
- Redacting redacted text masks it again (`Redact.SecondMask`), exactly when
  the text held a marker (`Redact.IdempotentIffNoMarker`).
- Canonicalizing a text twice can differ from canonicalizing it once, for a root
  such as the drive `E:` (`TextStability.DriveLetterUnstable`); the exact
  condition on root and temp directory is `TextStability.IdempotentIffSafe`, for
  all but the roots that overlap `$WORKSPACE` where the temp directory stands in
  every such overlap. Of those, a root without backslash inside a temp directory
  separate from `$TMP`, such as `E:/tmp/ws1` in `E:/tmp`, is stable all the same
  (`TextStability.UnderTmpIdempotent`); the others stay undecided.
- A report groups runs by variant name (`internal/benchmark/report.go:151`), and
  two variants of one matrix can share a name (`VariantNames.NamesCollide`). They
  cannot when no listed value holds a `+` (`VariantNames.NamesDistinct`).

## Model

| member | source | states |
|---|---|---|
| WaveSafety.InvReachable | internal/benchmark/scheduler.go:101-161 | every state of every interleaving of workers and feeder keeps the mutex, placement, token and budget invariants |
| WaveSafety.ExactlyOnePlace | internal/benchmark/scheduler.go:110-161 | in every reachable state each job is in exactly one place: unsent, with the feeder, with one worker, in the report, or dropped |
| WaveSafety.FailedAreErrored | internal/benchmark/scheduler.go:126-131 | when a wave returns, its failed list is exactly the report's errored jobs, in report order, none twice |
| WaveSafety.TokensAreReported | internal/benchmark/scheduler.go:119-131 | when a wave returns, the shared counter equals the tokens of the reported outcomes |
| WaveSafety.OvershootBound | internal/benchmark/scheduler.go:111-137 | with a budget the counter never passes MaxTokens - 1 plus Parallel times the most one job reports, in any interleaving |
| WaveOutcomes.ReportedWasFinished | internal/benchmark/scheduler.go:119-131 | every reported outcome was brought back, at some earlier step, by a worker that was running that job |
| WaveOutcomes.ReportIsWhatFinished | internal/benchmark/scheduler.go:115-131 | the report of a returned wave holds an outcome for a job if and only if a run of that job brought it back |
| WaveOutcomes.FailedIffBroughtError | internal/benchmark/scheduler.go:119-130 | a job is on a returned wave's failed list if and only if its run brought back an error |
| WaveOutcomes.NothingStartsAfter | internal/benchmark/scheduler.go:115-119 | after the stop flag is set no job runs or settles that was not past the check of it by then, and likewise after a cancellation |
| WaveOutcomes.AtMostOneMoreHandedOver | internal/benchmark/scheduler.go:142-154 | after a stop, a cancellation or a used-up budget the feeder hands over at most the one job whose check it had behind it |
| WaveProgress.BoundedInterleaving | internal/benchmark/scheduler.go:110-156 | an interleaving's length is bounded by jobs, workers and how often the feeder slept: nothing else can go on for ever |
| WaveProgress.NoBudgetNoSleep | internal/benchmark/scheduler.go:148-153 | without a budget the feeder never sleeps and a wave takes at most 16 steps a job, one a worker, and four more |
| WaveProgress.SleepMeansStopIsComing | internal/benchmark/scheduler.go:121-124 | while the feeder waits for the budget and no one has stopped the wave, some worker is able to and about to |
| WaveProgress.QuietMeansAllSettled | internal/benchmark/scheduler.go:110-160 | an uncancelled, unstopped wave with no step left has returned with every job settled |
| WaveProgress.WedgedShape | internal/benchmark/scheduler.go:115-156 | a wave is stuck exactly when its feeder left early with workers still receiving, or every worker left while the feeder sends |
| WaveProgress.WedgedForever | internal/benchmark/scheduler.go:158-160 | a stuck wave stays as it is whatever follows, cancellation aside, and never returns |
| WaveStuck.NeverWedgesIff | internal/benchmark/scheduler.go:140-159 | no interleaving gets stuck if and only if there are no jobs, or the context cannot be cancelled and all jobs but one cannot use up the budget |
| WaveStuck.SettlesIff | internal/benchmark/scheduler.go:110-160 | those same waves, and no others, take at most 16 steps a job, one a worker and four more in any interleaving, and end with every job settled once |
| WaveStuck.CancelWedges | internal/benchmark/scheduler.go:145-147 | a cancellation at the start reaches a state that never returns |
| WaveStuck.BudgetWedges | internal/benchmark/scheduler.go:121-124 | a budget that all jobs but one can use up reaches a state that never returns |
| RetryWaves.Run | internal/benchmark/scheduler.go:78-92 | the loop over waves runs the batches the specification describes |
| RetryWaves.RetriesAreErrored | internal/benchmark/scheduler.go:78-92 | at most Retry + 1 waves run, and each after the first runs exactly the errored jobs of the one before |
| RetryWaves.RerunIffErrored | internal/benchmark/scheduler.go:87-91 | a job is in the next wave if and only if it settled with an error in this one |
| RetryWaves.RerunIffBroughtError | internal/benchmark/scheduler.go:87-91 | a job is in the next wave if and only if its run in this wave's interleaving brought back an error |
| RetryWaves.SettledIffFinished | internal/benchmark/scheduler.go:119-127 | under the jobs' own names, a wave settles a job with an outcome if and only if its run brought that back |
| RetryWaves.WavesGoOn | internal/benchmark/scheduler.go:80-92 | waves stop only when the last left no error, Retry + 1 have run, or the context is dead |
| RetryWaves.DoneIsDone | internal/benchmark/scheduler.go:98-100 | a job that settled without an error, or did not settle, is in no later wave |
| RetryWaves.SettledOneWay | internal/benchmark/scheduler.go:126-131 | within a wave no job settles both with and without an error |
| RetryWaves.AtMostRetryPlusOne | internal/benchmark/scheduler.go:80-92 | no job has more than Retry + 1 settled attempts |
| RetryWaves.ReportCountsAttempts | internal/benchmark/scheduler.go:78-95 | the report of a run shows totals that add up to its jobs' settled attempts, at most Retry + 1 for each, and errored counters that add up to the errored settlements of its waves |
| Report.VariantResult.Count | internal/benchmark/report.go:99-147 | updating a variant's fields changes its value as folding in the outcome does |
| Report.BenchReport.Variant | internal/benchmark/report.go:150-159 | finds the variant of that name or appends a fresh empty one, and changes no other |
| Report.BenchReport.AddOutcome | internal/benchmark/report.go:93-148 | adding an outcome in place changes the report's value as the fold step does |
| ReportLaws.ReportIsFaithful | internal/benchmark/report.go:93-159 | after any outcomes variant names are distinct, are those that occurred, and every counter and run list is the fold over that variant's outcomes |
| ReportLaws.TotalsBalance | internal/benchmark/report.go:99-106 | Total = Passed + Failed + Errored = number of runs, for every variant |
| ReportLaws.TotalsAddUp | internal/benchmark/report.go:98-99 | the totals of all variants sum to the number of outcomes added |
| ReportLaws.ErrorsAddUp | internal/benchmark/report.go:100-101 | the errored counters of all variants sum to the outcomes with an error |
| ReportLaws.CountersIgnoreOrder | internal/benchmark/report.go:93-118 | counters do not depend on arrival order |
| ReportLaws.ReportsIgnoreOrder | internal/benchmark/report.go:93-148 | two orders of one batch give the same variants with the same counters |
| ReportFields.VariantShows | internal/benchmark/report.go:93-148 | every counter of a variant is the number, or the sum, over its own outcomes that its name says, and its runs are those outcomes, field by field, in order |
| ReportFields.VariantsKeepPlace | internal/benchmark/report.go:150-159 | a further outcome moves no variant and appends at most its own |
| ReportLaws.BuildByTask | internal/benchmark/report.go:247-286 | one result for each task id in first-seen order, with the passed and total runs of that task |
| ReportLaws.TasksPartitionRuns | internal/benchmark/report.go:250-264 | task ids are distinct and nonempty and their totals sum to the runs that have a task |
| ReportFields.TaskFigures | internal/benchmark/report.go:250-270 | a task's total and passed count its runs and those with status passed |
| ReportFields.TasksAsSeen | internal/benchmark/report.go:250-264 | tasks are those named by some run, in the order first seen |
| Placeholders.PassIdempotentIffSeparate | internal/replay/canonicalize.go:89 | one replacement pass is idempotent on all texts if and only if no copy of the path lies in, or starts in, the placeholder |
| Placeholders.BroughtInWhere | internal/replay/canonicalize.go:89-97 | a pass brings in a path only where the placeholder holds its start, and says what stood there before |
| TextStability.StringReachesNormal | internal/replay/canonicalize.go:87-100 | the three passes of a safe canonicalizer leave none of its paths in the text |
| TextStability.IdempotentIffSafe | internal/replay/canonicalize.go:87-100 | rewriting twice equals rewriting once on all texts if and only if the root does not overlap its placeholder and the temp placeholder brings no path back |
| TextStability.DriveLetterUnstable | internal/replay/canonicalize.go:87-100 | with the drive root E: and no temp directory, rewriting the rewritten text E:: changes it again |
| TextStability.UnderTmpIdempotent | internal/replay/canonicalize.go:87-100 | a workspace inside the temp directory, with no backslash in its root: rewriting twice equals rewriting once when $TMP cannot start or hold the temp directory, and does not when $TMP brings it back |
| PathText.PathsAreGone | internal/replay/canonicalize.go:87-100 | with a safe canonicalizer no text keeps the root, the root with every backslash made a slash, or the temp directory |
| PathText.RootShows | internal/replay/canonicalize.go:88-95 | a root, even one inside the temp directory, is shown as $WORKSPACE and what follows it as it would be alone |
| PathText.FlippedRootShows | internal/replay/canonicalize.go:90-94 | so is the root written with slashes |
| PathText.TmpShows | internal/replay/canonicalize.go:96-98 | a temp directory in which no root can start is shown as $TMP |
| PathText.ContainerIsRead | internal/replay/canonicalize.go:70-78 | an object or array as encoded, with white space around it, is read as that document |
| PathText.OtherTextIsNotRead | internal/replay/canonicalize.go:71-74 | text that opens no container after its white space is not |
| PathText.StringsAreRewritten | internal/replay/canonicalize.go:56-60 | a string is rewritten as the document it holds, encoded afresh, or else as text |
| Canonicalize.NestedIsSmaller | internal/replay/canonicalize.go:66-85 | a document held in a string is a container with strictly shorter strings, so the nested recursion ends |
| TreeRewriter.NormalizeTree | internal/replay/canonicalize.go:44-64 | rewriting maps and slices entry by entry, in any key order, gives the recursive normal form |
| TreeRewriter.NormalizeMembers | internal/replay/canonicalize.go:46-50 | the loop over a map's keys, taken in any order, normalizes each member once |
| TreeRewriter.NormalizeNested | internal/replay/canonicalize.go:70-85 | a nested document is decoded, normalized and re-encoded, or reported absent |
| Stability.FixedIffNormal | internal/replay/canonicalize.go:44-100 | normalization leaves a document alone if and only if it mentions no path and its nested documents are in Marshal's form |
| Stability.NormalizeReachesNormal | internal/replay/canonicalize.go:44-100 | normalization produces such a document |
| Stability.CrossRootStable | internal/replay/canonicalize.go:24-100 | a normalized document is unchanged by its own canonicalizer and by any other whose paths it does not mention |
| Stability.PathFreeAgree | internal/replay/canonicalize.go:44-100 | two workspaces normalize alike every document that mentions neither |
| TextStability.StringFixedIffAvoided | internal/replay/canonicalize.go:87-100 | rewriting a text changes nothing if and only if no path occurs in it |
| Relocation.TextRelocates | internal/replay/canonicalize.go:87-100 | text filled with a workspace's paths normalizes to the template with placeholders |
| Relocation.InHolesThroughout | internal/replay/canonicalize.go:87-100 | if each path occurs in the filled text only where it was filled in, and the paths are apart from each other and the placeholders, every pass meets its path in its own holes only |
| Relocation.InstanceNormalizes | internal/replay/canonicalize.go:44-85 | every instance of a template, nested documents included, normalizes to its canonical document |
| Relocation.Relocates | internal/replay/canonicalize.go:24-85 | two texts that instantiate one template in two workspaces normalize to the same text, whatever key order and layout |
| Relocation.PlainTextRelocates | internal/replay/canonicalize.go:26-30 | the same for text that is not JSON |
| ReplayStore.JSONStore.Put | internal/replay/jsonstore.go:57-61 | appends the entry, nothing, or a torn piece, as far as the write went, and reports success only for a whole write |
| ReplayStore.JSONStore.Lookup | internal/replay/jsonstore.go:34-54 | the scan answers with the first match, a miss, or a failure |
| ReplayStore.HitIffFirst | internal/replay/jsonstore.go:43-53 | a lookup hits if and only if some entry matches with nothing corrupt or matching before it, and serves that entry |
| ReplayStore.EarliestWins | internal/replay/jsonstore.go:43-61 | later puts never change what a lookup that hit serves |
| ReplayStore.TornHidesRest | internal/replay/jsonstore.go:43-48 | after a torn write no later entry is ever served |
| RecordReplay.HashTextInjective | internal/replay/canonicalize.go:35-42 | the hashed text determines kind, name and input for names without a NUL |
| RecordReplay.NulNamesCollide | internal/replay/canonicalize.go:40 | a NUL in a name makes two different calls share a hash |
| RecordReplay.RecordTool | internal/runtime/trpc/replay.go:26-52 | a successful tool call puts one normalized entry; errors and nil results put nothing |
| RecordReplay.RecordModel | internal/runtime/trpc/replay.go:112-136 | frames pass through unchanged and their aggregate, if any, is stored under the request's hash |
| RecordReplay.StoredToolEntry | internal/runtime/trpc/replay.go:31-50 | the entry of a tool call has the hash of its name and normalized arguments, the arguments as given, and an output that decodes to the normalized result |
| RecordReplay.StoredModelEntry | internal/runtime/trpc/replay.go:95-132 | the entry of a model call has the hash of its twice normalized request, the request, and an output that decodes to the aggregate |
| RecordReplay.ServeTool | internal/runtime/trpc/replay.go:54-74 | in either mode a tool call is served if and only if the lookup hits and decodes, with that value; it is a strict miss exactly on a miss in strict mode, and otherwise goes live |
| RecordReplay.ServeModel | internal/runtime/trpc/replay.go:139-154 | in either mode a model call is served exactly the entries that decode; otherwise strict mode misses and fallback goes live |
| RecordReplay.ReplayTool | internal/runtime/trpc/replay.go:54-74 | the callback with its hash and lookup meets that decision |
| RecordReplay.ReplayModel | internal/runtime/trpc/replay.go:95-108 | the wrapped model with its hash and lookup meets that decision |
| Fidelity.StoredCallFound | internal/runtime/trpc/replay.go:27-50 | a stored call's key finds that call's output in the store of the whole run |
| Fidelity.ReplayFollowsRun | internal/runtime/trpc/replay.go:25-154 | under the stated hypotheses a strict replay in another workspace makes the same canonical calls in order, is served the same results and never goes live |
| Fidelity.ReplayFinishes | internal/runtime/trpc/replay.go:25-154 | a run recorded to its end is replayed to its end |
| Fidelity.UnstoredCallStopsReplay | internal/runtime/trpc/replay.go:27-29 | the first call that left no entry stops the replay with a miss if and only if no entry before any torn write has its key; otherwise that entry is served |
| Fidelity.FallbackGoesAlike | internal/runtime/trpc/replay.go:54-154 | for any agent and store a fallback replay is the strict one, with its misses made live |
| Fidelity.FallbackFollowsRun | internal/runtime/trpc/replay.go:54-154 | while calls were stored a fallback replay passes through the same histories as the strict one, which are the run's |
| Fidelity.UnstoredCallGoesLive | internal/runtime/trpc/replay.go:68-72 | in fallback mode the first call that left no entry is made live if and only if no reachable entry has its key |
| Conversation.LoopsAreSameAgents | internal/runtime/trpc/replay.go:208-220 | the ask-run-ask loop, in two workspaces with equal prompts up to paths, is an agent the fidelity theorem covers |
| Conversation.LoopReplays | internal/runtime/trpc/replay.go:25-154 | a whole recorded run of that loop is replayed to its end elsewhere, every call served |
| Fidelity.ContainersEmbed | internal/replay/canonicalize.go:66-85 | objects and arrays that normalize alike still do as text inside a message |
| Aggregator.ResponseAggregator.Add | internal/runtime/trpc/replay.go:168-187 | folding a frame into the fields gives the specified aggregate |
| Aggregator.ResponseAggregator.Final | internal/runtime/trpc/replay.go:190-203 | the stored completion, or nothing for a stream that carried nothing |
| StoredText.StoredSays | internal/runtime/trpc/replay.go:160-203 | for any frames and choices: what is stored has the first model name, the last usage, the last message's calls, and message text until streaming began, then the streamed text; nothing is stored if and only if all of name, text and calls are empty |
| StreamReplay.ReplayedStreamMatchesLive | internal/runtime/trpc/replay.go:160-203 | a stream of text chunks ended by a completion that repeats the text gives the same events and end state as its stored aggregate |
| StreamReplay.StreamedToolCallDiffers | internal/runtime/trpc/normalize.go:107-119 | a tool call announced in a delta is a concrete stream whose replay gives a different trace |
| StreamedTools.StreamedCallsReplayIff | internal/runtime/trpc/normalize.go:91-215 | a stream whose deltas announce new calls, ended by a completion that repeats text and calls, replays to the live events and state if and only if no call has arguments |
| StreamedTools.StreamReplaysIff | internal/runtime/trpc/replay.go:160-203 | the stored response of any stream of one-choice frames replays to the live events and state if and only if it stops at its first end, has the model name on its first frame, brings no text in the completion after chunks without any, and starts the same calls with the same arguments with its deltas as without them |
| StreamedTools.EndsInDoneChunkIff | internal/runtime/trpc/normalize.go:91-144 | a stream ended by a done chunk replays alike if and only if its first frame has the model name and its deltas only continue calls announced before |
| StreamedTools.DroppedCallDiffers | internal/runtime/trpc/replay.go:175-187 | a named call followed by a done chunk is a concrete stream whose replay starts no tool |
| StreamedTools.LaterFrameDiffers | internal/runtime/trpc/normalize.go:128-142 | a stream that goes on after a frame that ended a call counts more model calls than its replay |
| StreamedTools.OpenStreamDiffers | internal/runtime/trpc/replay.go:190-203 | a stream that never ends leaves its call open, and its replay closes it |
| Normalizer.EventNormalizer.TakeChunk | internal/runtime/trpc/normalize.go:91-144 | handling a chunk by field updates meets the specification function |
| Normalizer.EventNormalizer.TakeCompletion | internal/runtime/trpc/normalize.go:152-215 | the same for a completion frame |
| Normalizer.EventNormalizer.Normalize | internal/runtime/trpc/normalize.go:67-87 | dispatch on errors and frame kinds meets the specification function |
| Normalizer.EventNormalizer.NormalizeAll | internal/runtime/trpc/runtime.go:133-137 | a run's frames, one after another, give the specified state and events |
| Metrics.RunTracks | internal/runtime/trpc/normalize.go:91-265 | over any frames model starts and ends alternate, inModel says whether a call is open, sequence numbers count events and every counter is the fold of the emitted events |
| Metrics.CountEvents | internal/harness/builder/builder.go:306-334 | the builder's loop computes the folds over the trace and whether an error occurred |
| Metrics.BuilderAgrees | internal/harness/builder/builder.go:322-333 | the builder's counts equal the normalizer's, less one model call when one is open |
| Metrics.ComputeStatus | internal/harness/builder/builder.go:383-398 | cancelled exactly when cancelled; passed exactly when nothing errored and both required checks hold |
| Correlation.SeenIsAnnounced | internal/runtime/trpc/normalize.go:107-110 | the remembered ids are exactly those the run's frames announced |
| Correlation.CompletionIsSilentIff | internal/runtime/trpc/normalize.go:173-194 | a completion frame starts no tool if and only if each named call in it has an id announced before |
| ToolNames.StartIsNamed | internal/runtime/trpc/normalize.go:107-121 | a frame that starts a call leaves that call's name under its id |
| ToolNames.ToolEndNamesItsStart | internal/runtime/trpc/normalize.go:219-237 | in any run a tool end carries the name of the start its id had, whatever frames came before and between, unless a later delta reuses the id, and the response's own text, clipped |
| EventText.ToolEndSays | internal/runtime/trpc/normalize.go:219-237 | a tool response makes one tool end with the text of its first choice's message, or none, cut after 800 characters |
| EventText.UnknownEndTakesLastName | internal/runtime/trpc/normalize.go:230-233 | over whole runs, an end for an id that was never named takes the name of the trace's last tool start |
| EventText.ModelEndSays | internal/runtime/trpc/normalize.go:91-215 | in any run the model end of a call has the model of its first frame, the text of that call alone, clipped, and the last usage |
| EventText.ErrorSays | internal/runtime/trpc/normalize.go:240-248 | an error frame makes one error event with its message, or unknown error, clipped, and its type |
| EventText.PlumbingIsSilent | internal/runtime/trpc/normalize.go:82-86 | framework frames leave trace and state alone |
| CallUsage.EndsWhenCallEnds | internal/runtime/trpc/normalize.go:128-214 | a frame emits a model end if and only if it is a completion or a done chunk, and then one |
| CallUsage.UsageIsLastSeen | internal/runtime/trpc/normalize.go:123-126 | the token fields hold the last usage of the run, from whichever call |
| CallUsage.CallCountsOwnUsageIff | internal/runtime/trpc/normalize.go:123-203 | a call, streamed or not, adds exactly its own usage if and only if one of its frames has usage or the run's last usage before it was zero or absent |
| CallUsage.UsageCountedTwice | internal/runtime/trpc/normalize.go:128-131 | two calls, of which only the first has usage, count that usage twice |
| Steps.BuildSteps | internal/diff/diff.go:84-129 | the loop over events gives the specified steps |
| Steps.StepCount | internal/diff/diff.go:84-129 | there is one step for each model end, tool end and error event |
| Steps.BuildDistributes | internal/diff/diff.go:84-129 | a trace can be cut wherever no tool call is pending |
| Steps.ToolStepsArePairs | internal/diff/diff.go:98-121 | on alternating traces the k-th tool step has the k-th start's name and arguments and the k-th end's result |
| Steps.ToolStepsOfEnds | internal/diff/diff.go:98-121 | on any trace each tool step is that of a tool end, with the last start since the previous tool end, or alone when there is none |
| Steps.OverlappingCallsMispair | internal/diff/diff.go:98-121 | two starts in a row pair the first end with the second start |
| StepFields.StepsTell | internal/diff/diff.go:84-129 | on any trace the steps are those of the model ends, tool ends and errors, in order, and every field is the one its event, or the standing start, has |
| Diff.LcsTable | internal/diff/diff.go:136-151 | every cell of the filled table holds the recurrence's value for its two prefixes |
| Diff.LcsAttained | internal/diff/diff.go:142-151 | some common subsequence of the prefixes is as long as the cell says |
| Diff.LcsLongest | internal/diff/diff.go:142-151 | no common subsequence of the prefixes is longer |
| Diff.Compare | internal/diff/diff.go:132-208 | table, walk and tails give the same comparison as the longest common prefix alone |
| Diff.KeysTellSteps | internal/diff/diff.go:35-48 | two steps have one key if and only if they are the same tool with the same arguments, the same answer, or the same error |
| Diff.ComparedMeaning | internal/diff/diff.go:164-207 | two runs are identical if and only if their steps are pairwise the same tool and arguments, answer or error; otherwise exactly one line is marked, after the steps in common, naming the first that differ or the one the shorter run lacks |
| Diff.ComparedLines | internal/diff/diff.go:164-207 | every line of a comparison, its step numbers and its length |
| Diff.ComparedMirrors | internal/diff/diff.go:174-183 | comparing the other way round mirrors the result, whichever side the table prefers |
| Diff.StepZeroIff | internal/diff/diff.go:65-69 | step 0 stands for a run that ended, and only for one, if and only if the runs took the same steps or part while both go on |
| Diff.EndedRunNumbered | internal/diff/diff.go:190-197 | a run of one step against an empty one gives the ended run step 1 |
| Redact.RedactMarker | internal/sandbox/process.go:83-102 | the rewrite loop ends and computes the pass |
| Redact.RedactSecrets | internal/sandbox/process.go:74-80 | the loop over the four markers computes their passes in order |
| Redact.PassMasks | internal/sandbox/process.go:83-106 | a pass leaves its marker masked everywhere and keeps every other marker that was masked |
| Redact.RedactedIsMasked | internal/sandbox/process.go:74-106 | in the output each of the four markers is followed by the mask and no token follows that |
| Redact.RedactSplits | internal/sandbox/process.go:74-106 | text is redacted independently on both sides of any place where no token is cut |
| Redact.WordIsCut | internal/sandbox/process.go:83-106 | a word redacts to its text up to the first complete marker's end, then stars only |
| Redact.SecretsDoNotShow | internal/sandbox/process.go:74-106 | two words that agree up to that end redact to the same text up to the number of stars |
| RedactTexts.EveryTextHasParts | internal/sandbox/process.go:74-106 | every text is words and separators that redaction treats one by one |
| RedactTexts.SecretsDoNotShowInTexts | internal/sandbox/process.go:74-106 | whole texts whose words differ only past their first complete marker redact to the same text up to the number of stars |
| RedactTexts.SecretMasked | internal/sandbox/process.go:74-106 | a word that begins with one of the four markers shows the marker and stars, nothing of the letters, digits, dashes and underscores after it, wherever it stands |
| RedactTexts.SoleSecretMasked | internal/sandbox/process.go:83-102 | if it holds no other marker there are exactly three stars |
| Redact.UnchangedIffNoMarker | internal/sandbox/process.go:74-80 | text comes back unchanged if and only if it holds no marker |
| Redact.IdempotentIffNoMarker | internal/sandbox/process.go:74-80 | redacting again changes nothing if and only if the original text holds no marker |
| Redact.SecondMask | internal/sandbox/process.go:83-102 | a concrete text whose second redaction changes what the first left |
| Pareto.DominanceIsStrictOrder | internal/optimize/pareto.go:46-50 | dominance is irreflexive, asymmetric and transitive |
| Pareto.SelectCandidates | internal/optimize/eval.go:18-42 | the loops and the sort return the unbeaten results, in order |
| Pareto.Front | internal/optimize/pareto.go:18-42 | the same for benchmark points |
| Pareto.SelectionIsExact | internal/optimize/eval.go:18-42 | an entry is selected if and only if no other dominates it, as often as it was given |
| Pareto.SelectedResults | internal/optimize/eval.go:18-48 | selected are the results no other betters in pass, tokens and cost, best pass first, then fewest tokens |
| Pareto.SelectedPoints | internal/optimize/pareto.go:18-50 | the same for points, in pass, tokens and duration |
| Pareto.LeftOutIsBeaten | internal/optimize/eval.go:22-33 | every entry left out is dominated by a selected one |
| Pareto.ReselectKeepsAll | internal/optimize/eval.go:18-42 | selecting from a selection keeps the same entries |
| Pareto.FrontTradesOff | internal/optimize/eval.go:34-40 | of two entries of a selection the earlier equals the later or is worse in tokens or in the third objective |
| Gate.Recommend | internal/optimize/eval.go:69-98 | the loops give the specified recommendation for some selection of the dev results |
| Gate.BaselineIsLast | internal/optimize/eval.go:71-75 | the baseline of a recommendation is the last dev result of that name, or the empty result |
| Gate.RecommendDecides | internal/optimize/eval.go:69-98 | over dev and holdout themselves: who is accepted, with which holdout result, and who is rejected, both ways |
| Gate.GateSplitsFront | internal/optimize/eval.go:79-96 | every non-baseline front entry is accepted or rejected, none lost or doubled |
| Gate.GateDecides | internal/optimize/eval.go:83-95 | who is accepted and who is rejected, both ways: holdout results of admitted contenders, dev results of the others |
| Gate.AcceptedKeepUpIff | internal/optimize/eval.go:53-55 | every accepted candidate kept up on dev and holdout if and only if no contender with a holdout result was below the baseline on dev |
| Gate.WorseVariantAccepted | internal/optimize/eval.go:53-55 | a cheaper variant that passes less on dev and on holdout is accepted |
| Gate.GateAgreesIffBaselinesEqual | internal/optimize/eval.go:91 | the gate decides as the rule describes for all candidates if and only if the baseline's dev and holdout passes are equal |
| Matrix.HarnessSpec.Apply | internal/benchmark/matrix.go:70-107 | applying a choice in place changes the settings it names |
| Matrix.Product | internal/benchmark/matrix.go:114-126 | the nested loops compute the product of the dimensions |
| Matrix.Variants | internal/benchmark/matrix.go:57-145 | one variant for each combination, each on a harness of its own, base unchanged, and base itself when nothing is varied |
| Matrix.ProductIsMixedRadix | internal/benchmark/matrix.go:114-126 | the product counts in mixed radix with the last dimension fastest: index choices and positions correspond one to one |
| Matrix.OnlyChosenSettingsChange | internal/benchmark/matrix.go:128-133 | a variant's settings are the last choice made for each, or the base's; choosing no verification drops the commands |
| Matrix.VariantsAreTheOffered | internal/benchmark/matrix.go:64-144 | the variants are exactly the harnesses that take one listed value in every dimension that lists any |
| VariantNames.NamesDistinct | internal/benchmark/matrix.go:128-141 | when no listed value holds a +, two combinations of a matrix have the same name only if they are equal |
| VariantNames.NamesCollide | internal/benchmark/matrix.go:134-137 | a concrete matrix gives two different combinations one name |
| VariantNames.LabelSays | internal/benchmark/matrix.go:64-107 | how each dimension and value reads in a variant's name |
| ReplayExample.HypothesesHoldTogether | internal/runtime/trpc/replay.go:25-154 | some recorded run of the loop, in one of two different workspaces, meets every hypothesis of the replay theorem at once |
| CodecModel.LawfulCodecExists | internal/replay/canonicalize.go:24-42 | some codec satisfies the laws asked of encoding/json |

## Hypotheses of the replay theorem

`Fidelity.ReplayFollowsRun` names what it needs. Of the recorded calls, each of
which can be checked against a recording: documents that can be read back and
leaf text that stays free of JSON when rewritten (`Stability.Tame`); normalized
documents that do not mention the replay's paths; model outputs that mention
neither workspace, since they are stored as they came
(`internal/runtime/trpc/replay.go:126`); equal canonical inputs with equal
outputs, since the earliest entry is served; tool names without NUL; and results
that are objects or arrays, or whose text still reads alike. Of the two
workspaces: paths free of `$`, and a recording canonicalizer that is safe, which
is the exact condition for it to be stable. And two assumptions about code that is
not modelled: that `encoding/json` keeps the stated laws, and that the agent is a
deterministic function of what it was shown whose two runs differ in paths only
(`Fidelity.SameAgents`), which `Conversation.LoopsAreSameAgents` proves of one
agent loop. They do not exclude each other: `CodecModel.LawfulCodecExists` builds a
codec with the laws, and `ReplayExample.HypothesesHoldTogether` a recorded run of
that loop, and two different workspaces, that meet them all.

## Left out

- Command line, table and summary rendering, file loading and `HarnessVariants`: input, output and presentation.
- Git workspaces, mirror locking, sandbox execution, allow lists, docker and bwrap: they depend on the operating system.
- The agent framework and the live model and tool calls: an agent is an opaque function of its observations, and what it observes of a stream is the aggregated response.
- SHA-256: the hashed text stands for the hash; the diff's 8-byte text hashes are taken as injective in the same way.
- `encoding/json`: a parameter with stated laws; a number is a finite float64, so integers a float64 does not hold are outside the documents, and so is invalid UTF-8.
- TextStability.IdempotentIffSafe: leaves open the canonicalizers whose root overlaps its placeholder and whose temp directory stands in every text that comes of such an overlap; `TextStability.UnderTmpIdempotent` answers for those whose root, without backslash, lies in a temp directory separate from $TMP.
- StreamedTools.StreamReplaysIff: leaves out frames with several choices, chunks that carry a finished message, completions that carry delta text or no choice, and error frames.
- ReportLaws.BuildByTask: leaves out the per-task statistics.
- Canonicalize.NormalizeValue: documents are values, so that a map or slice is rewritten in place is only shown by the loops of TreeRewriter, not by aliasing.
- Strings are sequences of characters, so clip counts characters where the code counts bytes, and redaction works on characters.
- Integer widths and overflow: counters are unbounded; costs, pass rates and averages are reals.
- Report.BenchReport.AddOutcome: leaves out Finalize's sort of the variants and the statistics of `stats.go`, which need square roots and rounding.
- What a put leaves in the file is a parameter of the call, as is whether a lookup can read it; which file errors cause which is not modelled.
- Diff.Compare: the key cached inside a step is not modelled; keys are recomputed.
- Pareto.SelectCandidates: `sort.Slice` is not stable, so the order of ties is left open: any ordered rearrangement meets the contract.
- WaveSafety.OvershootBound: the most tokens one job reports is a parameter of the wave, since a job's own budget is enforced elsewhere.
- Cancellation is one event that may happen at any step when the context can be cancelled; timeouts and the progress callback are not modelled.
- Timestamps, run ids and event id uniqueness over a whole run: run_start shares a number with the first normalized event.
- toolDeclarations: a request is one document, its tool list already sorted.
