# Verified model of the code-review agent

The agent turns a diff into a review: a parser reads the diff, a Skill script scans it with a line tracker of its
own, Go checks may run in a sandbox behind a permission policy, a model may add findings, and the finalised result is
reported and saved in SQLite. This project models the algorithms behind those steps and proves what they promise each
other. Each core file keeps its form: loops and in-place updates are methods proved against specification functions,
objects with fields are classes, expressions are functions.

| File | Models |
|---|---|
| `Wrappers.dfy`, `Text.dfy` | optional values and results; the text operations of Go's library |
| `UnifiedDiff.dfy`, `ParsedText.dfy` | the unified diff parser as a state machine; what it reads, told by the lines of any text |
| `DiffPrinting.dfy`, `CanonicalDiffs.dfy` | a printer for the format, and the canonical form of any parsed diff |
| `EditScripts.dfy` | edit scripts between two files, and what the parser makes of them |
| `FileListing.dfy` | the agent's own printer for lists of files |
| `SkillScan.dfy`, `HunkIndex.dfy` | the Skill's line tracker and its index of hunk texts |
| `Readers.dfy`, `Trackers.dfy` | how the scripts cut a text into lines; the line tracker against the parser |
| `PythonScan.dfy` | the line tracker of the Python script against that of the Go script |
| `Rules.dfy`, `RulesMeaning.dfy` | the deterministic rules over a parsed diff; what makes each rule report |
| `Findings.dfy`, `FindingOrder.dfy` | dedupe key, deduplication, stable sort |
| `ModelReview.dfy`, `Placement.dfy`, `ToolLists.dfy` | merging model findings, where each goes; the lists made of printed findings |
| `Records.dfy`, `ReviewResult.dfy`, `ReviewLaws.dfy`, `ResultMeaning.dfy` | audit records, finalisation, verdict, report normalisation; what a result says |
| `Picking.dfy` | lists that keep some elements of another, in order |
| `Commands.dfy`, `Gate.dfy`, `GateMeaning.dfy`, `Shell.dfy` | generated commands, the permission gate and its answers, a POSIX shell tokenizer |
| `Governance.dfy`, `ReviewChecks.dfy`, `ChecksMeaning.dfy` | the log of permission checks and tool calls of a run; what its records say |
| `AuditStore.dfy`, `Persistence.dfy`, `Lifecycle.dfy` | the audit database, the saved record, the whole run |
| `Runs.dfy`, `RunVerdict.dfy`, `RunMeaning.dfy` | many runs on one store; the verdict of a run with and without a model; events and errors |
| `JsonScan.dfy`, `Truncation.dfy`, `Utf8.dfy` | the brace scanner and stream of model answers; UTF-8 safe truncation |

Results that are not what a reader might expect:

- The parser dereferences nil when a matching hunk header comes before any file header
  (`UnifiedDiff.FailuresExactly`), and misreads an inserted text starting `++ ` or a deleted text starting `-- ` as a
  file header; printing and parsing are inverse exactly without such texts (`DiffPrinting.ParsingUndoesPrinting`).
- The parser takes the line `\ No newline at end of file` for context and counts it on both sides, so every later line
  of the hunk is one number too high for each (`EditScripts.EditScriptIsNumbered`, `EditScripts.MarkersExactly`, with the input
  in `EditScripts.MarkerMisnumbers`).
- A file whose name starts with `a/` loses that part (`FileListing.ListedPathIs`).
- The scanner disagrees with the parser in a hunk that inserts anything exactly when it is in another file, an
  inserted text starts with `++`, or a line it does not count comes before an inserted one: a marker, an empty line
  without its space, or context while its counter is not positive, which is context in front of the first insertion at
  start 1
  (`Trackers.TrackersAgreeExactly`, with the size of the error in `Trackers.MarkIs`). Files without insertions, such as
  deleted ones, do no harm. The Python script tracks alike on ordinary texts (`PythonScan.ScriptsTrackAlike`), but
  also ends lines at form feeds and other separators, and reads the same lines exactly without these
  (`Readers.PythonReadsExactly`, `PythonScan.SeparatorSplits`).
- In a hunk with start 0 that adds lines, context between the first two of them is missing from what the scanner has
  seen (`HunkIndex.StreamIsPieceExactly`, `HunkIndex.GapsAre`).
- Keys of findings collide exactly when the fields give the same pieces between bars (`Findings.SameKeyExactly`): where
  a bar in a category stands between two trimmed parts, or one in a file name before a number
  (`Findings.BarInCategory`, `Findings.BarInFile`).
- A model answer weakens the verdict when the reasons for it were later findings of a repeated key
  (`ReviewLaws.AnswerWeakensWhen`). In a run that is possible only for the request for a missing repository, when the
  Skill reported the same key (`RunVerdict.RunWeakensExactly`, with the lists in `RunVerdict.RepoNotedWeakens`).
- Stored findings of one file, line and rule may come back in another order (`AuditStore.SharedRankMayReorder`).
- A stream delta of nothing but white space is dropped (`JsonScan.BlankDeltaLost`).
- The gate asks about the fallback code for a path that contains ` && `, although the shell reads that path as one
  word (`Gate.FallbackAllowedExactly`, `Shell.FallbackTokens`).

## Model

| member | source | states |
|---|---|---|
| UnifiedDiff.ParseUnifiedDiff | internal/review/parser.go:16-113 | the loop over the lines, with nullable file and hunk and two counters, computes `Parse`, errors and nil dereference included; the next rows say what that is |
| ParsedText.TextIsRead | internal/review/parser.go:42-97 | for every text that is read at all: its hunks are those its hunk headers begin, in order, each in the file last named, with its header's numbers and one line for every body line, empty ones included, with kind and text by the first character |
| ParsedText.ToldOnce | internal/review/parser.go:42-97 | with consecutive numbers that leaves one possible hunk |
| ParsedText.HeaderExactly | internal/review/parser.go:14-14 | a line is a hunk header exactly when it has the form of the pattern, and its numbers are those of its digits, at most the largest int |
| UnifiedDiff.FlushHunk | internal/review/parser.go:26-34 | a finished hunk enters the current file, once |
| DiffPrinting.TakeOne | internal/review/parser.go:80-94 | a printed edit extends the open hunk by exactly its own line, with the side numbers that apply to it; the old counter moves unless it is an insertion, the new one unless it is a removal |
| UnifiedDiff.ParseConcat | internal/review/parser.go:34-113 | parsing distributes over concatenation at a `diff --git` boundary, failures included |
| UnifiedDiff.FailuresExactly | internal/review/parser.go:62-78 | nil is dereferenced exactly when a matching hunk header is the first header; else the parser fails exactly when a hunk line does not match |
| DiffPrinting.HeaderReadsBack | internal/review/parser.go:14-14 | every printed hunk header matches the pattern and gives back its two start numbers |
| DiffPrinting.ParsingUndoesPrinting | internal/review/parser.go:16-113 | a printed list of files, pure renames and marker lines included, is read back as that many files, and as exactly the expected ones if and only if no line is mistaken for a header |
| CanonicalDiffs.EverythingParsedIsWellRead | internal/review/parser.go:34-112 | whatever the text, every parsed hunk is numbered on from its header, its candidates are the added numbers and its context the context texts, and every file is named well |
| CanonicalDiffs.CanonicalIsExpected | internal/review/parser.go:54-94 | every well-formed parsed file is what should be read from its canonical printed form |
| CanonicalDiffs.CanonicalReadsBackExactly | internal/review/parser.go:16-113 | every list of well-formed parsed files is read back from its canonical form exactly when no line looks like a header |
| EditScripts.TrueNumberIs | internal/review/parser.go:67-98 | the number used below is the place of the edit's text in the old or the new file |
| EditScripts.EditScriptIsNumbered | internal/review/parser.go:67-98 | for every trap-free edit script, markers and empty lines without their space included, each added, deleted or kept line is read with its place in its files plus the markers before it in its hunk; a marker is read as a context line |
| EditScripts.MarkersExactly | internal/review/parser.go:89-93 | added and deleted lines carry their true numbers exactly when no marker precedes one of them in its hunk; context lines are lines of both files exactly when there is no marker |
| EditScripts.MarkerMisnumbers | internal/review/parser.go:89-93 | an input on which that fails: a file that gets a second line and the newline it lacked is read with its new lines 1 and 2 as 2 and 3 |
| EditScripts.ScriptReadsBackExactly | internal/review/parser.go:50-60 | the printed script is read line by line exactly when no text starts like a file header |
| EditScripts.EditScriptExactly | internal/review/parser.go:34-98 | the parser reads exactly what a script means, every line at its true number and nothing else, if and only if the script has neither traps nor markers |
| FileListing.NonEmptyLineCount | internal/input/input.go:177-185 | counts the lines that are not empty |
| FileListing.DiffForNewFile | internal/input/input.go:163-175 | appends to the shared builder exactly the printed form of the file's non-empty lines |
| FileListing.DiffFromFileList | internal/input/input.go:115-143 | appends the printed forms of all files in order |
| FileListing.ListingReadsBackExactly | internal/input/input.go:163-175 | parsing gives back exactly the listed files unless a shown line is misread as a header, and only then not |
| FileListing.ListedFileIs | internal/input/input.go:163-185 | one hunk at new line 1 whose lines are the shown lines, added and numbered 1 to the printed count |
| FileListing.ListedPathIs | internal/review/parser.go:59-61 | the name survives exactly when it is trimmed, not /dev/null and does not start with `a/` |
| SkillScan.ScanSkill | skills/code-review/scripts/check_fallback.go:47-187 | the scan loop computes the emissions of the token-level tracker |
| Trackers.TrackersCompared | skills/code-review/scripts/check_fallback.go:47-187 | on every trap-free printed diff the scanner sees the parser's added lines in order, each as its mark says: not at all, or so many lines too early in the file it believes to be in |
| Trackers.MarkIs | skills/code-review/scripts/check_fallback.go:64-65 | the mark of an inserted line: none behind a text starting with two plus signs, otherwise the lag is the number of lines before it in its hunk that the scanner did not count: markers, empty lines without their space, hidden lines, early context |
| Trackers.PlainFollowed | skills/code-review/scripts/check_fallback.go:52-62 | otherwise only context counts: none from start 2 on, at start 1 that before the first insertion, at start 0 that before the second |
| Trackers.TrackersAgreeExactly | skills/code-review/scripts/check_fallback.go:47-187 | both trackers agree everywhere exactly when, in each hunk that inserts anything, they are in the same file, every inserted line is seen, and no line before one is missed |
| Readers.PythonReadsExactly | skills/code-review/scripts/check_rules.py:252-254 | the Python script reads the same lines as the Go script exactly when every character that ends a line for Python is a newline or a carriage return in front of one |
| PythonScan.ScanPython | skills/code-review/scripts/check_rules.py:256-354 | the Python scan loop, with its own white space, digits and unbounded numbers, computes `PythonView` |
| PythonScan.ScriptsTrackAlike | skills/code-review/scripts/check_rules.py:252-354 | on a text of common characters whose numbers fit an int, both scripts see the same file, number, text and hunk so far at every added line |
| PythonScan.PythonAgreesExactly | skills/code-review/scripts/check_rules.py:252-354 | so there the Python tracker agrees with the parser under the same condition as the Go one |
| PythonScan.SeparatorSplits | skills/code-review/scripts/check_rules.py:254-254 | lines on which they differ: one context line with a form feed or another separator is two to Python |
| HunkIndex.BuildHunkTexts | skills/code-review/scripts/check_fallback.go:270-302 | from the whole text: the index holds exactly the added lines, each with the text of the hunk around it |
| Readers.SplitIsLines | skills/code-review/scripts/check_fallback.go:272-272 | replacing and splitting cuts a text into the lines the scanner reads, at the same indices, exactly when it does not end in a carriage return |
| HunkIndex.IndexOfScannedLines | skills/code-review/scripts/check_fallback.go:42-50 | so the index is that of the lines the scanner reads |
| HunkIndex.HunkLinesAre | skills/code-review/scripts/check_fallback.go:285-299 | an entry is the join of all added and context texts between the nearest `@@` lines |
| HunkIndex.JoinSplits | skills/code-review/scripts/check_fallback.go:279-279 | joined lines are taken apart again by splitting at newlines |
| HunkIndex.StreamIsPieceExactly | skills/code-review/scripts/check_fallback.go:64-74 | in every document, the text seen so far with the line itself is a contiguous piece of the indexed text, preceded by context only, exactly when no context was skipped after an added line of the hunk |
| HunkIndex.GapsAre | skills/code-review/scripts/check_fallback.go:55-60 | that happens only in hunks with start 0, to context between the first and the second added line |
| HunkIndex.IndexedLinesSplit | skills/code-review/scripts/check_fallback.go:180-187 | an indexed text is the skipped context, what was seen, and the rest of the hunk |
| Findings.KeyIsInjective | internal/review/types.go:137-145 | without bars in file and category, keys are equal exactly when normalised file, line, category and rule are |
| Findings.SameKeyExactly | internal/review/types.go:137-145 | for all findings, keys are equal exactly when the fields, cut at their bars, give the same pieces in the same order |
| FindingOrder.NormalExactly | internal/review/types.go:137-145 | a key ignores outer white space and the case of letters, and nothing else |
| Findings.BarInCategory | internal/review/types.go:137-145 | for all trimmed parts, what follows a bar in the category may as well begin the rule: the keys are the same |
| Findings.BarInFile | internal/review/types.go:137-145 | a number after a bar in the file name may as well be the line: two places share a key |
| Findings.StableSortIsUnique | internal/review/types.go:244-253 | there is exactly one stable sort by file, line and rule, and it is the one modelled |
| FindingOrder.SortedMeans | internal/review/types.go:244-253 | sorted: files ascend by the first differing character, in a file lines, in a line rules |
| Findings.DedupeFindings | internal/review/types.go:233-254 | the loop with its map of seen keys computes the stably sorted first occurrences |
| Findings.DedupeIs | internal/review/types.go:233-254 | distinct keys, the same key set, the first occurrence of each key, stably sorted |
| Findings.DedupeIdempotent | internal/review/types.go:233-254 | deduplicating twice is deduplicating once |
| Findings.DedupeAbsorbs | internal/review/types.go:233-254 | a deduplicated part may stand for the part itself in a longer list |
| Findings.DedupeTwice | internal/review/types.go:233-254 | a deduplicated list followed by the original deduplicates to itself |
| ModelReview.KnownKeys | internal/llm/review.go:173-179 | the map of known keys holds the keys of both lists |
| ModelReview.MergeFindings | internal/llm/review.go:172-194 | the merging loop computes `Merge` |
| Placement.MergeAddsExactly | internal/llm/review.go:180-222 | what a merge adds, exactly: the model's first findings of new keys, with their defaults, redacted evidence and source; those of high confidence in any case as findings, the others as warnings that ask for a human |
| ModelReview.MergeConcat | internal/llm/review.go:172-194 | merging two outputs in turn is merging their concatenation |
| ModelReview.MergeTwice | internal/llm/review.go:172-194 | merging the same output again changes nothing |
| ModelReview.MergeKeys | internal/llm/review.go:180-193 | no key is lost; every new key lands in exactly one of findings and warnings |
| ModelReview.OriginalsWin | internal/llm/review.go:180-193 | a merged finding whose key was known is the list's own first finding with that key |
| ModelReview.SnapshotKeys | internal/llm/review.go:163-169 | the provider is shown exactly the keys that merging treats as known, each once |
| ReviewResult.HumanReviewItems | internal/agent/reports.go:227-235 | the deduplicated warnings that ask for a human |
| ReviewResult.CountSeverities | internal/agent/reports.go:204-213 | the counting loops over both lists compute the counts of their concatenation |
| ReviewResult.PermissionBlockCount | internal/agent/reports.go:254-265 | counts the recorded decisions that are neither allow nor dry_run |
| ReviewResult.FinalizeReviewResult | internal/agent/reports.go:42-81 | the result and the shared exception map become functions of lists, counts, context and clock |
| ResultMeaning.ConclusionIs | internal/agent/reports.go:291-330 | the conclusion and its reason: fail when a finding is critical or high in any case; else a review when a warning asks, a run failed or another exception names the sandbox; else pass |
| ResultMeaning.ResultSays | internal/agent/reports.go:42-81 | every metric is the number of what it names, and the summaries list the decisions and runs that are recorded, in order |
| ResultMeaning.DurationsAdd | internal/agent/reports.go:342-348 | the durations of runs add up |
| ResultMeaning.OneDuration | internal/agent/reports.go:342-348 | to that of each run, and to nothing without runs |
| ReviewLaws.RunModelReview | internal/llm/review.go:133-160 | an answer is merged; a failure becomes a warning for a human and one more counted exception |
| ReviewLaws.FinalCountsAre | internal/agent/reports.go:65-73 | sandbox_failed is the number of failed, error or timed_out runs, absent at zero; other counts survive |
| ReviewLaws.FinaliseAbsorbs | internal/agent/agent.go:323-345 | finalising before the model review makes no difference to the last result, despite the shared map |
| ReviewLaws.SeverityCountsSum | internal/agent/reports.go:204-213 | each severity is counted exactly, and the counts sum to findings plus warnings |
| ReviewLaws.VerdictAfterMerge | internal/agent/reports.go:291-330 | for every result, what makes the verdict after a merge fail or pass |
| ReviewLaws.ModelNeverWeakens | internal/agent/reports.go:291-330 | with distinct keys per list the verdict never weakens, and is fail exactly when it was or a new confident severe finding arrived |
| ReviewLaws.AnswerWeakensWhen | internal/llm/review.go:172-194 | without that, exactly when an answer weakens the verdict |
| ReviewLaws.GatherHumanItems | internal/report/report.go:138-146 | the report's human items: those of the result and the asking warnings, deduplicated |
| ReviewLaws.NormaliseReport | internal/report/report.go:13-17 | findings and human items are replaced, nothing else |
| ReviewLaws.ReportAndStorageAgree | internal/agent/persist.go:106-113 | on a finalised result the report changes nothing exactly when its findings are deduplicated; storage holds the deduplicated findings and warnings |
| Governance.GovernedCalls | internal/agent/sandbox_step.go:46-123 | in a governed log the calls are the allowed requests in order, and never ahead of them |
| Governance.AllowedAreRecorded | internal/agent/sandbox_step.go:70-74 | recorded allow decisions name the commands of the allowed requests in order |
| Governance.CountsPartition | internal/agent/reports.go:254-265 | allow, dry_run and blocked decisions partition the non-zero ones |
| ReviewChecks.RunGoSandboxCommand | internal/agent/sandbox_step.go:46-150 | a workspace check and call, on error a second check and call of the code request; decisions are the checks, the run record is what the last event makes of it |
| ChecksMeaning.RefusalMeans | internal/agent/sandbox_step.go:86-89 | a refused request leaves the policy's action as status and nothing else; for the Skill one warning with the policy's reason; a failed policy denies, or ends the Skill step |
| ChecksMeaning.OutputMeans | internal/agent/sandbox_step.go:121-133 | an answered call leaves the clipped output and the digest of the whole of it, a failed one the digest of the error |
| ChecksMeaning.RecordMeans | internal/agent/sandbox_step.go:70-74 | a decision record names command, action, reason and time of its check |
| ReviewChecks.OutcomeMeans | internal/agent/sandbox_step.go:123-150 | a record is ok exactly for a clean answer, failed exactly when its exit code is not 0, timed_out or error after a failed call; it counts as failed exactly when one of these went wrong |
| ReviewChecks.RunGoSandboxChecks | internal/agent/sandbox_step.go:33-43 | one check per review command in order; the records say of a sandbox execution exactly what the log does |
| ReviewChecks.ParseSkillFindings | internal/agent/output_parse.go:37-55 | or the decoding error: the findings are made of the printed findings and the warnings of the printed warnings, each the first of its key, with redacted evidence and a filled status, sorted |
| ToolLists.ListOfIs | internal/agent/output_parse.go:45-54 | what sanitising in place and deduplicating make of a list |
| ChecksMeaning.SkillListsAre | internal/agent/skill_step.go:128-141 | the same of the lists that the Skill step returns |
| ReviewChecks.RunSkillChecks | internal/agent/skill_step.go:55-141 | load, check, call; early errors leave zero records, and nothing else does |
| ReviewChecks.ReadSkillOutput | internal/agent/skill_step.go:107-140 | the method computes record, lists and error from the Skill's answer |
| ReviewChecks.SkillOutcomeMeans | internal/agent/skill_step.go:107-140 | when each status arises: error exactly without a readable answer, else that of the script; an error of the step exactly when the answer or its findings cannot be read, and then no findings |
| ChecksMeaning.SkillOutputMeans | internal/agent/skill_step.go:107-140 | the Skill's record holds the digests of both streams of the script, or of the error |
| ReviewChecks.SkillListsDistinct | internal/agent/output_parse.go:37-55 | the Skill's lists repeat no key, and are empty after an error |
| ReviewChecks.RunDryRun | internal/agent/skill_step.go:14-52 | only the Skill is loaded; a dry_run decision and a skipped run, or zero records after an error |
| ReviewChecks.RunReviewChecks | internal/agent/agent.go:373-408 | by mode and runtime, what is checked and called; every record carries the task id and accounts for the log |
| ReviewChecks.CallsMatchDecisions | internal/agent/agent.go:373-408 | over a whole run the calls match the recorded allow decisions one to one and in order |
| ReviewChecks.MetricsAccount | internal/agent/reports.go:83-90 | SandboxExecuted holds exactly when some Go check's first request was allowed; calls, dry runs and blocks add up to the decisions |
| ReviewChecks.CheckedListsDistinct | internal/agent/agent.go:391-399 | the lists repeat no key unless the Skill itself reported the missing repository |
| AuditStore.ExecKeepsIntegrity | internal/storage/sqlite/sqlite.go:50-160 | every accepted write keeps primary and foreign keys |
| AuditStore.ScriptRuns | internal/storage/sqlite/sqlite.go:245-331 | the statements of a review come to the complete review exactly when the schema's demands on the record are met |
| AuditStore.Store.SaveTask | internal/storage/sqlite/sqlite.go:213-231 | inserts or replaces the task row unless the engine fails |
| AuditStore.Store.SaveFinding | internal/storage/sqlite/sqlite.go:234-242 | succeeds exactly with an existing task and a new key; otherwise nothing changes |
| AuditStore.Store.SaveDecision | internal/storage/sqlite/sqlite.go:403-409 | succeeds exactly with an existing task; otherwise nothing changes |
| AuditStore.Store.SaveSandboxRun | internal/storage/sqlite/sqlite.go:412-418 | the same, and whether execution started is not stored |
| AuditStore.Store.SaveFilterDecision | internal/storage/sqlite/sqlite.go:421-427 | succeeds exactly with an existing task; otherwise nothing changes |
| AuditStore.Store.SaveArtifact | internal/storage/sqlite/sqlite.go:430-436 | succeeds exactly with an existing task; otherwise nothing changes |
| AuditStore.Store.SaveMetrics | internal/storage/sqlite/sqlite.go:543-571 | inserts or replaces the metrics of an existing task |
| AuditStore.Store.SaveReport | internal/storage/sqlite/sqlite.go:334-345 | inserts or replaces the report of an existing task |
| AuditStore.Store.SaveReview | internal/storage/sqlite/sqlite.go:245-331 | all or nothing; commits exactly when no operation fails and the record is committable |
| AuditStore.Store.FindingsByTaskID | internal/storage/sqlite/sqlite.go:366-386 | some sorted arrangement of the task's findings |
| AuditStore.SavedFindingsReadBack | internal/storage/sqlite/sqlite.go:366-386 | saved findings come back complete, in order when no two share file, line and rule |
| AuditStore.SharedRankMayReorder | internal/storage/sqlite/sqlite.go:366-386 | otherwise a different order is a possible answer |
| Persistence.Persist | internal/agent/persist.go:12-103 | builds the record without zero entries and saves it all or nothing; the next row says what it holds |
| Persistence.SavedReviewStores | internal/agent/persist.go:22-102 | the store shows the review handed over: the report texts, the metrics and counts, the recorded decisions in order, the recorded runs in order with only finish time, artifact count and start mark changed, the first finding of each key, each artifact with its own digest, one row for redactions |
| Picking.PicksOnce | internal/agent/persist.go:22-48 | what is kept, in order and each once, is one list |
| Persistence.SavedReviewIs | internal/storage/sqlite/sqlite.go:245-331 | a saved review shows in full under its task and nowhere else |
| Persistence.RecordCommits | internal/agent/persist.go:12-103 | every record a run can build, also after early errors, commits for a task without findings |
| Persistence.RunReadsBack | internal/agent/persist.go:54-54 | a run's findings and warnings read back, in order when ranks are distinct |
| Persistence.ReportArtifactsStored | internal/agent/persist.go:78-103 | each report artifact is stored with digest and size of its own text |
| Lifecycle.LegalKeepsCoherent | internal/agent/agent.go:268-370 | starting, failing and finishing a task keep every task coherent |
| Lifecycle.AlwaysCoherent | internal/agent/agent.go:268-370 | in every state of a legal trail a running or failed task has no child rows, and a done one shows report, metrics and all child rows: exactly a record that an earlier step saved |
| Lifecycle.DoneForEver | internal/agent/agent.go:268-370 | along a legal trail a done task stays exactly as it was saved |
| Lifecycle.RunKeepsSound | internal/agent/agent.go:268-370 | a run's states prolong the legal trail, leave other tasks alone, and end as its ending says |
| Lifecycle.ErrorEndsFailed | internal/agent/agent.go:297-309 | an errored run leaves no child rows: no row exactly when its first write failed, else a failed row, unless its last write failed as well |
| Lifecycle.Review | internal/agent/agent.go:312-345 | the result of a run is what one finalisation at the end would give, with the model shown the checks' findings |
| Lifecycle.Prepare | internal/agent/agent.go:347-355 | an error exactly when building or publishing the reports fails |
| Lifecycle.FinaliseNow | internal/agent/reports.go:42-55 | a finalisation between two readings of the clock |
| Lifecycle.SaveOrFail | internal/agent/agent.go:297-301 | a prepared result is saved as done, or the task row is marked failed; the ending says which |
| Lifecycle.RunStored | internal/agent/agent.go:297-366 | the running row first, then the saved review or the failed row; errors come from reports or the engine only |
| Lifecycle.RunDirect | internal/agent/agent.go:268-370 | nothing happens before a task id exists; afterwards the events are exactly those of what was done, with one terminal event, the last one, that tells how the run ended |
| RunMeaning.NoticesTell | internal/agent/agent.go:276-366 | the events between input and end: the Skill, every recorded run by its command in order, what the model brought, the reports |
| RunMeaning.RunConcludes | internal/agent/agent.go:310-345 | the conclusion of a run by its final lists and recorded runs |
| RunMeaning.SkillErrorTells | internal/agent/agent.go:312-322 | an error of the Skill step becomes one more warning that asks for a human, and one exception |
| RunMeaning.ModelErrorTells | internal/llm/review.go:241-260 | so does a failure of the model provider |
| RunVerdict.RunNeverWeakens | internal/agent/agent.go:323-345 | asking a model never weakens the verdict of a run whose warnings repeat no key |
| RunVerdict.RunWeakensExactly | internal/agent/agent.go:323-345 | for every run: its verdict is weakened exactly when a model answered and the one reason for a review was a missing repository that the Skill had reported as well |
| RunVerdict.RepoNotedWeakens | internal/llm/review.go:172-194 | such lists: the Skill reported the missing repository as a mere warning, and an empty answer turns needs_human_review into pass |
| RunVerdict.UncheckedNeverPasses | internal/agent/agent.go:373-445 | a run in dry-run mode, on an unsupported runtime, without its repository or with a failed Skill never passes, that one case aside |
| Runs.NewStoreIsSound | internal/storage/sqlite/sqlite.go:50-160 | a new store is sound, so the next two rows hold from the first run on |
| Runs.RunOnce | internal/agent/agent.go:268-370 | a run on a sound store keeps it sound and other tasks as they are; after a result its task shows in full the review that led to it: the result, the decisions and runs of its checks and the report texts built from it; after an error a bare row, failed unless its first or last write failed |
| Runs.RunAll | internal/agent/agent.go:268-370 | over any number of runs on one store, whatever fails: in every state every task is coherent, each done task shows in full the record of the result its run returned and keeps it, and each task ends showing what its run returned |
| Gate.AllowsCodeExecFallback | internal/approval/gate.go:61-92 | true exactly when the one code block stands for a listed command |
| GateMeaning.PolicyExactly | internal/approval/gate.go:22-101 | the answer to every request: a missing one is denied; the Skill's own command, a listed workspace command and one block of code for a listed command are allowed; a human is asked about all the rest |
| GateMeaning.CodeForIs | internal/approval/gate.go:61-92 | code for a command is the command, or a change of directory, perhaps the cache, and then the command |
| Gate.DefaultPermissionCommands | internal/agent/agent.go:135-146 | the loop computes the default allowlist |
| Gate.ListHolds | internal/agent/agent.go:135-146 | every generated bounded command is on the allowlist for its limit |
| Gate.WorkspaceAlwaysAllowed | internal/approval/gate.go:22-39 | the bounded workspace command is allowed for every runtime, command and limit |
| Gate.FallbackAllowedExactly | internal/approval/gate.go:61-92 | the generated fallback is allowed exactly when the visible path has no ` && ` in it |
| Gate.DefaultPolicyExecutes | internal/agent/sandbox_step.go:33-43 | under the default policy attempted Go checks execute |
| Gate.DefaultPolicyRunsSkill | internal/approval/gate.go:41-49 | under the default policy a loaded Skill is always called |
| Shell.QuoteIsOneWord | internal/execution/exec.go:240-242 | for every value, quoting makes one shell word with that value |
| Shell.BoundedTokens | internal/execution/exec.go:145-151 | a bounded command is bash, -o, pipefail, -c and exactly the unquoted pipeline |
| Shell.GeneratedTexts | internal/execution/exec.go:137-151 | the texts of pipeline, review commands, container paths and cache |
| Shell.FallbackTokens | internal/execution/exec.go:226-237 | for every path the fallback code is three commands joined by &&, with the path as one word |
| JsonScan.FirstJSONObject | internal/llm/bridge.go:183-219 | the shortest brace-balanced piece from the first brace, or empty if none closes |
| JsonScan.FirstObjectUnique | internal/llm/bridge.go:183-219 | there is only one such piece |
| JsonScan.ObjectIsFound | internal/llm/bridge.go:183-219 | for every JSON object text, prefix without `{` and suffix, the object comes out |
| JsonScan.ReadStream | internal/llm/bridge.go:82-98 | messages replace, deltas extend, blank ones are ignored, the first error ends the stream |
| JsonScan.StreamJoins | internal/llm/bridge.go:89-98 | a text cut into deltas is put together again exactly when no blank delta is lost |
| JsonScan.BlankDeltaLost | internal/llm/bridge.go:94-96 | a lone blank between two pieces is lost |
| JsonScan.DecodeOutput | internal/llm/bridge.go:145-168 | the first candidate that decodes, in the order whole text, fenced blocks, first object |
| JsonScan.EmbeddedObjectDecodes | internal/llm/bridge.go:145-168 | an object embedded in prose is what gets decoded when nothing before it is |
| Truncation.SandboxRunOutput | internal/agent/output_parse.go:98-107 | over the limit the longest valid UTF-8 prefix within it is kept, and the loop ends |
| Utf8.EncodedIsOne | internal/agent/output_parse.go:102-104 | the encoding of every Unicode scalar value, whatever follows, is one character |
| Utf8.ValidExactly | internal/agent/output_parse.go:102-104 | a text is valid exactly when it is a sequence of encoded scalar values |
| Truncation.AtMostThreeLost | internal/agent/output_parse.go:98-107 | of a valid text at most three bytes below the limit are dropped |
| Truncation.CutSplits | internal/agent/output_parse.go:98-107 | what is cut off is valid exactly when the whole text was |
| Truncation.Monotone | internal/agent/output_parse.go:98-107 | a smaller limit keeps a prefix of what a larger one keeps |
| Rules.Run | internal/rules/rules.go:23-299 | the nested loops compute the reports of all files |
| Rules.JoinText | internal/rules/rules.go:301-317 | the texts of the first lines, each with a newline |
| Rules.RunDistributes | internal/rules/rules.go:23-299 | the run over concatenated files is the concatenation of the runs |
| Rules.HunkReportsAre | internal/rules/rules.go:30-296 | a hunk's reports are exactly those its added lines cause, each naming its line; nothing outside the hunk matters |
| RulesMeaning.RuleReportsExactly | internal/rules/rules.go:30-426 | for every rule, which added lines it reports, by the texts of the line and of the other lines of its hunk, and what the report says |
| Rules.SearchJoined | internal/rules/rules.go:301-337 | searching a hunk's text for a newline-free needle is searching its lines |
| Rules.ContextCreatesNoLeak | internal/rules/rules.go:328-426 | inserting context lines anywhere, whatever they renumber, never creates a body, mutex, goroutine, context, resource or database leak report: it was there before at the same added line |

## Left out

- Text is a sequence of Unicode characters; invalid UTF-8 appears in `Truncation` only, and lower-casing is that of
  ASCII letters.
- SHA-1 and SHA-256 are taken to be free of collisions: a dedupe key is the text before hashing, and the primary key of
  a finding row is the pair of task id and key.
- Go's int has 64 bits; line counters wrap in the parser, other counts are unbounded.
- The scanner's limit of one megabyte per line.
- HunkIndex.IndexOfScannedLines: leaves out a lone carriage return at the very end, which the scanner drops and the
  split keeps.
- Trackers.TrackersAgreeExactly: is about trap-free diffs (on others the parser itself misreads the diff), whose
  further preamble lines start like none of the lines the scanner knows.
- HunkIndex.StreamIsPieceExactly: the numbers of hunks that add lines are taken to be so small that no counter wraps.
- PythonScan.ScriptsTrackAlike: leaves out texts with digits beyond ASCII, with the separators 0x1C to 0x1F, or with
  numbers that do not fit an int; the index of hunk texts is modelled for the Go script only.
- Parsed fields that nothing modelled here reads: the line counts of a hunk header and package names.
- `sort.SliceStable` is modelled as the one stable sort there is, SQLite's ORDER BY as any sorted arrangement.
- Regular expressions, `RedactSecrets`, `shouldReportSecret`, SQL concatenation and command injection tests of a line,
  and JSON decoding are parameters of which only the type is known; redaction is not taken to be idempotent.
- Rules.ContextCreatesNoLeak: names found by the regular expressions are taken to contain no newline.
- RulesMeaning.RuleReportsExactly: takes the same of names, and of the left side of +=.
- JsonScan.ObjectIsFound: numbers and the three literals are any text over their characters, more than the grammar has.
- JsonScan.ReadStream: error texts are passed on without the redacted prefix the agent puts in front.
- Shell.QuoteIsOneWord: the tokenizer gives no result for texts that need an expansion or hold a comment; field
  splitting and pathname expansion come after it and are not modelled.
- Clocks are parameters; a stored time is a number, and zero is Go's zero time.
- A commit that fails is taken to leave the database unchanged; a database is fresh, without the legacy tables.
- Task ids are taken to be new: a run on the id of an earlier run is not modelled.
- Titles, recommendations and severities of rule findings, Markdown rendering, artifact size checks.
- Equality of the finding sets of the two Skill scanners; only line tracking and hunk texts are related.
- Command line, configuration, HTTP and OpenAI providers, telemetry, Docker set-up, the channel relay of the runner,
  file reading, path resolution and `git diff`.
