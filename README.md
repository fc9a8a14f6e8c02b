# Pentagon Protocol core, modelled in Dafny

A model of the two algorithmic parts of the Pentagon Protocol multi-agent code generator, with
proofs of what they promise.

**The JSON recovery ladder of `src/schemas.py`.** Every agent reply goes through it:

- `extract_json_from_text` finds a JSON candidate in prose.
- `fix_common_json_errors` applies four textual fixes.
- `repair_truncated_json` closes what a truncated reply left open.
- `safe_parse_json` drives these as a first-success ladder.
- The `_recover_*` salvagers pick complete objects out of a reply that no rung could parse.
- The Pydantic field validators normalise the enum fields.
- The `validate_*` guardrails check the stage outputs.

**The orchestration of `src/crew.py`.** This covers:

- the rerun planner (`AGENT_DEPENDENCIES` and `_add_agent_dependencies`);
- the QA predicates;
- the fallback and manager decisions;
- `ContextManager`, which keeps the last good output of each stage;
- the retry loop `_execute_task_with_recovery`;
- the bounded QA feedback loop of `PentagonCrew.run`.

What the code cannot see is a parameter of the model:

- `json.loads`, Pydantic's structural decoding and the salvagers' regular-expression scans are the fields of `Ladder.Runtime`.
- The language-model generator and the manager's replies are fields of `Pipeline.World`.
- Modules downstream of the ladder take the ladder as a function `parse` that must satisfy `Ladder.Conforms`: every success is a normalised record of the requested schema. `Ladder.ParserConforms` proves that `safe_parse_json` bound to a model class satisfies it, and `Pipeline.LadderWorldSound` proves it for a whole world built on the ladder.

Modules, one file each:

| file | module | models |
|---|---|---|
| wrappers.dfy | `Wrappers` | `Option` |
| text.dfy | `Text` | the Python `str` methods the core uses |
| lists.dfy | `Lists` | list-building and search idioms |
| json.dfy | `JsonValue` | decoded JSON values and Python truthiness |
| extract.dfy | `Extract` | `extract_json_from_text` |
| fix.dfy | `Fix` | `fix_common_json_errors` |
| repair.dfy | `Repair` | `repair_truncated_json` |
| records.dfy | `Records` | the output schemas and their field validators |
| salvage.dfy | `Salvage` | `recover_truncated_output` and the `_recover_*` salvagers |
| ladder.dfy | `Ladder` | `safe_parse_json` |
| guards.dfy | `Guards` | the `validate_*` guardrails |
| planner.dfy | `Planner` | `AGENT_DEPENDENCIES` and `_add_agent_dependencies` |
| context.dfy | `Context` | `ContextManager` |
| executor.dfy | `Executor` | `_extract_output` and `_execute_task_with_recovery` |
| qa.dfy | `Qa` | `_check_qa_passed`, the issue collectors, and the fallback and manager decisions |
| pipeline.dfy | `Pipeline` | `PentagonCrew.run` |

Where the source changes state step by step, the model does too:

- The salvager loops, the `extract_json_from_text` pattern loop, the quote scan, the planner's set building and the retry loop are methods with loops, each proved equal to a specification function.
- `ContextManager` and `PentagonCrew` are classes whose methods update their fields.

## Model

| member | source | states |
|---|---|---|
| Text.StripTrims | src/schemas.py:23 | `strip()` leaves text that neither starts nor ends with whitespace |
| Text.Find | src/schemas.py:43 | `find` gives -1 exactly when the character is absent, otherwise its first index |
| Text.RFind | src/schemas.py:44 | `rfind` gives -1 exactly when the character is absent, otherwise its last index |
| Text.Count | src/schemas.py:85-86 | `count` is at most the length, and 0 exactly when the character is absent |
| Extract.DelimitedLazy | src/schemas.py:30-36 | every group of a fence pattern ends at the first closer: no group contains the closer |
| Extract.FirstOpeningNone | src/schemas.py:37-40 | the match loop finds nothing exactly when no stripped match starts with `{` or `[` |
| Extract.FirstOpeningAt | src/schemas.py:37-40 | the match loop returns the first stripped match that starts with `{` or `[` |
| Extract.FirstFenced | src/schemas.py:35-40 | a candidate from the fence patterns starts with `{` or `[` |
| Extract.Span | src/schemas.py:43-52 | a brace or bracket span starts with the opener and ends with the closer |
| Extract.SpanIsWidest | src/schemas.py:43-52 | the span runs from the first opener to the last closer; there is none exactly when no closer follows any opener |
| Extract.ExtractJson | src/schemas.py:17-54 | empty input gives nothing, and any result starts with `{` or `[` |
| Extract.FromStripped | src/schemas.py:23-54 | each of the four strategies yields only text starting with `{` or `[` |
| Extract.FirstOpeningMatch | src/schemas.py:37-40 | the loop over one pattern's matches returns the first stripped match that opens JSON |
| Extract.FencedCandidate | src/schemas.py:30-40 | the loop over the three patterns, in order, computes the fenced candidate |
| Extract.SpanCandidate | src/schemas.py:43-52 | the `find`/`rfind` code computes the span |
| Extract.StrippedCandidate | src/schemas.py:23-54 | the four strategies run in order on the stripped text |
| Extract.ExtractJsonFromText | src/schemas.py:17-54 | the procedure equals its specification `Extract.ExtractJson` |
| Extract.EnclosedReturnedUnchanged | src/schemas.py:23-27 | text that, trimmed, starts and ends with matching `{}` or `[]` is returned trimmed and unchanged |
| Extract.SpanFallback | src/schemas.py:42-54 | without a whole object or fence, the result is the brace span, else the bracket span, else nothing |
| Extract.FencedBlockExtracted | src/schemas.py:29-40 | a ```json fence around a JSON body, followed by any prose, yields the stripped body |
| Fix.ReplaceControlChars | src/schemas.py:63 | same length, every control character becomes a space, every other character is kept |
| Fix.DropTrailingCommas | src/schemas.py:66-67 | the trailing-comma pass never lengthens the text |
| Fix.DropTrailingCommasChanges | src/schemas.py:66-67 | the pass changes the text exactly when a comma is followed, past whitespace, by the closer |
| Fix.DropAvoids | src/schemas.py:66-67 | after one pass no comma is followed by the closer, provided no comma is followed by a comma |
| Fix.KeyIsWord | src/schemas.py:70 | a matched bare key name consists of word characters |
| Fix.QuoteBareKeysUnchanged | src/schemas.py:70 | text with no bare key passes through unchanged |
| Fix.QuoteBareKeysAvoids | src/schemas.py:70 | quoting bare keys never places a closer right after a comma |
| Fix.QuoteSingleKeysAvoids | src/schemas.py:73-74 | re-quoting single-quoted keys never places a closer right after a comma |
| Fix.DropTrailingCommasNoControl | src/schemas.py:66-67 | the comma passes bring in no control character |
| Fix.QuoteBareKeysNoControl | src/schemas.py:70 | quoting bare keys brings in no control character |
| Fix.QuoteSingleKeysNoControl | src/schemas.py:73-74 | re-quoting single-quoted keys brings in no control character |
| Fix.FixCommonJsonErrors | src/schemas.py:57-60 | empty input is returned unchanged |
| Fix.FixLeavesNoControl | src/schemas.py:57-76 | no character in `\x00-\x1f` or `\x7f-\x9f` survives the fixes |
| Fix.FixLeavesNoTrailingComma | src/schemas.py:57-76 | no comma followed only by whitespace precedes `}` or `]`, provided no comma is followed by a comma |
| Fix.DoubleCommaSurvives | src/schemas.py:66 | the single pass turns `,,}` into `,}`, which still has a trailing comma |
| Repair.Step | src/schemas.py:91-99 | a backslash escapes the next character unless it is itself escaped; only a quote toggles the string flag |
| Repair.ScanQuotes | src/schemas.py:88-99 | the loop computes the escape-aware scan `Repair.Scan` |
| Repair.ScanWithoutQuote | src/schemas.py:88-99 | text without `"` never opens or closes a string |
| Repair.ScanEscapedLast | src/schemas.py:92-97 | a scan that ends escaped ends on an unescaped backslash |
| Repair.CutTrailingComma | src/schemas.py:106 | the text is unchanged, or loses exactly a final comma and the whitespace after it |
| Repair.TrailingCommaCut | src/schemas.py:106 | a final comma followed only by whitespace is always cut |
| Repair.CutAfterQuote | src/schemas.py:102-106 | once a quote was appended, no trailing comma is cut |
| Repair.Closers | src/schemas.py:109-110 | `c * n` has `max(n, 0)` copies of `c` |
| Repair.RepairTruncatedJson | src/schemas.py:79-112 | the procedure equals `Repair.RepairAsWritten` |
| Repair.UnclosedAfterEscape | src/schemas.py:91-103 | for `"\` the appended quote is escaped, so the repaired text is still inside a string |
| Repair.CloseText | src/schemas.py:101-106 | corrected: a quote closes an open string, a dangling backslash is dropped first, and otherwise a trailing comma is cut |
| Repair.RepairTruncated | src/schemas.py:79-82 | empty input is returned unchanged |
| Repair.RepairClosesString | src/schemas.py:101-103 | the corrected repair (not used by the ladder) always ends outside a string literal |
| Repair.CutKeepsCount | src/schemas.py:106 | cutting the trailing comma changes no bracket count |
| Repair.CloseTextKeepsCounts | src/schemas.py:101-106 | closing the string and cutting the comma change no bracket count |
| Repair.RepairBalances | src/schemas.py:84-110 | with no surplus closers in the input, the corrected output has equal counts of `{`/`}` and `[`/`]` |
| Repair.RepairAsWrittenBalances | src/schemas.py:84-110 | the same balance holds for the repair as written |
| Repair.RepairShape | src/schemas.py:101-110 | the corrected repair changes only the end of the text, then appends every `]` before every `}` |
| Repair.RepairAsWrittenShape | src/schemas.py:101-110 | as written: one quote exactly when the scan ends inside a string, otherwise the comma cut, then `]`s then `}`s |
| Records.ValidatePriority | src/schemas.py:427-433 | the priority is one of high, medium, low |
| Records.PriorityRecognised | src/schemas.py:429-433 | a priority is kept (lowered and stripped) exactly when recognised, otherwise it becomes medium |
| Records.PriorityFixes | src/schemas.py:429-433 | every value in the range is left as it is |
| Records.PriorityIdempotent | src/schemas.py:429-433 | validating twice is validating once |
| Records.PriorityIgnoresCase | src/schemas.py:430 | upper-casing the input does not change the result |
| Records.ValidateMethod | src/schemas.py:448-454 | the method is one of GET, POST, PUT, DELETE, PATCH |
| Records.MethodRecognised | src/schemas.py:450-454 | a method is kept (upper-cased and stripped) exactly when recognised, otherwise it becomes GET |
| Records.MethodFixes | src/schemas.py:450-454 | every value in the range is left as it is |
| Records.MethodIdempotent | src/schemas.py:450-454 | validating twice is validating once |
| Records.MethodIgnoresCase | src/schemas.py:451 | lower-casing the input does not change the result |
| Records.ValidateStatusAsWritten | src/schemas.py:500-510 | as written: the status is one of pass, fail, skip, skipp; an unrecognised status becomes skip, `failed` becomes fail and `skipped` becomes skipp |
| Records.StatusAsWrittenStems | src/schemas.py:504-510 | as written, pass and passed (and only they) give pass; fail and failed (and only they) give fail |
| Records.StatusAsWrittenNotIdempotent | src/schemas.py:504-510 | as written, validating twice differs from validating once: `skipped` gives `skipp`, and `skipp` gives `skip` |
| Records.SkippedBecomesSkipp | src/schemas.py:508-509 | as written, any spelling of `skipped` gives `skipp`, which is not a status |
| Records.ValidateStatus | src/schemas.py:500-510 | corrected (the intended validator, not used by the rest of the model): the status is one of pass, fail, skip |
| Records.StatusStems | src/schemas.py:503-510 | pass/passed give pass, fail/failed give fail, and nothing else gives either |
| Records.StatusFixes | src/schemas.py:502-510 | every value in the range is left as it is |
| Records.StatusIdempotent | src/schemas.py:502-510 | validating twice is validating once |
| Records.ValidateResponsibleAgent | src/schemas.py:512-519 | the agent is one of the four agents or empty |
| Records.AgentRecognised | src/schemas.py:514-519 | a name is kept exactly when it is an agent after lowering and stripping |
| Records.AgentFixes | src/schemas.py:514-519 | every value in the range is left as it is |
| Records.AgentIdempotent | src/schemas.py:514-519 | validating twice is validating once |
| Records.ValidateOverallStatus | src/schemas.py:538-548 | the overall status is one of pass, fail, needs_review |
| Records.OverallPassOnlyFromPass | src/schemas.py:540-548 | the verdict is pass exactly when the input is pass or passed, in any case and with any surrounding whitespace |
| Records.OverallFixes | src/schemas.py:540-548 | every value in the range is left as it is |
| Records.OverallIdempotent | src/schemas.py:540-548 | validating twice is validating once |
| Records.Validated | src/schemas.py:427-548 | after the field validators as written every enum field is in its range (a test-case status may be `skipp`), and the schema is unchanged |
| Salvage.UnescapeContentPlain | src/schemas.py:281 | content without a backslash is salvaged unchanged |
| Salvage.RecoverUserStories | src/schemas.py:208-231 | nothing exactly when no story object matched; otherwise one story per match, ids kept, priorities validated, summary or "" |
| Salvage.RecoverUserStoriesLoop | src/schemas.py:213-231 | the loop equals `Salvage.RecoverUserStories` |
| Salvage.RecoverSystemDesign | src/schemas.py:234-269 | nothing exactly when neither models nor endpoints matched; otherwise both lists non-empty (placeholders fill the gaps), methods validated |
| Salvage.RecoverSystemDesignLoop | src/schemas.py:239-269 | the loops equal `Salvage.RecoverSystemDesign` |
| Salvage.FilesOf | src/schemas.py:277-298 | the files with a description, or, only when there are none, the simpler matches; one file per match, names kept |
| Salvage.CollectFiles | src/schemas.py:277-298 | the two file loops equal `Salvage.FilesOf` |
| Salvage.FindFileNamed | src/schemas.py:302 | the `any(...)` search is true exactly when some file name, lowered, contains the key |
| Salvage.RecoverBackendCode | src/schemas.py:272-312 | a record exactly when some salvaged file is named like main; setup text or the default |
| Salvage.RecoverFrontendCode | src/schemas.py:315-353 | a record exactly when some salvaged file is named like index; setup text or the default |
| Salvage.RecoverBackendCodeLoop | src/schemas.py:272-312 | the procedure equals `Salvage.RecoverBackendCode` |
| Salvage.RecoverFrontendCodeLoop | src/schemas.py:315-353 | the procedure equals `Salvage.RecoverFrontendCode` |
| Salvage.CasesOf | src/schemas.py:361-381 | the complete test cases, or, only when there are none, the short matches; ids kept |
| Salvage.CollectCases | src/schemas.py:361-381 | the two loops equal `Salvage.CasesOf` |
| Salvage.RecoverTestReport | src/schemas.py:356-413 | nothing exactly when no test case matched; otherwise the cases, four empty issue lists, and the summary and recommendations found or empty |
| Salvage.SalvagedVerdict | src/schemas.py:383-386 | without an overall status the report needs review; it passes only when the text says pass or passed |
| Salvage.SalvagedCasesNormal | src/schemas.py:406-412 | every salvaged case has a status and agent in the range of the validators as written |
| Salvage.RecoverTestReportLoop | src/schemas.py:356-413 | the procedure equals `Salvage.RecoverTestReport` |
| Salvage.RecoverTruncatedOutput | src/schemas.py:188-205 | a salvaged record has the requested schema and normal fields |
| Ladder.ModelValidate | src/schemas.py:154 | a validated record has the schema asked for and normal fields |
| Ladder.Attempt | src/schemas.py:151-157 | a rung succeeds only on text `json.loads` accepts; without a schema it yields that value, with one a normal record of the schema |
| Ladder.Rungs | src/schemas.py:150-172 | three candidates, the raw extraction first; then `fix_common_json_errors` of it and `repair_truncated_json` as written of that |
| Ladder.Climb | src/schemas.py:150-185 | a success comes from one of the three rungs or, with a schema, from the salvager |
| Ladder.SafeParse | src/schemas.py:137-185 | with a schema, every success is a normal record of it; without one, a value `json.loads` gave for a rung of the extracted candidate |
| Ladder.FirstAttempt | src/schemas.py:150-177 | the reference "first rung that parses": it parses, and none is found exactly when no rung parses |
| Ladder.ClimbIsFirstSuccess | src/schemas.py:150-185 | the climb is the first rung that parses, otherwise the salvaged record when a schema was asked for |
| Ladder.SafeParseIsFirstSuccess | src/schemas.py:137-185 | `safe_parse_json` is the first of raw, fixed, repaired (by `repair_truncated_json` as written) that parses; otherwise the salvager on the original text, only with a schema |
| Ladder.FailureCauses | src/schemas.py:142-185 | "Empty input" exactly for empty text, "No JSON found" exactly when extraction fails, and the last message exactly when all rungs and salvage fail |
| Ladder.LaterRungsIgnored | src/schemas.py:150-177 | rungs after a successful one never affect the outcome |
| Ladder.WellFormedObjectPassesThrough | src/schemas.py:146-155 | an object that `json.loads` accepts as it stands comes back as that value, with no fix or repair applied |
| Ladder.SalvageSeesOriginal | src/schemas.py:179-183 | salvage depends only on the scan of the original text, not of the candidate |
| Ladder.ParserConforms | src/schemas.py:137-185 | the ladder bound to a model class yields only normal records of that class |
| Guards.OrUnknown | src/schemas.py:570 | `x or 'unknown'` is non-empty and keeps a non-empty `x` |
| Guards.ValidateUserStories | src/schemas.py:555-574 | an accepted output is a normal user-stories record |
| Guards.UserStoriesAccepted | src/schemas.py:555-574 | accepted exactly when the ladder yields stories, at least one, each with id, title and description |
| Guards.ValidateSystemDesign | src/schemas.py:577-604 | an accepted output is a normal system-design record |
| Guards.SystemDesignAccepted | src/schemas.py:577-604 | accepted exactly when there are models and endpoints, each model named with fields, each endpoint with path and description |
| Guards.CheckFiles | src/schemas.py:616-627 | no refusal exactly when files exist, one is named like the entry file, and all have a name and content |
| Guards.ValidateBackendCode | src/schemas.py:607-631 | accepted exactly when the ladder yields backend files that pass those checks for `main` |
| Guards.ValidateFrontendCode | src/schemas.py:634-658 | accepted exactly when the ladder yields frontend files that pass those checks for `index` |
| Guards.ValidateTestReport | src/schemas.py:661-701 | an accepted output is a normal report with no cross-field problem |
| Guards.ReportProblemIff | src/schemas.py:670-697 | a validated report is refused exactly when it has no cases, an incomplete case, a failed case without an agent, or pass beside a failure |
| Guards.ReportRefusals | src/schemas.py:670-697 | which refusal: no cases; the ids of failed cases without an agent; the number of failures beside pass |
| Guards.IncompleteCaseNamed | src/schemas.py:674-676 | the refusal for the first incomplete case names that case |
| Planner.Rank | src/crew.py:744-751 | the position in the execution order, below 4 exactly for the four agents |
| Planner.DependenciesTransitive | src/crew.py:40-45 | the table covers the four agents, is transitively closed, and points strictly downstream |
| Planner.AddAgentDependencies | src/crew.py:734-751 | the loop and the comprehension compute `Planner.Closure` |
| Planner.ExpandedAgents | src/crew.py:736-741 | an agent is in the expansion exactly when it or an upstream agent is an input |
| Planner.ClosureMembers | src/crew.py:734-751 | exactly the known inputs and their listed downstream agents; unknown names dropped |
| Planner.ClosureOrdered | src/crew.py:744-751 | the result is strictly in pipeline order |
| Planner.ClosureDistinct | src/crew.py:744-751 | no agent appears twice |
| Planner.ClosureEmpty | src/crew.py:734-751 | no input, no output |
| Planner.ClosureMonotone | src/crew.py:734-751 | more inputs never drop an agent |
| Planner.ClosureIdempotent | src/crew.py:734-751 | planning a plan changes nothing |
| Planner.ClosureIsLeast | src/crew.py:734-751 | the one-step expansion is closed downstream and is contained in every closed set holding the known inputs |
| Qa.NoFailedCaseIff | src/crew.py:834-838 | the case loop passes exactly when no case's lowered status is fail |
| Qa.CheckQaPassed | src/crew.py:822-840 | true exactly when the stage succeeded, the lowered overall status is pass, and no case failed |
| Qa.AcceptedReportPassesIffOverallPass | src/crew.py:822-840 | on a report the guardrail accepts, QA passes exactly when the overall status is pass |
| Qa.CollectIssueAgents | src/crew.py:851-866 | the two loops compute the agents with issues |
| Qa.GetAgentsWithIssues | src/crew.py:842-866 | nothing when QA did not succeed, otherwise the agents with issues |
| Qa.GetAgentsWithIssuesFromReport | src/crew.py:708-732 | nothing without a stored report, otherwise the agents with issues of that report |
| Qa.IssueAgentsMembers | src/crew.py:842-866 | exactly the agents with a non-empty issue list and the agents of failed cases; on a validated report the latter are real agents |
| Qa.AcceptedFailuresNameAgents | src/crew.py:857-864 | on an accepted report every failed case names an agent that is then collected |
| Qa.ListOf | src/crew.py:699 | `list(s)` holds exactly the members of `s` |
| Qa.GetFallbackDecision | src/crew.py:686-706 | the procedure computes the fallback decision on the stored report |
| Qa.FallbackOutcomes | src/crew.py:686-706 | stop on a passing report; otherwise continue exactly when some agent has issues, re-running each known one and all agents downstream |
| Qa.FallbackMayContinueWithEmptyPlan | src/crew.py:696-701 | issues listed only under an unknown name give `should_continue` true with an empty plan |
| Qa.ValidNames | src/crew.py:670-672 | exactly the valid agent names listed in the reply |
| Qa.RerunCandidates | src/crew.py:666-672 | lists, strings and dicts can be iterated (only agent names kept); anything else raises |
| Qa.GetManagerDecision | src/crew.py:639-684 | the manager's decision: the reply's flag and the closure of its valid names, or the fallback on any failure |
| Qa.ClosureIsPlan | src/crew.py:734-751 | a closure is a plan: known agents, in order, closed downstream |
| Qa.DecisionIsPlan | src/crew.py:639-706 | whatever the manager replies, and in the fallback, the agents to re-run form a plan |
| Qa.ListedNamesPlanned | src/crew.py:664-675 | a reply listing names re-runs exactly the listed known agents and their downstream agents |
| Context.KeptAllIsLastSuccess | src/crew.py:72-95 | after any series of updates a field holds the last successful data, or its old value; good data is never erased |
| Context.FeedbackSelects | src/crew.py:229-265 | an agent is shown exactly its failed cases, its own issues, and all recommendations |
| Context.FeedbackIsPrivate | src/crew.py:245-250 | no failed case is shown to two different agents |
| Context.ContextManager.constructor | src/crew.py:64-70 | no prompt and no stored output |
| Context.ContextManager.UpdateUserStories | src/crew.py:72-75 | stores the data only on success; nothing else changes |
| Context.ContextManager.UpdateSystemDesign | src/crew.py:77-80 | stores the data only on success; nothing else changes |
| Context.ContextManager.UpdateBackendCode | src/crew.py:82-85 | stores the data only on success; nothing else changes |
| Context.ContextManager.UpdateFrontendCode | src/crew.py:87-90 | stores the data only on success; nothing else changes |
| Context.ContextManager.UpdateTestReport | src/crew.py:92-95 | stores the data only on success; nothing else changes |
| Context.ContextManager.Clear | src/crew.py:422-429 | all six fields back to their initial values |
| Context.ContextManager.QaFeedback | src/crew.py:229-265 | nothing without a report; otherwise exactly the failed cases assigned to the agent |
| Executor.ExtractOutput | src/crew.py:480-524 | the framework's record when present; otherwise success exactly when the ladder succeeds, with a normal record of the schema, or the ladder's error |
| Executor.Step | src/crew.py:557-575 | a failed attempt sets `last_error`, or changes nothing |
| Executor.Tries | src/crew.py:540 | exactly `max_retries + 1` attempts |
| Executor.FinalRecovery | src/crew.py:577-606 | success exactly when the last raw text is non-empty and the ladder parses it; the raw text is kept |
| Executor.ExecuteTaskWithRecovery | src/crew.py:526-606 | the loop equals the specification `Executor.Recovery` over the first `max_retries + 1` attempts |
| Executor.NoSuccess | src/crew.py:577-606 | with no successful attempt, the result is the final recovery on `last_error` and `last_raw` |
| Executor.FirstSuccessReturned | src/crew.py:540-560 | the first attempt that yields a usable output is returned |
| Executor.FailureMeansNothingWorked | src/crew.py:577-606 | a failure means no attempt succeeded and the final recovery found nothing in the kept raw text |
| Executor.FinalRecoveryOnlyAfterException | src/crew.py:566-582 | when the last attempt produced output, the call succeeds exactly when some attempt did |
| Executor.LastRawRefused | src/crew.py:554-563 | after a refused last output (one the framework did not decode), `last_raw` is that output's text, which the ladder refuses, and `last_error` is the ladder's error on it |
| Executor.ParsedRecordsConform | src/crew.py:510-517 | records from the ladder have the stage's schema and normal fields |
| Executor.AtMostMaxRetriesPlusOne | src/crew.py:540 | generators that agree on the first `max_retries + 1` attempts give the same result |
| Pipeline.LadderWorldSound | src/crew.py:511 | a world built on `safe_parse_json` only yields records of the requested schema |
| Pipeline.StageOfAgent | src/crew.py:1200-1278 | a name has a stage exactly when it is one of the four agents |
| Pipeline.PlanStagesOrdered | src/crew.py:1199-1278 | a plan's stages run in pipeline order, one per agent, never QA |
| Pipeline.CountSucceeded | src/crew.py:1327 | at most one success per phase |
| Pipeline.PentagonCrew.constructor | src/crew.py:442-446 | a fresh, empty context; no phase result, decision, task or QA iteration yet |
| Pipeline.PentagonCrew.RunStage | src/crew.py:1117-1127 | the phase gets the retry loop's result, the context keeps it on success, and the context stays consistent |
| Pipeline.PentagonCrew.InitialRun | src/crew.py:1012-1127 | the five stages run once in order, every phase has its task's result, and the context is consistent |
| Pipeline.PentagonCrew.RunPass | src/crew.py:1199-1296 | the planned agents' stages run in order, then QA |
| Pipeline.PentagonCrew.Decide | src/crew.py:1163-1167 | the decision is a plan |
| Pipeline.PentagonCrew.Consult | src/crew.py:1163-1298 | logs one decision with its iteration; stops exactly when told to stop or on an empty plan, otherwise runs the pass and counts one more QA iteration |
| Pipeline.PentagonCrew.QaLoop | src/crew.py:1141-1305 | ends with 1 to 5 iterations, one logged decision per consulted iteration (the last iteration logs none when QA passed, QA failed or the cap was reached), and a stop reason the state shows; the stages run are the initial run, then each pass |
| Pipeline.PentagonCrew.Run | src/crew.py:950-1331 | the loop's guarantees, plus: success exactly when at least four phases succeeded and QA passed |

## Left out

- `json.loads`, Pydantic's `model_validate` and `model_dump`, and the regular-expression engine behind the salvagers are parameters (`Ladder.Runtime`). `model_dump`/`model_dump_json` are represented by the record itself.
- The language-model generator (`Crew.kickoff`, `Agent`, `Task`, the prompt templates) is a parameter, `Pipeline.World.generate`, returning each task's attempts. The manager's raw reply is `Pipeline.World.managerReply`. The generator does not see the context text: the `get_context_for_*` and `_format_*` summaries are presentation. Only the selection in `_format_qa_feedback` is modelled.
- `ManagerDecision.reasoning` and `iteration_goal` are free text and are omitted. `should_continue` is kept as its Python truthiness.
- Logging, the project directory and file writes, the clock, `_cleanup_memory`, and the exception path of `run` are left out; they do not affect the loop's state.
- `BaselineCrew`, `src/evaluation.py`, `src/visualizations.py` and `run_experiment.py` are not part of this model. `extract_complete_array_items` is never called.
- The guardrails are not wired into the executor, because `src/tasks.py` creates no task with a guardrail. The `validate_*` functions are standalone, and their `except` paths cannot be reached in the model, where parsing is total.
- `isinstance(tc, dict)` checks and `.get` defaults on stored outputs are modelled by the typed record (`Context.ReportOf`). An output that is not a dict cannot occur.
- Case mapping covers ASCII only. Whitespace is Python's `str.isspace` set, and `\w` is `[a-zA-Z0-9_]`.
- The order of dictionary keys in a decoded `agents_to_rerun` dict is not modelled. Only the set of names reaches the planner.
- Fix.FixLeavesNoTrailingComma: proved only when no comma is followed, past whitespace, by another comma. The source's comma passes run once each, so `,,}` becomes `,}` (Fix.DoubleCommaSurvives).
- Qa.GetFallbackDecision: requires a stored report. Without one the source's `None.get` raises, and the loop only asks for a decision after QA succeeded.
- Qa.FallbackMayContinueWithEmptyPlan: the fallback can say "continue" with nothing to re-run, and the model follows the code. The loop then stops on the empty plan.
- Pipeline.PentagonCrew.Decide: states only that the decision is a plan. The decision itself is the postcondition of Qa.GetManagerDecision, which Decide calls. Repeating it here would make every caller's proof too costly.
- Pipeline.PentagonCrew.RunStage: does not restate that the other stages' stored outputs are unchanged. The `Context.ContextManager.Update*` methods state it.
- Pipeline.PentagonCrew.RunPass: states the stages run (the trace) and the task count, not each re-run stage's result. `Pipeline.PentagonCrew.RunStage` states those.
- Pipeline.PentagonCrew.Run: `results["errors"]` is computed from the initial run but its contents are not stated. Its success equivalence assumes the file writes raise nothing: `_save_code_files`, `_create_readme` and `_save_json` (src/crew.py:1313-1319, 759-767) can raise on a generated filename `open` refuses, and the `except` at src/crew.py:1348-1349 then reports failure. Its postcondition describes the context as the run leaves it before `_cleanup_memory` (src/crew.py:1359-1361, 921-926) clears it in `finally`; that clearing is not modelled. The phase results after the loop are described by the trace and the context's consistency.
- Executor.Step: the error text of each failure (`str(e)`, the extraction error) is carried but not compared with the source's wording.

## Findings

| source | as written | input that shows it | evidently intended | confidence | as-written member | corrected member |
|---|---|---|---|---|---|---|
| src/schemas.py:508-509 | `v.replace('ed', '')` on `skipped` removes the inner `ed` | status `"skipped"` gives `"skipp"`, outside pass/fail/skip | `skipped` maps to `skip` | not executed | Records.ValidateStatusAsWritten, Records.SkippedBecomesSkipp, Records.StatusAsWrittenNotIdempotent | Records.ValidateStatus, Records.StatusStems, Records.StatusIdempotent |
| src/schemas.py:88-103 | after a dangling backslash the appended `"` is read as escaped | `"\` is repaired to `"\"`, which is still inside a string | the open string is closed | not executed | Repair.RepairAsWritten, Repair.UnclosedAfterEscape | Repair.RepairTruncated, Repair.RepairClosesString |

The corrected members state the evidently intended behaviour and are proved on their own. The rest of the model runs the code as written: `Ladder.Rungs` repairs with `Repair.RepairAsWritten`, and `Records.NewTestCase` and `Records.Validated` validate statuses with `Records.ValidateStatusAsWritten`. A stored test-case status can therefore be `skipp`, and the third rung can still end inside a string literal, which `json.loads` then rejects.
