# autoops-ai core, modelled in Dafny

This project models the deterministic core of autoops-ai and proves properties of it. autoops-ai is an agent that plans tool calls with a language model, runs them through an allowlist, checks whether it is done, remembers earlier runs and grades them.

Its control logic is modelled here. The language model, the SQLite store, SMTP and the file system are inputs.

The agent side:

- **Tool router.** `ToolRegistry` is a class whose tool table is a `map` field. `Register` refuses a name that is already present. `Run` turns each tool outcome into a `ToolResult` and never raises: a dict, a non-dict, a `TypeError` or any other exception.
- **Plan executor.** `execute_plan` runs the steps in order and stops at the first failure.
- **Agent loop.** `run_agent_loop` is a bounded state machine: plan, force the summarizer's arguments, execute, observe, check done. `deterministic_done_check` is the pure stop test over the latest result.
- **Memory.** `find_relevant_runs` scores candidates by token-set Jaccard similarity, sorts them stably by descending score and keeps the top k. `format_memories` renders one prompt line per memory.
- **Local summarizer.** `summarize_text_local` produces the summary and key points the done-check reads.
- **Heuristic evaluator.** `evaluate_run` computes four clamped scores and the reasons for each penalty.
- **CLI rules** of `autoops/tools/runs.py`:
  - the duplicate subcommand and alias check, and the parser it guards;
  - dry-run plan extraction;
  - the judge gate: fail reasons, exit codes and the notification decision;
  - the regression gate: quality drop, cost increase and the ok-to-failing regression;
  - the `dispatch` fall-through.
- **Gate email.** Tool-name extraction, de-duplication and summary, memory-id preview, and the subject and body sections of `build_gate_judge_email`.

The lead-intake product:

- the `Lead` record, its validation, `to_dict`/`from_dict` and `make_lead`;
- `normalize_lead_text`;
- keyword urgency classification and reply template selection;
- file-drop listing, subject parsing and the processed-file name;
- the spreadsheet's append-if-absent de-duplication, modelled over a sequence of rows.

Code that updates state step by step is imperative Dafny with loop invariants. Each such method is proved equal to a specification function, and the properties are lemmas about that function:

- `ExecutePlan`, `RunAgentLoop`, `RetrieveMemory` and `OverrideSummarizerArgs`;
- `FindRelevantRuns`, `FormatMemories` and the evaluator's block methods;
- `AssertNoDuplicateSubcommands`, `ExtractDryRunPlan`, `CollectFailReasons`, `CmdGateJudge` and `CmdGate`;
- the email builders, `NormalizeLeadText` and the workbook methods.

Supporting modules:

- `Wrappers`: `Option`/`Result`.
- `Strings`: Python's `strip`, `split`, `lower`, `join`, `repr` and fixed-point formatting on `seq<char>`.
- `Values`: JSON-like values and insertion-ordered dicts.
- `Reals`: a folded division.
- `Similarity`: the Jaccard score shared by memory, the evaluator and the CLI.

## Model

| member | source | states |
|---|---|---|
| ToolRouter.ToolRegistry.constructor | autoops/core/tool_router.py:16-17 | A new registry holds no tools. |
| ToolRouter.ToolRegistry.Register | autoops/core/tool_router.py:19-22 | A name already present gives the "Tool already registered: <name>" error and leaves the table unchanged. Otherwise the table gains exactly `name := fn`, `Has(name)` holds afterwards, and every other name's membership is unchanged. |
| ToolRouter.ToolRegistry.Run | autoops/core/tool_router.py:24-41 | The result keeps the request's tool name. An unregistered name gives `ok=false, error="Unknown tool"` with no tool involved. An ok result means the registered tool returned exactly that dict. |
| ToolRouter.Classify | autoops/core/tool_router.py:31-41 | `ok` holds iff the tool returned a dict, and then `data` is that dict. A non-dict gives "Tool returned non-dict output", a `TypeError` gives "Bad tool args: " plus its message, any other exception gives "Tool error: <Type>: <message>". A failure carries empty data and an error. |
| ToolRouter.ErrorPrefixes | autoops/core/tool_router.py:37-41 | A `TypeError` error starts with "Bad tool args: ". Any other exception's error starts with "Tool error: <Type>: " and never with the `TypeError` prefix. |
| AgentExecutor.ExecutePrefix | autoops/core/agent_executor.py:19-40 | The records are no more than the steps. Record i is the result of running step i and copies its `step_id` and `tool_name`. |
| AgentExecutor.ExecuteFailFast | autoops/core/agent_executor.py:51-53 | Every record but the last is ok. A run that stopped short ends in a failed record. A non-empty plan records at least one step. |
| AgentExecutor.ExecuteAllOk | autoops/core/agent_executor.py:17-55 | All records are ok iff every step was executed and every step's call succeeded. |
| AgentExecutor.ExecutePlan | autoops/core/agent_executor.py:6-57 | The summary keeps the plan's objective. Its steps are the fail-fast execution of the plan against the registry's tools. `ok` holds iff every recorded step is ok. |
| AgentLoop.Bullets | autoops/core/agent_loop.py:14-15 | One "- " line per note, in order. |
| AgentLoop.FormatNotesLines | autoops/core/agent_loop.py:14-15 | No notes give "- (none)". Single-line notes split back into exactly one bullet per note. |
| AgentLoop.CheckDoneSpec | autoops/core/agent_loop.py:18-58 | Done holds iff there is a latest result, its data has a non-blank string summary and a key_points list of length at least two, and, when the objective asks for "2 sentence", the summary has 1 to 3 sentences. No result, a missing summary and missing key points give their three fixed rationales. A passing rationale begins "SUMMARY: " followed by the stripped summary. |
| AgentLoop.DoneRationalePrefix | autoops/core/agent_loop.py:55-58 | The rationale starts with "SUMMARY: ", the stripped summary and "\nKEY POINTS:\n- ". |
| AgentLoop.FailedStepNotDone | autoops/core/agent_loop.py:29-33 | A failed latest step has no data, so the check reports a missing summary. |
| AgentLoop.PayloadSpec | autoops/core/agent_loop.py:79-81 | Without a colon the payload is the whole objective. With one it is the stripped text after the first colon: stripped, shorter than the objective, and including nothing before that colon. |
| AgentLoop.OverrideStepSpec | autoops/core/agent_loop.py:143-146 | Step id and tool name are kept. Steps of other tools are untouched. A summarizer step gets `text` = payload and `max_sentences` = 2, and all its other arguments are kept. |
| AgentLoop.OverriddenEnforced | autoops/core/agent_loop.py:148-154 | After the override every summarizer step's `text` is the payload, so the mismatch `RuntimeError` cannot be raised. |
| AgentLoop.OverrideSummarizerArgs | autoops/core/agent_loop.py:142-154 | The rewritten plan has the same objective and length. Each step is the override of the original step, and the payload constraint holds. |
| AgentLoop.Observe | autoops/core/agent_loop.py:173-196 | Observing appends exactly one note and one result per execution, in order, and keeps the old entries as a prefix. |
| AgentLoop.ObservationShape | autoops/core/agent_loop.py:174-196 | An observation keeps step id and tool name. It holds `data` iff the step was ok, and the error otherwise. Its note starts "Step <id> (<tool>) ". |
| AgentLoop.IterateEmpty | autoops/core/agent_loop.py:129-140 | An empty plan appends "Planner returned empty steps.", then continues, or under dry run returns `ok=false` with the empty-plan answer. |
| AgentLoop.IterateDry | autoops/core/agent_loop.py:156-166 | A dry run with steps returns `ok=true` at this iteration, unsaved and without executing. Its answer is "[DRY RUN] Plan: " plus the repr of the overridden plan's dump. |
| AgentLoop.IterateExecuted | autoops/core/agent_loop.py:168-245 | An executing iteration observes the execution records and extends the log by them. It stops with a saved, ok result iff the done-check passes on the latest observation. |
| AgentLoop.IterateSpec | autoops/core/agent_loop.py:128-245 | An empty plan appends one note and continues. An executed plan appends one note and one result per record. A continuing iteration failed its check; a stopping one is ok at this iteration with the rationale as answer and is saved. State and log only grow. |
| AgentLoop.StopAnswer | autoops/core/agent_loop.py:220-245 | A stop is ok at the current iteration with a passing check. Its answer starts "SUMMARY: ", and the saved run holds the whole step log. |
| AgentLoop.LoopSpec | autoops/core/agent_loop.py:105-268 | A completed run is ok at an iteration within `max_iterations` with a "SUMMARY: " answer. An exhausted run is not ok, reports `max_iterations` and has no answer. Every non-dry run is saved with its log. A dry run returns at its first iteration unsaved. State is append-only. Running out of planner plans is a planner failure. |
| AgentLoop.RunAgentLoop | autoops/core/agent_loop.py:61-279 | The method's outcome is the loop function from iteration 1 on empty state and log. The `memory_used` saved with the run is the ids of the memories retrieved for the objective with k=3 and scan_limit=50. |
| AgentLoop.RunIds | autoops/core/agent_loop.py:90 | One id per memory, in order: memory i's run id. |
| AgentLoop.RetrieveMemory | autoops/core/agent_loop.py:89-90 | The method's ids are those of `find_relevant_runs(objective, k=3, scan_limit=50)` over the run store. |
| AgentLoop.MemoryUsedSpec | autoops/core/agent_loop.py:89-90 | The saved `memory_used` holds at most three ids and no more than the store's runs. Each is a run that loads. The memories behind them come in non-increasing similarity. |
| Similarity.Tokens | autoops/core/memory.py:7-8 | The tokens are the lower-cased whitespace-separated words. |
| Similarity.JaccardSetsRange | autoops/core/memory.py:11-18 | Two empty sets score 1 and exactly one empty set scores 0. Otherwise the score is the intersection over the union, in [0, 1]. |
| Similarity.JaccardRange | autoops/core/evaluator.py:10-17 | The similarity of any two texts lies in [0, 1] and follows the two empty-set rules. |
| Similarity.JaccardSymmetric | autoops/core/memory.py:11-18 | The similarity does not depend on argument order. |
| Similarity.TokensCaseInsensitive | autoops/core/evaluator.py:6-7 | Texts equal after lower-casing have the same tokens. |
| Similarity.JaccardCaseInsensitive | autoops/core/memory.py:7-18 | Letter case does not change the similarity. |
| Similarity.JaccardExtremes | autoops/tools/runs.py:27-34 | Texts with the same token set score 1. Texts with non-empty, disjoint token sets score 0. |
| Similarity.JaccardReflexive | autoops/tools/runs.py:27-34 | A text scores 1 against itself. |
| Memory.ListRuns | autoops/core/memory.py:28 | `list_runs(limit)` is a prefix of the store (most recent first) of min(limit, n) rows, and the whole store for a negative limit. |
| Memory.SortDescSpec | autoops/core/memory.py:35 | The sort is non-increasing in score and a permutation. It is stable: the elements of each score keep their original order. |
| Memory.ScoreCandidates | autoops/core/memory.py:29-33 | The loop yields one (score, run id) per candidate, in listing order. |
| Memory.CollectLoaded | autoops/core/memory.py:37-51 | The loop yields the records of the kept candidates that load, in order. |
| Memory.FindRelevantRuns | autoops/core/memory.py:21-52 | The result is the loaded records of the top k of the stably sorted scores of the scanned runs. |
| Memory.CollectProvenance | autoops/core/memory.py:39-51 | Each memory is built from a candidate that loaded: its id, its score, and that run's objective, ok flag, iterations and final answer. |
| Memory.CollectCount | autoops/core/memory.py:39-41 | Nothing is skipped iff every kept candidate loads. |
| Memory.TopCandidatesSpec | autoops/core/memory.py:35-38 | The kept candidates are at most k and at most the scanned runs. They are sorted by non-increasing score, with every score in [0, 1]. |
| Memory.RelevantRunsSpec | autoops/core/memory.py:21-52 | At most k memories, at most one per scanned run. They are in non-increasing similarity order, and every similarity lies in [0, 1]. |
| Memory.FormatMemories | autoops/core/memory.py:55-65 | No memories give "(none)". Otherwise the text is the memory lines joined by newlines. |
| Memory.MemoryLinesAt | autoops/core/memory.py:59-64 | Line i is the prompt line of memory i. |
| Memory.MemoryLineSingle | autoops/core/memory.py:60-64 | A memory line has a line break only where its run id has one; the quoted objective and answer are escaped. |
| Memory.FormatMemoriesLines | autoops/core/memory.py:55-65 | Splitting the text at newlines gives back exactly one line per memory. |
| TextTools.StrippedNonBlank | autoops/tools/text_tools.py:12 | The kept pieces are non-blank and stripped, and no more numerous than the pieces. |
| TextTools.SentenceShape | autoops/tools/text_tools.py:12 | Every sentence is non-blank, stripped, and contains neither "." nor a newline. |
| TextTools.Summarize | autoops/tools/text_tools.py:12-18 | There are min(5, n) key points for n sentences. They are a prefix of the sentences, each non-blank and stripped. |
| TextTools.SummaryShape | autoops/tools/text_tools.py:13-16 | A non-empty summary ends with ".". For a non-negative limit, the summary is empty iff there are no sentences or the limit is 0. Otherwise it is the first `max_sentences` sentences joined by ". ", closed with a period. |
| TextTools.SummarizeTool | autoops/tools/text_tools.py:4-18 | A dict result means a string `text` was given. With `max_sentences` 2 the dict is that text's summary. A missing `text` or an unexpected keyword raises `TypeError`. |
| Evaluator.Clamp01 | autoops/core/evaluator.py:20-21 | The result lies in [0, 1], equals x when x is already there, and is the nearer bound otherwise. |
| Evaluator.StructureScore | autoops/core/evaluator.py:43-49 | 0 iff the answer is blank; 0.4 iff the stripped answer has fewer than 20 characters; 1 iff it has at least 20. |
| Evaluator.CostScoreSpec | autoops/core/evaluator.py:52-56 | The score lies in [0, 1]. It is full marks with no positive budget or within budget, and 0 at three times the budget or more. |
| Evaluator.StabilityScoreSpec | autoops/core/evaluator.py:61-63 | 0 when not ok, 1 when ok in at most one iteration, 1 − 0.2·(iterations − 1) up to six iterations, 0 from six on. |
| Evaluator.EvaluationScores | autoops/core/evaluator.py:66-73 | All four reported scores lie in [0, 1], and each equals its block's score, so the final clamp changes nothing. |
| Evaluator.BlockReasonsSpec | autoops/core/evaluator.py:37-64 | At most four reasons. Low overlap iff quality is below 0.2. A missing or short answer iff the structure score is 0 or 0.4. The cost reason iff a positive budget is exceeded, carrying this cost and budget. The iteration penalty iff an ok run took more than one iteration. |
| Evaluator.ReasonsSpec | autoops/core/evaluator.py:24-64 | The run's reasons follow the same four rules, read from its `or`-defaulted fields. |
| Evaluator.ScoreQuality | autoops/core/evaluator.py:37-40 | The quality block yields the objective/answer similarity, in [0, 1], and its reason. |
| Evaluator.ScoreStructure | autoops/core/evaluator.py:42-49 | The structure block yields the structure score and its reason. |
| Evaluator.ScoreCost | autoops/core/evaluator.py:51-58 | The cost block yields the cost score and its reason. |
| Evaluator.ScoreStability | autoops/core/evaluator.py:60-64 | The stability block yields the stability score and its reason. |
| Evaluator.EvaluateRun | autoops/core/evaluator.py:24-74 | The method's report is the evaluation of the run under the budget. |
| RunsCli.CheckClaimsSpec | autoops/tools/runs.py:54-62 | The alias scan passes iff no alias is already seen and no alias repeats an earlier one. |
| RunsCli.SubcommandCheckSpec | autoops/tools/runs.py:44-62 | The check passes iff the names are distinct, no alias is a subcommand name, and no alias repeats an earlier alias. |
| RunsCli.AddAliases | autoops/tools/runs.py:56-62 | One subcommand's alias loop either stops at the first alias already seen, naming it and its subcommand, or returns the seen set grown by all its aliases. |
| RunsCli.AssertNoDuplicateSubcommands | autoops/tools/runs.py:44-62 | The method's verdict and exit message are those of the check function. |
| RunsCli.ParserPassesCheck | autoops/tools/runs.py:65-193 | The parser as built, with every subcommand and alias it registers, passes its own check. |
| RunsCli.DryRunPlanSpec | autoops/tools/runs.py:210-260 | Steps come from the last plan event when it holds a non-empty list, else from the run's own list. "recorded_events", "run_steps" or "best_effort" names the source. A preview appears only when no steps were found and is at most 300 items of the final answer. |
| RunsCli.ExtractDryRunPlan | autoops/tools/runs.py:210-260 | The dict updated in place equals the function's plan record. |
| RunsCli.ThresholdsOf | autoops/tools/runs.py:429-440 | `--min_score`, when given, replaces `--min_overall`. The other three thresholds are taken as given. |
| RunsCli.FailReasonsSpec | autoops/tools/runs.py:443-457 | A check is listed iff it fails: overall, correctness or safety below its minimum, or cost above `max_cost`. Each is listed once, with one reason each, in check order. There are no reasons iff every check passes. |
| RunsCli.FailReasonsSteps | autoops/tools/runs.py:443-457 | The reasons are the four checks' steps in source order. |
| RunsCli.MissingScoreCrashes | autoops/tools/runs.py:445-457 | As written, an empty-score report under the default thresholds raises KeyError 'overall'. The intended list would hold the three score reasons. |
| RunsCli.AsWrittenAgreesWhenScored | autoops/tools/runs.py:445-457 | With every score present, the as-written reasons equal the corrected ones. |
| RunsCli.AddReasonAsWrittenStep | autoops/tools/runs.py:445-446 | One check as written keeps an earlier error. Otherwise it raises iff the check fails and its score is missing, and else adds what the corrected step adds. |
| RunsCli.FailReasonsAsWrittenSpec | autoops/tools/runs.py:445-457 | As written, the reasons raise iff some failing score check reads a missing score, with that score's `KeyError`. Otherwise they equal the corrected reasons. |
| RunsCli.CollectFailReasons | autoops/tools/runs.py:443-457 | The checks in source order yield the fail reasons as written, including the `KeyError` of a message that reads a missing score. |
| RunsCli.NotifyEmailsSpec | autoops/tools/runs.py:489-491 | Every recipient is non-blank, stripped and comma-free. An empty option gives none. |
| RunsCli.GateJudgeSpec | autoops/tools/runs.py:403-533 | When the command returns (no exception escapes), with no run or no usable report the exit code is 2. Otherwise it is 1 iff some threshold is violated and 0 iff none is, and the fail reasons are exactly the corrected `FailReasons`, one per violation. The email goes out iff there are recipients and the mode matches the verdict (`always`, `fail` on failure, `pass` on pass). Notifying never changes the exit code. |
| RunsCli.NotifyStep | autoops/tools/runs.py:493-525 | The method's result is the notification function's: not notified, printed under `--notify_dry_run`, sent (a send failure is swallowed), skipped for missing SMTP settings, or the error of building the email. |
| RunsCli.CmdGateJudge | autoops/tools/runs.py:403-533 | The method's outcome is the judge-gate function's, the `KeyError` of the fail reasons as written included. |
| RunsCli.GateJudgeKeyError | autoops/tools/runs.py:443-457 | A usable report lacking a score whose check fails makes the command raise that score's `KeyError`, before any notification. |
| RunsCli.ScorelessStoredReportRaises | autoops/tools/runs.py:411-446 | A stored report with no scores and no model, but some other entry, is truthy and is used. Under a positive overall minimum the command raises `KeyError: 'overall'`. |
| RunsCli.CostIncreasePctSpec | autoops/tools/runs.py:679-686 | For a positive old cost the percentage times the old cost is 100 times the difference. It is positive iff the cost rose and 0 when unchanged. 999 when only the new run costs anything, 0 when neither does. |
| RunsCli.GateDecisionSpec | autoops/tools/runs.py:688-709 | The gate fails (exit 1) iff the quality drop exceeds its limit, the cost increase exceeds its limit, or the run regressed from ok to failing. There is one line per failed check, and the regression is reported last. |
| RunsCli.GateChecks | autoops/tools/runs.py:690-703 | The three checks, raising `failed` one at a time, yield the gate decision. |
| RunsCli.LoadOrEvaluate | autoops/tools/runs.py:674-675 | A stored report wins; otherwise the run is evaluated. |
| RunsCli.CostIncrease | autoops/tools/runs.py:679-686 | The method computes the cost-increase percentage. |
| RunsCli.CmdGate | autoops/tools/runs.py:667-709 | The method's outcome is that of the regression-gate function. |
| RunsCli.GateOfMeasures | autoops/tools/runs.py:667-709 | With both runs found, the gate decides on the quality drop, the cost increase and the regression of their reports. |
| RunsCli.DispatchSpec | autoops/tools/runs.py:712-739 | Every command the parser accepts reaches its own handler. Any other name gets "Unknown command: <name>" and exit code 2. |
| Notify.SafeJsonLoads | autoops/ops/notify.py:6-12 | Missing or empty text gives the default, a parse failure gives the default, and otherwise the result is the parsed value. |
| Notify.StepTool | autoops/ops/notify.py:30-34 | A step contributes a name only if it is a dict, and then it is a non-empty string from `tool_name`, `tool` or `name`. |
| Notify.ToolsOfConcat | autoops/ops/notify.py:26-35 | Extraction keeps step order: consecutive runs of steps give concatenated names. |
| Notify.ToolsOfSingle | autoops/ops/notify.py:30-34 | A single step contributes its own name or nothing. |
| Notify.ExtractToolsFromSteps | autoops/ops/notify.py:21-35 | The loop yields the names of a list's steps, in order, and nothing for a non-list. |
| Notify.Dedup | autoops/ops/notify.py:41-46 | The unique list is duplicate-free, holds exactly the input's names, and is no longer than the input. |
| Notify.DedupDistinct | autoops/ops/notify.py:41-46 | Distinct input is kept as it is. |
| Notify.DedupIdempotent | autoops/ops/notify.py:41-46 | De-duplicating twice changes nothing. |
| Notify.SummarizeTools | autoops/ops/notify.py:38-49 | No tools give "None". Otherwise it is the unique names joined by ", ", cut to `max_items` followed by ", … (+N more)" when more remain. |
| Notify.SummaryCut | autoops/ops/notify.py:47-49 | With more unique names than the limit, exactly `max_items` of them, the first ones, are listed. The count N covers the rest, and the text ends " more)". |
| Notify.SummarizeToolList | autoops/ops/notify.py:38-49 | The loop with `seen` and `uniq` yields the summary. |
| Notify.StrItems | autoops/ops/notify.py:112 | `", ".join` succeeds iff every item is a string. |
| Notify.MemoryLines | autoops/ops/notify.py:109-114 | No memory lines unless `memory_used` is a non-empty list. Then there are two: its size and the preview. |
| Notify.MemoryPreview | autoops/ops/notify.py:111-114 | The preview names the first min(5, n) ids and ends with " …" iff there are more than five. |
| Notify.ReasonLines | autoops/ops/notify.py:138-139 | One "  - <reason>" line per reason, in order. |
| Notify.VerdictLines | autoops/ops/notify.py:136-143 | No reasons give "PASS: all thresholds met". Otherwise a "FAIL reasons:" heading is followed by one line per reason. |
| Notify.ReproduceLinesSpec | autoops/ops/notify.py:145-154 | Four lines: the heading, the `show` and `judge` commands for the run, and the `gate_judge` command for the run. That command is followed by `--min_overall`, `--min_correctness`, `--min_safety` and `--max_cost` with the thresholds rendered by `str(float)`, in that order, and nothing after them. |
| Notify.RunsCommandSpec | autoops/ops/notify.py:146-147 | A reproduce command is the module invocation and the command name, then the run id at its end. |
| Notify.LeadSections | autoops/ops/notify.py:86-134 | The body begins with the header, context, execution, judge and threshold sections, in that order. |
| Notify.EmailShape | autoops/ops/notify.py:83-156 | The status is FAIL iff there are fail reasons. The subject is "[autoops-ai] gate_judge <status> run_id=<id>". The body is the lines joined by newlines, starting "gate_judge <status>". The verdict section sits right before the four reproduce lines and is the passing line iff there are no reasons. |
| Notify.BuildGateJudgeEmail | autoops/ops/notify.py:52-156 | Appending section by section yields the email function's subject and body, or its error. |
| LeadContracts.ParseSource | autoops/products/lead_followup_v1/contracts.py:25-29 | `LeadSource(s)` succeeds with the member whose value is s, and fails iff no member has that value. |
| LeadContracts.ParseUrgency | autoops/products/lead_followup_v1/contracts.py:32-36 | `UrgencyLabel(v)` succeeds exactly for the four member values. |
| LeadContracts.SourceRoundTrip | autoops/products/lead_followup_v1/contracts.py:122 | Converting a source to its value and back gives the source. |
| LeadContracts.UrgencyRoundTrip | autoops/products/lead_followup_v1/contracts.py:123 | Converting an urgency to its value and back gives the urgency. |
| LeadContracts.TextOf | autoops/products/lead_followup_v1/contracts.py:56 | The checked text is `str(value).strip()`. |
| LeadContracts.RequireNonEmpty | autoops/products/lead_followup_v1/contracts.py:53-61 | Succeeds iff the value is present, its stripped text is non-empty and within the limit; it then returns that stripped text. |
| LeadContracts.RequireNonEmptyErrors | autoops/products/lead_followup_v1/contracts.py:54-60 | The three `ValueError` messages, in the order checked: "got None", "got empty", and "exceeds max length <n> (len=<m>)". |
| LeadContracts.OptionalStr | autoops/products/lead_followup_v1/contracts.py:64-72 | Absent or blank gives nothing. Otherwise the stripped text, cut to `max_len` when longer. |
| LeadContracts.NewLeadSpec | autoops/products/lead_followup_v1/contracts.py:107-114 | Construction succeeds iff every required field is non-blank within its limit (64/32/256/500/20000/500), and then keeps the fields as given. |
| LeadContracts.FromDict | autoops/products/lead_followup_v1/contracts.py:126-141 | Any lead `from_dict` returns is valid. |
| LeadContracts.FromDictFieldsValue | autoops/products/lead_followup_v1/contracts.py:131-141 | Each field is read from the dict and stripped, with the enums converted. A missing urgency defaults to UNKNOWN, and the client id goes through `_optional_str`. |
| LeadContracts.FromDictFieldsAccept | autoops/products/lead_followup_v1/contracts.py:131-141 | `from_dict` gets through its fields when every required one is present and non-blank and both enums convert. |
| LeadContracts.FromDictDefaultUrgency | autoops/products/lead_followup_v1/contracts.py:139 | A missing urgency reads as UNKNOWN. |
| LeadContracts.FromDictUnknownSource | autoops/products/lead_followup_v1/contracts.py:133 | A source string that is no member's value is rejected. |
| LeadContracts.ToDictHolds | autoops/products/lead_followup_v1/contracts.py:116-124 | `to_dict` holds every field under its own key, with the enums as their values. |
| LeadContracts.RoundTripNormalizes | autoops/products/lead_followup_v1/contracts.py:116-141 | Any valid lead comes back from `from_dict(to_dict(lead))` with its texts stripped and a blank client id dropped. |
| LeadContracts.RoundTrip | autoops/products/lead_followup_v1/contracts.py:116-141 | A lead with stripped fields and an absent or non-blank stripped client id survives `from_dict(to_dict(lead))` unchanged. |
| LeadContracts.HeldReadBack | autoops/products/lead_followup_v1/contracts.py:126-141 | Any dict holding such a lead's fields, wherever they are, reads back as that lead. |
| LeadContracts.OrDefault | autoops/products/lead_followup_v1/contracts.py:161-169 | The caller's id or timestamp is used when it is non-empty, else the fresh id or the clock reading. |
| LeadContracts.MakeLeadAccepts | autoops/products/lead_followup_v1/contracts.py:148-176 | `make_lead` succeeds iff the four texts, the id and the timestamp it passes on are all within their limits. |
| LeadContracts.MakeLeadSpec | autoops/products/lead_followup_v1/contracts.py:166-176 | A made lead is valid and stores the stripped texts, the given source and urgency, and the chosen id and timestamp. Its client id is absent iff the given one is absent or blank. |
| LeadContracts.BlankIdRejected | autoops/products/lead_followup_v1/contracts.py:161-167 | A whitespace-only caller id is truthy, so it is kept, and the constructor rejects it with "lead_id is required (got empty)". |
| Normalizer.NormalizeLeadText | autoops/products/lead_followup_v1/normalizer.py:6-28 | The staged method's text is the normalization function's. |
| Normalizer.UnifyLineEndingsSpec | autoops/products/lead_followup_v1/normalizer.py:11 | No carriage return survives, and text without one is left alone. |
| Normalizer.FilterFrom | autoops/products/lead_followup_v1/normalizer.py:14-18 | The quote filter only drops lines: every line it returns is an input line. |
| Normalizer.FilterKept | autoops/products/lead_followup_v1/normalizer.py:15-18 | Every line the filter returns passes the quote test. |
| Normalizer.FilterOfKept | autoops/products/lead_followup_v1/normalizer.py:15-18 | Lines that all pass the quote test come through the filter whole. |
| Normalizer.CollapseRun | autoops/products/lead_followup_v1/normalizer.py:22 | Every run of three or more newlines becomes two, and other text is left alone. |
| Normalizer.CollapseNoTriple | autoops/products/lead_followup_v1/normalizer.py:22 | After the collapse no three newlines in a row remain. |
| Normalizer.CollapseOfNoTriple | autoops/products/lead_followup_v1/normalizer.py:22 | Text without three newlines in a row is unchanged by the collapse. |
| Normalizer.TruncateSpec | autoops/products/lead_followup_v1/normalizer.py:25-26 | The cut is at most `MAX_LEN` characters plus the marker. Text within `MAX_LEN` is kept; longer text is a prefix of itself followed by "\n\n[TRUNCATED]". |
| Normalizer.CutPart | autoops/products/lead_followup_v1/normalizer.py:26 | For longer text whose first character is visible, the part kept before the marker is a non-empty prefix of at most `MAX_LEN` characters, ending in a visible character. |
| Normalizer.NormalizeClean | autoops/products/lead_followup_v1/normalizer.py:6-28 | Output has no carriage return, is stripped, has no quoted line and no three newlines in a row, even after truncation. |
| Normalizer.NormalizeFixesClean | autoops/products/lead_followup_v1/normalizer.py:11-26 | A clean text within `MAX_LEN` is its own normalization. |
| Normalizer.NormalizeIdempotent | autoops/products/lead_followup_v1/normalizer.py:11-26 | For outputs within `MAX_LEN`, normalizing again returns the same string. |
| Normalizer.NormalizeLength | autoops/products/lead_followup_v1/normalizer.py:7-26 | An empty input gives the empty string. Output length is at most `MAX_LEN` plus the marker. Text that fits after cleaning is returned as it is; longer text is a prefix of it followed by the marker. |
| Normalizer.NormalizeDropsQuotes | autoops/products/lead_followup_v1/normalizer.py:14-19 | No line of the output starts with ">" after its leading whitespace. |
| FileDrop.StemSuffix | autoops/products/lead_followup_v1/adapters/file_drop.py:46 | Stem followed by suffix is the name. |
| FileDrop.SuffixShape | autoops/products/lead_followup_v1/adapters/file_drop.py:14 | A suffix is a dot followed by at least one character, none of them a dot. |
| FileDrop.SortSpec | autoops/products/lead_followup_v1/adapters/file_drop.py:13-15 | `sorted` orders its input and keeps each name as often as it occurred. |
| FileDrop.CandidatesSpec | autoops/products/lead_followup_v1/adapters/file_drop.py:9-14 | A name is a candidate iff some entry with it is a regular file whose suffix is ".txt" in any letter case. |
| FileDrop.ListInboxFilesSpec | autoops/products/lead_followup_v1/adapters/file_drop.py:11-15 | The listing is sorted, holds exactly the supported files, and lists each as often as the directory does. |
| FileDrop.AfterColonSpec | autoops/products/lead_followup_v1/adapters/file_drop.py:25 | In a subject line the first colon is the one after "subject". |
| FileDrop.ParseRawSpec | autoops/products/lead_followup_v1/adapters/file_drop.py:20-26 | With a "subject:" first line in any case, the subject is the stripped rest of that line, or "(no subject)" when blank, and the body is the other lines. Without one the subject is "(no subject)" and the body is the whole text. |
| FileDrop.ParsedSubject | autoops/products/lead_followup_v1/adapters/file_drop.py:21-25 | The subject is never blank and is already stripped. |
| FileDrop.IngestFileAccepts | autoops/products/lead_followup_v1/adapters/file_drop.py:28-39 | Ingestion succeeds iff the subject fits, the cleaned body is non-empty, and the path, fresh id and clock reading are within their limits. A body that cleans to nothing fails. |
| FileDrop.IngestFileSpec | autoops/products/lead_followup_v1/adapters/file_drop.py:17-39 | A file lead has source FILE, sender "unknown@filedrop" and the path as its reference. It holds the parsed subject, the normalized body, urgency UNKNOWN, the fresh id, the clock reading and no client id. |
| FileDrop.ProcessedNameSpec | autoops/products/lead_followup_v1/adapters/file_drop.py:41-46 | A free name is kept. A taken one becomes "<stem>_<mtime_ns><suffix>", differs from the source name and keeps its suffix. |
| Classify.ClassifyUrgency | autoops/products/lead_followup_v1/actions/classify.py:11-16 | The label is URGENT or NORMAL, never UNKNOWN or LOW. |
| Classify.AnyOccursSpec | autoops/products/lead_followup_v1/actions/classify.py:13-15 | The keyword loop finds a keyword iff one occurs. |
| Classify.ClassifyUrgencySpec | autoops/products/lead_followup_v1/actions/classify.py:12-16 | URGENT iff some keyword occurs in the lower-cased subject, newline and text. NORMAL iff none does. |
| Classify.KeywordsOneLine | autoops/products/lead_followup_v1/actions/classify.py:5-9 | No keyword holds a newline. |
| Classify.ClassifyBySubjectOrText | autoops/products/lead_followup_v1/actions/classify.py:5-16 | URGENT iff some keyword occurs in the lower-cased subject or in the lower-cased text. |
| Classify.ClassifyIgnoresCase | autoops/products/lead_followup_v1/actions/classify.py:12 | Leads whose subjects and texts agree once lower-cased get the same label. |
| Reply.ParseTone | autoops/products/lead_followup_v1/actions/reply.py:29 | A key maps to a tone only when it is that tone's name. |
| Reply.BuildReplyShape | autoops/products/lead_followup_v1/actions/reply.py:27-31 | The reply is the chosen template with its one `{signature}` field replaced by the signature, so it contains the signature. The lead plays no part. |
| Reply.SelectNamedTone | autoops/products/lead_followup_v1/actions/reply.py:28-31 | Naming a tone selects its template. |
| Reply.SelectDefault | autoops/products/lead_followup_v1/actions/reply.py:28-30 | No tone, an empty tone, or one that names no template after strip and lower-casing selects "professional". |
| Reply.SelectIgnoresCaseAndSpace | autoops/products/lead_followup_v1/actions/reply.py:28 | Case and surrounding whitespace of the tone do not matter. |
| LeadLog.HeaderRow | autoops/products/lead_followup_v1/actions/log_excel.py:9 | The header row is HEADERS, cell by cell. |
| LeadLog.FirstIndex | autoops/products/lead_followup_v1/actions/log_excel.py:28-31 | `row.index(v)`: the first position holding v, or none iff v is absent. |
| LeadLog.LeadWorkbook.constructor | autoops/products/lead_followup_v1/actions/log_excel.py:11-19 | A workbook is a presence flag and its rows. |
| LeadLog.LeadWorkbook.EnsureWorkbook | autoops/products/lead_followup_v1/actions/log_excel.py:11-19 | Afterwards the file exists. A missing one holds the header row alone, and an existing one is unchanged. |
| LeadLog.LeadWorkbook.GetExistingLeadIds | autoops/products/lead_followup_v1/actions/log_excel.py:20-41 | The id loop returns the ids read from the ensured sheet. |
| LeadLog.LeadWorkbook.AppendLead | autoops/products/lead_followup_v1/actions/log_excel.py:43-61 | Returns true iff the lead id is not yet logged. The rows become the append-if-absent of the ensured sheet. |
| LeadLog.NewWorkbook | autoops/products/lead_followup_v1/actions/log_excel.py:11-19 | A new workbook holds only the header row. Its `lead_id` column is the second, and it holds no ids. |
| LeadLog.IdsOfSpec | autoops/products/lead_followup_v1/actions/log_excel.py:26-41 | Without a `lead_id` header there are no ids. Otherwise the ids are exactly the stripped, non-blank string cells of that column below the header. |
| LeadLog.AfterAppendSpec | autoops/products/lead_followup_v1/actions/log_excel.py:45-59 | A logged id leaves the rows unchanged. Otherwise exactly one row is added after the old ones, holding the lead's seven values in HEADERS order. |
| LeadLog.AppendedIdRead | autoops/products/lead_followup_v1/actions/log_excel.py:38-47 | An appended stripped, non-blank id is read back. |
| LeadLog.AppendTwice | autoops/products/lead_followup_v1/actions/log_excel.py:38-47 | Appending the same stripped, non-blank id twice adds one row only. |
| LeadLog.PaddedIdLoggedTwice | autoops/products/lead_followup_v1/actions/log_excel.py:38-47 | An id with surrounding whitespace is not recognised, because the lookup strips it, so appending twice adds two rows. |

## Left out

- The language-model planner is the sequence of plans the loop consumes, one per iteration. `load_prompt`, the replanner prompt, token and cost counters, `judge_run` and the OpenAI client are not part of this model. A planner that runs out of plans stands for `generate_structured` raising.
- SQLite persistence (`autoops/infra/storage.py`) is abstract:
  - `list_runs` is a prefix of a sequence of rows, most recent first;
  - `load_run` and `load_eval` are maps or optional inputs;
  - `save_run` is the `SavedRun` value the loop returns;
  - `RunAgentLoop` retrieves its memories from such a row sequence and load map (`store`, `loaded`). The memory text it would put in the planner prompt is not used, since the planner is the sequence of plans.

  The storage module at hand (`autoops/infra/storage.py`) defines only `_connect`, `init_db`, `save_run`, `list_runs` and `load_run`. It lacks `migrate_db`, the `memory_used` argument of `save_run`, the `memory_used_json` column that `autoops/ops/notify.py:76` and `autoops/tools/runs.py:545` read, and the `save_eval`, `load_eval`, `save_judge_eval` and `load_judge_eval` that `autoops/tools/runs.py:6-13` imports. The model treats them as if they existed: the loop saves `memory_used`, the gate reads a stored run's memory ids, and stored evaluation and judge reports are optional inputs.
- `log_event`, `print` and the JSON printing of the CLI are not modelled: they are output only.
- Floating-point numbers are modelled as exact reals; IEEE rounding is not modelled.
- Strings.FormatFixed: renders `:.3f`/`:.4f` from the exact real with round-half-even. Its contract only says the text is non-empty and made of number characters; it is not proved to match CPython's output. `str(float)` of the email thresholds is a parameter (`floatStr`).
- Clocks, uuids and `json.loads` are parameters: `now`, `freshId`, `created` and `parse`. `_fmt_ts` and `format_ts` are not part of this model.
- `str.lower` is modelled for ASCII letters only. `repr` escapes backslash, the quote, tab, newline and return, and uses `\xNN` for the other Latin-1 control characters; other non-printable Unicode characters are not escaped.
- The file system is not modelled:
  - `mkdir`, `iterdir`, `is_file`, `read_text`, `stat` and `rename` are inputs: directory entries, the file's text, the taken names and the modification time;
  - openpyxl's workbook is its sequence of rows, and the `Leads` sheet lookup is not modelled.
- FileDrop.ListInboxFilesSpec: paths are ordered by their names, which is how `sorted` orders paths in one directory.
- `str.format` on a reply template is the template split at its one `{signature}` field.
- The dry-run plan extraction follows the code. The code takes the last plan event and then checks whether its `steps` is a list, so an earlier event with a list is not used.
- `cmd_list`, `cmd_show`, `cmd_export`, `cmd_replay`, `cmd_compare*`, `cmd_judge`, `cmd_eval` and `cmd_memory_search` are not modelled. argparse is modelled only as the subcommand names and aliases the parser registers. The alias scan of `assert_no_duplicate_subcommands` reads a declared alias list per subcommand. Real argparse sub-parsers have no `aliases` attribute, since argparse enters aliases into `choices` as keys of their own, so in the code that scan never finds one. `build_parser` registers no aliases, so this makes no difference there (`RunsCli.ParserPassesCheck`).
- The email, IMAP and Graph adapters, SMTP sending and the delivery and orchestration scripts are network or environment plumbing. A failure to send the gate email is an input the CLI swallows.
- AgentExecutor.ExecutePrefix: tools are pure functions of their arguments, so "called once per recorded step" is stated as "record i is the outcome of the call on step i". Calls are not counted.
- ToolRouter.ToolRegistry.Run: a tool's side effects and the time a call takes are not modelled; only its outcome is.

## Findings

| source | as written | input that shows it | evidently intended | confidence | as-written member | corrected member |
|---|---|---|---|---|---|---|
| autoops/tools/runs.py:445-457 | The comparison reads `report.get(key, 0.0)`, but the reason message reads `report[key]` | A judge report without scores under thresholds 0.80/0.85/0.95/0.05 raises `KeyError: 'overall'` instead of failing the gate | One reason per violated threshold, reading the missing score as 0.0 | not executed | RunsCli.MissingScoreCrashes | RunsCli.FailReasonsSpec |

The command model (`RunsCli.GateJudge`, `RunsCli.CmdGateJudge`) follows the code as written and returns the `KeyError` (`RunsCli.GateJudgeKeyError`). `RunsCli.FailReasons` is the corrected list. Whenever the command returns, its fail reasons are exactly `FailReasons` (`RunsCli.GateJudgeSpec`).
