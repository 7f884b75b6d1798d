# Migration audit and evaluation gate, modelled in Dafny

This project models the two decision components of a GPT-4o to GPT-5.1 migration toolkit for
Azure OpenAI.

**The migration audit scanner**, `scripts/audit_codebase.py`:
- **Finding lines.** Every line of a source file is checked against nine fixed rules, the `PATTERNS` table. Each hit of a rule on a line becomes a `Finding`.
- **Choosing files.** Which files are scanned is decided by their path components and their suffix.
- **The report.** It has severity counts, findings grouped by file and sorted by line, and recommended actions that depend on the counts.
- **The exit status.** It is 1 when the path does not exist. Otherwise it is 1 exactly when there is a HIGH finding.

**The evaluation aggregator and regression gate**, `scripts/run_evaluation.py`:
- **Scoring.** Each response is scored by five evaluators, under the skip and zero-substitution rules of `evaluate_response`.
- **Aggregating.** Per-metric score lists are accumulated over the test cases, for both models.
- **Summaries.** Each list gets a mean/min/max summary.
- **Regressions.** A metric regresses when it drops by more than 10 % from a positive baseline.
- **The exit status.** It is 1 when the endpoint or key is missing or empty, when the dataset file is missing, or when a dataset line does not parse. Otherwise it is 1 exactly when a regression was recorded.

Modules, one per file:

| file | module | what it holds |
|---|---|---|
| `strings.dfy` | `Wrappers`, `Strings` | An `Option` type. Python's `str.isspace`, `strip()`, slicing `[:n]`, `str(n)`, `"\n".join` and string order. An insertion sort proved to give strictly increasing order with the same elements. |
| `audit_rules.dfy` | `AuditRules` | The rule table. The nine patterns are hand-coded search predicates. Each is proved equal to a regex-style reference reading, and proved case-insensitive and position-independent. |
| `audit_scan.dfy` | `AuditScan` | `Finding`, `scan_file`, the path filter and `scan_directory`. |
| `audit_report.dfy` | `AuditReport` | `generate_report` and the exit status of `main`. |
| `eval_scoring.dfy` | `EvalScoring` | The five metrics, the inputs each evaluator receives, and `evaluate_response`. |
| `eval_stats.dfy` | `EvalStats` | Mean, min and max. The regression rule, drop percent and difference tags. |
| `eval_run.dfy` | `EvalRun` | Dataset loading, `run_comparison`, and `main` of the evaluation script. |

Things outside the two scripts are parameters:
- **The walked tree** is a sequence of `SourceFile` values, in walk order. Each is a path, its components, and its lines, or `None` when the file cannot be read.
- **The dataset file** is its lines plus a `parse` function standing for `json.loads`.
- **The two chat models** are a `Generator`. It returns `None` when the client call raises.
- **The five judge-model evaluators** are a `Judge`. It returns either `Raises` or the result dictionary.

Both the generator and the judge are indexed by test-case position and model. That way the same inputs may get different answers in different cases.

Three behaviours of the code are worth stating plainly, because they are easy to assume otherwise:
- **Failures are scored as 0.0 and stay in the mean.** An evaluator that raises, or returns a falsy score, records 0.0. A failed generation is replaced by the empty response, which is then evaluated and scored. No failed case is left out of a mean, and no failure count is kept. The only scores left out are similarity scores of cases without a ground truth, because that evaluator is skipped for them.
- **A zero baseline is never flagged.** A baseline mean of zero or less is never a regression, whatever the candidate mean.
- **The threshold is fixed.** The regression threshold is a fixed 10 %. There is no minimum-score gate and no configurable threshold.

## Model

| member | source | states |
|---|---|---|
| Strings.Strip | scripts/audit_codebase.py:96 | `strip()` never lengthens the line. The result starts and ends with a non-space character. It is empty exactly when the line is all white space. |
| Strings.StripSlice | scripts/audit_codebase.py:96 | `strip()` returns a contiguous slice of the line, and only white space lies before and after that slice. |
| Strings.StripIdempotent | scripts/audit_codebase.py:96 | Stripping a stripped line changes nothing. |
| Strings.Take | scripts/audit_codebase.py:96 | `[:100]` returns a prefix of length min(len, 100). |
| Strings.SortStringsCorrect | scripts/audit_codebase.py:160 | Sorting distinct paths gives them in strictly increasing code-point order, as a permutation of the input. |
| AuditRules.MatchesIsRegexMatches | scripts/audit_codebase.py:28-74 | The hand-coded matcher finds a match exactly when the regex reading does. The matcher skips white space greedily; the regex reading allows any split of the `\s*` runs. |
| AuditRules.TailAtIsRegexTail | scripts/audit_codebase.py:30-70 | From a given index, `\s* [=:] \s* value` matches greedily exactly when some choice of white-space runs matches. |
| AuditRules.ValueStartsWithNonSpace | scripts/audit_codebase.py:30-70 | Every value form (`[\d.]`, `\d`, `["']2024`, `True/true/\d`, `["']system["']`) starts with a non-space character. So `\s*` never has to give back a character to the value. |
| AuditRules.MatchesIgnoresCase | scripts/audit_codebase.py:92 | Lines that agree up to IGNORECASE folding match the same patterns. |
| AuditRules.MatchesAnywhere | scripts/audit_codebase.py:92 | A match on a line is still a match with any text before and after it (`re.search`). |
| AuditRules.RulesSeverities | scripts/audit_codebase.py:28-74 | The table has nine rules. `system_role` and `old_api_version` are MEDIUM, `gpt-4o_model` is INFO, and the other six are HIGH. |
| AuditRules.TemperatureAcceptsDot | scripts/audit_codebase.py:30 | Every line that equals `Temperature = .5` up to letter case is flagged by the `temperature` rule: `[\d.]+` accepts a value starting with a dot. |
| AuditRules.MaxTokensNeedsDigit | scripts/audit_codebase.py:50 | `max_tokens=.5` is not flagged, because `max_tokens` requires `\d+`. |
| AuditScan.ScanFile | scripts/audit_codebase.py:79-102 | The line-by-rule loop returns exactly the findings of the file's lines. An unreadable file yields none. |
| AuditScan.FileFindingsCorrect | scripts/audit_codebase.py:90-100 | Each finding is a hit of the rule it names: 1-based line within the file, and that rule's severity and recommendation. Every hit is reported. Order is strictly by line, then by table order, so there is at most one finding per (line, rule). |
| AuditScan.FindingContent | scripts/audit_codebase.py:96 | A finding's code excerpt is a prefix of the stripped line, at most 100 characters long. It is the whole stripped line when that fits. |
| AuditScan.RuleIndexOfRule | scripts/audit_codebase.py:28-74 | The nine issue types are pairwise different, so each names exactly one table entry. |
| AuditScan.Suffix | scripts/audit_codebase.py:118 | `Path.suffix` is the tail of the name from its last dot when that dot is neither the first nor the last character. Otherwise, and when the name has no dot, it is empty. A non-empty suffix starts with its only dot and has at least two characters. |
| AuditScan.ExtensionsShape | scripts/audit_codebase.py:77 | Every entry of `EXTENSIONS` is a dot followed by at least one lower-case ASCII letter. |
| AuditScan.SuffixInExtensions | scripts/audit_codebase.py:118 | The lower-cased suffix is in `EXTENSIONS` iff the lower-cased name ends in a listed extension and has at least one character before it. |
| AuditScan.LowerAscii | scripts/audit_codebase.py:118 | Lower-casing keeps the length and maps exactly `A`-`Z` to `a`-`z`. |
| AuditScan.ShouldScanIff | scripts/audit_codebase.py:112-119 | A file is scanned iff no path component equals an excluded name, and its lower-cased name ends in a listed extension with at least one character before it. |
| AuditScan.DefaultsAlwaysExcluded | scripts/audit_codebase.py:230-231 | Whatever `--exclude` adds to the seven default names, a file with a component among the defaults is never scanned. |
| AuditScan.ScannedExample | scripts/audit_codebase.py:114-118 | `src/mybuild/App.PY` is scanned: `mybuild` is not `build`, and `.PY` lower-cases to `.py`. |
| AuditScan.ExcludedExample | scripts/audit_codebase.py:114-115 | `src/build/app.py` is skipped. |
| AuditScan.DotFileExample | scripts/audit_codebase.py:118 | A file named `.py` has no suffix and is not scanned. |
| AuditScan.ScanDirectory | scripts/audit_codebase.py:104-122 | Returns the findings of every file that passes the filter, in walk order. A missing exclusion list means the seven default names. |
| AuditScan.TreeFindingsMembership | scripts/audit_codebase.py:112-120 | A finding of the tree is exactly a finding of some walked file that passes the filter. |
| AuditReport.CountSeverity | scripts/audit_codebase.py:137-139 | A severity count never exceeds the number of findings. |
| AuditReport.CountsPartition | scripts/audit_codebase.py:137-139 | The HIGH, MEDIUM and INFO counts add up to the total number of findings. |
| AuditReport.CountPositiveIff | scripts/audit_codebase.py:137-139 | A severity count is positive exactly when some finding has that severity. |
| AuditReport.PathsInOrderFacts | scripts/audit_codebase.py:141-143 | The keys of `by_file` are distinct. They are exactly the paths of the findings. |
| AuditReport.OfFileMembers | scripts/audit_codebase.py:141-143 | The group of a path holds exactly the findings with that path. |
| AuditReport.SortedPathsCorrect | scripts/audit_codebase.py:160 | Files are listed in strictly increasing path order. Each path of a finding is listed exactly once. |
| AuditReport.SortByLineCorrect | scripts/audit_codebase.py:162 | A file's findings come out in non-decreasing line order, permuted from the input. Findings on the same line keep their scan order (a stable sort). |
| AuditReport.SortByLineOfSorted | scripts/audit_codebase.py:162 | Findings already in line order are left unchanged. |
| AuditReport.GroupByFile | scripts/audit_codebase.py:141-143 | The `setdefault` loop builds one entry per distinct path, in first-seen order. Each entry holds that path's findings in their original order. |
| AuditReport.FileEntries | scripts/audit_codebase.py:162-167 | Appends the three lines of each finding, in order. |
| AuditReport.WriteSections | scripts/audit_codebase.py:159-167 | Appends a blank line, the path line and the finding lines for each path, in the order given. |
| AuditReport.WriteActions | scripts/audit_codebase.py:169-192 | The action lines include the REQUIRED block only with HIGH findings and the RECOMMENDED block only with MEDIUM findings. Steps 3 and 4 are always among the action lines. |
| AuditReport.Report | scripts/audit_codebase.py:124-194 | The report is the "No migration issues found!" banner exactly when there are no findings. Otherwise it opens with the rule of seventy `=` signs. |
| AuditReport.GenerateReport | scripts/audit_codebase.py:124-194 | The report is the fixed "No migration issues found!" banner for no findings. Otherwise it is the header with counts, the file blocks in sorted path order with findings sorted by line, and the action lines, joined by newlines. |
| AuditReport.HeadingPlacement | scripts/audit_codebase.py:146-192 | A line starting with a digit can only come from the actions part of the report. |
| AuditReport.RequiredIffHigh | scripts/audit_codebase.py:175-179 | The "[REQUIRED]" step is in the report iff some finding is HIGH. |
| AuditReport.RecommendedIffMedium | scripts/audit_codebase.py:181-185 | The "[RECOMMENDED]" step is in the report iff some finding is MEDIUM. |
| AuditReport.ClosingStepsAlways | scripts/audit_codebase.py:187-191 | Every report of a non-empty finding list contains steps 3 "[AFTER FIXES]" and 4 "[TESTING]", whatever the severity counts. An empty list gets the banner, which has neither. |
| AuditReport.PrintedSteps | scripts/audit_codebase.py:169-194 | The printed text of a non-empty report contains steps 3 and 4. It contains the REQUIRED step when some finding is HIGH, and the RECOMMENDED step when some finding is MEDIUM. |
| Strings.JoinLinesOccurs | scripts/audit_codebase.py:194 | Every line joined by `"\n".join` occurs in the joined text. |
| AuditReport.AuditExitCode | scripts/audit_codebase.py:248-250 | The exit status is 0 or 1. It is 1 iff some finding is HIGH. |
| AuditReport.AuditMain | scripts/audit_codebase.py:224-250 | A missing path gives status 1 and no report. Otherwise the tree is scanned with the defaults plus `--exclude`, and the status follows the HIGH findings. |
| EvalScoring.MetricIndex | scripts/run_evaluation.py:76-82 | Each metric has its position in the evaluator order. |
| EvalScoring.EvaluatorsComplete | scripts/run_evaluation.py:76-82 | The five evaluators are all listed, each once. |
| EvalScoring.CallFor | scripts/run_evaluation.py:126-142 | Coherence and fluency receive only query and response. Similarity is skipped exactly when the ground truth is empty, and otherwise receives it. Relevance and groundedness receive the context, or "No additional context provided." when it is empty. |
| EvalScoring.Lookup | scripts/run_evaluation.py:144 | `score` takes precedence when present. Without it, the metric's own key is used when present, and 0 otherwise. The value is always one of the result's values, or 0. |
| EvalScoring.ScoreOf | scripts/run_evaluation.py:144-149 | `result.get("score", result.get(metric, 0))` is kept when truthy. The score is 0.0 exactly when the evaluator raised or that value is falsy. |
| EvalScoring.EvaluateResponse | scripts/run_evaluation.py:114-151 | The loop over the evaluators builds the scores map: one entry per metric that is not skipped. |
| EvalScoring.ScoresForFacts | scripts/run_evaluation.py:124-149 | After the loop over some metrics, a metric has a score iff it was visited and not skipped. The score is the one computed from its evaluator's outcome. |
| EvalScoring.ScoresFacts | scripts/run_evaluation.py:124-149 | Every metric gets a score except similarity without a ground truth. A score is 0.0 exactly when its evaluation failed or was falsy. |
| EvalStats.Min | scripts/run_evaluation.py:231 | `min` is at most every element. |
| EvalStats.Max | scripts/run_evaluation.py:232 | `max` is at least every element. |
| EvalStats.MinMaxAttained | scripts/run_evaluation.py:231-232 | The minimum and the maximum are elements of the list. |
| EvalStats.MeanBetween | scripts/run_evaluation.py:229-233 | min ≤ mean ≤ max. |
| EvalStats.MeanWithin | scripts/run_evaluation.py:229 | The mean of values that all lie between two bounds lies between them. |
| EvalStats.MeanTimesLength | scripts/run_evaluation.py:230 | The mean times the length of the list is its sum. |
| EvalStats.Summarize | scripts/run_evaluation.py:228-239 | A summary entry exists iff the list is non-empty. It then holds the list's mean and has min ≤ mean ≤ max. Its min and max occur in the list and bound every score in it. |
| EvalStats.RegressionIff | scripts/run_evaluation.py:245 | `mean_4o > 0 and (mean_51 - mean_4o) / mean_4o < -0.1` holds iff the baseline is positive and the candidate is below nine tenths of it. |
| EvalStats.RegressionBoundaries | scripts/run_evaluation.py:245 | A drop of exactly 10 % is never flagged. Neither is any change from a baseline of zero or below. |
| EvalStats.RegressionExamples | scripts/run_evaluation.py:245 | 4.0 → 3.4 is a regression; 4.0 → 3.7 is not. |
| EvalStats.DropPercent | scripts/run_evaluation.py:250 | The unrounded `drop_percent` is positive iff the candidate mean is below the baseline. It is above 10 iff the pair is flagged as a regression. |
| EvalStats.DiffTagOf | scripts/run_evaluation.py:272-284 | The output is N/A iff a mean is missing. It is a warning iff diff < -0.3, and an improvement iff diff > 0.1. |
| EvalStats.PlainBand | scripts/run_evaluation.py:279-282 | Differences within [-0.3, 0.1] get no mark. |
| EvalRun.GroundTruthOf | scripts/run_evaluation.py:188 | The ground truth is `ground_truth` when present, else `expected_output`, else "". |
| EvalRun.TestIdOf | scripts/run_evaluation.py:212 | The test id is `test_id` when present, else `test_<i>`. |
| EvalRun.NonBlankMembers | scripts/run_evaluation.py:163-164 | The kept lines are exactly the dataset lines that are not all white space. |
| EvalRun.ParseAllFacts | scripts/run_evaluation.py:165 | Parsing fails iff some kept line fails. Otherwise there is one test case per kept line, in order. |
| EvalRun.DatasetFacts | scripts/run_evaluation.py:161-165 | The dataset loads iff every non-blank line parses. It then holds one test case per non-blank line, in file order. |
| EvalRun.LoadDataset | scripts/run_evaluation.py:161-165 | The reading loop returns exactly the dataset's test cases, or `None` at the first line that does not parse. |
| EvalRun.ResponseOf | scripts/run_evaluation.py:192-203 | A failed generation gives the response "". Otherwise the generated text is used. |
| EvalRun.RunCase | scripts/run_evaluation.py:186-217 | One iteration generates and scores both responses and builds the `test_result` record. |
| EvalRun.ResultsFacts | scripts/run_evaluation.py:183-217 | There is one result record per test case, in order, carrying the case's id and query. |
| EvalRun.ScoresHas | scripts/run_evaluation.py:207-208 | A case's scores for either model hold every metric except similarity without a ground truth. |
| EvalRun.FailedGenerationScored | scripts/run_evaluation.py:192-208 | A failed generation is recorded as "" and still gets the same set of metric scores. |
| EvalRun.ColumnLength | scripts/run_evaluation.py:180-224 | For both models, coherence, fluency, relevance and groundedness lists have one score per test case. The similarity list has one per case with a non-empty ground truth. |
| EvalRun.ColumnCount | scripts/run_evaluation.py:219-224 | A list grows by exactly one for each record whose scores hold the metric. |
| EvalRun.Accumulate | scripts/run_evaluation.py:219-224 | The inner loop appends each metric's score when the case has one, and nothing else changes. |
| EvalRun.SummariesOverFacts | scripts/run_evaluation.py:226-239 | After the loop over some metrics, a metric has a summary entry iff it was visited and its list is non-empty. The entry summarises that list. |
| EvalRun.SummaryFacts | scripts/run_evaluation.py:227-239 | A model has a summary entry for a metric iff its list is non-empty. The entry has the list's mean and min ≤ mean ≤ max. Its min and max occur in the list and bound every score in it. |
| EvalRun.RegressionsOver | scripts/run_evaluation.py:241-251 | The records of the summary loop are never more than the metrics visited, and each belongs to a flagged metric. |
| EvalRun.RegressionsOverSound | scripts/run_evaluation.py:241-251 | After the first k evaluators, each record belongs to a flagged metric among them and carries its two means and drop. Records follow evaluator order. |
| EvalRun.RegressionsOverComplete | scripts/run_evaluation.py:241-251 | Every flagged metric among the visited ones has a record. |
| EvalRun.RegressionsCorrect | scripts/run_evaluation.py:241-251 | A regression is recorded for a metric iff both lists are non-empty and the rule holds. Each record carries both means and a drop above 10 %. Records follow evaluator order. |
| EvalRun.RegressionsNonEmptyIff | scripts/run_evaluation.py:241-251 | The regression list is non-empty iff some metric is flagged. |
| EvalRun.Summaries | scripts/run_evaluation.py:226-251 | The summary loop produces both models' summaries and the regression list from the accumulated lists. |
| EvalRun.RunComparison | scripts/run_evaluation.py:169-259 | The whole run returns the records, both summaries and the regressions of the test cases. |
| EvalRun.EvalExitCode | scripts/run_evaluation.py:359 | The status is 0 or 1. It is 1 iff the regression list is non-empty. |
| EvalRun.ExitCodeIffFlagged | scripts/run_evaluation.py:359 | The evaluation fails iff some metric is flagged as a regression. |
| EvalRun.EvalMain | scripts/run_evaluation.py:333-359 | A missing or empty endpoint or key, a missing dataset, or a line that does not parse gives status 1 and no results. Otherwise the status follows the regressions of the run. |

## Left out

- **File access.** Reading files (`open`, `readlines`, `errors='ignore'` decoding) and walking directories (`Path.rglob`) are left out. Files arrive as given components and lines, in walk order. An unreadable path, including a directory whose name passes the filter, has `None` contents.
- **`\d` and `.lower()`.** Both are modelled on ASCII only. Python also accepts other Unicode decimal digits for `\d` and lower-cases non-ASCII letters. No such letter lowers to one of the listed extensions.
- **IGNORECASE.** Folding covers the letters that occur in the patterns. These are the ASCII letters plus U+0130, U+0131, U+017F and U+212A, which Python matches with `i`, `s` and `k`.
- **Audit output options.** `--format json`, `--output` and all console printing are left out. Only the text report and the exit status are modelled.
- **Model calls.** The model clients and their prompts (`generate_response_4o`, `generate_response_51`) are left out. So are the Azure evaluator objects and the judge configuration. They become the `Generator` and `Judge` parameters.
- **Missing message content.** A chat completion whose `message.content` is `None` is not representable. A `Generator` answers with a string, or `None` only when the call raised, which becomes the empty response.
- **Dataset parsing.** `json.loads` becomes the `parse` parameter. A record's fields are strings or absent; other JSON value types are not modelled.
- **Evaluator results.** Result dictionaries hold numbers or nulls. A string or boolean score and `float()` applied to it are not modelled.
- **Floating point.** Arithmetic is exact, over `real`. Binary floating point can break min ≤ mean ≤ max by rounding, and can shift the exact 10 % boundary. None of that is captured.
- **EvalStats.DropPercent:** `drop_percent` is stated unrounded, because `round(..., 2)` is a float formatting step.
- **Run results output.** The timestamp and dataset path in `results`, `json.dump` of the results file, and the progress messages are left out.
- **`print_summary` formatting.** Column padding, number formatting and the regression lines are left out. Only the classification of the difference column is modelled.
- **Command-line arguments.** `argparse` is left out; environment variables are given as optional strings.
- **EvalRun.EvalMain:** a dataset line that does not parse is reported as status 1 with no results. In the script this is an uncaught exception, which ends the process with status 1.
- **EvalRun.ExitCodeIffFlagged:** it is stated for run results whose regression list is the one computed from their own test records. `Comparison` builds exactly those.
