# Intelligent Observability Platform — verified model of the log-to-scaling pipeline

The platform reads service logs from CSV files. It flags anomalous records with an isolation forest, asks an LLM for remediation advice and scales services up. This project models the deterministic core of that pipeline in Dafny and proves what each part promises:

- **Scaling** (`agents/auto_scaler.py`): a persisted map from service name to `{instances, max_instances}`. `evaluate_scaling` walks a batch of anomalies in order, raises a service's count by one at a time up to its ceiling, and writes the map back once.
- **Features** (`_prepare_features` in `agents/anomaly_detector.py`): a batch of records becomes an 8-column table. The table holds categorical codes with pandas `Categorical` ordering, the first number of a string by the regex `\d+(?:\.\d+)?`, `rstrip` of `%` and `ms`, and two 0/1 flags.
- **Detection** (`AnomalyDetector.fit`/`detect`): a two-state machine. It bootstrap-fits on the first readable batch and never refits. It then reports the outlying records in input order, each copied with its score and features.
- **LogReading** (`agents/log_reader.py`): two readers and one cache.
  - A per-file window over the latest minutes.
  - A read cursor that returns only rows strictly newer than the last read.
  - The cache of known anomalies.
- **JsonValues** and **ResponseLog** (`main.py`): `clean_json`, plus the JSON file of LLM responses that `save_llm_response` appends to.
- **Remediation** (`agents/remediator.py`): the append-only history file. A status change appends a modified copy of the first matching entry.

Supporting modules:

- `Wrappers` holds Option and Result.
- `Records` holds log records: a map from column name to `Str | Num | NaN | Time`, where a missing key is a missing cell.
- `PyText` holds Python string semantics:
  - code-point lexicographic `<`;
  - `rstrip`;
  - case-insensitive substring search.

Library calls are abstracted:

- The isolation forest is an oracle. Fitting may fail. Once trained on a table, it gives each row a score, and the label is "score above the threshold learnt from the table".
- `Timestamp.isoformat()` is a parameter function.
- The LLM's text is a parameter.
- Timestamps are integer seconds.
- Files are values held by the object that owns them:
  - the state file, the history file and the response file, each missing, unparseable or parsed;
  - CSV files, each a sequence of rows or unreadable.

Where the code behaves in a way its names or docstrings do not suggest, the model follows the code:

- `read_new_logs` and `get_recent_logs` abort the whole call, returning [], on one unreadable file. They do not skip that file.
- The memory and response-time thresholds compare strings.
- `reset_scaling` does nothing when the state file exists.
- `suggest_remediation` awaits the plain string that the synchronous LLM client returns. The `await` raises TypeError, so nothing is ever recorded. `SuggestRemediationAsWritten` models this. `SuggestRemediation` models the evidently intended awaitable client, and the agent uses it.

## Model

| member | source | states |
|---|---|---|
| Scaling.InitializedState | agents/auto_scaler.py:12-24 | a missing state file becomes exactly the four default services; an existing file, readable or not, is kept |
| Scaling.DefaultsBounded | agents/auto_scaler.py:15-22 | the defaults are web-server 1/5 and database, auth-service, payment-service 1/3, all within bounds |
| Scaling.ShouldScale | agents/auto_scaler.py:43-47 | true exactly when cpu > 80, or (cpu test false and) memory string > "80", or (both false and) response string > "1000"; an error exactly when the first test that runs raises, and then that test's error |
| Scaling.CpuOver | agents/auto_scaler.py:44 | true iff `cpu_usage` is a number over 80 (a missing value counts as 0, NaN as false); raises iff it is a string or a Timestamp |
| Scaling.MemoryOver | agents/auto_scaler.py:45 | a missing value is "0%" and so not over; raises iff the value is not a string; true iff "80" sorts before the value stripped of '%' |
| Scaling.ResponseOver | agents/auto_scaler.py:46 | a missing value is "0" and so not over; raises iff the value is not a string; true iff "1000" sorts before the value stripped of 'm' and 's' |
| Scaling.TargetService | agents/auto_scaler.py:34-36 | an anomaly is considered iff its service is a non-empty string that is a key of the state |
| Scaling.Step | agents/auto_scaler.py:33-57 | one anomaly changes only its own service's `instances`, by 0 or 1, emitting one `scale_up` action with to = from + 1 ≤ max exactly when the test holds and from < max; keys and ceilings unchanged; it raises exactly when its service is known and the test raises, with the test's error |
| Scaling.Evaluate | agents/auto_scaler.py:33-57 | a successful batch keeps the set of services and reports at most one action per anomaly; an error is that of some anomaly for a known service whose test raises |
| Scaling.EvaluateFailsOnRaise | agents/auto_scaler.py:33-57 | conversely, an anomaly for a known service whose test raises makes the whole batch fail, wherever it stands |
| Scaling.EvaluateAccounting | agents/auto_scaler.py:33-57 | after a batch, same keys and ceilings, and each service's count is its old count plus the number of its actions |
| Scaling.EvaluatePreservesBounds | agents/auto_scaler.py:49-50 | 1 ≤ instances ≤ max_instances is preserved by a batch |
| Scaling.EvaluateActionsChain | agents/auto_scaler.py:38-57 | the i-th action's from is the old count plus the earlier actions for that service, to = from + 1 ≤ max, so same-service anomalies see updated counts |
| Scaling.EvaluateIgnoresUnknownServices | agents/auto_scaler.py:34-36 | a batch whose anomalies all lack a known service (including the empty batch) changes nothing and emits nothing |
| Scaling.CountForAppend | agents/auto_scaler.py:51-57 | action counts per service add up over concatenation |
| Scaling.ScaleBatch | agents/auto_scaler.py:33-57 | the loop over the batch, taking one `Step` per anomaly and stopping at the first raise, computes `Evaluate` |
| Scaling.AutoScaler.EvaluateScaling | agents/auto_scaler.py:26-63 | a missing or unparseable file raises and stays as it is; otherwise the actions and final map are those of `Evaluate`, written back once; an exception in the test leaves the file untouched |
| Scaling.AutoScaler.GetServiceStatus | agents/auto_scaler.py:65-78 | a missing or unparseable file raises; otherwise exactly the state's keys, each with current = instances, min = 1, same max |
| Scaling.AutoScaler.constructor | agents/auto_scaler.py:6-10 | the state becomes `InitializedState` of the file found |
| Scaling.AutoScaler.InitializeState | agents/auto_scaler.py:12-24 | the state becomes `InitializedState` of the previous state: defaults only for a missing file |
| Scaling.AutoScaler.ResetScaling | agents/auto_scaler.py:80-82 | re-runs initialisation: an existing file is left unchanged |
| Scaling.StringThresholdsMisorder | agents/auto_scaler.py:45-46 | "9%" counts as over 80 while "100%" does not; "50ms" counts as over 1000 |
| Scaling.NumericThresholdsCompareValues | agents/auto_scaler.py:45-46 | with numeric comparison, a written n% (n ms) is over iff n > 80 (n > 1000) |
| Scaling.ShouldScaleNumeric | agents/auto_scaler.py:43-47 | the corrected test, short-circuiting in the same order: true exactly when the first test that does not answer false answers true, an error exactly when it raises, and then its error |
| Scaling.ResetKeepsScaledState | agents/auto_scaler.py:80-82 | a scaled-up state survives `reset_scaling` |
| Scaling.ResetIntended | agents/auto_scaler.py:80-82 | the corrected reset: exactly the default state (all four services at one instance under their default ceilings), whatever the file held |
| PyText.RStrip | agents/anomaly_detector.py:38-40 | the result is a prefix of the input, ends in a character outside the set, and only set characters were removed |
| PyText.RStripSuffix | agents/anomaly_detector.py:38-40 | stripping a suffix of set characters that follows a character outside the set gives back exactly the text before the suffix |
| PyText.LexLessTotal | agents/auto_scaler.py:45-46 | Python string comparison is a strict total order (with the irreflexive and transitive lemmas beside it) |
| PyText.ContainsIgnoreCase | agents/anomaly_detector.py:44 | true iff the pattern occurs at some position, ignoring ASCII case |
| Features.FindNumber | agents/anomaly_detector.py:31-33 | None iff the string has no digit; otherwise the leftmost, greedy match of `\d+(?:\.\d+)?` |
| Features.FirstMatchUnique | agents/anomaly_detector.py:32 | the first-match conditions determine the match uniquely |
| Features.SafeExtractNumber | agents/anomaly_detector.py:26-34 | missing/NaN → 0; a string → the value of the leftmost match (≥ 0), or 0 without a digit; a number → itself; a Timestamp → error |
| Features.ExtractWrittenNumber | agents/anomaly_detector.py:26-34 | a decimal numeral followed by a unit is read back as its value |
| Features.ExtractWrittenDecimal | agents/anomaly_detector.py:26-34 | a numeral with a fraction, followed by a unit, is read back as whole part plus fraction: "12.25ms" → 12.25 |
| Features.ExtractExamples | agents/anomaly_detector.py:26-34 | "-5" → 5, "abc" → 0, "1.5ms" → 1.5 |
| Features.StrippedNumber | agents/anomaly_detector.py:38-40 | the stripped-and-extracted value is ≥ 0, and 0 for a non-string cell |
| Features.StrippedWrittenNumber | agents/anomaly_detector.py:38-40 | a written number followed by stripped unit characters is read as that number: "45%" → 45, "120ms" → 120 |
| Features.CategoryCode | agents/anomaly_detector.py:22-23 | the code is −1 exactly for a missing cell |
| Features.CategoryOrder | agents/anomaly_detector.py:22-23 | the category order is a strict total order on a column's values |
| Features.CategoryCodesArePositions | agents/anomaly_detector.py:22-23 | codes lie in [0, #categories), follow the category order, and are equal iff the values are |
| Features.NamedFeatures | agents/anomaly_detector.py:46-49 | a row as 8 named values, in the column order `level_code … is_blocked` |
| Features.MissingOf | agents/anomaly_detector.py:16-17 | lists exactly the required columns no record has |
| Features.PrepareFeatures | agents/anomaly_detector.py:11-49 | ValueError iff a required column is absent, listing exactly those; an empty batch lacks all four; then, in source order, a KeyError for an absent `cpu_usage`, a TypeError for a Timestamp in it, and a KeyError or AttributeError for each of memory_usage, response_time, execution_time and message that is absent or not of object dtype (no string, and not both a number and a Timestamp), each exactly when the checks before it pass; succeeds iff all pass, with one row per record, in order |
| Features.PrepareAcceptsGeneratedShape | agents/anomaly_detector.py:11-49 | a batch whose first record has the columns the log generator writes, with strings in the `.str` columns and no Timestamp in `cpu_usage`, builds one row per record |
| Features.MixedColumnAccepted | agents/anomaly_detector.py:38-40 | `.str` accepts a column that holds a number in one record and a Timestamp in another, since pandas stores it as object dtype |
| Features.MixedMemoryColumnBuilds | agents/anomaly_detector.py:26-40 | a batch whose `memory_usage` is a number in one record and a Timestamp in the other, with no string, builds, and both rows have memory 0 |
| Features.RowMeaning | agents/anomaly_detector.py:22-44 | has_error = 1 iff level ∈ {ERROR, CRITICAL, WARNING}; is_blocked = 1 iff the message contains "blocked" in any case; codes are −1 iff missing and in range; measurements ≥ 0 |
| Features.SameCodeIffSameCell | agents/anomaly_detector.py:22-23 | two records get the same code iff their cells agree (both missing or equal) |
| Features.UnparseableMemoryIsZero | agents/anomaly_detector.py:38 | "abc%" gives memory 0 |
| Detection.AfterFit | agents/anomaly_detector.py:51-62 | empty input leaves the state; otherwise fitted iff the features build and training succeeds, trained on that table |
| Detection.AfterDetect | agents/anomaly_detector.py:64-77 | a fitted detector is never refitted; an empty or unreadable batch changes nothing; otherwise it fits on the batch |
| Detection.MakeAnomaly | agents/anomaly_detector.py:86-93 | the copy keeps every key of the record, with a Timestamp turned into its ISO string, plus score and the row's 8 features |
| Detection.Outliers | agents/anomaly_detector.py:84-85 | the strictly increasing positions of exactly the rows labelled as outliers |
| Detection.Flagged | agents/anomaly_detector.py:83-96 | the list after n records holds at most n anomalies, each with a score above the threshold |
| Detection.FlaggedFollowsOutliers | agents/anomaly_detector.py:83-96 | the loop's result is the outlying records, in order, each made into its anomaly |
| Detection.Detected | agents/anomaly_detector.py:64-99 | [] for empty or unreadable input or an unfitted detector, so a non-empty result means a fitted detector and a readable batch; never longer than the input |
| Detection.DetectedAreOutliers | agents/anomaly_detector.py:79-96 | whenever the batch is non-empty, builds and the detector is fitted, the result is the order-preserving subsequence of exactly the outliers, each with its score above the threshold and its features |
| Detection.AnomalyDetector.constructor | agents/anomaly_detector.py:7-9 | a new detector holds the given forest and is not fitted |
| Detection.AnomalyDetector.Fit | agents/anomaly_detector.py:51-62 | the new state is `AfterFit` |
| Detection.AnomalyDetector.Detect | agents/anomaly_detector.py:64-99 | returns `Detected` and leaves the state `AfterDetect` |
| Detection.AnomalyDetector.Collect | agents/anomaly_detector.py:83-94 | the loop over the batch builds the flagged list |
| LogReading.MinTime | agents/log_reader.py:63 | the least timestamp of a non-empty file, attained |
| LogReading.MaxTime | agents/log_reader.py:34 | the greatest timestamp, attained |
| LogReading.Newer | agents/log_reader.py:37 | keeps exactly the rows strictly after the cutoff |
| LogReading.Window | agents/log_reader.py:30-37 | rows strictly newer than the file's latest minus `minutes`; with minutes > 0 it holds a latest row |
| LogReading.Recent | agents/log_reader.py:23-40 | the loop only appends: what was gathered before stays a prefix of the result |
| LogReading.RecentLogs | agents/log_reader.py:19-45 | [] when some non-cache file is unreadable; otherwise the windows of the files in file order |
| LogReading.RecentIsWindows | agents/log_reader.py:19-45 | the loop fails iff some non-cache file is unreadable, and otherwise concatenates the windows in file order |
| LogReading.RecentLogsWithinWindow | agents/log_reader.py:30-40 | every returned row is within its own file's window; with minutes > 0 every non-empty file contributes its latest row |
| LogReading.ScanFails | agents/log_reader.py:49-75 | the cursor loop fails iff some file raises |
| LogReading.ScanCursor | agents/log_reader.py:61-63 | a set cursor is kept; an unset one becomes the earliest timestamp of the first non-empty file |
| LogReading.ScanRows | agents/log_reader.py:65-67 | the rows gathered are exactly those of all files strictly newer than the cursor |
| LogReading.ReadNew | agents/log_reader.py:47-75 | [] on failure; after a non-empty result the cursor is the greatest timestamp returned |
| LogReading.ReadNewMeaning | agents/log_reader.py:61-75 | returns exactly the rows newer than the starting cursor; the cursor never decreases, strictly increases after rows, survives a failure |
| LogReading.SecondReadIsEmpty | agents/log_reader.py:65-70 | with unchanged files a second read returns [] |
| LogReading.InitialCache | agents/log_reader.py:14-17 | a missing cache becomes `{last_position: 0, known_anomalies: []}` |
| LogReading.Marked | agents/log_reader.py:77-92 | on a readable cache, with the three keys present and no Timestamp among them, the cache becomes last_position unchanged and known_anomalies plus exactly the {timestamp, service, message} entry; a missing key or unreadable cache changes nothing; with the three keys on a readable cache, a Timestamp value leaves the file garbled |
| LogReading.LogReader.constructor | agents/log_reader.py:8-17 | no cursor yet, and the cache is `InitialCache` of the file found |
| LogReading.LogReader.GetRecentLogs | agents/log_reader.py:19-45 | the loop returns `RecentLogs` and changes nothing |
| LogReading.LogReader.ReadNewLogs | agents/log_reader.py:47-75 | the cursor and rows are those of `ReadNew`; the cache is untouched |
| LogReading.LogReader.MarkAnomaly | agents/log_reader.py:77-92 | the cache becomes `Marked` (so garbled on a Timestamp value); the cursor is untouched |
| JsonValues.Clean | main.py:194-206 | dicts keep keys and order, lists keep length, both cleaned elementwise; NaN/±inf → None, finite floats kept; datetime-likes → ISO string; all else unchanged |
| JsonValues.CleanSettles | main.py:194-206 | the result has no non-finite float or datetime outside a tuple |
| JsonValues.CleanKeepsSettled | main.py:194-206 | a settled value is returned unchanged |
| JsonValues.CleanIdempotent | main.py:194-206 | cleaning twice is cleaning once |
| ResponseLog.Persisted | main.py:56-57 | what is written reads back as a plain JSON value (tuples become lists) |
| ResponseLog.PersistedNative | main.py:53-57 | a plain JSON value survives the write/read round trip |
| ResponseLog.Load | main.py:44-51 | the parsed document, or [] when the file is missing or unparseable |
| ResponseLog.Save | main.py:53-57 | succeeds iff the loaded value is a list and the appended list is serialisable, writing that list; no append → file unchanged; dump error → file garbled |
| ResponseLog.SaveThenLoad | main.py:44-57 | after saving, loading gives the previous list plus the entry at the end ([entry] from a missing file) |
| ResponseLog.ResponseFile.constructor | main.py:42 | the response file is taken as found; nothing is created |
| ResponseLog.ResponseFile.SaveLlmResponse | main.py:53-57 | the file becomes that of `Save` |
| Remediation.Lookup | agents/remediator.py:63 | `dict.get`: None iff the key is absent, else a value stored under it |
| Remediation.InitializeHistory | agents/remediator.py:13-17 | an empty list is created only when the file is missing |
| Remediation.GetHistory | agents/remediator.py:55-58 | the stored document, or an error when missing or unparseable |
| Remediation.SaveToHistory | agents/remediator.py:45-53 | succeeds iff the file holds a list and the appended list is serialisable, then writes it |
| Remediation.SaveAppendsOne | agents/remediator.py:45-53 | exactly one entry is appended at the end, earlier entries unchanged |
| Remediation.SuggestRemediationAsWritten | agents/remediator.py:19-43 | never succeeds and never changes the history: a KeyError for the first missing key of service, level and message, else TypeError from `await` |
| Remediation.SuggestRemediation | agents/remediator.py:19-43 | with an awaitable client: KeyError for the first missing key of service, level and message; with all three, the outcome and file are those of saving {anomaly, suggested_action, status: "pending"}, which is returned on success |
| Remediation.SuggestAppends | agents/remediator.py:34-43 | on a history written by `json.dump`, a dumpable anomaly with the three keys is returned and recorded as exactly one new pending entry at the end |
| Remediation.SuggestionNeverRecorded | agents/remediator.py:32 | where the intended service records the suggestion, the code as written raises and records nothing |
| Remediation.EntryMatches | agents/remediator.py:63 | true iff the entry is a dict whose anomaly is a dict with that timestamp; a non-dict entry, a missing "anomaly" and a non-dict anomaly each raise their own error |
| Remediation.FirstMatchFrom | agents/remediator.py:62-66 | the first entry that does not compare false decides: a match gives its position, a raising entry gives its error; Ok(None) iff every entry compares false |
| Remediation.WithStatus | agents/remediator.py:64 | the copy's status is the new one, every other key unchanged |
| Remediation.MarkStatus | agents/remediator.py:60-66 | an unreadable file raises and stays; on a list, no match leaves it unchanged, a raising entry raises with the file unchanged, and a match saves that entry's copy with the new status |
| Remediation.MarkAppendsCopy | agents/remediator.py:60-66 | history grows by exactly the modified copy of the first match, the original kept; no match → unchanged |
| Remediation.RemediationAgent.constructor | agents/remediator.py:7-17 | the history is `InitializeHistory` of the file found: [] only when missing |
| Remediation.RemediationAgent.SaveEntry | agents/remediator.py:45-53 | the file becomes that of `SaveToHistory` |
| Remediation.RemediationAgent.Suggest | agents/remediator.py:19-43 | result and file are those of `SuggestRemediation` |
| Remediation.RemediationAgent.MarkRemediationStatus | agents/remediator.py:60-66 | the loop's outcome and file are those of `MarkStatus` |

## Left out

- The HTTP layer is not modelled: the FastAPI app, middleware, routes, background tasks and the `process_anomalies` orchestration in main.py.
- The module-level `llm_responses` list in main.py is not modelled; only the file that `save_llm_response` writes is.
- Isolation-forest training, scoring and the contamination threshold are not modelled. They are floating-point numerics in a foreign library. The forest is an oracle with a fit-may-fail flag, a per-row score and a threshold.
- CSV parsing, globbing, `pd.to_datetime` and NaT are not modelled. Files are given as sequences of rows with integer timestamps in seconds, or as unreadable. The glob's file order is the order of the given sequence.
- The OpenAI call (agents/utils.py) is not modelled. Its text is a parameter of the intended `suggest_remediation`.
- Scaling.AutoScaler: a state file that parses but lacks `services`, `instances` or `max_instances` is not represented. The code would raise KeyError only when it reads the missing key, and only for the services a batch touches. The model has a missing file, an unparseable file, or a complete `services` map.
- Floating point is not modelled. Extracted numbers are exact rationals, so `float()` rounding is absent.
- Decimal digits are ASCII only. `\d` in Python also matches other Unicode digits.
- `case=False` is modelled as ASCII case folding only.
- Concurrency is not modelled: the code has no locking, and the read-modify-write of the JSON files is modelled as sequential.
- `print` diagnostics in the exception handlers are not modelled.
- Scaling.Evaluate: keeps the string comparisons the code performs. The numeric test (`ShouldScaleNumeric`) stands beside it and is not substituted into the batch walk, so that the batch walk matches the code.
- Detection.AfterFit: a failed `model.fit` may leave the forest partly retrained. The model keeps the previous table, which is only used again after a successful fit.
- Remediation.Lookup: dicts are item sequences assumed to have distinct keys, as Python dicts do. Lookup takes the first occurrence.

## Findings

| source | as written | input that shows it | evidently intended | confidence | as-written member | corrected member |
|---|---|---|---|---|---|---|
| agents/auto_scaler.py:45-46 | memory and response time compared to '80' and '1000' as strings | memory_usage "9%" scales, "100%" does not; response_time "50ms" counts as over 1000 | compare the numeric values against 80 and 1000 | not executed | Scaling.StringThresholdsMisorder | Scaling.NumericThresholdsCompareValues |
| agents/auto_scaler.py:80-82 | `reset_scaling` re-runs `_initialize_state`, which writes defaults only when the file is missing | a state file with web-server at 3 instances is left at 3 | restore every service to its initial count, as the docstring says | not executed | Scaling.ResetKeepsScaledState | Scaling.ResetIntended |
| agents/remediator.py:32 | `await call_openai(prompt)` on a synchronous function that returns a string | any anomaly with service, level and message: TypeError, and no record is saved | an awaitable (asynchronous) client, so the suggestion is recorded and returned | not executed | Remediation.SuggestionNeverRecorded | Remediation.SuggestAppends |
