# Translation recovery in `DocumentTranslator`

This project models how `DocumentTranslator` (translator/base_translator.py) of AI-Office-Translator
recovers from failed translation calls, in Dafny. The model covers:

- a primary pass over the source segments, with two attempts per segment;
- a failure queue (the file at `FAILED_JSON_PATH`), which receives the units of every segment whose attempts both failed;
- up to three batch rounds that retry the queued units;
- a final line-by-line tier that retries each queued unit on its own and writes back the units that still fail.

Along the way the translator:
- keeps a context window (`previous_text`) of a few trailing translated lines and passes it to each model call;
- builds a continuity log (`combined_previous_texts`);
- reports progress through an optional callback.

The model is in two layers.

- Module `Recovery` states the engine as functions on values:
  - a `Run` holds the context window, the queue file, the log and the traces of invoker calls and progress reports;
  - there is one function per tier, plus the loop that chains them.
- Module `Translator` is the class `DocumentTranslator`:
  - its fields are `previous_text`, `failed_status`, the failure-queue file, the list `combined_previous_texts`, and the traces of invoker calls and progress reports;
  - `input_file_path`, `model`, `src_lang`, `dst_lang`, `max_token`, `use_online`, `api_key` and the prompts are not fields: they only pass through to the invoker and the segmenter;
  - `translate_content`, `retranslate_failed_content`, `_retranslate_failed_lines` and `_mark_segment_as_failed` keep their loops. Each loop body is a method of its own: `TranslateSegment`, `RetranslateSegment`, `RetranslateEntry` and `AppendFailedRecords`. The primary pass and the `range(3)` loop are `TranslateSegments` and `RetranslateRounds`. The calls to `translate_text`, `process_translation_results` and the callback are `Invoke`, `Record` and `ReportProgress`;
  - every method is proved to leave the object in the state the corresponding `Recovery` function computes;
  - module `RecoveryProperties` proves what those functions guarantee.
- Modules `Text` and `ContextWindow` cover the Python string operations the tiers rely on: `str.splitlines`, `str.strip`, `"\n".join` and negative slices. They show what each tier's window holds.
- Module `FailureQueue` holds the queue file and `_mark_segment_as_failed`.
- Module `StaleText` holds the findings below.

The collaborators the translator calls but does not define are fields of `Env`:
- `translate_text` is an invoker that may raise or return text. It is indexed by the number of the call, so it may answer differently each time.
- `process_translation_results` is a recorder that may raise or report a new success. When it returns, it may also have rewritten the failure-queue file in any way (`requeue`). Its module is not part of this model, so the model does not assume it leaves the queue alone.
- `clean_json` is a total function.
- The segmenter run over the failure queue either yields segments or nothing.

## Model

| member | source | states |
|---|---|---|
| Translator.DocumentTranslator.constructor | translator/base_translator.py:14-28 | `failed_status` starts true; a missing `previous_text` becomes the language pair's default, and an empty one is kept |
| Translator.DocumentTranslator.Record | translator/base_translator.py:161-162 | the recorder's answer is returned; when it returns, the queue file is what it left |
| Translator.DocumentTranslator.MarkSegmentAsFailed | translator/base_translator.py:265-290 | the queue file becomes `MarkFailed` of the old file and the segment |
| Translator.DocumentTranslator.AppendFailedRecords | translator/base_translator.py:284-288 | the loop over `segment_dict.items()` appends one stripped record per unit, in order |
| FailureQueue.MarkFailed | translator/base_translator.py:265-290 | a missing file is created as `[]`. An unparsable segment leaves the file as it then is. Otherwise the old records (none for an undecodable file) stay first and in order, followed by one `{count, value.strip()}` record per unit in segment order |
| FailureQueue.MarkFailedKeepsRecords | translator/base_translator.py:272-290 | marking a segment failed never loses or reorders queued records |
| FailureQueue.ConvertFailedSegmentsToJson | translator/base_translator.py:254-256 | the single-unit request `{count: value}` parses back to exactly that one record |
| FailureQueue.RequeueRoundTrip | translator/base_translator.py:254-256 | the formats of the two helpers fit together: a stripped record turned into its single-unit request and marked failed is appended unchanged (no path of the program does this) |
| Translator.DocumentTranslator.TranslateSegment | translator/base_translator.py:55-99 | one primary-pass segment leaves the object in the state `PrimarySegment` computes |
| Translator.DocumentTranslator.TranslateSegments | translator/base_translator.py:55-99 | the primary pass over the stream leaves the object in the state `PrimaryPass` computes |
| RecoveryProperties.PrimaryAttemptsCap | translator/base_translator.py:58-62 | a segment makes a first call, a second exactly when the first attempt fails, and never a third. Both calls use the segment and the window it started with |
| RecoveryProperties.PrimaryAttemptsMarksOnSecondFailure | translator/base_translator.py:85-91 | the segment is pushed onto the queue exactly when both attempts fail, and then once. Otherwise the queue is what the recorder left in it for the attempt that got through |
| RecoveryProperties.PrimaryAttemptsOutcome | translator/base_translator.py:64-95 | the first successful text is logged as validated and sets the window from its cleaned lines. If both attempts fail, the window is kept and the later non-empty text returned for this segment is logged as best effort |
| RecoveryProperties.PrimaryTryAgainstRetryTry | translator/base_translator.py:65-67 | a primary attempt differs from a retry attempt only in rejecting an empty reply |
| RecoveryProperties.PrimaryPassCalls | translator/base_translator.py:55-62 | the primary pass makes between one and two calls per segment and keeps earlier calls |
| RecoveryProperties.PrimaryPassProgress | translator/base_translator.py:97-99 | with a callback, one report per segment in order, with its fraction and "Translating...Please wait."; none without a callback |
| RecoveryProperties.PrimaryPassLog | translator/base_translator.py:81-95 | the continuity log only grows, by at most one entry per segment |
| RecoveryProperties.PrimaryPassKeepsRecords | translator/base_translator.py:89-91 | the primary pass never loses or reorders a queued record, as long as the recorder does not |
| ContextWindow.PrimaryWindowLines | translator/base_translator.py:71-79 | with four or more cleaned lines, the window reads back as exactly the three lines before the last (when the line before the last is not empty); with fewer, it is the default |
| ContextWindow.BatchWindowAgainstPrimary | translator/base_translator.py:166-167 | the batch rule agrees with the primary rule on four or more lines. On fewer it keeps all lines but the last instead of the default, and `""` for one line or none |
| ContextWindow.LineWindowLines | translator/base_translator.py:225-231 | with three or more stripped lines, the window reads back as exactly the last three; otherwise it is the default |
| Text.SplitJoin | translator/base_translator.py:72-76 | splitting a join of single lines gives the lines back when the last one is not empty |
| Text.LastLineNotEmpty | translator/base_translator.py:225-227 | a text that does not end in whitespace splits into lines whose last one is not empty |
| Text.StripIdempotent | translator/base_translator.py:287 | stripping twice is stripping once |
| Translator.DocumentTranslator.RetranslateSegment | translator/base_translator.py:146-182 | one batch segment leaves the object in the state, and returns the flag, that `BatchSegment` computes |
| Translator.DocumentTranslator.RetranslateFailedContent | translator/base_translator.py:112-183 | the result and the new state are those of `BatchTier` |
| RecoveryProperties.BatchAttemptsCalls | translator/base_translator.py:148-172 | a batch segment makes a first call, a second exactly when the first attempt raises, and never a third. Only the recorder writes the queue, for the attempt that gets through |
| RecoveryProperties.BatchAttemptsOutcome | translator/base_translator.py:148-178 | the segment's flag is the recorder's answer for the first attempt that gets through, and false if both raise. Log and window follow the primary rules, using the batch window rule |
| RecoveryProperties.BatchAttemptsSuccessIff | translator/base_translator.py:161-162 | a segment's flag is true exactly when one of its own calls got a new success from the recorder |
| RecoveryProperties.BatchRoundCalls | translator/base_translator.py:145-182 | a batch round makes between one and two calls per segment and keeps earlier calls |
| RecoveryProperties.BatchRoundQueue | translator/base_translator.py:145-182 | the round's own code never writes the queue: it ends as the recorder's writes for the round's calls, in order, leave it |
| RecoveryProperties.BatchRoundProgress | translator/base_translator.py:180-182 | one report per segment, in order, with "Missing detected! Re-translating..." |
| RecoveryProperties.BatchRoundSuccessIff | translator/base_translator.py:145-183 | `has_translated_success` is true exactly when some call of the round got a new success from the recorder |
| RecoveryProperties.BatchTierOutcome | translator/base_translator.py:112-183 | with no work (queue missing, undecodable or empty, or no stream) nothing changes and the result is false. Otherwise the queue is cleared and ends as the recorder's writes leave `[]`; the tier re-appends nothing. The result is true exactly when some call of the tier got a new success |
| Translator.DocumentTranslator.RetranslateEntry | translator/base_translator.py:205-246 | one line-tier entry leaves the object in the state, and returns the exhaustion flag, that `LineEntry` computes |
| Translator.DocumentTranslator.RetranslateFailedLines | translator/base_translator.py:185-252 | the new state is `LineTier` of the old one |
| RecoveryProperties.LineAttemptsCalls | translator/base_translator.py:205-236 | an entry is sent as its single-unit request once, and again exactly when the first attempt raises. It is exhausted exactly when both raise |
| RecoveryProperties.LineAttemptsFrame | translator/base_translator.py:211-236 | the line attempts touch neither the log nor the progress trace |
| RecoveryProperties.LineAttemptsQueue | translator/base_translator.py:211-236 | only the recorder writes the queue during an entry's attempts, for the attempt that gets through |
| RecoveryProperties.LineAttemptsWindow | translator/base_translator.py:225-231 | a successful attempt sets the window from its stripped output by the line rule. An exhausted entry keeps the window |
| RecoveryProperties.LineFoldRequeues | translator/base_translator.py:205-245 | the entries to re-queue are some of the entries, in their original order |
| RecoveryProperties.LineFoldLog | translator/base_translator.py:205-246 | the line-by-line tier never touches the continuity log |
| RecoveryProperties.LineFoldQueue | translator/base_translator.py:205-246 | while the entries are retried, the queue is written only by the recorder, for the calls whose recording returned, in order |
| RecoveryProperties.LineFoldCalls | translator/base_translator.py:205-236 | each entry costs one or two calls, and each re-queued entry costs two |
| RecoveryProperties.LineFoldProgress | translator/base_translator.py:245-246 | one report per entry, with fraction 0 and "Line-by-line retranslation..." |
| RecoveryProperties.LineTierOutcome | translator/base_translator.py:185-252 | with no work nothing changes. Otherwise, when some entries are exhausted the queue ends holding exactly those, in their original order, overwriting what the recorder wrote; when none is, it ends as the recorder's writes leave `[]`. Calls number at least one per entry plus one per re-queued entry, and at most two per entry |
| Translator.DocumentTranslator.RetranslateRounds | translator/base_translator.py:101-105 | the `range(3)` loop leaves the state and the flag that `BatchLoop` computes |
| Translator.DocumentTranslator.TranslateContent | translator/base_translator.py:38-110 | the new state and `failed_status` are those of `TranslateContentSpec` |
| RecoveryProperties.BatchLoopOutcome | translator/base_translator.py:101-105 | with `failed_status` false the loop does nothing. Otherwise it runs the batch tier at most three times, back to back, stops after the first one that returns false, and ends with the state and flag of the last tier it ran |
| RecoveryProperties.StopsAtExists | translator/base_translator.py:101-105 | of one or more rounds, the loop stops at one of them |
| RecoveryProperties.BatchLoopFlag | translator/base_translator.py:101-105 | `failed_status` is still true after the loop exactly when it was true before and every one of the rounds reported a new success |
| RecoveryProperties.TranslateContentOutcome | translator/base_translator.py:38-110 | with no stream nothing happens. Otherwise the primary pass runs and then the batch loop. The line-by-line tier runs, on the state the third round left, exactly when `failed_status` was true and all three rounds reported a new success, and the flag stays true; otherwise the outcome is the batch loop's |
| RecoveryProperties.NoRequeueSecondTierIdle | translator/base_translator.py:112-183 | when the recorder leaves the queue alone, the second of two rounds run back to back never reports a new success |
| RecoveryProperties.NoRequeueLineTierUnreachable | translator/base_translator.py:101-110 | when the recorder leaves the queue alone, the batch loop ends with `failed_status` false and the line-by-line tier never runs |
| StaleText.PrimaryUnboundOnFirstRaise | translator/base_translator.py:86-88 | as written, a raising first call stops the primary pass with `UnboundLocalError`; the intended pass makes its second attempt |
| StaleText.PrimaryStaleTextLogged | translator/base_translator.py:86-95 | as written, a segment whose calls both raise logs an earlier segment's text as its best effort; the intended pass logs nothing |
| StaleText.PrimaryAgreesAfterReturn | translator/base_translator.py:58-95 | once a segment's first call returns, as written and intended agree |
| StaleText.PrimaryPassStaleSecondSegment | translator/base_translator.py:55-95 | as written, a pass whose first segment succeeds with text `t` and whose second segment's calls both raise logs `t` twice, the second time as the second segment's best effort; the intended pass logs it once |
| StaleText.BatchUnboundOnFirstRaise | translator/base_translator.py:171-173 | as written, a raising first call of a batch round stops it with `UnboundLocalError` |
| StaleText.BatchStaleTextLogged | translator/base_translator.py:171-178 | as written, a batch segment whose calls both raise logs an earlier segment's text as its best effort |
| StaleText.BatchAgreesAfterReturn | translator/base_translator.py:148-178 | once a batch segment's first call returns, as written and intended agree |

## Left out

- Text generation by the language model, the prompts, `load_prompt`, and the model, API-key and online settings. The invoker is an oracle.
- `stream_segment_json` is an oracle yielding `(segment, fraction)` pairs. Over the failure queue it is assumed to read the queue's records before the file is cleared to `[]` (line 141). The segmenter's own module is not part of this model.
- `process_translation_results` and `clean_json` (translation_checker) are not part of this model. The recorder is an oracle; a recorder call that returns may rewrite the failure queue in any way, and one that raises is assumed to leave it alone. `clean_json` is assumed not to raise.
- JSON text itself: indentation, `ensure_ascii`, duplicate keys, and non-integer keys (where `int(count)` would raise). A segment is either its ordered units or unparsable.
- `f.seek(0)` followed by `json.dump` without truncating: the rewrite is modelled as replacing the whole file.
- Exceptions that the `except` clauses do not catch end the run in the source and are not modelled. They include an `OSError` while a file is being written, and `.strip()` on a `None` reply in the line tier. A raising attempt stands only for the caught `JSONDecodeError`, `ValueError` and `RuntimeError`.
- Logging through `app_logger`.
- `process`, `_clear_temp_folder`, the abstract `extract_content_to_json` and `write_translated_json_to_file`, and app.py.
- The progress callback is a flag saying whether one was given; its reports are recorded as a trace, and fractions are `real`.
- The batch round's own code never puts a unit that fails both attempts back on the queue; only the recorder could. Whether the recorder does is decided in its module, which is not part of this model. If it leaves the queue alone, the round after a successful one finds no work, the batch loop always ends with `failed_status` false, and `translate_content` never reaches the line-by-line tier (`RecoveryProperties.NoRequeueLineTierUnreachable`).
- RecoveryProperties.PrimaryPassKeepsRecords: holds only for a recorder that keeps the queued records as a prefix of what it writes, since the recorder's effect on the queue is unknown.
- Recovery.PrimaryAttempts, Recovery.BatchAttempts, and the class methods built on them model the evidently intended handling of a raising attempt, not the code as written; see Findings.

## Findings

| source | as written | input that shows it | evidently intended | confidence | as-written member | corrected member |
|---|---|---|---|---|---|---|
| translator/base_translator.py:86 | the `except` branch copies `translated_text`, which a raising `translate_text` call does not assign | the first call of a run raises: `UnboundLocalError` escapes `translate_content`. Or an earlier segment returned "A" and both calls of this segment raise: "A" is logged again as this segment's best effort | a raising attempt leaves the segment's last returned text unchanged | high (not executed) | StaleText.PrimaryAttemptsAsWritten, StaleText.PrimaryUnboundOnFirstRaise, StaleText.PrimaryStaleTextLogged, StaleText.PrimaryPassStaleSecondSegment | Recovery.PrimaryAttempts, RecoveryProperties.PrimaryAttemptsOutcome |
| translator/base_translator.py:173 | the same copy in the batch round | the first call of a round raises: `UnboundLocalError`. Or both calls of a later segment raise after an earlier segment returned "A": "A" is logged as its best effort | as above | high (not executed) | StaleText.BatchAttemptsAsWritten, StaleText.BatchUnboundOnFirstRaise, StaleText.BatchStaleTextLogged | Recovery.BatchAttempts, RecoveryProperties.BatchAttemptsOutcome |
