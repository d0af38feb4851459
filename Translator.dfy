/**
 * `DocumentTranslator` as a class: its fields `previous_text`,
 * `failed_status`, the failure-queue file it rewrites, the continuity list
 * it appends to, and the traces of its calls to the invoker and the
 * progress callback. Every method is proved to leave the object in the state
 * the corresponding function of module Recovery computes.
 */
module Translator {
  import opened Text
  import opened ContextWindow
  import opened FailureQueue
  import opened Recovery

  class DocumentTranslator {
    /** The collaborators and the language pair's default context (`previous_text_default`). */
    const env: Env
    var previousText: string
    var failedStatus: bool
    /** The file at `FAILED_JSON_PATH`. */
    var queue: QueueFile
    /** The list `combined_previous_texts` that `translate_content` builds. */
    var combinedPreviousTexts: seq<LogEntry>
    /** Every call of `translate_text`, in order. */
    var calls: seq<Call>
    /** Every call of the progress callback, in order. */
    var progress: seq<Progress>

    /** The abstract state the functions of module Recovery act on. */
    function Snapshot(): Run
      reads this
    {
      Run(previousText, queue, combinedPreviousTexts, calls, progress)
    }

    /**
     * `__init__`: `failed_status` starts true, and a missing `previous_text`
     * becomes the default (an empty one is kept). `queue` is the failure-queue
     * file as it is found on disk.
     */
    constructor (env: Env, previousText: Option<string>, queue: QueueFile)
      ensures this.env == env
      ensures this.previousText == if previousText.Some? then previousText.value else env.previousTextDefault
      ensures failedStatus
      ensures this.queue == queue
      ensures combinedPreviousTexts == [] && calls == [] && progress == []
    {
      this.env := env;
      this.previousText := if previousText.Some? then previousText.value else env.previousTextDefault;
      this.failedStatus := true;
      this.queue := queue;
      this.combinedPreviousTexts := [];
      this.calls := [];
      this.progress := [];
    }

    /** One call of `translate_text` with the current context, recorded in the trace. */
    method Invoke(segment: Segment) returns (reply: Reply)
      modifies this`calls
      ensures reply == env.invoke(segment, previousText, |old(calls)|)
      ensures calls == old(calls) + [Call(segment, previousText, reply)]
    {
      reply := env.invoke(segment, previousText, |calls|);
      calls := calls + [Call(segment, previousText, reply)];
    }

    /**
     * One call of `process_translation_results` for invoker call `n`; when it
     * returns, the failure-queue file is whatever the recorder left in it.
     */
    method Record(segment: Segment, text: string, n: nat) returns (recording: Recording)
      modifies this`queue
      ensures recording == env.record(segment, text, n)
      ensures queue == if recording.Recorded? then env.requeue(segment, text, n, old(queue)) else old(queue)
    {
      recording := env.record(segment, text, n);
      if recording.Recorded? {
        queue := env.requeue(segment, text, n, queue);
      }
    }

    /** The progress callback, called only when one was given. */
    method ReportProgress(callback: bool, fraction: real, desc: string)
      modifies this`progress
      ensures progress == if callback then old(progress) + [Progress(fraction, desc)] else old(progress)
    {
      if callback {
        progress := progress + [Progress(fraction, desc)];
      }
    }

    /**
     * `_mark_segment_as_failed`: create a missing queue file as `[]`, read the
     * records (`[]` if undecodable), parse the segment (leaving the file alone
     * if that fails), append one stripped record per unit and write it back.
     */
    method MarkSegmentAsFailed(segment: Segment)
      modifies this`queue
      ensures queue == MarkFailed(old(queue), segment)
    {
      if queue == Absent {
        queue := Entries([]);
      }
      var failedSegments := Load(queue);
      if segment.Unparsable? {
        // `json.loads(clean_json(segment))` raised
        return;
      }
      failedSegments := AppendFailedRecords(failedSegments, segment.units);
      queue := Entries(failedSegments);
    }

    /** The loop of `_mark_segment_as_failed` over `segment_dict.items()`. */
    static method AppendFailedRecords(failedSegments: seq<Entry>, units: seq<Entry>) returns (result: seq<Entry>)
      ensures result == failedSegments + FailedRecords(units)
    {
      result := failedSegments;
      assert FailedRecords(units[..0]) == [];
      for i := 0 to |units|
        invariant result == failedSegments + FailedRecords(units[..i])
      {
        FailedRecordsSnoc(units, i);
        result := result + [FailedRecord(units[i])];
      }
      assert units[..|units|] == units;
    }

    /** The body of the primary pass's `for segment, segment_progress in ...` loop. */
    method TranslateSegment(item: Item, callback: bool)
      modifies this`previousText, this`queue, this`combinedPreviousTexts, this`calls, this`progress
      ensures Snapshot() == PrimarySegment(env, old(Snapshot()), item, callback)
    {
      var segment := item.segment;
      var lastValidTranslatedText: Option<string> := None;
      var succeeded := false;
      var retryCount := 0;
      while retryCount < 2
        invariant 0 <= retryCount <= 2
        invariant PrimaryAttempts(env, Snapshot(), segment, retryCount, lastValidTranslatedText)
               == PrimaryAttempts(env, old(Snapshot()), segment, 0, None)
        invariant !succeeded
      {
        ghost var before := Snapshot();
        var translatedText := Invoke(segment);
        if translatedText.Returned? && translatedText.text != "" {
          var recording := Record(segment, translatedText.text, |calls| - 1);
          if recording.Recorded? {
            previousText := PrimaryWindow(SplitLines(env.clean(translatedText.text)), env.previousTextDefault);
            combinedPreviousTexts := combinedPreviousTexts + [Validated(translatedText.text)];
            assert PrimaryTry(env, segment, before.context, |before.calls|).Succeeded?;
            succeeded := true;
            break;
          }
        }
        assert PrimaryTry(env, segment, before.context, |before.calls|).Failed?;
        // the `except` branch
        if translatedText.Returned? {
          lastValidTranslatedText := Some(translatedText.text);
        }
        if retryCount == 1 {
          MarkSegmentAsFailed(segment);
        }
        retryCount := retryCount + 1;
      }
      if !succeeded && Salvageable(lastValidTranslatedText) {
        combinedPreviousTexts := combinedPreviousTexts + [BestEffort(lastValidTranslatedText.value)];
      }
      ReportProgress(callback, item.fraction, TranslatingDesc);
    }

    /** The body of the batch round's segment loop; returns what the recorder said of this segment. */
    method RetranslateSegment(item: Item, callback: bool) returns (recorded: bool)
      modifies this`previousText, this`queue, this`combinedPreviousTexts, this`calls, this`progress
      ensures Round(Snapshot(), recorded) == BatchSegment(env, old(Snapshot()), item, callback)
    {
      var segment := item.segment;
      var lastValidTranslatedText: Option<string> := None;
      var succeeded := false;
      recorded := false;
      var retryCount := 0;
      while retryCount < 2
        invariant 0 <= retryCount <= 2
        invariant BatchAttempts(env, Snapshot(), segment, retryCount, lastValidTranslatedText)
               == BatchAttempts(env, old(Snapshot()), segment, 0, None)
        invariant !succeeded && !recorded
      {
        ghost var before := Snapshot();
        var translatedText := Invoke(segment);
        if translatedText.Returned? {
          var recording := Record(segment, translatedText.text, |calls| - 1);
          if recording.Recorded? {
            recorded := recording.newSuccess;
            previousText := BatchWindow(SplitLines(env.clean(translatedText.text)));
            combinedPreviousTexts := combinedPreviousTexts + [Validated(translatedText.text)];
            assert RetryTry(env, segment, before.context, |before.calls|) == Succeeded(translatedText.text, recorded);
            succeeded := true;
            break;
          }
          lastValidTranslatedText := Some(translatedText.text);
        }
        assert RetryTry(env, segment, before.context, |before.calls|).Failed?;
        retryCount := retryCount + 1;
      }
      if !succeeded && Salvageable(lastValidTranslatedText) {
        combinedPreviousTexts := combinedPreviousTexts + [BestEffort(lastValidTranslatedText.value)];
      }
      ReportProgress(callback, item.fraction, RetranslatingDesc);
    }

    /**
     * `retranslate_failed_content`: returns false, changing nothing, when the
     * queue file is missing, undecodable or empty or the segmenter yields
     * nothing; otherwise clears the queue to `[]`, retries every segment of
     * its old contents, and returns whether any recorder call reported a new
     * success.
     */
    method RetranslateFailedContent(callback: bool) returns (hasTranslatedSuccess: bool)
      modifies this`previousText, this`queue, this`combinedPreviousTexts, this`calls, this`progress
      ensures Round(Snapshot(), hasTranslatedSuccess) == BatchTier(env, old(Snapshot()), callback)
    {
      if !queue.Entries? || queue.items == [] {
        return false;
      }
      var streamGeneratorFailed := env.segmentQueue(queue.items, previousText);
      if streamGeneratorFailed.None? {
        return false;
      }
      queue := Entries([]);
      var items := streamGeneratorFailed.value;
      ghost var cleared := Snapshot();
      hasTranslatedSuccess := false;
      for i := 0 to |items|
        invariant Round(Snapshot(), hasTranslatedSuccess) == BatchRound(env, cleared, items[..i], callback)
      {
        var recorded := RetranslateSegment(items[i], callback);
        hasTranslatedSuccess := hasTranslatedSuccess || recorded;
        BatchRoundSnoc(env, cleared, items, i, callback);
      }
      assert items[..|items|] == items;
    }

    /** One entry of the line-by-line tier; returns whether both of its attempts raised. */
    method RetranslateEntry(entry: Entry, callback: bool) returns (exhausted: bool)
      modifies this`previousText, this`queue, this`calls, this`progress
      ensures EntryOutcome(Snapshot(), exhausted) == LineEntry(env, old(Snapshot()), entry, callback)
    {
      var textFailed := ConvertFailedSegmentsToJson(entry);
      ghost var outcome := LineAttempts(env, old(Snapshot()), entry, 0);
      var lastValidLineTranslation: Option<string> := None;
      var retry := 0;
      while retry < 2
        invariant 0 <= retry <= 2
        invariant LineAttempts(env, Snapshot(), entry, retry) == outcome
        invariant lastValidLineTranslation == None
      {
        ghost var before := Snapshot();
        var translatedLine := Invoke(textFailed);
        if translatedLine.Returned? {
          var recording := Record(textFailed, translatedLine.text, |calls| - 1);
          if recording.Recorded? {
            var stripped := Strip(translatedLine.text);
            lastValidLineTranslation := Some(stripped);
            previousText := LineWindow(SplitLines(stripped), env.previousTextDefault);
            assert RetryTry(env, textFailed, before.context, |before.calls|).Succeeded?;
            assert outcome == EntryOutcome(Snapshot(), false);
            break;
          }
        }
        assert RetryTry(env, textFailed, before.context, |before.calls|).Failed?;
        retry := retry + 1;
      }
      assert outcome == EntryOutcome(Snapshot(), lastValidLineTranslation == None);
      exhausted := lastValidLineTranslation == None;
      ReportProgress(callback, 0.0, LineByLineDesc);
    }

    /**
     * `_retranslate_failed_lines`: returns at once when the queue file is
     * missing, undecodable or empty; otherwise clears it to `[]`, retries each
     * entry on its own, and writes back the entries whose attempts all raised.
     */
    method RetranslateFailedLines(callback: bool)
      modifies this`previousText, this`queue, this`calls, this`progress
      ensures Snapshot() == LineTier(env, old(Snapshot()), callback)
    {
      if !queue.Entries? || queue.items == [] {
        return;
      }
      var failedSegments := queue.items;
      queue := Entries([]);
      ghost var cleared := Snapshot();
      var newFailedSegments: seq<Entry> := [];
      for i := 0 to |failedSegments|
        invariant LinePass(Snapshot(), newFailedSegments) == LineFold(env, cleared, failedSegments[..i], callback)
      {
        var exhausted := RetranslateEntry(failedSegments[i], callback);
        if exhausted {
          newFailedSegments := newFailedSegments + [failedSegments[i]];
        }
        LineFoldSnoc(env, cleared, failedSegments, i, callback);
      }
      assert failedSegments[..|failedSegments|] == failedSegments;
      if newFailedSegments != [] {
        queue := Entries(newFailedSegments);
      }
    }

    /** The primary pass of `translate_content`: every segment of the stream, in order. */
    method TranslateSegments(items: seq<Item>, callback: bool)
      modifies this`previousText, this`queue, this`combinedPreviousTexts, this`calls, this`progress
      ensures Snapshot() == PrimaryPass(env, old(Snapshot()), items, callback)
    {
      for i := 0 to |items|
        invariant Snapshot() == PrimaryPass(env, old(Snapshot()), items[..i], callback)
      {
        TranslateSegment(items[i], callback);
        PrimaryPassSnoc(env, old(Snapshot()), items, i, callback);
      }
      assert items[..|items|] == items;
    }

    /** The `for _ in range(3)` loop of `translate_content` over the batch tier. */
    method RetranslateRounds(callback: bool)
      modifies this`previousText, this`failedStatus, this`queue, this`combinedPreviousTexts, this`calls, this`progress
      ensures Round(Snapshot(), failedStatus) == BatchLoop(env, old(Snapshot()), old(failedStatus), 3, callback)
    {
      var round := 0;
      while round < 3
        invariant 0 <= round <= 3
        invariant BatchLoop(env, Snapshot(), failedStatus, 3 - round, callback)
               == BatchLoop(env, old(Snapshot()), old(failedStatus), 3, callback)
      {
        if !failedStatus {
          break;
        }
        failedStatus := RetranslateFailedContent(callback);
        round := round + 1;
      }
    }

    /**
     * `translate_content`, given what the segmenter yields for the source
     * units (`None` when it yields no stream): the primary pass, at most three
     * batch rounds while `failed_status` holds, then the line-by-line tier if
     * it still holds.
     */
    method TranslateContent(stream: Option<seq<Item>>, callback: bool)
      modifies this`previousText, this`failedStatus, this`queue, this`combinedPreviousTexts, this`calls, this`progress
      ensures Round(Snapshot(), failedStatus)
           == TranslateContentSpec(env, old(Snapshot()), old(failedStatus), stream, callback)
    {
      if stream.None? {
        return;
      }
      combinedPreviousTexts := [];
      TranslateSegments(stream.value, callback);
      RetranslateRounds(callback);
      if failedStatus {
        RetranslateFailedLines(callback);
      }
    }
  }
}
