/**
 * The translation-recovery engine of `DocumentTranslator` as functions on
 * values: the state one run of the translator changes, the three tiers
 * (primary pass, batch retry, line-by-line retry) and the loop that chains
 * them. The class in module Translator is proved to compute exactly these.
 *
 * The collaborators the engine calls but does not define are parameters
 * (`Env`): the model invoker `translate_text`, the result recorder
 * `process_translation_results`, `clean_json`, and the segmenter run over the
 * failure queue. The invoker and the recorder are given the number of the
 * invoker call they belong to, so they may answer differently on every call.
 * The recorder may also rewrite the failure-queue file: `requeue` is what a
 * recorder call that returns leaves in that file, whatever it is.
 */
module Recovery {
  import opened Text
  import opened ContextWindow
  import opened FailureQueue

  /** What `translate_text` does on one call: raise, or return a text (`None` is the empty text). */
  datatype Reply = Raised | Returned(text: string)

  /** What `process_translation_results` does: raise, or return whether a unit newly succeeded. */
  datatype Recording = RecordRaised | Recorded(newSuccess: bool)

  /** One `(segment, progress)` pair yielded by the segmenter. */
  datatype Item = Item(segment: Segment, fraction: real)

  datatype Env = Env(
    invoke: (Segment, string, nat) -> Reply,
    record: (Segment, string, nat) -> Recording,
    requeue: (Segment, string, nat, QueueFile) -> QueueFile,
    clean: string -> string,
    segmentQueue: (seq<Entry>, string) -> Option<seq<Item>>,
    previousTextDefault: string)

  /** One call of the invoker: the request, the context window it was given, and its reply. */
  datatype Call = Call(segment: Segment, context: string, reply: Reply)

  /**
   * An entry of the continuity log (`combined_previous_texts`): a text the
   * recorder accepted, or the last text returned for a segment whose every
   * attempt failed.
   */
  datatype LogEntry = Validated(text: string) | BestEffort(text: string)

  /** One call of the progress callback. */
  datatype Progress = Progress(fraction: real, desc: string)

  /**
   * The state the engine changes: the context window (`previous_text`), the
   * failure-queue file, the continuity log, and the traces of invoker calls
   * and progress reports.
   */
  datatype Run = Run(
    context: string,
    queue: QueueFile,
    log: seq<LogEntry>,
    calls: seq<Call>,
    progress: seq<Progress>)

  /** The outcome of one attempt inside a tier's `try` block. */
  datatype Try = Failed(returned: Option<string>) | Succeeded(text: string, newSuccess: bool)

  /** A run together with the truth value a batch round or the tier loop produces. */
  datatype Round = Round(run: Run, success: bool)

  /** A run after one line-by-line entry, and whether the entry exhausted its attempts. */
  datatype EntryOutcome = EntryOutcome(run: Run, exhausted: bool)

  /** A run after part of the line-by-line tier, and the entries that are to be re-queued. */
  datatype LinePass = LinePass(run: Run, stillFailed: seq<Entry>)

  const TranslatingDesc := "Translating...Please wait."
  const RetranslatingDesc := "Missing detected! Re-translating..."
  const LineByLineDesc := "Line-by-line retranslation..."

  /** The invoker call made with the current context, appended to the trace. */
  function WithCall(env: Env, r: Run, seg: Segment): Run {
    r.(calls := r.calls + [Call(seg, r.context, env.invoke(seg, r.context, |r.calls|))])
  }

  /** The failure-queue file after the recorder returned for invoker call `n`, which returned `text`. */
  function AfterRecord(env: Env, r: Run, seg: Segment, text: string, n: nat): Run {
    r.(queue := env.requeue(seg, text, n, r.queue))
  }

  /** The progress callback, when there is one. */
  function Report(r: Run, callback: bool, fraction: real, desc: string): Run {
    if callback then r.(progress := r.progress + [Progress(fraction, desc)]) else r
  }

  /**
   * One primary-pass attempt: it fails when the invoker raises, returns an
   * empty text, or the recorder raises; the recorder's answer is ignored.
   */
  function PrimaryTry(env: Env, seg: Segment, ctx: string, n: nat): (t: Try)
    ensures t.Succeeded? <==>
      env.invoke(seg, ctx, n).Returned? && env.invoke(seg, ctx, n).text != "" &&
      env.record(seg, env.invoke(seg, ctx, n).text, n).Recorded?
    ensures t.Succeeded? ==> env.invoke(seg, ctx, n) == Returned(t.text) && t.text != ""
    ensures t.Failed? ==>
      t.returned == (if env.invoke(seg, ctx, n).Returned? then Some(env.invoke(seg, ctx, n).text) else None)
  {
    match env.invoke(seg, ctx, n)
    case Raised => Failed(None)
    case Returned(text) =>
      if text == "" then Failed(Some(text))
      else
        match env.record(seg, text, n)
        case RecordRaised => Failed(Some(text))
        case Recorded(b) => Succeeded(text, b)
  }

  /**
   * One attempt in the batch and line-by-line tiers: there is no check for an
   * empty text, so it fails only when the invoker or the recorder raises.
   */
  function RetryTry(env: Env, seg: Segment, ctx: string, n: nat): (t: Try)
    ensures t.Succeeded? <==>
      env.invoke(seg, ctx, n).Returned? && env.record(seg, env.invoke(seg, ctx, n).text, n).Recorded?
    ensures t.Succeeded? ==>
      env.invoke(seg, ctx, n) == Returned(t.text) && t.newSuccess == env.record(seg, t.text, n).newSuccess
  {
    match env.invoke(seg, ctx, n)
    case Raised => Failed(None)
    case Returned(text) =>
      match env.record(seg, text, n)
      case RecordRaised => Failed(Some(text))
      case Recorded(b) => Succeeded(text, b)
  }

  /** Python's truth value of the best-effort text: `None` and `""` are false. */
  predicate Salvageable(last: Option<string>) {
    last.Some? && last.value != ""
  }

  /**
   * Attempts `k` and later of one segment in the primary pass
   * (`for retry_count in range(2)` with its `else`). `last` is the last text
   * the invoker returned for this segment so far.
   */
  function PrimaryAttempts(env: Env, r: Run, seg: Segment, k: nat, last: Option<string>): Run
    requires k <= 2
    decreases 2 - k
  {
    if k == 2 then
      if Salvageable(last) then r.(log := r.log + [BestEffort(last.value)]) else r
    else
      var t := PrimaryTry(env, seg, r.context, |r.calls|);
      var r1 := WithCall(env, r, seg);
      match t
      case Succeeded(text, _) =>
        AfterRecord(env, r1, seg, text, |r.calls|).(
          context := PrimaryWindow(SplitLines(env.clean(text)), env.previousTextDefault),
          log := r1.log + [Validated(text)])
      case Failed(returned) =>
        var r2 := if k == 1 then r1.(queue := MarkFailed(r1.queue, seg)) else r1;
        PrimaryAttempts(env, r2, seg, k + 1, if returned.Some? then returned else last)
  }

  /** One segment of the primary pass, followed by its progress report. */
  function PrimarySegment(env: Env, r: Run, item: Item, callback: bool): Run {
    Report(PrimaryAttempts(env, r, item.segment, 0, None), callback, item.fraction, TranslatingDesc)
  }

  /** The primary pass over the segments `items`, in order. */
  function PrimaryPass(env: Env, r: Run, items: seq<Item>, callback: bool): Run
    decreases |items|
  {
    if items == [] then r
    else PrimarySegment(env, PrimaryPass(env, r, items[..|items| - 1], callback), items[|items| - 1], callback)
  }

  lemma PrimaryPassSnoc(env: Env, r: Run, items: seq<Item>, i: nat, callback: bool)
    requires i < |items|
    ensures PrimaryPass(env, r, items[..i + 1], callback)
         == PrimarySegment(env, PrimaryPass(env, r, items[..i], callback), items[i], callback)
  {
    assert items[..i + 1][..i] == items[..i];
  }

  /**
   * Attempts `k` and later of one segment in a batch round. Any attempt that
   * does not raise ends the segment; its `success` is what the recorder
   * returned. The round's own code never pushes anything back onto the
   * queue; only the recorder may.
   */
  function BatchAttempts(env: Env, r: Run, seg: Segment, k: nat, last: Option<string>): Round
    requires k <= 2
    decreases 2 - k
  {
    if k == 2 then
      Round(if Salvageable(last) then r.(log := r.log + [BestEffort(last.value)]) else r, false)
    else
      var t := RetryTry(env, seg, r.context, |r.calls|);
      var r1 := WithCall(env, r, seg);
      match t
      case Succeeded(text, b) =>
        Round(AfterRecord(env, r1, seg, text, |r.calls|).(
                context := BatchWindow(SplitLines(env.clean(text))),
                log := r1.log + [Validated(text)]), b)
      case Failed(returned) =>
        BatchAttempts(env, r1, seg, k + 1, if returned.Some? then returned else last)
  }

  function BatchSegment(env: Env, r: Run, item: Item, callback: bool): Round {
    var rd := BatchAttempts(env, r, item.segment, 0, None);
    Round(Report(rd.run, callback, item.fraction, RetranslatingDesc), rd.success)
  }

  /** The segments of one batch round, in order; `success` is `has_translated_success`. */
  function BatchRound(env: Env, r: Run, items: seq<Item>, callback: bool): Round
    decreases |items|
  {
    if items == [] then Round(r, false)
    else
      var prev := BatchRound(env, r, items[..|items| - 1], callback);
      var rd := BatchSegment(env, prev.run, items[|items| - 1], callback);
      Round(rd.run, prev.success || rd.success)
  }

  lemma BatchRoundSnoc(env: Env, r: Run, items: seq<Item>, i: nat, callback: bool)
    requires i < |items|
    ensures var prev := BatchRound(env, r, items[..i], callback);
      var rd := BatchSegment(env, prev.run, items[i], callback);
      BatchRound(env, r, items[..i + 1], callback) == Round(rd.run, prev.success || rd.success)
  {
    assert items[..i + 1][..i] == items[..i];
  }

  /**
   * `retranslate_failed_content`: no work when the queue file is missing,
   * undecodable or empty, or when the segmenter yields nothing; otherwise
   * the queue is cleared to `[]` and the segments of its old contents are
   * retried.
   */
  function BatchTier(env: Env, r: Run, callback: bool): Round {
    if !HasWork(r.queue) then Round(r, false)
    else
      match env.segmentQueue(r.queue.items, r.context)
      case None => Round(r, false)
      case Some(items) => BatchRound(env, r.(queue := Entries([])), items, callback)
  }

  /**
   * Attempts `k` and later of one entry in the line-by-line tier, sent as its
   * single-unit request. `exhausted` holds when every attempt raised.
   */
  function LineAttempts(env: Env, r: Run, e: Entry, k: nat): EntryOutcome
    requires k <= 2
    decreases 2 - k
  {
    if k == 2 then EntryOutcome(r, true)
    else
      var request := ConvertFailedSegmentsToJson(e);
      var t := RetryTry(env, request, r.context, |r.calls|);
      var r1 := WithCall(env, r, request);
      match t
      case Succeeded(text, _) =>
        EntryOutcome(AfterRecord(env, r1, request, text, |r.calls|).(
                       context := LineWindow(SplitLines(Strip(text)), env.previousTextDefault)), false)
      case Failed(_) => LineAttempts(env, r1, e, k + 1)
  }

  function LineEntry(env: Env, r: Run, e: Entry, callback: bool): EntryOutcome {
    var o := LineAttempts(env, r, e, 0);
    EntryOutcome(Report(o.run, callback, 0.0, LineByLineDesc), o.exhausted)
  }

  /** The entries `es` of the line-by-line tier, in order, collecting those to re-queue. */
  function LineFold(env: Env, r: Run, es: seq<Entry>, callback: bool): LinePass
    decreases |es|
  {
    if es == [] then LinePass(r, [])
    else
      var prev := LineFold(env, r, es[..|es| - 1], callback);
      var o := LineEntry(env, prev.run, es[|es| - 1], callback);
      LinePass(o.run, prev.stillFailed + if o.exhausted then [es[|es| - 1]] else [])
  }

  lemma LineFoldSnoc(env: Env, r: Run, es: seq<Entry>, i: nat, callback: bool)
    requires i < |es|
    ensures var prev := LineFold(env, r, es[..i], callback);
      var o := LineEntry(env, prev.run, es[i], callback);
      LineFold(env, r, es[..i + 1], callback)
        == LinePass(o.run, prev.stillFailed + if o.exhausted then [es[i]] else [])
  {
    assert es[..i + 1][..i] == es[..i];
  }

  /**
   * `_retranslate_failed_lines`: no change when the queue is missing,
   * undecodable or empty; otherwise the queue is cleared to `[]`, every
   * entry is retried on its own, and the entries that failed again are
   * written back (when there are none, the queue is what the recorder left).
   */
  function LineTier(env: Env, r: Run, callback: bool): Run {
    if !HasWork(r.queue) then r
    else
      var p := LineFold(env, r.(queue := Entries([])), r.queue.items, callback);
      if p.stillFailed != [] then p.run.(queue := Entries(p.stillFailed)) else p.run
  }

  /**
   * `for _ in range(rounds)`: stop once `failed_status` is false, otherwise
   * set it to the result of a batch round.
   */
  function BatchLoop(env: Env, r: Run, failed: bool, rounds: nat, callback: bool): Round
    decreases rounds
  {
    if rounds == 0 || !failed then Round(r, failed)
    else
      var rd := BatchTier(env, r, callback);
      BatchLoop(env, rd.run, rd.success, rounds - 1, callback)
  }

  /**
   * `translate_content`: nothing happens when the segmenter yields no stream.
   * Otherwise the continuity log starts empty, the primary pass runs, then at
   * most three batch rounds, then the line-by-line tier if `failed_status`
   * is still true. `success` is the final `failed_status`.
   */
  function TranslateContentSpec(env: Env, r: Run, failed: bool, stream: Option<seq<Item>>, callback: bool): Round {
    match stream
    case None => Round(r, failed)
    case Some(items) =>
      var primary := PrimaryPass(env, r.(log := []), items, callback);
      var tiers := BatchLoop(env, primary, failed, 3, callback);
      if tiers.success then Round(LineTier(env, tiers.run, callback), true) else tiers
  }
}
