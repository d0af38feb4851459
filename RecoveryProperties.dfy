/**
 * What the recovery engine of module Recovery guarantees, stated without
 * reference to how the tiers are written: per segment, the two-attempt cap,
 * when a segment is marked failed, which text the continuity log receives
 * and what becomes of the context window; per tier, the call budget, the
 * progress trace, what happens to the failure queue and what the returned
 * flag means; and for `translate_content` as a whole, how the tiers are
 * sequenced.
 */
module RecoveryProperties {
  import opened Text
  import opened ContextWindow
  import opened FailureQueue
  import opened Recovery

  /**
   * The text a failed segment is left with after two failed attempts whose
   * replies were `a0` and `a1`: the later reply that returned a text, if any.
   */
  function LastReturnedText(a0: Reply, a1: Reply): Option<string> {
    if a1.Returned? then Some(a1.text) else if a0.Returned? then Some(a0.text) else None
  }

  /** The continuity-log entry a segment whose both attempts failed leaves behind. */
  function BestEffortEntries(a0: Reply, a1: Reply): seq<LogEntry> {
    var last := LastReturnedText(a0, a1);
    if last.Some? && last.value != "" then [BestEffort(last.value)] else []
  }

  // ---------------------------------------------------------------------------
  // One segment of the primary pass

  /** The invoker call numbered `n` for `seg` with context `ctx`, as the trace records it. */
  function CallAt(env: Env, seg: Segment, ctx: string, n: nat): Call {
    Call(seg, ctx, env.invoke(seg, ctx, n))
  }

  /**
   * A segment of the primary pass always makes a first invoker call, makes a
   * second exactly when the first attempt fails, and never a third; both go
   * to that segment with the context window it started with. No progress is
   * reported inside the attempts.
   */
  lemma PrimaryAttemptsCap(env: Env, r: Run, seg: Segment)
    ensures var r' := PrimaryAttempts(env, r, seg, 0, None);
      var n := |r.calls|;
      && r'.calls == r.calls + [CallAt(env, seg, r.context, n)]
                    + (if PrimaryTry(env, seg, r.context, n).Succeeded? then [] else [CallAt(env, seg, r.context, n + 1)])
      && r'.progress == r.progress
  {
    var n := |r.calls|;
    var r1 := WithCall(env, r, seg);
    if PrimaryTry(env, seg, r.context, n).Failed? {
      var last := if env.invoke(seg, r.context, n).Returned? then Some(env.invoke(seg, r.context, n).text) else None;
      assert PrimaryAttempts(env, r, seg, 0, None) == PrimaryAttempts(env, r1, seg, 1, last);
      var r2 := WithCall(env, r1, seg);
      assert PrimaryAttempts(env, r1, seg, 1, last).calls == r2.calls;
      assert PrimaryAttempts(env, r1, seg, 1, last).progress == r2.progress;
    }
  }

  /**
   * A segment is pushed onto the failure queue exactly when both of its
   * attempts fail, and then exactly once; otherwise the queue is what the
   * recorder left in it for the attempt that got through.
   */
  lemma PrimaryAttemptsMarksOnSecondFailure(env: Env, r: Run, seg: Segment)
    ensures var r' := PrimaryAttempts(env, r, seg, 0, None);
      var n := |r.calls|;
      var t0 := PrimaryTry(env, seg, r.context, n);
      var t1 := PrimaryTry(env, seg, r.context, n + 1);
      r'.queue == if t0.Succeeded? then env.requeue(seg, t0.text, n, r.queue)
                  else if t1.Succeeded? then env.requeue(seg, t1.text, n + 1, r.queue)
                  else MarkFailed(r.queue, seg)
  {
    var n := |r.calls|;
    var r1 := WithCall(env, r, seg);
    if PrimaryTry(env, seg, r.context, n).Failed? {
      var last := if env.invoke(seg, r.context, n).Returned? then Some(env.invoke(seg, r.context, n).text) else None;
      assert PrimaryAttempts(env, r, seg, 0, None) == PrimaryAttempts(env, r1, seg, 1, last);
    }
  }

  /**
   * The continuity log and the context window after one segment of the
   * primary pass: the first successful attempt's text is logged as validated
   * and its cleaned lines set the window; when both attempts fail the window
   * is kept, and the later text the invoker returned for this very segment
   * is logged as best effort, unless there is none or it is empty.
   */
  lemma PrimaryAttemptsOutcome(env: Env, r: Run, seg: Segment)
    ensures var r' := PrimaryAttempts(env, r, seg, 0, None);
      var n := |r.calls|;
      var t0 := PrimaryTry(env, seg, r.context, n);
      var t1 := PrimaryTry(env, seg, r.context, n + 1);
      && (t0.Succeeded? ==>
            r'.log == r.log + [Validated(t0.text)] &&
            r'.context == PrimaryWindow(SplitLines(env.clean(t0.text)), env.previousTextDefault))
      && (t0.Failed? && t1.Succeeded? ==>
            r'.log == r.log + [Validated(t1.text)] &&
            r'.context == PrimaryWindow(SplitLines(env.clean(t1.text)), env.previousTextDefault))
      && (t0.Failed? && t1.Failed? ==>
            r'.context == r.context &&
            r'.log == r.log + BestEffortEntries(env.invoke(seg, r.context, n), env.invoke(seg, r.context, n + 1)))
  {
  }

  /** A primary-pass attempt and a retry attempt differ only on an empty reply. */
  lemma PrimaryTryAgainstRetryTry(env: Env, seg: Segment, ctx: string, n: nat)
    ensures env.invoke(seg, ctx, n) != Returned("") ==> PrimaryTry(env, seg, ctx, n) == RetryTry(env, seg, ctx, n)
    ensures env.invoke(seg, ctx, n) == Returned("") ==> PrimaryTry(env, seg, ctx, n) == Failed(Some(""))
  {
  }

  // ---------------------------------------------------------------------------
  // One segment of a batch round

  /** The recorder reported a new success for the text that invoker call `i` returned. */
  predicate RecordedNewSuccess(env: Env, calls: seq<Call>, i: nat)
    requires i < |calls|
  {
    calls[i].reply.Returned? && env.record(calls[i].segment, calls[i].reply.text, i) == Recorded(true)
  }

  /**
   * A segment of a batch round always makes a first invoker call, makes a
   * second exactly when the first attempt raises, and never a third, both to
   * that segment with its starting context. The segment's own code never
   * writes the queue: only the recorder does, for the attempt that gets
   * through. No progress is reported inside the attempts.
   */
  lemma BatchAttemptsCalls(env: Env, r: Run, seg: Segment)
    ensures var rd := BatchAttempts(env, r, seg, 0, None);
      var n := |r.calls|;
      var t0 := RetryTry(env, seg, r.context, n);
      var t1 := RetryTry(env, seg, r.context, n + 1);
      && rd.run.calls == r.calls + [CallAt(env, seg, r.context, n)]
                         + (if t0.Succeeded? then [] else [CallAt(env, seg, r.context, n + 1)])
      && rd.run.queue == (if t0.Succeeded? then env.requeue(seg, t0.text, n, r.queue)
                          else if t1.Succeeded? then env.requeue(seg, t1.text, n + 1, r.queue)
                          else r.queue)
      && rd.run.progress == r.progress
  {
    var n := |r.calls|;
    var r1 := WithCall(env, r, seg);
    if RetryTry(env, seg, r.context, n).Failed? {
      var last := if env.invoke(seg, r.context, n).Returned? then Some(env.invoke(seg, r.context, n).text) else None;
      assert BatchAttempts(env, r, seg, 0, None) == BatchAttempts(env, r1, seg, 1, last);
      var r2 := WithCall(env, r1, seg);
      assert BatchAttempts(env, r1, seg, 1, last).run.calls == r2.calls;
      assert BatchAttempts(env, r1, seg, 1, last).run.progress == r2.progress;
    }
  }

  /**
   * The flag, the log and the window after a segment of a batch round: the
   * first attempt that gets through the recorder sets the flag to the
   * recorder's answer, is logged as validated and sets the window by the
   * batch rule; when both attempts raise the flag is false, the window is
   * kept and the later text returned for this segment is logged as best
   * effort, unless there is none or it is empty.
   */
  lemma BatchAttemptsOutcome(env: Env, r: Run, seg: Segment)
    ensures var rd := BatchAttempts(env, r, seg, 0, None);
      var n := |r.calls|;
      var t0 := RetryTry(env, seg, r.context, n);
      var t1 := RetryTry(env, seg, r.context, n + 1);
      && (t0.Succeeded? ==>
            rd.success == t0.newSuccess &&
            rd.run.log == r.log + [Validated(t0.text)] &&
            rd.run.context == BatchWindow(SplitLines(env.clean(t0.text))))
      && (t0.Failed? && t1.Succeeded? ==>
            rd.success == t1.newSuccess &&
            rd.run.log == r.log + [Validated(t1.text)] &&
            rd.run.context == BatchWindow(SplitLines(env.clean(t1.text))))
      && (t0.Failed? && t1.Failed? ==>
            !rd.success && rd.run.context == r.context &&
            rd.run.log == r.log + BestEffortEntries(env.invoke(seg, r.context, n), env.invoke(seg, r.context, n + 1)))
  {
  }

  /**
   * A segment's flag in a batch round is true exactly when one of its own
   * invoker calls returned a text for which the recorder reported a new
   * success.
   */
  lemma BatchAttemptsSuccessIff(env: Env, r: Run, seg: Segment)
    ensures var rd := BatchAttempts(env, r, seg, 0, None);
      rd.success <==> exists i :: |r.calls| <= i < |rd.run.calls| && RecordedNewSuccess(env, rd.run.calls, i)
  {
    var n := |r.calls|;
    var rd := BatchAttempts(env, r, seg, 0, None);
    BatchAttemptsCalls(env, r, seg);
    BatchAttemptsOutcome(env, r, seg);
    var t0 := RetryTry(env, seg, r.context, n);
    assert rd.run.calls[n] == CallAt(env, seg, r.context, n);
    if t0.Succeeded? {
      assert |rd.run.calls| == n + 1;
      if rd.success {
        assert RecordedNewSuccess(env, rd.run.calls, n);
      }
    } else {
      assert rd.run.calls[n + 1] == CallAt(env, seg, r.context, n + 1);
      assert !RecordedNewSuccess(env, rd.run.calls, n);
      if rd.success {
        assert RecordedNewSuccess(env, rd.run.calls, n + 1);
      } else {
        assert !RecordedNewSuccess(env, rd.run.calls, n + 1);
      }
    }
  }

  // ---------------------------------------------------------------------------
  // One entry of the line-by-line tier

  /**
   * An entry of the line-by-line tier is sent as its single-unit request
   * once, and a second time exactly when the first attempt raises; it is
   * exhausted exactly when both attempts raise.
   */
  lemma LineAttemptsCalls(env: Env, r: Run, e: Entry)
    ensures var o := LineAttempts(env, r, e, 0);
      var req := ConvertFailedSegmentsToJson(e);
      var n := |r.calls|;
      var t0 := RetryTry(env, req, r.context, n);
      && o.run.calls == r.calls + [CallAt(env, req, r.context, n)]
                        + (if t0.Succeeded? then [] else [CallAt(env, req, r.context, n + 1)])
      && (o.exhausted <==> t0.Failed? && RetryTry(env, req, r.context, n + 1).Failed?)
  {
    var req := ConvertFailedSegmentsToJson(e);
    var n := |r.calls|;
    var r1 := WithCall(env, r, req);
    if RetryTry(env, req, r.context, n).Failed? {
      assert LineAttempts(env, r, e, 0) == LineAttempts(env, r1, e, 1);
      assert LineAttempts(env, r1, e, 1).run.calls == WithCall(env, r1, req).calls;
    }
  }

  /** The line-by-line attempts touch neither the continuity log nor the progress trace. */
  lemma LineAttemptsFrame(env: Env, r: Run, e: Entry)
    ensures var o := LineAttempts(env, r, e, 0);
      o.run.log == r.log && o.run.progress == r.progress
  {
    var req := ConvertFailedSegmentsToJson(e);
    var r1 := WithCall(env, r, req);
    if RetryTry(env, req, r.context, |r.calls|).Failed? {
      assert LineAttempts(env, r, e, 0) == LineAttempts(env, r1, e, 1);
    }
  }

  /**
   * The line-by-line attempts write the queue only through the recorder, for
   * the attempt that gets through.
   */
  lemma LineAttemptsQueue(env: Env, r: Run, e: Entry)
    ensures var o := LineAttempts(env, r, e, 0);
      var req := ConvertFailedSegmentsToJson(e);
      var n := |r.calls|;
      var t0 := RetryTry(env, req, r.context, n);
      var t1 := RetryTry(env, req, r.context, n + 1);
      o.run.queue == (if t0.Succeeded? then env.requeue(req, t0.text, n, r.queue)
                      else if t1.Succeeded? then env.requeue(req, t1.text, n + 1, r.queue)
                      else r.queue)
  {
    var req := ConvertFailedSegmentsToJson(e);
    var r1 := WithCall(env, r, req);
    if RetryTry(env, req, r.context, |r.calls|).Failed? {
      assert LineAttempts(env, r, e, 0) == LineAttempts(env, r1, e, 1);
    }
  }

  /**
   * The window after an entry of the line-by-line tier: the first attempt
   * that gets through the recorder sets it from its stripped output by the
   * line rule; an exhausted entry leaves it as it was.
   */
  lemma LineAttemptsWindow(env: Env, r: Run, e: Entry)
    ensures var o := LineAttempts(env, r, e, 0);
      var req := ConvertFailedSegmentsToJson(e);
      var n := |r.calls|;
      var t0 := RetryTry(env, req, r.context, n);
      var t1 := RetryTry(env, req, r.context, n + 1);
      && (t0.Succeeded? ==> o.run.context == LineWindow(SplitLines(Strip(t0.text)), env.previousTextDefault))
      && (t0.Failed? && t1.Succeeded? ==> o.run.context == LineWindow(SplitLines(Strip(t1.text)), env.previousTextDefault))
      && (o.exhausted ==> o.run.context == r.context)
  {
    var req := ConvertFailedSegmentsToJson(e);
    var r1 := WithCall(env, r, req);
    if RetryTry(env, req, r.context, |r.calls|).Failed? {
      assert LineAttempts(env, r, e, 0) == LineAttempts(env, r1, e, 1);
    }
  }

  // ---------------------------------------------------------------------------
  // What the recorder writes to the failure queue

  /**
   * The failure-queue file `q` after the recorder's writes for the invoker
   * calls numbered `n` and later in `calls`, in order: one write for every
   * call that returned a text for which the recorder returned.
   */
  function RecorderEffects(env: Env, q: QueueFile, calls: seq<Call>, n: nat): QueueFile
    decreases |calls|
  {
    if |calls| <= n then q
    else
      var i := |calls| - 1;
      var prev := RecorderEffects(env, q, calls[..i], n);
      if calls[i].reply.Returned? && env.record(calls[i].segment, calls[i].reply.text, i).Recorded?
      then env.requeue(calls[i].segment, calls[i].reply.text, i, prev)
      else prev
  }

  /** The recorder's writes for calls `n..` are those for `n..m` followed by those for `m..`. */
  lemma {:induction false} RecorderEffectsSplit(env: Env, q: QueueFile, calls: seq<Call>, n: nat, m: nat)
    requires n <= m <= |calls|
    ensures RecorderEffects(env, q, calls, n)
         == RecorderEffects(env, RecorderEffects(env, q, calls[..m], n), calls, m)
    decreases |calls|
  {
    if |calls| == m {
      assert calls[..m] == calls;
    } else {
      var i := |calls| - 1;
      RecorderEffectsSplit(env, q, calls[..i], n, m);
      assert calls[..i][..m] == calls[..m];
    }
  }

  /** The recorder leaves the failure-queue file as it finds it. */
  ghost predicate RecorderKeepsQueue(env: Env) {
    forall s, t, n, q :: env.requeue(s, t, n, q) == q
  }

  /** The recorder never loses or reorders a record of the failure queue. */
  ghost predicate RecorderKeepsRecords(env: Env) {
    forall s, t, n, q :: Load(q) <= Load(env.requeue(s, t, n, q))
  }

  /** A recorder that leaves the queue alone makes no writes at all. */
  lemma {:induction false} RecorderEffectsNone(env: Env, q: QueueFile, calls: seq<Call>, n: nat)
    requires RecorderKeepsQueue(env)
    ensures RecorderEffects(env, q, calls, n) == q
    decreases |calls|
  {
    if |calls| > n {
      RecorderEffectsNone(env, q, calls[..|calls| - 1], n);
    }
  }

  /**
   * The recorder's writes for the one or two calls of a retry segment whose
   * first call is numbered `n`: the write for the attempt that got through,
   * if any.
   */
  lemma RetryEffects(env: Env, q: QueueFile, calls: seq<Call>, seg: Segment, ctx: string, n: nat)
    requires n + 1 <= |calls| <= n + 2
    requires calls[n] == CallAt(env, seg, ctx, n)
    requires |calls| == n + 2 <==> RetryTry(env, seg, ctx, n).Failed?
    requires |calls| == n + 2 ==> calls[n + 1] == CallAt(env, seg, ctx, n + 1)
    ensures var t0 := RetryTry(env, seg, ctx, n);
      var t1 := RetryTry(env, seg, ctx, n + 1);
      RecorderEffects(env, q, calls, n)
        == (if t0.Succeeded? then env.requeue(seg, t0.text, n, q)
            else if t1.Succeeded? then env.requeue(seg, t1.text, n + 1, q)
            else q)
  {
    assert RecorderEffects(env, q, calls[..n], n) == q;
    if |calls| == n + 2 {
      assert calls[..n + 1][..n] == calls[..n];
      assert calls[..n + 1][n] == calls[n];
      assert RecorderEffects(env, q, calls[..n + 1], n) == q;
    }
  }

  /** The queue after a batch segment's attempts, as the recorder's writes for its calls. */
  lemma BatchAttemptsEffects(env: Env, r: Run, seg: Segment)
    ensures var rd := BatchAttempts(env, r, seg, 0, None);
      && |r.calls| < |rd.run.calls| && rd.run.calls[..|r.calls|] == r.calls
      && rd.run.queue == RecorderEffects(env, r.queue, rd.run.calls, |r.calls|)
  {
    var n := |r.calls|;
    BatchAttemptsCalls(env, r, seg);
    var calls := BatchAttempts(env, r, seg, 0, None).run.calls;
    assert calls[n] == CallAt(env, seg, r.context, n);
    RetryEffects(env, r.queue, calls, seg, r.context, n);
  }

  /** The queue after a line-by-line entry's attempts, as the recorder's writes for its calls. */
  lemma LineAttemptsEffects(env: Env, r: Run, e: Entry)
    ensures var o := LineAttempts(env, r, e, 0);
      && |r.calls| < |o.run.calls| && o.run.calls[..|r.calls|] == r.calls
      && o.run.queue == RecorderEffects(env, r.queue, o.run.calls, |r.calls|)
  {
    var n := |r.calls|;
    var req := ConvertFailedSegmentsToJson(e);
    LineAttemptsCalls(env, r, e);
    LineAttemptsQueue(env, r, e);
    var calls := LineAttempts(env, r, e, 0).run.calls;
    assert calls[n] == CallAt(env, req, r.context, n);
    RetryEffects(env, r.queue, calls, req, r.context, n);
  }

  // ---------------------------------------------------------------------------
  // The primary pass

  /** One progress report per segment, with that segment's fraction. */
  function Reports(items: seq<Item>, desc: string): (ps: seq<Progress>)
    ensures |ps| == |items|
  {
    seq(|items|, i requires 0 <= i < |items| => Progress(items[i].fraction, desc))
  }

  /** The primary pass makes one or two invoker calls per segment and keeps the earlier calls. */
  lemma {:induction false} PrimaryPassCalls(env: Env, r: Run, items: seq<Item>, callback: bool)
    ensures var r' := PrimaryPass(env, r, items, callback);
      && |r.calls| + |items| <= |r'.calls| <= |r.calls| + 2 * |items|
      && r'.calls[..|r.calls|] == r.calls
    decreases |items|
  {
    if items != [] {
      var init := items[..|items| - 1];
      PrimaryPassCalls(env, r, init, callback);
      var p := PrimaryPass(env, r, init, callback);
      PrimaryAttemptsCap(env, p, items[|items| - 1].segment);
      var q := PrimaryAttempts(env, p, items[|items| - 1].segment, 0, None);
      assert q.calls[..|r.calls|] == p.calls[..|r.calls|];
    }
  }

  /**
   * With a callback the primary pass reports once per segment, in order, with
   * the segment's fraction and "Translating...Please wait."; without one it
   * reports nothing.
   */
  lemma {:induction false} PrimaryPassProgress(env: Env, r: Run, items: seq<Item>, callback: bool)
    ensures PrimaryPass(env, r, items, callback).progress
         == r.progress + (if callback then Reports(items, TranslatingDesc) else [])
    decreases |items|
  {
    if items != [] {
      var init := items[..|items| - 1];
      PrimaryPassProgress(env, r, init, callback);
      var p := PrimaryPass(env, r, init, callback);
      PrimaryAttemptsCap(env, p, items[|items| - 1].segment);
      assert Reports(items, TranslatingDesc)
          == Reports(init, TranslatingDesc) + [Progress(items[|items| - 1].fraction, TranslatingDesc)];
    }
  }

  /** The continuity log only grows, by at most one entry per segment. */
  lemma {:induction false} PrimaryPassLog(env: Env, r: Run, items: seq<Item>, callback: bool)
    ensures var r' := PrimaryPass(env, r, items, callback);
      r.log <= r'.log && |r'.log| <= |r.log| + |items|
    decreases |items|
  {
    if items != [] {
      var init := items[..|items| - 1];
      PrimaryPassLog(env, r, init, callback);
      var p := PrimaryPass(env, r, init, callback);
      PrimaryAttemptsOutcome(env, p, items[|items| - 1].segment);
    }
  }

  /**
   * The primary pass never loses or reorders a record already in the failure
   * queue, as long as the recorder does not either.
   */
  lemma {:induction false} PrimaryPassKeepsRecords(env: Env, r: Run, items: seq<Item>, callback: bool)
    requires RecorderKeepsRecords(env)
    ensures Load(r.queue) <= Load(PrimaryPass(env, r, items, callback).queue)
    decreases |items|
  {
    if items != [] {
      var init := items[..|items| - 1];
      PrimaryPassKeepsRecords(env, r, init, callback);
      var p := PrimaryPass(env, r, init, callback);
      var seg := items[|items| - 1].segment;
      PrimaryAttemptsMarksOnSecondFailure(env, p, seg);
      MarkFailedKeepsRecords(p.queue, seg);
    }
  }

  // ---------------------------------------------------------------------------
  // The batch tier

  /** Some invoker call from number `n` on got a new success from the recorder. */
  predicate SomeNewSuccess(env: Env, calls: seq<Call>, n: nat) {
    exists i :: n <= i < |calls| && RecordedNewSuccess(env, calls, i)
  }

  /** Extending the trace by later calls keeps what the earlier calls say. */
  lemma SomeNewSuccessSplit(env: Env, calls: seq<Call>, n: nat, m: nat)
    requires n <= m <= |calls|
    ensures SomeNewSuccess(env, calls, n)
        <==> SomeNewSuccess(env, calls[..m], n) || SomeNewSuccess(env, calls, m)
  {
    if SomeNewSuccess(env, calls, n) {
      var i :| n <= i < |calls| && RecordedNewSuccess(env, calls, i);
      if i < m {
        assert calls[..m][i] == calls[i];
        assert RecordedNewSuccess(env, calls[..m], i);
      }
    }
    if SomeNewSuccess(env, calls[..m], n) {
      var i :| n <= i < m && RecordedNewSuccess(env, calls[..m], i);
      assert calls[..m][i] == calls[i];
      assert RecordedNewSuccess(env, calls, i);
    }
  }

  /** A batch round makes one or two calls per segment, keeping the earlier calls. */
  lemma {:induction false} BatchRoundCalls(env: Env, r: Run, items: seq<Item>, callback: bool)
    ensures var rd := BatchRound(env, r, items, callback);
      && |r.calls| + |items| <= |rd.run.calls| <= |r.calls| + 2 * |items|
      && rd.run.calls[..|r.calls|] == r.calls
    decreases |items|
  {
    if items != [] {
      var init := items[..|items| - 1];
      var item := items[|items| - 1];
      BatchRoundCalls(env, r, init, callback);
      var prev := BatchRound(env, r, init, callback);
      BatchAttemptsCalls(env, prev.run, item.segment);
      var seg := BatchAttempts(env, prev.run, item.segment, 0, None);
      assert seg.run.calls[..|r.calls|] == prev.run.calls[..|r.calls|];
    }
  }

  /**
   * A batch round's own code never writes the failure queue: the queue ends
   * as the recorder's writes for the round's calls, in order, leave it.
   */
  lemma {:induction false} BatchRoundQueue(env: Env, r: Run, items: seq<Item>, callback: bool)
    ensures var rd := BatchRound(env, r, items, callback);
      rd.run.queue == RecorderEffects(env, r.queue, rd.run.calls, |r.calls|)
    decreases |items|
  {
    if items != [] {
      var init := items[..|items| - 1];
      var item := items[|items| - 1];
      BatchRoundQueue(env, r, init, callback);
      BatchRoundCalls(env, r, init, callback);
      var prev := BatchRound(env, r, init, callback).run;
      var m := |prev.calls|;
      BatchAttemptsEffects(env, prev, item.segment);
      var calls := BatchAttempts(env, prev, item.segment, 0, None).run.calls;
      RecorderEffectsSplit(env, r.queue, calls, |r.calls|, m);
      assert calls[..m] == prev.calls;
    }
  }

  /** With a callback a batch round reports once per segment, in order, with "Missing detected! Re-translating...". */
  lemma {:induction false} BatchRoundProgress(env: Env, r: Run, items: seq<Item>, callback: bool)
    ensures BatchRound(env, r, items, callback).run.progress
         == r.progress + (if callback then Reports(items, RetranslatingDesc) else [])
    decreases |items|
  {
    if items != [] {
      var init := items[..|items| - 1];
      var item := items[|items| - 1];
      BatchRoundProgress(env, r, init, callback);
      BatchAttemptsCalls(env, BatchRound(env, r, init, callback).run, item.segment);
      assert Reports(items, RetranslatingDesc)
          == Reports(init, RetranslatingDesc) + [Progress(item.fraction, RetranslatingDesc)];
    }
  }

  /**
   * A batch round's `has_translated_success` is true exactly when one of its
   * invoker calls got a new success from the recorder.
   */
  lemma {:induction false} BatchRoundSuccessIff(env: Env, r: Run, items: seq<Item>, callback: bool)
    ensures var rd := BatchRound(env, r, items, callback);
      && |r.calls| <= |rd.run.calls|
      && (rd.success <==> SomeNewSuccess(env, rd.run.calls, |r.calls|))
    decreases |items|
  {
    BatchRoundCalls(env, r, items, callback);
    if items != [] {
      var init := items[..|items| - 1];
      var item := items[|items| - 1];
      BatchRoundSuccessIff(env, r, init, callback);
      var prev := BatchRound(env, r, init, callback);
      BatchAttemptsCalls(env, prev.run, item.segment);
      BatchAttemptsSuccessIff(env, prev.run, item.segment);
      var calls := BatchAttempts(env, prev.run, item.segment, 0, None).run.calls;
      assert calls[..|prev.run.calls|] == prev.run.calls;
      SomeNewSuccessSplit(env, calls, |r.calls|, |prev.run.calls|);
    }
  }

  /**
   * `retranslate_failed_content`: with no work (queue missing, undecodable or
   * empty, or no stream) nothing changes and the result is false; otherwise
   * the queue is cleared to `[]` and the tier itself re-appends nothing, so
   * it ends as the recorder's writes leave `[]`. Either way the result is
   * true exactly when one of the tier's invoker calls got a new success from
   * the recorder.
   */
  lemma BatchTierOutcome(env: Env, r: Run, callback: bool)
    ensures var rd := BatchTier(env, r, callback);
      && (!HasWork(r.queue) || env.segmentQueue(r.queue.items, r.context).None? ==> rd == Round(r, false))
      && (HasWork(r.queue) && env.segmentQueue(r.queue.items, r.context).Some? ==>
            rd.run.queue == RecorderEffects(env, Entries([]), rd.run.calls, |r.calls|))
      && |r.calls| <= |rd.run.calls| && rd.run.calls[..|r.calls|] == r.calls
      && (rd.success <==> SomeNewSuccess(env, rd.run.calls, |r.calls|))
  {
    if HasWork(r.queue) && env.segmentQueue(r.queue.items, r.context).Some? {
      var items := env.segmentQueue(r.queue.items, r.context).value;
      BatchRoundCalls(env, r.(queue := Entries([])), items, callback);
      BatchRoundQueue(env, r.(queue := Entries([])), items, callback);
      BatchRoundSuccessIff(env, r.(queue := Entries([])), items, callback);
    } else {
      assert r.calls[..|r.calls|] == r.calls;
    }
  }

  // ---------------------------------------------------------------------------
  // The line-by-line tier

  /** `xs` is `ys` with some elements left out, the rest in their order. */
  predicate IsSubsequence<T(==)>(xs: seq<T>, ys: seq<T>)
    decreases |ys|
  {
    if xs == [] then true
    else if ys == [] then false
    else
      (xs[|xs| - 1] == ys[|ys| - 1] && IsSubsequence(xs[..|xs| - 1], ys[..|ys| - 1]))
      || IsSubsequence(xs, ys[..|ys| - 1])
  }

  lemma SubsequenceSnoc<T>(xs: seq<T>, ys: seq<T>, y: T, keep: bool)
    requires IsSubsequence(xs, ys)
    ensures IsSubsequence(xs + (if keep then [y] else []), ys + [y])
  {
    assert (ys + [y])[..|ys|] == ys;
    if keep {
      assert (xs + [y])[..|xs|] == xs;
    } else {
      assert xs + [] == xs;
    }
  }

  /** Keeping or dropping the last element of `es` extends a subsequence of the rest to one of `es`. */
  lemma SubsequenceStep<T>(xs: seq<T>, zs: seq<T>, es: seq<T>, keep: bool)
    requires es != [] && IsSubsequence(xs, es[..|es| - 1])
    requires zs == xs + if keep then [es[|es| - 1]] else []
    ensures IsSubsequence(zs, es)
  {
    SubsequenceSnoc(xs, es[..|es| - 1], es[|es| - 1], keep);
    assert es[..|es| - 1] + [es[|es| - 1]] == es;
  }

  lemma LineFoldStillFailedSnoc(env: Env, r: Run, es: seq<Entry>, callback: bool)
    requires es != []
    ensures var prev := LineFold(env, r, es[..|es| - 1], callback);
      var e := es[|es| - 1];
      LineFold(env, r, es, callback).stillFailed
        == prev.stillFailed + if LineEntry(env, prev.run, e, callback).exhausted then [e] else []
  {
  }

  /**
   * The entries to re-queue in the line-by-line tier are some of the
   * entries, in their original order.
   */
  lemma {:induction false} LineFoldRequeues(env: Env, r: Run, es: seq<Entry>, callback: bool)
    ensures IsSubsequence(LineFold(env, r, es, callback).stillFailed, es)
    decreases |es|
  {
    if es != [] {
      var init := es[..|es| - 1];
      var e := es[|es| - 1];
      LineFoldRequeues(env, r, init, callback);
      var prev := LineFold(env, r, init, callback);
      LineFoldStillFailedSnoc(env, r, es, callback);
      SubsequenceStep(prev.stillFailed, LineFold(env, r, es, callback).stillFailed, es,
                      LineEntry(env, prev.run, e, callback).exhausted);
    }
  }

  /** The line-by-line tier does not touch the continuity log. */
  lemma {:induction false} LineFoldLog(env: Env, r: Run, es: seq<Entry>, callback: bool)
    ensures LineFold(env, r, es, callback).run.log == r.log
    decreases |es|
  {
    if es != [] {
      var init := es[..|es| - 1];
      var e := es[|es| - 1];
      LineFoldLog(env, r, init, callback);
      var prev := LineFold(env, r, init, callback);
      LineAttemptsFrame(env, prev.run, e);
    }
  }


  /**
   * Each entry of the line-by-line tier costs one or two invoker calls, and
   * each entry to re-queue costs two.
   */
  lemma {:induction false} LineFoldCalls(env: Env, r: Run, es: seq<Entry>, callback: bool)
    ensures var p := LineFold(env, r, es, callback);
      && |r.calls| + |es| + |p.stillFailed| <= |p.run.calls| <= |r.calls| + 2 * |es|
      && p.run.calls[..|r.calls|] == r.calls
    decreases |es|
  {
    if es != [] {
      var init := es[..|es| - 1];
      var e := es[|es| - 1];
      LineFoldCalls(env, r, init, callback);
      var prev := LineFold(env, r, init, callback);
      LineAttemptsCalls(env, prev.run, e);
      var o := LineAttempts(env, prev.run, e, 0);
      assert o.run.calls[..|r.calls|] == prev.run.calls[..|r.calls|];
    }
  }

  /**
   * While the entries of the line-by-line tier are retried, the queue is
   * written only by the recorder: it ends as the recorder's writes for the
   * entries' calls, in order, leave it.
   */
  lemma {:induction false} LineFoldQueue(env: Env, r: Run, es: seq<Entry>, callback: bool)
    ensures var p := LineFold(env, r, es, callback);
      p.run.queue == RecorderEffects(env, r.queue, p.run.calls, |r.calls|)
    decreases |es|
  {
    if es != [] {
      var init := es[..|es| - 1];
      var e := es[|es| - 1];
      LineFoldQueue(env, r, init, callback);
      LineFoldCalls(env, r, init, callback);
      var prev := LineFold(env, r, init, callback).run;
      var m := |prev.calls|;
      LineAttemptsEffects(env, prev, e);
      var calls := LineAttempts(env, prev, e, 0).run.calls;
      RecorderEffectsSplit(env, r.queue, calls, |r.calls|, m);
      assert calls[..m] == prev.calls;
    }
  }

  /** With a callback every entry is reported with fraction 0 and "Line-by-line retranslation...". */
  lemma {:induction false} LineFoldProgress(env: Env, r: Run, es: seq<Entry>, callback: bool)
    ensures LineFold(env, r, es, callback).run.progress
         == r.progress + (if callback then seq(|es|, _ => Progress(0.0, LineByLineDesc)) else [])
    decreases |es|
  {
    if es != [] {
      var init := es[..|es| - 1];
      var e := es[|es| - 1];
      LineFoldProgress(env, r, init, callback);
      var prev := LineFold(env, r, init, callback);
      LineAttemptsFrame(env, prev.run, e);
      assert seq(|es|, _ => Progress(0.0, LineByLineDesc))
          == seq(|init|, _ => Progress(0.0, LineByLineDesc)) + [Progress(0.0, LineByLineDesc)];
    }
  }

  /**
   * `_retranslate_failed_lines`: with no work nothing changes. Otherwise the
   * queue is cleared to `[]`; when some entries had all their attempts fail,
   * it ends holding exactly those entries, in their original order, which
   * are among the entries it held before (whatever the recorder wrote is
   * overwritten); when none did, it ends as the recorder's writes leave
   * `[]`. The tier's invoker calls number at least one per entry plus one
   * per re-queued entry, and at most two per entry.
   */
  lemma LineTierOutcome(env: Env, r: Run, callback: bool)
    ensures !HasWork(r.queue) ==> LineTier(env, r, callback) == r
    ensures HasWork(r.queue) ==>
      var r' := LineTier(env, r, callback);
      var p := LineFold(env, r.(queue := Entries([])), r.queue.items, callback);
      && (p.stillFailed != [] ==> r'.queue == Entries(p.stillFailed))
      && (p.stillFailed == [] ==> r'.queue == RecorderEffects(env, Entries([]), r'.calls, |r.calls|))
      && IsSubsequence(p.stillFailed, r.queue.items)
      && |r.calls| + |r.queue.items| + |p.stillFailed| <= |r'.calls| <= |r.calls| + 2 * |r.queue.items|
      && r'.log == r.log
  {
    if HasWork(r.queue) {
      LineFoldRequeues(env, r.(queue := Entries([])), r.queue.items, callback);
      LineFoldLog(env, r.(queue := Entries([])), r.queue.items, callback);
      LineFoldCalls(env, r.(queue := Entries([])), r.queue.items, callback);
      LineFoldQueue(env, r.(queue := Entries([])), r.queue.items, callback);
    }
  }

  // ---------------------------------------------------------------------------
  // How `translate_content` sequences the tiers

  /**
   * The `k`-th of `k` batch tiers run back to back from `r`, each on the
   * state the one before left, whatever the earlier ones returned.
   */
  function TierRun(env: Env, r: Run, k: nat, callback: bool): Round
    requires k >= 1
    decreases k
  {
    var rd := BatchTier(env, r, callback);
    if k == 1 then rd else TierRun(env, rd.run, k - 1, callback)
  }

  /**
   * Of `rounds` batch tiers run back to back, the `k`-th is where the loop
   * stops: every tier before it returned true, and it returned false or was
   * the last one allowed.
   */
  predicate StopsAt(env: Env, r: Run, k: nat, rounds: nat, callback: bool)
    requires k >= 1
  {
    && k <= rounds
    && (forall j :: 1 <= j < k ==> TierRun(env, r, j, callback).success)
    && (k == rounds || !TierRun(env, r, k, callback).success)
  }

  /** Each of `rounds` batch tiers run back to back reported a new success. */
  predicate AllTiersSucceed(env: Env, r: Run, rounds: nat, callback: bool) {
    forall k :: 1 <= k <= rounds ==> TierRun(env, r, k, callback).success
  }

  /** Of one or more batch tiers run back to back, the loop stops at one of them. */
  lemma {:induction false} StopsAtExists(env: Env, r: Run, rounds: nat, callback: bool)
    requires rounds >= 1
    ensures exists k :: 1 <= k && StopsAt(env, r, k, rounds, callback)
    decreases rounds
  {
    if rounds == 1 {
      assert StopsAt(env, r, 1, 1, callback);
    } else {
      StopsAtExists(env, r, rounds - 1, callback);
      var k :| 1 <= k && StopsAt(env, r, k, rounds - 1, callback);
      if k < rounds - 1 || !TierRun(env, r, k, callback).success {
        assert StopsAt(env, r, k, rounds, callback);
      } else {
        assert StopsAt(env, r, rounds, rounds, callback);
      }
    }
  }

  /**
   * The `for _ in range(rounds)` loop: with `failed_status` false (or no
   * rounds) it does nothing. Otherwise it runs the batch tier at most
   * `rounds` times, stopping after the first one that returns false, and
   * ends with the state and flag of the last tier it ran: the `k`-th, where
   * every tier before it returned true and it either returned false or was
   * the last allowed.
   */
  lemma {:induction false} BatchLoopOutcome(env: Env, r: Run, failed: bool, rounds: nat, callback: bool)
    ensures !failed || rounds == 0 ==> BatchLoop(env, r, failed, rounds, callback) == Round(r, failed)
    ensures forall k :: failed && 1 <= k && StopsAt(env, r, k, rounds, callback)
              ==> BatchLoop(env, r, failed, rounds, callback) == TierRun(env, r, k, callback)
    decreases rounds
  {
    if failed && rounds >= 1 {
      var out := BatchLoop(env, r, failed, rounds, callback);
      var rd := BatchTier(env, r, callback);
      assert TierRun(env, r, 1, callback) == rd;
      assert out == BatchLoop(env, rd.run, rd.success, rounds - 1, callback);
      forall k | failed && 1 <= k && StopsAt(env, r, k, rounds, callback)
        ensures BatchLoop(env, r, failed, rounds, callback) == TierRun(env, r, k, callback)
      {
        if k == 1 {
          assert out == Round(rd.run, rd.success);
        } else {
          assert rd.success;
          BatchLoopOutcome(env, rd.run, true, rounds - 1, callback);
          forall j | 1 <= j < k - 1
            ensures TierRun(env, rd.run, j, callback).success
          {
            assert TierRun(env, r, j + 1, callback) == TierRun(env, rd.run, j, callback);
          }
          assert TierRun(env, r, k, callback) == TierRun(env, rd.run, k - 1, callback);
          assert StopsAt(env, rd.run, k - 1, rounds - 1, callback);
        }
      }
    }
  }

  /**
   * After the `for _ in range(rounds)` loop, `failed_status` is still true
   * exactly when it was true before and every one of the `rounds` batch
   * tiers, run back to back, reported a new success.
   */
  lemma {:induction false} BatchLoopFlag(env: Env, r: Run, failed: bool, rounds: nat, callback: bool)
    ensures BatchLoop(env, r, failed, rounds, callback).success <==> failed && AllTiersSucceed(env, r, rounds, callback)
    decreases rounds
  {
    if failed && rounds >= 1 {
      var rd := BatchTier(env, r, callback);
      assert TierRun(env, r, 1, callback) == rd;
      assert BatchLoop(env, r, failed, rounds, callback) == BatchLoop(env, rd.run, rd.success, rounds - 1, callback);
      if rd.success {
        BatchLoopFlag(env, rd.run, true, rounds - 1, callback);
        if AllTiersSucceed(env, rd.run, rounds - 1, callback) {
          forall k | 2 <= k <= rounds
            ensures TierRun(env, r, k, callback).success
          {
            assert TierRun(env, r, k, callback) == TierRun(env, rd.run, k - 1, callback);
          }
        } else {
          var k :| 1 <= k <= rounds - 1 && !TierRun(env, rd.run, k, callback).success;
          assert TierRun(env, r, k + 1, callback) == TierRun(env, rd.run, k, callback);
        }
      } else {
        assert BatchLoop(env, rd.run, false, rounds - 1, callback) == Round(rd.run, false);
        assert !TierRun(env, r, 1, callback).success;
      }
    }
  }

  /**
   * `translate_content`: with no stream nothing happens. Otherwise the log
   * starts empty, the primary pass runs and the batch loop follows; the
   * line-by-line tier runs, on the state the third batch tier left, exactly
   * when `failed_status` was true and all three batch tiers reported a new
   * success, and `failed_status` then stays true; otherwise the outcome is
   * the batch loop's.
   */
  lemma TranslateContentOutcome(env: Env, r: Run, failed: bool, stream: Option<seq<Item>>, callback: bool)
    ensures stream.None? ==> TranslateContentSpec(env, r, failed, stream, callback) == Round(r, failed)
    ensures stream.Some? ==>
      var p := PrimaryPass(env, r.(log := []), stream.value, callback);
      var out := TranslateContentSpec(env, r, failed, stream, callback);
      && (out.success <==> failed && AllTiersSucceed(env, p, 3, callback))
      && (failed && AllTiersSucceed(env, p, 3, callback) ==>
            out.run == LineTier(env, TierRun(env, p, 3, callback).run, callback))
      && (!(failed && AllTiersSucceed(env, p, 3, callback)) ==> out == BatchLoop(env, p, failed, 3, callback))
  {
    if stream.Some? {
      var p := PrimaryPass(env, r.(log := []), stream.value, callback);
      BatchLoopFlag(env, p, failed, 3, callback);
      if failed && AllTiersSucceed(env, p, 3, callback) {
        BatchLoopOutcome(env, p, failed, 3, callback);
        assert StopsAt(env, p, 3, 3, callback);
        var loop := BatchLoop(env, p, failed, 3, callback);
        assert loop.success && loop == TierRun(env, p, 3, callback);
        assert TranslateContentSpec(env, r, failed, stream, callback) == Round(LineTier(env, loop.run, callback), true);
      }
    }
  }

  /**
   * When the recorder leaves the failure queue as it finds it, the second
   * of two batch tiers run back to back never reports a new success: the
   * first either had no work, leaving the state as it was, or cleared the
   * queue to `[]`, which nothing refills.
   */
  lemma NoRequeueSecondTierIdle(env: Env, r: Run, callback: bool)
    requires RecorderKeepsQueue(env)
    ensures !TierRun(env, r, 2, callback).success
  {
    var rd := BatchTier(env, r, callback);
    BatchTierOutcome(env, r, callback);
    if HasWork(r.queue) && env.segmentQueue(r.queue.items, r.context).Some? {
      RecorderEffectsNone(env, Entries([]), rd.run.calls, |r.calls|);
      BatchTierOutcome(env, rd.run, callback);
    } else {
      BatchTierOutcome(env, rd.run, callback);
    }
  }

  /**
   * When the recorder leaves the failure queue as it finds it, the batch
   * loop of `translate_content` always ends with `failed_status` false, so
   * the line-by-line tier never runs from there.
   */
  lemma NoRequeueLineTierUnreachable(env: Env, r: Run, failed: bool, stream: Option<seq<Item>>, callback: bool)
    requires RecorderKeepsQueue(env)
    ensures stream.Some? ==>
      var p := PrimaryPass(env, r.(log := []), stream.value, callback);
      var out := TranslateContentSpec(env, r, failed, stream, callback);
      !out.success && out == BatchLoop(env, p, failed, 3, callback)
  {
    if stream.Some? {
      var p := PrimaryPass(env, r.(log := []), stream.value, callback);
      TranslateContentOutcome(env, r, failed, stream, callback);
      NoRequeueSecondTierIdle(env, p, callback);
    }
  }
}
