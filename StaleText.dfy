/**
 * The `except` branches of the primary pass and of a batch round set
 * `last_valid_translated_text = translated_text`. When the failing attempt
 * is one in which `translate_text` itself raised, `translated_text` was not
 * assigned by that attempt: it still holds the text of an earlier attempt,
 * possibly of an earlier segment, or, if nothing was assigned yet in the
 * current call of the method, reading it raises `UnboundLocalError`, which
 * none of the handlers catches.
 *
 * This module models those two loops as written, with the value of the local
 * `translated_text` threaded through (`None` while it is unassigned). Module
 * Recovery models the evidently intended behaviour instead: a raising
 * attempt leaves the segment's last returned text as it was.
 */
module StaleText {
  import opened Text
  import opened ContextWindow
  import opened FailureQueue
  import opened Recovery

  /** How the attempts of one segment end as written: `UnboundLocalError`, or a run and the local's value. */
  datatype Outcome = Unbound | Done(run: Run, translated: Option<string>)

  /** The value `translated_text` holds after an attempt whose reply is `reply`. */
  function AfterCall(reply: Reply, translated: Option<string>): Option<string> {
    if reply.Returned? then Some(reply.text) else translated
  }

  /** Attempts `k` and later of one primary-pass segment, as written. */
  function PrimaryAttemptsAsWritten(env: Env, r: Run, seg: Segment, k: nat, last: Option<string>,
                                    translated: Option<string>): Outcome
    requires k <= 2
    decreases 2 - k
  {
    if k == 2 then
      Done(if Salvageable(last) then r.(log := r.log + [BestEffort(last.value)]) else r, translated)
    else
      var current := AfterCall(env.invoke(seg, r.context, |r.calls|), translated);
      var r1 := WithCall(env, r, seg);
      match PrimaryTry(env, seg, r.context, |r.calls|)
      case Succeeded(text, _) =>
        Done(AfterRecord(env, r1, seg, text, |r.calls|).(
               context := PrimaryWindow(SplitLines(env.clean(text)), env.previousTextDefault),
               log := r1.log + [Validated(text)]), current)
      case Failed(_) =>
        if current.None? then Unbound
        else
          var r2 := if k == 1 then r1.(queue := MarkFailed(r1.queue, seg)) else r1;
          PrimaryAttemptsAsWritten(env, r2, seg, k + 1, current, current)
  }

  /** Attempts `k` and later of one batch-round segment, as written. */
  function BatchAttemptsAsWritten(env: Env, r: Run, seg: Segment, k: nat, last: Option<string>,
                                  translated: Option<string>): Outcome
    requires k <= 2
    decreases 2 - k
  {
    if k == 2 then
      Done(if Salvageable(last) then r.(log := r.log + [BestEffort(last.value)]) else r, translated)
    else
      var current := AfterCall(env.invoke(seg, r.context, |r.calls|), translated);
      var r1 := WithCall(env, r, seg);
      match RetryTry(env, seg, r.context, |r.calls|)
      case Succeeded(text, _) =>
        Done(AfterRecord(env, r1, seg, text, |r.calls|).(
               context := BatchWindow(SplitLines(env.clean(text))),
               log := r1.log + [Validated(text)]), current)
      case Failed(_) =>
        if current.None? then Unbound
        else BatchAttemptsAsWritten(env, r1, seg, k + 1, current, current)
  }

  /**
   * When the first call of the run raises, the primary pass as written stops
   * with `UnboundLocalError`, where the intended pass makes its second
   * attempt.
   */
  lemma PrimaryUnboundOnFirstRaise(env: Env, r: Run, seg: Segment)
    requires env.invoke(seg, r.context, |r.calls|) == Raised
    ensures PrimaryAttemptsAsWritten(env, r, seg, 0, None, None) == Unbound
    ensures |PrimaryAttempts(env, r, seg, 0, None).calls| == |r.calls| + 2
  {
    var r1 := WithCall(env, r, seg);
    assert PrimaryAttempts(env, r, seg, 0, None) == PrimaryAttempts(env, r1, seg, 1, None);
  }

  /**
   * When both attempts of a segment raise after an earlier segment's call
   * returned `stale`, the primary pass as written logs `stale` again as this
   * segment's best effort, a text no call for this segment returned; the
   * intended pass logs nothing for the segment.
   */
  lemma PrimaryStaleTextLogged(env: Env, r: Run, seg: Segment, stale: string)
    requires env.invoke(seg, r.context, |r.calls|) == Raised
    requires env.invoke(seg, r.context, |r.calls| + 1) == Raised
    requires stale != ""
    ensures var out := PrimaryAttemptsAsWritten(env, r, seg, 0, None, Some(stale));
      out.Done? && out.run.log == r.log + [BestEffort(stale)]
    ensures PrimaryAttempts(env, r, seg, 0, None).log == r.log
  {
    var r1 := WithCall(env, r, seg);
    var r2 := WithCall(env, r1, seg).(queue := MarkFailed(r1.queue, seg));
    assert PrimaryAttemptsAsWritten(env, r, seg, 0, None, Some(stale))
        == PrimaryAttemptsAsWritten(env, r1, seg, 1, Some(stale), Some(stale));
    assert PrimaryAttemptsAsWritten(env, r1, seg, 1, Some(stale), Some(stale))
        == PrimaryAttemptsAsWritten(env, r2, seg, 2, Some(stale), Some(stale));
  }

  /**
   * The primary pass over the segments `items` as written: the local
   * `translated_text` carries over from one segment to the next, and an
   * `UnboundLocalError` ends the whole pass.
   */
  function PrimaryPassAsWritten(env: Env, r: Run, items: seq<Item>, callback: bool, translated: Option<string>): Outcome
    decreases |items|
  {
    if items == [] then Done(r, translated)
    else
      match PrimaryAttemptsAsWritten(env, r, items[0].segment, 0, None, translated)
      case Unbound => Unbound
      case Done(r1, t1) =>
        PrimaryPassAsWritten(env, Report(r1, callback, items[0].fraction, TranslatingDesc), items[1..], callback, t1)
  }

  /**
   * A run of `translate_content` that reaches the stale read: the first
   * segment's first call returns a non-empty `t` that the recorder accepts,
   * and both calls for the second segment raise. As written, the pass logs
   * `t` a second time, as the second segment's best effort; the intended
   * pass logs it once.
   */
  lemma PrimaryPassStaleSecondSegment(env: Env, r: Run, i1: Item, i2: Item, t: string, callback: bool)
    requires env.invoke(i1.segment, r.context, |r.calls|) == Returned(t) && t != ""
    requires env.record(i1.segment, t, |r.calls|).Recorded?
    requires env.invoke(i2.segment, PrimaryWindow(SplitLines(env.clean(t)), env.previousTextDefault), |r.calls| + 1) == Raised
    requires env.invoke(i2.segment, PrimaryWindow(SplitLines(env.clean(t)), env.previousTextDefault), |r.calls| + 2) == Raised
    ensures var out := PrimaryPassAsWritten(env, r, [i1, i2], callback, None);
      out.Done? && out.run.log == r.log + [Validated(t), BestEffort(t)]
    ensures PrimaryPass(env, r, [i1, i2], callback).log == r.log + [Validated(t)]
  {
    var a := PrimaryAttempts(env, r, i1.segment, 0, None);
    var p1 := Report(a, callback, i1.fraction, TranslatingDesc);
    PrimaryAgreesAfterReturn(env, r, i1.segment, None);
    assert PrimaryAttemptsAsWritten(env, r, i1.segment, 0, None, None) == Done(a, Some(t));
    assert a.log == r.log + [Validated(t)];
    assert [i1, i2][1..] == [i2];
    assert PrimaryPassAsWritten(env, r, [i1, i2], callback, None)
        == PrimaryPassAsWritten(env, p1, [i2], callback, Some(t));
    PrimaryStaleTextLogged(env, p1, i2.segment, t);
    var out2 := PrimaryAttemptsAsWritten(env, p1, i2.segment, 0, None, Some(t));
    assert [i2][1..] == [];
    assert PrimaryPassAsWritten(env, p1, [i2], callback, Some(t))
        == Done(Report(out2.run, callback, i2.fraction, TranslatingDesc), out2.translated);
    assert PrimaryPass(env, r, [i1, i2][..1], callback) == p1 by {
      assert [i1, i2][..1] == [i1];
      assert [i1][..0] == [];
    }
  }

  /**
   * Once the segment's first call has returned, the primary pass as written
   * and the intended one agree: the discrepancy needs a raising first
   * attempt.
   */
  lemma PrimaryAgreesAfterReturn(env: Env, r: Run, seg: Segment, translated: Option<string>)
    requires env.invoke(seg, r.context, |r.calls|).Returned?
    ensures var out := PrimaryAttemptsAsWritten(env, r, seg, 0, None, translated);
      out.Done? && out.run == PrimaryAttempts(env, r, seg, 0, None)
  {
  }

  /**
   * When the first call of a batch round raises, the round as written stops
   * with `UnboundLocalError`, where the intended round makes its second
   * attempt.
   */
  lemma BatchUnboundOnFirstRaise(env: Env, r: Run, seg: Segment)
    requires env.invoke(seg, r.context, |r.calls|) == Raised
    ensures BatchAttemptsAsWritten(env, r, seg, 0, None, None) == Unbound
    ensures |BatchAttempts(env, r, seg, 0, None).run.calls| == |r.calls| + 2
  {
    var r1 := WithCall(env, r, seg);
    assert BatchAttempts(env, r, seg, 0, None) == BatchAttempts(env, r1, seg, 1, None);
  }

  /**
   * When both attempts of a batch-round segment raise after an earlier
   * segment's call returned `stale`, the round as written logs `stale` as
   * this segment's best effort; the intended round logs nothing.
   */
  lemma BatchStaleTextLogged(env: Env, r: Run, seg: Segment, stale: string)
    requires env.invoke(seg, r.context, |r.calls|) == Raised
    requires env.invoke(seg, r.context, |r.calls| + 1) == Raised
    requires stale != ""
    ensures var out := BatchAttemptsAsWritten(env, r, seg, 0, None, Some(stale));
      out.Done? && out.run.log == r.log + [BestEffort(stale)]
    ensures BatchAttempts(env, r, seg, 0, None).run.log == r.log
  {
    var r1 := WithCall(env, r, seg);
    var r2 := WithCall(env, r1, seg);
    assert BatchAttemptsAsWritten(env, r, seg, 0, None, Some(stale))
        == BatchAttemptsAsWritten(env, r1, seg, 1, Some(stale), Some(stale));
    assert BatchAttemptsAsWritten(env, r1, seg, 1, Some(stale), Some(stale))
        == BatchAttemptsAsWritten(env, r2, seg, 2, Some(stale), Some(stale));
  }

  /** Once the segment's first call has returned, the batch round as written and the intended one agree. */
  lemma BatchAgreesAfterReturn(env: Env, r: Run, seg: Segment, translated: Option<string>)
    requires env.invoke(seg, r.context, |r.calls|).Returned?
    ensures var out := BatchAttemptsAsWritten(env, r, seg, 0, None, translated);
      out.Done? && out.run == BatchAttempts(env, r, seg, 0, None).run
  {
  }
}
