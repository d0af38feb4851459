/**
 * The context window (`previous_text`): the trailing translated lines that
 * are handed to the next translation call. Each recovery tier derives it
 * from a successful output by its own rule.
 */
module ContextWindow {
  import opened Text

  /**
   * Primary pass: with at least four lines of cleaned output, the three lines
   * before the last (`lines[-4:-1]`); otherwise the language-pair default.
   */
  function PrimaryWindow(lines: seq<string>, default: string): string {
    if |lines| >= 4 then Join(PySlice(lines, -4, -1)) else default
  }

  /** Batch retry: `lines[-4:-1]` with no length check and no default. */
  function BatchWindow(lines: seq<string>): string {
    Join(PySlice(lines, -4, -1))
  }

  /**
   * Line-by-line retry: with at least three lines of stripped output, the
   * last three (`lines[-3:]`); otherwise the default.
   */
  function LineWindow(lines: seq<string>, default: string): string {
    if |lines| >= 3 then Join(PySlice(lines, -3, |lines|)) else default
  }

  /**
   * The primary-pass window holds exactly the three lines at indices n-4..n-2
   * of the output (the last line is left out), or is the default when there
   * are fewer than four lines. Reading the lines back needs the window's last
   * line to be non-empty, since `splitlines` drops a trailing empty line.
   */
  lemma PrimaryWindowLines(lines: seq<string>, default: string)
    requires AllSingleLines(lines)
    ensures |lines| < 4 ==> PrimaryWindow(lines, default) == default
    ensures |lines| >= 4 && lines[|lines| - 2] != [] ==>
      SplitLines(PrimaryWindow(lines, default)) == lines[|lines| - 4..|lines| - 1]
  {
    var n := |lines|;
    if n >= 4 {
      PySliceBeforeLast(lines);
      var w := lines[n - 4..n - 1];
      assert AllSingleLines(w) by {
        forall k | 0 <= k < |w| ensures NoLineBreak(w[k]) {
          assert w[k] == lines[n - 4 + k];
        }
      }
      if lines[n - 2] != [] {
        SplitJoin(w);
      }
    }
  }

  /**
   * The batch-retry rule agrees with the primary rule on outputs of four or
   * more lines; on shorter outputs it keeps every line but the last instead
   * of falling back to the default.
   */
  lemma BatchWindowAgainstPrimary(lines: seq<string>, default: string)
    ensures |lines| >= 4 ==> BatchWindow(lines) == PrimaryWindow(lines, default)
    ensures |lines| < 4 ==>
      BatchWindow(lines) == Join(if lines == [] then [] else lines[..|lines| - 1])
    ensures |lines| <= 1 ==> BatchWindow(lines) == ""
  {
    PySliceBeforeLast(lines);
    if |lines| == 1 {
      assert lines[..0] == [];
    }
  }

  /**
   * For the stripped output of the line-by-line tier, the window holds exactly
   * the last three lines when there are at least three, and is the default
   * otherwise. Stripping guarantees the last line is not empty, so the lines
   * always read back intact.
   */
  lemma LineWindowLines(output: string, default: string)
    ensures var lines := SplitLines(Strip(output));
      (|lines| < 3 ==> LineWindow(lines, default) == default) &&
      (|lines| >= 3 ==> SplitLines(LineWindow(lines, default)) == lines[|lines| - 3..])
  {
    var s := Strip(output);
    var lines := SplitLines(s);
    var n := |lines|;
    if n >= 3 {
      StripEdges(output);
      SplitLinesSingle(s);
      LastLineNotEmpty(s);
      var w := lines[n - 3..];
      assert PySlice(lines, -3, n) == w;
      assert AllSingleLines(w) by {
        forall k | 0 <= k < |w| ensures NoLineBreak(w[k]) {
          assert w[k] == lines[n - 3 + k];
        }
      }
      assert w[|w| - 1] == lines[n - 1];
      SplitJoin(w);
    }
  }
}
