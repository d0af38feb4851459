/**
 * The string operations the translator applies to model output: Python's
 * `str.strip()`, `str.splitlines()`, `"\n".join(...)` and negative-index
 * slicing of a list (`xs[-4:-1]`, `xs[-3:]`).
 */
module Text {

  /** The characters Python's `str.splitlines()` breaks a line at. */
  predicate IsLineBreak(c: char) {
    c == '\n' || c == '\r' || c == '\U{0B}' || c == '\U{0C}' ||
    c == '\U{1C}' || c == '\U{1D}' || c == '\U{1E}' || c == '\U{85}' ||
    c == '\U{2028}' || c == '\U{2029}'
  }

  /** The characters Python's `str.isspace()` accepts, which `str.strip()` removes. */
  predicate IsSpace(c: char) {
    IsLineBreak(c) || c == ' ' || c == '\t' || c == '\U{1F}' || c == '\U{A0}' ||
    c == '\U{1680}' || ('\U{2000}' <= c <= '\U{200A}') || c == '\U{202F}' ||
    c == '\U{205F}' || c == '\U{3000}'
  }

  predicate NoLineBreak(s: string) {
    forall k :: 0 <= k < |s| ==> !IsLineBreak(s[k])
  }

  predicate AllSingleLines(lines: seq<string>) {
    forall k :: 0 <= k < |lines| ==> NoLineBreak(lines[k])
  }

  /** Index of the first line break in `s`, or `|s|` when there is none. */
  function LineEnd(s: string): (i: nat)
    ensures i <= |s|
  {
    if s == [] || IsLineBreak(s[0]) then 0 else 1 + LineEnd(s[1..])
  }

  /**
   * `str.splitlines()`: `"\r\n"` is one break, the breaks are dropped, and a
   * break at the very end does not open an empty last line.
   */
  function SplitLines(s: string): (lines: seq<string>)
    ensures s == [] <==> lines == []
    decreases |s|
  {
    if s == [] then []
    else
      var i := LineEnd(s);
      if i == |s| then [s]
      else
        var j := if s[i] == '\r' && i + 1 < |s| && s[i + 1] == '\n' then i + 2 else i + 1;
        [s[..i]] + SplitLines(s[j..])
  }

  /** `"\n".join(lines)`. */
  function Join(lines: seq<string>): string {
    if |lines| == 0 then ""
    else if |lines| == 1 then lines[0]
    else lines[0] + "\n" + Join(lines[1..])
  }

  function StripStart(s: string): (r: string)
    ensures |r| <= |s|
  {
    if s != [] && IsSpace(s[0]) then StripStart(s[1..]) else s
  }

  function StripEnd(s: string): (r: string)
    ensures |r| <= |s|
  {
    if s != [] && IsSpace(s[|s| - 1]) then StripEnd(s[..|s| - 1]) else s
  }

  /** `str.strip()` with no argument. */
  function Strip(s: string): string {
    StripEnd(StripStart(s))
  }

  /** Python's normalisation of a slice bound `i` against a list of length `n`. */
  function SliceBound(i: int, n: nat): (b: nat)
    ensures b <= n
  {
    if i < 0 then (if i + n < 0 then 0 else i + n)
    else if i > n then n
    else i
  }

  /** Python's `xs[lo:hi]`, negative bounds counting from the end. */
  function PySlice<T>(xs: seq<T>, lo: int, hi: int): seq<T> {
    var a := SliceBound(lo, |xs|);
    var b := SliceBound(hi, |xs|);
    if a <= b then xs[a..b] else []
  }

  /** `LineEnd` stops at the first line break and passes over none. */
  lemma {:induction false} LineEndSpec(s: string)
    ensures LineEnd(s) < |s| ==> IsLineBreak(s[LineEnd(s)])
    ensures NoLineBreak(s[..LineEnd(s)])
  {
    if s != [] && !IsLineBreak(s[0]) {
      LineEndSpec(s[1..]);
      assert s[..LineEnd(s)] == [s[0]] + s[1..][..LineEnd(s[1..])];
    }
  }

  /** No line that `splitlines` returns holds a line break. */
  lemma {:induction false} SplitLinesSingle(s: string)
    ensures AllSingleLines(SplitLines(s))
    decreases |s|
  {
    if s != [] {
      var i := LineEnd(s);
      LineEndSpec(s);
      if i < |s| {
        var j := if s[i] == '\r' && i + 1 < |s| && s[i + 1] == '\n' then i + 2 else i + 1;
        SplitLinesSingle(s[j..]);
        assert SplitLines(s) == [s[..i]] + SplitLines(s[j..]);
      } else {
        assert s[..i] == s;
      }
    }
  }

  lemma {:induction false} StripStartFront(s: string)
    ensures StripStart(s) == [] || !IsSpace(StripStart(s)[0])
    ensures StripStart(s) == s[|s| - |StripStart(s)|..]
  {
    if s != [] && IsSpace(s[0]) {
      StripStartFront(s[1..]);
    }
  }

  lemma {:induction false} StripEndBack(s: string)
    ensures StripEnd(s) == [] || !IsSpace(StripEnd(s)[|StripEnd(s)| - 1])
    ensures StripEnd(s) == s[..|StripEnd(s)|]
  {
    if s != [] && IsSpace(s[|s| - 1]) {
      StripEndBack(s[..|s| - 1]);
    }
  }

  /** `str.strip()` leaves no whitespace at either end. */
  lemma StripEdges(s: string)
    ensures Strip(s) == [] || (!IsSpace(Strip(s)[0]) && !IsSpace(Strip(s)[|Strip(s)| - 1]))
  {
    var t := StripStart(s);
    StripStartFront(s);
    StripEndBack(t);
    var r := StripEnd(t);
    if r != [] {
      assert r[0] == t[0];
    }
  }

  /** `xs[-4:-1]` is the three items before the last one, or all but the last of a shorter list. */
  lemma PySliceBeforeLast<T>(xs: seq<T>)
    ensures |xs| >= 4 ==> PySlice(xs, -4, -1) == xs[|xs| - 4..|xs| - 1]
    ensures |xs| < 4 ==> PySlice(xs, -4, -1) == (if xs == [] then [] else xs[..|xs| - 1])
  {
  }

  /** A line with no break, then `"\n"`, splits off as the first line. */
  lemma SplitLinesCons(l: string, rest: string)
    requires NoLineBreak(l)
    ensures SplitLines(l + "\n" + rest) == [l] + SplitLines(rest)
  {
    var s := l + "\n" + rest;
    LineEndSpec(s);
    assert s[|l|] == '\n';
    assert LineEnd(s) == |l|;
    assert s[..|l|] == l;
    assert s[|l| + 1..] == rest;
  }

  /** A line with no break is split into itself. */
  lemma SplitLinesSingleLine(l: string)
    requires NoLineBreak(l) && l != []
    ensures SplitLines(l) == [l]
  {
    LineEndSpec(l);
  }

  /** Splitting a join gives the lines back, unless the last line is empty (splitlines drops it). */
  lemma {:induction false} SplitJoin(lines: seq<string>)
    requires AllSingleLines(lines)
    requires lines == [] || lines[|lines| - 1] != []
    ensures SplitLines(Join(lines)) == lines
  {
    if |lines| == 1 {
      SplitLinesSingleLine(lines[0]);
    } else if |lines| > 1 {
      var rest := lines[1..];
      assert AllSingleLines(rest) by {
        forall k | 0 <= k < |rest| ensures NoLineBreak(rest[k]) {
          assert rest[k] == lines[k + 1];
        }
      }
      SplitJoin(rest);
      assert NoLineBreak(lines[0]);
      SplitLinesCons(lines[0], Join(rest));
    }
  }

  /** A text that does not end in whitespace has a non-empty last line. */
  lemma {:induction false} LastLineNotEmpty(s: string)
    requires s != [] && !IsSpace(s[|s| - 1])
    ensures SplitLines(s) != [] && SplitLines(s)[|SplitLines(s)| - 1] != []
    decreases |s|
  {
    var i := LineEnd(s);
    LineEndSpec(s);
    if i < |s| {
      var crlf := s[i] == '\r' && i + 1 < |s| && s[i + 1] == '\n';
      var j := if crlf then i + 2 else i + 1;
      if crlf {
        assert IsSpace(s[i + 1]);
      } else {
        assert IsSpace(s[i]);
      }
      assert j < |s|;
      var t := s[j..];
      assert t[|t| - 1] == s[|s| - 1];
      LastLineNotEmpty(t);
      assert SplitLines(t) != [];
      assert SplitLines(s) == [s[..i]] + SplitLines(t);
    }
  }

  lemma {:induction false} StripStartFixed(s: string)
    requires s == [] || !IsSpace(s[0])
    ensures StripStart(s) == s
  {
  }

  lemma {:induction false} StripEndFixed(s: string)
    requires s == [] || !IsSpace(s[|s| - 1])
    ensures StripEnd(s) == s
  {
  }

  /** Stripping twice is stripping once. */
  lemma StripIdempotent(s: string)
    ensures Strip(Strip(s)) == Strip(s)
  {
    var r := Strip(s);
    StripEdges(s);
    StripStartFixed(r);
    StripEndFixed(r);
  }
}
