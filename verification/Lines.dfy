/** Splitting decoded output into published lines, independently of how the text arrives. */
module Lines {
  import opened Prelude

  datatype Line = Line(text: string, terminated: bool)

  function WithoutTrailingReturns(t: string): (r: string)
    ensures r <= t && (r != "" ==> r[|r| - 1] != '\r')
    ensures forall i :: |r| <= i < |t| ==> t[i] == '\r'
  {
    if t != "" && t[|t| - 1] == '\r' then WithoutTrailingReturns(t[..|t| - 1]) else t
  }

  /** The newline-terminated lines of `t`, in order, without their line ends. */
  function Terminated(t: string): seq<Line>
    decreases |t|
  {
    var n := NewlineAt(t);
    if n == |t| then [] else [Line(WithoutTrailingReturns(t[..n]), true)] + Terminated(t[n + 1..])
  }

  /** What follows the last newline of `t`. */
  function Remainder(t: string): (r: string)
    ensures '\n' !in r
    decreases |t|
  {
    var n := NewlineAt(t);
    if n == |t| then t else Remainder(t[n + 1..])
  }

  /** Every line of a complete text: the last one is unterminated, and published only if nonempty. */
  function SplitLines(t: string): seq<Line> {
    Terminated(t) + OpenLine(t)
  }

  function OpenLine(t: string): seq<Line> {
    if Remainder(t) == "" then [] else [Line(Remainder(t), false)]
  }

  lemma NewlineIsUnique(t: string, n: nat)
    requires n <= |t| && (forall i :: 0 <= i < n ==> t[i] != '\n') && (n < |t| ==> t[n] == '\n')
    ensures NewlineAt(t) == n
  {
  }

  /** One line at a time: the step that publishing takes. */
  lemma StepTerminated(t: string, n: nat)
    requires n < |t| && (forall i :: 0 <= i < n ==> t[i] != '\n') && t[n] == '\n'
    ensures Terminated(t) == [Line(WithoutTrailingReturns(t[..n]), true)] + Terminated(t[n + 1..])
    ensures Remainder(t) == Remainder(t[n + 1..])
  {
    hide WithoutTrailingReturns;
    NewlineIsUnique(t, n);
  }

  lemma NoNewlineNoLines(t: string)
    requires '\n' !in t
    ensures Terminated(t) == [] && Remainder(t) == t
  {
  }

  /** Publishing the lines of a first piece and keeping its remainder loses and reorders nothing. */
  lemma {:induction false} LinesContinue(a: string, b: string)
    ensures Terminated(a + b) == Terminated(a) + Terminated(Remainder(a) + b)
    ensures Remainder(a + b) == Remainder(Remainder(a) + b)
    decreases |a|
  {
    hide Terminated, Remainder, WithoutTrailingReturns, NewlineAt;
    var n := NewlineAt(a);
    if n < |a| {
      StepTerminated(a, n);
      StepTerminated(a + b, n);
      assert (a + b)[..n] == a[..n] && (a + b)[n + 1..] == a[n + 1..] + b;
      LinesContinue(a[n + 1..], b);
    } else {
      NoNewlineNoLines(a);
    }
  }

  lemma LinesComplete(a: string, b: string)
    ensures SplitLines(a + b) == Terminated(a) + SplitLines(Remainder(a) + b)
  {
    hide Terminated, Remainder;
    LinesContinue(a, b);
  }

  lemma StepLines(t: string)
    requires NewlineAt(t) < |t|
    ensures var n := NewlineAt(t);
            SplitLines(t) == [Line(WithoutTrailingReturns(t[..n]), true)] + SplitLines(t[n + 1..])
  {
    hide *;
    var n := NewlineAt(t);
    StepTerminated(t, n);
    LinesBefore(t, [Line(WithoutTrailingReturns(t[..n]), true)], t[n + 1..]);
  }

  lemma LinesBefore(t: string, first: seq<Line>, rest: string)
    requires Terminated(t) == first + Terminated(rest) && Remainder(t) == Remainder(rest)
    ensures SplitLines(t) == first + SplitLines(rest)
  {
    hide Terminated, Remainder;
    Reassociate(first, Terminated(rest), OpenLine(rest));
  }

  lemma Reassociate<T>(a: seq<T>, b: seq<T>, c: seq<T>)
    ensures (a + b) + c == a + (b + c)
  {
  }

  lemma SplitMeans(t: string)
    ensures SplitLines(t) == Terminated(t) + OpenLine(t)
    ensures OpenLine(t) == if Remainder(t) == "" then [] else [Line(Remainder(t), false)]
  {
  }

  lemma NoReturnsToDrop(t: string)
    requires '\r' !in t
    ensures WithoutTrailingReturns(t) == t
  {
    if t != "" {
      assert t[|t| - 1] in t;
    }
  }

  // ---------- an independent reading of SplitLines ----------

  function Rejoin(lines: seq<Line>): string {
    if lines == [] then "" else lines[0].text + (if lines[0].terminated then "\n" else "") + Rejoin(lines[1..])
  }

  lemma {:induction false} RejoinAppend(lines: seq<Line>, last: Line)
    ensures Rejoin(lines + [last]) == Rejoin(lines) + last.text + (if last.terminated then "\n" else "")
  {
    if lines != [] {
      assert (lines + [last])[1..] == lines[1..] + [last];
      RejoinAppend(lines[1..], last);
    } else {
      assert lines + [last] == [last] && [last][1..] == [];
    }
  }

  /** Without carriage returns the lines, rejoined, are the text; no line holds a newline; all but the last end in one. */
  lemma {:induction false} LinesRejoin(t: string)
    requires '\r' !in t
    ensures Rejoin(SplitLines(t)) == t
    ensures forall k :: 0 <= k < |SplitLines(t)| ==> '\n' !in SplitLines(t)[k].text
    ensures forall k :: 0 <= k < |SplitLines(t)| - 1 ==> SplitLines(t)[k].terminated
    ensures forall k :: 0 <= k < |SplitLines(t)| && !SplitLines(t)[k].terminated ==> SplitLines(t)[k].text != ""
    decreases |t|
  {
    hide SplitLines, WithoutTrailingReturns, NewlineAt;
    var n := NewlineAt(t);
    if n < |t| {
      var rest := t[n + 1..];
      LinesRejoin(rest);
      NoReturnsToDrop(t[..n]);
      StepLines(t);
      assert SplitLines(t)[1..] == SplitLines(rest);
      assert t == t[..n] + "\n" + rest;
      assert forall k :: 0 < k < |SplitLines(t)| ==> SplitLines(t)[k] == SplitLines(rest)[k - 1];
    } else {
      OneOpenLine(t);
    }
  }

  lemma OneOpenLine(t: string)
    requires NewlineAt(t) == |t|
    ensures SplitLines(t) == if t == "" then [] else [Line(t, false)]
    ensures Rejoin(SplitLines(t)) == t
  {
    hide NewlineAt, WithoutTrailingReturns;
    if t != "" {
      assert SplitLines(t) == [Line(t, false)];
      hide SplitLines;
      assert SplitLines(t)[1..] == [];
    }
  }
}
