/**
  The two readers of one child process, which append to one store in whatever order their tasks run: the
  store is locked for one line at a time.
 */
module Readers {
  import opened Prelude
  import opened Utf8
  import opened Lines
  import opened Capture

  /** One reader: the reads still to come, and what it carries. */
  datatype Reader = Reader(pieces: seq<Bytes>, bytes: Bytes, text: string)

  /** Both readers, and every line that either has appended so far. */
  datatype Capturing = Capturing(out: Reader, err: Reader, appended: seq<(Source, Line)>)

  function Of(c: Capturing, source: Source): Reader {
    if source == Stdout then c.out else c.err
  }

  function With(c: Capturing, source: Source, r: Reader): Capturing {
    if source == Stdout then c.(out := r) else c.(err := r)
  }

  predicate Done(r: Reader) {
    r.pieces == [] && r.bytes == [] && r.text == ""
  }

  /**
    What a reader does between two points where the other may run: it appends its next complete line, or
    else reads on, or at the end flushes an unfinished sequence, or appends the last unterminated line.
   */
  function ReaderStep(r: Reader): (Reader, seq<Line>) {
    var n := NewlineAt(r.text);
    if n < |r.text| then (r.(text := r.text[n + 1..]), [Line(WithoutTrailingReturns(r.text[..n]), true)])
    else if r.pieces != [] then
      var settled := Settle(r.bytes + r.pieces[0]);
      (Reader(r.pieces[1..], settled.rest, r.text + settled.text), [])
    else if r.bytes != [] then (r.(bytes := [], text := r.text + [REPLACEMENT]), [])
    else if r.text != "" then (r.(text := ""), [Line(r.text, false)])
    else (r, [])
  }

  function Tagged(source: Source, lines: seq<Line>): (calls: seq<(Source, Line)>)
    ensures |calls| == |lines|
  {
    seq(|lines|, i requires 0 <= i < |lines| => (source, lines[i]))
  }

  function Advance(c: Capturing, source: Source): Capturing {
    var (r, lines) := ReaderStep(Of(c, source));
    With(c, source, r).(appended := c.appended + Tagged(source, lines))
  }

  /** Any interleaving of the two tasks. */
  function Interleave(c: Capturing, schedule: seq<Source>): Capturing {
    if schedule == [] then c
    else Advance(Interleave(c, schedule[..|schedule| - 1]), schedule[|schedule| - 1])
  }

  function Start(out: seq<Bytes>, err: seq<Bytes>): Capturing {
    Capturing(Reader(out, [], ""), Reader(err, [], ""), [])
  }

  /** One source's share of what was appended, in order. */
  function Share(appended: seq<(Source, Line)>, source: Source): seq<Line> {
    if appended == [] then []
    else
      var last := appended[|appended| - 1];
      Share(appended[..|appended| - 1], source) + if last.0 == source then [last.1] else []
  }

  /** What a reader will still append if it is left alone. */
  ghost function Ahead(r: Reader): seq<Line> {
    SplitLines(r.text + Lossy(r.bytes + Flatten(r.pieces)))
  }

  /** Between two reads a reader carries nothing but an unfinished sequence. */
  predicate Carrying(r: Reader) {
    Settle(r.bytes) == Settled("", r.bytes)
  }

  lemma SharesAppend(appended: seq<(Source, Line)>, source: Source, lines: seq<Line>, other: Source)
    requires |lines| <= 1
    ensures Share(appended + Tagged(source, lines), other) == Share(appended, other) + if other == source then lines else []
  {
    var longer := appended + Tagged(source, lines);
    if lines == [] {
      assert longer == appended;
    } else {
      assert longer[..|longer| - 1] == appended && lines == [lines[0]];
    }
  }

  lemma SettledRestSettles(s: Bytes)
    ensures Settle(Settle(s).rest) == Settled("", Settle(s).rest)
  {
    SettleInTwoSteps(s, []);
    assert s + [] == s && Settle(s).rest + [] == Settle(s).rest;
  }

  lemma LoneRestIsReplaced(r: Reader)
    requires Carrying(r) && r.bytes != []
    ensures Lossy(r.bytes) == [REPLACEMENT]
  {
    FlushCompletes(r.bytes);
  }

  lemma ReadKeepsAhead(r: Reader)
    requires NewlineAt(r.text) == |r.text| && r.pieces != []
    ensures Carrying(ReaderStep(r).0) && Ahead(ReaderStep(r).0) == Ahead(r)
  {
    hide Settle, SplitLines, NewlineAt;
    var arrived := r.bytes + r.pieces[0];
    var rest := Flatten(r.pieces[1..]);
    FirstPiece(r.pieces);
    SettledRestSettles(arrived);
    SettleThenContinue(arrived, rest);
    assert r.bytes + Flatten(r.pieces) == arrived + rest;
    assert r.text + (Settle(arrived).text + Lossy(Settle(arrived).rest + rest)) ==
           r.text + Settle(arrived).text + Lossy(Settle(arrived).rest + rest);
  }

  lemma {:induction false} FirstPiece(pieces: seq<Bytes>)
    requires pieces != []
    ensures Flatten(pieces) == pieces[0] + Flatten(pieces[1..])
  {
    if |pieces| == 1 {
      assert pieces[..0] == [] && pieces[1..] == [];
      assert [] + pieces[0] == pieces[0] == pieces[0] + [];
    } else {
      var last := |pieces| - 1;
      FirstPiece(pieces[..last]);
      assert pieces[..last][1..] == pieces[1..][..last - 1];
      assert pieces[0] + (Flatten(pieces[1..last]) + pieces[last]) == pieces[0] + Flatten(pieces[1..last]) + pieces[last];
    }
  }

  lemma LineKeepsAhead(r: Reader)
    requires NewlineAt(r.text) < |r.text|
    ensures ReaderStep(r).1 + Ahead(ReaderStep(r).0) == Ahead(r)
  {
    hide SplitLines, Lossy, NewlineAt, WithoutTrailingReturns;
    var n := NewlineAt(r.text);
    var all := r.text + Lossy(r.bytes + Flatten(r.pieces));
    NewlineIsUnique(all, n);
    StepLines(all);
    assert all[..n] == r.text[..n] && all[n + 1..] == r.text[n + 1..] + Lossy(r.bytes + Flatten(r.pieces));
  }

  /** A step appends the first of the lines ahead, or leaves them as they are. */
  lemma StepKeepsAhead(r: Reader)
    requires Carrying(r)
    ensures Carrying(ReaderStep(r).0) && |ReaderStep(r).1| <= 1
    ensures ReaderStep(r).1 + Ahead(ReaderStep(r).0) == Ahead(r)
  {
    hide Settle, SplitLines, NewlineAt, WithoutTrailingReturns;
    if NewlineAt(r.text) < |r.text| {
      LineKeepsAhead(r);
    } else if r.pieces != [] {
      ReadKeepsAhead(r);
    } else {
      EndKeepsAhead(r);
    }
  }

  lemma EndKeepsAhead(r: Reader)
    requires Carrying(r) && NewlineAt(r.text) == |r.text| && r.pieces == []
    ensures Carrying(ReaderStep(r).0) && |ReaderStep(r).1| <= 1
    ensures ReaderStep(r).1 + Ahead(ReaderStep(r).0) == Ahead(r)
  {
    hide Settle, SplitLines, NewlineAt, WithoutTrailingReturns, Lossy;
    NothingSettles();
    NothingAhead(Reader([], [], ""));
    LastLine(r.text);
    assert r.bytes + Flatten(r.pieces) == r.bytes && [] + Flatten(r.pieces) == [];
    assert r.text + "" == r.text && r.text + [REPLACEMENT] + "" == r.text + [REPLACEMENT];
    if r.bytes != [] {
      LoneRestIsReplaced(r);
      var s := ReaderStep(r).0;
      assert s.text == r.text + [REPLACEMENT] && s.bytes == [];
      assert [] + Ahead(s) == Ahead(s);
    } else if r.text != "" {
      assert [Line(r.text, false)] + [] == [Line(r.text, false)];
    }
  }

  lemma LastLine(text: string)
    requires NewlineAt(text) == |text|
    ensures SplitLines(text) == if text == "" then [] else [Line(text, false)]
  {
    hide NewlineAt;
    OneOpenLine(text);
  }

  lemma NothingSettles()
    ensures Settle([]) == Settled("", []) && Lossy([]) == ""
  {
  }

  /** A reader that is not done makes progress with every step: it has fewer reads, bytes or characters left. */
  lemma StepsFinish(r: Reader)
    requires !Done(r)
    ensures var s := ReaderStep(r).0;
            || |s.pieces| < |r.pieces|
            || (s.pieces == r.pieces && |s.bytes| < |r.bytes|)
            || (s.pieces == r.pieces && s.bytes == r.bytes && |s.text| < |r.text|)
  {
    hide Settle, NewlineAt, WithoutTrailingReturns;
  }

  /**
    However the two tasks are interleaved, and however each stream is cut into reads: what one source has
    appended, in order, followed by what its reader has ahead, is always the lines of the one-shot decoding
    of its whole stream; so at the end its share of the store is exactly those lines.
   */
  lemma {:induction false} SharesAreStreams(out: seq<Bytes>, err: seq<Bytes>, schedule: seq<Source>, source: Source)
    ensures var c := Interleave(Start(out, err), schedule);
            && OnCourse(c, source, if source == Stdout then out else err)
            && (Done(Of(c, source)) ==>
                  Share(c.appended, source) == SplitLines(Lossy(Flatten(if source == Stdout then out else err))))
  {
    hide OnCourse, SplitLines, Lossy, Advance;
    if schedule == [] {
      StartsOnCourse(out, err, source);
    } else {
      SharesAreStreams(out, err, schedule[..|schedule| - 1], source);
      StaysOnCourse(Interleave(Start(out, err), schedule[..|schedule| - 1]), schedule[|schedule| - 1], source,
                    if source == Stdout then out else err);
    }
    if Done(Of(Interleave(Start(out, err), schedule), source)) {
      DoneMeansAll(Interleave(Start(out, err), schedule), source, if source == Stdout then out else err);
    }
  }

  ghost predicate OnCourse(c: Capturing, source: Source, pieces: seq<Bytes>) {
    && Carrying(Of(c, source))
    && Share(c.appended, source) + Ahead(Of(c, source)) == SplitLines(Lossy(Flatten(pieces)))
  }

  lemma StartsOnCourse(out: seq<Bytes>, err: seq<Bytes>, source: Source)
    ensures OnCourse(Start(out, err), source, if source == Stdout then out else err)
  {
    hide Carrying, Ahead, SplitLines, Lossy;
    StartsAhead(if source == Stdout then out else err);
  }

  lemma StaysOnCourse(c: Capturing, mover: Source, source: Source, pieces: seq<Bytes>)
    requires OnCourse(c, source, pieces)
    ensures OnCourse(Advance(c, mover), source, pieces)
  {
    hide Carrying, Ahead, SplitLines, Lossy, ReaderStep, Share;
    var (r, lines) := ReaderStep(Of(c, mover));
    if mover == source {
      StepKeepsAhead(Of(c, source));
      SharesAppend(c.appended, mover, lines, source);
      assert Share(c.appended, source) + (lines + Ahead(r)) == Share(c.appended, source) + lines + Ahead(r);
    } else {
      AtMostOne(Of(c, mover));
      SharesAppend(c.appended, mover, lines, source);
      assert Share(c.appended, source) + [] == Share(c.appended, source);
    }
  }

  lemma AtMostOne(r: Reader)
    ensures |ReaderStep(r).1| <= 1
  {
    hide Settle, NewlineAt, WithoutTrailingReturns;
  }

  lemma DoneMeansAll(c: Capturing, source: Source, pieces: seq<Bytes>)
    requires OnCourse(c, source, pieces) && Done(Of(c, source))
    ensures Share(c.appended, source) == SplitLines(Lossy(Flatten(pieces)))
  {
    hide Ahead, SplitLines, Lossy, Share, Carrying;
    NothingAhead(Of(c, source));
    assert Share(c.appended, source) + [] == Share(c.appended, source);
  }

  lemma StartsAhead(pieces: seq<Bytes>)
    ensures Ahead(Reader(pieces, [], "")) == SplitLines(Lossy(Flatten(pieces))) && Carrying(Reader(pieces, [], ""))
  {
    NothingSettles();
    assert [] + Flatten(pieces) == Flatten(pieces);
    assert "" + Lossy(Flatten(pieces)) == Lossy(Flatten(pieces));
  }

  lemma NothingAhead(r: Reader)
    ensures Done(r) ==> Ahead(r) == []
  {
    hide SplitLines;
    NothingSettles();
    OneOpenLine("");
    if Done(r) {
      assert r.bytes + Flatten(r.pieces) == [] && r.text + Lossy([]) == "";
    }
  }

  // ---------- the entries of the store ----------

  /** What a reader's task does, on its own carry and the shared store, from one wait to the next. */
  method Turn(carry: StreamCarry, pieces: seq<Bytes>, source: Source, store: OutputStore)
    returns (left: seq<Bytes>, ghost lines: seq<Line>)
    requires store.Valid()
    modifies carry, store
    ensures store.Valid() && store.entries == old(store.entries) + EntriesOf(source, lines)
    ensures (Reader(left, carry.bytes, carry.text), lines) ==
            ReaderStep(Reader(pieces, old(carry.bytes), old(carry.text)))
  {
    hide Settle, Entry;
    left, lines := pieces, [];
    var newline := NewlineAt(carry.text);
    if newline < |carry.text| {
      var line := WithoutTrailingReturns(carry.text[..newline]);
      carry.text := carry.text[newline + 1..];
      store.AppendLine(source, line, true);
      lines := [Line(line, true)];
      OneEntry(source, lines[0]);
    } else if pieces != [] {
      carry.bytes := carry.bytes + pieces[0];
      carry.DecodeAvailable();
      left := pieces[1..];
    } else if carry.bytes != [] {
      carry.text := carry.text + [REPLACEMENT];
      carry.bytes := [];
    } else if carry.text != "" {
      lines := [Line(carry.text, false)];
      store.AppendLine(source, carry.text, false);
      carry.text := "";
      OneEntry(source, lines[0]);
    }
  }

  /** The entries that the appended lines become, in the order of the appends. */
  function EntriesFor(appended: seq<(Source, Line)>): seq<Bytes> {
    if appended == [] then []
    else
      var last := appended[|appended| - 1];
      EntriesFor(appended[..|appended| - 1]) + [Entry(last.0, last.1.text)]
  }

  /** The entries that begin with one source's prefix, in order. */
  function Labelled(entries: seq<Bytes>, source: Source): seq<Bytes> {
    if entries == [] then []
    else
      var last := entries[|entries| - 1];
      Labelled(entries[..|entries| - 1], source) + if Prefix(source) <= last then [last] else []
  }

  lemma OnlyOwnPrefix(source: Source, text: string, other: Source)
    ensures Prefix(other) <= Entry(source, text) <==> other == source
  {
    assert Entry(source, text)[..9] == Prefix(source);
    assert Prefix(other) <= Entry(source, text) ==> Prefix(other) == Entry(source, text)[..9];
    assert Prefix(Stdout)[4] != Prefix(Stderr)[4];
  }

  lemma {:induction false} LabelledIsShare(appended: seq<(Source, Line)>, source: Source)
    ensures Labelled(EntriesFor(appended), source) == EntriesOf(source, Share(appended, source))
  {
    hide Entry, Prefix;
    if appended != [] {
      var shorter, last := appended[..|appended| - 1], appended[|appended| - 1];
      LabelledIsShare(shorter, source);
      OnlyOwnPrefix(last.0, last.1.text, source);
      var entries := EntriesFor(appended);
      assert entries[..|entries| - 1] == EntriesFor(shorter);
      OneEntry(source, last.1);
      EntriesConcat(source, Share(shorter, source), [last.1]);
      assert Share(shorter, source) + [] == Share(shorter, source);
      assert Labelled(EntriesFor(shorter), source) + [] == Labelled(EntriesFor(shorter), source);
    }
  }

  /** When both streams have ended, the entries of one source, in order, are those of that source's lines. */
  lemma EntriesAreStreams(out: seq<Bytes>, err: seq<Bytes>, schedule: seq<Source>, source: Source)
    requires Done(Of(Interleave(Start(out, err), schedule), source))
    ensures Labelled(EntriesFor(Interleave(Start(out, err), schedule).appended), source) ==
            EntriesOf(source, SplitLines(Lossy(Flatten(if source == Stdout then out else err))))
  {
    hide SplitLines, Lossy, Interleave;
    SharesAreStreams(out, err, schedule, source);
    LabelledIsShare(Interleave(Start(out, err), schedule).appended, source);
  }
}
