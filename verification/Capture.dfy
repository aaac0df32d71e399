/**
  Capture of a child process's output: bytes arrive in arbitrary reads, are decoded incrementally,
  published line by line, logged in full, and kept as a bounded tail.
 */
module Capture {
  import opened Prelude
  import opened Utf8
  import opened Lines

  const MAX_OUTPUT_BYTES: nat := 50 * 1024
  const MAX_OUTPUT_LINES: nat := 2_000

  datatype Source = Stdout | Stderr

  /** `[stdout] ` or `[stderr] `, in bytes. */
  function Prefix(source: Source): Bytes {
    match source
    case Stdout => [0x5B, 0x73, 0x74, 0x64, 0x6F, 0x75, 0x74, 0x5D, 0x20]
    case Stderr => [0x5B, 0x73, 0x74, 0x64, 0x65, 0x72, 0x72, 0x5D, 0x20]
  }

  function Entry(source: Source, text: string): Bytes {
    Prefix(source) + Encode(text)
  }

  ghost predicate IsEntry(e: Bytes) {
    exists source, text :: e == Entry(source, text)
  }

  // ---------- the bounded tail, specified over everything ever appended ----------

  /** Bytes charged for a run of entries: each counts one more than its length. */
  function Size(entries: seq<Bytes>): nat {
    if entries == [] then 0 else |entries[0]| + 1 + Size(entries[1..])
  }

  predicate Fits(entries: seq<Bytes>) {
    |entries| <= MAX_OUTPUT_LINES && Size(entries) <= MAX_OUTPUT_BYTES
  }

  /** Where the longest suffix that fits begins. */
  function SuffixStart(entries: seq<Bytes>): (k: nat)
    ensures k <= |entries|
  {
    if Fits(entries) then 0 else if entries == [] then 0 else 1 + SuffixStart(entries[1..])
  }

  /** Position after the first `] `, or zero. */
  function AfterMarker(e: Bytes, from: nat := 0): (n: nat)
    requires from <= |e|
    ensures n <= |e|
    decreases |e| - from
  {
    if |e| < from + 2 then 0
    else if e[from] == 0x5D && e[from + 1] == 0x20 then from + 2
    else AfterMarker(e, from + 1)
  }

  function SkipTails(e: Bytes, start: nat): (n: nat)
    requires start <= |e|
    ensures start <= n <= |e|
    ensures n < |e| ==> !IsTail(e[n])
    ensures forall i :: start <= i < n ==> IsTail(e[i])
    decreases |e| - start
  {
    if start < |e| && IsTail(e[start]) then SkipTails(e, start + 1) else start
  }

  function Max(a: int, b: int): int {
    if a < b then b else a
  }

  /** First byte of the body that is kept when `e` alone is too big. */
  function ClipStart(e: Bytes): (n: nat)
    ensures AfterMarker(e) <= n <= |e|
  {
    var retained := Max(MAX_OUTPUT_BYTES - 1 - AfterMarker(e), 0);
    SkipTails(e, Max(Max(|e| - retained, 0), AfterMarker(e)))
  }

  function Clip(e: Bytes): Bytes {
    e[..AfterMarker(e)] + e[ClipStart(e)..]
  }

  /** The tail kept for `entries`: the longest suffix that fits, or the last entry clipped if it alone does not. */
  function Retained(entries: seq<Bytes>): seq<Bytes> {
    if entries == [] then []
    else if !Fits([entries[|entries| - 1]]) then [Clip(entries[|entries| - 1])]
    else entries[SuffixStart(entries)..]
  }

  // ---------- facts about sizes and suffixes ----------

  lemma {:induction false} SizeConcat(a: seq<Bytes>, b: seq<Bytes>)
    ensures Size(a + b) == Size(a) + Size(b)
  {
    if a == [] {
      assert a + b == b;
    } else {
      assert (a + b)[1..] == a[1..] + b;
      SizeConcat(a[1..], b);
    }
  }

  lemma FitsMeans(entries: seq<Bytes>)
    ensures Fits(entries) <==> |entries| <= MAX_OUTPUT_LINES && Size(entries) <= MAX_OUTPUT_BYTES
  {
  }

  lemma SizeOne(entry: Bytes)
    ensures Size([entry]) == |entry| + 1
  {
    var rest: seq<Bytes> := [entry][1..];
    assert rest == [];
  }

  lemma SuffixFits(entries: seq<Bytes>, j: nat, k: nat)
    requires j <= k <= |entries| && Fits(entries[j..])
    ensures Fits(entries[k..])
  {
    assert entries[j..] == entries[j..k] + entries[k..];
    SizeConcat(entries[j..k], entries[k..]);
  }

  /** The suffix kept is the longest one that fits. */
  lemma {:induction false} SuffixStartIsLeast(entries: seq<Bytes>, k: nat)
    requires k <= |entries|
    ensures Fits(entries[SuffixStart(entries)..])
    ensures Fits(entries[k..]) ==> SuffixStart(entries) <= k
  {
    assert entries[0..] == entries;
    if !Fits(entries) {
      if k == 0 {
        SuffixStartIsLeast(entries[1..], 0);
      } else {
        SuffixStartIsLeast(entries[1..], k - 1);
        assert entries[1..][k - 1..] == entries[k..];
      }
      assert entries[1..][SuffixStart(entries[1..])..] == entries[SuffixStart(entries)..];
    }
  }

  lemma SuffixStartIs(entries: seq<Bytes>, k: nat)
    requires k <= |entries| && Fits(entries[k..]) && (k > 0 ==> !Fits(entries[k - 1..]))
    ensures SuffixStart(entries) == k
  {
    SuffixStartIsLeast(entries, k);
    if SuffixStart(entries) < k {
      SuffixFits(entries, SuffixStart(entries), k - 1);
    }
  }

  lemma {:induction false} SkipTailsStops(e: Bytes, start: nat, q: nat)
    requires start <= q <= |e|
    requires forall i :: start <= i < q ==> IsTail(e[i])
    requires q < |e| ==> !IsTail(e[q])
    ensures SkipTails(e, start) == q
    decreases q - start
  {
    if start < q {
      SkipTailsStops(e, start + 1, q);
    }
  }

  lemma MarkerOfEntry(source: Source, text: string)
    ensures AfterMarker(Entry(source, text)) == 9
  {
    var e := Entry(source, text);
    assert AfterMarker(e, 7) == 9;
    assert AfterMarker(e, 6) == 9;
    assert AfterMarker(e, 5) == 9;
    assert AfterMarker(e, 4) == 9;
    assert AfterMarker(e, 3) == 9;
    assert AfterMarker(e, 2) == 9;
    assert AfterMarker(e, 1) == 9;
  }

  /**
    A clipped entry is its source prefix and a suffix of its text that starts at a character, drops at
    least one byte, uses the byte limit up to three bytes, and never exceeds it.
   */
  lemma ClippedEntry(source: Source, text: string) returns (k: nat)
    requires !Fits([Entry(source, text)])
    ensures k <= |text| && Clip(Entry(source, text)) == Entry(source, text[k..])
    ensures |Clip(Entry(source, text))| < |Entry(source, text)|
    ensures MAX_OUTPUT_BYTES - 3 <= |Clip(Entry(source, text))| + 1 <= MAX_OUTPUT_BYTES
  {
    hide AfterMarker, Encode, SkipTails, Entry, Prefix, Clip;
    var e := Entry(source, text);
    MarkerOfEntry(source, text);
    SizeOne(e);
    var start := |e| - (MAX_OUTPUT_BYTES - 10);
    var body := Encode(text);
    EntryParts(source, text);
    var q;
    q, k := BoundaryAhead(text, start - 9);
    assert forall i :: start <= i < q + 9 ==> e[i] == body[i - 9];
    assert q + 9 < |e| ==> e[q + 9] == body[q];
    SkipTailsStops(e, start, q + 9);
    ClipIs(e, start);
    EntryParts(source, text[k..]);
    assert e[q + 9..] == body[q..];
  }

  lemma EntryParts(source: Source, text: string)
    ensures var e := Entry(source, text);
            |e| == 9 + |Encode(text)| && e[..9] == Prefix(source) && e[9..] == Encode(text)
            && e == Prefix(source) + Encode(text) && |Prefix(source)| == 9
            && forall i :: 9 <= i < |e| ==> e[i] == Encode(text)[i - 9]
  {
    hide Encode;
  }

  /** A single entry that is too big keeps its marker and what follows the tails at this position. */
  lemma ClipIs(e: Bytes, start: nat)
    requires AfterMarker(e) == 9 && |e| + 1 > MAX_OUTPUT_BYTES && start == |e| - (MAX_OUTPUT_BYTES - 10)
    ensures Clip(e) == e[..9] + e[SkipTails(e, start)..]
  {
    hide AfterMarker, SkipTails;
  }

  // ---------- the store ----------

  class OutputStore {
    var file: Bytes
    var lines: seq<Bytes>
    var bytes: int
    var observedBytes: nat
    var observedLines: nat
    var truncated: bool
    ghost var entries: seq<Bytes>

    /** Counters and the kept lines are determined by everything appended so far. */
    ghost predicate Valid()
      reads this
    {
      && (forall i :: 0 <= i < |entries| ==> IsEntry(entries[i]))
      && lines == Retained(entries)
      && bytes == Size(lines)
      && observedBytes == Size(entries)
      && observedLines == |entries|
      && truncated == !Fits(entries)
    }

    constructor ()
      ensures Valid() && entries == [] && file == []
    {
      file, lines, bytes, observedBytes, observedLines := [], [], 0, 0, 0;
      truncated, entries := false, [];
    }

    method AppendLine(source: Source, line: string, terminated: bool)
      requires Valid()
      modifies this
      ensures Valid()
      ensures entries == old(entries) + [Entry(source, line)]
      ensures file == old(file) + Entry(source, line) + if terminated then [0x0A] else []
    {
      hide Retained, Fits, Size, Entry, Prefix, Clip, ClipStart, IsEntry, SuffixStart;
      ghost var before := entries;
      var entry := Entry(source, line);
      file := file + entry;
      if terminated {
        file := file + [0x0A];
      }
      observedBytes := observedBytes + |entry| + 1;
      observedLines := observedLines + 1;
      bytes := bytes + |entry| + 1;
      SizeOne(entry);
      SizeConcat(lines, [entry]);
      SizeConcat(before, [entry]);
      lines := lines + [entry];
      entries := entries + [entry];
      EntryIsLong(source, line);
      var start := TrimTail();
      RetainedAfterTrim(before, source, line, start);
      truncated := observedLines > MAX_OUTPUT_LINES || observedBytes > MAX_OUTPUT_BYTES;
      FitsMeans(entries);
    }

    /** Drops lines from the front until both limits hold; a single oversized line is clipped instead. */
    method TrimTail() returns (ghost start: nat)
      requires lines != [] && bytes == Size(lines) && IsEntry(lines[|lines| - 1])
      modifies this`lines, this`bytes
      ensures bytes == Size(lines)
      ensures start < |old(lines)|
      ensures forall j :: 0 <= j < start ==> !Fits(old(lines)[j..])
      ensures if Fits(old(lines)[start..]) then lines == old(lines)[start..]
              else start == |old(lines)| - 1 && lines == [Clip(old(lines)[start])]
    {
      hide Entry, AfterMarker, Size, Fits, Clip, IsEntry;
      start := 0;
      assert lines[0..] == lines;
      while |lines| > MAX_OUTPUT_LINES || bytes > MAX_OUTPUT_BYTES
        invariant start < |old(lines)| && lines == old(lines)[start..] && bytes == Size(lines)
        invariant forall j :: 0 <= j < start ==> !Fits(old(lines)[j..])
        decreases |lines|
      {
        FitsMeans(lines);
        if |lines| == 1 {
          var line := ClipLine(lines[0]);
          lines := [line];
          bytes := |line| + 1;
          SizeOne(line);
          return;
        }
        SizeFirst(lines);
        var removed := lines[0];
        lines := lines[1..];
        bytes := bytes - (|removed| + 1);
        start := start + 1;
      }
      FitsMeans(lines);
    }

    /** Keeps the marker, and the body from the first character that lets the line fit alone. */
    method ClipLine(line: Bytes) returns (clipped: Bytes)
      ensures clipped == Clip(line)
    {
      hide AfterMarker;
      var prefixEnd := AfterMarker(line);
      var retainedBody := Max(MAX_OUTPUT_BYTES - 1 - prefixEnd, 0);
      var first := Max(Max(|line| - retainedBody, 0), prefixEnd);
      while first < |line| && IsTail(line[first])
        invariant prefixEnd <= first <= |line| && SkipTails(line, first) == ClipStart(line)
      {
        first := first + 1;
      }
      return line[..prefixEnd] + line[first..];
    }
  }

  lemma SizeFirst(entries: seq<Bytes>)
    requires entries != []
    ensures Size(entries) == |entries[0]| + 1 + Size(entries[1..])
  {
  }

  /** Before trimming, the lines are a suffix of all entries, or one clipped line and the new entry. */
  ghost function Pending(before: seq<Bytes>, entry: Bytes): seq<Bytes> {
    Retained(before) + [entry]
  }

  lemma PendingSuffix(before: seq<Bytes>, source: Source, line: string) returns (k: nat, clipped: bool)
    requires forall i :: 0 <= i < |before| ==> IsEntry(before[i])
    ensures var entry := Entry(source, line);
            var entries := before + [entry];
            if clipped then
              before != [] && |Pending(before, entry)| == 2 && Pending(before, entry)[1] == entry
              && !Fits(Pending(before, entry)) && !Fits(entries[|before| - 1..])
            else
              k <= |before| && Pending(before, entry) == entries[k..] && (k > 0 ==> !Fits(entries[k - 1..]))
  {
    hide Prefix, Clip, SuffixStart, Size, Fits, Entry, IsEntry;
    var entry := Entry(source, line);
    var entries := before + [entry];
    if before == [] {
      k, clipped := 0, false;
      assert Pending(before, entry) == entries[0..];
    } else if Fits([before[|before| - 1]]) {
      k, clipped := SuffixStart(before), false;
      SuffixStartIsLeast(before, |before|);
      assert before[k..] + [entry] == entries[k..];
      if k > 0 {
        SuffixStartIsLeast(before, k - 1);
        assert entries[k - 1..] == before[k - 1..] + [entry];
        LongerFitsLess(before[k - 1..], entry);
      }
    } else {
      k, clipped := 0, true;
      var last := before[|before| - 1];
      ClippedAndMore(last, source, line);
      assert entries[|before| - 1..] == [last] + [entry];
    }
  }

  lemma LongerFitsLess(entries: seq<Bytes>, entry: Bytes)
    ensures Fits(entries + [entry]) ==> Fits(entries)
  {
    SizeConcat(entries, [entry]);
  }

  /** After a clipped entry there is no room for another one. */
  lemma ClippedAndMore(last: Bytes, source: Source, line: string)
    requires IsEntry(last) && !Fits([last])
    ensures !Fits([Clip(last)] + [Entry(source, line)]) && !Fits([last] + [Entry(source, line)])
  {
    hide Clip, Entry;
    var entry := Entry(source, line);
    var s, t :| last == Entry(s, t);
    var _ := ClippedEntry(s, t);
    EntryIsLong(source, line);
    SizeConcat([Clip(last)], [entry]);
    SizeConcat([last], [entry]);
    SizeOne(Clip(last));
    SizeOne(entry);
    SizeOne(last);
  }

  lemma EntryIsLong(source: Source, line: string)
    ensures |Entry(source, line)| >= 9 && IsEntry(Entry(source, line))
  {
  }

  lemma RetainedAfterTrim(before: seq<Bytes>, source: Source, line: string, start: nat)
    requires forall i :: 0 <= i < |before| ==> IsEntry(before[i])
    requires start < |Pending(before, Entry(source, line))|
    requires forall j :: 0 <= j < start ==> !Fits(Pending(before, Entry(source, line))[j..])
    requires !Fits(Pending(before, Entry(source, line))[start..]) ==> start == |Pending(before, Entry(source, line))| - 1
    ensures var entry := Entry(source, line);
            var pending := Pending(before, entry);
            Retained(before + [entry]) ==
              if Fits(pending[start..]) then pending[start..] else [Clip(pending[start])]
  {
    hide *;
    var entry := Entry(source, line);
    var pending := Pending(before, entry);
    var last := |pending| - 1;
    PendingEnds(before, entry);
    RetainedOfLonger(before, entry);
    if !Fits([entry]) {
      if Fits(pending[start..]) {
        SuffixFits(pending, start, last);
      }
    } else {
      SuffixAfterTrim(before, source, line, start);
    }
  }

  lemma PendingEnds(before: seq<Bytes>, entry: Bytes)
    ensures var pending := Pending(before, entry);
            pending != [] && pending[|pending| - 1] == entry && pending[|pending| - 1..] == [entry]
  {
    hide Retained;
  }

  lemma RetainedOfLonger(before: seq<Bytes>, entry: Bytes)
    ensures var entries := before + [entry];
            Retained(entries) == if Fits([entry]) then entries[SuffixStart(entries)..] else [Clip(entry)]
  {
    hide Fits, Clip, SuffixStart;
    assert (before + [entry])[|before|] == entry;
  }

  /** When the new entry fits, what trimming leaves is the longest suffix of all entries that fits. */
  lemma SuffixAfterTrim(before: seq<Bytes>, source: Source, line: string, start: nat)
    requires forall i :: 0 <= i < |before| ==> IsEntry(before[i])
    requires start < |Pending(before, Entry(source, line))| && Fits(Pending(before, Entry(source, line))[start..])
    requires forall j :: 0 <= j < start ==> !Fits(Pending(before, Entry(source, line))[j..])
    ensures var entries := before + [Entry(source, line)];
            entries[SuffixStart(entries)..] == Pending(before, Entry(source, line))[start..]
  {
    hide *;
    var entry := Entry(source, line);
    var pending, entries := Pending(before, entry), before + [entry];
    var k, clipped := PendingSuffix(before, source, line);
    if clipped {
      SuffixOfSuffix(pending, 0, 0);
      PendingEnds(before, entry);
      assert start == 1;
      LastAlone(before, entry);
    } else {
      KeptAfterTrim(entries, k, start);
    }
  }

  lemma LastAlone(before: seq<Bytes>, entry: Bytes)
    requires before != [] && Fits([entry]) && !Fits((before + [entry])[|before| - 1..])
    ensures (before + [entry])[SuffixStart(before + [entry])..] == [entry]
  {
    hide *;
    var entries := before + [entry];
    assert entries[|before|..] == [entry];
    SuffixStartIs(entries, |before|);
  }

  lemma KeptAfterTrim(entries: seq<Bytes>, k: nat, start: nat)
    requires k + start <= |entries| && (k > 0 ==> !Fits(entries[k - 1..])) && Fits(entries[k..][start..])
    requires start > 0 ==> !Fits(entries[k..][start - 1..])
    ensures entries[SuffixStart(entries)..] == entries[k..][start..]
  {
    hide *;
    SuffixOfSuffix(entries, k, start);
    if start > 0 {
      SuffixOfSuffix(entries, k, start - 1);
    }
    SuffixStartIs(entries, k + start);
  }

  lemma SuffixOfSuffix(entries: seq<Bytes>, k: nat, n: nat)
    requires k + n <= |entries|
    ensures entries[k..][n..] == entries[k + n..] && entries[0..] == entries
  {
  }

  /** The flag shown to the user says exactly whether something appended is no longer in the tail. */
  lemma TruncatedMeansDropped(entries: seq<Bytes>)
    requires forall i :: 0 <= i < |entries| ==> IsEntry(entries[i])
    ensures Retained(entries) == entries <==> |entries| <= 2000 && Size(entries) <= 51200
    ensures Fits(Retained(entries))
  {
    assert entries[0..] == entries;
    if entries != [] {
      var last := entries[|entries| - 1];
      assert entries[|entries| - 1..] == [last];
      if !Fits([last]) {
        var s, t :| last == Entry(s, t);
        var _ := ClippedEntry(s, t);
        SizeOne(Clip(last));
        if Fits(entries) {
          SuffixFits(entries, 0, |entries| - 1);
        }
      } else {
        SuffixStartIsLeast(entries, 0);
      }
    }
  }

  // ---------- reading a stream ----------

  /** What a line is labelled with: `[stdout] ` or `[stderr] `. */
  function Label(source: Source): string {
    if source == Stdout then "[stdout] " else "[stderr] "
  }

  function Labels(source: Source, lines: seq<Line>): (labelled: seq<Line>)
    ensures |labelled| == |lines|
  {
    seq(|lines|, i requires 0 <= i < |lines| => Line(Label(source) + lines[i].text, lines[i].terminated))
  }

  lemma EntryIsText(source: Source, text: string)
    ensures Entry(source, text) == Encode(Label(source) + text)
  {
    hide Entry, Prefix;
    assert Entry(source, text) == Prefix(source) + Encode(text) by {
      EntryUnfolds(source, text);
    }
    EncodeConcat(Label(source), text);
    PrefixIsLabel(source);
  }

  lemma EntryUnfolds(source: Source, text: string)
    ensures Entry(source, text) == Prefix(source) + Encode(text)
  {
  }

  lemma PrefixIsLabel(source: Source)
    ensures Prefix(source) == Encode(Label(source))
  {
    hide Encode;
    EncodeAscii(Label(source));
  }

  lemma {:induction false} EncodeAscii(s: string)
    requires forall i :: 0 <= i < |s| ==> s[i] < '\U{80}'
    ensures |Encode(s)| == |s| && forall i :: 0 <= i < |s| ==> Encode(s)[i] == s[i] as int
  {
    if s != "" {
      EncodeAscii(s[1..]);
      assert EncodeScalar(s[0]) == [s[0] as int];
    }
  }

  /** Each entry is the label and the text of one line in UTF-8, and the log is the labelled lines put together. */
  lemma {:induction false} EntriesAreLabelledLines(source: Source, lines: seq<Line>)
    ensures |EntriesOf(source, lines)| == |lines|
    ensures forall i :: 0 <= i < |lines| ==> EntriesOf(source, lines)[i] == Encode(Label(source) + lines[i].text)
    ensures LogOf(source, lines) == Encode(Rejoin(Labels(source, lines)))
  {
    hide EntriesOf, LogOf, Entry, Encode, Label;
    if lines == [] {
      NoLinesYet(source, "");
      NothingEncodes();
    } else {
      FirstEntry(source, lines);
      EntriesAreLabelledLines(source, lines[1..]);
      EntryIsText(source, lines[0].text);
      assert Labels(source, lines)[1..] == Labels(source, lines[1..]);
      var first := Label(source) + lines[0].text;
      var ending := if lines[0].terminated then "\n" else "";
      EncodeConcat(first + ending, Rejoin(Labels(source, lines[1..])));
      EncodeConcat(first, ending);
      NothingEncodes();
    }
  }

  lemma NothingEncodes()
    ensures Encode("") == [] && Encode("\n") == [0x0A] && Rejoin([]) == ""
  {
  }

  function EntriesOf(source: Source, lines: seq<Line>): seq<Bytes> {
    if lines == [] then [] else [Entry(source, lines[0].text)] + EntriesOf(source, lines[1..])
  }

  function LogOf(source: Source, lines: seq<Line>): Bytes {
    if lines == [] then []
    else Entry(source, lines[0].text) + (if lines[0].terminated then [0x0A] else []) + LogOf(source, lines[1..])
  }

  lemma OneEntry(source: Source, line: Line)
    ensures EntriesOf(source, [line]) == [Entry(source, line.text)]
    ensures LogOf(source, [line]) == Entry(source, line.text) + if line.terminated then [0x0A] else []
  {
    hide Entry;
    assert [line][1..] == [];
  }

  lemma {:induction false} EntriesConcat(source: Source, a: seq<Line>, b: seq<Line>)
    ensures EntriesOf(source, a + b) == EntriesOf(source, a) + EntriesOf(source, b)
    ensures LogOf(source, a + b) == LogOf(source, a) + LogOf(source, b)
  {
    hide EntriesOf, LogOf, Entry;
    if a == [] {
      assert a + b == b;
      NoEntries(source);
      assert [] + EntriesOf(source, b) == EntriesOf(source, b) && [] + LogOf(source, b) == LogOf(source, b);
    } else {
      assert (a + b)[1..] == a[1..] + b && (a + b)[0] == a[0];
      EntriesConcat(source, a[1..], b);
      FirstEntry(source, a);
      FirstEntry(source, a + b);
      var entry := [Entry(source, a[0].text)];
      var logged := Entry(source, a[0].text) + if a[0].terminated then [0x0A] else [];
      assert entry + (EntriesOf(source, a[1..]) + EntriesOf(source, b)) == entry + EntriesOf(source, a[1..]) + EntriesOf(source, b);
      assert logged + (LogOf(source, a[1..]) + LogOf(source, b)) == logged + LogOf(source, a[1..]) + LogOf(source, b);
    }
  }

  lemma NoEntries(source: Source)
    ensures EntriesOf(source, []) == [] && LogOf(source, []) == []
  {
  }

  lemma FirstEntry(source: Source, lines: seq<Line>)
    requires lines != []
    ensures EntriesOf(source, lines) == [Entry(source, lines[0].text)] + EntriesOf(source, lines[1..])
    ensures LogOf(source, lines) ==
      (Entry(source, lines[0].text) + if lines[0].terminated then [0x0A] else []) + LogOf(source, lines[1..])
  {
    hide Entry;
  }

  lemma NoLinesYet(source: Source, text: string)
    ensures EntriesOf(source, []) == [] && LogOf(source, []) == [] && [] + Terminated(text) == Terminated(text)
  {
  }

  function Flatten(chunks: seq<Bytes>): Bytes {
    if chunks == [] then [] else Flatten(chunks[..|chunks| - 1]) + chunks[|chunks| - 1]
  }

  class StreamCarry {
    var bytes: Bytes
    var text: string

    constructor ()
      ensures bytes == [] && text == ""
    {
      bytes, text := [], "";
    }

    /** Decodes all complete sequences and keeps the unfinished one. */
    method DecodeAvailable()
      modifies this
      ensures text == old(text) + Settle(old(bytes)).text
      ensures bytes == Settle(old(bytes)).rest
    {
      hide *;
      while true
        invariant text + Settle(bytes).text == old(text) + Settle(old(bytes)).text
        invariant Settle(bytes).rest == Settle(old(bytes)).rest
        decreases |bytes|
      {
        DecodeRound(bytes);
        match Validate(bytes)
        case Valid =>
          text := text + Decode(bytes);
          bytes := [];
          return;
        case Invalid(validUpTo, errorLength) =>
          text := text + Decode(bytes[..validUpTo]);
          match errorLength
          case Some(length) =>
            text := text + [REPLACEMENT];
            bytes := bytes[validUpTo + length..];
          case None =>
            bytes := bytes[validUpTo..];
            return;
      }
    }

    /** Publishes every complete line, and at the end of the stream the last unterminated one. */
    method PublishLines(source: Source, store: OutputStore, eof: bool) returns (ghost published: seq<Line>)
      requires store.Valid()
      modifies this`text, store
      ensures store.Valid()
      ensures published == if eof then SplitLines(old(text)) else Terminated(old(text))
      ensures text == if eof then "" else Remainder(old(text))
      ensures store.entries == old(store.entries) + EntriesOf(source, published)
      ensures store.file == old(store.file) + LogOf(source, published)
    {
      hide *;
      published := [];
      NoLinesYet(source, text);
      var newline := NewlineAt(text);
      while newline < |text|
        invariant store.Valid() && newline == NewlineAt(text)
        invariant published + Terminated(text) == Terminated(old(text))
        invariant Remainder(text) == Remainder(old(text))
        invariant store.entries == old(store.entries) + EntriesOf(source, published)
        invariant store.file == old(store.file) + LogOf(source, published)
        decreases |text|
      {
        StepTerminated(text, newline);
        var line := WithoutTrailingReturns(text[..newline]);
        text := text[newline + 1..];
        store.AppendLine(source, line, true);
        OneEntry(source, Line(line, true));
        EntriesConcat(source, published, [Line(line, true)]);
        published := published + [Line(line, true)];
        newline := NewlineAt(text);
      }
      NoNewlineNoLines(text);
      SplitMeans(old(text));
      if eof && text != "" {
        var line := text;
        text := "";
        store.AppendLine(source, line, false);
        OneEntry(source, Line(line, false));
        EntriesConcat(source, published, [Line(line, false)]);
        published := published + [Line(line, false)];
      }
    }
  }

  /**
    Reads a stream to its end. However the bytes are cut into reads, what is logged and kept is the
    one-shot lossy decoding of the whole stream, split into lines.
   */
  method ReadOutput(chunks: seq<Bytes>, source: Source, store: OutputStore)
    requires store.Valid()
    modifies store
    ensures store.Valid()
    ensures store.entries == old(store.entries) + EntriesOf(source, SplitLines(Lossy(Flatten(chunks))))
    ensures store.file == old(store.file) + LogOf(source, SplitLines(Lossy(Flatten(chunks))))
  {
    hide *;
    var carry := new StreamCarry();
    ghost var decoded, lines := "", [];
    ghost var published;
    NothingRead(source);
    assert chunks[..0] == [];
    for i := 0 to |chunks|
      invariant store.Valid() && fresh(carry)
      invariant decoded == Settle(Flatten(chunks[..i])).text && carry.bytes == Settle(Flatten(chunks[..i])).rest
      invariant lines == Terminated(decoded) && carry.text == Remainder(decoded)
      invariant store.entries == old(store.entries) + EntriesOf(source, lines)
      invariant store.file == old(store.file) + LogOf(source, lines)
    {
      ghost var arrived := Flatten(chunks[..i]);
      OneMoreChunk(chunks, i);
      SettleInTwoSteps(arrived, chunks[i]);
      carry.bytes := carry.bytes + chunks[i];
      ghost var piece := Settle(carry.bytes).text;
      carry.DecodeAvailable();
      LinesContinue(decoded, piece);
      published := carry.PublishLines(source, store, false);
      EntriesConcat(source, lines, published);
      decoded, lines := decoded + piece, lines + published;
    }
    assert chunks[..|chunks|] == chunks;
    ghost var flush := Lossy(carry.bytes);
    FlushCompletes(Flatten(chunks));
    if carry.bytes != [] {
      carry.text := carry.text + [REPLACEMENT];
      carry.bytes := [];
    }
    assert carry.text == Remainder(decoded) + flush;
    LinesComplete(decoded, flush);
    published := carry.PublishLines(source, store, true);
    EntriesConcat(source, lines, published);
  }

  lemma NothingRead(source: Source)
    ensures Settle(Flatten([])) == Settled("", []) && Terminated("") == [] && Remainder("") == ""
    ensures EntriesOf(source, []) == [] && LogOf(source, []) == []
  {
  }

  lemma OneMoreChunk(chunks: seq<Bytes>, i: nat)
    requires i < |chunks|
    ensures Flatten(chunks[..i + 1]) == Flatten(chunks[..i]) + chunks[i]
  {
    assert chunks[..i + 1][..i] == chunks[..i];
  }

  /** The end-of-stream flush turns what the incremental decoder kept back into the missing text. */
  lemma FlushCompletes(s: Bytes)
    ensures Lossy(s) == Settle(s).text + Lossy(Settle(s).rest)
    ensures Lossy(Settle(s).rest) == if Settle(s).rest == [] then "" else [REPLACEMENT]
  {
    hide ScanHead, ScalarOf, MaximalSubpart, WellFormedPrefix;
    SettleThenContinue(s, []);
    assert s + [] == s && Settle(s).rest + [] == Settle(s).rest;
    if Settle(s).rest != [] {
      UnfinishedIsOneReplacement(Settle(s).rest);
    }
  }

  /** Settling a first piece and then its rest with a second piece settles both at once. */
  lemma {:induction false} SettleInTwoSteps(a: Bytes, b: Bytes)
    ensures Settle(a + b).text == Settle(a).text + Settle(Settle(a).rest + b).text
    ensures Settle(a + b).rest == Settle(Settle(a).rest + b).rest
    decreases |a|
  {
    hide ScanHead, ScalarOf;
    if a == [] {
      assert a + b == b;
    } else if !ScanHead(a).Unfinished? {
      var n := ScanHead(a).length;
      ScanIsStable(a, b);
      assert (a + b)[..n] == a[..n] && (a + b)[n..] == a[n..] + b;
      SettleInTwoSteps(a[n..], b);
    }
  }
}
