/**
  UTF-8 as section 4 of RFC 3629 defines it, lossy decoding with one replacement character for each
  maximal subpart (section 3.9 of the Unicode Standard), and the left-to-right scan that a decoder runs.
 */
module Utf8 {
  import opened Prelude

  type Bytes = seq<byte>

  const REPLACEMENT: char := '\U{FFFD}'

  // ---------- the grammar ----------

  predicate IsTail(b: byte) {
    0x80 <= b <= 0xBF
  }

  /** `w` is the encoding of exactly one scalar value. */
  predicate WellFormed(w: Bytes) {
    || (|w| == 1 && w[0] <= 0x7F)
    || (|w| == 2 && 0xC2 <= w[0] <= 0xDF && IsTail(w[1]))
    || (|w| == 3 && IsTail(w[2])
        && (|| (w[0] == 0xE0 && 0xA0 <= w[1] <= 0xBF)
            || (0xE1 <= w[0] <= 0xEC && IsTail(w[1]))
            || (w[0] == 0xED && 0x80 <= w[1] <= 0x9F)
            || (0xEE <= w[0] <= 0xEF && IsTail(w[1]))))
    || (|w| == 4 && IsTail(w[2]) && IsTail(w[3])
        && (|| (w[0] == 0xF0 && 0x90 <= w[1] <= 0xBF)
            || (0xF1 <= w[0] <= 0xF3 && IsTail(w[1]))
            || (w[0] == 0xF4 && 0x80 <= w[1] <= 0x8F)))
  }

  /** The scalar value that a well-formed sequence encodes. */
  function ScalarOf(w: Bytes): char {
    if !WellFormed(w) then REPLACEMENT
    else
      var b0: int := w[0];
      if |w| == 1 then b0 as char
      else
        var b1: int := w[1];
        if |w| == 2 then (0x40 * (b0 - 0xC0) + (b1 - 0x80)) as char
        else
          var b2: int := w[2];
          if |w| == 3 then (0x40 * (0x40 * (b0 - 0xE0) + (b1 - 0x80)) + (b2 - 0x80)) as char
          else
            var b3: int := w[3];
            (0x40 * (0x40 * (0x40 * (b0 - 0xF0) + (b1 - 0x80)) + (b2 - 0x80)) + (b3 - 0x80)) as char
  }

  /** `s` is an initial subsequence of some well-formed sequence. */
  ghost predicate Initial(s: Bytes) {
    exists w: Bytes :: WellFormed(w) && s <= w
  }

  // ---------- lossy decoding ----------

  /** Length of the well-formed sequence that `s` starts with, or zero. */
  function WellFormedPrefix(s: Bytes): (n: nat)
    ensures n <= |s| && (n > 0 ==> WellFormed(s[..n]))
  {
    if |s| >= 1 && WellFormed(s[..1]) then 1
    else if |s| >= 2 && WellFormed(s[..2]) then 2
    else if |s| >= 3 && WellFormed(s[..3]) then 3
    else if |s| >= 4 && WellFormed(s[..4]) then 4
    else 0
  }

  /** Length of the maximal subpart at the start of an ill-formed `s`: never less than one byte. */
  ghost function MaximalSubpart(s: Bytes): (n: nat)
    requires s != []
    ensures 1 <= n <= |s|
  {
    if |s| >= 3 && Initial(s[..3]) then 3
    else if |s| >= 2 && Initial(s[..2]) then 2
    else 1
  }

  ghost function Lossy(s: Bytes): string
    decreases |s|
  {
    if s == [] then ""
    else if WellFormedPrefix(s) > 0 then
      [ScalarOf(s[..WellFormedPrefix(s)])] + Lossy(s[WellFormedPrefix(s)..])
    else [REPLACEMENT] + Lossy(s[MaximalSubpart(s)..])
  }

  // ---------- the scan ----------

  /** What a left-to-right scan finds at the start of a nonempty input. */
  datatype Head = Scalar(length: nat) | Malformed(length: nat) | Unfinished

  function Width(first: byte): nat {
    if first <= 0x7F then 1
    else if 0xC2 <= first <= 0xDF then 2
    else if 0xE0 <= first <= 0xEF then 3
    else if 0xF0 <= first <= 0xF4 then 4
    else 0
  }

  predicate SecondAllowed(first: byte, second: byte) {
    if first == 0xE0 then 0xA0 <= second <= 0xBF
    else if first == 0xED then 0x80 <= second <= 0x9F
    else if first == 0xF0 then 0x90 <= second <= 0xBF
    else if first == 0xF4 then 0x80 <= second <= 0x8F
    else IsTail(second)
  }

  function ScanHead(s: Bytes): (head: Head)
    requires s != []
    ensures head.Scalar? ==> 1 <= head.length <= |s|
    ensures head.Malformed? ==> 1 <= head.length <= |s| && head.length <= 3
    ensures head.Unfinished? ==> |s| <= 3
  {
    var width := Width(s[0]);
    if width == 0 then Malformed(1)
    else if width == 1 then Scalar(1)
    else if |s| == 1 then Unfinished
    else if !SecondAllowed(s[0], s[1]) then Malformed(1)
    else if width == 2 then Scalar(2)
    else if |s| == 2 then Unfinished
    else if !IsTail(s[2]) then Malformed(2)
    else if width == 3 then Scalar(3)
    else if |s| == 3 then Unfinished
    else if !IsTail(s[3]) then Malformed(3)
    else Scalar(4)
  }

  lemma InitialOne(s: Bytes)
    requires |s| == 1 && Width(s[0]) > 0
    ensures Initial(s)
  {
    var second := if s[0] == 0xE0 then 0xA0 else if s[0] == 0xF0 then 0x90 else 0x80;
    var w: Bytes := [s[0], second, 0x80, 0x80][..Width(s[0])];
    assert WellFormed(w) && s <= w;
  }

  lemma InitialTwo(s: Bytes)
    requires |s| == 2
    ensures Initial(s) <==> Width(s[0]) >= 2 && SecondAllowed(s[0], s[1])
  {
    if Width(s[0]) >= 2 && SecondAllowed(s[0], s[1]) {
      var w: Bytes := (s + [0x80, 0x80])[..Width(s[0])];
      assert WellFormed(w) && s <= w;
    }
    if Initial(s) {
      var w: Bytes :| WellFormed(w) && s <= w;
      assert w[0] == s[0] && w[1] == s[1];
    }
  }

  lemma InitialThree(s: Bytes)
    requires |s| == 3
    ensures Initial(s) <==> Width(s[0]) >= 3 && SecondAllowed(s[0], s[1]) && IsTail(s[2])
  {
    if Width(s[0]) >= 3 && SecondAllowed(s[0], s[1]) && IsTail(s[2]) {
      var w: Bytes := (s + [0x80])[..Width(s[0])];
      assert WellFormed(w) && s <= w;
    }
    if Initial(s) {
      var w: Bytes :| WellFormed(w) && s <= w;
      assert w[0] == s[0] && w[1] == s[1] && w[2] == s[2];
    }
  }

  /** The scan agrees with the grammar: what it accepts is well formed, what it rejects is a maximal subpart. */
  lemma ScanMeetsGrammar(s: Bytes)
    requires s != []
    ensures ScanHead(s).Scalar? <==> WellFormedPrefix(s) > 0
    ensures ScanHead(s).Scalar? ==> ScanHead(s).length == WellFormedPrefix(s)
    ensures ScanHead(s).Malformed? ==> ScanHead(s).length == MaximalSubpart(s)
    ensures ScanHead(s).Unfinished? <==> WellFormedPrefix(s) == 0 && Initial(s)
    ensures ScanHead(s).Unfinished? ==> MaximalSubpart(s) == |s|
  {
    if |s| >= 2 {
      InitialTwo(s[..2]);
    }
    if |s| >= 3 {
      InitialThree(s[..3]);
    }
    if Width(s[0]) > 0 {
      InitialOne(s[..1]);
    }
    assert s[..|s|] == s;
    if Initial(s) {
      var w: Bytes :| WellFormed(w) && s <= w;
      if |s| == |w| {
        assert s == w;
      }
      assert forall i :: 0 <= i < |s| ==> s[i] == w[i];
    }
  }

  lemma ScanIsStable(s: Bytes, more: Bytes)
    requires s != [] && !ScanHead(s).Unfinished?
    ensures ScanHead(s + more) == ScanHead(s)
  {
  }

  // ---------- incremental decoding ----------

  datatype Settled = Settled(text: string, rest: Bytes)

  /** Everything that can be decoded before more input arrives, and the unfinished bytes kept for later. */
  function Settle(s: Bytes): (r: Settled)
    ensures r.rest != [] ==> ScanHead(r.rest).Unfinished?
    decreases |s|
  {
    if s == [] then Settled("", [])
    else match ScanHead(s)
      case Scalar(n) =>
        var later := Settle(s[n..]);
        Settled([ScalarOf(s[..n])] + later.text, later.rest)
      case Malformed(n) =>
        var later := Settle(s[n..]);
        Settled([REPLACEMENT] + later.text, later.rest)
      case Unfinished => Settled("", s)
  }

  /** The one-shot decoding that the scan computes. */
  function ScanAll(s: Bytes): string
    decreases |s|
  {
    if s == [] then ""
    else match ScanHead(s)
      case Scalar(n) => [ScalarOf(s[..n])] + ScanAll(s[n..])
      case Malformed(n) => [REPLACEMENT] + ScanAll(s[n..])
      case Unfinished => [REPLACEMENT]
  }

  lemma {:induction false} ScanAllIsLossy(s: Bytes)
    ensures ScanAll(s) == Lossy(s)
    decreases |s|
  {
    if s != [] {
      ScanMeetsGrammar(s);
      match ScanHead(s)
      case Scalar(n) => ScanAllIsLossy(s[n..]);
      case Malformed(n) => ScanAllIsLossy(s[n..]);
      case Unfinished => assert s[|s|..] == [];
    }
  }

  lemma {:induction false} ScanThenContinue(s: Bytes, more: Bytes)
    ensures ScanAll(s + more) == Settle(s).text + ScanAll(Settle(s).rest + more)
    decreases |s|
  {
    hide ScanHead, ScalarOf, WellFormed;
    if s == [] {
      assert s + more == more && [] + more == more;
    } else if !ScanHead(s).Unfinished? {
      var n := ScanHead(s).length;
      ScanIsStable(s, more);
      assert (s + more)[..n] == s[..n] && (s + more)[n..] == s[n..] + more;
      ScanThenContinue(s[n..], more);
      var first := if ScanHead(s).Scalar? then [ScalarOf(s[..n])] else [REPLACEMENT];
      var later := Settle(s[n..]);
      calc {
        ScanAll(s + more);
        first + ScanAll(s[n..] + more);
        first + (later.text + ScanAll(later.rest + more));
        (first + later.text) + ScanAll(later.rest + more);
        Settle(s).text + ScanAll(Settle(s).rest + more);
      }
    }
  }

  /** Decoding what is settled first and the rest together with later input gives the one-shot decoding. */
  lemma SettleThenContinue(s: Bytes, more: Bytes)
    ensures Lossy(s + more) == Settle(s).text + Lossy(Settle(s).rest + more)
  {
    ScanThenContinue(s, more);
    ScanAllIsLossy(s + more);
    ScanAllIsLossy(Settle(s).rest + more);
  }

  /** At the end of the stream the unfinished bytes become one replacement character. */
  lemma UnfinishedIsOneReplacement(rest: Bytes)
    requires rest != [] && ScanHead(rest).Unfinished?
    ensures Lossy(rest) == [REPLACEMENT]
  {
    ScanMeetsGrammar(rest);
    assert rest[|rest|..] == [];
  }

  // ---------- validation as the standard library reports it ----------

  datatype Validity = Valid | Invalid(validUpTo: nat, errorLength: Option<nat>)

  /** Where validation stops, and whether the stop is an error or only missing input. */
  function Validate(s: Bytes): (v: Validity)
    ensures v.Invalid? ==> v.validUpTo < |s|
    ensures v.Invalid? && v.errorLength.Some? ==> 1 <= v.errorLength.value <= |s| - v.validUpTo
    decreases |s|
  {
    if s == [] then Valid
    else match ScanHead(s)
      case Malformed(n) => Invalid(0, Some(n))
      case Unfinished => Invalid(0, None)
      case Scalar(n) =>
        match Validate(s[n..])
        case Valid => Valid
        case Invalid(k, length) => Invalid(n + k, length)
  }

  /** Text of the longest run of well-formed sequences at the start of `s`. */
  function Decode(s: Bytes): string
    decreases |s|
  {
    if s == [] || !ScanHead(s).Scalar? then ""
    else
      [ScalarOf(s[..ScanHead(s).length])] + Decode(s[ScanHead(s).length..])
  }

  function ValidLength(s: Bytes): (n: nat)
    ensures n <= |s|
  {
    if Validate(s).Valid? then |s| else Validate(s).validUpTo
  }

  lemma ValidLengthAfter(s: Bytes)
    requires s != [] && ScanHead(s).Scalar?
    ensures var k := ScanHead(s).length; ValidLength(s) == k + ValidLength(s[k..])
  {
    hide ScanHead;
  }

  /** A scalar is found by its own bytes alone, whatever follows them. */
  lemma ScalarIsLocal(s: Bytes, n: nat)
    requires s != [] && ScanHead(s).Scalar? && ScanHead(s).length <= n <= |s|
    ensures n > 0 && ScanHead(s[..n]) == ScanHead(s)
  {
  }

  lemma {:induction false} ValidPrefixDecodes(s: Bytes)
    ensures Decode(s[..ValidLength(s)]) == Decode(s)
    decreases |s|
  {
    hide ScalarOf, WellFormed, ScanHead, ValidLength;
    var n := ValidLength(s);
    if s != [] && ScanHead(s).Scalar? {
      var k := ScanHead(s).length;
      var p := s[..n];
      ValidLengthAfter(s);
      ScalarIsLocal(s, n);
      ValidPrefixDecodes(s[k..]);
      assert p[..k] == s[..k] && p[k..] == s[k..][..n - k];
      calc {
        Decode(p);
        [ScalarOf(p[..k])] + Decode(p[k..]);
        [ScalarOf(s[..k])] + Decode(s[k..]);
        Decode(s);
      }
    } else {
      NothingValid(s);
    }
  }

  lemma NothingValid(s: Bytes)
    requires s == [] || !ScanHead(s).Scalar?
    ensures ValidLength(s) == 0 && s[..0] == []
    ensures Decode(s) == "" && Decode([]) == ""
  {
    hide ScanHead;
  }

  /** Text up to the point where validation stops is settled, and decoding continues from there. */
  lemma {:induction false} ValidPrefixSettles(s: Bytes)
    ensures Settle(s).text == Decode(s) + Settle(s[ValidLength(s)..]).text
    ensures Settle(s).rest == Settle(s[ValidLength(s)..]).rest
    decreases |s|
  {
    hide ScalarOf, WellFormed, ScanHead, ValidLength;
    var n := ValidLength(s);
    if s != [] && ScanHead(s).Scalar? {
      var k := ScanHead(s).length;
      var t := s[k..];
      ValidPrefixSettles(t);
      ValidLengthAfter(s);
      assert t[n - k..] == s[n..];
      calc {
        Settle(s).text;
        [ScalarOf(s[..k])] + Settle(t).text;
        [ScalarOf(s[..k])] + (Decode(t) + Settle(s[n..]).text);
        ([ScalarOf(s[..k])] + Decode(t)) + Settle(s[n..]).text;
        Decode(s) + Settle(s[n..]).text;
      }
    } else {
      NothingValid(s);
      assert s[0..] == s && "" + Settle(s).text == Settle(s).text;
    }
  }

  lemma {:induction false} ScanStopsWhereValidationStops(s: Bytes)
    requires Validate(s).Invalid?
    ensures ScanHead(s[ValidLength(s)..]) ==
      if Validate(s).errorLength.Some? then Malformed(Validate(s).errorLength.value) else Unfinished
    decreases |s|
  {
    if ScanHead(s).Scalar? {
      var k := ScanHead(s).length;
      ScanStopsWhereValidationStops(s[k..]);
      assert s[k..][ValidLength(s) - k..] == s[ValidLength(s)..];
    } else {
      assert s[0..] == s;
    }
  }

  /** One round of the incremental decoder: how each outcome of validation advances it. */
  lemma DecodeRound(s: Bytes)
    ensures Validate(s).Valid? ==> Settle(s) == Settled(Decode(s), [])
    ensures Validate(s).Invalid? && Validate(s).errorLength == None ==>
      Settle(s) == Settled(Decode(s[..Validate(s).validUpTo]), s[Validate(s).validUpTo..])
    ensures Validate(s).Invalid? && Validate(s).errorLength.Some? ==>
      var v := Validate(s).validUpTo;
      var later := Settle(s[v + Validate(s).errorLength.value..]);
      Settle(s) == Settled(Decode(s[..v]) + [REPLACEMENT] + later.text, later.rest)
  {
    hide ScanHead, Decode, Validate, ScalarOf;
    ValidPrefixSettles(s);
    ValidPrefixDecodes(s);
    if Validate(s).Invalid? {
      ScanStopsWhereValidationStops(s);
      var v := Validate(s).validUpTo;
      if Validate(s).errorLength.Some? {
        var n := Validate(s).errorLength.value;
        assert s[v..][n..] == s[v + n..];
      }
    } else {
      assert s[|s|..] == [];
    }
  }

  // ---------- encoding ----------

  function EncodeScalar(c: char): (w: Bytes)
    ensures 1 <= |w| <= 4
  {
    var v := c as int;
    if v < 0x80 then [v]
    else
      var r1 := v / 0x40;
      if v < 0x800 then [0xC0 + r1, 0x80 + v % 0x40]
      else
        var r2 := r1 / 0x40;
        if v < 0x1_0000 then [0xE0 + r2, 0x80 + r1 % 0x40, 0x80 + v % 0x40]
        else [0xF0 + r2 / 0x40, 0x80 + r2 % 0x40, 0x80 + r1 % 0x40, 0x80 + v % 0x40]
  }

  lemma ShortScalar(c: char)
    requires c as int < 0x800
    ensures WellFormed(EncodeScalar(c)) && ScalarOf(EncodeScalar(c)) == c
  {
    var v := c as int;
    assert v == 0x40 * (v / 0x40) + v % 0x40;
  }

  lemma ThreeByteScalar(c: char)
    requires 0x800 <= c as int < 0x1_0000
    ensures WellFormed(EncodeScalar(c)) && ScalarOf(EncodeScalar(c)) == c
  {
    var v := c as int;
    var r1 := v / 0x40;
    assert v == 0x40 * r1 + v % 0x40 && r1 == 0x40 * (r1 / 0x40) + r1 % 0x40;
  }

  lemma FourByteScalar(c: char)
    requires 0x1_0000 <= c as int
    ensures WellFormed(EncodeScalar(c)) && ScalarOf(EncodeScalar(c)) == c
  {
    var v := c as int;
    var r1 := v / 0x40;
    var r2 := r1 / 0x40;
    assert v == 0x40 * r1 + v % 0x40 && r1 == 0x40 * r2 + r1 % 0x40 && r2 == 0x40 * (r2 / 0x40) + r2 % 0x40;
  }

  /** Only the first byte of a well-formed sequence is not a tail. */
  lemma TailsFollow(w: Bytes)
    requires WellFormed(w)
    ensures 1 <= |w| <= 4 && !IsTail(w[0]) && forall i :: 1 <= i < |w| ==> IsTail(w[i])
  {
  }

  /** Each scalar value has a well-formed encoding that decodes to it; only its first byte is not a tail. */
  lemma EncodedScalar(c: char)
    ensures WellFormed(EncodeScalar(c)) && ScalarOf(EncodeScalar(c)) == c
    ensures !IsTail(EncodeScalar(c)[0])
    ensures forall i :: 1 <= i < |EncodeScalar(c)| ==> IsTail(EncodeScalar(c)[i])
  {
    hide WellFormed, ScalarOf, EncodeScalar, IsTail;
    if c as int < 0x800 {
      ShortScalar(c);
    } else if c as int < 0x1_0000 {
      ThreeByteScalar(c);
    } else {
      FourByteScalar(c);
    }
    TailsFollow(EncodeScalar(c));
  }

  function Encode(text: string): Bytes {
    if text == "" then [] else EncodeScalar(text[0]) + Encode(text[1..])
  }

  /** Decoding an encoded text gives the text back. */
  lemma {:induction false} LossyInvertsEncode(text: string)
    ensures Lossy(Encode(text)) == text
  {
    hide EncodeScalar, WellFormed, ScalarOf, WellFormedPrefix, MaximalSubpart;
    if text != "" {
      var w, rest := EncodeScalar(text[0]), Encode(text[1..]);
      EncodedScalar(text[0]);
      LossyInvertsEncode(text[1..]);
      PrefixIsFound(w, rest);
      assert (w + rest)[..|w|] == w && (w + rest)[|w|..] == rest;
      assert text == [text[0]] + text[1..];
    }
  }

  lemma PrefixIsFound(w: Bytes, rest: Bytes)
    requires WellFormed(w)
    ensures w != [] && WellFormedPrefix(w + rest) == |w|
  {
    hide WellFormed, WellFormedPrefix, MaximalSubpart, ScanHead;
    TailsFollow(w);
    WholePrefix(w);
    ScanMeetsGrammar(w);
    ScanIsStable(w, rest);
    ScanMeetsGrammar(w + rest);
  }

  lemma WholePrefix(w: Bytes)
    requires WellFormed(w)
    ensures WellFormedPrefix(w) == |w|
  {
    assert w[..|w|] == w;
  }

  lemma {:induction false} EncodeConcat(a: string, b: string)
    ensures Encode(a + b) == Encode(a) + Encode(b)
  {
    if a == "" {
      assert a + b == b;
    } else {
      assert (a + b)[1..] == a[1..] + b;
      EncodeConcat(a[1..], b);
    }
  }

  /** From any byte of an encoded text, a character boundary is at most three bytes ahead. */
  lemma {:induction false} BoundaryAhead(text: string, p: nat) returns (q: nat, k: nat)
    requires p <= |Encode(text)|
    ensures p <= q <= p + 3 && q <= |Encode(text)| && k <= |text|
    ensures Encode(text)[q..] == Encode(text[k..])
    ensures forall i :: p <= i < q ==> IsTail(Encode(text)[i])
    ensures q < |Encode(text)| ==> !IsTail(Encode(text)[q])
  {
    hide EncodeScalar, Encode, IsTail;
    if text == "" {
      q, k := 0, 0;
      EncodeNothing();
    } else {
      var w, rest := EncodeScalar(text[0]), Encode(text[1..]);
      EncodeFirst(text);
      if p == 0 {
        q, k := 0, 0;
        assert text[0..] == text && Encode(text)[0..] == Encode(text);
      } else if p >= |w| {
        q, k := BoundaryAhead(text[1..], p - |w|);
        assert (w + rest)[q + |w|..] == rest[q..];
        assert text[1..][k..] == text[k + 1..];
        assert forall i :: p <= i < q + |w| ==> (w + rest)[i] == rest[i - |w|];
        assert q < |rest| ==> (w + rest)[q + |w|] == rest[q];
        q, k := q + |w|, k + 1;
      } else {
        q, k := |w|, 1;
        assert (w + rest)[q..] == rest;
        if |text| > 1 {
          EncodeFirst(text[1..]);
          assert rest[0] == (w + rest)[q];
        } else {
          EncodeNothing();
          assert text[1..] == "";
        }
      }
    }
  }

  lemma EncodeNothing()
    ensures Encode("") == []
  {
  }

  lemma EncodeFirst(text: string)
    requires text != ""
    ensures var w := EncodeScalar(text[0]);
            && Encode(text) == w + Encode(text[1..])
            && 1 <= |w| <= 4 && !IsTail(w[0]) && !IsTail(Encode(text)[0])
            && forall i :: 1 <= i < |w| ==> IsTail(w[i])
  {
    hide EncodeScalar;
    EncodedScalar(text[0]);
  }
}
