/** What the clean-up of titles does to a text, piece by piece: sequences, words, surroundings, lines and cuts. */
module TitleTexts {
  import opened Prelude
  import opened Titles

  // ---------- terminal controls ----------

  /** Text without controls is kept, whatever follows it. */
  lemma {:induction false} PlainTextIsKept(a: string, b: string, preserve: bool)
    requires NoControls(a)
    ensures StripControls(a + b, preserve) == a + StripControls(b, preserve)
  {
    if a == "" {
      assert a + b == b;
    } else {
      assert (a + b)[1..] == a[1..] + b && (a + b)[0] == a[0];
      assert !IsControl(a[0]);
      PlainTextIsKept(a[1..], b, preserve);
      assert [a[0]] + (a[1..] + StripControls(b, preserve)) == a + StripControls(b, preserve);
    }
  }

  /** A control that introduces no sequence is dropped, unless it is whitespace to be preserved. */
  lemma LoneControlIsDropped(c: char, b: string, preserve: bool)
    requires IsControl(c) && c != '\U{1B}' && c != '\U{9B}'
    ensures StripControls([c] + b, preserve) == (if preserve && IsWhitespace(c) then [c] else "") + StripControls(b, preserve)
  {
    assert ([c] + b)[1..] == b;
  }

  /** A control sequence is dropped up to its final character, `@` to `~`. */
  lemma ControlSequenceIsDropped(parameters: string, final: char, b: string, preserve: bool)
    requires (forall c :: c in parameters ==> !('@' <= c <= '~')) && '@' <= final <= '~'
    ensures StripControls("\U{1B}[" + parameters + [final] + b, preserve) == StripControls(b, preserve)
  {
    var s := "\U{1B}[" + parameters + [final] + b;
    SequenceEnds(parameters, final, b);
    assert s[1..][1..] == parameters + [final] + b;
  }

  lemma {:induction false} SequenceEnds(parameters: string, final: char, b: string)
    requires (forall c :: c in parameters ==> !('@' <= c <= '~')) && '@' <= final <= '~'
    ensures AfterControlSequence(parameters + [final] + b) == b
  {
    var s := parameters + [final] + b;
    if parameters == "" {
      assert s[1..] == b;
    } else {
      assert s[0] == parameters[0] && parameters[0] in parameters;
      assert forall c :: c in parameters[1..] ==> c in parameters;
      SequenceEnds(parameters[1..], final, b);
      assert s[1..] == parameters[1..] + [final] + b;
    }
  }

  /** An operating-system command is dropped up to BEL, or to ESC backslash. */
  lemma SystemCommandIsDropped(body: string, b: string, preserve: bool)
    requires forall c :: c in body ==> c != '\U{7}' && c != '\U{1B}'
    ensures StripControls("\U{1B}]" + body + "\U{7}" + b, preserve) == StripControls(b, preserve)
    ensures StripControls("\U{1B}]" + body + "\U{1B}\\" + b, preserve) == StripControls(b, preserve)
  {
    CommandEnds(body, b);
    assert ("\U{1B}]" + body + "\U{7}" + b)[1..][1..] == body + "\U{7}" + b;
    assert ("\U{1B}]" + body + "\U{1B}\\" + b)[1..][1..] == body + "\U{1B}\\" + b;
  }

  lemma {:induction false} CommandEnds(body: string, b: string)
    requires forall c :: c in body ==> c != '\U{7}' && c != '\U{1B}'
    ensures AfterSystemCommand(body + "\U{7}" + b) == b
    ensures AfterSystemCommand(body + "\U{1B}\\" + b) == b
  {
    var s, t := body + "\U{7}" + b, body + "\U{1B}\\" + b;
    if body == "" {
      assert s[1..] == b && t[2..] == b;
    } else {
      assert s[0] == t[0] == body[0] && body[0] in body;
      assert forall c :: c in body[1..] ==> c in body;
      CommandEnds(body[1..], b);
      assert s[1..] == body[1..] + "\U{7}" + b && t[1..] == body[1..] + "\U{1B}\\" + b;
    }
  }

  /** Any other escape takes one character with it; at the end of the text it is dropped alone. */
  lemma ShortEscapeIsDropped(c: char, b: string, preserve: bool)
    requires c != '[' && c != ']'
    ensures StripControls("\U{1B}" + [c] + b, preserve) == StripControls(b, preserve)
    ensures StripControls("\U{1B}", preserve) == ""
  {
    assert ("\U{1B}" + [c] + b)[1..][1..] == b;
  }

  /**
    The 8-bit introducer is read like an escape, so that it takes only the next character with it: the
    parameters of the usual 8-bit control sequence stay in the title.
   */
  lemma EightBitSequenceLeaks(first: char, rest: string, preserve: bool)
    requires first != '[' && first != ']'
    ensures StripControls("\U{9B}" + [first] + rest, preserve) == StripControls(rest, preserve)
    ensures StripControls("\U{9B}31mred", preserve) == "1mred"
  {
    assert ("\U{9B}" + [first] + rest)[1..][1..] == rest;
    assert "\U{9B}31mred"[1..][1..] == "1mred" && "1mred" + "" == "1mred";
    assert NoControls("1mred");
    PlainTextIsKept("1mred", "", preserve);
  }

  // ---------- words ----------

  predicate AllSpace(s: string) {
    forall c :: c in s ==> IsWhitespace(c)
  }

  lemma {:induction false} SpaceIsTrimmed(a: string, b: string)
    requires AllSpace(a)
    ensures TrimStart(a + b) == TrimStart(b)
  {
    hide IsWhitespace;
    if a == "" {
      assert a + b == b;
    } else {
      assert a[0] in a && (a + b)[1..] == a[1..] + b;
      SpaceIsTrimmed(a[1..], b);
    }
  }

  lemma {:induction false} WordEndsThere(w: string, b: string)
    requires (forall c :: c in w ==> !IsWhitespace(c)) && (b == "" || IsWhitespace(b[0]))
    ensures WordEnd(w + b) == |w|
  {
    hide IsWhitespace;
    if w == "" {
      assert w + b == b;
    } else {
      assert w[0] in w && (w + b)[1..] == w[1..] + b;
      WordEndsThere(w[1..], b);
    }
  }

  /** Spaces before the first word are dropped, and what follows it is collapsed after one space. */
  lemma CollapsedWords(a: string, w: string, b: string)
    requires AllSpace(a) && w != "" && (forall c :: c in w ==> !IsWhitespace(c))
    requires b == "" || IsWhitespace(b[0])
    ensures CollapseWhitespace(a) == ""
    ensures CollapseWhitespace(a + w + b) ==
      w + if CollapseWhitespace(b) == "" then "" else " " + CollapseWhitespace(b)
  {
    hide IsWhitespace, SplitWords, JoinWords, TrimStart, WordEnd;
    NoWords(a);
    FirstWord(a, w, b);
    JoinFirst(w, SplitWords(b));
    WordsOrNothing(b);
  }

  lemma NoWords(a: string)
    requires AllSpace(a)
    ensures SplitWords(a) == [] && CollapseWhitespace(a) == ""
  {
    hide IsWhitespace;
    SpaceIsTrimmed(a, "");
    assert a + "" == a;
  }

  lemma FirstWord(a: string, w: string, b: string)
    requires AllSpace(a) && w != "" && (forall c :: c in w ==> !IsWhitespace(c))
    requires b == "" || IsWhitespace(b[0])
    ensures SplitWords(a + w + b) == [w] + SplitWords(b)
  {
    hide IsWhitespace, WordEnd, TrimStart;
    SpaceIsTrimmed(a, w + b);
    assert a + w + b == a + (w + b);
    assert w[0] in w && (w + b)[0] == w[0];
    StartsHere(w + b);
    WordEndsThere(w, b);
    assert (w + b)[..|w|] == w && (w + b)[|w|..] == b;
  }

  lemma JoinFirst(w: string, words: seq<string>)
    ensures JoinWords([w] + words) == w + if words == [] then "" else " " + JoinWords(words)
  {
    assert ([w] + words)[1..] == words && ([w] + words)[0] == w;
    if words == [] {
      assert [w] + words == [w];
    } else {
      assert w + " " + JoinWords(words) == w + (" " + JoinWords(words));
    }
  }

  lemma StartsHere(s: string)
    requires s != "" && !IsWhitespace(s[0])
    ensures TrimStart(s) == s
  {
  }

  lemma WordsOrNothing(s: string)
    ensures CollapseWhitespace(s) == "" <==> SplitWords(s) == []
  {
    hide IsWhitespace;
    SplitGivesWords(s);
    var words := SplitWords(s);
    if words != [] {
      assert Word(words[0]);
    }
  }

  // ---------- surroundings ----------

  /** One pair of marks around a text is dropped, and then whatever surrounds what was inside. */
  lemma PairIsDropped(mark: char, s: string)
    requires mark in {'"', '\'', '`', '*', '_'}
    ensures TrimPaired([mark] + s + [mark]) == TrimPaired(s)
  {
    var t := [mark] + s + [mark];
    assert !IsWhitespace(mark);
    assert t[0] == mark && t[|t| - 1] == mark && t[1..|t| - 1] == s;
    NothingToTrim(t);
  }

  lemma NothingToTrim(t: string)
    requires t != "" && !IsWhitespace(t[0]) && !IsWhitespace(t[|t| - 1])
    ensures Trim(t) == t
  {
  }

  /** Whitespace around a text is dropped, and a text without marks or whitespace around it is kept. */
  lemma SurroundingsAreDropped(s: string)
    ensures TrimPaired(s) == TrimPaired(Trim(s))
    ensures Trim(s) == s && (|s| < 2 || s[0] != s[|s| - 1] || s[0] !in {'"', '\'', '`', '*', '_'}) ==> TrimPaired(s) == s
  {
    hide IsWhitespace;
    TrimShortens(s);
  }

  /** Trimming drops whitespace at both ends, all of it and nothing else. */
  lemma TrimmedIs(a: string, s: string, b: string)
    requires AllSpace(a) && AllSpace(b) && (s == "" || (!IsWhitespace(s[0]) && !IsWhitespace(s[|s| - 1])))
    ensures Trim(a + s + b) == s
  {
    hide IsWhitespace;
    SpaceIsTrimmed(a, s + b);
    assert a + s + b == a + (s + b);
    if s == "" {
      SpaceIsTrimmed(b, "");
      assert s + b == b && b + "" == b;
    } else {
      assert (s + b)[0] == s[0];
      StartsHere(s + b);
      EndIsTrimmed(s, b);
    }
  }

  lemma {:induction false} EndIsTrimmed(s: string, b: string)
    requires AllSpace(b) && (s == "" || !IsWhitespace(s[|s| - 1]))
    ensures TrimEnd(s + b) == s
  {
    hide IsWhitespace;
    if b == "" {
      assert s + b == s;
    } else {
      var t := s + b;
      assert t[|t| - 1] == b[|b| - 1] && b[|b| - 1] in b;
      assert t[..|t| - 1] == s + b[..|b| - 1];
      EndIsTrimmed(s, b[..|b| - 1]);
    }
  }

  // ---------- lines ----------

  /** `line` is the line of `s` that starts at `i`: it ends at a line feed, with or without a carriage return, or with the text. */
  predicate LineAt(s: string, i: nat, line: string) {
    && (forall c :: c in line ==> c != '\n')
    && i + |line| <= |s| && s[i..i + |line|] == line
    && (i == 0 || s[i - 1] == '\n')
    && (|| i + |line| == |s|
        || s[i + |line|] == '\n'
        || (i + |line| + 1 < |s| && s[i + |line|] == '\r' && s[i + |line| + 1] == '\n'))
  }

  /** The first visible line is a line of the text with something visible in it, and nothing before it is visible. */
  lemma {:induction false} FirstVisibleLineIs(s: string) returns (i: nat)
    ensures FirstVisibleLine(s) == None <==> AllSpace(s)
    ensures FirstVisibleLine(s).Some? ==>
      LineAt(s, i, FirstVisibleLine(s).value) && AllSpace(s[..i]) && !AllSpace(FirstVisibleLine(s).value)
    decreases |s|
  {
    hide LineAt, AllSpace, FirstVisibleLine, WithoutCarriageReturn;
    var n := NewlineAt(s);
    i := 0;
    assert s[..0] == "";
    NothingIsSpace();
    if n == |s| {
      OnlyLine(s);
    } else {
      var line, rest := WithoutCarriageReturn(s[..n]), s[n + 1..];
      OneLineOn(s);
      LineBefore(s, n);
      if AllSpace(line) {
        var k := FirstVisibleLineIs(rest);
        i := n + 1 + k;
        SpaceJoins(s, n, k);
        if FirstVisibleLine(rest).Some? {
          LineFits(rest, k, FirstVisibleLine(rest).value);
          LineShifts(s, n, k, FirstVisibleLine(rest).value);
        }
      } else {
        SpaceBefore(s, n);
      }
    }
  }

  lemma NothingIsSpace()
    ensures AllSpace("")
  {
  }

  lemma OnlyLine(s: string)
    requires NewlineAt(s) == |s|
    ensures FirstVisibleLine(s) == if AllSpace(s) then None else Some(s)
    ensures LineAt(s, 0, s)
  {
    hide IsWhitespace, AllSpace, Blank;
    BlankIsSpace(s);
    assert s[0..|s|] == s;
    forall c | c in s ensures c != '\n' {
      var k :| 0 <= k < |s| && s[k] == c;
    }
  }

  lemma OneLineOn(s: string)
    requires NewlineAt(s) < |s|
    ensures var n := NewlineAt(s);
            var line := WithoutCarriageReturn(s[..n]);
            FirstVisibleLine(s) == if AllSpace(line) then FirstVisibleLine(s[n + 1..]) else Some(line)
  {
    hide AllSpace, Blank, WithoutCarriageReturn, NewlineAt;
    BlankIsSpace(WithoutCarriageReturn(s[..NewlineAt(s)]));
  }

  lemma BlankIsSpace(s: string)
    ensures Blank(s) <==> AllSpace(s)
  {
    hide IsWhitespace, Blank;
    BlankMeans(s);
  }

  lemma LineFits(s: string, i: nat, line: string)
    requires LineAt(s, i, line)
    ensures i + |line| <= |s|
  {
  }

  lemma SpaceBefore(s: string, n: nat)
    requires n <= |s| && !AllSpace(s[..n])
    ensures !AllSpace(s)
  {
    var c :| c in s[..n] && !IsWhitespace(c);
    assert c in s;
  }

  lemma FeedsAreSpace()
    ensures IsWhitespace('\n') && IsWhitespace('\r')
  {
  }

  lemma LineBefore(s: string, n: nat)
    requires n < |s| && s[n] == '\n' && forall k :: 0 <= k < n ==> s[k] != '\n'
    ensures LineAt(s, 0, WithoutCarriageReturn(s[..n]))
    ensures AllSpace(s[..n]) <==> AllSpace(WithoutCarriageReturn(s[..n]))
  {
    hide IsWhitespace;
    FeedsAreSpace();
    var line := WithoutCarriageReturn(s[..n]);
    assert s[0..|line|] == line;
    if line != s[..n] {
      assert s[..n] == line + ['\r'];
    }
  }

  lemma SpaceJoins(s: string, n: nat, k: nat)
    requires n < |s| && s[n] == '\n' && AllSpace(s[..n])
    ensures AllSpace(s) <==> AllSpace(s[n + 1..])
    ensures n + 1 + k <= |s| && AllSpace(s[n + 1..][..k]) ==> AllSpace(s[..n + 1 + k])
  {
    hide IsWhitespace;
    FeedsAreSpace();
    assert s == s[..n] + ['\n'] + s[n + 1..];
    if n + 1 + k <= |s| {
      assert s[..n + 1 + k] == s[..n] + ['\n'] + s[n + 1..][..k];
    }
  }

  lemma LineShifts(s: string, n: nat, k: nat, line: string)
    requires n < |s| && s[n] == '\n' && LineAt(s[n + 1..], k, line)
    ensures LineAt(s, n + 1 + k, line)
  {
    var rest := s[n + 1..];
    assert rest[k..k + |line|] == s[n + 1 + k..n + 1 + k + |line|];
    assert k > 0 ==> rest[k - 1] == s[n + k];
  }

  // ---------- cuts ----------

  /**
    A text of more than 64 characters is cut to at most 63 and an ellipsis: before the last space among the
    first 63, if there is one after the first character, and otherwise right after them.
   */
  lemma CutIs(s: string)
    ensures |s| <= 64 ==> TruncateTitle(s) == s
    ensures |s| > 64 ==>
      var n := |TruncateTitle(s)| - 1;
      && 1 <= n <= 63 && TruncateTitle(s) == s[..n] + "\U{2026}"
      && (if n < 63 then s[n] == ' ' && (forall i :: n < i < 63 ==> s[i] != ' ')
          else forall i :: 0 < i < 63 ==> s[i] != ' ')
  {
    if |s| > 64 {
      var prefix := s[..63];
      assert forall i :: 0 <= i < 63 ==> prefix[i] == s[i];
      var boundary := LastSpace(prefix);
      hide LastSpace;
      if boundary > 1 {
        assert prefix[..boundary - 1] == s[..boundary - 1];
        assert prefix[boundary - 1] == ' ';
        LastCharacter(s[..boundary - 1]);
      } else {
        LastCharacter(prefix);
      }
    }
  }

  lemma LastCharacter(s: string)
    ensures |s + "\U{2026}"| == |s| + 1
  {
  }

  /** The fallback title of a message: its words, or a fixed title if it has none, cut to length. */
  lemma FallbackIs(message: string)
    ensures var words := CollapseWhitespace(StripControls(message, true));
            FallbackTitle(message) == TruncateTitle(if words == "" then "Untitled session" else words)
  {
    hide CollapseWhitespace, StripControls, TruncateTitle;
  }
}
