/** Session titles: validation, the first-message fallback, and clean-up of generated text. */
module Titles {
  import opened Prelude

  const MAX_SESSION_TITLE_SCALARS: nat := 64
  const FALLBACK_EMPTY_TITLE: string := "Untitled session"
  const ELLIPSIS: char := '\U{2026}'
  const ESCAPE: char := '\U{1B}'
  const CSI: char := '\U{9B}'
  const BELL: char := '\U{7}'

  /** The Unicode `White_Space` property. */
  predicate IsWhitespace(c: char) {
    || '\U{9}' <= c <= '\U{D}' || c == ' ' || c == '\U{85}' || c == '\U{A0}' || c == '\U{1680}'
    || '\U{2000}' <= c <= '\U{200A}' || c == '\U{2028}' || c == '\U{2029}'
    || c == '\U{202F}' || c == '\U{205F}' || c == '\U{3000}'
  }

  /** The Unicode general category `Cc`. */
  predicate IsControl(c: char) {
    c < ' ' || '\U{7F}' <= c <= '\U{9F}'
  }

  function TrimStart(s: string): string {
    if s != "" && IsWhitespace(s[0]) then TrimStart(s[1..]) else s
  }

  function TrimEnd(s: string): string {
    if s != "" && IsWhitespace(s[|s| - 1]) then TrimEnd(s[..|s| - 1]) else s
  }

  function Trim(s: string): string {
    TrimEnd(TrimStart(s))
  }

  predicate NoControls(s: string) {
    forall i :: 0 <= i < |s| ==> !IsControl(s[i])
  }

  /** What a session title must satisfy. */
  predicate ValidTitle(s: string) {
    0 < |s| <= MAX_SESSION_TITLE_SCALARS && Trim(s) == s && NoControls(s)
  }

  type SessionTitle = s: string | ValidTitle(s) witness "A"

  function ParseTitle(value: string): Option<SessionTitle> {
    if ValidTitle(value) then Some(value) else None
  }

  // ---------- whitespace collapsing ----------

  function WordEnd(s: string): (n: nat)
    ensures n <= |s|
    ensures forall i :: 0 <= i < n ==> !IsWhitespace(s[i])
    ensures n < |s| ==> IsWhitespace(s[n])
  {
    if s == "" || IsWhitespace(s[0]) then 0 else 1 + WordEnd(s[1..])
  }

  lemma TrimStartOne(s: string)
    ensures TrimStart(s) == if s != "" && IsWhitespace(s[0]) then TrimStart(s[1..]) else s
  {
  }

  lemma {:induction false} TrimStartShape(s: string)
    ensures |TrimStart(s)| <= |s| && TrimStart(s) == s[|s| - |TrimStart(s)|..]
    ensures TrimStart(s) != "" ==> !IsWhitespace(TrimStart(s)[0])
    ensures s != "" && !IsWhitespace(s[|s| - 1]) ==> TrimStart(s) != ""
    ensures forall i :: 0 <= i < |s| - |TrimStart(s)| ==> IsWhitespace(s[i])
  {
    hide IsWhitespace, TrimStart;
    TrimStartOne(s);
    if s == "" || !IsWhitespace(s[0]) {
      assert s[0..] == s;
    } else {
      var rest := s[1..];
      TrimStartShape(rest);
      var n := |rest| - |TrimStart(rest)|;
      assert rest[n..] == s[n + 1..];
      assert rest != "" ==> rest[|rest| - 1] == s[|s| - 1];
      forall i | 0 <= i < n + 1 ensures IsWhitespace(s[i]) {
        assert i > 0 ==> s[i] == rest[i - 1];
      }
    }
  }

  lemma TrimEndShape(s: string)
    ensures |TrimEnd(s)| <= |s| && TrimEnd(s) == s[..|TrimEnd(s)|]
    ensures TrimEnd(s) != "" ==> !IsWhitespace(TrimEnd(s)[|TrimEnd(s)| - 1])
  {
    if s != "" && IsWhitespace(s[|s| - 1]) {
      TrimEndShape(s[..|s| - 1]);
    }
  }

  function SplitWords(s: string): seq<string>
    decreases |s|
  {
    TrimStartShape(s);
    var t := TrimStart(s);
    if t == "" then [] else [t[..WordEnd(t)]] + SplitWords(t[WordEnd(t)..])
  }

  function JoinWords(words: seq<string>): string {
    if |words| == 0 then "" else if |words| == 1 then words[0] else words[0] + " " + JoinWords(words[1..])
  }

  function CollapseWhitespace(s: string): string {
    JoinWords(SplitWords(s))
  }

  /** Every whitespace character is a lone interior space. */
  predicate Tidy(s: string) {
    forall i :: 0 <= i < |s| ==> TidyAt(s, i)
  }

  predicate TidyAt(s: string, i: nat)
    requires i < |s|
  {
    IsWhitespace(s[i]) ==> s[i] == ' ' && 0 < i && i + 1 < |s| && !IsWhitespace(s[i + 1])
  }

  ghost predicate Word(w: string) {
    w != "" && forall i :: 0 <= i < |w| ==> !IsWhitespace(w[i])
  }

  lemma {:induction false} JoinIsTidy(words: seq<string>)
    requires forall k :: 0 <= k < |words| ==> Word(words[k])
    ensures Tidy(JoinWords(words))
    ensures words != [] ==> JoinWords(words) != "" && !IsWhitespace(JoinWords(words)[0])
    ensures forall i :: 0 <= i < |JoinWords(words)| && JoinWords(words)[i] != ' ' ==>
      exists k :: 0 <= k < |words| && JoinWords(words)[i] in words[k]
  {
    if |words| > 1 {
      JoinIsTidy(words[1..]);
      var rest := JoinWords(words[1..]);
      var all := JoinWords(words);
      var n := |words[0]|;
      assert all == words[0] + " " + rest;
      forall i | 0 <= i < |all| ensures TidyAt(all, i) {
        if i == n {
          assert all[i + 1] == rest[0];
        } else if i > n {
          assert TidyAt(rest, i - n - 1);
          assert all[i] == rest[i - n - 1];
          assert i + 1 < |all| ==> all[i + 1] == rest[i - n];
        }
      }
      forall i | 0 <= i < |all| && all[i] != ' '
        ensures exists k :: 0 <= k < |words| && all[i] in words[k]
      {
        if i < n {
          assert all[i] in words[0];
        } else {
          assert all[i] == rest[i - n - 1];
          var k :| 0 <= k < |words[1..]| && rest[i - n - 1] in words[1..][k];
          assert words[1..][k] == words[k + 1];
        }
      }
    }
  }

  lemma {:induction false} SplitGivesWords(s: string)
    ensures forall k :: 0 <= k < |SplitWords(s)| ==> Word(SplitWords(s)[k])
    ensures forall k, c :: 0 <= k < |SplitWords(s)| && c in SplitWords(s)[k] ==> c in s
    decreases |s|
  {
    TrimStartShape(s);
    var t := TrimStart(s);
    if t != "" {
      hide TrimStart, WordEnd, IsWhitespace;
      var n := WordEnd(t);
      SplitGivesWords(t[n..]);
      var words := SplitWords(s);
      assert words == [t[..n]] + SplitWords(t[n..]);
      WordsFromTail(s, |s| - |t|);
      forall k, c | 0 <= k < |words| && c in words[k] ensures c in s {
        if k > 0 {
          assert words[k] == SplitWords(t[n..])[k - 1];
          WordsFromTail(t, n);
        }
      }
      forall k | 0 <= k < |words| ensures Word(words[k]) {
        assert k > 0 ==> words[k] == SplitWords(t[n..])[k - 1];
      }
    }
  }

  lemma WordsFromTail(s: string, n: nat)
    requires n <= |s|
    ensures forall c :: c in s[n..] ==> c in s
    ensures forall c :: c in s[..n] ==> c in s
  {
  }

  /** Collapsing leaves only lone interior spaces and invents no character but the space. */
  lemma CollapseIsTidy(s: string)
    ensures Tidy(CollapseWhitespace(s))
    ensures forall c :: c in CollapseWhitespace(s) ==> c == ' ' || c in s
  {
    SplitGivesWords(s);
    JoinIsTidy(SplitWords(s));
    forall c | c in CollapseWhitespace(s) && c != ' '
      ensures c in s
    {
      var i :| 0 <= i < |CollapseWhitespace(s)| && CollapseWhitespace(s)[i] == c;
      var k :| 0 <= k < |SplitWords(s)| && CollapseWhitespace(s)[i] in SplitWords(s)[k];
    }
  }

  /** The first word of a tidy text is followed by the end, or by one space and another tidy text. */
  lemma TidyRest(s: string)
    requires Tidy(s) && s != ""
    ensures var n := WordEnd(s);
            && n > 0
            && (n < |s| ==>
                  && n + 1 < |s| && s[n] == ' ' && !IsWhitespace(s[n + 1])
                  && Tidy(s[n + 1..]) && s == s[..n] + " " + s[n + 1..])
  {
    var n := WordEnd(s);
    assert TidyAt(s, 0);
    if n < |s| {
      assert TidyAt(s, n);
      TidyTail(s, n + 1);
      CutAt(s, n);
    }
  }

  lemma TidyTail(s: string, m: nat)
    requires Tidy(s) && m < |s| && !IsWhitespace(s[m])
    ensures Tidy(s[m..])
  {
    hide IsWhitespace;
    var rest := s[m..];
    forall i | 0 <= i < |rest| ensures TidyAt(rest, i) {
      assert TidyAt(s, i + m);
      assert i + 1 < |rest| ==> rest[i + 1] == s[i + m + 1];
    }
  }

  lemma CutAt(s: string, n: nat)
    requires n < |s| && s[n] == ' '
    ensures s == s[..n] + " " + s[n + 1..]
  {
  }

  lemma TidyWords(s: string)
    requires Tidy(s) && s != ""
    ensures var n := WordEnd(s);
            SplitWords(s) == if n == |s| then [s] else [s[..n]] + SplitWords(s[n + 1..])
  {
    TidyRest(s);
    hide Tidy, IsWhitespace, WordEnd;
    var n := WordEnd(s);
    assert TrimStart(s) == s by { TrimStartStops(s); }
    if n == |s| {
      assert s[..n] == s && s[n..] == "";
    } else {
      var rest := s[n + 1..];
      SpaceIsSkipped(s[n..]);
      assert s[n..][1..] == rest;
      assert TrimStart(rest) == rest by { TrimStartStops(rest); }
      assert TrimStart(s[n..]) == rest;
    }
  }

  lemma TrimStartStops(s: string)
    requires s != "" && !IsWhitespace(s[0])
    ensures TrimStart(s) == s
  {
  }

  lemma SpaceIsSkipped(s: string)
    requires s != "" && s[0] == ' '
    ensures TrimStart(s) == TrimStart(s[1..])
  {
  }

  lemma {:induction false} TidyIsCollapsed(s: string)
    requires Tidy(s)
    ensures CollapseWhitespace(s) == s
    decreases |s|
  {
    if s != "" {
      hide Tidy, IsWhitespace, WordEnd, SplitWords;
      TidyWords(s);
      TidyRest(s);
      var n := WordEnd(s);
      if n < |s| {
        var rest := s[n + 1..];
        TidyIsCollapsed(rest);
        assert SplitWords(s)[1..] == SplitWords(rest);
        assert SplitWords(rest) != [];
      }
    }
  }

  /** A text that starts and ends with non-whitespace keeps both ends. */
  lemma {:induction false} CollapseKeepsEnds(s: string)
    requires s != "" && !IsWhitespace(s[|s| - 1])
    ensures var t := CollapseWhitespace(s); t != "" && t[|t| - 1] == s[|s| - 1] && t[0] == TrimStart(s)[0]
    decreases |s|
  {
    TrimStartShape(s);
    var t := TrimStart(s);
    var n := WordEnd(t);
    assert t[|t| - 1] == s[|s| - 1];
    if n == |t| {
      assert t[..n] == t && t[n..] == "";
      assert SplitWords(s) == [t];
    } else {
      var rest := t[n..];
      CollapseKeepsEnds(rest);
      assert SplitWords(s)[1..] == SplitWords(rest);
      assert SplitWords(rest) != [];
      assert CollapseWhitespace(s) == t[..n] + " " + CollapseWhitespace(rest);
    }
  }

  // ---------- truncation ----------

  /** One past the last occurrence of a space, or zero. */
  function LastSpace(s: string): (n: nat)
    ensures n <= |s|
    ensures n > 0 ==> s[n - 1] == ' '
    ensures forall i :: n <= i < |s| ==> s[i] != ' '
  {
    if s == "" then 0 else if s[|s| - 1] == ' ' then |s| else LastSpace(s[..|s| - 1])
  }

  function TruncateTitle(s: string): string {
    if |s| <= MAX_SESSION_TITLE_SCALARS then s
    else
      var prefix := s[..MAX_SESSION_TITLE_SCALARS - 1];
      var boundary := LastSpace(prefix);
      (if boundary > 1 then prefix[..boundary - 1] else prefix) + [ELLIPSIS]
  }

  lemma TruncateKeepsTidy(s: string)
    requires Tidy(s) && NoControls(s)
    ensures Tidy(TruncateTitle(s)) && NoControls(TruncateTitle(s))
    ensures |TruncateTitle(s)| <= MAX_SESSION_TITLE_SCALARS
    ensures s != "" ==> TruncateTitle(s) != ""
    ensures |s| > MAX_SESSION_TITLE_SCALARS ==> TruncateTitle(s)[|TruncateTitle(s)| - 1] == ELLIPSIS
  {
    if |s| > MAX_SESSION_TITLE_SCALARS {
      var prefix := s[..MAX_SESSION_TITLE_SCALARS - 1];
      var boundary := LastSpace(prefix);
      var kept := if boundary > 1 then prefix[..boundary - 1] else prefix;
      assert TruncateTitle(s) == kept + [ELLIPSIS];
      forall i | 0 <= i < |kept| + 1 ensures TidyAt(kept + [ELLIPSIS], i) {
        assert i < |kept| ==> kept[i] == s[i] && TidyAt(s, i);
      }
    }
  }

  lemma TidyIsValid(s: string)
    requires Tidy(s) && NoControls(s) && 0 < |s| <= MAX_SESSION_TITLE_SCALARS
    ensures ValidTitle(s)
  {
    assert TidyAt(s, 0) && TidyAt(s, |s| - 1);
  }

  // ---------- terminal controls ----------

  /** What is left after the parameters and final byte of a control sequence. */
  function AfterControlSequence(s: string): (rest: string)
    ensures |rest| <= |s|
  {
    if s == "" then "" else if '@' <= s[0] <= '~' then s[1..] else AfterControlSequence(s[1..])
  }

  /** What is left after an operating-system command, ended by BEL or by ESC backslash. */
  function AfterSystemCommand(s: string): (rest: string)
    ensures |rest| <= |s|
  {
    if s == "" then ""
    else if s[0] == BELL then s[1..]
    else if s[0] == ESCAPE && |s| > 1 && s[1] == '\\' then s[2..]
    else AfterSystemCommand(s[1..])
  }

  /** What is left after the escape sequence whose introducer has just been read. */
  function AfterEscape(s: string): (rest: string)
    ensures |rest| <= |s|
  {
    if s == "" then ""
    else if s[0] == '[' then AfterControlSequence(s[1..])
    else if s[0] == ']' then AfterSystemCommand(s[1..])
    else s[1..]
  }

  function StripControls(s: string, preserveWhitespace: bool): string
    decreases |s|
  {
    if s == "" then ""
    else if s[0] == ESCAPE || s[0] == CSI then StripControls(AfterEscape(s[1..]), preserveWhitespace)
    else if (preserveWhitespace && IsWhitespace(s[0])) || !IsControl(s[0]) then
      [s[0]] + StripControls(s[1..], preserveWhitespace)
    else StripControls(s[1..], preserveWhitespace)
  }

  lemma {:induction false} StripRemovesControls(s: string, preserveWhitespace: bool)
    ensures forall c :: c in StripControls(s, preserveWhitespace) ==>
      !IsControl(c) || (preserveWhitespace && IsWhitespace(c))
    decreases |s|
  {
    if s != "" {
      if s[0] == ESCAPE || s[0] == CSI {
        StripRemovesControls(AfterEscape(s[1..]), preserveWhitespace);
      } else {
        StripRemovesControls(s[1..], preserveWhitespace);
      }
    }
  }

  lemma {:induction false} StripKeepsPlainText(s: string, preserveWhitespace: bool)
    requires NoControls(s)
    ensures StripControls(s, preserveWhitespace) == s
  {
    if s != "" {
      StripKeepsPlainText(s[1..], preserveWhitespace);
      assert s == [s[0]] + s[1..];
    }
  }

  /** Advances past one escape sequence; the characters still to be read start at `next`. */
  method ConsumeEscapeSequence(s: string, start: nat) returns (next: nat)
    requires start <= |s|
    ensures start <= next <= |s|
    ensures s[next..] == AfterEscape(s[start..])
  {
    next := start;
    if next == |s| {
      return;
    }
    var introducer := s[next];
    next := next + 1;
    if introducer == '[' {
      while next < |s|
        invariant start + 1 <= next <= |s|
        invariant AfterControlSequence(s[start + 1..]) == AfterControlSequence(s[next..])
      {
        var character := s[next];
        next := next + 1;
        if '@' <= character <= '~' {
          break;
        }
      }
    } else if introducer == ']' {
      while next < |s|
        invariant start + 1 <= next <= |s|
        invariant AfterSystemCommand(s[start + 1..]) == AfterSystemCommand(s[next..])
      {
        var character := s[next];
        next := next + 1;
        if character == BELL {
          break;
        }
        if character == ESCAPE && next < |s| && s[next] == '\\' {
          next := next + 1;
          break;
        }
      }
    }
  }

  method StripTerminalControls(s: string, preserveWhitespace: bool) returns (output: string)
    ensures output == StripControls(s, preserveWhitespace)
  {
    output := "";
    var next := 0;
    while next < |s|
      invariant next <= |s|
      invariant StripControls(s, preserveWhitespace) == output + StripControls(s[next..], preserveWhitespace)
      decreases |s| - next
    {
      var character := s[next];
      next := next + 1;
      if character == ESCAPE || character == CSI {
        next := ConsumeEscapeSequence(s, next);
      } else if preserveWhitespace && IsWhitespace(character) {
        output := output + [character];
      } else if IsControl(character) {
      } else {
        output := output + [character];
      }
    }
  }

  // ---------- the fallback title ----------

  function NormalizedMessage(message: string): string {
    var collapsed := CollapseWhitespace(StripControls(message, true));
    if collapsed == "" then FALLBACK_EMPTY_TITLE else collapsed
  }

  lemma EmptyTitleIsTidy()
    ensures Tidy(FALLBACK_EMPTY_TITLE) && NoControls(FALLBACK_EMPTY_TITLE) && FALLBACK_EMPTY_TITLE != ""
  {
    LettersArePlain();
    SpaceIsNoControl();
    hide IsWhitespace, IsControl;
    var t := FALLBACK_EMPTY_TITLE;
    assert |t| == 16 && t[8] == ' ';
    assert forall i :: 0 <= i < |t| && i != 8 ==> 'A' <= t[i] <= 'z';
  }

  lemma LettersArePlain()
    ensures forall c: char :: 'A' <= c <= 'z' ==> !IsWhitespace(c) && !IsControl(c)
  {
  }

  lemma SpaceIsNoControl()
    ensures !IsControl(' ')
  {
  }

  lemma NormalizedMessageIsTidy(message: string)
    ensures Tidy(NormalizedMessage(message)) && NoControls(NormalizedMessage(message))
    ensures NormalizedMessage(message) != ""
  {
    hide StripControls, CollapseWhitespace;
    var plain := StripControls(message, true);
    StripRemovesControls(message, true);
    CollapseIsTidy(plain);
    EmptyTitleIsTidy();
    SpaceIsNoControl();
    hide IsWhitespace, IsControl;
    var t := CollapseWhitespace(plain);
    forall i | 0 <= i < |t| ensures !IsControl(t[i]) {
      assert TidyAt(t, i) && t[i] in t;
    }
  }

  /** The deterministic first-message title: the validation in its last step never fails. */
  function FallbackTitle(message: string): (title: SessionTitle)
  {
    NormalizedMessageIsTidy(message);
    TruncateKeepsTidy(NormalizedMessage(message));
    TidyIsValid(TruncateTitle(NormalizedMessage(message)));
    TruncateTitle(NormalizedMessage(message))
  }

  /** Every first message yields a title that parses, and a fallback title is its own fallback title. */
  lemma FallbackTitleParsesAndIsIdempotent(message: string)
    ensures ParseTitle(FallbackTitle(message)) == Some(FallbackTitle(message))
    ensures Tidy(FallbackTitle(message))
    ensures FallbackTitle(FallbackTitle(message)) == FallbackTitle(message)
  {
    var t := FallbackTitle(message);
    NormalizedMessageIsTidy(message);
    TruncateKeepsTidy(NormalizedMessage(message));
    StripKeepsPlainText(t, true);
    TidyIsCollapsed(t);
  }

  method MakeFallbackTitle(message: string) returns (title: SessionTitle)
    ensures title == FallbackTitle(message)
  {
    var plain := StripTerminalControls(message, true);
    var normalized := CollapseWhitespace(plain);
    if normalized == "" {
      normalized := FALLBACK_EMPTY_TITLE;
    }
    FallbackTitleParsesAndIsIdempotent(message);
    title := TruncateTitle(normalized);
  }

  // ---------- generated titles ----------

  predicate Blank(s: string) {
    Trim(s) == ""
  }

  lemma BlankMeans(s: string)
    ensures Blank(s) <==> forall c :: c in s ==> IsWhitespace(c)
  {
    hide IsWhitespace;
    TrimStartShape(s);
    TrimEndShape(TrimStart(s));
    var t := TrimStart(s);
    if Blank(s) {
      TrimEndDrops(t);
      assert t == "";
      forall c | c in s ensures IsWhitespace(c) {
        var i :| 0 <= i < |s| && s[i] == c;
      }
    } else {
      assert t != "" && t[0] == s[|s| - |t|];
    }
  }

  /** Trimming the end never empties a text that begins with a visible character. */
  lemma {:induction false} TrimEndDrops(s: string)
    ensures TrimEnd(s) == "" ==> s == "" || IsWhitespace(s[0])
  {
    hide IsWhitespace;
    if s != "" && IsWhitespace(s[|s| - 1]) {
      TrimEndDrops(s[..|s| - 1]);
    }
  }

  function WithoutCarriageReturn(line: string): string {
    if line != "" && line[|line| - 1] == '\r' then line[..|line| - 1] else line
  }

  /** The first line with visible text; only terminated lines lose a trailing carriage return. */
  function FirstVisibleLine(s: string): Option<string>
    decreases |s|
  {
    var n := NewlineAt(s);
    if n == |s| then (if Blank(s) then None else Some(s))
    else
      var line := WithoutCarriageReturn(s[..n]);
      if Blank(line) then FirstVisibleLine(s[n + 1..]) else Some(line)
  }

  predicate IsQuote(c: char) {
    c == '"' || c == '\'' || c == '`' || c == '*' || c == '_'
  }

  function PairedInner(s: string): (inner: Option<string>)
    ensures inner.Some? ==> |inner.value| + 2 == |s|
  {
    if |s| >= 2 && IsQuote(s[0]) && s[0] == s[|s| - 1] then Some(s[1..|s| - 1]) else None
  }

  lemma TrimShortens(s: string)
    ensures |Trim(s)| <= |s|
    ensures Trim(s) != "" ==> !IsWhitespace(Trim(s)[0]) && !IsWhitespace(Trim(s)[|Trim(s)| - 1])
    ensures Trim(Trim(s)) == Trim(s)
    ensures forall c :: c in Trim(s) ==> c in s
  {
    TrimStartShape(s);
    TrimEndShape(TrimStart(s));
    assert forall c :: c in TrimStart(s) ==> c in s;
  }

  /** Removes matching surrounding quotation and emphasis marks until none is left. */
  function TrimPaired(s: string): string
    decreases |s|
  {
    TrimShortens(s);
    match PairedInner(Trim(s))
    case None => Trim(s)
    case Some(inner) => TrimPaired(inner)
  }

  lemma {:induction false} TrimPairedIsBare(s: string)
    ensures var t := TrimPaired(s); Trim(t) == t && PairedInner(t) == None
    ensures forall c :: c in TrimPaired(s) ==> c in s
    decreases |s|
  {
    TrimShortens(s);
    match PairedInner(Trim(s))
    case None =>
    case Some(inner) =>
      TrimPairedIsBare(inner);
      assert forall c :: c in inner ==> c in Trim(s);
  }

  method TrimPairedSurrounding(s: string) returns (value: string)
    ensures value == TrimPaired(s)
  {
    TrimShortens(s);
    value := Trim(s);
    while PairedInner(value).Some?
      invariant Trim(value) == value && TrimPaired(s) == TrimPaired(value)
      decreases |value|
    {
      TrimShortens(PairedInner(value).value);
      value := Trim(PairedInner(value).value);
    }
  }

  function SanitizeGeneratedTitle(generated: string): Option<SessionTitle> {
    match FirstVisibleLine(generated)
    case None => None
    case Some(line) =>
      ParseTitle(TruncateTitle(CollapseWhitespace(TrimPaired(StripControls(line, false)))))
  }

  lemma CollapsedIsPlain(bare: string)
    requires forall c :: c in bare ==> !IsControl(c)
    ensures NoControls(CollapseWhitespace(bare))
  {
    hide CollapseWhitespace, Tidy;
    CollapseIsTidy(bare);
    var t := CollapseWhitespace(bare);
    forall i | 0 <= i < |t| ensures !IsControl(t[i]) {
      assert t[i] in t;
    }
  }

  /** Collapsing keeps both ends, so it pairs nothing that was not paired before. */
  lemma CollapsedIsUnpaired(bare: string)
    requires Trim(bare) == bare && PairedInner(bare) == None
    ensures PairedInner(CollapseWhitespace(bare)) == None
  {
    hide CollapseWhitespace, Tidy, Trim, IsWhitespace;
    if bare == "" {
      NothingCollapses();
    } else {
      TrimShortens(bare);
      EndsStay(bare);
      if |bare| == 1 {
        OneIsTidy(bare);
        TidyIsCollapsed(bare);
      }
    }
  }

  lemma NothingCollapses()
    ensures CollapseWhitespace("") == ""
  {
  }

  lemma OneIsTidy(s: string)
    requires |s| == 1 && !IsWhitespace(s[0])
    ensures Tidy(s)
  {
  }

  lemma EndsStay(s: string)
    requires s != "" && !IsWhitespace(s[0]) && !IsWhitespace(s[|s| - 1])
    ensures var t := CollapseWhitespace(s); t != "" && t[0] == s[0] && t[|t| - 1] == s[|s| - 1]
  {
    hide CollapseWhitespace, IsWhitespace;
    CollapseKeepsEnds(s);
  }

  /** What is cut ends in an ellipsis, which is no quote. */
  lemma TruncatedIsUnpaired(s: string)
    requires Tidy(s) && NoControls(s) && PairedInner(s) == None
    ensures PairedInner(TruncateTitle(s)) == None
  {
    hide Tidy, NoControls;
    TruncateKeepsTidy(s);
  }

  lemma SanitizedShape(generated: string)
    requires SanitizeGeneratedTitle(generated).Some?
    ensures var t := SanitizeGeneratedTitle(generated).value; Tidy(t) && NoControls(t) && PairedInner(t) == None
  {
    hide FirstVisibleLine, TrimPaired, StripControls, CollapseWhitespace, TruncateTitle, Tidy, NoControls, PairedInner;
    hide Trim, ValidTitle;
    var line := FirstVisibleLine(generated).value;
    var bare := TrimPaired(StripControls(line, false));
    StripRemovesControls(line, false);
    TrimPairedIsBare(StripControls(line, false));
    CollapseIsTidy(bare);
    CollapsedIsPlain(bare);
    CollapsedIsUnpaired(bare);
    TruncateKeepsTidy(CollapseWhitespace(bare));
    TruncatedIsUnpaired(CollapseWhitespace(bare));
  }

  /** A cleaned-up generated title is valid and cleaning it again changes nothing. */
  lemma SanitizedTitleIsFixedPoint(generated: string, t: SessionTitle)
    requires SanitizeGeneratedTitle(generated) == Some(t)
    ensures SanitizeGeneratedTitle(t) == Some(t)
  {
    hide FirstVisibleLine, TrimPaired, StripControls, CollapseWhitespace, Tidy, NoControls, PairedInner, Trim;
    SanitizedShape(generated);
    PlainIsOneLine(t);
    StripKeepsPlainText(t, false);
    BareIsKept(t);
    TidyIsCollapsed(t);
  }

  lemma PlainIsOneLine(t: string)
    requires NoControls(t) && t != "" && Trim(t) == t
    ensures FirstVisibleLine(t) == Some(t)
  {
    hide Trim;
    assert IsControl('\n');
  }

  lemma BareIsKept(t: string)
    requires Trim(t) == t && PairedInner(t) == None
    ensures TrimPaired(t) == t
  {
    hide Trim, PairedInner;
  }

  /** Generated text is refused exactly when no visible character survives the clean-up of its first line. */
  lemma SanitizedTitleExists(generated: string)
    ensures SanitizeGeneratedTitle(generated).Some? <==>
      FirstVisibleLine(generated).Some? && TrimPaired(StripControls(FirstVisibleLine(generated).value, false)) != ""
  {
    if FirstVisibleLine(generated).Some? {
      var line := FirstVisibleLine(generated).value;
      var bare := TrimPaired(StripControls(line, false));
      StripRemovesControls(line, false);
      TrimPairedIsBare(StripControls(line, false));
      if bare != "" {
        TrimShortens(bare);
        CollapseKeepsEnds(bare);
        CollapseIsTidy(bare);
        var collapsed := CollapseWhitespace(bare);
        forall i | 0 <= i < |collapsed| ensures !IsControl(collapsed[i]) { assert collapsed[i] in collapsed; }
        TruncateKeepsTidy(collapsed);
        TidyIsValid(TruncateTitle(collapsed));
      }
    }
  }

  method SanitizeTitle(generated: string) returns (title: Option<SessionTitle>)
    ensures title == SanitizeGeneratedTitle(generated)
  {
    var line := FirstVisibleLine(generated);
    if line == None {
      return None;
    }
    var plain := StripTerminalControls(line.value, false);
    plain := TrimPairedSurrounding(plain);
    title := ParseTitle(TruncateTitle(CollapseWhitespace(plain)));
  }
}
