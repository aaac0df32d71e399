/** Migration of the legacy tables, which held only user and assistant messages, to the current ones. */
module Migration {
  import opened Prelude
  import opened Titles
  import opened Records
  import opened Transcripts
  import opened Repository
  import opened Store

  /** What an SQLite integer column holds. */
  type i64 = x: int | -0x8000_0000_0000_0000 <= x <= 0x7FFF_FFFF_FFFF_FFFF

  /** An AUTOINCREMENT key. */
  type LegacyId = x: int | 1 <= x <= 0x7FFF_FFFF_FFFF_FFFF witness 1

  datatype LegacyMessage = LegacyMessage(position: i64, role: string, text: string)

  /** A table has fewer rows than its keys have values. */
  type LegacyMessages = m: seq<LegacyMessage> | |m| < 0x7FFF_FFFF_FFFF_FFFF

  /** A legacy session with its messages in position order; `plan` is empty before version two. */
  datatype LegacySession = LegacySession(
    id: LegacyId, name: Option<string>, cwd: seq<byte>, model: string, reasoning: string, contextTokens: i64,
    createdAt: Timestamp, lastActivity: Timestamp, messages: LegacyMessages, plan: map<int, PlanRow>)

  /** The rows of a legacy store in identity order; identities are its primary key. */
  ghost predicate Ordered(legacy: seq<LegacySession>) {
    forall i, j :: 0 <= i < j < |legacy| ==> legacy[i].id < legacy[j].id
  }

  // ---------- which sessions can be migrated ----------

  function RoleAt(i: nat): string {
    if i % 2 == 0 then "user" else "assistant"
  }

  /** Contiguous positions, and prompts and responses in turn. */
  predicate WellPaired(messages: seq<LegacyMessage>) {
    && |messages| % 2 == 0
    && forall i :: 0 <= i < |messages| ==> messages[i].position == i && messages[i].role == RoleAt(i)
  }

  predicate ValidName(name: Option<string>) {
    name.Some? ==> ValidTitle(name.value)
  }

  predicate Migratable(s: LegacySession) {
    s.messages == [] || (WellPaired(s.messages) && ValidName(s.name))
  }

  // ---------- what they become ----------

  function TitleOf(s: LegacySession): SessionTitle
    requires s.messages != [] && ValidName(s.name)
  {
    if s.name.Some? then s.name.value else FallbackTitle(s.messages[0].text)
  }

  function SourceOf(s: LegacySession): TitleSource {
    if s.name.Some? then Manual else Fallback
  }

  function HistoryOf(messages: seq<LegacyMessage>): seq<Message> {
    seq(|messages|, i requires 0 <= i < |messages| =>
      Message(if i % 2 == 0 then UserRole else AssistantRole, messages[i].text))
  }

  function TranscriptOf(messages: seq<LegacyMessage>): seq<Item> {
    seq(|messages|, i requires 0 <= i < |messages| =>
      if i % 2 == 0 then User(messages[i].text) else Assistant(messages[i].text))
  }

  function TurnsOf(pairs: nat): seq<Turn>
    requires pairs < U64_MAX
  {
    seq(pairs, i requires 0 <= i < pairs => Turn(i, i + 1, 2 * i, TurnStatus.Completed))
  }

  /** The rows written for one session with messages. */
  function MigratedRows(s: LegacySession, preservePlan: bool): Rows
    requires s.messages != [] && WellPaired(s.messages) && ValidName(s.name)
  {
    Rows(SessionRow(TitleOf(s), SourceText(SourceOf(s)), 0, s.cwd, s.model, s.reasoning, s.contextTokens,
                    s.createdAt, s.lastActivity),
         map i | 0 <= i < |s.messages| :: MessageRow(s.messages[i].role, s.messages[i].text),
         map i | 0 <= i < |s.messages| :: TextItem(s.messages[i].role, s.messages[i].text),
         map i | 0 <= i < |s.messages| / 2 :: PairTurn(s.messages, i),
         if preservePlan then s.plan else map[])
  }

  /** The completed turn that a pair of messages becomes. */
  function PairTurn(messages: seq<LegacyMessage>, pair: nat): TurnRow
    requires 2 * pair < |messages|
  {
    TurnRow(pair + 1, messages[2 * pair].position, "completed")
  }

  function TextItem(kind: string, text: string): ItemRow {
    ItemRow(kind, Some(text), None, None, None, None, None, None, None, None, None)
  }

  // ---------- the migration ----------

  /** Positions and roles first, then the pairing, as two passes over the messages. */
  method CheckMessages(messages: seq<LegacyMessage>) returns (valid: bool)
    ensures valid <==> WellPaired(messages)
  {
    hide WellPaired, RoleAt;
    PairedMeans(messages);
    for i := 0 to |messages|
      invariant forall k :: 0 <= k < i ==>
        messages[k].position == k && (messages[k].role == "user" || messages[k].role == "assistant")
    {
      if messages[i].position != i || (messages[i].role != "user" && messages[i].role != "assistant") {
        return false;
      }
    }
    if |messages| % 2 != 0 {
      return false;
    }
    var pair := 0;
    while pair < |messages| / 2
      invariant pair <= |messages| / 2
      invariant forall k :: 0 <= k < 2 * pair ==> messages[k].role == RoleAt(k)
    {
      RolesAlternate(pair);
      if messages[2 * pair].role != "user" || messages[2 * pair + 1].role != "assistant" {
        return false;
      }
      pair := pair + 1;
    }
    return true;
  }

  lemma PairedMeans(messages: seq<LegacyMessage>)
    ensures WellPaired(messages) <==>
      && |messages| % 2 == 0
      && (forall i :: 0 <= i < |messages| ==> messages[i].position == i)
      && (forall i :: 0 <= i < |messages| ==> messages[i].role == RoleAt(i))
    ensures forall i: nat :: RoleAt(i) == "user" || RoleAt(i) == "assistant"
  {
  }

  lemma RolesAlternate(pair: nat)
    ensures RoleAt(2 * pair) == "user" && RoleAt(2 * pair + 1) == "assistant"
  {
  }

  /** Messages become history and transcript rows at the positions they had. */
  method InsertMessages(messages: seq<LegacyMessage>) returns (history: map<int, MessageRow>, items: map<int, ItemRow>)
    requires WellPaired(messages)
    ensures history == map i | 0 <= i < |messages| :: MessageRow(messages[i].role, messages[i].text)
    ensures items == map i | 0 <= i < |messages| :: TextItem(messages[i].role, messages[i].text)
  {
    history, items := map[], map[];
    for i := 0 to |messages|
      invariant history == map k | 0 <= k < i :: MessageRow(messages[k].role, messages[k].text)
      invariant items == map k | 0 <= k < i :: TextItem(messages[k].role, messages[k].text)
    {
      var m := messages[i];
      history := history[m.position := MessageRow(m.role, m.text)];
      items := items[m.position := TextItem(m.role, m.text)];
    }
  }

  /** Every pair of messages becomes one completed turn. */
  method InsertTurns(messages: seq<LegacyMessage>) returns (turns: map<int, TurnRow>)
    requires WellPaired(messages)
    ensures turns == map i | 0 <= i < |messages| / 2 :: PairTurn(messages, i)
  {
    hide PairTurn, WellPaired;
    turns := map[];
    for ordinal := 0 to |messages| / 2
      invariant turns == map k | 0 <= k < ordinal :: PairTurn(messages, k)
    {
      turns := turns[ordinal := PairTurn(messages, ordinal)];
    }
  }

  method InsertSession(s: LegacySession, title: SessionTitle, source: TitleSource, preservePlan: bool) returns (rows: Rows)
    requires s.messages != [] && WellPaired(s.messages) && ValidName(s.name)
    requires title == TitleOf(s) && source == SourceOf(s)
    ensures rows == MigratedRows(s, preservePlan)
  {
    hide TitleOf, SourceOf, WellPaired;
    var history, items := InsertMessages(s.messages);
    var turns := InsertTurns(s.messages);
    rows := Rows(
      SessionRow(title, SourceText(source), 0, s.cwd, s.model, s.reasoning, s.contextTokens, s.createdAt, s.lastActivity),
      history, items, turns, if preservePlan then s.plan else map[]);
  }

  /** The last identity among the sessions that are kept. */
  function LastKept(legacy: seq<LegacySession>): int {
    if legacy == [] then 0
    else if legacy[|legacy| - 1].messages != [] then legacy[|legacy| - 1].id
    else LastKept(legacy[..|legacy| - 1])
  }

  /** What a migrated store holds for the sessions given so far. */
  ghost predicate Holds(db: Database, legacy: seq<LegacySession>, preservePlan: bool) {
    && (forall id :: id in db.sessions <==> Kept(legacy, id))
    && (forall i :: 0 <= i < |legacy| && legacy[i].messages != [] ==>
          && legacy[i].id in db.sessions && Migratable(legacy[i])
          && db.sessions[legacy[i].id] == MigratedRows(legacy[i], preservePlan))
    && db.lastId == LastKept(legacy)
  }

  /**
    Migrates every session or none: it succeeds exactly if each session with messages is well paired and
    well named, and then keeps exactly the sessions that have messages.
   */
  method MigrateLegacy(legacy: seq<LegacySession>, preservePlan: bool) returns (result: Option<Database>)
    requires Ordered(legacy)
    ensures result.Some? <==> forall i :: 0 <= i < |legacy| ==> Migratable(legacy[i])
    ensures result.Some? ==> Holds(result.value, legacy, preservePlan)
  {
    hide MigratedRows, WellPaired, ValidName, TitleOf, SourceOf, FallbackTitle, Holds;
    var db := Database(0, map[]);
    NothingHeld(preservePlan);
    assert legacy[..0] == [];
    for i := 0 to |legacy|
      invariant forall k :: 0 <= k < i ==> Migratable(legacy[k])
      invariant Holds(db, legacy[..i], preservePlan)
    {
      var s := legacy[i];
      assert legacy[..i + 1] == legacy[..i] + [s];
      if s.messages == [] {
        SkipHolds(db, legacy[..i], s, preservePlan);
      } else {
        var paired := CheckMessages(s.messages);
        if !paired {
          return None;
        }
        var title: SessionTitle;
        if s.name.Some? {
          var parsed := ParseTitle(s.name.value);
          NameParses(s);
          if parsed.None? {
            return None;
          }
          title := parsed.value;
        } else {
          NameParses(s);
          title := MakeFallbackTitle(s.messages[0].text);
        }
        var rows := InsertSession(s, title, if s.name.Some? then Manual else Fallback, preservePlan);
        InsertHolds(db, legacy, i, preservePlan);
        db := Database(s.id, db.sessions[s.id := rows]);
      }
    }
    assert legacy[..|legacy|] == legacy;
    return Some(db);
  }

  lemma NothingHeld(preservePlan: bool)
    ensures Holds(Database(0, map[]), [], preservePlan)
  {
    hide MigratedRows;
  }

  lemma NameParses(s: LegacySession)
    requires s.messages != []
    ensures s.name.Some? ==> (ParseTitle(s.name.value).Some? <==> ValidName(s.name))
    ensures s.name.None? ==> ValidName(s.name)
    ensures ValidName(s.name) ==>
      TitleOf(s) == (if s.name.Some? then ParseTitle(s.name.value).value else FallbackTitle(s.messages[0].text))
    ensures SourceOf(s) == if s.name.Some? then Manual else Fallback
  {
    hide FallbackTitle;
  }

  /** This session is among those that are kept. */
  predicate Kept(legacy: seq<LegacySession>, id: SessionId) {
    exists i :: 0 <= i < |legacy| && legacy[i].id == id && legacy[i].messages != []
  }

  lemma KeptGrows(legacy: seq<LegacySession>, s: LegacySession, id: SessionId)
    ensures Kept(legacy + [s], id) <==> Kept(legacy, id) || (s.id == id && s.messages != [])
  {
    var longer := legacy + [s];
    if Kept(legacy, id) {
      var i :| 0 <= i < |legacy| && legacy[i].id == id && legacy[i].messages != [];
      assert longer[i] == legacy[i];
    }
    if s.id == id && s.messages != [] {
      assert longer[|legacy|] == s;
    }
  }

  lemma SkipHolds(db: Database, legacy: seq<LegacySession>, s: LegacySession, preservePlan: bool)
    requires Holds(db, legacy, preservePlan) && s.messages == []
    ensures Holds(db, legacy + [s], preservePlan)
  {
    hide MigratedRows, Migratable, Kept;
    var longer := legacy + [s];
    assert longer[..|longer| - 1] == legacy;
    forall id ensures id in db.sessions <==> Kept(longer, id) {
      KeptGrows(legacy, s, id);
    }
    assert forall i :: 0 <= i < |legacy| ==> longer[i] == legacy[i];
  }

  lemma InsertHolds(db: Database, legacy: seq<LegacySession>, n: nat, preservePlan: bool)
    requires Ordered(legacy) && n < |legacy| && Holds(db, legacy[..n], preservePlan)
    requires legacy[n].messages != [] && Migratable(legacy[n])
    ensures var s := legacy[n];
            Holds(Database(s.id, db.sessions[s.id := MigratedRows(s, preservePlan)]), legacy[..n + 1], preservePlan)
  {
    hide MigratedRows, WellPaired, ValidName, Kept;
    var s := legacy[n];
    var before, longer := legacy[..n], legacy[..n + 1];
    var after := Database(s.id, db.sessions[s.id := MigratedRows(s, preservePlan)]);
    assert longer == before + [s];
    forall id ensures id in after.sessions <==> Kept(longer, id) {
      KeptGrows(before, s, id);
    }
    assert forall i :: 0 <= i < n ==> longer[i] == before[i] && before[i].id != s.id;
  }

  // ---------- what the migrated sessions are worth ----------

  /** What the migration copies unread is readable: a known reasoning level, a token count, two timestamps, a valid plan. */
  predicate Readable(s: LegacySession, preservePlan: bool) {
    && ParseReasoning(s.reasoning).Some? && 0 <= s.contextTokens && s.createdAt.Some? && s.lastActivity.Some?
    && (preservePlan ==>
          var plan := DecodeTable(s.plan, DecodePlanItem, |s.plan|);
          plan.Ok? && ValidPlan(plan.value))
  }

  function PlanOf(s: LegacySession, preservePlan: bool): seq<PlanItem>
    requires Readable(s, preservePlan)
  {
    if preservePlan then DecodeTable(s.plan, DecodePlanItem, |s.plan|).value else []
  }

  function MigratedRecord(s: LegacySession, preservePlan: bool): Record
    requires s.messages != [] && WellPaired(s.messages) && ValidName(s.name) && Readable(s, preservePlan)
  {
    Record(s.id, TitleOf(s), SourceOf(s), 0, s.cwd,
           Settings(s.model, ParseReasoning(s.reasoning).value, s.contextTokens),
           TranscriptOf(s.messages), TurnsOf(|s.messages| / 2), HistoryOf(s.messages), PlanOf(s, preservePlan),
           s.createdAt.value, s.lastActivity.value)
  }

  lemma MigratedTables(s: LegacySession, preservePlan: bool)
    requires s.messages != [] && WellPaired(s.messages) && ValidName(s.name) && Readable(s, preservePlan)
    ensures var rows := MigratedRows(s, preservePlan);
            && rows.messages == MessageTable(HistoryOf(s.messages))
            && (forall i :: 0 <= i < |s.messages| ==> ItemInRange(TranscriptOf(s.messages)[i]))
            && rows.items == ItemTable(TranscriptOf(s.messages))
            && rows.turns == TurnTable(TurnsOf(|s.messages| / 2)) && Numbered(TurnsOf(|s.messages| / 2))
  {
    hide TitleOf, SourceOf, ParseReasoning, DecodeTable, SourceText, WellPaired;
    MigratedMessages(s.messages);
    MigratedItems(s.messages);
    MigratedTurns(s.messages);
  }

  lemma MigratedMessages(messages: seq<LegacyMessage>)
    requires WellPaired(messages)
    ensures MessageTable(HistoryOf(messages)) ==
      map i | 0 <= i < |messages| :: MessageRow(messages[i].role, messages[i].text)
  {
  }

  lemma MigratedItems(messages: seq<LegacyMessage>)
    requires WellPaired(messages)
    ensures forall i :: 0 <= i < |messages| ==> ItemInRange(TranscriptOf(messages)[i])
    ensures ItemTable(TranscriptOf(messages)) ==
      map i | 0 <= i < |messages| :: TextItem(messages[i].role, messages[i].text)
  {
  }

  lemma MigratedTurns(messages: seq<LegacyMessage>)
    requires WellPaired(messages) && |messages| < I64_MAX
    ensures TurnTable(TurnsOf(|messages| / 2)) == map i | 0 <= i < |messages| / 2 :: PairTurn(messages, i)
    ensures Numbered(TurnsOf(|messages| / 2))
  {
    var n := |messages| / 2;
    forall i | 0 <= i < n ensures EncodeTurn(TurnsOf(n)[i]) == PairTurn(messages, i) {
      assert messages[2 * i].position == 2 * i;
    }
  }

  /** A migrated session reads back as its record. */
  lemma MigratedReadsBack(s: LegacySession, preservePlan: bool)
    requires s.messages != [] && WellPaired(s.messages) && ValidName(s.name) && Readable(s, preservePlan)
    ensures LoadRows(s.id, MigratedRows(s, preservePlan)) == Ok(MigratedRecord(s, preservePlan))
  {
    MigratedTables(s, preservePlan);
    hide HistoryOf, TranscriptOf, TurnsOf, DecodeTable, ItemTable, TurnTable, MessageTable, WellPaired, ParseReasoning;
    hide TitleOf, SourceOf, PlanOf;
    MessagesReadBack(HistoryOf(s.messages));
    ItemsReadBack(TranscriptOf(s.messages));
    TurnsReadBack(TurnsOf(|s.messages| / 2));
    PlanReads(s, preservePlan);
    SessionReads(s, preservePlan);
  }

  lemma PlanReads(s: LegacySession, preservePlan: bool)
    requires s.messages != [] && WellPaired(s.messages) && ValidName(s.name) && Readable(s, preservePlan)
    ensures var plan := MigratedRows(s, preservePlan).plan;
            DecodeTable(plan, DecodePlanItem, |plan|) == Ok(PlanOf(s, preservePlan)) && ValidPlan(PlanOf(s, preservePlan))
  {
    hide WellPaired, TitleOf, SourceOf;
  }

  lemma SessionReads(s: LegacySession, preservePlan: bool)
    requires s.messages != [] && WellPaired(s.messages) && ValidName(s.name) && Readable(s, preservePlan)
    ensures DecodeSession(s.id, MigratedRows(s, preservePlan).session) ==
      Ok(MigratedRecord(s, preservePlan).(history := [], transcript := [], turns := [], plan := []))
  {
    hide WellPaired, TitleOf, ParseReasoning, DecodeTable;
    SpellingsReadBack(SourceOf(s), Low, Running, Pending);
  }

  /** Pairs of messages are completed turns: grammatical, and with exactly these messages as their history. */
  lemma {:induction false} PairsAreTurns(messages: seq<LegacyMessage>)
    requires |messages| % 2 == 0 && |messages| < I64_MAX
    ensures Grammar(TranscriptOf(messages), TurnsOf(|messages| / 2))
    ensures History(TranscriptOf(messages), TurnsOf(|messages| / 2)) == HistoryOf(messages)
    decreases |messages|
  {
    hide TranscriptOf, HistoryOf, TurnsOf, Settled, Grammar, History;
    if messages == [] {
      NoPairs();
    } else {
      var p := |messages| - 2;
      var n := |messages| / 2 - 1;
      PairsAreTurns(messages[..p]);
      LastPair(messages);
      AppendPair(TranscriptOf(messages[..p]), TurnsOf(n), messages[p].text, messages[p + 1].text, n + 1);
    }
  }

  lemma NoPairs()
    ensures TranscriptOf([]) == [] && HistoryOf([]) == [] && TurnsOf(0) == []
    ensures Grammar([], []) && History([], []) == []
  {
  }

  /** One more completed exchange after a settled, grammatical transcript. */
  lemma AppendPair(transcript: seq<Item>, turns: seq<Turn>, prompt: string, response: string, runId: u64)
    requires Grammar(transcript, turns) && Settled(turns)
    ensures var items := transcript + [User(prompt), Assistant(response)];
            var longer := turns + [Turn(|turns|, runId, |transcript|, TurnStatus.Completed)];
            && Grammar(items, longer)
            && History(items, longer) ==
               History(transcript, turns) + [Message(UserRole, prompt), Message(AssistantRole, response)]
  {
    var p := |transcript|;
    var items := transcript + [User(prompt), Assistant(response)];
    var longer := turns + [Turn(|turns|, runId, p, TurnStatus.Completed)];
    assert items[..p] == transcript && longer[..|turns|] == turns;
    assert items[p + 1..] == [Assistant(response)];
    assert [Assistant(response)][..0] == [];
  }

  lemma LastPair(messages: seq<LegacyMessage>)
    requires messages != [] && |messages| % 2 == 0 && |messages| < I64_MAX
    ensures var p := |messages| - 2;
            var n := |messages| / 2 - 1;
            var transcript, turns := TranscriptOf(messages), TurnsOf(n + 1);
            && |messages[..p]| == p && p / 2 == n && |messages| / 2 == n + 1
            && |TranscriptOf(messages[..p])| == p && |TurnsOf(n)| == n && Settled(TurnsOf(n))
            && transcript == TranscriptOf(messages[..p]) + [User(messages[p].text), Assistant(messages[p + 1].text)]
            && turns == TurnsOf(n) + [Turn(n, n + 1, p, TurnStatus.Completed)]
            && HistoryOf(messages) == HistoryOf(messages[..p]) +
               [Message(UserRole, messages[p].text), Message(AssistantRole, messages[p + 1].text)]
  {
  }

  /**
    Every migrated session keeps its identity, its messages and, if asked, its plan; it satisfies the
    invariants of sessions written by the current store, and opening it changes nothing.
   */
  lemma MigratedSessionsAreConsistent(s: LegacySession, preservePlan: bool)
    requires s.messages != [] && WellPaired(s.messages) && ValidName(s.name) && Readable(s, preservePlan)
    ensures var loaded := LoadRows(s.id, MigratedRows(s, preservePlan));
            && loaded.Ok?
            && var r := loaded.value;
               && r.id == s.id && Consistent(r) && Settled(r.turns) && Interrupt(r) == r
               && r.history == HistoryOf(s.messages) && r.plan == PlanOf(s, preservePlan)
               && (s.name.Some? ==> r.title == s.name.value && r.titleSource == Manual)
               && (s.name.None? ==> r.title == FallbackTitle(s.messages[0].text) && r.titleSource == Fallback)
               && KeepsColumns(r, s) && KeepsExchanges(r, s.messages)
  {
    hide WellPaired, FallbackTitle, PlanOf, LoadRows, MigratedRows, Readable;
    MigratedReadsBack(s, preservePlan);
    PairsMeanConsistent(s, preservePlan);
    ColumnsAreKept(s, preservePlan);
    ExchangesAreKept(s, preservePlan);
    InterruptionRecovers(MigratedRecord(s, preservePlan));
    RunningIsLast(MigratedRecord(s, preservePlan), 0);
  }

  /** Every column that the migration copies is read as it was; the title has not been changed yet. */
  predicate KeepsColumns(r: Record, s: LegacySession) {
    && r.titleRevision == 0 && r.cwd == s.cwd && r.settings.model == s.model && ReasoningText(r.settings.reasoning) == s.reasoning
    && r.settings.contextTokens == s.contextTokens && Some(r.createdAt) == s.createdAt && Some(r.lastActivity) == s.lastActivity
  }

  /** Every prompt and every response is in the transcript, two to a completed turn. */
  predicate KeepsExchanges(r: Record, messages: seq<LegacyMessage>) {
    && |r.transcript| == |messages| && |r.turns| == |messages| / 2
    && (forall i :: 0 <= i < |messages| ==>
          r.transcript[i] == if i % 2 == 0 then User(messages[i].text) else Assistant(messages[i].text))
    && forall i :: 0 <= i < |r.turns| ==>
         && r.turns[i].ordinal == i && r.turns[i].runId == i + 1 && r.turns[i].promptPosition == 2 * i
         && r.turns[i].status == TurnStatus.Completed
  }

  lemma ColumnsAreKept(s: LegacySession, preservePlan: bool)
    requires s.messages != [] && WellPaired(s.messages) && ValidName(s.name) && Readable(s, preservePlan)
    ensures KeepsColumns(MigratedRecord(s, preservePlan), s)
  {
    hide WellPaired, FallbackTitle, TranscriptOf, TurnsOf, HistoryOf, DecodeTable;
    ReasoningReads(s.reasoning);
  }

  lemma ExchangesAreKept(s: LegacySession, preservePlan: bool)
    requires s.messages != [] && WellPaired(s.messages) && ValidName(s.name) && Readable(s, preservePlan)
    ensures KeepsExchanges(MigratedRecord(s, preservePlan), s.messages)
  {
    hide WellPaired, FallbackTitle, HistoryOf, DecodeTable, ParseReasoning;
  }

  lemma PairsMeanConsistent(s: LegacySession, preservePlan: bool)
    requires s.messages != [] && WellPaired(s.messages) && ValidName(s.name) && Readable(s, preservePlan)
    ensures Consistent(MigratedRecord(s, preservePlan)) && Settled(MigratedRecord(s, preservePlan).turns)
    ensures !Open(MigratedRecord(s, preservePlan))
  {
    hide Grammar, History, FallbackTitle, PlanOf, ParseReasoning, DecodeTable, TranscriptOf, HistoryOf;
    PairsAreTurns(s.messages);
  }

  // ---------- sessions that can no longer be read ----------

  /** The migration copies without reading; a migrated session loads exactly if what was copied is readable. */
  lemma ReadableIsExact(s: LegacySession, preservePlan: bool)
    requires s.messages != [] && WellPaired(s.messages) && ValidName(s.name)
    ensures LoadRows(s.id, MigratedRows(s, preservePlan)).Ok? <==> Readable(s, preservePlan)
  {
    if Readable(s, preservePlan) {
      MigratedReadsBack(s, preservePlan);
    } else {
      hide WellPaired, TitleOf, ParseReasoning;
      var rows := MigratedRows(s, preservePlan);
      if LoadRows(s.id, rows).Ok? {
        LoadedIsReadable(s, preservePlan);
      }
    }
  }

  lemma LoadedIsReadable(s: LegacySession, preservePlan: bool)
    requires s.messages != [] && WellPaired(s.messages) && ValidName(s.name)
    requires LoadRows(s.id, MigratedRows(s, preservePlan)).Ok?
    ensures Readable(s, preservePlan)
  {
    hide WellPaired, TitleOf, ParseReasoning, ValidTitle, SourceOf;
  }

  /** Two sessions that migrate and then cannot be loaded: an unknown reasoning level, a date that is no timestamp. */
  lemma UnreadableSessionsMigrate()
    ensures var exchange := [LegacyMessage(0, "user", "a"), LegacyMessage(1, "assistant", "b")];
            var unknown := LegacySession(1, None, [], "model", "turbo", 0, Some(0), Some(0), exchange, map[]);
            var undated := LegacySession(1, None, [], "model", "high", 0, None, Some(0), exchange, map[]);
            && Migratable(unknown) && LoadRows(1, MigratedRows(unknown, false)).Err?
            && Migratable(undated) && LoadRows(1, MigratedRows(undated, false)).Err?
  {
    hide FallbackTitle, LoadRows;
    var exchange := [LegacyMessage(0, "user", "a"), LegacyMessage(1, "assistant", "b")];
    assert WellPaired(exchange);
    assert ParseReasoning("turbo") == None;
    ReadableIsExact(LegacySession(1, None, [], "model", "turbo", 0, Some(0), Some(0), exchange, map[]), false);
    ReadableIsExact(LegacySession(1, None, [], "model", "high", 0, None, Some(0), exchange, map[]), false);
  }

  // ---------- the migrated store as a whole ----------

  lemma ReasoningReads(text: string)
    requires ParseReasoning(text).Some?
    ensures ReasoningText(ParseReasoning(text).value) == text
  {
  }

  lemma PlanRowReads(position: int, row: PlanRow)
    requires DecodePlanItem(position, row).Ok?
    ensures EncodePlanItem(DecodePlanItem(position, row).value) == row
  {
    hide ValidPlanItem;
  }

  lemma {:induction false} PlanPrefixReads(plan: map<int, PlanRow>, k: nat)
    requires DecodeTable(plan, DecodePlanItem, k).Ok?
    ensures var items := DecodeTable(plan, DecodePlanItem, k).value;
            |items| == k && forall i :: 0 <= i < k ==> i in plan && EncodePlanItem(items[i]) == plan[i]
  {
    hide DecodePlanItem, EncodePlanItem;
    if k > 0 {
      PlanPrefixReads(plan, k - 1);
      PlanRowReads(k - 1, plan[k - 1]);
    }
  }

  /** A plan that can be read at all is stored the way the current store would store it. */
  lemma PlanIsCanonical(plan: map<int, PlanRow>)
    requires DecodeTable(plan, DecodePlanItem, |plan|).Ok?
    ensures PlanTable(DecodeTable(plan, DecodePlanItem, |plan|).value) == plan
  {
    hide DecodeTable, DecodePlanItem, EncodePlanItem;
    PlanPrefixReads(plan, |plan|);
    var keys := Below(|plan|);
    assert keys <= plan.Keys;
    SameSize(keys, plan.Keys);
  }

  lemma SameSize(a: set<int>, b: set<int>)
    requires a <= b && |a| == |b|
    ensures a == b
  {
    assert b == a + (b - a);
  }

  lemma MigratedIsStorable(s: LegacySession, preservePlan: bool)
    requires s.messages != [] && WellPaired(s.messages) && ValidName(s.name) && Readable(s, preservePlan)
    ensures Storable(MigratedRecord(s, preservePlan)) && Numbered(MigratedRecord(s, preservePlan).turns)
  {
    hide TitleOf, ParseReasoning, DecodeTable, HistoryOf, PlanOf, ValidPlan;
    MigratedItems(s.messages);
    MigratedTurns(s.messages);
    PlanReads(s, preservePlan);
    hide WellPaired, Readable;
    assert |HistoryOf(s.messages)| == |s.messages| by { HistoryLength(s.messages); }
  }

  lemma HistoryLength(messages: seq<LegacyMessage>)
    ensures |HistoryOf(messages)| == |messages|
  {
  }

  lemma MigratedIsCanonical(s: LegacySession, preservePlan: bool)
    requires s.messages != [] && WellPaired(s.messages) && ValidName(s.name)
    ensures Canonical(s.id, MigratedRows(s, preservePlan)) <==> Readable(s, preservePlan)
  {
    hide WellPaired, ValidName, MigratedRows, Readable, LoadRows, Storable, Numbered, EncodeRows;
    ReadableIsExact(s, preservePlan);
    if Readable(s, preservePlan) {
      MigratedReadsBack(s, preservePlan);
      MigratedIsStorable(s, preservePlan);
      MigratedEncodes(s, preservePlan);
    }
  }

  lemma MigratedEncodes(s: LegacySession, preservePlan: bool)
    requires s.messages != [] && WellPaired(s.messages) && ValidName(s.name) && Readable(s, preservePlan)
    requires Storable(MigratedRecord(s, preservePlan))
    ensures EncodeRows(MigratedRecord(s, preservePlan)) == MigratedRows(s, preservePlan)
  {
    MigratedTables(s, preservePlan);
    ReasoningReads(s.reasoning);
    EncodeRowsOf(MigratedRecord(s, preservePlan));
    if preservePlan {
      PlanIsCanonical(s.plan);
    } else {
      EmptyTables();
    }
    hide WellPaired, TitleOf, SourceOf, ParseReasoning, ReasoningText, DecodeTable, Storable, ItemTable, TurnTable;
    hide MessageTable, PlanTable, SourceText, HistoryOf, TranscriptOf, TurnsOf;
  }

  lemma {:induction false} LastKeptIsLast(legacy: seq<LegacySession>)
    requires Ordered(legacy)
    ensures 0 <= LastKept(legacy) <= I64_MAX
    ensures forall i :: 0 <= i < |legacy| && legacy[i].messages != [] ==> legacy[i].id <= LastKept(legacy)
    ensures LastKept(legacy) > 0 ==> Kept(legacy, LastKept(legacy))
  {
    if legacy != [] {
      var shorter := legacy[..|legacy| - 1];
      LastKeptIsLast(shorter);
      assert forall i :: 0 <= i < |shorter| ==> shorter[i] == legacy[i];
    }
  }

  /**
    A migrated store is one that the current store could have written, exactly if every kept session is
    readable. Its sessions are then exactly those with messages, each with its identity, messages and
    surviving plan, consistent, with nothing running, and unchanged by opening.
   */
  lemma MigratedStoreIsValid(db: Database, legacy: seq<LegacySession>, preservePlan: bool)
    requires Ordered(legacy) && Holds(db, legacy, preservePlan)
    ensures ValidDatabase(db) <==>
      forall i :: 0 <= i < |legacy| && legacy[i].messages != [] ==> Readable(legacy[i], preservePlan)
    ensures ValidDatabase(db) ==> forall i :: 0 <= i < |legacy| && legacy[i].messages != [] ==>
      && legacy[i].id in Decoded(db) && Readable(legacy[i], preservePlan) && Migratable(legacy[i])
      && var r := Decoded(db)[legacy[i].id];
         && r == MigratedRecord(legacy[i], preservePlan)
         && Consistent(r) && Settled(r.turns) && Interrupt(r) == r
  {
    hide WellPaired, ValidName, MigratedRows, Readable, Canonical, LoadRows, Consistent, Settled, Interrupt;
    hide MigratedRecord;
    LastKeptIsLast(legacy);
    forall i | 0 <= i < |legacy| && legacy[i].messages != []
      ensures Canonical(legacy[i].id, db.sessions[legacy[i].id]) <==> Readable(legacy[i], preservePlan)
      ensures legacy[i].id in db.sessions && legacy[i].id <= db.lastId
    {
      KeptIsCanonical(db, legacy, i, preservePlan);
    }
    if ValidDatabase(db) {
      forall i | 0 <= i < |legacy| && legacy[i].messages != []
        ensures legacy[i].id in Decoded(db) && Readable(legacy[i], preservePlan) && Migratable(legacy[i])
        ensures var r := Decoded(db)[legacy[i].id];
                && r == MigratedRecord(legacy[i], preservePlan)
                && Consistent(r) && Settled(r.turns) && Interrupt(r) == r
      {
        KeptReads(db, legacy[i], preservePlan);
      }
    }
  }

  lemma KeptIsCanonical(db: Database, legacy: seq<LegacySession>, i: nat, preservePlan: bool)
    requires Holds(db, legacy, preservePlan) && i < |legacy| && legacy[i].messages != []
    requires legacy[i].id <= LastKept(legacy)
    ensures legacy[i].id in db.sessions && legacy[i].id <= db.lastId
    ensures Canonical(legacy[i].id, db.sessions[legacy[i].id]) <==> Readable(legacy[i], preservePlan)
  {
    hide WellPaired, ValidName, MigratedRows, Readable, Canonical;
    MigratedIsCanonical(legacy[i], preservePlan);
  }

  lemma KeptReads(db: Database, s: LegacySession, preservePlan: bool)
    requires ValidDatabase(db) && s.id in db.sessions && s.messages != [] && Migratable(s)
    requires db.sessions[s.id] == MigratedRows(s, preservePlan) && Readable(s, preservePlan)
    ensures var r := Decoded(db)[s.id];
            && r == MigratedRecord(s, preservePlan)
            && Consistent(r) && Settled(r.turns) && Interrupt(r) == r
  {
    hide WellPaired, ValidName, MigratedRows, Readable, Canonical, LoadRows, MigratedRecord;
    MigratedReadsBack(s, preservePlan);
    MigratedSessionsAreConsistent(s, preservePlan);
  }

  /** The legacy AUTOINCREMENT counter: at least every identity that is still there, zero if none was ever given out. */
  predicate Counted(legacy: seq<LegacySession>, counter: nat) {
    counter <= I64_MAX && forall i :: 0 <= i < |legacy| ==> legacy[i].id <= counter
  }

  /**
    The counter is not carried over: the next session that the migrated store creates gets an identity
    that had been given out before, exactly unless the session that was created last is kept.
   */
  lemma IdentitiesReturn(db: Database, legacy: seq<LegacySession>, preservePlan: bool, counter: nat)
    requires Ordered(legacy) && Counted(legacy, counter) && Holds(db, legacy, preservePlan)
    ensures db.lastId <= counter
    ensures NextIdentity(db) <= counter <==> counter > 0 && !Kept(legacy, counter)
  {
    hide MigratedRows, Migratable;
    LastKeptIsLast(legacy);
    if counter > 0 && Kept(legacy, counter) {
      var i :| 0 <= i < |legacy| && legacy[i].id == counter && legacy[i].messages != [];
      assert counter <= LastKept(legacy);
    }
  }
}
