/** The SQLite tables behind the repository: rows, their encoding, and the statements of each operation. */
module Store {
  import opened Prelude
  import opened Titles
  import opened Records
  import opened Transcripts
  import opened Repository

  // ---------- rows ----------

  /** A timestamp column, as the instant its text stands for; `None` is text that is not RFC 3339. */
  type Timestamp = Option<int>

  datatype SessionRow = SessionRow(
    title: string, titleSource: string, titleRevision: int, cwd: seq<byte>, model: string,
    reasoning: string, contextTokens: int, createdAt: Timestamp, lastActivity: Timestamp)

  datatype MessageRow = MessageRow(role: string, text: string)

  datatype ItemRow = ItemRow(
    kind: string, text: Option<string>, runId: Option<int>, callId: Option<string>, toolName: Option<string>,
    argumentsJson: Option<string>, failureStage: Option<string>, failureKind: Option<string>,
    failureHttpStatus: Option<int>, failureRetryable: Option<int>, failureMessage: Option<string>)

  datatype TurnRow = TurnRow(runId: int, promptPosition: int, status: string)

  datatype PlanRow = PlanRow(step: string, status: string)

  /** One session and its child rows; children are keyed by their position column. */
  datatype Rows = Rows(
    session: SessionRow, messages: map<int, MessageRow>, items: map<int, ItemRow>,
    turns: map<int, TurnRow>, plan: map<int, PlanRow>)

  /** `lastId` is the AUTOINCREMENT counter: deleting a session does not lower it. */
  datatype Database = Database(lastId: int, sessions: map<SessionId, Rows>)

  /** The identity that the next created session gets. */
  function NextIdentity(db: Database): int {
    db.lastId + 1
  }

  // ---------- stored spellings ----------

  function SourceText(source: TitleSource): string {
    match source
    case Fallback => "fallback"
    case Generated => "generated"
    case Manual => "manual"
  }

  function ParseSource(text: string): Option<TitleSource> {
    if text == "fallback" then Some(Fallback)
    else if text == "generated" then Some(Generated)
    else if text == "manual" then Some(Manual)
    else None
  }

  function ReasoningText(level: ReasoningLevel): string {
    match level
    case NoReasoning => "none"
    case Minimal => "minimal"
    case Low => "low"
    case Medium => "medium"
    case High => "high"
    case Xhigh => "xhigh"
    case Max => "max"
  }

  function ParseReasoning(text: string): Option<ReasoningLevel> {
    if text == "none" then Some(NoReasoning)
    else if text == "minimal" then Some(Minimal)
    else if text == "low" then Some(Low)
    else if text == "medium" then Some(Medium)
    else if text == "high" then Some(High)
    else if text == "xhigh" then Some(Xhigh)
    else if text == "max" then Some(Max)
    else None
  }

  function StageText(stage: RunStage): string {
    match stage
    case Startup => "startup"
    case ModelRequest => "model_request"
    case ToolExecution => "tool_execution"
    case Finalization => "finalization"
  }

  function ParseStage(text: string): Option<RunStage> {
    if text == "startup" then Some(Startup)
    else if text == "model_request" then Some(ModelRequest)
    else if text == "tool_execution" then Some(ToolExecution)
    else if text == "finalization" then Some(Finalization)
    else None
  }

  function KindText(kind: FailureKind): string {
    match kind
    case Authentication => "authentication"
    case Transport => "transport"
    case HttpRejected(_) => "http_rejected"
    case Protocol => "protocol"
    case EmptyResponse => "empty_response"
    case BudgetExhausted => "budget_exhausted"
    case RuntimeInfrastructure => "runtime_infrastructure"
    case ToolInfrastructure => "tool_infrastructure"
  }

  function KindStatus(kind: FailureKind): Option<int> {
    if kind.HttpRejected? then Some(kind.status) else None
  }

  function ParseKind(text: string, status: Option<int>): Option<FailureKind> {
    if text == "authentication" then Some(Authentication)
    else if text == "transport" then Some(Transport)
    else if text == "http_rejected" then
      (if status.Some? && 0 <= status.value < 0x1_0000 then Some(HttpRejected(status.value)) else None)
    else if text == "protocol" then Some(Protocol)
    else if text == "empty_response" then Some(EmptyResponse)
    else if text == "budget_exhausted" then Some(BudgetExhausted)
    else if text == "runtime_infrastructure" then Some(RuntimeInfrastructure)
    else if text == "tool_infrastructure" then Some(ToolInfrastructure)
    else None
  }

  function StatusText(status: TurnStatus): string {
    match status
    case Running => "running"
    case Completed => "completed"
    case Failed => "failed"
    case Cancelled => "cancelled"
    case Interrupted => "interrupted"
  }

  function ParseStatus(text: string): Option<TurnStatus> {
    if text == "running" then Some(TurnStatus.Running)
    else if text == "completed" then Some(TurnStatus.Completed)
    else if text == "failed" then Some(TurnStatus.Failed)
    else if text == "cancelled" then Some(TurnStatus.Cancelled)
    else if text == "interrupted" then Some(TurnStatus.Interrupted)
    else None
  }

  function PlanStatusText(status: PlanStatus): string {
    match status
    case Pending => "pending"
    case InProgress => "in_progress"
    case Done => "completed"
    case Blocked => "blocked"
    case Abandoned => "cancelled"
  }

  function ParsePlanStatus(text: string): Option<PlanStatus> {
    if text == "pending" then Some(Pending)
    else if text == "in_progress" then Some(InProgress)
    else if text == "completed" then Some(Done)
    else if text == "blocked" then Some(Blocked)
    else if text == "cancelled" then Some(Abandoned)
    else None
  }

  /** Every stored spelling is read back as the value that was written. */
  lemma SpellingsReadBack(source: TitleSource, level: ReasoningLevel, status: TurnStatus, planStatus: PlanStatus)
    ensures ParseSource(SourceText(source)) == Some(source)
    ensures ParseReasoning(ReasoningText(level)) == Some(level)
    ensures ParseStatus(StatusText(status)) == Some(status)
    ensures ParsePlanStatus(PlanStatusText(planStatus)) == Some(planStatus)
  {
  }

  lemma FailureSpellingsReadBack(stage: RunStage, kind: FailureKind)
    ensures ParseStage(StageText(stage)) == Some(stage)
    ensures ParseKind(KindText(kind), KindStatus(kind)) == Some(kind)
  {
  }

  /** Nothing else is read than what the schema allows to be stored. */
  lemma SpellingsRead(text: string)
    ensures ParseSource(text).Some? <==> text in {"fallback", "generated", "manual"}
    ensures ParseReasoning(text).Some? <==> text in {"none", "minimal", "low", "medium", "high", "xhigh", "max"}
    ensures ParseStatus(text).Some? <==> text in {"running", "completed", "failed", "cancelled", "interrupted"}
    ensures ParsePlanStatus(text).Some? <==> text in {"pending", "in_progress", "completed", "blocked", "cancelled"}
  {
  }

  lemma FailureSpellingsRead(text: string, status: Option<int>)
    ensures ParseStage(text).Some? <==> text in {"startup", "model_request", "tool_execution", "finalization"}
    ensures ParseKind(text, status).Some? <==>
      || text in {"authentication", "transport", "protocol", "empty_response", "budget_exhausted",
                  "runtime_infrastructure", "tool_infrastructure"}
      || (text == "http_rejected" && status.Some? && 0 <= status.value <= 0xFFFF)
  {
  }

  /** The spellings themselves, as the schema and older databases have them. */
  lemma SpellingsAre()
    ensures SourceText(Fallback) == "fallback" && SourceText(Generated) == "generated" && SourceText(Manual) == "manual"
    ensures StatusText(Running) == "running" && StatusText(TurnStatus.Completed) == "completed"
    ensures StatusText(TurnStatus.Failed) == "failed" && StatusText(TurnStatus.Cancelled) == "cancelled"
    ensures StatusText(TurnStatus.Interrupted) == "interrupted"
    ensures PlanStatusText(Pending) == "pending" && PlanStatusText(InProgress) == "in_progress"
    ensures PlanStatusText(Done) == "completed" && PlanStatusText(Blocked) == "blocked"
    ensures PlanStatusText(Abandoned) == "cancelled"
    ensures ReasoningText(NoReasoning) == "none" && ReasoningText(Minimal) == "minimal" && ReasoningText(Low) == "low"
    ensures ReasoningText(Medium) == "medium" && ReasoningText(High) == "high" && ReasoningText(Xhigh) == "xhigh"
    ensures ReasoningText(Max) == "max"
  {
  }

  lemma FailureSpellingsAre(status: int)
    requires 0 <= status <= 0xFFFF
    ensures KindText(HttpRejected(status)) == "http_rejected" && KindStatus(HttpRejected(status)) == Some(status)
    ensures StageText(Startup) == "startup" && StageText(ModelRequest) == "model_request"
    ensures StageText(ToolExecution) == "tool_execution" && StageText(Finalization) == "finalization"
    ensures KindText(Authentication) == "authentication" && KindText(Transport) == "transport"
    ensures KindText(Protocol) == "protocol" && KindText(EmptyResponse) == "empty_response"
    ensures KindText(BudgetExhausted) == "budget_exhausted" && KindText(RuntimeInfrastructure) == "runtime_infrastructure"
    ensures KindText(ToolInfrastructure) == "tool_infrastructure"
  {
  }

  // ---------- row codecs ----------

  function EncodeMessage(message: Message): MessageRow {
    MessageRow(if message.role == UserRole then "user" else "assistant", message.text)
  }

  function DecodeMessage(position: int, row: MessageRow): Result<Message, StoreError> {
    if row.role == "user" then Ok(Message(UserRole, row.text))
    else if row.role == "assistant" then Ok(Message(AssistantRole, row.text))
    else Err(InvalidStored)
  }

  function EncodeItem(item: Item): Result<ItemRow, StoreError> {
    if !ItemInRange(item) then Err(OutOfRange)
    else Ok(
      match item
      case User(text) => ItemRow("user", Some(text), None, None, None, None, None, None, None, None, None)
      case Assistant(text) => ItemRow("assistant", Some(text), None, None, None, None, None, None, None, None, None)
      case ToolStarted(runId, callId, name, arguments) =>
        ItemRow("tool_started", None, Some(runId), Some(callId), Some(name), Some(arguments.text),
                None, None, None, None, None)
      case Failed(runId, failure) =>
        ItemRow("failed", None, Some(runId), None, None, None, Some(StageText(failure.stage)),
                Some(KindText(failure.kind)), KindStatus(failure.kind),
                Some(if failure.retryable then 1 else 0), Some(failure.message))
      case Cancelled(runId) =>
        ItemRow("cancelled", None, Some(runId), None, None, None, None, None, None, None, None))
  }

  predicate IsU64(value: Option<int>) {
    value.Some? && 0 <= value.value <= U64_MAX
  }

  function DecodeItem(position: int, row: ItemRow): Result<Item, StoreError> {
    if row.kind == "user" then
      (if row.text.Some? then Ok(User(row.text.value)) else Err(InvalidStored))
    else if row.kind == "assistant" then
      (if row.text.Some? then Ok(Assistant(row.text.value)) else Err(InvalidStored))
    else if row.kind == "tool_started" then
      (if row.argumentsJson.Some? && IsU64(row.runId) && row.callId.Some? && row.toolName.Some? then
         Ok(Item.ToolStarted(row.runId.value, row.callId.value, row.toolName.value, Json(row.argumentsJson.value)))
       else Err(InvalidStored))
    else if row.kind == "failed" then DecodeFailure(row)
    else if row.kind == "cancelled" then
      (if IsU64(row.runId) then Ok(Item.Cancelled(row.runId.value)) else Err(InvalidStored))
    else Err(InvalidStored)
  }

  function DecodeFailure(row: ItemRow): Result<Item, StoreError> {
    if !IsU64(row.runId) || row.failureStage.None? || row.failureKind.None?
       || row.failureRetryable.None? || row.failureMessage.None? then Err(InvalidStored)
    else
      var stage := ParseStage(row.failureStage.value);
      var kind := ParseKind(row.failureKind.value, row.failureHttpStatus);
      var retryable := row.failureRetryable.value;
      if stage.None? || kind.None? || retryable !in {0, 1} then Err(InvalidStored)
      else Ok(Item.Failed(row.runId.value,
                          Failure.Failure(stage.value, kind.value, retryable == 1, row.failureMessage.value)))
  }

  function EncodeTurn(turn: Turn): TurnRow {
    TurnRow(turn.runId, turn.promptPosition, StatusText(turn.status))
  }

  function DecodeTurn(ordinal: int, row: TurnRow): Result<Turn, StoreError> {
    if 0 <= ordinal && 0 <= row.runId <= U64_MAX && 0 <= row.promptPosition && ParseStatus(row.status).Some? then
      Ok(Turn(ordinal, row.runId, row.promptPosition, ParseStatus(row.status).value))
    else Err(InvalidStored)
  }

  function EncodePlanItem(item: PlanItem): PlanRow {
    PlanRow(item.step, PlanStatusText(item.status))
  }

  function DecodePlanItem(position: int, row: PlanRow): Result<PlanItem, StoreError> {
    if ParsePlanStatus(row.status).None? then Err(InvalidStored)
    else
      var item := PlanItem(row.step, ParsePlanStatus(row.status).value);
      if ValidPlanItem(item) then Ok(item) else Err(InvalidStored)
  }

  /** Each row codec is exact: an encoded value decodes to itself. */
  lemma ItemReadsBack(position: int, item: Item)
    ensures EncodeItem(item).Ok? <==> ItemInRange(item)
    ensures EncodeItem(item).Ok? ==> DecodeItem(position, EncodeItem(item).value) == Ok(item)
  {
    hide ParseStage, ParseKind, StageText, KindText, KindStatus;
    if item.Failed? {
      FailureSpellingsReadBack(item.failure.stage, item.failure.kind);
    }
  }

  // ---------- whole sessions ----------

  /** The first `k` rows of a table in position order; a gap or an unreadable row is an error. */
  function DecodeTable<R, T>(table: map<int, R>, decode: (int, R) -> Result<T, StoreError>, k: nat)
    : Result<seq<T>, StoreError>
  {
    if k == 0 then Ok([])
    else match DecodeTable(table, decode, k - 1)
      case Err(e) => Err(e)
      case Ok(xs) =>
        if k - 1 !in table then Err(InvalidStored)
        else match decode(k - 1, table[k - 1])
          case Err(e) => Err(e)
          case Ok(x) => Ok(xs + [x])
  }

  lemma {:induction false} TableReadsBack<R, T>(
    table: map<int, R>, decode: (int, R) -> Result<T, StoreError>, xs: seq<T>, k: nat)
    requires k <= |xs|
    requires forall i :: 0 <= i < |xs| ==> i in table && decode(i, table[i]) == Ok(xs[i])
    ensures DecodeTable(table, decode, k) == Ok(xs[..k])
  {
    if k > 0 {
      TableReadsBack(table, decode, xs, k - 1);
      assert xs[..k] == xs[..k - 1] + [xs[k - 1]];
    }
  }

  /** A table is readable exactly if it has no gap and every row decodes, and then to those rows in order. */
  lemma {:induction false} TableMeans<R, T>(table: map<int, R>, decode: (int, R) -> Result<T, StoreError>, k: nat)
    ensures DecodeTable(table, decode, k).Ok? <==> forall i :: 0 <= i < k ==> i in table && decode(i, table[i]).Ok?
    ensures DecodeTable(table, decode, k).Ok? ==>
      && |DecodeTable(table, decode, k).value| == k
      && forall i :: 0 <= i < k ==> decode(i, table[i]) == Ok(DecodeTable(table, decode, k).value[i])
  {
    if k > 0 {
      TableMeans(table, decode, k - 1);
    }
  }

  function DecodeSession(id: SessionId, row: SessionRow): Result<Record, StoreError> {
    if ParseReasoning(row.reasoning).None? || !(0 <= row.contextTokens <= U64_MAX) || !ValidTitle(row.title)
       || ParseSource(row.titleSource).None? || !(0 <= row.titleRevision <= U64_MAX)
       || row.createdAt.None? || row.lastActivity.None? then Err(InvalidStored)
    else Ok(Record(
      id, row.title, ParseSource(row.titleSource).value, row.titleRevision, row.cwd,
      Settings(row.model, ParseReasoning(row.reasoning).value, row.contextTokens),
      [], [], [], [], row.createdAt.value, row.lastActivity.value))
  }

  function EncodeSession(r: Record): SessionRow {
    SessionRow(r.title, SourceText(r.titleSource), r.titleRevision, r.cwd, r.settings.model,
               ReasoningText(r.settings.reasoning), r.settings.contextTokens, Some(r.createdAt), Some(r.lastActivity))
  }

  /** Reading one session back from its rows. */
  function LoadRows(id: SessionId, rows: Rows): Result<Record, StoreError> {
    match DecodeSession(id, rows.session)
    case Err(e) => Err(e)
    case Ok(r) =>
      match DecodeTable(rows.messages, DecodeMessage, |rows.messages|)
      case Err(e) => Err(e)
      case Ok(history) =>
        match DecodeTable(rows.items, DecodeItem, |rows.items|)
        case Err(e) => Err(e)
        case Ok(transcript) =>
          match DecodeTable(rows.turns, DecodeTurn, |rows.turns|)
          case Err(e) => Err(e)
          case Ok(turns) =>
            match DecodeTable(rows.plan, DecodePlanItem, |rows.plan|)
            case Err(e) => Err(e)
            case Ok(plan) =>
              if !ValidPlan(plan) then Err(InvalidStored)
              else Ok(r.(history := history, transcript := transcript, turns := turns, plan := plan))
  }

  function ItemTable(items: seq<Item>): map<int, ItemRow>
    requires forall i :: 0 <= i < |items| ==> ItemInRange(items[i])
  {
    map i | 0 <= i < |items| :: EncodeItem(items[i]).value
  }

  function TurnTable(turns: seq<Turn>): map<int, TurnRow> {
    map i | 0 <= i < |turns| :: EncodeTurn(turns[i])
  }

  function MessageTable(history: seq<Message>): map<int, MessageRow> {
    map i | 0 <= i < |history| :: EncodeMessage(history[i])
  }

  function PlanTable(plan: seq<PlanItem>): map<int, PlanRow> {
    map i | 0 <= i < |plan| :: EncodePlanItem(plan[i])
  }

  /** The rows that stand for a record. */
  function EncodeRows(r: Record): Rows
    requires Storable(r)
  {
    Rows(EncodeSession(r), MessageTable(r.history), ItemTable(r.transcript), TurnTable(r.turns), PlanTable(r.plan))
  }

  /** The turn rows of any turns, each under the position that the turn carries. */
  function TurnRowsOf(turns: seq<Turn>): map<int, TurnRow> {
    if turns == [] then map[]
    else TurnRowsOf(turns[..|turns| - 1])[turns[|turns| - 1].ordinal := EncodeTurn(turns[|turns| - 1])]
  }

  predicate DistinctOrdinals(turns: seq<Turn>) {
    forall i, j :: 0 <= i < j < |turns| ==> turns[i].ordinal != turns[j].ordinal
  }

  function RowsWith(r: Record, turns: map<int, TurnRow>): Rows
    requires Storable(r)
  {
    EncodeRows(r).(turns := turns)
  }

  /** What a checkpoint does to the tables, whatever positions the record's turns carry. */
  ghost predicate Replaces(before: Database, after: Database, result: Result<(), StoreError>, r: Record, refuse: bool)
    requires ValidDatabase(before)
  {
    match Repository.Checkpoint(Decoded(before), r, refuse)
    case Err(e) => result == Err(e) && after == before
    case Ok(records) =>
      if !DistinctOrdinals(r.turns) then result == Err(DatabaseFailed) && after == before
      else
        && result == Ok(())
        && after == before.(sessions := before.sessions[r.id := RowsWith(records[r.id], TurnRowsOf(r.turns))])
  }

  lemma {:induction false} TurnRowKeys(turns: seq<Turn>, ordinal: int)
    ensures ordinal in TurnRowsOf(turns) <==> exists k :: 0 <= k < |turns| && turns[k].ordinal == ordinal
  {
    if turns != [] {
      var shorter := turns[..|turns| - 1];
      TurnRowKeys(shorter, ordinal);
      if ordinal in TurnRowsOf(shorter) {
        var k :| 0 <= k < |shorter| && shorter[k].ordinal == ordinal;
        assert turns[k].ordinal == ordinal;
      }
    }
  }

  lemma TurnRowsGrow(turns: seq<Turn>, i: nat)
    requires i < |turns| && DistinctOrdinals(turns[..i])
    ensures TurnRowsOf(turns[..i + 1]) == TurnRowsOf(turns[..i])[turns[i].ordinal := EncodeTurn(turns[i])]
    ensures turns[i].ordinal !in TurnRowsOf(turns[..i]) ==> DistinctOrdinals(turns[..i + 1])
  {
    TurnRowKeys(turns[..i], turns[i].ordinal);
    assert turns[..i + 1][..i] == turns[..i];
    if turns[i].ordinal !in TurnRowsOf(turns[..i]) {
      forall k | 0 <= k < i ensures turns[..i][k].ordinal != turns[i].ordinal {
      }
      assert turns[..i + 1] == turns[..i] + [turns[i]];
    }
  }

  lemma SharedOrdinal(turns: seq<Turn>, i: nat)
    requires i < |turns| && turns[i].ordinal in TurnRowsOf(turns[..i])
    ensures !DistinctOrdinals(turns) && !Numbered(turns)
  {
    TurnRowKeys(turns[..i], turns[i].ordinal);
    var k :| 0 <= k < i && turns[..i][k].ordinal == turns[i].ordinal;
    assert turns[k].ordinal == turns[i].ordinal;
  }

  /** Turns that carry their own positions are stored under them. */
  lemma {:induction false} NumberedRows(turns: seq<Turn>)
    requires Numbered(turns)
    ensures TurnRowsOf(turns) == TurnTable(turns) && DistinctOrdinals(turns)
  {
    if turns != [] {
      NumberedRows(turns[..|turns| - 1]);
    }
  }

  function Below(n: nat): (s: set<int>)
    ensures |s| == n && forall i :: i in s <==> 0 <= i < n
  {
    if n == 0 then {} else Below(n - 1) + {n - 1}
  }

  lemma TableSize<R>(table: map<int, R>, n: nat)
    requires forall i :: i in table <==> 0 <= i < n
    ensures |table| == n
  {
    assert table.Keys == Below(n);
  }

  lemma SessionReadsBack(r: Record)
    ensures DecodeSession(r.id, EncodeSession(r)) ==
      Ok(r.(history := [], transcript := [], turns := [], plan := []))
  {
    SpellingsReadBack(r.titleSource, r.settings.reasoning, Running, Pending);
  }

  lemma ItemsReadBack(items: seq<Item>)
    requires forall i :: 0 <= i < |items| ==> ItemInRange(items[i])
    ensures DecodeTable(ItemTable(items), DecodeItem, |ItemTable(items)|) == Ok(items)
  {
    hide EncodeItem, DecodeItem;
    var table := ItemTable(items);
    forall i | 0 <= i < |items| ensures i in table && DecodeItem(i, table[i]) == Ok(items[i]) {
      ItemReadsBack(i, items[i]);
    }
    TableSize(table, |items|);
    TableReadsBack(table, DecodeItem, items, |items|);
    assert items[..|items|] == items;
  }

  lemma TurnsReadBack(turns: seq<Turn>)
    requires Numbered(turns)
    ensures DecodeTable(TurnTable(turns), DecodeTurn, |TurnTable(turns)|) == Ok(turns)
  {
    var table := TurnTable(turns);
    forall i | 0 <= i < |turns| ensures i in table && DecodeTurn(i, table[i]) == Ok(turns[i]) {
      SpellingsReadBack(Manual, Low, turns[i].status, Pending);
    }
    TableSize(table, |turns|);
    TableReadsBack(table, DecodeTurn, turns, |turns|);
    assert turns[..|turns|] == turns;
  }

  lemma MessagesReadBack(history: seq<Message>)
    ensures DecodeTable(MessageTable(history), DecodeMessage, |MessageTable(history)|) == Ok(history)
  {
    TableSize(MessageTable(history), |history|);
    TableReadsBack(MessageTable(history), DecodeMessage, history, |history|);
    assert history[..|history|] == history;
  }

  lemma PlanReadsBack(plan: seq<PlanItem>)
    requires ValidPlan(plan)
    ensures DecodeTable(PlanTable(plan), DecodePlanItem, |PlanTable(plan)|) == Ok(plan)
  {
    var table := PlanTable(plan);
    forall i | 0 <= i < |plan| ensures i in table && DecodePlanItem(i, table[i]) == Ok(plan[i]) {
      SpellingsReadBack(Manual, Low, Running, plan[i].status);
    }
    TableSize(table, |plan|);
    TableReadsBack(table, DecodePlanItem, plan, |plan|);
    assert plan[..|plan|] == plan;
  }

  /** Every storable record with numbered turns is read back from its rows unchanged. */
  lemma RowsReadBack(r: Record)
    requires Storable(r) && Numbered(r.turns)
    ensures LoadRows(r.id, EncodeRows(r)) == Ok(r)
  {
    hide EncodeSession, DecodeSession, DecodeTable, ItemTable, TurnTable, MessageTable, PlanTable;
    SessionReadsBack(r);
    MessagesReadBack(r.history);
    ItemsReadBack(r.transcript);
    TurnsReadBack(r.turns);
    PlanReadsBack(r.plan);
  }

  predicate InColumn(value: Option<int>) {
    value.Some? ==> -I64_MAX - 1 <= value.value <= I64_MAX
  }

  /** The column checks of the tables, and what an integer column can hold. */
  predicate ItemFitsSchema(row: ItemRow) {
    && row.kind in {"user", "assistant", "tool_started", "failed", "cancelled"}
    && row.failureRetryable in {None, Some(0), Some(1)}
    && InColumn(row.runId) && InColumn(row.failureHttpStatus)
  }

  ghost predicate FitsSchema(rows: Rows) {
    && rows.session.titleSource in {"fallback", "generated", "manual"}
    && InColumn(Some(rows.session.titleRevision)) && InColumn(Some(rows.session.contextTokens))
    && (forall i :: i in rows.messages ==> rows.messages[i].role in {"user", "assistant"})
    && (forall i :: i in rows.items ==> ItemFitsSchema(rows.items[i]))
    && (forall i :: i in rows.turns ==>
          && rows.turns[i].status in {"running", "completed", "failed", "cancelled", "interrupted"}
          && InColumn(Some(rows.turns[i].runId)) && InColumn(Some(rows.turns[i].promptPosition)))
    && (forall i :: i in rows.plan ==>
          i >= 0 && rows.plan[i].status in {"pending", "in_progress", "completed", "blocked", "cancelled"})
  }

  /** Which column holds what. */
  lemma ItemColumns(item: Item, message: Message, turn: Turn)
    requires ItemInRange(item)
    ensures var row := EncodeItem(item).value;
            && (item.User? ==> row.kind == "user" && row.text == Some(item.text))
            && (item.Assistant? ==> row.kind == "assistant" && row.text == Some(item.text))
            && (!item.User? && !item.Assistant? ==> row.text == None && row.runId == Some(item.runId))
            && (item.ToolStarted? ==> row.kind == "tool_started" && row.callId == Some(item.callId)
                                      && row.toolName == Some(item.name) && row.argumentsJson == Some(item.arguments.text))
            && (item.Failed? ==> row.kind == "failed" && row.failureMessage == Some(item.failure.message)
                                 && row.failureRetryable == Some(if item.failure.retryable then 1 else 0))
            && (item.Cancelled? ==> row.kind == "cancelled")
    ensures EncodeMessage(message).text == message.text
    ensures EncodeMessage(message).role == if message.role.UserRole? then "user" else "assistant"
    ensures EncodeTurn(turn).runId == turn.runId && EncodeTurn(turn).promptPosition == turn.promptPosition
  {
    hide StageText, KindText, StatusText;
  }

  lemma ItemRowFits(item: Item)
    requires ItemInRange(item)
    ensures ItemFitsSchema(EncodeItem(item).value)
  {
    hide StageText, KindText;
  }

  /** No write of a storable record is refused by a check of the schema or by the range of a column. */
  lemma StorableFitsSchema(r: Record)
    requires Storable(r)
    ensures FitsSchema(EncodeRows(r))
  {
    hide ItemFitsSchema;
    forall i | 0 <= i < |r.transcript| ensures ItemFitsSchema(ItemTable(r.transcript)[i]) {
      ItemRowFits(r.transcript[i]);
    }
  }

  // ---------- the store ----------

  /** Rows of one session that this store wrote. */
  ghost predicate Canonical(id: SessionId, rows: Rows) {
    && LoadRows(id, rows).Ok?
    && LoadRows(id, rows).value.id == id
    && Storable(LoadRows(id, rows).value)
    && Numbered(LoadRows(id, rows).value.turns)
    && rows == EncodeRows(LoadRows(id, rows).value)
  }

  lemma EncodedIsCanonical(r: Record)
    requires Storable(r) && Numbered(r.turns)
    ensures Canonical(r.id, EncodeRows(r)) && LoadRows(r.id, EncodeRows(r)) == Ok(r)
  {
    hide EncodeRows, LoadRows, Storable, Numbered;
    RowsReadBack(r);
  }

  ghost predicate ValidDatabase(db: Database) {
    && 0 <= db.lastId <= I64_MAX
    && forall id :: id in db.sessions ==> id <= db.lastId && Canonical(id, db.sessions[id])
  }

  /** The whole records that the tables stand for. */
  ghost function Decoded(db: Database): (sessions: Sessions)
    requires ValidDatabase(db)
    ensures sessions.Keys == db.sessions.Keys
  {
    map id | id in db.sessions :: LoadRows(id, db.sessions[id]).value
  }

  /** Replacing the rows of one session replaces its record and no other. */
  lemma ReplaceRows(db: Database, r: Record)
    requires ValidDatabase(db) && r.id <= db.lastId && Storable(r) && Numbered(r.turns)
    ensures var after := db.(sessions := db.sessions[r.id := EncodeRows(r)]);
            ValidDatabase(after) && Decoded(after) == Decoded(db)[r.id := r]
  {
    hide EncodeRows, LoadRows, Storable, Numbered, Canonical;
    EncodedIsCanonical(r);
  }

  lemma ReadsBack(db: Database, id: SessionId)
    requires ValidDatabase(db)
    ensures id in db.sessions ==>
      && LoadRows(id, db.sessions[id]) == Ok(Decoded(db)[id])
      && Decoded(db)[id].id == id <= db.lastId
      && Storable(Decoded(db)[id]) && Numbered(Decoded(db)[id].turns)
      && db.sessions[id] == EncodeRows(Decoded(db)[id])
  {
    hide EncodeRows, LoadRows, Storable, Numbered;
    if id in db.sessions {
      assert Canonical(id, db.sessions[id]);
    }
  }

  lemma RemoveRows(db: Database, id: SessionId)
    requires ValidDatabase(db)
    ensures var after := db.(sessions := db.sessions - {id});
            ValidDatabase(after) && Decoded(after) == Decoded(db) - {id}
  {
    hide Canonical, LoadRows;
  }

  class SessionStore {
    var db: Database

    ghost predicate Valid()
      reads this
    {
      ValidDatabase(db)
    }

    ghost function Contents(): (sessions: Sessions)
      reads this
      requires Valid()
    {
      Decoded(db)
    }

    constructor ()
      ensures Valid() && Contents() == map[] && db.lastId == 0
    {
      db := Database(0, map[]);
    }

    /** Reads one session inside a transaction, table by table in position order. */
    method LoadRecord(id: SessionId, tx: Database) returns (result: Result<Record, StoreError>)
      ensures result == if id in tx.sessions then LoadRows(id, tx.sessions[id]) else Err(NotFound)
    {
      hide DecodeSession, DecodeMessage, DecodeItem, DecodeTurn, DecodePlanItem, ValidPlan;
      if id !in tx.sessions {
        return Err(NotFound);
      }
      var rows := tx.sessions[id];
      var record := DecodeSession(id, rows.session);
      if record.Err? {
        return record;
      }
      var history := ReadTable(rows.messages, DecodeMessage);
      if history.Err? {
        return Err(history.error);
      }
      var transcript := ReadTable(rows.items, DecodeItem);
      if transcript.Err? {
        return Err(transcript.error);
      }
      var turns := ReadTable(rows.turns, DecodeTurn);
      if turns.Err? {
        return Err(turns.error);
      }
      var plan := ReadTable(rows.plan, DecodePlanItem);
      if plan.Err? {
        return Err(plan.error);
      }
      if !ValidPlan(plan.value) {
        return Err(InvalidStored);
      }
      return Ok(record.value.(history := history.value, transcript := transcript.value,
                              turns := turns.value, plan := plan.value));
    }

    /** One `SELECT … ORDER BY position`, checking that positions are contiguous from zero. */
    method ReadTable<R, T>(table: map<int, R>, decode: (int, R) -> Result<T, StoreError>)
      returns (result: Result<seq<T>, StoreError>)
      ensures result == DecodeTable(table, decode, |table|)
    {
      var rows := [];
      for expected := 0 to |table|
        invariant DecodeTable(table, decode, expected) == Ok(rows)
      {
        if expected !in table {
          TableErrorPersists(table, decode, expected + 1, |table|);
          return Err(InvalidStored);
        }
        var row := decode(expected, table[expected]);
        if row.Err? {
          TableErrorPersists(table, decode, expected + 1, |table|);
          return Err(row.error);
        }
        rows := rows + [row.value];
      }
      return Ok(rows);
    }

    /** Opens a session: turns left running are marked interrupted and get a closing transcript item. */
    method Load(id: SessionId, refuse: bool) returns (result: Result<Record, StoreError>)
      requires Valid()
      modifies this
      ensures Valid() && db.lastId == old(db.lastId)
      ensures result == Repository.Load(old(Contents()), id, refuse)
      ensures Contents() == if result.Ok? then old(Contents())[id := result.value] else old(Contents())
    {
      hide EncodeRows, LoadRows, Storable, Numbered, Canonical, ValidDatabase, Decoded, ItemTable, TurnTable;
      hide InterruptTurns, InterruptItems, RunningIds, Interrupt, InterruptRows, EncodeItem;
      if id > I64_MAX {
        return Err(OutOfRange);
      }
      if refuse {
        return Err(DatabaseFailed);
      }
      var tx := db;
      result := LoadRecord(id, tx);
      ReadsBack(db, id);
      if result.Err? {
        return;
      }
      var record := result.value;
      EncodeRowsOf(record);
      var running := RunningIds(record.turns);
      InterruptBasics(record);
      if running != [] {
        var rows := tx.sessions[id];
        rows := rows.(turns := InterruptRows(rows.turns));
        var items := rows.items;
        for offset := 0 to |running|
          invariant db == old(db) && PositionsInRange(|record.transcript| + offset)
          invariant AllInRange(record.transcript + InterruptItems(running[..offset]))
          invariant items == ItemTable(record.transcript + InterruptItems(running[..offset]))
        {
          if |record.transcript| + offset > I64_MAX {
            return Err(OutOfRange);
          }
          var row := EncodeItem(Item.Failed(running[offset], INTERRUPTION));
          OneMoreInterruption(record, offset);
          items := items[|record.transcript| + offset := row.value];
        }
        assert running[..|running|] == running;
        rows := rows.(items := items);
        tx := tx.(sessions := tx.sessions[id := rows]);
        InterruptTurnTable(record.turns);
        EncodeRowsOf(Interrupt(record));
        ReplaceRows(db, Interrupt(record));
        EncodedIsCanonical(Interrupt(record));
        result := LoadRecord(id, tx);
      }
      db := tx;
    }

    /**
      Replaces a session's metadata and all of its child rows in one transaction. Turns are stored under
      the positions they carry: two that carry the same one make the database refuse the transaction.
     */
    method Checkpoint(record: Record, refuse: bool) returns (result: Result<(), StoreError>)
      requires Valid()
      modifies this
      ensures Numbered(record.turns) ==>
        && Valid() && db.lastId == old(db.lastId)
        && (match Repository.Checkpoint(old(Contents()), record, refuse)
            case Ok(after) => result == Ok(()) && Contents() == after
            case Err(e) => result == Err(e) && db == old(db))
      ensures Replaces(old(db), db, result, record, refuse)
    {
      hide EncodeRows, LoadRows, ItemTable, MessageTable, TurnTable, PlanTable, ValidPlan, EncodeSession, Numbered;
      hide Canonical, ValidDatabase, Decoded, EncodeItem, EncodeMessage, EncodePlanItem, EncodeTurn;
      hide TurnInRange, PositionsInRange;
      ghost var before := Contents();
      if !ValidPlan(record.plan) {
        return Err(InvalidStored);
      }
      if !MetadataInRange(record) || !PositionsInRange(|record.history|) || !PositionsInRange(|record.transcript|) {
        return Err(OutOfRange);
      }
      var encoded := EncodeAll(record.transcript);
      if encoded.Err? {
        return Err(OutOfRange);
      }
      for i := 0 to |record.turns|
        invariant forall k :: 0 <= k < i ==> TurnInRange(record.turns[k])
      {
        if !TurnInRange(record.turns[i]) {
          return Err(OutOfRange);
        }
      }
      if refuse {
        return Err(DatabaseFailed);
      }
      if record.id !in db.sessions {
        return Err(NotFound);
      }
      var stored := db.sessions[record.id].session;
      var session := EncodeSession(record).(cwd := stored.cwd, createdAt := stored.createdAt);
      var messages: map<int, MessageRow> := map[];
      EmptyTables();
      for position := 0 to |record.history|
        invariant db == old(db) && messages == MessageTable(record.history[..position])
      {
        MessageTableGrows(record.history, position);
        messages := messages[position := EncodeMessage(record.history[position])];
      }
      var plan: map<int, PlanRow> := map[];
      for position := 0 to |record.plan|
        invariant db == old(db) && plan == PlanTable(record.plan[..position])
      {
        PlanTableGrows(record.plan, position);
        plan := plan[position := EncodePlanItem(record.plan[position])];
      }
      var items: map<int, ItemRow> := map[];
      for position := 0 to |encoded.value|
        invariant db == old(db) && items == ItemTable(record.transcript[..position])
      {
        ItemTableGrows(record.transcript, position);
        items := items[position := encoded.value[position]];
      }
      var turns: map<int, TurnRow> := map[];
      for i := 0 to |record.turns|
        invariant db == old(db) && turns == TurnRowsOf(record.turns[..i]) && DistinctOrdinals(record.turns[..i])
      {
        TurnRowsGrow(record.turns, i);
        if record.turns[i].ordinal in turns {
          SharedOrdinal(record.turns, i);
          return Err(DatabaseFailed);
        }
        turns := turns[record.turns[i].ordinal := EncodeTurn(record.turns[i])];
      }
      assert record.history[..|record.history|] == record.history && record.plan[..|record.plan|] == record.plan;
      assert record.transcript[..|record.transcript|] == record.transcript;
      assert record.turns[..|record.turns|] == record.turns;
      ghost var written := record.(cwd := before[record.id].cwd, createdAt := before[record.id].createdAt);
      ReadsBack(db, record.id);
      OriginOf(before[record.id]);
      EncodeRowsOf(written);
      EncodeSessionKeepsOrigin(record, written);
      if Numbered(record.turns) {
        NumberedRows(record.turns);
        ReplaceRows(db, written);
      }
      db := db.(sessions := db.sessions[record.id := Rows(session, messages, items, turns, plan)]);
      return Ok(());
    }

    method EncodeAll(items: seq<Item>) returns (result: Result<seq<ItemRow>, StoreError>)
      ensures result.Ok? <==> AllInRange(items)
      ensures result.Ok? ==> |result.value| == |items|
      ensures result.Ok? ==> forall i :: 0 <= i < |items| ==> EncodeItem(items[i]) == Ok(result.value[i])
    {
      var rows := [];
      for i := 0 to |items|
        invariant |rows| == i
        invariant forall k :: 0 <= k < i ==> ItemInRange(items[k]) && EncodeItem(items[k]) == Ok(rows[k])
      {
        var row := EncodeItem(items[i]);
        if row.Err? {
          return Err(OutOfRange);
        }
        rows := rows + [row.value];
      }
      return Ok(rows);
    }

    /** Title metadata, settings and activity time only; the child tables are left alone. */
    method UpdateMetadata(record: Record, refuse: bool) returns (result: Result<(), StoreError>)
      requires Valid()
      modifies this
      ensures Valid() && db.lastId == old(db.lastId)
      ensures match Repository.UpdateMetadata(old(Contents()), record, refuse)
              case Ok(after) => result == Ok(()) && Contents() == after
              case Err(e) => result == Err(e) && db == old(db)
    {
      if !MetadataInRange(record) {
        return Err(OutOfRange);
      }
      if refuse {
        return Err(DatabaseFailed);
      }
      if record.id !in db.sessions {
        return Err(NotFound);
      }
      var rows := db.sessions[record.id];
      var was := rows.session;
      ReplaceSession(db, WithMetadata(Contents()[record.id], record));
      db := db.(sessions := db.sessions[record.id := rows.(session := was.(
        title := record.title, titleSource := SourceText(record.titleSource), titleRevision := record.titleRevision,
        model := record.settings.model, reasoning := ReasoningText(record.settings.reasoning),
        contextTokens := record.settings.contextTokens, lastActivity := Some(record.lastActivity)))]);
      return Ok(());
    }

    method Rename(id: SessionId, title: SessionTitle, refuse: bool) returns (result: Result<Record, StoreError>)
      requires Valid()
      modifies this
      ensures Valid() && db.lastId == old(db.lastId)
      ensures result == Repository.Rename(old(Contents()), id, title, refuse)
      ensures Contents() == if result.Ok? then old(Contents())[id := result.value] else old(Contents())
    {
      hide EncodeRows, LoadRows, Storable, Numbered, Canonical, ValidDatabase, Decoded;
      if id > I64_MAX {
        return Err(OutOfRange);
      }
      if refuse {
        return Err(DatabaseFailed);
      }
      var tx := db;
      result := LoadRecord(id, tx);
      ReadsBack(db, id);
      if result.Err? {
        return;
      }
      if result.value.titleRevision >= I64_MAX {
        return Err(OutOfRange);
      }
      result := Retitle(id, title, Manual, result.value.titleRevision + 1);
    }

    /** Compare-and-set on the title source and revision that are stored now. */
    method SetGeneratedTitle(id: SessionId, expectedRevision: u64, title: SessionTitle, refuse: bool)
      returns (result: Result<Option<Record>, StoreError>)
      requires Valid()
      modifies this
      ensures Valid() && db.lastId == old(db.lastId)
      ensures result == Repository.SetGeneratedTitle(old(Contents()), id, expectedRevision, title, refuse)
      ensures Contents() == if result.Ok? && result.value.Some? then old(Contents())[id := result.value.value]
                            else old(Contents())
    {
      hide EncodeRows, LoadRows, Storable, Numbered, Canonical, ValidDatabase, Decoded;
      hide SourceText, EncodeSession;
      if id > I64_MAX || expectedRevision > I64_MAX {
        return Err(OutOfRange);
      }
      if refuse {
        return Err(DatabaseFailed);
      }
      if id !in db.sessions {
        return Err(NotFound);
      }
      ReadsBack(db, id);
      OriginOf(Contents()[id]);
      var current := db.sessions[id].session;
      TitleColumns(Contents()[id]);
      if current.titleSource == "manual" || current.titleRevision != expectedRevision {
        return Ok(None);
      }
      if current.titleRevision >= I64_MAX {
        return Err(OutOfRange);
      }
      var record := Retitle(id, title, Generated, expectedRevision + 1);
      return Ok(Some(record.value));
    }

    /** The title columns of one existing session, written and read back. */
    method Retitle(id: SessionId, title: SessionTitle, source: TitleSource, revision: u64)
      returns (result: Result<Record, StoreError>)
      requires Valid() && id in db.sessions && revision <= I64_MAX
      modifies this
      ensures Valid() && db.lastId == old(db.lastId)
      ensures result == Ok(old(Contents())[id].(title := title, titleSource := source, titleRevision := revision))
      ensures Contents() == old(Contents())[id := result.value]
    {
      var rows := db.sessions[id];
      var was := rows.session;
      ReplaceSession(db, Contents()[id].(title := title, titleSource := source, titleRevision := revision));
      db := db.(sessions := db.sessions[id := rows.(session := was.(
        title := title, titleSource := SourceText(source), titleRevision := revision))]);
      result := LoadRecord(id, db);
    }

    /** Removes a session with all of its child rows. */
    method Delete(id: SessionId, refuse: bool) returns (result: Result<(), StoreError>)
      requires Valid()
      modifies this
      ensures Valid() && db.lastId == old(db.lastId)
      ensures result == if id > I64_MAX then Err(OutOfRange) else if refuse then Err(DatabaseFailed)
                        else if id !in old(Contents()) then Err(NotFound) else Ok(())
      ensures Contents() == if result.Ok? then old(Contents()) - {id} else old(Contents())
    {
      hide EncodeRows, LoadRows, Storable, Numbered, Canonical, ValidDatabase, Decoded;
      if id > I64_MAX {
        return Err(OutOfRange);
      }
      if refuse {
        return Err(DatabaseFailed);
      }
      if id !in db.sessions {
        return Err(NotFound);
      }
      RemoveRows(db, id);
      db := db.(sessions := db.sessions - {id});
      return Ok(());
    }

    /** Creates a session with its first prompt and running first turn; identifiers are never reused. */
    method Materialize(request: Repository.Materialize, refuse: bool) returns (result: Result<Record, StoreError>)
      requires Valid()
      modifies this
      ensures Valid() && old(db.lastId) <= db.lastId
      ensures result.Ok? <==> request.settings.contextTokens <= I64_MAX && request.runId <= I64_MAX && !refuse
                              && old(db.lastId) < I64_MAX
      ensures result.Ok? ==>
        && db.lastId == NextIdentity(old(db))
        && result.value == Materialized(db.lastId, request)
        && result.value.id !in old(Contents())
        && Contents() == old(Contents())[result.value.id := result.value]
      ensures result.Err? ==> db == old(db)
    {
      if request.settings.contextTokens > I64_MAX || request.runId > I64_MAX {
        return Err(OutOfRange);
      }
      if refuse || db.lastId == I64_MAX {
        return Err(DatabaseFailed);
      }
      var id: SessionId := NextIdentity(db);
      var record := Materialized(id, request);
      var row := EncodeItem(User(request.prompt));
      var rows := Rows(
        SessionRow(request.title, "fallback", 0, request.cwd, request.settings.model,
                   ReasoningText(request.settings.reasoning), request.settings.contextTokens,
                   Some(request.createdAt), Some(request.createdAt)),
        map[], map[0 := row.value], map[0 := TurnRow(request.runId, 0, "running")], map[]);
      MaterializedRows(record, request);
      ReplaceRows(db.(lastId := id), record);
      db := Database(id, db.sessions[id := rows]);
      result := LoadRecord(id, db);
    }
  }

  // ---------- lemmas for the statements above ----------

  predicate AllInRange(items: seq<Item>) {
    forall i :: 0 <= i < |items| ==> ItemInRange(items[i])
  }

  lemma {:induction false} TableErrorPersists<R, T>(
    table: map<int, R>, decode: (int, R) -> Result<T, StoreError>, k: nat, n: nat)
    requires k <= n && DecodeTable(table, decode, k).Err?
    ensures DecodeTable(table, decode, n) == DecodeTable(table, decode, k)
  {
    if k < n {
      TableErrorPersists(table, decode, k, n - 1);
    }
  }

  function InterruptRows(turns: map<int, TurnRow>): map<int, TurnRow> {
    map i | i in turns ::
      if turns[i].status == "running" then turns[i].(status := "interrupted") else turns[i]
  }

  lemma InterruptTurnTable(turns: seq<Turn>)
    ensures InterruptRows(TurnTable(turns)) == TurnTable(InterruptTurns(turns))
  {
  }

  lemma {:induction false} RunningInRange(turns: seq<Turn>)
    requires forall i :: 0 <= i < |turns| ==> TurnInRange(turns[i])
    ensures forall k :: 0 <= k < |RunningIds(turns)| ==> RunningIds(turns)[k] <= I64_MAX
  {
    if turns != [] {
      RunningInRange(turns[..|turns| - 1]);
    }
  }

  lemma InterruptBasics(r: Record)
    requires Storable(r) && Numbered(r.turns)
    ensures r.transcript + InterruptItems(RunningIds(r.turns)[..0]) == r.transcript
    ensures RunningIds(r.turns) == [] ==> Interrupt(r) == r
    ensures PositionsInRange(|Interrupt(r).transcript|) ==> Storable(Interrupt(r)) && Numbered(Interrupt(r).turns)
    ensures |Interrupt(r).transcript| == |r.transcript| + |RunningIds(r.turns)|
    ensures Interrupt(r) == r.(turns := InterruptTurns(r.turns),
                               transcript := r.transcript + InterruptItems(RunningIds(r.turns)))
    ensures AllInRange(r.transcript) && PositionsInRange(|r.transcript|)
  {
    hide ValidPlan;
    SettledHasNoIds(r.turns);
    RunningInRange(r.turns);
    assert r.transcript + [] == r.transcript;
    var t := Interrupt(r);
    forall i | 0 <= i < |t.transcript| ensures ItemInRange(t.transcript[i]) {
      assert i < |r.transcript| ==> t.transcript[i] == r.transcript[i];
    }
    assert forall i :: 0 <= i < |t.turns| ==> TurnInRange(r.turns[i]);
  }

  lemma OneMoreInterruption(r: Record, k: nat)
    requires Storable(r) && k < |RunningIds(r.turns)|
    requires AllInRange(r.transcript + InterruptItems(RunningIds(r.turns)[..k]))
    ensures var ids := RunningIds(r.turns);
            var before := r.transcript + InterruptItems(ids[..k]);
            var after := r.transcript + InterruptItems(ids[..k + 1]);
            var row := EncodeItem(Item.Failed(ids[k], INTERRUPTION));
            row.Ok? && AllInRange(after) && ItemTable(after) == ItemTable(before)[|r.transcript| + k := row.value]
  {
    hide StageText, KindText, KindStatus, ValidPlan;
    var ids := RunningIds(r.turns);
    RunningInRange(r.turns);
    assert InterruptItems(ids[..k + 1]) == InterruptItems(ids[..k]) + [Item.Failed(ids[k], INTERRUPTION)];
    var before := r.transcript + InterruptItems(ids[..k]);
    assert r.transcript + InterruptItems(ids[..k + 1]) == before + [Item.Failed(ids[k], INTERRUPTION)];
  }

  lemma EmptyTables()
    ensures MessageTable([]) == map[] && PlanTable([]) == map[] && ItemTable([]) == map[] && TurnTable([]) == map[]
  {
  }

  lemma MessageTableGrows(history: seq<Message>, i: nat)
    requires i < |history|
    ensures MessageTable(history[..i + 1]) == MessageTable(history[..i])[i := EncodeMessage(history[i])]
  {
  }

  lemma PlanTableGrows(plan: seq<PlanItem>, i: nat)
    requires i < |plan|
    ensures PlanTable(plan[..i + 1]) == PlanTable(plan[..i])[i := EncodePlanItem(plan[i])]
  {
  }

  lemma ItemTableGrows(items: seq<Item>, i: nat)
    requires i < |items| && AllInRange(items)
    ensures ItemTable(items[..i + 1]) == ItemTable(items[..i])[i := EncodeItem(items[i]).value]
  {
    hide StageText, KindText, KindStatus;
  }

  lemma EncodeRowsOf(r: Record)
    requires Storable(r)
    ensures EncodeRows(r) == Rows(EncodeSession(r), MessageTable(r.history), ItemTable(r.transcript),
                                  TurnTable(r.turns), PlanTable(r.plan))
  {
  }

  lemma OriginOf(r: Record)
    requires Storable(r)
    ensures EncodeRows(r).session.cwd == r.cwd && EncodeRows(r).session.createdAt == Some(r.createdAt)
    ensures EncodeRows(r).session == EncodeSession(r)
  {
    hide Storable, MessageTable, ItemTable, TurnTable, PlanTable;
  }

  lemma TitleColumns(r: Record)
    ensures EncodeSession(r).titleRevision == r.titleRevision
    ensures EncodeSession(r).titleSource == "manual" <==> r.titleSource == Manual
  {
    hide ReasoningText;
  }

  lemma EncodeSessionKeepsOrigin(r: Record, written: Record)
    requires written == r.(cwd := written.cwd, createdAt := written.createdAt)
    ensures EncodeSession(written) == EncodeSession(r).(cwd := written.cwd, createdAt := Some(written.createdAt))
  {
    hide SourceText, ReasoningText;
  }

  /** Changing only the session row changes only the metadata of the record. */
  lemma ReplaceSession(db: Database, r: Record)
    requires ValidDatabase(db) && r.id in db.sessions && MetadataInRange(r)
    requires var stored := Decoded(db)[r.id];
             r.transcript == stored.transcript && r.turns == stored.turns
             && r.history == stored.history && r.plan == stored.plan
    ensures var rows := db.sessions[r.id].(session := EncodeSession(r));
            var after := db.(sessions := db.sessions[r.id := rows]);
            ValidDatabase(after) && Decoded(after) == Decoded(db)[r.id := r] && rows == EncodeRows(r)
    ensures db.sessions[r.id].session == EncodeSession(Decoded(db)[r.id])
    ensures Storable(r) && Numbered(r.turns) && LoadRows(r.id, db.sessions[r.id].(session := EncodeSession(r))) == Ok(r)
  {
    hide LoadRows, MessageTable, ItemTable, TurnTable, PlanTable, EncodeSession, ValidPlan;
    ReadsBack(db, r.id);
    EncodeRowsOf(r);
    EncodeRowsOf(Decoded(db)[r.id]);
    EncodedIsCanonical(r);
    ReplaceRows(db, r);
  }

  lemma MaterializedRows(r: Record, request: Repository.Materialize)
    requires r == Materialized(r.id, request)
    requires request.settings.contextTokens <= I64_MAX && request.runId <= I64_MAX && r.id <= I64_MAX
    ensures Storable(r) && Numbered(r.turns)
    ensures LoadRows(r.id, EncodeRows(r)) == Ok(r)
    ensures EncodeRows(r) == Rows(
      SessionRow(request.title, "fallback", 0, request.cwd, request.settings.model,
                 ReasoningText(request.settings.reasoning), request.settings.contextTokens,
                 Some(request.createdAt), Some(request.createdAt)),
      map[], map[0 := EncodeItem(User(request.prompt)).value], map[0 := TurnRow(request.runId, 0, "running")], map[])
  {
    hide LoadRows, ReasoningText;
    EmptyTables();
    assert ItemTable(r.transcript) == map[0 := EncodeItem(User(request.prompt)).value];
    assert TurnTable(r.turns) == map[0 := TurnRow(request.runId, 0, "running")];
    EncodedIsCanonical(r);
  }
}
