/** Session-domain values shared by storage, the session actor and its clients. */
module Records {
  import opened Prelude
  import opened Titles

  type SessionId = x: int | 1 <= x <= 0xFFFF_FFFF_FFFF_FFFF witness 1

  datatype TitleSource = Fallback | Generated | Manual

  datatype ReasoningLevel = NoReasoning | Minimal | Low | Medium | High | Xhigh | Max

  datatype Settings = Settings(model: string, reasoning: ReasoningLevel, contextTokens: u64)

  datatype RunStage = Startup | ModelRequest | ToolExecution | Finalization

  datatype FailureKind =
    | Authentication
    | Transport
    | HttpRejected(status: u16)
    | Protocol
    | EmptyResponse
    | BudgetExhausted
    | RuntimeInfrastructure
    | ToolInfrastructure

  type u16 = x: int | 0 <= x < 0x1_0000

  datatype Failure = Failure(stage: RunStage, kind: FailureKind, retryable: bool, message: string)

  /** JSON arguments, kept in their serialized form. */
  datatype Json = Json(text: string)

  datatype Item =
    | User(text: string)
    | Assistant(text: string)
    | ToolStarted(runId: u64, callId: string, name: string, arguments: Json)
    | Failed(runId: u64, failure: Failure)
    | Cancelled(runId: u64)

  datatype TurnStatus = Running | Completed | Failed | Cancelled | Interrupted

  /** `ordinal` and `promptPosition` are positions in memory, so they need no overflow check of their own. */
  datatype Turn = Turn(ordinal: nat, runId: u64, promptPosition: nat, status: TurnStatus)

  datatype Role = UserRole | AssistantRole

  datatype Message = Message(role: Role, text: string)

  datatype PlanStatus = Pending | InProgress | Done | Blocked | Abandoned

  datatype PlanItem = PlanItem(step: string, status: PlanStatus)

  datatype Record = Record(
    id: SessionId,
    title: SessionTitle,
    titleSource: TitleSource,
    titleRevision: u64,
    cwd: seq<byte>,
    settings: Settings,
    transcript: seq<Item>,
    turns: seq<Turn>,
    history: seq<Message>,
    plan: seq<PlanItem>,
    createdAt: int,
    lastActivity: int)

  datatype ModelInfo = ModelInfo(id: string, reasoningEfforts: seq<ReasoningLevel>)

  datatype Catalog = Loading | Ready(models: seq<ModelInfo>) | Unavailable(message: string)

  datatype Job = Job(id: string, running: bool)

  datatype ActiveRun = ActiveRun(runId: u64, prompt: string, assistantText: string)

  /** A typed state change emitted by a session actor. */
  datatype Event =
    | TitleChanged(title: SessionTitle, titleRevision: u64)
    | Started(runId: u64, prompt: string)
    | AssistantDelta(runId: u64, text: string)
    | ContextUsage(runId: u64, inputTokens: u64, lastActivity: int)
    | ToolStarted(runId: u64, callId: string, name: string, arguments: Json)
    | ToolFinished(runId: u64, callId: string, name: string)
    | Completed(runId: u64, response: string, lastActivity: int)
    | Failed(runId: u64, failure: Failure)
    | Cancelled(runId: u64)
    | SettingsChanged(settings: Settings, lastActivity: int)
    | PlanChanged(plan: seq<PlanItem>)
    | JobsChanged(jobs: seq<Job>)
    | CatalogChanged(catalog: Catalog)
    | PersistenceWarning(warning: Option<string>)
    | Deleted(sessionId: SessionId)

  datatype Envelope = Envelope(sequence: u64, event: Event)

  // ---------- plans ----------

  const MAX_PLAN_STEP_SCALARS: nat := 256
  const MAX_PLAN_ITEMS: nat := 32

  predicate ValidPlanItem(item: PlanItem) {
    0 < |item.step| <= MAX_PLAN_STEP_SCALARS && Trim(item.step) == item.step && NoControls(item.step)
  }

  function CountInProgress(plan: seq<PlanItem>): nat {
    if plan == [] then 0
    else CountInProgress(plan[..|plan| - 1]) + if plan[|plan| - 1].status == InProgress then 1 else 0
  }

  predicate ValidPlan(plan: seq<PlanItem>) {
    && (forall i :: 0 <= i < |plan| ==> ValidPlanItem(plan[i]))
    && |plan| <= MAX_PLAN_ITEMS
    && CountInProgress(plan) <= 1
  }

  /** A valid plan has at most 32 valid steps, of which no two are in progress. */
  lemma PlanMeans(plan: seq<PlanItem>)
    ensures ValidPlan(plan) <==>
      && |plan| <= 32 && (forall i :: 0 <= i < |plan| ==> ValidPlanItem(plan[i]))
      && forall i, j :: 0 <= i < j < |plan| ==> plan[i].status != InProgress || plan[j].status != InProgress
  {
    hide ValidPlanItem;
    CountMeans(plan);
  }

  lemma {:induction false} CountMeans(plan: seq<PlanItem>)
    ensures CountInProgress(plan) == 0 <==> forall i :: 0 <= i < |plan| ==> plan[i].status != InProgress
    ensures CountInProgress(plan) <= 1 <==>
      forall i, j :: 0 <= i < j < |plan| ==> plan[i].status != InProgress || plan[j].status != InProgress
  {
    if plan != [] {
      var n := |plan| - 1;
      CountMeans(plan[..n]);
      assert forall i :: 0 <= i < n ==> plan[..n][i] == plan[i];
    }
  }
}

/** The shape of durable transcripts, and the durable effect of run events. */
module Transcripts {
  import opened Prelude
  import opened Records

  const INTERRUPTION: Failure :=
    Failure(Finalization, RuntimeInfrastructure, true, "run interrupted by backend restart")

  predicate ToolsOf(items: seq<Item>, runId: u64) {
    forall i :: 0 <= i < |items| ==> items[i].ToolStarted? && items[i].runId == runId
  }

  /** `item` is the terminal transcript item of a turn with this status. */
  predicate Closes(item: Item, turn: Turn) {
    match turn.status
    case Running => false
    case Completed => item.Assistant?
    case Failed => item.Failed? && item.runId == turn.runId
    case Cancelled => item == Item.Cancelled(turn.runId)
    case Interrupted => item == Item.Failed(turn.runId, INTERRUPTION)
  }

  /** Items after a prompt: the run's tool calls, then one terminal item unless the turn still runs. */
  predicate Body(items: seq<Item>, turn: Turn) {
    if turn.status == Running then ToolsOf(items, turn.runId)
    else items != [] && ToolsOf(items[..|items| - 1], turn.runId) && Closes(items[|items| - 1], turn)
  }

  predicate Settled(turns: seq<Turn>) {
    forall i :: 0 <= i < |turns| ==> turns[i].status != Running
  }

  /** One segment per turn, in order; only the last turn may still be running. */
  predicate Grammar(transcript: seq<Item>, turns: seq<Turn>) {
    if turns == [] then transcript == []
    else
      var last := turns[|turns| - 1];
      var p := last.promptPosition;
      && last.ordinal == |turns| - 1
      && p < |transcript| && transcript[p].User?
      && Body(transcript[p + 1..], last)
      && Settled(turns[..|turns| - 1])
      && Grammar(transcript[..p], turns[..|turns| - 1])
  }

  /** The prompt and response pairs of the completed turns. */
  function History(transcript: seq<Item>, turns: seq<Turn>): seq<Message>
    requires Grammar(transcript, turns)
  {
    if turns == [] then []
    else
      var last := turns[|turns| - 1];
      var p := last.promptPosition;
      History(transcript[..p], turns[..|turns| - 1]) +
      if last.status == TurnStatus.Completed then
        [Message(UserRole, transcript[p].text), Message(AssistantRole, transcript[|transcript| - 1].text)]
      else []
  }

  /** A durable record whose transcript, turns and history tell the same story. */
  predicate Consistent(r: Record) {
    Grammar(r.transcript, r.turns) && r.history == History(r.transcript, r.turns)
  }

  predicate Open(r: Record) {
    r.turns != [] && r.turns[|r.turns| - 1].status == Running
  }

  // ---------- the grammar read position by position ----------

  /** Turn `i` owns the transcript from its prompt to the next turn's prompt, or to the end. */
  predicate SegmentAt(transcript: seq<Item>, turns: seq<Turn>, i: nat)
    requires i < |turns|
  {
    var lo := turns[i].promptPosition;
    var hi := if i + 1 < |turns| then turns[i + 1].promptPosition else |transcript|;
    && turns[i].ordinal == i
    && (i == 0 ==> lo == 0)
    && lo < hi <= |transcript|
    && transcript[lo].User?
    && Body(transcript[lo + 1..hi], turns[i])
    && (turns[i].status == Running ==> i == |turns| - 1)
  }

  ghost predicate AllSegments(transcript: seq<Item>, turns: seq<Turn>) {
    (turns == [] ==> transcript == []) && forall i :: 0 <= i < |turns| ==> SegmentAt(transcript, turns, i)
  }

  lemma SegmentOfPrefix(transcript: seq<Item>, turns: seq<Turn>, n: nat, i: nat)
    requires i < n == |turns| - 1 && turns[i + 1].promptPosition <= turns[n].promptPosition <= |transcript|
    ensures SegmentAt(transcript, turns, i) <==>
            SegmentAt(transcript[..turns[n].promptPosition], turns[..n], i) && turns[i].status != Running
  {
    hide Body;
    var p := turns[n].promptPosition;
    var lo := turns[i].promptPosition;
    var hi := turns[i + 1].promptPosition;
    if lo < hi {
      assert transcript[..p][lo + 1..hi] == transcript[lo + 1..hi];
    }
  }

  lemma {:induction false} GrammarHasSegments(transcript: seq<Item>, turns: seq<Turn>)
    requires Grammar(transcript, turns)
    ensures AllSegments(transcript, turns)
    decreases |turns|
  {
    hide Body;
    if turns != [] {
      var n := |turns| - 1;
      var p := turns[n].promptPosition;
      var before := turns[..n];
      GrammarHasSegments(transcript[..p], before);
      assert transcript[p + 1..|transcript|] == transcript[p + 1..];
      forall i | 0 <= i < |turns| ensures SegmentAt(transcript, turns, i) {
        if i < n {
          assert before[i] == turns[i] && SegmentAt(transcript[..p], before, i);
          if i + 1 < n {
            assert SegmentAt(transcript[..p], before, i + 1);
          }
          SegmentOfPrefix(transcript, turns, n, i);
        }
      }
    }
  }

  lemma {:induction false} SegmentsMakeGrammar(transcript: seq<Item>, turns: seq<Turn>)
    requires AllSegments(transcript, turns)
    ensures Grammar(transcript, turns)
    decreases |turns|
  {
    hide Body;
    if turns != [] {
      var n := |turns| - 1;
      var p := turns[n].promptPosition;
      PositionsIncrease(transcript, turns, n);
      assert SegmentAt(transcript, turns, n);
      assert transcript[p + 1..|transcript|] == transcript[p + 1..];
      forall i | 0 <= i < n ensures SegmentAt(transcript[..p], turns[..n], i) && turns[i].status != Running {
        assert SegmentAt(transcript, turns, i);
        SegmentOfPrefix(transcript, turns, n, i);
      }
      if n == 0 {
        assert transcript[..p] == [];
      }
      SegmentsMakeGrammar(transcript[..p], turns[..n]);
    }
  }

  /** The recursive grammar says exactly that every turn owns one well-formed segment and nothing is left over. */
  lemma GrammarMeansSegments(transcript: seq<Item>, turns: seq<Turn>)
    ensures Grammar(transcript, turns) <==> AllSegments(transcript, turns)
  {
    hide Grammar, AllSegments;
    if Grammar(transcript, turns) {
      GrammarHasSegments(transcript, turns);
    }
    if AllSegments(transcript, turns) {
      SegmentsMakeGrammar(transcript, turns);
    }
  }

  lemma {:induction false} PositionsIncrease(transcript: seq<Item>, turns: seq<Turn>, n: nat)
    requires n < |turns| && forall i :: 0 <= i < |turns| ==> SegmentAt(transcript, turns, i)
    ensures forall i :: 0 <= i <= n ==> turns[i].promptPosition <= turns[n].promptPosition
  {
    if n > 0 {
      PositionsIncrease(transcript, turns, n - 1);
      assert SegmentAt(transcript, turns, n - 1);
    }
  }

  // ---------- durable run events ----------

  datatype DurableError = AnotherTurnRunning | NoRunningTurn

  predicate AnyRunning(turns: seq<Turn>) {
    exists i :: 0 <= i < |turns| && turns[i].status == Running
  }

  /** The first running turn with this run identifier, or the number of turns. */
  function FindRunning(turns: seq<Turn>, runId: u64): (n: nat)
    ensures n <= |turns|
    ensures n < |turns| ==> turns[n].runId == runId && turns[n].status == Running
    ensures forall i :: 0 <= i < n ==> !(turns[i].runId == runId && turns[i].status == Running)
  {
    if turns == [] || (turns[0].runId == runId && turns[0].status == Running) then 0
    else 1 + FindRunning(turns[1..], runId)
  }

  function CloseTurn(r: Record, runId: u64, status: TurnStatus, item: Item): Result<Record, DurableError> {
    var n := FindRunning(r.turns, runId);
    if n == |r.turns| then Err(NoRunningTurn)
    else Ok(r.(turns := r.turns[n := r.turns[n].(status := status)], transcript := r.transcript + [item]))
  }

  function ApplyDurable(r: Record, event: Event): Result<Record, DurableError> {
    match event
    case Started(runId, prompt) =>
      if AnyRunning(r.turns) then Err(AnotherTurnRunning)
      else Ok(r.(transcript := r.transcript + [User(prompt)],
                 turns := r.turns + [Turn(|r.turns|, runId, |r.transcript|, Running)]))
    case ToolStarted(runId, callId, name, arguments) =>
      if FindRunning(r.turns, runId) == |r.turns| then Err(NoRunningTurn)
      else Ok(r.(transcript := r.transcript + [Item.ToolStarted(runId, callId, name, arguments)]))
    case Completed(runId, response, lastActivity) =>
      (match CloseTurn(r, runId, TurnStatus.Completed, Assistant(response))
       case Ok(closed) => Ok(closed.(lastActivity := lastActivity))
       case Err(e) => Err(e))
    case Failed(runId, failure) => CloseTurn(r, runId, TurnStatus.Failed, Item.Failed(runId, failure))
    case Cancelled(runId) => CloseTurn(r, runId, TurnStatus.Cancelled, Item.Cancelled(runId))
    case _ => Ok(r)
  }

  /** In a grammatical transcript the running turn, if any, is the last one. */
  lemma RunningIsLast(r: Record, runId: u64)
    requires Grammar(r.transcript, r.turns)
    ensures AnyRunning(r.turns) <==> Open(r)
    ensures FindRunning(r.turns, runId) < |r.turns| <==> Open(r) && r.turns[|r.turns| - 1].runId == runId
    ensures Open(r) && r.turns[|r.turns| - 1].runId == runId ==> FindRunning(r.turns, runId) == |r.turns| - 1
  {
    if r.turns != [] {
      var before := r.turns[..|r.turns| - 1];
      assert forall i :: 0 <= i < |before| ==> before[i] == r.turns[i];
    }
  }

  /** Messages that a durable event adds to the history: those of a completion, and no others. */
  function Committed(r: Record, event: Event): seq<Message> {
    if event.Completed? && Open(r) && r.turns[|r.turns| - 1].promptPosition < |r.transcript|
       && r.transcript[r.turns[|r.turns| - 1].promptPosition].User? then
      [Message(UserRole, r.transcript[r.turns[|r.turns| - 1].promptPosition].text),
       Message(AssistantRole, event.response)]
    else []
  }

  predicate IsRunEvent(event: Event) {
    || event.ToolStarted? || event.Completed? || event.Failed? || event.Cancelled?
  }

  /**
    Durable events keep the grammar, and extend the history of completed turns by exactly the committed
    exchange. They are accepted exactly when the last turn is running with that run identifier, or for
    a start when no turn is running.
   */
  lemma DurableEventKeepsGrammar(r: Record, event: Event)
    requires Grammar(r.transcript, r.turns)
    ensures event.Started? ==> (ApplyDurable(r, event).Ok? <==> !Open(r))
    ensures IsRunEvent(event) ==>
      (ApplyDurable(r, event).Ok? <==> Open(r) && r.turns[|r.turns| - 1].runId == event.runId)
    ensures ApplyDurable(r, event).Ok? ==>
      var after := ApplyDurable(r, event).value;
      && Grammar(after.transcript, after.turns)
      && History(after.transcript, after.turns) == History(r.transcript, r.turns) + Committed(r, event)
  {
    hide Grammar, History, ApplyDurable, Committed;
    AcceptedEvents(r, event);
    if ApplyDurable(r, event).Ok? {
      AcceptedKeepsGrammar(r, event);
    }
  }

  lemma AcceptedEvents(r: Record, event: Event)
    requires Grammar(r.transcript, r.turns)
    ensures event.Started? ==> (ApplyDurable(r, event).Ok? <==> !Open(r))
    ensures IsRunEvent(event) ==>
      (ApplyDurable(r, event).Ok? <==> Open(r) && r.turns[|r.turns| - 1].runId == event.runId)
  {
    hide FindRunning, Grammar, AnyRunning;
    if event.Started? || IsRunEvent(event) {
      RunningIsLast(r, event.runId);
    }
  }

  lemma AcceptedKeepsGrammar(r: Record, event: Event)
    requires Grammar(r.transcript, r.turns) && ApplyDurable(r, event).Ok?
    ensures var after := ApplyDurable(r, event).value;
            && Grammar(after.transcript, after.turns)
            && History(after.transcript, after.turns) == History(r.transcript, r.turns) + Committed(r, event)
  {
    hide FindRunning, Grammar, History, Body, AnyRunning;
    if event.Started? || IsRunEvent(event) {
      RunningIsLast(r, event.runId);
    }
    match event
    case Started(runId, prompt) => StartKeepsGrammar(r, runId, prompt);
    case ToolStarted(runId, callId, name, arguments) =>
      ToolKeepsGrammar(r, Item.ToolStarted(runId, callId, name, arguments));
    case Completed(_, response, _) => CloseKeepsGrammar(r, TurnStatus.Completed, Assistant(response));
    case Failed(runId, failure) => CloseKeepsGrammar(r, TurnStatus.Failed, Item.Failed(runId, failure));
    case Cancelled(runId) => CloseKeepsGrammar(r, TurnStatus.Cancelled, Item.Cancelled(runId));
    case _ =>
  }

  lemma StartKeepsGrammar(r: Record, runId: u64, prompt: string)
    requires Grammar(r.transcript, r.turns) && !Open(r)
    ensures var transcript := r.transcript + [User(prompt)];
            var turns := r.turns + [Turn(|r.turns|, runId, |r.transcript|, Running)];
            Grammar(transcript, turns) && History(transcript, turns) == History(r.transcript, r.turns)
  {
    var transcript := r.transcript + [User(prompt)];
    var turns := r.turns + [Turn(|r.turns|, runId, |r.transcript|, Running)];
    assert transcript[..|r.transcript|] == r.transcript && turns[..|r.turns|] == r.turns;
    assert transcript[|r.transcript| + 1..] == [];
    RunningIsLast(r, runId);
  }

  lemma ToolKeepsGrammar(r: Record, item: Item)
    requires Grammar(r.transcript, r.turns) && Open(r)
    requires item.ToolStarted? && item.runId == r.turns[|r.turns| - 1].runId
    ensures Grammar(r.transcript + [item], r.turns)
    ensures History(r.transcript + [item], r.turns) == History(r.transcript, r.turns)
  {
    var p := r.turns[|r.turns| - 1].promptPosition;
    var transcript := r.transcript + [item];
    assert transcript[..p] == r.transcript[..p] && transcript[p + 1..] == r.transcript[p + 1..] + [item];
  }

  lemma CloseKeepsGrammar(r: Record, status: TurnStatus, item: Item)
    requires Grammar(r.transcript, r.turns) && Open(r)
    requires Closes(item, r.turns[|r.turns| - 1].(status := status))
    ensures var n := |r.turns| - 1;
            var p := r.turns[n].promptPosition;
            var turns := r.turns[n := r.turns[n].(status := status)];
            && p < |r.transcript| && r.transcript[p].User?
            && Grammar(r.transcript + [item], turns)
            && History(r.transcript + [item], turns) == History(r.transcript, r.turns) +
               if status == TurnStatus.Completed then
                 [Message(UserRole, r.transcript[p].text), Message(AssistantRole, item.text)]
               else []
  {
    hide Body, Closes, Settled, Grammar, History;
    var n := |r.turns| - 1;
    var p := r.turns[n].promptPosition;
    var turns := r.turns[n := r.turns[n].(status := status)];
    var transcript := r.transcript + [item];
    LastTurn(r.transcript, r.turns);
    OneMoreItem(r.transcript, item, p);
    OtherStatus(r.turns, status);
    BodyCloses(r.transcript[p + 1..], r.turns[n], turns[n], item);
    LastTurn(transcript, turns);
  }

  lemma OneMoreItem(transcript: seq<Item>, item: Item, p: nat)
    requires p < |transcript|
    ensures var longer := transcript + [item];
            && longer[..p] == transcript[..p] && longer[p] == transcript[p]
            && longer[p + 1..] == transcript[p + 1..] + [item] && longer[|longer| - 1] == item
  {
  }

  lemma OtherStatus(turns: seq<Turn>, status: TurnStatus)
    requires turns != []
    ensures var n := |turns| - 1;
            var other := turns[n := turns[n].(status := status)];
            && |other| == |turns| && other[..n] == turns[..n] && other[n] == turns[n].(status := status)
  {
  }

  /** One level of the grammar and of the history. */
  lemma LastTurn(transcript: seq<Item>, turns: seq<Turn>)
    requires turns != []
    ensures var n := |turns| - 1;
            var p := turns[n].promptPosition;
            && (Grammar(transcript, turns) <==>
                  && turns[n].ordinal == n && p < |transcript| && transcript[p].User?
                  && Body(transcript[p + 1..], turns[n])
                  && Settled(turns[..n]) && Grammar(transcript[..p], turns[..n]))
            && (Grammar(transcript, turns) ==>
                  History(transcript, turns) == History(transcript[..p], turns[..n]) +
                    if turns[n].status == TurnStatus.Completed then
                      [Message(UserRole, transcript[p].text), Message(AssistantRole, transcript[|transcript| - 1].text)]
                    else [])
  {
    hide Body, Settled;
  }

  lemma BodyCloses(items: seq<Item>, running: Turn, closed: Turn, item: Item)
    requires Body(items, running) && running.status == Running
    requires closed == running.(status := closed.status) && Closes(item, closed)
    ensures Body(items + [item], closed)
    ensures closed.status != Running && (closed.status == TurnStatus.Completed ==> item.Assistant?)
  {
    assert (items + [item])[..|items|] == items;
  }

  // ---------- interruption ----------

  /** Run identifiers of the running turns, in order. */
  function RunningIds(turns: seq<Turn>): seq<u64> {
    if turns == [] then []
    else RunningIds(turns[..|turns| - 1]) +
         if turns[|turns| - 1].status == Running then [turns[|turns| - 1].runId] else []
  }

  function InterruptTurns(turns: seq<Turn>): (r: seq<Turn>)
    ensures |r| == |turns|
  {
    seq(|turns|, i requires 0 <= i < |turns| =>
      if turns[i].status == Running then turns[i].(status := Interrupted) else turns[i])
  }

  function InterruptItems(ids: seq<u64>): seq<Item> {
    seq(|ids|, i requires 0 <= i < |ids| => Item.Failed(ids[i], INTERRUPTION))
  }

  /** What opening a session after a crash makes of its durable record. */
  function Interrupt(r: Record): Record {
    r.(turns := InterruptTurns(r.turns), transcript := r.transcript + InterruptItems(RunningIds(r.turns)))
  }

  lemma {:induction false} SettledHasNoIds(turns: seq<Turn>)
    ensures RunningIds(turns) == [] <==> Settled(turns)
    ensures Settled(turns) ==> InterruptTurns(turns) == turns
  {
    if turns != [] {
      var before := turns[..|turns| - 1];
      SettledHasNoIds(before);
      assert forall i :: 0 <= i < |before| ==> before[i] == turns[i];
      if RunningIds(turns) == [] {
        assert RunningIds(before) == [];
      }
    }
  }

  lemma InterruptOpen(r: Record)
    requires Open(r) && Settled(r.turns[..|r.turns| - 1])
    ensures var n := |r.turns| - 1;
            Interrupt(r) == r.(turns := r.turns[n := r.turns[n].(status := Interrupted)],
                               transcript := r.transcript + [Item.Failed(r.turns[n].runId, INTERRUPTION)])
            && Settled(Interrupt(r).turns)
  {
    var n := |r.turns| - 1;
    SettledHasNoIds(r.turns[..n]);
    OneInterruption(r.turns[n].runId);
    assert RunningIds(r.turns) == [] + [r.turns[n].runId] == [r.turns[n].runId];
    assert forall i :: 0 <= i < n ==> r.turns[..n][i] == r.turns[i];
    assert InterruptTurns(r.turns) == r.turns[n := r.turns[n].(status := Interrupted)];
  }

  lemma OneInterruption(runId: u64)
    ensures InterruptItems([runId]) == [Item.Failed(runId, INTERRUPTION)]
  {
  }

  lemma InterruptSettled(r: Record)
    requires Settled(r.turns)
    ensures Interrupt(r) == r
  {
    SettledHasNoIds(r.turns);
    assert InterruptItems([]) == [] && r.transcript + [] == r.transcript;
  }

  lemma OpenOrSettled(r: Record)
    requires Consistent(r)
    ensures Open(r) ==> Settled(r.turns[..|r.turns| - 1])
    ensures !Open(r) ==> Settled(r.turns)
  {
    hide History, Body;
    RunningIsLast(r, 0);
  }

  /**
    Interruption closes the one running turn, if there is one, with one matching failure; it keeps the
    record consistent, leaves the model-facing history alone, and is the identity on settled records,
    so doing it again changes nothing.
   */
  lemma InterruptionRecovers(r: Record)
    requires Consistent(r)
    ensures Consistent(Interrupt(r)) && Settled(Interrupt(r).turns)
    ensures Interrupt(Interrupt(r)) == Interrupt(r)
    ensures !Open(r) ==> Interrupt(r) == r
    ensures Open(r) ==>
      var n := |r.turns| - 1;
      Interrupt(r) == r.(turns := r.turns[n := r.turns[n].(status := Interrupted)],
                         transcript := r.transcript + [Item.Failed(r.turns[n].runId, INTERRUPTION)])
  {
    hide Interrupt, InterruptTurns, RunningIds, Grammar, History, Settled;
    OpenOrSettled(r);
    if Open(r) {
      var n := |r.turns| - 1;
      InterruptOpen(r);
      CloseKeepsGrammar(r, Interrupted, Item.Failed(r.turns[n].runId, INTERRUPTION));
    } else {
      InterruptSettled(r);
    }
    InterruptSettled(Interrupt(r));
  }
}
