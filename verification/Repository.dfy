/** What each repository operation does to the durable sessions, on whole records. */
module Repository {
  import opened Prelude
  import opened Titles
  import opened Records
  import opened Transcripts

  /** Failure categories; which field or SQLite operation failed is diagnostic text only. */
  datatype StoreError = NotFound | InvalidStored | OutOfRange | DatabaseFailed

  /** Display text of a failure, shown to clients as a persistence warning. */
  function Describe(e: StoreError): string {
    match e
    case NotFound => "session was not found"
    case InvalidStored => "session store contains invalid data"
    case OutOfRange => "session value exceeds SQLite's supported range"
    case DatabaseFailed => "session-store operation failed"
  }

  type Sessions = map<SessionId, Record>

  datatype Materialize = Materialize(
    cwd: seq<byte>, title: SessionTitle, settings: Settings, prompt: string, runId: u64, createdAt: int)

  // ---------- what SQLite can represent ----------

  predicate ItemInRange(item: Item) {
    match item
    case ToolStarted(runId, _, _, _) => runId <= I64_MAX
    case Failed(runId, _) => runId <= I64_MAX
    case Cancelled(runId) => runId <= I64_MAX
    case _ => true
  }

  predicate TurnInRange(turn: Turn) {
    turn.ordinal <= I64_MAX && turn.runId <= I64_MAX && turn.promptPosition <= I64_MAX
  }

  predicate MetadataInRange(r: Record) {
    r.id <= I64_MAX && r.titleRevision <= I64_MAX && r.settings.contextTokens <= I64_MAX
  }

  predicate PositionsInRange(length: nat) {
    length <= I64_MAX + 1
  }

  /** Turns carry their own positions, as the primary key of their table. */
  predicate Numbered(turns: seq<Turn>) {
    forall i :: 0 <= i < |turns| ==> turns[i].ordinal == i
  }

  /** Exactly the records that a checkpoint can write. */
  predicate Storable(r: Record) {
    && ValidPlan(r.plan)
    && MetadataInRange(r)
    && PositionsInRange(|r.history|) && PositionsInRange(|r.transcript|)
    && (forall i :: 0 <= i < |r.transcript| ==> ItemInRange(r.transcript[i]))
    && (forall i :: 0 <= i < |r.turns| ==> TurnInRange(r.turns[i]))
  }

  // ---------- operations ----------
  // `refuse` says that the database fails the first statement that reaches it; nothing is applied then.

  /** Replaces everything but the identity, directory and creation time of the stored session. */
  function Checkpoint(sessions: Sessions, r: Record, refuse: bool): Result<Sessions, StoreError> {
    if !ValidPlan(r.plan) then Err(InvalidStored)
    else if !Storable(r) then Err(OutOfRange)
    else if refuse then Err(DatabaseFailed)
    else if r.id !in sessions then Err(NotFound)
    else Ok(sessions[r.id := r.(cwd := sessions[r.id].cwd, createdAt := sessions[r.id].createdAt)])
  }

  function WithMetadata(stored: Record, r: Record): Record {
    stored.(title := r.title, titleSource := r.titleSource, titleRevision := r.titleRevision,
            settings := r.settings, lastActivity := r.lastActivity)
  }

  function UpdateMetadata(sessions: Sessions, r: Record, refuse: bool): Result<Sessions, StoreError> {
    if !MetadataInRange(r) then Err(OutOfRange)
    else if refuse then Err(DatabaseFailed)
    else if r.id !in sessions then Err(NotFound)
    else Ok(sessions[r.id := WithMetadata(sessions[r.id], r)])
  }

  function Retitle(r: Record, title: SessionTitle, source: TitleSource): Result<Record, StoreError> {
    if r.titleRevision >= I64_MAX then Err(OutOfRange)
    else Ok(r.(title := title, titleSource := source, titleRevision := r.titleRevision + 1))
  }

  function Rename(sessions: Sessions, id: SessionId, title: SessionTitle, refuse: bool): Result<Record, StoreError> {
    if id > I64_MAX then Err(OutOfRange)
    else if refuse then Err(DatabaseFailed)
    else if id !in sessions then Err(NotFound)
    else Retitle(sessions[id], title, Manual)
  }

  /** A generated title is applied only while the expected revision is current and no user has chosen a title. */
  function SetGeneratedTitle(
    sessions: Sessions, id: SessionId, expectedRevision: u64, title: SessionTitle, refuse: bool)
    : Result<Option<Record>, StoreError>
  {
    if id > I64_MAX then Err(OutOfRange)
    else if expectedRevision > I64_MAX then Err(OutOfRange)
    else if refuse then Err(DatabaseFailed)
    else if id !in sessions then Err(NotFound)
    else if sessions[id].titleSource == Manual || sessions[id].titleRevision != expectedRevision then Ok(None)
    else match Retitle(sessions[id], title, Generated)
      case Ok(r) => Ok(Some(r))
      case Err(e) => Err(e)
  }

  /** Opening a session interrupts the turns that were running when it was last stored. */
  function Load(sessions: Sessions, id: SessionId, refuse: bool): Result<Record, StoreError> {
    if id > I64_MAX then Err(OutOfRange)
    else if refuse then Err(DatabaseFailed)
    else if id !in sessions then Err(NotFound)
    else if !PositionsInRange(|Interrupt(sessions[id]).transcript|) then Err(OutOfRange)
    else Ok(Interrupt(sessions[id]))
  }

  function Materialized(id: SessionId, request: Materialize): Record {
    Record(id, request.title, Fallback, 0, request.cwd, request.settings, [User(request.prompt)],
           [Turn(0, request.runId, 0, Running)], [], [], request.createdAt, request.createdAt)
  }

  // ---------- invariants of the stored sessions ----------

  /** Every stored session is stored under its own identity, storable, and consistent. */
  ghost predicate WellFormed(sessions: Sessions) {
    forall id :: id in sessions ==> sessions[id].id == id && Storable(sessions[id]) && Consistent(sessions[id])
  }

  lemma {:induction false} GrammarIsNumbered(transcript: seq<Item>, turns: seq<Turn>)
    requires Grammar(transcript, turns)
    ensures Numbered(turns)
    decreases |turns|
  {
    if turns != [] {
      var before := turns[..|turns| - 1];
      GrammarIsNumbered(transcript[..turns[|turns| - 1].promptPosition], before);
      assert forall i :: 0 <= i < |before| ==> before[i] == turns[i];
    }
  }

  lemma MaterializedIsConsistent(id: SessionId, request: Materialize)
    ensures Consistent(Materialized(id, request)) && Open(Materialized(id, request))
  {
    var r := Materialized(id, request);
    assert r.transcript[1..] == [] && r.transcript[..0] == [] && r.turns[..0] == [];
  }

  /** A storable consistent record stays well-formed storage; so does an interrupted one. */
  lemma LoadKeepsWellFormed(sessions: Sessions, id: SessionId)
    requires WellFormed(sessions) && Load(sessions, id, false).Ok?
    ensures WellFormed(sessions[id := Load(sessions, id, false).value])
  {
    hide Grammar, History, InterruptTurns, InterruptItems, RunningIds, ValidPlan;
    var r := sessions[id];
    InterruptionRecovers(r);
    assert Storable(Interrupt(r)) by {
      if Open(r) {
        assert TurnInRange(r.turns[|r.turns| - 1]);
      }
    }
  }

  // ---------- crash recovery ----------

  /**
    Opening a session after a crash at any point gives the last committed record with its at most one
    running turn interrupted; the failure shown is that turn's; opening it again changes nothing.
   */
  lemma LoadRecovers(sessions: Sessions, id: SessionId)
    requires Load(sessions, id, false).Ok? && Consistent(sessions[id])
    ensures var loaded := Load(sessions, id, false).value;
            && Consistent(loaded) && Settled(loaded.turns)
            && loaded.history == sessions[id].history
            && Load(sessions[id := loaded], id, false) == Ok(loaded)
            && (if Open(sessions[id]) then
                  var n := |sessions[id].turns| - 1;
                  && loaded.turns == sessions[id].turns[n := sessions[id].turns[n].(status := Interrupted)]
                  && loaded.transcript ==
                     sessions[id].transcript +
                     [Item.Failed(sessions[id].turns[n].runId,
                                  Failure(Finalization, RuntimeInfrastructure, true, "run interrupted by backend restart"))]
                else loaded == sessions[id])
  {
    InterruptionRecovers(sessions[id]);
  }

  /** What a checkpoint writes is what opening the session later returns, unless a turn was still running. */
  lemma LoadAfterCheckpoint(sessions: Sessions, r: Record)
    requires WellFormed(sessions) && Consistent(r) && Storable(r) && r.id in sessions
    requires r.cwd == sessions[r.id].cwd && r.createdAt == sessions[r.id].createdAt
    ensures Checkpoint(sessions, r, false) == Ok(sessions[r.id := r])
    ensures !Open(r) ==> Load(sessions[r.id := r], r.id, false) == Ok(r)
    ensures WellFormed(sessions[r.id := r])
  {
    hide Consistent, Interrupt, Open;
    InterruptionRecovers(r);
  }

  // ---------- titles ----------

  /** The durable title only moves forward, and a user's title is never replaced by a generated one. */
  predicate TitleAdvances(before: Record, after: Record) {
    && before.titleRevision <= after.titleRevision
    && (before.titleRevision == after.titleRevision ==>
          after.title == before.title && after.titleSource == before.titleSource)
    && (before.titleSource == Manual ==> after.titleSource == Manual)
  }

  lemma TitleOperationsAdvance(
    sessions: Sessions, id: SessionId, expectedRevision: u64, title: SessionTitle, refuse: bool)
    requires id in sessions
    ensures Rename(sessions, id, title, refuse).Ok? ==>
      TitleAdvances(sessions[id], Rename(sessions, id, title, refuse).value)
      && Rename(sessions, id, title, refuse).value.titleSource == Manual
    ensures SetGeneratedTitle(sessions, id, expectedRevision, title, refuse).Ok?
            && SetGeneratedTitle(sessions, id, expectedRevision, title, refuse).value.Some? ==>
      TitleAdvances(sessions[id], SetGeneratedTitle(sessions, id, expectedRevision, title, refuse).value.value)
      && sessions[id].titleSource != Manual && sessions[id].titleRevision == expectedRevision
  {
  }

  /** A rename stores the given title as the user's, with the next revision, unless that or the identity is out of range. */
  lemma RenameStores(sessions: Sessions, id: SessionId, title: SessionTitle)
    requires id in sessions
    ensures Rename(sessions, id, title, true).Err?
    ensures var row := sessions[id];
            Rename(sessions, id, title, false) ==
              if id <= I64_MAX && row.titleRevision < I64_MAX then
                Ok(row.(title := title, titleSource := Manual, titleRevision := row.titleRevision + 1))
              else Err(OutOfRange)
  {
  }

  /**
    A generated title is stored exactly if no user has chosen one and the revision is the expected one and
    not the last; the row then carries it as generated, with the next revision.
   */
  lemma GeneratedTitleStores(sessions: Sessions, id: SessionId, expectedRevision: u64, title: SessionTitle)
    requires id in sessions
    ensures SetGeneratedTitle(sessions, id, expectedRevision, title, true).Err?
    ensures var row := sessions[id];
            var result := SetGeneratedTitle(sessions, id, expectedRevision, title, false);
            && (result.Err? <==>
                  id > I64_MAX || expectedRevision > I64_MAX
                  || (row.titleSource != Manual && row.titleRevision == expectedRevision == I64_MAX))
            && (result.Ok? ==>
                  if row.titleSource != Manual && row.titleRevision == expectedRevision then
                    result.value ==
                    Some(row.(title := title, titleSource := Generated, titleRevision := row.titleRevision + 1))
                  else result.value == None)
  {
  }
}
