/**
  What every input of a session's actor answers and leaves behind, in terms of the record, the row, the
  projection and the observers: who hears an event, and what each command, engine outcome and write does.
 */
module SessionAnswers {
  import opened Prelude
  import opened Titles
  import opened Records
  import opened Transcripts
  import opened Repository
  import opened Projections
  import opened Harnesses
  import opened SessionModel
  import opened SessionInvariants
  import opened SessionRuns
  import opened SessionEffects
  import opened SessionTheorems

  // ---------- who hears an event ----------

  /** The observer is still listening and fewer than 128 events wait for it, so that one slot stays free. */
  predicate HasRoom(w: World, o: Observer) {
    o.channel in w.channels && w.channels[o.channel].receiverOpen && |w.channels[o.channel].queue| < 128
  }

  /**
    An event reaches, with the next sequence number, exactly the observers that have room for it; each of
    the others is dropped, and its stream ends with what was queued for it before.
   */
  lemma EventReaches(w: World, event: Event, o: Observer)
    requires StreamsKept(w) && w.projection.sequence < U64_MAX && ValidateEvent(w.projection, event) == None
    requires o in w.observers
    ensures var e := Emit(w, event);
            && o.channel in w.channels && o.channel in e.channels
            && (o in e.observers <==> HasRoom(w, o))
            && (e.channels[o.channel].senderOpen <==> HasRoom(w, o))
            && e.channels[o.channel].queue == w.channels[o.channel].queue +
                 if HasRoom(w, o) then [Envelope(w.projection.sequence + 1, event)] else []
  {
    hide Reduce, ValidateEvent, Survivors, Slice, Current, CloseSenders, Emit, Deliver;
    EmitUnfolds(w, event, TERMINAL_EVENT_RESERVE);
    SurvivorsShape(w.observers, w.channels, TERMINAL_EVENT_RESERVE);
    DeliveredTo(w.channels, ChannelIds(w.observers), Envelope(w.projection.sequence + 1, event), o.channel);
    assert o.channel in ChannelIds(w.observers);
  }

  lemma DeliveredTo(channels: map<nat, Channel>, ids: set<nat>, envelope: Envelope, c: nat)
    requires c in channels && c in ids
    ensures var after := Deliver(channels, ids, envelope, TERMINAL_EVENT_RESERVE);
            c in after && after[c] == Offer(channels[c], envelope, TERMINAL_EVENT_RESERVE)
  {
  }

  /** Nobody joins by an event, and nobody who is not an observer is told. */
  lemma EventReachesNobodyElse(w: World, event: Event)
    requires w.projection.sequence < U64_MAX && ValidateEvent(w.projection, event) == None
    ensures var e := Emit(w, event);
            && (forall o :: o in e.observers ==> o in w.observers)
            && (forall c :: c in w.channels && c !in ChannelIds(w.observers) ==>
                  c in e.channels && e.channels[c] == w.channels[c])
  {
    hide Reduce, ValidateEvent, Survivors, CloseSenders, Emit;
    EmitUnfolds(w, event, TERMINAL_EVENT_RESERVE);
    SurvivorsShape(w.observers, w.channels, TERMINAL_EVENT_RESERVE);
  }

  /** Once sequence numbers have run out nobody hears anything: every stream ends with what was queued. */
  lemma EventAtSaturation(w: World, event: Event, o: Observer)
    requires StreamsKept(w) && w.projection.sequence == U64_MAX && ValidateEvent(w.projection, event) == None
    requires o in w.observers
    ensures var e := Emit(w, event);
            && e.observers == [] && o.channel in w.channels && o.channel in e.channels
            && !e.channels[o.channel].senderOpen && e.channels[o.channel].queue == w.channels[o.channel].queue
  {
    hide Reduce, ValidateEvent, Slice, Current, Emit;
    EmitUnfolds(w, event, TERMINAL_EVENT_RESERVE);
    assert o.channel in ChannelIds(w.observers);
  }

  // ---------- what a write does ----------

  /** A write that is not refused stores the whole record, if its columns can hold it; a refused one leaves it unwritten. */
  predicate Written(before: Sessions, v: World, refuse: bool) {
    && (!refuse && Storable(v.record) ==> v.dirty == None && v.sessions == before[v.record.id := v.record])
    && (refuse ==> v.dirty == Some(v.record) && v.sessions == before)
  }

  /** Only the warning, the streams and the write state differ. */
  predicate SameButWrite(u: World, v: World) {
    && v == u.(projection := v.projection, log := v.log, observers := v.observers, channels := v.channels,
               dirty := v.dirty, sessions := v.sessions)
    && v.projection == u.projection.(warning := v.projection.warning, sequence := v.projection.sequence)
    && u.log <= v.log
  }

  lemma SettleWrites(w: World, written: Result<Sessions, StoreError>)
    ensures var v := Settle(w, written);
            && SameButWrite(w, v)
            && (match written
                case Ok(sessions) => v.sessions == sessions && v.dirty == None
                case Err(_) => v.sessions == w.sessions && v.dirty == Some(w.record))
  {
    hide Emit;
    match written
    case Ok(sessions) => EventNoted(w.(sessions := sessions, dirty := None), PersistenceWarning(None));
    case Err(e) => EventNoted(w.(dirty := Some(w.record)), PersistenceWarning(Some(Describe(e))));
  }

  /** While sequence numbers last, the event is the next one in the log. */
  predicate Announces(w: World, v: World, event: Event) {
    w.projection.sequence < U64_MAX ==> w.log + [event] <= v.log
  }

  lemma EventNoted(w: World, event: Event)
    requires ValidateEvent(w.projection, event) == None
    ensures var e := Emit(w, event);
            && e == w.(projection := e.projection, log := e.log, observers := e.observers, channels := e.channels)
            && e.projection == Reduce(w.projection, event).(sequence := e.projection.sequence)
            && w.log <= e.log && Announces(w, e, event)
  {
    hide Emit, Reduce, ValidateEvent, Deliver, Survivors, CloseSenders, ChannelIds;
    EmitEffect(w, event, TERMINAL_EVENT_RESERVE);
    EmitUnfolds(w, event, TERMINAL_EVENT_RESERVE);
  }

  /** The row whose place the record takes has its directory and creation time, as every row of a session does. */
  predicate HasRow(w: World) {
    && w.record.id in w.sessions
    && w.sessions[w.record.id].cwd == w.record.cwd && w.sessions[w.record.id].createdAt == w.record.createdAt
  }

  lemma PersistWrites(w: World, refuse: bool)
    requires HasRow(w)
    ensures SameButWrite(w, Persist(w, refuse)) && Written(w.sessions, Persist(w, refuse), refuse)
  {
    hide Settle, SameButWrite, Storable;
    SettleWrites(w, Checkpoint(w.sessions, w.record, refuse));
    CheckpointStores(w.sessions, w.record);
    SameRecord(w, Persist(w, refuse));
  }

  lemma SameRecord(u: World, v: World)
    requires SameButWrite(u, v)
    ensures v.record == u.record && v.harness == u.harness && v.counted == u.counted
    ensures v.exited == u.exited && v.deleting == u.deleting && v.shuttingDown == u.shuttingDown
    ensures v.projection.transcript == u.projection.transcript && v.projection.activeRun == u.projection.activeRun
    ensures v.projection.summary == u.projection.summary && v.projection.settings == u.projection.settings
    ensures v.projection.plan == u.projection.plan
    ensures forall w: World, event: Event :: Announces(w, u, event) ==> Announces(w, v, event)
  {
  }

  lemma CheckpointStores(sessions: Sessions, r: Record)
    requires r.id in sessions && sessions[r.id].cwd == r.cwd && sessions[r.id].createdAt == r.createdAt
    ensures Storable(r) ==> Checkpoint(sessions, r, false) == Ok(sessions[r.id := r])
    ensures Checkpoint(sessions, r, true).Err?
  {
  }

  /** The metadata write suffices whenever nothing else is unwritten. */
  lemma MetadataWrites(w: World, refuse: bool)
    requires HasRow(w) && (w.dirty.None? ==> WithMetadata(w.sessions[w.record.id], w.record) == w.record)
    ensures SameButWrite(w, PersistMetadata(w, refuse)) && Written(w.sessions, PersistMetadata(w, refuse), refuse)
  {
    hide Settle, SameButWrite, Storable;
    var written := if w.dirty.Some? then Checkpoint(w.sessions, w.record, refuse)
                   else UpdateMetadata(w.sessions, w.record, refuse);
    SettleWrites(w, written);
    CheckpointStores(w.sessions, w.record);
    MetadataStores(w.sessions, w.record);
    SameRecord(w, PersistMetadata(w, refuse));
  }

  lemma MetadataStores(sessions: Sessions, r: Record)
    requires r.id in sessions
    ensures Storable(r) ==> UpdateMetadata(sessions, r, false) == Ok(sessions[r.id := WithMetadata(sessions[r.id], r)])
    ensures UpdateMetadata(sessions, r, true).Err?
  {
  }

  /** What holds between inputs, as far as the answers need it. */
  lemma InGoodOrder(origin: Projection, w: World)
    requires Inv(origin, w) && !w.exited
    ensures Aligned(w.record, w.projection, w.harness) && (w.deleting ==> w.harness.active.None?)
    ensures !w.deleting ==> HasRow(w)
    ensures !w.deleting && w.dirty.None? ==> w.sessions[w.record.id] == w.record
    ensures w.dirty.Some? ==> w.dirty.value == w.record
  {
    hide LogKept, StreamsKept, Aligned, Consistent;
  }

  // ---------- submitting and cancelling ----------

  /** Commands that change the session are refused while it is being deleted or shut down, and change nothing. */
  predicate Guarded(w: World, v: World, reply: Reply) {
    && (w.deleting ==> reply == Refused(Deleting) && v == w)
    && (!w.deleting && w.shuttingDown ==> reply == Refused(ActorUnavailable) && v == w)
  }

  predicate Accepting(w: World) {
    !w.deleting && !w.shuttingDown
  }

  /**
    A prompt is accepted exactly while no run is active and identifiers are left; it gets the next
    identifier, and the transcript ends with it as the prompt of a new running turn.
   */
  lemma SubmissionAnswers(origin: Projection, w: World, prompt: string, refuse: bool)
    requires Inv(origin, w) && !w.exited
    ensures var (v, reply) := Step(w, Submit(prompt, refuse));
            && Guarded(w, v, reply)
            && (Accepting(w) && w.harness.active.Some? ==> reply == Refused(SessionBusy) && v == w)
            && (Accepting(w) && w.harness.active.None? && w.harness.idsExhausted ==> reply == Refused(RunIdsExhausted) && v == w)
            && (Accepting(w) && w.harness.active.None? && !w.harness.idsExhausted ==>
                  && reply == Accepted(w.harness.nextRunId)
                  && RunBegins(w, v, w.harness.nextRunId, prompt)
                  && Written(w.sessions, v, refuse))
  {
    hide LogKept, StreamsKept, WrittenBehind, Emit, Persist, Aligned, SameButWrite, Written;
    InGoodOrder(origin, w);
    if Accepting(w) && w.harness.active.None? && !w.harness.idsExhausted {
      SubmissionTaken(w, prompt, refuse);
    }
  }

  /** The new run everywhere: record, projection, harness and count. */
  predicate RunBegins(w: World, v: World, runId: u64, prompt: string) {
    && v.record == w.record.(transcript := w.record.transcript + [User(prompt)],
                             turns := w.record.turns + [Turn(|w.record.turns|, runId, |w.record.transcript|, Running)])
    && v.projection.transcript == v.record.transcript && v.projection.activeRun == Some(ActiveRun(runId, prompt, ""))
    && v.projection.summary.busy && v.counted
    && v.harness.active == Some(Active(runId, prompt)) && v.harness.history == w.harness.history
    && v.harness.idsExhausted == (runId == U64_MAX)
    && v.harness.nextRunId == (if runId == U64_MAX then runId else runId + 1)
    && Announces(w, v, Started(runId, prompt))
  }

  lemma SubmissionTaken(w: World, prompt: string, refuse: bool)
    requires Aligned(w.record, w.projection, w.harness) && HasRow(w) && Guard(w).None?
    requires w.harness.active.None? && !w.harness.idsExhausted
    ensures var (v, reply) := Submitted(w, prompt, refuse);
            && reply == Accepted(w.harness.nextRunId) && RunBegins(w, v, w.harness.nextRunId, prompt)
            && Written(w.sessions, v, refuse)
  {
    hide Emit, Persist, Consistent, SameButWrite, Written;
    var event := Started(w.harness.nextRunId, prompt);
    StartAligned(w.record, w.projection, w.harness, prompt);
    var harness := SubmitRun(w.harness, prompt).value;
    var started := w.(harness := harness, record := ApplyDurable(w.record, event).value);
    EventNoted(started, event);
    var emitted := Emit(started, event);
    PersistWrites(emitted, refuse);
    SameRecord(emitted, Persist(emitted, refuse));
    WrittenIgnoresCount(w.sessions, Persist(emitted, refuse), refuse, true);
  }

  lemma WrittenIgnoresCount(before: Sessions, v: World, refuse: bool, counted: bool)
    requires Written(before, v, refuse)
    ensures Written(before, v.(counted := counted), refuse)
  {
    hide Storable;
  }

  // ---------- what ends up in the record ----------

  function LastAs(turns: seq<Turn>, status: TurnStatus): (r: seq<Turn>)
    requires turns != []
    ensures |r| == |turns|
  {
    turns[|turns| - 1 := turns[|turns| - 1].(status := status)]
  }

  /** What each transcript event of the running turn makes of the record. */
  lemma RecordAfter(r: Record, event: Event)
    requires Grammar(r.transcript, r.turns) && Open(r) && IsRunEvent(event)
    requires event.runId == r.turns[|r.turns| - 1].runId
    ensures ApplyDurable(r, event) == Ok(
      match event
      case ToolStarted(id, call, name, arguments) =>
        r.(transcript := r.transcript + [Item.ToolStarted(id, call, name, arguments)])
      case Completed(_, response, now) =>
        r.(transcript := r.transcript + [Assistant(response)], turns := LastAs(r.turns, TurnStatus.Completed),
           lastActivity := now)
      case Failed(id, failure) =>
        r.(transcript := r.transcript + [Item.Failed(id, failure)], turns := LastAs(r.turns, TurnStatus.Failed))
      case Cancelled(id) =>
        r.(transcript := r.transcript + [Item.Cancelled(id)], turns := LastAs(r.turns, TurnStatus.Cancelled))
      case _ => r)
  {
    hide Grammar;
    RunningIsLast(r, event.runId);
  }

  lemma RunIsOpen(w: World)
    requires Aligned(w.record, w.projection, w.harness) && w.harness.active.Some?
    ensures Open(w.record) && Grammar(w.record.transcript, w.record.turns)
    ensures w.record.turns[|w.record.turns| - 1].runId == w.harness.active.value.id
    ensures w.harness.history == w.record.history
    ensures w.projection.activeRun.Some? && w.projection.activeRun.value.runId == w.harness.active.value.id
    ensures w.projection.transcript == w.record.transcript
  {
    hide Grammar, History;
  }

  /** A transcript event of the active run, once the harness has taken it in. */
  lemma DurableOutcome(w: World, event: Event, refuse: bool)
    requires Aligned(w.record, w.projection, w.harness) && HasRow(w) && w.harness.active.Some?
    requires IsRunEvent(event) && event.runId == w.harness.active.value.id
    ensures Open(w.record)
    ensures var harness := HarnessAfter(w.harness, event);
            var v := DurableRunEvent(w.(harness := harness, counted := event.ToolStarted?), event, refuse);
            && v.harness == harness && v.counted == event.ToolStarted?
            && v.deleting == w.deleting && v.shuttingDown == w.shuttingDown && v.exited == w.exited
            && v.record == RecordOf(w, event) && v.projection.transcript == v.record.transcript
            && Announces(w, v, event) && Written(w.sessions, v, refuse)
  {
    hide Emit, Persist, Consistent, SameButWrite, Written, ApplyDurable, Reduce, Open, LastAs, Announces;
    RunIsOpen(w);
    RecordAfter(w.record, event);
    DurableAligned(w.record, w.projection, w.harness, event);
    var harness := HarnessAfter(w.harness, event);
    var updated := w.(harness := harness, counted := event.ToolStarted?, record := RecordOf(w, event));
    EventNoted(updated, event);
    var emitted := Emit(updated, event);
    RecordKeepsOrigin(w, event);
    PersistWrites(emitted, refuse);
    SameRecord(emitted, Persist(emitted, refuse));
    SameStart(w, updated, emitted, event);
    AlignedTranscript(updated.record, Reduce(w.projection, event), harness);
  }

  lemma SameStart(w: World, u: World, v: World, event: Event)
    requires u.projection.sequence == w.projection.sequence && u.log == w.log && Announces(u, v, event)
    ensures Announces(w, v, event)
  {
  }

  lemma AlignedTranscript(r: Record, p: Projection, h: HarnessState)
    requires Aligned(r, p, h)
    ensures p.transcript == r.transcript
  {
    hide Consistent;
  }

  /** The record after a transcript event, with the harness's history once an exchange is complete. */
  function RecordOf(w: World, event: Event): Record
    requires Open(w.record) && w.harness.active.Some?
  {
    var r := w.record;
    match event
    case ToolStarted(id, call, name, arguments) =>
      r.(transcript := r.transcript + [Item.ToolStarted(id, call, name, arguments)])
    case Completed(_, response, now) =>
      r.(transcript := r.transcript + [Assistant(response)], turns := LastAs(r.turns, TurnStatus.Completed),
         history := w.harness.history + [Message(UserRole, w.harness.active.value.prompt), Message(AssistantRole, response)],
         lastActivity := now)
    case Failed(id, failure) =>
      r.(transcript := r.transcript + [Item.Failed(id, failure)], turns := LastAs(r.turns, TurnStatus.Failed))
    case Cancelled(id) =>
      r.(transcript := r.transcript + [Item.Cancelled(id)], turns := LastAs(r.turns, TurnStatus.Cancelled))
    case _ => r
  }

  lemma RecordKeepsOrigin(w: World, event: Event)
    requires Open(w.record) && w.harness.active.Some?
    ensures var r := RecordOf(w, event);
            r.id == w.record.id && r.cwd == w.record.cwd && r.createdAt == w.record.createdAt
  {
  }

  // ---------- what the engine's outcomes do ----------

  predicate RunFails(w: World, v: World, failure: Failure, refuse: bool)
    requires w.harness.active.Some? && Open(w.record)
  {
    var id := w.harness.active.value.id;
    && v.record == w.record.(transcript := w.record.transcript + [Item.Failed(id, failure)],
                             turns := LastAs(w.record.turns, TurnStatus.Failed))
    && v.harness == w.harness.(active := None) && !v.counted
    && Announces(w, v, Event.Failed(id, failure)) && Written(w.sessions, v, refuse)
  }

  predicate RunCompletes(w: World, v: World, response: string, now: int, refuse: bool)
    requires w.harness.active.Some? && Open(w.record)
  {
    var history := w.record.history +
                   [Message(UserRole, w.harness.active.value.prompt), Message(AssistantRole, response)];
    && v.record == w.record.(transcript := w.record.transcript + [Assistant(response)], history := history,
                             turns := LastAs(w.record.turns, TurnStatus.Completed), lastActivity := now)
    && v.harness == w.harness.(active := None, history := history) && !v.counted
    && Announces(w, v, Event.Completed(w.harness.active.value.id, response, now)) && Written(w.sessions, v, refuse)
  }

  /** Nothing durable changes. */
  predicate OnlyShown(w: World, v: World) {
    v.record == w.record && v.harness == w.harness && v.dirty == w.dirty && v.sessions == w.sessions
    && v.counted == w.counted
  }

  /**
    What one outcome of the engine does to a running session: a tool call and the end of the run are
    recorded, stored and announced as they were yielded; text and finished tools are only shown.
   */
  lemma EngineAnswers(origin: Projection, w: World, outcome: EngineOutcome, now: int, refuse: bool)
    requires Inv(origin, w) && !w.exited && w.harness.active.Some?
    ensures Open(w.record) && w.projection.activeRun.Some?
    ensures var v := Step(w, Engine(outcome, now, refuse)).0;
            var id := w.harness.active.value.id;
            match outcome
            case ToolBegan(call, name, arguments) =>
              && v.record == w.record.(transcript := w.record.transcript + [Item.ToolStarted(id, call, name, arguments)])
              && v.harness == w.harness && v.counted
              && Announces(w, v, Event.ToolStarted(id, call, name, arguments)) && Written(w.sessions, v, refuse)
            case Reply(response) =>
              if forall c :: c in response ==> IsWhitespace(c) then
                RunFails(w, v, Failure(Finalization, EmptyResponse, false, "engine completed with an empty response"), refuse)
              else RunCompletes(w, v, response, now, refuse)
            case EngineFailure(failure) => RunFails(w, v, failure, refuse)
            case Ended =>
              RunFails(w, v, Failure(Finalization, Protocol, false, "engine stream ended before completion"), refuse)
            case Delta(text) =>
              && OnlyShown(w, v) && Announces(w, v, AssistantDelta(id, text))
              && v.projection.activeRun == Some(w.projection.activeRun.value.(
                   assistantText := w.projection.activeRun.value.assistantText + text))
            case ToolEnded(call, name) =>
              OnlyShown(w, v) && Announces(w, v, ToolFinished(id, call, name)) && v.projection.activeRun == w.projection.activeRun
            case Usage(inputTokens) =>
              && v.record == w.record.(settings := w.record.settings.(contextTokens := inputTokens), lastActivity := now)
              && v.harness == w.harness && v.counted == w.counted
              && Announces(w, v, ContextUsage(id, inputTokens, now)) && Written(w.sessions, v, refuse)
  {
    hide Inv, Aligned, RunEventHandled, Blank, Written, Announces, Open, HasRow, RunFails, RunCompletes, Step, OnlyShown;
    InGoodOrder(origin, w);
    RunIsOpen(w);
    CountedRun(origin, w);
    EngineIs(w, outcome, now, refuse);
    var id := w.harness.active.value.id;
    match outcome
    case ToolBegan(call, name, arguments) => ToolOutcome(w, call, name, arguments, now, refuse);
    case Reply(response) =>
      BlankMeans(response);
      if Blank(response) {
        FailedOutcome(w, EMPTY_RESPONSE, now, refuse);
      } else {
        CompletedOutcome(w, response, now, refuse);
      }
    case EngineFailure(failure) => FailedOutcome(w, failure, now, refuse);
    case Ended => FailedOutcome(w, STREAM_ENDED, now, refuse);
    case Delta(text) => ShownOutcome(w, RunDelta(id, text), AssistantDelta(id, text), now, refuse);
    case ToolEnded(call, name) => ShownOutcome(w, RunToolFinished(id, call, name), ToolFinished(id, call, name), now, refuse);
    case Usage(inputTokens) => UsageOutcome(w, inputTokens, now, refuse);
  }

  lemma EngineIs(w: World, outcome: EngineOutcome, now: int, refuse: bool)
    requires !w.exited && w.harness.active.Some?
    ensures var event := EventOf(w.harness.active.value.id, outcome);
            Step(w, Engine(outcome, now, refuse)).0 ==
            RunEventHandled(w.(harness := AfterEvent(w.harness, event)), event, now, refuse)
  {
    hide RunEventHandled, EventOf, AfterEvent;
  }

  lemma ToolOutcome(w: World, call: string, name: string, arguments: Json, now: int, refuse: bool)
    requires Aligned(w.record, w.projection, w.harness) && HasRow(w) && w.harness.active.Some? && w.counted
    ensures var raw := RunToolStarted(w.harness.active.value.id, call, name, arguments);
            var v := RunEventHandled(w.(harness := AfterEvent(w.harness, raw)), raw, now, refuse);
            && v.record == w.record.(transcript := w.record.transcript + [Item.ToolStarted(raw.runId, call, name, arguments)])
            && v.harness == w.harness && v.counted
            && Announces(w, v, Event.ToolStarted(raw.runId, call, name, arguments)) && Written(w.sessions, v, refuse)
  {
    hide RunEventHandled, Aligned, HasRow, Announces, Written, Open;
    RecordedOutcome(w, Event.ToolStarted(w.harness.active.value.id, call, name, arguments), now, refuse);
  }

  lemma FailedOutcome(w: World, failure: Failure, now: int, refuse: bool)
    requires Aligned(w.record, w.projection, w.harness) && HasRow(w) && w.harness.active.Some? && w.counted
    ensures Open(w.record)
    ensures var raw := RunFailed(w.harness.active.value.id, failure);
            RunFails(w, RunEventHandled(w.(harness := AfterEvent(w.harness, raw)), raw, now, refuse), failure, refuse)
  {
    hide RunEventHandled, Aligned, HasRow, Announces, Written, Open, LastAs;
    RecordedOutcome(w, Event.Failed(w.harness.active.value.id, failure), now, refuse);
  }

  lemma CompletedOutcome(w: World, response: string, now: int, refuse: bool)
    requires Aligned(w.record, w.projection, w.harness) && HasRow(w) && w.harness.active.Some? && w.counted
    ensures Open(w.record)
    ensures var raw := RunCompleted(w.harness.active.value.id, response);
            RunCompletes(w, RunEventHandled(w.(harness := AfterEvent(w.harness, raw)), raw, now, refuse), response, now, refuse)
  {
    hide RunEventHandled, Aligned, HasRow, Announces, Written, Open, LastAs;
    RunIsOpen(w);
    RecordedOutcome(w, Event.Completed(w.harness.active.value.id, response, now), now, refuse);
  }

  lemma CountedRun(origin: Projection, w: World)
    requires Inv(origin, w) && !w.exited
    ensures w.counted <==> w.harness.active.Some?
  {
    hide LogKept, StreamsKept, WrittenBehind, Aligned;
  }

  /** The run event that ends up as this transcript event. */
  function Raw(event: Event): RunEvent
    requires event.ToolStarted? || event.Completed? || event.Failed?
  {
    match event
    case ToolStarted(id, call, name, arguments) => RunToolStarted(id, call, name, arguments)
    case Completed(id, response, _) => RunCompleted(id, response)
    case Failed(id, failure) => RunFailed(id, failure)
  }

  lemma RecordedOutcome(w: World, event: Event, now: int, refuse: bool)
    requires Aligned(w.record, w.projection, w.harness) && HasRow(w) && w.harness.active.Some? && w.counted
    requires event.ToolStarted? || event.Completed? || event.Failed?
    requires event.runId == w.harness.active.value.id && (event.Completed? ==> event.lastActivity == now)
    ensures Open(w.record)
    ensures var v := RunEventHandled(w.(harness := AfterEvent(w.harness, Raw(event))), Raw(event), now, refuse);
            && v.harness == HarnessAfter(w.harness, event) && v.counted == event.ToolStarted?
            && v.record == RecordOf(w, event) && Announces(w, v, event) && Written(w.sessions, v, refuse)
  {
    hide Emit, PersistMetadata, DurableRunEvent, ValidateEvent, Aligned, HasRow, RecordOf, Announces, Written, Open;
    DurableOutcome(w, event, refuse);
    var entered := w.(harness := AfterEvent(w.harness, Raw(event)));
    assert entered.(counted := entered.counted && !EndsRun(Raw(event))) ==
           w.(harness := HarnessAfter(w.harness, event), counted := event.ToolStarted?);
    assert SessionEventOf(Raw(event), now) == event;
  }

  lemma ShownOutcome(w: World, raw: RunEvent, event: Event, now: int, refuse: bool)
    requires Aligned(w.record, w.projection, w.harness) && w.harness.active.Some?
    requires raw.RunDelta? || raw.RunToolFinished?
    requires raw.runId == w.harness.active.value.id
    requires event == if raw.RunDelta? then AssistantDelta(raw.runId, raw.text)
                      else ToolFinished(raw.runId, raw.callId, raw.name)
    ensures w.projection.activeRun.Some?
    ensures var v := RunEventHandled(w.(harness := AfterEvent(w.harness, raw)), raw, now, refuse);
            && OnlyShown(w, v) && Announces(w, v, event)
            && v.projection.activeRun == (
                 if event.ToolFinished? then w.projection.activeRun
                 else Some(w.projection.activeRun.value.(
                        assistantText := w.projection.activeRun.value.assistantText + event.text)))
  {
    hide Emit, PersistMetadata, DurableRunEvent, Aligned, Announces;
    RunIsOpen(w);
    EventNoted(w, event);
    assert w.(harness := AfterEvent(w.harness, raw)) == w && w.(counted := w.counted && !EndsRun(raw)) == w;
  }

  lemma UsageOutcome(w: World, inputTokens: u64, now: int, refuse: bool)
    requires Aligned(w.record, w.projection, w.harness) && HasRow(w) && w.harness.active.Some?
    requires w.dirty.None? ==> w.sessions[w.record.id] == w.record
    ensures var raw := RunUsage(w.harness.active.value.id, inputTokens);
            var v := RunEventHandled(w.(harness := AfterEvent(w.harness, raw)), raw, now, refuse);
            && v.record == w.record.(settings := w.record.settings.(contextTokens := inputTokens), lastActivity := now)
            && v.harness == w.harness && v.counted == w.counted
            && Announces(w, v, ContextUsage(raw.runId, inputTokens, now)) && Written(w.sessions, v, refuse)
  {
    hide Emit, PersistMetadata, DurableRunEvent, Aligned, Announces, Written, SameButWrite;
    RunIsOpen(w);
    var id := w.harness.active.value.id;
    var updated := w.(record := w.record.(settings := w.record.settings.(contextTokens := inputTokens), lastActivity := now));
    EventNoted(updated, ContextUsage(id, inputTokens, now));
    var emitted := Emit(updated, ContextUsage(id, inputTokens, now));
    MetadataWrites(emitted, refuse);
    SameRecord(emitted, PersistMetadata(emitted, refuse));
    SameStart(w, updated, emitted, ContextUsage(id, inputTokens, now));
    var raw := RunUsage(id, inputTokens);
    assert w.(harness := AfterEvent(w.harness, raw)) == w && w.(counted := w.counted && !EndsRun(raw)) == w;
  }

  // ---------- cancelling ----------

  /** Cancelling takes exactly a running session, and records, stores and announces the end of that run. */
  lemma CancellationAnswers(origin: Projection, w: World, refuse: bool)
    requires Inv(origin, w) && !w.exited
    ensures var (v, reply) := Step(w, Cancel(refuse));
            && Guarded(w, v, reply)
            && (Accepting(w) && w.harness.active.None? ==> reply == Refused(NoRun) && v == w)
            && (Accepting(w) && w.harness.active.Some? ==>
                  reply == Success && Open(w.record) && RunCancels(w, v, refuse))
  {
    hide LogKept, StreamsKept, WrittenBehind, Aligned, DurableRunEvent, Written, Announces, HasRow, ApplyDurable, LastAs;
    InGoodOrder(origin, w);
    if Accepting(w) && w.harness.active.Some? {
      var event := Event.Cancelled(w.harness.active.value.id);
      DurableOutcome(w, event, refuse);
      DurableAligned(w.record, w.projection, w.harness, event);
    }
  }

  predicate RunCancels(w: World, v: World, refuse: bool)
    requires w.harness.active.Some? && Open(w.record)
  {
    var id := w.harness.active.value.id;
    && v.record == w.record.(transcript := w.record.transcript + [Item.Cancelled(id)],
                             turns := LastAs(w.record.turns, TurnStatus.Cancelled))
    && v.harness == w.harness.(active := None) && !v.counted
    && Announces(w, v, Event.Cancelled(id)) && Written(w.sessions, v, refuse)
  }

  // ---------- titles ----------

  /** The new title with its source and the next revision, in record, row and projection. */
  predicate TitleInstalled(w: World, v: World, title: SessionTitle, source: TitleSource)
    requires w.record.id in w.sessions && w.record.titleRevision < I64_MAX
  {
    var revision := w.record.titleRevision + 1;
    && v.record == w.record.(title := title, titleSource := source, titleRevision := revision)
    && v.sessions == w.sessions[w.record.id := w.sessions[w.record.id].(
         title := title, titleSource := source, titleRevision := revision)]
    && v.projection.summary == w.projection.summary.(title := title, titleRevision := revision)
    && v.dirty == (if w.dirty.Some? then Some(v.record) else None) && v.harness == w.harness
    && Announces(w, v, TitleChanged(title, revision))
  }

  lemma TitleOfRow(origin: Projection, w: World)
    requires Inv(origin, w) && !w.exited && w.record.id in w.sessions
    ensures var row := w.sessions[w.record.id];
            row.titleRevision == w.record.titleRevision && row.titleSource == w.record.titleSource
  {
    hide LogKept, StreamsKept, Aligned, Consistent;
  }

  lemma ReducedTitle(p: Projection, title: SessionTitle, revision: u64)
    ensures ValidateEvent(p, TitleChanged(title, revision)) == None
    ensures Reduce(p, TitleChanged(title, revision)) ==
            p.(summary := p.summary.(title := title, titleRevision := revision))
  {
  }

  lemma InstallationOutcome(w: World, title: SessionTitle, source: TitleSource)
    requires w.record.id in w.sessions && w.record.titleRevision < I64_MAX
    ensures var row := w.sessions[w.record.id].(title := title, titleSource := source,
                                                titleRevision := w.record.titleRevision + 1);
            TitleInstalled(w, InstallTitle(w.(sessions := w.sessions[w.record.id := row]), row), title, source)
  {
    hide Emit, Announces, Reduce, ValidateEvent;
    var row := w.sessions[w.record.id].(title := title, titleSource := source, titleRevision := w.record.titleRevision + 1);
    var record := w.record.(title := title, titleSource := source, titleRevision := row.titleRevision);
    var installed := w.(sessions := w.sessions[w.record.id := row], record := record,
                        dirty := if w.dirty.Some? then Some(record) else None);
    TitleNoted(installed, title, row.titleRevision);
    SameStart(w, installed, Emit(installed, TitleChanged(title, row.titleRevision)), TitleChanged(title, row.titleRevision));
  }

  lemma TitleNoted(w: World, title: SessionTitle, revision: u64)
    ensures var e := Emit(w, TitleChanged(title, revision));
            && e.record == w.record && e.sessions == w.sessions && e.dirty == w.dirty && e.harness == w.harness
            && e.projection.summary == w.projection.summary.(title := title, titleRevision := revision)
            && Announces(w, e, TitleChanged(title, revision))
  {
    hide Emit, Announces, Reduce, ValidateEvent;
    ReducedTitle(w.projection, title, revision);
    EventNoted(w, TitleChanged(title, revision));
  }

  /** A rename succeeds exactly if it is stored, and is then the title everywhere; otherwise nothing changes. */
  lemma RenameAnswers(origin: Projection, w: World, title: SessionTitle, refuse: bool)
    requires Inv(origin, w) && !w.exited
    ensures var (v, reply) := Step(w, RenameTo(title, refuse));
            && Guarded(w, v, reply)
            && (Accepting(w) ==>
                  if !refuse && w.record.id <= I64_MAX && w.record.titleRevision < I64_MAX then
                    reply == Success && w.record.id in w.sessions && TitleInstalled(w, v, title, Manual)
                  else reply.Refused? && reply.error.PersistenceFailure? && v == w)
  {
    hide Inv, Aligned, InstallTitle, TitleInstalled, Rename;
    InGoodOrder(origin, w);
    if Accepting(w) {
      TitleOfRow(origin, w);
      RenameStores(w.sessions, w.record.id, title);
      if w.record.titleRevision < I64_MAX {
        InstallationOutcome(w, title, Manual);
      }
    }
  }

  /**
    A generated title is installed exactly if something visible of it survives the clean-up, the store takes
    it, no user has chosen a title and the revision it was generated for is still current; otherwise nothing
    changes, and only a failing store is an error.
   */
  lemma GeneratedTitleAnswers(origin: Projection, w: World, revision: u64, generated: Option<string>, refuse: bool)
    requires Inv(origin, w) && !w.exited
    ensures var (v, reply) := Step(w, Input.ApplyGeneratedTitle(revision, generated, refuse));
            var clean := if generated.Some? then SanitizeGeneratedTitle(generated.value) else None;
            && Guarded(w, v, reply)
            && (Accepting(w) && clean.None? ==> reply == Success && v == w)
            && (Accepting(w) && clean.Some? ==>
                  var current := w.record.titleSource != Manual && w.record.titleRevision == revision;
                  if refuse || w.record.id > I64_MAX || revision > I64_MAX || (current && revision == I64_MAX) then
                    reply.Refused? && reply.error.PersistenceFailure? && v == w
                  else if current then
                    reply == Success && w.record.id in w.sessions && TitleInstalled(w, v, clean.value, Generated)
                  else reply == Success && v == w)
  {
    hide Inv, Aligned, InstallTitle, TitleInstalled, SetGeneratedTitle, SanitizeGeneratedTitle;
    InGoodOrder(origin, w);
    var clean := if generated.Some? then SanitizeGeneratedTitle(generated.value) else None;
    if Accepting(w) && clean.Some? {
      TitleOfRow(origin, w);
      GeneratedTitleStores(w.sessions, w.record.id, revision, clean.value);
      if w.record.titleRevision < I64_MAX {
        InstallationOutcome(w, clean.value, Generated);
      }
    }
  }

  // ---------- settings and plans ----------

  predicate SettingsTaken(w: World, v: World, settings: Settings, now: int, refuse: bool) {
    && v.record == w.record.(settings := settings, lastActivity := now)
    && v.projection.settings == settings && v.projection.summary.lastActivity == now
    && v.harness == w.harness && Announces(w, v, SettingsChanged(settings, now)) && Written(w.sessions, v, refuse)
  }

  lemma SettingsOutcome(w: World, settings: Settings, now: int, refuse: bool)
    requires HasRow(w) && (w.dirty.None? ==> w.sessions[w.record.id] == w.record)
    ensures SettingsTaken(w, ChangeSettings(w, settings, now, refuse), settings, now, refuse)
  {
    hide Emit, PersistMetadata, Announces, Written, SameButWrite;
    var changed := w.(record := w.record.(settings := settings, lastActivity := now));
    EventNoted(changed, SettingsChanged(settings, now));
    var emitted := Emit(changed, SettingsChanged(settings, now));
    MetadataWrites(emitted, refuse);
    SameRecord(emitted, PersistMetadata(emitted, refuse));
    SameStart(w, changed, emitted, SettingsChanged(settings, now));
  }

  /** A model is taken unless a ready catalog does not list it; nothing but the model and the activity time changes. */
  lemma ModelAnswers(origin: Projection, w: World, model: string, now: int, refuse: bool)
    requires Inv(origin, w) && !w.exited
    ensures var (v, reply) := Step(w, SelectModel(model, now, refuse));
            && Guarded(w, v, reply)
            && (Accepting(w) ==>
                  if w.projection.catalog.Ready? && forall m :: m in w.projection.catalog.models ==> m.id != model then
                    reply == Refused(ModelNotFound) && v == w
                  else reply == Success && SettingsTaken(w, v, w.record.settings.(model := model), now, refuse))
  {
    hide Inv, Aligned, ChangeSettings, SettingsTaken;
    InGoodOrder(origin, w);
    if Accepting(w) {
      SettingsOutcome(w, w.record.settings.(model := model), now, refuse);
    }
  }

  /** The catalog's first entry for this model. */
  predicate FirstEntry(models: seq<ModelInfo>, model: string, i: nat) {
    i < |models| && models[i].id == model && forall k :: 0 <= k < i ==> models[k].id != model
  }

  /** That entry advertises the level. */
  predicate Advertised(models: seq<ModelInfo>, model: string, level: ReasoningLevel) {
    exists i: nat :: i < |models| && FirstEntry(models, model, i) && level in models[i].reasoningEfforts
  }

  lemma {:induction false} SupportedMeansAdvertised(models: seq<ModelInfo>, model: string, level: ReasoningLevel)
    ensures ReasoningSupported(models, model, level) <==> Advertised(models, model, level)
  {
    hide FirstEntry;
    if models != [] {
      FirstEntryAt(models, model, 0);
      if models[0].id == model {
        forall i: nat | FirstEntry(models, model, i) ensures i == 0 {
          FirstEntryAt(models, model, i);
        }
      } else {
        SupportedMeansAdvertised(models[1..], model, level);
        if Advertised(models, model, level) {
          var i: nat :| i < |models| && FirstEntry(models, model, i) && level in models[i].reasoningEfforts;
          FirstEntryAt(models, model, i);
          assert models[1..][i - 1] == models[i];
        }
        if Advertised(models[1..], model, level) {
          var i: nat :| i < |models| - 1 && FirstEntry(models[1..], model, i) && level in models[1..][i].reasoningEfforts;
          FirstEntryAt(models, model, i + 1);
          assert models[i + 1] == models[1..][i];
        }
      }
    }
  }

  lemma FirstEntryAt(models: seq<ModelInfo>, model: string, i: nat)
    requires models != []
    ensures FirstEntry(models, model, i) <==>
      if i == 0 then models[0].id == model else models[0].id != model && FirstEntry(models[1..], model, i - 1)
  {
    assert forall k :: 0 <= k < |models| - 1 ==> models[1..][k] == models[k + 1];
  }

  /** A reasoning level is taken exactly if a ready catalog advertises it for the session's model. */
  lemma ReasoningAnswers(origin: Projection, w: World, level: ReasoningLevel, now: int, refuse: bool)
    requires Inv(origin, w) && !w.exited
    ensures var (v, reply) := Step(w, SelectReasoning(level, now, refuse));
            && Guarded(w, v, reply)
            && (Accepting(w) ==>
                  if w.projection.catalog.Ready? && Advertised(w.projection.catalog.models, w.record.settings.model, level) then
                    reply == Success && SettingsTaken(w, v, w.record.settings.(reasoning := level), now, refuse)
                  else reply == Refused(UnsupportedReasoning) && v == w)
  {
    hide Inv, Aligned, ChangeSettings, SettingsTaken, ReasoningSupported, Advertised;
    InGoodOrder(origin, w);
    if Accepting(w) {
      SettingsOutcome(w, w.record.settings.(reasoning := level), now, refuse);
      if w.projection.catalog.Ready? {
        SupportedMeansAdvertised(w.projection.catalog.models, w.record.settings.model, level);
      }
    }
  }

  /** A plan update replaces the whole plan and nothing else, while sequence numbers last. */
  lemma PlanAnswers(origin: Projection, w: World, plan: seq<PlanItem>, refuse: bool)
    requires Inv(origin, w) && !w.exited
    ensures var (v, reply) := Step(w, PlanUpdate(plan, refuse));
            if w.projection.sequence == U64_MAX then reply == Refused(ProjectionFailure) && v == w
            else
              && reply == Success && v.record == w.record.(plan := plan) && v.harness == w.harness
              && Announces(w, v, PlanChanged(plan))
              && (!w.deleting ==> v.projection.plan == plan && Written(w.sessions, v, refuse))
  {
    hide Inv, Aligned, PlanReplaced, Announces, Written, HasRow;
    InGoodOrder(origin, w);
    PlanHandled(w, plan, refuse);
    if w.projection.sequence < U64_MAX {
      PlanOutcome(w, plan, refuse);
    } else {
      hide *;
      PlanRefused(w, plan, refuse);
    }
  }

  lemma PlanHandled(w: World, plan: seq<PlanItem>, refuse: bool)
    requires !w.exited
    ensures Step(w, PlanUpdate(plan, refuse)) == PlanReplaced(w, plan, refuse)
  {
    hide PlanReplaced;
  }

  lemma PlanRefused(w: World, plan: seq<PlanItem>, refuse: bool)
    requires w.projection.sequence == U64_MAX
    ensures PlanReplaced(w, plan, refuse) == (w, Refused(ProjectionFailure))
  {
  }

  lemma PlanOutcome(w: World, plan: seq<PlanItem>, refuse: bool)
    requires w.projection.sequence < U64_MAX
    ensures var (v, reply) := PlanReplaced(w, plan, refuse);
            && reply == Success && v.record == w.record.(plan := plan) && v.harness == w.harness
            && v.projection.plan == plan && Announces(w, v, PlanChanged(plan))
            && (HasRow(w) ==> Written(w.sessions, v, refuse))
  {
    hide Emit, Persist, Announces, Written, SameButWrite;
    var planned := w.(record := w.record.(plan := plan));
    EventNoted(planned, PlanChanged(plan));
    var emitted := Emit(planned, PlanChanged(plan));
    SameStart(w, planned, emitted, PlanChanged(plan));
    PersistFrame(emitted, refuse);
    SameRecord(emitted, Persist(emitted, refuse));
    if HasRow(w) {
      PersistWrites(emitted, refuse);
    }
  }

  lemma PersistFrame(w: World, refuse: bool)
    ensures SameButWrite(w, Persist(w, refuse))
  {
    hide Settle, SameButWrite, Checkpoint;
    SettleWrites(w, Checkpoint(w.sessions, w.record, refuse));
  }

  // ---------- flushing and shutting down ----------

  /** The outstanding write, if there is one, can be done now. */
  predicate CanWrite(w: World, refuse: bool) {
    w.dirty.None? || (!refuse && Storable(w.record))
  }

  /** A flush succeeds exactly if nothing is left unwritten by it, and changes nothing when nothing was. */
  lemma FlushAnswers(origin: Projection, w: World, refuse: bool)
    requires Inv(origin, w) && !w.exited
    ensures var (v, reply) := Step(w, Input.Flush(refuse));
            if w.deleting then reply == Refused(Deleting) && v == w
            else FlushDone(w, v, reply, refuse)
  {
    hide Inv, Aligned, Flushed, FlushDone, HasRow;
    InGoodOrder(origin, w);
    if !w.deleting {
      FlushOutcomeOf(w, refuse);
    }
  }

  predicate FlushDone(w: World, v: World, reply: Reply, refuse: bool) {
    && SameButWrite(w, v) && v.sessions == (if w.dirty.Some? && CanWrite(w, refuse) then w.sessions[w.record.id := w.record] else w.sessions)
    && (w.dirty.None? ==> v == w)
    && (if CanWrite(w, refuse) then reply == Success && v.dirty == None
        else reply.Refused? && reply.error.PersistenceFailure? && v.dirty == Some(w.record))
  }

  lemma FlushOutcomeOf(w: World, refuse: bool)
    requires HasRow(w) && (w.dirty.Some? ==> w.dirty.value == w.record)
    ensures FlushDone(w, Flushed(w, refuse).0, Flushed(w, refuse).1, refuse)
  {
    hide Emit, Storable, SameButWrite, Checkpoint;
    if w.dirty.Some? {
      CheckpointDecides(w.sessions, w.record, refuse);
      match Checkpoint(w.sessions, w.record, refuse)
      case Ok(sessions) => WarningNoted(w, sessions, None, None);
      case Err(e) => WarningNoted(w, w.sessions, Some(w.record), Some(Describe(e)));
    } else {
      NothingWritten(w);
    }
  }

  lemma NothingWritten(w: World)
    ensures SameButWrite(w, w)
  {
  }

  /** The outcome of a write, announced. */
  lemma WarningNoted(w: World, sessions: Sessions, dirty: Option<Record>, warning: Option<string>)
    ensures var v := Emit(w.(sessions := sessions, dirty := dirty), PersistenceWarning(warning));
            SameButWrite(w, v) && v.sessions == sessions && v.dirty == dirty
  {
    hide Emit;
    EventNoted(w.(sessions := sessions, dirty := dirty), PersistenceWarning(warning));
  }

  lemma CheckpointDecides(sessions: Sessions, r: Record, refuse: bool)
    requires r.id in sessions && sessions[r.id].cwd == r.cwd && sessions[r.id].createdAt == r.createdAt
    ensures Checkpoint(sessions, r, refuse).Ok? <==> !refuse && Storable(r)
    ensures Checkpoint(sessions, r, refuse).Ok? ==> Checkpoint(sessions, r, refuse).value == sessions[r.id := r]
  {
  }

  /**
    An actor that is not being deleted leaves exactly if what is outstanding can be written and its jobs
    stop; what is stored is then its record. Otherwise it stays, and accepts no more changes.
   */
  lemma ShutdownAnswers(origin: Projection, w: World, jobsStop: bool, refuse: bool)
    requires Inv(origin, w) && !w.exited
    ensures var (v, reply) := Step(w, Shutdown(jobsStop, refuse));
            if w.deleting then reply == Refused(Deleting) && v == w
            else
              && v.record == w.record && v.harness == w.harness
              && (v.exited <==> CanWrite(w, refuse) && jobsStop)
              && (CanWrite(w, refuse) ==> v.dirty == None && v.sessions == w.sessions[w.record.id := w.record])
              && (v.exited ==> reply == Success && v.observers == [])
              && (!v.exited ==>
                    && v.shuttingDown && v.counted == w.counted
                    && reply.Refused?
                    && (if CanWrite(w, refuse) then reply.error == JobFailure else reply.error.PersistenceFailure?))
  {
    hide Inv, Aligned, Flushed, ShutDown, HasRow, CanWrite;
    InGoodOrder(origin, w);
    ShutdownHandled(w, jobsStop, refuse);
    if !w.deleting {
      ShutdownOutcomeOf(w, jobsStop, refuse);
    } else {
      RefusedWhileDeleting(w, jobsStop, refuse);
    }
  }

  lemma ShutdownHandled(w: World, jobsStop: bool, refuse: bool)
    requires !w.exited
    ensures Step(w, Shutdown(jobsStop, refuse)) == ShutDown(w, jobsStop, refuse)
  {
    hide ShutDown;
  }

  lemma RefusedWhileDeleting(w: World, jobsStop: bool, refuse: bool)
    requires w.deleting
    ensures ShutDown(w, jobsStop, refuse) == (w, Refused(Deleting))
  {
    hide Flushed;
  }

  lemma ShutdownOutcomeOf(w: World, jobsStop: bool, refuse: bool)
    requires HasRow(w) && (w.dirty.Some? ==> w.dirty.value == w.record) && !w.exited && !w.deleting
    requires w.dirty.None? ==> w.sessions[w.record.id] == w.record
    ensures var (v, reply) := ShutDown(w, jobsStop, refuse);
            && v.record == w.record && v.harness == w.harness
            && (v.exited <==> CanWrite(w, refuse) && jobsStop)
            && (CanWrite(w, refuse) ==> v.dirty == None && v.sessions == w.sessions[w.record.id := w.record])
            && (v.exited ==> reply == Success && v.observers == [])
            && (!v.exited ==>
                  && v.shuttingDown && v.counted == w.counted
                  && reply.Refused?
                  && (if CanWrite(w, refuse) then reply.error == JobFailure else reply.error.PersistenceFailure?))
  {
    hide Flushed, CloseSenders, ChannelIds, Storable;
    FlushOutcomeOf(w.(shuttingDown := true), refuse);
    assert w.dirty.None? ==> w.sessions[w.record.id := w.record] == w.sessions;
  }

  // ---------- deleting ----------

  /**
    An accepted preparation ends the active run, if any, as cancelled. It succeeds exactly if the jobs stop
    and the record can be written; the row is then the record.
   */
  lemma PreparationAnswers(origin: Projection, w: World, jobsStop: bool, refuse: bool)
    requires Inv(origin, w) && !w.exited
    ensures var (v, reply) := Step(w, PrepareDelete(jobsStop, refuse));
            && Guarded(w, v, reply)
            && (Accepting(w) ==>
                  && v.deleting && !v.exited && !v.counted && v.harness == w.harness.(active := None)
                  && (w.harness.active.None? ==> v.record == w.record)
                  && (w.harness.active.Some? ==> EndsAsCancelled(w, v))
                  && (reply == Success <==> jobsStop && !refuse && Storable(v.record))
                  && (!refuse && Storable(v.record) ==> v.dirty == None && v.sessions == w.sessions[v.record.id := v.record])
                  && (reply != Success ==>
                        reply.Refused? && if jobsStop then reply.error.PersistenceFailure? else reply.error == JobFailure))
  {
    hide Inv, Aligned, DeletePrepared, HasRow, EndsAsCancelled, Storable, StopForDelete, Step;
    InGoodOrder(origin, w);
    CountedRun(origin, w);
    PreparationIs(w, PrepareDelete(jobsStop, refuse));
    if Accepting(w) {
      StopOutcome(w);
      PreparedOutcome(w, jobsStop, refuse);
      if w.harness.active.Some? {
        StillCancelled(w, StopForDelete(w.(deleting := true)).0, DeletePrepared(w, jobsStop, refuse).0);
      }
    } else {
      PreparationRefused(w, jobsStop, refuse);
    }
  }

  /** The active run is recorded and announced as cancelled. */
  predicate EndsAsCancelled(w: World, v: World)
    requires w.harness.active.Some?
  {
    var id := w.harness.active.value.id;
    && Open(w.record)
    && v.record == w.record.(transcript := w.record.transcript + [Item.Cancelled(id)],
                             turns := LastAs(w.record.turns, TurnStatus.Cancelled))
    && Announces(w, v, Event.Cancelled(id))
  }

  lemma StillCancelled(w: World, u: World, v: World)
    requires w.harness.active.Some? && EndsAsCancelled(w, u) && v.record == u.record && u.log <= v.log
    ensures EndsAsCancelled(w, v)
  {
    hide LastAs;
  }

  lemma PreparationRefused(w: World, jobsStop: bool, refuse: bool)
    requires !Accepting(w)
    ensures DeletePrepared(w, jobsStop, refuse) == (w, Refused(if w.deleting then Deleting else ActorUnavailable))
  {
    hide StopForDelete, Checkpoint;
  }

  lemma StopOutcome(w: World)
    requires Aligned(w.record, w.projection, w.harness) && HasRow(w) && (w.counted <==> w.harness.active.Some?)
    ensures var (v, failure) := StopForDelete(w.(deleting := true));
            && failure == None && v.deleting && v.exited == w.exited && !v.counted
            && v.harness == w.harness.(active := None) && v.sessions == w.sessions && v.dirty == w.dirty
            && HasRow(v) && w.log <= v.log
            && (w.harness.active.None? ==> v == w.(deleting := true))
            && (w.harness.active.Some? ==> EndsAsCancelled(w, v))
  {
    hide Emit, Consistent, Announces, ApplyDurable, Reduce, Open, LastAs, ValidateEvent;
    if w.harness.active.Some? {
      var event := Event.Cancelled(w.harness.active.value.id);
      RunIsOpen(w);
      RecordAfter(w.record, event);
      DurableAligned(w.record, w.projection, w.harness, event);
      var stopped := w.(deleting := true, harness := w.harness.(active := None), counted := false,
                        record := ApplyDurable(w.record, event).value);
      EventNoted(stopped, event);
      SameStart(w, stopped, Emit(stopped, event), event);
    }
  }

  lemma PreparedOutcome(w: World, jobsStop: bool, refuse: bool)
    requires Accepting(w)
    requires var (u, failure) := StopForDelete(w.(deleting := true)); HasRow(u) && failure == None
    ensures var u := StopForDelete(w.(deleting := true)).0;
            var (v, reply) := DeletePrepared(w, jobsStop, refuse);
            && v.deleting == u.deleting && v.exited == u.exited && v.counted == u.counted && v.harness == u.harness
            && v.record == u.record && u.log <= v.log
            && (reply == Success <==> jobsStop && !refuse && Storable(v.record))
            && (!refuse && Storable(v.record) ==> v.dirty == None && v.sessions == u.sessions[v.record.id := v.record])
            && (reply != Success ==>
                  reply.Refused? && if jobsStop then reply.error.PersistenceFailure? else reply.error == JobFailure)
  {
    hide StopForDelete, Emit, Checkpoint, Storable;
    var u := StopForDelete(w.(deleting := true)).0;
    CheckpointDecides(u.sessions, u.record, refuse);
    if Checkpoint(u.sessions, u.record, refuse).Ok? {
      EventNoted(u.(sessions := Checkpoint(u.sessions, u.record, refuse).value, dirty := None), PersistenceWarning(None));
    }
  }

  /** The end of a deletion, announced or not, is taken exactly by an actor that was prepared for it. */
  lemma EndingAnswers(w: World, input: Input)
    requires !w.exited && (input == FinishDelete || input == AbortDelete)
    ensures var (v, reply) := Step(w, input);
            && v.harness == w.harness
            && (w.deleting ==> reply == Success && v.exited && v.record == w.record && v.sessions == w.sessions)
            && (!w.deleting ==> reply == Refused(ProjectionFailure) && v == w)
            && (w.deleting && input == AbortDelete ==> v.log == w.log && v.observers == [])
  {
    hide Emit, CloseSenders, ChannelIds;
    if input == FinishDelete {
      FinishTouches(w);
      HarnessIgnoresDeletion(w);
    }
  }

  lemma HarnessIgnoresDeletion(w: World)
    ensures Emit(w, Deleted(w.record.id), 0).harness == w.harness
  {
    hide Emit;
    EmitEffect(w, Deleted(w.record.id), 0);
  }

  // ---------- observers and jobs ----------

  /**
    Attaching answers with the present state and registers the observer on an empty stream that begins
    right after it; it is refused exactly while deleting, or without a fresh stream or the list of jobs.
   */
  lemma AttachAnswers(w: World, connection: u64, attachment: u64, channel: nat, jobs: Option<seq<Job>>)
    requires !w.exited
    ensures var (v, reply) := Step(w, Attach(connection, attachment, channel, jobs));
            var taken := !w.deleting && channel !in w.channels && jobs.Some?;
            && (reply.Attached? <==> taken)
            && v == w.(observers := v.observers, channels := v.channels)
            && (!taken ==> reply.Refused? && v.observers == w.observers && (w.deleting ==> v == w && reply.error == Deleting))
            && (taken ==>
                  && v.observers == w.observers + [Observer(connection, attachment, channel)]
                  && v.channels == w.channels[channel := Channel([], w.projection.sequence + 1, true, true)]
                  && ShowsNow(reply.snapshot, w.projection, jobs.value, |v.observers|))
  {
  }

  /** The snapshot is the projection, with the jobs and the number of clients. */
  predicate ShowsNow(s: Snapshot, p: Projection, jobs: seq<Job>, clients: nat) {
    && s.transcript == p.transcript && s.activeRun == p.activeRun && s.settings == p.settings && s.catalog == p.catalog
    && s.plan == p.plan && s.warning == p.warning && s.sequence == p.sequence && s.jobs == jobs
    && s.busy == p.activeRun.Some? && s.summary == p.summary.(attachedClients := s.summary.attachedClients)
    && s.summary.attachedClients == if clients < 0x1_0000_0000 then clients else 0xFFFF_FFFF
  }

  /** The streams of those who are no longer observers end; all others are as before. */
  predicate OnlyTheirsEnd(w: World, v: World) {
    forall c :: c in w.channels ==>
      && c in v.channels
      && v.channels[c] == (if c in ChannelIds(w.observers) && c !in ChannelIds(v.observers) then
                             w.channels[c].(senderOpen := false)
                           else w.channels[c])
  }

  /** Exactly this attachment's observers leave, and only their streams end; the others are counted. */
  lemma DetachAnswers(w: World, connection: u64, attachment: u64)
    requires !w.exited && Distinct(w.observers)
    ensures var (v, reply) := Step(w, Detach(connection, attachment));
            && v == w.(observers := v.observers, channels := v.channels)
            && (forall o :: o in v.observers <==> o in w.observers && !(o.connection == connection && o.attachment == attachment))
            && OnlyTheirsEnd(w, v)
            && reply == Detached(if |v.observers| < 0x1_0000_0000 then |v.observers| else 0xFFFF_FFFF)
  {
    hide Remaining;
    RemainingShape(w.observers, connection, Some(attachment));
  }

  /** A lost connection takes all of its observers, and no others. */
  lemma DisconnectAnswers(w: World, connection: u64)
    requires !w.exited && Distinct(w.observers)
    ensures var v := Step(w, DetachConnection(connection)).0;
            && v == w.(observers := v.observers, channels := v.channels)
            && (forall o :: o in v.observers <==> o in w.observers && o.connection != connection)
            && OnlyTheirsEnd(w, v)
  {
    hide Remaining;
    RemainingShape(w.observers, connection, None);
  }

  /** Job changes are announced as they are, unless the session is being deleted or they cannot be listed. */
  lemma JobsAnswers(w: World, jobs: Option<seq<Job>>)
    requires !w.exited
    ensures var v := Step(w, JobsChange(jobs)).0;
            && v.record == w.record && v.harness == w.harness && v.dirty == w.dirty && v.sessions == w.sessions
            && (w.deleting || jobs.None? ==> v == w)
            && (!w.deleting && jobs.Some? ==> Announces(w, v, JobsChanged(jobs.value)))
  {
    hide Emit, Announces;
    if jobs.Some? {
      EventNoted(w, JobsChanged(jobs.value));
    }
  }

  // ---------- run identifiers ----------

  /** The identifiers of the submissions that were accepted along a run, in order. */
  function Given(w: World, inputs: seq<Input>): seq<u64> {
    if inputs == [] then []
    else
      var before := inputs[..|inputs| - 1];
      var reply := Step(Run(w, before), inputs[|inputs| - 1]).1;
      Given(w, before) + if reply.Accepted? then [reply.runId] else []
  }

  predicate SameIds(w: World, v: World) {
    v.harness.nextRunId == w.harness.nextRunId && v.harness.idsExhausted == w.harness.idsExhausted
  }

  /** Nothing but an accepted submission touches the identifiers. */
  lemma IdsStay(origin: Projection, w: World, input: Input)
    requires Inv(origin, w) && !input.Submit?
    ensures var (v, reply) := Step(w, input); SameIds(w, v) && !reply.Accepted?
  {
    hide Inv, Step;
    if w.exited {
      NobodyAnswers(w, input);
    } else {
      match input
      case Attach(connection, attachment, channel, jobs) => AttachAnswers(w, connection, attachment, channel, jobs);
      case Detach(connection, attachment) =>
        DistinctNow(origin, w);
        DetachAnswers(w, connection, attachment);
      case DetachConnection(connection) =>
        DistinctNow(origin, w);
        DisconnectAnswers(w, connection);
        NoReply(w, input);
      case Cancel(refuse) => CancellationAnswers(origin, w, refuse);
      case RenameTo(title, refuse) => RenameAnswers(origin, w, title, refuse);
      case ApplyGeneratedTitle(revision, generated, refuse) => GeneratedTitleAnswers(origin, w, revision, generated, refuse);
      case PrepareDelete(jobsStop, refuse) => PreparationAnswers(origin, w, jobsStop, refuse);
      case FinishDelete => EndingAnswers(w, input);
      case AbortDelete => EndingAnswers(w, input);
      case SelectModel(model, now, refuse) => ModelAnswers(origin, w, model, now, refuse);
      case SelectReasoning(level, now, refuse) => ReasoningAnswers(origin, w, level, now, refuse);
      case Flush(refuse) => FlushAnswers(origin, w, refuse);
      case Shutdown(jobsStop, refuse) => ShutdownAnswers(origin, w, jobsStop, refuse);
      case Engine(outcome, now, refuse) =>
        NoReply(w, input);
        EngineKeepsIds(origin, w, outcome, now, refuse);
      case JobsChange(jobs) =>
        NoReply(w, input);
        JobsAnswers(w, jobs);
      case PlanUpdate(plan, refuse) => PlanAnswers(origin, w, plan, refuse);
      case _ => SurroundingsKeepIds(w, input);
    }
  }

  lemma EngineKeepsIds(origin: Projection, w: World, outcome: EngineOutcome, now: int, refuse: bool)
    requires Inv(origin, w) && !w.exited
    ensures SameIds(w, Step(w, Engine(outcome, now, refuse)).0)
  {
    hide Inv, Written, Announces, RunEventHandled;
    if w.harness.active.Some? {
      hide Step;
      EngineAnswers(origin, w, outcome, now, refuse);
    }
  }

  lemma DistinctNow(origin: Projection, w: World)
    requires Inv(origin, w)
    ensures Distinct(w.observers)
  {
    hide LogKept, InStep, Slice, Current;
  }

  lemma NobodyAnswers(w: World, input: Input)
    requires w.exited
    ensures var (v, reply) := Step(w, input); v.harness == w.harness && !reply.Accepted?
  {
    hide Handle;
  }

  lemma NoReply(w: World, input: Input)
    requires !w.exited && (input.DetachConnection? || input.Engine? || input.JobsChange?)
    ensures Step(w, input).1 == Success
  {
    hide DetachObservers, EngineStep, Emit;
  }

  lemma SurroundingsKeepIds(w: World, input: Input)
    requires !w.exited && (input.Receive? || input.CloseReceiver? || input.Elsewhere? || input.HandlesDropped?)
    ensures var (v, reply) := Step(w, input); SameIds(w, v) && reply == Success
  {
    hide CloseSenders, ChannelIds;
  }

  /** Identifiers are given out one after another, from the one that is next, until the last one has been. */
  predicate Consecutive(h: HarnessState, given: seq<u64>, after: HarnessState) {
    && (h.idsExhausted ==> given == [] && after.idsExhausted)
    && (!h.idsExhausted ==>
          && (forall i :: 0 <= i < |given| ==> given[i] == h.nextRunId + i)
          && (if after.idsExhausted then h.nextRunId + |given| == U64_MAX + 1
              else after.nextRunId == h.nextRunId + |given|))
  }

  lemma {:induction false} IdsAreConsecutive(origin: Projection, w: World, inputs: seq<Input>)
    requires Inv(origin, w)
    ensures Consecutive(w.harness, Given(w, inputs), Run(w, inputs).harness)
  {
    hide Inv, Step;
    if inputs != [] {
      var before, last := inputs[..|inputs| - 1], inputs[|inputs| - 1];
      IdsAreConsecutive(origin, w, before);
      RunKeeps(origin, w, before);
      var u := Run(w, before);
      if last.Submit? && !u.exited {
        SubmissionAnswers(origin, u, last.prompt, last.refuse);
      } else if last.Submit? {
        NobodyAnswers(u, last);
      } else {
        IdsStay(origin, u, last);
      }
    }
  }

  /**
    Within one life of an actor no run identifier is given out twice: they increase one by one, from 0 in an
    opened session and from 1 in a created one, whose first run has 0. A prompt is refused for want of an
    identifier exactly once the last one, 2^64 - 1, has been given out.
   */
  lemma RunIdsNeverRepeat(origin: Projection, w: World, inputs: seq<Input>, prompt: string, refuse: bool)
    requires Inv(origin, w) && !w.harness.idsExhausted
    ensures var given, after := Given(w, inputs), Run(w, inputs);
            && (forall i :: 0 <= i < |given| ==> given[i] == w.harness.nextRunId + i)
            && (forall i, j :: 0 <= i < j < |given| ==> given[i] < given[j])
            && (!after.harness.idsExhausted ==> forall i :: 0 <= i < |given| ==> given[i] < after.harness.nextRunId)
            && (!after.exited && Accepting(after) && after.harness.active.None? ==>
                  (Step(after, Submit(prompt, refuse)).1 == Refused(RunIdsExhausted) <==>
                     w.harness.nextRunId + |given| == U64_MAX + 1))
  {
    hide Inv, Step, Run, Given;
    IdsAreConsecutive(origin, w, inputs);
    RunKeeps(origin, w, inputs);
    var after := Run(w, inputs);
    if !after.exited {
      SubmissionAnswers(origin, after, prompt, refuse);
    }
  }

  /** Where the identifiers of a life begin. */
  lemma FirstRunIds(record: Record, catalog: Catalog, prompt: string, sessions: Sessions)
    ensures var loaded := Opened(record, catalog, sessions).harness;
            loaded.nextRunId == 0 && !loaded.idsExhausted && loaded.active == None
    ensures var created := SpawnedMaterialized(record, catalog, prompt, sessions).harness;
            created.nextRunId == 1 && !created.idsExhausted && created.active == Some(Active(0, prompt))
  {
  }
}
