/** What clients, restarts and operators may rely on, in every reachable state of a session. */
module SessionTheorems {
  import opened Prelude
  import opened Titles
  import opened Records
  import opened Transcripts
  import opened Repository
  import opened Projections
  import opened Harnesses
  import opened SessionModel
  import opened SessionInvariants
  import opened SessionRuns
  import opened SessionEffects

  // ---------- lockstep ----------

  /**
    In every reachable state the record, the projection and the harness agree on the session and on
    its run, so whatever the engine yields next is accepted by the durable turn and by the projection,
    and so is every prompt while the harness is idle and has identifiers left.
   */
  lemma HarnessEventsAreAccepted(origin: Projection, w: World, outcome: EngineOutcome, now: int, prompt: string)
    requires Reachable(origin, w) && !w.exited
    ensures Aligned(w.record, w.projection, w.harness)
    ensures w.harness.active.Some? ==>
      var event := SessionEventOf(EventOf(w.harness.active.value.id, outcome), now);
      ApplyDurable(w.record, event).Ok? && ValidateEvent(w.projection, event) == None
    ensures w.harness.active.None? && !w.harness.idsExhausted ==>
      var event := Started(w.harness.nextRunId, prompt);
      ApplyDurable(w.record, event).Ok? && ValidateEvent(w.projection, event) == None
  {
    hide Inv, Aligned, Reachable, ApplyDurable, HarnessAfter;
    ReachableIsInvariant(origin, w);
    InvGivesInStep(origin, w);
    if w.harness.active.Some? {
      OutcomeAccepted(w, outcome, now);
    } else if !w.harness.idsExhausted {
      StartAligned(w.record, w.projection, w.harness, prompt);
    }
  }

  lemma InvGivesInStep(origin: Projection, w: World)
    requires Inv(origin, w) && !w.exited
    ensures InStep(w)
    ensures Aligned(w.record, w.projection, w.harness)
  {
    hide LogKept, StreamsKept, Aligned, WrittenBehind;
  }

  lemma OutcomeAccepted(w: World, outcome: EngineOutcome, now: int)
    requires Aligned(w.record, w.projection, w.harness) && w.harness.active.Some?
    ensures var event := SessionEventOf(EventOf(w.harness.active.value.id, outcome), now);
            ApplyDurable(w.record, event).Ok? && ValidateEvent(w.projection, event) == None
  {
    hide Consistent, HarnessAfter, FindRunning;
    var event := SessionEventOf(EventOf(w.harness.active.value.id, outcome), now);
    if IsRunEvent(event) {
      DurableAligned(w.record, w.projection, w.harness, event);
    }
  }

  /** The transcript grammar and the model-facing history, position by position, in every reachable state. */
  lemma TranscriptsAreGrammatical(origin: Projection, w: World)
    requires Reachable(origin, w) && !w.exited
    ensures AllSegments(w.projection.transcript, w.record.turns)
    ensures Grammar(w.projection.transcript, w.record.turns)
    ensures w.harness.history == History(w.projection.transcript, w.record.turns)
  {
    hide Inv, Reachable, Grammar, History, AllSegments;
    ReachableIsInvariant(origin, w);
    InvGivesInStep(origin, w);
    GrammarMeansSegments(w.record.transcript, w.record.turns);
  }

  // ---------- write-behind ----------

  /**
    What is not yet written is exactly the record; what is stored is the record otherwise. Clients are
    being warned exactly meanwhile, and only the manager, once a deletion has been prepared, removes the row.
   */
  lemma WritesAreNeverLost(origin: Projection, w: World)
    requires Reachable(origin, w) && !w.exited
    ensures w.dirty.Some? ==> w.dirty.value == w.record
    ensures w.dirty == None && w.record.id in w.sessions ==> w.sessions[w.record.id] == w.record
    ensures !w.deleting ==> w.record.id in w.sessions && WarningAgrees(w)
  {
    hide LogKept, StreamsKept, Reachable, Aligned, RowAgrees;
    ReachableIsInvariant(origin, w);
  }

  predicate WarningAgrees(w: World) {
    w.projection.warning.Some? <==> w.dirty.Some?
  }

  lemma SettleAgrees(w: World, written: Result<Sessions, StoreError>)
    ensures WarningAgrees(Settle(w, written))
  {
    hide Emit;
    match written
    case Ok(sessions) =>
      var clean := w.(sessions := sessions, dirty := None);
      EmitEffect(clean, PersistenceWarning(None), TERMINAL_EVENT_RESERVE);
    case Err(e) =>
      EmitEffect(w.(dirty := Some(w.record)), PersistenceWarning(Some(Describe(e))), TERMINAL_EVENT_RESERVE);
  }

  /** The one branch that leaves a record unwritten without saying so: a clean session's failed checkpoint. */
  predicate HidesWarning(w: World, input: Input) {
    && input.PrepareDelete? && Guard(w).None? && w.dirty.None?
    && var stopped := StopForDelete(w.(deleting := true)).0;
       Checkpoint(stopped.sessions, stopped.record, input.refuse).Err?
  }

  lemma PreparationAgrees(origin: Projection, w: World, jobsStop: bool, refuse: bool)
    requires Inv(origin, w) && !w.exited && Guard(w).None?
    ensures WarningAgrees(DeletePrepared(w, jobsStop, refuse).0) <==> !HidesWarning(w, PrepareDelete(jobsStop, refuse))
  {
    hide LogKept, StreamsKept, Aligned, RowAgrees, Emit, StopForDelete, Checkpoint;
    StopForDeleteKeeps(origin, w);
    StopKeepsWarning(w.(deleting := true));
    PreparedIsSettled(w, jobsStop, refuse);
    var stopped := StopForDelete(w.(deleting := true)).0;
    SettleAgrees(stopped, Checkpoint(stopped.sessions, stopped.record, refuse));
  }

  lemma StopKeepsWarning(w: World)
    ensures StopForDelete(w).0.projection.warning == w.projection.warning && StopForDelete(w).0.dirty == w.dirty
  {
    hide Emit, ApplyDurable, ValidateEvent;
    if w.harness.active.Some? {
      var event := Event.Cancelled(w.harness.active.value.id);
      if ApplyDurable(w.record, event).Ok? {
        EmitKeepsWarning(w.(harness := w.harness.(active := None), counted := false,
                            record := ApplyDurable(w.record, event).value), event);
      }
    }
  }

  lemma EmitKeepsWarning(w: World, event: Event)
    requires !event.PersistenceWarning?
    ensures Emit(w, event).projection.warning == w.projection.warning && Emit(w, event).dirty == w.dirty
  {
    hide Emit, ValidateEvent;
    if ValidateEvent(w.projection, event).None? {
      EmitEffect(w, event, TERMINAL_EVENT_RESERVE);
    } else {
      EmitRefused(w, event);
    }
  }

  /** While a deletion is pending, only a plan update touches the warning or the unwritten record. */
  lemma PendingDeletionKeepsWarning(w: World, input: Input)
    requires !w.exited && w.deleting && w.harness.active.None? && WarningAgrees(w)
    requires !MayExit(input)
    ensures WarningAgrees(Step(w, input).0)
  {
    hide Handle;
    if Ignored(input) {
      DeletingIgnores(w, input);
    } else if !input.Receive? && !input.CloseReceiver? && !input.Elsewhere? {
      OthersKeepWarning(w, input);
    }
  }

  lemma OthersKeepWarning(w: World, input: Input)
    requires WarningAgrees(w) && (input.PlanUpdate? || input.Detach? || input.DetachConnection?)
    ensures WarningAgrees(Handle(w, input).0)
  {
    hide PlanReplaced, CloseSenders, ChannelIds, Remaining, AttachObserver, Submitted, Renamed, TitleGenerated, DeletePrepared, CancelRun, Flushed;
    hide ModelSelected, ReasoningSelected, EngineStep, ShutDown, DeleteFinished, Emit;
    match input
    case PlanUpdate(plan, refuse) => PlanAgrees(w, plan, refuse);
    case Detach(_, _) =>
    case DetachConnection(_) =>
  }

  lemma PlanAgrees(w: World, plan: seq<PlanItem>, refuse: bool)
    ensures w.projection.sequence < U64_MAX || WarningAgrees(w) ==> WarningAgrees(PlanReplaced(w, plan, refuse).0)
  {
    hide Emit, Settle, Checkpoint;
    var emitted := Emit(w.(record := w.record.(plan := plan)), PlanChanged(plan));
    SettleAgrees(emitted, Checkpoint(emitted.sessions, emitted.record, refuse));
  }

  /**
    The warning shows exactly while a record is unwritten, and every step of a running actor keeps it
    so, exactly unless it is an accepted preparation that finds the record written and fails to write it.
   */
  lemma WarningSurvives(origin: Projection, w: World, input: Input)
    requires Inv(origin, w) && !w.exited && WarningAgrees(w)
    ensures var v := Step(w, input).0;
            !v.exited ==> (WarningAgrees(v) <==> !HidesWarning(w, input))
  {
    hide LogKept, StreamsKept, Aligned, RowAgrees, Handle, HidesWarning;
    StepKeeps(origin, w, input);
    if input.PrepareDelete? && Guard(w).None? {
      PreparationIs(w, input);
      PreparationAgrees(origin, w, input.jobsStop, input.refuse);
    } else {
      assert !HidesWarning(w, input) by { OnlyPreparationHides(w, input); }
      if w.deleting {
        if MayExit(input) {
          PendingDeletionExits(w, input);
        } else {
          PendingDeletionKeepsWarning(w, input);
        }
      } else {
        OnlyPreparationDeletes(w, input);
      }
    }
  }

  lemma OnlyPreparationHides(w: World, input: Input)
    requires !(input.PrepareDelete? && Guard(w).None?)
    ensures !HidesWarning(w, input)
  {
    hide StopForDelete, Checkpoint;
  }

  lemma PreparationIs(w: World, input: Input)
    requires input.PrepareDelete? && !w.exited
    ensures Step(w, input) == DeletePrepared(w, input.jobsStop, input.refuse)
  {
    hide DeletePrepared;
  }

  lemma PendingDeletionExits(w: World, input: Input)
    requires !w.exited && w.deleting && w.harness.active.None? && MayExit(input)
    ensures Step(w, input).0.exited || Step(w, input).0 == w
  {
    hide Emit, CloseSenders, ChannelIds, Flushed;
  }

  lemma OnlyPreparationDeletes(w: World, input: Input)
    requires InStep(w) && !w.exited && !w.deleting && !(input.PrepareDelete? && Guard(w).None?)
    ensures Step(w, input).0.exited || !Step(w, input).0.deleting
  {
    hide InStep, Handle, Effect;
    if input.FinishDelete? {
      FinishWithout(w);
    } else if MayExit(input) {
      ExitEffects(w, input);
      LeavingKeepsFlag(w, input);
    } else if !input.Receive? && !input.CloseReceiver? && !input.Elsewhere? {
      HandleEffects(w, input);
      EffectKeepsExit(Begun(w, input), Handle(w, input).0);
    }
  }

  lemma FinishWithout(w: World)
    requires !w.deleting
    ensures Handle(w, FinishDelete) == (w, Refused(ProjectionFailure))
  {
  }

  lemma LeavingKeepsFlag(w: World, input: Input)
    requires MayExit(input) && Effect(w, Handle(w, input).0.(exited := false, shuttingDown := w.shuttingDown))
    ensures Handle(w, input).0.deleting == w.deleting
  {
    hide Handle, OnlyRow, TitleAdvances, Grows;
  }

  /** The hidden warning is real: a session just opened, one failing checkpoint while its deletion is prepared. */
  lemma DeletionMayHideAWarning(record: Record, catalog: Catalog, sessions: Sessions)
    requires StartedOpen(FromRecord(record, catalog), record, catalog, sessions)
    ensures HidesWarning(Opened(record, catalog, sessions), PrepareDelete(true, true))
    ensures var w := Step(Opened(record, catalog, sessions), PrepareDelete(true, true)).0;
            w.deleting && w.dirty == Some(record) && w.projection.warning == None
  {
    hide Storable, Consistent;
  }

  /**
    A crash loses at most what clients were warned about: the stored row, within the range of its
    columns, loads as itself with its running turn interrupted, and for a clean session it is the record.
   */
  lemma CrashRecovers(origin: Projection, w: World)
    requires Reachable(origin, w) && !w.exited && w.record.id in w.sessions
    requires w.record.id <= I64_MAX
    requires var row := w.sessions[w.record.id]; PositionsInRange(|row.transcript| + if Open(row) then 1 else 0)
    ensures var row := w.sessions[w.record.id];
            var loaded := Interrupt(row);
            && Load(w.sessions, w.record.id, false) == Ok(loaded)
            && Consistent(loaded) && Settled(loaded.turns) && loaded.history == row.history
            && Load(w.sessions[w.record.id := loaded], w.record.id, false) == Ok(loaded)
            && (w.dirty == None ==> row == w.record)
  {
    hide LogKept, StreamsKept, Reachable, Aligned, Interrupt, Consistent, Settled;
    ReachableIsInvariant(origin, w);
    InRangeLoads(w.sessions, w.record.id);
    LoadRecovers(w.sessions, w.record.id);
  }

  /** Loading fails only for an identity or a transcript beyond what the columns can hold. */
  lemma InRangeLoads(sessions: Sessions, id: SessionId)
    requires id in sessions && Consistent(sessions[id])
    ensures Load(sessions, id, false) == Ok(Interrupt(sessions[id])) <==>
      id <= I64_MAX && PositionsInRange(|sessions[id].transcript| + if Open(sessions[id]) then 1 else 0)
  {
    hide Grammar, History;
    InterruptionRecovers(sessions[id]);
  }

  // ---------- leaving when all handles are dropped ----------

  /**
    Without handles an idle actor leaves at once and writes nothing: what is stored is its record
    whenever nothing was outstanding, and an outstanding record stays unwritten, whatever follows.
   */
  lemma LeavingWithoutHandles(origin: Projection, w: World, later: Input)
    requires Inv(origin, w) && !w.exited
    ensures var v := Step(w, HandlesDropped).0;
            && (v.exited <==> w.harness.active.None?)
            && v.record == w.record && v.sessions == w.sessions && v.dirty == w.dirty
            && (w.dirty.None? && w.record.id in w.sessions ==> v.sessions[w.record.id] == w.record)
            && (!w.deleting ==> w.record.id in w.sessions)
            && (v.exited && !later.Elsewhere? ==>
                  Step(v, later).0.sessions == v.sessions && Step(v, later).0.dirty == v.dirty)
  {
    hide LogKept, StreamsKept, Aligned, RowAgrees, CloseSenders, ChannelIds;
  }

  /** What a model selection leaves when its write fails: the new record, waiting, and the old row. */
  lemma SelectionWaits(w: World, model: string, now: int)
    requires !w.exited && Guard(w).None? && w.dirty.None? && w.harness.active.None?
    requires ModelKnown(w.projection.catalog, model)
    ensures var after := Step(w, SelectModel(model, now, true)).0;
            && after.record == w.record.(settings := w.record.settings.(model := model), lastActivity := now)
            && after.dirty == Some(after.record) && after.sessions == w.sessions
            && !after.exited && after.harness == w.harness
  {
    hide ChangeSettings, ModelKnown;
    RefusedSettings(w, w.record.settings.(model := model), now);
  }

  lemma RefusedSettings(w: World, settings: Settings, now: int)
    requires w.dirty.None?
    ensures var after := ChangeSettings(w, settings, now, true);
            && after.record == w.record.(settings := settings, lastActivity := now)
            && after.dirty == Some(after.record) && after.sessions == w.sessions
            && after.exited == w.exited && after.harness == w.harness
  {
    hide Emit, Settle;
    var changed := w.(record := w.record.(settings := settings, lastActivity := now));
    var event := SettingsChanged(settings, now);
    EmitEffect(changed, event, TERMINAL_EVENT_RESERVE);
    var emitted := Emit(changed, event);
    FailedWrite(emitted, UpdateMetadata(emitted.sessions, emitted.record, true));
  }

  lemma FailedWrite(w: World, written: Result<Sessions, StoreError>)
    requires written.Err?
    ensures var after := Settle(w, written);
            after == w.(dirty := Some(w.record), projection := after.projection, log := after.log,
                        observers := after.observers, channels := after.channels)
  {
    hide Emit;
    EmitEffect(w.(dirty := Some(w.record)), PersistenceWarning(Some(Describe(written.error))), TERMINAL_EVENT_RESERVE);
  }

  /** The loss is real: a model selection whose write fails is gone once the handles are dropped. */
  lemma DroppedHandlesLoseAWrite(record: Record, catalog: Catalog, sessions: Sessions, model: string, now: int)
    requires StartedOpen(FromRecord(record, catalog), record, catalog, sessions)
    requires ModelKnown(catalog, model) && model != record.settings.model
    ensures var w := Step(Opened(record, catalog, sessions), SelectModel(model, now, true)).0;
            var v := Step(w, HandlesDropped).0;
            && w.dirty == Some(w.record) && w.record.settings.model == model
            && v.exited && v.record == w.record && record != v.record
            && record.id in v.sessions && v.sessions[record.id] == record
  {
    hide Consistent, ModelKnown, Step;
    SelectionWaits(Opened(record, catalog, sessions), model, now);
    HandlesGone(Step(Opened(record, catalog, sessions), SelectModel(model, now, true)).0);
  }

  lemma HandlesGone(w: World)
    requires !w.exited && w.harness.active.None?
    ensures var v := Step(w, HandlesDropped).0; v.exited && v.record == w.record && v.sessions == w.sessions
  {
    hide CloseSenders, ChannelIds;
  }

  // ---------- plan updates and the catalog ----------

  /** Plan updates are refused exactly when sequence numbers have run out: neither flag is looked at. */
  lemma PlanUpdatesAreNotGuarded(w: World, plan: seq<PlanItem>, refuse: bool)
    requires !w.exited
    ensures var (after, reply) := Step(w, PlanUpdate(plan, refuse));
            && (reply == Success <==> w.projection.sequence < U64_MAX)
            && after.record == if reply == Success then w.record.(plan := plan) else w.record
  {
    hide Emit, Settle, Checkpoint;
    if w.projection.sequence != U64_MAX {
      var planned := w.(record := w.record.(plan := plan));
      EmitEffect(planned, PlanChanged(plan), TERMINAL_EVENT_RESERVE);
      var emitted := Emit(planned, PlanChanged(plan));
      SettleKeepsRecord(emitted, Checkpoint(emitted.sessions, emitted.record, refuse));
    }
  }

  lemma SettleKeepsRecord(w: World, written: Result<Sessions, StoreError>)
    ensures Settle(w, written).record == w.record
  {
    hide Emit;
    match written
    case Ok(sessions) => EmitEffect(w.(sessions := sessions, dirty := None), PersistenceWarning(None), 1);
    case Err(e) => EmitEffect(w.(dirty := Some(w.record)), PersistenceWarning(Some(Describe(e))), 1);
  }

  /** So a session being deleted, and one that failed to shut down, still take a new plan. */
  lemma PlansChangeDuringTheEnd(record: Record, catalog: Catalog, sessions: Sessions, plan: seq<PlanItem>)
    requires StartedOpen(FromRecord(record, catalog), record, catalog, sessions)
    ensures var w := Step(Opened(record, catalog, sessions), PrepareDelete(true, true)).0;
            w.deleting && Step(w, PlanUpdate(plan, true)).1 == Success
    ensures var w := Step(Opened(record, catalog, sessions), Shutdown(false, false)).0;
            w.shuttingDown && !w.exited && Step(w, PlanUpdate(plan, true)).1 == Success
  {
    hide Storable, Consistent, PlanReplaced;
    var w := Opened(record, catalog, sessions);
    PlanUpdatesAreNotGuarded(Step(w, PrepareDelete(true, true)).0, plan, true);
    PlanUpdatesAreNotGuarded(Step(w, Shutdown(false, false)).0, plan, true);
  }

  lemma StepKeepsCatalog(w: World, input: Input)
    requires w.exited || InStep(w)
    ensures Step(w, input).0.projection.catalog == w.projection.catalog
  {
    hide InStep, Handle, OnlyRow, TitleAdvances, Grows;
    if w.exited || input.Receive? || input.CloseReceiver? || input.Elsewhere? {
    } else if input.FinishDelete? {
      FinishHandled(w);
      FinishKeepsCatalog(w);
    } else if MayExit(input) {
      ExitEffects(w, input);
    } else {
      HandleEffects(w, input);
    }
  }

  lemma FinishKeepsCatalog(w: World)
    ensures DeleteFinished(w).0.projection.catalog == w.projection.catalog
  {
    hide Emit, CloseSenders, ChannelIds;
    EmitEffect(w, Deleted(w.record.id), 0);
  }

  lemma {:induction false} RunKeepsCatalog(origin: Projection, w: World, inputs: seq<Input>)
    requires Inv(origin, w)
    ensures Run(w, inputs).projection.catalog == w.projection.catalog
  {
    hide LogKept, StreamsKept, InStep, Step;
    if inputs != [] {
      var before := Run(w, inputs[..|inputs| - 1]);
      RunKeeps(origin, w, inputs[..|inputs| - 1]);
      RunKeepsCatalog(origin, w, inputs[..|inputs| - 1]);
      StepKeepsCatalog(before, inputs[|inputs| - 1]);
    }
  }

  /**
    An actor keeps the model catalog it was started with; if it was started while the catalog was
    still loading, it refuses every choice of reasoning for as long as it runs.
   */
  lemma CatalogIsFixed(origin: Projection, w: World, level: ReasoningLevel, now: int, refuse: bool)
    requires Reachable(origin, w)
    ensures w.projection.catalog == origin.catalog
    ensures !origin.catalog.Ready? ==> Step(w, SelectReasoning(level, now, refuse)).1.Refused?
  {
    hide Inv, Run, Consistent, Step, Opened, SpawnedMaterialized;
    NoCatalogNoReasoning(w, level, now, refuse);
    if record: Record, catalog: Catalog, sessions: Sessions, inputs: seq<Input> :|
         StartedOpen(origin, record, catalog, sessions) && w == Run(Opened(record, catalog, sessions), inputs) {
      OpenedStarts(record, catalog, sessions);
      StartsWithOrigin(record, catalog, sessions);
      RunKeepsCatalog(origin, Opened(record, catalog, sessions), inputs);
    } else {
      var id: SessionId, request: Materialize, catalog: Catalog, sessions: Sessions, inputs: seq<Input> :|
        StartedMaterialized(origin, id, request, catalog, sessions)
        && w == Run(SpawnedMaterialized(Materialized(id, request), catalog, request.prompt, sessions), inputs);
      MaterializedStarts(id, request, catalog, sessions);
      RunKeepsCatalog(origin, SpawnedMaterialized(Materialized(id, request), catalog, request.prompt, sessions), inputs);
    }
  }

  lemma StartsWithOrigin(record: Record, catalog: Catalog, sessions: Sessions)
    ensures Opened(record, catalog, sessions).projection == FromRecord(record, catalog)
  {
  }

  lemma NoCatalogNoReasoning(w: World, level: ReasoningLevel, now: int, refuse: bool)
    ensures !w.projection.catalog.Ready? ==> Step(w, SelectReasoning(level, now, refuse)).1.Refused?
  {
    hide ChangeSettings, ReasoningSupported;
  }

  /** The backend counts a live session as running exactly while its harness runs. */
  lemma ActivityFollowsHarness(origin: Projection, w: World)
    requires Reachable(origin, w) && !w.exited
    ensures w.counted <==> w.harness.active.Some?
    ensures w.harness.active.Some? <==> w.projection.summary.busy
  {
    hide LogKept, StreamsKept, Reachable, Consistent, RowAgrees;
    ReachableIsInvariant(origin, w);
  }

  // ---------- observers ----------

  /**
    Every observer's queue is the run of events that follow what it has received, it is complete up to
    the projection while the observer survives, and it always has room for one terminal event.
   */
  lemma ObserversFollow(origin: Projection, w: World, o: Observer)
    requires Reachable(origin, w) && o in w.observers
    ensures o.channel in w.channels && w.channels[o.channel].senderOpen
    ensures var channel := w.channels[o.channel];
            && w.projection.sequence == |w.log|
            && 1 <= channel.next && |channel.queue| < CHANNEL_CAPACITY
            && channel.next + |channel.queue| == w.projection.sequence + 1
            && forall i :: 0 <= i < |channel.queue| ==>
                 channel.queue[i] == Envelope(channel.next + i, w.log[channel.next + i - 1])
  {
    hide ValidLog, Fold, InStep, Reachable;
    ReachableIsInvariant(origin, w);
  }

  /** Closed or detached streams still hold a contiguous run of the sequenced events. */
  lemma ChannelsHoldSlices(origin: Projection, w: World, c: nat)
    requires Reachable(origin, w) && c in w.channels
    ensures Slice(w.log, w.channels[c])
  {
    hide ValidLog, Fold, InStep, Reachable, Slice;
    ReachableIsInvariant(origin, w);
  }

  // ---------- titles ----------

  /** After a step, the stored row still carries the record's title; also when the actor has just exited. */
  lemma RowAfter(origin: Projection, w: World, input: Input)
    requires Inv(origin, w) && !w.exited
    ensures var v := Step(w, input).0;
            v.record.id in v.sessions ==> RowAgrees(v.sessions[v.record.id], v.record)
  {
    hide LogKept, StreamsKept, Aligned, RowAgrees, Handle;
    StepKeeps(origin, w, input);
    if Step(w, input).0.exited {
      ExitsLeaveRow(origin, w, input);
    }
  }

  lemma ExitsLeaveRow(origin: Projection, w: World, input: Input)
    requires Inv(origin, w) && !w.exited && Step(w, input).0.exited
    ensures var v := Step(w, input).0;
            v.record.id in v.sessions ==> RowAgrees(v.sessions[v.record.id], v.record)
  {
    hide LogKept, StreamsKept, Aligned, RowAgrees, Handle;
    OnlyTheseExit(w, input);
    LastRow(origin, w, input);
  }

  lemma OnlyTheseExit(w: World, input: Input)
    requires InStep(w) && !w.exited
    ensures Step(w, input).0.exited ==> MayExit(input)
  {
    hide Aligned, RowAgrees, Handle, Effect;
    if !MayExit(input) {
      HandleEffects(w, input);
      EffectKeepsExit(Begun(w, input), Handle(w, input).0);
    }
  }

  lemma EffectKeepsExit(w: World, v: World)
    requires Effect(w, v)
    ensures v.exited == w.exited && v.shuttingDown == w.shuttingDown && v.deleting == w.deleting
  {
    hide Grows, OnlyRow, TitleAdvances;
  }

  lemma LastRow(origin: Projection, w: World, input: Input)
    requires Inv(origin, w) && !w.exited && MayExit(input)
    ensures var v := Handle(w, input).0;
            v.record.id in v.sessions ==> RowAgrees(v.sessions[v.record.id], v.record)
  {
    hide Inv, RowAgrees, ShutDown, DeleteFinished, DeleteAborted, CloseSenders, ChannelIds;
    DirtyIsRecordNow(origin, w);
    match input
    case Shutdown(jobsStop, refuse) => ShutDownRow(origin, w, jobsStop, refuse);
    case FinishDelete => FinishTouches(w);
    case AbortDelete => AbortTouches(w);
    case HandlesDropped =>
  }

  lemma DirtyIsRecordNow(origin: Projection, w: World)
    requires Inv(origin, w) && !w.exited
    ensures w.record.id in w.sessions ==> RowAgrees(w.sessions[w.record.id], w.record)
  {
    hide RowAgrees;
    InvGivesInStep(origin, w);
    DirtyIsRecord(w);
  }

  lemma AbortTouches(w: World)
    ensures DeleteAborted(w).0.record == w.record && DeleteAborted(w).0.sessions == w.sessions
  {
    hide CloseSenders, ChannelIds;
  }

  lemma ShutDownRow(origin: Projection, w: World, jobsStop: bool, refuse: bool)
    requires Inv(origin, w) && !w.exited
    ensures var v := ShutDown(w, jobsStop, refuse).0;
            v.record.id in v.sessions ==> RowAgrees(v.sessions[v.record.id], v.record)
  {
    hide LogKept, StreamsKept, Aligned, RowAgrees, Flushed, CloseSenders, ChannelIds;
    if !w.deleting {
      FlagsKeep(origin, w, w.(shuttingDown := true));
      FlushKeeps(origin, w.(shuttingDown := true), refuse);
    }
  }

  lemma FinishTouches(w: World)
    ensures DeleteFinished(w).0.record == w.record && DeleteFinished(w).0.sessions == w.sessions
  {
    hide Emit, ValidateEvent, CloseSenders, ChannelIds;
    var event := Deleted(w.record.id);
    if ValidateEvent(w.projection, event).None? {
      EmitEffect(w, event, 0);
    } else {
      RefusedAtOnce(w, event);
    }
  }

  lemma RefusedAtOnce(w: World, event: Event)
    requires ValidateEvent(w.projection, event).Some?
    ensures Emit(w, event, 0) == w
  {
    hide ValidateEvent, Reduce, Broadcast;
  }

  /** Every step moves the title forward, on the record as well as on the stored row. */
  lemma TitlesAdvance(origin: Projection, w: World, input: Input)
    requires Inv(origin, w) && !w.exited
    ensures var v := Step(w, input).0;
            && v.record.id == w.record.id && TitleAdvances(w.record, v.record)
            && (v.record.id in v.sessions ==>
                  w.record.id in w.sessions && TitleAdvances(w.sessions[w.record.id], v.sessions[v.record.id]))
  {
    hide LogKept, StreamsKept, Aligned, Handle, Consistent, Grows;
    RowAfter(origin, w, input);
    HandledTitles(w, input);
  }

  lemma HandledTitles(w: World, input: Input)
    requires InStep(w) && !w.exited
    ensures var v := Step(w, input).0;
            && v.record.id == w.record.id && TitleAdvances(w.record, v.record)
            && (v.record.id in v.sessions ==> w.record.id in w.sessions)
            && (!input.Elsewhere? ==> OnlyRow(w.sessions, v.sessions, w.record.id))
  {
    hide InStep, Handle, Grows, OnlyRow, TitleAdvances;
    Untouched(w);
    if input.Receive? || input.CloseReceiver? || input.Elsewhere? {
    } else {
      if input.FinishDelete? {
        FinishHandled(w);
      } else if MayExit(input) {
        ExitEffects(w, input);
      } else {
        HandleEffects(w, input);
      }
      RowWasThere(w.sessions, Handle(w, input).0.sessions, w.record.id);
    }
  }

  lemma RowWasThere(before: Sessions, after: Sessions, id: SessionId)
    requires OnlyRow(before, after, id)
    ensures id in after ==> id in before
  {
  }

  lemma FinishHandled(w: World)
    ensures Handle(w, FinishDelete) == DeleteFinished(w)
    ensures DeleteFinished(w).0.record == w.record && DeleteFinished(w).0.sessions == w.sessions
  {
    hide DeleteFinished;
    FinishTouches(w);
  }

  // ---------- one actor's life ----------

  /** An actor runs until it exits; later inputs find nobody. */
  function Live(w: World, inputs: seq<Input>): World {
    if inputs == [] then w
    else
      var before := Live(w, inputs[..|inputs| - 1]);
      if before.exited then before else Step(before, inputs[|inputs| - 1]).0
  }

  lemma {:induction false} LiveKeeps(origin: Projection, w: World, inputs: seq<Input>)
    requires Inv(origin, w) && !w.exited
    requires w.record.id in w.sessions ==> RowAgrees(w.sessions[w.record.id], w.record)
    ensures var v := Live(w, inputs);
            && Inv(origin, v) && v.record.id == w.record.id && TitleAdvances(w.record, v.record)
            && (v.record.id in v.sessions ==>
                  w.record.id in w.sessions && RowAgrees(v.sessions[v.record.id], v.record))
  {
    hide Inv, Step, RowAgrees;
    if inputs != [] {
      var last := inputs[|inputs| - 1];
      LiveKeeps(origin, w, inputs[..|inputs| - 1]);
      var before := Live(w, inputs[..|inputs| - 1]);
      if !before.exited {
        StepKeeps(origin, before, last);
        RowAfter(origin, before, last);
        TitlesAdvance(origin, before, last);
      }
    }
  }

  lemma TitleStays(a: Record, b: Record)
    requires a.title == b.title && a.titleSource == b.titleSource && a.titleRevision == b.titleRevision
    ensures TitleAdvances(a, b)
  {
  }

  lemma TitleChain(a: Record, b: Record, c: Record)
    requires TitleAdvances(a, b) && TitleAdvances(b, c)
    ensures TitleAdvances(a, c)
  {
  }

  lemma LoadedStarts(sessions: Sessions, id: SessionId, catalog: Catalog)
    requires Load(sessions, id, false).Ok? && sessions[id].id == id && Consistent(sessions[id])
    ensures var record := Load(sessions, id, false).value;
            var w := Opened(record, catalog, sessions[id := record]);
            && Inv(FromRecord(record, catalog), w) && !w.exited && w.record == record && record.id == id && w.log == []
            && RowAgrees(w.sessions[id], w.record) && w.sessions == sessions[id := record]
            && record.title == sessions[id].title && record.titleSource == sessions[id].titleSource
            && record.titleRevision == sessions[id].titleRevision
  {
    hide Consistent, Inv, InterruptTurns;
    LoadRecovers(sessions, id);
    var record := Load(sessions, id, false).value;
    assert !Open(record);
    OpenedStarts(record, catalog, sessions[id := record]);
  }
}
