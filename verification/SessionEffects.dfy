/** What one step of a session may touch: its own row, its own log, its title, and nothing of a deleted session. */
module SessionEffects {
  import opened Prelude
  import opened Titles
  import opened Records
  import opened Transcripts
  import opened Repository
  import opened Projections
  import opened Harnesses
  import opened SessionModel
  import opened SessionInvariants
  import opened SessionRuns

  /** The store is unchanged, or exactly this session's existing row was replaced. */
  predicate OnlyRow(before: Sessions, after: Sessions, id: SessionId) {
    after == before || (id in before && id in after && after == before[id := after[id]])
  }

  /** The log grows, and nothing in it announces a deletion. */
  predicate Grows(before: seq<Event>, after: seq<Event>) {
    before <= after && forall i :: |before| <= i < |after| ==> !after[i].Deleted?
  }

  predicate Effect(w: World, v: World) {
    && v.record.id == w.record.id && TitleAdvances(w.record, v.record)
    && v.projection.catalog == w.projection.catalog
    && Grows(w.log, v.log) && OnlyRow(w.sessions, v.sessions, w.record.id)
    && v.exited == w.exited && v.shuttingDown == w.shuttingDown && v.deleting == w.deleting
  }

  lemma Chain(u: World, v: World, w: World)
    requires Effect(u, v) && Effect(v, w)
    ensures Effect(u, w)
  {
  }

  lemma ReduceKeepsCatalog(p: Projection, event: Event)
    requires !event.CatalogChanged?
    ensures Reduce(p, event).catalog == p.catalog
  {
  }

  lemma EmitEffects(u: World, w: World, event: Event)
    requires Effect(u, w) && !event.Deleted? && !event.CatalogChanged?
    ensures Effect(u, Emit(w, event))
  {
    hide Emit, Reduce, ValidateEvent, Deliver, Survivors, CloseSenders, ChannelIds;
    if ValidateEvent(w.projection, event).Some? {
      EmitRefused(w, event);
    } else {
      EmitEffect(w, event, TERMINAL_EVENT_RESERVE);
      EmitUnfolds(w, event, TERMINAL_EVENT_RESERVE);
      ReduceKeepsCatalog(w.projection, event);
      Chain(u, w, Emit(w, event));
    }
  }

  lemma SettleEffects(u: World, w: World, written: Result<Sessions, StoreError>)
    requires Effect(u, w)
    requires written.Ok? ==> OnlyRow(w.sessions, written.value, w.record.id)
    ensures Effect(u, Settle(w, written))
  {
    hide Emit;
    match written
    case Ok(sessions) =>
      Chain(u, w, w.(sessions := sessions, dirty := None));
      EmitEffects(u, w.(sessions := sessions, dirty := None), PersistenceWarning(None));
    case Err(e) => EmitEffects(u, w.(dirty := Some(w.record)), PersistenceWarning(Some(Describe(e))));
  }

  lemma PersistEffects(u: World, w: World, refuse: bool)
    requires Effect(u, w)
    ensures Effect(u, Persist(w, refuse)) && Effect(u, PersistMetadata(w, refuse))
  {
    hide Settle, Storable;
    SettleEffects(u, w, Checkpoint(w.sessions, w.record, refuse));
    SettleEffects(u, w, UpdateMetadata(w.sessions, w.record, refuse));
  }

  lemma DurableEffects(u: World, w: World, event: Event, refuse: bool)
    requires Effect(u, w) && !event.Deleted? && !event.CatalogChanged?
    ensures Effect(u, DurableRunEvent(w, event, refuse))
  {
    hide Emit, Persist, ApplyDurable, ValidateEvent;
    if ApplyDurable(w.record, event).Ok? {
      DurableKeepsIdentity(w.record, event);
      var record := ApplyDurable(w.record, event).value;
      var updated := w.(record := if event.Completed? then record.(history := w.harness.history) else record);
      EmitEffects(u, updated, event);
      PersistEffects(u, Emit(updated, event), refuse);
    }
  }

  lemma SubmitEffects(w: World, prompt: string, refuse: bool)
    ensures Effect(w, Submitted(w, prompt, refuse).0)
  {
    hide Emit, Persist, ApplyDurable, ValidateEvent, Effect;
    Untouched(w);
    if SubmitRun(w.harness, prompt).Ok? {
      RecordOnly(w, w.(harness := SubmitRun(w.harness, prompt).value.(active := None)));
      var event := Started(w.harness.nextRunId, prompt);
      if ApplyDurable(w.record, event).Ok? {
        DurableKeepsIdentity(w.record, event);
        var started := w.(harness := SubmitRun(w.harness, prompt).value, record := ApplyDurable(w.record, event).value);
        RecordOnly(w, started);
        EmitEffects(w, started, event);
        PersistEffects(w, Emit(started, event), refuse);
        CountIgnored(w, Persist(Emit(started, event), refuse));
      }
    }
  }

  lemma EngineEffects(w: World, outcome: EngineOutcome, now: int, refuse: bool)
    ensures Effect(w, EngineStep(w, outcome, now, refuse))
  {
    hide RunEventHandled, Effect, Blank, AfterEvent;
    RecordOnly(w, w);
    if w.harness.active.Some? {
      var event := EventOf(w.harness.active.value.id, outcome);
      RunEventEffects(w, w.(harness := AfterEvent(w.harness, event)), event, now, refuse);
    }
  }

  lemma RunEventEffects(u: World, w: World, event: RunEvent, now: int, refuse: bool)
    requires w == u.(harness := w.harness)
    ensures Effect(u, RunEventHandled(w, event, now, refuse))
  {
    hide Emit, PersistMetadata, DurableRunEvent, ValidateEvent, Effect, EndsRun;
    var stepped := w.(counted := w.counted && !EndsRun(event));
    RecordOnly(u, stepped);
    if event.RunUsage? {
      UsageEffects(u, stepped, event.inputTokens, SessionEventOf(event, now), now, refuse);
    } else {
      EmitEffects(u, stepped, SessionEventOf(event, now));
      DurableEffects(u, stepped, SessionEventOf(event, now), refuse);
    }
  }

  lemma UsageEffects(w: World, stepped: World, inputTokens: u64, event: Event, now: int, refuse: bool)
    requires stepped == w.(harness := stepped.harness, counted := stepped.counted) && event.ContextUsage?
    ensures var settings := w.record.settings.(contextTokens := inputTokens);
            var updated := stepped.(record := w.record.(settings := settings, lastActivity := now));
            Effect(w, updated) && Effect(w, PersistMetadata(Emit(updated, event), refuse))
  {
    hide Emit, PersistMetadata, Effect;
    var settings := w.record.settings.(contextTokens := inputTokens);
    var updated := stepped.(record := w.record.(settings := settings, lastActivity := now));
    RecordOnly(w, updated);
    EmitEffects(w, updated, event);
    PersistEffects(w, Emit(updated, event), refuse);
  }

  lemma RecordOnly(w: World, v: World)
    requires v == w.(harness := v.harness, counted := v.counted, record := v.record, dirty := v.dirty)
    requires v.record.id == w.record.id && v.record.title == w.record.title
             && v.record.titleSource == w.record.titleSource && v.record.titleRevision == w.record.titleRevision
    ensures Effect(w, v)
  {
  }

  lemma CountIgnored(w: World, v: World)
    requires Effect(w, v)
    ensures Effect(w, v.(counted := true))
  {
  }

  lemma InstallEffects(w: World, row: Record)
    requires row.id == w.record.id && w.record.id in w.sessions && TitleAdvances(w.record, row)
    ensures Effect(w, InstallTitle(w.(sessions := w.sessions[w.record.id := row]), row))
  {
    hide Emit;
    var record := w.record.(title := row.title, titleSource := row.titleSource, titleRevision := row.titleRevision);
    var installed := w.(sessions := w.sessions[w.record.id := row], record := record,
                        dirty := if w.dirty.Some? then Some(record) else None);
    EmitEffects(w, installed, TitleChanged(row.title, row.titleRevision));
  }

  lemma TitleEffects(
    w: World, title: SessionTitle, expectedRevision: u64, generated: Option<string>, refuse: bool)
    requires w.record.id in w.sessions ==> RowAgrees(w.sessions[w.record.id], w.record)
    ensures Effect(w, Renamed(w, title, refuse).0)
    ensures Effect(w, TitleGenerated(w, expectedRevision, generated, refuse).0)
  {
    hide InstallTitle, SanitizeGeneratedTitle, Consistent, Effect;
    Untouched(w);
    var renamed := Rename(w.sessions, w.record.id, title, refuse);
    if renamed.Ok? {
      InstallEffects(w, renamed.value);
    }
    if generated.Some? && SanitizeGeneratedTitle(generated.value).Some? {
      var clean := SanitizeGeneratedTitle(generated.value).value;
      var written := SetGeneratedTitle(w.sessions, w.record.id, expectedRevision, clean, refuse);
      if written.Ok? && written.value.Some? {
        InstallEffects(w, written.value.value);
      }
    }
  }

  lemma SettingsEffects(w: World, settings: Settings, now: int, refuse: bool)
    ensures Effect(w, ChangeSettings(w, settings, now, refuse))
  {
    hide Emit, PersistMetadata, Effect;
    var changed := w.(record := w.record.(settings := settings, lastActivity := now));
    RecordOnly(w, changed);
    EmitEffects(w, changed, SettingsChanged(settings, now));
    PersistEffects(w, Emit(changed, SettingsChanged(settings, now)), refuse);
  }

  lemma PlanEffects(w: World, plan: seq<PlanItem>, refuse: bool)
    ensures Effect(w, PlanReplaced(w, plan, refuse).0)
  {
    hide Emit, Persist, Effect;
    Untouched(w);
    var planned := w.(record := w.record.(plan := plan));
    RecordOnly(w, planned);
    EmitEffects(w, planned, PlanChanged(plan));
    PersistEffects(w, Emit(planned, PlanChanged(plan)), refuse);
  }

  lemma FlushEffects(u: World, w: World, refuse: bool)
    requires Effect(u, w) && (w.dirty.Some? ==> w.dirty.value == w.record)
    ensures Effect(u, Flushed(w, refuse).0)
  {
    hide Emit, Storable;
    if w.dirty.Some? {
      match Checkpoint(w.sessions, w.dirty.value, refuse)
      case Ok(sessions) =>
        Chain(u, w, w.(sessions := sessions, dirty := None));
        EmitEffects(u, w.(sessions := sessions, dirty := None), PersistenceWarning(None));
      case Err(e) => EmitEffects(u, w.(dirty := Some(w.record)), PersistenceWarning(Some(Describe(e))));
    }
  }

  lemma PrepareEffects(w: World, jobsStop: bool, refuse: bool)
    ensures Effect(Begun(w, PrepareDelete(jobsStop, refuse)), DeletePrepared(w, jobsStop, refuse).0)
  {
    hide Emit, ApplyDurable, ValidateEvent, Checkpoint, StopForDelete, Effect;
    Untouched(w);
    var entered := w.(deleting := true);
    var stopped := StopForDelete(entered).0;
    StopEffects(entered);
    CheckpointEffects(stopped, refuse);
    match Checkpoint(stopped.sessions, stopped.record, refuse)
    case Ok(sessions) =>
      WriteEffects(entered, stopped, sessions);
      EmitEffects(entered, stopped.(sessions := sessions, dirty := None), PersistenceWarning(None));
    case Err(e) =>
      RecordOnly(stopped, stopped.(dirty := Some(stopped.record)));
      Chain(entered, stopped, stopped.(dirty := Some(stopped.record)));
  }

  lemma WriteEffects(u: World, w: World, sessions: Sessions)
    requires Effect(u, w) && OnlyRow(w.sessions, sessions, w.record.id)
    ensures Effect(u, w.(sessions := sessions, dirty := None))
  {
    Chain(u, w, w.(sessions := sessions, dirty := None));
  }

  /** Where an input's effect starts from: an accepted preparation first marks the session as being deleted. */
  function Begun(w: World, input: Input): World {
    if input.PrepareDelete? && Guard(w).None? then w.(deleting := true) else w
  }

  lemma CheckpointEffects(w: World, refuse: bool)
    ensures var written := Checkpoint(w.sessions, w.record, refuse);
            written.Ok? ==> OnlyRow(w.sessions, written.value, w.record.id)
  {
    hide Storable;
  }

  lemma StopEffects(w: World)
    ensures Effect(w, StopForDelete(w).0)
  {
    hide Emit, ApplyDurable, ValidateEvent, Effect;
    Untouched(w);
    if w.harness.active.Some? {
      var event := Event.Cancelled(w.harness.active.value.id);
      RecordOnly(w, w.(harness := w.harness.(active := None), counted := false));
      if ApplyDurable(w.record, event).Ok? {
        DurableKeepsIdentity(w.record, event);
        var stopped := w.(harness := w.harness.(active := None), counted := false,
                          record := ApplyDurable(w.record, event).value);
        RecordOnly(w, stopped);
        EmitEffects(w, stopped, event);
      }
    }
  }

  lemma DirtyIsRecord(w: World)
    requires InStep(w)
    ensures w.dirty.Some? ==> w.dirty.value == w.record
    ensures w.record.id in w.sessions ==> RowAgrees(w.sessions[w.record.id], w.record)
  {
    hide Aligned, RowAgrees;
  }

  lemma Untouched(w: World)
    ensures Effect(w, w)
  {
  }

  lemma CancelEffects(w: World, refuse: bool)
    ensures Effect(w, CancelRun(w, refuse).0)
  {
    hide DurableRunEvent, ApplyDurable, ValidateEvent;
    if w.harness.active.Some? {
      DurableEffects(w, w.(harness := w.harness.(active := None), counted := false),
                     Event.Cancelled(w.harness.active.value.id), refuse);
    }
  }

  lemma SelectEffects(w: World, model: string, level: ReasoningLevel, now: int, refuse: bool)
    ensures Effect(w, ModelSelected(w, model, now, refuse).0)
    ensures Effect(w, ReasoningSelected(w, level, now, refuse).0)
  {
    hide ChangeSettings, ModelKnown, ReasoningSupported;
    SettingsEffects(w, w.record.settings.(model := model), now, refuse);
    SettingsEffects(w, w.record.settings.(reasoning := level), now, refuse);
  }

  /** What an actor that is being deleted does nothing about: all but plans, leaving observers and its own end. */
  predicate Ignored(input: Input) {
    && !MayExit(input) && !input.PlanUpdate? && !input.Detach? && !input.DetachConnection?
    && !input.Receive? && !input.CloseReceiver? && !input.Elsewhere?
  }

  lemma DeletingIgnores(w: World, input: Input)
    requires w.deleting && w.harness.active.None? && Ignored(input)
    ensures Handle(w, input).0 == w
  {
    hide Emit, CloseSenders, ChannelIds, Flushed, StopForDelete, ModelKnown, ReasoningSupported, SubmitRun, InstallTitle;
    hide ApplyDurable, Rename, SetGeneratedTitle, SanitizeGeneratedTitle, ChangeSettings, DurableRunEvent, EventOf;
  }

  /** The inputs after which an actor may be gone. */
  predicate MayExit(input: Input) {
    input.Shutdown? || input.FinishDelete? || input.AbortDelete? || input.HandlesDropped?
  }

  /** Leaving changes nothing durable beyond one last flush. */
  lemma ExitEffects(w: World, input: Input)
    requires InStep(w) && !w.exited && MayExit(input) && !input.FinishDelete?
    ensures Effect(w, Handle(w, input).0.(exited := false, shuttingDown := w.shuttingDown))
    ensures !input.Shutdown? ==> Handle(w, input).0.shuttingDown == w.shuttingDown
  {
    hide AttachObserver, DetachObservers, Submitted, Renamed, TitleGenerated, DeletePrepared, CancelRun, Flushed;
    hide ModelSelected, ReasoningSelected, EngineStep, Emit, PlanReplaced;
    hide ShutDown, CloseSenders, ChannelIds, InStep, Effect, DropObservers;
    Untouched(w);
    match input
    case Shutdown(jobsStop, refuse) => ShutDownEffects(w, jobsStop, refuse);
    case AbortDelete =>
      Leaves(w, w.(counted := false));
      RecordOnly(w, w.(counted := false));
    case _ => Leaves(w, w);
  }

  lemma Leaves(u: World, w: World)
    requires u == w.(counted := u.counted)
    ensures Effect(u, Exit(w).(exited := u.exited, shuttingDown := u.shuttingDown))
    ensures Exit(w).shuttingDown == w.shuttingDown
  {
    hide CloseSenders, ChannelIds;
  }

  lemma ShutDownEffects(w: World, jobsStop: bool, refuse: bool)
    requires InStep(w) && !w.exited
    ensures Effect(w, ShutDown(w, jobsStop, refuse).0.(exited := false, shuttingDown := w.shuttingDown))
  {
    hide Flushed, CloseSenders, ChannelIds, InStep, OnlyRow, TitleAdvances, Grows;
    DirtyIsRecord(w);
    var stopping := w.(shuttingDown := true);
    Untouched(stopping);
    Untouched(w);
    FlushEffects(stopping, stopping, refuse);
    var flushed := Flushed(stopping, refuse).0;
    assert flushed.(exited := false, shuttingDown := true) == flushed;
  }

  /** Apart from its own deletion, a step changes at most its own row and appends to its log. */
  lemma HandleEffects(w: World, input: Input)
    requires InStep(w) && !MayExit(input)
    ensures Effect(Begun(w, input), Handle(w, input).0)
  {
    hide AttachObserver, DetachObservers, Submitted, Renamed, TitleGenerated, DeletePrepared, CancelRun;
    hide RowAgrees, ModelSelected, ReasoningSelected, EngineStep, Emit, PlanReplaced, Flushed, InStep, Effect;
    Untouched(w);
    DirtyIsRecord(w);
    match input
    case Attach(connection, attachment, channel, jobs) =>
      ObserversOnly(w, connection, attachment, channel, jobs, None);
    case Detach(connection, attachment) => ObserversOnly(w, connection, 0, 0, None, Some(attachment));
    case DetachConnection(connection) => ObserversOnly(w, connection, 0, 0, None, None);
    case Submit(prompt, refuse) => SubmitEffects(w, prompt, refuse);
    case Cancel(refuse) => CancelEffects(w, refuse);
    case RenameTo(title, refuse) => TitleEffects(w, title, 0, None, refuse);
    case ApplyGeneratedTitle(revision, generated, refuse) => TitleEffects(w, w.record.title, revision, generated, refuse);
    case PrepareDelete(jobsStop, refuse) => PrepareEffects(w, jobsStop, refuse);
    case SelectModel(model, now, refuse) => SelectEffects(w, model, NoReasoning, now, refuse);
    case SelectReasoning(level, now, refuse) => SelectEffects(w, "", level, now, refuse);
    case Flush(refuse) => FlushEffects(w, w, refuse);
    case Engine(outcome, now, refuse) => EngineEffects(w, outcome, now, refuse);
    case JobsChange(jobs) =>
      if jobs.Some? {
        EmitEffects(w, w, JobsChanged(jobs.value));
      }
    case PlanUpdate(plan, refuse) => PlanEffects(w, plan, refuse);
    case _ =>
  }

  lemma ObserversOnly(
    w: World, connection: u64, attachment: u64, channel: nat, jobs: Option<seq<Job>>, detached: Option<u64>)
    ensures Effect(w, AttachObserver(w, connection, attachment, channel, jobs).0)
    ensures Effect(w, DetachObservers(w, connection, detached))
  {
    hide Remaining, CloseSenders, ChannelIds;
  }
}
