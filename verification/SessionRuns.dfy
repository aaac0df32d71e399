/** Every command, run event and environment step keeps the session invariant, over every run of an actor. */
module SessionRuns {
  import opened Prelude
  import opened Titles
  import opened Records
  import opened Transcripts
  import opened Repository
  import opened Projections
  import opened Harnesses
  import opened SessionModel
  import opened SessionInvariants

  // ---------- putting the invariant back together ----------

  /** After a persist, everything is in step again except possibly the activity registration. */
  lemma BackInStep(origin: Projection, w: World, v: World)
    requires LogKept(origin, w) && StreamsKept(w) && Aligned(w.record, w.projection, w.harness) && WrittenBehind(w)
    requires v == w.(counted := v.counted, shuttingDown := v.shuttingDown)
    requires !v.exited && (v.counted <==> v.harness.active.Some?) && (v.deleting ==> v.harness.active.None?)
    ensures Inv(origin, v)
  {
    hide LogKept, StreamsKept, Aligned, RowAgrees;
    StreamsElsewhere(origin, w, v);
  }

  /** Emitting an event that leaves the record and its projection in agreement. */
  lemma EmitKeeps(origin: Projection, w: World, event: Event)
    requires LogKept(origin, w) && StreamsKept(w) && !w.exited && ValidateEvent(w.projection, event) == None
    requires InStep(w.(projection := Reduce(w.projection, event)))
    ensures Inv(origin, Emit(w, event))
    ensures Emit(w, event) == w.(projection := Emit(w, event).projection, log := Emit(w, event).log,
                                 observers := Emit(w, event).observers, channels := Emit(w, event).channels)
  {
    hide LogKept, StreamsKept, Aligned, RowAgrees, Emit, Reduce;
    EmitEffect(w, event, TERMINAL_EVENT_RESERVE);
    EmitKeepsLog(origin, w, event, TERMINAL_EVENT_RESERVE);
    SequenceIsLength(origin, w);
    EmitKeepsStreams(w, event);
    var p := Reduce(w.projection, event);
    AlignedIgnoresWarning(w.record, p, w.harness, p.warning, Emit(w, event).projection.sequence);
  }

  // ---------- runs ----------

  lemma SubmitKeeps(origin: Projection, w: World, prompt: string, refuse: bool)
    requires Inv(origin, w) && !w.exited
    ensures Inv(origin, Submitted(w, prompt, refuse).0)
  {
    hide LogKept, StreamsKept, Aligned, WrittenBehind, Emit, Persist, Reduce;
    if Guard(w).None? && SubmitRun(w.harness, prompt).Ok? {
      var event := Started(w.harness.nextRunId, prompt);
      StartAligned(w.record, w.projection, w.harness, prompt);
      DurableKeepsIdentity(w.record, event);
      var started := w.(harness := SubmitRun(w.harness, prompt).value, record := ApplyDurable(w.record, event).value);
      EmitLags(origin, w, started, event);
      var emitted := Emit(started, event);
      PersistRestores(origin, emitted, refuse);
      BackInStep(origin, Persist(emitted, refuse), Persist(emitted, refuse).(counted := true));
    }
  }

  lemma DurableKeepsIdentity(r: Record, event: Event)
    requires ApplyDurable(r, event).Ok?
    ensures var after := ApplyDurable(r, event).value;
            && after.id == r.id && after.cwd == r.cwd && after.createdAt == r.createdAt && after.title == r.title
            && after.titleSource == r.titleSource && after.titleRevision == r.titleRevision
            && after.settings == r.settings && after.plan == r.plan && after.history == r.history
  {
  }

  /** The harness once it has produced this transcript event. */
  function HarnessAfter(h: HarnessState, event: Event): HarnessState
    requires h.active.Some?
  {
    if event.ToolStarted? then h
    else if event.Completed? then
      h.(active := None, history := h.history +
         [Message(UserRole, h.active.value.prompt), Message(AssistantRole, event.response)])
    else h.(active := None)
  }

  lemma DurableKeeps(origin: Projection, w: World, event: Event, refuse: bool)
    requires Inv(origin, w) && !w.exited && w.harness.active.Some?
    requires IsRunEvent(event) && event.runId == w.harness.active.value.id
    ensures var stepped := w.(harness := HarnessAfter(w.harness, event), counted := event.ToolStarted?);
            && ApplyDurable(w.record, event).Ok? && ValidateEvent(w.projection, event) == None
            && Inv(origin, DurableRunEvent(stepped, event, refuse))
  {
    hide LogKept, StreamsKept, Aligned, WrittenBehind, Emit, Persist, Reduce, ApplyDurable;
    var stepped := w.(harness := HarnessAfter(w.harness, event), counted := event.ToolStarted?);
    DurableAligned(w.record, w.projection, w.harness, event);
    DurableKeepsIdentity(w.record, event);
    var record := ApplyDurable(w.record, event).value;
    var updated := if event.Completed? then record.(history := stepped.harness.history) else record;
    EmitLags(origin, w, stepped.(record := updated), event);
    var emitted := Emit(stepped.(record := updated), event);
    PersistRestores(origin, emitted, refuse);
    BackInStep(origin, Persist(emitted, refuse), Persist(emitted, refuse));
  }

  lemma DurableAligned(r: Record, p: Projection, h: HarnessState, event: Event)
    requires Aligned(r, p, h) && h.active.Some? && IsRunEvent(event) && event.runId == h.active.value.id
    ensures var after := HarnessAfter(h, event);
            && ApplyDurable(r, event).Ok? && ValidateEvent(p, event) == None
            && Aligned(if event.Completed? then ApplyDurable(r, event).value.(history := after.history)
                       else ApplyDurable(r, event).value, Reduce(p, event), after)
  {
    hide Consistent, Open, Reduce, ApplyDurable;
    if event.ToolStarted? {
      ToolAligned(r, p, h, event);
    } else {
      EndAligned(r, p, h, event);
      var after := ApplyDurable(r, event).value;
      assert !event.Completed? ==> after.(history := HarnessAfter(h, event).history) == after;
    }
  }

  lemma CancelKeeps(origin: Projection, w: World, refuse: bool)
    requires Inv(origin, w) && !w.exited
    ensures Inv(origin, CancelRun(w, refuse).0)
    ensures CancelRun(w, refuse).1 != Refused(ProjectionFailure)
  {
    hide LogKept, StreamsKept, Aligned, WrittenBehind, Emit, Persist, Reduce, ApplyDurable, DurableRunEvent;
    if Guard(w).None? && w.harness.active.Some? {
      DurableKeeps(origin, w, Event.Cancelled(w.harness.active.value.id), refuse);
    }
  }

  lemma EngineKeeps(origin: Projection, w: World, outcome: EngineOutcome, now: int, refuse: bool)
    requires Inv(origin, w) && !w.exited
    ensures Inv(origin, EngineStep(w, outcome, now, refuse))
  {
    hide LogKept, StreamsKept, Aligned, WrittenBehind, Emit, Persist, PersistMetadata, Reduce, ApplyDurable;
    hide DurableRunEvent;
    if w.harness.active.Some? {
      var id := w.harness.active.value.id;
      match EventOf(id, outcome)
      case RunDelta(_, text) => QuietKeeps(origin, w, AssistantDelta(id, text));
      case RunToolFinished(_, callId, name) => QuietKeeps(origin, w, ToolFinished(id, callId, name));
      case RunUsage(_, inputTokens) => UsageKeeps(origin, w, inputTokens, now, refuse);
      case RunToolStarted(_, callId, name, arguments) =>
        DurableKeeps(origin, w, Event.ToolStarted(id, callId, name, arguments), refuse);
      case RunCompleted(_, response) => DurableKeeps(origin, w, Event.Completed(id, response, now), refuse);
      case RunFailed(_, failure) => DurableKeeps(origin, w, Event.Failed(id, failure), refuse);
      case RunCancelled(_) => DurableKeeps(origin, w, Event.Cancelled(id), refuse);
    }
  }

  /** Events that the durable record does not remember. */
  predicate Quiet(w: World, event: Event) {
    || event.JobsChanged?
    || ((event.AssistantDelta? || event.ToolFinished?) && w.harness.active.Some?
        && event.runId == w.harness.active.value.id)
  }

  lemma QuietKeeps(origin: Projection, w: World, event: Event)
    requires Inv(origin, w) && !w.exited && Quiet(w, event)
    ensures ValidateEvent(w.projection, event) == None
    ensures Inv(origin, Emit(w, event))
  {
    hide LogKept, StreamsKept, Emit, Consistent, RowAgrees;
    EmitKeeps(origin, w, event);
  }

  lemma UsageKeeps(origin: Projection, w: World, inputTokens: u64, now: int, refuse: bool)
    requires Inv(origin, w) && !w.exited && w.harness.active.Some?
    ensures var updated := w.(record := w.record.(settings := w.record.settings.(contextTokens := inputTokens),
                                                  lastActivity := now));
            var event := ContextUsage(w.harness.active.value.id, inputTokens, now);
            && ValidateEvent(w.projection, event) == None
            && Inv(origin, PersistMetadata(Emit(updated, event), refuse))
  {
    hide LogKept, StreamsKept, Emit, PersistMetadata, Consistent;
    MetadataKeeps(origin, w, w.record.settings.(contextTokens := inputTokens), now,
                  ContextUsage(w.harness.active.value.id, inputTokens, now), refuse);
  }

  /** A settings change is written as metadata alone unless something else is still unwritten. */
  lemma MetadataKeeps(origin: Projection, w: World, settings: Settings, now: int, event: Event, refuse: bool)
    requires Inv(origin, w) && !w.exited
    requires w.deleting ==> w.dirty.Some?
    requires event == SettingsChanged(settings, now)
          || (event.ContextUsage? && w.harness.active.Some? && event.runId == w.harness.active.value.id
              && settings == w.record.settings.(contextTokens := event.inputTokens) && event.lastActivity == now)
    ensures ValidateEvent(w.projection, event) == None
    ensures Inv(origin, PersistMetadata(
              Emit(w.(record := w.record.(settings := settings, lastActivity := now)), event), refuse))
  {
    hide LogKept, StreamsKept, Emit, PersistMetadata;
    var updated := w.(record := w.record.(settings := settings, lastActivity := now));
    SettingsAligned(w.record, w.projection, w.harness, settings, now, event);
    hide Aligned, RowAgrees;
    EmitLags(origin, w, updated, event);
    var emitted := Emit(updated, event);
    PersistMetadataRestores(origin, emitted, refuse);
    BackInStep(origin, PersistMetadata(emitted, refuse), PersistMetadata(emitted, refuse));
  }

  lemma SettingsAligned(r: Record, p: Projection, h: HarnessState, settings: Settings, now: int, event: Event)
    requires Aligned(r, p, h)
    requires event == SettingsChanged(settings, now)
          || (event.ContextUsage? && h.active.Some? && event.runId == h.active.value.id
              && settings == r.settings.(contextTokens := event.inputTokens) && event.lastActivity == now)
    ensures ValidateEvent(p, event) == None
    ensures Aligned(r.(settings := settings, lastActivity := now), Reduce(p, event), h)
  {
    hide Grammar, History;
  }

  lemma ChangeSettingsKeeps(origin: Projection, w: World, settings: Settings, now: int, refuse: bool)
    requires Inv(origin, w) && !w.exited && !w.deleting
    ensures Inv(origin, ChangeSettings(w, settings, now, refuse))
  {
    hide LogKept, StreamsKept, Emit, PersistMetadata, Aligned, WrittenBehind;
    MetadataKeeps(origin, w, settings, now, SettingsChanged(settings, now), refuse);
  }

  // ---------- titles and plans ----------

  lemma InstallTitleKeeps(origin: Projection, w: World, row: Record)
    requires Inv(origin, w) && !w.exited && !w.deleting
    requires row == w.sessions[w.record.id].(title := row.title, titleSource := row.titleSource,
                                             titleRevision := row.titleRevision)
    ensures Inv(origin, InstallTitle(w.(sessions := w.sessions[w.record.id := row]), row))
  {
    hide LogKept, StreamsKept, Emit, Grammar, History;
    var record := w.record.(title := row.title, titleSource := row.titleSource, titleRevision := row.titleRevision);
    var installed := w.(sessions := w.sessions[w.record.id := row], record := record,
                        dirty := if w.dirty.Some? then Some(record) else None);
    StreamsElsewhere(origin, w, installed);
    EmitKeeps(origin, installed, TitleChanged(row.title, row.titleRevision));
  }

  lemma RenameKeeps(origin: Projection, w: World, title: SessionTitle, refuse: bool)
    requires Inv(origin, w) && !w.exited
    ensures Inv(origin, Renamed(w, title, refuse).0)
  {
    hide LogKept, StreamsKept, Aligned, InstallTitle, RowAgrees;
    var renamed := Rename(w.sessions, w.record.id, title, refuse);
    if Guard(w).None? && renamed.Ok? {
      InstallTitleKeeps(origin, w, renamed.value);
    }
  }

  lemma GeneratedTitleKeeps(
    origin: Projection, w: World, expectedRevision: u64, generated: Option<string>, refuse: bool)
    requires Inv(origin, w) && !w.exited
    ensures Inv(origin, TitleGenerated(w, expectedRevision, generated, refuse).0)
  {
    hide LogKept, StreamsKept, Aligned, InstallTitle, RowAgrees, SanitizeGeneratedTitle;
    if Guard(w).None? && generated.Some? && SanitizeGeneratedTitle(generated.value).Some? {
      var title := SanitizeGeneratedTitle(generated.value).value;
      var written := SetGeneratedTitle(w.sessions, w.record.id, expectedRevision, title, refuse);
      if written.Ok? && written.value.Some? {
        InstallTitleKeeps(origin, w, written.value.value);
      }
    }
  }

  lemma PlanKeeps(origin: Projection, w: World, plan: seq<PlanItem>, refuse: bool)
    requires Inv(origin, w) && !w.exited
    ensures Inv(origin, PlanReplaced(w, plan, refuse).0)
  {
    hide LogKept, StreamsKept, Emit, Persist, WrittenBehind;
    if w.projection.sequence != U64_MAX {
      var planned := w.(record := w.record.(plan := plan));
      PlanAligned(w.record, w.projection, w.harness, plan);
      hide Aligned;
      EmitLags(origin, w, planned, PlanChanged(plan));
      var emitted := Emit(planned, PlanChanged(plan));
      PersistRestores(origin, emitted, refuse);
      BackInStep(origin, Persist(emitted, refuse), Persist(emitted, refuse));
    }
  }

  lemma PlanAligned(r: Record, p: Projection, h: HarnessState, plan: seq<PlanItem>)
    requires Aligned(r, p, h)
    ensures Aligned(r.(plan := plan), Reduce(p, PlanChanged(plan)), h)
  {
    hide Grammar, History;
  }

  // ---------- flushing and stopping ----------

  /** With a write outstanding the warning is showing, so flushing is one more settled checkpoint. */
  lemma FlushSettles(w: World, refuse: bool)
    requires InStep(w) && !w.deleting && w.dirty.Some?
    ensures Flushed(w, refuse).0 == Settle(w, Checkpoint(w.sessions, w.record, refuse))
  {
    hide Aligned, RowAgrees, Emit;
  }

  lemma InStepLags(origin: Projection, w: World)
    requires Inv(origin, w) && !w.exited
    ensures Lagging(origin, w)
  {
    hide LogKept, StreamsKept, Aligned, RowAgrees;
  }

  lemma FlushKeeps(origin: Projection, w: World, refuse: bool)
    requires Inv(origin, w) && !w.exited && !w.deleting
    ensures Inv(origin, Flushed(w, refuse).0) && !Flushed(w, refuse).0.exited
    ensures Flushed(w, refuse).1.Success? ==>
      Flushed(w, refuse).0.dirty.None? && Flushed(w, refuse).0.sessions == w.sessions[w.record.id := w.record]
    ensures Flushed(w, refuse).0.record == w.record && Flushed(w, refuse).0.harness == w.harness
    ensures Flushed(w, refuse).0.counted == w.counted && Flushed(w, refuse).0.deleting == w.deleting
  {
    if w.dirty.Some? {
      InStepLags(origin, w);
      FlushSettles(w, refuse);
      CheckpointStoresRecord(origin, w, refuse);
      hide LogKept, StreamsKept, Aligned, WrittenBehind, Emit, Settle, Checkpoint;
      SettleRestores(origin, w, Checkpoint(w.sessions, w.record, refuse));
      var after := Settle(w, Checkpoint(w.sessions, w.record, refuse));
      BackInStep(origin, after, after);
    } else {
      assert w.sessions[w.record.id := w.record] == w.sessions;
    }
  }

  lemma ExitKeeps(origin: Projection, w: World)
    requires LogKept(origin, w) && StreamsKept(w)
    ensures Inv(origin, Exit(w))
  {
    hide LogKept, StreamsKept, CloseSenders, ChannelIds;
    var exited := w.(exited := true);
    StreamsElsewhere(origin, w, exited);
    DropKeepsStreams(exited);
    DropKeepsLog(origin, exited);
  }

  lemma DropKeepsLog(origin: Projection, w: World)
    requires LogKept(origin, w)
    ensures LogKept(origin, DropObservers(w)) && DropObservers(w).observers == []
  {
    hide CloseSenders, ChannelIds, Fold, ValidLog;
  }

  lemma ShutDownKeeps(origin: Projection, w: World, jobsStop: bool, refuse: bool)
    requires Inv(origin, w) && !w.exited
    ensures Inv(origin, ShutDown(w, jobsStop, refuse).0)
  {
    hide LogKept, StreamsKept, Aligned, WrittenBehind, Flushed, Exit;
    if !w.deleting {
      var stopping := w.(shuttingDown := true);
      FlagsKeep(origin, w, stopping);
      FlushKeeps(origin, stopping, refuse);
      var flushed := Flushed(stopping, refuse).0;
      StreamsElsewhere(origin, flushed, flushed.(counted := false));
      ExitKeeps(origin, flushed.(counted := false));
    }
  }

  lemma FlagsKeep(origin: Projection, w: World, v: World)
    requires Inv(origin, w) && !w.exited
    requires v == w.(shuttingDown := v.shuttingDown)
    ensures Inv(origin, v)
  {
    hide LogKept, StreamsKept, Aligned, RowAgrees;
    StreamsElsewhere(origin, w, v);
  }

  // ---------- deleting ----------

  /** The same record with its running last turn ended by a cancellation. */
  predicate EndsCancelled(before: Record, after: Record) {
    && before.turns != []
    && var n := |before.turns| - 1;
       && before.turns[n].status == TurnStatus.Running
       && after == before.(turns := before.turns[n := before.turns[n].(status := TurnStatus.Cancelled)],
                           transcript := before.transcript + [Item.Cancelled(before.turns[n].runId)])
  }

  lemma CancelEnds(r: Record, p: Projection, h: HarnessState)
    requires Aligned(r, p, h) && h.active.Some?
    ensures ApplyDurable(r, Event.Cancelled(h.active.value.id)).Ok?
    ensures EndsCancelled(r, ApplyDurable(r, Event.Cancelled(h.active.value.id)).value)
  {
    hide Grammar, History;
    RunningIsLast(r, h.active.value.id);
  }

  /** Preparing deletion cancels the active run in all three machines and tells the observers. */
  lemma StopForDeleteKeeps(origin: Projection, w: World)
    requires Inv(origin, w) && !w.exited
    ensures var (stopped, failure) := StopForDelete(w.(deleting := true));
            && Lagging(origin, stopped) && failure == None
            && stopped.harness.active.None? && !stopped.counted
            && stopped == w.(deleting := true, harness := stopped.harness, counted := stopped.counted,
                             record := stopped.record, projection := stopped.projection, log := stopped.log,
                             observers := stopped.observers, channels := stopped.channels)
            && (if w.harness.active.Some? then EndsCancelled(w.record, stopped.record)
                else stopped == w.(deleting := true))
  {
    hide LogKept, StreamsKept, Aligned, RowAgrees, Emit, Reduce, ApplyDurable, EndsCancelled;
    var entered := w.(deleting := true);
    if w.harness.active.Some? {
      var event := Event.Cancelled(w.harness.active.value.id);
      DurableAligned(w.record, w.projection, w.harness, event);
      DurableKeepsIdentity(w.record, event);
      CancelEnds(w.record, w.projection, w.harness);
      EmitLags(origin, w, entered.(harness := w.harness.(active := None), counted := false,
                                   record := ApplyDurable(w.record, event).value), event);
    } else {
      StreamsElsewhere(origin, w, entered);
    }
  }

  lemma PrepareDeleteKeeps(origin: Projection, w: World, jobsStop: bool, refuse: bool)
    requires Inv(origin, w) && !w.exited
    ensures Inv(origin, DeletePrepared(w, jobsStop, refuse).0)
    ensures var (after, reply) := DeletePrepared(w, jobsStop, refuse);
            if Guard(w).Some? then after == w && reply == Refused(Guard(w).value)
            else
              && after.deleting && !after.exited && after.record.id == w.record.id
              && after.record == StopForDelete(w.(deleting := true)).0.record
              && (reply.Success? ==>
                    after.sessions == w.sessions[w.record.id := after.record] && after.dirty == None)
  {
    hide LogKept, StreamsKept, Aligned, RowAgrees, Emit, StopForDelete, Checkpoint;
    if Guard(w).None? {
      StopForDeleteKeeps(origin, w);
      var stopped := StopForDelete(w.(deleting := true)).0;
      var written := Checkpoint(stopped.sessions, stopped.record, refuse);
      CheckpointStoresRecord(origin, stopped, refuse);
      if written.Ok? {
        hide Settle, WrittenBehind;
        assert DeletePrepared(w, jobsStop, refuse).0 == Settle(stopped, written) by {
          PreparedIsSettled(w, jobsStop, refuse);
        }
        SettleRestores(origin, stopped, written);
        BackInStep(origin, Settle(stopped, written), Settle(stopped, written));
      } else {
        var after := stopped.(dirty := Some(stopped.record));
        StreamsElsewhere(origin, stopped, after);
        BackInStep(origin, after, after);
      }
    }
  }

  lemma PreparedIsSettled(w: World, jobsStop: bool, refuse: bool)
    requires Guard(w).None?
    ensures var stopped := StopForDelete(w.(deleting := true)).0;
            var written := Checkpoint(stopped.sessions, stopped.record, refuse);
            written.Ok? ==> DeletePrepared(w, jobsStop, refuse).0 == Settle(stopped, written)
  {
    hide Emit, StopForDelete, Checkpoint;
  }

  lemma FinishDeleteKeeps(origin: Projection, w: World)
    requires Inv(origin, w) && !w.exited
    ensures Inv(origin, DeleteFinished(w).0)
  {
    hide LogKept, StreamsKept, Aligned, RowAgrees, Emit, Exit;
    if w.deleting {
      var event := Deleted(w.record.id);
      var told := Emit(w, event, 0);
      EmitKeepsLog(origin, w, event, 0);
      SequenceIsLength(origin, w);
      FinalEmit(w, event);
      LogElsewhere(origin, told, told.(counted := false));
      assert SlicesKept(told.(counted := false));
      FinalStreams(origin, told.(counted := false));
    }
  }

  /** The last broadcast may fill a channel, so only its contents still follow the log. */
  ghost predicate SlicesKept(w: World) {
    && (forall c :: c in w.channels ==> Slice(w.log, w.channels[c]))
    && (forall c :: c in w.channels && w.channels[c].senderOpen ==> c in ChannelIds(w.observers))
  }

  /** With the reserved slot still free, the terminal event reaches every observer whose receiver is open. */
  lemma FinalEmit(w: World, event: Event)
    requires StreamsKept(w) && w.projection.sequence == |w.log| && ValidateEvent(w.projection, event) == None
    ensures SlicesKept(Emit(w, event, 0))
    ensures |w.log| < U64_MAX ==> forall o :: o in w.observers && w.channels[o.channel].receiverOpen ==>
      && o in Emit(w, event, 0).observers
      && Emit(w, event, 0).channels[o.channel] ==
         w.channels[o.channel].(queue := w.channels[o.channel].queue + [Envelope(|w.log| + 1, event)])
  {
    hide Slice, Reduce, ValidateEvent, Emit, Survivors, CloseSenders, Distinct;
    EmitUnfolds(w, event, 0);
    var e := Emit(w, event, 0);
    if |w.log| < U64_MAX {
      SurvivorsShape(w.observers, w.channels, 0);
      DeliverKeys(w.channels, ChannelIds(w.observers), Envelope(|w.log| + 1, event), 0);
      forall c | c in e.channels
        ensures Slice(e.log, e.channels[c])
        ensures e.channels[c].senderOpen ==> c in ChannelIds(e.observers)
      {
        if c in ChannelIds(w.observers) {
          LastOffer(w.log, w.channels[c], event);
          var o :| o in w.observers && o.channel == c;
          assert Accepts(w.channels[c], 0) ==> o in e.observers;
        } else {
          LongerLogKeepsSlice(w.log, w.channels[c], event);
        }
      }
    } else {
      DropKeepsStreams(w);
      assert e.channels == DropObservers(w).channels && e.observers == DropObservers(w).observers;
    }
  }

  lemma LastOffer(log: seq<Event>, channel: Channel, event: Event)
    requires Slice(log, channel) && Current(log, channel) && |log| < U64_MAX
    ensures Slice(log + [event], Offer(channel, Envelope(|log| + 1, event), 0))
    ensures Accepts(channel, 0) <==> channel.receiverOpen
  {
  }

  lemma LogElsewhere(origin: Projection, w: World, v: World)
    requires LogKept(origin, w) && v.projection == w.projection && v.log == w.log
    ensures LogKept(origin, v)
  {
    hide Fold, ValidLog;
  }

  lemma FinalStreams(origin: Projection, w: World)
    requires LogKept(origin, w) && SlicesKept(w)
    ensures Inv(origin, Exit(w))
  {
    hide Slice, Current, LogKept;
    var exited := Exit(w);
    LogElsewhere(origin, w, exited);
    forall c | c in exited.channels ensures Slice(w.log, exited.channels[c]) && !exited.channels[c].senderOpen {
      SliceIgnoresEnds(w.log, w.channels[c], exited.channels[c]);
    }
  }

  lemma AbortDeleteKeeps(origin: Projection, w: World)
    requires Inv(origin, w) && !w.exited
    ensures Inv(origin, DeleteAborted(w).0)
  {
    hide LogKept, StreamsKept, Aligned, RowAgrees, Exit;
    StreamsElsewhere(origin, w, w.(counted := false));
    ExitKeeps(origin, w.(counted := false));
  }

  // ---------- observers coming and going ----------

  lemma AttachKeeps(
    origin: Projection, w: World, connection: u64, attachment: u64, channel: nat, jobs: Option<seq<Job>>)
    requires Inv(origin, w) && !w.exited
    ensures Inv(origin, AttachObserver(w, connection, attachment, channel, jobs).0)
  {
    hide ValidLog, Fold, InStep, Slice, Current;
    var after := AttachObserver(w, connection, attachment, channel, jobs).0;
    if after != w {
      FreshChannel(w.log, after.channels[channel]);
      assert ChannelIds(w.observers) <= ChannelIds(after.observers) by {
        assert forall o :: o in w.observers ==> o in after.observers;
      }
      if jobs.Some? {
        assert Observer(connection, attachment, channel) in after.observers;
        assert Distinct(after.observers) by {
          assert forall o :: o in w.observers ==> o.channel != channel;
        }
      }
      SameMachines(w, after);
    }
  }

  lemma FreshChannel(log: seq<Event>, channel: Channel)
    requires channel.queue == [] && channel.next == |log| + 1 && |log| <= U64_MAX
    ensures Slice(log, channel) && Current(log, channel)
  {
  }

  lemma SameMachines(w: World, v: World)
    requires v == w.(observers := v.observers, channels := v.channels)
    ensures InStep(v) == InStep(w)
  {
    hide Aligned, RowAgrees;
  }

  lemma {:induction false} RemainingShape(observers: seq<Observer>, connection: u64, attachment: Option<u64>)
    ensures forall o :: o in Remaining(observers, connection, attachment) <==>
      o in observers && !(o.connection == connection && (attachment.None? || o.attachment == attachment.value))
    ensures Distinct(observers) ==> Distinct(Remaining(observers, connection, attachment))
  {
    if observers != [] {
      var before := observers[..|observers| - 1];
      RemainingShape(before, connection, attachment);
      assert observers == before + [observers[|observers| - 1]];
      if Distinct(observers) {
        assert forall o :: o in before ==> o.channel != observers[|observers| - 1].channel;
      }
    }
  }

  lemma DetachKeeps(origin: Projection, w: World, connection: u64, attachment: Option<u64>)
    requires Inv(origin, w) && !w.exited
    ensures Inv(origin, DetachObservers(w, connection, attachment))
  {
    hide ValidLog, Fold, InStep, Slice, Current, Remaining, Distinct;
    var after := DetachObservers(w, connection, attachment);
    RemainingShape(w.observers, connection, attachment);
    SameMachines(w, after);
    forall c | c in after.channels
      ensures Slice(w.log, after.channels[c])
      ensures after.channels[c].senderOpen ==> Current(w.log, after.channels[c]) && c in ChannelIds(after.observers)
    {
      SliceIgnoresEnds(w.log, w.channels[c], after.channels[c]);
    }
    forall o | o in after.observers ensures after.channels[o.channel].senderOpen {
      assert o.channel in ChannelIds(after.observers);
    }
  }

  // ---------- the environment ----------

  lemma ReceiveKeeps(origin: Projection, w: World, c: nat)
    requires Inv(origin, w)
    ensures Inv(origin, Step(w, Receive(c)).0)
  {
    hide LogKept, InStep, StreamsKept, Handle;
    SameMachines(w, Step(w, Receive(c)).0);
    LogElsewhere(origin, w, Step(w, Receive(c)).0);
    if c in w.channels && w.channels[c].queue != [] {
      TailSlice(w.log, w.channels[c]);
      OneChannelKeeps(w, c, w.channels[c].(queue := w.channels[c].queue[1..], next := w.channels[c].next + 1));
    }
  }

  lemma OneChannelKeeps(w: World, c: nat, channel: Channel)
    requires StreamsKept(w) && c in w.channels && channel.senderOpen == w.channels[c].senderOpen
    requires Slice(w.log, w.channels[c]) ==> Slice(w.log, channel)
    requires Slice(w.log, w.channels[c]) && Current(w.log, w.channels[c]) ==> Current(w.log, channel)
    ensures StreamsKept(w.(channels := w.channels[c := channel]))
  {
    hide Slice, Current, Distinct;
  }

  lemma TailSlice(log: seq<Event>, channel: Channel)
    requires channel.queue != []
    ensures var rest := channel.(queue := channel.queue[1..], next := channel.next + 1);
            (Slice(log, channel) ==> Slice(log, rest)) && (Current(log, channel) ==> Current(log, rest))
  {
  }

  lemma CloseReceiverKeeps(origin: Projection, w: World, c: nat)
    requires Inv(origin, w)
    ensures Inv(origin, Step(w, CloseReceiver(c)).0)
  {
    hide LogKept, InStep, StreamsKept, Handle, Slice, Current;
    SameMachines(w, Step(w, CloseReceiver(c)).0);
    LogElsewhere(origin, w, Step(w, CloseReceiver(c)).0);
    if c in w.channels {
      SliceIgnoresEnds(w.log, w.channels[c], w.channels[c].(receiverOpen := false));
      OneChannelKeeps(w, c, w.channels[c].(receiverOpen := false));
    }
  }

  lemma ElsewhereKeeps(origin: Projection, w: World, sessions: Sessions)
    requires Inv(origin, w)
    ensures Inv(origin, Step(w, Elsewhere(sessions)).0)
  {
    hide LogKept, StreamsKept, Aligned, RowAgrees, Handle;
    if Allowed(w, sessions) {
      StreamsElsewhere(origin, w, w.(sessions := sessions));
    }
  }

  // ---------- every step, every run ----------

  lemma HandleKeeps(origin: Projection, w: World, input: Input)
    requires Inv(origin, w) && !w.exited
    ensures Inv(origin, Handle(w, input).0)
  {
    hide Inv, AttachObserver, DetachObservers, Submitted, CancelRun, Renamed;
    hide TitleGenerated, DeletePrepared, DeleteFinished, DeleteAborted, ModelSelected, ReasoningSelected, Flushed;
    hide ShutDown, EngineStep, Emit, PlanReplaced, Exit;
    match input
    case Attach(connection, attachment, channel, jobs) =>
      AttachKeeps(origin, w, connection, attachment, channel, jobs);
    case Detach(connection, attachment) => DetachKeeps(origin, w, connection, Some(attachment));
    case DetachConnection(connection) => DetachKeeps(origin, w, connection, None);
    case Submit(prompt, refuse) => SubmitKeeps(origin, w, prompt, refuse);
    case Cancel(refuse) => CancelKeeps(origin, w, refuse);
    case RenameTo(title, refuse) => RenameKeeps(origin, w, title, refuse);
    case ApplyGeneratedTitle(revision, generated, refuse) => GeneratedTitleKeeps(origin, w, revision, generated, refuse);
    case PrepareDelete(jobsStop, refuse) => PrepareDeleteKeeps(origin, w, jobsStop, refuse);
    case FinishDelete => FinishDeleteKeeps(origin, w);
    case AbortDelete => AbortDeleteKeeps(origin, w);
    case SelectModel(model, now, refuse) => SelectKeeps(origin, w, model, now, refuse);
    case SelectReasoning(level, now, refuse) => ReasoningKeeps(origin, w, level, now, refuse);
    case Flush(refuse) =>
      if !w.deleting {
        FlushKeeps(origin, w, refuse);
      }
    case Shutdown(jobsStop, refuse) => ShutDownKeeps(origin, w, jobsStop, refuse);
    case Engine(outcome, now, refuse) => EngineKeeps(origin, w, outcome, now, refuse);
    case JobsChange(jobs) =>
      if jobs.Some? {
        QuietKeeps(origin, w, JobsChanged(jobs.value));
      }
    case PlanUpdate(plan, refuse) => PlanKeeps(origin, w, plan, refuse);
    case HandlesDropped => LeavingKeeps(origin, w);
    case _ =>
  }

  lemma LeavingKeeps(origin: Projection, w: World)
    requires Inv(origin, w) && !w.exited
    ensures Inv(origin, Exit(w))
  {
    hide LogKept, StreamsKept, InStep, Exit;
    ExitKeeps(origin, w);
  }

  lemma SelectKeeps(origin: Projection, w: World, model: string, now: int, refuse: bool)
    requires Inv(origin, w) && !w.exited
    ensures Inv(origin, ModelSelected(w, model, now, refuse).0)
  {
    hide LogKept, StreamsKept, InStep, ChangeSettings;
    if Guard(w).None? {
      ChangeSettingsKeeps(origin, w, w.record.settings.(model := model), now, refuse);
    }
  }

  lemma ReasoningKeeps(origin: Projection, w: World, level: ReasoningLevel, now: int, refuse: bool)
    requires Inv(origin, w) && !w.exited
    ensures Inv(origin, ReasoningSelected(w, level, now, refuse).0)
  {
    hide LogKept, StreamsKept, InStep, ChangeSettings;
    if Guard(w).None? {
      ChangeSettingsKeeps(origin, w, w.record.settings.(reasoning := level), now, refuse);
    }
  }

  /** Whatever happens next, however storage, jobs and clients behave, the invariant holds afterwards. */
  lemma StepKeeps(origin: Projection, w: World, input: Input)
    requires Inv(origin, w)
    ensures Inv(origin, Step(w, input).0)
  {
    hide Inv, Handle;
    match input
    case Receive(c) => ReceiveKeeps(origin, w, c);
    case CloseReceiver(c) => CloseReceiverKeeps(origin, w, c);
    case Elsewhere(sessions) => ElsewhereKeeps(origin, w, sessions);
    case _ =>
      if !w.exited {
        HandleKeeps(origin, w, input);
      }
  }

  lemma {:induction false} RunKeeps(origin: Projection, w: World, inputs: seq<Input>)
    requires Inv(origin, w)
    ensures Inv(origin, Run(w, inputs))
  {
    hide Inv, Step;
    if inputs != [] {
      RunKeeps(origin, w, inputs[..|inputs| - 1]);
      StepKeeps(origin, Run(w, inputs[..|inputs| - 1]), inputs[|inputs| - 1]);
    }
  }

  // ---------- how actors start ----------

  lemma OpenedStarts(record: Record, catalog: Catalog, sessions: Sessions)
    requires Consistent(record) && !Open(record) && record.id in sessions && sessions[record.id] == record
    ensures Inv(FromRecord(record, catalog), Opened(record, catalog, sessions))
  {
    hide Grammar, History;
  }

  /** A session just created: its actor continues the run whose prompt is already stored. */
  lemma MaterializedStarts(id: SessionId, request: Materialize, catalog: Catalog, sessions: Sessions)
    requires request.runId == 0 && id in sessions && sessions[id] == Materialized(id, request)
    ensures var w := SpawnedMaterialized(Materialized(id, request), catalog, request.prompt, sessions);
            Inv(w.projection, w) && w.log == []
  {
    hide Grammar, History;
    MaterializedIsConsistent(id, request);
  }

  /** Worlds that an actor can be in: it was opened or created, and then anything happened. */
  ghost predicate Reachable(origin: Projection, w: World) {
    || (exists record: Record, catalog: Catalog, sessions: Sessions, inputs: seq<Input> ::
          StartedOpen(origin, record, catalog, sessions) && w == Run(Opened(record, catalog, sessions), inputs))
    || (exists id: SessionId, request: Materialize, catalog: Catalog, sessions: Sessions, inputs: seq<Input> ::
          StartedMaterialized(origin, id, request, catalog, sessions)
          && w == Run(SpawnedMaterialized(Materialized(id, request), catalog, request.prompt, sessions), inputs))
  }

  predicate StartedOpen(origin: Projection, record: Record, catalog: Catalog, sessions: Sessions) {
    && Consistent(record) && !Open(record) && record.id in sessions && sessions[record.id] == record
    && origin == FromRecord(record, catalog)
  }

  predicate StartedMaterialized(
    origin: Projection, id: SessionId, request: Materialize, catalog: Catalog, sessions: Sessions)
  {
    && request.runId == 0 && id in sessions && sessions[id] == Materialized(id, request)
    && origin == SpawnedMaterialized(Materialized(id, request), catalog, request.prompt, sessions).projection
  }

  /** Every reachable world satisfies the invariant. */
  lemma ReachableIsInvariant(origin: Projection, w: World)
    requires Reachable(origin, w)
    ensures Inv(origin, w)
  {
    hide Inv, Run, Consistent, Opened, SpawnedMaterialized, FromRecord;
    if record: Record, catalog: Catalog, sessions: Sessions, inputs: seq<Input> :|
         StartedOpen(origin, record, catalog, sessions) && w == Run(Opened(record, catalog, sessions), inputs) {
      OpenedStarts(record, catalog, sessions);
      RunKeeps(origin, Opened(record, catalog, sessions), inputs);
    } else {
      var id: SessionId, request: Materialize, catalog: Catalog, sessions: Sessions, inputs: seq<Input> :|
        StartedMaterialized(origin, id, request, catalog, sessions)
        && w == Run(SpawnedMaterialized(Materialized(id, request), catalog, request.prompt, sessions), inputs);
      MaterializedStarts(id, request, catalog, sessions);
      RunKeeps(origin, SpawnedMaterialized(Materialized(id, request), catalog, request.prompt, sessions), inputs);
    }
  }
}
