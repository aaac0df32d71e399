/** Deleting a live session: prepared by its actor, removed from the store, then announced, or aborted. */
module Deletions {
  import opened Prelude
  import opened Titles
  import opened Records
  import opened Transcripts
  import opened Repository
  import opened Projections
  import opened Harnesses
  import opened SessionModel
  import opened SessionInvariants
  import opened SessionRuns
  import opened SessionEffects
  import opened SessionTheorems

  // ---------- the announcement ----------

  predicate NoDeletion(log: seq<Event>) {
    forall i :: 0 <= i < |log| ==> !log[i].Deleted?
  }

  lemma StepGrows(w: World, input: Input)
    requires InStep(w) && !w.exited && NoDeletion(w.log)
    ensures !Step(w, input).0.exited ==> NoDeletion(Step(w, input).0.log)
  {
    hide InStep, Handle, OnlyRow, TitleAdvances;
    if input.Receive? || input.CloseReceiver? || input.Elsewhere? {
    } else if input.FinishDelete? {
      FinishHandled(w);
      FinishExits(w);
    } else if MayExit(input) {
      ExitEffects(w, input);
    } else {
      HandleEffects(w, input);
    }
  }

  lemma FinishExits(w: World)
    ensures if w.deleting then DeleteFinished(w).0.exited else DeleteFinished(w) == (w, Refused(ProjectionFailure))
  {
    hide Emit, CloseSenders, ChannelIds;
  }

  lemma ExitIsFinal(w: World, input: Input)
    requires w.exited
    ensures Step(w, input).0.exited
  {
    hide Handle;
  }

  lemma {:induction false} NothingAnnounced(origin: Projection, w: World, inputs: seq<Input>)
    requires Inv(origin, w) && NoDeletion(w.log)
    ensures !Run(w, inputs).exited ==> NoDeletion(Run(w, inputs).log)
  {
    hide Inv, Step, NoDeletion;
    if inputs != [] {
      var before := Run(w, inputs[..|inputs| - 1]);
      RunKeeps(origin, w, inputs[..|inputs| - 1]);
      NothingAnnounced(origin, w, inputs[..|inputs| - 1]);
      if before.exited {
        ExitIsFinal(before, inputs[|inputs| - 1]);
      } else {
        InvGivesInStep(origin, before);
        StepGrows(before, inputs[|inputs| - 1]);
      }
    }
  }

  lemma LiveActorsAreNotDeleted(origin: Projection, w: World)
    requires Reachable(origin, w) && !w.exited
    ensures NoDeletion(w.log)
  {
    hide Inv, Run, Consistent, FromRecord;
    if record: Record, catalog: Catalog, sessions: Sessions, inputs: seq<Input> :|
         StartedOpen(origin, record, catalog, sessions) && w == Run(Opened(record, catalog, sessions), inputs) {
      OpenedStarts(record, catalog, sessions);
      NothingAnnounced(origin, Opened(record, catalog, sessions), inputs);
    } else {
      var id: SessionId, request: Materialize, catalog: Catalog, sessions: Sessions, inputs: seq<Input> :|
        StartedMaterialized(origin, id, request, catalog, sessions)
        && w == Run(SpawnedMaterialized(Materialized(id, request), catalog, request.prompt, sessions), inputs);
      MaterializedStarts(id, request, catalog, sessions);
      NothingAnnounced(origin, SpawnedMaterialized(Materialized(id, request), catalog, request.prompt, sessions), inputs);
    }
  }

  predicate Listening(w: World, o: Observer) {
    o in w.observers && o.channel in w.channels && w.channels[o.channel].receiverOpen
  }

  /** The observer's stream ended with this event, right after what was already queued for it. */
  predicate HearsLast(w: World, after: World, o: Observer, last: Envelope) {
    && o.channel in w.channels && o.channel in after.channels && !after.channels[o.channel].senderOpen
    && after.channels[o.channel].queue == w.channels[o.channel].queue + [last]
  }

  predicate DeletedOnce(queue: seq<Envelope>) {
    && queue != [] && queue[|queue| - 1].event.Deleted?
    && forall i :: 0 <= i < |queue| - 1 ==> !queue[i].event.Deleted?
  }

  /**
    What every observer still listening ends with: exactly one `Deleted`, as its last event, or, once
    sequence numbers have run out, just what was queued for it already.
   */
  ghost predicate HearsDeletion(w: World, after: World) {
    forall o :: Listening(w, o) ==>
      if w.projection.sequence < U64_MAX then
        && HearsLast(w, after, o, Envelope(w.projection.sequence + 1, Deleted(w.record.id)))
        && DeletedOnce(after.channels[o.channel].queue)
      else
        && o.channel in after.channels && !after.channels[o.channel].senderOpen
        && after.channels[o.channel].queue == w.channels[o.channel].queue
  }

  /** Finishing a prepared deletion: the actor is gone, its run was already stopped, and the observers are told. */
  lemma DeletionIsAnnounced(origin: Projection, w: World)
    requires Reachable(origin, w) && !w.exited && w.deleting
    ensures var (after, reply) := Step(w, FinishDelete);
            && reply == Success && after.exited && !after.counted && after.harness.active.None?
            && after.sessions == w.sessions && HearsDeletion(w, after)
  {
    hide Reachable, Inv, Step, NoDeletion, HearsDeletion;
    ReachableIsInvariant(origin, w);
    LiveActorsAreNotDeleted(origin, w);
    AnnouncedOnce(origin, w);
  }

  lemma AnnouncedOnce(origin: Projection, w: World)
    requires Inv(origin, w) && NoDeletion(w.log) && !w.exited && w.deleting
    ensures var (after, reply) := Step(w, FinishDelete);
            && reply == Success && after.exited && !after.counted && after.harness.active.None?
            && after.sessions == w.sessions && HearsDeletion(w, after)
  {
    hide Inv, Handle, Emit, DeleteFinished, NoDeletion;
    FinishHandled(w);
    InvGivesInStep(origin, w);
    if w.projection.sequence < U64_MAX {
      Announced(origin, w);
      var after := DeleteFinished(w).0;
      forall o | Listening(w, o) ensures DeletedOnce(after.channels[o.channel].queue) {
        assert HearsLast(w, after, o, Envelope(w.projection.sequence + 1, Deleted(w.record.id)));
        ListeningSlice(origin, w, o);
        SliceWithoutDeletion(w.log, w.channels[o.channel]);
      }
    } else {
      ClosedUnannounced(w);
    }
  }

  lemma ListeningSlice(origin: Projection, w: World, o: Observer)
    requires Inv(origin, w) && Listening(w, o)
    ensures Slice(w.log, w.channels[o.channel])
  {
    hide LogKept, InStep, Slice, Current;
  }

  lemma ClosedUnannounced(w: World)
    requires InStep(w) && w.deleting && w.projection.sequence == U64_MAX
    ensures var (after, reply) := DeleteFinished(w);
            && reply == Success && after.exited && !after.counted && after.harness.active.None?
            && after.sessions == w.sessions
            && forall o :: Listening(w, o) ==>
                 && o.channel in after.channels && !after.channels[o.channel].senderOpen
                 && after.channels[o.channel].queue == w.channels[o.channel].queue
  {
    hide Aligned, WrittenBehind, Reduce;
  }

  lemma SliceWithoutDeletion(log: seq<Event>, channel: Channel)
    requires Slice(log, channel) && NoDeletion(log)
    ensures forall i :: 0 <= i < |channel.queue| ==> !channel.queue[i].event.Deleted?
  {
  }

  lemma Announced(origin: Projection, w: World)
    requires Inv(origin, w) && !w.exited && w.deleting && w.projection.sequence < U64_MAX
    ensures var (after, reply) := DeleteFinished(w);
            && reply == Success && after.exited && !after.counted && after.harness.active.None?
            && after.sessions == w.sessions
            && forall o :: Listening(w, o) ==>
                 HearsLast(w, after, o, Envelope(w.projection.sequence + 1, Deleted(w.record.id)))
  {
    hide LogKept, Aligned, RowAgrees, Emit, Slice, Current;
    var event := Deleted(w.record.id);
    var told := Emit(w, event, 0);
    SequenceIsLength(origin, w);
    EmitEffect(w, event, 0);
    FinalEmit(w, event);
    EmitUnfolds(w, event, 0);
    hide Deliver, Survivors;
    var after := DeleteFinished(w).0;
    forall o | Listening(w, o) ensures HearsLast(w, after, o, Envelope(w.projection.sequence + 1, event)) {
      assert o in told.observers;
      assert o.channel in ChannelIds(told.observers);
      DeliverKeys(w.channels, ChannelIds(w.observers), Envelope(w.projection.sequence + 1, event), 0);
    }
  }

  // ---------- nothing comes back ----------

  /** Once the row is gone, nothing this actor does brings the identity back, and neither may others. */
  lemma DeletedStaysDeleted(origin: Projection, w: World, inputs: seq<Input>)
    requires Inv(origin, w) && !w.exited && w.record.id !in w.sessions
    ensures Live(w, inputs).record.id == w.record.id && w.record.id !in Live(w, inputs).sessions
    decreases |inputs|
  {
    LiveKeeps(origin, w, inputs);
  }

  // ---------- preparing, and reloading after an abort ----------

  /** Preparation is refused, without any effect, exactly while the actor is deleting or shutting down. */
  lemma PreparationGuard(origin: Projection, w: World, jobsStop: bool, refuse: bool)
    requires Inv(origin, w) && !w.exited
    ensures var (after, reply) := Step(w, PrepareDelete(jobsStop, refuse));
            && ((w.deleting || w.shuttingDown) ==>
                  after == w && reply == Refused(if w.deleting then Deleting else ActorUnavailable))
            && (!w.deleting && !w.shuttingDown ==> after.deleting && after.harness.active.None?)
  {
    hide LogKept, StreamsKept, Aligned, RowAgrees, DeletePrepared, StopForDelete;
    PrepareDeleteKeeps(origin, w, jobsStop, refuse);
  }

  /** A record whose plan may have changed, and nothing else. */
  predicate SameButPlan(base: Record, r: Record) {
    r == base.(plan := r.plan)
  }

  /** While deletion is pending the record and its row change in nothing but the plan. */
  predicate Quiesced(base: Record, w: World) {
    && w.deleting && w.harness.active.None? && SameButPlan(base, w.record)
    && (w.record.id in w.sessions ==> SameButPlan(base, w.sessions[w.record.id]))
  }

  lemma PlanStaysQuiesced(base: Record, w: World, plan: seq<PlanItem>, refuse: bool)
    requires Quiesced(base, w)
    ensures Quiesced(base, PlanReplaced(w, plan, refuse).0)
  {
    hide Emit, Storable;
    if w.projection.sequence != U64_MAX {
      var planned := w.(record := w.record.(plan := plan));
      EmitEffect(planned, PlanChanged(plan), TERMINAL_EVENT_RESERVE);
      var emitted := Emit(planned, PlanChanged(plan));
      var written := Checkpoint(emitted.sessions, emitted.record, refuse);
      SettleTouches(emitted, written);
    }
  }

  lemma SettleTouches(w: World, written: Result<Sessions, StoreError>)
    ensures var after := Settle(w, written);
            && after.record == w.record && after.harness == w.harness && after.deleting == w.deleting
            && after.sessions == if written.Ok? then written.value else w.sessions
  {
    hide Emit;
    match written
    case Ok(sessions) => EmitEffect(w.(sessions := sessions, dirty := None), PersistenceWarning(None), 1);
    case Err(e) => EmitEffect(w.(dirty := Some(w.record)), PersistenceWarning(Some(Describe(e))), 1);
  }

  lemma {:induction false} StaysQuiesced(base: Record, w: World, inputs: seq<Input>)
    requires !w.exited && Quiesced(base, w)
    ensures Quiesced(base, Live(w, inputs))
  {
    hide Quiesced, Step;
    if inputs != [] {
      var before := Live(w, inputs[..|inputs| - 1]);
      StaysQuiesced(base, w, inputs[..|inputs| - 1]);
      if !before.exited {
        StepStaysQuiesced(base, before, inputs[|inputs| - 1]);
      }
    }
  }

  lemma StepStaysQuiesced(base: Record, w: World, input: Input)
    requires !w.exited && Quiesced(base, w)
    ensures Quiesced(base, Step(w, input).0)
  {
    hide Handle, Quiesced;
    if input.Receive? || input.CloseReceiver? || input.Elsewhere? {
      SurroundingsStayQuiesced(base, w, input);
    } else {
      HandleStaysQuiesced(base, w, input);
    }
  }

  lemma SurroundingsStayQuiesced(base: Record, w: World, input: Input)
    requires !w.exited && Quiesced(base, w) && (input.Receive? || input.CloseReceiver? || input.Elsewhere?)
    ensures Quiesced(base, Step(w, input).0)
  {
    hide Handle, SameButPlan;
  }

  /** A prepared actor stays prepared until it leaves. */
  lemma StaysStopped(w: World, input: Input)
    requires !w.exited && w.deleting && w.harness.active.None?
    ensures Step(w, input).0.deleting && Step(w, input).0.harness.active.None?
  {
    if Ignored(input) {
      hide Handle;
      DeletingIgnores(w, input);
    } else {
      OthersStayStopped(w, input);
    }
  }

  lemma OthersStayStopped(w: World, input: Input)
    requires !w.exited && w.deleting && w.harness.active.None? && !Ignored(input)
    ensures Step(w, input).0.deleting && Step(w, input).0.harness.active.None?
  {
    hide PlanReplaced, CloseSenders, ChannelIds, Remaining, DeleteFinished, AttachObserver, Submitted, Renamed, TitleGenerated, DeletePrepared, CancelRun, Flushed;
    hide ModelSelected, ReasoningSelected, EngineStep, Emit;
    match input
    case PlanUpdate(plan, refuse) => PlanStaysStopped(w, plan, refuse);
    case FinishDelete => FinishQuiesced(w);
    case _ =>
  }

  lemma PlanStaysStopped(w: World, plan: seq<PlanItem>, refuse: bool)
    ensures var after := PlanReplaced(w, plan, refuse).0;
            after.deleting == w.deleting && after.harness == w.harness
  {
    hide Emit, Storable;
    if w.projection.sequence != U64_MAX {
      var planned := w.(record := w.record.(plan := plan));
      EmitEffect(planned, PlanChanged(plan), TERMINAL_EVENT_RESERVE);
      var emitted := Emit(planned, PlanChanged(plan));
      SettleTouches(emitted, Checkpoint(emitted.sessions, emitted.record, refuse));
    }
  }

  /** A deleting actor refuses everything but observers, plan updates and its end. */
  lemma HandleStaysQuiesced(base: Record, w: World, input: Input)
    requires !w.exited && Quiesced(base, w)
    ensures Quiesced(base, Handle(w, input).0)
  {
    hide Handle, Quiesced;
    QuiescedIsIdle(base, w);
    if Ignored(input) {
      DeletingIgnores(w, input);
    } else {
      OthersStayQuiesced(base, w, input);
    }
  }

  lemma OthersStayQuiesced(base: Record, w: World, input: Input)
    requires !w.exited && Quiesced(base, w) && !Ignored(input)
    ensures Quiesced(base, Handle(w, input).0)
  {
    hide PlanReplaced, CloseSenders, ChannelIds, Remaining, DeleteFinished, SameButPlan, AttachObserver, Submitted, Renamed, TitleGenerated, DeletePrepared, CancelRun, Flushed;
    hide ModelSelected, ReasoningSelected, EngineStep, Emit;
    match input
    case PlanUpdate(plan, refuse) => PlanStaysQuiesced(base, w, plan, refuse);
    case FinishDelete => FinishQuiesced(w);
    case _ =>
  }

  lemma QuiescedIsIdle(base: Record, w: World)
    requires Quiesced(base, w)
    ensures w.deleting && w.harness.active.None?
  {
    hide SameButPlan;
  }

  lemma FinishQuiesced(w: World)
    ensures var after := DeleteFinished(w).0;
            after.record == w.record && after.sessions == w.sessions && after.deleting == w.deleting
            && after.harness == w.harness
  {
    hide Emit, CloseSenders, ChannelIds;
    EmitEffect(w, Deleted(w.record.id), 0);
  }

  /**
    If preparation succeeded but the session was not removed after all, whatever happened meanwhile,
    reloading it changes nothing, and a run that was active shows as cancelled, not as interrupted.
   */
  lemma AbortedDeletionReloadsCancelled(
    origin: Projection, w: World, jobsStop: bool, refuse: bool, between: seq<Input>)
    requires Inv(origin, w) && !w.exited && Step(w, PrepareDelete(jobsStop, refuse)).1 == Success
    ensures var after := Live(Step(w, PrepareDelete(jobsStop, refuse)).0, between);
            var id := w.record.id;
            id in after.sessions ==>
              && Load(after.sessions, id, false) == Ok(after.sessions[id])
              && (w.harness.active.Some? ==> EndsCancelled(w.record, after.sessions[id].(plan := w.record.plan)))
              && (w.harness.active.None? ==> SameButPlan(w.record, after.sessions[id]))
  {
    hide LogKept, StreamsKept, Inv, Live, Aligned, WrittenBehind, DeletePrepared, Interrupt, StopForDelete;
    hide EndsCancelled, Consistent;
    var prepared := Step(w, PrepareDelete(jobsStop, refuse)).0;
    PreparationWrites(origin, w, jobsStop, refuse);
    var base := prepared.record;
    StaysQuiesced(base, prepared, between);
    PrepareDeleteKeeps(origin, w, jobsStop, refuse);
    var after := Live(prepared, between);
    if w.record.id in after.sessions {
      var row := after.sessions[w.record.id];
      InterruptIgnoresPlan(base, row);
    }
  }

  lemma InterruptIgnoresPlan(base: Record, row: Record)
    requires SameButPlan(base, row) && Consistent(base) && !Open(base)
    ensures Interrupt(row) == row
  {
    hide Grammar, History;
    RunningIsLast(base, 0);
    SettledHasNoIds(row.turns);
    assert row.transcript + [] == row.transcript;
  }

  lemma PreparationWrites(origin: Projection, w: World, jobsStop: bool, refuse: bool)
    requires Inv(origin, w) && !w.exited && DeletePrepared(w, jobsStop, refuse).1 == Success
    ensures var prepared := DeletePrepared(w, jobsStop, refuse).0;
            && Quiesced(prepared.record, prepared) && !prepared.exited && Storable(prepared.record)
            && Consistent(prepared.record) && !Open(prepared.record) && prepared.record.id == w.record.id
            && (w.harness.active.Some? ==>
                  forall r :: SameButPlan(prepared.record, r) ==> EndsCancelled(w.record, r.(plan := w.record.plan)))
            && (w.harness.active.None? ==> prepared.record == w.record)
  {
    hide LogKept, StreamsKept, RowAgrees, Emit, StopForDelete, Storable, Consistent, Open;
    PrepareDeleteKeeps(origin, w, jobsStop, refuse);
    StopForDeleteKeeps(origin, w);
    PreparedIsSettled(w, jobsStop, refuse);
    var stopped := StopForDelete(w.(deleting := true)).0;
    SettleTouches(stopped, Checkpoint(stopped.sessions, stopped.record, refuse));
  }
}
