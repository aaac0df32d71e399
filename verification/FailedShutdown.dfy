/** What a failed shutdown can lead to: two owners of one session, and a title lost between them. */
module FailedShutdowns {
  import opened Prelude
  import opened Titles
  import opened Records
  import opened Transcripts
  import opened Repository
  import opened Projections
  import opened SessionModel
  import opened SessionInvariants
  import opened SessionRuns
  import opened Backends
  import opened Openings
  import opened Removals
  import opened Shutdowns
  import opened ManagerRuns

  // ---------- and after one has ----------

  /**
    After a failed shutdown, deleting a session and opening it again gives it two running actors: the
    deletion is refused, the refusing actor is forgotten without being stopped, and the next open loads
    the session a second time.
   */
  lemma FailedShutdownAllowsTwoOwners(
    b: Backend, id: SessionId, d: Deletion, client: Client, catalog: Catalog)
    requires Global(b) && RefusesToLeave(b, id)
    requires Load(Delete(b, id, d).0.sessions, id, false).Ok?
    ensures TwoOwners(OpenOrAttach(Delete(b, id, d).0, id, client, catalog, false, true).0, b.registry[id], |b.instances|)
  {
    hide Global, Inv, Delete, Step;
    RegisteredOwner(b, id);
    DeleteOrphans(b, id, d);
    OrphanOwner(b, id, d);
    var after := Delete(b, id, d).0;
    var record := Load(after.sessions, id, false).value;
    var loaded := after.(sessions := after.sessions[id := record]);
    var world := Opened(record, catalog, loaded.sessions);
    var spawned := Spawned(loaded, id, Instance(FromRecord(record, catalog), world));
    LoadedKeepsId(b, id, d);
    AttachStays(Seen(spawned, |b.instances|), client);
  }

  lemma OrphanOwner(b: Backend, id: SessionId, d: Deletion)
    requires Global(b) && RefusesToLeave(b, id)
    ensures |Delete(b, id, d).0.instances| == |b.instances|
    ensures Delete(b, id, d).0.instances[b.registry[id]].world.record.id == id
    ensures id in Delete(b, id, d).0.sessions ==> Delete(b, id, d).0.sessions[id].id == id
  {
    hide Sound, Step, Meanwhile, Owned;
    OrphanIs(b, id, d);
    var prepared := Meanwhile(Ask(b, b.registry[id], PrepareDelete(d.jobsStop, d.refuse)).0, d.first);
    GlobalIsOrderly(prepared);
    OrderlyRow(prepared.sessions, prepared.lastId, id);
  }

  lemma LoadedKeepsId(b: Backend, id: SessionId, d: Deletion)
    requires Global(b) && RefusesToLeave(b, id) && Load(Delete(b, id, d).0.sessions, id, false).Ok?
    ensures Load(Delete(b, id, d).0.sessions, id, false).value.id == id
  {
    hide Global, Delete;
    OrphanOwner(b, id, d);
    InterruptKeepsId(Delete(b, id, d).0.sessions[id]);
  }

  lemma AttachStays(w: World, client: Client)
    requires !w.exited
    ensures var after := Step(w, Attach(client.connection, client.attachment, client.channel, client.jobs)).0;
            !after.exited && after.record == w.record
  {
  }

  /** The premise is met by any registered session whose jobs refuse to stop once: its actor then refuses to leave. */
  lemma JobsCanMakeAnActorRefuse(b: Backend, id: SessionId)
    requires Global(b) && id in b.registry && !b.instances[b.registry[id]].world.deleting
    ensures var (after, error) := ShutDownEach(b, [id], {id}, {});
            error.Some? && Global(after) && RefusesToLeave(after, id)
  {
    hide Inv, Sound, Owned, Flushed;
    GlobalIsOrderly(b);
    RegisteredOwner(b, id);
    var k := b.registry[id];
    StoppingKeeps(b, [id], {id}, {});
    assert [id][..0] == [];
    assert ShutDownEach(b, [id][..0], {id}, {}) == (b, None);
    InvAt(b, k);
    ShutdownOutcome(b.instances[k].origin, Seen(b, k), false, false);
    ShutdownNeedsJobs(b.instances[k].origin, Seen(b, k));
  }

  lemma ShutdownNeedsJobs(origin: Projection, w: World)
    requires Inv(origin, w) && !w.exited && !w.deleting
    ensures var (after, reply) := Step(w, Shutdown(false, false));
            reply.Refused? && after.shuttingDown && !after.deleting && !after.exited
  {
    hide LogKept, StreamsKept, Aligned, WrittenBehind, Flushed, CloseSenders, ChannelIds;
    FlagsKeep(origin, w, w.(shuttingDown := true));
    FlushKeeps(origin, w.(shuttingDown := true), false);
    FlushKeepsFlags(w.(shuttingDown := true), false);
    FlushedReply(w.(shuttingDown := true), false);
  }

  // ---------- a run that does it ----------

  const PLAIN: Settings := Settings("m", Medium, 0)
  const VISITOR: Client := Client(0, 1, 0, Some([]))

  const CREATING: ManagerMove :=
    Creating([], "x", PLAIN, 0, Loading, VISITOR, Conditions(false, None, false, false))
  const STOPPING: ManagerMove := Stopping([1], {1}, {})
  const REMOVING: ManagerMove := Removing(1, Deletion(true, false, [], false, []))
  const OPENING: ManagerMove := Opening(1, VISITOR, Loading, false, true)

  lemma CreatedOnce()
    ensures Global(EMPTY)
    ensures var b := Managed(EMPTY, CREATING);
            && Global(b) && 1 in b.registry && b.registry[1] == 0 && |b.instances| == 1
            && !b.instances[0].world.deleting && b.instances[0].world.dirty == None
            && Load(b.sessions, 1, false).Ok?
  {
    EmptyIsGlobal();
    hide FallbackTitle, Global, Materialized, SpawnedMaterialized, Load, Step, Blank, Create, ValidateSettings;
    XIsNotBlank();
    CreateKeeps(EMPTY, [], "x", PLAIN, 0, Loading, VISITOR, Conditions(false, None, false, false));
    CreateStarts(EMPTY, "x", PLAIN, VISITOR);
    var request := Materialize([], FallbackTitle("x"), PLAIN, "x", 0, 0);
    var record := Materialized(1, request);
    assert EMPTY.sessions[1 := record] == map[1 := record];
    FreshWorld(record, Loading, "x", map[1 := record]);
    VisitOnce(SpawnedMaterialized(record, Loading, "x", map[1 := record]));
    LoadsOnce(request);
  }

  /** Without failures, creating stores the record and attaches to the actor spawned on it. */
  lemma CreateStarts(b: Backend, prompt: string, settings: Settings, client: Client)
    requires !Blank(prompt) && settings.contextTokens <= I64_MAX && 0 <= b.lastId < I64_MAX
    ensures var id: SessionId := b.lastId + 1;
            var record := Materialized(id, Materialize([], FallbackTitle(prompt), settings, prompt, 0, 0));
            var stored := b.(sessions := b.sessions[id := record], lastId := id);
            var world := SpawnedMaterialized(record, Loading, prompt, stored.sessions);
            Create(b, [], prompt, settings, 0, Loading, client, Conditions(false, None, false, false)).0 ==
            AttachTo(Spawned(stored, id, Instance(world.projection, world)), |b.instances|, client).0
  {
    hide FallbackTitle, Materialized, SpawnedMaterialized, AttachTo, Blank;
  }

  lemma XIsNotBlank()
    ensures !Blank("x")
  {
  }

  /** Attaching changes only the observers. */
  lemma VisitOnce(w: World)
    requires !w.exited && !w.deleting && w.channels == map[]
    ensures var after := Step(w, Attach(VISITOR.connection, VISITOR.attachment, VISITOR.channel, VISITOR.jobs)).0;
            && after.sessions == w.sessions && after.dirty == w.dirty && after.deleting == w.deleting
            && after.shuttingDown == w.shuttingDown
  {
  }

  lemma LoadsOnce(request: Materialize)
    ensures Load(map[1 := Materialized(1, request)], 1, false).Ok?
  {
    hide Grammar, History;
    MaterializedIsConsistent(1, request);
    InterruptionRecovers(Materialized(1, request));
  }

  lemma StoppedOnce(b: Backend)
    requires Global(b) && 1 in b.registry && b.registry[1] == 0 && |b.instances| == 1
    requires !b.instances[0].world.deleting && b.instances[0].world.dirty == None
    ensures var after := Managed(b, STOPPING);
            && Global(after) && RefusesToLeave(after, 1) && after.sessions == b.sessions
            && after.registry == b.registry && |after.instances| == 1
  {
    hide Global, Emit, CloseSenders, ChannelIds;
    JobsCanMakeAnActorRefuse(b, 1);
    RegisteredOwner(b, 1);
    assert [1][..0] == [];
    assert ShutDownEach(b, [1][..0], {1}, {}) == (b, None);
  }

  lemma RemovedOnce(b: Backend)
    requires Global(b) && RefusesToLeave(b, 1)
    ensures Delete(b, 1, Deletion(true, false, [], false, [])).0.sessions == b.sessions
  {
    hide Global, DeletePrepared;
    RegisteredOwner(b, 1);
    RefusalChangesNothing(b, 1, true, false);
    var asked := Ask(b, b.registry[1], PrepareDelete(true, false)).0;
    assert Meanwhile(asked, []) == asked;
    AbortRefused(Seen(asked, b.registry[1]));
  }

  /** Create a session, fail to shut down because its jobs do not stop, delete it, and open it again. */
  lemma TwoOwnersAreReachable()
    ensures TwoOwners(RunManager(EMPTY, [CREATING, STOPPING, REMOVING, OPENING]), 0, 1)
  {
    hide Global, Create, ShutDownEach, Delete, OpenOrAttach, RefusesToLeave, TwoOwners, Load;
    var moves := [CREATING, STOPPING, REMOVING, OPENING];
    assert moves[..3] == [CREATING, STOPPING, REMOVING];
    assert moves[..3][..2] == [CREATING, STOPPING];
    assert moves[..3][..2][..1] == [CREATING];
    assert moves[..3][..2][..1][..0] == [];
    CreatedOnce();
    var created := Managed(EMPTY, CREATING);
    StoppedOnce(created);
    var stopped := Managed(created, STOPPING);
    RemovedOnce(stopped);
    LoadAgain(created, stopped);
    FailedShutdownAllowsTwoOwners(stopped, 1, REMOVING.deletion, VISITOR, Loading);
    assert RunManager(EMPTY, [CREATING]) == created;
    assert RunManager(EMPTY, [CREATING, STOPPING]) == stopped;
    var removed := Managed(stopped, REMOVING);
    assert RunManager(EMPTY, [CREATING, STOPPING, REMOVING]) == removed;
    OrphanForgotten(stopped);
    assert RunManager(EMPTY, moves) == Managed(removed, OPENING);
  }

  lemma LoadAgain(a: Backend, b: Backend)
    requires a.sessions == b.sessions
    ensures Load(a.sessions, 1, false) == Load(b.sessions, 1, false)
  {
  }

  lemma OrphanForgotten(b: Backend)
    requires Global(b) && RefusesToLeave(b, 1)
    ensures Managed(Managed(b, REMOVING), OPENING) == OpenOrAttach(Managed(b, REMOVING), 1, VISITOR, Loading, false, true).0
  {
    hide Delete, Global;
    DeleteOrphans(b, 1, REMOVING.deletion);
  }

  // ---------- what two owners do to a title ----------

  lemma RenameTakes(w: World, title: SessionTitle)
    requires !w.exited && !w.deleting && !w.shuttingDown && w.record.id <= I64_MAX && w.record.id in w.sessions
    requires w.sessions[w.record.id].titleRevision < I64_MAX
    ensures var row := w.sessions[w.record.id];
            Step(w, RenameTo(title, false)).0.sessions ==
            w.sessions[w.record.id := row.(title := title, titleSource := Manual, titleRevision := row.titleRevision + 1)]
  {
    hide Emit;
    var r := Rename(w.sessions, w.record.id, title, false).value;
    var renamed := w.(sessions := w.sessions[w.record.id := r]);
    var record := w.record.(title := r.title, titleSource := r.titleSource, titleRevision := r.titleRevision);
    EmitKeepsRest(renamed.(record := record, dirty := if w.dirty.Some? then Some(record) else None),
                  TitleChanged(r.title, r.titleRevision));
  }

  lemma EmitKeepsRest(w: World, event: Event)
    ensures Emit(w, event).sessions == w.sessions && Emit(w, event).record == w.record
  {
    hide Emit, ValidateEvent;
    if ValidateEvent(w.projection, event).None? {
      EmitEffect(w, event, TERMINAL_EVENT_RESERVE);
    } else {
      EmitRefused(w, event);
    }
  }

  lemma CheckpointWrites(sessions: Sessions, r: Record)
    requires Storable(r) && r.id in sessions
    ensures Checkpoint(sessions, r, false) ==
      Ok(sessions[r.id := r.(cwd := sessions[r.id].cwd, createdAt := sessions[r.id].createdAt)])
  {
  }

  /** A plan update writes the whole record, its title included. */
  lemma PlanWrites(w: World, plan: seq<PlanItem>)
    requires !w.exited && w.projection.sequence < U64_MAX && w.record.id in w.sessions
    requires Storable(w.record.(plan := plan))
    ensures var after := Step(w, PlanUpdate(plan, false)).0.sessions;
            && w.record.id in after
            && after[w.record.id].title == w.record.title && after[w.record.id].titleSource == w.record.titleSource
            && after[w.record.id].titleRevision == w.record.titleRevision
  {
    hide Emit, Storable, Checkpoint;
    var emitted := Emit(w.(record := w.record.(plan := plan)), PlanChanged(plan));
    EmitKeepsRest(w.(record := w.record.(plan := plan)), PlanChanged(plan));
    CheckpointWrites(emitted.sessions, emitted.record);
    var written := Checkpoint(emitted.sessions, emitted.record, false);
    EmitKeepsRest(emitted.(sessions := written.value, dirty := None), PersistenceWarning(None));
  }

  /**
    A user renames a session that has two owners: the registered one stores the title, and the next plan
    update of the other puts its old title back.
   */
  lemma TwoOwnersLoseARename(b: Backend, j: nat, title: SessionTitle, plan: seq<PlanItem>)
    requires j < |b.instances|
    requires var id := b.instances[j].world.record.id;
             && id in b.registry && TwoOwners(b, j, b.registry[id]) && id <= I64_MAX
             && var own := b.instances[b.registry[id]].world;
                !own.deleting && !own.shuttingDown
    requires var w := b.instances[j].world;
             && w.record.id in b.sessions && w.record.titleRevision <= b.sessions[w.record.id].titleRevision < I64_MAX
             && w.projection.sequence < U64_MAX && Storable(w.record.(plan := plan))
    ensures var w := b.instances[j].world;
            var renamed := Managed(b, Renaming(w.record.id, title, false));
            var after := Managed(renamed, Acting([(j, PlanUpdate(plan, false))]));
            && w.record.id in renamed.sessions && w.record.id in after.sessions
            && renamed.sessions[w.record.id].title == title && renamed.sessions[w.record.id].titleSource == Manual
            && after.sessions[w.record.id].title == w.record.title
            && !TitleAdvances(renamed.sessions[w.record.id], after.sessions[w.record.id])
  {
    hide Step, Storable;
    var w := b.instances[j].world;
    var k := b.registry[w.record.id];
    RenameTakes(Seen(b, k), title);
    var renamed := Managed(b, Renaming(w.record.id, title, false));
    assert renamed.instances[j] == b.instances[j];
    PlanWrites(Seen(renamed, j), plan);
    var steps: seq<(nat, Input)> := [(j, PlanUpdate(plan, false))];
    assert steps[..|steps| - 1] == [] && Meanwhile(renamed, []) == renamed;
    assert Meanwhile(renamed, steps) == Ask(renamed, j, PlanUpdate(plan, false)).0;
  }

  /** What this run keeps of its first actor and of the row. */
  predicate FirstOwner(b: Backend) {
    && |b.instances| > 0
    && var w := b.instances[0].world;
       && w.record.id == 1 && w.record.titleRevision == 0 && w.projection.sequence == 0
       && Storable(w.record.(plan := []))
       && 1 in b.sessions && b.sessions[1].titleRevision == 0
  }

  lemma FirstOwnerCreated()
    ensures FirstOwner(Managed(EMPTY, CREATING))
  {
    hide FallbackTitle, Materialized, SpawnedMaterialized, Step, Blank, Create, ValidateSettings, Storable, AttachTo;
    XIsNotBlank();
    CreateStarts(EMPTY, "x", PLAIN, VISITOR);
    var request := Materialize([], FallbackTitle("x"), PLAIN, "x", 0, 0);
    var record := Materialized(1, request);
    var world := SpawnedMaterialized(record, Loading, "x", map[1 := record]);
    assert EMPTY.sessions[1 := record] == map[1 := record];
    FirstWorld(request);
    FreshWorld(record, Loading, "x", map[1 := record]);
    AttachedAlone(EMPTY.(sessions := map[1 := record], lastId := 1), world);
  }

  lemma AttachedAlone(b: Backend, world: World)
    requires b.instances == [] && world.sessions == b.sessions
    ensures var after := AttachTo(Spawned(b, 1, Instance(world.projection, world)), 0, VISITOR).0;
            var visited := Step(world, Attach(VISITOR.connection, VISITOR.attachment, VISITOR.channel, VISITOR.jobs)).0;
            |after.instances| == 1 && after.instances[0].world == visited && after.sessions == visited.sessions
  {
    hide Step;
    assert Seen(Spawned(b, 1, Instance(world.projection, world)), 0) == world;
  }

  lemma FirstWorld(request: Materialize)
    requires request.settings == PLAIN && request.runId == 0
    ensures var record := Materialized(1, request);
            var w := SpawnedMaterialized(record, Loading, request.prompt, map[1 := record]);
            var after := Step(w, Attach(VISITOR.connection, VISITOR.attachment, VISITOR.channel, VISITOR.jobs)).0;
            && after.record == record && after.projection == w.projection && after.sessions == map[1 := record]
            && record.id == 1 && record.titleRevision == 0 && w.projection.sequence == 0
            && Storable(record.(plan := []))
  {
  }

  lemma FirstOwnerStopped(b: Backend)
    requires Global(b) && FirstOwner(b) && 1 in b.registry && b.registry[1] == 0
    requires !b.instances[0].world.deleting && b.instances[0].world.dirty == None
    ensures FirstOwner(Managed(b, STOPPING))
  {
    hide Global, Storable, Emit, CloseSenders, ChannelIds;
    RegisteredOwner(b, 1);
    assert [1][..0] == [];
    assert ShutDownEach(b, [1][..0], {1}, {}) == (b, None);
  }

  lemma FirstOwnerOrphaned(b: Backend)
    requires Global(b) && RefusesToLeave(b, 1) && FirstOwner(b) && b.registry[1] == 0
    ensures FirstOwner(Managed(b, REMOVING))
  {
    hide Global, Storable, DeletePrepared;
    RegisteredOwner(b, 1);
    RefusalChangesNothing(b, 1, true, false);
    var asked := Ask(b, 0, PrepareDelete(true, false)).0;
    assert Meanwhile(asked, []) == asked;
    AbortRefused(Seen(asked, 0));
  }

  /** Opening spawns a second actor, which accepts commands, and leaves the first as it was. */
  lemma FirstOwnerJoined(b: Backend)
    requires FirstOwner(b) && 1 !in b.registry && |b.instances| == 1 && Load(b.sessions, 1, false).Ok?
    ensures var after := Managed(b, OPENING);
            && FirstOwner(after) && 1 in after.registry && after.registry[1] == 1 && |after.instances| == 2
            && !after.instances[1].world.deleting && !after.instances[1].world.shuttingDown
  {
    hide Storable, Step, InterruptTurns, Consistent;
    var record := Load(b.sessions, 1, false).value;
    var loaded := b.(sessions := b.sessions[1 := record]);
    var world := Opened(record, Loading, loaded.sessions);
    var spawned := Spawned(loaded, 1, Instance(FromRecord(record, Loading), world));
    VisitOnce(Seen(spawned, 1));
  }

  /**
    A run on which a user's title is lost: create a session, fail to shut down because its jobs
    do not stop, delete it, open it again, rename it, and let the first actor's run update the plan.
   */
  lemma ALostRenameIsReachable()
    ensures var renamed := RunManager(EMPTY, [CREATING, STOPPING, REMOVING, OPENING, Renaming(1, "y", false)]);
            var after := Managed(renamed, Acting([(0, PlanUpdate([], false))]));
            && 1 in renamed.sessions && 1 in after.sessions
            && renamed.sessions[1].title == "y" && renamed.sessions[1].titleSource == Manual
            && !TitleAdvances(renamed.sessions[1], after.sessions[1])
  {
    hide Managed, Global, RefusesToLeave, TwoOwners, Load, FirstOwner, Storable, TitleAdvances;
    CreatedOnce();
    FirstOwnerCreated();
    var created := Managed(EMPTY, CREATING);
    StoppedOnce(created);
    FirstOwnerStopped(created);
    var stopped := Managed(created, STOPPING);
    LoadAgain(created, stopped);
    RemovedForgets(stopped);
    FirstOwnerOrphaned(stopped);
    var removed := Managed(stopped, REMOVING);
    LoadAgain(stopped, removed);
    FirstOwnerJoined(removed);
    var joined := Managed(removed, OPENING);
    TwoOwnersAreReachable();
    ConcreteRun();
    FirstOwnerCanWrite(joined);
  }

  lemma FirstOwnerCanWrite(b: Backend)
    requires FirstOwner(b) && TwoOwners(b, 0, 1) && 1 in b.registry && b.registry[1] == 1
    requires !b.instances[1].world.deleting && !b.instances[1].world.shuttingDown
    ensures var renamed := Managed(b, Renaming(1, "y", false));
            var after := Managed(renamed, Acting([(0, PlanUpdate([], false))]));
            && 1 in renamed.sessions && 1 in after.sessions
            && renamed.sessions[1].title == "y" && renamed.sessions[1].titleSource == Manual
            && !TitleAdvances(renamed.sessions[1], after.sessions[1])
  {
    hide Managed, Storable, TitleAdvances;
    TwoOwnersLoseARename(b, 0, "y", []);
  }

  lemma RemovedForgets(b: Backend)
    requires Global(b) && RefusesToLeave(b, 1) && |b.instances| == 1
    ensures var after := Managed(b, REMOVING);
            1 !in after.registry && |after.instances| == 1 && after.sessions == b.sessions
  {
    hide Global, Delete, RefusesToLeave;
    DeleteOrphans(b, 1, REMOVING.deletion);
    OrphanOwner(b, 1, REMOVING.deletion);
    RemovedOnce(b);
  }

  lemma ConcreteRun()
    ensures var moves := [CREATING, STOPPING, REMOVING, OPENING];
            RunManager(EMPTY, moves) == Managed(Managed(Managed(Managed(EMPTY, CREATING), STOPPING), REMOVING), OPENING)
    ensures RunManager(EMPTY, [CREATING, STOPPING, REMOVING, OPENING, Renaming(1, "y", false)]) ==
            Managed(RunManager(EMPTY, [CREATING, STOPPING, REMOVING, OPENING]), Renaming(1, "y", false))
  {
    hide Managed;
    var moves := [CREATING, STOPPING, REMOVING, OPENING];
    var longer := [CREATING, STOPPING, REMOVING, OPENING, Renaming(1, "y", false)];
    assert longer[..4] == moves;
    assert moves[..3] == [CREATING, STOPPING, REMOVING];
    assert moves[..3][..2] == [CREATING, STOPPING];
    assert moves[..3][..2][..1] == [CREATING];
    assert moves[..3][..2][..1][..0] == [];
    assert RunManager(EMPTY, [CREATING]) == Managed(EMPTY, CREATING);
    assert RunManager(EMPTY, [CREATING, STOPPING]) == Managed(Managed(EMPTY, CREATING), STOPPING);
    assert RunManager(EMPTY, [CREATING, STOPPING, REMOVING]) == Managed(Managed(Managed(EMPTY, CREATING), STOPPING), REMOVING);
    assert RunManager(EMPTY, moves) == Managed(RunManager(EMPTY, [CREATING, STOPPING, REMOVING]), OPENING);
  }
}
