/** Titles and identities over every run of the manager. */
module ManagerTitles {
  import opened Prelude
  import opened Titles
  import opened Records
  import opened Transcripts
  import opened Repository
  import opened Projections
  import opened SessionModel
  import opened SessionInvariants
  import opened SessionRuns
  import opened SessionTheorems
  import opened Backends
  import opened Openings
  import opened Removals
  import opened Shutdowns
  import opened ManagerRuns

  // ---------- titles over every run ----------

  /** Identities are never reused, and every session that is still stored has a title that moved forward. */
  predicate Forward(b: Backend, c: Backend) {
    && b.lastId <= c.lastId
    && forall id :: id in c.sessions ==> RowForward(b.sessions, c.sessions, id) || id > b.lastId
  }

  predicate RowForward(before: Sessions, after: Sessions, id: SessionId) {
    id in after ==> id in before && TitleAdvances(before[id], after[id])
  }

  lemma ForwardChain(b: Backend, c: Backend, d: Backend)
    requires Forward(b, c) && Forward(c, d)
    ensures Forward(b, d)
  {
    hide TitleAdvances;
    forall id | id in d.sessions ensures RowForward(b.sessions, d.sessions, id) || id > b.lastId {
      if RowForward(c.sessions, d.sessions, id) && id <= b.lastId {
        assert RowForward(b.sessions, c.sessions, id);
        TitleChain(b.sessions[id], c.sessions[id], d.sessions[id]);
      }
    }
  }

  predicate OthersStay(before: Sessions, after: Sessions, own: SessionId) {
    forall id :: id in after && id != own ==> id in before && after[id] == before[id]
  }

  /** Only one session's row changes, and its title moves forward unless it is a new session's. */
  lemma OneRowForward(b: Backend, c: Backend, own: SessionId)
    requires b.lastId <= c.lastId && OthersStay(b.sessions, c.sessions, own)
    requires RowForward(b.sessions, c.sessions, own) || own > b.lastId
    ensures Forward(b, c)
  {
    forall id | id in c.sessions ensures RowForward(b.sessions, c.sessions, id) || id > b.lastId {
      if id != own {
        TitleStays(b.sessions[id], c.sessions[id]);
      }
    }
  }

  lemma SameRows(b: Backend, c: Backend)
    requires b.sessions == c.sessions && b.lastId <= c.lastId
    ensures Forward(b, c)
  {
    forall id | id in c.sessions ensures RowForward(b.sessions, c.sessions, id) {
      TitleStays(b.sessions[id], c.sessions[id]);
    }
  }

  lemma AskForward(b: Backend, k: nat, input: Input)
    requires Global(b) && k < |b.instances| && !input.Elsewhere?
    ensures Forward(b, Ask(b, k, input).0)
  {
    hide Inv, Step, Sound, Owned, Forward, Orderly, TitleAdvances;
    AskSteps(b, k, input);
    var w, after := Seen(b, k), Ask(b, k, input).0;
    InvAt(b, k);
    if w.exited {
      SameRows(b, after);
    } else {
      TitlesAdvance(b.instances[k].origin, w, input);
      OneRowForward(b, after, w.record.id);
    }
  }

  lemma {:induction false} MeanwhileForward(b: Backend, steps: seq<(nat, Input)>)
    requires Global(b)
    ensures Forward(b, Meanwhile(b, steps))
  {
    hide Global, Step, Forward;
    if steps == [] {
      SameRows(b, b);
    } else {
      var before := Meanwhile(b, steps[..|steps| - 1]);
      MeanwhileKeeps(b, steps[..|steps| - 1]);
      MeanwhileForward(b, steps[..|steps| - 1]);
      var (k, input) := steps[|steps| - 1];
      if k < |before.instances| && ClientInput(input) {
        AskForward(before, k, input);
        ForwardChain(b, before, Ask(before, k, input).0);
      }
    }
  }

  lemma LoadForward(b: Backend, id: SessionId, refuse: bool)
    requires Load(b.sessions, id, refuse).Ok?
    ensures Forward(b, b.(sessions := b.sessions[id := Load(b.sessions, id, refuse).value]))
  {
    hide Consistent, InterruptTurns, Forward;
    var after := b.sessions[id := Load(b.sessions, id, refuse).value];
    TitleStays(b.sessions[id], after[id]);
    OneRowForward(b, b.(sessions := after), id);
  }

  lemma OpenForward(b: Backend, id: SessionId, client: Client, catalog: Catalog, refuse: bool, runtime: bool)
    requires Global(b)
    ensures Forward(b, OpenOrAttach(b, id, client, catalog, refuse, runtime).0)
  {
    hide Inv, Global, Forward, Step;
    GlobalIsOrderly(b);
    var input := Attach(client.connection, client.attachment, client.channel, client.jobs);
    if id in b.registry {
      AskForward(b, b.registry[id], input);
    } else if Load(b.sessions, id, refuse).Ok? {
      var record := Load(b.sessions, id, refuse).value;
      var loaded := b.(sessions := b.sessions[id := record]);
      LoadForward(b, id, refuse);
      if runtime {
        LoadedSpawns(b, id, catalog, refuse);
        var spawned := Spawned(loaded, id, Instance(FromRecord(record, catalog), Opened(record, catalog, loaded.sessions)));
        SameRows(loaded, spawned);
        AskForward(spawned, |b.instances|, input);
        ForwardChain(loaded, spawned, Ask(spawned, |b.instances|, input).0);
        ForwardChain(b, loaded, Ask(spawned, |b.instances|, input).0);
      }
    } else {
      SameRows(b, b);
    }
  }

  /** Whatever becomes of a new session, all others stay as they are, and its identity is beyond all given out before. */
  lemma CreateForward(b: Backend, cwd: seq<byte>, prompt: string, settings: Settings, now: int, catalog: Catalog,
                      client: Client, conditions: Conditions)
    requires Global(b)
    ensures Forward(b, Create(b, cwd, prompt, settings, now, catalog, client, conditions).0)
  {
    hide Global, Forward, AttachTo, ValidateSettings, Blank, FallbackTitle, PersistFailedStart, FailedStart, Materialized;
    hide SpawnedMaterialized;
    SameRows(b, b);
    if settings.contextTokens <= I64_MAX && 0 <= b.lastId < I64_MAX {
      var request := Materialize(cwd, FallbackTitle(prompt), settings, prompt, 0, now);
      if conditions.startup.Some? {
        UnstartedForward(b, request, prompt, conditions);
      } else {
        StartedForward(b, request, catalog, client);
      }
    }
  }

  /** The failed start is stored, or the new row is removed again. */
  lemma UnstartedForward(b: Backend, request: Materialize, prompt: string, conditions: Conditions)
    requires Global(b) && 0 <= b.lastId < I64_MAX && conditions.startup.Some?
    ensures var id: SessionId := b.lastId + 1;
            var record := Materialized(id, request);
            var after := PersistFailedStart(b.sessions[id := record], FailedStart(record, prompt, 0, conditions.startup.value),
                                            conditions.refuseFailed, conditions.refuseRemoval).0;
            Forward(b, b.(sessions := after, lastId := id))
  {
    hide Global, Forward, PersistFailedStart, FailedStart, OthersStay;
    var id: SessionId := b.lastId + 1;
    var record := Materialized(id, request);
    var after := PersistFailedStart(b.sessions[id := record], FailedStart(record, prompt, 0, conditions.startup.value),
                                    conditions.refuseFailed, conditions.refuseRemoval).0;
    FailedStartTouches(b.sessions, record, prompt, conditions);
    OneRowForward(b, b.(sessions := after, lastId := id), id);
  }

  lemma StartedForward(b: Backend, request: Materialize, catalog: Catalog, client: Client)
    requires Global(b) && 0 <= b.lastId < I64_MAX && request.runId == 0
    ensures var id: SessionId := b.lastId + 1;
            var stored := b.(sessions := b.sessions[id := Materialized(id, request)], lastId := id);
            var world := SpawnedMaterialized(Materialized(id, request), catalog, request.prompt, stored.sessions);
            Forward(b, AttachTo(Spawned(stored, id, Instance(world.projection, world)), |b.instances|, client).0)
  {
    hide Global, Forward, Step, Materialized, Inv, OthersStay, SpawnedMaterialized;
    var id: SessionId := b.lastId + 1;
    var record := Materialized(id, request);
    var stored := b.(sessions := b.sessions[id := record], lastId := id);
    CreatedKeeps(b, request);
    StoringTouches(b.sessions, record);
    OneRowForward(b, stored, id);
    MaterializedStarts(id, request, catalog, stored.sessions);
    var world := SpawnedMaterialized(record, catalog, request.prompt, stored.sessions);
    FreshWorld(record, catalog, request.prompt, stored.sessions);
    SpawnKeeps(stored, id, Instance(world.projection, world));
    var spawned := Spawned(stored, id, Instance(world.projection, world));
    var input := Attach(client.connection, client.attachment, client.channel, client.jobs);
    SameRows(stored, spawned);
    AskForward(spawned, |b.instances|, input);
    ForwardChain(stored, spawned, Ask(spawned, |b.instances|, input).0);
    ForwardChain(b, stored, Ask(spawned, |b.instances|, input).0);
  }

  lemma StoringTouches(sessions: Sessions, r: Record)
    ensures OthersStay(sessions, sessions[r.id := r], r.id)
  {
  }

  lemma FailedStartTouches(sessions: Sessions, r: Record, prompt: string, c: Conditions)
    requires c.startup.Some?
    ensures OthersStay(sessions, PersistFailedStart(sessions[r.id := r], FailedStart(r, prompt, 0, c.startup.value),
                                                    c.refuseFailed, c.refuseRemoval).0, r.id)
  {
    hide Storable;
  }

  lemma RemovalForward(b: Backend, id: SessionId, refuse: bool)
    requires RemoveRow(b.sessions, id, refuse).Ok?
    ensures Forward(b, b.(sessions := RemoveRow(b.sessions, id, refuse).value))
  {
    hide Forward;
    OneRowForward(b, b.(sessions := RemoveRow(b.sessions, id, refuse).value), id);
  }

  lemma DeleteForward(b: Backend, id: SessionId, d: Deletion)
    requires Global(b) && !RefusesToLeave(b, id)
    ensures Forward(b, Delete(b, id, d).0)
  {
    hide Global, Forward, Ask, Stopped, Meanwhile, RefusesToLeave;
    GlobalIsOrderly(b);
    SameRows(b, b);
    if id !in b.registry {
      if RemoveRow(b.sessions, id, d.refuseRemoval).Ok? {
        RemovalForward(b, id, d.refuseRemoval);
      }
    } else {
      var k := b.registry[id];
      RegisteredOwner(b, id);
      NotRefusing(b, id);
      PreparationStops(b, k, d.jobsStop, d.refuse);
      AskForward(b, k, PrepareDelete(d.jobsStop, d.refuse));
      var asked := Ask(b, k, PrepareDelete(d.jobsStop, d.refuse)).0;
      MeanwhileKeeps(asked, d.first);
      MeanwhileStopped(asked, d.first, k);
      MeanwhileForward(asked, d.first);
      var prepared := Meanwhile(asked, d.first);
      ForwardChain(b, asked, prepared);
      PreparedForward(b, prepared, k, id, d);
    }
  }

  /** What a deletion does once its actor has been asked to prepare: it abandons, or removes and announces. */
  lemma PreparedForward(b: Backend, prepared: Backend, k: nat, id: SessionId, d: Deletion)
    requires Forward(b, prepared) && Global(prepared) && Stopped(prepared, k) && prepared.instances[k].world.record.id == id
    ensures Forward(b, Abandon(prepared, k, id))
    ensures var removal := RemoveRow(prepared.sessions, id, d.refuseRemoval);
            removal.Ok? ==>
              var removed := Meanwhile(prepared.(sessions := removal.value), d.second);
              && |removed.instances| == |prepared.instances|
              && Forward(b, Forget(Ask(removed, k, FinishDelete).0, id))
  {
    hide Global, Forward, Ask, Stopped, Meanwhile, RemoveRow;
    StoppedIsThere(prepared, k);
    LastWordForward(b, prepared, k, AbortDelete, id);
    if RemoveRow(prepared.sessions, id, d.refuseRemoval).Ok? {
      RemovalKeeps(prepared, k, id, d.refuseRemoval);
      RemovalForward(prepared, id, d.refuseRemoval);
      var gone := prepared.(sessions := RemoveRow(prepared.sessions, id, d.refuseRemoval).value);
      MeanwhileKeeps(gone, d.second);
      MeanwhileForward(gone, d.second);
      var removed := Meanwhile(gone, d.second);
      ForwardChain(b, prepared, gone);
      ForwardChain(b, gone, removed);
      LastWordForward(b, removed, k, FinishDelete, id);
    }
  }

  lemma NotRefusing(b: Backend, id: SessionId)
    requires id in b.registry && b.registry[id] < |b.instances| && !RefusesToLeave(b, id)
    ensures var w := b.instances[b.registry[id]].world; !w.shuttingDown || w.deleting
  {
  }

  lemma LastWordForward(b: Backend, c: Backend, k: nat, input: Input, id: SessionId)
    requires Global(c) && k < |c.instances| && Forward(b, c) && !input.Elsewhere?
    ensures Forward(b, Forget(Ask(c, k, input).0, id))
  {
    hide Global, Ask, Forward;
    AskForward(c, k, input);
    var told := Ask(c, k, input).0;
    SameRows(told, Forget(told, id));
    ForwardChain(b, c, told);
    ForwardChain(b, told, Forget(told, id));
  }

  lemma {:induction false} FlushForward(b: Backend, ids: seq<SessionId>, refused: set<SessionId>)
    requires Global(b)
    ensures Forward(b, FlushEach(b, ids, refused).0)
  {
    hide Global, Forward, Step;
    if ids == [] {
      SameRows(b, b);
    } else {
      FlushStoresEverything(b, ids[..|ids| - 1], refused);
      FlushForward(b, ids[..|ids| - 1], refused);
      var before := FlushEach(b, ids[..|ids| - 1], refused).0;
      var id := ids[|ids| - 1];
      if id in before.registry && before.registry[id] < |before.instances| {
        AskForward(before, before.registry[id], Input.Flush(id in refused));
        ForwardChain(b, before, Ask(before, before.registry[id], Input.Flush(id in refused)).0);
      }
    }
  }

  lemma {:induction false} StopForward(b: Backend, ids: seq<SessionId>, stuck: set<SessionId>, refused: set<SessionId>)
    requires Global(b)
    ensures Forward(b, ShutDownEach(b, ids, stuck, refused).0)
  {
    hide Global, Forward, Step;
    if ids == [] {
      SameRows(b, b);
    } else {
      StoppingKeeps(b, ids[..|ids| - 1], stuck, refused);
      StopForward(b, ids[..|ids| - 1], stuck, refused);
      var before := ShutDownEach(b, ids[..|ids| - 1], stuck, refused).0;
      var id := ids[|ids| - 1];
      if id in before.registry && before.registry[id] < |before.instances| {
        var input := Shutdown(id !in stuck, id in refused);
        AskForward(before, before.registry[id], input);
        ForwardChain(b, before, Ask(before, before.registry[id], input).0);
        LastWordForward(b, before, before.registry[id], input, id);
      }
    }
  }

  lemma RenameForward(b: Backend, id: SessionId, title: SessionTitle, refuse: bool)
    requires Global(b)
    ensures Forward(b, RenameSession(b, id, title, refuse).0)
  {
    hide Global, Forward, Step;
    GlobalIsOrderly(b);
    SameRows(b, b);
    if id in b.registry {
      AskForward(b, b.registry[id], RenameTo(title, refuse));
    } else if Rename(b.sessions, id, title, refuse).Ok? {
      TitleOperationsAdvance(b.sessions, id, 0, title, refuse);
      OneRowForward(b, RenameSession(b, id, title, refuse).0, id);
    }
  }

  lemma MoveForward(b: Backend, m: ManagerMove)
    requires Global(b) && !(m.Removing? && RefusesToLeave(b, m.id))
    ensures Forward(b, Managed(b, m))
  {
    hide Global, Forward, OpenOrAttach, Create, Delete, RenameSession, FlushEach, ShutDownEach, Meanwhile, Step;
    hide RefusesToLeave, Activity.Operated;
    GlobalIsOrderly(b);
    match m
    case Opening(id, client, catalog, refuse, runtime) => OpenForward(b, id, client, catalog, refuse, runtime);
    case Creating(cwd, prompt, settings, now, catalog, client, conditions) =>
      CreateForward(b, cwd, prompt, settings, now, catalog, client, conditions);
    case Removing(id, deletion) => DeleteForward(b, id, deletion);
    case Renaming(id, title, refuse) => RenameForward(b, id, title, refuse);
    case Titling(id, revision, generated, refuse) =>
      SameRows(b, b);
      if id in b.registry {
        AskForward(b, b.registry[id], Input.ApplyGeneratedTitle(revision, generated, refuse));
      }
    case Flushing(ids, refused) => FlushForward(b, ids, refused);
    case Stopping(ids, stuck, refused) => StopForward(b, ids, stuck, refused);
    case Acting(steps) => MeanwhileForward(b, steps);
    case Noting(op) => SameRows(b, Managed(b, m));
    case Restarting => SameRows(b, Managed(b, m));
  }

  /**
    A title chosen by a user is never replaced by a generated one, and no title's revision moves back: over
    any run of the manager, its actors and its clients, through the life in which a session is created,
    renames of sessions that nobody has open, and restarts at any point. Identities are never given out again.
   */
  lemma {:induction false} ManualTitleWins(b: Backend, moves: seq<ManagerMove>, id: SessionId)
    requires Global(b) && AllMutable(b) && ShutdownsSucceed(b, moves)
    ensures var after := RunManager(b, moves);
            && Forward(b, after)
            && (id in b.sessions && id in after.sessions ==> TitleAdvances(b.sessions[id], after.sessions[id]))
            && (id !in b.sessions && id <= b.lastId ==> id !in after.sessions)
  {
    hide Managed, Global, AllMutable, TitleAdvances, RefusesToLeave;
    SameRows(b, b);
    GlobalIsOrderly(b);
    if moves != [] {
      var shorter := moves[..|moves| - 1];
      var last := moves[|moves| - 1];
      ShorterRuns(b, moves);
      SingleOwnership(b, shorter);
      ManualTitleWins(b, shorter, id);
      var before := RunManager(b, shorter);
      if last.Removing? {
        MutableAccepts(before, last.id);
      }
      MoveForward(before, last);
      ForwardChain(b, before, Managed(before, last));
    }
    KnownRowsForward(b, RunManager(b, moves), id);
  }

  lemma KnownRowsForward(b: Backend, c: Backend, id: SessionId)
    requires Global(b) && Forward(b, c)
    ensures id in b.sessions && id in c.sessions ==> TitleAdvances(b.sessions[id], c.sessions[id])
    ensures id !in b.sessions && id <= b.lastId ==> id !in c.sessions
  {
    hide Inv, Owned, TitleAdvances;
    GlobalIsOrderly(b);
  }
}
