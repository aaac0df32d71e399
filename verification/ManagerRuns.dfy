/** Every run of the manager: restarts, moves, and single ownership as long as no shutdown has failed. */
module ManagerRuns {
  import opened Prelude
  import opened Titles
  import opened Records
  import opened Repository
  import opened Projections
  import opened SessionModel
  import opened SessionInvariants
  import opened SessionRuns
  import opened SessionEffects
  import opened SessionTheorems
  import opened Deletions
  import opened Backends
  import opened Openings
  import opened Removals
  import opened Shutdowns

  // ---------- every run of the manager ----------

  datatype ManagerMove =
    | Opening(id: SessionId, client: Client, catalog: Catalog, refuse: bool, runtime: bool)
    | Creating(cwd: seq<byte>, prompt: string, settings: Settings, now: int, catalog: Catalog, client: Client,
               conditions: Conditions)
    | Removing(id: SessionId, deletion: Deletion)
    | Renaming(id: SessionId, title: SessionTitle, refuse: bool)
    | Titling(id: SessionId, revision: u64, generated: Option<string>, refuse: bool)
    | Flushing(ids: seq<SessionId>, refused: set<SessionId>)
    | Stopping(ids: seq<SessionId>, stuck: set<SessionId>, refused: set<SessionId>)
    | Acting(steps: seq<(nat, Input)>)
    | Noting(operation: Activity.Operation)
    | Restarting

  /** Connections, background jobs and title tasks are counted too; runs are counted by their actors. */
  function Noted(b: Backend, op: Activity.Operation): Backend {
    if op.SetRun? then b else b.(tracked := Activity.Operated(b.tracked, op))
  }

  /** The process stops at any moment and a new one starts: what was stored is all that is left. */
  function Restarted(b: Backend): Backend {
    EMPTY.(sessions := b.sessions, lastId := b.lastId)
  }

  lemma NotingKeeps(b: Backend, op: Activity.Operation)
    requires Global(b)
    ensures Global(Noted(b, op))
  {
    hide Inv, Orderly;
    var t := Noted(b, op);
    assert forall k: nat :: Alive(t, k) <==> Alive(b, k);
    forall k | 0 <= k < |b.instances| ensures Inv(t.instances[k].origin, Seen(t, k)) {
      assert Seen(t, k) == Seen(b, k);
    }
  }

  function Managed(b: Backend, m: ManagerMove): Backend {
    match m
    case Opening(id, client, catalog, refuse, runtime) => OpenOrAttach(b, id, client, catalog, refuse, runtime).0
    case Creating(cwd, prompt, settings, now, catalog, client, conditions) =>
      Create(b, cwd, prompt, settings, now, catalog, client, conditions).0
    case Removing(id, deletion) => Delete(b, id, deletion).0
    case Renaming(id, title, refuse) => RenameSession(b, id, title, refuse).0
    case Titling(id, revision, generated, refuse) => RouteTitle(b, id, revision, generated, refuse)
    case Flushing(ids, refused) => FlushEach(b, ids, refused).0
    case Stopping(ids, stuck, refused) => ShutDownEach(b, ids, stuck, refused).0
    case Acting(steps) => Meanwhile(b, steps)
    case Noting(op) => Noted(b, op)
    case Restarting => Restarted(b)
  }

  function RunManager(b: Backend, moves: seq<ManagerMove>): Backend {
    if moves == [] then b else Managed(RunManager(b, moves[..|moves| - 1]), moves[|moves| - 1])
  }

  /** Every move keeps the whole backend's invariant, except deleting a session whose shutdown has failed. */
  lemma MoveKeepsOwnership(b: Backend, m: ManagerMove)
    requires Global(b)
    ensures Global(Managed(b, m)) <==> !(m.Removing? && RefusesToLeave(b, m.id))
  {
    hide Global, OpenOrAttach, Create, Delete, RenameSession, RouteTitle, FlushEach, ShutDownEach, Meanwhile, RefusesToLeave;
    hide Noted, Restarted;
    match m
    case Opening(id, client, catalog, refuse, runtime) =>
      GlobalIsOrderly(b);
      OpenKeeps(b, id, client, catalog, refuse, runtime);
    case Creating(cwd, prompt, settings, now, catalog, client, conditions) =>
      CreateKeeps(b, cwd, prompt, settings, now, catalog, client, conditions);
    case Removing(id, deletion) => DeleteKeepsOwnership(b, id, deletion);
    case Renaming(id, title, refuse) => TitlesKeep(b, id, title, 0, None, refuse);
    case Titling(id, revision, generated, refuse) => TitlesKeep(b, id, "x", revision, generated, refuse);
    case Flushing(ids, refused) => FlushStoresEverything(b, ids, refused);
    case Stopping(ids, stuck, refused) => StoppingKeeps(b, ids, stuck, refused);
    case Acting(steps) => MeanwhileKeeps(b, steps);
    case Noting(op) => NotingKeeps(b, op);
    case Restarting => RestartKeeps(b);
  }

  lemma RestartKeeps(b: Backend)
    requires Global(b)
    ensures Global(Restarted(b)) && AllMutable(Restarted(b))
  {
    hide Inv, Orderly;
  }

  // ---------- as long as no shutdown has failed ----------

  predicate AllMutable(b: Backend) {
    forall k: nat :: k < |b.instances| && Alive(b, k) ==> !b.instances[k].world.shuttingDown
  }

  lemma StaysMutable(w: World, input: Input)
    requires InStep(w) && !w.exited && !w.shuttingDown && !input.Shutdown? && !input.Elsewhere?
    ensures Step(w, input).0.exited || !Step(w, input).0.shuttingDown
  {
    hide InStep, Handle, Effect;
    if input.FinishDelete? {
      FinishHandled(w);
      FinishExits(w);
    } else if MayExit(input) {
      ExitEffects(w, input);
    } else if !input.Receive? && !input.CloseReceiver? {
      HandleEffects(w, input);
      EffectKeepsExit(Begun(w, input), Handle(w, input).0);
    }
  }

  lemma AskMutable(b: Backend, k: nat, input: Input)
    requires Global(b) && AllMutable(b) && k < |b.instances| && !input.Shutdown? && !input.Elsewhere?
    ensures AllMutable(Ask(b, k, input).0)
  {
    hide Inv, Sound, Owned, Step, InStep;
    var after := Ask(b, k, input).0;
    AskSteps(b, k, input);
    if !b.instances[k].world.exited {
      assert Alive(b, k);
      InvAt(b, k);
      InvGivesInStep(b.instances[k].origin, Seen(b, k));
      StaysMutable(Seen(b, k), input);
    }
    assert forall j: nat :: Alive(after, j) ==> Alive(b, j);
  }

  lemma {:induction false} MeanwhileMutable(b: Backend, steps: seq<(nat, Input)>)
    requires Global(b) && AllMutable(b)
    ensures AllMutable(Meanwhile(b, steps))
  {
    hide Global, AllMutable, Step;
    if steps != [] {
      var before := Meanwhile(b, steps[..|steps| - 1]);
      MeanwhileKeeps(b, steps[..|steps| - 1]);
      MeanwhileMutable(b, steps[..|steps| - 1]);
      var (k, input) := steps[|steps| - 1];
      if k < |before.instances| && ClientInput(input) {
        AskMutable(before, k, input);
      }
    }
  }

  lemma StoreMutable(b: Backend, sessions: Sessions, lastId: int, id: SessionId)
    ensures AllMutable(b.(sessions := sessions, lastId := lastId)) <==> AllMutable(b)
    ensures AllMutable(b.(sessions := sessions)) <==> AllMutable(b)
    ensures AllMutable(Forget(b, id)) <==> AllMutable(b)
  {
    var t := b.(sessions := sessions, lastId := lastId);
    var u := b.(sessions := sessions);
    assert forall k: nat :: Alive(t, k) == Alive(b, k) == Alive(u, k) == Alive(Forget(b, id), k);
  }

  lemma SpawnMutable(b: Backend, id: SessionId, instance: Instance)
    requires AllMutable(b) && !instance.world.shuttingDown
    ensures AllMutable(Spawned(b, id, instance))
  {
    var t := Spawned(b, id, instance);
    assert forall k: nat :: Alive(t, k) ==> Alive(b, k) || k == |b.instances|;
  }

  lemma OpenMutable(b: Backend, id: SessionId, client: Client, catalog: Catalog, refuse: bool, runtime: bool)
    requires Global(b) && AllMutable(b)
    ensures AllMutable(OpenOrAttach(b, id, client, catalog, refuse, runtime).0)
  {
    hide Inv, Global, AllMutable, Step;
    GlobalIsOrderly(b);
    var input := Attach(client.connection, client.attachment, client.channel, client.jobs);
    if id in b.registry {
      AskMutable(b, b.registry[id], input);
    } else if Load(b.sessions, id, refuse).Ok? {
      var record := Load(b.sessions, id, refuse).value;
      var loaded := b.(sessions := b.sessions[id := record]);
      StoreMutable(b, loaded.sessions, b.lastId, id);
      if runtime {
        var instance := Instance(FromRecord(record, catalog), Opened(record, catalog, loaded.sessions));
        LoadedSpawns(b, id, catalog, refuse);
        SpawnMutable(loaded, id, instance);
        AskMutable(Spawned(loaded, id, instance), |b.instances|, input);
      }
    }
  }

  /** Loading an unregistered session and spawning its actor keeps the backend's invariant. */
  lemma LoadedSpawns(b: Backend, id: SessionId, catalog: Catalog, refuse: bool)
    requires Global(b) && id !in b.registry && Load(b.sessions, id, refuse).Ok?
    ensures var record := Load(b.sessions, id, refuse).value;
            var loaded := b.(sessions := b.sessions[id := record]);
            && Global(loaded) && record.id == id
            && Global(Spawned(loaded, id, Instance(FromRecord(record, catalog), Opened(record, catalog, loaded.sessions))))
  {
    hide Inv, Orderly, Sound, Owned;
    GlobalIsOrderly(b);
    OrderlyRow(b.sessions, b.lastId, id);
    LoadedIsOrderly(b.sessions, b.lastId, id, refuse);
    var record := Load(b.sessions, id, refuse).value;
    UnownedRow(b, id, b.sessions[id := record], b.lastId);
    var loaded := b.(sessions := b.sessions[id := record], lastId := b.lastId);
    assert loaded == b.(sessions := b.sessions[id := record]);
    LoadedStarts(b.sessions, id, catalog);
    SpawnKeeps(loaded, id, Instance(FromRecord(record, catalog), Opened(record, catalog, loaded.sessions)));
  }

  lemma CreateMutable(b: Backend, cwd: seq<byte>, prompt: string, settings: Settings, now: int, catalog: Catalog,
                      client: Client, conditions: Conditions)
    requires Global(b) && AllMutable(b)
    ensures AllMutable(Create(b, cwd, prompt, settings, now, catalog, client, conditions).0)
  {
    hide Global, AllMutable, Step, ValidateSettings, Blank, FallbackTitle, PersistFailedStart, FailedStart, Materialized;
    hide Inv;
    if settings.contextTokens <= I64_MAX && 0 <= b.lastId < I64_MAX {
      var request := Materialize(cwd, FallbackTitle(prompt), settings, prompt, 0, now);
      CreatedKeeps(b, request);
      var id: SessionId := b.lastId + 1;
      var record := Materialized(id, request);
      var stored := b.(sessions := b.sessions[id := record], lastId := id);
      StoreMutable(b, stored.sessions, id, id);
      if conditions.startup.Some? {
        var after := PersistFailedStart(stored.sessions, FailedStart(record, prompt, 0, conditions.startup.value),
                                        conditions.refuseFailed, conditions.refuseRemoval).0;
        StoreMutable(stored, after, id, id);
      } else {
        MaterializedStarts(id, request, catalog, stored.sessions);
        var world := SpawnedMaterialized(record, catalog, prompt, stored.sessions);
        SpawnKeeps(stored, id, Instance(world.projection, world));
        SpawnMutable(stored, id, Instance(world.projection, world));
        AskMutable(Spawned(stored, id, Instance(world.projection, world)), |b.instances|,
                   Attach(client.connection, client.attachment, client.channel, client.jobs));
      }
    }
  }

  lemma DeleteMutable(b: Backend, id: SessionId, d: Deletion)
    requires Global(b) && AllMutable(b)
    ensures AllMutable(Delete(b, id, d).0)
  {
    hide Global, AllMutable, Ask, Stopped, Meanwhile;
    GlobalIsOrderly(b);
    if id !in b.registry {
      if RemoveRow(b.sessions, id, d.refuseRemoval).Ok? {
        StoreMutable(b, RemoveRow(b.sessions, id, d.refuseRemoval).value, b.lastId, id);
      }
    } else {
      RegisteredOwner(b, id);
      MutableAccepts(b, id);
      var k := b.registry[id];
      PreparationStops(b, k, d.jobsStop, d.refuse);
      AskMutable(b, k, PrepareDelete(d.jobsStop, d.refuse));
      var asked := Ask(b, k, PrepareDelete(d.jobsStop, d.refuse)).0;
      MeanwhileKeeps(asked, d.first);
      MeanwhileMutable(asked, d.first);
      MeanwhileStopped(asked, d.first, k);
      var prepared := Meanwhile(asked, d.first);
      PreparedMutable(prepared, k, id, d);
    }
  }

  lemma PreparedMutable(prepared: Backend, k: nat, id: SessionId, d: Deletion)
    requires Global(prepared) && AllMutable(prepared) && Stopped(prepared, k) && prepared.instances[k].world.record.id == id
    ensures AllMutable(Abandon(prepared, k, id))
    ensures var removal := RemoveRow(prepared.sessions, id, d.refuseRemoval);
            removal.Ok? ==>
              var removed := Meanwhile(prepared.(sessions := removal.value), d.second);
              && |removed.instances| == |prepared.instances|
              && AllMutable(Forget(Ask(removed, k, FinishDelete).0, id))
  {
    hide Global, AllMutable, Ask, Stopped, Meanwhile, RemoveRow;
    StoppedIsThere(prepared, k);
    AskMutable(prepared, k, AbortDelete);
    StoreMutable(Ask(prepared, k, AbortDelete).0, map[], 0, id);
    if RemoveRow(prepared.sessions, id, d.refuseRemoval).Ok? {
      RemovalKeeps(prepared, k, id, d.refuseRemoval);
      var gone := prepared.(sessions := RemoveRow(prepared.sessions, id, d.refuseRemoval).value);
      StoreMutable(prepared, gone.sessions, 0, id);
      MeanwhileKeeps(gone, d.second);
      MeanwhileMutable(gone, d.second);
      var removed := Meanwhile(gone, d.second);
      AskMutable(removed, k, FinishDelete);
      StoreMutable(Ask(removed, k, FinishDelete).0, map[], 0, id);
    }
  }

  lemma MutableAccepts(b: Backend, id: SessionId)
    requires Global(b) && AllMutable(b)
    ensures !RefusesToLeave(b, id)
  {
    if id in b.registry {
      RegisteredOwner(b, id);
    }
  }

  lemma {:induction false} FlushMutable(b: Backend, ids: seq<SessionId>, refused: set<SessionId>)
    requires Global(b) && AllMutable(b)
    ensures AllMutable(FlushEach(b, ids, refused).0)
  {
    hide Global, AllMutable, Step;
    if ids != [] {
      FlushStoresEverything(b, ids[..|ids| - 1], refused);
      FlushMutable(b, ids[..|ids| - 1], refused);
      var before := FlushEach(b, ids[..|ids| - 1], refused).0;
      var id := ids[|ids| - 1];
      if id in before.registry && before.registry[id] < |before.instances| {
        AskMutable(before, before.registry[id], Input.Flush(id in refused));
      }
    }
  }

  /** A shutdown that succeeds leaves no actor half stopped. */
  lemma {:induction false} StopMutable(b: Backend, ids: seq<SessionId>, stuck: set<SessionId>, refused: set<SessionId>)
    requires Global(b) && AllMutable(b)
    ensures ShutDownEach(b, ids, stuck, refused).1 == None ==> AllMutable(ShutDownEach(b, ids, stuck, refused).0)
  {
    hide Global, AllMutable, Step;
    if ids != [] {
      var shorter := ids[..|ids| - 1];
      StoppingKeeps(b, shorter, stuck, refused);
      StopMutable(b, shorter, stuck, refused);
      var (before, error) := ShutDownEach(b, shorter, stuck, refused);
      var id := ids[|ids| - 1];
      if error == None && id in before.registry && before.registry[id] < |before.instances| {
        StopOneMutable(before, id, id !in stuck, id in refused);
      }
    }
  }

  lemma StopOneMutable(b: Backend, id: SessionId, jobsStop: bool, refuse: bool)
    requires Global(b) && AllMutable(b) && id in b.registry && b.registry[id] < |b.instances|
    ensures var (after, reply) := Ask(b, b.registry[id], Shutdown(jobsStop, refuse));
            !reply.Refused? ==> AllMutable(Forget(after, id))
  {
    hide Inv, Sound, Owned, Step;
    var k := b.registry[id];
    RegisteredOwner(b, id);
    InvAt(b, k);
    ShutdownOutcome(b.instances[k].origin, Seen(b, k), jobsStop, refuse);
    var (after, reply) := Ask(b, k, Shutdown(jobsStop, refuse));
    if !reply.Refused? {
      assert forall j: nat :: Alive(Forget(after, id), j) ==> Alive(b, j) && j != k;
    }
  }

  /** Two running actors serve the same session. */
  predicate TwoOwners(b: Backend, j: nat, k: nat) {
    && j != k && Alive(b, j) && Alive(b, k)
    && b.instances[j].world.record.id == b.instances[k].world.record.id
  }

  /** Every shutdown along this run succeeded. */
  predicate ShutdownsSucceed(b: Backend, moves: seq<ManagerMove>) {
    forall i :: 0 <= i < |moves| && moves[i].Stopping? ==>
      ShutDownEach(RunManager(b, moves[..i]), moves[i].ids, moves[i].stuck, moves[i].refused).1 == None
  }

  lemma MoveMutable(b: Backend, m: ManagerMove)
    requires Global(b) && AllMutable(b)
    requires m.Stopping? ==> ShutDownEach(b, m.ids, m.stuck, m.refused).1 == None
    ensures AllMutable(Managed(b, m))
  {
    hide Global, AllMutable, OpenOrAttach, Create, Delete, FlushEach, ShutDownEach, Meanwhile, Step, Noted, Restarted;
    GlobalIsOrderly(b);
    match m
    case Opening(id, client, catalog, refuse, runtime) => OpenMutable(b, id, client, catalog, refuse, runtime);
    case Creating(cwd, prompt, settings, now, catalog, client, conditions) =>
      CreateMutable(b, cwd, prompt, settings, now, catalog, client, conditions);
    case Removing(id, deletion) => DeleteMutable(b, id, deletion);
    case Renaming(id, title, refuse) =>
      if id in b.registry {
        AskMutable(b, b.registry[id], RenameTo(title, refuse));
      } else if Rename(b.sessions, id, title, refuse).Ok? {
        StoreMutable(b, b.sessions[id := Rename(b.sessions, id, title, refuse).value], 0, id);
      }
    case Titling(id, revision, generated, refuse) =>
      if id in b.registry {
        AskMutable(b, b.registry[id], Input.ApplyGeneratedTitle(revision, generated, refuse));
      }
    case Flushing(ids, refused) => FlushMutable(b, ids, refused);
    case Stopping(ids, stuck, refused) => StopMutable(b, ids, stuck, refused);
    case Acting(steps) => MeanwhileMutable(b, steps);
    case Noting(op) => NotingMutable(b, op);
    case Restarting => RestartKeeps(b);
  }

  lemma NotingMutable(b: Backend, op: Activity.Operation)
    requires AllMutable(b)
    ensures AllMutable(Noted(b, op))
  {
    assert forall k: nat :: Alive(Noted(b, op), k) <==> Alive(b, k);
  }

  lemma ShorterRuns(b: Backend, moves: seq<ManagerMove>)
    requires moves != [] && ShutdownsSucceed(b, moves)
    ensures ShutdownsSucceed(b, moves[..|moves| - 1])
  {
    hide ShutDownEach, RunManager;
    var shorter := moves[..|moves| - 1];
    forall i | 0 <= i < |shorter| && shorter[i].Stopping?
      ensures ShutDownEach(RunManager(b, shorter[..i]), shorter[i].ids, shorter[i].stuck, shorter[i].refused).1 == None
    {
      assert shorter[..i] == moves[..i] && shorter[i] == moves[i];
    }
  }

  /**
    As long as no shutdown has failed, over any run of the manager and its actors: every session has at
    most one running actor, it is the registered one, and every actor and the store keep all their
    invariants. A session is loaded, and its running turn interrupted, only while nobody owns it.
   */
  lemma {:induction false} SingleOwnership(b: Backend, moves: seq<ManagerMove>)
    requires Global(b) && AllMutable(b) && ShutdownsSucceed(b, moves)
    ensures var after := RunManager(b, moves);
            && Global(after) && AllMutable(after)
            && (forall j: nat, k: nat :: !TwoOwners(after, j, k))
            && (forall id: SessionId, k: nat :: id !in after.registry && Alive(after, k) ==>
                  after.instances[k].world.record.id != id)
  {
    hide Managed, Sound, AllMutable;
    if moves != [] {
      var shorter := moves[..|moves| - 1];
      var last := moves[|moves| - 1];
      ShorterRuns(b, moves);
      SingleOwnership(b, shorter);
      var before := RunManager(b, shorter);
      assert moves[..|moves| - 1] == shorter;
      MoveMutable(before, last);
      if last.Removing? {
        MutableAccepts(before, last.id);
      }
      MoveKeepsOwnership(before, last);
    }
  }
}
