/** The session manager as an object: its methods, loops included, against the functions on the backend. */
module Managers {
  import opened Prelude
  import opened Titles
  import opened Records
  import opened Repository
  import opened Projections
  import opened SessionModel
  import opened Backends
  import opened Openings
  import opened Removals
  import opened Shutdowns

  class SessionManager {
    var sessions: Sessions
    var lastId: int
    var registry: map<SessionId, nat>
    var instances: seq<Instance>
    var tracked: Activity.Tracked

    function State(): Backend
      reads this
    {
      Backend(sessions, lastId, registry, instances, tracked)
    }

    ghost predicate Valid()
      reads this
    {
      Global(State())
    }

    constructor ()
      ensures Valid() && State() == EMPTY
    {
      sessions, lastId, registry, instances, tracked := map[], 0, map[], [], Activity.NOTHING;
    }

    /** One message to an actor and its answer; the actor writes its own row in the shared store. */
    method Send(k: nat, input: Input) returns (reply: Reply)
      requires k < |instances|
      modifies this
      ensures (State(), reply) == Ask(old(State()), k, input)
    {
      var after, answer := Step(instances[k].world.(sessions := sessions), input).0,
                           Step(instances[k].world.(sessions := sessions), input).1;
      tracked := Counted(tracked, after.record.id, instances[k].world.counted, after.counted);
      instances := instances[k := Instance(instances[k].origin, after)];
      sessions := after.sessions;
      reply := answer;
    }

    /** Attaches to the session's actor, loading the session and spawning one if it has none. */
    method OpenSession(id: SessionId, client: Client, catalog: Catalog, refuse: bool, runtime: bool) returns (answer: Answer)
      requires Valid()
      modifies this
      ensures Valid() && (State(), answer) == OpenOrAttach(old(State()), id, client, catalog, refuse, runtime)
    {
      hide Global, Step;
      OpenKeeps(State(), id, client, catalog, refuse, runtime);
      GlobalIsOrderly(State());
      if id !in registry {
        var loaded := Load(sessions, id, refuse);
        if loaded.Err? {
          return StoreFailed(loaded.error);
        }
        sessions := sessions[id := loaded.value];
        if !runtime {
          return RuntimeFailed;
        }
        Register(id, Instance(FromRecord(loaded.value, catalog), Opened(loaded.value, catalog, sessions)));
      }
      answer := Greet(registry[id], client);
    }

    /** Other actors go on while the manager waits for one of them. */
    method Wait(steps: seq<(nat, Input)>)
      modifies this
      ensures State() == Meanwhile(old(State()), steps)
    {
      hide Step;
      var i := 0;
      assert steps[..0] == [];
      while i < |steps|
        invariant i <= |steps| && State() == Meanwhile(old(State()), steps[..i])
      {
        assert steps[..i + 1][..i] == steps[..i];
        var (k, input) := steps[i];
        if k < |instances| && ClientInput(input) {
          var _ := Send(k, input);
        }
        i := i + 1;
      }
      assert steps[..i] == steps;
    }

    /** Valid afterwards exactly if the session's actor had not failed to shut down before. */
    method DeleteSession(id: SessionId, d: Deletion) returns (answer: Answer)
      requires Valid()
      modifies this
      ensures (State(), answer) == Delete(old(State()), id, d)
      ensures Valid() <==> !old(RefusesToLeave(State(), id))
      ensures answer == Succeeded ==> id !in sessions && id !in registry
    {
      hide Global, Ask, Meanwhile, RefusesToLeave;
      DeleteKeepsOwnership(State(), id, d);
      GlobalIsOrderly(State());
      if id !in registry {
        var removal := RemoveRow(sessions, id, d.refuseRemoval);
        if removal.Err? {
          return StoreFailed(removal.error);
        }
        sessions := removal.value;
        return Succeeded;
      }
      var k := registry[id];
      AskLength(State(), k, PrepareDelete(d.jobsStop, d.refuse));
      var reply := Send(k, PrepareDelete(d.jobsStop, d.refuse));
      Wait(d.first);
      if reply.Refused? {
        var _ := Send(k, AbortDelete);
        registry := registry - {id};
        return ActorRefused(reply.error);
      }
      var removal := RemoveRow(sessions, id, d.refuseRemoval);
      if removal.Err? {
        var _ := Send(k, AbortDelete);
        registry := registry - {id};
        return StoreFailed(removal.error);
      }
      sessions := removal.value;
      Wait(d.second);
      var _ := Send(k, FinishDelete);
      registry := registry - {id};
      return Succeeded;
    }

    /** Stores, then starts, a session with its first prompt; a start that fails is stored as a failed run. */
    method MaterializeAndSubmit(cwd: seq<byte>, prompt: string, settings: Settings, now: int, catalog: Catalog,
                                client: Client, conditions: Conditions) returns (answer: Answer)
      requires Valid()
      modifies this
      ensures Valid() && (State(), answer) == Create(old(State()), cwd, prompt, settings, now, catalog, client, conditions)
    {
      hide Global, Step, ValidateSettings, FailedStart, PersistFailedStart, Materialized, AttachTo, FallbackTitle;
      hide SpawnedMaterialized, Counted, Blank, Spawned;
      CreateKeeps(State(), cwd, prompt, settings, now, catalog, client, conditions);
      if Blank(prompt) {
        return InvalidPrompt;
      }
      var invalid := ValidateSettings(settings, catalog);
      if invalid.Some? {
        return ActorRefused(invalid.value);
      }
      if settings.contextTokens > I64_MAX {
        return StoreFailed(OutOfRange);
      }
      if conditions.refuse || !(0 <= lastId < I64_MAX) {
        return StoreFailed(DatabaseFailed);
      }
      var title := MakeFallbackTitle(prompt);
      var id: SessionId := lastId + 1;
      var record := Materialized(id, Materialize(cwd, title, settings, prompt, 0, now));
      sessions, lastId := sessions[id := record], id;
      if conditions.startup.Some? {
        var error := PersistFailedMaterialization(record, prompt, 0, conditions.startup.value, conditions.refuseFailed,
                                                  conditions.refuseRemoval);
        return if error.Some? then StoreFailed(error.value) else RuntimeFailed;
      }
      var world := SpawnedMaterialized(record, catalog, prompt, sessions);
      Register(id, Instance(world.projection, world));
      answer := Greet(|instances| - 1, client);
      if answer.Attachment? {
        answer := answer.(runId := Some(0));
      }
    }

    /** A spawned actor is registered as its session's owner; one that starts with a run is counted. */
    method Register(id: SessionId, instance: Instance)
      modifies this
      ensures State() == Spawned(old(State()), id, instance) && |instances| == |old(instances)| + 1
    {
      registry := registry[id := |instances|];
      instances := instances + [instance];
      tracked := Counted(tracked, id, false, instance.world.counted);
    }

    method Greet(k: nat, client: Client) returns (answer: Answer)
      requires k < |instances|
      modifies this
      ensures (State(), answer) == AttachTo(old(State()), k, client)
    {
      hide Step;
      var reply := Send(k, Attach(client.connection, client.attachment, client.channel, client.jobs));
      match reply
      case Attached(snapshot) => return Attachment(snapshot, None);
      case Refused(error) => return ActorRefused(error);
      case _ => return ActorRefused(ActorUnavailable);
    }

    /** Stores the failed start; if that fails too, the session is removed again as far as possible. */
    method PersistFailedMaterialization(record: Record, prompt: string, runId: u64, failure: Failure, refuse: bool,
                                        refuseRemoval: bool) returns (error: Option<StoreError>)
      modifies this`sessions
      ensures (sessions, error) ==
        PersistFailedStart(old(sessions), FailedStart(record, prompt, runId, failure), refuse, refuseRemoval)
    {
      hide Storable;
      var failed := RecordFailedStart(record, prompt, runId, failure);
      var written := Checkpoint(sessions, failed, refuse);
      if written.Err? {
        var removal := RemoveRow(sessions, failed.id, refuseRemoval);
        if removal.Ok? {
          sessions := removal.value;
        }
        return Some(written.error);
      }
      sessions := written.value;
      return None;
    }

    /** `order` is the order in which the registry is walked. The first failure is reported, all are asked. */
    method ShutdownActors(order: seq<SessionId>, stuck: set<SessionId>, refused: set<SessionId>)
      returns (error: Option<CommandError>)
      requires Valid() && forall id :: id in registry ==> id in order
      modifies this
      ensures Valid() && (State(), error) == ShutDownEach(old(State()), order, stuck, refused)
      ensures error == None ==> registry == map[] && forall k: nat :: !Alive(State(), k)
    {
      hide Global, Step;
      StoppingKeeps(State(), order, stuck, refused);
      if ShutDownEach(State(), order, stuck, refused).1 == None {
        NobodyLeft(State(), order, stuck, refused);
      }
      error := None;
      var i := 0;
      assert order[..0] == [];
      while i < |order|
        invariant i <= |order|
        invariant (State(), error) == ShutDownEach(old(State()), order[..i], stuck, refused)
      {
        assert order[..i + 1][..i] == order[..i];
        var id := order[i];
        if id in registry && registry[id] < |instances| {
          var reply := Send(registry[id], Shutdown(id !in stuck, id in refused));
          if !reply.Refused? {
            registry := registry - {id};
          } else if error.None? {
            error := Some(reply.error);
          }
        }
        i := i + 1;
      }
      assert order[..i] == order;
    }

    method FlushActors(order: seq<SessionId>, refused: set<SessionId>) returns (error: Option<CommandError>)
      requires Valid() && forall id :: id in registry ==> id in order
      modifies this
      ensures Valid() && (State(), error) == FlushEach(old(State()), order, refused)
      ensures error == None ==> forall id :: id in registry ==> StoredAsHeld(State(), id)
    {
      hide Global, Step, StoredAsHeld;
      FlushStoresEverything(State(), order, refused);
      error := None;
      var i := 0;
      assert order[..0] == [];
      while i < |order|
        invariant i <= |order|
        invariant (State(), error) == FlushEach(old(State()), order[..i], refused)
      {
        assert order[..i + 1][..i] == order[..i];
        var id := order[i];
        if id in registry && registry[id] < |instances| {
          var reply := Send(registry[id], Input.Flush(id in refused));
          if reply.Refused? && error.None? {
            error := Some(reply.error);
          }
        }
        i := i + 1;
      }
      assert order[..i] == order;
    }

    method RouteTitleCompletion(id: SessionId, revision: u64, generated: Option<string>, refuse: bool)
      requires Valid()
      modifies this
      ensures Valid() && State() == RouteTitle(old(State()), id, revision, generated, refuse)
    {
      hide Global, Step;
      TitlesKeep(State(), id, "x", revision, generated, refuse);
      if id in registry && registry[id] < |instances| {
        var _ := Send(registry[id], Input.ApplyGeneratedTitle(revision, generated, refuse));
      }
    }
  }

  /** When everyone has been asked to shut down and nobody refused, nobody is left. */
  lemma NobodyLeft(b: Backend, order: seq<SessionId>, stuck: set<SessionId>, refused: set<SessionId>)
    requires Global(b) && forall id :: id in b.registry ==> id in order
    requires ShutDownEach(b, order, stuck, refused).1 == None
    ensures var after := ShutDownEach(b, order, stuck, refused).0;
            after.registry == map[] && forall k: nat :: !Alive(after, k)
  {
    hide Sound, ShutDownEach, TracksRuns;
    StoppingKeeps(b, order, stuck, refused);
    var after := ShutDownEach(b, order, stuck, refused).0;
    assert forall id :: id in b.registry ==> id !in after.registry;
    assert after.registry.Keys == {};
  }
}
