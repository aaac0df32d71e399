/** Opening and creating sessions: how the manager comes by a session's one actor. */
module Openings {
  import opened Prelude
  import opened Titles
  import opened Records
  import opened Transcripts
  import opened Repository
  import opened Projections
  import opened SessionModel
  import opened SessionInvariants
  import opened SessionRuns
  import opened SessionEffects
  import opened SessionTheorems
  import opened SessionAnswers
  import opened Backends

  // ---------- opening ----------

  /** The reply to a caller that opens, creates or deletes a session. */
  datatype Answer =
    | Attachment(snapshot: Snapshot, runId: Option<u64>)
    | Succeeded
    | StoreFailed(error: StoreError)
    | RuntimeFailed
    | InvalidPrompt
    | ActorRefused(refusal: CommandError)

  datatype Client = Client(connection: u64, attachment: u64, channel: nat, jobs: Option<seq<Job>>)

  function AttachTo(b: Backend, k: nat, client: Client): (Backend, Answer)
    requires k < |b.instances|
  {
    var (after, reply) := Ask(b, k, Attach(client.connection, client.attachment, client.channel, client.jobs));
    (after, if reply.Attached? then Attachment(reply.snapshot, None)
            else if reply.Refused? then ActorRefused(reply.error) else ActorRefused(ActorUnavailable))
  }

  /** A registered actor is attached to; otherwise the session is loaded and an actor is spawned for it. */
  function OpenOrAttach(b: Backend, id: SessionId, client: Client, catalog: Catalog, refuse: bool, runtime: bool)
    : (Backend, Answer)
  {
    if id in b.registry && b.registry[id] < |b.instances| then AttachTo(b, b.registry[id], client)
    else match Load(b.sessions, id, refuse)
      case Err(e) => (b, StoreFailed(e))
      case Ok(record) =>
        var loaded := b.(sessions := b.sessions[id := record]);
        if !runtime then (loaded, RuntimeFailed)
        else AttachTo(Spawned(loaded, id, Instance(FromRecord(record, catalog), Opened(record, catalog, loaded.sessions))),
                      |b.instances|, client)
  }

  function Spawned(b: Backend, id: SessionId, instance: Instance): Backend {
    b.(registry := b.registry[id := |b.instances|], instances := b.instances + [instance],
       tracked := Counted(b.tracked, id, false, instance.world.counted))
  }

  /** Nobody alive owns a session that is not registered, so loading it interrupts nobody's run. */
  lemma UnregisteredIsIdle(b: Backend, id: SessionId)
    requires Global(b) && id !in b.registry
    ensures forall k: nat :: Alive(b, k) ==> b.instances[k].world.record.id != id
  {
    hide Sound;
  }

  /** Replacing, adding or removing the row of a session that nobody owns. */
  lemma UnownedRow(b: Backend, id: SessionId, after: Sessions, lastId: int)
    requires Global(b) && id !in b.registry && Orderly(after, lastId) && b.lastId <= lastId
    requires forall other :: other != id ==>
      (other in after <==> other in b.sessions) && (other in after ==> after[other] == b.sessions[other])
    ensures Global(b.(sessions := after, lastId := lastId))
  {
    hide Inv, Orderly, Owned;
    var t := b.(sessions := after, lastId := lastId);
    UnregisteredIsIdle(b, id);
    forall k | 0 <= k < |t.instances| ensures Inv(t.instances[k].origin, Seen(t, k)) {
      assert Alive(b, k) || b.instances[k].world.exited;
      RowChanges(b.instances[k].origin, Seen(b, k), after);
    }
    LaterIdentities(b, t);
  }

  /** An actor does not notice a change of another session's row. */
  lemma RowChanges(origin: Projection, w: World, after: Sessions)
    requires Inv(origin, w)
    requires w.exited || ((w.record.id in after <==> w.record.id in w.sessions)
                          && (w.record.id in after ==> after[w.record.id] == w.sessions[w.record.id]))
    ensures Inv(origin, w.(sessions := after))
  {
    hide Inv;
    ElsewhereKeeps(origin, w, after);
    assert Allowed(w, after);
  }

  lemma LaterIdentities(b: Backend, c: Backend)
    requires Owned(b) && b.lastId <= c.lastId && c == b.(sessions := c.sessions, lastId := c.lastId)
    ensures Owned(c)
  {
    hide TracksRuns;
    assert forall k: nat :: Alive(c, k) <==> Alive(b, k);
    assert TracksRuns(c) by { SameCount(b, c); }
  }

  lemma SameCount(b: Backend, c: Backend)
    requires TracksRuns(b) && c.registry == b.registry && c.instances == b.instances && c.tracked == b.tracked
    ensures TracksRuns(c)
  {
  }

  lemma SpawnKeeps(b: Backend, id: SessionId, instance: Instance)
    requires Global(b) && id !in b.registry && id <= b.lastId
    requires Inv(instance.origin, instance.world) && instance.world.sessions == b.sessions && instance.world.log == []
    requires !instance.world.exited && instance.world.record.id == id
    ensures Global(Spawned(b, id, instance))
  {
    hide Inv, Orderly, Owned;
    var t := Spawned(b, id, instance);
    SpawnKeepsOwners(b, id, instance);
    forall k | 0 <= k < |t.instances| ensures Inv(t.instances[k].origin, Seen(t, k)) {
      if k < |b.instances| {
        assert Seen(t, k) == Seen(b, k);
      } else {
        assert Seen(t, k) == instance.world;
      }
    }
  }

  lemma SpawnKeepsOwners(b: Backend, id: SessionId, instance: Instance)
    requires Owned(b) && id !in b.registry && id <= b.lastId
    requires !instance.world.exited && instance.world.record.id == id
    ensures Owned(Spawned(b, id, instance))
  {
    var t := Spawned(b, id, instance);
    hide TracksRuns;
    SpawnKeepsCount(b, id, instance);
    forall k: nat | Alive(t, k)
      ensures t.instances[k].world.record.id in t.registry && t.registry[t.instances[k].world.record.id] == k
    {
      assert k < |b.instances| ==> t.instances[k] == b.instances[k] && Alive(b, k);
    }
    forall other | other in t.registry
      ensures Alive(t, t.registry[other]) && t.instances[t.registry[other]].world.record.id == other && other <= t.lastId
    {
      assert other != id ==> Alive(b, b.registry[other]) && t.instances[b.registry[other]] == b.instances[b.registry[other]];
    }
  }

  lemma SpawnKeepsCount(b: Backend, id: SessionId, instance: Instance)
    requires Owned(b) && id !in b.registry
    ensures TracksRuns(Spawned(b, id, instance))
  {
    var t := Spawned(b, id, instance);
    CountedChanges(b.tracked, id, false, instance.world.counted);
    forall other | other in b.registry ensures t.instances[t.registry[other]] == b.instances[b.registry[other]] {
      assert Alive(b, b.registry[other]);
    }
  }

  lemma OpenKeeps(b: Backend, id: SessionId, client: Client, catalog: Catalog, refuse: bool, runtime: bool)
    requires Global(b)
    ensures Global(OpenOrAttach(b, id, client, catalog, refuse, runtime).0)
  {
    hide Inv, Orderly, Step, Sound, Owned, OnlyRow;
    GlobalIsOrderly(b);
    var input := Attach(client.connection, client.attachment, client.channel, client.jobs);
    if id in b.registry {
      AskKeeps(b, b.registry[id], input);
    } else if Load(b.sessions, id, refuse).Ok? {
      OrderlyRow(b.sessions, b.lastId, id);
      LoadedIsOrderly(b.sessions, b.lastId, id, refuse);
      var record := Load(b.sessions, id, refuse).value;
      UnownedRow(b, id, b.sessions[id := record], b.lastId);
      var loaded := b.(sessions := b.sessions[id := record], lastId := b.lastId);
      assert loaded == b.(sessions := b.sessions[id := record]);
      if runtime {
        LoadedStarts(b.sessions, id, catalog);
        var instance := Instance(FromRecord(record, catalog), Opened(record, catalog, loaded.sessions));
        SpawnKeeps(loaded, id, instance);
        AskKeeps(Spawned(loaded, id, instance), |b.instances|, input);
      }
    }
  }

  lemma OrderlyRow(sessions: Sessions, lastId: int, id: SessionId)
    requires Orderly(sessions, lastId)
    ensures id in sessions ==> sessions[id].id == id && id <= lastId && Consistent(sessions[id])
  {
    hide Consistent;
  }

  lemma LoadedIsOrderly(sessions: Sessions, lastId: int, id: SessionId, refuse: bool)
    requires Orderly(sessions, lastId) && Load(sessions, id, refuse).Ok?
    ensures Orderly(sessions[id := Load(sessions, id, refuse).value], lastId)
    ensures Load(sessions, id, refuse) == Load(sessions, id, false)
  {
    hide Consistent, Interrupt, Settled;
    LoadRecovers(sessions, id);
    InterruptKeepsId(sessions[id]);
  }

  lemma InterruptKeepsId(r: Record)
    ensures Interrupt(r).id == r.id
  {
  }

  // ---------- creating ----------

  /** A ready catalog must know the model and its reasoning level; any other catalog accepts everything. */
  function ValidateSettings(settings: Settings, catalog: Catalog): Option<CommandError> {
    if !catalog.Ready? then None
    else if FindModel(catalog.models, settings.model) == |catalog.models| then Some(ModelNotFound)
    else if settings.reasoning !in catalog.models[FindModel(catalog.models, settings.model)].reasoningEfforts then
      Some(UnsupportedReasoning)
    else None
  }

  function FindModel(models: seq<ModelInfo>, id: string): (n: nat)
    ensures n <= |models|
    ensures n < |models| ==> models[n].id == id
    ensures forall i :: 0 <= i < n ==> models[i].id != id
  {
    if models == [] || models[0].id == id then 0 else 1 + FindModel(models[1..], id)
  }

  const LEVELS: seq<ReasoningLevel> := [NoReasoning, Minimal, Low, Medium, High, Xhigh, Max]

  function FirstAdvertised(levels: seq<ReasoningLevel>, efforts: seq<ReasoningLevel>): Option<ReasoningLevel> {
    if levels == [] then None
    else if levels[0] in efforts then Some(levels[0])
    else FirstAdvertised(levels[1..], efforts)
  }

  /** The cheapest reasoning level that titles can be generated with. */
  function TitleReasoning(settings: Settings, catalog: Catalog): Option<ReasoningLevel> {
    if !catalog.Ready? then Some(settings.reasoning)
    else if FindModel(catalog.models, settings.model) == |catalog.models| then None
    else FirstAdvertised(LEVELS, catalog.models[FindModel(catalog.models, settings.model)].reasoningEfforts)
  }

  lemma {:induction false} SomeAdvertised(levels: seq<ReasoningLevel>, efforts: seq<ReasoningLevel>, level: ReasoningLevel)
    requires level in levels && level in efforts
    ensures FirstAdvertised(levels, efforts).Some?
    ensures FirstAdvertised(levels, efforts).value in efforts
  {
    if levels[0] !in efforts {
      SomeAdvertised(levels[1..], efforts, level);
    }
  }

  function Rank(level: ReasoningLevel): nat {
    match level
    case NoReasoning => 0
    case Minimal => 1
    case Low => 2
    case Medium => 3
    case High => 4
    case Xhigh => 5
    case Max => 6
  }

  lemma LevelsByRank()
    ensures |LEVELS| == 7 && forall level: ReasoningLevel :: LEVELS[Rank(level)] == level
  {
  }

  lemma {:induction false} CheapestFirst(levels: seq<ReasoningLevel>, efforts: seq<ReasoningLevel>)
    ensures FirstAdvertised(levels, efforts).Some? ==>
      exists i :: 0 <= i < |levels| && levels[i] == FirstAdvertised(levels, efforts).value
                  && forall k :: 0 <= k < i ==> levels[k] !in efforts
  {
    if levels != [] && levels[0] !in efforts {
      CheapestFirst(levels[1..], efforts);
      if FirstAdvertised(levels, efforts).Some? {
        var i :| 0 <= i < |levels| - 1 && levels[1..][i] == FirstAdvertised(levels[1..], efforts).value
                 && forall k :: 0 <= k < i ==> levels[1..][k] !in efforts;
        assert levels[i + 1] == levels[1..][i];
        assert forall k :: 0 < k < i + 1 ==> levels[k] == levels[1..][k - 1];
      }
    }
  }

  /** After validation the title's reasoning level exists: of those that the model advertises it is the cheapest. */
  lemma ValidatedHasTitleReasoning(settings: Settings, catalog: Catalog)
    requires ValidateSettings(settings, catalog) == None
    ensures TitleReasoning(settings, catalog).Some?
    ensures !catalog.Ready? ==> TitleReasoning(settings, catalog).value == settings.reasoning
    ensures catalog.Ready? ==>
      var efforts := catalog.models[FindModel(catalog.models, settings.model)].reasoningEfforts;
      var level := TitleReasoning(settings, catalog).value;
      level in efforts && forall other :: other in efforts ==> Rank(level) <= Rank(other)
  {
    if catalog.Ready? {
      LevelsByRank();
      assert settings.reasoning == LEVELS[Rank(settings.reasoning)];
      var efforts := catalog.models[FindModel(catalog.models, settings.model)].reasoningEfforts;
      SomeAdvertised(LEVELS, efforts, settings.reasoning);
      CheapestFirst(LEVELS, efforts);
      var level := FirstAdvertised(LEVELS, efforts).value;
      var i :| 0 <= i < |LEVELS| && LEVELS[i] == level && forall k :: 0 <= k < i ==> LEVELS[k] !in efforts;
      forall other | other in efforts ensures Rank(level) <= Rank(other) {
        assert LEVELS[Rank(other)] == other;
        RankOfLevel(i);
      }
    }
  }

  lemma RankOfLevel(i: nat)
    requires i < |LEVELS|
    ensures Rank(LEVELS[i]) == i
  {
  }

  /** Settings are valid exactly if the catalog is not ready, or its first entry for the model advertises the level. */
  lemma ValidationMeans(settings: Settings, catalog: Catalog)
    ensures ValidateSettings(settings, catalog) == None <==>
      !catalog.Ready? || Advertised(catalog.models, settings.model, settings.reasoning)
    ensures ValidateSettings(settings, catalog) == Some(ModelNotFound) <==>
      catalog.Ready? && forall m :: m in catalog.models ==> m.id != settings.model
  {
    if catalog.Ready? {
      var n := FindModel(catalog.models, settings.model);
      if n < |catalog.models| {
        assert FirstEntry(catalog.models, settings.model, n);
        assert catalog.models[n] in catalog.models;
      }
    }
  }

  /** The record of a session whose first run could not even start. */
  function FailedStart(r: Record, prompt: string, runId: u64, failure: Failure): Record {
    r.(transcript := [User(prompt), Item.Failed(runId, failure)], turns := [Turn(0, runId, 0, TurnStatus.Failed)],
       history := [])
  }

  /** Rewrites whatever the record holds into one failed turn on the first prompt. */
  method RecordFailedStart(r: Record, prompt: string, runId: u64, failure: Failure) returns (failed: Record)
    ensures failed == FailedStart(r, prompt, runId, failure)
  {
    var transcript := if |r.transcript| > 1 then r.transcript[..1] else r.transcript;
    if transcript == [] || transcript[0] != User(prompt) {
      transcript := [User(prompt)];
    }
    transcript := transcript + [Item.Failed(runId, failure)];
    var turns := if |r.turns| > 1 then r.turns[..1] else r.turns;
    if turns == [] {
      turns := [Turn(0, runId, 0, TurnStatus.Failed)];
    } else {
      turns := turns[0 := turns[0].(ordinal := 0, runId := runId, promptPosition := 0, status := TurnStatus.Failed)];
    }
    failed := r.(transcript := transcript, turns := turns, history := []);
  }

  /** A failed start is a consistent record with nothing running, so that reloading does not change it. */
  lemma FailedStartIsConsistent(r: Record, prompt: string, runId: u64, failure: Failure)
    ensures Consistent(FailedStart(r, prompt, runId, failure)) && !Transcripts.Open(FailedStart(r, prompt, runId, failure))
    ensures Interrupt(FailedStart(r, prompt, runId, failure)) == FailedStart(r, prompt, runId, failure)
  {
    var f := FailedStart(r, prompt, runId, failure);
    assert f.transcript[..0] == [] && f.turns[..0] == [] && f.transcript[1..] == [Item.Failed(runId, failure)];
    assert [Item.Failed(runId, failure)][..0] == [];
    SettledHasNoIds(f.turns);
    assert f.transcript + [] == f.transcript;
  }

  function RemoveRow(sessions: Sessions, id: SessionId, refuse: bool): Result<Sessions, StoreError> {
    if id > I64_MAX then Err(OutOfRange)
    else if refuse then Err(DatabaseFailed)
    else if id !in sessions then Err(NotFound)
    else Ok(sessions - {id})
  }

  /** The failed start is stored; if even that fails the session is removed again, if possible. */
  function PersistFailedStart(sessions: Sessions, failed: Record, refuse: bool, refuseRemoval: bool)
    : (Sessions, Option<StoreError>)
  {
    match Checkpoint(sessions, failed, refuse)
    case Ok(after) => (after, None)
    case Err(e) =>
      (match RemoveRow(sessions, failed.id, refuseRemoval) case Ok(after) => after case Err(_) => sessions, Some(e))
  }

  datatype Conditions = Conditions(refuse: bool, startup: Option<Failure>, refuseFailed: bool, refuseRemoval: bool)

  /** Stores a new session with its first prompt already running, and starts its actor on it. */
  function Create(b: Backend, cwd: seq<byte>, prompt: string, settings: Settings, now: int, catalog: Catalog,
                  client: Client, conditions: Conditions): (Backend, Answer)
  {
    if Blank(prompt) then (b, InvalidPrompt)
    else if ValidateSettings(settings, catalog).Some? then
      (b, ActorRefused(ValidateSettings(settings, catalog).value))
    else if settings.contextTokens > I64_MAX then (b, StoreFailed(OutOfRange))
    else if conditions.refuse || !(0 <= b.lastId < I64_MAX) then (b, StoreFailed(DatabaseFailed))
    else
      var id: SessionId := b.lastId + 1;
      var record := Materialized(id, Materialize(cwd, FallbackTitle(prompt), settings, prompt, 0, now));
      var stored := b.(sessions := b.sessions[id := record], lastId := id);
      if conditions.startup.Some? then
        var (after, error) := PersistFailedStart(stored.sessions, FailedStart(record, prompt, 0, conditions.startup.value),
                                                 conditions.refuseFailed, conditions.refuseRemoval);
        (stored.(sessions := after), if error.Some? then StoreFailed(error.value) else RuntimeFailed)
      else
        var world := SpawnedMaterialized(record, catalog, prompt, stored.sessions);
        var (attached, answer) := AttachTo(Spawned(stored, id, Instance(world.projection, world)), |b.instances|, client);
        (attached, if answer.Attachment? then answer.(runId := Some(0)) else answer)
  }

  lemma CreateKeeps(b: Backend, cwd: seq<byte>, prompt: string, settings: Settings, now: int, catalog: Catalog,
                    client: Client, conditions: Conditions)
    requires Global(b)
    ensures Global(Create(b, cwd, prompt, settings, now, catalog, client, conditions).0)
  {
    hide Global, ValidateSettings, Blank, FallbackTitle, PersistFailedStart, FailedStart, Materialized, AttachTo;
    hide SpawnedMaterialized;
    if settings.contextTokens <= I64_MAX && 0 <= b.lastId < I64_MAX {
      var request := Materialize(cwd, FallbackTitle(prompt), settings, prompt, 0, now);
      CreatedKeeps(b, request);
      var id: SessionId := b.lastId + 1;
      var record := Materialized(id, request);
      var stored := b.(sessions := b.sessions[id := record], lastId := id);
      if conditions.startup.Some? {
        FailedStartStored(stored, record, prompt, conditions);
      } else {
        StartedKeeps(stored, id, request, catalog, client);
      }
    }
  }

  lemma CreatedKeeps(b: Backend, request: Materialize)
    requires Global(b) && 0 <= b.lastId < I64_MAX
    ensures var id: SessionId := b.lastId + 1;
            var stored := b.(sessions := b.sessions[id := Materialized(id, request)], lastId := id);
            && Global(stored) && id !in stored.registry && Materialized(id, request).id == id
  {
    hide Inv, Orderly, Sound, Owned;
    GlobalIsOrderly(b);
    FreshId(b);
    var id: SessionId := b.lastId + 1;
    MaterializedIsConsistent(id, request);
    OrderlyWith(b.sessions, b.lastId, Materialized(id, request), id);
    UnownedRow(b, id, b.sessions[id := Materialized(id, request)], id);
  }

  lemma FreshWorld(record: Record, catalog: Catalog, prompt: string, sessions: Sessions)
    ensures var w := SpawnedMaterialized(record, catalog, prompt, sessions);
            && w.sessions == sessions && w.record == record && w.log == [] && w.channels == map[]
            && !w.exited && !w.deleting && !w.shuttingDown && w.dirty == None
  {
  }

  lemma StartedKeeps(stored: Backend, id: SessionId, request: Materialize, catalog: Catalog, client: Client)
    requires Global(stored) && id !in stored.registry && id <= stored.lastId && request.runId == 0
    requires id in stored.sessions && stored.sessions[id] == Materialized(id, request)
    ensures var world := SpawnedMaterialized(Materialized(id, request), catalog, request.prompt, stored.sessions);
            Global(AttachTo(Spawned(stored, id, Instance(world.projection, world)), |stored.instances|, client).0)
  {
    hide Inv, Global, Step;
    MaterializedStarts(id, request, catalog, stored.sessions);
    var world := SpawnedMaterialized(Materialized(id, request), catalog, request.prompt, stored.sessions);
    var spawned := Spawned(stored, id, Instance(world.projection, world));
    SpawnKeeps(stored, id, Instance(world.projection, world));
    AskKeeps(spawned, |stored.instances|, Attach(client.connection, client.attachment, client.channel, client.jobs));
  }

  /** Identities are given out in order, so a new one belongs to no stored session and no actor. */
  lemma FreshId(b: Backend)
    requires Global(b) && 0 <= b.lastId < U64_MAX
    ensures var id: SessionId := b.lastId + 1; id !in b.sessions && id !in b.registry
  {
    hide Inv, Consistent;
  }

  lemma OrderlyWith(sessions: Sessions, lastId: int, r: Record, id: SessionId)
    requires Orderly(sessions, lastId) && r.id == id && lastId <= id && Consistent(r)
    ensures Orderly(sessions[id := r], id)
  {
    hide Consistent;
  }

  lemma FailedStartStored(stored: Backend, record: Record, prompt: string, conditions: Conditions)
    requires Global(stored) && record.id in stored.sessions && record.id !in stored.registry && conditions.startup.Some?
    requires stored.sessions[record.id] == record
    ensures Global(stored.(sessions := PersistFailedStart(
              stored.sessions, FailedStart(record, prompt, 0, conditions.startup.value),
              conditions.refuseFailed, conditions.refuseRemoval).0))
  {
    hide Inv, Storable, Consistent, Sound, Owned, Orderly;
    GlobalIsOrderly(stored);
    var failed := FailedStart(record, prompt, 0, conditions.startup.value);
    FailedStartIsConsistent(record, prompt, 0, conditions.startup.value);
    var after := PersistFailedStart(stored.sessions, failed, conditions.refuseFailed, conditions.refuseRemoval).0;
    FailedStartOrderly(stored.sessions, stored.lastId, failed, conditions.refuseFailed, conditions.refuseRemoval);
    UnownedRow(stored, record.id, after, stored.lastId);
    assert stored.(sessions := after, lastId := stored.lastId) == stored.(sessions := after);
  }

  lemma FailedStartOrderly(sessions: Sessions, lastId: int, failed: Record, refuse: bool, refuseRemoval: bool)
    requires Orderly(sessions, lastId) && Consistent(failed) && failed.id in sessions
    requires sessions[failed.id].cwd == failed.cwd && sessions[failed.id].createdAt == failed.createdAt
    ensures Orderly(PersistFailedStart(sessions, failed, refuse, refuseRemoval).0, lastId)
  {
    hide Consistent, Storable;
  }
}
