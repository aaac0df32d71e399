/** What every command of the manager answers, and what it leaves stored and registered. */
module ManagerAnswers {
  import opened Prelude
  import opened Titles
  import opened Records
  import opened Transcripts
  import opened Repository
  import opened Projections
  import opened SessionModel
  import opened SessionInvariants
  import opened SessionTheorems
  import opened SessionAnswers
  import opened Deletions
  import opened Backends
  import opened Openings
  import opened Removals
  import opened Shutdowns

  // ---------- opening ----------

  /** The session's actor as the registry finds it. */
  function Actor(b: Backend, id: SessionId): World
    requires id in b.registry && b.registry[id] < |b.instances|
  {
    b.instances[b.registry[id]].world
  }

  /** A client is attached to a registered actor: it has the present state, and is an observer from here on. */
  predicate AttachedTo(b: Backend, id: SessionId, client: Client, answer: Answer) {
    && id in b.registry && b.registry[id] < |b.instances| && client.jobs.Some?
    && answer.Attachment? && ShowsNow(answer.snapshot, Actor(b, id).projection, client.jobs.value, |Actor(b, id).observers|)
    && Actor(b, id).observers != []
    && Actor(b, id).observers[|Actor(b, id).observers| - 1] ==
       Observer(client.connection, client.attachment, client.channel)
  }

  /** An open session is attached to, unless it is being deleted; nothing stored changes. */
  lemma OpenSessionAnswers(b: Backend, id: SessionId, client: Client, catalog: Catalog, refuse: bool, runtime: bool)
    requires Global(b) && id in b.registry
    requires client.channel !in Actor(b, id).channels
    ensures b.registry[id] < |b.instances|
    ensures var (after, answer) := OpenOrAttach(b, id, client, catalog, refuse, runtime);
            && after.sessions == b.sessions && after.registry == b.registry
            && (answer.Attachment? <==> !Actor(b, id).deleting && client.jobs.Some?)
            && (answer.Attachment? ==>
                  && AttachedTo(after, id, client, answer) && answer.runId == None
                  && Actor(after, id).record == Actor(b, id).record)
  {
    hide Global, Step, ShowsNow;
    GlobalIsOrderly(b);
    var k := b.registry[id];
    AttachAnswers(Seen(b, k), client.connection, client.attachment, client.channel, client.jobs);
    RefusedOrAttached(Seen(b, k), client);
  }

  lemma RefusedOrAttached(w: World, client: Client)
    requires !w.exited
    ensures var reply := Step(w, Attach(client.connection, client.attachment, client.channel, client.jobs)).1;
            reply.Attached? || reply.Refused?
  {
  }

  /**
    A session without an actor is opened exactly if its row can be loaded, a runtime can be started and its
    jobs can be listed: the row is then interrupted, its one actor is registered, and the client sees it.
   */
  lemma LoadedSessionAnswers(b: Backend, id: SessionId, client: Client, catalog: Catalog, refuse: bool, runtime: bool)
    requires Global(b) && id !in b.registry
    ensures var (after, answer) := OpenOrAttach(b, id, client, catalog, refuse, runtime);
            var loads := !refuse && id <= I64_MAX && id in b.sessions
                         && PositionsInRange(|b.sessions[id].transcript| + if Transcripts.Open(b.sessions[id]) then 1 else 0);
            && (!loads ==> answer.StoreFailed? && after == b)
            && (loads ==> after.sessions == b.sessions[id := Interrupt(b.sessions[id])])
            && (loads && !runtime ==> answer == RuntimeFailed && after.registry == b.registry)
            && (loads && runtime ==>
                  && after.registry == b.registry[id := |b.instances|] && |after.instances| == |b.instances| + 1
                  && Actor(after, id).record == Interrupt(b.sessions[id]) && Actor(after, id).harness.active.None?
                  && Actor(after, id).projection.catalog == catalog
                  && (if client.jobs.Some? then AttachedTo(after, id, client, answer) && answer.runId == None
                      else answer == ActorRefused(JobFailure)))
  {
    hide Global, Load, Interrupt, ShowsNow, Consistent, AttachTo, Spawned, Opened, AttachedTo, Open;
    GlobalIsOrderly(b);
    OrderlyRow(b.sessions, b.lastId, id);
    LoadDecides(b, id, refuse);
    if Load(b.sessions, id, refuse).Ok? && runtime {
      FirstAttachment(b.(sessions := b.sessions[id := Interrupt(b.sessions[id])]), id, Interrupt(b.sessions[id]), catalog, client);
    }
  }

  /** The actor of a session just loaded is registered, and its first client attached. */
  lemma FirstAttachment(loaded: Backend, id: SessionId, record: Record, catalog: Catalog, client: Client)
    ensures var instance := Instance(FromRecord(record, catalog), Opened(record, catalog, loaded.sessions));
            var (after, answer) := AttachTo(Spawned(loaded, id, instance), |loaded.instances|, client);
            && after.sessions == loaded.sessions
            && after.registry == loaded.registry[id := |loaded.instances|] && |after.instances| == |loaded.instances| + 1
            && Actor(after, id).record == record && Actor(after, id).harness.active.None?
            && Actor(after, id).projection.catalog == catalog
            && (if client.jobs.Some? then AttachedTo(after, id, client, answer) && answer.runId == None
                else answer == ActorRefused(JobFailure))
  {
    hide Step, ShowsNow;
    var world := Opened(record, catalog, loaded.sessions);
    var spawned := Spawned(loaded, id, Instance(FromRecord(record, catalog), world));
    assert Seen(spawned, |loaded.instances|) == world;
    AttachAnswers(world, client.connection, client.attachment, client.channel, client.jobs);
    RefusedForJobs(world, client);
  }

  lemma RefusedForJobs(w: World, client: Client)
    requires !w.exited && !w.deleting && client.channel !in w.channels
    ensures var reply := Step(w, Attach(client.connection, client.attachment, client.channel, client.jobs)).1;
            if client.jobs.Some? then reply.Attached? else reply == Refused(JobFailure)
  {
  }

  lemma LoadDecides(b: Backend, id: SessionId, refuse: bool)
    requires id in b.sessions ==> b.sessions[id].id == id && Consistent(b.sessions[id])
    ensures Load(b.sessions, id, refuse).Ok? <==>
      !refuse && id <= I64_MAX && id in b.sessions
      && PositionsInRange(|b.sessions[id].transcript| + if Transcripts.Open(b.sessions[id]) then 1 else 0)
    ensures Load(b.sessions, id, refuse).Ok? ==> Load(b.sessions, id, refuse).value == Interrupt(b.sessions[id])
  {
    hide Consistent, Interrupt, PositionsInRange;
    if id in b.sessions {
      InterruptionRecovers(b.sessions[id]);
    }
  }

  // ---------- creating ----------

  /** A new session's row: the prompt as its running first turn, and everything else as it was asked for. */
  predicate AsAsked(r: Record, id: SessionId, cwd: seq<byte>, prompt: string, settings: Settings, now: int) {
    && r.id == id && r.cwd == cwd && r.settings == settings && r.createdAt == now && r.lastActivity == now
    && r.title == FallbackTitle(prompt) && r.titleSource == Fallback && r.titleRevision == 0
    && r.transcript == [User(prompt)] && r.turns == [Turn(0, 0, 0, Running)] && r.history == [] && r.plan == []
  }

  /** What stands in the way of a new session before anything is stored. */
  function Obstacle(b: Backend, prompt: string, settings: Settings, catalog: Catalog, refuse: bool): Option<Answer> {
    if forall c :: c in prompt ==> IsWhitespace(c) then Some(InvalidPrompt)
    else if ValidateSettings(settings, catalog).Some? then Some(ActorRefused(ValidateSettings(settings, catalog).value))
    else if settings.contextTokens > I64_MAX then Some(StoreFailed(OutOfRange))
    else if refuse || !(0 <= b.lastId < I64_MAX) then Some(StoreFailed(DatabaseFailed))
    else None
  }

  /**
    A new session is stored as it was asked for, under the next identity, unless something stands in the
    way, and then nothing changes. Its actor is registered with the first run active; if that cannot start,
    the row becomes one failed turn with that failure, or is removed again if even that cannot be stored.
   */
  lemma CreationAnswers(b: Backend, cwd: seq<byte>, prompt: string, settings: Settings, now: int, catalog: Catalog,
                        client: Client, conditions: Conditions)
    requires Global(b)
    ensures var (after, answer) := Create(b, cwd, prompt, settings, now, catalog, client, conditions);
            var obstacle := Obstacle(b, prompt, settings, catalog, conditions.refuse);
            && (obstacle.Some? ==> after == b && answer == obstacle.value)
            && (obstacle.None? ==>
                  && after.lastId == b.lastId + 1
                  && (conditions.startup.None? ==>
                        Starts(b, after, answer, cwd, prompt, settings, now, catalog, client))
                  && (conditions.startup.Some? ==>
                        Fails(b, after, answer, cwd, prompt, settings, now, conditions)))
  {
    hide Global, ValidateSettings, Blank, FallbackTitle, SpawnedMaterialized, AttachTo, Starts, Fails, Materialized;
    hide PersistFailedStart, FailedStart, IsWhitespace;
    BlankMeans(prompt);
    if Obstacle(b, prompt, settings, catalog, conditions.refuse).None? {
      var request := Materialize(cwd, FallbackTitle(prompt), settings, prompt, 0, now);
      if conditions.startup.Some? {
        StartFails(b, request, conditions);
      } else {
        StartSucceeds(b, request, catalog, client);
      }
    }
  }

  predicate Starts(b: Backend, after: Backend, answer: Answer, cwd: seq<byte>, prompt: string, settings: Settings,
                   now: int, catalog: Catalog, client: Client)
    requires 0 <= b.lastId < I64_MAX
  {
    var id: SessionId := b.lastId + 1;
    && id in after.sessions && AsAsked(after.sessions[id], id, cwd, prompt, settings, now)
    && after.sessions == b.sessions[id := after.sessions[id]]
    && after.registry == b.registry[id := |b.instances|] && |after.instances| == |b.instances| + 1
    && Actor(after, id).record == after.sessions[id] && Actor(after, id).harness.active.Some?
    && Actor(after, id).harness.active.value.id == 0 && Actor(after, id).harness.active.value.prompt == prompt
    && Actor(after, id).projection.catalog == catalog
    && (if client.jobs.Some? then AttachedTo(after, id, client, answer) && answer.runId == Some(0)
        else answer == ActorRefused(JobFailure))
  }

  lemma StartSucceeds(b: Backend, request: Materialize, catalog: Catalog, client: Client)
    requires 0 <= b.lastId < I64_MAX && request.runId == 0 && request.title == FallbackTitle(request.prompt)
    ensures var id: SessionId := b.lastId + 1;
            var record := Materialized(id, request);
            var stored := b.(sessions := b.sessions[id := record], lastId := id);
            var world := SpawnedMaterialized(record, catalog, request.prompt, stored.sessions);
            var (after, answer) := AttachTo(Spawned(stored, id, Instance(world.projection, world)), |b.instances|, client);
            && after.lastId == id
            && Starts(b, after, if answer.Attachment? then answer.(runId := Some(0)) else answer,
                      request.cwd, request.prompt, request.settings, request.createdAt, catalog, client)
  {
    hide Step, ShowsNow, FallbackTitle;
    var id: SessionId := b.lastId + 1;
    var record := Materialized(id, request);
    var stored := b.(sessions := b.sessions[id := record], lastId := id);
    var world := SpawnedMaterialized(record, catalog, request.prompt, stored.sessions);
    var spawned := Spawned(stored, id, Instance(world.projection, world));
    assert Seen(spawned, |b.instances|) == world;
    AttachAnswers(world, client.connection, client.attachment, client.channel, client.jobs);
    RefusedForJobs(world, client);
  }

  predicate Fails(b: Backend, after: Backend, answer: Answer, cwd: seq<byte>, prompt: string, settings: Settings,
                  now: int, c: Conditions)
    requires 0 <= b.lastId < I64_MAX && c.startup.Some?
  {
    var id: SessionId := b.lastId + 1;
    && after.registry == b.registry && after.instances == b.instances
    && after.sessions - {id} == b.sessions - {id}
    && (if !c.refuseFailed then
          && answer == RuntimeFailed && id in after.sessions
          && var r := after.sessions[id];
             && r.transcript == [User(prompt), Item.Failed(0, c.startup.value)]
             && r.turns == [Turn(0, 0, 0, TurnStatus.Failed)] && r.history == []
             && AsAsked(r.(transcript := [User(prompt)], turns := [Turn(0, 0, 0, Running)]), id, cwd, prompt, settings, now)
        else answer.StoreFailed? && (id in after.sessions <==> c.refuseRemoval))
  }

  lemma StartFails(b: Backend, request: Materialize, c: Conditions)
    requires 0 <= b.lastId < I64_MAX && request.runId == 0 && request.title == FallbackTitle(request.prompt)
    requires c.startup.Some? && request.settings.contextTokens <= I64_MAX
    ensures var id: SessionId := b.lastId + 1;
            var record := Materialized(id, request);
            var stored := b.(sessions := b.sessions[id := record], lastId := id);
            var (after, error) := PersistFailedStart(stored.sessions, FailedStart(record, request.prompt, 0, c.startup.value),
                                                     c.refuseFailed, c.refuseRemoval);
            Fails(b, stored.(sessions := after), if error.Some? then StoreFailed(error.value) else RuntimeFailed,
                  request.cwd, request.prompt, request.settings, request.createdAt, c)
  {
    hide FallbackTitle, Storable;
    var id: SessionId := b.lastId + 1;
    var record := Materialized(id, request);
    var failed := FailedStart(record, request.prompt, 0, c.startup.value);
    FailedIsStorable(id, request, c.startup.value);
    CheckpointDecides(b.sessions[id := record], failed, c.refuseFailed);
  }

  lemma FailedIsStorable(id: SessionId, request: Materialize, failure: Failure)
    requires id <= I64_MAX && request.settings.contextTokens <= I64_MAX
    ensures Storable(FailedStart(Materialized(id, request), request.prompt, 0, failure))
  {
  }

  // ---------- deleting ----------

  /** Actors only rewrite rows: what is stored stays stored. */
  lemma {:induction false} MeanwhileRemovesNothing(b: Backend, steps: seq<(nat, Input)>, id: SessionId)
    requires Global(b) && id in b.sessions
    ensures id in Meanwhile(b, steps).sessions
  {
    hide Global, Step;
    if steps != [] {
      var before := Meanwhile(b, steps[..|steps| - 1]);
      MeanwhileKeeps(b, steps[..|steps| - 1]);
      MeanwhileRemovesNothing(b, steps[..|steps| - 1], id);
      var (k, input) := steps[|steps| - 1];
      if k < |before.instances| && ClientInput(input) {
        AskRemovesNothing(before, k, input, id);
      }
    }
  }

  lemma AskRemovesNothing(b: Backend, k: nat, input: Input, id: SessionId)
    requires Global(b) && k < |b.instances| && !input.Elsewhere? && id in b.sessions
    ensures id in Ask(b, k, input).0.sessions
  {
    hide Inv, Step, Orderly, Sound, Owned;
    AskSteps(b, k, input);
  }

  /** A session without an actor is deleted exactly if its row can be. */
  lemma StoredDeletionAnswers(b: Backend, id: SessionId, d: Deletion)
    requires Global(b) && id !in b.registry
    ensures var (after, answer) := Delete(b, id, d);
            if id <= I64_MAX && !d.refuseRemoval && id in b.sessions then
              answer == Succeeded && after == b.(sessions := b.sessions - {id})
            else answer.StoreFailed? && after == b
  {
  }

  /**
    A session with an actor is deleted exactly if the actor accepts changes, its jobs stop, its record with
    the run cancelled can be written, and the row can be removed. Otherwise the row stays, and the actor is
    no longer registered either way.
   */
  lemma LiveDeletionAnswers(b: Backend, id: SessionId, d: Deletion)
    requires Global(b) && id in b.registry
    ensures b.registry[id] < |b.instances|
    ensures var (after, answer) := Delete(b, id, d);
            var prepared := Ask(b, b.registry[id], PrepareDelete(d.jobsStop, d.refuse)).0.instances[b.registry[id]].world;
            && id !in after.registry
            && (answer == Succeeded <==>
                  && Accepting(Actor(b, id)) && d.jobsStop && !d.refuse && Storable(prepared.record)
                  && !d.refuseRemoval)
            && (answer == Succeeded ==> id !in after.sessions)
            && (answer != Succeeded && id in b.sessions ==> id in after.sessions)
  {
    hide Global, Meanwhile, Storable, Step, RemoveRow;
    GlobalIsOrderly(b);
    RegisteredOwner(b, id);
    var k := b.registry[id];
    InvAt(b, k);
    PreparationAnswers(b.instances[k].origin, Seen(b, k), d.jobsStop, d.refuse);
    AskKeeps(b, k, PrepareDelete(d.jobsStop, d.refuse));
    var asked := Ask(b, k, PrepareDelete(d.jobsStop, d.refuse)).0;
    var reply := Ask(b, k, PrepareDelete(d.jobsStop, d.refuse)).1;
    PreparedRow(b, id, d);
    MeanwhileKeeps(asked, d.first);
    var prepared := Meanwhile(asked, d.first);
    if id in b.sessions {
      AskRemovesNothing(b, k, PrepareDelete(d.jobsStop, d.refuse), id);
      MeanwhileRemovesNothing(asked, d.first, id);
      AskRemovesNothing(prepared, k, AbortDelete, id);
    }
    DeletionSteps(b, id, d);
    RemovalDecides(prepared.sessions, id, d.refuseRemoval);
    if reply == Success && RemoveRow(prepared.sessions, id, d.refuseRemoval).Ok? {
      DeleteKeepsOwnership(b, id, d);
    }
  }

  lemma RemovalDecides(sessions: Sessions, id: SessionId, refuse: bool)
    ensures RemoveRow(sessions, id, refuse).Ok? <==> id <= I64_MAX && !refuse && id in sessions
  {
  }

  /** A preparation that succeeds has stored the record, so that there is a row, and its identity is in range. */
  lemma PreparedRow(b: Backend, id: SessionId, d: Deletion)
    requires Global(b) && id in b.registry && b.registry[id] < |b.instances|
    ensures var (asked, reply) := Ask(b, b.registry[id], PrepareDelete(d.jobsStop, d.refuse));
            && (reply == Success ==> id in asked.sessions && id <= I64_MAX)
            && (reply != Success ==> reply.Refused?)
  {
    hide Global, Step;
    RegisteredOwner(b, id);
    var k := b.registry[id];
    InvAt(b, k);
    AskSteps(b, k, PrepareDelete(d.jobsStop, d.refuse));
    PreparationAnswers(b.instances[k].origin, Seen(b, k), d.jobsStop, d.refuse);
  }

  /** The answer of a deletion by what its steps answered. */
  lemma DeletionSteps(b: Backend, id: SessionId, d: Deletion)
    requires id in b.registry && b.registry[id] < |b.instances|
    ensures var (asked, reply) := Ask(b, b.registry[id], PrepareDelete(d.jobsStop, d.refuse));
            var prepared := Meanwhile(asked, d.first);
            var (after, answer) := Delete(b, id, d);
            && id !in after.registry
            && (answer == Succeeded <==> !reply.Refused? && RemoveRow(prepared.sessions, id, d.refuseRemoval).Ok?)
            && (answer != Succeeded ==> after.sessions == Ask(prepared, b.registry[id], AbortDelete).0.sessions)
  {
    hide Step, Meanwhile, RemoveRow;
  }

  // ---------- flushing and shutting down everybody ----------

  predicate EachOnce(ids: seq<SessionId>) {
    forall i, j :: 0 <= i < j < |ids| ==> ids[i] != ids[j]
  }

  /** The session's actor can write what it has not written yet. */
  predicate Flushes(b: Backend, id: SessionId, refused: set<SessionId>) {
    id in b.registry && b.registry[id] < |b.instances| ==>
      !Actor(b, id).deleting && CanWrite(Actor(b, id), id in refused)
  }

  predicate FlushFault(w: World, error: CommandError) {
    if w.deleting then error == Deleting else error.PersistenceFailure?
  }

  lemma FlushReplyIs(b: Backend, id: SessionId, refused: set<SessionId>)
    requires Global(b) && id in b.registry && b.registry[id] < |b.instances|
    ensures var reply := Ask(b, b.registry[id], Input.Flush(id in refused)).1;
            && (reply.Refused? <==> !Flushes(b, id, refused))
            && (reply.Refused? ==> FlushFault(Actor(b, id), reply.error))
  {
    hide Global, Step, Storable;
    RegisteredOwner(b, id);
    var k := b.registry[id];
    InvAt(b, k);
    FlushAnswers(b.instances[k].origin, Seen(b, k), id in refused);
  }

  lemma OtherActorsStay(b: Backend, id: SessionId, input: Input, other: SessionId)
    requires Global(b) && id in b.registry && other in b.registry && other != id
    ensures b.registry[id] < |b.instances| && b.registry[other] < |b.instances|
    ensures Ask(b, b.registry[id], input).0.instances[b.registry[other]] == b.instances[b.registry[other]]
  {
    hide Sound, Step, TracksRuns;
    RegisteredOwner(b, id);
    RegisteredOwner(b, other);
  }

  /** Flushing everybody succeeds exactly if everybody can write; the others are left alone. */
  lemma {:induction false} FlushingAnswers(b: Backend, ids: seq<SessionId>, refused: set<SessionId>)
    requires Global(b) && EachOnce(ids)
    ensures var (after, error) := FlushEach(b, ids, refused);
            && (error == None <==> forall i :: 0 <= i < |ids| ==> Flushes(b, ids[i], refused))
            && forall id :: id in b.registry && id !in ids ==>
                 b.registry[id] < |b.instances| == |after.instances|
                 && after.instances[b.registry[id]] == b.instances[b.registry[id]]
  {
    hide Global, Step, Flushes, CanWrite;
    GlobalIsOrderly(b);
    if ids != [] {
      var shorter, id := ids[..|ids| - 1], ids[|ids| - 1];
      assert forall i :: 0 <= i < |shorter| ==> shorter[i] == ids[i];
      FlushingAnswers(b, shorter, refused);
      FlushStoresEverything(b, shorter, refused);
      var before := FlushEach(b, shorter, refused).0;
      assert id !in shorter;
      SameActorFlushes(b, before, id, refused);
      if id in b.registry {
        FlushReplyIs(before, id, refused);
        forall other | other in b.registry && other !in ids
          ensures FlushEach(b, ids, refused).0.instances[b.registry[other]] == b.instances[b.registry[other]]
        {
          assert other !in shorter && other != id;
          OtherActorsStay(before, id, Input.Flush(id in refused), other);
        }
      } else {
        NobodyToFlush(b, id, refused);
      }
    }
  }

  /** What is reported is why the first of them that could not write could not. */
  lemma {:induction false} FirstFlushFault(b: Backend, ids: seq<SessionId>, refused: set<SessionId>) returns (i: nat)
    requires Global(b) && EachOnce(ids) && FlushEach(b, ids, refused).1.Some?
    ensures i < |ids| && ids[i] in b.registry && b.registry[ids[i]] < |b.instances|
    ensures !Flushes(b, ids[i], refused) && forall j :: 0 <= j < i ==> Flushes(b, ids[j], refused)
    ensures FlushFault(Actor(b, ids[i]), FlushEach(b, ids, refused).1.value)
  {
    hide Global, Step, Flushes, FlushFault;
    GlobalIsOrderly(b);
    var shorter, id := ids[..|ids| - 1], ids[|ids| - 1];
    assert forall i :: 0 <= i < |shorter| ==> shorter[i] == ids[i];
    FlushingAnswers(b, shorter, refused);
    FlushStoresEverything(b, shorter, refused);
    var before := FlushEach(b, shorter, refused).0;
    if FlushEach(b, shorter, refused).1.Some? {
      i := FirstFlushFault(b, shorter, refused);
    } else {
      i := |ids| - 1;
      SameActorFlushes(b, before, id, refused);
      FlushReplyIs(before, id, refused);
    }
  }

  lemma NobodyToFlush(b: Backend, id: SessionId, refused: set<SessionId>)
    requires id !in b.registry
    ensures Flushes(b, id, refused)
  {
  }

  lemma SameActorFlushes(b: Backend, c: Backend, id: SessionId, refused: set<SessionId>)
    requires c.registry == b.registry && |c.instances| == |b.instances|
    requires id in b.registry && b.registry[id] < |b.instances| ==> c.instances[b.registry[id]] == b.instances[b.registry[id]]
    ensures Flushes(c, id, refused) == Flushes(b, id, refused)
  {
    hide CanWrite;
  }

  /** The session's actor can leave: its jobs stop, and it can write what it has not written yet. */
  predicate Stops(b: Backend, id: SessionId, stuck: set<SessionId>, refused: set<SessionId>) {
    Flushes(b, id, refused) && (id in b.registry && b.registry[id] < |b.instances| ==> id !in stuck)
  }

  predicate StopFault(w: World, refuse: bool, error: CommandError) {
    if w.deleting then error == Deleting
    else if CanWrite(w, refuse) then error == JobFailure
    else error.PersistenceFailure?
  }

  lemma ShutdownReplyIs(b: Backend, id: SessionId, stuck: set<SessionId>, refused: set<SessionId>)
    requires Global(b) && id in b.registry && b.registry[id] < |b.instances|
    ensures var reply := Ask(b, b.registry[id], Shutdown(id !in stuck, id in refused)).1;
            && (reply.Refused? <==> !Stops(b, id, stuck, refused))
            && (reply.Refused? ==> StopFault(Actor(b, id), id in refused, reply.error))
  {
    hide Global, Step, Storable;
    RegisteredOwner(b, id);
    var k := b.registry[id];
    InvAt(b, k);
    ShutdownAnswers(b.instances[k].origin, Seen(b, k), id !in stuck, id in refused);
  }

  /** Shutting everybody down succeeds exactly if everybody can leave; those who cannot stay registered. */
  lemma {:induction false} StoppingAnswers(b: Backend, ids: seq<SessionId>, stuck: set<SessionId>, refused: set<SessionId>)
    requires Global(b) && EachOnce(ids)
    ensures var (after, error) := ShutDownEach(b, ids, stuck, refused);
            && (error == None <==> forall i :: 0 <= i < |ids| ==> Stops(b, ids[i], stuck, refused))
            && (forall id :: id in after.registry <==>
                  id in b.registry && !(id in ids && Stops(b, id, stuck, refused)))
            && (forall id :: id in after.registry ==> after.registry[id] == b.registry[id])
            && forall id :: id in b.registry && id !in ids ==>
                 b.registry[id] < |b.instances| == |after.instances|
                 && after.instances[b.registry[id]] == b.instances[b.registry[id]]
  {
    hide Global, Step, Stops, Flushes;
    GlobalIsOrderly(b);
    if ids != [] {
      var shorter, id := ids[..|ids| - 1], ids[|ids| - 1];
      assert forall i :: 0 <= i < |shorter| ==> shorter[i] == ids[i];
      StoppingAnswers(b, shorter, stuck, refused);
      StoppingKeeps(b, shorter, stuck, refused);
      var before := ShutDownEach(b, shorter, stuck, refused).0;
      assert id !in shorter && forall other :: other in ids <==> other in shorter || other == id;
      if id in b.registry {
        assert before.registry[id] == b.registry[id];
        SameActorStops(b, before, id, stuck, refused);
        ShutdownReplyIs(before, id, stuck, refused);
        forall other | other in b.registry && other !in ids
          ensures ShutDownEach(b, ids, stuck, refused).0.instances[b.registry[other]] == b.instances[b.registry[other]]
        {
          OtherActorsStay(before, id, Shutdown(id !in stuck, id in refused), other);
        }
      } else {
        NobodyToStop(b, id, stuck, refused);
      }
    }
  }

  /** What is reported is why the first of them that could not leave could not. */
  lemma {:induction false} FirstStopFault(b: Backend, ids: seq<SessionId>, stuck: set<SessionId>, refused: set<SessionId>)
    returns (i: nat)
    requires Global(b) && EachOnce(ids) && ShutDownEach(b, ids, stuck, refused).1.Some?
    ensures i < |ids| && ids[i] in b.registry && b.registry[ids[i]] < |b.instances|
    ensures !Stops(b, ids[i], stuck, refused) && forall j :: 0 <= j < i ==> Stops(b, ids[j], stuck, refused)
    ensures StopFault(Actor(b, ids[i]), ids[i] in refused, ShutDownEach(b, ids, stuck, refused).1.value)
  {
    hide Global, Step, Stops, Flushes, StopFault;
    GlobalIsOrderly(b);
    var shorter, id := ids[..|ids| - 1], ids[|ids| - 1];
    assert forall i :: 0 <= i < |shorter| ==> shorter[i] == ids[i];
    StoppingAnswers(b, shorter, stuck, refused);
    StoppingKeeps(b, shorter, stuck, refused);
    var before := ShutDownEach(b, shorter, stuck, refused).0;
    if ShutDownEach(b, shorter, stuck, refused).1.Some? {
      i := FirstStopFault(b, shorter, stuck, refused);
    } else {
      i := |ids| - 1;
      assert id !in shorter && id in before.registry && id in b.registry;
      SameActorStops(b, before, id, stuck, refused);
      ShutdownReplyIs(before, id, stuck, refused);
    }
  }

  lemma NobodyToStop(b: Backend, id: SessionId, stuck: set<SessionId>, refused: set<SessionId>)
    requires id !in b.registry
    ensures Stops(b, id, stuck, refused)
  {
  }

  lemma SameActorStops(b: Backend, c: Backend, id: SessionId, stuck: set<SessionId>, refused: set<SessionId>)
    requires id in b.registry && b.registry[id] < |b.instances| == |c.instances|
    requires id in c.registry && c.registry[id] == b.registry[id] && c.instances[b.registry[id]] == b.instances[b.registry[id]]
    ensures Stops(c, id, stuck, refused) == Stops(b, id, stuck, refused)
  {
    hide CanWrite;
  }

  // ---------- renaming ----------

  /** A session nobody has open is renamed in the store, exactly if the store takes it. */
  lemma StoredRenameAnswers(b: Backend, id: SessionId, title: SessionTitle, refuse: bool)
    requires Global(b) && id !in b.registry
    ensures var (after, answer) := RenameSession(b, id, title, refuse);
            if id in b.sessions && !refuse && id <= I64_MAX && b.sessions[id].titleRevision < I64_MAX then
              var row := b.sessions[id];
              && answer == Succeeded
              && after == b.(sessions := b.sessions[id :=
                   row.(title := title, titleSource := Manual, titleRevision := row.titleRevision + 1)])
            else answer.StoreFailed? && after == b
  {
    if id in b.sessions {
      RenameStores(b.sessions, id, title);
    }
  }

  /** A session that is open is renamed by its actor, and both the row and what clients see carry the title. */
  lemma LiveRenameAnswers(b: Backend, id: SessionId, title: SessionTitle, refuse: bool)
    requires Global(b) && id in b.registry
    ensures b.registry[id] < |b.instances|
    ensures var (after, answer) := RenameSession(b, id, title, refuse);
            && (answer == Succeeded <==>
                  Accepting(Actor(b, id)) && !refuse && id <= I64_MAX && Actor(b, id).record.titleRevision < I64_MAX)
            && (answer == Succeeded ==>
                  && id in after.sessions && after.sessions[id].title == title && after.sessions[id].titleSource == Manual
                  && after.registry == b.registry && |after.instances| == |b.instances|
                  && Actor(after, id).record.title == title && Actor(after, id).projection.summary.title == title)
  {
    hide Global, Step;
    RegisteredOwner(b, id);
    var k := b.registry[id];
    InvAt(b, k);
    RenameAnswers(b.instances[k].origin, Seen(b, k), title, refuse);
  }

  // ---------- generated titles ----------

  /** A generated title for a session nobody has open goes nowhere, whatever it is. */
  lemma LateTitleIsDropped(b: Backend, id: SessionId, revision: u64, generated: Option<string>, refuse: bool)
    requires id !in b.registry
    ensures RouteTitle(b, id, revision, generated, refuse) == b
  {
  }

  predicate TitleWanted(w: World, revision: u64, refuse: bool) {
    Accepting(w) && !refuse && w.record.id <= I64_MAX && revision < I64_MAX
    && w.record.titleSource != Manual && w.record.titleRevision == revision
  }

  predicate TitleStored(before: Sessions, after: Sessions, id: SessionId, title: SessionTitle, revision: u64) {
    && revision < I64_MAX && id in before
    && after == before[id := before[id].(title := title, titleSource := Generated, titleRevision := revision + 1)]
  }

  /** One for an open session is cleaned and stored exactly while it is current and no user has chosen a title. */
  lemma RoutedTitleAnswers(b: Backend, id: SessionId, revision: u64, generated: string, refuse: bool)
    requires Global(b) && id in b.registry
    ensures b.registry[id] < |b.instances|
    ensures var after := RouteTitle(b, id, revision, Some(generated), refuse);
            var w := Actor(b, id);
            var clean := SanitizeGeneratedTitle(generated);
            && after.registry == b.registry && |after.instances| == |b.instances|
            && (if clean.Some? && TitleWanted(w, revision, refuse) then
                  TitleStored(b.sessions, after.sessions, id, clean.value, revision)
                  && Actor(after, id).projection.summary.title == clean.value
                else after.sessions == b.sessions && Actor(after, id).record == w.record
                     && Actor(after, id).projection == w.projection)
  {
    hide Global, Step, SanitizeGeneratedTitle, Announces;
    RegisteredOwner(b, id);
    var k := b.registry[id];
    InvAt(b, k);
    GeneratedTitleAnswers(b.instances[k].origin, Seen(b, k), revision, Some(generated), refuse);
  }
}
