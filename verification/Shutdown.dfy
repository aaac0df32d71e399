/** Shutting down and flushing all sessions, and routing titles to them. */
module Shutdowns {
  import opened Prelude
  import opened Titles
  import opened Records
  import opened Transcripts
  import opened Repository
  import opened Projections
  import opened SessionModel
  import opened SessionInvariants
  import opened SessionRuns
  import opened Backends
  import opened Openings

  // ---------- shutting down and flushing ----------

  /** Asks the registered actors to shut down; those that fail stay registered. `stuck` jobs do not stop. */
  function ShutDownEach(b: Backend, ids: seq<SessionId>, stuck: set<SessionId>, refused: set<SessionId>)
    : (Backend, Option<CommandError>)
  {
    if ids == [] then (b, None)
    else
      var (before, error) := ShutDownEach(b, ids[..|ids| - 1], stuck, refused);
      var id := ids[|ids| - 1];
      if id !in before.registry || before.registry[id] >= |before.instances| then (before, error)
      else
        var (asked, reply) := Ask(before, before.registry[id], Shutdown(id !in stuck, id in refused));
        if !reply.Refused? then (Forget(asked, id), error)
        else (asked, if error.Some? then error else Some(reply.error))
  }

  lemma ShutdownOutcome(origin: Projection, w: World, jobsStop: bool, refuse: bool)
    requires Inv(origin, w) && !w.exited
    ensures var (after, reply) := Step(w, Shutdown(jobsStop, refuse));
            && (after.exited <==> !reply.Refused?)
            && (reply.Refused? && !w.deleting ==> after.shuttingDown)
            && (!reply.Refused? ==> after.dirty == None && after.record == w.record)
  {
    hide LogKept, StreamsKept, Aligned, WrittenBehind, Flushed, CloseSenders, ChannelIds;
    FlagsKeep(origin, w, w.(shuttingDown := true));
    if !w.deleting {
      FlushKeeps(origin, w.(shuttingDown := true), refuse);
      FlushKeepsFlags(w.(shuttingDown := true), refuse);
      FlushedReply(w.(shuttingDown := true), refuse);
    }
  }

  lemma FlushedReply(w: World, refuse: bool)
    ensures Flushed(w, refuse).1.Refused? || Flushed(w, refuse).1.Success?
  {
    hide Emit, Storable;
  }

  lemma FlushKeepsFlags(w: World, refuse: bool)
    ensures Flushed(w, refuse).0.shuttingDown == w.shuttingDown
  {
    hide Emit, Storable;
    if w.dirty.Some? {
      match Checkpoint(w.sessions, w.dirty.value, refuse)
      case Ok(sessions) => EmitEffect(w.(sessions := sessions, dirty := None), PersistenceWarning(None), 1);
      case Err(e) => EmitEffect(w.(dirty := Some(w.record)), PersistenceWarning(Some(Describe(e))), 1);
    }
  }

  /** Shutting down keeps ownership whatever fails; without a failure every asked actor is gone. */
  lemma {:induction false} StoppingKeeps(
    b: Backend, ids: seq<SessionId>, stuck: set<SessionId>, refused: set<SessionId>)
    requires Global(b)
    ensures var (after, error) := ShutDownEach(b, ids, stuck, refused);
            && Global(after) && |after.instances| == |b.instances|
            && after.registry.Keys <= b.registry.Keys
            && (error == None ==> forall i :: 0 <= i < |ids| ==> ids[i] !in after.registry)
  {
    hide Global, Step;
    if ids != [] {
      StoppingKeeps(b, ids[..|ids| - 1], stuck, refused);
      var (before, error) := ShutDownEach(b, ids[..|ids| - 1], stuck, refused);
      var id := ids[|ids| - 1];
      GlobalIsOrderly(before);
      if id in before.registry {
        var k := before.registry[id];
        RegisteredOwner(before, id);
        InvAt(before, k);
        ShutdownOutcome(before.instances[k].origin, Seen(before, k), id !in stuck, id in refused);
        RefusalsStay(before, k, Shutdown(id !in stuck, id in refused));
      }
      assert forall i :: 0 <= i < |ids| - 1 ==> ids[..|ids| - 1][i] == ids[i];
    }
  }

  lemma RefusalsStay(b: Backend, k: nat, input: Input)
    requires Global(b) && Alive(b, k) && !input.Elsewhere?
    ensures var after := Ask(b, k, input).0;
            if after.instances[k].world.exited then Global(Forget(after, b.instances[k].world.record.id))
            else Global(after)
  {
    hide Inv, Sound, Owned, Orderly, Step;
    AskSteps(b, k, input);
    var after := Step(Seen(b, k), input).0;
    InstallIsSound(b, k, after);
    InstallKeepsOwners(b, k, after);
    ForgetIsSound(Installed(b, k, after), after.record.id);
  }

  /** Flushes the registered actors one after another. */
  function FlushEach(b: Backend, ids: seq<SessionId>, refused: set<SessionId>): (Backend, Option<CommandError>) {
    if ids == [] then (b, None)
    else
      var (before, error) := FlushEach(b, ids[..|ids| - 1], refused);
      var id := ids[|ids| - 1];
      if id !in before.registry || before.registry[id] >= |before.instances| then (before, error)
      else
        var (asked, reply) := Ask(before, before.registry[id], Input.Flush(id in refused));
        (asked, if error.Some? || !reply.Refused? then error else Some(reply.error))
  }

  predicate StoredAsHeld(b: Backend, id: SessionId) {
    && id in b.registry && b.registry[id] < |b.instances|
    && b.instances[b.registry[id]].world.dirty == None
    && id in b.sessions && b.sessions[id] == b.instances[b.registry[id]].world.record
  }

  lemma FlushOutcome(origin: Projection, w: World, refuse: bool)
    requires Inv(origin, w) && !w.exited && Step(w, Input.Flush(refuse)).1.Success?
    ensures var after := Step(w, Input.Flush(refuse)).0;
            && after.dirty == None && after.record == w.record && after.record.id in after.sessions
            && after.sessions[after.record.id] == after.record
  {
    hide LogKept, StreamsKept, Aligned, RowAgrees, Flushed;
    FlushKeeps(origin, w, refuse);
    FlushedReply(w, refuse);
  }

  lemma FlushReply(w: World, refuse: bool)
    ensures var reply := Handle(w, Input.Flush(refuse)).1; reply.Refused? || reply.Success?
  {
    hide Flushed;
    FlushedReply(w, refuse);
  }

  /** When flushing succeeds, every registered session is stored exactly as its actor holds it. */
  lemma {:induction false} FlushStoresEverything(b: Backend, ids: seq<SessionId>, refused: set<SessionId>)
    requires Global(b)
    ensures var (after, error) := FlushEach(b, ids, refused);
            && Global(after) && after.registry == b.registry && |after.instances| == |b.instances|
            && (error == None ==> forall i :: 0 <= i < |ids| && ids[i] in b.registry ==> StoredAsHeld(after, ids[i]))
  {
    hide Global, Step, StoredAsHeld;
    if ids != [] {
      var shorter := ids[..|ids| - 1];
      FlushStoresEverything(b, shorter, refused);
      var (before, error) := FlushEach(b, shorter, refused);
      var id := ids[|ids| - 1];
      GlobalIsOrderly(before);
      if id in before.registry {
        var k := before.registry[id];
        RegisteredOwner(before, id);
        var after := Ask(before, k, Input.Flush(id in refused)).0;
        AskKeeps(before, k, Input.Flush(id in refused));
        if FlushEach(b, ids, refused).1 == None {
          FlushOne(before, id, id in refused);
          forall i | 0 <= i < |ids| && ids[i] in b.registry ensures StoredAsHeld(after, ids[i]) {
            if ids[i] != id {
              assert ids[i] == shorter[i];
              FlushLeavesOthers(before, id, id in refused, ids[i]);
            }
          }
        }
      } else {
        assert forall i :: 0 <= i < |ids| && ids[i] in b.registry ==> i < |shorter| && ids[i] == shorter[i];
      }
    }
  }

  lemma FlushOne(b: Backend, id: SessionId, refuse: bool)
    requires Global(b) && id in b.registry && b.registry[id] < |b.instances|
    ensures !Ask(b, b.registry[id], Input.Flush(refuse)).1.Refused? ==>
      StoredAsHeld(Ask(b, b.registry[id], Input.Flush(refuse)).0, id)
  {
    hide Inv, Sound, Owned, Flushed, StreamsKept, LogKept;
    RegisteredOwner(b, id);
    var k := b.registry[id];
    InvAt(b, k);
    FlushReply(Seen(b, k), refuse);
    if Step(Seen(b, k), Input.Flush(refuse)).1.Success? {
      FlushOutcome(b.instances[k].origin, Seen(b, k), refuse);
    }
  }

  lemma FlushLeavesOthers(b: Backend, id: SessionId, refuse: bool, other: SessionId)
    requires Global(b) && id in b.registry && b.registry[id] < |b.instances| && other != id && StoredAsHeld(b, other)
    ensures StoredAsHeld(Ask(b, b.registry[id], Input.Flush(refuse)).0, other)
  {
    hide Inv, Sound, Owned, Step;
    RegisteredOwner(b, id);
    RegisteredOwner(b, other);
    AskSteps(b, b.registry[id], Input.Flush(refuse));
  }

  // ---------- titles ----------

  /** Renaming goes through the session's actor if it has one, and straight to the store otherwise. */
  function RenameSession(b: Backend, id: SessionId, title: SessionTitle, refuse: bool): (Backend, Answer) {
    if id in b.registry && b.registry[id] < |b.instances| then
      var (after, reply) := Ask(b, b.registry[id], RenameTo(title, refuse));
      (after, if reply.Refused? then ActorRefused(reply.error) else Succeeded)
    else match Rename(b.sessions, id, title, refuse)
      case Ok(r) => (b.(sessions := b.sessions[id := r]), Succeeded)
      case Err(e) => (b, StoreFailed(e))
  }

  /** A generated title reaches only a session that still has an actor. */
  function RouteTitle(b: Backend, id: SessionId, revision: u64, generated: Option<string>, refuse: bool): Backend {
    if id in b.registry && b.registry[id] < |b.instances| then
      Ask(b, b.registry[id], Input.ApplyGeneratedTitle(revision, generated, refuse)).0
    else b
  }

  lemma TitlesKeep(b: Backend, id: SessionId, title: SessionTitle, revision: u64, generated: Option<string>, refuse: bool)
    requires Global(b)
    ensures Global(RenameSession(b, id, title, refuse).0) && Global(RouteTitle(b, id, revision, generated, refuse))
  {
    hide Inv, Orderly, Sound, Owned, Step;
    GlobalIsOrderly(b);
    if id in b.registry {
      AskKeeps(b, b.registry[id], RenameTo(title, refuse));
      AskKeeps(b, b.registry[id], Input.ApplyGeneratedTitle(revision, generated, refuse));
    } else if Rename(b.sessions, id, title, refuse).Ok? {
      RenamedIsOrderly(b.sessions, b.lastId, id, title, refuse);
      var after := b.sessions[id := Rename(b.sessions, id, title, refuse).value];
      UnownedRow(b, id, after, b.lastId);
      assert b.(sessions := after, lastId := b.lastId) == b.(sessions := after);
    }
  }

  lemma RenamedIsOrderly(sessions: Sessions, lastId: int, id: SessionId, title: SessionTitle, refuse: bool)
    requires Orderly(sessions, lastId) && Rename(sessions, id, title, refuse).Ok?
    ensures Orderly(sessions[id := Rename(sessions, id, title, refuse).value], lastId)
  {
    hide Grammar, History;
  }
}
