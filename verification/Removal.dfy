/** Deleting a session through the manager: when ownership survives it, and when it does not. */
module Removals {
  import opened Records
  import opened Transcripts
  import opened Repository
  import opened Projections
  import opened SessionModel
  import opened SessionInvariants
  import opened SessionRuns
  import opened SessionEffects
  import opened SessionTheorems
  import opened Deletions
  import opened Backends
  import opened Openings

  // ---------- deleting ----------

  /** A deletion's environment: what the actor meets, what the store does, and what others do meanwhile. */
  datatype Deletion = Deletion(
    jobsStop: bool, refuse: bool, first: seq<(nat, Input)>, refuseRemoval: bool, second: seq<(nat, Input)>)

  function Abandon(b: Backend, k: nat, id: SessionId): Backend
    requires k < |b.instances|
  {
    Forget(Ask(b, k, AbortDelete).0, id)
  }

  /** Prepare, remove, announce; after a failure the actor is told to abort, and forgotten either way. */
  function Delete(b: Backend, id: SessionId, d: Deletion): (Backend, Answer) {
    if id !in b.registry || b.registry[id] >= |b.instances| then
      (match RemoveRow(b.sessions, id, d.refuseRemoval)
       case Ok(after) => (b.(sessions := after), Succeeded)
       case Err(e) => (b, StoreFailed(e)))
    else
      var k := b.registry[id];
      var (asked, reply) := Ask(b, k, PrepareDelete(d.jobsStop, d.refuse));
      var prepared := Meanwhile(asked, d.first);
      if reply.Refused? then (Abandon(prepared, k, id), ActorRefused(reply.error))
      else match RemoveRow(prepared.sessions, id, d.refuseRemoval)
        case Err(e) => (Abandon(prepared, k, id), StoreFailed(e))
        case Ok(after) =>
          var removed := Meanwhile(prepared.(sessions := after), d.second);
          (Forget(Ask(removed, k, FinishDelete).0, id), Succeeded)
  }

  /** The registered actor has failed to shut down before: it refuses to prepare, and then to abort. */
  predicate RefusesToLeave(b: Backend, id: SessionId) {
    && id in b.registry && b.registry[id] < |b.instances|
    && b.instances[b.registry[id]].world.shuttingDown && !b.instances[b.registry[id]].world.deleting
  }

  predicate Stopped(b: Backend, k: nat) {
    && Alive(b, k)
    && b.instances[k].world.deleting && b.instances[k].world.harness.active.None?
  }

  lemma StoppedIsThere(b: Backend, k: nat)
    requires Stopped(b, k)
    ensures k < |b.instances|
  {
  }

  lemma AskKeepsStopped(b: Backend, k: nat, input: Input, j: nat)
    requires Global(b) && Stopped(b, j) && k < |b.instances| && ClientInput(input)
    ensures var after := Ask(b, k, input).0;
            Stopped(after, j) && after.instances[j].world.record.id == b.instances[j].world.record.id
  {
    hide Inv, Step, Sound, Owned;
    if j == k {
      AskSteps(b, k, input);
      StaysStopped(Seen(b, k), input);
    }
  }

  lemma {:induction false} MeanwhileStopped(b: Backend, steps: seq<(nat, Input)>, j: nat)
    requires Global(b) && Stopped(b, j)
    ensures var after := Meanwhile(b, steps);
            Stopped(after, j) && after.instances[j].world.record.id == b.instances[j].world.record.id
  {
    hide Global, Ask, Stopped;
    if steps != [] {
      var before := Meanwhile(b, steps[..|steps| - 1]);
      MeanwhileKeeps(b, steps[..|steps| - 1]);
      MeanwhileStopped(b, steps[..|steps| - 1], j);
      var (k, input) := steps[|steps| - 1];
      if k < |before.instances| && ClientInput(input) {
        AskKeepsStopped(before, k, input, j);
      }
    }
  }

  /** What is not stored is not stored by anything that actors do. */
  lemma {:induction false} MeanwhileCreatesNothing(b: Backend, steps: seq<(nat, Input)>, id: SessionId)
    requires Global(b) && id !in b.sessions
    ensures id !in Meanwhile(b, steps).sessions
  {
    hide Global, Step;
    if steps != [] {
      var before := Meanwhile(b, steps[..|steps| - 1]);
      MeanwhileKeeps(b, steps[..|steps| - 1]);
      MeanwhileCreatesNothing(b, steps[..|steps| - 1], id);
      var (k, input) := steps[|steps| - 1];
      if k < |before.instances| && ClientInput(input) {
        AskCreatesNothing(before, k, input, id);
      }
    }
  }

  lemma AskCreatesNothing(b: Backend, k: nat, input: Input, id: SessionId)
    requires Global(b) && k < |b.instances| && !input.Elsewhere? && id !in b.sessions
    ensures id !in Ask(b, k, input).0.sessions
  {
    hide Inv, Step, Orderly, Sound, Owned;
    AskSteps(b, k, input);
  }

  lemma RemovedIsOrderly(b: Backend, id: SessionId, refuse: bool)
    requires Global(b) && RemoveRow(b.sessions, id, refuse).Ok?
    ensures Orderly(RemoveRow(b.sessions, id, refuse).value, b.lastId)
  {
    hide Inv, Consistent;
  }

  /** The manager removes the row of a session whose actor has been prepared for it. */
  lemma RemovalKeeps(b: Backend, k: nat, id: SessionId, refuse: bool)
    requires Global(b) && Stopped(b, k) && b.instances[k].world.record.id == id && RemoveRow(b.sessions, id, refuse).Ok?
    ensures Global(b.(sessions := RemoveRow(b.sessions, id, refuse).value))
    ensures id !in RemoveRow(b.sessions, id, refuse).value
  {
    hide Inv, Orderly, Owned, NoDeletion;
    RemovedIsOrderly(b, id, refuse);
    var t := b.(sessions := RemoveRow(b.sessions, id, refuse).value);
    forall j | 0 <= j < |t.instances| ensures Inv(t.instances[j].origin, Seen(t, j)) {
      if j == k {
        OwnRowGoes(b.instances[k].origin, Seen(b, k), t.sessions);
      } else {
        OnlyOneOwns(b, j, k);
        RowChanges(b.instances[j].origin, Seen(b, j), t.sessions);
      }
    }
    LaterIdentities(b, t);
  }

  lemma OwnRowGoes(origin: Projection, w: World, after: Sessions)
    requires Inv(origin, w) && w.deleting && w.record.id !in after
    ensures Inv(origin, w.(sessions := after))
  {
    hide Inv;
    ElsewhereKeeps(origin, w, after);
    assert Allowed(w, after);
  }

  lemma OnlyOneOwns(b: Backend, j: nat, k: nat)
    requires Owned(b) && Alive(b, k) && j < |b.instances| && j != k
    ensures b.instances[j].world.exited || b.instances[j].world.record.id != b.instances[k].world.record.id
  {
    hide TracksRuns;
    assert !b.instances[j].world.exited ==> Alive(b, j);
  }

  /** A prepared actor leaves when told to abort or to finish. */
  lemma StoppedLeaves(b: Backend, k: nat, input: Input)
    requires Global(b) && Stopped(b, k) && (input == AbortDelete || input == FinishDelete)
    ensures Global(Forget(Ask(b, k, input).0, b.instances[k].world.record.id))
    ensures Ask(b, k, input).0.instances[k].world.exited && Ask(b, k, input).0.sessions == b.sessions
  {
    hide Inv, Sound, Owned, Emit, CloseSenders, ChannelIds;
    LeavesNow(Seen(b, k), input);
    ExitedIsForgotten(b, k, input);
  }

  lemma LeavesNow(w: World, input: Input)
    requires !w.exited && w.deleting && (input == AbortDelete || input == FinishDelete)
    ensures Step(w, input).0.exited && Step(w, input).0.sessions == w.sessions
  {
    hide Emit, CloseSenders, ChannelIds;
    if input == FinishDelete {
      FinishTouches(w);
      FinishExits(w);
      FinishHandled(w);
    }
  }

  /** Preparing makes any other registered actor stop and stay until it is told to leave. */
  lemma PreparationStops(b: Backend, k: nat, jobsStop: bool, refuse: bool)
    requires Global(b) && Alive(b, k)
    requires !b.instances[k].world.shuttingDown || b.instances[k].world.deleting
    ensures var after := Ask(b, k, PrepareDelete(jobsStop, refuse)).0;
            && Global(after) && Stopped(after, k)
            && after.registry == b.registry && |after.instances| == |b.instances|
            && after.instances[k].world.record.id == b.instances[k].world.record.id
            && after.lastId == b.lastId
  {
    hide Inv, Step, Sound, Owned, Orderly, InStep;
    var input := PrepareDelete(jobsStop, refuse);
    AskKeeps(b, k, input);
    AskSteps(b, k, input);
    InvAt(b, k);
    InvGivesInStep(b.instances[k].origin, Seen(b, k));
    PreparationGuard(b.instances[k].origin, Seen(b, k), jobsStop, refuse);
    DeletingIsIdle(Seen(b, k));
  }

  lemma DeletingIsIdle(w: World)
    requires InStep(w)
    ensures w.deleting ==> w.harness.active.None?
  {
    hide Aligned, WrittenBehind;
  }

  /** The other actor refuses both, without any effect. */
  lemma RefusalChangesNothing(b: Backend, id: SessionId, jobsStop: bool, refuse: bool)
    requires Global(b) && RefusesToLeave(b, id)
    ensures var k := b.registry[id];
            var (after, reply) := Ask(b, k, PrepareDelete(jobsStop, refuse));
            after.instances[k].world == Seen(b, k) && after.sessions == b.sessions && reply == Refused(ActorUnavailable)
  {
    hide Inv, Sound, Orderly, DeletePrepared;
    var k := b.registry[id];
    InvAt(b, k);
    PreparationGuard(b.instances[k].origin, Seen(b, k), jobsStop, refuse);
  }

  /**
    Deleting keeps single ownership exactly when the registered actor has not failed to shut down before.
    A deletion that succeeds leaves no row, no registry entry and no actor of that session.
   */
  lemma DeleteKeepsOwnership(b: Backend, id: SessionId, d: Deletion)
    requires Global(b)
    ensures Global(Delete(b, id, d).0) <==> !RefusesToLeave(b, id)
    ensures Delete(b, id, d).1 == Succeeded ==>
      var after := Delete(b, id, d).0;
      && Global(after) && id !in after.sessions && id !in after.registry
      && forall k: nat :: Alive(after, k) ==> after.instances[k].world.record.id != id
  {
    hide Global, Ask, Stopped, Meanwhile;
    GlobalIsOrderly(b);
    if id !in b.registry {
      DeleteUnowned(b, id, d);
    } else if RefusesToLeave(b, id) {
      DeleteOrphans(b, id, d);
    } else {
      DeleteOwned(b, id, d);
    }
  }

  /** A running actor that no longer accepts changes and is not being deleted. */
  predicate Stuck(b: Backend, k: nat) {
    Alive(b, k) && b.instances[k].world.shuttingDown && !b.instances[k].world.deleting
  }

  lemma StaysStuck(w: World, input: Input)
    requires InStep(w) && !w.exited && w.shuttingDown && !w.deleting && ClientInput(input)
    ensures var v := Step(w, input).0; !v.exited && v.shuttingDown && !v.deleting
  {
    hide InStep, Handle, Effect;
    if !input.Receive? && !input.CloseReceiver? && !input.Elsewhere? {
      HandleEffects(w, input);
      EffectKeepsExit(w, Handle(w, input).0);
    }
  }

  lemma {:induction false} MeanwhileStuck(b: Backend, steps: seq<(nat, Input)>, j: nat)
    requires Global(b) && Stuck(b, j)
    ensures Stuck(Meanwhile(b, steps), j)
  {
    hide Global, Step, InStep, Inv;
    if steps != [] {
      var before := Meanwhile(b, steps[..|steps| - 1]);
      MeanwhileKeeps(b, steps[..|steps| - 1]);
      MeanwhileStuck(b, steps[..|steps| - 1], j);
      var (k, input) := steps[|steps| - 1];
      if k < |before.instances| && ClientInput(input) && k == j {
        InvAt(before, k);
        InvGivesInStep(before.instances[k].origin, Seen(before, k));
        StaysStuck(Seen(before, k), input);
      }
    }
  }

  /** Refused twice, the actor is as it was; only its registration is gone. */
  lemma OrphanIs(b: Backend, id: SessionId, d: Deletion)
    requires Global(b) && RefusesToLeave(b, id)
    ensures var k := b.registry[id];
            var prepared := Meanwhile(Ask(b, k, PrepareDelete(d.jobsStop, d.refuse)).0, d.first);
            && Global(prepared) && k < |prepared.instances| && Stuck(prepared, k)
            && prepared.instances[k].world.record.id == id
            && Delete(b, id, d).0 == Forget(Installed(prepared, k, Seen(prepared, k)), id)
  {
    hide Sound, Step, Meanwhile;
    var k := b.registry[id];
    RegisteredOwner(b, id);
    RefusalChangesNothing(b, id, d.jobsStop, d.refuse);
    AskKeeps(b, k, PrepareDelete(d.jobsStop, d.refuse));
    var asked := Ask(b, k, PrepareDelete(d.jobsStop, d.refuse)).0;
    MeanwhileStuck(asked, d.first, k);
    MeanwhileKeeps(asked, d.first);
    SameOwner(asked, d.first, k);
    AbortRefused(Seen(Meanwhile(asked, d.first), k));
  }

  /** The orphan: still running, no longer registered, and its session still stored. */
  lemma DeleteOrphans(b: Backend, id: SessionId, d: Deletion)
    requires Global(b) && RefusesToLeave(b, id)
    ensures var (after, answer) := Delete(b, id, d);
            && answer == ActorRefused(ActorUnavailable) && id !in after.registry && Stuck(after, b.registry[id])
            && !Global(after)
  {
    hide Sound, Step, Meanwhile, Owned;
    OrphanIs(b, id, d);
    RefusalChangesNothing(b, id, d.jobsStop, d.refuse);
    UnregisteredIsNotOwned(Delete(b, id, d).0, b.registry[id], id);
  }

  lemma AbortRefused(w: World)
    requires !w.exited && !w.deleting
    ensures Step(w, AbortDelete) == (w, Refused(ProjectionFailure))
  {
  }

  lemma {:induction false} SameOwner(b: Backend, steps: seq<(nat, Input)>, j: nat)
    requires Global(b) && j < |b.instances|
    ensures Meanwhile(b, steps).instances[j].world.record.id == b.instances[j].world.record.id
  {
    hide Global, Step;
    if steps != [] {
      var before := Meanwhile(b, steps[..|steps| - 1]);
      MeanwhileKeeps(b, steps[..|steps| - 1]);
      SameOwner(b, steps[..|steps| - 1], j);
      var (k, input) := steps[|steps| - 1];
      if k < |before.instances| && ClientInput(input) && k == j {
        AskSteps(before, k, input);
      }
    }
  }

  lemma DeleteUnowned(b: Backend, id: SessionId, d: Deletion)
    requires Global(b) && id !in b.registry
    ensures Global(Delete(b, id, d).0)
    ensures Delete(b, id, d).1 == Succeeded ==>
      var after := Delete(b, id, d).0;
      && id !in after.sessions && id !in after.registry
      && forall k: nat :: Alive(after, k) ==> after.instances[k].world.record.id != id
  {
    hide Inv, Orderly, Sound, Owned;
    if RemoveRow(b.sessions, id, d.refuseRemoval).Ok? {
      var after := RemoveRow(b.sessions, id, d.refuseRemoval).value;
      RemovedIsOrderly(b, id, d.refuseRemoval);
      UnownedRow(b, id, after, b.lastId);
      assert b.(sessions := after, lastId := b.lastId) == b.(sessions := after);
      UnregisteredIsIdle(b.(sessions := after), id);
    }
  }

  lemma DeleteOwned(b: Backend, id: SessionId, d: Deletion)
    requires Global(b) && id in b.registry && !RefusesToLeave(b, id)
    ensures Global(Delete(b, id, d).0)
    ensures Delete(b, id, d).1 == Succeeded ==>
      var after := Delete(b, id, d).0;
      && id !in after.sessions && id !in after.registry
      && forall k: nat :: Alive(after, k) ==> after.instances[k].world.record.id != id
  {
    hide Global, Ask, Stopped, Meanwhile;
    RegisteredOwner(b, id);
    var k := b.registry[id];
    PreparationStops(b, k, d.jobsStop, d.refuse);
    var asked := Ask(b, k, PrepareDelete(d.jobsStop, d.refuse)).0;
    MeanwhileKeeps(asked, d.first);
    MeanwhileStopped(asked, d.first, k);
    var prepared := Meanwhile(asked, d.first);
    StoppedLeaves(prepared, k, AbortDelete);
    var removal := RemoveRow(prepared.sessions, id, d.refuseRemoval);
    if Ask(b, k, PrepareDelete(d.jobsStop, d.refuse)).1.Refused? || removal.Err? {
      NotDone(b, id, d);
    } else {
      RemovalKeeps(prepared, k, id, d.refuseRemoval);
      var gone := prepared.(sessions := removal.value);
      StoppedIgnoresStore(prepared, k, removal.value);
      MeanwhileKeeps(gone, d.second);
      MeanwhileStopped(gone, d.second, k);
      MeanwhileCreatesNothing(gone, d.second, id);
      var removed := Meanwhile(gone, d.second);
      StoppedLeaves(removed, k, FinishDelete);
      var after := Forget(Ask(removed, k, FinishDelete).0, id);
      UnregisteredIsIdle(after, id);
    }
  }

  lemma NotDone(b: Backend, id: SessionId, d: Deletion)
    requires id in b.registry && b.registry[id] < |b.instances|
    requires var (asked, reply) := Ask(b, b.registry[id], PrepareDelete(d.jobsStop, d.refuse));
             reply.Refused? || RemoveRow(Meanwhile(asked, d.first).sessions, id, d.refuseRemoval).Err?
    ensures Delete(b, id, d).1 != Succeeded
    ensures Delete(b, id, d).0 ==
      Abandon(Meanwhile(Ask(b, b.registry[id], PrepareDelete(d.jobsStop, d.refuse)).0, d.first), b.registry[id], id)
  {
    hide Ask, Meanwhile;
  }

  lemma StoppedIgnoresStore(b: Backend, k: nat, sessions: Sessions)
    requires Stopped(b, k)
    ensures Stopped(b.(sessions := sessions), k)
  {
  }

  // ---------- what the observers hear ----------

  /** The backend right before the actor of a deletion that succeeds is told to finish. */
  function BeforeTheEnd(b: Backend, id: SessionId, d: Deletion): (after: Backend)
    requires id in b.registry && b.registry[id] < |b.instances|
    ensures |after.instances| == |b.instances|
  {
    var prepared := Meanwhile(Ask(b, b.registry[id], PrepareDelete(d.jobsStop, d.refuse)).0, d.first);
    Meanwhile(match RemoveRow(prepared.sessions, id, d.refuseRemoval)
              case Ok(after) => prepared.(sessions := after)
              case Err(_) => prepared, d.second)
  }

  /** Between these two the actor of this session announced its deletion and left; the row was gone already. */
  ghost predicate EndsHeard(b: Backend, c: Backend, k: nat, id: SessionId) {
    && k < |b.instances| && k < |c.instances|
    && Seen(b, k).record.id == id && Seen(b, k).deleting && !Seen(b, k).exited && id !in b.sessions
    && c.instances[k].world.exited && HearsDeletion(Seen(b, k), c.instances[k].world)
  }

  /**
    When the manager has deleted a session that had an actor, everybody who was still listening to it ends
    with exactly one `Deleted`, after all that was queued before, whatever others did in the meantime.
   */
  lemma DeletionIsHeard(b: Backend, id: SessionId, d: Deletion)
    requires Global(b) && id in b.registry && Delete(b, id, d).1 == Succeeded
    ensures b.registry[id] < |b.instances|
    ensures EndsHeard(BeforeTheEnd(b, id, d), Delete(b, id, d).0, b.registry[id], id)
  {
    hide Global, Ask, Stopped, Meanwhile, Step, HearsDeletion;
    RegisteredOwner(b, id);
    var k := b.registry[id];
    if RefusesToLeave(b, id) {
      DeleteOrphans(b, id, d);
    } else {
      PreparationStops(b, k, d.jobsStop, d.refuse);
      var asked := Ask(b, k, PrepareDelete(d.jobsStop, d.refuse)).0;
      MeanwhileKeeps(asked, d.first);
      MeanwhileStopped(asked, d.first, k);
      var prepared := Meanwhile(asked, d.first);
      RemovalKeeps(prepared, k, id, d.refuseRemoval);
      var gone := prepared.(sessions := RemoveRow(prepared.sessions, id, d.refuseRemoval).value);
      StoppedIgnoresStore(prepared, k, gone.sessions);
      MeanwhileKeeps(gone, d.second);
      MeanwhileStopped(gone, d.second, k);
      MeanwhileCreatesNothing(gone, d.second, id);
      FinishIsHeard(Meanwhile(gone, d.second), k);
      AskLength(Meanwhile(gone, d.second), k, FinishDelete);
    }
  }

  lemma FinishIsHeard(b: Backend, k: nat)
    requires Global(b) && Stopped(b, k)
    ensures !Seen(b, k).exited && Seen(b, k).deleting
    ensures var after := Ask(b, k, FinishDelete).0.instances[k].world;
            after.exited && HearsDeletion(Seen(b, k), after)
  {
    hide Inv, Step, HearsDeletion, NoDeletion, Owned;
    AnnouncedOnce(b.instances[k].origin, Seen(b, k));
  }

  // ---------- how long an orphan stays ----------

  /**
    The actor that a refused deletion has orphaned leaves once everybody else has dropped their handles,
    and ownership holds again, exactly if it has no run by then.
   */
  lemma OrphanLeavesWhenIdle(b: Backend, id: SessionId, d: Deletion)
    requires Global(b) && RefusesToLeave(b, id)
    ensures b.registry[id] < |Delete(b, id, d).0.instances|
    ensures var orphaned := Delete(b, id, d).0;
            var after := Ask(orphaned, b.registry[id], HandlesDropped).0;
            && after.sessions == orphaned.sessions
            && (Global(after) <==> orphaned.instances[b.registry[id]].world.harness.active.None?)
  {
    hide Sound, Owned, Step, Meanwhile, Delete;
    OrphanIs(b, id, d);
    var k := b.registry[id];
    var prepared := Meanwhile(Ask(b, k, PrepareDelete(d.jobsStop, d.refuse)).0, d.first);
    InvAt(prepared, k);
    LeavingWithoutHandles(prepared.instances[k].origin, Seen(prepared, k), HandlesDropped);
    DroppingUnregistered(prepared, k, id);
    if prepared.instances[k].world.harness.active.None? {
      ExitedIsForgotten(prepared, k, HandlesDropped);
    } else {
      UnregisteredIsNotOwned(Forget(Ask(prepared, k, HandlesDropped).0, id), k, id);
    }
  }

  lemma DroppingUnregistered(b: Backend, k: nat, id: SessionId)
    requires k < |b.instances|
    ensures Ask(Forget(Installed(b, k, Seen(b, k)), id), k, HandlesDropped).0 ==
            Forget(Ask(b, k, HandlesDropped).0, id)
  {
    hide Step, Activity.Operated;
    var orphaned := Forget(Installed(b, k, Seen(b, k)), id);
    assert Seen(orphaned, k) == Seen(b, k);
    assert orphaned.tracked == b.tracked;
  }

  lemma UnregisteredIsNotOwned(b: Backend, k: nat, id: SessionId)
    requires Alive(b, k) && b.instances[k].world.record.id == id && id !in b.registry
    ensures !Global(b)
  {
    hide Sound, TracksRuns;
  }
}
