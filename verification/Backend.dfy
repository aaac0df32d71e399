/**
  All actors over one shared store and one activity tracker: who owns which session, and what one actor's
  step keeps of everybody else's life.
 */
module Backends {
  import opened Prelude
  import opened Records
  import opened Transcripts
  import opened Repository
  import opened Projections
  import opened SessionModel
  import opened SessionInvariants
  import opened SessionRuns
  import opened SessionEffects
  import opened SessionTheorems
  import opened Deletions
  import Activity

  /** One spawned actor; `origin` is the projection it started with. */
  datatype Instance = Instance(origin: Projection, world: World)

  /**
    `instances` lists every actor spawned since the backend started; `registry` holds the handles the
    manager still has, and `tracked` the activity that all of them share.
   */
  datatype Backend = Backend(
    sessions: Sessions, lastId: int, registry: map<SessionId, nat>, instances: seq<Instance>,
    tracked: Activity.Tracked)

  /** A backend that has just started for the first time. */
  const EMPTY: Backend := Backend(map[], 0, map[], [], Activity.NOTHING)

  /** An actor together with the store as it is now. */
  function Seen(b: Backend, k: nat): World
    requires k < |b.instances|
  {
    b.instances[k].world.(sessions := b.sessions)
  }

  predicate Alive(b: Backend, k: nat) {
    k < |b.instances| && !b.instances[k].world.exited
  }

  /** Sends one input to an actor, which may write its own row. */
  function Ask(b: Backend, k: nat, input: Input): (Backend, Reply)
    requires k < |b.instances|
  {
    var (after, reply) := Step(Seen(b, k), input);
    (Installed(b, k, after), reply)
  }

  function Installed(b: Backend, k: nat, after: World): Backend
    requires k < |b.instances|
  {
    b.(sessions := after.sessions, instances := b.instances[k := Instance(b.instances[k].origin, after)],
       tracked := Counted(b.tracked, after.record.id, b.instances[k].world.counted, after.counted))
  }

  /** An actor whose run begins or ends tells the tracker. */
  function Counted(t: Activity.Tracked, id: SessionId, was: bool, now: bool): Activity.Tracked {
    if was == now then t else Activity.Operated(t, Activity.SetRun(id, now))
  }

  function Forget(b: Backend, id: SessionId): Backend {
    b.(registry := b.registry - {id})
  }

  /** What may reach an actor without the manager: everything but the end of its life. */
  predicate ClientInput(input: Input) {
    !MayExit(input) && !input.PrepareDelete? && !input.Elsewhere?
  }

  /** Inputs that actors take between two steps of the manager. */
  function Meanwhile(b: Backend, steps: seq<(nat, Input)>): (after: Backend)
    ensures |after.instances| == |b.instances|
  {
    if steps == [] then b
    else
      var before := Meanwhile(b, steps[..|steps| - 1]);
      var (k, input) := steps[|steps| - 1];
      if k < |before.instances| && ClientInput(input) then Ask(before, k, input).0 else before
  }

  // ---------- what holds of the whole backend ----------

  /** Stored sessions are consistent and were given out in order. */
  predicate Orderly(sessions: Sessions, lastId: int) {
    forall id :: id in sessions ==> sessions[id].id == id && id <= lastId && Consistent(sessions[id])
  }

  predicate IsCounted(b: Backend, id: SessionId) {
    id in b.registry && b.registry[id] < |b.instances| && b.instances[b.registry[id]].world.counted
  }

  /** The tracker counts exactly the registered sessions whose actor has a run, until it runs out of generations. */
  ghost predicate TracksRuns(b: Backend) {
    b.tracked.generation < U64_MAX ==>
      forall id :: id in b.tracked.runs <==> IsCounted(b, id)
  }

  /** Every running actor is the registered owner of its session, and every registered actor is running. */
  ghost predicate Owned(b: Backend) {
    && TracksRuns(b)
    && (forall k: nat :: Alive(b, k) ==>
          b.instances[k].world.record.id in b.registry && b.registry[b.instances[k].world.record.id] == k)
    && (forall id :: id in b.registry ==>
          Alive(b, b.registry[id]) && b.instances[b.registry[id]].world.record.id == id && id <= b.lastId)
  }

  /** Every actor keeps its invariant, and no running one has announced a deletion. */
  ghost predicate Sound(b: Backend) {
    && Orderly(b.sessions, b.lastId)
    && forall k :: 0 <= k < |b.instances| ==>
         && Inv(b.instances[k].origin, Seen(b, k))
         && (b.instances[k].world.exited || NoDeletion(b.instances[k].world.log))
  }

  ghost predicate Global(b: Backend) {
    Sound(b) && Owned(b)
  }

  lemma EmptyIsGlobal()
    ensures Global(EMPTY)
  {
  }

  lemma InvAt(b: Backend, k: nat)
    requires Global(b) && k < |b.instances|
    ensures Inv(b.instances[k].origin, Seen(b, k))
  {
    hide Inv, Orderly;
  }

  lemma RegisteredOwner(b: Backend, id: SessionId)
    requires Global(b) && id in b.registry
    ensures b.registry[id] < |b.instances| && Alive(b, b.registry[id])
    ensures b.instances[b.registry[id]].world.record.id == id
  {
    hide Sound;
  }

  lemma GlobalIsOrderly(b: Backend)
    requires Global(b)
    ensures Orderly(b.sessions, b.lastId)
    ensures forall id :: id in b.registry ==> b.registry[id] < |b.instances| && Alive(b, b.registry[id])
  {
    hide Inv, Orderly;
  }

  // ---------- one actor steps ----------

  /** Another session's write leaves an actor as it was. */
  lemma OthersKeep(origin: Projection, w: World, id: SessionId, after: Sessions)
    requires Inv(origin, w) && (w.exited || w.record.id != id)
    requires OnlyRow(w.sessions, after, id)
    ensures Inv(origin, w.(sessions := after))
  {
    hide Inv;
    ElsewhereKeeps(origin, w, after);
    assert Allowed(w, after);
  }

  lemma StepRow(origin: Projection, w: World, input: Input)
    requires Inv(origin, w) && !input.Elsewhere?
    ensures var v := Step(w, input).0;
            && Inv(origin, v) && v.record.id == w.record.id && OnlyRow(w.sessions, v.sessions, w.record.id)
            && (w.exited ==> v.exited && v.sessions == w.sessions && v.counted == w.counted)
            && (!w.exited && v.exited ==> !v.counted)
            && (!w.exited && !MayExit(input) ==> !v.exited)
            && (!w.exited && !v.exited && NoDeletion(w.log) ==> NoDeletion(v.log))
            && (!w.exited && v.record.id in v.sessions ==> RowAgrees(v.sessions[v.record.id], v.record))
  {
    hide Inv, Handle, RowAgrees, TitleAdvances, InStep, NoDeletion;
    StepKeeps(origin, w, input);
    if !w.exited {
      InvGivesInStep(origin, w);
      if NoDeletion(w.log) {
        StepGrows(w, input);
      }
      HandledTitles(w, input);
      OnlyTheseExit(w, input);
      RowAfter(origin, w, input);
      if MayExit(input) {
        LeavingEndsTheCount(w, input);
      }
    }
  }

  /** An actor that leaves no longer counts as running. */
  lemma LeavingEndsTheCount(w: World, input: Input)
    requires InStep(w) && !w.exited && MayExit(input)
    ensures var v := Step(w, input).0; v.exited ==> !v.counted
  {
    hide Aligned, WrittenBehind, Flushed, Emit, CloseSenders, ChannelIds;
    if input.FinishDelete? {
      FinishEndsTheCount(w);
    } else if input.Shutdown? {
      FlushedRuns(w.(shuttingDown := true), input.refuse);
    }
  }

  lemma FlushedRuns(w: World, refuse: bool)
    ensures Flushed(w, refuse).0.exited == w.exited
  {
    hide Emit, Storable;
    if w.dirty.Some? {
      match Checkpoint(w.sessions, w.dirty.value, refuse)
      case Ok(sessions) => EmitEffect(w.(sessions := sessions, dirty := None), PersistenceWarning(None), 1);
      case Err(e) => EmitEffect(w.(dirty := Some(w.record)), PersistenceWarning(Some(Describe(e))), 1);
    }
  }

  lemma FinishEndsTheCount(w: World)
    ensures DeleteFinished(w).0.exited ==> w.exited || !DeleteFinished(w).0.counted
  {
    hide Emit, CloseSenders, ChannelIds;
  }

  lemma RowIsOrderly(sessions: Sessions, after: Sessions, r: Record, lastId: int)
    requires Orderly(sessions, lastId) && OnlyRow(sessions, after, r.id) && r.id <= lastId
    requires r.id in after ==> after == sessions || RowAgrees(after[r.id], r)
    ensures Orderly(after, lastId)
  {
    hide Consistent;
  }

  /** What an actor's step must satisfy for all the others to go on undisturbed. */
  ghost predicate StepsTo(b: Backend, k: nat, after: World)
    requires k < |b.instances|
  {
    var w := Seen(b, k);
    && Inv(b.instances[k].origin, after) && after.record.id == w.record.id
    && OnlyRow(w.sessions, after.sessions, w.record.id) && Orderly(after.sessions, b.lastId)
    && (w.exited ==> after.exited && after.sessions == w.sessions && after.counted == w.counted)
    && (!w.exited && after.exited ==> !after.counted)
    && (after.exited || NoDeletion(after.log))
  }

  lemma AskSteps(b: Backend, k: nat, input: Input)
    requires Global(b) && k < |b.instances| && !input.Elsewhere?
    ensures StepsTo(b, k, Step(Seen(b, k), input).0)
    ensures !b.instances[k].world.exited && !MayExit(input) ==> !Step(Seen(b, k), input).0.exited
  {
    hide Inv, Step, RowAgrees, Orderly, OnlyRow, NoDeletion;
    var w := Seen(b, k);
    StepRow(b.instances[k].origin, w, input);
    if !w.exited {
      assert Alive(b, k);
      RowIsOrderly(b.sessions, Step(w, input).0.sessions, Step(w, input).0.record, b.lastId);
    }
  }

  lemma InstallIsSound(b: Backend, k: nat, after: World)
    requires Global(b) && k < |b.instances| && StepsTo(b, k, after)
    ensures Sound(Installed(b, k, after))
  {
    hide Inv, Orderly, OnlyRow;
    var t := Installed(b, k, after);
    forall j | 0 <= j < |b.instances| ensures Inv(t.instances[j].origin, Seen(t, j)) {
      if j == k {
        assert Seen(t, k) == after;
      } else if b.instances[k].world.exited {
        assert Seen(t, j) == Seen(b, j);
      } else {
        assert Alive(b, k) && (Alive(b, j) ==> b.instances[j].world.record.id != after.record.id);
        OthersKeep(b.instances[j].origin, Seen(b, j), after.record.id, after.sessions);
      }
    }
  }

  lemma InstallKeepsOwners(b: Backend, k: nat, after: World)
    requires Owned(b) && k < |b.instances| && after.record.id == b.instances[k].world.record.id
    requires b.instances[k].world.exited ==> after.exited && after.counted == b.instances[k].world.counted
    ensures after.exited == b.instances[k].world.exited ==> Owned(Installed(b, k, after))
    ensures after.exited && !after.counted && Alive(b, k) ==> Owned(Forget(Installed(b, k, after), after.record.id))
  {
    hide Owned, Installed, Forget;
    if after.exited == b.instances[k].world.exited {
      OwnerStays(b, k, after);
    } else if after.exited && !after.counted && Alive(b, k) {
      OwnerLeaves(b, k, after);
    }
  }

  lemma OwnerStays(b: Backend, k: nat, after: World)
    requires Owned(b) && k < |b.instances| && after.record.id == b.instances[k].world.record.id
    requires after.exited == b.instances[k].world.exited
    requires b.instances[k].world.exited ==> after.counted == b.instances[k].world.counted
    ensures Owned(Installed(b, k, after))
  {
    hide TracksRuns, Counted, Owned;
    InstallKeepsCount(b, k, after);
    SameOwners(b, Installed(b, k, after));
  }

  /** Ownership depends on nothing but the registry, the actors' identities and who has left. */
  lemma SameOwners(b: Backend, c: Backend)
    requires Owned(b) && TracksRuns(c)
    requires c.registry == b.registry && c.lastId == b.lastId && |c.instances| == |b.instances|
    requires forall j :: 0 <= j < |b.instances| ==>
      && c.instances[j].world.record.id == b.instances[j].world.record.id
      && c.instances[j].world.exited == b.instances[j].world.exited
    ensures Owned(c)
  {
    hide TracksRuns;
    assert forall j: nat :: Alive(c, j) <==> Alive(b, j);
  }

  lemma OwnerLeaves(b: Backend, k: nat, after: World)
    requires Owned(b) && Alive(b, k) && after.record.id == b.instances[k].world.record.id
    requires after.exited && !after.counted
    ensures Owned(Forget(Installed(b, k, after), after.record.id))
  {
    hide TracksRuns, Counted, Owned;
    InstallKeepsCount(b, k, after);
    OwnersWithout(b, Forget(Installed(b, k, after), after.record.id), k);
  }

  lemma OwnersWithout(b: Backend, c: Backend, k: nat)
    requires Owned(b) && TracksRuns(c) && Alive(b, k)
    requires c.registry == b.registry - {b.instances[k].world.record.id} && c.lastId == b.lastId
    requires |c.instances| == |b.instances| && c.instances[k].world.exited
    requires forall j :: 0 <= j < |b.instances| ==>
      && c.instances[j].world.record.id == b.instances[j].world.record.id
      && (j != k ==> c.instances[j].world.exited == b.instances[j].world.exited)
    ensures Owned(c)
  {
    hide TracksRuns;
    forall j: nat | Alive(c, j)
      ensures c.instances[j].world.record.id in c.registry && c.registry[c.instances[j].world.record.id] == j
    {
      assert j != k && Alive(b, j);
    }
    forall id | id in c.registry
      ensures Alive(c, c.registry[id]) && c.instances[c.registry[id]].world.record.id == id && id <= c.lastId
    {
      var j := b.registry[id];
      assert Alive(b, j) && b.instances[j].world.record.id == id && j != k;
    }
  }

  lemma InstallKeepsCount(b: Backend, k: nat, after: World)
    requires Owned(b) && k < |b.instances| && after.record.id == b.instances[k].world.record.id
    requires b.instances[k].world.exited ==> after.counted == b.instances[k].world.counted
    ensures TracksRuns(Installed(b, k, after))
    ensures !after.counted && Alive(b, k) ==> TracksRuns(Forget(Installed(b, k, after), after.record.id))
  {
    hide Owned, Counted;
    var t := Installed(b, k, after);
    if t.tracked.generation < U64_MAX {
      forall id
        ensures id in t.tracked.runs <==> IsCounted(t, id)
        ensures !after.counted && Alive(b, k) && id in t.tracked.runs ==> id != after.record.id
      {
        CountAfter(b, k, after, id);
      }
    }
  }

  lemma CountAfter(b: Backend, k: nat, after: World, id: SessionId)
    requires Owned(b) && k < |b.instances| && after.record.id == b.instances[k].world.record.id
    requires b.instances[k].world.exited ==> after.counted == b.instances[k].world.counted
    requires Installed(b, k, after).tracked.generation < U64_MAX
    ensures var t := Installed(b, k, after);
            && (id in t.tracked.runs <==> IsCounted(t, id))
            && (!after.counted && Alive(b, k) && id in t.tracked.runs ==> id != after.record.id)
  {
    hide Counted, Owned;
    CountedChanges(b.tracked, after.record.id, b.instances[k].world.counted, after.counted);
    CountBefore(b, id);
    if Alive(b, k) {
      OwnsItsSession(b, k);
    }
    if id in b.registry {
      RegisteredActor(b, id);
    }
  }

  lemma CountBefore(b: Backend, id: SessionId)
    requires Owned(b) && b.tracked.generation < U64_MAX
    ensures id in b.tracked.runs <==> IsCounted(b, id)
  {
  }

  lemma OwnsItsSession(b: Backend, k: nat)
    requires Owned(b) && Alive(b, k)
    ensures b.instances[k].world.record.id in b.registry && b.registry[b.instances[k].world.record.id] == k
  {
    hide TracksRuns;
  }

  lemma RegisteredActor(b: Backend, id: SessionId)
    requires Owned(b) && id in b.registry
    ensures Alive(b, b.registry[id]) && b.instances[b.registry[id]].world.record.id == id
  {
    hide TracksRuns;
  }

  /** Short of the last generation the tracker takes every change of a run. */
  lemma CountedChanges(t: Activity.Tracked, id: SessionId, was: bool, now: bool)
    ensures var after := Counted(t, id, was, now);
            && t.generation <= after.generation
            && (after.generation < U64_MAX ==>
                  after.runs == if was == now then t.runs else if now then t.runs + {id} else t.runs - {id})
  {
  }

  /** One actor's step keeps every actor's invariant and the store, and everybody else's life. */
  lemma AskKeeps(b: Backend, k: nat, input: Input)
    requires Global(b) && k < |b.instances| && !input.Elsewhere?
    ensures Sound(Ask(b, k, input).0)
    ensures !MayExit(input) ==> Global(Ask(b, k, input).0)
  {
    hide Inv, Step, Sound, Owned, Orderly, OnlyRow;
    AskSteps(b, k, input);
    var after := Step(Seen(b, k), input).0;
    InstallIsSound(b, k, after);
    InstallKeepsOwners(b, k, after);
  }

  /** Once an actor has left, the manager must forget it, and then ownership holds again. */
  lemma ExitedIsForgotten(b: Backend, k: nat, input: Input)
    requires Global(b) && Alive(b, k) && !input.Elsewhere?
    requires Ask(b, k, input).0.instances[k].world.exited
    ensures Global(Forget(Ask(b, k, input).0, b.instances[k].world.record.id))
  {
    hide Inv, Step, Sound, Owned, Orderly, OnlyRow;
    AskSteps(b, k, input);
    var after := Step(Seen(b, k), input).0;
    InstallIsSound(b, k, after);
    InstallKeepsOwners(b, k, after);
    ForgetIsSound(Installed(b, k, after), after.record.id);
  }

  lemma ForgetIsSound(b: Backend, id: SessionId)
    requires Sound(b)
    ensures Sound(Forget(b, id))
  {
    hide Inv, Orderly;
    forall k | 0 <= k < |b.instances| ensures Inv(b.instances[k].origin, Seen(Forget(b, id), k)) {
      assert Seen(Forget(b, id), k) == Seen(b, k);
    }
  }

  lemma AskLength(b: Backend, k: nat, input: Input)
    requires k < |b.instances|
    ensures |Ask(b, k, input).0.instances| == |b.instances|
  {
    hide Step;
  }

  lemma {:induction false} MeanwhileKeeps(b: Backend, steps: seq<(nat, Input)>)
    requires Global(b)
    ensures var after := Meanwhile(b, steps);
            Global(after) && after.registry == b.registry && |after.instances| == |b.instances| && after.lastId == b.lastId
  {
    hide Global, Step;
    if steps != [] {
      MeanwhileKeeps(b, steps[..|steps| - 1]);
      var before := Meanwhile(b, steps[..|steps| - 1]);
      var (k, input) := steps[|steps| - 1];
      if k < |before.instances| && ClientInput(input) {
        AskKeeps(before, k, input);
      }
    }
  }
}
