/** The idle exit, end to end: what is certain about every session when the backend decides to leave. */
module IdleShutdown {
  import opened Prelude
  import opened Records
  import opened Transcripts
  import opened Repository
  import opened SessionInvariants
  import opened SessionTheorems
  import opened Activity
  import opened Backends
  import opened Shutdowns
  import opened ManagerRuns

  // ---------- the deadline ----------

  /**
    If the backend takes the exit, then at every moment from the start of the deadline until after the
    flush nothing was tracked: nobody connected, and nothing ran, whatever began and ended in between.
   */
  lemma ExitMeansNothingWasTracked(t: Tracked, start: int, timed: seq<Timed>, d: Deadline, before: int, after: int,
                                   waitingBefore: seq<u64>, flushed: bool, waitingAfter: seq<u64>)
    requires InOrder(start, timed) && NoneSilent(t, timed) && start <= d.from <= d.until <= before <= after
    requires IdleThroughout(Publications(t, start, timed), d.from, d.until, d.snapshot)
    requires Exits(d.snapshot, waitingBefore, Counts(StateAfter(t, DoneBy(timed, before))), flushed,
                   Counts(StateAfter(t, DoneBy(timed, after))), waitingAfter)
    ensures forall now :: d.from <= now <= after ==>
      var state := StateAfter(t, DoneBy(timed, now));
      Counts(state) == d.snapshot && state.connections == {} && state.runs == {} && state.titles == 0
  {
    hide Counts, StateAfter, NoneSilent, InOrder, Publications, DoneBy, VisibleAt;
    var history := Publications(t, start, timed);
    PublicationsAreTimeline(t, start, timed);
    VisibleIsTracked(t, start, timed, after);
    ExitMeansIdleThroughFlush(history, d, before, after);
    forall now | d.from <= now <= after
      ensures var state := StateAfter(t, DoneBy(timed, now));
              Counts(state) == d.snapshot && state.connections == {} && state.runs == {} && state.titles == 0
    {
      VisibleIsTracked(t, start, timed, now);
      IdleSetsAreEmpty(StateAfter(t, DoneBy(timed, now)));
    }
  }

  lemma IdleSetsAreEmpty(t: Tracked)
    requires Idle(Counts(t))
    ensures t.connections == {} && t.runs == {} && t.titles == 0
  {
  }

  /**
    Nobody is turned away: of all who had reached the socket by the second look, everybody has been
    accepted and is gone again. Accepting a connection tracks it at once, until it is closed.
   */
  lemma ExitTurnsNobodyAway(deadline: ActivitySnapshot, waitingBefore: seq<u64>, before: ActivitySnapshot, flushed: bool,
                            t: Tracked, waitingAfter: seq<u64>, arrived: set<u64>, closed: set<u64>)
    requires forall c :: c in arrived ==> c in waitingAfter || c in t.connections || c in closed
    requires Exits(deadline, waitingBefore, before, flushed, Counts(t), waitingAfter)
    ensures arrived <= closed
  {
    IdleSetsAreEmpty(t);
  }

  // ---------- the sessions ----------

  /** No run, stored exactly as its actor holds it, and loaded again as just that if its columns can hold it. */
  predicate SafeToLeave(b: Backend, id: SessionId) {
    && StoredAsHeld(b, id)
    && b.instances[b.registry[id]].world.harness.active.None?
    && !Open(b.sessions[id])
    && (id <= I64_MAX && PositionsInRange(|b.sessions[id].transcript|) ==>
          Load(b.sessions, id, false) == Ok(b.sessions[id]))
  }

  lemma IdleActor(b: Backend, id: SessionId)
    requires Global(b) && id in b.registry && StoredAsHeld(b, id)
    requires b.tracked.generation < U64_MAX && b.tracked.runs == {}
    ensures SafeToLeave(b, id)
  {
    hide Sound, LogKept, StreamsKept, WrittenBehind, Grammar, History, Interrupt, Load;
    RegisteredOwner(b, id);
    InvAt(b, b.registry[id]);
    CountBefore(b, id);
    assert Consistent(b.sessions[id]) && !Open(b.sessions[id]);
    InterruptionRecovers(b.sessions[id]);
    InRangeLoads(b.sessions, id);
  }

  /**
    Over any run of the manager in which no shutdown has failed: when the flush has been done and the
    exit is taken, no actor has a run, and every session with an actor is stored exactly as its actor
    holds it. Within the range of its columns the next backend loads it unchanged: the exit interrupts
    nothing and loses nothing.
   */
  lemma IdleExitLosesNothing(start: Backend, moves: seq<ManagerMove>, ids: seq<SessionId>, refused: set<SessionId>,
                             deadline: ActivitySnapshot, waitingBefore: seq<u64>, before: ActivitySnapshot, waitingAfter: seq<u64>)
    requires Global(start) && AllMutable(start) && ShutdownsSucceed(start, moves)
    requires forall id :: id in RunManager(start, moves).registry ==> id in ids
    requires var (after, error) := FlushEach(RunManager(start, moves), ids, refused);
             && after.tracked.generation < U64_MAX
             && Exits(deadline, waitingBefore, before, error == None, Counts(after.tracked), waitingAfter)
    ensures var after := FlushEach(RunManager(start, moves), ids, refused).0;
            && (forall k: nat :: Alive(after, k) ==> after.instances[k].world.harness.active.None?)
            && (forall id :: id in after.registry ==> SafeToLeave(after, id))
  {
    hide Global, AllMutable, RunManager, ShutdownsSucceed, FlushEach, Counts, StoredAsHeld, Load;
    SingleOwnership(start, moves);
    var b := RunManager(start, moves);
    FlushStoresEverything(b, ids, refused);
    var after := FlushEach(b, ids, refused).0;
    IdleSetsAreEmpty(after.tracked);
    forall id | id in after.registry ensures SafeToLeave(after, id) {
      assert id in ids;
      IdleActor(after, id);
    }
    forall k: nat | Alive(after, k) ensures after.instances[k].world.harness.active.None? {
      AliveIsRegistered(after, k);
    }
  }

  lemma AliveIsRegistered(b: Backend, k: nat)
    requires Global(b) && Alive(b, k)
    ensures b.instances[k].world.record.id in b.registry && b.registry[b.instances[k].world.record.id] == k
  {
    hide Sound, Owned;
    OwnsItsSession(b, k);
  }
}
