/** The session actor: the object whose fields every command and run event updates in place. */
module SessionActors {
  import opened Prelude
  import opened Titles
  import opened Records
  import opened Transcripts
  import opened Repository
  import opened Store
  import opened Projections
  import opened Harnesses
  import opened SessionModel
  import opened SessionInvariants
  import opened SessionRuns

  // ---------- a write, seen as its separate statements ----------

  /** The record is clean after a successful write and outstanding after a failed one. */
  function Written(w: World, written: Result<Sessions, StoreError>): World {
    match written
    case Ok(sessions) => w.(sessions := sessions, dirty := None)
    case Err(_) => w.(dirty := Some(w.record))
  }

  /** Whether, and to what, the warning that clients see has to change. */
  function Transition(w: World, written: Result<Sessions, StoreError>): Option<Option<string>> {
    match written
    case Ok(_) => if w.projection.warning.Some? then Some(None) else None
    case Err(e) => Some(Some(Describe(e)))
  }

  function Announce(w: World, transition: Option<Option<string>>): World {
    if transition.None? then w else Emit(w, PersistenceWarning(transition.value))
  }

  function Sent(w: World, envelope: Option<Envelope>): World {
    if envelope.None? then w else Broadcast(w, envelope.value, TERMINAL_EVENT_RESERVE)
  }

  function EnvelopeOf(w: World, event: Event): Option<Envelope> {
    if w.projection.sequence < U64_MAX then Some(Envelope(w.projection.sequence + 1, event)) else None
  }

  function ActorWrite(w: World, metadataOnly: bool, refuse: bool): Result<Sessions, StoreError> {
    if metadataOnly && w.dirty.None? then UpdateMetadata(w.sessions, w.record, refuse)
    else Checkpoint(w.sessions, w.record, refuse)
  }

  /** Writing between projecting an event and broadcasting it is the same as emitting it first. */
  lemma WriteCommutes(w: World, event: Event, metadataOnly: bool, refuse: bool)
    requires ValidateEvent(w.projection, event) == None
    ensures var projected := Projected(w, event);
            var written := ActorWrite(projected, metadataOnly, refuse);
            Announce(Sent(Written(projected, written), EnvelopeOf(w, event)), Transition(projected, written)) ==
            if metadataOnly then PersistMetadata(Emit(w, event), refuse) else Persist(Emit(w, event), refuse)
  {
    hide Projected, EnvelopeOf, Sent, Emit, ValidateEvent, Settle, Announce, Written, Transition, Checkpoint;
    hide UpdateMetadata;
    var projected := Projected(w, event);
    var envelope := EnvelopeOf(w, event);
    EmitIsSent(w, event);
    SendKeepsOutcome(projected, envelope, ActorWrite(projected, metadataOnly, refuse));
  }

  lemma EmitIsSent(w: World, event: Event)
    requires ValidateEvent(w.projection, event) == None
    ensures Emit(w, event) == Sent(Projected(w, event), EnvelopeOf(w, event))
  {
    hide Reduce, ValidateEvent, Survivors, Deliver, ChannelIds, CloseSenders;
  }

  lemma SendKeepsOutcome(w: World, envelope: Option<Envelope>, written: Result<Sessions, StoreError>)
    ensures Settle(Sent(w, envelope), written) == Announce(Sent(Written(w, written), envelope), Transition(w, written))
    ensures var sent := Sent(w, envelope);
            sent.record == w.record && sent.dirty == w.dirty && sent.sessions == w.sessions
  {
    hide Emit, Survivors, Deliver, ChannelIds;
  }

  /** What is needed to broadcast, and then to announce, after a projected event was written. */
  lemma StreamsBeforeAnnouncing(w: World, event: Event, written: Result<Sessions, StoreError>)
    requires ValidateEvent(w.projection, event) == None
    requires StreamsKept(w) && w.projection.sequence == |w.log|
    ensures var before := Written(Projected(w, event), written);
            var after := Sent(before, EnvelopeOf(w, event));
            && StreamsKept(after) && after.projection.sequence == |after.log|
            && (EnvelopeOf(w, event).Some? ==>
                  Distinct(before.observers) && forall o :: o in before.observers ==> o.channel in before.channels)
  {
    hide Emit, ValidateEvent, Projected, EnvelopeOf, Sent, Written, StreamsKept;
    var projected := Projected(w, event);
    var envelope := EnvelopeOf(w, event);
    EmitKeepsStreams(w, event);
    EmitIsSent(w, event);
    SequenceGrows(w, event);
    WrittenThenSent(projected, envelope, written);
    var after := Sent(Written(projected, written), envelope);
    SameStreams(Emit(w, event), after);
    if envelope.Some? {
      StillObserved(w, event);
    }
  }

  lemma WrittenThenSent(w: World, envelope: Option<Envelope>, written: Result<Sessions, StoreError>)
    ensures var before := Written(w, written);
            var after := Sent(before, envelope);
            && before == w.(sessions := before.sessions, dirty := before.dirty)
            && after == Sent(w, envelope).(sessions := before.sessions, dirty := before.dirty)
            && after.projection == w.projection && after.log == w.log
  {
    hide Survivors, Deliver, ChannelIds;
  }

  lemma SameStreams(w: World, v: World)
    requires StreamsKept(w) && v == w.(sessions := v.sessions, dirty := v.dirty)
    ensures StreamsKept(v)
  {
    hide Slice, Current, Distinct, ChannelIds;
  }

  lemma StillObserved(w: World, event: Event)
    requires StreamsKept(w) && EnvelopeOf(w, event).Some?
    ensures var projected := Projected(w, event);
            Distinct(projected.observers) && forall o :: o in projected.observers ==> o.channel in projected.channels
  {
    hide Slice, Current, Distinct, ChannelIds, Reduce;
  }

  lemma SequenceGrows(w: World, event: Event)
    requires ValidateEvent(w.projection, event) == None && w.projection.sequence == |w.log|
    ensures Projected(w, event).projection.sequence == |Projected(w, event).log|
  {
    hide CloseSenders, ChannelIds, Reduce, ValidateEvent;
    ReduceIgnoresSequence(w.projection, 0, event);
    if w.projection.sequence < U64_MAX {
      ReduceIgnoresSequence(w.projection.(sequence := w.projection.sequence + 1), 0, event);
    }
  }

  // ---------- durable events ----------

  method FindRunningTurn(turns: seq<Turn>, runId: u64) returns (n: nat)
    ensures n == FindRunning(turns, runId)
  {
    n := 0;
    while n < |turns|
      invariant n <= |turns| && FindRunning(turns, runId) == n + FindRunning(turns[n..], runId)
    {
      if turns[n].runId == runId && turns[n].status == TurnStatus.Running {
        return;
      }
      assert turns[n..][1..] == turns[n + 1..];
      n := n + 1;
    }
  }

  /** The durable effect of one event on a copy of the record; an error leaves the caller's record alone. */
  method ApplyDurableEvent(r: Record, event: Event) returns (result: Result<Record, DurableError>)
    ensures result == ApplyDurable(r, event)
  {
    hide FindRunning;
    match event {
      case Started(runId, prompt) =>
        var i := 0;
        while i < |r.turns|
          invariant i <= |r.turns| && forall k :: 0 <= k < i ==> r.turns[k].status != TurnStatus.Running
        {
          if r.turns[i].status == TurnStatus.Running {
            return Err(AnotherTurnRunning);
          }
          i := i + 1;
        }
        return Ok(r.(transcript := r.transcript + [User(prompt)],
                     turns := r.turns + [Turn(|r.turns|, runId, |r.transcript|, Running)]));
      case ToolStarted(runId, callId, name, arguments) =>
        var n := FindRunningTurn(r.turns, runId);
        if n == |r.turns| {
          return Err(NoRunningTurn);
        }
        return Ok(r.(transcript := r.transcript + [Item.ToolStarted(runId, callId, name, arguments)]));
      case Completed(runId, response, lastActivity) =>
        result := Close(r, runId, TurnStatus.Completed, Assistant(response));
        if result.Ok? {
          result := Ok(result.value.(lastActivity := lastActivity));
        }
      case Failed(runId, failure) => result := Close(r, runId, TurnStatus.Failed, Item.Failed(runId, failure));
      case Cancelled(runId) => result := Close(r, runId, TurnStatus.Cancelled, Item.Cancelled(runId));
      case _ => return Ok(r);
    }
  }

  method Close(r: Record, runId: u64, status: TurnStatus, item: Item) returns (result: Result<Record, DurableError>)
    ensures result == CloseTurn(r, runId, status, item)
  {
    var n := FindRunningTurn(r.turns, runId);
    if n == |r.turns| {
      return Err(NoRunningTurn);
    }
    return Ok(r.(turns := r.turns[n := r.turns[n].(status := status)], transcript := r.transcript + [item]));
  }

  lemma ConsistentIsNumbered(r: Record)
    requires Consistent(r)
    ensures Numbered(r.turns)
  {
    GrammarIsNumbered(r.transcript, r.turns);
  }

  // ---------- starting on a run that is already durable ----------

  function RunningTurns(turns: seq<Turn>): seq<Turn> {
    if turns == [] then []
    else RunningTurns(turns[..|turns| - 1]) +
         if turns[|turns| - 1].status == TurnStatus.Running then [turns[|turns| - 1]] else []
  }

  /** Exactly one turn runs, it is this run, and it points at this prompt. */
  predicate StartsWith(r: Record, runId: u64, prompt: string) {
    var running := RunningTurns(r.turns);
    && |running| == 1 && running[0].runId == runId
    && running[0].promptPosition < |r.transcript| && r.transcript[running[0].promptPosition] == User(prompt)
  }

  method ValidateMaterializedStart(r: Record, runId: u64, prompt: string) returns (valid: bool)
    ensures valid <==> StartsWith(r, runId, prompt)
  {
    var running := [];
    for i := 0 to |r.turns|
      invariant running == RunningTurns(r.turns[..i])
    {
      assert r.turns[..i + 1][..i] == r.turns[..i];
      if r.turns[i].status == TurnStatus.Running {
        running := running + [r.turns[i]];
      }
    }
    assert r.turns[..|r.turns|] == r.turns;
    if |running| != 1 || running[0].runId != runId {
      return false;
    }
    var p := running[0].promptPosition;
    return p < |r.transcript| && r.transcript[p] == User(prompt);
  }

  /** For consistent records the start is valid exactly when the last turn is that running turn. */
  lemma StartIsLastTurn(r: Record, runId: u64, prompt: string)
    requires Consistent(r)
    ensures StartsWith(r, runId, prompt) <==>
      Open(r) && var turn := r.turns[|r.turns| - 1];
                 turn.runId == runId && r.transcript[turn.promptPosition] == User(prompt)
  {
    hide Body, History;
    if r.turns != [] {
      NoneRunning(r.turns[..|r.turns| - 1]);
    }
  }

  lemma {:induction false} NoneRunning(turns: seq<Turn>)
    requires Settled(turns)
    ensures RunningTurns(turns) == []
  {
    if turns != [] {
      NoneRunning(turns[..|turns| - 1]);
    }
  }

  // ---------- observers, one by one ----------

  lemma CloseOne(channels: map<nat, Channel>, observers: seq<Observer>, i: nat)
    requires i < |observers|
    ensures var c := observers[i].channel;
            var done := CloseSenders(channels, ChannelIds(observers[..i]));
            CloseSenders(channels, ChannelIds(observers[..i + 1])) ==
            if c in done then done[c := done[c].(senderOpen := false)] else done
  {
    assert observers[..i + 1] == observers[..i] + [observers[i]];
    assert ChannelIds(observers[..i + 1]) == ChannelIds(observers[..i]) + {observers[i].channel};
  }

  lemma DeliverOne(channels: map<nat, Channel>, observers: seq<Observer>, i: nat, envelope: Envelope, reserve: nat)
    requires i < |observers| && Distinct(observers) && observers[i].channel in channels
    ensures var c := observers[i].channel;
            var done := Deliver(channels, ChannelIds(observers[..i]), envelope, reserve);
            && c in done && done[c] == channels[c]
            && Deliver(channels, ChannelIds(observers[..i + 1]), envelope, reserve) ==
               done[c := Offer(channels[c], envelope, reserve)]
            && Survivors(observers[..i + 1], channels, reserve) ==
               Survivors(observers[..i], channels, reserve) +
               if Accepts(channels[c], reserve) then [observers[i]] else []
  {
    hide Accepts, Offer;
    assert observers[..i + 1][..i] == observers[..i];
    assert observers[..i + 1] == observers[..i] + [observers[i]];
    assert ChannelIds(observers[..i + 1]) == ChannelIds(observers[..i]) + {observers[i].channel};
  }

  class SessionActor {
    const repository: SessionStore
    const projection: SessionProjection
    const harness: Harness
    var record: Record
    var dirty: Option<Record>
    var observers: seq<Observer>
    var channels: map<nat, Channel>
    var shuttingDown: bool
    var deleting: bool
    var exited: bool
    var counted: bool
    ghost var log: seq<Event>
    ghost var origin: Projection

    ghost function State(): World
      requires repository.Valid()
      reads this, projection, harness, repository
    {
      World(record, projection.View(), harness.State(), dirty, observers, channels,
            shuttingDown, deleting, exited, counted, repository.Contents(), log)
    }

    ghost predicate Valid()
      reads this, projection, harness, repository
    {
      repository.Valid() && Inv(origin, State())
    }

    /** Takes over a record, its projection and its harness; nobody observes it yet. */
    constructor (
      repository: SessionStore, record: Record, projection: SessionProjection, harness: Harness, counted: bool)
      requires repository.Valid()
      ensures this.repository == repository && this.projection == projection && this.harness == harness
      ensures origin == projection.View()
      ensures State() == World(record, projection.View(), harness.State(), None, [], map[],
                               false, false, false, counted, repository.Contents(), [])
    {
      this.repository, this.projection, this.harness := repository, projection, harness;
      this.record, dirty, observers, channels := record, None, [], map[];
      shuttingDown, deleting, exited, this.counted := false, false, false, counted;
      log, origin := [], projection.View();
    }

    /** The actor of a session just loaded from the store. */
    static method Spawn(repository: SessionStore, record: Record, catalog: Catalog) returns (actor: SessionActor)
      requires repository.Valid()
      requires Consistent(record) && !Open(record)
      requires record.id in repository.Contents() && repository.Contents()[record.id] == record
      ensures actor.repository == repository && fresh(actor) && fresh(actor.projection) && fresh(actor.harness)
      ensures actor.Valid() && actor.State() == Opened(record, catalog, repository.Contents())
    {
      hide Consistent, Inv;
      var projection := new SessionProjection(record, catalog);
      var harness := new Harness.WithHistory(record.history);
      actor := new SessionActor(repository, record, projection, harness, false);
      OpenedStarts(record, catalog, repository.Contents());
    }

    /** The actor of a session whose first prompt is already stored; it must be the harness's first run. */
    static method SpawnMaterialized(repository: SessionStore, record: Record, catalog: Catalog, prompt: string)
      returns (actor: Option<SessionActor>)
      requires repository.Valid()
      requires Consistent(record)
      requires record.id in repository.Contents() && repository.Contents()[record.id] == record
      ensures actor.Some? <==> StartsWith(record, 0, prompt)
      ensures actor.Some? ==>
        var a := actor.value;
        && a.repository == repository && fresh(a) && fresh(a.projection) && fresh(a.harness)
        && a.Valid()
        && a.State() == SessionModel.SpawnedMaterialized(record, catalog, prompt, repository.Contents())
    {
      hide Consistent, Inv, Decoded, ValidDatabase;
      var projection := new SessionProjection(record, catalog);
      var harness := new Harness.WithHistory(record.history);
      var submitted := harness.Submit(prompt);
      var valid := ValidateMaterializedStart(record, submitted.value, prompt);
      if !valid {
        return None;
      }
      StartIsLastTurn(record, 0, prompt);
      var error := projection.InstallPersistedStarted(submitted.value, prompt);
      var a := new SessionActor(repository, record, projection, harness, true);
      PersistedStarts(record, catalog, prompt, repository.Contents());
      return Some(a);
    }

    // ---------- projecting and broadcasting ----------

    /** `None` if the event is invalid; no envelope once sequence numbers are exhausted. */
    method Project(event: Event) returns (outcome: Option<Option<Envelope>>)
      requires repository.Valid()
      modifies this`log, this`observers, this`channels, projection
      ensures if ValidateEvent(old(projection.View()), event).Some? then outcome == None && State() == old(State())
              else outcome == Some(EnvelopeOf(old(State()), event)) && State() == Projected(old(State()), event)
    {
      hide ValidateEvent, Reduce, DropObservers, Projected, ValidDatabase, Decoded;
      ghost var w := State();
      ProjectedIs(w, event);
      var applied := projection.Apply(event);
      if applied.Ok? {
        log := log + [event];
        return Some(Some(applied.value));
      }
      if applied.error != SequenceExhausted {
        return None;
      }
      var error := projection.ApplyUnsequenced(event);
      if error.Some? {
        return None;
      }
      ClearObservers();
      return Some(None);
    }

    method ClearObservers()
      requires repository.Valid()
      modifies this`observers, this`channels
      ensures State() == DropObservers(old(State()))
    {
      hide CloseSenders, ChannelIds;
      var i := 0;
      assert channels == CloseSenders(channels, ChannelIds(observers[..0])) by {
        NothingClosed(channels);
      }
      while i < |observers|
        invariant i <= |observers| && observers == old(observers)
        invariant channels == CloseSenders(old(channels), ChannelIds(observers[..i]))
      {
        CloseOne(old(channels), observers, i);
        var c := observers[i].channel;
        if c in channels {
          channels := channels[c := channels[c].(senderOpen := false)];
        }
        i := i + 1;
      }
      assert observers[..i] == observers;
      observers := [];
    }

    /** Offers one event to every observer and keeps those that could take it. */
    method BroadcastTo(envelope: Envelope, reserve: nat)
      requires repository.Valid()
      requires Distinct(observers) && forall o :: o in observers ==> o.channel in channels
      modifies this`observers, this`channels
      ensures State() == Broadcast(old(State()), envelope, reserve)
    {
      hide Deliver, Survivors, ChannelIds, Distinct, Offer, Accepts;
      var kept := [];
      var i := 0;
      NothingDelivered(channels, envelope, reserve);
      assert observers[..0] == [];
      while i < |observers|
        invariant i <= |observers| && observers == old(observers)
        invariant channels == Deliver(old(channels), ChannelIds(observers[..i]), envelope, reserve)
        invariant kept == Survivors(observers[..i], old(channels), reserve)
      {
        DeliverOne(old(channels), observers, i, envelope, reserve);
        var o := observers[i];
        var channel := channels[o.channel];
        if Accepts(channel, reserve) {
          kept := kept + [o];
        }
        channels := channels[o.channel := Offer(channel, envelope, reserve)];
        i := i + 1;
      }
      assert observers[..i] == observers;
      observers := kept;
    }

    // ---------- persistence ----------

    method PersistCheckpoint(refuse: bool) returns (transition: Option<Option<string>>)
      requires repository.Valid() && Numbered(record.turns)
      modifies this`dirty, repository
      ensures repository.Valid()
      ensures var written := Repository.Checkpoint(old(repository.Contents()), record, refuse);
              State() == Written(old(State()), written) && transition == Transition(old(State()), written)
    {
      hide Numbered, ValidDatabase, Decoded, Checkpoint;
      var result := repository.Checkpoint(record, refuse);
      transition := PersistenceResult(result);
    }

    method PersistMetadata(refuse: bool) returns (transition: Option<Option<string>>)
      requires repository.Valid() && Numbered(record.turns)
      modifies this`dirty, repository
      ensures repository.Valid()
      ensures var written := ActorWrite(old(State()), true, refuse);
              State() == Written(old(State()), written) && transition == Transition(old(State()), written)
    {
      hide Numbered, ValidDatabase, Decoded, Checkpoint, UpdateMetadata;
      var result: Result<(), StoreError>;
      if dirty.Some? {
        result := repository.Checkpoint(record, refuse);
      } else {
        result := repository.UpdateMetadata(record, refuse);
      }
      transition := PersistenceResult(result);
    }

    method PersistenceResult(result: Result<(), StoreError>) returns (transition: Option<Option<string>>)
      modifies this`dirty
      ensures dirty == if result.Ok? then None else Some(record)
      ensures transition == match result
        case Ok(_) => (if projection.persistenceWarning.Some? then Some(None) else None)
        case Err(e) => Some(Some(Describe(e)))
    {
      match result
      case Ok(_) =>
        dirty := None;
        transition := if projection.persistenceWarning.Some? then Some(None) else None;
      case Err(e) =>
        dirty := Some(record);
        transition := Some(Some(Describe(e)));
    }

    method BroadcastTransition(transition: Option<Option<string>>)
      requires repository.Valid() && StreamsKept(State()) && projection.sequence == |log|
      modifies this`log, this`observers, this`channels, projection
      ensures State() == Announce(old(State()), transition)
    {
      hide Reduce, Slice, Current, Projected, Broadcast;
      if transition.Some? {
        EmitEvent(PersistenceWarning(transition.value));
      }
    }

    /** Projects an event and broadcasts it. */
    method EmitEvent(event: Event)
      requires repository.Valid() && StreamsKept(State()) && projection.sequence == |log|
      modifies this`log, this`observers, this`channels, projection
      ensures State() == Emit(old(State()), event)
    {
      hide Reduce, ValidateEvent, Slice, Current, Survivors, Deliver, CloseSenders, ChannelIds, Distinct, ValidDatabase, Decoded;
      var outcome := Project(event);
      if outcome.Some? && outcome.value.Some? {
        BroadcastTo(outcome.value.value, TERMINAL_EVENT_RESERVE);
      }
    }

    /** After an event was projected: write, broadcast the event, then announce the write's outcome. */
    method Commit(envelope: Option<Envelope>, metadataOnly: bool, refuse: bool, ghost w: World, ghost event: Event)
      requires repository.Valid() && Numbered(record.turns)
      requires ValidateEvent(w.projection, event) == None
      requires State() == Projected(w, event) && envelope == EnvelopeOf(w, event)
      requires StreamsKept(w) && w.projection.sequence == |w.log|
      modifies this`dirty, this`log, this`observers, this`channels, projection, repository
      ensures repository.Valid()
      ensures State() == if metadataOnly then SessionModel.PersistMetadata(Emit(w, event), refuse)
                         else Persist(Emit(w, event), refuse)
    {
      hide Numbered, StreamsKept, ValidateEvent, Broadcast, Distinct, Projected, Written, EnvelopeOf, ActorWrite;
      hide Checkpoint, UpdateMetadata, ValidDatabase, Decoded, Emit, Announce, Transition;
      WriteIs(State(), refuse);
      ghost var written := ActorWrite(State(), metadataOnly, refuse);
      StreamsBeforeAnnouncing(w, event, written);
      WriteCommutes(w, event, metadataOnly, refuse);
      var transition;
      if metadataOnly {
        transition := PersistMetadata(refuse);
      } else {
        transition := PersistCheckpoint(refuse);
      }
      assert State() == Written(Projected(w, event), written);
      if envelope.Some? {
        BroadcastTo(envelope.value, TERMINAL_EVENT_RESERVE);
      }
      assert State() == Sent(Written(Projected(w, event), written), envelope);
      BroadcastTransition(transition);
    }

    /**
      Projects an event and, if it is accepted, installs the record that goes with it: the record is
      written before observers hear of the event, and the outcome of the write is announced last.
     */
    method ProjectAndCommit(updated: Record, event: Event, metadataOnly: bool, refuse: bool) returns (accepted: bool)
      requires repository.Valid() && Numbered(updated.turns)
      requires StreamsKept(State()) && projection.sequence == |log|
      modifies this`record, this`dirty, this`log, this`observers, this`channels, projection, repository
      ensures repository.Valid()
      ensures accepted <==> ValidateEvent(old(projection.View()), event) == None
      ensures State() == if accepted then CommittedWorld(old(State()).(record := updated), event, metadataOnly, refuse)
                         else old(State())
    {
      hide Numbered, StreamsKept, ValidateEvent, EnvelopeOf, Projected, Emit, Persist, ValidDatabase, Decoded;
      ghost var w := State();
      var outcome := Project(event);
      if outcome.None? {
        return false;
      }
      record := updated;
      ProjectKeepsRecord(w, updated, event);
      SameObservers(w, w.(record := updated));
      Commit(outcome.value, metadataOnly, refuse, w.(record := updated), event);
      return true;
    }

    // ---------- commands ----------

    method EnsureMutable() returns (error: Option<CommandError>)
      requires repository.Valid()
      ensures error == Guard(State())
    {
      if deleting {
        return Some(Deleting);
      }
      if shuttingDown {
        return Some(ActorUnavailable);
      }
      return None;
    }

    method Submit(prompt: string, refuse: bool) returns (reply: Reply)
      requires Valid() && !exited
      modifies this, projection, harness, repository
      ensures Valid() && (State(), reply) == Submitted(old(State()), prompt, refuse)
    {
      hide Inv, Guard, ApplyDurable, ValidateEvent, Emit, Persist, Numbered, ValidDatabase, Decoded, StreamsKept;
      ghost var w := State();
      SubmitKeeps(origin, w, prompt, refuse);
      SubmitCommits(origin, w, prompt);
      var refusal := EnsureMutable();
      if refusal.Some? {
        return Refused(refusal.value);
      }
      var started := harness.Submit(prompt);
      if started.Err? {
        return Refused(HarnessRefusal(started.error));
      }
      var event := Started(started.value, prompt);
      var updated := ApplyDurableEvent(record, event);
      if updated.Err? {
        var _ := harness.Cancel();
        return Refused(ProjectionFailure);
      }
      SameObservers(w, State());
      var accepted := ProjectAndCommit(updated.value, event, false, refuse);
      if !accepted {
        var _ := harness.Cancel();
        return Refused(ProjectionFailure);
      }
      counted := true;
      return Accepted(started.value);
    }

    method Cancel(refuse: bool) returns (reply: Reply)
      requires Valid() && !exited
      modifies this, projection, harness, repository
      ensures Valid() && (State(), reply) == CancelRun(old(State()), refuse)
    {
      hide Inv, Guard, ApplyDurable, ValidateEvent, Emit, Persist, Numbered;
      ghost var w := State();
      CancelKeeps(origin, w, refuse);
      var refusal := EnsureMutable();
      if refusal.Some? {
        return Refused(refusal.value);
      }
      var cancelled := harness.Cancel();
      if cancelled.Err? {
        return Refused(NoRun);
      }
      counted := false;
      var event := Event.Cancelled(cancelled.value);
      EndCommits(origin, w, event);
      var updated := ApplyDurableEvent(record, event);
      if updated.Err? {
        return Refused(ProjectionFailure);
      }
      SameObservers(w, State());
      var accepted := ProjectAndCommit(updated.value, event, false, refuse);
      return if accepted then Success else Refused(ProjectionFailure);
    }

    /** The engine stream yields its next outcome, if a run is active. */
    method NextRunEvent(outcome: EngineOutcome, now: int, refuse: bool)
      requires Valid() && !exited
      modifies this, projection, harness, repository
      ensures Valid() && State() == EngineStep(old(State()), outcome, now, refuse)
    {
      hide Inv, Blank, StreamsKept, Numbered, ApplyDurable, ValidDatabase, Decoded, RunEventHandled;
      ghost var w := State();
      EngineKeeps(origin, w, outcome, now, refuse);
      var next := harness.NextEvent(outcome);
      if next.Some? {
        EndCommits(origin, w, SessionEventOf(next.value, now));
        SameObservers(w, State());
        HandleRunEvent(next.value, now, refuse);
      }
    }

    /** One event of the active run, which the harness has already taken in. */
    method HandleRunEvent(event: RunEvent, now: int, refuse: bool)
      requires repository.Valid() && StreamsKept(State()) && projection.sequence == |log| && Numbered(record.turns)
      requires IsRunEvent(SessionEventOf(event, now)) && ApplyDurable(record, SessionEventOf(event, now)).Ok? ==>
        Numbered(ApplyDurable(record, SessionEventOf(event, now)).value.turns)
      modifies this`record, this`dirty, this`counted, this`log, this`observers, this`channels, projection, repository
      ensures repository.Valid() && State() == RunEventHandled(old(State()), event, now, refuse)
    {
      hide ApplyDurable, ValidateEvent, Emit, DurableRunEvent, SessionModel.PersistMetadata, Numbered, StreamsKept;
      hide ValidDatabase, Decoded, Persist;
      ghost var w := State();
      if EndsRun(event) {
        counted := false;
      }
      SameObservers(w, State());
      match event
      case RunDelta(_, _) => EmitEvent(SessionEventOf(event, now));
      case RunToolFinished(_, _, _) => EmitEvent(SessionEventOf(event, now));
      case RunUsage(runId, inputTokens) =>
        record := record.(settings := record.settings.(contextTokens := inputTokens));
        record := record.(lastActivity := now);
        SameObservers(w, State());
        var _ := ProjectAndCommit(record, ContextUsage(runId, inputTokens, now), true, refuse);
      case RunCompleted(runId, response) =>
        PersistDurableRunEvent(Event.Completed(runId, response, now), true, refuse);
      case RunToolStarted(_, _, _, _) | RunFailed(_, _) | RunCancelled(_) =>
        PersistDurableRunEvent(SessionEventOf(event, now), false, refuse);
    }

    method PersistDurableRunEvent(event: Event, commitHistory: bool, refuse: bool)
      requires repository.Valid() && StreamsKept(State()) && projection.sequence == |log|
      requires commitHistory == event.Completed?
      requires ApplyDurable(record, event).Ok? ==> Numbered(ApplyDurable(record, event).value.turns)
      modifies this`record, this`dirty, this`log, this`observers, this`channels, projection, repository
      ensures repository.Valid() && State() == DurableRunEvent(old(State()), event, refuse)
    {
      hide ApplyDurable, ValidateEvent, Emit, Persist, Numbered, StreamsKept;
      var updated := ApplyDurableEvent(record, event);
      if updated.Err? {
        return;
      }
      var next := if commitHistory then updated.value.(history := harness.history) else updated.value;
      SameTurns(updated.value, next);
      var _ := ProjectAndCommit(next, event, false, refuse);
    }

    method Rename(title: SessionTitle, refuse: bool) returns (reply: Reply)
      requires Valid() && !exited
      modifies this, projection, repository
      ensures Valid() && (State(), reply) == Renamed(old(State()), title, refuse)
    {
      hide Inv, Guard, InstallTitle, Repository.Rename, ValidDatabase, Decoded, StreamsKept;
      ghost var w := State();
      RenameKeeps(origin, w, title, refuse);
      StreamsReady(origin, w);
      var refusal := EnsureMutable();
      if refusal.Some? {
        return Refused(refusal.value);
      }
      var persisted := repository.Rename(record.id, title, refuse);
      if persisted.Err? {
        return Refused(PersistenceFailure(persisted.error));
      }
      SameObservers(w, State());
      InstallPersistedTitle(persisted.value);
      return Success;
    }

    method ApplyGeneratedTitle(expectedRevision: u64, generated: Option<string>, refuse: bool) returns (reply: Reply)
      requires Valid() && !exited
      modifies this, projection, repository
      ensures Valid() && (State(), reply) == TitleGenerated(old(State()), expectedRevision, generated, refuse)
    {
      hide Inv, Guard, InstallTitle, Repository.SetGeneratedTitle, ValidDatabase, Decoded, StreamsKept;
      hide SanitizeGeneratedTitle;
      ghost var w := State();
      GeneratedTitleKeeps(origin, w, expectedRevision, generated, refuse);
      StreamsReady(origin, w);
      var refusal := EnsureMutable();
      if refusal.Some? {
        return Refused(refusal.value);
      }
      if generated.None? {
        return Success;
      }
      var title := SanitizeTitle(generated.value);
      if title.None? {
        return Success;
      }
      var persisted := repository.SetGeneratedTitle(record.id, expectedRevision, title.value, refuse);
      if persisted.Err? {
        return Refused(PersistenceFailure(persisted.error));
      }
      if persisted.value.None? {
        return Success;
      }
      SameObservers(w, State());
      InstallPersistedTitle(persisted.value.value);
      return Success;
    }

    method InstallPersistedTitle(persisted: Record)
      requires repository.Valid() && StreamsKept(State()) && projection.sequence == |log|
      modifies this`record, this`dirty, this`log, this`observers, this`channels, projection
      ensures State() == InstallTitle(old(State()), persisted)
    {
      hide StreamsKept, Emit;
      ghost var w := State();
      record := record.(title := persisted.title);
      record := record.(titleSource := persisted.titleSource);
      record := record.(titleRevision := persisted.titleRevision);
      if dirty.Some? {
        dirty := Some(record);
      }
      SameObservers(w, State());
      EmitEvent(TitleChanged(persisted.title, persisted.titleRevision));
    }

    method SelectModel(model: string, now: int, refuse: bool) returns (reply: Reply)
      requires Valid() && !exited
      modifies this, projection, repository
      ensures Valid() && (State(), reply) == ModelSelected(old(State()), model, now, refuse)
    {
      hide Inv, Guard, ChangeSettings, StreamsKept;
      ghost var w := State();
      SelectKeeps(origin, w, model, now, refuse);
      var refusal := EnsureMutable();
      if refusal.Some? {
        return Refused(refusal.value);
      }
      if projection.catalog.Ready? {
        var models := projection.catalog.models;
        var i := 0;
        while i < |models| && models[i].id != model
          invariant i <= |models| && forall k :: 0 <= k < i ==> models[k].id != model
        {
          i := i + 1;
        }
        if i == |models| {
          return Refused(ModelNotFound);
        }
      }
      ChangeSettingsTo(record.settings.(model := model), now, refuse);
      return Success;
    }

    method SelectReasoning(level: ReasoningLevel, now: int, refuse: bool) returns (reply: Reply)
      requires Valid() && !exited
      modifies this, projection, repository
      ensures Valid() && (State(), reply) == ReasoningSelected(old(State()), level, now, refuse)
    {
      hide Inv, Guard, ChangeSettings, StreamsKept;
      ghost var w := State();
      ReasoningKeeps(origin, w, level, now, refuse);
      var refusal := EnsureMutable();
      if refusal.Some? {
        return Refused(refusal.value);
      }
      var supported := false;
      if projection.catalog.Ready? {
        supported := FindSupport(projection.catalog.models, record.settings.model, level);
      }
      if !supported {
        return Refused(UnsupportedReasoning);
      }
      ChangeSettingsTo(record.settings.(reasoning := level), now, refuse);
      return Success;
    }

    method ChangeSettingsTo(settings: Settings, now: int, refuse: bool)
      requires Valid() && !exited
      modifies this`record, this`dirty, this`log, this`observers, this`channels, projection, repository
      ensures repository.Valid() && State() == ChangeSettings(old(State()), settings, now, refuse)
    {
      hide Inv, StreamsKept, Numbered, Emit, SessionModel.PersistMetadata;
      ghost var w := State();
      EndCommits(origin, w, JobsChanged([]));
      record := record.(settings := settings);
      record := record.(lastActivity := now);
      SameObservers(w, State());
      SameTurns(w.record, record);
      var _ := ProjectAndCommit(record, SettingsChanged(settings, now), true, refuse);
    }

    /** A model-visible plan replacement: undone if the event cannot be sequenced. */
    method HandlePlanUpdate(plan: seq<PlanItem>, refuse: bool) returns (reply: Reply)
      requires Valid() && !exited
      modifies this, projection, repository
      ensures Valid() && (State(), reply) == PlanReplaced(old(State()), plan, refuse)
    {
      hide Inv, StreamsKept, Numbered, Emit, Persist, Projected, EnvelopeOf, ValidDatabase, Decoded;
      ghost var w := State();
      PlanKeeps(origin, w, plan, refuse);
      EndCommits(origin, w, JobsChanged([]));
      var previous := record.plan;
      record := record.(plan := plan);
      ghost var planned := State();
      SameObservers(w, planned);
      SameTurns(w.record, record);
      var applied := projection.Apply(PlanChanged(plan));
      if applied.Err? {
        record := record.(plan := previous);
        return Refused(ProjectionFailure);
      }
      log := log + [PlanChanged(plan)];
      StrictProjection(planned, PlanChanged(plan));
      Commit(Some(applied.value), false, refuse, planned, PlanChanged(plan));
      return Success;
    }

    method Flush(refuse: bool) returns (reply: Reply)
      requires repository.Valid() && StreamsKept(State()) && projection.sequence == |log|
      requires dirty.Some? ==> Numbered(dirty.value.turns)
      modifies this`dirty, this`log, this`observers, this`channels, projection, repository
      ensures repository.Valid() && (State(), reply) == Flushed(old(State()), refuse)
    {
      hide StreamsKept, Numbered, Emit, Repository.Checkpoint, ValidDatabase, Decoded;
      ghost var w := State();
      if dirty.None? {
        return Success;
      }
      var result := repository.Checkpoint(dirty.value, refuse);
      match result
      case Ok(_) =>
        dirty := None;
        SameObservers(w, State());
        BroadcastTransition(Some(None));
        return Success;
      case Err(e) =>
        dirty := Some(record);
        SameObservers(w, State());
        BroadcastTransition(Some(Some(Describe(e))));
        return Refused(PersistenceFailure(e));
    }

    // ---------- stopping and deleting ----------

    method FlushCommand(refuse: bool) returns (reply: Reply)
      requires Valid() && !exited
      modifies this, projection, repository
      ensures Valid() && (State(), reply) == Handle(old(State()), Input.Flush(refuse))
    {
      hide Inv, StreamsKept, Flushed, Numbered;
      ghost var w := State();
      StreamsReady(origin, w);
      if deleting {
        return Refused(Deleting);
      }
      FlushKeeps(origin, w, refuse);
      DirtyIsNumbered(origin, w);
      reply := Flush(refuse);
    }

    /** Flushes, stops the jobs, and only then lets the actor go; a failure leaves it running but immutable. */
    method Shutdown(jobsStop: bool, refuse: bool) returns (reply: Reply)
      requires Valid() && !exited
      modifies this, projection, repository
      ensures Valid() && (State(), reply) == ShutDown(old(State()), jobsStop, refuse)
    {
      hide Inv, StreamsKept, Flushed, Numbered, CloseSenders, ChannelIds, ValidDatabase, Decoded;
      ghost var w := State();
      StreamsReady(origin, w);
      ShutDownKeeps(origin, w, jobsStop, refuse);
      if deleting {
        return Refused(Deleting);
      }
      DirtyIsNumbered(origin, w);
      shuttingDown := true;
      SameObservers(w, State());
      reply := Flush(refuse);
      if reply.Refused? {
        return;
      }
      if !jobsStop {
        return Refused(JobFailure);
      }
      counted := false;
      exited := true;
      ClearObservers();
      return Success;
    }

    /**
      Quiesces the session: its run is cancelled, its jobs are stopped, and the result is checkpointed,
      each attempted even if an earlier one failed; the first failure is the reply.
     */
    method PrepareDelete(jobsStop: bool, refuse: bool) returns (reply: Reply)
      requires Valid() && !exited
      modifies this, projection, harness, repository
      ensures Valid() && (State(), reply) == DeletePrepared(old(State()), jobsStop, refuse)
    {
      hide Inv, Guard, DeletePrepared;
      ghost var w := State();
      PrepareDeleteKeeps(origin, w, jobsStop, refuse);
      var refusal := EnsureMutable();
      if refusal.Some? {
        PreparationRefused(w, jobsStop, refuse);
        return Refused(refusal.value);
      }
      deleting := true;
      reply := Quiesce(jobsStop, refuse, w);
    }

    method Quiesce(jobsStop: bool, refuse: bool, ghost w: World) returns (reply: Reply)
      requires repository.Valid() && Inv(origin, w) && !w.exited && Guard(w).None?
      requires State() == w.(deleting := true)
      modifies this`record, this`dirty, this`observers, this`channels, this`counted, this`log
      modifies projection, harness, repository
      ensures repository.Valid() && (State(), reply) == DeletePrepared(w, jobsStop, refuse)
    {
      hide Inv, Guard, StreamsKept, Numbered, CancelledForDelete, Repository.Checkpoint, ValidDatabase, Decoded;
      hide DeletePrepared, Announce, Sent, Broadcast, Distinct, Written, Transition;
      PreparedParts(w, jobsStop, refuse);
      PrepareSends(origin, w, refuse);
      var firstError, cancellation := CancelForDelete();
      if !jobsStop && firstError.None? {
        firstError := Some(JobFailure);
      }
      var storeError, transition := CheckpointForDelete(refuse);
      if firstError.None? {
        firstError := storeError;
      }
      SentIs(State(), cancellation);
      if cancellation.Some? {
        BroadcastTo(cancellation.value, TERMINAL_EVENT_RESERVE);
      }
      BroadcastTransition(transition);
      return if firstError.Some? then Refused(firstError.value) else Success;
    }

    /** The terminal state is written in full; a failure here shows no warning, it is the command's reply. */
    method CheckpointForDelete(refuse: bool) returns (error: Option<CommandError>, transition: Option<Option<string>>)
      requires repository.Valid() && Numbered(record.turns)
      modifies this`dirty, repository
      ensures repository.Valid()
      ensures var written := Repository.Checkpoint(old(repository.Contents()), record, refuse);
              && State() == Written(old(State()), written)
              && error == (if written.Ok? then None else Some(PersistenceFailure(written.error)))
              && transition == if written.Ok? then Transition(old(State()), written) else None
    {
      hide Numbered, ValidDatabase, Decoded, Repository.Checkpoint;
      var result := repository.Checkpoint(record, refuse);
      match result
      case Ok(_) =>
        dirty := None;
        return None, if projection.persistenceWarning.Some? then Some(None) else None;
      case Err(e) =>
        dirty := Some(record);
        return Some(PersistenceFailure(e)), None;
    }

    method CancelForDelete() returns (error: Option<CommandError>, cancellation: Option<Envelope>)
      requires repository.Valid()
      modifies this`record, this`counted, this`observers, this`channels, this`log, projection, harness
      ensures repository.Valid() && (State(), error, cancellation) == CancelledForDelete(old(State()))
    {
      hide ApplyDurable, ValidateEvent, Projected, EnvelopeOf;
      error, cancellation := None, None;
      if harness.active.None? {
        return;
      }
      var cancelled := harness.Cancel();
      counted := false;
      var event := Event.Cancelled(cancelled.value);
      var updated := ApplyDurableEvent(record, event);
      if updated.Err? {
        return Some(ProjectionFailure), None;
      }
      record := updated.value;
      var outcome := Project(event);
      if outcome.None? {
        return Some(ProjectionFailure), None;
      }
      cancellation := outcome.value;
    }

    /** Announces the deletion to everyone still listening, using the slot kept free for it, and leaves. */
    method FinishDelete() returns (reply: Reply)
      requires Valid() && !exited
      modifies this, projection
      ensures Valid() && (State(), reply) == DeleteFinished(old(State()))
    {
      hide Inv, StreamsKept, Reduce, Survivors, Deliver, CloseSenders, ChannelIds, Distinct, ValidDatabase, Decoded;
      ghost var w := State();
      FinishDeleteKeeps(origin, w);
      StreamsReady(origin, w);
      Observed(w);
      if !deleting {
        return Refused(ProjectionFailure);
      }
      var outcome := Project(Deleted(record.id));
      if outcome.value.Some? {
        BroadcastTo(outcome.value.value, 0);
      }
      counted := false;
      exited := true;
      ClearObservers();
      return Success;
    }

    method AbortDelete() returns (reply: Reply)
      requires Valid() && !exited
      modifies this
      ensures Valid() && (State(), reply) == DeleteAborted(old(State()))
    {
      hide Inv, CloseSenders, ChannelIds, ValidDatabase, Decoded;
      AbortDeleteKeeps(origin, State());
      if !deleting {
        return Refused(ProjectionFailure);
      }
      counted := false;
      exited := true;
      ClearObservers();
      return Success;
    }

    // ---------- observers coming and going ----------

    /** Registers an observer on a new channel and answers with the state its events follow. */
    method Attach(connection: u64, attachment: u64, channel: nat, jobs: Option<seq<Job>>) returns (reply: Reply)
      requires Valid() && !exited && channel !in channels
      modifies this
      ensures Valid() && (State(), reply) == AttachObserver(old(State()), connection, attachment, channel, jobs)
    {
      hide Inv, SnapshotOf, ValidDatabase, Decoded;
      AttachKeeps(origin, State(), connection, attachment, channel, jobs);
      if deleting {
        return Refused(Deleting);
      }
      channels := channels[channel := Channel([], projection.sequence + 1, true, true)];
      observers := observers + [Observer(connection, attachment, channel)];
      if jobs.None? {
        observers := observers[..|observers| - 1];
        channels := channels[channel := Channel([], projection.sequence + 1, false, true)];
        assert observers == old(observers);
        assert channels == old(channels)[channel := Channel([], projection.sequence + 1, false, true)];
        return Refused(JobFailure);
      }
      return Attached(SnapshotOf(projection.View(), jobs.value, |observers|));
    }

    /** Drops the observers of a connection, or the one with the given attachment; work goes on. */
    method Detach(connection: u64, attachment: Option<u64>) returns (clients: nat)
      requires Valid() && !exited
      modifies this
      ensures Valid() && State() == DetachObservers(old(State()), connection, attachment)
      ensures clients == ClientCount(|State().observers|)
    {
      hide Inv, ChannelIds, CloseSenders;
      DetachKeeps(origin, State(), connection, attachment);
      var kept := [];
      var i := 0;
      while i < |observers|
        invariant i <= |observers| && State() == old(State()) && origin == old(origin)
        invariant kept == Remaining(observers[..i], connection, attachment)
      {
        assert observers[..i + 1][..i] == observers[..i];
        var o := observers[i];
        if !(o.connection == connection && (attachment.None? || o.attachment == attachment.value)) {
          kept := kept + [o];
        }
        i := i + 1;
      }
      assert observers[..i] == observers;
      channels := CloseSenders(channels, ChannelIds(observers) - ChannelIds(kept));
      observers := kept;
      return ClientCount(|observers|);
    }

    method HandleJobsChanged(jobs: Option<seq<Job>>)
      requires Valid() && !exited
      modifies this, projection
      ensures Valid() && State() == Handle(old(State()), JobsChange(jobs)).0
    {
      hide Inv, StreamsKept, Emit, ValidDatabase, Decoded;
      ghost var w := State();
      StreamsReady(origin, w);
      if !deleting && jobs.Some? {
        QuietKeeps(origin, w, JobsChanged(jobs.value));
        EmitEvent(JobsChanged(jobs.value));
      }
    }

    /** All handles were dropped: the actor leaves once no run is active. */
    method HandlesDropped()
      requires Valid() && !exited
      modifies this
      ensures Valid() && State() == Handle(old(State()), Input.HandlesDropped).0
    {
      hide Inv, CloseSenders, ChannelIds, StreamsKept, LogKept, ValidDatabase, Decoded;
      ghost var w := State();
      HandleKeeps(origin, w, Input.HandlesDropped);
      if harness.active.None? {
        exited := true;
        ClearObservers();
      }
    }

    /** One turn of the actor's loop: a command, a run event, a job change or a plan update. */
    method HandleInput(input: Input) returns (reply: Reply)
      requires Valid() && !exited
      requires !input.Receive? && !input.CloseReceiver? && !input.Elsewhere?
      requires input.Attach? ==> input.channel !in channels
      modifies this, projection, harness, repository
      ensures Valid() && (State(), reply) == Step(old(State()), input)
    {
      hide Inv, AttachObserver, DetachObservers, Submitted, CancelRun, Renamed, TitleGenerated, DeletePrepared, ValidDatabase, Decoded;
      hide DeleteFinished, DeleteAborted, ModelSelected, ReasoningSelected, ShutDown, EngineStep, PlanReplaced;
      hide Flushed, Emit, Exit, ValidDatabase, Decoded;
      reply := Success;
      match input
      case Submit(prompt, refuse) => reply := Submit(prompt, refuse);
      case Cancel(refuse) => reply := Cancel(refuse);
      case RenameTo(title, refuse) => reply := Rename(title, refuse);
      case ApplyGeneratedTitle(expectedRevision, generated, refuse) =>
        reply := ApplyGeneratedTitle(expectedRevision, generated, refuse);
      case SelectModel(model, now, refuse) => reply := SelectModel(model, now, refuse);
      case SelectReasoning(level, now, refuse) => reply := SelectReasoning(level, now, refuse);
      case Engine(outcome, now, refuse) => NextRunEvent(outcome, now, refuse);
      case PlanUpdate(plan, refuse) => reply := HandlePlanUpdate(plan, refuse);
      case Attach(_, _, _, _) | Detach(_, _) | DetachConnection(_) | JobsChange(_) | HandlesDropped =>
        reply := HandleLifecycle(input);
      case PrepareDelete(_, _) | FinishDelete | AbortDelete | Flush(_) | Shutdown(_, _) =>
        reply := HandleLifecycle(input);
    }

    /** Commands about observers and about the end of the session or of its actor. */
    method HandleLifecycle(input: Input) returns (reply: Reply)
      requires Valid() && !exited
      requires input.Attach? || input.Detach? || input.DetachConnection? || input.PrepareDelete? || input.FinishDelete?
               || input.AbortDelete? || input.Flush? || input.Shutdown? || input.JobsChange? || input.HandlesDropped?
      requires input.Attach? ==> input.channel !in channels
      modifies this, projection, harness, repository
      ensures Valid() && (State(), reply) == Handle(old(State()), input)
    {
      hide Inv, AttachObserver, DetachObservers, DeletePrepared, DeleteFinished, DeleteAborted, ShutDown, ValidDatabase, Decoded;
      hide Flushed, Emit, Exit, ValidDatabase, Decoded;
      reply := Success;
      match input
      case Attach(connection, attachment, channel, jobs) => reply := Attach(connection, attachment, channel, jobs);
      case Detach(connection, attachment) =>
        var clients := Detach(connection, Some(attachment));
        reply := Detached(clients);
      case DetachConnection(connection) => var _ := Detach(connection, None);
      case PrepareDelete(jobsStop, refuse) => reply := PrepareDelete(jobsStop, refuse);
      case FinishDelete => reply := FinishDelete();
      case AbortDelete => reply := AbortDelete();
      case Flush(refuse) => reply := FlushCommand(refuse);
      case Shutdown(jobsStop, refuse) => reply := Shutdown(jobsStop, refuse);
      case JobsChange(jobs) => HandleJobsChanged(jobs);
      case HandlesDropped => HandlesDropped();
    }
  }

  /** Cancelling for deletion, before anyone has been told. */
  function CancelledForDelete(w: World): (World, Option<CommandError>, Option<Envelope>) {
    if w.harness.active.None? then (w, None, None)
    else
      var event := Event.Cancelled(w.harness.active.value.id);
      var stopped := w.(harness := w.harness.(active := None), counted := false);
      match ApplyDurable(w.record, event)
      case Err(_) => (stopped, Some(ProjectionFailure), None)
      case Ok(record) =>
        var kept := stopped.(record := record);
        if ValidateEvent(w.projection, event).Some? then (kept, Some(ProjectionFailure), None)
        else (Projected(kept, event), None, EnvelopeOf(kept, event))
  }

  lemma PreparationRefused(w: World, jobsStop: bool, refuse: bool)
    requires Guard(w).Some?
    ensures DeletePrepared(w, jobsStop, refuse) == (w, Refused(Guard(w).value))
  {
  }

  lemma StopIsSent(w: World)
    ensures var (quiet, error, cancellation) := CancelledForDelete(w);
            StopForDelete(w) == (Sent(quiet, cancellation), error)
  {
    hide Emit, Sent, ApplyDurable, ValidateEvent, Projected, EnvelopeOf;
    if w.harness.active.Some? {
      var event := Event.Cancelled(w.harness.active.value.id);
      if ApplyDurable(w.record, event).Ok? && ValidateEvent(w.projection, event).None? {
        EmitIsSent(w.(harness := w.harness.(active := None), counted := false,
                      record := ApplyDurable(w.record, event).value), event);
      }
    }
    SentIs(CancelledForDelete(w).0, None);
  }

  lemma SentIs(w: World, envelope: Option<Envelope>)
    ensures Sent(w, envelope) == if envelope.None? then w else Broadcast(w, envelope.value, TERMINAL_EVENT_RESERVE)
  {
    hide Broadcast;
  }

  /** Preparation, statement by statement, ends where its one-step description says. */
  lemma PreparedParts(w: World, jobsStop: bool, refuse: bool)
    requires Guard(w).None?
    ensures var (quiet, error, cancellation) := CancelledForDelete(w.(deleting := true));
            var written := Repository.Checkpoint(quiet.sessions, quiet.record, refuse);
            var failure := if error.Some? then error else if !jobsStop then Some(JobFailure) else None;
            && DeletePrepared(w, jobsStop, refuse).0 ==
               Announce(Sent(Written(quiet, written), cancellation), if written.Ok? then Transition(quiet, written) else None)
            && DeletePrepared(w, jobsStop, refuse).1 ==
               if failure.Some? then Refused(failure.value)
               else if written.Err? then Refused(PersistenceFailure(written.error)) else Success
  {
    hide Emit, Sent, CancelledForDelete, StopForDelete, Repository.Checkpoint;
    StopIsSent(w.(deleting := true));
    var (quiet, error, cancellation) := CancelledForDelete(w.(deleting := true));
    var written := Repository.Checkpoint(quiet.sessions, quiet.record, refuse);
    WrittenThenSent(quiet, cancellation, written);
    SendKeepsOutcome(quiet, cancellation, written);
  }

  lemma PrepareSends(origin: Projection, w: World, refuse: bool)
    requires Inv(origin, w) && !w.exited
    ensures var (quiet, error, cancellation) := CancelledForDelete(w.(deleting := true));
            var before := Written(quiet, Repository.Checkpoint(quiet.sessions, quiet.record, refuse));
            var after := Sent(before, cancellation);
            && Numbered(quiet.record.turns)
            && StreamsKept(after) && after.projection.sequence == |after.log|
            && (cancellation.Some? ==>
                  Distinct(before.observers) && forall o :: o in before.observers ==> o.channel in before.channels)
  {
    hide LogKept, StreamsKept, Numbered, RowAgrees, ApplyDurable, Reduce, ValidateEvent, EnvelopeOf, Sent, Written;
    hide Projected, Repository.Checkpoint, Consistent;
    var entered := w.(deleting := true);
    var (quiet, error, cancellation) := CancelledForDelete(entered);
    var written := Repository.Checkpoint(quiet.sessions, quiet.record, refuse);
    StreamsReady(origin, w);
    DirtyIsNumbered(origin, w);
    if w.harness.active.Some? {
      var event := Event.Cancelled(w.harness.active.value.id);
      DurableAligned(w.record, w.projection, w.harness, event);
      EndCommits(origin, w, event);
      var kept := entered.(harness := w.harness.(active := None), counted := false,
                           record := ApplyDurable(w.record, event).value);
      SameObservers(w, kept);
      ProjectedRecord(kept, event);
      StreamsBeforeAnnouncing(kept, event, written);
    } else {
      WrittenThenSent(quiet, None, written);
      SentIs(Written(quiet, written), None);
      SameObservers(w, Written(quiet, written));
    }
  }

  lemma ProjectedRecord(w: World, event: Event)
    ensures Projected(w, event).record == w.record
  {
    hide Reduce, CloseSenders, ChannelIds;
  }

  lemma Observed(w: World)
    requires StreamsKept(w)
    ensures Distinct(w.observers) && forall o :: o in w.observers ==> o.channel in w.channels
  {
    hide Slice, Current, ChannelIds;
  }

  method FindSupport(models: seq<ModelInfo>, model: string, level: ReasoningLevel) returns (supported: bool)
    ensures supported <==> ReasoningSupported(models, model, level)
  {
    var i := 0;
    while i < |models|
      invariant i <= |models| && ReasoningSupported(models, model, level) == ReasoningSupported(models[i..], model, level)
    {
      assert models[i..][1..] == models[i + 1..];
      if models[i].id == model {
        return level in models[i].reasoningEfforts;
      }
      i := i + 1;
    }
    return false;
  }

  lemma StrictProjection(w: World, event: Event)
    requires w.projection.sequence < U64_MAX
    ensures Projected(w, event) == w.(
      projection := Reduce(w.projection.(sequence := w.projection.sequence + 1), event), log := w.log + [event])
    ensures EnvelopeOf(w, event) == Some(Envelope(w.projection.sequence + 1, event))
  {
    hide Reduce;
  }

  lemma DirtyIsNumbered(origin: Projection, w: World)
    requires Inv(origin, w) && !w.exited
    ensures w.dirty.Some? ==> Numbered(w.dirty.value.turns)
    ensures Numbered(w.record.turns)
  {
    hide LogKept, StreamsKept, Numbered, Consistent, RowAgrees;
    ConsistentIsNumbered(w.record);
  }

  lemma StreamsReady(origin: Projection, w: World)
    requires Inv(origin, w)
    ensures StreamsKept(w) && w.projection.sequence == |w.log|
  {
    hide LogKept, StreamsKept, InStep;
    SequenceIsLength(origin, w);
  }

  function CommittedWorld(w: World, event: Event, metadataOnly: bool, refuse: bool): World {
    if metadataOnly then PersistMetadata(Emit(w, event), refuse) else Persist(Emit(w, event), refuse)
  }

  lemma SameObservers(w: World, v: World)
    requires v.log == w.log && v.observers == w.observers && v.channels == w.channels
    ensures StreamsKept(v) == StreamsKept(w)
  {
    hide Slice, Current, Distinct, ChannelIds;
  }

  lemma SameTurns(a: Record, b: Record)
    requires a.turns == b.turns
    ensures Numbered(a.turns) == Numbered(b.turns)
  {
  }

  /** Projecting does not look at the record. */
  lemma ProjectedIs(w: World, event: Event)
    ensures w.projection.sequence < U64_MAX ==>
      Projected(w, event) ==
      w.(projection := Reduce(w.projection.(sequence := w.projection.sequence + 1), event), log := w.log + [event])
    ensures w.projection.sequence == U64_MAX ==>
      Projected(w, event) == DropObservers(w.(projection := Reduce(w.projection, event)))
  {
    hide Reduce, DropObservers;
  }

  lemma ProjectKeepsRecord(w: World, r: Record, event: Event)
    ensures Projected(w.(record := r), event) == Projected(w, event).(record := r)
    ensures EnvelopeOf(w.(record := r), event) == EnvelopeOf(w, event)
  {
    hide Reduce, DropObservers;
    DropKeepsRecord(w.(projection := Reduce(w.projection, event)), r);
  }

  lemma DropKeepsRecord(w: World, r: Record)
    ensures DropObservers(w.(record := r)) == DropObservers(w).(record := r)
  {
    hide CloseSenders, ChannelIds;
  }

  /** What an accepted submission needs for its commit. */
  lemma SubmitCommits(origin: Projection, w: World, prompt: string)
    requires Inv(origin, w) && !w.exited
    ensures StreamsKept(w) && w.projection.sequence == |w.log|
    ensures SubmitRun(w.harness, prompt).Ok? ==>
      var updated := ApplyDurable(w.record, Started(w.harness.nextRunId, prompt));
      updated.Ok? ==> Numbered(updated.value.turns)
  {
    hide LogKept, StreamsKept, Numbered, Consistent, ApplyDurable, Reduce, ValidateEvent;
    SequenceIsLength(origin, w);
    if SubmitRun(w.harness, prompt).Ok? {
      StartAligned(w.record, w.projection, w.harness, prompt);
      ConsistentIsNumbered(ApplyDurable(w.record, Started(w.harness.nextRunId, prompt)).value);
    }
  }

  lemma EndCommits(origin: Projection, w: World, event: Event)
    requires Inv(origin, w) && !w.exited
    ensures StreamsKept(w) && w.projection.sequence == |w.log| && Numbered(w.record.turns)
    ensures w.harness.active.Some? && IsRunEvent(event) && event.runId == w.harness.active.value.id ==>
      var updated := ApplyDurable(w.record, event);
      updated.Ok? ==> Numbered(updated.value.turns)
  {
    hide LogKept, StreamsKept, Numbered, Consistent, ApplyDurable, Reduce, ValidateEvent;
    SequenceIsLength(origin, w);
    ConsistentIsNumbered(w.record);
    if w.harness.active.Some? && IsRunEvent(event) && event.runId == w.harness.active.value.id {
      DurableAligned(w.record, w.projection, w.harness, event);
      var updated := ApplyDurable(w.record, event).value;
      ConsistentIsNumbered(if event.Completed? then updated.(history := HarnessAfter(w.harness, event).history)
                           else updated);
    }
  }

  lemma WriteIs(w: World, refuse: bool)
    ensures ActorWrite(w, false, refuse) == Repository.Checkpoint(w.sessions, w.record, refuse)
  {
    hide Checkpoint;
  }

  /** Any consistent record whose last turn is the harness's first run, not only a freshly created one. */
  lemma PersistedStarts(record: Record, catalog: Catalog, prompt: string, sessions: Sessions)
    requires Consistent(record) && Open(record) && StartsWith(record, 0, prompt)
    requires record.id in sessions && sessions[record.id] == record
    ensures var w := SpawnedMaterialized(record, catalog, prompt, sessions);
            Inv(w.projection, w)
  {
    hide Grammar, History;
    StartIsLastTurn(record, 0, prompt);
    LastPrompt(record);
  }

  lemma LastPrompt(r: Record)
    requires Consistent(r) && Open(r)
    ensures r.turns[|r.turns| - 1].promptPosition < |r.transcript|
  {
  }

  lemma NothingClosed(channels: map<nat, Channel>)
    ensures CloseSenders(channels, ChannelIds([])) == channels
  {
  }

  lemma NothingDelivered(channels: map<nat, Channel>, envelope: Envelope, reserve: nat)
    ensures Deliver(channels, ChannelIds([]), envelope, reserve) == channels
    ensures Survivors([], channels, reserve) == []
  {
  }
}
