/**
  One session as the actor, its projection, its harness, its observers and its durable row see it,
  and what every command, run event and environment step does to all of them.
 */
module SessionModel {
  import opened Prelude
  import opened Titles
  import opened Records
  import opened Transcripts
  import opened Repository
  import opened Projections
  import opened Harnesses

  const OBSERVER_CAPACITY: nat := 128
  const TERMINAL_EVENT_RESERVE: nat := 1
  const CHANNEL_CAPACITY: nat := OBSERVER_CAPACITY + TERMINAL_EVENT_RESERVE

  datatype Observer = Observer(connection: u64, attachment: u64, channel: nat)

  /** A bounded event channel; `next` is the sequence of its oldest undelivered event. */
  datatype Channel = Channel(queue: seq<Envelope>, next: nat, senderOpen: bool, receiverOpen: bool)

  datatype CommandError =
    | SessionBusy
    | NoRun
    | RunIdsExhausted
    | ModelNotFound
    | UnsupportedReasoning
    | PersistenceFailure(error: StoreError)
    | JobFailure
    | ProjectionFailure
    | Deleting
    | ActorUnavailable

  datatype Reply =
    | Success
    | Accepted(runId: u64)
    | Attached(snapshot: Snapshot)
    | Detached(clients: nat)
    | Refused(error: CommandError)

  /** `log` lists every sequenced event; it exists only to state what observers must receive. */
  datatype World = World(
    record: Record, projection: Projection, harness: HarnessState, dirty: Option<Record>,
    observers: seq<Observer>, channels: map<nat, Channel>,
    shuttingDown: bool, deleting: bool, exited: bool, counted: bool,
    sessions: Sessions, log: seq<Event>)

  // ---------- broadcasting ----------

  predicate Accepts(channel: Channel, reserve: nat) {
    channel.receiverOpen && |channel.queue| + reserve < CHANNEL_CAPACITY
  }

  function Offer(channel: Channel, envelope: Envelope, reserve: nat): Channel {
    if Accepts(channel, reserve) then channel.(queue := channel.queue + [envelope])
    else channel.(senderOpen := false)
  }

  function ChannelIds(observers: seq<Observer>): set<nat> {
    set o | o in observers :: o.channel
  }

  function Deliver(channels: map<nat, Channel>, ids: set<nat>, envelope: Envelope, reserve: nat): map<nat, Channel> {
    map c | c in channels :: if c in ids then Offer(channels[c], envelope, reserve) else channels[c]
  }

  function Survivors(observers: seq<Observer>, channels: map<nat, Channel>, reserve: nat): seq<Observer> {
    if observers == [] then []
    else
      var last := observers[|observers| - 1];
      Survivors(observers[..|observers| - 1], channels, reserve) +
      if last.channel in channels && Accepts(channels[last.channel], reserve) then [last] else []
  }

  function CloseSenders(channels: map<nat, Channel>, ids: set<nat>): map<nat, Channel> {
    map c | c in channels :: if c in ids then channels[c].(senderOpen := false) else channels[c]
  }

  function Broadcast(w: World, envelope: Envelope, reserve: nat): World {
    w.(observers := Survivors(w.observers, w.channels, reserve),
       channels := Deliver(w.channels, ChannelIds(w.observers), envelope, reserve))
  }

  function DropObservers(w: World): World {
    w.(observers := [], channels := CloseSenders(w.channels, ChannelIds(w.observers)))
  }

  /** The projection takes one event: sequenced while sequence numbers last, unsequenced afterwards. */
  function Projected(w: World, event: Event): World {
    if w.projection.sequence < U64_MAX then
      w.(projection := Reduce(w.projection.(sequence := w.projection.sequence + 1), event), log := w.log + [event])
    else DropObservers(w.(projection := Reduce(w.projection, event)))
  }

  /** Applies a state change to the projection and offers it to every observer. */
  function Emit(w: World, event: Event, reserve: nat := TERMINAL_EVENT_RESERVE): World {
    if ValidateEvent(w.projection, event).Some? then w
    else if w.projection.sequence < U64_MAX then
      Broadcast(Projected(w, event), Envelope(w.projection.sequence + 1, event), reserve)
    else Projected(w, event)
  }

  // ---------- write-behind persistence ----------

  /** Records the outcome of a write, and announces when the persistence warning appears or clears. */
  function Settle(w: World, written: Result<Sessions, StoreError>): World {
    match written
    case Ok(sessions) =>
      var clean := w.(sessions := sessions, dirty := None);
      if w.projection.warning.Some? then Emit(clean, PersistenceWarning(None)) else clean
    case Err(e) => Emit(w.(dirty := Some(w.record)), PersistenceWarning(Some(Describe(e))))
  }

  function Persist(w: World, refuse: bool): World {
    Settle(w, Checkpoint(w.sessions, w.record, refuse))
  }

  /** Metadata alone is enough exactly when nothing else is waiting to be written. */
  function PersistMetadata(w: World, refuse: bool): World {
    if w.dirty.Some? then Settle(w, Checkpoint(w.sessions, w.record, refuse))
    else Settle(w, UpdateMetadata(w.sessions, w.record, refuse))
  }

  // ---------- commands ----------

  function Guard(w: World): Option<CommandError> {
    if w.deleting then Some(Deleting) else if w.shuttingDown then Some(ActorUnavailable) else None
  }

  function HarnessRefusal(e: HarnessError): CommandError {
    match e
    case Busy => SessionBusy
    case NotRunning => NoRun
    case RunIdExhausted => RunIdsExhausted
  }

  function Submitted(w: World, prompt: string, refuse: bool): (World, Reply) {
    if Guard(w).Some? then (w, Refused(Guard(w).value))
    else match SubmitRun(w.harness, prompt)
      case Err(e) => (w, Refused(HarnessRefusal(e)))
      case Ok(harness) =>
        var event := Started(w.harness.nextRunId, prompt);
        match ApplyDurable(w.record, event)
        case Err(_) => (w.(harness := harness.(active := None)), Refused(ProjectionFailure))
        case Ok(record) =>
          if ValidateEvent(w.projection, event).Some? then
            (w.(harness := harness.(active := None)), Refused(ProjectionFailure))
          else
            (Persist(Emit(w.(harness := harness, record := record), event), refuse).(counted := true),
             Accepted(w.harness.nextRunId))
  }

  /** A run event that belongs to the transcript: durable record, projection, checkpoint, observers. */
  function DurableRunEvent(w: World, event: Event, refuse: bool): World {
    match ApplyDurable(w.record, event)
    case Err(_) => w
    case Ok(record) =>
      if ValidateEvent(w.projection, event).Some? then w
      else
        var updated := if event.Completed? then record.(history := w.harness.history) else record;
        Persist(Emit(w.(record := updated), event), refuse)
  }

  function CancelRun(w: World, refuse: bool): (World, Reply) {
    if Guard(w).Some? then (w, Refused(Guard(w).value))
    else if w.harness.active.None? then (w, Refused(NoRun))
    else
      var event := Event.Cancelled(w.harness.active.value.id);
      var stopped := w.(harness := w.harness.(active := None), counted := false);
      if ApplyDurable(w.record, event).Err? || ValidateEvent(w.projection, event).Some? then
        (stopped, Refused(ProjectionFailure))
      else (DurableRunEvent(stopped, event, refuse), Success)
  }

  function SessionEventOf(event: RunEvent, now: int): Event {
    match event
    case RunDelta(runId, text) => AssistantDelta(runId, text)
    case RunUsage(runId, inputTokens) => ContextUsage(runId, inputTokens, now)
    case RunToolStarted(runId, callId, name, arguments) => Event.ToolStarted(runId, callId, name, arguments)
    case RunToolFinished(runId, callId, name) => ToolFinished(runId, callId, name)
    case RunCompleted(runId, response) => Event.Completed(runId, response, now)
    case RunFailed(runId, failure) => Event.Failed(runId, failure)
    case RunCancelled(runId) => Event.Cancelled(runId)
  }

  predicate EndsRun(event: RunEvent) {
    event.RunCompleted? || event.RunFailed? || event.RunCancelled?
  }

  /** The engine yields its next outcome for the active run. */
  function EngineStep(w: World, outcome: EngineOutcome, now: int, refuse: bool): World {
    if w.harness.active.None? then w
    else
      var event := EventOf(w.harness.active.value.id, outcome);
      RunEventHandled(w.(harness := AfterEvent(w.harness, event)), event, now, refuse)
  }

  /** What the actor does with an event that its harness has already taken in. */
  function RunEventHandled(w: World, event: RunEvent, now: int, refuse: bool): World {
    var projected := SessionEventOf(event, now);
    var stepped := w.(counted := w.counted && !EndsRun(event));
    match event
    case RunUsage(_, inputTokens) =>
      var updated := stepped.(record := w.record.(settings := w.record.settings.(contextTokens := inputTokens),
                                                  lastActivity := now));
      if ValidateEvent(w.projection, projected).Some? then updated
      else PersistMetadata(Emit(updated, projected), refuse)
    case RunDelta(_, _) => Emit(stepped, projected)
    case RunToolFinished(_, _, _) => Emit(stepped, projected)
    case _ => DurableRunEvent(stepped, projected, refuse)
  }

  function InstallTitle(w: World, persisted: Record): World {
    var record := w.record.(title := persisted.title, titleSource := persisted.titleSource,
                            titleRevision := persisted.titleRevision);
    var dirty := if w.dirty.Some? then Some(record) else None;
    Emit(w.(record := record, dirty := dirty), TitleChanged(persisted.title, persisted.titleRevision))
  }

  function Renamed(w: World, title: SessionTitle, refuse: bool): (World, Reply) {
    if Guard(w).Some? then (w, Refused(Guard(w).value))
    else match Rename(w.sessions, w.record.id, title, refuse)
      case Err(e) => (w, Refused(PersistenceFailure(e)))
      case Ok(r) => (InstallTitle(w.(sessions := w.sessions[w.record.id := r]), r), Success)
  }

  function TitleGenerated(w: World, expectedRevision: u64, generated: Option<string>, refuse: bool): (World, Reply) {
    if Guard(w).Some? then (w, Refused(Guard(w).value))
    else if generated.None? || SanitizeGeneratedTitle(generated.value).None? then (w, Success)
    else
      var title := SanitizeGeneratedTitle(generated.value).value;
      match SetGeneratedTitle(w.sessions, w.record.id, expectedRevision, title, refuse)
      case Err(e) => (w, Refused(PersistenceFailure(e)))
      case Ok(None) => (w, Success)
      case Ok(Some(r)) => (InstallTitle(w.(sessions := w.sessions[w.record.id := r]), r), Success)
  }

  predicate ModelKnown(catalog: Catalog, model: string) {
    catalog.Ready? ==> exists i :: 0 <= i < |catalog.models| && catalog.models[i].id == model
  }

  /** The first catalog entry for the model must advertise the level; without a catalog nothing does. */
  predicate ReasoningSupported(models: seq<ModelInfo>, model: string, level: ReasoningLevel) {
    if models == [] then false
    else if models[0].id == model then level in models[0].reasoningEfforts
    else ReasoningSupported(models[1..], model, level)
  }

  function ChangeSettings(w: World, settings: Settings, now: int, refuse: bool): World {
    PersistMetadata(
      Emit(w.(record := w.record.(settings := settings, lastActivity := now)), SettingsChanged(settings, now)),
      refuse)
  }

  function ModelSelected(w: World, model: string, now: int, refuse: bool): (World, Reply) {
    if Guard(w).Some? then (w, Refused(Guard(w).value))
    else if !ModelKnown(w.projection.catalog, model) then (w, Refused(ModelNotFound))
    else (ChangeSettings(w, w.record.settings.(model := model), now, refuse), Success)
  }

  function ReasoningSelected(w: World, level: ReasoningLevel, now: int, refuse: bool): (World, Reply) {
    if Guard(w).Some? then (w, Refused(Guard(w).value))
    else if !w.projection.catalog.Ready?
         || !ReasoningSupported(w.projection.catalog.models, w.record.settings.model, level) then
      (w, Refused(UnsupportedReasoning))
    else (ChangeSettings(w, w.record.settings.(reasoning := level), now, refuse), Success)
  }

  /** A model-visible plan replacement; it is refused, and undone, once sequences are exhausted. */
  function PlanReplaced(w: World, plan: seq<PlanItem>, refuse: bool): (World, Reply) {
    if w.projection.sequence == U64_MAX then (w, Refused(ProjectionFailure))
    else (Persist(Emit(w.(record := w.record.(plan := plan)), PlanChanged(plan)), refuse), Success)
  }

  function Flushed(w: World, refuse: bool): (World, Reply) {
    if w.dirty.None? then (w, Success)
    else match Checkpoint(w.sessions, w.dirty.value, refuse)
      case Ok(sessions) => (Emit(w.(sessions := sessions, dirty := None), PersistenceWarning(None)), Success)
      case Err(e) =>
        (Emit(w.(dirty := Some(w.record)), PersistenceWarning(Some(Describe(e)))), Refused(PersistenceFailure(e)))
  }

  function Exit(w: World): World {
    DropObservers(w.(exited := true))
  }

  function ShutDown(w: World, jobsStop: bool, refuse: bool): (World, Reply) {
    if w.deleting then (w, Refused(Deleting))
    else
      var (flushed, reply) := Flushed(w.(shuttingDown := true), refuse);
      if reply.Refused? then (flushed, reply)
      else if !jobsStop then (flushed, Refused(JobFailure))
      else (Exit(flushed.(counted := false)), Success)
  }

  /** The run is cancelled and its visible end checkpointed before the session may be deleted. */
  function DeletePrepared(w: World, jobsStop: bool, refuse: bool): (World, Reply) {
    if Guard(w).Some? then (w, Refused(Guard(w).value))
    else
      var entered := w.(deleting := true);
      var (stopped, stopFailure) := StopForDelete(entered);
      var failure := if stopFailure.Some? then stopFailure
                     else if !jobsStop then Some(JobFailure) else None;
      match Checkpoint(stopped.sessions, stopped.record, refuse)
      case Ok(sessions) =>
        var clean := stopped.(sessions := sessions, dirty := None);
        var told := if stopped.projection.warning.Some? then Emit(clean, PersistenceWarning(None)) else clean;
        (told, if failure.Some? then Refused(failure.value) else Success)
      case Err(e) =>
        (stopped.(dirty := Some(stopped.record)),
         Refused(if failure.Some? then failure.value else PersistenceFailure(e)))
  }

  function StopForDelete(w: World): (World, Option<CommandError>) {
    if w.harness.active.None? then (w, None)
    else
      var event := Event.Cancelled(w.harness.active.value.id);
      var stopped := w.(harness := w.harness.(active := None), counted := false);
      match ApplyDurable(w.record, event)
      case Err(_) => (stopped, Some(ProjectionFailure))
      case Ok(record) =>
        var kept := stopped.(record := record);
        if ValidateEvent(w.projection, event).Some? then (kept, Some(ProjectionFailure))
        else (Emit(kept, event), None)
  }

  function DeleteFinished(w: World): (World, Reply) {
    if !w.deleting then (w, Refused(ProjectionFailure))
    else (Exit(Emit(w, Deleted(w.record.id), 0).(counted := false)), Success)
  }

  function DeleteAborted(w: World): (World, Reply) {
    if !w.deleting then (w, Refused(ProjectionFailure))
    else (Exit(w.(counted := false)), Success)
  }

  /** Client counts travel as 32-bit numbers. */
  function ClientCount(observers: nat): nat {
    if observers <= 0xFFFF_FFFF then observers else 0xFFFF_FFFF
  }

  function SnapshotOf(p: Projection, jobs: seq<Job>, observers: nat): Snapshot {
    var s := TakeSnapshot(p, jobs);
    s.(summary := s.summary.(attachedClients := ClientCount(observers)))
  }

  /** `channel` is the identity of a channel created for this attachment; `jobs` is absent if the registry fails. */
  function AttachObserver(w: World, connection: u64, attachment: u64, channel: nat, jobs: Option<seq<Job>>)
    : (World, Reply)
  {
    if w.deleting then (w, Refused(Deleting))
    else if channel in w.channels then (w, Refused(ActorUnavailable))
    else if jobs.None? then
      (w.(channels := w.channels[channel := Channel([], w.projection.sequence + 1, false, true)]), Refused(JobFailure))
    else
      (w.(observers := w.observers + [Observer(connection, attachment, channel)],
          channels := w.channels[channel := Channel([], w.projection.sequence + 1, true, true)]),
       Attached(SnapshotOf(w.projection, jobs.value, |w.observers| + 1)))
  }

  /** The observers that stay when those of `connection` (and of `attachment`, if given) are detached. */
  function Remaining(observers: seq<Observer>, connection: u64, attachment: Option<u64>): seq<Observer> {
    if observers == [] then []
    else
      var last := observers[|observers| - 1];
      Remaining(observers[..|observers| - 1], connection, attachment) +
      if last.connection == connection && (attachment.None? || last.attachment == attachment.value) then [] else [last]
  }

  function DetachObservers(w: World, connection: u64, attachment: Option<u64>): World {
    var kept := Remaining(w.observers, connection, attachment);
    w.(observers := kept,
       channels := CloseSenders(w.channels, ChannelIds(w.observers) - ChannelIds(kept)))
  }

  // ---------- every step ----------

  datatype Input =
    | Attach(connection: u64, attachment: u64, channel: nat, jobs: Option<seq<Job>>)
    | Detach(connection: u64, attachment: u64)
    | DetachConnection(connection: u64)
    | Submit(prompt: string, refuse: bool)
    | Cancel(refuse: bool)
    | RenameTo(title: SessionTitle, refuse: bool)
    | ApplyGeneratedTitle(expectedRevision: u64, generated: Option<string>, refuse: bool)
    | PrepareDelete(jobsStop: bool, refuse: bool)
    | FinishDelete
    | AbortDelete
    | SelectModel(model: string, now: int, refuse: bool)
    | SelectReasoning(level: ReasoningLevel, now: int, refuse: bool)
    | Flush(refuse: bool)
    | Shutdown(jobsStop: bool, refuse: bool)
    | Engine(outcome: EngineOutcome, now: int, refuse: bool)
    | JobsChange(jobs: Option<seq<Job>>)
    | PlanUpdate(plan: seq<PlanItem>, refuse: bool)
    | Receive(channel: nat)
    | CloseReceiver(channel: nat)
    | HandlesDropped
    | Elsewhere(sessions: Sessions)

  /**
    What others may do to the store: other sessions leave this one's row alone, and only the manager
    removes it, once deletion has been prepared. Nothing is assumed after the actor has exited.
   */
  predicate Allowed(w: World, after: Sessions) {
    var id := w.record.id;
    if w.exited then true
    else if id in after then id in w.sessions && after[id] == w.sessions[id]
    else id !in w.sessions || w.deleting
  }

  function Step(w: World, input: Input): (World, Reply) {
    match input
    case Receive(c) =>
      if c in w.channels && w.channels[c].queue != [] then
        (w.(channels := w.channels[c := w.channels[c].(queue := w.channels[c].queue[1..],
                                                       next := w.channels[c].next + 1)]), Success)
      else (w, Success)
    case CloseReceiver(c) =>
      if c in w.channels then (w.(channels := w.channels[c := w.channels[c].(receiverOpen := false)]), Success)
      else (w, Success)
    case Elsewhere(sessions) => if Allowed(w, sessions) then (w.(sessions := sessions), Success) else (w, Success)
    case _ => if w.exited then (w, Refused(ActorUnavailable)) else Handle(w, input)
  }

  function Handle(w: World, input: Input): (World, Reply) {
    match input
    case Attach(connection, attachment, channel, jobs) => AttachObserver(w, connection, attachment, channel, jobs)
    case Detach(connection, attachment) =>
      var after := DetachObservers(w, connection, Some(attachment));
      (after, Detached(ClientCount(|after.observers|)))
    case DetachConnection(connection) => (DetachObservers(w, connection, None), Success)
    case Submit(prompt, refuse) => Submitted(w, prompt, refuse)
    case Cancel(refuse) => CancelRun(w, refuse)
    case RenameTo(title, refuse) => Renamed(w, title, refuse)
    case ApplyGeneratedTitle(expectedRevision, generated, refuse) =>
      TitleGenerated(w, expectedRevision, generated, refuse)
    case PrepareDelete(jobsStop, refuse) => DeletePrepared(w, jobsStop, refuse)
    case FinishDelete => DeleteFinished(w)
    case AbortDelete => DeleteAborted(w)
    case SelectModel(model, now, refuse) => ModelSelected(w, model, now, refuse)
    case SelectReasoning(level, now, refuse) => ReasoningSelected(w, level, now, refuse)
    case Flush(refuse) => if w.deleting then (w, Refused(Deleting)) else Flushed(w, refuse)
    case Shutdown(jobsStop, refuse) => ShutDown(w, jobsStop, refuse)
    case Engine(outcome, now, refuse) => (EngineStep(w, outcome, now, refuse), Success)
    case JobsChange(jobs) =>
      if w.deleting || jobs.None? then (w, Success) else (Emit(w, JobsChanged(jobs.value)), Success)
    case PlanUpdate(plan, refuse) => PlanReplaced(w, plan, refuse)
    case HandlesDropped => if w.harness.active.Some? then (w, Success) else (Exit(w), Success)
    case _ => (w, Success)
  }

  function Run(w: World, inputs: seq<Input>): World {
    if inputs == [] then w else Step(Run(w, inputs[..|inputs| - 1]), inputs[|inputs| - 1]).0
  }

  // ---------- how a session's actor starts ----------

  /** The actor of a session just opened from the store. */
  function Opened(record: Record, catalog: Catalog, sessions: Sessions): World {
    World(record, FromRecord(record, catalog), Restored(record.history), None, [], map[],
          false, false, false, false, sessions, [])
  }

  /** The actor of a session just created: its first prompt and running turn are already durable. */
  function SpawnedMaterialized(record: Record, catalog: Catalog, prompt: string, sessions: Sessions): World {
    var p := FromRecord(record, catalog);
    World(record,
          p.(activeRun := Some(ActiveRun(0, prompt, "")), summary := p.summary.(busy := true)),
          HarnessState(record.history, Some(Active(0, prompt)), 1, false), None, [], map[],
          false, false, false, true, sessions, [])
  }
}
