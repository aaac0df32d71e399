/** The server's live projection: the state that attachment snapshots are made of. */
module Projections {
  import opened Prelude
  import opened Titles
  import opened Records

  /** List-facing session state; the live projection leaves jobs and attachments to its caller. */
  datatype Summary = Summary(
    id: SessionId, title: SessionTitle, titleRevision: u64, cwd: seq<byte>, runningJobs: nat, running: bool,
    busy: bool, attachedClients: nat, lastActivity: int)

  datatype Projection = Projection(
    summary: Summary, transcript: seq<Item>, activeRun: Option<ActiveRun>, settings: Settings, catalog: Catalog,
    plan: seq<PlanItem>, warning: Option<string>, sequence: u64)

  datatype Snapshot = Snapshot(
    summary: Summary, transcript: seq<Item>, activeRun: Option<ActiveRun>, settings: Settings, catalog: Catalog,
    plan: seq<PlanItem>, jobs: seq<Job>, warning: Option<string>, sequence: u64, busy: bool)

  datatype ProjectionError = SequenceExhausted | NoActiveRun | RunIdMismatch | RunAlreadyActive

  function FromRecord(r: Record, catalog: Catalog): Projection {
    Projection(
      Summary(r.id, r.title, r.titleRevision, r.cwd, 0, false, false, 0, r.lastActivity),
      r.transcript, None, r.settings, catalog, r.plan, None, 0)
  }

  function TakeSnapshot(p: Projection, jobs: seq<Job>): Snapshot {
    Snapshot(p.summary, p.transcript, p.activeRun, p.settings, p.catalog, p.plan, jobs, p.warning, p.sequence,
             p.activeRun.Some?)
  }

  function ValidateRunId(p: Projection, received: u64): Option<ProjectionError> {
    match p.activeRun
    case Some(run) => if run.runId == received then None else Some(RunIdMismatch)
    case None => Some(NoActiveRun)
  }

  function ValidateEvent(p: Projection, event: Event): Option<ProjectionError> {
    match event
    case Started(_, _) => if p.activeRun.Some? then Some(RunAlreadyActive) else None
    case AssistantDelta(runId, _) => ValidateRunId(p, runId)
    case ContextUsage(runId, _, _) => ValidateRunId(p, runId)
    case ToolStarted(runId, _, _, _) => ValidateRunId(p, runId)
    case ToolFinished(runId, _, _) => ValidateRunId(p, runId)
    case Completed(runId, _, _) => ValidateRunId(p, runId)
    case Failed(runId, _) => ValidateRunId(p, runId)
    case Cancelled(runId) => ValidateRunId(p, runId)
    case _ => None
  }

  /** The state after one validated event. */
  function Reduce(p: Projection, event: Event): Projection {
    match event
    case TitleChanged(title, revision) =>
      p.(summary := p.summary.(title := title, titleRevision := revision))
    case Started(runId, prompt) =>
      p.(transcript := p.transcript + [User(prompt)], activeRun := Some(ActiveRun(runId, prompt, "")),
         summary := p.summary.(busy := true))
    case AssistantDelta(_, text) =>
      if p.activeRun.None? then p
      else p.(activeRun := Some(p.activeRun.value.(assistantText := p.activeRun.value.assistantText + text)))
    case ContextUsage(_, inputTokens, lastActivity) =>
      p.(settings := p.settings.(contextTokens := inputTokens),
         summary := p.summary.(lastActivity := lastActivity))
    case ToolStarted(runId, callId, name, arguments) =>
      p.(transcript := p.transcript + [Item.ToolStarted(runId, callId, name, arguments)])
    case ToolFinished(_, _, _) => p
    case Completed(_, response, lastActivity) =>
      p.(transcript := p.transcript + [Assistant(response)], activeRun := None,
         summary := p.summary.(busy := false, lastActivity := lastActivity))
    case Failed(runId, failure) =>
      p.(transcript := p.transcript + [Item.Failed(runId, failure)], activeRun := None,
         summary := p.summary.(busy := false))
    case Cancelled(runId) =>
      p.(transcript := p.transcript + [Item.Cancelled(runId)], activeRun := None,
         summary := p.summary.(busy := false))
    case SettingsChanged(settings, lastActivity) =>
      p.(settings := settings, summary := p.summary.(lastActivity := lastActivity))
    case PlanChanged(plan) => p.(plan := plan)
    case JobsChanged(_) => p
    case CatalogChanged(catalog) => p.(catalog := catalog)
    case PersistenceWarning(warning) => p.(warning := warning)
    case Deleted(_) => p
  }

  class SessionProjection {
    var summary: Summary
    var transcript: seq<Item>
    var activeRun: Option<ActiveRun>
    var settings: Settings
    var catalog: Catalog
    var plan: seq<PlanItem>
    var persistenceWarning: Option<string>
    var sequence: u64

    function View(): Projection
      reads this
    {
      Projection(summary, transcript, activeRun, settings, catalog, plan, persistenceWarning, sequence)
    }

    constructor (r: Record, catalog: Catalog)
      ensures View() == FromRecord(r, catalog)
    {
      summary := Summary(r.id, r.title, r.titleRevision, r.cwd, 0, false, false, 0, r.lastActivity);
      transcript, activeRun, settings, this.catalog := r.transcript, None, r.settings, catalog;
      plan, persistenceWarning, sequence := r.plan, None, 0;
    }

    /** Validates and applies one event, giving it the next sequence; on error nothing changes. */
    method Apply(event: Event) returns (result: Result<Envelope, ProjectionError>)
      modifies this
      ensures result ==
        if old(sequence) == U64_MAX then Err(SequenceExhausted)
        else match ValidateEvent(old(View()), event)
             case Some(e) => Err(e)
             case None => Ok(Envelope(old(sequence) + 1, event))
      ensures View() == if result.Ok? then Reduce(old(View()).(sequence := old(sequence) + 1), event)
                        else old(View())
    {
      if sequence == U64_MAX {
        return Err(SequenceExhausted);
      }
      var error := ValidateEvent(View(), event);
      if error.Some? {
        return Err(error.value);
      }
      sequence := sequence + 1;
      ReduceEvent(event);
      return Ok(Envelope(sequence, event));
    }

    method ApplyUnsequenced(event: Event) returns (error: Option<ProjectionError>)
      modifies this
      ensures error == ValidateEvent(old(View()), event)
      ensures View() == if error.None? then Reduce(old(View()), event) else old(View())
    {
      error := ValidateEvent(View(), event);
      if error.None? {
        ReduceEvent(event);
      }
    }

    /** Marks the first run active when its prompt is already part of the durable transcript. */
    method InstallPersistedStarted(runId: u64, prompt: string) returns (error: Option<ProjectionError>)
      modifies this
      ensures error == ValidateEvent(old(View()), Started(runId, prompt))
      ensures View() == if error.Some? then old(View())
        else old(View()).(activeRun := Some(ActiveRun(runId, prompt, "")),
                          summary := old(summary).(busy := true))
    {
      error := ValidateEvent(View(), Started(runId, prompt));
      if error.None? {
        activeRun := Some(ActiveRun(runId, prompt, ""));
        summary := summary.(busy := true);
      }
    }

    method ReduceEvent(event: Event)
      requires ValidateEvent(View(), event) == None
      modifies this
      ensures View() == Reduce(old(View()), event)
    {
      match event
      case TitleChanged(title, revision) =>
        summary := summary.(title := title);
        summary := summary.(titleRevision := revision);
      case Started(runId, prompt) =>
        transcript := transcript + [User(prompt)];
        activeRun := Some(ActiveRun(runId, prompt, ""));
        summary := summary.(busy := true);
      case AssistantDelta(_, text) =>
        activeRun := Some(activeRun.value.(assistantText := activeRun.value.assistantText + text));
      case ContextUsage(_, inputTokens, lastActivity) =>
        settings := settings.(contextTokens := inputTokens);
        summary := summary.(lastActivity := lastActivity);
      case ToolStarted(runId, callId, name, arguments) =>
        transcript := transcript + [Item.ToolStarted(runId, callId, name, arguments)];
      case ToolFinished(_, _, _) =>
      case Completed(_, response, lastActivity) =>
        transcript := transcript + [Assistant(response)];
        activeRun := None;
        summary := summary.(busy := false);
        summary := summary.(lastActivity := lastActivity);
      case Failed(runId, failure) =>
        transcript := transcript + [Item.Failed(runId, failure)];
        activeRun := None;
        summary := summary.(busy := false);
      case Cancelled(runId) =>
        transcript := transcript + [Item.Cancelled(runId)];
        activeRun := None;
        summary := summary.(busy := false);
      case SettingsChanged(newSettings, lastActivity) =>
        settings := newSettings;
        summary := summary.(lastActivity := lastActivity);
      case PlanChanged(newPlan) => plan := newPlan;
      case JobsChanged(_) =>
      case CatalogChanged(newCatalog) => catalog := newCatalog;
      case PersistenceWarning(warning) => persistenceWarning := warning;
      case Deleted(_) =>
    }
  }
}
