/** The client's own reducer, and the controller that owns at most one attachment. */
module Workspaces {
  import opened Prelude
  import opened Titles
  import opened Records
  import opened Projections
  import opened SessionClients

  datatype WorkspaceError =
    | NotContiguous
    | StartedWhileActive
    | WrongRun
    | IdleRunEvent
    | NeedsFallback
    | IncoherentSnapshot
    | NoSession
    | ClientFailed(error: ClientError)
    | BackendFailed

  // ---------- the reducer ----------

  function CountRunning(jobs: seq<Job>): nat {
    if jobs == [] then 0
    else CountRunning(jobs[..|jobs| - 1]) + if jobs[|jobs| - 1].running then 1 else 0
  }

  function RunningJobs(jobs: seq<Job>): nat {
    if CountRunning(jobs) <= 0xFFFF_FFFF then CountRunning(jobs) else 0xFFFF_FFFF
  }

  function Refreshed(s: Snapshot): Snapshot {
    s.(summary := s.summary.(runningJobs := RunningJobs(s.jobs),
                             running := s.activeRun.Some? || RunningJobs(s.jobs) > 0))
  }

  function ValidateRun(s: Snapshot, runId: u64): Option<WorkspaceError> {
    match s.activeRun
    case Some(run) => if run.runId == runId then None else Some(WrongRun)
    case None => Some(IdleRunEvent)
  }

  function ValidateEventRun(s: Snapshot, event: Event): Option<WorkspaceError> {
    match event
    case Started(_, _) => if s.activeRun.Some? then Some(StartedWhileActive) else None
    case AssistantDelta(runId, _) => ValidateRun(s, runId)
    case ContextUsage(runId, _, _) => ValidateRun(s, runId)
    case ToolStarted(runId, _, _, _) => ValidateRun(s, runId)
    case ToolFinished(runId, _, _) => ValidateRun(s, runId)
    case Completed(runId, _, _) => ValidateRun(s, runId)
    case Failed(runId, _) => ValidateRun(s, runId)
    case Cancelled(runId) => ValidateRun(s, runId)
    case Deleted(_) => Some(NeedsFallback)
    case _ => None
  }

  /** What a valid event does to the presented session, before its sequence is taken over. */
  function Present(s: Snapshot, event: Event): Snapshot {
    match event
    case TitleChanged(title, revision) => s.(summary := s.summary.(title := title, titleRevision := revision))
    case Started(runId, prompt) =>
      Refreshed(s.(transcript := s.transcript + [User(prompt)], activeRun := Some(ActiveRun(runId, prompt, "")),
                   busy := true, summary := s.summary.(busy := true)))
    case AssistantDelta(_, text) =>
      if s.activeRun.None? then s
      else s.(activeRun := Some(s.activeRun.value.(assistantText := s.activeRun.value.assistantText + text)))
    case ContextUsage(_, inputTokens, lastActivity) =>
      s.(settings := s.settings.(contextTokens := inputTokens), summary := s.summary.(lastActivity := lastActivity))
    case ToolStarted(runId, callId, name, arguments) =>
      s.(transcript := s.transcript + [Item.ToolStarted(runId, callId, name, arguments)])
    case ToolFinished(_, _, _) => s
    case Completed(_, response, lastActivity) =>
      Idle(s.(summary := s.summary.(lastActivity := lastActivity)), Assistant(response))
    case Failed(runId, failure) => Idle(s, Item.Failed(runId, failure))
    case Cancelled(runId) => Idle(s, Item.Cancelled(runId))
    case SettingsChanged(settings, lastActivity) =>
      s.(settings := settings, summary := s.summary.(lastActivity := lastActivity))
    case PlanChanged(plan) => s.(plan := plan)
    case JobsChanged(jobs) => Refreshed(s.(jobs := jobs))
    case CatalogChanged(catalog) => s.(catalog := catalog)
    case PersistenceWarning(warning) => s.(warning := warning)
    case Deleted(_) => s
  }

  function Idle(s: Snapshot, item: Item): Snapshot {
    Refreshed(s.(transcript := s.transcript + [item], activeRun := None, busy := false,
                 summary := s.summary.(busy := false)))
  }

  function ApplyEvent(s: Snapshot, envelope: Envelope): Result<Snapshot, WorkspaceError> {
    if s.sequence == U64_MAX || s.sequence + 1 != envelope.sequence then Err(NotContiguous)
    else if ValidateEventRun(s, envelope.event).Some? then Err(ValidateEventRun(s, envelope.event).value)
    else Ok(Present(s, envelope.event).(sequence := envelope.sequence))
  }

  /** A snapshot whose three ways of saying "busy" agree. */
  predicate Coherent(s: Snapshot) {
    s.busy == s.summary.busy && s.busy == s.activeRun.Some?
  }

  method RefreshRunningSummary(s: Snapshot) returns (r: Snapshot)
    ensures r == Refreshed(s)
  {
    var running := 0;
    for i := 0 to |s.jobs|
      invariant running == CountRunning(s.jobs[..i])
    {
      assert s.jobs[..i + 1][..i] == s.jobs[..i];
      if s.jobs[i].running {
        running := running + 1;
      }
    }
    assert s.jobs[..|s.jobs|] == s.jobs;
    var count := if running <= 0xFFFF_FFFF then running else 0xFFFF_FFFF;
    r := s.(summary := s.summary.(runningJobs := count));
    r := r.(summary := r.summary.(running := r.activeRun.Some? || count > 0));
  }

  /** Applies one event to a copy of the presented session, so that a rejected event leaves it unchanged. */
  method ApplySessionEvent(current: Snapshot, envelope: Envelope) returns (result: Result<Snapshot, WorkspaceError>)
    ensures result == ApplyEvent(current, envelope)
  {
    hide Refreshed;
    if current.sequence == U64_MAX || current.sequence + 1 != envelope.sequence {
      return Err(NotContiguous);
    }
    var error := ValidateEventRun(current, envelope.event);
    if error.Some? {
      return Err(error.value);
    }
    var next := current;
    match envelope.event {
      case TitleChanged(title, revision) =>
        next := next.(summary := next.summary.(title := title));
        next := next.(summary := next.summary.(titleRevision := revision));
      case Started(runId, prompt) =>
        next := next.(transcript := next.transcript + [User(prompt)]);
        next := next.(activeRun := Some(ActiveRun(runId, prompt, "")));
        next := next.(busy := true);
        next := next.(summary := next.summary.(busy := true));
        next := RefreshRunningSummary(next);
      case AssistantDelta(_, text) =>
        var run := next.activeRun.value;
        next := next.(activeRun := Some(run.(assistantText := run.assistantText + text)));
      case ContextUsage(_, inputTokens, lastActivity) =>
        next := next.(settings := next.settings.(contextTokens := inputTokens));
        next := next.(summary := next.summary.(lastActivity := lastActivity));
      case ToolStarted(runId, callId, name, arguments) =>
        next := next.(transcript := next.transcript + [Item.ToolStarted(runId, callId, name, arguments)]);
      case ToolFinished(_, _, _) =>
      case Completed(_, response, lastActivity) =>
        next := next.(summary := next.summary.(lastActivity := lastActivity));
        next := FinishRun(next, Assistant(response));
      case Failed(runId, failure) => next := FinishRun(next, Item.Failed(runId, failure));
      case Cancelled(runId) => next := FinishRun(next, Item.Cancelled(runId));
      case SettingsChanged(settings, lastActivity) =>
        next := next.(settings := settings);
        next := next.(summary := next.summary.(lastActivity := lastActivity));
      case JobsChanged(jobs) => next := RefreshRunningSummary(next.(jobs := jobs));
      case PlanChanged(plan) => next := next.(plan := plan);
      case CatalogChanged(catalog) => next := next.(catalog := catalog);
      case PersistenceWarning(warning) => next := next.(warning := warning);
    }
    return Ok(next.(sequence := envelope.sequence));
  }

  method FinishRun(s: Snapshot, item: Item) returns (r: Snapshot)
    ensures r == Idle(s, item)
  {
    r := s.(transcript := s.transcript + [item]);
    r := r.(activeRun := None);
    r := r.(busy := false);
    r := r.(summary := r.summary.(busy := false));
    r := RefreshRunningSummary(r);
  }

  // ---------- agreement with the server's reducer ----------

  /** The state that server and client both keep; jobs and client counts are the client's own business. */
  datatype Core = Core(
    id: SessionId, cwd: seq<byte>, title: SessionTitle, titleRevision: u64, transcript: seq<Item>,
    activeRun: Option<ActiveRun>, settings: Settings, catalog: Catalog, plan: seq<PlanItem>,
    warning: Option<string>, busy: bool, lastActivity: int)

  function ServerCore(p: Projection): Core {
    Core(p.summary.id, p.summary.cwd, p.summary.title, p.summary.titleRevision, p.transcript, p.activeRun,
         p.settings, p.catalog, p.plan, p.warning, p.summary.busy, p.summary.lastActivity)
  }

  function ClientCore(s: Snapshot): Core {
    Core(s.summary.id, s.summary.cwd, s.summary.title, s.summary.titleRevision, s.transcript, s.activeRun,
         s.settings, s.catalog, s.plan, s.warning, s.summary.busy, s.summary.lastActivity)
  }

  /** The two reducers, written separately, accept the same events and agree on the shared state. */
  lemma ReducersAgree(s: Snapshot, p: Projection, envelope: Envelope)
    requires ClientCore(s) == ServerCore(p) && s.sequence < U64_MAX && envelope.sequence == s.sequence + 1
    requires !envelope.event.Deleted?
    ensures ApplyEvent(s, envelope).Ok? <==> ValidateEvent(p, envelope.event) == None
    ensures ApplyEvent(s, envelope).Ok? ==>
      && ClientCore(ApplyEvent(s, envelope).value) == ServerCore(Reduce(p, envelope.event))
      && ApplyEvent(s, envelope).value.sequence == envelope.sequence
      && (Coherent(s) ==> Coherent(ApplyEvent(s, envelope).value))
  {
    hide RunningJobs, Present, Reduce, Coherent, ClientCore, ServerCore;
    SameRefusals(s, p, envelope.event);
    if ApplyEvent(s, envelope).Ok? {
      SamePresentation(s, p, envelope.event);
      CoherencePresented(s, envelope.event);
      SequenceIsNotShared(Present(s, envelope.event), envelope.sequence);
    }
  }

  lemma SameRefusals(s: Snapshot, p: Projection, event: Event)
    requires ClientCore(s) == ServerCore(p) && !event.Deleted?
    ensures ValidateEventRun(s, event).None? <==> ValidateEvent(p, event) == None
  {
  }

  lemma SamePresentation(s: Snapshot, p: Projection, event: Event)
    requires ClientCore(s) == ServerCore(p) && !event.Deleted? && ValidateEvent(p, event) == None
    ensures ClientCore(Present(s, event)) == ServerCore(Reduce(p, event))
  {
    hide RunningJobs;
  }

  lemma CoherencePresented(s: Snapshot, event: Event)
    requires ValidateEventRun(s, event).None?
    ensures Coherent(s) ==> Coherent(Present(s, event))
  {
    hide RunningJobs;
  }

  lemma SequenceIsNotShared(s: Snapshot, sequence: u64)
    ensures ClientCore(s.(sequence := sequence)) == ClientCore(s)
    ensures Coherent(s.(sequence := sequence)) == Coherent(s)
  {
  }

  /** A fresh snapshot shows exactly the projection it was taken from. */
  lemma SnapshotShowsProjection(p: Projection, jobs: seq<Job>)
    ensures ClientCore(TakeSnapshot(p, jobs)) == ServerCore(p) && TakeSnapshot(p, jobs).sequence == p.sequence
    ensures p.summary.busy == p.activeRun.Some? ==> Coherent(TakeSnapshot(p, jobs))
  {
  }

  /** The list's summary counts the running jobs, and says whether anything runs. */
  ghost predicate Summarised(s: Snapshot) {
    && s.summary.runningJobs == (var n := |set i | 0 <= i < |s.jobs| && s.jobs[i].running|; if n < 0x1_0000_0000 then n else 0xFFFF_FFFF)
    && (s.summary.running <==> s.activeRun.Some? || exists job :: job in s.jobs && job.running)
  }

  lemma {:induction false} CountIsSize(jobs: seq<Job>)
    ensures CountRunning(jobs) == |set i | 0 <= i < |jobs| && jobs[i].running|
    ensures CountRunning(jobs) > 0 <==> exists job :: job in jobs && job.running
  {
    if jobs != [] {
      var n := |jobs| - 1;
      CountIsSize(jobs[..n]);
      var before := set i | 0 <= i < n && jobs[..n][i].running;
      assert (set i | 0 <= i < |jobs| && jobs[i].running) == before + if jobs[n].running then {n} else {};
      assert jobs == jobs[..n] + [jobs[n]];
    }
  }

  /** Once a start, an end or a change of jobs has been shown, the summary stays right with every event. */
  lemma SummaryIsRight(s: Snapshot, envelope: Envelope)
    requires ApplyEvent(s, envelope).Ok?
    requires Summarised(s) || Refreshes(envelope.event)
    ensures var next := ApplyEvent(s, envelope).value;
            Summarised(next) && next.jobs == if envelope.event.JobsChanged? then envelope.event.jobs else s.jobs
  {
    SummaryIs(s);
    SummaryIs(ApplyEvent(s, envelope).value);
    hide RunningJobs, Summarised, Present, Refreshes;
    if Refreshes(envelope.event) {
      RefreshingEvent(s, envelope.event);
    } else {
      QuietEvent(s, envelope.event);
    }
  }

  predicate Refreshes(event: Event) {
    event.Started? || event.Completed? || event.Failed? || event.Cancelled? || event.JobsChanged?
  }

  lemma RefreshingEvent(s: Snapshot, event: Event)
    requires Refreshes(event)
    ensures var next := Present(s, event);
            && next.summary.runningJobs == RunningJobs(next.jobs)
            && (next.summary.running <==> next.activeRun.Some? || RunningJobs(next.jobs) > 0)
            && next.jobs == if event.JobsChanged? then event.jobs else s.jobs
  {
    hide RunningJobs;
  }

  lemma QuietEvent(s: Snapshot, event: Event)
    requires !Refreshes(event)
    ensures var next := Present(s, event);
            && next.jobs == s.jobs && (next.activeRun.Some? <==> s.activeRun.Some?)
            && next.summary.runningJobs == s.summary.runningJobs && next.summary.running == s.summary.running
  {
  }

  lemma SummaryIs(s: Snapshot)
    ensures Summarised(s) <==>
      && s.summary.runningJobs == RunningJobs(s.jobs)
      && (s.summary.running <==> s.activeRun.Some? || RunningJobs(s.jobs) > 0)
  {
    CountIsSize(s.jobs);
    hide CountRunning;
  }

  // ---------- the controller ----------

  datatype Draft = Draft(cwd: seq<byte>, settings: Settings, catalog: Catalog)

  datatype Chat = Drafting(draft: Draft) | Attached(snapshot: Snapshot)

  datatype WorkspaceUpdate =
    | SessionMoved(update: Update)
    | SessionDeleted(id: SessionId, cwd: seq<byte>)
    | Warned(warning: string)

  function ApplyUpdate(chat: Chat, update: Update): Result<Chat, WorkspaceError> {
    if chat.Drafting? then Err(NoSession)
    else match update
      case SnapshotReplaced(snapshot) => if Coherent(snapshot) then Ok(Attached(snapshot)) else Err(IncoherentSnapshot)
      case EventUpdate(envelope) =>
        (match ApplyEvent(chat.snapshot, envelope)
         case Ok(next) => Ok(Attached(next))
         case Err(e) => Err(e))
      case WarningUpdate(_) => Ok(chat)
      case DeletedUpdate(_, _) => Err(NeedsFallback)
  }

  /** A new draft keeps what is on screen, except that it has used no context yet. */
  function DraftFor(chat: Chat, cwd: seq<byte>): Draft {
    var settings := if chat.Drafting? then chat.draft.settings else chat.snapshot.settings;
    var catalog := if chat.Drafting? then chat.draft.catalog else chat.snapshot.catalog;
    Draft(cwd, settings.(contextTokens := 0), catalog)
  }

  /** A draft made of a session shows its directory, model, reasoning and catalog, and no context used. */
  lemma DraftShows(s: Snapshot, cwd: seq<byte>)
    ensures DraftFor(Attached(s), cwd) == Draft(cwd, Settings(s.settings.model, s.settings.reasoning, 0), s.catalog)
    ensures CwdOf(Attached(s)) == s.summary.cwd
    ensures DraftFor(Drafting(DraftFor(Attached(s), cwd)), cwd) == DraftFor(Attached(s), cwd)
  {
  }

  function CwdOf(chat: Chat): seq<byte> {
    if chat.Drafting? then chat.draft.cwd else chat.snapshot.summary.cwd
  }

  function Retain(pending: Option<string>, warning: Option<string>): Option<string> {
    if pending.None? then warning else pending
  }

  /** What asking the backend for a startup session answers after a deletion, if it answers before the call is dropped. */
  datatype Startup =
    | StartupWaiting
    | StartupDraft(draft: Draft)
    | StartupAttached(session: RpcSessionClient)
    | StartupFailed(message: string)

  class WorkspaceController {
    var session: RpcSessionClient?
    var projection: Chat
    var pendingWarning: Option<string>

    /** A session handle is held exactly while a session is presented. */
    predicate Valid()
      reads this
    {
      session != null <==> projection.Attached?
    }

    constructor FromSession(session: RpcSessionClient)
      ensures Valid() && this.session == session && projection == Attached(session.snapshot) && pendingWarning == None
    {
      this.session, projection, pendingWarning := session, Attached(session.snapshot), None;
    }

    constructor FromDraft(draft: Draft)
      ensures Valid() && session == null && projection == Drafting(draft) && pendingWarning == None
    {
      session, projection, pendingWarning := null, Drafting(draft), None;
    }

    method InstallSession(target: RpcSessionClient) returns (previous: RpcSessionClient?)
      modifies this
      ensures Valid() && session == target && projection == Attached(target.snapshot)
      ensures previous == old(session) && pendingWarning == old(pendingWarning)
    {
      projection := Attached(target.snapshot);
      previous := session;
      session := target;
    }

    /** The screen after a session is gone: a draft, or whatever session the backend says is running. */
    method StartupFallback(cwd: seq<byte>, startup: Startup) returns (done: bool)
      modifies this
      ensures Valid() && (done <==> !startup.StartupWaiting?)
      ensures match startup
        case StartupWaiting => session == null && projection == Drafting(DraftFor(old(projection), cwd))
                               && pendingWarning == old(pendingWarning)
        case StartupDraft(draft) => session == null && projection == Drafting(draft)
                                    && pendingWarning == old(pendingWarning)
        case StartupAttached(s) => session == s && projection == Attached(s.snapshot)
                                   && pendingWarning == old(pendingWarning)
        case StartupFailed(message) => session == null && projection == Drafting(DraftFor(old(projection), cwd))
                                       && pendingWarning == Retain(old(pendingWarning), Some(message))
    {
      var draft := DraftFor(projection, cwd);
      session := null;
      projection := Drafting(draft);
      done := !startup.StartupWaiting?;
      match startup
      case StartupWaiting =>
      case StartupDraft(ready) => projection := Drafting(ready);
      case StartupAttached(s) => var _ := InstallSession(s);
      case StartupFailed(message) => pendingWarning := Retain(pendingWarning, Some(message));
    }

    /**
      Shows the next update. Only an accepted update changes what is presented, and only a deletion
      ends the attachment. `None` is a call still waiting, or cancelled while waiting; one cancelled while
      it asks what to show after a deletion has already left for a draft, and reports the deletion to nobody.
     */
    method NextUpdate(closed: bool, lost: Option<nat>, recovery: Recovery, startup: Startup)
      returns (result: Option<Result<WorkspaceUpdate, WorkspaceError>>)
      requires Valid()
      modifies this, session
      ensures Valid()
      ensures old(pendingWarning).Some? ==>
        result == Some(Ok(Warned(old(pendingWarning.value)))) && pendingWarning == None
        && session == old(session) && projection == old(projection)
      ensures old(pendingWarning).None? && old(session) == null ==>
        result == None && session == null && projection == old(projection)
      ensures old(pendingWarning).None? && old(session) != null ==>
        var outcome := NextOf(old(session.State()), closed, lost, recovery).1;
        match outcome
        case Some(Ok(DeletedUpdate(id, cwd))) =>
          && result == (if startup.StartupWaiting? then None else Some(Ok(SessionDeleted(id, cwd))))
          && (startup.StartupWaiting? ==> session == null && projection == Drafting(DraftFor(old(projection), cwd)))
          && (startup.StartupDraft? ==> session == null && projection == Drafting(startup.draft))
          && (startup.StartupFailed? ==> session == null && projection == Drafting(DraftFor(old(projection), cwd)))
          && (startup.StartupAttached? ==>
                session == startup.session && projection == Attached(startup.session.snapshot))
        case Some(Ok(WarningUpdate(warning))) =>
          result == Some(Ok(Warned(warning))) && session == old(session) && projection == old(projection)
        case Some(Ok(update)) =>
          && session == old(session)
          && (match ApplyUpdate(old(projection), update)
              case Ok(next) => result == Some(Ok(SessionMoved(update))) && projection == next
              case Err(e) => result == Some(Err(e)) && projection == old(projection))
        case Some(Err(e)) => result == Some(Err(ClientFailed(e))) && session == old(session) && projection == old(projection)
        case None => result == None && session == old(session) && projection == old(projection)
    {
      hide NextOf, ApplyEvent;
      if pendingWarning.Some? {
        var warning := pendingWarning.value;
        pendingWarning := None;
        return Some(Ok(Warned(warning)));
      }
      if session == null {
        return None;
      }
      var outcome := session.NextUpdate(closed, lost, recovery);
      if outcome.None? {
        return None;
      }
      if outcome.value.Err? {
        return Some(Err(ClientFailed(outcome.value.error)));
      }
      match outcome.value.value
      case WarningUpdate(warning) => return Some(Ok(Warned(warning)));
      case DeletedUpdate(id, cwd) =>
        session := null;
        var done := StartupFallback(cwd, startup);
        return if done then Some(Ok(SessionDeleted(id, cwd))) else None;
      case update =>
        var applied := ApplyProjectionUpdate(update);
        return if applied.None? then Some(Ok(SessionMoved(update))) else Some(Err(applied.value));
    }

    method ApplyProjectionUpdate(update: Update) returns (error: Option<WorkspaceError>)
      modifies this`projection
      ensures match ApplyUpdate(old(projection), update)
              case Ok(next) => error == None && projection == next
              case Err(e) => error == Some(e) && projection == old(projection)
    {
      hide ApplyEvent;
      if projection.Drafting? {
        return Some(NoSession);
      }
      match update
      case SnapshotReplaced(snapshot) =>
        if !Coherent(snapshot) {
          return Some(IncoherentSnapshot);
        }
        projection := Attached(snapshot);
        return None;
      case EventUpdate(envelope) =>
        var next := ApplySessionEvent(projection.snapshot, envelope);
        if next.Err? {
          return Some(next.error);
        }
        projection := Attached(next.value);
        return None;
      case WarningUpdate(_) => return None;
      case DeletedUpdate(_, _) => return Some(NeedsFallback);
    }

    /** Leaves the session, if any, for a draft; a failed detach is only remembered. */
    method NewDraft(detachError: Option<string>)
      requires Valid()
      modifies this
      ensures Valid() && session == null && projection == Drafting(DraftFor(old(projection), CwdOf(old(projection))))
      ensures pendingWarning == if old(session) == null then old(pendingWarning)
                                else Retain(old(pendingWarning), detachError)
    {
      var draft := DraftFor(projection, CwdOf(projection));
      var left := session;
      session, projection := null, Drafting(draft);
      if left != null {
        pendingWarning := Retain(pendingWarning, detachError);
      }
    }

    /** Attaches to another session first, and leaves the old one only once that has succeeded. */
    method SwitchSession(id: SessionId, target: RpcSessionClient?, detachError: Option<string>)
      returns (error: Option<WorkspaceError>)
      requires Valid()
      modifies this
      ensures Valid()
      ensures error == None <==> target != null && target.snapshot.summary.id == id
      ensures error.Some? ==>
        session == old(session) && projection == old(projection) && pendingWarning == old(pendingWarning)
      ensures error == None ==> session == target && projection == Attached(target.snapshot)
    {
      if target == null {
        return Some(BackendFailed);
      }
      if target.snapshot.summary.id != id {
        return Some(BackendFailed);
      }
      var left := InstallSession(target);
      if left != null {
        pendingWarning := Retain(pendingWarning, detachError);
      }
      return None;
    }

    /**
      Deletes a session. If it was the presented one, the screen falls back on success, and on failure
      reattaches to the same session if the backend still has it.
     */
    method DeleteSession(id: SessionId, deleted: bool, reopened: RpcSessionClient?, detachError: Option<string>,
                         reopenError: string, startup: Startup)
      returns (result: Option<Result<(), WorkspaceError>>)
      requires Valid()
      modifies this
      ensures Valid()
      ensures !deleted <==> result == Some(Err(BackendFailed))
      ensures result == None <==>
        deleted && startup.StartupWaiting? && old(projection).Attached? && old(projection).snapshot.summary.id == id
      ensures !(old(projection).Attached? && old(projection).snapshot.summary.id == id) ==>
        session == old(session) && projection == old(projection) && pendingWarning == old(pendingWarning)
      ensures old(projection).Attached? && old(projection).snapshot.summary.id == id && !deleted ==>
        if reopened != null && reopened.snapshot.summary.id == id then
          session == reopened && projection == Attached(reopened.snapshot)
        else session == old(session) && projection == old(projection) && pendingWarning.Some?
      ensures old(projection).Attached? && old(projection).snapshot.summary.id == id && deleted ==>
        projection == (match startup
                       case StartupDraft(draft) => Drafting(draft)
                       case StartupAttached(s) => Attached(s.snapshot)
                       case StartupFailed(_) | StartupWaiting =>
                         Drafting(DraftFor(old(projection), old(projection).snapshot.summary.cwd)))
        && (startup.StartupAttached? ==> session == startup.session)
        && pendingWarning == (if startup.StartupFailed? then Retain(old(pendingWarning), Some(startup.message))
                              else old(pendingWarning))
    {
      var current := projection.Attached? && projection.snapshot.summary.id == id;
      var cwd := CwdOf(projection);
      if !deleted {
        if current {
          if reopened != null && reopened.snapshot.summary.id == id {
            var left := InstallSession(reopened);
            if left != null {
              pendingWarning := Retain(pendingWarning, detachError);
            }
          } else {
            pendingWarning := Retain(pendingWarning, Some(reopenError));
          }
        }
        return Some(Err(BackendFailed));
      }
      if current {
        var done := StartupFallback(cwd, startup);
        if !done {
          return None;
        }
      }
      return Some(Ok(()));
    }
  }
}
