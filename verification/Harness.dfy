/** The lifecycle of at most one model run, and the history of successful exchanges. */
module Harnesses {
  import opened Prelude
  import opened Titles
  import opened Records

  /** What the engine stream yields when it is polled; `Ended` is the end of the stream. */
  datatype EngineOutcome =
    | Delta(text: string)
    | Usage(inputTokens: u64)
    | ToolBegan(callId: string, name: string, arguments: Json)
    | ToolEnded(callId: string, name: string)
    | Reply(response: string)
    | EngineFailure(failure: Failure)
    | Ended

  datatype RunEvent =
    | RunDelta(runId: u64, text: string)
    | RunUsage(runId: u64, inputTokens: u64)
    | RunToolStarted(runId: u64, callId: string, name: string, arguments: Json)
    | RunToolFinished(runId: u64, callId: string, name: string)
    | RunCompleted(runId: u64, response: string)
    | RunFailed(runId: u64, failure: Failure)
    | RunCancelled(runId: u64)

  datatype HarnessError = Busy | NotRunning | RunIdExhausted

  datatype Active = Active(id: u64, prompt: string)

  datatype HarnessState = HarnessState(
    history: seq<Message>, active: Option<Active>, nextRunId: u64, idsExhausted: bool)

  const EMPTY_RESPONSE: Failure :=
    Failure(Finalization, EmptyResponse, false, "engine completed with an empty response")
  const STREAM_ENDED: Failure :=
    Failure(Finalization, Protocol, false, "engine stream ended before completion")

  function Restored(history: seq<Message>): HarnessState {
    HarnessState(history, None, 0, false)
  }

  function SubmitRun(h: HarnessState, prompt: string): Result<HarnessState, HarnessError> {
    if h.active.Some? then Err(Busy)
    else if h.idsExhausted then Err(RunIdExhausted)
    else if h.nextRunId == U64_MAX then
      Ok(h.(active := Some(Active(h.nextRunId, prompt)), idsExhausted := true))
    else Ok(h.(active := Some(Active(h.nextRunId, prompt)), nextRunId := h.nextRunId + 1))
  }

  function EventOf(runId: u64, outcome: EngineOutcome): RunEvent {
    match outcome
    case Delta(text) => RunDelta(runId, text)
    case Usage(inputTokens) => RunUsage(runId, inputTokens)
    case ToolBegan(callId, name, arguments) => RunToolStarted(runId, callId, name, arguments)
    case ToolEnded(callId, name) => RunToolFinished(runId, callId, name)
    case Reply(response) => if Blank(response) then RunFailed(runId, EMPTY_RESPONSE) else RunCompleted(runId, response)
    case EngineFailure(failure) => RunFailed(runId, failure)
    case Ended => RunFailed(runId, STREAM_ENDED)
  }

  function AfterEvent(h: HarnessState, event: RunEvent): HarnessState {
    match event
    case RunCompleted(_, response) =>
      if h.active.None? then h
      else h.(active := None, history := h.history +
              [Message(UserRole, h.active.value.prompt), Message(AssistantRole, response)])
    case RunFailed(_, _) => h.(active := None)
    case RunCancelled(_) => h.(active := None)
    case _ => h
  }

  class Harness {
    var history: seq<Message>
    var active: Option<Active>
    var nextRunId: u64
    var idsExhausted: bool

    function State(): HarnessState
      reads this
    {
      HarnessState(history, active, nextRunId, idsExhausted)
    }

    constructor WithHistory(history: seq<Message>)
      ensures State() == Restored(history)
    {
      this.history, active, nextRunId, idsExhausted := history, None, 0, false;
    }

    method Submit(prompt: string) returns (result: Result<u64, HarnessError>)
      modifies this
      ensures match SubmitRun(old(State()), prompt)
              case Ok(h) => result == Ok(old(nextRunId)) && State() == h
              case Err(e) => result == Err(e) && State() == old(State())
    {
      if active.Some? {
        return Err(Busy);
      }
      if idsExhausted {
        return Err(RunIdExhausted);
      }
      var id := nextRunId;
      if nextRunId < U64_MAX {
        nextRunId := nextRunId + 1;
      } else {
        idsExhausted := true;
      }
      active := Some(Active(id, prompt));
      return Ok(id);
    }

    /** The next event of the active run; `None` only when no run is active. */
    method NextEvent(outcome: EngineOutcome) returns (event: Option<RunEvent>)
      modifies this
      ensures event == if old(active).None? then None else Some(EventOf(old(active).value.id, outcome))
      ensures State() == if event.None? then old(State()) else AfterEvent(old(State()), event.value)
    {
      if active.None? {
        return None;
      }
      var id := active.value.id;
      match outcome
      case Delta(text) => event := Some(RunDelta(id, text));
      case Usage(inputTokens) => event := Some(RunUsage(id, inputTokens));
      case ToolBegan(callId, name, arguments) => event := Some(RunToolStarted(id, callId, name, arguments));
      case ToolEnded(callId, name) => event := Some(RunToolFinished(id, callId, name));
      case Reply(response) =>
        if Blank(response) {
          active := None;
          event := Some(RunFailed(id, EMPTY_RESPONSE));
        } else {
          history := history + [Message(UserRole, active.value.prompt)];
          history := history + [Message(AssistantRole, response)];
          active := None;
          assert history == old(history) +
            [Message(UserRole, old(active).value.prompt), Message(AssistantRole, response)];
          event := Some(RunCompleted(id, response));
        }
      case EngineFailure(failure) =>
        active := None;
        event := Some(RunFailed(id, failure));
      case Ended =>
        active := None;
        event := Some(RunFailed(id, STREAM_ENDED));
    }

    method Cancel() returns (result: Result<u64, HarnessError>)
      modifies this
      ensures result == if old(active).Some? then Ok(old(active).value.id) else Err(NotRunning)
      ensures State() == old(State()).(active := None)
    {
      if active.None? {
        return Err(NotRunning);
      }
      result := Ok(active.value.id);
      active := None;
    }
  }
}
