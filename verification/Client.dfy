/** One attached client: the update loop that turns a lossy event stream into contiguous updates. */
module SessionClients {
  import opened Prelude
  import opened Titles
  import opened Records
  import opened Projections

  /** What the observer callback put into the client's channel: an event, or one that did not parse. */
  datatype Delivery = Delivery(attachment: u64, event: Option<Envelope>)

  datatype Reason = SequenceGap | ObserverClosed | SequenceOverflow

  /** How far the reattach request has come when the client looks. */
  datatype Recovery =
    | Waiting
    | Reattached(snapshot: Snapshot, attachment: u64, warning: Option<string>)
    | SessionGone
    | ReattachFailed

  datatype Update =
    | EventUpdate(envelope: Envelope)
    | SnapshotReplaced(snapshot: Snapshot)
    | WarningUpdate(warning: string)
    | DeletedUpdate(id: SessionId, cwd: seq<byte>)

  datatype ClientError = SequencesExhausted | ConnectionClosed | Unreadable | RecoveryError

  datatype Client = Client(
    attachment: u64, snapshot: Snapshot, expected: u64, recovery: Option<Reason>, warning: Option<string>,
    exhausted: bool, inbox: seq<Delivery>)

  /**
    What the outside world does during one call: messages that arrive, whether the observer's sender is
    gone once they are read, after how many of them the connection closes, and the reattach request.
   */
  datatype Call = Call(arrivals: seq<Delivery>, closed: bool, lost: Option<nat>, recovery: Recovery)

  /** `None` is a call still waiting, or cancelled while waiting. */
  type Outcome = Option<Result<Update, ClientError>>

  function NewClient(snapshot: Snapshot, attachment: u64): Client {
    Client(attachment, snapshot, snapshot.sequence, None, None, false, [])
  }

  function Resume(c: Client, reason: Reason, recovery: Recovery): (Client, Outcome) {
    match recovery
    case Waiting => (c.(recovery := Some(reason)), None)
    case SessionGone => (c.(recovery := None), Some(Ok(DeletedUpdate(c.snapshot.summary.id, c.snapshot.summary.cwd))))
    case ReattachFailed => (c.(recovery := None), Some(Err(RecoveryError)))
    case Reattached(snapshot, attachment, warning) =>
      (Client(attachment, snapshot, snapshot.sequence, None, warning,
              reason == SequenceOverflow && snapshot.sequence == U64_MAX, []),
       Some(Ok(SnapshotReplaced(snapshot))))
  }

  function NextOf(c: Client, closed: bool, lost: Option<nat>, recovery: Recovery): (Client, Outcome)
    decreases |c.inbox|
  {
    if c.warning.Some? then (c.(warning := None), Some(Ok(WarningUpdate(c.warning.value))))
    else if c.recovery.Some? then Resume(c, c.recovery.value, recovery)
    else if c.expected == U64_MAX then
      (if c.exhausted then (c, Some(Err(SequencesExhausted))) else Resume(c, SequenceOverflow, recovery))
    else if lost == Some(0) then (c, Some(Err(ConnectionClosed)))
    else if c.inbox == [] then (if closed then Resume(c, ObserverClosed, recovery) else (c, None))
    else
      var message := c.inbox[0];
      var rest := c.(inbox := c.inbox[1..]);
      var left := if lost.Some? then Some(lost.value - 1) else None;
      if message.attachment != c.attachment then NextOf(rest, closed, left, recovery)
      else if message.event.None? then (rest, Some(Err(Unreadable)))
      else
        var e := message.event.value;
        if e.event.Deleted? then (rest, Some(Ok(DeletedUpdate(e.event.sessionId, c.snapshot.summary.cwd))))
        else if e.sequence <= c.expected then NextOf(rest, closed, left, recovery)
        else if e.sequence == c.expected + 1 then (rest.(expected := e.sequence), Some(Ok(EventUpdate(e))))
        else Resume(rest, SequenceGap, recovery)
  }

  class RpcSessionClient {
    var attachment: u64
    var snapshot: Snapshot
    var expectedSequence: u64
    var pendingRecovery: Option<Reason>
    var pendingWarning: Option<string>
    var sequenceExhausted: bool
    var inbox: seq<Delivery>

    function State(): Client
      reads this
    {
      Client(attachment, snapshot, expectedSequence, pendingRecovery, pendingWarning, sequenceExhausted, inbox)
    }

    constructor (snapshot: Snapshot, attachment: u64)
      ensures State() == NewClient(snapshot, attachment)
    {
      this.snapshot, this.attachment, expectedSequence := snapshot, attachment, snapshot.sequence;
      pendingRecovery, pendingWarning, sequenceExhausted, inbox := None, None, false, [];
    }

    /** Waits for the next contiguous event, recovering gaps with a fresh attachment snapshot. */
    method NextUpdate(closed: bool, lost: Option<nat>, recovery: Recovery) returns (outcome: Outcome)
      modifies this
      ensures (State(), outcome) == NextOf(old(State()), closed, lost, recovery)
    {
      var left := lost;
      while true
        invariant NextOf(State(), closed, left, recovery) ==
                  NextOf(old(State()), closed, lost, recovery)
        decreases |inbox|
      {
        if pendingWarning.Some? {
          outcome := Some(Ok(WarningUpdate(pendingWarning.value)));
          pendingWarning := None;
          return;
        }
        if pendingRecovery.Some? {
          outcome := ResumeRecovery(recovery);
          return;
        }
        if expectedSequence == U64_MAX {
          if sequenceExhausted {
            return Some(Err(SequencesExhausted));
          }
          pendingRecovery := Some(SequenceOverflow);
          outcome := ResumeRecovery(recovery);
          return;
        }
        if left == Some(0) {
          return Some(Err(ConnectionClosed));
        }
        if inbox == [] {
          if !closed {
            return None;
          }
          pendingRecovery := Some(ObserverClosed);
          outcome := ResumeRecovery(recovery);
          return;
        }
        var message := inbox[0];
        inbox := inbox[1..];
        if left.Some? {
          left := Some(left.value - 1);
        }
        if message.attachment != attachment {
          continue;
        }
        if message.event.None? {
          return Some(Err(Unreadable));
        }
        var event := message.event.value;
        if event.event.Deleted? {
          return Some(Ok(DeletedUpdate(event.event.sessionId, snapshot.summary.cwd)));
        }
        if event.sequence <= expectedSequence {
          continue;
        }
        if event.sequence == expectedSequence + 1 {
          expectedSequence := event.sequence;
          return Some(Ok(EventUpdate(event)));
        }
        pendingRecovery := Some(SequenceGap);
        outcome := ResumeRecovery(recovery);
        return;
      }
    }

    /** Looks at the one outstanding recovery: it stays outstanding until it has completed. */
    method ResumeRecovery(recovery: Recovery) returns (outcome: Outcome)
      requires pendingRecovery.Some?
      modifies this
      ensures (State(), outcome) == Resume(old(State()), old(pendingRecovery.value), recovery)
    {
      var reason := pendingRecovery.value;
      if recovery.Waiting? {
        return None;
      }
      pendingRecovery := None;
      match recovery
      case SessionGone => return Some(Ok(DeletedUpdate(snapshot.summary.id, snapshot.summary.cwd)));
      case ReattachFailed => return Some(Err(RecoveryError));
      case Reattached(current, id, warning) =>
        sequenceExhausted := reason == SequenceOverflow && current.sequence == U64_MAX;
        expectedSequence := current.sequence;
        snapshot, attachment, inbox := current, id, [];
        pendingWarning := warning;
        return Some(Ok(SnapshotReplaced(current)));
    }
  }

  // ---------- what one call may deliver ----------

  /** A delivered event is the next one and was received; everything else leaves the position alone. */
  predicate Delivers(c: Client, after: Client, outcome: Outcome, recovery: Recovery) {
    match outcome
    case Some(Ok(EventUpdate(e))) =>
      && e.sequence == c.expected + 1 && after.expected == e.sequence && !e.event.Deleted?
      && Delivery(c.attachment, Some(e)) in c.inbox
      && c.recovery == None && after.recovery == None
      && after.attachment == c.attachment && after.snapshot == c.snapshot
    case Some(Ok(SnapshotReplaced(s))) =>
      && recovery == Reattached(s, after.attachment, after.warning)
      && after.expected == s.sequence && after.snapshot == s && after.recovery == None && after.inbox == []
    case _ =>
      && after.expected == c.expected && after.attachment == c.attachment && after.snapshot == c.snapshot
      && (after.recovery.Some? ==> outcome == None || c.recovery == after.recovery)
      && (c.recovery.Some? && outcome == None ==> after.recovery == c.recovery)
  }

  /** The first message is read and ignored: another attachment's, or one already covered. */
  predicate Skips(c: Client, lost: Option<nat>) {
    && c.warning.None? && c.recovery.None? && c.expected != U64_MAX && lost != Some(0) && c.inbox != []
    && (c.inbox[0].attachment != c.attachment
        || (c.inbox[0].event.Some? && !c.inbox[0].event.value.event.Deleted?
            && c.inbox[0].event.value.sequence <= c.expected))
  }

  function Left(lost: Option<nat>): Option<nat>
    requires lost != Some(0)
  {
    if lost.Some? then Some(lost.value - 1) else None
  }

  lemma SkipIs(c: Client, closed: bool, lost: Option<nat>, recovery: Recovery)
    requires Skips(c, lost)
    ensures NextOf(c, closed, lost, recovery) == NextOf(c.(inbox := c.inbox[1..]), closed, Left(lost), recovery)
  {
  }

  lemma DirectDelivers(c: Client, closed: bool, lost: Option<nat>, recovery: Recovery)
    requires !Skips(c, lost)
    ensures var (after, outcome) := NextOf(c, closed, lost, recovery);
            && Delivers(c, after, outcome, recovery)
            && (after.inbox == c.inbox || after.inbox == [] || (c.inbox != [] && after.inbox == c.inbox[1..]))
  {
    if Reads(c, lost) {
      hide Skips;
      MessageDelivers(c, closed, lost, recovery);
    } else {
      hide Skips;
      if c.recovery.Some? {
        ResumeDelivers(c, c.recovery.value, recovery);
      } else {
        ResumeDelivers(c, SequenceOverflow, recovery);
        ResumeDelivers(c, ObserverClosed, recovery);
      }
    }
  }

  /** The call gets as far as reading a message. */
  predicate Reads(c: Client, lost: Option<nat>) {
    c.warning.None? && c.recovery.None? && c.expected != U64_MAX && lost != Some(0) && c.inbox != []
  }

  lemma ResumeDelivers(c: Client, reason: Reason, recovery: Recovery)
    requires c.recovery.Some? ==> c.recovery == Some(reason)
    ensures Delivers(c, Resume(c, reason, recovery).0, Resume(c, reason, recovery).1, recovery)
    ensures Resume(c, reason, recovery).0.inbox in {c.inbox, []}
  {
  }

  lemma MessageDelivers(c: Client, closed: bool, lost: Option<nat>, recovery: Recovery)
    requires Reads(c, lost) && !Skips(c, lost)
    ensures var (after, outcome) := NextOf(c, closed, lost, recovery);
            Delivers(c, after, outcome, recovery) && (after.inbox == [] || after.inbox == c.inbox[1..])
  {
    var rest := c.(inbox := c.inbox[1..]);
    ResumeDelivers(rest, SequenceGap, recovery);
    hide Resume;
  }

  lemma SkipDelivers(c: Client, after: Client, outcome: Outcome, recovery: Recovery)
    requires c.inbox != [] && Delivers(c.(inbox := c.inbox[1..]), after, outcome, recovery)
    ensures Delivers(c, after, outcome, recovery)
  {
    assert c.inbox == [c.inbox[0]] + c.inbox[1..];
  }

  /** Whatever is lost, repeated, reordered or cut short, one call delivers the next event or nothing. */
  lemma {:induction false} OneCallDelivers(c: Client, closed: bool, lost: Option<nat>, recovery: Recovery)
    ensures var (after, outcome) := NextOf(c, closed, lost, recovery);
            && Delivers(c, after, outcome, recovery)
            && (forall m :: m in after.inbox ==> m in c.inbox)
    decreases |c.inbox|
  {
    hide NextOf, Delivers;
    if Skips(c, lost) {
      var rest := c.(inbox := c.inbox[1..]);
      SkipIs(c, closed, lost, recovery);
      OneCallDelivers(rest, closed, Left(lost), recovery);
      var (after, outcome) := NextOf(rest, closed, Left(lost), recovery);
      SkipDelivers(c, after, outcome, recovery);
    } else {
      DirectDelivers(c, closed, lost, recovery);
    }
  }

  // ---------- what one call answers ----------

  /** Nothing is pending, and sequence numbers are left. */
  predicate Receptive(c: Client) {
    c.warning.None? && c.recovery.None? && c.expected < U64_MAX
  }

  /** Another attachment's message, or an event that the position already covers. */
  predicate Irrelevant(attachment: u64, expected: u64, m: Delivery) {
    || m.attachment != attachment
    || (m.event.Some? && !m.event.value.event.Deleted? && m.event.value.sequence <= expected)
  }

  /** The call reads `i` messages that do not matter, and gets no further or finds one that does. */
  predicate FirstRelevant(c: Client, lost: Option<nat>, i: nat) {
    && i <= |c.inbox|
    && (forall k :: 0 <= k < i ==> Irrelevant(c.attachment, c.expected, c.inbox[k]))
    && (lost.Some? ==> i <= lost.value)
    && (i == |c.inbox| || lost == Some(i) || !Irrelevant(c.attachment, c.expected, c.inbox[i]))
  }

  /**
    The whole answer of one call, by the first message that matters: it is unreadable, or the deletion, or
    the next event, which is delivered, or an event further on, which begins a recovery; a connection lost
    before it is an error, a closed empty inbox begins a recovery, and an open one keeps the call waiting.
   */
  lemma {:induction false} CallAnswers(c: Client, closed: bool, lost: Option<nat>, recovery: Recovery, i: nat)
    requires Receptive(c) && FirstRelevant(c, lost, i)
    ensures var (after, outcome) := NextOf(c, closed, lost, recovery);
            if lost == Some(i) then
              after == c.(inbox := c.inbox[i..]) && outcome == Some(Err(ConnectionClosed))
            else if i == |c.inbox| then
              if closed then (after, outcome) == Resume(c.(inbox := []), ObserverClosed, recovery)
              else after == c.(inbox := []) && outcome == None
            else
              var rest := c.(inbox := c.inbox[i + 1..]);
              match c.inbox[i].event
              case None => after == rest && outcome == Some(Err(Unreadable))
              case Some(Envelope(_, Deleted(id))) =>
                after == rest && outcome == Some(Ok(DeletedUpdate(id, c.snapshot.summary.cwd)))
              case Some(e) =>
                if e.sequence == c.expected + 1 then
                  after == rest.(expected := e.sequence) && outcome == Some(Ok(EventUpdate(e)))
                else e.sequence > c.expected + 1 && (after, outcome) == Resume(rest, SequenceGap, recovery)
    decreases i
  {
    hide Resume;
    if i > 0 {
      var rest := c.(inbox := c.inbox[1..]);
      assert Irrelevant(c.attachment, c.expected, c.inbox[0]);
      SkipIs(c, closed, lost, recovery);
      RestIsFirst(c, lost, i);
      CallAnswers(rest, closed, Left(lost), recovery, i - 1);
      assert i < |c.inbox| ==> rest.inbox[i - 1] == c.inbox[i] && rest.inbox[i..] == c.inbox[i + 1..];
      assert rest.inbox[i - 1..] == c.inbox[i..];
    } else {
      assert c.inbox[0..] == c.inbox;
      if lost != Some(0) && c.inbox != [] {
        DirectAnswers(c, closed, lost, recovery);
      }
    }
  }

  lemma RestIsFirst(c: Client, lost: Option<nat>, i: nat)
    requires FirstRelevant(c, lost, i) && i > 0 && lost != Some(0)
    ensures FirstRelevant(c.(inbox := c.inbox[1..]), Left(lost), i - 1)
  {
    hide Irrelevant;
    var rest := c.inbox[1..];
    assert forall k :: 0 <= k < |rest| ==> rest[k] == c.inbox[k + 1];
  }

  lemma DirectAnswers(c: Client, closed: bool, lost: Option<nat>, recovery: Recovery)
    requires Receptive(c) && c.inbox != [] && lost != Some(0) && !Irrelevant(c.attachment, c.expected, c.inbox[0])
    ensures var (after, outcome) := NextOf(c, closed, lost, recovery);
            var rest := c.(inbox := c.inbox[1..]);
            match c.inbox[0].event
            case None => after == rest && outcome == Some(Err(Unreadable))
            case Some(Envelope(_, Deleted(id))) =>
              after == rest && outcome == Some(Ok(DeletedUpdate(id, c.snapshot.summary.cwd)))
            case Some(e) =>
              if e.sequence == c.expected + 1 then
                after == rest.(expected := e.sequence) && outcome == Some(Ok(EventUpdate(e)))
              else e.sequence > c.expected + 1 && (after, outcome) == Resume(rest, SequenceGap, recovery)
  {
    hide Resume;
  }

  /** Every call has such a message, so that its answer is always determined. */
  lemma {:induction false} SomeFirstRelevant(c: Client, lost: Option<nat>, from: nat) returns (i: nat)
    requires from <= |c.inbox| && (lost.Some? ==> from <= lost.value)
    requires forall k :: 0 <= k < from ==> Irrelevant(c.attachment, c.expected, c.inbox[k])
    ensures FirstRelevant(c, lost, i)
    decreases |c.inbox| - from
  {
    hide Irrelevant;
    if from == |c.inbox| || lost == Some(from) || !Irrelevant(c.attachment, c.expected, c.inbox[from]) {
      i := from;
    } else {
      i := SomeFirstRelevant(c, lost, from + 1);
    }
  }

  /** The first message that matters skips at least one event, or there is none and the sender is gone. */
  predicate LosesTouch(c: Client, closed: bool, lost: Option<nat>, i: nat) {
    && FirstRelevant(c, lost, i) && lost != Some(i)
    && if i == |c.inbox| then closed
       else c.inbox[i].event.Some? && !c.inbox[i].event.value.event.Deleted?
            && c.inbox[i].event.value.sequence > c.expected + 1
  }

  /** A recovery begins exactly when touch is lost, or once at the last sequence number. */
  lemma RecoveryBegins(c: Client, closed: bool, lost: Option<nat>)
    requires c.recovery.None? && c.warning.None?
    ensures NextOf(c, closed, lost, Waiting).0.recovery.Some? <==>
      if c.expected == U64_MAX then !c.exhausted else exists i: nat :: LosesTouch(c, closed, lost, i)
  {
    hide Irrelevant, NextOf;
    if c.expected == U64_MAX {
      AtTheLastNumber(c, closed, lost);
    } else {
      var i := SomeFirstRelevant(c, lost, 0);
      CallAnswers(c, closed, lost, Waiting, i);
      if j: nat :| LosesTouch(c, closed, lost, j) {
        OnlyOneFirst(c, lost, i, j);
      }
      assert NextOf(c, closed, lost, Waiting).0.recovery.Some? ==> LosesTouch(c, closed, lost, i);
    }
  }

  lemma AtTheLastNumber(c: Client, closed: bool, lost: Option<nat>)
    requires c.recovery.None? && c.warning.None? && c.expected == U64_MAX
    ensures NextOf(c, closed, lost, Waiting).0.recovery.Some? <==> !c.exhausted
  {
  }

  lemma OnlyOneFirst(c: Client, lost: Option<nat>, i: nat, j: nat)
    requires FirstRelevant(c, lost, i) && FirstRelevant(c, lost, j)
    ensures i == j
  {
    hide Irrelevant;
  }

  /**
    What comes before any message: a warning is shown once, and an outstanding recovery is all that is
    looked at. It replaces everything the client held, and nothing else completes it.
   */
  lemma PendingAnswers(c: Client, closed: bool, lost: Option<nat>, recovery: Recovery)
    ensures var (after, outcome) := NextOf(c, closed, lost, recovery);
            match c.warning
            case Some(warning) => outcome == Some(Ok(WarningUpdate(warning))) && after == c.(warning := None)
            case None =>
              c.recovery.Some? ==>
                match recovery
                case Waiting => outcome == None && after == c
                case SessionGone =>
                  && outcome == Some(Ok(DeletedUpdate(c.snapshot.summary.id, c.snapshot.summary.cwd)))
                  && after == c.(recovery := None)
                case ReattachFailed => outcome == Some(Err(RecoveryError)) && after == c.(recovery := None)
                case Reattached(snapshot, attachment, warning) =>
                  && outcome == Some(Ok(SnapshotReplaced(snapshot)))
                  && after.attachment == attachment && after.snapshot == snapshot && after.expected == snapshot.sequence
                  && after.warning == warning && after.recovery == None && after.inbox == []
                  && (after.exhausted <==> c.recovery.value == SequenceOverflow && snapshot.sequence == U64_MAX)
  {
  }

  /** What begins a recovery that is answered at once is that same recovery. */
  lemma RecoveryIsOne(c: Client, reason: Reason, recovery: Recovery)
    requires c.warning.None? && c.recovery.None?
    ensures Resume(c, reason, recovery) == NextOf(c.(recovery := Some(reason)), false, None, recovery)
  {
  }

  // ---------- whole conversations ----------

  function CallOnce(c: Client, call: Call): (Client, Outcome) {
    NextOf(c.(inbox := c.inbox + call.arrivals), call.closed, call.lost, call.recovery)
  }

  function After(c: Client, calls: seq<Call>): Client
    decreases |calls|
  {
    if calls == [] then c else After(CallOnce(c, calls[0]).0, calls[1..])
  }

  /** The updates returned by successive calls, some of which may have been cancelled or have failed. */
  function Updates(c: Client, calls: seq<Call>): seq<Update>
    decreases |calls|
  {
    if calls == [] then []
    else
      var (next, outcome) := CallOnce(c, calls[0]);
      (if outcome.Some? && outcome.value.Ok? then [outcome.value.value] else []) + Updates(next, calls[1..])
  }

  /** Every event follows the previous event or snapshot directly. */
  predicate Contiguous(last: nat, updates: seq<Update>)
    decreases |updates|
  {
    if updates == [] then true
    else match updates[0]
      case EventUpdate(e) => e.sequence == last + 1 && Contiguous(e.sequence, updates[1..])
      case SnapshotReplaced(s) => Contiguous(s.sequence, updates[1..])
      case _ => Contiguous(last, updates[1..])
  }

  /** Over any number of calls, under any environment, what the client is shown has no gap and no repetition. */
  lemma {:induction false} ConversationsAreContiguous(c: Client, calls: seq<Call>)
    ensures Contiguous(c.expected, Updates(c, calls))
    decreases |calls|
  {
    hide NextOf;
    if calls != [] {
      var call := calls[0];
      OneCallDelivers(c.(inbox := c.inbox + call.arrivals), call.closed, call.lost, call.recovery);
      var (next, outcome) := CallOnce(c, call);
      ConversationsAreContiguous(next, calls[1..]);
      if outcome.Some? && outcome.value.Ok? {
        assert Updates(c, calls)[1..] == Updates(next, calls[1..]);
      } else {
        assert Updates(c, calls) == Updates(next, calls[1..]);
      }
    }
  }

  // ---------- everything that arrives is delivered ----------

  /** The messages that matter are the next events, one after another. */
  predicate InOrder(attachment: u64, expected: u64, inbox: seq<Delivery>)
    decreases |inbox|
  {
    if inbox == [] then true
    else if Irrelevant(attachment, expected, inbox[0]) then InOrder(attachment, expected, inbox[1..])
    else
      && inbox[0].event.Some? && !inbox[0].event.value.event.Deleted?
      && inbox[0].event.value.sequence == expected + 1
      && InOrder(attachment, expected + 1, inbox[1..])
  }

  /** The events among them, in order. */
  function Awaited(attachment: u64, expected: u64, inbox: seq<Delivery>): seq<Envelope>
    requires InOrder(attachment, expected, inbox)
    decreases |inbox|
  {
    if inbox == [] then []
    else if Irrelevant(attachment, expected, inbox[0]) then Awaited(attachment, expected, inbox[1..])
    else [inbox[0].event.value] + Awaited(attachment, expected + 1, inbox[1..])
  }

  predicate Undisturbed(calls: seq<Call>) {
    forall i :: 0 <= i < |calls| ==> calls[i].arrivals == [] && calls[i].lost == None
  }

  function AsUpdates(events: seq<Envelope>): (updates: seq<Update>)
    ensures |updates| == |events|
  {
    if events == [] then [] else [EventUpdate(events[0])] + AsUpdates(events[1..])
  }

  lemma {:induction false} AwaitedFollows(attachment: u64, expected: u64, inbox: seq<Delivery>)
    requires InOrder(attachment, expected, inbox)
    ensures expected + |Awaited(attachment, expected, inbox)| <= U64_MAX
    ensures forall i :: 0 <= i < |Awaited(attachment, expected, inbox)| ==>
      Awaited(attachment, expected, inbox)[i].sequence == expected + 1 + i
    decreases |inbox|
  {
    if inbox != [] {
      if Irrelevant(attachment, expected, inbox[0]) {
        AwaitedFollows(attachment, expected, inbox[1..]);
      } else {
        AwaitedFollows(attachment, expected + 1, inbox[1..]);
      }
    }
  }

  /**
    Whatever lies between them, the next events are all delivered, by as many calls, in order and none of
    them lost; the position ends at the last of them and no recovery has begun.
   */
  lemma {:induction false} NextEventsAreDelivered(c: Client, calls: seq<Call>)
    requires c.warning.None? && c.recovery.None? && InOrder(c.attachment, c.expected, c.inbox)
    requires |calls| == |Awaited(c.attachment, c.expected, c.inbox)| && Undisturbed(calls)
    ensures Updates(c, calls) == AsUpdates(Awaited(c.attachment, c.expected, c.inbox))
    ensures var after := After(c, calls);
            && after.expected == c.expected + |calls| && after.recovery.None? && after.warning.None?
            && after.attachment == c.attachment && after.snapshot == c.snapshot
    decreases |calls|
  {
    hide NextOf, InOrder, Awaited, FirstRelevant;
    if calls != [] {
      var i := FirstAwaited(c);
      assert i <= |c.inbox|;
      CallAnswers(c, calls[0].closed, None, calls[0].recovery, i);
      assert c.inbox + [] == c.inbox && calls[0].arrivals == [];
      var (next, outcome) := CallOnce(c, calls[0]);
      assert outcome == Some(Ok(EventUpdate(c.inbox[i].event.value)));
      assert next == c.(inbox := c.inbox[i + 1..], expected := c.expected + 1);
      NextEventsAreDelivered(next, calls[1..]);
    } else {
      AwaitedFollows(c.attachment, c.expected, c.inbox);
    }
  }

  /** Where the first of the next events is, and what is still to come after it. */
  lemma {:induction false} FirstAwaited(c: Client) returns (i: nat)
    requires c.warning.None? && c.recovery.None? && InOrder(c.attachment, c.expected, c.inbox)
    requires Awaited(c.attachment, c.expected, c.inbox) != []
    ensures i < |c.inbox| && FirstRelevant(c, None, i) && c.expected < U64_MAX
    ensures c.inbox[i].event.Some? && !c.inbox[i].event.value.event.Deleted?
    ensures c.inbox[i].event.value.sequence == c.expected + 1
    ensures InOrder(c.attachment, c.expected + 1, c.inbox[i + 1..])
    ensures Awaited(c.attachment, c.expected, c.inbox) ==
      [c.inbox[i].event.value] + Awaited(c.attachment, c.expected + 1, c.inbox[i + 1..])
    decreases |c.inbox|
  {
    hide InOrder, Awaited, Irrelevant;
    assert c.inbox != [] by { NothingAwaited(c.attachment, c.expected); }
    AwaitedOne(c.attachment, c.expected, c.inbox);
    if Irrelevant(c.attachment, c.expected, c.inbox[0]) {
      var rest := c.(inbox := c.inbox[1..]);
      var k := FirstAwaited(rest);
      i := k + 1;
      assert rest.inbox[k + 1..] == c.inbox[i + 1..] && rest.inbox[k] == c.inbox[i];
      forall j | 0 <= j < i ensures Irrelevant(c.attachment, c.expected, c.inbox[j]) {
        assert j > 0 ==> rest.inbox[j - 1] == c.inbox[j];
      }
    } else {
      i := 0;
    }
  }

  lemma NothingAwaited(attachment: u64, expected: u64)
    ensures InOrder(attachment, expected, []) && Awaited(attachment, expected, []) == []
  {
  }

  lemma AwaitedOne(attachment: u64, expected: u64, inbox: seq<Delivery>)
    requires inbox != [] && InOrder(attachment, expected, inbox)
    ensures Irrelevant(attachment, expected, inbox[0]) ==>
      && InOrder(attachment, expected, inbox[1..])
      && Awaited(attachment, expected, inbox) == Awaited(attachment, expected, inbox[1..])
    ensures !Irrelevant(attachment, expected, inbox[0]) ==>
      && inbox[0].event.Some? && !inbox[0].event.value.event.Deleted? && inbox[0].event.value.sequence == expected + 1
      && expected < U64_MAX && InOrder(attachment, expected + 1, inbox[1..])
      && Awaited(attachment, expected, inbox) ==
         [inbox[0].event.value] + Awaited(attachment, expected + 1, inbox[1..])
  {
    hide Irrelevant;
  }

  // ---------- recovery ----------

  /** A cancelled or waiting call keeps the outstanding recovery, with the reason it was begun for. */
  lemma {:induction false} RecoverySurvivesCancellation(c: Client, calls: seq<Call>)
    requires c.recovery.Some? && c.warning == None
    requires forall i :: 0 <= i < |calls| ==> calls[i].recovery == Waiting
    ensures Updates(c, calls) == [] && After(c, calls).recovery == c.recovery
    ensures After(c, calls).expected == c.expected && After(c, calls).attachment == c.attachment
    decreases |calls|
  {
    if calls != [] {
      var next := CallOnce(c, calls[0]).0;
      assert calls[0].recovery == Waiting;
      assert next.recovery == c.recovery && next.warning == None;
      RecoverySurvivesCancellation(next, calls[1..]);
    }
  }

  /** At the last sequence number, with the one recovery that it asks for begun or about to begin. */
  predicate Overflowing(c: Client) {
    && c.expected == U64_MAX && c.warning == None
    && (c.recovery == Some(SequenceOverflow) || (c.recovery == None && !c.exhausted))
  }

  lemma {:induction false} StaysOverflowing(c: Client, waits: seq<Call>)
    requires Overflowing(c)
    requires forall i :: 0 <= i < |waits| ==> waits[i].recovery == Waiting
    ensures Overflowing(After(c, waits)) && Updates(c, waits) == []
    decreases |waits|
  {
    if waits != [] {
      assert waits[0].recovery == Waiting;
      assert CallOnce(c, waits[0]).1 == None;
      StaysOverflowing(CallOnce(c, waits[0]).0, waits[1..]);
    }
  }

  /**
    At the last sequence number there is one recovery, however often it is waited for and cancelled; if
    the new snapshot is still at the last number, its warning is shown and then exhaustion is final.
   */
  lemma ExhaustionIsFinal(c: Client, waits: seq<Call>, first: Call, calls: seq<Call>)
    requires Overflowing(c)
    requires forall i :: 0 <= i < |waits| ==> waits[i].recovery == Waiting
    requires first.recovery.Reattached? && first.recovery.snapshot.sequence == U64_MAX
    ensures Updates(c, waits) == []
    ensures CallOnce(After(c, waits), first).1 == Some(Ok(SnapshotReplaced(first.recovery.snapshot)))
    ensures var next := CallOnce(After(c, waits), first).0;
            var warned := next.(warning := None);
            && (next.warning.Some? ==> Updates(next, calls) == if calls == [] then [] else [WarningUpdate(next.warning.value)])
            && (next.warning.None? ==> Updates(next, calls) == [])
            && forall i :: 0 <= i < |calls| ==> CallOnce(After(warned, calls[..i]), calls[i]).1 == Some(Err(SequencesExhausted))
  {
    StaysOverflowing(c, waits);
    var pending := After(c, waits);
    hide After;
    var next := CallOnce(pending, first).0;
    var warned := next.(warning := None);
    if next.warning.Some? {
      if calls != [] {
        var told := CallOnce(next, calls[0]).0;
        StaysExhausted(told, calls[1..]);
      }
    } else {
      StaysExhausted(next, calls);
    }
    forall i | 0 <= i < |calls|
      ensures CallOnce(After(warned, calls[..i]), calls[i]).1 == Some(Err(SequencesExhausted))
    {
      StaysExhausted(warned, calls[..i]);
    }
  }

  predicate AtTheEnd(c: Client) {
    c.expected == U64_MAX && c.exhausted && c.recovery == None && c.warning == None
  }

  lemma {:induction false} StaysExhausted(c: Client, calls: seq<Call>)
    requires AtTheEnd(c)
    ensures AtTheEnd(After(c, calls)) && Updates(c, calls) == []
    decreases |calls|
  {
    if calls != [] {
      StaysExhausted(CallOnce(c, calls[0]).0, calls[1..]);
    }
  }

  /** While sequence numbers remain, recovering never leads to the exhausted state. */
  lemma {:induction false} OnlyTheLastNumberExhausts(c: Client, calls: seq<Call>)
    requires c.exhausted ==> c.expected == U64_MAX
    ensures After(c, calls).exhausted ==> After(c, calls).expected == U64_MAX
    decreases |calls|
  {
    hide NextOf;
    if calls != [] {
      var call := calls[0];
      ExhaustedAtMaximum(c.(inbox := c.inbox + call.arrivals), call.closed, call.lost, call.recovery);
      OnlyTheLastNumberExhausts(CallOnce(c, call).0, calls[1..]);
    }
  }

  lemma {:induction false} ExhaustedAtMaximum(c: Client, closed: bool, lost: Option<nat>, recovery: Recovery)
    requires c.exhausted ==> c.expected == U64_MAX
    ensures var after := NextOf(c, closed, lost, recovery).0;
            after.exhausted ==> after.expected == U64_MAX
    decreases |c.inbox|
  {
    if c.warning.None? && c.recovery.None? && c.expected != U64_MAX && lost != Some(0) && c.inbox != [] {
      var left := if lost.Some? then Some(lost.value - 1) else None;
      ExhaustedAtMaximum(c.(inbox := c.inbox[1..]), closed, left, recovery);
    }
  }

  // ---------- attachment identifiers ----------

  /** Identifiers of one connection's attachments: never zero, never repeated, and finite. */
  class AttachmentIds {
    var last: u64

    constructor ()
      ensures last == 0
    {
      last := 0;
    }

    method Allocate() returns (id: Option<u64>)
      modifies this
      ensures if old(last) == U64_MAX then id == None && last == old(last)
              else id == Some(old(last) + 1) && last == old(last) + 1
    {
      if last == U64_MAX {
        return None;
      }
      last := last + 1;
      return Some(last);
    }
  }
}
