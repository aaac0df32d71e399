/** What every step of a session keeps, and what holds over every run of one. */
module SessionInvariants {
  import opened Prelude
  import opened Titles
  import opened Records
  import opened Transcripts
  import opened Repository
  import opened Projections
  import opened Harnesses
  import opened SessionModel

  // ---------- three machines in lockstep ----------

  /** The durable record, the live projection and the harness describe the same session and the same run. */
  predicate Aligned(r: Record, p: Projection, h: HarnessState) {
    && p.summary.id == r.id && p.summary.cwd == r.cwd
    && p.summary.title == r.title && p.summary.titleRevision == r.titleRevision
    && p.summary.lastActivity == r.lastActivity
    && p.transcript == r.transcript && p.settings == r.settings && p.plan == r.plan
    && p.summary.busy == p.activeRun.Some?
    && Consistent(r) && h.history == r.history
    && (h.active.Some? <==> Open(r)) && (p.activeRun.Some? <==> Open(r))
    && (Open(r) ==>
          var turn := r.turns[|r.turns| - 1];
          && h.active.value.id == turn.runId
          && p.activeRun.value.runId == turn.runId
          && turn.promptPosition < |r.transcript|
          && r.transcript[turn.promptPosition] == User(h.active.value.prompt)
          && p.activeRun.value.prompt == h.active.value.prompt)
  }

  lemma StartAligned(r: Record, p: Projection, h: HarnessState, prompt: string)
    requires Aligned(r, p, h) && SubmitRun(h, prompt).Ok?
    ensures var event := Started(h.nextRunId, prompt);
            && ApplyDurable(r, event).Ok?
            && ValidateEvent(p, event) == None
            && Aligned(ApplyDurable(r, event).value, Reduce(p, event), SubmitRun(h, prompt).value)
  {
    hide Grammar, History, FindRunning, Body;
    DurableEventKeepsGrammar(r, Started(h.nextRunId, prompt));
  }

  lemma ToolAligned(r: Record, p: Projection, h: HarnessState, event: Event)
    requires Aligned(r, p, h) && h.active.Some? && event.ToolStarted? && event.runId == h.active.value.id
    ensures && ApplyDurable(r, event).Ok?
            && ValidateEvent(p, event) == None
            && Aligned(ApplyDurable(r, event).value, Reduce(p, event), h)
  {
    hide Grammar, History, FindRunning, Body;
    DurableEventKeepsGrammar(r, event);
  }

  /** A run ends in all three machines at once, and only a completion extends the history. */
  lemma EndAligned(r: Record, p: Projection, h: HarnessState, event: Event)
    requires Aligned(r, p, h) && h.active.Some?
    requires event.Completed? || event.Failed? || event.Cancelled?
    requires event.runId == h.active.value.id
    ensures var after := if event.Completed? then
                           h.(active := None, history := h.history +
                              [Message(UserRole, h.active.value.prompt), Message(AssistantRole, event.response)])
                         else h.(active := None);
            && ApplyDurable(r, event).Ok?
            && ValidateEvent(p, event) == None
            && Aligned(ApplyDurable(r, event).value.(history := after.history), Reduce(p, event), after)
            && (!event.Completed? ==> ApplyDurable(r, event).value.history == h.history)
  {
    hide Grammar, History, Body;
    DurableEventKeepsGrammar(r, event);
    RunningIsLast(r, event.runId);
  }

  // ---------- observers ----------

  function Fold(origin: Projection, log: seq<Event>): Projection {
    if log == [] then origin else Reduce(Fold(origin, log[..|log| - 1]), log[|log| - 1])
  }

  /** Every event was valid in the state that the events before it lead to. */
  ghost predicate ValidLog(origin: Projection, log: seq<Event>) {
    forall i :: 0 <= i < |log| ==> ValidateEvent(Fold(origin, log[..i]), log[i]) == None
  }

  /** The projection is its origin with all sequenced events applied, until sequence numbers run out. */
  ghost predicate LogKept(origin: Projection, w: World) {
    && origin.sequence == 0
    && w.projection.sequence == |w.log|
    && ValidLog(origin, w.log)
    && (|w.log| < U64_MAX ==> w.projection == Fold(origin, w.log).(sequence := |w.log|))
  }

  /** What a channel holds is a contiguous run of the sequenced events. */
  predicate Slice(log: seq<Event>, channel: Channel) {
    && 1 <= channel.next && channel.next + |channel.queue| <= |log| + 1
    && |log| <= U64_MAX
    && forall i :: 0 <= i < |channel.queue| ==>
         channel.queue[i] == Envelope(channel.next + i, log[channel.next + i - 1])
  }

  predicate Distinct(observers: seq<Observer>) {
    forall i, j :: 0 <= i < j < |observers| ==> observers[i].channel != observers[j].channel
  }

  /** Surviving observers are up to date and keep one slot free for the terminal event. */
  predicate Current(log: seq<Event>, channel: Channel) {
    channel.next + |channel.queue| == |log| + 1 && |channel.queue| < CHANNEL_CAPACITY
  }

  ghost predicate StreamsKept(w: World) {
    && Distinct(w.observers)
    && (forall o :: o in w.observers ==> o.channel in w.channels && w.channels[o.channel].senderOpen)
    && (forall c :: c in w.channels && w.channels[c].senderOpen ==> c in ChannelIds(w.observers))
    && (forall c :: c in w.channels ==> Slice(w.log, w.channels[c]))
    && (forall c :: c in w.channels && w.channels[c].senderOpen ==> Current(w.log, w.channels[c]))
  }

  // ---------- durability ----------

  /** The stored row carries the record's identity and title, and is itself consistent. */
  predicate RowAgrees(row: Record, r: Record) {
    && row.id == r.id && row.cwd == r.cwd && row.createdAt == r.createdAt
    && row.title == r.title && row.titleSource == r.titleSource && row.titleRevision == r.titleRevision
    && Consistent(row)
  }

  /** What is stored is the record, or the record is waiting to be written and a warning says so. */
  predicate WrittenBehind(w: World) {
    && (w.record.id in w.sessions ==>
          && RowAgrees(w.sessions[w.record.id], w.record)
          && (w.dirty.None? ==> w.sessions[w.record.id] == w.record))
    && (w.dirty.Some? ==> w.dirty.value == w.record)
    && (!w.deleting ==>
          && w.record.id in w.sessions
          && (w.projection.warning.Some? <==> w.dirty.Some?))
  }

  /** Everything but the streams: meaningful until the actor has exited. */
  predicate InStep(w: World) {
    && Aligned(w.record, w.projection, w.harness)
    && WrittenBehind(w)
    && (w.counted <==> w.harness.active.Some?)
    && (w.deleting ==> w.harness.active.None?)
  }

  ghost predicate Inv(origin: Projection, w: World) {
    && LogKept(origin, w)
    && StreamsKept(w)
    && (if w.exited then w.observers == [] else InStep(w))
  }

  // ---------- emitting ----------

  lemma ReduceIgnoresSequence(p: Projection, n: u64, event: Event)
    ensures Reduce(p.(sequence := n), event) == Reduce(p, event).(sequence := n)
    ensures Reduce(p, event).sequence == p.sequence
    ensures ValidateEvent(p.(sequence := n), event) == ValidateEvent(p, event)
  {
  }

  /** Emitting changes the projection, the log and the observers' channels, and nothing else. */
  lemma EmitEffect(w: World, event: Event, reserve: nat)
    requires ValidateEvent(w.projection, event) == None
    ensures var e := Emit(w, event, reserve);
            && e == w.(projection := e.projection, log := e.log, observers := e.observers, channels := e.channels)
            && e.projection == Reduce(w.projection, event).(sequence := e.projection.sequence)
  {
    ReduceIgnoresSequence(w.projection, if w.projection.sequence < U64_MAX then w.projection.sequence + 1 else 0, event);
  }

  lemma EmitUnfolds(w: World, event: Event, reserve: nat)
    requires ValidateEvent(w.projection, event) == None
    ensures var e := Emit(w, event, reserve);
            var n := w.projection.sequence;
            if n < U64_MAX then
              && e.projection == Reduce(w.projection, event).(sequence := n + 1) && e.log == w.log + [event]
              && e.observers == Survivors(w.observers, w.channels, reserve)
              && e.channels == Deliver(w.channels, ChannelIds(w.observers), Envelope(n + 1, event), reserve)
            else
              && e.projection == Reduce(w.projection, event) && e.log == w.log
              && e.observers == [] && e.channels == CloseSenders(w.channels, ChannelIds(w.observers))
  {
    hide Deliver, Survivors, CloseSenders, Reduce, ValidateEvent, ChannelIds;
    var n := w.projection.sequence;
    ReduceIgnoresSequence(w.projection, if n < U64_MAX then n + 1 else 0, event);
  }

  lemma FoldExtends(origin: Projection, log: seq<Event>, event: Event)
    requires ValidLog(origin, log) && ValidateEvent(Fold(origin, log), event) == None
    ensures ValidLog(origin, log + [event])
    ensures Fold(origin, log + [event]) == Reduce(Fold(origin, log), event)
  {
    hide Reduce, ValidateEvent;
    var longer := log + [event];
    assert longer[..|log|] == log;
    forall i | 0 <= i < |longer| ensures ValidateEvent(Fold(origin, longer[..i]), longer[i]) == None {
      assert i < |log| ==> longer[..i] == log[..i];
    }
  }

  lemma EmitKeepsLog(origin: Projection, w: World, event: Event, reserve: nat)
    requires LogKept(origin, w) && ValidateEvent(w.projection, event) == None
    ensures LogKept(origin, Emit(w, event, reserve))
  {
    hide Emit, Reduce, ValidateEvent, ValidLog, Fold;
    EmitUnfolds(w, event, reserve);
    var n := |w.log|;
    ReduceIgnoresSequence(w.projection, n, event);
    if n < U64_MAX {
      var folded := Fold(origin, w.log);
      ReduceIgnoresSequence(folded, n, event);
      FoldExtends(origin, w.log, event);
    }
  }

  lemma {:induction false} SurvivorsShape(observers: seq<Observer>, channels: map<nat, Channel>, reserve: nat)
    ensures forall o :: o in Survivors(observers, channels, reserve) <==>
      o in observers && o.channel in channels && Accepts(channels[o.channel], reserve)
    ensures Distinct(observers) ==> Distinct(Survivors(observers, channels, reserve))
  {
    if observers != [] {
      var before := observers[..|observers| - 1];
      SurvivorsShape(before, channels, reserve);
      assert observers == before + [observers[|observers| - 1]];
      if Distinct(observers) {
        assert forall o :: o in before ==> o.channel != observers[|observers| - 1].channel;
      }
    }
  }

  lemma OfferKeepsSlice(log: seq<Event>, channel: Channel, event: Event)
    requires Slice(log, channel) && Current(log, channel) && |log| < U64_MAX
    ensures Slice(log + [event], Offer(channel, Envelope(|log| + 1, event), TERMINAL_EVENT_RESERVE))
    ensures Accepts(channel, TERMINAL_EVENT_RESERVE) ==>
      Current(log + [event], Offer(channel, Envelope(|log| + 1, event), TERMINAL_EVENT_RESERVE))
  {
  }

  lemma DropKeepsStreams(w: World)
    requires StreamsKept(w)
    ensures StreamsKept(DropObservers(w))
  {
    hide Slice, Current;
    var after := DropObservers(w);
    forall c | c in after.channels ensures Slice(w.log, after.channels[c]) && !after.channels[c].senderOpen {
      SliceIgnoresEnds(w.log, w.channels[c], after.channels[c]);
    }
  }

  lemma SliceIgnoresEnds(log: seq<Event>, a: Channel, b: Channel)
    requires a.queue == b.queue && a.next == b.next
    ensures Slice(log, a) == Slice(log, b) && Current(log, a) == Current(log, b)
  {
  }

  /** What one broadcast does to one channel. */
  lemma DeliverKeepsChannel(w: World, c: nat, event: Event)
    requires StreamsKept(w) && |w.log| < U64_MAX && c in w.channels
    ensures var after := Deliver(w.channels, ChannelIds(w.observers), Envelope(|w.log| + 1, event),
                                 TERMINAL_EVENT_RESERVE);
            && c in after && Slice(w.log + [event], after[c])
            && (c in ChannelIds(w.observers) ==>
                  w.channels[c].senderOpen && (after[c].senderOpen <==> Accepts(w.channels[c], TERMINAL_EVENT_RESERVE)))
            && (c !in ChannelIds(w.observers) ==> !after[c].senderOpen)
            && (after[c].senderOpen ==> Current(w.log + [event], after[c]))
  {
    hide Slice, Current;
    if c in ChannelIds(w.observers) {
      OfferKeepsSlice(w.log, w.channels[c], event);
    } else {
      LongerLogKeepsSlice(w.log, w.channels[c], event);
    }
  }

  /** Broadcasting reaches every surviving observer and closes the streams of the others. */
  lemma EmitKeepsStreams(w: World, event: Event)
    requires StreamsKept(w) && w.projection.sequence == |w.log|
    ensures StreamsKept(Emit(w, event))
  {
    hide Slice, Current, Reduce, ValidateEvent, Accepts, Emit, Deliver, Survivors, CloseSenders, Distinct;
    if ValidateEvent(w.projection, event).None? {
      EmitUnfolds(w, event, TERMINAL_EVENT_RESERVE);
      if |w.log| < U64_MAX {
        BroadcastKeepsStreams(w, event);
      } else {
        DropKeepsStreams(w);
        var e := Emit(w, event);
        assert e.channels == DropObservers(w).channels && e.observers == DropObservers(w).observers;
      }
    } else {
      assert Emit(w, event) == w by { EmitRefused(w, event); }
    }
  }

  lemma EmitRefused(w: World, event: Event)
    requires ValidateEvent(w.projection, event).Some?
    ensures Emit(w, event) == w
  {
  }

  lemma BroadcastKeepsStreams(w: World, event: Event)
    requires StreamsKept(w) && |w.log| < U64_MAX
    requires w.projection.sequence == |w.log| && ValidateEvent(w.projection, event) == None
    ensures StreamsKept(Emit(w, event))
  {
    hide Slice, Current, Reduce, ValidateEvent, Accepts, Emit, Deliver, Survivors, CloseSenders, Distinct;
    EmitUnfolds(w, event, TERMINAL_EVENT_RESERVE);
    SurvivorsShape(w.observers, w.channels, TERMINAL_EVENT_RESERVE);
    var e := Emit(w, event);
    DeliverKeys(w.channels, ChannelIds(w.observers), Envelope(|w.log| + 1, event), TERMINAL_EVENT_RESERVE);
    forall c | c in e.channels
      ensures Slice(e.log, e.channels[c])
      ensures e.channels[c].senderOpen ==> c in ChannelIds(e.observers) && Current(e.log, e.channels[c])
    {
      DeliverKeepsChannel(w, c, event);
      if e.channels[c].senderOpen {
        var o :| o in w.observers && o.channel == c;
        assert o in e.observers;
      }
    }
    forall o | o in e.observers ensures o.channel in e.channels && e.channels[o.channel].senderOpen {
      DeliverKeepsChannel(w, o.channel, event);
    }
  }

  lemma DeliverKeys(channels: map<nat, Channel>, ids: set<nat>, envelope: Envelope, reserve: nat)
    ensures Deliver(channels, ids, envelope, reserve).Keys == channels.Keys
  {
  }

  lemma LongerLogKeepsSlice(log: seq<Event>, channel: Channel, event: Event)
    requires Slice(log, channel) && |log| < U64_MAX
    ensures Slice(log + [event], channel)
  {
  }

  // ---------- persisting ----------

  /** Everything that holds between commands except that what is stored may lag behind the record. */
  ghost predicate Lagging(origin: Projection, w: World) {
    && LogKept(origin, w)
    && StreamsKept(w)
    && Aligned(w.record, w.projection, w.harness)
    && (w.record.id in w.sessions ==> RowAgrees(w.sessions[w.record.id], w.record))
    && (!w.deleting ==> w.record.id in w.sessions)
  }

  lemma AlignedIgnoresWarning(r: Record, p: Projection, h: HarnessState, warning: Option<string>, n: u64)
    requires Aligned(r, p, h)
    ensures Aligned(r, p.(warning := warning, sequence := n), h)
  {
    hide Consistent, Open;
  }

  /** A world that differs only outside the streams and the log keeps them. */
  lemma StreamsElsewhere(origin: Projection, w: World, v: World)
    requires LogKept(origin, w) && StreamsKept(w)
    requires v.projection == w.projection && v.log == w.log && v.observers == w.observers && v.channels == w.channels
    ensures LogKept(origin, v) && StreamsKept(v)
  {
    hide Fold, ValidLog, Slice, Current, Distinct, ChannelIds;
  }

  /** Whatever a write's outcome, the warning afterwards says exactly whether the record is still unwritten. */
  lemma SettleRestores(origin: Projection, w: World, written: Result<Sessions, StoreError>)
    requires Lagging(origin, w)
    requires written.Ok? ==> w.record.id in w.sessions && written.value == w.sessions[w.record.id := w.record]
    ensures var after := Settle(w, written);
            && LogKept(origin, after) && StreamsKept(after)
            && Aligned(after.record, after.projection, after.harness) && WrittenBehind(after)
            && after == w.(projection := after.projection, log := after.log, observers := after.observers,
                           channels := after.channels, dirty := after.dirty, sessions := after.sessions)
            && (written.Ok? ==> after.sessions == written.value && after.dirty == None)
            && (written.Err? ==> after.sessions == w.sessions)
  {
    hide LogKept, StreamsKept, Aligned, Emit;
    var settled := if written.Ok? then w.(sessions := written.value, dirty := None) else w.(dirty := Some(w.record));
    var warning := if written.Ok? then None else Some(Describe(written.error));
    RowIsRecord(w);
    StreamsElsewhere(origin, w, settled);
    if written.Err? || w.projection.warning.Some? {
      var event := PersistenceWarning(warning);
      EmitEffect(settled, event, TERMINAL_EVENT_RESERVE);
      EmitKeepsLog(origin, settled, event, TERMINAL_EVENT_RESERVE);
      SequenceIsLength(origin, settled);
      EmitKeepsStreams(settled, event);
      AlignedIgnoresWarning(w.record, w.projection, w.harness, warning, Emit(settled, event).projection.sequence);
    }
  }

  lemma SequenceIsLength(origin: Projection, w: World)
    requires LogKept(origin, w)
    ensures w.projection.sequence == |w.log|
  {
  }

  lemma RowIsRecord(w: World)
    requires Aligned(w.record, w.projection, w.harness)
    ensures RowAgrees(w.record, w.record)
  {
    hide Consistent, Open;
  }

  lemma CheckpointStoresRecord(origin: Projection, w: World, refuse: bool)
    requires Lagging(origin, w)
    ensures var written := Checkpoint(w.sessions, w.record, refuse);
            written.Ok? ==> w.record.id in w.sessions && written.value == w.sessions[w.record.id := w.record]
  {
    hide LogKept, StreamsKept, Aligned, Storable, Consistent;
  }

  lemma PersistRestores(origin: Projection, w: World, refuse: bool)
    requires Lagging(origin, w)
    ensures var after := Persist(w, refuse);
            && LogKept(origin, after) && StreamsKept(after)
            && Aligned(after.record, after.projection, after.harness) && WrittenBehind(after)
            && after == w.(projection := after.projection, log := after.log, observers := after.observers,
                           channels := after.channels, dirty := after.dirty, sessions := after.sessions)
  {
    hide LogKept, StreamsKept, Aligned, Settle, WrittenBehind, RowAgrees, Checkpoint;
    CheckpointStoresRecord(origin, w, refuse);
    SettleRestores(origin, w, Checkpoint(w.sessions, w.record, refuse));
  }

  /** While nothing else is unwritten, writing the metadata alone already stores the whole record. */
  lemma PersistMetadataRestores(origin: Projection, w: World, refuse: bool)
    requires Lagging(origin, w)
    requires w.dirty.None? ==> w.record.id in w.sessions && WithMetadata(w.sessions[w.record.id], w.record) == w.record
    ensures var after := PersistMetadata(w, refuse);
            && LogKept(origin, after) && StreamsKept(after)
            && Aligned(after.record, after.projection, after.harness) && WrittenBehind(after)
            && after == w.(projection := after.projection, log := after.log, observers := after.observers,
                           channels := after.channels, dirty := after.dirty, sessions := after.sessions)
  {
    hide LogKept, StreamsKept, Aligned, Settle, WrittenBehind, RowAgrees, Checkpoint;
    CheckpointStoresRecord(origin, w, refuse);
    SettleRestores(origin, w, if w.dirty.Some? then Checkpoint(w.sessions, w.record, refuse)
                              else UpdateMetadata(w.sessions, w.record, refuse));
  }

  /** Emitting an event whose durable counterpart is already in the record. */
  lemma EmitLags(origin: Projection, before: World, w: World, event: Event)
    requires Inv(origin, before) && !before.exited
    requires w.projection == before.projection && w.log == before.log && w.observers == before.observers
             && w.channels == before.channels && w.sessions == before.sessions && (before.deleting ==> w.deleting)
    requires w.record.id == before.record.id && w.record.cwd == before.record.cwd
             && w.record.createdAt == before.record.createdAt && w.record.title == before.record.title
             && w.record.titleSource == before.record.titleSource
             && w.record.titleRevision == before.record.titleRevision
    requires ValidateEvent(w.projection, event) == None
    requires Aligned(w.record, Reduce(w.projection, event), w.harness)
    ensures var e := Emit(w, event);
            && Lagging(origin, e)
            && e == w.(projection := e.projection, log := e.log, observers := e.observers, channels := e.channels)
            && e.projection.warning == Reduce(w.projection, event).warning
  {
    hide LogKept, StreamsKept, Aligned, Emit, Consistent;
    StreamsElsewhere(origin, before, w);
    EmitEffect(w, event, TERMINAL_EVENT_RESERVE);
    EmitKeepsLog(origin, w, event, TERMINAL_EVENT_RESERVE);
    SequenceIsLength(origin, w);
    EmitKeepsStreams(w, event);
    var e := Emit(w, event);
    AlignedIgnoresWarning(w.record, Reduce(w.projection, event), w.harness,
                          Reduce(w.projection, event).warning, e.projection.sequence);
  }
}
