/**
  The whole path from a session's actors to one attached workspace: actors that come and go, their
  observer channels, the pumps that publish them, a wire that may lose, repeat and reorder, the client's
  update loop with its recoveries, and the workspace's own reducer.
 */
module Replication {
  import opened Prelude
  import opened Titles
  import opened Records
  import opened Transcripts
  import opened Repository
  import opened Projections
  import opened SessionModel
  import opened SessionInvariants
  import opened SessionRuns
  import opened SessionEffects
  import opened SessionTheorems
  import opened SessionClients
  import opened Workspaces

  // ---------- the pump ----------

  /** How much of a channel a pump forwards: up to the first failed publication or terminal event. */
  function Pumped(queue: seq<Envelope>, failAt: Option<nat>): seq<Envelope> {
    if queue == [] || failAt == Some(0) then []
    else if queue[0].event.Deleted? then [queue[0]]
    else [queue[0]] + Pumped(queue[1..], if failAt.Some? then Some(failAt.value - 1) else None)
  }

  function Remaining(failAt: Option<nat>, n: nat): Option<nat>
    requires failAt.Some? ==> n <= failAt.value
  {
    if failAt.Some? then Some(failAt.value - n) else None
  }

  method RunPump(queue: seq<Envelope>, failAt: Option<nat>) returns (published: seq<Envelope>)
    ensures published == Pumped(queue, failAt)
  {
    hide Pumped;
    published := [];
    var n := 0;
    assert queue[0..] == queue;
    while n < |queue|
      invariant n <= |queue| && (failAt.Some? ==> n <= failAt.value)
      invariant Pumped(queue, failAt) == published + Pumped(queue[n..], Remaining(failAt, n))
    {
      PumpOne(queue[n..], Remaining(failAt, n));
      if failAt == Some(n) {
        return;
      }
      var terminal := queue[n].event.Deleted?;
      ghost var before := published;
      published := published + [queue[n]];
      if terminal {
        return;
      }
      assert queue[n..][1..] == queue[n + 1..];
      OneMoreForwarded(before, queue[n], Pumped(queue[n + 1..], Remaining(failAt, n + 1)));
      n := n + 1;
    }
    PumpNone(queue[n..], Remaining(failAt, n));
  }

  lemma OneMoreForwarded(before: seq<Envelope>, next: Envelope, later: seq<Envelope>)
    ensures before + ([next] + later) == before + [next] + later
  {
  }

  lemma PumpNone(queue: seq<Envelope>, failAt: Option<nat>)
    ensures queue == [] ==> Pumped(queue, failAt) == []
  {
  }

  lemma PumpOne(queue: seq<Envelope>, failAt: Option<nat>)
    requires queue != []
    ensures failAt == Some(0) ==> Pumped(queue, failAt) == []
    ensures failAt != Some(0) && queue[0].event.Deleted? ==> Pumped(queue, failAt) == [queue[0]]
    ensures failAt != Some(0) && !queue[0].event.Deleted? ==>
      Pumped(queue, failAt) == [queue[0]] + Pumped(queue[1..], Remaining(failAt, 1))
  {
  }

  /** A pump forwards a prefix, in order, and nothing after a terminal event. */
  lemma {:induction false} PumpsForwardPrefixes(queue: seq<Envelope>, failAt: Option<nat>)
    ensures Pumped(queue, failAt) <= queue
    ensures forall i :: 0 <= i < |Pumped(queue, failAt)| - 1 ==> !Pumped(queue, failAt)[i].event.Deleted?
    ensures failAt.None? && |Pumped(queue, failAt)| < |queue| ==>
      Pumped(queue, failAt) != [] && Pumped(queue, failAt)[|Pumped(queue, failAt)| - 1].event.Deleted?
    ensures failAt.Some? ==> |Pumped(queue, failAt)| <= failAt.value
    ensures failAt.Some? && |Pumped(queue, failAt)| < failAt.value && |Pumped(queue, failAt)| < |queue| ==>
      Pumped(queue, failAt) != [] && Pumped(queue, failAt)[|Pumped(queue, failAt)| - 1].event.Deleted?
  {
    hide Pumped;
    if queue == [] {
      PumpNone(queue, failAt);
    } else {
      PumpOne(queue, failAt);
      if failAt != Some(0) && !queue[0].event.Deleted? {
        PumpsForwardPrefixes(queue[1..], Remaining(failAt, 1));
        assert queue == [queue[0]] + queue[1..];
      }
    }
  }

  // ---------- the system ----------

  /** An attachment that some actor granted: its channel there and the snapshot that was answered. */
  datatype Grant = Grant(world: nat, channel: nat, snapshot: Snapshot)

  /** Actors of one session, one per time it was opened; `sent` is everything any pump ever published. */
  datatype System = System(
    origins: seq<Projection>, worlds: seq<World>, grants: map<u64, Grant>, sent: set<(u64, Envelope)>,
    client: Client, chat: Snapshot, attached: bool, rejected: bool)

  datatype Move =
    | Act(world: nat, input: Input)
    | Reattach(world: nat, connection: u64, attachment: u64, channel: nat, jobs: Option<seq<Job>>)
    | Reopen(origin: Projection, start: World)
    | Publish(attachment: u64)
    | Poll(call: Call)

  /** Detaching the old attachment answers with a client count that replaces the snapshot's. */
  predicate SameButClients(a: Snapshot, b: Snapshot) {
    a == b.(summary := b.summary.(attachedClients := a.summary.attachedClients))
  }

  predicate Received(s: System, m: Delivery) {
    m.attachment == s.client.attachment && m.event.Some? ==> (m.attachment, m.event.value) in s.sent
  }

  /** The wire may lose, repeat, reorder and garble, but it does not invent events or snapshots. */
  predicate Genuine(s: System, call: Call) {
    && (forall m :: m in call.arrivals ==> Received(s, m))
    && (call.recovery.Reattached? ==>
          && call.recovery.attachment in s.grants
          && SameButClients(call.recovery.snapshot, s.grants[call.recovery.attachment].snapshot))
  }

  ghost function Granted(s: System, m: Move): System
    requires m.Reattach? && m.world < |s.worlds|
  {
    var (after, reply) := Step(s.worlds[m.world], Attach(m.connection, m.attachment, m.channel, m.jobs));
    var moved := s.(worlds := s.worlds[m.world := after]);
    if reply.Attached? && m.attachment !in s.grants then
      moved.(grants := s.grants[m.attachment := Grant(m.world, m.channel, reply.snapshot)])
    else moved
  }

  ghost function Published(s: System, attachment: u64): System {
    if attachment !in s.grants || s.grants[attachment].world >= |s.worlds| then s
    else
      var grant := s.grants[attachment];
      var w := s.worlds[grant.world];
      if grant.channel !in w.channels || w.channels[grant.channel].queue == [] then s
      else s.(worlds := s.worlds[grant.world := Step(w, Receive(grant.channel)).0],
              sent := s.sent + {(attachment, w.channels[grant.channel].queue[0])})
  }

  /** The client's call, and what the workspace does with the update it returns. */
  function Polled(s: System, call: Call): System {
    var (client, outcome) := CallOnce(s.client, call);
    match outcome
    case Some(Ok(DeletedUpdate(_, _))) => s.(client := client, attached := false)
    case Some(Ok(update)) =>
      (match ApplyUpdate(Chat.Attached(s.chat), update)
       case Ok(next) => s.(client := client, chat := if next.Attached? then next.snapshot else s.chat)
       case Err(_) => s.(client := client, rejected := true))
    case _ => s.(client := client)
  }

  ghost function Moved(s: System, m: Move): System {
    match m
    case Act(k, input) =>
      if k < |s.worlds| then s.(worlds := s.worlds[k := Step(s.worlds[k], input).0]) else s
    case Reattach(k, _, _, _, _) => if k < |s.worlds| then Granted(s, m) else s
    case Reopen(origin, start) =>
      if Inv(origin, start) && start.log == [] then
        s.(origins := s.origins + [origin], worlds := s.worlds + [start])
      else s
    case Publish(attachment) => Published(s, attachment)
    case Poll(call) => if s.attached && Genuine(s, call) then Polled(s, call) else s
  }

  ghost function RunSystem(s: System, moves: seq<Move>): System {
    if moves == [] then s else Moved(RunSystem(s, moves[..|moves| - 1]), moves[|moves| - 1])
  }

  // ---------- pumps are publications ----------

  function Repeated(m: Move, n: nat): seq<Move> {
    if n == 0 then [] else Repeated(m, n - 1) + [m]
  }

  /** The channel that an attachment's pump reads. */
  ghost predicate Pumping(s: System, attachment: u64) {
    && attachment in s.grants && s.grants[attachment].world < |s.worlds|
    && s.grants[attachment].channel in s.worlds[s.grants[attachment].world].channels
  }

  function Consumed(w: World, c: nat, n: nat): World
    requires c in w.channels && n <= |w.channels[c].queue|
  {
    w.(channels := w.channels[c := w.channels[c].(queue := w.channels[c].queue[n..], next := w.channels[c].next + n)])
  }

  function Sent(attachment: u64, events: seq<Envelope>): set<(u64, Envelope)> {
    set e | e in events :: (attachment, e)
  }

  /** The system after `n` publications of one attachment. */
  ghost function Pushed(s: System, attachment: u64, n: nat): System
    requires Pumping(s, attachment)
    requires var grant := s.grants[attachment]; n <= |s.worlds[grant.world].channels[grant.channel].queue|
  {
    var grant := s.grants[attachment];
    var w := s.worlds[grant.world];
    s.(worlds := s.worlds[grant.world := Consumed(w, grant.channel, n)],
       sent := s.sent + Sent(attachment, w.channels[grant.channel].queue[..n]))
  }

  lemma PushNone(s: System, attachment: u64)
    requires Pumping(s, attachment)
    ensures Pushed(s, attachment, 0) == s
  {
    var grant := s.grants[attachment];
    var w := s.worlds[grant.world];
    assert w.channels[grant.channel].queue[0..] == w.channels[grant.channel].queue;
    assert Consumed(w, grant.channel, 0) == w;
    assert s.worlds[grant.world := w] == s.worlds;
  }

  lemma ConsumeOneMore(w: World, c: nat, n: nat)
    requires c in w.channels && n < |w.channels[c].queue|
    ensures var before := Consumed(w, c, n);
            && before.channels[c].queue != [] && before.channels[c].queue[0] == w.channels[c].queue[n]
            && Step(before, Receive(c)).0 == Consumed(w, c, n + 1)
  {
    assert w.channels[c].queue[n..][1..] == w.channels[c].queue[n + 1..];
  }

  lemma SendOneMore(attachment: u64, queue: seq<Envelope>, n: nat)
    requires n < |queue|
    ensures Sent(attachment, queue[..n + 1]) == Sent(attachment, queue[..n]) + {(attachment, queue[n])}
  {
    assert queue[..n + 1] == queue[..n] + [queue[n]];
  }

  lemma PushOneMore(s: System, attachment: u64, n: nat)
    requires Pumping(s, attachment)
    requires var grant := s.grants[attachment]; n < |s.worlds[grant.world].channels[grant.channel].queue|
    ensures Published(Pushed(s, attachment, n), attachment) == Pushed(s, attachment, n + 1)
  {
    hide Step, Sent, Consumed;
    var grant := s.grants[attachment];
    var w := s.worlds[grant.world];
    ConsumeOneMore(w, grant.channel, n);
    ConsumedKeepsChannel(w, grant.channel, n);
    SendOneMore(attachment, w.channels[grant.channel].queue, n);
    assert Pushed(s, attachment, n).worlds[grant.world] == Consumed(w, grant.channel, n);
  }

  lemma ConsumedKeepsChannel(w: World, c: nat, n: nat)
    requires c in w.channels && n <= |w.channels[c].queue|
    ensures c in Consumed(w, c, n).channels
  {
  }

  lemma {:induction false} PublishRepeatedly(s: System, attachment: u64, n: nat)
    requires Pumping(s, attachment)
    requires var grant := s.grants[attachment]; n <= |s.worlds[grant.world].channels[grant.channel].queue|
    ensures RunSystem(s, Repeated(Publish(attachment), n)) == Pushed(s, attachment, n)
  {
    hide Pushed, Published;
    if n == 0 {
      PushNone(s, attachment);
    } else {
      PublishRepeatedly(s, attachment, n - 1);
      var moves := Repeated(Publish(attachment), n);
      assert moves[..|moves| - 1] == Repeated(Publish(attachment), n - 1);
      PushOneMore(s, attachment, n - 1);
    }
  }

  /**
    A pump's whole run is that many publications: exactly what it forwards is sent, and exactly that is
    gone from its channel.
   */
  lemma PumpIsPublications(s: System, attachment: u64, failAt: Option<nat>)
    requires Pumping(s, attachment)
    ensures var grant := s.grants[attachment];
            var w := s.worlds[grant.world];
            var forwarded := Pumped(w.channels[grant.channel].queue, failAt);
            && forwarded <= w.channels[grant.channel].queue
            && RunSystem(s, Repeated(Publish(attachment), |forwarded|)) ==
               s.(worlds := s.worlds[grant.world := Consumed(w, grant.channel, |forwarded|)],
                  sent := s.sent + Sent(attachment, forwarded))
  {
    var grant := s.grants[attachment];
    var queue := s.worlds[grant.world].channels[grant.channel].queue;
    hide Pumped, RunSystem, Consumed, Sent;
    PumpsForwardPrefixes(queue, failAt);
    var forwarded := Pumped(queue, failAt);
    assert queue[..|forwarded|] == forwarded;
    PublishRepeatedly(s, attachment, |forwarded|);
  }

  /** A workspace attaches to a running actor and presents the snapshot it was answered. */
  ghost predicate Launches(s: System) {
    && |s.origins| == |s.worlds| == 1 && Inv(s.origins[0], s.worlds[0])
    && s.sent == {} && s.attached && !s.rejected
    && s.chat == s.client.snapshot && s.client == NewClient(s.chat, s.client.attachment)
    && exists w: World, connection: u64, channel: nat, jobs: Option<seq<Job>> ::
         LaunchedFrom(s, w, connection, channel, jobs)
  }

  ghost predicate LaunchedFrom(s: System, w: World, connection: u64, channel: nat, jobs: Option<seq<Job>>)
    requires |s.origins| == |s.worlds| == 1
  {
    && Inv(s.origins[0], w)
    && Step(w, Attach(connection, s.client.attachment, channel, jobs)) == (s.worlds[0], Reply.Attached(s.chat))
    && s.grants == map[s.client.attachment := Grant(0, channel, s.chat)]
  }

  // ---------- the simulation invariant ----------

  /** The presented state at sequence `n` is the state the log leads to after `n` events. */
  ghost predicate Shows(origin: Projection, log: seq<Event>, s: Snapshot) {
    && s.sequence <= |log| && Coherent(s)
    && (s.sequence < U64_MAX ==> ClientCore(s) == ServerCore(Fold(origin, log[..s.sequence])))
  }

  ghost predicate GrantKept(s: System, g: Grant)
    requires |s.origins| == |s.worlds|
  {
    g.world < |s.worlds| && Shows(s.origins[g.world], s.worlds[g.world].log, g.snapshot)
  }

  predicate SentFrom(log: seq<Event>, e: Envelope) {
    1 <= e.sequence <= |log| && e.event == log[e.sequence - 1]
  }

  ghost predicate Actors(s: System) {
    && |s.origins| == |s.worlds|
    && forall k :: 0 <= k < |s.worlds| ==> Inv(s.origins[k], s.worlds[k])
  }

  ghost predicate Wire(s: System)
    requires |s.origins| == |s.worlds|
  {
    && (forall a :: a in s.grants ==> GrantKept(s, s.grants[a]))
    && (forall p :: p in s.sent ==> p.0 in s.grants && SentFrom(s.worlds[s.grants[p.0].world].log, p.1))
  }

  ghost predicate Following(s: System)
    requires |s.origins| == |s.worlds|
  {
    && !s.rejected
    && (forall m :: m in s.client.inbox ==> Received(s, m))
    && s.client.attachment in s.grants
    && s.chat.sequence == s.client.expected
    && var k := s.grants[s.client.attachment].world;
       k < |s.worlds| && Shows(s.origins[k], s.worlds[k].log, s.chat)
  }

  ghost predicate Simulates(s: System) {
    Actors(s) && Wire(s) && (if s.attached then Following(s) else !s.rejected)
  }

  // ---------- logs only grow ----------

  lemma LogGrows(origin: Projection, w: World, input: Input)
    requires Inv(origin, w)
    ensures w.log <= Step(w, input).0.log
  {
    hide LogKept, StreamsKept, InStep, Handle, OnlyRow, TitleAdvances;
    if input.Receive? || input.CloseReceiver? || input.Elsewhere? || w.exited {
    } else if input.FinishDelete? {
      FinishHandled(w);
      FinishLog(w);
    } else if MayExit(input) {
      ExitEffects(w, input);
    } else {
      HandleEffects(w, input);
    }
  }

  lemma FinishLog(w: World)
    ensures w.log <= DeleteFinished(w).0.log
  {
    hide Emit, CloseSenders, ChannelIds;
    EmitUnfolds(w, Deleted(w.record.id), 0);
  }

  lemma ShowsLater(origin: Projection, log: seq<Event>, longer: seq<Event>, s: Snapshot)
    requires Shows(origin, log, s) && log <= longer
    ensures Shows(origin, longer, s)
  {
    hide Fold, Coherent;
    assert longer[..s.sequence] == log[..s.sequence];
  }

  /** Any step of one actor leaves what is on the wire and what is presented as it was. */
  lemma ActorStepKeeps(s: System, k: nat, input: Input)
    requires Simulates(s) && k < |s.worlds|
    ensures Simulates(s.(worlds := s.worlds[k := Step(s.worlds[k], input).0]))
  {
    hide Inv, Step, Shows;
    StepKeeps(s.origins[k], s.worlds[k], input);
    LogGrows(s.origins[k], s.worlds[k], input);
    WorldGrows(s, k, Step(s.worlds[k], input).0);
  }

  lemma WorldGrows(s: System, k: nat, after: World)
    requires Simulates(s) && k < |s.worlds| && Inv(s.origins[k], after) && s.worlds[k].log <= after.log
    ensures Simulates(s.(worlds := s.worlds[k := after]))
  {
    hide Inv, Shows;
    var t := s.(worlds := s.worlds[k := after]);
    forall a | a in t.grants ensures GrantKept(t, t.grants[a]) {
      GrantGrows(s, k, after, t.grants[a].world, t.grants[a].snapshot);
    }
    if s.attached {
      GrantGrows(s, k, after, s.grants[s.client.attachment].world, s.chat);
      assert forall m :: m in t.client.inbox ==> Received(s, m);
    }
  }

  lemma GrantGrows(s: System, k: nat, after: World, j: nat, shown: Snapshot)
    requires |s.origins| == |s.worlds| && k < |s.worlds| && j < |s.worlds| && s.worlds[k].log <= after.log
    requires Shows(s.origins[j], s.worlds[j].log, shown)
    ensures Shows(s.origins[j], s.worlds[k := after][j].log, shown)
  {
    hide Shows;
    if j == k {
      ShowsLater(s.origins[k], s.worlds[k].log, after.log, shown);
    }
  }

  // ---------- granting, publishing, reopening ----------

  /** The snapshot answered to an attachment shows the log as it stands. */
  lemma AttachShows(origin: Projection, w: World, connection: u64, attachment: u64, channel: nat, jobs: Option<seq<Job>>)
    requires Inv(origin, w)
    ensures var (after, reply) := Step(w, Attach(connection, attachment, channel, jobs));
            reply.Attached? ==> Shows(origin, after.log, reply.snapshot)
  {
    hide StreamsKept, WrittenBehind, Consistent, ValidLog, Fold;
    assert w.log[..|w.log|] == w.log;
  }

  lemma GrantKeeps(s: System, m: Move)
    requires Simulates(s) && m.Reattach? && m.world < |s.worlds|
    ensures Simulates(Granted(s, m))
  {
    hide Inv, Step, Shows;
    var input := Attach(m.connection, m.attachment, m.channel, m.jobs);
    ActorStepKeeps(s, m.world, input);
    AttachShows(s.origins[m.world], s.worlds[m.world], m.connection, m.attachment, m.channel, m.jobs);
  }

  lemma PublishKeeps(s: System, attachment: u64)
    requires Simulates(s)
    ensures Simulates(Published(s, attachment))
  {
    hide Step, Shows, LogKept, InStep;
    if attachment in s.grants {
      var grant := s.grants[attachment];
      var w := s.worlds[grant.world];
      if grant.channel in w.channels && w.channels[grant.channel].queue != [] {
        var head := w.channels[grant.channel].queue[0];
        assert SentFrom(w.log, head) by {
          assert Slice(w.log, w.channels[grant.channel]);
        }
        SendKeeps(s, attachment, head);
        ActorStepKeeps(s.(sent := s.sent + {(attachment, head)}), grant.world, Receive(grant.channel));
      }
    }
  }

  lemma SendKeeps(s: System, attachment: u64, e: Envelope)
    requires Simulates(s) && attachment in s.grants && SentFrom(s.worlds[s.grants[attachment].world].log, e)
    ensures Simulates(s.(sent := s.sent + {(attachment, e)}))
  {
    hide Inv, Shows, SentFrom;
    var t := s.(sent := s.sent + {(attachment, e)});
    assert forall a :: a in t.grants ==> GrantKept(s, t.grants[a]);
    if s.attached {
      assert forall m :: m in t.client.inbox ==> Received(s, m);
    }
  }

  lemma ReopenKeeps(s: System, origin: Projection, start: World)
    requires Simulates(s) && Inv(origin, start)
    ensures Simulates(s.(origins := s.origins + [origin], worlds := s.worlds + [start]))
  {
    hide Inv, Shows, SentFrom;
    var t := s.(origins := s.origins + [origin], worlds := s.worlds + [start]);
    forall a | a in t.grants ensures GrantKept(t, t.grants[a]) {
      assert GrantKept(s, s.grants[a]);
    }
    if s.attached {
      assert forall m :: m in t.client.inbox ==> Received(s, m);
    }
  }

  // ---------- polling ----------

  /** The event the client delivers is accepted by the workspace and moves it one step along the log. */
  lemma EventShows(origin: Projection, log: seq<Event>, chat: Snapshot, e: Envelope)
    requires Shows(origin, log, chat) && ValidLog(origin, log)
    requires SentFrom(log, e) && e.sequence == chat.sequence + 1 && !e.event.Deleted?
    ensures ApplyEvent(chat, e).Ok? && Shows(origin, log, ApplyEvent(chat, e).value)
    ensures ApplyEvent(chat, e).value.sequence == e.sequence
  {
    hide Reduce, ValidateEvent, ApplyEvent, ClientCore, ServerCore, Coherent;
    var before := Fold(origin, log[..chat.sequence]);
    ReducersAgree(chat, before, e);
    assert log[..e.sequence] == log[..chat.sequence] + [log[chat.sequence]];
    assert log[..e.sequence][..chat.sequence] == log[..chat.sequence];
  }

  lemma ClientsDiffer(origin: Projection, log: seq<Event>, a: Snapshot, b: Snapshot)
    requires Shows(origin, log, b) && SameButClients(a, b)
    ensures Shows(origin, log, a)
  {
    hide Fold;
  }

  lemma PollKeeps(s: System, call: Call)
    requires Simulates(s) && s.attached && Genuine(s, call)
    ensures Simulates(Polled(s, call))
  {
    hide Actors, Wire, Shows, NextOf, ApplyEvent, SameButClients, Coherent;
    var inbox := s.client.inbox + call.arrivals;
    assert forall m :: m in inbox ==> Received(s, m);
    OneCallDelivers(s.client.(inbox := inbox), call.closed, call.lost, call.recovery);
    var (client, outcome) := CallOnce(s.client, call);
    var k := s.grants[s.client.attachment].world;
    ClientOnly(s, Polled(s, call));
    match outcome
    case Some(Ok(EventUpdate(e))) =>
      assert Received(s, Delivery(s.client.attachment, Some(e)));
      SentIs(s, s.client.attachment, e);
      LogOf(s, k);
      EventShows(s.origins[k], s.worlds[k].log, s.chat, e);
      InboxStays(s, client);
    case Some(Ok(SnapshotReplaced(snapshot))) =>
      var grant := s.grants[client.attachment];
      GrantShows(s, client.attachment);
      ClientsDiffer(s.origins[grant.world], s.worlds[grant.world].log, snapshot, grant.snapshot);
      CoherentIfShown(s.origins[grant.world], s.worlds[grant.world].log, snapshot);
    case Some(Ok(DeletedUpdate(_, _))) =>
    case _ =>
      InboxStays(s, client);
  }

  lemma ClientOnly(s: System, t: System)
    requires Actors(s) && Wire(s)
    requires t == s.(client := t.client, chat := t.chat, attached := t.attached, rejected := t.rejected)
    ensures Actors(t) && Wire(t)
  {
    hide Inv, Shows, SentFrom;
    assert forall a :: a in t.grants ==> GrantKept(s, t.grants[a]);
  }

  lemma SentIs(s: System, attachment: u64, e: Envelope)
    requires Actors(s) && Wire(s) && (attachment, e) in s.sent
    ensures attachment in s.grants && s.grants[attachment].world < |s.worlds| == |s.origins|
    ensures SentFrom(s.worlds[s.grants[attachment].world].log, e)
  {
    hide Inv, Shows, SentFrom;
    assert GrantKept(s, s.grants[attachment]);
  }

  lemma InboxStays(s: System, client: Client)
    requires client.attachment == s.client.attachment
    requires forall m :: m in client.inbox ==> Received(s, m)
    ensures forall t: System :: t.client == client && t.sent == s.sent ==> forall m :: m in client.inbox ==> Received(t, m)
  {
  }

  lemma LogOf(s: System, k: nat)
    requires Actors(s) && k < |s.worlds|
    ensures ValidLog(s.origins[k], s.worlds[k].log)
  {
    hide ValidLog, StreamsKept, InStep, Fold;
  }

  lemma GrantShows(s: System, attachment: u64)
    requires Actors(s) && Wire(s) && attachment in s.grants
    ensures var g := s.grants[attachment];
            g.world < |s.worlds| == |s.origins| && Shows(s.origins[g.world], s.worlds[g.world].log, g.snapshot)
  {
    hide Inv, Shows, SentFrom;
    assert GrantKept(s, s.grants[attachment]);
  }

  lemma CoherentIfShown(origin: Projection, log: seq<Event>, s: Snapshot)
    requires Shows(origin, log, s)
    ensures Coherent(s)
  {
  }

  // ---------- every run ----------

  lemma MoveKeeps(s: System, m: Move)
    requires Simulates(s)
    ensures Simulates(Moved(s, m))
  {
    hide Simulates, Inv, Step, Granted, Published, Polled, Genuine;
    match m
    case Act(k, input) =>
      if k < |s.worlds| {
        ActorStepKeeps(s, k, input);
      }
    case Reattach(k, _, _, _, _) =>
      if k < |s.worlds| {
        GrantKeeps(s, m);
      }
    case Reopen(origin, start) =>
      if Inv(origin, start) {
        ReopenKeeps(s, origin, start);
      }
    case Publish(attachment) => PublishKeeps(s, attachment);
    case Poll(call) =>
      if s.attached && Genuine(s, call) {
        PollKeeps(s, call);
      }
  }

  /** Attaching to any running actor that is not being deleted launches the system. */
  lemma AttachingLaunches(
    origin: Projection, w: World, connection: u64, attachment: u64, channel: nat, jobs: seq<Job>)
    requires Inv(origin, w) && !w.exited && !w.deleting && channel !in w.channels
    ensures var (after, reply) := Step(w, Attach(connection, attachment, channel, Some(jobs)));
            && reply.Attached?
            && Launches(System([origin], [after], map[attachment := Grant(0, channel, reply.snapshot)], {},
                               NewClient(reply.snapshot, attachment), reply.snapshot, true, false))
  {
    hide Inv;
    var input := Attach(connection, attachment, channel, Some(jobs));
    StepKeeps(origin, w, input);
    var (after, reply) := Step(w, input);
    var s := System([origin], [after], map[attachment := Grant(0, channel, reply.snapshot)], {},
                    NewClient(reply.snapshot, attachment), reply.snapshot, true, false);
    assert LaunchedFrom(s, w, connection, channel, Some(jobs));
  }

  lemma LaunchSimulates(s: System)
    requires Launches(s)
    ensures Simulates(s)
  {
    hide Inv, Step, Shows;
    var w: World, connection: u64, channel: nat, jobs: Option<seq<Job>> :|
      LaunchedFrom(s, w, connection, channel, jobs);
    AttachShows(s.origins[0], w, connection, s.client.attachment, channel, jobs);
  }

  lemma {:induction false} SystemSimulates(s: System, moves: seq<Move>)
    requires Launches(s)
    ensures Simulates(RunSystem(s, moves))
  {
    hide Launches, Simulates, Moved;
    if moves == [] {
      LaunchSimulates(s);
    } else {
      SystemSimulates(s, moves[..|moves| - 1]);
      MoveKeeps(RunSystem(s, moves[..|moves| - 1]), moves[|moves| - 1]);
    }
  }

  /**
    End to end: whatever actors, storage, pumps, wire and cancellations do, an attached workspace never
    rejects what its client delivers, and until sequence numbers run out it presents the session exactly
    as the actor it is attached to projected it at the workspace's sequence. Once it has caught up, that
    is the projection as it stands now.
   */
  lemma WorkspaceShowsActor(s: System, moves: seq<Move>)
    requires Launches(s)
    ensures var t := RunSystem(s, moves);
            && !t.rejected && |t.origins| == |t.worlds|
            && (t.attached ==>
                  && t.client.attachment in t.grants
                  && var k := t.grants[t.client.attachment].world;
                     && k < |t.worlds| && t.chat.sequence <= |t.worlds[k].log|
                     && (t.chat.sequence < U64_MAX ==>
                           ClientCore(t.chat) == ServerCore(Fold(t.origins[k], t.worlds[k].log[..t.chat.sequence])))
                     && (t.chat.sequence < U64_MAX && t.chat.sequence == t.worlds[k].projection.sequence ==>
                           ClientCore(t.chat) == ServerCore(t.worlds[k].projection)))
  {
    hide Launches, Moved, Fold, StreamsKept, InStep, ValidLog, ClientCore;
    SystemSimulates(s, moves);
    var t := RunSystem(s, moves);
    if t.attached {
      var k := t.grants[t.client.attachment].world;
      var w := t.worlds[k];
      assert Inv(t.origins[k], w);
      assert w.log[..|w.log|] == w.log;
    }
  }
}
