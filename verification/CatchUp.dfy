/** The end-to-end law from the other side: what is published and not lost is shown, all of it. */
module CatchUps {
  import opened Prelude
  import opened Titles
  import opened Records
  import opened Projections
  import opened SessionModel
  import opened SessionInvariants
  import opened SessionClients
  import opened Workspaces
  import opened Replication

  function Polls(calls: seq<Call>): (moves: seq<Move>)
    ensures |moves| == |calls|
  {
    if calls == [] then [] else [Poll(calls[0])] + Polls(calls[1..])
  }

  lemma {:induction false} RunFirst(s: System, first: Move, moves: seq<Move>)
    ensures RunSystem(s, [first] + moves) == RunSystem(Moved(s, first), moves)
    decreases |moves|
  {
    hide Moved;
    var all := [first] + moves;
    if moves == [] {
      assert all[..0] == [] && all == [first];
      assert RunSystem(s, all[..|all| - 1]) == s;
    } else {
      var shorter := moves[..|moves| - 1];
      RunFirst(s, first, shorter);
      assert all[..|all| - 1] == [first] + shorter && all[|all| - 1] == moves[|moves| - 1];
    }
  }

  /** Nothing is pending at the client, and the messages that matter are the next events, one after another. */
  predicate Listens(c: Client, inbox: seq<Delivery>) {
    c.warning.None? && c.recovery.None? && InOrder(c.attachment, c.expected, inbox)
  }

  /** A call that neither loses the connection nor brings a recovery. */
  predicate Calm(call: Call) {
    call.lost == None && call.recovery == Waiting
  }

  /** Only the client and what it presents have moved. */
  predicate SameActors(s: System, t: System) {
    t.origins == s.origins && t.worlds == s.worlds && t.grants == s.grants && t.sent == s.sent
    && t.client.attachment == s.client.attachment
  }

  /** One call of an attached client that has the next event delivers it to the workspace. */
  lemma PollDelivers(s: System, call: Call)
    requires Simulates(s) && s.attached && Genuine(s, call) && Calm(call)
    requires Listens(s.client, s.client.inbox + call.arrivals)
    requires Awaited(s.client.attachment, s.client.expected, s.client.inbox + call.arrivals) != []
    ensures s.client.expected < U64_MAX
    ensures var t := Moved(s, Poll(call));
            && Simulates(t) && t.attached && SameActors(s, t) && t.client.expected == s.client.expected + 1
            && Listens(t.client, t.client.inbox)
            && Awaited(s.client.attachment, s.client.expected, s.client.inbox + call.arrivals) ==
               [Awaited(s.client.attachment, s.client.expected, s.client.inbox + call.arrivals)[0]]
               + Awaited(t.client.attachment, t.client.expected, t.client.inbox)
  {
    hide Simulates, NextOf, InOrder, Awaited, FirstRelevant, Genuine, Moved, CallOnce;
    MoveKeeps(s, Poll(call));
    var c := s.client.(inbox := s.client.inbox + call.arrivals);
    var i := FirstAwaited(c);
    assert i <= |c.inbox|;
    CallAnswers(c, call.closed, None, Waiting, i);
    var e := c.inbox[i].event.value;
    CallIs(s.client, call);
    EventPolled(s, call, c.(inbox := c.inbox[i + 1..], expected := c.expected + 1), e);
  }

  lemma CallIs(c: Client, call: Call)
    ensures CallOnce(c, call) == NextOf(c.(inbox := c.inbox + call.arrivals), call.closed, call.lost, call.recovery)
  {
  }

  lemma EventPolled(s: System, call: Call, next: Client, e: Envelope)
    requires s.attached && Genuine(s, call) && CallOnce(s.client, call) == (next, Some(Ok(EventUpdate(e))))
    requires next.attachment == s.client.attachment
    ensures var t := Moved(s, Poll(call)); t.client == next && t.attached && SameActors(s, t)
  {
    hide CallOnce, Genuine, ApplyUpdate;
  }

  /** Any number of calls. */
  lemma {:induction false} PollsDeliver(s: System, calls: seq<Call>)
    requires Simulates(s) && s.attached && Listens(s.client, s.client.inbox)
    requires |calls| == |Awaited(s.client.attachment, s.client.expected, s.client.inbox)|
    requires Undisturbed(calls) && forall i :: 0 <= i < |calls| ==> Calm(calls[i])
    ensures var t := RunSystem(s, Polls(calls));
            Simulates(t) && t.attached && SameActors(s, t) && t.client.expected == s.client.expected + |calls|
    decreases |calls|
  {
    hide Simulates, Moved, Genuine, InOrder, Awaited;
    if calls != [] {
      assert s.client.inbox + calls[0].arrivals == s.client.inbox;
      NothingToFake(s, calls[0]);
      PollDelivers(s, calls[0]);
      RunFirst(s, Poll(calls[0]), Polls(calls[1..]));
      PollsDeliver(Moved(s, Poll(calls[0])), calls[1..]);
    }
  }

  lemma NothingToFake(s: System, call: Call)
    requires call.arrivals == [] && call.recovery == Waiting
    ensures Genuine(s, call)
  {
  }

  /** The workspace has been shown everything that its channel no longer holds, and its actor still feeds that channel. */
  ghost predicate UpToDate(s: System) {
    && s.attached && s.client.attachment in s.grants && s.grants[s.client.attachment].world < |s.worlds|
    && var w := s.worlds[s.grants[s.client.attachment].world];
       var c := s.grants[s.client.attachment].channel;
       && c in w.channels && w.channels[c].senderOpen && |w.log| < U64_MAX
       && s.client.warning.None? && s.client.recovery.None? && s.client.inbox == []
       && s.client.expected + 1 == w.channels[c].next
       && forall e :: e in w.channels[c].queue ==> !e.event.Deleted?
  }

  ghost function Feeding(s: System): World
    requires UpToDate(s)
  {
    s.worlds[s.grants[s.client.attachment].world]
  }

  ghost function Outstanding(s: System): seq<Envelope>
    requires UpToDate(s)
  {
    Feeding(s).channels[s.grants[s.client.attachment].channel].queue
  }

  /** What arrives is what was published, in order; the wire may add stale or repeated messages, but loses nothing. */
  ghost predicate AllArrive(s: System, arrivals: seq<Delivery>)
    requires UpToDate(s)
  {
    && InOrder(s.client.attachment, s.client.expected, arrivals)
    && Awaited(s.client.attachment, s.client.expected, arrivals) == Outstanding(s)
    && forall m :: m in arrivals && m.attachment == s.client.attachment && m.event.Some? ==>
         (m.attachment, m.event.value) in s.sent || m.event.value in Outstanding(s)
  }

  /**
    An actor's pump publishes what waits for its observer, the wire loses none of it, and the client is
    called once for each event: the workspace then shows the session exactly as its actor holds it now.
   */
  lemma WorkspaceCatchesUp(s: System, arrivals: seq<Delivery>, calls: seq<Call>)
    requires Simulates(s) && UpToDate(s) && AllArrive(s, arrivals)
    requires |calls| == |Outstanding(s)| && (forall i :: 0 <= i < |calls| ==> Calm(calls[i]))
    requires calls != [] ==> calls[0].arrivals == arrivals && Undisturbed(calls[1..])
    ensures var pumped := RunSystem(s, Repeated(Publish(s.client.attachment), |Outstanding(s)|));
            var t := RunSystem(pumped, Polls(calls));
            && t.attached && !t.rejected
            && t.chat.sequence == Feeding(s).projection.sequence && ClientCore(t.chat) == ServerCore(Feeding(s).projection)
  {
    hide Simulates, Moved, Genuine, InOrder, Awaited, Pushed, RunSystem, Polls, Consumed, Sent;
    var a := s.client.attachment;
    var pumped := RunSystem(s, Repeated(Publish(a), |Outstanding(s)|));
    QueueReachesNow(s);
    PublishRepeatedly(s, a, |Outstanding(s)|);
    PushedKeeps(s, a, |Outstanding(s)|);
    PushedIs(s);
    if calls == [] {
      NoPolls(pumped);
    } else {
      ArrivalsAreGenuine(s, arrivals, calls[0]);
      assert [] + arrivals == arrivals;
      PollDelivers(pumped, calls[0]);
      FirstPoll(pumped, calls);
      PollsDeliver(Moved(pumped, Poll(calls[0])), calls[1..]);
    }
    CaughtUp(s, RunSystem(pumped, Polls(calls)));
  }

  lemma NoPolls(s: System)
    ensures RunSystem(s, Polls([])) == s
  {
  }

  lemma FirstPoll(s: System, calls: seq<Call>)
    requires calls != []
    ensures RunSystem(s, Polls(calls)) == RunSystem(Moved(s, Poll(calls[0])), Polls(calls[1..]))
  {
    hide RunSystem, Moved;
    RunFirst(s, Poll(calls[0]), Polls(calls[1..]));
  }

  /** What waits for an observer that is still fed reaches up to the projection's sequence. */
  lemma QueueReachesNow(s: System)
    requires Simulates(s) && UpToDate(s)
    ensures Pumping(s, s.client.attachment)
    ensures Feeding(s).projection.sequence == |Feeding(s).log| == s.client.expected + |Outstanding(s)|
  {
    hide Wire, Following, ValidLog, Fold, InStep, Slice;
    assert Inv(s.origins[s.grants[s.client.attachment].world], Feeding(s));
  }

  lemma {:induction false} PushedKeeps(s: System, a: u64, n: nat)
    requires Simulates(s) && Pumping(s, a)
    requires n <= |s.worlds[s.grants[a].world].channels[s.grants[a].channel].queue|
    ensures Simulates(Pushed(s, a, n))
  {
    hide Simulates, Pushed, Published;
    if n == 0 {
      PushNone(s, a);
    } else {
      PushedKeeps(s, a, n - 1);
      PushOneMore(s, a, n - 1);
      PublishKeeps(Pushed(s, a, n - 1), a);
    }
  }

  lemma PushedIs(s: System)
    requires UpToDate(s) && Pumping(s, s.client.attachment)
    ensures var t := Pushed(s, s.client.attachment, |Outstanding(s)|);
            && t.client == s.client && t.chat == s.chat && t.attached && t.grants == s.grants && t.origins == s.origins
            && |t.worlds| == |s.worlds|
            && t.worlds[s.grants[s.client.attachment].world].log == Feeding(s).log
            && t.worlds[s.grants[s.client.attachment].world].projection == Feeding(s).projection
            && t.sent == s.sent + Sent(s.client.attachment, Outstanding(s))
  {
    hide Sent;
    assert Outstanding(s)[..|Outstanding(s)|] == Outstanding(s);
  }

  lemma ArrivalsAreGenuine(s: System, arrivals: seq<Delivery>, call: Call)
    requires UpToDate(s) && AllArrive(s, arrivals) && call.arrivals == arrivals && call.recovery == Waiting
    requires Pumping(s, s.client.attachment)
    ensures Genuine(Pushed(s, s.client.attachment, |Outstanding(s)|), call)
  {
    hide InOrder, Awaited, Pushed;
    PushedIs(s);
  }

  /** A workspace that stands where its actor stands shows what the actor projects. */
  lemma CaughtUp(s: System, t: System)
    requires UpToDate(s) && Simulates(t) && t.attached && t.grants == s.grants && t.client.attachment == s.client.attachment
    requires |t.worlds| == |s.worlds|
    requires var k := s.grants[s.client.attachment].world;
             t.worlds[k].log == Feeding(s).log && t.worlds[k].projection == Feeding(s).projection
    requires t.client.expected == |Feeding(s).log| == Feeding(s).projection.sequence
    ensures !t.rejected && t.chat.sequence == Feeding(s).projection.sequence
    ensures ClientCore(t.chat) == ServerCore(Feeding(s).projection)
  {
    hide Wire, StreamsKept, InStep, ValidLog, Fold, ClientCore, Coherent;
    var k := t.grants[t.client.attachment].world;
    var w := t.worlds[k];
    assert Inv(t.origins[k], w);
    assert w.log[..|w.log|] == w.log;
  }

  /** A workspace that has just attached is up to date. */
  lemma LaunchIsUpToDate(origin: Projection, w: World, connection: u64, attachment: u64, channel: nat, jobs: seq<Job>)
    requires Inv(origin, w) && !w.exited && !w.deleting && channel !in w.channels && w.projection.sequence < U64_MAX
    ensures var (after, reply) := Step(w, Attach(connection, attachment, channel, Some(jobs)));
            && reply.Attached?
            && var s := System([origin], [after], map[attachment := Grant(0, channel, reply.snapshot)], {},
                               NewClient(reply.snapshot, attachment), reply.snapshot, true, false);
               Launches(s) && UpToDate(s) && Outstanding(s) == []
  {
    hide Inv, Launches;
    AttachingLaunches(origin, w, connection, attachment, channel, jobs);
    LogIsSequence(origin, w);
  }

  lemma LogIsSequence(origin: Projection, w: World)
    requires Inv(origin, w)
    ensures |w.log| == w.projection.sequence
  {
    hide StreamsKept, InStep, ValidLog, Fold;
  }
}
