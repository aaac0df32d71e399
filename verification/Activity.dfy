/** Backend-wide activity accounting, the idle deadline, and the exit it may lead to. */
module Activity {
  import opened Prelude
  import opened Records

  const U32_MAX: int := 0xFFFF_FFFF

  /** The keyed state behind the tracker's lock. */
  datatype Tracked = Tracked(
    connections: set<u64>, runs: set<SessionId>, jobs: map<SessionId, nat>, titles: nat, generation: u64)

  const NOTHING: Tracked := Tracked({}, {}, map[], 0, 0)

  /** Published counts. */
  datatype ActivitySnapshot = ActivitySnapshot(
    connections: nat, activeRuns: nat, runningJobs: nat, titleTasks: nat, generation: u64)

  predicate Idle(s: ActivitySnapshot) {
    s.connections == 0 && s.activeRuns == 0 && s.runningJobs == 0 && s.titleTasks == 0
  }

  // ---------- job totals ----------

  ghost function Total(jobs: map<SessionId, nat>): nat
    decreases |jobs|
  {
    if jobs == map[] then 0
    else
      var id :| id in jobs;
      SmallerMap(jobs, id);
      jobs[id] + Total(jobs - {id})
  }

  lemma SmallerMap(jobs: map<SessionId, nat>, id: SessionId)
    requires id in jobs
    ensures |jobs - {id}| < |jobs|
  {
    assert (jobs - {id}).Keys == jobs.Keys - {id};
    assert |jobs.Keys - {id}| == |jobs.Keys| - 1;
  }

  /** The total does not depend on the order in which sessions are counted. */
  lemma {:induction false} TotalWithout(jobs: map<SessionId, nat>, id: SessionId)
    requires id in jobs
    ensures Total(jobs) == jobs[id] + Total(jobs - {id})
    decreases |jobs|
  {
    var first :| first in jobs && Total(jobs) == jobs[first] + Total(jobs - {first});
    if first != id {
      SmallerMap(jobs, first);
      SmallerMap(jobs, id);
      TotalWithout(jobs - {first}, id);
      TotalWithout(jobs - {id}, first);
      assert jobs - {first} - {id} == jobs - {id} - {first};
    }
  }

  lemma {:induction false} PositiveTotal(jobs: map<SessionId, nat>)
    requires forall id :: id in jobs ==> jobs[id] > 0
    ensures Total(jobs) == 0 <==> jobs == map[]
  {
    if jobs != map[] {
      var id :| id in jobs;
      TotalWithout(jobs, id);
    }
  }

  ghost function Counts(t: Tracked): ActivitySnapshot {
    ActivitySnapshot(|t.connections|, |t.runs|, Total(t.jobs), t.titles, t.generation)
  }

  // ---------- tracker operations ----------

  datatype Operation =
    | SetConnection(connection: u64, connected: bool)
    | SetRun(id: SessionId, running: bool)
    | SetRunningJobs(id: SessionId, count: u64)
    | BeginTitle
    | FinishTitle

  function JobsOf(t: Tracked, id: SessionId): nat {
    if id in t.jobs then t.jobs[id] else 0
  }

  /** Whether the operation finds something to change; the title count is bounded by its 32 bits. */
  predicate Changes(t: Tracked, op: Operation) {
    match op
    case SetConnection(c, connected) => (c in t.connections) != connected
    case SetRun(id, running) => (id in t.runs) != running
    case SetRunningJobs(id, count) => JobsOf(t, id) != count
    case BeginTitle => t.titles < U32_MAX
    case FinishTitle => t.titles > 0
  }

  function Altered(t: Tracked, op: Operation): Tracked {
    match op
    case SetConnection(c, connected) =>
      t.(connections := if connected then t.connections + {c} else t.connections - {c})
    case SetRun(id, running) => t.(runs := if running then t.runs + {id} else t.runs - {id})
    case SetRunningJobs(id, count) => t.(jobs := if count == 0 then t.jobs - {id} else t.jobs[id := count])
    case BeginTitle => t.(titles := t.titles + 1)
    case FinishTitle => if t.titles == 0 then t else t.(titles := t.titles - 1)
  }

  predicate OfTitles(op: Operation) {
    op.BeginTitle? || op.FinishTitle?
  }

  /**
    The state left behind. When the generation is exhausted the operation panics: before any change in
    the keyed setters, but only after the count has changed in the two title operations.
   */
  function Operated(t: Tracked, op: Operation): Tracked {
    if !Changes(t, op) then t
    else if t.generation == U64_MAX then (if OfTitles(op) then Altered(t, op) else t)
    else Altered(t, op).(generation := t.generation + 1)
  }

  function OperatedAll(t: Tracked, ops: seq<Operation>): Tracked {
    if ops == [] then t else Operated(OperatedAll(t, ops[..|ops| - 1]), ops[|ops| - 1])
  }

  /** A change that goes unnoticed: the one branch in which the count moves and the generation cannot. */
  predicate Unnoticed(t: Tracked, op: Operation) {
    t.generation == U64_MAX && OfTitles(op) && Changes(t, op)
  }

  /** One operation changes the state exactly if it advances the generation, or goes unnoticed. */
  lemma OneOperation(t: Tracked, op: Operation)
    ensures t.generation <= Operated(t, op).generation <= t.generation + 1
    ensures (Operated(t, op).generation == t.generation ==> Operated(t, op) == t) <==> !Unnoticed(t, op)
    ensures Operated(t, op).generation > t.generation ==> Operated(t, op) != t
  {
    if op.SetRunningJobs? && Changes(t, op) {
      assert op.count == 0 ==> op.id in t.jobs;
    }
  }

  lemma {:induction false} GenerationGrows(t: Tracked, ops: seq<Operation>, i: nat)
    requires i <= |ops|
    ensures OperatedAll(t, ops[..i]).generation <= OperatedAll(t, ops).generation
    decreases |ops|
  {
    if i < |ops| {
      var shorter := ops[..|ops| - 1];
      assert shorter[..i] == ops[..i];
      GenerationGrows(t, shorter, i);
      OneOperation(OperatedAll(t, shorter), ops[|ops| - 1]);
    } else {
      assert ops[..i] == ops;
    }
  }

  /** Over any run, equal generations mean equal activity: nothing can have happened and been undone in between. */
  lemma {:induction false} EqualGenerationsEqualActivity(t: Tracked, ops: seq<Operation>, i: nat)
    requires i <= |ops|
    requires forall k :: i <= k < |ops| ==> !Unnoticed(OperatedAll(t, ops[..k]), ops[k])
    ensures OperatedAll(t, ops[..i]).generation == OperatedAll(t, ops).generation ==>
      forall k :: i <= k <= |ops| ==> OperatedAll(t, ops[..k]) == OperatedAll(t, ops)
    decreases |ops|
  {
    if i < |ops| {
      var n := |ops| - 1;
      var shorter := ops[..n];
      forall k | i <= k < n ensures !Unnoticed(OperatedAll(t, shorter[..k]), shorter[k]) {
        assert shorter[..k] == ops[..k] && shorter[k] == ops[k];
      }
      assert shorter[..i] == ops[..i];
      EqualGenerationsEqualActivity(t, shorter, i);
      GenerationGrows(t, shorter, i);
      assert !Unnoticed(OperatedAll(t, ops[..n]), ops[n]);
      OneOperation(OperatedAll(t, shorter), ops[n]);
      if OperatedAll(t, ops[..i]).generation == OperatedAll(t, ops).generation {
        forall k | i <= k <= |ops| ensures OperatedAll(t, ops[..k]) == OperatedAll(t, ops) {
          if k <= n {
            assert shorter[..k] == ops[..k];
          } else {
            assert ops[..k] == ops;
          }
        }
      }
    } else {
      assert ops[..i] == ops;
    }
  }

  /** The failing family is not empty: a title task begun at the last generation changes the count unnoticed. */
  lemma TitlesCanChangeUnnoticed()
    ensures var t := Tracked({}, {}, map[], 0, U64_MAX);
            && Unnoticed(t, BeginTitle)
            && Operated(t, BeginTitle).generation == t.generation && Operated(t, BeginTitle) != t
  {
  }

  /** Short of the last generation, what each operation leaves: exactly the one thing it is about is changed. */
  lemma OperationTakes(t: Tracked, op: Operation)
    requires t.generation < U64_MAX
    ensures var after := Operated(t, op);
            && after.generation == t.generation + (if Changes(t, op) then 1 else 0)
            && (!op.SetConnection? ==> after.connections == t.connections)
            && (!op.SetRun? ==> after.runs == t.runs)
            && (!op.SetRunningJobs? ==> after.jobs == t.jobs)
            && (!OfTitles(op) ==> after.titles == t.titles)
            && match op
               case SetConnection(c, connected) =>
                 (c in after.connections <==> connected) && after.connections - {c} == t.connections - {c}
               case SetRun(id, running) => (id in after.runs <==> running) && after.runs - {id} == t.runs - {id}
               case SetRunningJobs(id, count) =>
                 JobsOf(after, id) == count && after.jobs - {id} == t.jobs - {id} && (count == 0 ==> id !in after.jobs || after == t)
               case BeginTitle => after.titles == if t.titles < 0xFFFF_FFFF then t.titles + 1 else t.titles
               case FinishTitle => after.titles == if t.titles > 0 then t.titles - 1 else 0
  {
  }

  /** An operation changes something exactly if its one thing is not already so. */
  lemma ChangesMeans(t: Tracked, op: Operation)
    requires t.generation < U64_MAX
    ensures Changes(t, op) <==> Operated(t, op) != t
  {
    OneOperation(t, op);
  }

  class ActivityTracker {
    var connections: set<u64>
    var activeRuns: set<SessionId>
    var runningJobs: map<SessionId, nat>
    var titleTasks: nat
    var generation: u64
    var published: ActivitySnapshot

    function State(): Tracked
      reads this
    {
      Tracked(connections, activeRuns, runningJobs, titleTasks, generation)
    }

    /** Absent sessions have no jobs, and what is published is what is tracked. */
    ghost predicate Valid()
      reads this
    {
      && (forall id :: id in runningJobs ==> runningJobs[id] > 0)
      && titleTasks <= U32_MAX
      && Total(runningJobs) <= U64_MAX
      && published == Counts(State())
    }

    constructor ()
      ensures Valid() && State() == NOTHING
    {
      connections, activeRuns, runningJobs, titleTasks, generation := {}, {}, map[], 0, 0;
      published := ActivitySnapshot(0, 0, 0, 0, 0);
    }

    /** `panicked` says that the generation was exhausted; the state and what is published then stay as they were. */
    method SetConnection(id: u64, connected: bool) returns (panicked: bool)
      requires Valid()
      modifies this
      ensures Valid() && State() == Operated(old(State()), Operation.SetConnection(id, connected))
      ensures panicked <==> old(generation) == U64_MAX && (id in old(connections)) != connected
    {
      if (id in connections) == connected {
        return false;
      }
      if generation == U64_MAX {
        return true;
      }
      generation := generation + 1;
      if connected {
        connections := connections + {id};
      } else {
        connections := connections - {id};
      }
      panicked := Publish();
    }

    method SetRun(id: SessionId, running: bool) returns (panicked: bool)
      requires Valid()
      modifies this
      ensures Valid() && State() == Operated(old(State()), Operation.SetRun(id, running))
      ensures panicked <==> old(generation) == U64_MAX && (id in old(activeRuns)) != running
    {
      if (id in activeRuns) == running {
        return false;
      }
      if generation == U64_MAX {
        return true;
      }
      generation := generation + 1;
      if running {
        activeRuns := activeRuns + {id};
      } else {
        activeRuns := activeRuns - {id};
      }
      panicked := Publish();
    }

    /** The one setter whose publication can fail too: the new total may exceed the machine's word. */
    method SetRunningJobs(id: SessionId, count: u64) returns (panicked: bool)
      requires Valid()
      modifies this
      ensures State() == Operated(old(State()), Operation.SetRunningJobs(id, count))
      ensures Valid() <==> Total(runningJobs) <= U64_MAX
      ensures !Valid() ==> published == old(published)
      ensures panicked <==> JobsOf(old(State()), id) != count && (old(generation) == U64_MAX || !Valid())
    {
      var current := if id in runningJobs then runningJobs[id] else 0;
      if current == count {
        return false;
      }
      if generation == U64_MAX {
        return true;
      }
      generation := generation + 1;
      if count == 0 {
        runningJobs := runningJobs - {id};
      } else {
        runningJobs := runningJobs[id := count];
      }
      panicked := Publish();
    }

    /** The count is raised before the generation, so at the last generation it is raised unpublished. */
    method BeginTitleTask() returns (panicked: bool)
      requires Valid()
      modifies this
      ensures State() == Operated(old(State()), BeginTitle)
      ensures Valid() <==> !Unnoticed(old(State()), BeginTitle)
      ensures panicked <==> old(titleTasks) == U32_MAX || old(generation) == U64_MAX
    {
      if titleTasks == U32_MAX {
        return true;
      }
      titleTasks := titleTasks + 1;
      if generation == U64_MAX {
        return true;
      }
      generation := generation + 1;
      panicked := Publish();
    }

    method FinishTitleTask() returns (panicked: bool)
      requires Valid()
      modifies this
      ensures State() == Operated(old(State()), FinishTitle)
      ensures Valid() <==> !Unnoticed(old(State()), FinishTitle)
      ensures panicked <==> old(titleTasks) == 0 || old(generation) == U64_MAX
    {
      if titleTasks == 0 {
        return true;
      }
      titleTasks := titleTasks - 1;
      if generation == U64_MAX {
        return true;
      }
      generation := generation + 1;
      panicked := Publish();
    }

    /** Sums the job counts with a checked addition; on overflow nothing is published. */
    method Publish() returns (panicked: bool)
      modifies this`published
      ensures panicked <==> Total(runningJobs) > U64_MAX
      ensures published == if panicked then old(published) else Counts(State())
    {
      var total := 0;
      var left := runningJobs;
      while left != map[]
        invariant total + Total(left) == Total(runningJobs) && total <= U64_MAX
        invariant published == old(published)
        decreases |left|
      {
        var id :| id in left;
        TotalWithout(left, id);
        SmallerMap(left, id);
        if total + left[id] > U64_MAX {
          return true;
        }
        total := total + left[id];
        left := left - {id};
      }
      published := ActivitySnapshot(|connections|, |activeRuns|, total, titleTasks, generation);
      return false;
    }
  }

  // ---------- publications over time ----------

  datatype Timed = Timed(at: int, op: Operation)

  function Operations(timed: seq<Timed>): (ops: seq<Operation>)
    ensures |ops| == |timed|
  {
    seq(|timed|, i requires 0 <= i < |timed| => timed[i].op)
  }

  ghost predicate InOrder(start: int, timed: seq<Timed>) {
    && (forall i :: 0 <= i < |timed| ==> start <= timed[i].at)
    && forall i, j :: 0 <= i < j < |timed| ==> timed[i].at <= timed[j].at
  }

  /** Everything that is published, starting with the initial snapshot: one snapshot per advanced generation. */
  ghost function Publications(t: Tracked, start: int, timed: seq<Timed>): (history: seq<Publication>)
    ensures history != []
  {
    if timed == [] then [Publication(start, Counts(t))]
    else
      var n := |timed| - 1;
      var before := OperatedAll(t, Operations(timed[..n]));
      var after := Operated(before, timed[n].op);
      if after.generation > before.generation && Total(after.jobs) <= U64_MAX then
        Publications(t, start, timed[..n]) + [Publication(timed[n].at, Counts(after))]
      else Publications(t, start, timed[..n])
  }

  /** An operation that changes the state and publishes nothing: it panics half-way. */
  ghost predicate Silent(t: Tracked, op: Operation) {
    Unnoticed(t, op) || Total(Operated(t, op).jobs) > U64_MAX
  }

  ghost function StateAfter(t: Tracked, timed: seq<Timed>): Tracked {
    OperatedAll(t, Operations(timed))
  }

  lemma OneMore(t: Tracked, timed: seq<Timed>)
    requires timed != []
    ensures StateAfter(t, timed) == Operated(StateAfter(t, timed[..|timed| - 1]), timed[|timed| - 1].op)
  {
    var n := |timed| - 1;
    assert Operations(timed)[..n] == Operations(timed[..n]);
  }

  /** The publications of any run of the tracker form a timeline: later ones carry later generations. */
  lemma {:induction false} PublicationsAreTimeline(t: Tracked, start: int, timed: seq<Timed>)
    requires InOrder(start, timed)
    ensures var history := Publications(t, start, timed);
            && Timeline(history)
            && history[|history| - 1].snapshot.generation <= StateAfter(t, timed).generation
            && history[|history| - 1].at <= (if timed == [] then start else timed[|timed| - 1].at)
  {
    hide Operated, Counts, Operations, OperatedAll;
    if timed != [] {
      var n := |timed| - 1;
      PublicationsAreTimeline(t, start, timed[..n]);
      OneMore(t, timed);
      var before := StateAfter(t, timed[..n]);
      OneOperation(before, timed[n].op);
      CountsGeneration(Operated(before, timed[n].op));
    } else {
      CountsGeneration(t);
      NothingOperated(t);
    }
  }

  lemma NothingOperated(t: Tracked)
    ensures StateAfter(t, []) == t
  {
  }

  lemma CountsGeneration(t: Tracked)
    ensures Counts(t).generation == t.generation
  {
  }

  /** No operation of this run panicked half-way. */
  ghost predicate NoneSilent(t: Tracked, timed: seq<Timed>) {
    forall k :: 0 <= k < |timed| ==> !Silent(StateAfter(t, timed[..k]), timed[k].op)
  }

  /** What was published last is what is tracked now. */
  lemma {:induction false} PublishedIsCurrent(t: Tracked, start: int, timed: seq<Timed>)
    requires NoneSilent(t, timed)
    ensures var history := Publications(t, start, timed);
            history[|history| - 1].snapshot == Counts(StateAfter(t, timed))
  {
    hide Operated, Counts, Operations, OperatedAll, Unnoticed, StateAfter;
    if timed != [] {
      var n := |timed| - 1;
      forall k | 0 <= k < n ensures !Silent(StateAfter(t, timed[..n][..k]), timed[..n][k].op) {
        assert timed[..n][..k] == timed[..k] && timed[..n][k] == timed[k];
      }
      PublishedIsCurrent(t, start, timed[..n]);
      OneMore(t, timed);
      StateAfterIs(t, timed[..n]);
      OneOperation(StateAfter(t, timed[..n]), timed[n].op);
      assert !Silent(StateAfter(t, timed[..n]), timed[n].op);
    } else {
      NothingOperated(t);
    }
  }

  lemma StateAfterIs(t: Tracked, timed: seq<Timed>)
    ensures StateAfter(t, timed) == OperatedAll(t, Operations(timed))
  {
  }

  /** The operations done by a time. */
  function DoneBy(timed: seq<Timed>, now: int): (done: seq<Timed>) {
    if timed == [] || timed[|timed| - 1].at <= now then timed else DoneBy(timed[..|timed| - 1], now)
  }

  /** At every time, what is visible is what is tracked at that time. */
  lemma {:induction false} VisibleIsTracked(t: Tracked, start: int, timed: seq<Timed>, now: int)
    requires InOrder(start, timed) && NoneSilent(t, timed) && start <= now
    ensures var history := Publications(t, start, timed);
            history[VisibleAt(history, now)].snapshot == Counts(StateAfter(t, DoneBy(timed, now)))
  {
    hide Counts, StateAfter, Silent, Operated, OperatedAll, Operations;
    var history := Publications(t, start, timed);
    PublicationsAreTimeline(t, start, timed);
    if timed == [] || timed[|timed| - 1].at <= now {
      PublishedIsCurrent(t, start, timed);
      assert history[|history| - 1].at <= now;
    } else {
      var n := |timed| - 1;
      forall k | 0 <= k < n ensures !Silent(StateAfter(t, timed[..n][..k]), timed[..n][k].op) {
        assert timed[..n][..k] == timed[..k] && timed[..n][k] == timed[k];
      }
      VisibleIsTracked(t, start, timed[..n], now);
      var shorter := Publications(t, start, timed[..n]);
      if history != shorter {
        assert history[|history| - 1].at > now && history[..|history| - 1] == shorter;
        LaterIsInvisible(shorter, history[|history| - 1], now);
      }
    }
  }

  lemma LaterIsInvisible(history: seq<Publication>, later: Publication, now: int)
    requires history != [] && later.at > now
    ensures VisibleAt(history + [later], now) == VisibleAt(history, now)
    ensures (history + [later])[VisibleAt(history, now)] == history[VisibleAt(history, now)]
  {
    SameLast(history, later, now, |history| - 1);
  }

  lemma {:induction false} SameLast(history: seq<Publication>, later: Publication, now: int, n: nat)
    requires n < |history|
    ensures LastBy(history + [later], now, n) == LastBy(history, now, n)
  {
    if n > 0 && history[n].at > now {
      SameLast(history, later, now, n - 1);
    }
  }

  /** A published idle snapshot means that nobody is connected and nothing runs anywhere. */
  lemma IdleMeansNothingTracked(t: Tracked)
    requires forall id :: id in t.jobs ==> t.jobs[id] > 0
    ensures Idle(Counts(t)) <==> t.connections == {} && t.runs == {} && t.jobs == map[] && t.titles == 0
  {
    PositiveTotal(t.jobs);
  }

  // ---------- waiting for idleness ----------

  datatype Publication = Publication(at: int, snapshot: ActivitySnapshot)

  /** Publications in order; a new one always carries a new generation. */
  ghost predicate Timeline(history: seq<Publication>) {
    && history != []
    && forall i, j :: 0 <= i < j < |history| ==>
         history[i].at <= history[j].at && history[i].snapshot.generation < history[j].snapshot.generation
  }

  /** The publication that is visible at a time: the last one made by then, or the initial one. */
  function VisibleAt(history: seq<Publication>, now: int): (i: nat)
    requires history != []
    ensures i < |history|
    ensures i > 0 ==> history[i].at <= now
    ensures forall j :: i < j < |history| ==> history[j].at > now
  {
    LastBy(history, now, |history| - 1)
  }

  function LastBy(history: seq<Publication>, now: int, n: nat): (i: nat)
    requires n < |history|
    ensures i <= n
    ensures i > 0 ==> history[i].at <= now
    ensures forall j :: i < j <= n ==> history[j].at > now
  {
    if n == 0 || history[n].at <= now then n else LastBy(history, now, n - 1)
  }

  /** The whole interval saw one idle snapshot. */
  ghost predicate IdleThroughout(history: seq<Publication>, from: int, until: int, s: ActivitySnapshot)
    requires history != []
  {
    Idle(s) && forall t :: from <= t <= until ==> history[VisibleAt(history, t)].snapshot == s
  }

  datatype Deadline = Deadline(from: int, until: int, snapshot: ActivitySnapshot)

  lemma VisibleGrows(history: seq<Publication>, a: int, b: int)
    requires history != [] && a <= b
    ensures VisibleAt(history, a) <= VisibleAt(history, b)
  {
  }

  /**
    Waits until one idle snapshot has lasted for `timeout`. `delay` is how late the task is polled, as a
    function of the number of polls so far. It waits for ever only if the last publication is not idle,
    and it is no later than that poll; a first snapshot that lasts long enough is the one that counts.
   */
  method WaitForIdle(history: seq<Publication>, start: int, timeout: nat, delay: nat -> nat)
    returns (deadline: Option<Deadline>)
    requires Timeline(history)
    ensures deadline.Some? ==>
      && deadline.value.until - deadline.value.from >= timeout && deadline.value.from >= start
      && IdleThroughout(history, deadline.value.from, deadline.value.until, deadline.value.snapshot)
    ensures deadline.None? ==> !Idle(history[|history| - 1].snapshot)
    ensures deadline.Some? ==>
      exists poll: nat :: deadline.value.until <= deadline.value.from + timeout + delay(poll)
    ensures IdleThroughout(history, start, start + timeout + delay(0), history[VisibleAt(history, start)].snapshot) ==>
      deadline.Some? && deadline.value.from == start
  {
    assert history != [];
    hide VisibleAt, Timeline, IdleThroughout;
    var now := start;
    var polls := 0;
    ghost var quiet := IdleThroughout(history, start, start + timeout + delay(0), history[VisibleAt(history, start)].snapshot);
    if quiet {
      NothingNew(history, start, start + timeout + delay(0));
    }
    while true
      invariant now >= start && (quiet ==> now == start && polls == 0)
      decreases |history| - VisibleAt(history, now)
    {
      var seen := VisibleAt(history, now);
      var snapshot := history[seen].snapshot;
      var late := delay(polls);
      polls := polls + 1;
      if !Idle(snapshot) {
        if seen + 1 == |history| {
          return None;
        }
        NextIsLater(history, now);
        now := history[seen + 1].at + late;
        assert VisibleAt(history, now) > seen;
        continue;
      }
      var target := now + timeout;
      var woken := if seen + 1 < |history| && history[seen + 1].at < target then history[seen + 1].at + late
                   else target + late;
      VisibleGrows(history, now, woken);
      if woken < target {
        NextIsLater(history, now);
        now := woken;
        continue;
      }
      var current := history[VisibleAt(history, woken)].snapshot;
      if Idle(current) && current.generation == snapshot.generation {
        StayedIdle(history, now, woken);
        return Some(Deadline(now, woken, current));
      }
      assert VisibleAt(history, woken) != seen;
      now := woken;
    }
  }

  lemma StayedIdle(history: seq<Publication>, from: int, until: int)
    requires Timeline(history) && from <= until
    requires var a, b := history[VisibleAt(history, from)].snapshot, history[VisibleAt(history, until)].snapshot;
             Idle(b) && a.generation == b.generation
    ensures IdleThroughout(history, from, until, history[VisibleAt(history, until)].snapshot)
  {
    hide VisibleAt, Timeline;
    SameThroughout(history, from, until);
  }

  lemma NothingNew(history: seq<Publication>, from: int, until: int)
    requires Timeline(history) && from <= until
    requires IdleThroughout(history, from, until, history[VisibleAt(history, from)].snapshot)
    ensures Idle(history[VisibleAt(history, from)].snapshot)
    ensures history[VisibleAt(history, until)].snapshot == history[VisibleAt(history, from)].snapshot
    ensures VisibleAt(history, from) + 1 < |history| ==> history[VisibleAt(history, from) + 1].at > until
  {
    var seen := VisibleAt(history, from);
    if seen + 1 < |history| && history[seen + 1].at <= until {
      ShowsAnother(history, from, history[seen + 1].at);
      assert false;
    }
  }

  lemma ShowsAnother(history: seq<Publication>, now: int, later: int)
    requires Timeline(history) && VisibleAt(history, now) + 1 < |history|
    requires history[VisibleAt(history, now) + 1].at <= later
    ensures history[VisibleAt(history, now) + 1].at > now
    ensures history[VisibleAt(history, later)].snapshot != history[VisibleAt(history, now)].snapshot
  {
    hide VisibleAt;
    NextIsLater(history, now);
  }

  lemma NextIsLater(history: seq<Publication>, now: int)
    requires Timeline(history) && VisibleAt(history, now) + 1 < |history|
    ensures var next := VisibleAt(history, now) + 1;
            && history[next].at > now
            && forall later :: later >= history[next].at ==> VisibleAt(history, later) >= next
  {
    var next := VisibleAt(history, now) + 1;
    forall later | later >= history[next].at ensures VisibleAt(history, later) >= next {
      LastIsLast(history, later, |history| - 1, next);
    }
    LastIsLast(history, now, |history| - 1, next);
  }

  lemma {:induction false} LastIsLast(history: seq<Publication>, now: int, n: nat, k: nat)
    requires k <= n < |history|
    ensures history[k].at <= now ==> LastBy(history, now, n) >= k
  {
    if n > k && history[n].at > now {
      LastIsLast(history, now, n - 1, k);
    }
  }

  lemma SamePlace(history: seq<Publication>, i: nat, j: nat)
    requires Timeline(history) && i <= j < |history|
    requires history[i].snapshot.generation == history[j].snapshot.generation
    ensures i == j
  {
  }

  /** Equal generations at both ends of an interval mean that nothing was published in between. */
  lemma SameThroughout(history: seq<Publication>, from: int, until: int)
    requires Timeline(history) && from <= until
    requires history[VisibleAt(history, from)].snapshot.generation == history[VisibleAt(history, until)].snapshot.generation
    ensures forall t :: from <= t <= until ==> VisibleAt(history, t) == VisibleAt(history, from)
  {
    var i, j := VisibleAt(history, from), VisibleAt(history, until);
    VisibleGrows(history, from, until);
    SamePlace(history, i, j);
    forall t | from <= t <= until ensures VisibleAt(history, t) == i {
      VisibleGrows(history, from, t);
      VisibleGrows(history, t, until);
    }
  }

  // ---------- the idle branch of the backend ----------

  datatype Verdict = Exit | Rearm

  /** The conditions of the idle exit; `waiting` are the connections queued on the socket at each of the two looks. */
  predicate Exits(deadline: ActivitySnapshot, waitingBefore: seq<u64>, before: ActivitySnapshot, flushed: bool,
                  after: ActivitySnapshot, waitingAfter: seq<u64>)
  {
    waitingBefore == [] && before == deadline && flushed && after == deadline && waitingAfter == [] && Idle(deadline)
  }

  /** Accepts one connection if one is queued, without waiting for it. */
  method AcceptQueued(waiting: seq<u64>) returns (accepted: seq<u64>)
    ensures accepted == if waiting == [] then [] else [waiting[0]]
  {
    return if |waiting| > 0 then waiting[..1] else [];
  }

  /**
    What the backend does when the deadline passes. A connection already queued on the socket is accepted
    and counts as activity; the generation is compared before the flush and again after it.
   */
  method IdleBranch(deadline: ActivitySnapshot, waitingBefore: seq<u64>, before: ActivitySnapshot, flushed: bool,
                    after: ActivitySnapshot, waitingAfter: seq<u64>) returns (verdict: Verdict, accepted: seq<u64>)
    ensures verdict == Exit <==> Exits(deadline, waitingBefore, before, flushed, after, waitingAfter)
    ensures |accepted| <= 1 && (verdict == Exit ==> accepted == [])
    ensures waitingBefore != [] ==> accepted == [waitingBefore[0]]
    ensures waitingBefore == [] && before == deadline && Idle(deadline) && flushed && after == deadline && waitingAfter != [] ==>
      accepted == [waitingAfter[0]]
  {
    accepted := AcceptQueued(waitingBefore);
    if accepted != [] {
      return Rearm, accepted;
    }
    if !SameIdleGeneration(before, deadline) {
      return Rearm, [];
    }
    if !flushed || !SameIdleGeneration(after, deadline) {
      return Rearm, [];
    }
    accepted := AcceptQueued(waitingAfter);
    if accepted != [] {
      return Rearm, accepted;
    }
    return Exit, [];
  }

  predicate SameIdleGeneration(current: ActivitySnapshot, expected: ActivitySnapshot) {
    && current == expected
    && expected.connections == 0 && expected.activeRuns == 0 && expected.runningJobs == 0 && expected.titleTasks == 0
  }

  /**
    The exit is taken only if the backend has been idle from the start of the deadline until after the
    flush: nothing happened during the flush either, because the generation would show it.
   */
  lemma ExitMeansIdleThroughFlush(history: seq<Publication>, d: Deadline, before: int, after: int)
    requires Timeline(history) && d.from <= d.until <= before <= after
    requires IdleThroughout(history, d.from, d.until, d.snapshot)
    requires history[VisibleAt(history, after)].snapshot == d.snapshot
    ensures IdleThroughout(history, d.from, after, d.snapshot)
    ensures history[VisibleAt(history, before)].snapshot == d.snapshot
  {
    assert history[VisibleAt(history, d.from)].snapshot == d.snapshot;
    SameThroughout(history, d.from, after);
  }
}
