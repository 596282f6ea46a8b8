/** The worker counters of internal/monitoring/metrics.go: integers kept beside maps whose
    sizes they should equal. Workers are identified by their number. */
module Metrics {
  import opened Tasks

  datatype Activity = Idle | Busy

  datatype WorkerStats = WorkerStats(
    state: Activity,
    completed: int,
    failed: int,
    totalIdle: int,
    totalBusy: int,
    lastIdleStart: int,
    lastBusyStart: int)

  datatype Gauges = Gauges(
    active: int,
    idle: int,
    busy: int,
    lastIdle: map<nat, int>,
    stats: map<nat, WorkerStats>,
    processed: int)

  const NO_GAUGES := Gauges(0, 0, 0, map[], map[], 0)

  // ------------------------------------------------- the updates as functions

  function Registered(g: Gauges, id: nat, now: int): Gauges {
    g.(active := g.active + 1, idle := g.idle + 1,
       stats := g.stats[id := WorkerStats(Idle, 0, 0, 0, 0, now, 0)],
       lastIdle := g.lastIdle[id := now])
  }

  function Unregistered(g: Gauges, id: nat): Gauges {
    g.(active := g.active - 1,
       idle := if id in g.lastIdle then g.idle - 1 else g.idle,
       busy := if id in g.lastIdle then g.busy else g.busy - 1,
       lastIdle := g.lastIdle - {id},
       stats := g.stats - {id})
  }

  function MarkedBusy(g: Gauges, id: nat, now: int): Gauges {
    if id !in g.lastIdle then g
    else
      var g1 := g.(idle := g.idle - 1, busy := g.busy + 1, lastIdle := g.lastIdle - {id});
      if id !in g.stats then g1
      else
        var st := g.stats[id];
        g1.(stats := g.stats[id := st.(totalIdle := st.totalIdle + now - st.lastIdleStart,
                                       state := Busy, lastBusyStart := now)])
  }

  function MarkedIdle(g: Gauges, id: nat, now: int): Gauges {
    if id in g.lastIdle then g
    else
      var g1 := g.(idle := g.idle + 1, busy := g.busy - 1, lastIdle := g.lastIdle[id := now]);
      if id !in g.stats then g1
      else
        var st := g.stats[id];
        g1.(stats := g.stats[id := st.(totalBusy := st.totalBusy + now - st.lastBusyStart,
                                       state := Idle, lastIdleStart := now)])
  }

  function TaskRecorded(g: Gauges): Gauges { g.(processed := g.processed + 1) }

  function WorkerTaskRecorded(g: Gauges, id: nat, success: bool): Gauges {
    if id !in g.stats then g
    else if success then g.(stats := g.stats[id := g.stats[id].(completed := g.stats[id].completed + 1)])
    else g.(stats := g.stats[id := g.stats[id].(failed := g.stats[id].failed + 1)])
  }

  // --------------------------------------------------------- counters and sets

  /** The counters are the sizes of the maps, and each worker's state says which it is in. */
  ghost predicate Agree(g: Gauges) {
    && g.lastIdle.Keys <= g.stats.Keys
    && g.active == |g.stats| && g.idle == |g.lastIdle| && g.busy == |g.stats| - |g.lastIdle|
    && forall id :: id in g.stats ==> (g.stats[id].state == Idle <==> id in g.lastIdle)
  }

  /** Registering keeps the counters right exactly when the worker is not yet registered. */
  lemma RegisterKeepsAgree(g: Gauges, id: nat, now: int)
    requires Agree(g)
    ensures Agree(Registered(g, id, now)) <==> id !in g.stats
  {
  }

  /** Unregistering keeps them right exactly when the worker is registered. */
  lemma UnregisterKeepsAgree(g: Gauges, id: nat)
    requires Agree(g)
    ensures Agree(Unregistered(g, id)) <==> id in g.stats
  {
  }

  lemma MarkBusyKeepsAgree(g: Gauges, id: nat, now: int)
    requires Agree(g)
    ensures Agree(MarkedBusy(g, id, now))
  {
  }

  /** Marking idle keeps them right exactly when the worker is registered. */
  lemma MarkIdleKeepsAgree(g: Gauges, id: nat, now: int)
    requires Agree(g)
    ensures Agree(MarkedIdle(g, id, now)) <==> id in g.stats
  {
  }

  lemma RecordKeepsAgree(g: Gauges, id: nat, success: bool)
    requires Agree(g)
    ensures Agree(WorkerTaskRecorded(g, id, success)) && Agree(TaskRecorded(g))
  {
  }

  datatype Update =
    | Register(id: nat, now: int)
    | Unregister(id: nat)
    | MarkBusy(id: nat, now: int)
    | MarkIdle(id: nat, now: int)
    | RecordTask
    | ResetAll
    | RecordWorkerTask(id: nat, success: bool)

  function Updated(g: Gauges, u: Update): Gauges {
    match u
    case Register(id, now) => Registered(g, id, now)
    case Unregister(id) => Unregistered(g, id)
    case MarkBusy(id, now) => MarkedBusy(g, id, now)
    case MarkIdle(id, now) => MarkedIdle(g, id, now)
    case RecordTask => TaskRecorded(g)
    case ResetAll => NO_GAUGES
    case RecordWorkerTask(id, success) => WorkerTaskRecorded(g, id, success)
  }

  function AllUpdated(g: Gauges, us: seq<Update>): Gauges
    decreases |us|
  {
    if us == [] then g else AllUpdated(Updated(g, us[0]), us[1..])
  }

  /** Register new workers, unregister and mark idle registered ones. */
  predicate Disciplined(g: Gauges, us: seq<Update>)
    decreases |us|
  {
    us == [] ||
    (&& (us[0].Register? ==> us[0].id !in g.stats)
     && (us[0].Unregister? || us[0].MarkIdle? ==> us[0].id in g.stats)
     && Disciplined(Updated(g, us[0]), us[1..]))
  }

  /** Every disciplined sequence of calls keeps counters and sets in agreement. */
  lemma {:induction false} DisciplineKeepsAgree(g: Gauges, us: seq<Update>)
    requires Agree(g) && Disciplined(g, us)
    ensures Agree(AllUpdated(g, us))
    decreases |us|
  {
    if us != [] {
      match us[0] {
        case Register(id, now) => RegisterKeepsAgree(g, id, now);
        case Unregister(id) => UnregisterKeepsAgree(g, id);
        case MarkBusy(id, now) => MarkBusyKeepsAgree(g, id, now);
        case MarkIdle(id, now) => MarkIdleKeepsAgree(g, id, now);
        case RecordTask =>
        case ResetAll =>
        case RecordWorkerTask(id, success) => RecordKeepsAgree(g, id, success);
      }
      DisciplineKeepsAgree(Updated(g, us[0]), us[1..]);
    }
  }

  /** active = idle + busy survives any sequence of calls at all, unknown or repeated
      identifiers included. */
  lemma {:induction false} BalanceAlways(g: Gauges, us: seq<Update>)
    requires g.active == g.idle + g.busy
    ensures AllUpdated(g, us).active == AllUpdated(g, us).idle + AllUpdated(g, us).busy
    decreases |us|
  {
    if us != [] { BalanceAlways(Updated(g, us[0]), us[1..]); }
  }

  // ---------------------------------------------------- what the stamps mean

  /** Since when worker id is idle, by the history of calls: the time of its latest Register, or
      of its latest MarkIdle that found it not idle, unless it was marked busy, unregistered or
      everything reset since. */
  function IdleSince(us: seq<Update>, id: nat): Option<int> {
    if us == [] then None
    else
      var before := IdleSince(us[..|us| - 1], id);
      match us[|us| - 1]
      case Register(i, now) => if i == id then Some(now) else before
      case MarkIdle(i, now) => if i == id && before.None? then Some(now) else before
      case MarkBusy(i, _) => if i == id then None else before
      case Unregister(i) => if i == id then None else before
      case ResetAll => None
      case _ => before
  }

  lemma {:induction false} UpdatedLast(g: Gauges, us: seq<Update>)
    requires us != []
    ensures AllUpdated(g, us) == Updated(AllUpdated(g, us[..|us| - 1]), us[|us| - 1])
    decreases |us|
  {
    if |us| > 1 {
      UpdatedLast(Updated(g, us[0]), us[1..]);
      assert us[1..][..|us| - 2] == us[..|us| - 1][1..];
    }
  }

  /** For every sequence of calls, the idle stamps are exactly those times. */
  lemma {:induction false} StampsAreIdleTimes(us: seq<Update>, id: nat)
    ensures var lastIdle := AllUpdated(NO_GAUGES, us).lastIdle;
      IdleSince(us, id) == if id in lastIdle then Some(lastIdle[id]) else None
  {
    if us != [] {
      UpdatedLast(NO_GAUGES, us);
      StampsAreIdleTimes(us[..|us| - 1], id);
    }
  }

  /** No Register and no MarkIdle happened before t. */
  predicate NobodyIdleBefore(us: seq<Update>, t: int) {
    forall i :: 0 <= i < |us| && (us[i].Register? || us[i].MarkIdle?) ==> us[i].now >= t
  }

  lemma {:induction false} IdleSinceWithin(us: seq<Update>, id: nat, t: int)
    requires NobodyIdleBefore(us, t) && IdleSince(us, id).Some?
    ensures IdleSince(us, id).value >= t
  {
    if IdleSince(us[..|us| - 1], id).Some? {
      IdleSinceWithin(us[..|us| - 1], id, t);
    }
  }

  /** So the reported oldest idle time never exceeds the time since the first of these calls. */
  lemma {:induction false} OldestIdleIsReal(us: seq<Update>, t: int, now: int, d: int)
    requires NobodyIdleBefore(us, t) && t <= now && IsOldestIdle(AllUpdated(NO_GAUGES, us).lastIdle, now, d)
    ensures d <= now - t
  {
    var lastIdle := AllUpdated(NO_GAUGES, us).lastIdle;
    if lastIdle != map[] {
      var id :| id in lastIdle && d == now - lastIdle[id];
      StampsAreIdleTimes(us, id);
      IdleSinceWithin(us, id, t);
    }
  }

  /** When worker id was last registered. */
  function RegisteredAt(us: seq<Update>, id: nat): int {
    if us == [] then 0
    else if us[|us| - 1].Register? && us[|us| - 1].id == id then us[|us| - 1].now
    else RegisteredAt(us[..|us| - 1], id)
  }

  /** The times of a worker registered at `start` add up: all of them since then, until its
      current spell of idleness or work began. */
  predicate Accounted(st: WorkerStats, start: int) {
    st.totalIdle + st.totalBusy == (if st.state == Idle then st.lastIdleStart else st.lastBusyStart) - start
  }

  lemma {:induction false} DisciplinedPrefix(g: Gauges, us: seq<Update>)
    requires us != [] && Disciplined(g, us)
    ensures Disciplined(g, us[..|us| - 1])
    ensures Disciplined(AllUpdated(g, us[..|us| - 1]), [us[|us| - 1]])
    decreases |us|
  {
    if |us| > 1 {
      DisciplinedPrefix(Updated(g, us[0]), us[1..]);
      assert us[1..][..|us| - 2] == us[..|us| - 1][1..];
    } else {
      assert us[..|us| - 1] == [] && [us[|us| - 1]] == us;
    }
  }

  lemma UpdateKeepsTime(g: Gauges, u: Update, id: nat, start: int)
    requires Agree(g) && id in Updated(g, u).stats && (id in g.stats ==> Accounted(g.stats[id], start))
    ensures Accounted(Updated(g, u).stats[id], if u.Register? && u.id == id then u.now else start)
  {
  }

  /** Under the discipline no time of a worker is lost or counted twice: idle and busy time and
      the current spell make up its life since registration. */
  lemma {:induction false} TimeIsAccounted(us: seq<Update>, id: nat)
    requires Disciplined(NO_GAUGES, us) && id in AllUpdated(NO_GAUGES, us).stats
    ensures Accounted(AllUpdated(NO_GAUGES, us).stats[id], RegisteredAt(us, id))
  {
    var before, last := us[..|us| - 1], us[|us| - 1];
    DisciplinedPrefix(NO_GAUGES, us);
    UpdatedLast(NO_GAUGES, us);
    var g := AllUpdated(NO_GAUGES, before);
    DisciplineKeepsAgree(NO_GAUGES, before);
    if id in g.stats {
      TimeIsAccounted(before, id);
    }
    UpdateKeepsTime(g, last, id, RegisteredAt(before, id));
  }

  // ------------------------------------------------ what no discipline can break

  predicate MarksNobodyBusy(us: seq<Update>) {
    forall i :: 0 <= i < |us| ==> !us[i].MarkBusy?
  }

  /** As long as nobody calls MarkWorkerBusy, every registered worker counts as idle. */
  lemma {:induction false} EverybodyIdle(g: Gauges, us: seq<Update>)
    requires Agree(g) && g.busy == 0 && Disciplined(g, us) && MarksNobodyBusy(us)
    ensures AllUpdated(g, us).busy == 0 && AllUpdated(g, us).idle == AllUpdated(g, us).active
    decreases |us|
  {
    if us != [] {
      assert Disciplined(g, [us[0]]);
      assert [us[0]][1..] == [];
      DisciplineKeepsAgree(g, [us[0]]);
      AllAreIdle(g);
      EverybodyIdle(Updated(g, us[0]), us[1..]);
    }
  }

  lemma AllAreIdle(g: Gauges)
    requires Agree(g) && g.busy == 0
    ensures g.lastIdle.Keys == g.stats.Keys
  {
    var rest := g.stats.Keys - g.lastIdle.Keys;
    assert g.stats.Keys == g.lastIdle.Keys + rest;
    assert |g.stats.Keys| == |g.lastIdle.Keys| + |rest|;
    assert |g.stats.Keys| == |g.stats| && |g.lastIdle.Keys| == |g.lastIdle|;
  }

  /** idle never falls below the number of idle stamps, so it is never negative, after any
      sequence of calls at all. */
  lemma {:induction false} IdleCoversStamps(g: Gauges, us: seq<Update>)
    requires g.idle >= |g.lastIdle|
    ensures AllUpdated(g, us).idle >= |AllUpdated(g, us).lastIdle|
    decreases |us|
  {
    if us != [] {
      UpdateCoversStamps(g, us[0]);
      IdleCoversStamps(Updated(g, us[0]), us[1..]);
    }
  }

  lemma UpdateCoversStamps(g: Gauges, u: Update)
    requires g.idle >= |g.lastIdle|
    ensures Updated(g, u).idle >= |Updated(g, u).lastIdle|
  {
  }

  /** What Snapshot can report as the number of idle workers, from a new collector on. */
  lemma {:induction false} IdleIsNeverNegative(us: seq<Update>)
    ensures AllUpdated(NO_GAUGES, us).idle >= 0
  {
    IdleCoversStamps(NO_GAUGES, us);
  }

  /** d is how long the longest-idle worker has been idle, 0 if no worker is idle. */
  ghost predicate IsOldestIdle(lastIdle: map<nat, int>, now: int, d: int) {
    && (lastIdle == map[] ==> d == 0)
    && (lastIdle != map[] ==> exists id :: id in lastIdle && d == now - lastIdle[id])
    && (forall id :: id in lastIdle ==> d >= now - lastIdle[id])
  }

  lemma IdleWithinActive(g: Gauges)
    requires Agree(g)
    ensures 0 <= g.idle <= g.active
  {
    var rest := g.stats.Keys - g.lastIdle.Keys;
    assert g.stats.Keys == g.lastIdle.Keys + rest;
    assert |g.stats.Keys| == |g.lastIdle.Keys| + |rest|;
    assert |g.stats.Keys| == |g.stats| && |g.lastIdle.Keys| == |g.lastIdle|;
  }

  // ------------------------------------------------------------------ the class

  class Collector {
    var activeWorkers: int
    var idleWorkers: int
    var busyWorkers: int
    var workerLastIdle: map<nat, int>
    var workerStats: map<nat, WorkerStats>
    var tasksProcessed: int

    function View(): Gauges
      reads this
    {
      Gauges(activeWorkers, idleWorkers, busyWorkers, workerLastIdle, workerStats, tasksProcessed)
    }

    constructor ()
      ensures View() == NO_GAUGES
    {
      activeWorkers, idleWorkers, busyWorkers := 0, 0, 0;
      workerLastIdle, workerStats := map[], map[];
      tasksProcessed := 0;
    }

    method RegisterWorker(id: nat, now: int)
      modifies this
      ensures View() == Registered(old(View()), id, now)
    {
      activeWorkers := activeWorkers + 1;
      idleWorkers := idleWorkers + 1;
      workerStats := workerStats[id := WorkerStats(Idle, 0, 0, 0, 0, now, 0)];
      workerLastIdle := workerLastIdle[id := now];
    }

    method UnregisterWorker(id: nat)
      modifies this
      ensures View() == Unregistered(old(View()), id)
    {
      if id in workerLastIdle {
        idleWorkers := idleWorkers - 1;
      } else {
        busyWorkers := busyWorkers - 1;
      }
      activeWorkers := activeWorkers - 1;
      workerLastIdle := workerLastIdle - {id};
      workerStats := workerStats - {id};
    }

    method MarkWorkerBusy(id: nat, now: int)
      modifies this
      ensures View() == MarkedBusy(old(View()), id, now)
    {
      if id in workerLastIdle {
        if id in workerStats {
          var st := workerStats[id];
          workerStats := workerStats[id := st.(totalIdle := st.totalIdle + now - st.lastIdleStart,
                                               state := Busy, lastBusyStart := now)];
        }
        workerLastIdle := workerLastIdle - {id};
        idleWorkers := idleWorkers - 1;
        busyWorkers := busyWorkers + 1;
      }
    }

    method MarkWorkerIdle(id: nat, now: int)
      modifies this
      ensures View() == MarkedIdle(old(View()), id, now)
    {
      if id !in workerLastIdle {
        workerLastIdle := workerLastIdle[id := now];
        if id in workerStats {
          var st := workerStats[id];
          workerStats := workerStats[id := st.(totalBusy := st.totalBusy + now - st.lastBusyStart,
                                               state := Idle, lastIdleStart := now)];
        }
        busyWorkers := busyWorkers - 1;
        idleWorkers := idleWorkers + 1;
      }
    }

    method Reset()
      modifies this
      ensures View() == NO_GAUGES
    {
      activeWorkers, idleWorkers, busyWorkers := 0, 0, 0;
      tasksProcessed := 0;
      workerLastIdle, workerStats := map[], map[];
    }

    method RecordTaskCompleted()
      modifies this
      ensures View() == TaskRecorded(old(View()))
    {
      tasksProcessed := tasksProcessed + 1;
    }

    method RecordWorkerTaskCompleted(id: nat, success: bool)
      modifies this
      ensures View() == WorkerTaskRecorded(old(View()), id, success)
    {
      if id in workerStats {
        var st := workerStats[id];
        if success {
          workerStats := workerStats[id := st.(completed := st.completed + 1)];
        } else {
          workerStats := workerStats[id := st.(failed := st.failed + 1)];
        }
      }
    }

    method OldestIdleTime(now: int) returns (d: int)
      ensures IsOldestIdle(workerLastIdle, now, d)
    {
      if workerLastIdle == map[] { return 0; }
      var todo := workerLastIdle.Keys;
      var first :| first in todo;
      var oldest := workerLastIdle[first];
      todo := todo - {first};
      while todo != {}
        invariant todo <= workerLastIdle.Keys
        invariant exists id :: id in workerLastIdle && oldest == workerLastIdle[id]
        invariant forall id :: id in workerLastIdle && id !in todo ==> oldest <= workerLastIdle[id]
        decreases |todo|
      {
        var id :| id in todo;
        todo := todo - {id};
        if workerLastIdle[id] < oldest { oldest := workerLastIdle[id]; }
      }
      d := now - oldest;
    }
  }
}
