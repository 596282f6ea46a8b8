/** InstrumentedWorker (internal/worker/instrumented.go): a periodic step pushes the growth
    of a worker's own counters into the shared metrics. */
module Instrumented {
  import opened Metrics

  /** `total` more tasks processed, `completed` and `failed` of them recorded for worker id. */
  function Recorded(g: Gauges, id: nat, total: nat, completed: nat, failed: nat): Gauges {
    var g1 := g.(processed := g.processed + total);
    if id !in g.stats then g1
    else g1.(stats := g.stats[id := g.stats[id].(completed := g.stats[id].completed + completed,
                                                 failed := g.stats[id].failed + failed)])
  }

  function Pushed(g: Gauges, id: nat, completed: nat, failed: nat): Gauges {
    Recorded(g, id, completed, completed, failed)
  }

  /** A sync step after some growth: push it and mark the worker idle. */
  function Synced(g: Gauges, id: nat, completed: nat, failed: nat, now: int): Gauges {
    MarkedIdle(Pushed(g, id, completed, failed), id, now)
  }

  /** How often a loop from `last` up to `count` runs. */
  function Growth(last: nat, count: nat): nat { if count > last then count - last else 0 }

  class Wrapper {
    const id: nat
    const metrics: Collector
    var lastProcessed: nat
    var lastFailed: nat

    constructor (workerId: nat, m: Collector)
      ensures id == workerId && metrics == m && lastProcessed == lastFailed == 0
    {
      id, metrics := workerId, m;
      lastProcessed, lastFailed := 0, 0;
    }

    /** The body of syncStatsLoop, given the worker's counters and whether it is running. */
    method Sync(processed: nat, failed: nat, running: bool, now: int)
      modifies this, metrics
      ensures var grown := running && (processed > old(lastProcessed) || failed > old(lastFailed));
        && lastProcessed == (if grown then processed else old(lastProcessed))
        && lastFailed == (if grown then failed else old(lastFailed))
        && metrics.View() == (if !grown then old(metrics.View()) else
             Synced(old(metrics.View()), id, Growth(old(lastProcessed), processed), Growth(old(lastFailed), failed),
                    now))
    {
      if running {
        var newTasks := processed - lastProcessed;
        var newFailures := failed - lastFailed;
        if newTasks > 0 || newFailures > 0 {
          for i := 0 to Growth(lastProcessed, processed)
            invariant metrics.View() == Pushed(old(metrics.View()), id, i, 0)
            invariant lastProcessed == old(lastProcessed) && lastFailed == old(lastFailed)
          {
            metrics.RecordTaskCompleted();
            metrics.RecordWorkerTaskCompleted(id, true);
          }
          for i := 0 to Growth(lastFailed, failed)
            invariant metrics.View() == Pushed(old(metrics.View()), id, Growth(old(lastProcessed), processed), i)
            invariant lastProcessed == old(lastProcessed) && lastFailed == old(lastFailed)
          {
            metrics.RecordWorkerTaskCompleted(id, false);
          }
          lastProcessed := processed;
          lastFailed := failed;
          metrics.MarkWorkerIdle(id, now);
        }
      }
    }
  }

  // --------------------------------------------------------------- interleaving

  /** Where the sync goroutine stands: between ticks; after reading the worker's counters;
      past the running check, with `done` tasks and `undone` failures pushed, `counted` when
      the next task is in the global counter but not yet in the worker's; about to remember
      what it pushed; about to mark the worker idle. */
  datatype SyncPc =
    | Waiting
    | Read(processed: nat, failed: nat)
    | Push(processed: nat, failed: nat, done: nat, counted: bool, undone: nat)
    | Remember(processed: nat, failed: nat)
    | Marking

  /** Stop: halt the worker, then unregister it. */
  datatype Phase = Fresh | Enrolled | Running | Halted | Gone

  /** An instrumented worker: the worker's own counters, what has been pushed, the sync
      goroutine. `overtaken` records that Stop unregistered the worker while a sync was past
      its running check; no step reads it. */
  datatype Unit = Unit(
    phase: Phase,
    processed: nat,
    failed: nat,
    lastProcessed: nat,
    lastFailed: nat,
    sync: SyncPc,
    overtaken: bool)

  const NEW_UNIT := Unit(Fresh, 0, 0, 0, 0, Waiting, false)

  /** Unit i is the worker with number i. */
  datatype System = System(units: seq<Unit>, gauges: Gauges)

  datatype Action =
    | Create
    | Enrol(i: nat, now: int)
    | Launch(i: nat)
    | Finish(i: nat, success: bool)
    | TaskTaken(i: nat, now: int)
    | Tick(i: nat)
    | SyncStep(i: nat, now: int)
    | Halt(i: nat)
    | Retire(i: nat)

  predicate Enabled(y: System, a: Action) {
    a.Create? ||
    (a.i < |y.units| && match a
     case Enrol(i, _) => y.units[i].phase == Fresh
     case Launch(i) => y.units[i].phase == Enrolled
     case Finish(i, _) => y.units[i].phase != Fresh
     case TaskTaken(i, _) => y.units[i].phase == Running || y.units[i].phase == Halted
     case Tick(i) => y.units[i].phase != Fresh && y.units[i].sync == Waiting
     case SyncStep(i, _) => y.units[i].sync != Waiting
     case Halt(i) => y.units[i].phase == Enrolled || y.units[i].phase == Running
     case Retire(i) => y.units[i].phase == Halted)
  }

  predicate PastCheck(pc: SyncPc) { pc.Push? || pc.Remember? || pc.Marking? }

  /** The sync goroutine's own fields after its next step. */
  function SyncedUnit(u: Unit): Unit {
    match u.sync
    case Waiting => u
    case Read(p, f) =>
      if u.phase == Running && (p > u.lastProcessed || f > u.lastFailed) then u.(sync := Push(p, f, 0, false, 0))
      else u.(sync := Waiting)
    case Push(p, f, done, counted, undone) =>
      if done < Growth(u.lastProcessed, p) then
        u.(sync := if counted then Push(p, f, done + 1, false, undone) else Push(p, f, done, true, undone))
      else if undone < Growth(u.lastFailed, f) then u.(sync := Push(p, f, done, counted, undone + 1))
      else u.(sync := Remember(p, f))
    case Remember(p, f) => u.(lastProcessed := p, lastFailed := f, sync := Marking)
    case Marking => u.(sync := Waiting)
  }

  /** The metrics after the sync goroutine's next step. */
  function SyncedGauges(g: Gauges, u: Unit, i: nat, now: int): Gauges {
    match u.sync
    case Push(p, f, done, counted, undone) =>
      if done < Growth(u.lastProcessed, p) then
        if counted then WorkerTaskRecorded(g, i, true) else TaskRecorded(g)
      else if undone < Growth(u.lastFailed, f) then WorkerTaskRecorded(g, i, false)
      else g
    case Marking => MarkedIdle(g, i, now)
    case _ => g
  }

  /** What an action does to the unit it concerns. */
  function StepUnit(u: Unit, a: Action): Unit {
    match a
    case Create => u
    case Enrol(_, _) => u.(phase := Enrolled)
    case Launch(_) => u.(phase := Running)
    case Finish(_, success) => if success then u.(processed := u.processed + 1) else u.(failed := u.failed + 1)
    case TaskTaken(_, _) => u
    case Tick(_) => u.(sync := Read(u.processed, u.failed))
    case SyncStep(_, _) => SyncedUnit(u)
    case Halt(_) => u.(phase := Halted)
    case Retire(_) => u.(phase := Gone, overtaken := PastCheck(u.sync))
  }

  /** What it does to the metrics: at most one call of the collector. */
  function StepGauges(g: Gauges, u: Unit, a: Action): Gauges {
    match a
    case Enrol(i, now) => Registered(g, i, now)
    case TaskTaken(i, now) => MarkedBusy(g, i, now)
    case SyncStep(i, now) => SyncedGauges(g, u, i, now)
    case Retire(i) => Unregistered(g, i)
    case _ => g
  }

  function Apply(y: System, a: Action): System
    requires Enabled(y, a)
  {
    if a.Create? then y.(units := y.units + [NEW_UNIT])
    else System(y.units[a.i := StepUnit(y.units[a.i], a)], StepGauges(y.gauges, y.units[a.i], a))
  }

  predicate Legal(y: System, actions: seq<Action>)
    decreases |actions|
  {
    actions == [] || (Enabled(y, actions[0]) && Legal(Apply(y, actions[0]), actions[1..]))
  }

  function Run(y: System, actions: seq<Action>): System
    requires Legal(y, actions)
    decreases |actions|
  {
    if actions == [] then y else Run(Apply(y, actions[0]), actions[1..])
  }

  // ------------------------------------------------- a sync that nothing disturbs

  function StepsLeft(u: Unit): nat {
    match u.sync
    case Waiting => 0
    case Read(p, f) => 2 * Growth(u.lastProcessed, p) + Growth(u.lastFailed, f) + 5
    case Push(p, f, done, counted, undone) =>
      2 * Growth(done, Growth(u.lastProcessed, p)) + (if counted then 0 else 1)
      + Growth(undone, Growth(u.lastFailed, f)) + 3
    case Remember(_, _) => 2
    case Marking => 1
  }

  /** What a sync leaves behind. */
  datatype Left = Left(gauges: Gauges, unit: Unit)

  /** The sync in progress of worker i runs to its end with nobody else moving. */
  function Undisturbed(g: Gauges, u: Unit, i: nat, now: int): Left
    decreases StepsLeft(u)
  {
    if u.sync == Waiting then Left(g, u) else Undisturbed(SyncedGauges(g, u, i, now), SyncedUnit(u), i, now)
  }

  lemma RecordedFirst(g: Gauges, i: nat, total: nat, completed: nat, failed: nat)
    ensures Recorded(TaskRecorded(g), i, total, completed, failed) == Recorded(g, i, total + 1, completed, failed)
    ensures Recorded(WorkerTaskRecorded(g, i, true), i, total, completed, failed)
      == Recorded(g, i, total, completed + 1, failed)
    ensures Recorded(WorkerTaskRecorded(g, i, false), i, total, completed, failed)
      == Recorded(g, i, total, completed, failed + 1)
  {
  }

  lemma {:induction false} EndsAlone(g: Gauges, u: Unit, i: nat, now: int)
    requires u.sync.Push? && SyncedUnit(u).sync.Remember?
    ensures Recorded(g, i, 0, 0, 0) == g
    ensures Undisturbed(g, u, i, now) ==
      Left(MarkedIdle(g, i, now), u.(lastProcessed := u.sync.processed, lastFailed := u.sync.failed, sync := Waiting))
  {
    var last := SyncedUnit(SyncedUnit(u));
    assert Undisturbed(g, last, i, now) == Left(MarkedIdle(g, i, now), SyncedUnit(last));
    assert i in g.stats ==> g.stats[i := g.stats[i]] == g.stats;
  }

  /** The metrics once the pushes still to come are made. */
  function AfterPushes(g: Gauges, u: Unit, i: nat): Gauges
    requires u.sync.Push? && SyncOk(u)
  {
    var pc := u.sync;
    var tasks := pc.processed - u.lastProcessed - pc.done;
    Recorded(g, i, if pc.counted then tasks - 1 else tasks, tasks, pc.failed - u.lastFailed - pc.undone)
  }

  lemma PushIsOneOfThem(g: Gauges, u: Unit, i: nat, now: int)
    requires u.sync.Push? && SyncOk(u) && SyncedUnit(u).sync.Push?
    ensures SyncOk(SyncedUnit(u))
    ensures AfterPushes(SyncedGauges(g, u, i, now), SyncedUnit(u), i) == AfterPushes(g, u, i)
  {
    var next := SyncedUnit(u).sync;
    var tasks := next.processed - u.lastProcessed - next.done;
    RecordedFirst(g, i, if next.counted then tasks - 1 else tasks, tasks, next.failed - u.lastFailed - next.undone);
  }

  lemma {:induction false} PushesAlone(g: Gauges, u: Unit, i: nat, now: int)
    requires u.sync.Push? && SyncOk(u)
    ensures Undisturbed(g, u, i, now) == Left(MarkedIdle(AfterPushes(g, u, i), i, now),
      u.(lastProcessed := u.sync.processed, lastFailed := u.sync.failed, sync := Waiting))
    decreases StepsLeft(u)
  {
    if SyncedUnit(u).sync.Push? {
      PushIsOneOfThem(g, u, i, now);
      PushesAlone(SyncedGauges(g, u, i, now), SyncedUnit(u), i, now);
    } else {
      EndsAlone(g, u, i, now);
    }
  }

  /** Left alone, the steps of a sync do what Wrapper.Sync does as a whole. */
  lemma {:induction false} UndisturbedIsSync(g: Gauges, u: Unit, i: nat, now: int)
    requires u.sync.Read? && SyncOk(u)
    ensures var p, f := u.sync.processed, u.sync.failed;
      var grown := u.phase == Running && (p > u.lastProcessed || f > u.lastFailed);
      Undisturbed(g, u, i, now) ==
        if !grown then Left(g, u.(sync := Waiting))
        else Left(Synced(g, i, Growth(u.lastProcessed, p), Growth(u.lastFailed, f), now),
                  u.(lastProcessed := p, lastFailed := f, sync := Waiting))
  {
    if SyncedUnit(u).sync.Push? {
      PushesAlone(g, SyncedUnit(u), i, now);
    }
  }

  // ------------------------------------------------------ what every run keeps

  /** How many completed tasks of the unit are in the global counter. */
  function InTotal(u: Unit): nat {
    if u.sync.Push? then u.lastProcessed + u.sync.done + (if u.sync.counted then 1 else 0)
    else if u.sync.Remember? then u.sync.processed
    else u.lastProcessed
  }

  /** How many completed, and failed, tasks have been recorded under the worker's number. */
  function Shown(u: Unit): (nat, nat) {
    if u.sync.Push? then (u.lastProcessed + u.sync.done, u.lastFailed + u.sync.undone)
    else if u.sync.Remember? then (u.sync.processed, u.sync.failed)
    else (u.lastProcessed, u.lastFailed)
  }

  function TotalPushed(units: seq<Unit>): nat {
    if units == [] then 0 else TotalPushed(units[..|units| - 1]) + InTotal(units[|units| - 1])
  }

  lemma {:induction false} TotalPushedAfter(units: seq<Unit>, i: nat, u: Unit)
    requires i < |units|
    ensures TotalPushed(units[i := u]) == TotalPushed(units) - InTotal(units[i]) + InTotal(u)
  {
    var last := |units| - 1;
    if i == last {
      assert units[i := u][..last] == units[..last];
    } else {
      assert units[i := u][..last] == units[..last][i := u];
      TotalPushedAfter(units[..last], i, u);
    }
  }

  /** What a sync has read lies between what was pushed before and what the worker has done. */
  predicate SyncOk(u: Unit) {
    && u.lastProcessed <= u.processed && u.lastFailed <= u.failed
    && match u.sync
       case Waiting => true
       case Read(p, f) => u.lastProcessed <= p <= u.processed && u.lastFailed <= f <= u.failed
       case Push(p, f, done, counted, undone) =>
         && u.lastProcessed <= p <= u.processed && u.lastFailed <= f <= u.failed
         && done <= p - u.lastProcessed && undone <= f - u.lastFailed
         && (counted ==> done < p - u.lastProcessed) && (undone > 0 ==> done == p - u.lastProcessed)
       case Remember(p, f) => u.lastProcessed <= p <= u.processed && u.lastFailed <= f <= u.failed
       case Marking => true
  }

  /** The worker is registered from Start until Stop. */
  predicate Tracked(u: Unit) { u.phase == Enrolled || u.phase == Running || u.phase == Halted }

  predicate UnitOk(u: Unit) {
    && SyncOk(u)
    && (u.phase == Fresh ==> u.processed == u.failed == 0 && u.sync == Waiting)
    && (u.overtaken ==> u.phase == Gone)
    && (u.phase == Gone && PastCheck(u.sync) ==> u.overtaken)
  }

  /** What the metrics show of unit i: its pushes while it is registered, and afterwards an
      idle stamp exactly if a sync was overtaken and has ended since. */
  predicate ShownOk(g: Gauges, u: Unit, i: nat) {
    && (Tracked(u) <==> i in g.stats)
    && (Tracked(u) ==> (g.stats[i].completed, g.stats[i].failed) == Shown(u))
    && (Tracked(u) ==> (g.stats[i].state == Idle <==> i in g.lastIdle))
    && (!Tracked(u) ==> (i in g.lastIdle <==> u.overtaken && !PastCheck(u.sync)))
  }

  /** The counters are the sizes of the maps. */
  predicate Sized(g: Gauges) {
    g.active == |g.stats| && g.idle == |g.lastIdle| && g.busy == g.active - g.idle
  }

  ghost predicate Inv(y: System) {
    && y.gauges.processed == TotalPushed(y.units) && Sized(y.gauges)
    && (forall i: nat :: i < |y.units| ==> UnitOk(y.units[i]) && ShownOk(y.gauges, y.units[i], i))
    && (forall i :: i in y.gauges.stats || i in y.gauges.lastIdle ==> i < |y.units|)
  }

  /** Nothing is changed in the maps but the entries of worker i. */
  ghost predicate Concerns(g: Gauges, g': Gauges, i: nat) {
    && (forall j :: j != i ==> (j in g'.stats <==> j in g.stats))
    && (forall j :: j in g.stats && j != i ==> g'.stats[j] == g.stats[j])
    && (forall j :: j != i ==> (j in g'.lastIdle <==> j in g.lastIdle))
  }

  /** One unit moves from u to u' and the metrics from g to g', and all is well with it. */
  ghost predicate Moves(g: Gauges, g': Gauges, u: Unit, u': Unit, i: nat) {
    && UnitOk(u') && ShownOk(g', u', i) && Sized(g') && Concerns(g, g', i)
    && g'.processed == g.processed + InTotal(u') - InTotal(u)
  }

  /** A step that leaves the metrics, the pushes and the registration of its unit alone. */
  predicate Quiet(u: Unit, u': Unit) {
    && UnitOk(u') && Shown(u') == Shown(u) && InTotal(u') == InTotal(u)
    && Tracked(u') == Tracked(u) && u'.overtaken == u.overtaken
    && (Tracked(u) || PastCheck(u'.sync) == PastCheck(u.sync))
  }

  lemma QuietMoves(g: Gauges, u: Unit, u': Unit, i: nat)
    requires ShownOk(g, u, i) && Sized(g) && Quiet(u, u')
    ensures Moves(g, g, u, u', i)
  {
  }

  lemma PushMoves(g: Gauges, u: Unit, i: nat, now: int)
    requires UnitOk(u) && ShownOk(g, u, i) && Sized(g) && u.sync.Push?
    ensures Moves(g, SyncedGauges(g, u, i, now), u, SyncedUnit(u), i)
  {
    var pc := u.sync;
    if pc.done < pc.processed - u.lastProcessed {
      if pc.counted { RecordMoves(g, u, SyncedUnit(u), i, true); }
    } else if pc.undone < pc.failed - u.lastFailed {
      RecordMoves(g, u, SyncedUnit(u), i, false);
    } else {
      QuietMoves(g, u, SyncedUnit(u), i);
    }
  }

  lemma RecordMoves(g: Gauges, u: Unit, u': Unit, i: nat, success: bool)
    requires ShownOk(g, u, i) && Sized(g) && UnitOk(u') && InTotal(u') == InTotal(u)
    requires u'.phase == u.phase && u'.overtaken == u.overtaken && PastCheck(u'.sync) == PastCheck(u.sync)
    requires Shown(u') == if success then (Shown(u).0 + 1, Shown(u).1) else (Shown(u).0, Shown(u).1 + 1)
    ensures Moves(g, WorkerTaskRecorded(g, i, success), u, u', i)
  {
  }

  lemma SyncMoves(g: Gauges, u: Unit, i: nat, now: int)
    requires UnitOk(u) && ShownOk(g, u, i) && Sized(g) && u.sync != Waiting
    ensures Moves(g, SyncedGauges(g, u, i, now), u, SyncedUnit(u), i)
  {
    match u.sync
    case Push(_, _, _, _, _) => PushMoves(g, u, i, now);
    case Marking =>
    case _ => QuietMoves(g, u, SyncedUnit(u), i);
  }

  lemma EnrolMoves(g: Gauges, u: Unit, i: nat, now: int)
    requires UnitOk(u) && ShownOk(g, u, i) && Sized(g) && u.phase == Fresh
    ensures Moves(g, Registered(g, i, now), u, u.(phase := Enrolled), i)
  {
  }

  lemma TakeMoves(g: Gauges, u: Unit, i: nat, now: int)
    requires UnitOk(u) && ShownOk(g, u, i) && Sized(g) && Tracked(u)
    ensures Moves(g, MarkedBusy(g, i, now), u, u, i)
  {
  }

  lemma RetireKeepsSizes(g: Gauges, i: nat)
    requires Sized(g) && i in g.stats
    ensures Sized(Unregistered(g, i))
  {
    assert g.stats.Keys == (g.stats - {i}).Keys + {i};
  }

  lemma RetireMoves(g: Gauges, u: Unit, i: nat)
    requires UnitOk(u) && ShownOk(g, u, i) && Sized(g) && u.phase == Halted
    ensures Moves(g, Unregistered(g, i), u, u.(phase := Gone, overtaken := PastCheck(u.sync)), i)
  {
    RetireKeepsSizes(g, i);
  }

  /** The steps of a worker that touch no metrics. */
  lemma OwnStepsAreQuiet(u: Unit)
    requires UnitOk(u) && u.phase != Fresh
    ensures u.phase == Enrolled ==> Quiet(u, u.(phase := Running))
    ensures u.phase == Enrolled || u.phase == Running ==> Quiet(u, u.(phase := Halted))
    ensures u.sync == Waiting ==> Quiet(u, u.(sync := Read(u.processed, u.failed)))
    ensures Quiet(u, u.(processed := u.processed + 1)) && Quiet(u, u.(failed := u.failed + 1))
  {
  }

  lemma StepMoves(y: System, a: Action, g: Gauges, u: Unit)
    requires Enabled(y, a) && !a.Create? && u == y.units[a.i]
    requires UnitOk(u) && ShownOk(g, u, a.i) && Sized(g)
    ensures Moves(g, StepGauges(g, u, a), u, StepUnit(u, a), a.i)
  {
    if a.Enrol? {
      EnrolMoves(g, u, a.i, a.now);
    } else if a.TaskTaken? {
      TakeMoves(g, u, a.i, a.now);
    } else if a.SyncStep? {
      SyncMoves(g, u, a.i, a.now);
    } else if a.Retire? {
      RetireMoves(g, u, a.i);
    } else {
      OwnStepsAreQuiet(u);
      QuietMoves(g, u, StepUnit(u, a), a.i);
    }
  }

  lemma OthersStay(y: System, y': System, i: nat)
    requires Inv(y) && i < |y.units| == |y'.units| && y'.units == y.units[i := y'.units[i]]
    requires Moves(y.gauges, y'.gauges, y.units[i], y'.units[i], i)
    ensures forall j: nat :: j < |y'.units| ==> UnitOk(y'.units[j]) && ShownOk(y'.gauges, y'.units[j], j)
  {
    forall j: nat | j < |y'.units| ensures UnitOk(y'.units[j]) && ShownOk(y'.gauges, y'.units[j], j) {
      assert UnitOk(y.units[j]) && ShownOk(y.gauges, y.units[j], j);
    }
  }

  lemma {:induction false} MoveKeepsInv(y: System, y': System, i: nat)
    requires Inv(y) && i < |y.units| == |y'.units| && y'.units == y.units[i := y'.units[i]]
    requires Moves(y.gauges, y'.gauges, y.units[i], y'.units[i], i)
    ensures Inv(y')
  {
    TotalPushedAfter(y.units, i, y'.units[i]);
    OthersStay(y, y', i);
  }

  lemma {:induction false} ActionKeepsInv(y: System, a: Action)
    requires Inv(y) && Enabled(y, a)
    ensures Inv(Apply(y, a))
  {
    if a.Create? {
      CreateKeepsInv(y);
    } else {
      assert UnitOk(y.units[a.i]) && ShownOk(y.gauges, y.units[a.i], a.i);
      StepMoves(y, a, y.gauges, y.units[a.i]);
      MoveKeepsInv(y, Apply(y, a), a.i);
    }
  }

  lemma {:induction false} CreateKeepsInv(y: System)
    requires Inv(y)
    ensures Inv(Apply(y, Create))
  {
    assert Apply(y, Create).units[..|y.units|] == y.units;
  }

  const NOTHING := System([], NO_GAUGES)

  lemma {:induction false} RunKeepsInv(y: System, actions: seq<Action>)
    requires Inv(y) && Legal(y, actions)
    ensures Inv(Run(y, actions))
    decreases |actions|
  {
    if actions != [] {
      ActionKeepsInv(y, actions[0]);
      RunKeepsInv(Apply(y, actions[0]), actions[1..]);
    }
  }

  // ---------------------------------------------------------------- main results

  /** No sync is in progress. */
  predicate AtBoundary(y: System) { forall i :: 0 <= i < |y.units| ==> y.units[i].sync == Waiting }

  function TotalRemembered(units: seq<Unit>): nat {
    if units == [] then 0 else TotalRemembered(units[..|units| - 1]) + units[|units| - 1].lastProcessed
  }

  lemma {:induction false} RememberedIsPushed(units: seq<Unit>)
    requires forall i :: 0 <= i < |units| ==> units[i].sync == Waiting
    ensures TotalPushed(units) == TotalRemembered(units)
  {
    if units != [] { RememberedIsPushed(units[..|units| - 1]); }
  }

  /** Nobody has pushed, or remembers to have pushed, more than it did. */
  ghost predicate NothingInvented(y: System) {
    forall i :: 0 <= i < |y.units| ==>
      var u := y.units[i];
      && InTotal(u) <= u.processed && Shown(u).0 <= u.processed && Shown(u).1 <= u.failed
      && u.lastProcessed <= u.processed && u.lastFailed <= u.failed
  }

  /** Every push is counted once: in the global counter and, while registered, per worker. */
  ghost predicate NothingTwice(y: System) {
    && y.gauges.processed == TotalPushed(y.units)
    && forall i: nat :: i < |y.units| && Tracked(y.units[i]) ==>
         i in y.gauges.stats && (y.gauges.stats[i].completed, y.gauges.stats[i].failed) == Shown(y.units[i])
  }

  /** The same at a sync boundary, in terms of what the syncs remember. */
  ghost predicate SettledTotals(y: System) {
    && y.gauges.processed == TotalRemembered(y.units)
    && forall i: nat :: i < |y.units| && Tracked(y.units[i]) ==>
         && i in y.gauges.stats
         && y.gauges.stats[i].completed == y.units[i].lastProcessed && y.gauges.stats[i].failed == y.units[i].lastFailed
  }

  lemma InvIsHonest(y: System)
    requires Inv(y)
    ensures NothingInvented(y) && NothingTwice(y)
    ensures AtBoundary(y) ==> SettledTotals(y)
  {
    forall i: nat | i < |y.units| ensures UnitOk(y.units[i]) && ShownOk(y.gauges, y.units[i], i) {}
    if AtBoundary(y) { RememberedIsPushed(y.units); }
  }

  ghost predicate Reachable(y: System) {
    exists actions :: Legal(NOTHING, actions) && y == Run(NOTHING, actions)
  }

  lemma {:induction false} ReachableHasInv(y: System)
    requires Reachable(y)
    ensures Inv(y)
  {
    var actions :| Legal(NOTHING, actions) && y == Run(NOTHING, actions);
    RunKeepsInv(NOTHING, actions);
  }

  /** Instrumentation neither invents nor double counts, whatever the interleaving of workers
      finishing tasks with the single calls of their syncs, with Start and with Stop: at every
      moment the global counter is the sum of what has been pushed, each registered worker is
      shown with exactly what was pushed for it, nobody has pushed more than it did, and the
      counters are the sizes of the maps. */
  lemma NothingInventedNothingTwice(y: System)
    requires Reachable(y)
    ensures NothingInvented(y) && NothingTwice(y) && Sized(y.gauges)
    ensures AtBoundary(y) ==> SettledTotals(y)
  {
    ReachableHasInv(y);
    InvIsHonest(y);
  }

  ghost predicate NoneOvertaken(y: System) { forall i :: 0 <= i < |y.units| ==> !y.units[i].overtaken }

  lemma NoneOvertakenAgrees(y: System)
    requires Inv(y) && NoneOvertaken(y)
    ensures Agree(y.gauges)
  {
    forall id | id in y.gauges.stats || id in y.gauges.lastIdle
      ensures id in y.gauges.stats && (y.gauges.stats[id].state == Idle <==> id in y.gauges.lastIdle)
    {
      assert UnitOk(y.units[id]) && ShownOk(y.gauges, y.units[id], id);
    }
  }

  /** The idle stamps and the registered workers stay in agreement as long as no Stop has
      unregistered a worker between the running check and the MarkWorkerIdle of a sync in
      progress; and when the syncs have ended, only then. */
  lemma AgreeExactlyIfNotOvertaken(y: System)
    requires Reachable(y)
    ensures NoneOvertaken(y) ==> Agree(y.gauges)
    ensures AtBoundary(y) ==> (Agree(y.gauges) <==> NoneOvertaken(y))
  {
    ReachableHasInv(y);
    if NoneOvertaken(y) {
      NoneOvertakenAgrees(y);
    } else {
      var i: nat :| i < |y.units| && y.units[i].overtaken;
      assert UnitOk(y.units[i]) && ShownOk(y.gauges, y.units[i], i);
    }
  }

  lemma {:induction false} RunOneMore(y: System, actions: seq<Action>, a: Action)
    requires Legal(y, actions) && Enabled(Run(y, actions), a)
    ensures Legal(y, actions + [a]) && Run(y, actions + [a]) == Apply(Run(y, actions), a)
    decreases |actions|
  {
    if actions == [] {
      assert actions + [a] == [a] && [a][1..] == [];
    } else {
      assert (actions + [a])[1..] == actions[1..] + [a];
      RunOneMore(Apply(y, actions[0]), actions[1..], a);
    }
  }

  lemma Next(y: System, a: Action) returns (y': System)
    requires Reachable(y) && Enabled(y, a)
    ensures Reachable(y') && y' == Apply(y, a)
  {
    var actions :| Legal(NOTHING, actions) && y == Run(NOTHING, actions);
    RunOneMore(NOTHING, actions, a);
    y' := Apply(y, a);
  }

  /** A worker that has finished one task, when its sync reads the counters. */
  lemma OneFinished() returns (y: System)
    ensures Reachable(y) && y.units == [Unit(Running, 1, 0, 0, 0, Read(1, 0), false)]
    ensures y.gauges.active == 1 && y.gauges.lastIdle.Keys == y.gauges.stats.Keys == {0}
  {
    assert Legal(NOTHING, []);
    y := Next(NOTHING, Create);
    y := Next(y, Enrol(0, 0));
    y := Next(y, Launch(0));
    y := Next(y, Finish(0, true));
    y := Next(y, Tick(0));
  }

  /** The same worker when its sync is about to remember what it has pushed. */
  lemma AlmostSynced() returns (y: System)
    ensures Reachable(y) && y.units == [Unit(Running, 1, 0, 0, 0, Remember(1, 0), false)]
    ensures y.gauges.active == 1 && y.gauges.lastIdle.Keys == y.gauges.stats.Keys == {0}
  {
    y := OneFinished();
    y := Next(y, SyncStep(0, 0));
    y := Next(y, SyncStep(0, 0));
    y := Next(y, SyncStep(0, 0));
    y := Next(y, SyncStep(0, 0));
  }

  /** If Stop unregisters the worker now, the last call of the sync leaves an idle stamp that
      nobody will remove: no worker is active, one is counted idle and minus one busy. */
  lemma OvertakenSync() returns (y: System)
    ensures Reachable(y) && AtBoundary(y) && !NoneOvertaken(y) && !Agree(y.gauges)
    ensures y.gauges.active == 0 && y.gauges.idle == 1 && y.gauges.busy == -1
  {
    y := AlmostSynced();
    y := Next(y, Halt(0));
    y := Next(y, Retire(0));
    y := Next(y, SyncStep(0, 0));
    y := Next(y, SyncStep(0, 0));
    assert y.units == [Unit(Gone, 1, 0, 1, 0, Waiting, true)];
    assert y.units[0].overtaken;
    OnlyAPhantom(y);
    AgreeExactlyIfNotOvertaken(y);
  }

  lemma OnlyAPhantom(y: System)
    requires Reachable(y) && y.units == [Unit(Gone, 1, 0, 1, 0, Waiting, true)]
    ensures y.gauges.active == 0 && y.gauges.idle == 1 && y.gauges.busy == -1
  {
    ReachableHasInv(y);
    var g := y.gauges;
    assert ShownOk(g, y.units[0], 0);
    SizesOf(g.stats, {});
    SizesOf(g.lastIdle, {0});
  }

  lemma SizesOf<V>(m: map<nat, V>, keys: set<nat>)
    requires forall id :: id in m <==> id in keys
    ensures |m| == |keys|
  {
    assert m.Keys == keys;
  }
}
