/** The auto-scaler (internal/monitoring/scaler.go): its decisions in int32 arithmetic, its
    control of the pool, and what every run of evaluations keeps. Times are nanoseconds. */
module Scaler {
  import opened Tasks
  import opened Pool

  const MAX_INT32: int := 0x7FFF_FFFF
  const TWO_32: int := 0x1_0000_0000
  const UP_COOLDOWN: int := 30_000_000_000
  const DOWN_COOLDOWN: int := 120_000_000_000

  /** The int32 with the same low 32 bits. */
  function Int32(x: int): int { (x + MAX_INT32 + 1) % TWO_32 - MAX_INT32 - 1 }

  lemma Int32InRange(x: int)
    requires -MAX_INT32 - 1 <= x <= MAX_INT32
    ensures Int32(x) == x
  {
  }

  /** Go's division, which truncates towards zero. */
  function Quotient(x: int, d: int): int
    requires d > 0
  {
    if x >= 0 then x / d else -((-x) / d)
  }

  datatype Config = Config(min: int, max: int, upThreshold: int, downIdleTime: int)

  /** Bounds as Config.Validate demands, and small enough for the 50% step to fit an int32. */
  predicate Sound(cfg: Config) {
    1 <= cfg.min <= cfg.max && 3 * cfg.max / 2 + 1 <= MAX_INT32
  }

  datatype Snapshot = Snapshot(queueDepth: int, idleWorkers: int, oldestIdleTime: int)

  /** The instants at which one evaluation looks at the clock. */
  datatype Clock = Clock(up: int, down: int, done: int)

  datatype Memory = Memory(lastScaleUp: Option<int>, lastScaleDown: Option<int>, consecutiveIdle: int)

  datatype Verb = ScaleUp | ScaleDown | NoAction

  // ------------------------------------------------------------------- targets

  function ScaleUpTarget(cfg: Config, depth: int, current: int): int {
    var wanted := Int32(current + Int32(Quotient(depth, 50)));
    var atLeastOne := if wanted <= current then Int32(current + 1) else wanted;
    var capped := if atLeastOne > cfg.max then cfg.max else atLeastOne;
    var step := current / 2 + 1;
    if capped > Int32(current + step) then Int32(current + step) else capped
  }

  function ScaleDownTarget(cfg: Config, idle: int, current: int): int {
    var wanted := Int32(current - idle);
    var floored := if wanted < cfg.min then cfg.min else wanted;
    var step := if current / 4 < 1 then 1 else current / 4;
    if Int32(current - floored) > step then current - step else floored
  }

  /** For every queue depth, even where the int32 narrowing wraps, scaling up adds at least
      one worker, at most half of the current ones plus one, and never passes the maximum. */
  lemma ScaleUpTargetBounds(cfg: Config, depth: int, current: int)
    requires Sound(cfg) && 0 <= current < cfg.max
    ensures current < ScaleUpTarget(cfg, depth, current) <= cfg.max
    ensures ScaleUpTarget(cfg, depth, current) <= current + current / 2 + 1
  {
  }

  /** Scaling down stays at or above the minimum, removes at least one worker and at most a
      quarter of them (or one), exactly when the idle count is positive or so negative that
      the subtraction overflows. shouldScaleDown only rules out an idle count of zero. */
  lemma ScaleDownTargetBounds(cfg: Config, idle: int, current: int)
    requires Sound(cfg) && cfg.min < current <= cfg.max && -MAX_INT32 - 1 <= idle <= MAX_INT32
    ensures (cfg.min <= ScaleDownTarget(cfg, idle, current) < current) <==> idle > 0 || current - idle > MAX_INT32
    ensures idle > 0 ==> current - ScaleDownTarget(cfg, idle, current) <= (if current / 4 < 1 then 1 else current / 4)
  {
  }

  function Min(a: int, b: int): int { if a < b then a else b }

  function Max(a: int, b: int): int { if a > b then a else b }

  /** The target exactly, where nothing wraps: one worker per 50 waiting tasks, at least one more
      and at most half again plus one, within the maximum. */
  lemma ScaleUpTargetIs(cfg: Config, depth: int, current: int)
    requires Sound(cfg) && 0 <= current < cfg.max && 0 <= depth && cfg.max + depth / 50 <= MAX_INT32
    ensures ScaleUpTarget(cfg, depth, current) ==
      Min(cfg.max, current + Min(current / 2 + 1, Max(1, depth / 50)))
  {
    Int32InRange(depth / 50);
    Int32InRange(current + depth / 50);
    Int32InRange(current + 1);
    Int32InRange(current + current / 2 + 1);
  }

  /** And scaling down: the idle workers go, but at most a quarter of all, or one, and the
      minimum stays. */
  lemma ScaleDownTargetIs(cfg: Config, idle: int, current: int)
    requires Sound(cfg) && cfg.min < current <= cfg.max && 0 < idle <= MAX_INT32
    ensures ScaleDownTarget(cfg, idle, current) == Max(cfg.min, current - Min(idle, Max(1, current / 4)))
  {
    Int32InRange(current - idle);
    Int32InRange(current - (if current - idle < cfg.min then cfg.min else current - idle));
  }

  // -------------------------------------------------------------- the decision

  predicate ShouldScaleUp(cfg: Config, m: Memory, snap: Snapshot, current: int, now: int) {
    && current < cfg.max
    && !(m.lastScaleUp.Some? && now - m.lastScaleUp.value < UP_COOLDOWN)
    && (|| snap.queueDepth > cfg.upThreshold
        || (snap.idleWorkers == 0 && snap.queueDepth > 0)
        || snap.queueDepth > Int32(current * 10))
  }

  /** How shouldScaleDown comes to its answer. */
  datatype Branch = AtMinimum | NoneIdle | Cooling | LongIdle | HalfIdle | Otherwise

  function DownBranch(cfg: Config, m: Memory, snap: Snapshot, current: int, now: int): Branch {
    if current <= cfg.min then AtMinimum
    else if snap.idleWorkers == 0 then NoneIdle
    else if m.lastScaleDown.Some? && now - m.lastScaleDown.value < DOWN_COOLDOWN then Cooling
    else if snap.oldestIdleTime > cfg.downIdleTime then LongIdle
    else if snap.queueDepth == 0 && snap.idleWorkers >= current / 2 then HalfIdle
    else Otherwise
  }

  function IdleCountAfter(b: Branch, count: int): int {
    match b
    case AtMinimum => count
    case NoneIdle => 0
    case Cooling => count
    case LongIdle => count + 1
    case HalfIdle => count
    case Otherwise => 0
  }

  predicate SaysDown(b: Branch, count: int) {
    b.HalfIdle? || (b.LongIdle? && count + 1 >= 2)
  }

  datatype Decision = Decision(verb: Verb, desired: int)

  datatype Decided = Decided(decision: Decision, m: Memory)

  function Decide(cfg: Config, m: Memory, snap: Snapshot, current: int, clock: Clock): Decided {
    if ShouldScaleUp(cfg, m, snap, current, clock.up) then
      Decided(Decision(ScaleUp, ScaleUpTarget(cfg, snap.queueDepth, current)), m)
    else
      var b := DownBranch(cfg, m, snap, current, clock.down);
      var m' := m.(consecutiveIdle := IdleCountAfter(b, m.consecutiveIdle));
      if SaysDown(b, m.consecutiveIdle) then
        Decided(Decision(ScaleDown, ScaleDownTarget(cfg, snap.idleWorkers, current)), m')
      else
        Decided(Decision(NoAction, current), m')
  }

  function Executed(d: Decided, clock: Clock): Memory {
    match d.decision.verb
    case ScaleUp => d.m.(lastScaleUp := Some(clock.done))
    case ScaleDown => d.m.(lastScaleDown := Some(clock.done), consecutiveIdle := 0)
    case NoAction => d.m
  }

  // ------------------------------------------------------------------ the class

  function Positive(n: int): nat { if n > 0 then n else 0 }

  class AutoScaler {
    const cfg: Config
    const pool: WorkerPool
    var lastScaleUp: Option<int>
    var lastScaleDown: Option<int>
    var consecutiveIdle: int
    var scaleUpCount: nat
    var scaleDownCount: nat

    constructor (config: Config, p: WorkerPool)
      ensures cfg == config && pool == p && View() == Memory(None, None, 0)
      ensures scaleUpCount == scaleDownCount == 0
    {
      cfg, pool := config, p;
      lastScaleUp, lastScaleDown, consecutiveIdle := None, None, 0;
      scaleUpCount, scaleDownCount := 0, 0;
    }

    function View(): Memory
      reads this
    {
      Memory(lastScaleUp, lastScaleDown, consecutiveIdle)
    }

    /** Scaler and pool share their bounds, and nobody else drives the pool. */
    ghost predicate Valid()
      reads this, pool, pool.metrics
    {
      && Sound(cfg) && pool.Valid() && pool.minWorkers == cfg.min && pool.maxWorkers == cfg.max
      && cfg.min <= |pool.workers| <= cfg.max
    }

    method ShouldScaleDown(snap: Snapshot, current: int, now: int) returns (yes: bool)
      modifies this`consecutiveIdle
      ensures yes == SaysDown(DownBranch(cfg, old(View()), snap, current, now), old(consecutiveIdle))
      ensures consecutiveIdle == IdleCountAfter(DownBranch(cfg, old(View()), snap, current, now), old(consecutiveIdle))
    {
      if current <= cfg.min { return false; }
      if snap.idleWorkers == 0 {
        consecutiveIdle := 0;
        return false;
      }
      if lastScaleDown.Some? && now - lastScaleDown.value < DOWN_COOLDOWN { return false; }
      if snap.oldestIdleTime > cfg.downIdleTime {
        consecutiveIdle := consecutiveIdle + 1;
        return consecutiveIdle >= 2;
      }
      if snap.queueDepth == 0 && snap.idleWorkers >= current / 2 { return true; }
      consecutiveIdle := 0;
      return false;
    }

    method MakeDecision(snap: Snapshot, current: int, clock: Clock) returns (d: Decision)
      modifies this`consecutiveIdle
      ensures Decided(d, View()) == Decide(cfg, old(View()), snap, current, clock)
    {
      if ShouldScaleUp(cfg, View(), snap, current, clock.up) {
        return Decision(ScaleUp, ScaleUpTarget(cfg, snap.queueDepth, current));
      }
      var down := ShouldScaleDown(snap, current, clock.down);
      if down {
        return Decision(ScaleDown, ScaleDownTarget(cfg, snap.idleWorkers, current));
      }
      return Decision(NoAction, current);
    }

    /** Every worker that was not there `before` is idle since now. */
    ghost predicate AddedAt(before: set<nat>, now: int)
      reads pool, pool.metrics
    {
      forall id :: id in pool.workers && id !in before ==>
        id in pool.metrics.workerLastIdle && pool.metrics.workerLastIdle[id] == now
    }

    /** Adds as many workers as the maximum allows and counts the refusals. */
    method AddWorkers(count: int, now: int) returns (errors: nat)
      requires Valid()
      modifies pool, pool.metrics
      ensures Valid() && |pool.workers| == Clamp(|old(pool.workers)| + Positive(count))
      ensures |pool.workers| + errors == |old(pool.workers)| + Positive(count)
      ensures AddedAt(old(pool.workers), now)
    {
      errors := 0;
      for i := 0 to Positive(count)
        invariant Valid() && (errors > 0 ==> |pool.workers| == cfg.max)
        invariant |pool.workers| + errors == |old(pool.workers)| + i
        invariant AddedAt(old(pool.workers), now)
      {
        var id := pool.AddWorker(now);
        if id.None? { errors := errors + 1; }
      }
    }

    /** Removes as many workers as the minimum allows and counts the refusals. */
    method RemoveWorkers(count: int) returns (errors: nat)
      requires Valid()
      modifies pool, pool.metrics
      ensures Valid() && |pool.workers| == Clamp(|old(pool.workers)| - Positive(count))
      ensures |pool.workers| - errors == |old(pool.workers)| - Positive(count)
    {
      errors := 0;
      for i := 0 to Positive(count)
        invariant Valid() && (errors > 0 ==> |pool.workers| == cfg.min)
        invariant |pool.workers| - errors == |old(pool.workers)| - i
      {
        var id := pool.GetIdleWorker();
        if id.None? { break; }
        var removed := pool.RemoveWorker(id.value);
        if !removed { errors := errors + 1; }
      }
    }

    function Clamp(size: int): int {
      if size < cfg.min then cfg.min else if size > cfg.max then cfg.max else size
    }

    /** One evaluation: read the queue depth, which may fail, and the metrics, decide and
        execute. After it the pool has exactly the size that was decided. */
    method Evaluate(depth: Option<int>, seen: int, clock: Clock) returns (snap: Snapshot, d: Decision, ok: bool)
      requires Valid()
      modifies this, pool, pool.metrics
      ensures Valid()
      ensures ok <==> depth.Some?
      ensures !ok ==> View() == old(View()) && pool.workers == old(pool.workers) && d.verb == NoAction
      ensures ok ==> snap.queueDepth == depth.value && snap.idleWorkers == old(pool.metrics.idleWorkers) >= 0
      ensures ok ==> Metrics.IsOldestIdle(old(pool.metrics.workerLastIdle), seen, snap.oldestIdleTime)
      ensures ok ==> d == Decide(cfg, old(View()), snap, |old(pool.workers)|, clock).decision
      ensures ok ==> View() == Executed(Decide(cfg, old(View()), snap, |old(pool.workers)|, clock), clock)
      ensures |pool.workers| == d.desired
      ensures scaleUpCount == old(scaleUpCount) + (if d.verb == ScaleUp then 1 else 0)
      ensures scaleDownCount == old(scaleDownCount) + (if d.verb == ScaleDown then 1 else 0)
    {
      var current := |pool.workers|;
      if depth.None? {
        return Snapshot(0, 0, 0), Decision(NoAction, current), false;
      }
      var oldest := pool.metrics.OldestIdleTime(seen);
      snap := Snapshot(depth.value, pool.metrics.idleWorkers, oldest);
      Metrics.IdleWithinActive(pool.metrics.View());
      d := MakeDecision(snap, current, clock);
      DecisionInBounds(cfg, old(View()), snap, current, clock);
      ok := Execute(d, clock.done);
    }

    /** Whatever was decided, the pool ends at the desired size clamped to its bounds, and
        an error is reported exactly when that is not the desired size. */
    method Execute(d: Decision, done: int) returns (ok: bool)
      requires Valid()
      requires d.verb == ScaleUp ==> d.desired >= |pool.workers|
      requires d.verb == ScaleDown ==> d.desired <= |pool.workers|
      modifies this, pool, pool.metrics
      ensures Valid() && |pool.workers| == (if d.verb == NoAction then |old(pool.workers)| else Clamp(d.desired))
      ensures ok <==> d.verb == NoAction || |pool.workers| == d.desired
      ensures View() == Executed(Decided(d, old(View())), Clock(done, done, done))
      ensures d.verb == ScaleUp ==> AddedAt(old(pool.workers), done)
      ensures scaleUpCount == old(scaleUpCount) + (if d.verb == ScaleUp then 1 else 0)
      ensures scaleDownCount == old(scaleDownCount) + (if d.verb == ScaleDown then 1 else 0)
    {
      match d.verb {
        case ScaleUp =>
          var errors := AddWorkers(d.desired - |pool.workers|, done);
          lastScaleUp := Some(done);
          scaleUpCount := scaleUpCount + 1;
          return errors == 0;
        case ScaleDown =>
          var errors := RemoveWorkers(|pool.workers| - d.desired);
          lastScaleDown := Some(done);
          scaleDownCount := scaleDownCount + 1;
          consecutiveIdle := 0;
          return errors == 0;
        case NoAction =>
          return true;
      }
    }
  }

  lemma DecisionInBounds(cfg: Config, m: Memory, snap: Snapshot, current: int, clock: Clock)
    requires Sound(cfg) && cfg.min <= current <= cfg.max && 0 <= snap.idleWorkers <= MAX_INT32
    ensures var d := Decide(cfg, m, snap, current, clock).decision;
      && cfg.min <= d.desired <= cfg.max
      && (d.verb == ScaleUp ==> d.desired > current)
      && (d.verb == ScaleDown ==> d.desired < current)
      && (d.verb == NoAction ==> d.desired == current)
  {
    if ShouldScaleUp(cfg, m, snap, current, clock.up) {
      ScaleUpTargetBounds(cfg, snap.queueDepth, current);
    } else if SaysDown(DownBranch(cfg, m, snap, current, clock.down), m.consecutiveIdle) {
      ScaleDownTargetBounds(cfg, snap.idleWorkers, current);
    }
  }

  // ---------------------------------------------------------- runs of evaluations

  /** What one evaluation did: scaled up before looking at idleness, scaled down, or left
      the pool alone, the last two for the reason given. */
  datatype Event = Up | Down(why: Branch) | Kept(why: Branch)

  /** The loop with its history: when it scaled, and what each evaluation did. */
  datatype Loop = Loop(
    size: int,
    m: Memory,
    now: int,
    ups: seq<int>,
    downs: seq<int>,
    log: seq<Event>)

  datatype Input = Input(snap: Snapshot, clock: Clock)

  /** The clock does not run backwards, and the idle count is one that an int32 holds and the
      metrics can report: by Metrics.IdleIsNeverNegative it is never negative. */
  predicate Timely(l: Loop, e: Input) {
    l.now <= e.clock.up <= e.clock.down <= e.clock.done && 0 <= e.snap.idleWorkers <= MAX_INT32
  }

  /** One evaluation as AutoScaler.Evaluate performs it on its memory and its pool. */
  function Evaluated(cfg: Config, l: Loop, e: Input): Loop {
    var d := Decide(cfg, l.m, e.snap, l.size, e.clock);
    var why := DownBranch(cfg, l.m, e.snap, l.size, e.clock.down);
    Loop(d.decision.desired, Executed(d, e.clock), e.clock.done,
         if d.decision.verb == ScaleUp then l.ups + [e.clock.done] else l.ups,
         if d.decision.verb == ScaleDown then l.downs + [e.clock.done] else l.downs,
         l.log + [match d.decision.verb case ScaleUp => Up case ScaleDown => Down(why) case NoAction => Kept(why)])
  }

  predicate Legal(cfg: Config, l: Loop, inputs: seq<Input>)
    decreases |inputs|
  {
    inputs == [] || (Timely(l, inputs[0]) && Legal(cfg, Evaluated(cfg, l, inputs[0]), inputs[1..]))
  }

  function Run(cfg: Config, l: Loop, inputs: seq<Input>): Loop
    requires Legal(cfg, l, inputs)
    decreases |inputs|
  {
    if inputs == [] then l else Run(cfg, Evaluated(cfg, l, inputs[0]), inputs[1..])
  }

  /** Long-idle evaluations since the last one that reset the count. */
  function LongIdleSince(log: seq<Event>): nat {
    if log == [] then 0
    else
      var before := LongIdleSince(log[..|log| - 1]);
      match log[|log| - 1]
      case Up => before
      case Down(_) => 0
      case Kept(why) => if why.NoneIdle? || why.Otherwise? then 0 else if why.LongIdle? then before + 1 else before
  }

  ghost predicate SpacedBy(times: seq<int>, gap: int) {
    forall i :: 0 <= i < |times| - 1 ==> times[i + 1] - times[i] >= gap
  }

  /** The stamp of the last entry of a history, if there is one. */
  ghost predicate LastIs(times: seq<int>, last: Option<int>) {
    if times == [] then last.None? else last == Some(times[|times| - 1])
  }

  ghost predicate TwiceIdle(log: seq<Event>) {
    forall i :: 0 <= i < |log| && log[i] == Down(LongIdle) ==> LongIdleSince(log[..i]) >= 1
  }

  ghost predicate UpsOk(l: Loop) { SpacedBy(l.ups, UP_COOLDOWN) && LastIs(l.ups, l.m.lastScaleUp) }

  ghost predicate DownsOk(l: Loop) { SpacedBy(l.downs, DOWN_COOLDOWN) && LastIs(l.downs, l.m.lastScaleDown) }

  ghost predicate IdleOk(l: Loop) { l.m.consecutiveIdle == LongIdleSince(l.log) && TwiceIdle(l.log) }

  ghost predicate LoopOk(cfg: Config, l: Loop) {
    cfg.min <= l.size <= cfg.max && UpsOk(l) && DownsOk(l) && IdleOk(l)
  }

  lemma TwiceIdleExtends(log: seq<Event>, e: Event)
    requires TwiceIdle(log) && (e == Down(LongIdle) ==> LongIdleSince(log) >= 1)
    ensures TwiceIdle(log + [e])
  {
    var log' := log + [e];
    forall i | 0 <= i < |log'| && log'[i] == Down(LongIdle) ensures LongIdleSince(log'[..i]) >= 1 {
      assert log'[..i] == log[..i];
      assert i == |log| ==> log[..i] == log;
    }
  }

  lemma {:induction false} EvaluationKeepsUps(cfg: Config, l: Loop, e: Input)
    requires UpsOk(l) && Timely(l, e)
    ensures UpsOk(Evaluated(cfg, l, e))
  {
  }

  lemma {:induction false} EvaluationKeepsDowns(cfg: Config, l: Loop, e: Input)
    requires DownsOk(l) && Timely(l, e)
    ensures DownsOk(Evaluated(cfg, l, e))
  {
  }

  lemma {:induction false} EvaluationKeepsIdle(cfg: Config, l: Loop, e: Input)
    requires IdleOk(l) && Timely(l, e)
    ensures IdleOk(Evaluated(cfg, l, e))
  {
    var l' := Evaluated(cfg, l, e);
    var event := l'.log[|l.log|];
    assert l'.log[..|l.log|] == l.log;
    TwiceIdleExtends(l.log, event);
  }

  lemma {:induction false} EvaluationKeepsLoop(cfg: Config, l: Loop, e: Input)
    requires Sound(cfg) && LoopOk(cfg, l) && Timely(l, e)
    ensures LoopOk(cfg, Evaluated(cfg, l, e))
  {
    DecisionInBounds(cfg, l.m, e.snap, l.size, e.clock);
    EvaluationKeepsUps(cfg, l, e);
    EvaluationKeepsDowns(cfg, l, e);
    EvaluationKeepsIdle(cfg, l, e);
  }

  /** In every run that starts within the bounds the pool stays within them, scale-ups are at
      least 30 s apart and scale-downs at least 2 min, consecutiveIdle is the number of
      long-idle evaluations since its last reset, and a scale-down for long idleness comes
      only after an earlier long-idle evaluation since then. */
  lemma {:induction false} LoopSafety(cfg: Config, l: Loop, inputs: seq<Input>)
    requires Sound(cfg) && LoopOk(cfg, l) && Legal(cfg, l, inputs)
    ensures LoopOk(cfg, Run(cfg, l, inputs))
    decreases |inputs|
  {
    if inputs != [] {
      EvaluationKeepsLoop(cfg, l, inputs[0]);
      LoopSafety(cfg, Evaluated(cfg, l, inputs[0]), inputs[1..]);
    }
  }

  // ------------------------------------------------------------ speed of growth

  function Power(b: nat, k: nat): nat {
    if k == 0 then 1 else b * Power(b, k - 1)
  }

  /** The pool size after k scale-ups with the queue depths given. */
  function Grown(cfg: Config, size: int, depths: seq<int>): int
    decreases |depths|
  {
    if depths == [] then size
    else if size >= cfg.max then size
    else Grown(cfg, ScaleUpTarget(cfg, depths[0], size), depths[1..])
  }

  /** The backlog is at least 50 tasks per allowed worker, and its int32 sum does not wrap. */
  predicate Flooded(cfg: Config, depth: int) {
    50 * cfg.max <= depth && cfg.max + depth / 50 <= MAX_INT32
  }

  lemma FloodedTarget(cfg: Config, depth: int, size: int)
    requires Sound(cfg) && Flooded(cfg, depth) && 0 <= size < cfg.max
    ensures ScaleUpTarget(cfg, depth, size) ==
      if size + size / 2 + 1 < cfg.max then size + size / 2 + 1 else cfg.max
  {
    Int32InRange(depth / 50);
    Int32InRange(size + depth / 50);
    Int32InRange(size + 1);
    Int32InRange(size + size / 2 + 1);
    assert depth / 50 >= cfg.max;
  }

  /** Under such a backlog k scale-ups multiply the pool by at least (3/2)^k or fill it. */
  lemma {:induction false} GrowthIsGeometric(cfg: Config, size: int, depths: seq<int>)
    requires Sound(cfg) && 1 <= size <= cfg.max
    requires forall i :: 0 <= i < |depths| ==> Flooded(cfg, depths[i])
    ensures var g := Grown(cfg, size, depths);
      g == cfg.max || (size <= g < cfg.max && g * Power(2, |depths|) >= size * Power(3, |depths|))
    decreases |depths|
  {
    if depths != [] && size < cfg.max {
      var next := ScaleUpTarget(cfg, depths[0], size);
      FloodedTarget(cfg, depths[0], size);
      GrowthIsGeometric(cfg, next, depths[1..]);
      var g := Grown(cfg, next, depths[1..]);
      if g != cfg.max {
        HalfAgain(g, next, size, Power(2, |depths| - 1), Power(3, |depths| - 1));
      }
    }
  }

  lemma HalfAgain(g: int, next: int, size: int, p2: nat, p3: nat)
    requires g * p2 >= next * p3 && 2 * next >= 3 * size
    ensures g * (2 * p2) >= size * (3 * p3)
  {
  }

  predicate FloodedInputs(cfg: Config, inputs: seq<Input>) {
    forall i :: 0 <= i < |inputs| ==> Flooded(cfg, inputs[i].snap.queueDepth)
  }

  predicate InBounds(cfg: Config, l: Loop) { cfg.min <= l.size <= cfg.max }

  /** The last scale-up, if any, is not in the future. */
  predicate UpIsPast(l: Loop) { l.m.lastScaleUp.Some? ==> l.m.lastScaleUp.value <= l.now }

  predicate Cooled(l: Loop, e: Input) {
    l.m.lastScaleUp.Some? ==> e.clock.up - l.m.lastScaleUp.value >= UP_COOLDOWN
  }

  predicate DownCooled(l: Loop, e: Input) {
    l.m.lastScaleDown.Some? ==> e.clock.down - l.m.lastScaleDown.value >= DOWN_COOLDOWN
  }

  predicate Grows(cfg: Config, l: Loop, e: Input) { l.size < cfg.max && Cooled(l, e) }

  /** Somebody has been idle for long, and was at an earlier evaluation, and nothing else comes
      first: the pool is full or still cooling from a scale-up. */
  predicate Shrinks(cfg: Config, l: Loop, e: Input) {
    && cfg.min < l.size && (l.size == cfg.max || !Cooled(l, e)) && DownCooled(l, e)
    && e.snap.idleWorkers > 0 && e.snap.oldestIdleTime > cfg.downIdleTime && l.m.consecutiveIdle >= 1
  }

  lemma FloodedDecision(cfg: Config, l: Loop, e: Input)
    requires Sound(cfg) && InBounds(cfg, l) && Timely(l, e) && Flooded(cfg, e.snap.queueDepth)
    ensures var verb := Decide(cfg, l.m, e.snap, l.size, e.clock).decision.verb;
      (verb == ScaleUp <==> Grows(cfg, l, e)) && (verb == ScaleDown <==> Shrinks(cfg, l, e))
  {
  }

  /** What an evaluation does when the queue is flooded. It grows the pool exactly if the pool
      is not full and the cooldown is over, and shrinks it exactly if Shrinks says so: long
      idleness counts even then. */
  lemma FloodedEvaluation(cfg: Config, l: Loop, e: Input)
    requires Sound(cfg) && InBounds(cfg, l) && Timely(l, e) && Flooded(cfg, e.snap.queueDepth)
    ensures var l' := Evaluated(cfg, l, e);
      && (l'.size > l.size <==> Grows(cfg, l, e)) && (l'.size < l.size <==> Shrinks(cfg, l, e))
      && |l'.ups| == |l.ups| + (if Grows(cfg, l, e) then 1 else 0)
      && |l'.downs| == |l.downs| + (if Shrinks(cfg, l, e) then 1 else 0)
      && l'.m.lastScaleUp == (if Grows(cfg, l, e) then Some(l'.now) else l.m.lastScaleUp)
      && InBounds(cfg, l') && l'.now == e.clock.done
      && (Grows(cfg, l, e) ==> l'.size == cfg.max || 2 * l'.size >= 3 * l.size)
      && 2 * l'.size >= l.size
  {
    DecisionInBounds(cfg, l.m, e.snap, l.size, e.clock);
    FloodedDecision(cfg, l, e);
    if l.size < cfg.max { FloodedTarget(cfg, e.snap.queueDepth, l.size); }
    if Shrinks(cfg, l, e) { ScaleDownTargetBounds(cfg, e.snap.idleWorkers, l.size); }
  }

  /** So a full pool, and a backlog of 50 tasks per worker, does not keep two evaluations that
      find a worker long idle from removing workers. */
  lemma FullPoolShrinks(cfg: Config, l: Loop, first: Input, second: Input)
    requires Sound(cfg) && cfg.min < l.size == cfg.max && l.m.consecutiveIdle == 0
    requires Legal(cfg, l, [first, second]) && FloodedInputs(cfg, [first, second])
    requires DownCooled(l, first) && first.snap.idleWorkers > 0 && first.snap.oldestIdleTime > cfg.downIdleTime
    requires second.snap.idleWorkers > 0 && second.snap.oldestIdleTime > cfg.downIdleTime
    ensures Run(cfg, l, [first, second]).size < cfg.max
  {
    var l1 := Evaluated(cfg, l, first);
    assert [first, second][0] == first && [first, second][1..] == [second] && [second][1..] == [];
    FloodedEvaluation(cfg, l, first);
    assert FloodedInputs(cfg, [first, second]) ==> Flooded(cfg, [first, second][1].snap.queueDepth);
    FloodedEvaluation(cfg, l1, second);
    assert Run(cfg, l1, [second]) == Evaluated(cfg, l1, second);
  }

  // --------------------------------------------- when the pool grows and shrinks

  /** For every queue depth: an evaluation grows the pool if and only if it is not full, the
      up-cooldown is over, and more tasks wait than the threshold, or than ten per worker, or
      any at all with nobody idle. */
  lemma GrowsExactly(cfg: Config, l: Loop, e: Input)
    requires Sound(cfg) && InBounds(cfg, l) && Timely(l, e)
    ensures var depth, idle := e.snap.queueDepth, e.snap.idleWorkers;
      Evaluated(cfg, l, e).size > l.size <==>
        && l.size < cfg.max && Cooled(l, e)
        && (depth > cfg.upThreshold || depth > Int32(10 * l.size) || (idle == 0 && depth > 0))
  {
    DecisionInBounds(cfg, l.m, e.snap, l.size, e.clock);
  }

  /** It shrinks the pool if and only if it does not grow it, the pool is above its minimum,
      somebody is idle, the down-cooldown is over, and either somebody has been idle for long,
      for the second time, or nobody has and the queue is empty with half the workers idle. */
  lemma ShrinksExactly(cfg: Config, l: Loop, e: Input)
    requires Sound(cfg) && InBounds(cfg, l) && Timely(l, e)
    ensures var depth, idle, oldest := e.snap.queueDepth, e.snap.idleWorkers, e.snap.oldestIdleTime;
      Evaluated(cfg, l, e).size < l.size <==>
        && cfg.min < l.size && idle > 0 && DownCooled(l, e)
        && !(l.size < cfg.max && Cooled(l, e) && (depth > cfg.upThreshold || depth > Int32(10 * l.size)))
        && (if oldest > cfg.downIdleTime then l.m.consecutiveIdle >= 1 else depth == 0 && idle >= l.size / 2)
  {
    DecisionInBounds(cfg, l.m, e.snap, l.size, e.clock);
    GrowsExactly(cfg, l, e);
  }

  /** An empty queue never grows the pool, whoever is idle, as long as ten times its size fits
      an int32; where that product wraps below zero, it does. */
  lemma EmptyQueueDoesNotGrow(cfg: Config, l: Loop, e: Input)
    requires Sound(cfg) && InBounds(cfg, l) && Timely(l, e) && cfg.upThreshold >= 0 && e.snap.queueDepth == 0
    ensures 10 * l.size <= MAX_INT32 ==> Evaluated(cfg, l, e).size <= l.size
    ensures Evaluated(cfg, l, e).size > l.size <==> l.size < cfg.max && Cooled(l, e) && Int32(10 * l.size) < 0
  {
    GrowsExactly(cfg, l, e);
    if 10 * l.size <= MAX_INT32 { Int32InRange(10 * l.size); }
  }

  /** Below the maximum and cooled: a queue above the threshold grows the pool, and so does a
      single waiting task when nobody is idle. */
  lemma BacklogGrows(cfg: Config, l: Loop, e: Input)
    requires Sound(cfg) && InBounds(cfg, l) && Timely(l, e) && l.size < cfg.max && Cooled(l, e)
    requires e.snap.queueDepth > cfg.upThreshold || (e.snap.queueDepth > 0 && e.snap.idleWorkers == 0)
    ensures Evaluated(cfg, l, e).size > l.size
  {
    GrowsExactly(cfg, l, e);
  }

  /** With somebody idle, a queue within the threshold and ten tasks per worker does not. */
  lemma ModestQueueDoesNotGrow(cfg: Config, l: Loop, e: Input)
    requires Sound(cfg) && InBounds(cfg, l) && Timely(l, e) && 10 * l.size <= MAX_INT32
    requires e.snap.idleWorkers > 0 && e.snap.queueDepth <= cfg.upThreshold && e.snap.queueDepth <= 10 * l.size
    ensures Evaluated(cfg, l, e).size <= l.size
  {
    Int32InRange(10 * l.size);
    GrowsExactly(cfg, l, e);
  }

  /** More waiting tasks never mean fewer workers: what one depth grows a greater depth grows,
      at least as far where nothing wraps. */
  lemma GrowthIsMonotone(cfg: Config, l: Loop, e: Input, depth: int)
    requires Sound(cfg) && InBounds(cfg, l) && Timely(l, e) && 0 <= e.snap.queueDepth <= depth
    requires Evaluated(cfg, l, e).size > l.size
    ensures var e' := e.(snap := e.snap.(queueDepth := depth));
      && Evaluated(cfg, l, e').size > l.size
      && (cfg.max + depth / 50 <= MAX_INT32 ==> Evaluated(cfg, l, e').size >= Evaluated(cfg, l, e).size)
  {
    var e' := e.(snap := e.snap.(queueDepth := depth));
    GrowsExactly(cfg, l, e);
    GrowsExactly(cfg, l, e');
    if cfg.max + depth / 50 <= MAX_INT32 {
      ScaleUpTargetIs(cfg, depth, l.size);
      ScaleUpTargetIs(cfg, e.snap.queueDepth, l.size);
    }
  }

  /** How an evaluation counts long idleness, by what it saw. */
  lemma CountsLongIdleness(cfg: Config, l: Loop, e: Input)
    requires Sound(cfg) && InBounds(cfg, l) && Timely(l, e)
    ensures var l' := Evaluated(cfg, l, e); var count := l.m.consecutiveIdle;
      if l'.size > l.size || l.size == cfg.min then l'.m.consecutiveIdle == count
      else if e.snap.idleWorkers == 0 || l'.size < l.size then l'.m.consecutiveIdle == 0
      else if !DownCooled(l, e) then l'.m.consecutiveIdle == count
      else l'.m.consecutiveIdle == (if e.snap.oldestIdleTime > cfg.downIdleTime then count + 1 else 0)
  {
    DecisionInBounds(cfg, l.m, e.snap, l.size, e.clock);
  }

  // ------------------------------------------------ growth over runs, at any intervals

  /** u scale-ups from `size` would reach g, or the maximum. */
  predicate Reached(max: int, size: int, g: int, u: nat) {
    g >= max || g * Power(2, u) >= size * Power(3, u)
  }

  lemma ReachedFromHalfAgain(max: int, size: int, mid: int, g: int, u: nat)
    requires Reached(max, mid, g, u) && 2 * mid >= 3 * size
    ensures Reached(max, size, g, u + 1)
  {
    if g < max { HalfAgain(g, mid, size, Power(2, u), Power(3, u)); }
  }

  lemma ReachedFromHalf(max: int, size: int, mid: int, g: nat, u: nat)
    requires Reached(max, mid, g, u) && 2 * mid >= size
    ensures Reached(max, size, 2 * g, u)
  {
    if g < max { HalfOf(g, mid, size, Power(2, u), Power(3, u)); }
  }

  lemma HalfOf(g: int, mid: int, size: int, p2: nat, p3: nat)
    requires g * p2 >= mid * p3 && 2 * mid >= size
    ensures (2 * g) * p2 >= size * p3
  {
    assert (2 * g) * p2 == 2 * (g * p2) && 2 * (mid * p3) == (2 * mid) * p3;
    TimesMonotone(size, 2 * mid, p3);
  }

  lemma TimesMonotone(a: int, b: int, c: nat)
    requires a <= b
    ensures a * c <= b * c
  {
  }

  lemma {:induction false} ReachedWithFewer(max: int, size: nat, g: int, k: nat, u: nat)
    requires k <= u && Reached(max, size, g, u)
    ensures Reached(max, size, g, k)
    decreases u
  {
    if k < u && g < max {
      var p2, p3 := Power(2, u - 1), Power(3, u - 1);
      assert g * (2 * p2) == 2 * (g * p2) && size * (3 * p3) == 3 * (size * p3);
      assert size * p3 >= 0;
      ReachedWithFewer(max, size, g, k, u - 1);
    }
  }

  /** Scale-ups, and scale-downs, between l and l'. */
  function UpsSince(l: Loop, l': Loop): int { |l'.ups| - |l.ups| }

  function DownsSince(l: Loop, l': Loop): int { |l'.downs| - |l.downs| }

  /** The size with every scale-down made good twice over. */
  function Restored(l: Loop, l': Loop): int
    requires DownsSince(l, l') >= 0
  {
    l'.size * Power(2, DownsSince(l, l'))
  }

  ghost predicate FloodedRun(cfg: Config, l: Loop, inputs: seq<Input>) {
    Sound(cfg) && InBounds(cfg, l) && Legal(cfg, l, inputs) && FloodedInputs(cfg, inputs)
  }

  /** The first evaluation of a run: how it moves the pool, and the run from there on. */
  lemma FirstEvaluation(cfg: Config, l: Loop, inputs: seq<Input>) returns (l1: Loop)
    requires FloodedRun(cfg, l, inputs) && inputs != []
    ensures FloodedRun(cfg, l1, inputs[1..])
    ensures l1 == Evaluated(cfg, l, inputs[0]) && Run(cfg, l, inputs) == Run(cfg, l1, inputs[1..])
    ensures UpsSince(l, l1) == (if Grows(cfg, l, inputs[0]) then 1 else 0)
    ensures DownsSince(l, l1) == (if Shrinks(cfg, l, inputs[0]) then 1 else 0)
    ensures Grows(cfg, l, inputs[0]) ==> l1.size == cfg.max || 2 * l1.size >= 3 * l.size
    ensures !Shrinks(cfg, l, inputs[0]) ==> l1.size >= l.size
    ensures 2 * l1.size >= l.size
  {
    l1 := Evaluated(cfg, l, inputs[0]);
    FloodedEvaluation(cfg, l, inputs[0]);
  }

  /** What the run from l1 reaches, the run from l reaches. */
  lemma {:induction false} ReachedFromFirst(cfg: Config, l: Loop, l1: Loop, l': Loop)
    requires 1 <= l.size <= cfg.max && 1 <= l1.size <= cfg.max && 1 <= l'.size
    requires UpsSince(l1, l') >= 0 && DownsSince(l1, l') >= 0 && 2 * l1.size >= l.size
    requires UpsSince(l, l1) == 0 || (UpsSince(l, l1) == 1 && (l1.size == cfg.max || 2 * l1.size >= 3 * l.size))
    requires (DownsSince(l, l1) == 0 && l1.size >= l.size) || (DownsSince(l, l1) == 1 && UpsSince(l, l1) == 0)
    requires Reached(cfg.max, l1.size, Restored(l1, l'), UpsSince(l1, l'))
    ensures Reached(cfg.max, l.size, Restored(l, l'), UpsSince(l, l'))
  {
    var g, u := Restored(l1, l'), UpsSince(l1, l');
    if DownsSince(l, l1) == 1 {
      assert Restored(l, l') == 2 * g;
      ReachedFromHalf(cfg.max, l.size, l1.size, g, u);
    } else if UpsSince(l, l1) == 0 {
      TimesMonotone(l.size, l1.size, Power(3, u));
    } else if 2 * l1.size >= 3 * l.size {
      ReachedFromHalfAgain(cfg.max, l.size, l1.size, g, u);
    } else {
      ReachedWithFewer(cfg.max, cfg.max, g, 0, u);
    }
  }

  /** For every flooded run, at whatever intervals and whoever is idle: after u scale-ups and d
      scale-downs the size times 2^d is at least the maximum or (3/2)^u times the first size. */
  lemma {:induction false} FloodedRunGrows(cfg: Config, l: Loop, inputs: seq<Input>)
    requires FloodedRun(cfg, l, inputs)
    ensures var l' := Run(cfg, l, inputs);
      && InBounds(cfg, l') && UpsSince(l, l') >= 0 && DownsSince(l, l') >= 0
      && Reached(cfg.max, l.size, Restored(l, l'), UpsSince(l, l'))
    decreases |inputs|
  {
    if inputs != [] {
      var l1 := FirstEvaluation(cfg, l, inputs);
      FloodedRunGrows(cfg, l1, inputs[1..]);
      ReachedFromFirst(cfg, l, l1, Run(cfg, l1, inputs[1..]));
    }
  }

  /** Whenever somebody is idle, not yet for long. */
  predicate NeverLongIdle(cfg: Config, inputs: seq<Input>) {
    forall i :: 0 <= i < |inputs| ==>
      inputs[i].snap.idleWorkers == 0 || inputs[i].snap.oldestIdleTime <= cfg.downIdleTime
  }

  /** Then there is no scale-down, so the size itself is the maximum or at least (3/2)^u times
      the first, and a full pool stays full. */
  lemma {:induction false} FloodedRunNeverShrinks(cfg: Config, l: Loop, inputs: seq<Input>)
    requires FloodedRun(cfg, l, inputs) && NeverLongIdle(cfg, inputs)
    ensures var l' := Run(cfg, l, inputs); DownsSince(l, l') == 0 && l'.size >= l.size
    decreases |inputs|
  {
    if inputs != [] {
      var l1 := FirstEvaluation(cfg, l, inputs);
      FloodedRunNeverShrinks(cfg, l1, inputs[1..]);
    }
  }

  // ------------------------------------------------------------- growth in time

  /** The ends of successive evaluations are at most `period` apart. */
  predicate Regular(cfg: Config, l: Loop, inputs: seq<Input>, period: nat)
    requires Legal(cfg, l, inputs)
    decreases |inputs|
  {
    inputs == [] ||
    (inputs[0].clock.done - l.now <= period && Regular(cfg, Evaluated(cfg, l, inputs[0]), inputs[1..], period))
  }

  /** Since `start` there were u scale-ups, and the next one is not long overdue: `base` is no
      earlier than the last of them. */
  predicate Paced(l: Loop, start: int, base: int, u: nat, period: nat) {
    && base - start <= u * (UP_COOLDOWN + 2 * period) && l.now - base < UP_COOLDOWN + period
    && (l.m.lastScaleUp.Some? ==> l.m.lastScaleUp.value <= base)
  }

  lemma PaceKept(cfg: Config, l: Loop, e: Input, start: int, base: int, u: nat, period: nat)
    requires Sound(cfg) && InBounds(cfg, l) && Timely(l, e) && Flooded(cfg, e.snap.queueDepth) && l.size < cfg.max
    requires e.clock.done - l.now <= period && Paced(l, start, base, u, period)
    ensures var l' := Evaluated(cfg, l, e);
      if Cooled(l, e) then Paced(l', start, l'.now, u + 1, period) else Paced(l', start, base, u, period)
  {
    FloodedEvaluation(cfg, l, e);
    assert (u + 1) * (UP_COOLDOWN + 2 * period) == u * (UP_COOLDOWN + 2 * period) + UP_COOLDOWN + 2 * period;
  }

  /** The pool has been full, give or take the scale-downs since, or the scale-ups kept pace. */
  ghost predicate FullOrOnTime(cfg: Config, l: Loop, l': Loop, start: int, u: nat, period: nat) {
    && UpsSince(l, l') >= 0 && DownsSince(l, l') >= 0
    && (Restored(l, l') >= cfg.max || l'.now - start < (u + UpsSince(l, l') + 1) * (UP_COOLDOWN + 2 * period))
  }

  lemma FullPoolIsOnTime(cfg: Config, l: Loop, inputs: seq<Input>, start: int, u: nat, period: nat)
    requires FloodedRun(cfg, l, inputs) && l.size == cfg.max
    ensures FullOrOnTime(cfg, l, Run(cfg, l, inputs), start, u, period)
  {
    var l' := Run(cfg, l, inputs);
    FloodedRunGrows(cfg, l, inputs);
    ReachedWithFewer(cfg.max, cfg.max, Restored(l, l'), 0, UpsSince(l, l'));
  }

  lemma {:induction false} OnTimeFromFirst(cfg: Config, l: Loop, l1: Loop, l': Loop, start: int, u: nat, period: nat)
    requires 0 <= UpsSince(l, l1) && 0 <= DownsSince(l, l1) <= 1 && l'.size >= 1
    requires FullOrOnTime(cfg, l1, l', start, u + UpsSince(l, l1), period)
    ensures FullOrOnTime(cfg, l, l', start, u, period)
  {
    if DownsSince(l, l1) == 1 { assert Restored(l, l') == 2 * Restored(l1, l'); }
  }

  lemma {:induction false} PacedRun(cfg: Config, l: Loop, inputs: seq<Input>,
                                    start: int, base: int, u: nat, period: nat)
    requires FloodedRun(cfg, l, inputs) && Regular(cfg, l, inputs, period) && Paced(l, start, base, u, period)
    ensures FullOrOnTime(cfg, l, Run(cfg, l, inputs), start, u, period)
    decreases |inputs|
  {
    if inputs == [] {
      assert (u + 1) * (UP_COOLDOWN + 2 * period) == u * (UP_COOLDOWN + 2 * period) + UP_COOLDOWN + 2 * period;
    } else if l.size == cfg.max {
      FullPoolIsOnTime(cfg, l, inputs, start, u, period);
    } else {
      var l1 := FirstEvaluation(cfg, l, inputs);
      PaceKept(cfg, l, inputs[0], start, base, u, period);
      if Grows(cfg, l, inputs[0]) {
        PacedRun(cfg, l1, inputs[1..], start, l1.now, u + 1, period);
      } else {
        PacedRun(cfg, l1, inputs[1..], start, base, u, period);
      }
      FloodedRunGrows(cfg, l1, inputs[1..]);
      OnTimeFromFirst(cfg, l, l1, Run(cfg, l1, inputs[1..]), start, u, period);
    }
  }

  /** And in time: if the ends of successive evaluations are at most `period` apart, then after
      k times the cooldown plus two periods the size, times 2^d for d scale-downs, is at least
      the maximum or (3/2)^k times the first size. */
  lemma {:induction false} FloodedRunGrowsInTime(cfg: Config, l: Loop, inputs: seq<Input>, period: nat, k: nat)
    requires FloodedRun(cfg, l, inputs) && UpIsPast(l) && Regular(cfg, l, inputs, period)
    requires Run(cfg, l, inputs).now - l.now >= k * (UP_COOLDOWN + 2 * period)
    ensures var l' := Run(cfg, l, inputs);
      && DownsSince(l, l') >= 0 && (Restored(l, l') >= cfg.max || UpsSince(l, l') >= k)
      && Reached(cfg.max, l.size, Restored(l, l'), k)
  {
    var l' := Run(cfg, l, inputs);
    PacedRun(cfg, l, inputs, l.now, l.now, 0, period);
    FloodedRunGrows(cfg, l, inputs);
    if Restored(l, l') < cfg.max {
      var u := UpsSince(l, l');
      assert k <= u by {
        if k >= u + 1 { TimesMonotone(u + 1, k, UP_COOLDOWN + 2 * period); }
      }
      ReachedWithFewer(cfg.max, l.size, Restored(l, l'), k, u);
    }
  }

  /** The stamps of the scale-downs made in a run. */
  lemma {:induction false} RunStampsDowns(cfg: Config, l: Loop, inputs: seq<Input>)
    requires Legal(cfg, l, inputs)
    ensures var l' := Run(cfg, l, inputs);
      && l.now <= l'.now && DownsSince(l, l') >= 0
      && forall i :: |l.downs| <= i < |l'.downs| ==> l.now <= l'.downs[i] <= l'.now
    ensures Run(cfg, l, inputs).downs[..|l.downs|] == l.downs
    decreases |inputs|
  {
    if inputs != [] {
      var l1, l' := Evaluated(cfg, l, inputs[0]), Run(cfg, l, inputs);
      RunStampsDowns(cfg, l1, inputs[1..]);
      assert l1.downs[..|l.downs|] == l.downs;
      assert forall i :: 0 <= i < |l1.downs| ==> l'.downs[i] == l'.downs[..|l1.downs|][i];
    }
  }

  lemma {:induction false} SpacedSpan(times: seq<int>, gap: nat, i: nat, j: nat)
    requires SpacedBy(times, gap) && i <= j < |times|
    ensures times[j] - times[i] >= (j - i) * gap
    decreases j - i
  {
    if i < j {
      SpacedSpan(times, gap, i, j - 1);
      assert times[j - 1 + 1] - times[j - 1] >= gap;
      assert (j - i) * gap == (j - 1 - i) * gap + gap;
    }
  }

  /** Scale-downs are that rare: d of them take at least d - 1 down-cooldowns. */
  lemma {:induction false} DownsAreRare(cfg: Config, l: Loop, inputs: seq<Input>)
    requires Sound(cfg) && LoopOk(cfg, l) && Legal(cfg, l, inputs)
    ensures var l' := Run(cfg, l, inputs); (DownsSince(l, l') - 1) * DOWN_COOLDOWN <= l'.now - l.now
  {
    var l' := Run(cfg, l, inputs);
    LoopSafety(cfg, l, inputs);
    RunStampsDowns(cfg, l, inputs);
    if DownsSince(l, l') > 0 {
      SpacedSpan(l'.downs, DOWN_COOLDOWN, |l.downs|, |l'.downs| - 1);
    }
  }
}
