/** The worker pool (internal/worker/pool.go): the class as its callers see it one call at a
    time, and the same calls interleaved, where removal is check / unlock / shut down /
    relock / delete / unregister. */
module Pool {
  import opened Tasks
  import opened Metrics

  datatype WorkerState = IdleWorker | ShuttingDown

  // ------------------------------------------------------------------ the class

  class WorkerPool {
    var workers: set<nat>
    var states: map<nat, WorkerState>
    var nextWorkerID: nat
    const minWorkers: int
    const maxWorkers: int
    const metrics: Collector

    /** What holds between calls when no two calls overlap. */
    ghost predicate Valid()
      reads this, metrics
    {
      && 1 <= minWorkers <= maxWorkers && |workers| <= maxWorkers && 1 <= nextWorkerID
      && states.Keys == workers && (forall id :: id in states ==> states[id] == IdleWorker)
      && (forall id :: id in workers ==> 1 <= id < nextWorkerID)
      && Agree(metrics.View()) && metrics.View().stats.Keys == workers
    }

    constructor (minConfigured: int, maxConfigured: int)
      ensures Valid() && fresh(metrics) && workers == {}
      ensures minWorkers == (if minConfigured < 1 then 1 else minConfigured)
      ensures maxWorkers == (if maxConfigured < minWorkers then minWorkers else maxConfigured)
    {
      var low := if minConfigured < 1 then 1 else minConfigured;
      minWorkers := low;
      maxWorkers := if maxConfigured < low then low else maxConfigured;
      workers, states, nextWorkerID := {}, map[], 1;
      metrics := new Collector();
    }

    /** A worker under a number never used before, unless the pool is full. */
    method AddWorker(now: int) returns (id: Option<nat>)
      requires Valid()
      modifies this, metrics
      ensures Valid()
      ensures id.None? <==> |old(workers)| >= maxWorkers
      ensures id.None? ==> workers == old(workers) && nextWorkerID == old(nextWorkerID)
      ensures id.Some? ==> id.value == old(nextWorkerID) && id.value !in old(workers)
      ensures id.Some? ==> workers == old(workers) + {id.value}
      ensures id.Some? ==> nextWorkerID == old(nextWorkerID) + 1 && |workers| == |old(workers)| + 1
      ensures metrics.View() ==
        if id.Some? then Registered(old(metrics.View()), id.value, now) else old(metrics.View())
    {
      if |workers| >= maxWorkers { return None; }
      var workerID := nextWorkerID;
      RegisterKeepsAgree(metrics.View(), workerID, now);
      nextWorkerID := nextWorkerID + 1;
      workers := workers + {workerID};
      states := states[workerID := IdleWorker];
      metrics.RegisterWorker(workerID, now);
      return Some(workerID);
    }

    method RemoveWorker(id: nat) returns (ok: bool)
      requires Valid()
      modifies this, metrics
      ensures Valid() && nextWorkerID == old(nextWorkerID)
      ensures ok <==> id in old(workers) && |old(workers)| > minWorkers
      ensures workers == if ok then old(workers) - {id} else old(workers)
      ensures metrics.View() == if ok then Unregistered(old(metrics.View()), id) else old(metrics.View())
    {
      if id !in workers { return false; }
      if |workers| <= minWorkers { return false; }
      states := states[id := ShuttingDown];
      workers := workers - {id};
      states := states - {id};
      UnregisterKeepsAgree(metrics.View(), id);
      metrics.UnregisterWorker(id);
      return true;
    }

    method GetIdleWorker() returns (id: Option<nat>)
      ensures id.None? <==> forall x :: x in states ==> states[x] != IdleWorker
      ensures id.Some? ==> id.value in states && states[id.value] == IdleWorker
    {
      var todo := states.Keys;
      while todo != {}
        invariant todo <= states.Keys
        invariant forall x :: x in states && x !in todo ==> states[x] != IdleWorker
        decreases |todo|
      {
        var x :| x in todo;
        if states[x] == IdleWorker { return Some(x); }
        todo := todo - {x};
      }
      return None;
    }

    /** Start adds min workers, as far as the maximum allows: an empty pool gets exactly min. */
    method Start(now: int) returns (ok: bool)
      requires Valid()
      modifies this, metrics
      ensures Valid() && ok
      ensures |workers| == if |old(workers)| + minWorkers <= maxWorkers then |old(workers)| + minWorkers else maxWorkers
    {
      for i := 0 to minWorkers
        invariant Valid()
        invariant |workers| == if |old(workers)| + i <= maxWorkers then |old(workers)| + i else maxWorkers
      {
        var _ := AddWorker(now);
      }
      return |workers| > 0;
    }
  }

  // --------------------------------------------------------------- interleaving

  /** A RemoveWorker call: before its first lock, shutting the worker down, between the
      deletion and UnregisterWorker, over. */
  datatype Removal = Entered(id: nat) | Shutting(id: nat) | Deleted(id: nat) | Over

  datatype State = State(
    workers: set<nat>,
    next: nat,
    min: int,
    max: int,
    removals: seq<Removal>,
    gauges: Gauges)

  datatype Action =
    | Add(now: int)
    | Remove(id: nat)
    | Step(j: nat)
    | Busy(id: nat, now: int)
    | Idle(id: nat, now: int)

  predicate Enabled(s: State, a: Action) {
    match a
    case Add(_) => true
    case Remove(_) => true
    case Step(j) => j < |s.removals|
    case Busy(id, _) => id in s.workers
    case Idle(id, _) => id in s.workers
  }

  function StepRemoval(s: State, j: nat): State
    requires j < |s.removals|
  {
    match s.removals[j]
    case Entered(id) =>
      if id !in s.workers || |s.workers| <= s.min then s.(removals := s.removals[j := Over])
      else s.(removals := s.removals[j := Shutting(id)])
    case Shutting(id) => s.(workers := s.workers - {id}, removals := s.removals[j := Deleted(id)])
    case Deleted(id) => s.(gauges := Unregistered(s.gauges, id), removals := s.removals[j := Over])
    case Over => s
  }

  function Apply(s: State, a: Action): State
    requires Enabled(s, a)
  {
    match a
    case Add(now) =>
      if |s.workers| >= s.max then s
      else s.(workers := s.workers + {s.next}, next := s.next + 1, gauges := Registered(s.gauges, s.next, now))
    case Remove(id) => s.(removals := s.removals + [Entered(id)])
    case Step(j) => StepRemoval(s, j)
    case Busy(id, now) => s.(gauges := MarkedBusy(s.gauges, id, now))
    case Idle(id, now) => s.(gauges := MarkedIdle(s.gauges, id, now))
  }

  predicate Legal(s: State, actions: seq<Action>)
    decreases |actions|
  {
    actions == [] || (Enabled(s, actions[0]) && Legal(Apply(s, actions[0]), actions[1..]))
  }

  function Run(s: State, actions: seq<Action>): State
    requires Legal(s, actions)
    decreases |actions|
  {
    if actions == [] then s else Run(Apply(s, actions[0]), actions[1..])
  }

  function ShuttingCount(rs: seq<Removal>): nat {
    if rs == [] then 0 else ShuttingCount(rs[..|rs| - 1]) + (if rs[|rs| - 1].Shutting? then 1 else 0)
  }

  function DeletedCount(rs: seq<Removal>): nat {
    if rs == [] then 0 else DeletedCount(rs[..|rs| - 1]) + (if rs[|rs| - 1].Deleted? then 1 else 0)
  }

  lemma {:induction false} CountsAfter(rs: seq<Removal>, j: nat, r: Removal)
    requires j < |rs|
    ensures ShuttingCount(rs[j := r])
      == ShuttingCount(rs) - (if rs[j].Shutting? then 1 else 0) + (if r.Shutting? then 1 else 0)
    ensures DeletedCount(rs[j := r])
      == DeletedCount(rs) - (if rs[j].Deleted? then 1 else 0) + (if r.Deleted? then 1 else 0)
  {
    var last := |rs| - 1;
    if j == last {
      assert rs[j := r][..last] == rs[..last];
    } else {
      assert rs[j := r][..last] == rs[..last][j := r];
      CountsAfter(rs[..last], j, r);
    }
  }

  lemma CountsAfterCall(rs: seq<Removal>, id: nat)
    ensures ShuttingCount(rs + [Entered(id)]) == ShuttingCount(rs)
    ensures DeletedCount(rs + [Entered(id)]) == DeletedCount(rs)
  {
    assert (rs + [Entered(id)])[..|rs|] == rs;
  }

  ghost predicate Numbered(s: State) {
    |s.workers| <= s.max && forall id :: id in s.workers ==> id < s.next
  }

  lemma {:induction false} RunKeepsNumbered(s: State, actions: seq<Action>)
    requires Numbered(s) && Legal(s, actions)
    ensures var s' := Run(s, actions); Numbered(s') && s.next <= s'.next && s'.min == s.min && s'.max == s.max
    ensures forall id :: id in Run(s, actions).workers && id < s.next ==> id in s.workers
    decreases |actions|
  {
    if actions != [] {
      var s1 := Apply(s, actions[0]);
      if actions[0].Add? && |s.workers| < s.max {
        assert |s1.workers| == |s.workers| + 1;
      } else if actions[0].Step? && s.removals[actions[0].j].Shutting? {
        assert |s1.workers| <= |s.workers|;
      }
      RunKeepsNumbered(s1, actions[1..]);
    }
  }

  /** Whatever overlaps, the pool never exceeds its maximum and never reuses a number: a
      worker present later under a number already issued has been present all along. */
  lemma {:induction false} NeverOverMaxNeverReused(s: State, actions: seq<Action>)
    requires Numbered(s) && Legal(s, actions)
    ensures |Run(s, actions).workers| <= s.max
    ensures forall id :: id in Run(s, actions).workers && id !in s.workers ==> id >= s.next
  {
    RunKeepsNumbered(s, actions);
  }

  /** At no point are more than k removals between their check and their deletion. */
  predicate OverlapAtMost(s: State, actions: seq<Action>, k: nat)
    requires Legal(s, actions)
    decreases |actions|
  {
    ShuttingCount(s.removals) <= k && (actions == [] || OverlapAtMost(Apply(s, actions[0]), actions[1..], k))
  }

  lemma {:induction false} ActionKeepsFloor(s: State, a: Action, k: nat)
    requires Enabled(s, a) && |s.workers| <= s.max && (forall id :: id in s.workers ==> id < s.next)
    requires |s.workers| - ShuttingCount(s.removals) >= s.min + 1 - k
    requires ShuttingCount(Apply(s, a).removals) <= k
    ensures |Apply(s, a).workers| - ShuttingCount(Apply(s, a).removals) >= s.min + 1 - k
  {
    match a
    case Add(_) =>
      if |s.workers| < s.max { assert |s.workers + {s.next}| == |s.workers| + 1; }
    case Remove(id) => CountsAfterCall(s.removals, id);
    case Step(j) =>
      var s' := Apply(s, a);
      CountsAfter(s.removals, j, s'.removals[j]);
      if s.removals[j].Shutting? {
        var id := s.removals[j].id;
        assert |s.workers - {id}| >= |s.workers| - 1;
      }
    case Busy(_, _) =>
    case Idle(_, _) =>
  }

  lemma {:induction false} RunKeepsFloor(s: State, actions: seq<Action>, k: nat)
    requires Legal(s, actions) && Numbered(s) && OverlapAtMost(s, actions, k)
    requires |s.workers| - ShuttingCount(s.removals) >= s.min + 1 - k
    ensures |Run(s, actions).workers| >= s.min + 1 - k
    decreases |actions|
  {
    if actions != [] {
      var s1 := Apply(s, actions[0]);
      ActionKeepsFloor(s, actions[0], k);
      assert Legal(s, [actions[0]]);
      RunKeepsNumbered(s, [actions[0]]);
      assert Run(s, [actions[0]]) == s1;
      RunKeepsFloor(s1, actions[1..], k);
    }
  }

  /** Started with at least min workers and with at most k overlapping removals, the pool
      never falls below min - (k - 1); for sequential removals that is min. */
  lemma {:induction false} NeverBelowFloor(s: State, actions: seq<Action>, k: nat)
    requires Legal(s, actions) && Numbered(s) && k >= 1 && OverlapAtMost(s, actions, k)
    requires ShuttingCount(s.removals) == 0 && |s.workers| >= s.min
    ensures |Run(s, actions).workers| >= s.min - (k - 1)
  {
    RunKeepsFloor(s, actions, k);
  }

  lemma {:induction false} RunOnward(s: State, a: seq<Action>, b: seq<Action>)
    requires Legal(s, a) && Legal(Run(s, a), b)
    ensures Legal(s, a + b) && Run(s, a + b) == Run(Run(s, a), b)
    decreases |a|
  {
    if a == [] {
      assert a + b == b;
    } else {
      assert (a + b)[1..] == a[1..] + b;
      RunOnward(Apply(s, a[0]), a[1..], b);
    }
  }

  lemma {:induction false} OverlapOnward(s: State, a: seq<Action>, b: seq<Action>, k: nat)
    requires Legal(s, a) && Legal(Run(s, a), b) && Legal(s, a + b)
    requires OverlapAtMost(s, a, k) && OverlapAtMost(Run(s, a), b, k)
    ensures OverlapAtMost(s, a + b, k)
    decreases |a|
  {
    if a == [] {
      assert a + b == b;
    } else {
      assert (a + b)[0] == a[0] && (a + b)[1..] == a[1..] + b;
      OverlapOnward(Apply(s, a[0]), a[1..], b, k);
    }
  }

  lemma RunConcat(s: State, a: seq<Action>, b: seq<Action>, k: nat)
    requires Legal(s, a) && OverlapAtMost(s, a, k)
    requires Legal(Run(s, a), b) && OverlapAtMost(Run(s, a), b, k)
    ensures Legal(s, a + b) && Run(s, a + b) == Run(Run(s, a), b) && OverlapAtMost(s, a + b, k)
  {
    RunOnward(s, a, b);
    OverlapOnward(s, a, b, k);
  }

  lemma OneAction(s: State, a: Action, k: nat)
    requires Enabled(s, a) && ShuttingCount(s.removals) <= k && ShuttingCount(Apply(s, a).removals) <= k
    ensures Legal(s, [a]) && Run(s, [a]) == Apply(s, a) && OverlapAtMost(s, [a], k)
  {
    assert [a][1..] == [];
  }

  lemma Bracket(s: State, a: seq<Action>, b: seq<Action>, last: Action, k: nat)
    requires Legal(s, a) && OverlapAtMost(s, a, k)
    requires Legal(Run(s, a), b) && OverlapAtMost(Run(s, a), b, k)
    requires var s' := Run(Run(s, a), b);
      Enabled(s', last) && ShuttingCount(s'.removals) <= k && ShuttingCount(Apply(s', last).removals) <= k
    ensures var all := a + b + [last];
      Legal(s, all) && Run(s, all) == Apply(Run(Run(s, a), b), last) && OverlapAtMost(s, all, k)
  {
    RunConcat(s, a, b, k);
    OneAction(Run(s, a + b), last, k);
    RunConcat(s, a + b, [last], k);
  }

  lemma OneMoreShutting(rs: seq<Removal>, id: nat)
    ensures ShuttingCount(rs + [Shutting(id)]) == ShuttingCount(rs) + 1
  {
    assert (rs + [Shutting(id)])[..|rs|] == rs;
  }

  /** A removal of id that passes its check and then waits in Shutdown. */
  lemma {:induction false} Opening(s: State, id: nat, k: nat) returns (actions: seq<Action>)
    requires id in s.workers && |s.workers| > s.min && ShuttingCount(s.removals) < k
    ensures Legal(s, actions) && OverlapAtMost(s, actions, k)
    ensures Run(s, actions) == s.(removals := s.removals + [Shutting(id)])
  {
    var j := |s.removals|;
    var s1 := Apply(s, Remove(id));
    CountsAfterCall(s.removals, id);
    OneMoreShutting(s.removals, id);
    assert s1.removals[j := Shutting(id)] == s.removals + [Shutting(id)];
    OneAction(s, Remove(id), k);
    OneAction(s1, Step(j), k);
    actions := [Remove(id)] + [Step(j)];
    RunConcat(s, [Remove(id)], [Step(j)], k);
  }

  /** s' is s without the workers ids, the removals under way in s still where they were. */
  ghost predicate Without(s: State, s': State, ids: seq<nat>) {
    && |s'.workers| == |s.workers| - |ids|
    && (forall id :: id in s'.workers <==> id in s.workers && id !in ids)
    && |s.removals| <= |s'.removals| && s'.removals[..|s.removals|] == s.removals
    && ShuttingCount(s'.removals) == ShuttingCount(s.removals)
  }

  /** The removal opened in s1 ends after those of `rest`. */
  lemma {:induction false} Closing(s: State, s1: State, s2: State, id: nat, rest: seq<nat>)
    requires s1 == s.(removals := s.removals + [Shutting(id)]) && Without(s1, s2, rest)
    requires ShuttingCount(s1.removals) == ShuttingCount(s.removals) + 1
    requires id in s.workers && id !in rest
    ensures Without(s, StepRemoval(s2, |s.removals|), [id] + rest)
  {
    var j := |s.removals|;
    assert s2.removals[j] == s2.removals[..j + 1][j] == Shutting(id);
    CountsAfter(s2.removals, j, Deleted(id));
    var s3 := StepRemoval(s2, j);
    assert s3.removals[..j] == s2.removals[..j + 1][..j] == s.removals;
    assert |s3.workers| == |s2.workers| - 1;
  }

  /** The actions, with at most k removals overlapping, take the workers ids out of s. */
  ghost predicate TakesOut(s: State, actions: seq<Action>, ids: seq<nat>, k: nat) {
    Legal(s, actions) && OverlapAtMost(s, actions, k) && Without(s, Run(s, actions), ids)
  }

  function Opened(s: State, id: nat): State { s.(removals := s.removals + [Shutting(id)]) }

  /** The removal of the first worker around those of the others. */
  lemma {:induction false} Nest(s: State, ids: seq<nat>, inner: seq<Action>, k: nat) returns (actions: seq<Action>)
    requires ids != [] && ids[0] in s.workers && ids[0] !in ids[1..]
    requires |s.workers| > s.min && ShuttingCount(s.removals) < k && TakesOut(Opened(s, ids[0]), inner, ids[1..], k)
    ensures TakesOut(s, actions, ids, k)
  {
    var id, rest := ids[0], ids[1..];
    OneMoreShutting(s.removals, id);
    var opening := Opening(s, id, k);
    var s1 := Run(s, opening);
    Closing(s, s1, Run(s1, inner), id, rest);
    Bracket(s, opening, inner, Step(|s.removals|), k);
    actions := opening + inner + [Step(|s.removals|)];
    assert [id] + rest == ids;
  }

  predicate DistinctIn(ids: seq<nat>, workers: set<nat>) {
    ids == [] || (ids[0] in workers && ids[0] !in ids[1..] && DistinctIn(ids[1..], workers))
  }

  lemma NothingRemoved(s: State, k: nat)
    requires ShuttingCount(s.removals) <= k
    ensures TakesOut(s, [], [], k)
  {
  }

  /** The floor is reached: removals of any k distinct workers can overlap so that all of
      them pass the check; from min + 1 workers that leaves exactly min - (k - 1). */
  lemma {:induction false} FloorIsReached(s: State, ids: seq<nat>, k: nat) returns (actions: seq<Action>)
    requires |s.workers| > s.min && DistinctIn(ids, s.workers) && ShuttingCount(s.removals) + |ids| <= k
    ensures TakesOut(s, actions, ids, k)
    decreases |ids|
  {
    if ids == [] {
      NothingRemoved(s, k);
      return [];
    }
    OneMoreShutting(s.removals, ids[0]);
    var inner := FloorIsReached(Opened(s, ids[0]), ids[1..], k);
    actions := Nest(s, ids, inner, k);
  }

  // ------------------------------------------------------- the pool and its metrics

  /** The step deletes a worker that another removal has deleted already. */
  predicate Redundant(s: State, a: Action) {
    a.Step? && a.j < |s.removals| && s.removals[a.j].Shutting? && s.removals[a.j].id !in s.workers
  }

  /** How many such steps a run takes. */
  function Drift(s: State, actions: seq<Action>): nat
    requires Legal(s, actions)
    decreases |actions|
  {
    if actions == [] then 0
    else (if Redundant(s, actions[0]) then 1 else 0) + Drift(Apply(s, actions[0]), actions[1..])
  }

  /** Registered workers are in the pool or deleted and about to be unregistered. */
  ghost predicate Registry(s: State) {
    && s.workers <= s.gauges.stats.Keys
    && (forall id :: id in s.gauges.stats ==> id < s.next && (id in s.workers || Deleted(id) in s.removals))
  }

  predicate RemovalOk(s: State, r: Removal) {
    && (r.Shutting? ==> r.id < s.next)
    && (r.Deleted? ==> r.id < s.next && r.id !in s.workers)
  }

  ghost predicate RemovalsOk(s: State) {
    forall i :: 0 <= i < |s.removals| ==> RemovalOk(s, s.removals[i])
  }

  /** Deleted workers are still registered, each once. */
  ghost predicate DeletedOnce(s: State) {
    && (forall i :: 0 <= i < |s.removals| && s.removals[i].Deleted? ==> s.removals[i].id in s.gauges.stats)
    && (forall i, j :: 0 <= i < j < |s.removals| && s.removals[i].Deleted? && s.removals[j].Deleted?
          ==> s.removals[i].id != s.removals[j].id)
  }

  /** The books of the pool after d redundant deletions. */
  ghost predicate Tallied(s: State, d: nat) {
    && Numbered(s) && Registry(s) && RemovalsOk(s)
    && s.gauges.active == |s.workers| + DeletedCount(s.removals) - d
    && (d == 0 ==> Agree(s.gauges) && DeletedOnce(s))
  }

  lemma {:induction false} DeleteKeepsRegistry(s: State, j: nat)
    requires Registry(s) && RemovalsOk(s) && j < |s.removals| && s.removals[j].Shutting?
    ensures Registry(StepRemoval(s, j)) && RemovalsOk(StepRemoval(s, j))
  {
    var s' := StepRemoval(s, j);
    var id := s.removals[j].id;
    assert RemovalOk(s, s.removals[j]);
    forall i | 0 <= i < |s'.removals| ensures RemovalOk(s', s'.removals[i]) {
      assert RemovalOk(s, s.removals[i]);
    }
    assert s'.removals[j] == Deleted(id);
    forall x | x in s'.gauges.stats && x !in s'.workers ensures Deleted(x) in s'.removals {
      if x != id {
        var i :| 0 <= i < |s.removals| && s.removals[i] == Deleted(x);
        assert s'.removals[i] == Deleted(x);
      }
    }
  }

  lemma {:induction false} DeleteKeepsOnce(s: State, j: nat)
    requires Registry(s) && RemovalsOk(s) && DeletedOnce(s)
    requires j < |s.removals| && s.removals[j].Shutting? && s.removals[j].id in s.workers
    ensures DeletedOnce(StepRemoval(s, j))
  {
    forall i | 0 <= i < |s.removals| && s.removals[i].Deleted? ensures s.removals[i].id !in s.workers {
      assert RemovalOk(s, s.removals[i]);
    }
  }

  lemma {:induction false} DeleteKeepsTally(s: State, j: nat, d: nat)
    requires Tallied(s, d) && j < |s.removals| && s.removals[j].Shutting?
    ensures Tallied(StepRemoval(s, j), if Redundant(s, Step(j)) then d + 1 else d)
  {
    var id := s.removals[j].id;
    CountsAfter(s.removals, j, Deleted(id));
    DeleteKeepsRegistry(s, j);
    if id in s.workers {
      assert |s.workers - {id}| == |s.workers| - 1;
      if d == 0 { DeleteKeepsOnce(s, j); }
    }
  }

  lemma {:induction false} UnregisterKeepsRegistry(s: State, j: nat)
    requires Registry(s) && RemovalsOk(s) && j < |s.removals| && s.removals[j].Deleted?
    ensures Registry(StepRemoval(s, j)) && RemovalsOk(StepRemoval(s, j))
  {
    var s' := StepRemoval(s, j);
    assert RemovalOk(s, s.removals[j]);
    forall i | 0 <= i < |s'.removals| ensures RemovalOk(s', s'.removals[i]) {
      assert RemovalOk(s, s.removals[i]);
    }
    forall x | x in s'.gauges.stats && x !in s'.workers ensures Deleted(x) in s'.removals {
      var i :| 0 <= i < |s.removals| && s.removals[i] == Deleted(x);
      assert s'.removals[i] == Deleted(x);
    }
  }

  lemma {:induction false} UnregisterKeepsOnce(s: State, j: nat)
    requires DeletedOnce(s) && j < |s.removals| && s.removals[j].Deleted?
    ensures DeletedOnce(StepRemoval(s, j))
  {
  }

  lemma {:induction false} UnregisterKeepsTally(s: State, j: nat, d: nat)
    requires Tallied(s, d) && j < |s.removals| && s.removals[j].Deleted?
    ensures Tallied(StepRemoval(s, j), d)
  {
    CountsAfter(s.removals, j, Over);
    UnregisterKeepsRegistry(s, j);
    if d == 0 {
      UnregisterKeepsAgree(s.gauges, s.removals[j].id);
      UnregisterKeepsOnce(s, j);
    }
  }

  /** The other steps of a removal, and a new one, leave workers and metrics alone. */
  lemma {:induction false} RemovalsKeepTally(s: State, s': State, d: nat)
    requires Tallied(s, d) && s' == s.(removals := s'.removals) && DeletedCount(s'.removals) == DeletedCount(s.removals)
    requires |s.removals| <= |s'.removals|
    requires forall i :: 0 <= i < |s'.removals| && i >= |s.removals| ==> s'.removals[i].Entered?
    requires forall i :: 0 <= i < |s.removals| ==>
      || s'.removals[i] == s.removals[i]
      || (s.removals[i].Entered? && RemovalOk(s, s'.removals[i]) && !s'.removals[i].Deleted?)
    ensures Tallied(s', d)
  {
    forall i | 0 <= i < |s'.removals| ensures RemovalOk(s', s'.removals[i]) {
      assert i < |s.removals| ==> RemovalOk(s, s.removals[i]);
    }
    forall x | x in s'.gauges.stats && x !in s'.workers ensures Deleted(x) in s'.removals {
      var i :| 0 <= i < |s.removals| && s.removals[i] == Deleted(x);
      assert s'.removals[i] == Deleted(x);
    }
  }

  /** A change of the metrics that keeps registrations, and agreement where there was any. */
  lemma {:induction false} MarkKeepsTally(s: State, s': State, d: nat)
    requires Tallied(s, d) && s' == s.(gauges := s'.gauges)
    requires s'.gauges.active == s.gauges.active && s'.gauges.stats.Keys == s.gauges.stats.Keys
    requires Agree(s.gauges) ==> Agree(s'.gauges)
    ensures Tallied(s', d)
  {
    forall i | 0 <= i < |s'.removals| ensures RemovalOk(s', s'.removals[i]) {
      assert RemovalOk(s, s.removals[i]);
    }
  }

  lemma {:induction false} AddKeepsTally(s: State, now: int, d: nat)
    requires Tallied(s, d)
    ensures Tallied(Apply(s, Add(now)), d)
  {
    var s' := Apply(s, Add(now));
    if |s.workers| < s.max {
      if d == 0 { RegisterKeepsAgree(s.gauges, s.next, now); }
      assert |s'.workers| == |s.workers| + 1;
      forall i | 0 <= i < |s'.removals| ensures RemovalOk(s', s'.removals[i]) {
        assert RemovalOk(s, s.removals[i]);
      }
    }
  }

  lemma {:induction false} StepKeepsTally(s: State, j: nat, d: nat)
    requires Tallied(s, d) && j < |s.removals|
    ensures Tallied(StepRemoval(s, j), if Redundant(s, Step(j)) then d + 1 else d)
  {
    if s.removals[j].Shutting? {
      DeleteKeepsTally(s, j, d);
    } else if s.removals[j].Deleted? {
      UnregisterKeepsTally(s, j, d);
    } else {
      var s' := StepRemoval(s, j);
      CountsAfter(s.removals, j, s'.removals[j]);
      RemovalsKeepTally(s, s', d);
    }
  }

  lemma {:induction false} RemoveKeepsTally(s: State, id: nat, d: nat)
    requires Tallied(s, d)
    ensures Tallied(Apply(s, Remove(id)), d)
  {
    CountsAfterCall(s.removals, id);
    RemovalsKeepTally(s, Apply(s, Remove(id)), d);
  }

  lemma {:induction false} ActionKeepsTally(s: State, a: Action, d: nat)
    requires Tallied(s, d) && Enabled(s, a)
    ensures Tallied(Apply(s, a), if Redundant(s, a) then d + 1 else d)
  {
    var s' := Apply(s, a);
    match a
    case Add(now) => AddKeepsTally(s, now, d);
    case Remove(id) => RemoveKeepsTally(s, id, d);
    case Step(j) => StepKeepsTally(s, j, d);
    case Busy(id, now) =>
      if Agree(s.gauges) { MarkBusyKeepsAgree(s.gauges, id, now); }
      MarkKeepsTally(s, s', d);
    case Idle(id, now) =>
      if Agree(s.gauges) { MarkIdleKeepsAgree(s.gauges, id, now); }
      MarkKeepsTally(s, s', d);
  }

  lemma {:induction false} RunKeepsTally(s: State, actions: seq<Action>, d: nat)
    requires Tallied(s, d) && Legal(s, actions)
    ensures Tallied(Run(s, actions), d + Drift(s, actions))
    decreases |actions|
  {
    if actions != [] {
      ActionKeepsTally(s, actions[0], d);
      RunKeepsTally(Apply(s, actions[0]), actions[1..], if Redundant(s, actions[0]) then d + 1 else d);
    }
  }

  lemma {:induction false} NoneDeleted(rs: seq<Removal>, id: nat)
    requires DeletedCount(rs) == 0
    ensures Deleted(id) !in rs
  {
    if rs != [] { NoneDeleted(rs[..|rs| - 1], id); }
  }

  /** How the metrics follow the pool through every interleaving, overlapping removals of the
      same worker included: active is the number of workers plus the removals deleted but not
      yet unregistered, less one for every worker deleted twice. The metrics agree with their
      maps as long as there was no such deletion; when no removal is half done, only then. */
  lemma {:induction false} MetricsFollowPool(s: State, actions: seq<Action>)
    requires Tallied(s, 0) && Legal(s, actions)
    ensures var s' := Run(s, actions);
      && s'.gauges.active == |s'.workers| + DeletedCount(s'.removals) - Drift(s, actions)
      && (Drift(s, actions) == 0 ==> Agree(s'.gauges))
      && (DeletedCount(s'.removals) == 0 ==>
            s'.gauges.stats.Keys == s'.workers && (Agree(s'.gauges) <==> Drift(s, actions) == 0))
  {
    RunKeepsTally(s, actions, 0);
    var s' := Run(s, actions);
    if DeletedCount(s'.removals) == 0 {
      forall id | id in s'.gauges.stats ensures id in s'.workers { NoneDeleted(s'.removals, id); }
      assert |s'.gauges.stats| == |s'.gauges.stats.Keys|;
    }
  }

  /** No removal of a worker starts while another one of the same worker is under way. */
  predicate DistinctRemovals(s: State, actions: seq<Action>)
    requires Legal(s, actions)
    decreases |actions|
  {
    actions == [] ||
    (&& (actions[0].Remove? ==>
           forall i :: 0 <= i < |s.removals| ==> s.removals[i].Over? || s.removals[i].id != actions[0].id)
     && DistinctRemovals(Apply(s, actions[0]), actions[1..]))
  }

  ghost predicate Separate(s: State) {
    && (forall i, j :: 0 <= i < j < |s.removals| && !s.removals[i].Over? && !s.removals[j].Over?
          ==> s.removals[i].id != s.removals[j].id)
    && (forall i :: 0 <= i < |s.removals| && s.removals[i].Shutting? ==> s.removals[i].id in s.workers)
  }

  /** That discipline rules the drift out. */
  lemma {:induction false} DistinctRemovalsDoNotDrift(s: State, actions: seq<Action>)
    requires Legal(s, actions) && Separate(s) && DistinctRemovals(s, actions)
    ensures Drift(s, actions) == 0
    decreases |actions|
  {
    if actions != [] {
      SeparateKept(s, actions[0]);
      DistinctRemovalsDoNotDrift(Apply(s, actions[0]), actions[1..]);
    }
  }

  lemma SeparateKept(s: State, a: Action)
    requires Separate(s) && Enabled(s, a)
    requires a.Remove? ==> forall i :: 0 <= i < |s.removals| ==> s.removals[i].Over? || s.removals[i].id != a.id
    ensures Separate(Apply(s, a)) && !Redundant(s, a)
  {
  }

  /** Without it the drift is real: two removals of any one worker, started one after the
      other's check, both succeed, and active drops by two for one worker. */
  lemma {:induction false} DoubleRemovalDrifts(s: State, id: nat) returns (actions: seq<Action>)
    requires id in s.workers && |s.workers| > s.min
    ensures Legal(s, actions)
    ensures Run(s, actions).workers == s.workers - {id}
    ensures Run(s, actions).gauges.active == s.gauges.active - 2
  {
    var j, k := |s.removals|, ShuttingCount(s.removals) + 2;
    OneMoreShutting(s.removals, id);
    var first := Opening(s, id, k);
    var s1 := s.(removals := s.removals + [Shutting(id)]);
    OneMoreShutting(s1.removals, id);
    var second := Opening(s1, id, k);
    RunConcat(s, first, second, k);
    var s2 := s1.(removals := s1.removals + [Shutting(id)]);
    var closing := BothClose(s2, j);
    actions := first + second + closing;
    RunOnward(s, first + second, closing);
  }

  /** Two removals of the same worker run from Shutdown to their ends. */
  lemma {:induction false} BothClose(s: State, j: nat) returns (actions: seq<Action>)
    requires j + 1 < |s.removals| && s.removals[j] == s.removals[j + 1] && s.removals[j].Shutting?
    ensures Legal(s, actions)
    ensures Run(s, actions).workers == s.workers - {s.removals[j].id}
    ensures Run(s, actions).gauges.active == s.gauges.active - 2
  {
    var s1 := Apply(s, Step(j));
    var s2 := Apply(s1, Step(j + 1));
    var s3 := Apply(s2, Step(j));
    var s4 := Apply(s3, Step(j + 1));
    var a3 := [Step(j + 1)];
    assert a3[1..] == [] && Legal(s3, a3) && Run(s3, a3) == s4;
    var a2 := [Step(j)] + a3;
    assert a2[1..] == a3 && Legal(s2, a2) && Run(s2, a2) == s4;
    var a1 := [Step(j + 1)] + a2;
    assert a1[1..] == a2 && Legal(s1, a1) && Run(s1, a1) == s4;
    actions := [Step(j)] + a1;
    assert actions[1..] == a1 && Run(s, actions) == s4;
  }
}
