/** The four lists together behave as one stable priority queue: a single sequence from
    which the first task of greatest priority is taken. */
module PriorityOrder {
  import opened Tasks
  import opened Redis
  import opened RedisQueue

  ghost predicate Reliable(up: Network) { forall n: nat :: up(n) }

  // --------------------------------------------------------- the simple queue

  /** The position of the first task of greatest priority. */
  function Best(waiting: seq<Task>): (b: nat)
    requires waiting != []
    ensures b < |waiting|
    ensures forall j :: 0 <= j < |waiting| ==> waiting[j].priority <= waiting[b].priority
    ensures forall j :: 0 <= j < b ==> waiting[j].priority < waiting[b].priority
  {
    var last := |waiting| - 1;
    if last == 0 then 0
    else
      var b := Best(waiting[..last]);
      if waiting[last].priority > waiting[b].priority then last else b
  }

  function Without(waiting: seq<Task>, i: nat): seq<Task>
    requires i < |waiting|
  {
    waiting[..i] + waiting[i + 1..]
  }

  /** The identifiers of priority p, in order. */
  function OfPriority(waiting: seq<Task>, p: int): seq<TaskId> {
    if waiting == [] then []
    else
      var last := |waiting| - 1;
      OfPriority(waiting[..last], p) + (if waiting[last].priority == p then [waiting[last].id] else [])
  }

  lemma {:induction false} OfPriorityConcat(a: seq<Task>, b: seq<Task>, p: int)
    ensures OfPriority(a + b, p) == OfPriority(a, p) + OfPriority(b, p)
  {
    if b == [] {
      assert a + b == a;
    } else {
      var last := |b| - 1;
      assert (a + b)[..|a| + last] == a + b[..last];
      OfPriorityConcat(a, b[..last], p);
    }
  }

  lemma {:induction false} OfPriorityEmpty(waiting: seq<Task>, p: int)
    ensures OfPriority(waiting, p) == [] <==> (forall i :: 0 <= i < |waiting| ==> waiting[i].priority != p)
  {
    if waiting != [] {
      OfPriorityEmpty(waiting[..|waiting| - 1], p);
    }
  }

  /** Taking out position i takes one identifier out of its own list and leaves the others. */
  lemma OfPriorityWithout(waiting: seq<Task>, i: nat, p: int)
    requires i < |waiting|
    ensures OfPriority(waiting, p) == OfPriority(waiting[..i], p)
      + (if waiting[i].priority == p then [waiting[i].id] else []) + OfPriority(waiting[i + 1..], p)
    ensures OfPriority(Without(waiting, i), p) == OfPriority(waiting[..i], p) + OfPriority(waiting[i + 1..], p)
  {
    assert waiting == waiting[..i + 1] + waiting[i + 1..];
    OfPriorityConcat(waiting[..i + 1], waiting[i + 1..], p);
    assert waiting[..i + 1][..i] == waiting[..i];
    OfPriorityConcat(waiting[..i], waiting[i + 1..], p);
  }

  lemma {:induction false} OfPrioritySnoc(waiting: seq<Task>, t: Task, p: int)
    ensures OfPriority(waiting + [t], p) == OfPriority(waiting, p) + (if t.priority == p then [t.id] else [])
  {
    assert (waiting + [t])[..|waiting|] == waiting;
  }

  ghost predicate ListsFor(lists: Lists, waiting: seq<Task>) {
    forall p: Priority :: lists[p] == OfPriority(waiting, p)
  }

  ghost predicate DataFor(data: map<TaskId, Task>, waiting: seq<Task>) {
    forall i :: 0 <= i < |waiting| ==> waiting[i].id in data && data[waiting[i].id] == waiting[i]
  }

  /** The lists and data of db represent exactly the waiting tasks. */
  ghost predicate Represents(db: Db, waiting: seq<Task>) {
    ListsFor(db.lists, waiting) && DataFor(db.data, waiting)
  }

  // -------------------------------------------------------------- simulation

  lemma {:induction false} PushRepresents(db: Db, waiting: seq<Task>, t: Task)
    requires ListsFor(db.lists, waiting)
    ensures ListsFor(RPush(db, t.priority, t.id).lists, waiting + [t])
  {
    forall p: Priority ensures RPush(db, t.priority, t.id).lists[p] == OfPriority(waiting + [t], p) {
      OfPrioritySnoc(waiting, t, p);
    }
  }

  lemma {:induction false} StoreRepresents(db: Db, waiting: seq<Task>, t: Task)
    requires DataFor(db.data, waiting) && forall i :: 0 <= i < |waiting| ==> waiting[i].id != t.id
    ensures DataFor(SetTask(db, t).data, waiting + [t])
  {
  }

  lemma {:induction false} EnqueueSimulates(db: Db, waiting: seq<Task>, t: Task, up: Network)
    requires Reliable(up) && Represents(db, waiting)
    requires forall i :: 0 <= i < |waiting| ==> waiting[i].id != t.id
    ensures var r := Enqueued(db, t, up); r.ok && Represents(r.db, waiting + [t])
  {
    StoreRepresents(db, waiting, t);
    PushRepresents(SetTask(db, t), waiting, t);
    var r := Enqueued(db, t, up);
    assert r.db == IncrTotal(RPush(SetTask(db, t), t.priority, t.id));
  }

  lemma DataForWithout(data: map<TaskId, Task>, waiting: seq<Task>, b: nat)
    requires DataFor(data, waiting) && b < |waiting|
    ensures DataFor(data, Without(waiting, b))
  {
    var rest := Without(waiting, b);
    forall i | 0 <= i < |rest| ensures rest[i].id in data && data[rest[i].id] == rest[i] {
      assert rest[i] == waiting[if i < b then i else i + 1];
    }
  }

  /** The head of the highest non-empty list is the first task of greatest priority. */
  lemma {:induction false} PopRepresents(db: Db, waiting: seq<Task>, p: Priority)
    requires ListsFor(db.lists, waiting) && waiting != [] && waiting[Best(waiting)].priority == p
    ensures db.lists[p] != [] && db.lists[p][0] == waiting[Best(waiting)].id
    ensures ListsFor(LPop(db, p).lists, Without(waiting, Best(waiting)))
  {
    var b := Best(waiting);
    OfPriorityEmpty(waiting[..b], p);
    OfPriorityWithout(waiting, b, p);
    forall q: Priority ensures LPop(db, p).lists[q] == OfPriority(Without(waiting, b), q) {
      OfPriorityWithout(waiting, b, q);
    }
  }

  /** What Dequeue must do on these waiting tasks. */
  ghost predicate TakesBest(db: Db, waiting: seq<Task>, r: Pull) {
    if waiting == [] then r.got == Ok(None) && r.db == db
    else
      var t := waiting[Best(waiting)];
      && r.got == Ok(Some(t)) && Represents(r.db, Without(waiting, Best(waiting)))
      && r.db.data == db.data && r.db.processing == db.processing + {t.id}
  }

  lemma {:induction false} DequeueFromSimulates(db: Db, waiting: seq<Task>, p: int, up: Network, c: nat)
    requires Reliable(up) && Represents(db, waiting) && -1 <= p < 4
    requires forall i :: 0 <= i < |waiting| ==> waiting[i].priority <= p
    ensures TakesBest(db, waiting, DequeuedFrom(db, p, up, c))
    decreases p + 1
  {
    if p >= 0 {
      OfPriorityEmpty(waiting, p);
      if db.lists[p] == [] {
        DequeueFromSimulates(db, waiting, p - 1, up, c + 1);
      } else {
        PopRepresents(db, waiting, p);
        DataForWithout(db.data, waiting, Best(waiting));
      }
    }
  }

  lemma DequeueSimulates(db: Db, waiting: seq<Task>, up: Network)
    requires Reliable(up) && Represents(db, waiting)
    ensures TakesBest(db, waiting, Dequeued(db, up))
  {
    DequeueFromSimulates(db, waiting, 3, up, 0);
  }

  /** A call of the queue, and what it hands back. */
  datatype Op = Put(t: Task) | Take | Finish(id: TaskId)

  function Call(db: Db, op: Op, up: Network): Pull {
    match op
    case Put(t) => Pull(Enqueued(db, t, up).db, Ok(None))
    case Take => Dequeued(db, up)
    case Finish(id) => Pull(Acked(db, id, up), Ok(None))
  }

  datatype Ideal = Ideal(waiting: seq<Task>, got: Option<Task>)

  function IdealCall(waiting: seq<Task>, op: Op): Ideal {
    match op
    case Put(t) => Ideal(waiting + [t], None)
    case Take =>
      if waiting == [] then Ideal([], None)
      else Ideal(Without(waiting, Best(waiting)), Some(waiting[Best(waiting)]))
    case Finish(_) => Ideal(waiting, None)
  }

  /** Identifiers are submitted once while they wait, and only tasks not waiting are finished. */
  predicate Proper(waiting: seq<Task>, ops: seq<Op>)
    decreases |ops|
  {
    ops == [] ||
    (&& (ops[0].Put? ==> forall i :: 0 <= i < |waiting| ==> waiting[i].id != ops[0].t.id)
     && (ops[0].Finish? ==> forall i :: 0 <= i < |waiting| ==> waiting[i].id != ops[0].id)
     && Proper(IdealCall(waiting, ops[0]).waiting, ops[1..]))
  }

  function Outputs(db: Db, ops: seq<Op>, up: Network): seq<Reply<Option<Task>>>
    decreases |ops|
  {
    if ops == [] then [] else [Call(db, ops[0], up).got] + Outputs(Call(db, ops[0], up).db, ops[1..], up)
  }

  function IdealOutputs(waiting: seq<Task>, ops: seq<Op>): seq<Option<Task>>
    decreases |ops|
  {
    if ops == [] then []
    else [IdealCall(waiting, ops[0]).got] + IdealOutputs(IdealCall(waiting, ops[0]).waiting, ops[1..])
  }

  lemma CallSimulates(db: Db, waiting: seq<Task>, op: Op, up: Network)
    requires Reliable(up) && Represents(db, waiting) && Proper(waiting, [op])
    ensures Represents(Call(db, op, up).db, IdealCall(waiting, op).waiting)
    ensures Call(db, op, up).got == Ok(IdealCall(waiting, op).got)
  {
    match op
    case Put(t) => EnqueueSimulates(db, waiting, t, up);
    case Take => DequeueSimulates(db, waiting, up);
    case Finish(id) =>
  }

  /** Every history of calls hands out what the single stable priority queue hands out. */
  lemma {:induction false} HistoriesAgree(db: Db, waiting: seq<Task>, ops: seq<Op>, up: Network)
    requires Reliable(up) && Represents(db, waiting) && Proper(waiting, ops)
    ensures |Outputs(db, ops, up)| == |IdealOutputs(waiting, ops)| == |ops|
    ensures forall i :: 0 <= i < |ops| ==> Outputs(db, ops, up)[i] == Ok(IdealOutputs(waiting, ops)[i])
    decreases |ops|
  {
    if ops != [] {
      assert Proper(waiting, [ops[0]]);
      CallSimulates(db, waiting, ops[0], up);
      var first, ideal := Call(db, ops[0], up), IdealCall(waiting, ops[0]);
      HistoriesAgree(first.db, ideal.waiting, ops[1..], up);
      var out, ideals := Outputs(first.db, ops[1..], up), IdealOutputs(ideal.waiting, ops[1..]);
      forall i | 0 <= i < |ops| ensures ([first.got] + out)[i] == Ok(([ideal.got] + ideals)[i]) {
        if i > 0 { assert ([first.got] + out)[i] == out[i - 1] && ([ideal.got] + ideals)[i] == ideals[i - 1]; }
      }
    }
  }

  /** Taking until nothing is left. */
  function Drained(waiting: seq<Task>): seq<Task>
    decreases |waiting|
  {
    if waiting == [] then [] else [waiting[Best(waiting)]] + Drained(Without(waiting, Best(waiting)))
  }

  ghost predicate ByPriority(s: seq<Task>) {
    forall i, j :: 0 <= i < j < |s| ==> s[i].priority >= s[j].priority
  }

  lemma {:induction false} DrainedBounded(waiting: seq<Task>, p: int)
    requires forall i :: 0 <= i < |waiting| ==> waiting[i].priority <= p
    ensures forall i :: 0 <= i < |Drained(waiting)| ==> Drained(waiting)[i].priority <= p
    decreases |waiting|
  {
    if waiting != [] { DrainedBounded(Without(waiting, Best(waiting)), p); }
  }

  lemma {:induction false} DrainStepKeepsOrder(waiting: seq<Task>, p: int)
    requires waiting != []
    ensures var b := Best(waiting);
      OfPriority(waiting, p) == OfPriority([waiting[b]], p) + OfPriority(Without(waiting, b), p)
  {
    var b := Best(waiting);
    OfPriorityWithout(waiting, b, p);
    OfPrioritySnoc([], waiting[b], p);
    assert [] + [waiting[b]] == [waiting[b]];
    if waiting[b].priority == p {
      OfPriorityEmpty(waiting[..b], p);
    }
  }

  lemma {:induction false} DrainedInOrder(waiting: seq<Task>)
    ensures ByPriority(Drained(waiting))
    ensures forall p: int :: OfPriority(Drained(waiting), p) == OfPriority(waiting, p)
    decreases |waiting|
  {
    if waiting != [] {
      var b := Best(waiting);
      var rest := Without(waiting, b);
      DrainedInOrder(rest);
      DrainedBounded(rest, waiting[b].priority);
      forall p: int ensures OfPriority(Drained(waiting), p) == OfPriority(waiting, p) {
        OfPriorityConcat([waiting[b]], Drained(rest), p);
        DrainStepKeepsOrder(waiting, p);
      }
    }
  }

  /** n calls of Dequeue. */
  function Takes(n: nat): seq<Op> {
    if n == 0 then [] else [Take] + Takes(n - 1)
  }

  /** The tasks among the replies, in order. */
  function Handed(replies: seq<Reply<Option<Task>>>): seq<Task> {
    if replies == [] then []
    else (if replies[0].Ok? && replies[0].value.Some? then [replies[0].value.value] else []) + Handed(replies[1..])
  }

  lemma {:induction false} HandedAll(replies: seq<Reply<Option<Task>>>, tasks: seq<Task>)
    requires |replies| == |tasks| && forall i :: 0 <= i < |tasks| ==> replies[i] == Ok(Some(tasks[i]))
    ensures Handed(replies) == tasks
  {
    if tasks != [] { HandedAll(replies[1..], tasks[1..]); }
  }

  lemma {:induction false} TakesAreProper(waiting: seq<Task>, n: nat)
    ensures Proper(waiting, Takes(n)) && |Takes(n)| == n
    decreases n
  {
    if n > 0 {
      TakesAreProper(IdealCall(waiting, Take).waiting, n - 1);
      assert Takes(n)[1..] == Takes(n - 1);
    }
  }

  lemma {:induction false} FirstTake(waiting: seq<Task>)
    requires waiting != []
    ensures var b := Best(waiting);
      IdealOutputs(waiting, Takes(|waiting|)) ==
        [Some(waiting[b])] + IdealOutputs(Without(waiting, b), Takes(|Without(waiting, b)|))
  {
    var ops, rest := Takes(|waiting|), Without(waiting, Best(waiting));
    assert ops == [Take] + Takes(|rest|);
    FirstOutput(waiting, Take, Takes(|rest|));
  }

  lemma {:induction false} FirstOutput(waiting: seq<Task>, op: Op, ops: seq<Op>)
    ensures IdealOutputs(waiting, [op] + ops) ==
      [IdealCall(waiting, op).got] + IdealOutputs(IdealCall(waiting, op).waiting, ops)
  {
    assert ([op] + ops)[1..] == ops;
  }

  lemma {:induction false} TakesDrain(waiting: seq<Task>)
    ensures |IdealOutputs(waiting, Takes(|waiting|))| == |Drained(waiting)| == |waiting|
    ensures forall i :: 0 <= i < |waiting| ==> IdealOutputs(waiting, Takes(|waiting|))[i] == Some(Drained(waiting)[i])
    decreases |waiting|
  {
    if waiting != [] {
      var first, rest := waiting[Best(waiting)], Without(waiting, Best(waiting));
      TakesDrain(rest);
      FirstTake(waiting);
      var out, left := IdealOutputs(rest, Takes(|rest|)), Drained(rest);
      forall i | 0 <= i < |waiting| ensures ([Some(first)] + out)[i] == Some(([first] + left)[i]) {
        if i > 0 { assert ([Some(first)] + out)[i] == out[i - 1] && ([first] + left)[i] == left[i - 1]; }
      }
    }
  }

  /** As many Dequeue calls as tasks are waiting hand out all of them: strictly by priority,
      and for each priority exactly its list, first in first out. */
  lemma {:induction false} DrainOrder(db: Db, waiting: seq<Task>, up: Network)
    requires Reliable(up) && Represents(db, waiting)
    ensures var out := Handed(Outputs(db, Takes(|waiting|), up));
      |out| == |waiting| && ByPriority(out) && forall p: Priority :: OfPriority(out, p) == db.lists[p]
  {
    TakesAreProper(waiting, |waiting|);
    HistoriesAgree(db, waiting, Takes(|waiting|), up);
    TakesDrain(waiting);
    HandedAll(Outputs(db, Takes(|waiting|), up), Drained(waiting));
    DrainedInOrder(waiting);
  }

  // ------------------------------------------------------------ Peek and faults

  lemma {:induction false} PeekFromIsDequeueFrom(db: Db, db': Db, p: int, up: Network, c: nat, bad: set<TaskId>)
    requires -1 <= p < 4 && db'.data == db.data
    requires forall q :: 0 <= q <= p ==> db'.lists[q] == db.lists[q]
    ensures PeekedFrom(db, p, up, c, bad) == DequeuedFrom(db', p, up, c, bad).got
    decreases p + 1
  {
    if p >= 0 {
      if db.lists[p] == [] {
        PeekFromIsDequeueFrom(db, db', p - 1, up, c + 1, bad);
      } else if db.lists[p][0] !in db.data {
        PeekFromIsDequeueFrom(db, LPop(db', p), p - 1, up, c + 2, bad);
      }
    }
  }

  /** In any state of the server, orphaned heads and undecodable data included, and whichever
      commands fail, Peek returns what Dequeue would return instead. */
  lemma PeekIsNextDequeue(db: Db, up: Network, bad: set<TaskId>)
    ensures Peeked(db, up, bad) == Dequeued(db, up, bad).got
  {
    PeekFromIsDequeueFrom(db, db, 3, up, 0, bad);
  }

  /** The head of a list that GET reads: an error if its data does not decode, and otherwise its
      task, with the head gone from the list and nothing else changed but the processing key. */
  ghost predicate HeadDecides(db: Db, q: Priority, marked: bool, bad: set<TaskId>, r: Pull)
    requires db.lists[q] != [] && db.lists[q][0] in db.data
  {
    var id := db.lists[q][0];
    if id in bad then r.got.Down?
    else
      && r.got == Ok(Some(db.data[id])) && r.db.data == db.data && r.db.lists == db.lists[q := db.lists[q][1..]]
      && (id in r.db.processing <==> id in db.processing || marked)
  }

  /** What a Dequeue from list p downwards must return, by the first non-empty list, h lists
      down: an error if an LPOP up to it or the GET of its head fails, nothing if there is none. */
  ghost predicate FirstListDecides(db: Db, p: int, up: Network, c: nat, bad: set<TaskId>, r: Pull)
    requires -1 <= p < 4
  {
    var h := Skipped(db, p);
    && h <= p + 1 && (forall q :: p - h < q <= p ==> db.lists[q] == []) && (h <= p ==> db.lists[p - h] != [])
    && if h == p + 1 then if p >= 0 && PopFails(up, c, p) then r == Pull(db, Down) else r == Pull(db, Ok(None))
       else if PopFails(up, c, h) then r == Pull(db, Down)
       else if !up(c + h + 1) then r.got.Down?
       else db.lists[p - h][0] in db.data ==> HeadDecides(db, p - h, up(c + h + 2), bad, r)
  }

  lemma {:induction false} DequeueFromByCases(db: Db, p: int, up: Network, c: nat, bad: set<TaskId>)
    requires -1 <= p < 4
    ensures FirstListDecides(db, p, up, c, bad, DequeuedFrom(db, p, up, c, bad))
    decreases p + 1
  {
    if p >= 0 && db.lists[p] == [] {
      DequeueFromByCases(db, p - 1, up, c + 1, bad);
      var h := Skipped(db, p);
      assert h <= p && up(c) ==> (PopFails(up, c, h) <==> PopFails(up, c + 1, h - 1));
      assert 0 < p < h && up(c) ==> (PopFails(up, c, p) <==> PopFails(up, c + 1, p - 1));
    }
  }

  /** What Dequeue returns in any state of the server and whichever commands fail. */
  lemma DequeueByCases(db: Db, up: Network, bad: set<TaskId>)
    ensures FirstListDecides(db, 3, up, 0, bad, Dequeued(db, up, bad))
  {
    DequeueFromByCases(db, 3, up, 0, bad);
  }

  ghost predicate NoOrphans(db: Db) {
    forall p: Priority, i :: 0 <= i < |db.lists[p]| ==> db.lists[p][i] in db.data
  }

  /** How many lists from p downwards a Dequeue passes over before the first non-empty one. */
  function Skipped(db: Db, p: int): nat
    requires -1 <= p < 4
    decreases p + 1
  {
    if p < 0 || db.lists[p] != [] then 0 else 1 + Skipped(db, p - 1)
  }

  /** One of the LPOPs numbered c to c + h fails. */
  ghost predicate PopFails(up: Network, c: nat, h: nat) {
    exists n: nat :: c <= n <= c + h && !up(n)
  }

  /** A Dequeue from list p downwards leaves the lists above alone and never makes one longer. */
  lemma {:induction false} DequeueFromFrame(db: Db, p: int, up: Network, c: nat, bad: set<TaskId>, q: Priority)
    requires -1 <= p < q
    ensures DequeuedFrom(db, p, up, c, bad).db.lists[q] == db.lists[q]
    decreases p + 1
  {
    if p >= 0 && up(c) {
      if db.lists[p] == [] {
        DequeueFromFrame(db, p - 1, up, c + 1, bad, q);
      } else if up(c + 1) && db.lists[p][0] !in db.data {
        DequeueFromFrame(LPop(db, p), p - 1, up, c + 2, bad, q);
      }
    }
  }

  lemma {:induction false} FailedHead(db: Db, p: Priority, up: Network, c: nat, bad: set<TaskId>)
    requires db.lists[p] != [] && up(c) && DequeuedFrom(db, p, up, c, bad).got.Down?
    ensures DequeuedFrom(db, p, up, c, bad).db == db <==> !up(c + 1) && up(c + 2)
  {
    var popped := LPop(db, p);
    assert db.lists[p] == [db.lists[p][0]] + db.lists[p][1..];
    assert LPush(popped, p, db.lists[p][0]).lists == db.lists;
    assert |popped.lists[p]| < |db.lists[p]|;
    if up(c + 1) && db.lists[p][0] !in db.data {
      DequeueFromFrame(popped, p - 1, up, c + 2, bad, p);
    }
  }

  lemma {:induction false} FailedDequeueFrom(db: Db, p: int, up: Network, c: nat, bad: set<TaskId>)
    requires -1 <= p < 4 && DequeuedFrom(db, p, up, c, bad).got.Down?
    ensures var h := Skipped(db, p);
      DequeuedFrom(db, p, up, c, bad).db == db <==> PopFails(up, c, h) || (!up(c + h + 1) && up(c + h + 2))
    decreases p + 1
  {
    if !up(c) {
      assert PopFails(up, c, Skipped(db, p));
    } else if db.lists[p] == [] {
      FailedDequeueFrom(db, p - 1, up, c + 1, bad);
      assert PopFails(up, c, Skipped(db, p)) <==> PopFails(up, c + 1, Skipped(db, p - 1));
    } else {
      FailedHead(db, p, up, c, bad);
    }
  }

  /** In any state of the server: a Dequeue that reports an error leaves everything exactly as
      it was, a popped identifier back at the head of its list, if and only if an LPOP up to
      the first non-empty list failed, or the GET of its head failed and the LPUSH that undoes
      the pop got through. Otherwise that head is gone from its list. */
  lemma FailedDequeueRestores(db: Db, up: Network, bad: set<TaskId>)
    requires Dequeued(db, up, bad).got.Down?
    ensures var h := Skipped(db, 3);
      Dequeued(db, up, bad).db == db <==> PopFails(up, 0, h) || (!up(h + 1) && up(h + 2))
  {
    FailedDequeueFrom(db, 3, up, 0, bad);
  }

  /** A failed Enqueue leaves no trace if and only if its SET failed, or its clean-up got
      through and the identifier was new, or the clean-up failed too and the very same data
      was stored before. In particular, under an identifier already queued the clean-up
      deletes the queued task's data. */
  lemma FailedEnqueue(db: Db, t: Task, up: Network)
    requires !Enqueued(db, t, up).ok
    ensures Enqueued(db, t, up).db == db <==>
      !up(0) || (if up(2) then t.id !in db.data else t.id in db.data && db.data[t.id] == t)
  {
  }

  /** Nack with requeue sends a dequeued task to the back of its list, data untouched. */
  lemma NackRequeuesAtBack(db: Db, waiting: seq<Task>, up: Network)
    requires Reliable(up) && Represents(db, waiting) && waiting != []
    ensures var t := waiting[Best(waiting)];
      var r := Nacked(Dequeued(db, up).db, t.id, true, up);
      r.ok && Represents(r.db, Without(waiting, Best(waiting)) + [t]) && t.id !in r.db.processing
  {
    DequeueSimulates(db, waiting, up);
    PushRepresents(Dequeued(db, up).db, Without(waiting, Best(waiting)), waiting[Best(waiting)]);
  }

  lemma {:induction false} ListsPurgedShrink(lists: Lists, order: seq<Priority>, up: Network, n: nat)
    ensures forall p: Priority ::
      ListsPurged(lists, order, up, n)[p] == lists[p] || ListsPurged(lists, order, up, n)[p] == []
    ensures forall i :: n <= i < |order| && AllUp(up, |order|) ==> ListsPurged(lists, order, up, n)[order[i]] == []
    decreases |order| - n
  {
    if n < |order| && up(n) {
      ListsPurgedShrink(lists[order[n] := []], order, up, n + 1);
    }
  }

  /** A Purge that stops at any point leaves no identifier listed without its data, since it
      empties the lists first; one that runs through empties everything but the statistics
      and the dead letters. */
  lemma PurgeLeavesNoOrphans(db: Db, order: seq<Priority>, up: Network, data: Scan, processing: Scan)
    requires NoOrphans(db) && forall p: Priority :: p in order
    ensures NoOrphans(PurgedBy(db, order, up, data, processing).db)
    ensures var r := PurgedBy(db, order, up, data, processing);
      r.ok && db.data.Keys <= data.deleted && db.processing <= processing.deleted ==> r.db == Purged(db)
  {
    ListsPurgedShrink(db.lists, order, up, 0);
    var lists := ListsPurged(db.lists, order, up, 0);
    if AllUp(up, |order|) {
      forall p: Priority ensures lists[p] == [] {
        assert p in order;
        var i :| 0 <= i < |order| && order[i] == p;
      }
      assert lists == [[], [], [], []];
    }
    var r := PurgedBy(db, order, up, data, processing);
    forall p: Priority, i | 0 <= i < |r.db.lists[p]| ensures r.db.lists[p][i] in r.db.data {
      assert lists[p] == db.lists[p];
    }
  }
}
