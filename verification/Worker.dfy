/** Worker.pollAndExecute and handleTaskFailure (internal/worker/worker.go:135-269) as the
    sequential code they are, proved against the process of the protocol running alone;
    and what a failing Redis command does to a task in the worker's hands. */
module Worker {
  import opened Tasks
  import opened Redis
  import opened Handlers
  import opened Protocol
  import opened RedisQueue
  import opened PriorityOrder

  /** Everything one poll of a worker reads or changes. */
  datatype Memory = Memory(
    db: Db,
    store: map<TaskId, Task>,
    results: map<TaskId, Result>,
    processed: nat,
    failed: nat,
    retried: nat)

  function Verdicted(t: Task, handlers: set<string>, returned: HandlerReturn, late: bool): Verdict {
    ExecuteVerdict(t, if t.kind in handlers then AnswerOf(t, returned) else NoHandler(t), late)
  }

  function Saved(results: map<TaskId, Result>, r: Option<Result>): map<TaskId, Result> {
    if r.Some? then results[r.value.taskId := r.value] else results
  }

  function SavedTask(store: map<TaskId, Task>, t: Task, written: bool): map<TaskId, Task> {
    if written then store[t.id := t] else store
  }

  /** The network as the calls after the first c commands of a poll find it. */
  function After(up: Network, c: nat): Network { (n: nat) => up(c + n) }

  /** Dequeue sends at most two commands per list and one more. */
  const DEQUEUE_SPAN := 9

  /** EnqueueDLQ sends at most three. */
  const BURIAL_SPAN := 3

  /** Storage that never fails. */
  const SOUND_STORAGE: Network := (n: nat) => true

  /** What a poll tells the run loop. */
  datatype Report = NoTask | Trouble | Settled

  class Poller {
    var queue: Queue
    var store: map<TaskId, Task>
    var results: map<TaskId, Result>
    var processed: nat
    var failed: nat
    var retried: nat

    constructor (q: Queue)
      ensures queue == q && View() == Memory(q.db, map[], map[], 0, 0, 0)
    {
      queue := q;
      store, results := map[], map[];
      processed, failed, retried := 0, 0, 0;
    }

    function View(): Memory
      reads this, queue
    {
      Memory(queue.db, store, results, processed, failed, retried)
    }

    /** One poll; `up` tells for each queue command, `saves` for each of the three writes to
        storage, whether it gets through, and `bad` whose data does not decode. SoloPollMatches
        relates its specification to the protocol's process. */
    method PollAndExecute(handlers: set<string>, returned: HandlerReturn, late: bool,
                          up: Network, saves: Network, bad: set<TaskId>) returns (r: Report)
      modifies this, queue
      ensures queue == old(queue)
      ensures View() == Polled(old(View()), handlers, returned, late, up, saves, bad)
      ensures var got := Dequeued(old(queue.db), up, bad).got;
        r == if got.Down? then Trouble else if got.value.None? then NoTask
             else if TaskOk(Dequeued(old(queue.db), up, bad).db, got.value.value, handlers, returned, late,
                            After(up, DEQUEUE_SPAN))
             then Settled else Trouble
    {
      var reply := queue.Dequeue(up, bad);
      if reply.Down? { return Trouble; }
      if reply.value.None? { return NoTask; }
      var t := new TaskObject(reply.value.value);
      var ok := Process(t, handlers, returned, late, After(up, DEQUEUE_SPAN), saves);
      return if ok then Settled else Trouble;
    }

    method Process(t: TaskObject, handlers: set<string>, returned: HandlerReturn, late: bool,
                   up: Network, saves: Network) returns (ok: bool)
      modifies this, queue, t
      ensures queue == old(queue)
      ensures View() == AfterTask(old(View()), old(t.value), handlers, returned, late, up, saves)
      ensures ok == TaskOk(old(queue.db), old(t.value), handlers, returned, late, up)
    {
      t.MarkStarted();
      store := SavedTask(store, t.value, saves(0));
      var v := Verdicted(t.value, handlers, returned, late);
      ok := Conclude(t, v, up, saves);
    }

    method Conclude(t: TaskObject, v: Verdict, up: Network, saves: Network) returns (ok: bool)
      modifies this, queue, t
      ensures queue == old(queue)
      ensures View() == AfterExecution(old(View()), old(t.value), v, up, saves)
      ensures ok == ExecutionOk(old(queue.db), old(t.value), v, up)
    {
      if saves(1) { results := Saved(results, v.saved); }
      if v.err.Some? {
        failed := failed + 1;
        ok := HandleTaskFailure(t, v.err.value, up, saves);
      } else {
        t.MarkCompleted();
        processed := processed + 1;
        t.MarkCompleted();
        store := SavedTask(store, t.value, saves(2));
        ok := queue.Ack(t.value.id, up);
      }
    }

    method HandleTaskFailure(t: TaskObject, message: string, up: Network, saves: Network) returns (ok: bool)
      modifies this, queue, t
      ensures queue == old(queue)
      ensures View() == AfterTaskFailure(old(View()), old(t.value), message, up, saves)
      ensures ok == FailureOk(old(queue.db), old(t.value), message, up)
    {
      t.MarkFailed(message);
      store := SavedTask(store, t.value, saves(2));
      if t.value.state == Retrying {
        retried := retried + 1;
        ok := queue.Enqueue(t.value, up);
        return;
      }
      var _ := queue.EnqueueDLQ(t.value, ExhaustedReason(t.value), up);
      ok := queue.Nack(t.value.id, false, After(up, BURIAL_SPAN));
    }
  }

  function AfterTaskFailure(m: Memory, t: Task, message: string, up: Network, saves: Network := SOUND_STORAGE): Memory {
    var t' := AfterFailure(t, message);
    var m1 := m.(store := SavedTask(m.store, t', saves(2)));
    if t'.state == Retrying then
      m1.(retried := m.retried + 1, db := Enqueued(m.db, t', up).db)
    else
      var db1 := Buried(m.db, t', ExhaustedReason(t'), up).db;
      m1.(db := if t.id.text == "" then db1 else Nacked(db1, t.id, false, After(up, BURIAL_SPAN)).db)
  }

  /** A failed EnqueueDLQ is not reported, only a failed re-Enqueue is. */
  predicate FailureOk(db: Db, t: Task, message: string, up: Network) {
    if ShouldRetry(t) then Enqueued(db, AfterFailure(t, message), up).ok else t.id.text != ""
  }

  /** What follows the execution of a started task. */
  function AfterExecution(m: Memory, t: Task, v: Verdict, up: Network, saves: Network := SOUND_STORAGE): Memory {
    var m1 := m.(results := if saves(1) then Saved(m.results, v.saved) else m.results);
    if v.err.Some? then AfterTaskFailure(m1.(failed := m.failed + 1), t, v.err.value, up, saves)
    else m1.(processed := m.processed + 1, store := SavedTask(m.store, Finished(t), saves(2)),
             db := if t.id.text == "" then m.db else Acked(m.db, t.id, up))
  }

  predicate ExecutionOk(db: Db, t: Task, v: Verdict, up: Network) {
    if v.err.Some? then FailureOk(db, t, v.err.value, up) else t.id.text != ""
  }

  function AfterTask(m: Memory, t: Task, handlers: set<string>, returned: HandlerReturn, late: bool, up: Network,
                     saves: Network := SOUND_STORAGE): Memory
  {
    AfterExecution(m.(store := SavedTask(m.store, Started(t), saves(0))), Started(t),
                   Verdicted(Started(t), handlers, returned, late), up, saves)
  }

  predicate TaskOk(db: Db, t: Task, handlers: set<string>, returned: HandlerReturn, late: bool, up: Network) {
    ExecutionOk(db, Started(t), Verdicted(Started(t), handlers, returned, late), up)
  }

  function Polled(m: Memory, handlers: set<string>, returned: HandlerReturn, late: bool, up: Network,
                  saves: Network := SOUND_STORAGE, bad: set<TaskId> := {}): Memory
  {
    var r := Dequeued(m.db, up, bad);
    var m1 := m.(db := r.db);
    if r.got.Down? || r.got.value.None? then m1
    else AfterTask(m1, r.got.value.value, handlers, returned, late, After(up, DEQUEUE_SPAN), saves)
  }

  // ------------------------------------- the same poll as steps of the protocol

  /** n steps of process k with nobody else moving. */
  function Solo(w: World, k: nat, returned: HandlerReturn, late: bool, n: nat): World
    requires k < |w.procs|
    decreases n
  {
    if n == 0 then w
    else
      var w1 := ProcStep(w, k, returned, late);
      if k < |w1.procs| then Solo(w1, k, returned, late, n - 1) else w1
  }

  lemma {:induction false} SoloAdd(w: World, k: nat, returned: HandlerReturn, late: bool, m: nat, n: nat)
    requires k < |w.procs| && k < |Solo(w, k, returned, late, m).procs|
    ensures Solo(w, k, returned, late, m + n) == Solo(Solo(w, k, returned, late, m), k, returned, late, n)
    decreases m
  {
    if m > 0 {
      var w1 := ProcStep(w, k, returned, late);
      if k < |w1.procs| { SoloAdd(w1, k, returned, late, m - 1, n); }
    }
  }

  /** Process k, alone, comes from w to w'. */
  ghost predicate Reaches(w: World, w': World, k: nat, returned: HandlerReturn, late: bool) {
    k < |w.procs| && exists n: nat :: Solo(w, k, returned, late, n) == w'
  }

  lemma OneStep(w: World, k: nat, returned: HandlerReturn, late: bool)
    requires k < |w.procs|
    ensures Reaches(w, ProcStep(w, k, returned, late), k, returned, late)
  {
    assert Solo(w, k, returned, late, 1) == ProcStep(w, k, returned, late);
  }

  lemma Onward(w: World, w1: World, w2: World, k: nat, returned: HandlerReturn, late: bool)
    requires Reaches(w, w1, k, returned, late) && Reaches(w1, w2, k, returned, late)
    ensures Reaches(w, w2, k, returned, late)
  {
    var m: nat :| Solo(w, k, returned, late, m) == w1;
    var n: nat :| Solo(w1, k, returned, late, n) == w2;
    SoloAdd(w, k, returned, late, m, n);
  }

  function MemoryOf(w: World, k: nat): Memory
    requires k < |w.procs|
  {
    var proc := w.procs[k];
    Memory(w.db, w.store, w.results, proc.processed, proc.failed, proc.retried)
  }

  /** Process k stands at pc with memory m, under these handlers. */
  ghost predicate At(w: World, k: nat, pc: Pc, m: Memory, handlers: set<string>) {
    k < |w.procs| && w.procs[k].pc == pc && MemoryOf(w, k) == m && w.handlers == handlers
  }

  /** One step from At to At. */
  lemma StepFrom(w: World, k: nat, pc: Pc, m: Memory, handlers: set<string>, returned: HandlerReturn, late: bool)
    returns (w': World)
    requires At(w, k, pc, m, handlers)
    ensures w' == ProcStep(w, k, returned, late) && Reaches(w, w', k, returned, late)
  {
    w' := ProcStep(w, k, returned, late);
    OneStep(w, k, returned, late);
  }

  /** Data is filed under the task's own, non-empty identifier. */
  ghost predicate Filed(db: Db) {
    forall id :: id in db.data ==> db.data[id].id == id && id.text != ""
  }

  lemma PollEmpty(w: World, k: nat, p: Priority, m: Memory, h: set<string>, returned: HandlerReturn, late: bool)
    requires At(w, k, Poll(p), m, h) && m.db.lists[p] == []
    ensures At(ProcStep(w, k, returned, late), k, NextList(p), m, h)
  {
  }

  lemma PollHit(w: World, k: nat, p: Priority, m: Memory, h: set<string>, returned: HandlerReturn, late: bool)
    requires At(w, k, Poll(p), m, h) && m.db.lists[p] != []
    ensures At(ProcStep(w, k, returned, late), k, Popped(p, m.db.lists[p][0]), m.(db := LPop(m.db, p)), h)
  {
  }

  lemma FetchMiss(w: World, k: nat, p: Priority, id: TaskId, m: Memory, h: set<string>,
                  returned: HandlerReturn, late: bool)
    requires At(w, k, Popped(p, id), m, h) && id !in m.db.data
    ensures At(ProcStep(w, k, returned, late), k, NextList(p), m, h)
  {
  }

  lemma FetchHit(w: World, k: nat, p: Priority, id: TaskId, m: Memory, h: set<string>,
                 returned: HandlerReturn, late: bool)
    requires At(w, k, Popped(p, id), m, h) && id in m.db.data
    ensures At(ProcStep(w, k, returned, late), k, Busy(MarkProcessing, m.db.data[id]), m, h)
  {
  }

  lemma MarkStep(w: World, k: nat, t: Task, m: Memory, h: set<string>, returned: HandlerReturn, late: bool)
    requires At(w, k, Busy(MarkProcessing, t), m, h)
    ensures At(ProcStep(w, k, returned, late), k, Busy(SaveStarted, Started(t)), m.(db := SetProcessing(m.db, t.id)), h)
  {
  }

  /** The rest of Dequeue after the list at p turned out useless. */
  ghost predicate Dequeues(w: World, w': World, k: nat, m: Memory, h: set<string>, r: Pull) {
    && r.got.Ok? && r.db.data == m.db.data
    && (r.got.value.Some? ==> r.got.value.value.id.text != "")
    && At(w', k, if r.got.value.None? then Idle else Busy(SaveStarted, Started(r.got.value.value)), m.(db := r.db), h)
  }

  lemma {:induction false} FromNext(w: World, k: nat, p: Priority, m: Memory, h: set<string>, returned: HandlerReturn,
                                    late: bool, up: Network, c: nat) returns (w': World)
    requires At(w, k, NextList(p), m, h) && Filed(m.db) && Reliable(up)
    ensures Reaches(w, w', k, returned, late) && Dequeues(w, w', k, m, h, DequeuedFrom(m.db, p - 1, up, c))
    decreases p, 0
  {
    if p == 0 {
      w' := w;
      assert Solo(w, k, returned, late, 0) == w;
    } else {
      w' := PollPath(w, k, p - 1, m, h, returned, late, up, c);
    }
  }

  lemma {:induction false} PollPath(w: World, k: nat, p: Priority, m: Memory, h: set<string>, returned: HandlerReturn,
                                    late: bool, up: Network, c: nat) returns (w': World)
    requires At(w, k, Poll(p), m, h) && Filed(m.db) && Reliable(up)
    ensures Reaches(w, w', k, returned, late) && Dequeues(w, w', k, m, h, DequeuedFrom(m.db, p, up, c))
    decreases p, 2
  {
    var w1 := StepFrom(w, k, Poll(p), m, h, returned, late);
    if m.db.lists[p] == [] {
      PollEmpty(w, k, p, m, h, returned, late);
      w' := FromNext(w1, k, p, m, h, returned, late, up, c + 1);
    } else {
      PollHit(w, k, p, m, h, returned, late);
      w' := PoppedPath(w1, k, p, m.db.lists[p][0], m.(db := LPop(m.db, p)), h, returned, late, up, c + 2);
    }
    Onward(w, w1, w', k, returned, late);
  }

  lemma {:induction false} PoppedPath(w: World, k: nat, p: Priority, id: TaskId, m: Memory, h: set<string>,
                                      returned: HandlerReturn, late: bool, up: Network, c: nat) returns (w': World)
    requires At(w, k, Popped(p, id), m, h) && Filed(m.db) && Reliable(up)
    ensures Reaches(w, w', k, returned, late)
    ensures Dequeues(w, w', k, m, h, if id in m.db.data then Pull(SetProcessing(m.db, id), Ok(Some(m.db.data[id])))
                                     else DequeuedFrom(m.db, p - 1, up, c))
    decreases p, 1
  {
    var w1 := StepFrom(w, k, Popped(p, id), m, h, returned, late);
    if id in m.db.data {
      FetchHit(w, k, p, id, m, h, returned, late);
      w' := StepFrom(w1, k, Busy(MarkProcessing, m.db.data[id]), m, h, returned, late);
      MarkStep(w1, k, m.db.data[id], m, h, returned, late);
    } else {
      FetchMiss(w, k, p, id, m, h, returned, late);
      w' := FromNext(w1, k, p, m, h, returned, late, up, c);
    }
    Onward(w, w1, w', k, returned, late);
  }

  /** Process k, alone since w0, takes one more step and then stands at pc with memory m. */
  lemma Advance(w0: World, w: World, k: nat, pc: Pc, m: Memory, h: set<string>, returned: HandlerReturn, late: bool)
    returns (w': World)
    requires Reaches(w0, w, k, returned, late)
    requires k < |w.procs| && At(ProcStep(w, k, returned, late), k, pc, m, h)
    ensures Reaches(w0, w', k, returned, late) && At(w', k, pc, m, h)
  {
    w' := ProcStep(w, k, returned, late);
    OneStep(w, k, returned, late);
    Onward(w0, w, w', k, returned, late);
  }

  lemma AckPath(w0: World, w: World, k: nat, t: Task, m: Memory, h: set<string>,
                returned: HandlerReturn, late: bool, up: Network) returns (w': World)
    requires Reaches(w0, w, k, returned, late) && At(w, k, Busy(AckProcessing, t), m, h) && Reliable(up)
    ensures Reaches(w0, w', k, returned, late)
    ensures At(w', k, Idle, m.(db := Acked(m.db, t.id, up)), h)
  {
    var db1 := DelProcessing(m.db, t.id);
    w' := Advance(w0, w, k, Busy(AckData, t), m.(db := db1), h, returned, late);
    var db2 := DelTask(db1, t.id);
    w' := Advance(w0, w', k, Busy(AckStat, t), m.(db := db2), h, returned, late);
    w' := Advance(w0, w', k, Idle, m.(db := IncrCompleted(db2)), h, returned, late);
  }

  lemma SuccessPath(w0: World, w: World, k: nat, t: Task, r: Option<Result>, m: Memory, h: set<string>,
                    returned: HandlerReturn, late: bool, up: Network) returns (w': World)
    requires Reaches(w0, w, k, returned, late) && At(w, k, Busy(SaveSuccess(r), Finished(t)), m, h) && Reliable(up)
    ensures Reaches(w0, w', k, returned, late)
    ensures At(w', k, Idle, m.(results := Saved(m.results, r), processed := m.processed + 1,
                               store := m.store[t.id := Finished(t)], db := Acked(m.db, t.id, up)), h)
  {
    var m1 := m.(results := Saved(m.results, r), processed := m.processed + 1);
    w' := Advance(w0, w, k, Busy(SaveCompleted, Finished(t)), m1, h, returned, late);
    var m2 := m1.(store := m.store[t.id := Finished(t)]);
    w' := Advance(w0, w', k, Busy(AckProcessing, Finished(t)), m2, h, returned, late);
    w' := AckPath(w0, w', k, Finished(t), m2, h, returned, late, up);
  }

  lemma EnqueuePath(w0: World, w: World, k: nat, t: Task, m: Memory, h: set<string>,
                    returned: HandlerReturn, late: bool, up: Network) returns (w': World)
    requires Reaches(w0, w, k, returned, late) && At(w, k, Busy(EnqueueSet, t), m, h) && Reliable(up)
    ensures Reaches(w0, w', k, returned, late)
    ensures At(w', k, Idle, m.(db := Enqueued(m.db, t, up).db), h)
  {
    var db1 := SetTask(m.db, t);
    w' := Advance(w0, w, k, Busy(EnqueuePush, t), m.(db := db1), h, returned, late);
    var db2 := RPush(db1, t.priority, t.id);
    w' := Advance(w0, w', k, CountEnqueued, m.(db := db2), h, returned, late);
    w' := Advance(w0, w', k, Idle, m.(db := IncrTotal(db2)), h, returned, late);
  }

  lemma RetryPath(w0: World, w: World, k: nat, t: Task, m: Memory, h: set<string>,
                  returned: HandlerReturn, late: bool, up: Network) returns (w': World)
    requires Reaches(w0, w, k, returned, late) && At(w, k, Busy(SaveFailed, t), m, h)
    requires t.state == Retrying && Reliable(up)
    ensures Reaches(w0, w', k, returned, late)
    ensures At(w', k, Idle,
               m.(store := m.store[t.id := t], retried := m.retried + 1, db := Enqueued(m.db, t, up).db), h)
  {
    var m1 := m.(store := m.store[t.id := t], retried := m.retried + 1);
    w' := Advance(w0, w, k, Busy(Sleep, t), m1, h, returned, late);
    w' := Advance(w0, w', k, Busy(EnqueueSet, t), m1, h, returned, late);
    w' := EnqueuePath(w0, w', k, t, m1, h, returned, late, up);
  }

  lemma DescribePath(w0: World, w: World, k: nat, t: Task, m: Memory, h: set<string>,
                     returned: HandlerReturn, late: bool) returns (w': World)
    requires Reaches(w0, w, k, returned, late) && At(w, k, Busy(DlqDescribe, t), m, h)
    ensures Reaches(w0, w', k, returned, late)
    ensures At(w', k, Busy(NackProcessing, t), m.(db := IncrDead(SetDlqMeta(m.db, t, t.error))), h)
  {
    var db1 := SetDlqMeta(m.db, t, t.error);
    w' := Advance(w0, w, k, Busy(DlqStat, t), m.(db := db1), h, returned, late);
    w' := Advance(w0, w', k, Busy(NackProcessing, t), m.(db := IncrDead(db1)), h, returned, late);
  }

  lemma DlqPath(w0: World, w: World, k: nat, t: Task, m: Memory, h: set<string>,
                returned: HandlerReturn, late: bool, up: Network) returns (w': World)
    requires Reaches(w0, w, k, returned, late) && At(w, k, Busy(DlqPush, t), m, h) && Reliable(up)
    ensures Reaches(w0, w', k, returned, late)
    ensures At(w', k, Busy(NackProcessing, DeadLettered(t, ExhaustedReason(t))),
               m.(db := Buried(m.db, t, ExhaustedReason(t), up).db), h)
  {
    var t' := DeadLettered(t, ExhaustedReason(t));
    var m1 := m.(db := PushDlq(m.db, t'));
    w' := Advance(w0, w, k, Busy(DlqDescribe, t'), m1, h, returned, late);
    w' := DescribePath(w0, w', k, t', m1, h, returned, late);
  }

  lemma NackPath(w0: World, w: World, k: nat, t: Task, m: Memory, h: set<string>,
                 returned: HandlerReturn, late: bool, up: Network) returns (w': World)
    requires Reaches(w0, w, k, returned, late) && At(w, k, Busy(NackProcessing, t), m, h) && Reliable(up)
    ensures Reaches(w0, w', k, returned, late)
    ensures At(w', k, Idle, m.(db := Nacked(m.db, t.id, false, up).db), h)
  {
    var db1 := DelProcessing(m.db, t.id);
    w' := Advance(w0, w, k, Busy(NackData, t), m.(db := db1), h, returned, late);
    var db2 := DelTask(db1, t.id);
    w' := Advance(w0, w', k, Busy(NackStat, t), m.(db := db2), h, returned, late);
    w' := Advance(w0, w', k, Idle, m.(db := IncrFailed(db2)), h, returned, late);
  }

  lemma ExhaustedPath(w0: World, w: World, k: nat, t: Task, m: Memory, h: set<string>,
                      returned: HandlerReturn, late: bool, up: Network) returns (w': World)
    requires Reaches(w0, w, k, returned, late) && At(w, k, Busy(SaveFailed, t), m, h)
    requires t.state != Retrying && Reliable(up)
    ensures Reaches(w0, w', k, returned, late)
    ensures At(w', k, Idle, m.(store := m.store[t.id := t],
      db := Nacked(Buried(m.db, t, ExhaustedReason(t), up).db, t.id, false, After(up, BURIAL_SPAN)).db), h)
  {
    var m1 := m.(store := m.store[t.id := t]);
    w' := Advance(w0, w, k, Busy(DlqPush, t), m1, h, returned, late);
    w' := DlqPath(w0, w', k, t, m1, h, returned, late, up);
    var m2 := m1.(db := Buried(m1.db, t, ExhaustedReason(t), up).db);
    w' := NackPath(w0, w', k, DeadLettered(t, ExhaustedReason(t)), m2, h, returned, late, After(up, BURIAL_SPAN));
  }

  lemma FailurePath(w0: World, w: World, k: nat, t: Task, r: Option<Result>, message: string, m: Memory, h: set<string>,
                    returned: HandlerReturn, late: bool, up: Network) returns (w': World)
    requires Reaches(w0, w, k, returned, late) && At(w, k, Busy(SaveFailure(r, message), t), m, h)
    requires Reliable(up) && t.id.text != ""
    ensures Reaches(w0, w', k, returned, late)
    ensures At(w', k, Idle,
               AfterTaskFailure(m.(results := Saved(m.results, r), failed := m.failed + 1), t, message, up), h)
  {
    var t' := AfterFailure(t, message);
    var m1 := m.(results := Saved(m.results, r), failed := m.failed + 1);
    w' := Advance(w0, w, k, Busy(SaveFailed, t'), m1, h, returned, late);
    if t'.state == Retrying {
      w' := RetryPath(w0, w', k, t', m1, h, returned, late, up);
    } else {
      w' := ExhaustedPath(w0, w', k, t', m1, h, returned, late, up);
    }
  }

  function AfterVerdict(t: Task, v: Verdict): Pc {
    if v.err.Some? then Busy(SaveFailure(v.saved, v.err.value), t) else Busy(SaveSuccess(v.saved), Finished(t))
  }

  lemma VerdictLeads(w: World, k: nat, t: Task, v: Verdict, tried: Tried, m: Memory, h: set<string>)
    requires At(w, k, Busy(Execute, t), m, h)
    ensures At(AfterAttempt(w, k, t, v, tried), k, AfterVerdict(t, v), m, h)
  {
  }

  lemma ExecutePath(w0: World, w: World, k: nat, t: Task, v: Verdict, m: Memory, h: set<string>,
                    returned: HandlerReturn, late: bool) returns (w': World)
    requires Reaches(w0, w, k, returned, late) && At(w, k, Busy(Execute, t), m, h)
    requires v == Verdicted(t, h, returned, late)
    ensures Reaches(w0, w', k, returned, late)
    ensures At(w', k, AfterVerdict(t, v), m, h)
  {
    assert ProcStep(w, k, returned, late) == AfterAttempt(w, k, t, v, Tried(returned, late));
    VerdictLeads(w, k, t, v, Tried(returned, late), m, h);
    w' := Advance(w0, w, k, AfterVerdict(t, v), m, h, returned, late);
  }

  lemma ConcludePath(w0: World, w: World, k: nat, t: Task, v: Verdict, m: Memory, h: set<string>,
                     returned: HandlerReturn, late: bool, up: Network) returns (w': World)
    requires Reaches(w0, w, k, returned, late) && At(w, k, Busy(Execute, t), m, h)
    requires v == Verdicted(t, h, returned, late)
    requires Reliable(up) && t.id.text != ""
    ensures Reaches(w0, w', k, returned, late) && At(w', k, Idle, AfterExecution(m, t, v, up), h)
  {
    w' := ExecutePath(w0, w, k, t, v, m, h, returned, late);
    if v.err.Some? {
      w' := FailurePath(w0, w', k, t, v.saved, v.err.value, m, h, returned, late, up);
    } else {
      w' := SuccessPath(w0, w', k, t, v.saved, m, h, returned, late, up);
    }
  }

  lemma TaskPath(w0: World, w: World, k: nat, t: Task, m: Memory, h: set<string>,
                 returned: HandlerReturn, late: bool, up: Network) returns (w': World)
    requires Reaches(w0, w, k, returned, late) && At(w, k, Busy(SaveStarted, Started(t)), m, h)
    requires Reliable(up) && t.id.text != ""
    ensures Reaches(w0, w', k, returned, late) && At(w', k, Idle, AfterTask(m, t, h, returned, late, up), h)
  {
    var m1 := m.(store := m.store[t.id := Started(t)]);
    w' := Advance(w0, w, k, Busy(Execute, Started(t)), m1, h, returned, late);
    w' := ConcludePath(w0, w', k, Started(t), Verdicted(Started(t), h, returned, late), m1, h, returned, late, up);
  }

  /** The sequential poll and the protocol's process do the same to Redis, to storage and to
      the worker's counters: from any state, some number of undisturbed steps of an idle
      process ends idle with exactly the memory that PollAndExecute computes. */
  lemma SoloPollMatches(w: World, k: nat, returned: HandlerReturn, late: bool, up: Network) returns (w': World)
    requires k < |w.procs| && w.procs[k].pc == Idle && Filed(w.db) && Reliable(up)
    ensures Reaches(w, w', k, returned, late)
    ensures k < |w'.procs| && w'.procs[k].pc == Idle
    ensures MemoryOf(w', k) == Polled(MemoryOf(w, k), w.handlers, returned, late, up)
  {
    var m := MemoryOf(w, k);
    var w1 := StepFrom(w, k, Idle, m, w.handlers, returned, late);
    assert At(w1, k, Poll(3), m, w.handlers);
    w' := PollPath(w1, k, 3, m, w.handlers, returned, late, up, 0);
    Onward(w, w1, w', k, returned, late);
    var r := Dequeued(m.db, up);
    if r.got.value.Some? {
      w' := TaskPath(w, w', k, r.got.value.value, m.(db := r.db), w.handlers, returned, late, After(up, DEQUEUE_SPAN));
    }
  }

  // ----------------------------------------------------------- failing commands

  ghost predicate Kept(db: Db, id: TaskId) {
    id in db.data || exists i :: 0 <= i < |db.dlq| && db.dlq[i].id == id
  }

  /** An exhausted task survives handleTaskFailure exactly when its RPUSH to the dead letter
      list got through or the DEL of its data did not: a failed EnqueueDLQ is only logged. */
  lemma BurialKeepsTask(db: Db, t: Task, reason: string, up: Network, up': Network)
    requires t.id in db.data && forall i :: 0 <= i < |db.dlq| ==> db.dlq[i].id != t.id
    ensures var db' := Nacked(Buried(db, t, reason, up).db, t.id, false, up').db;
      Kept(db', t.id) <==> up(0) || !up'(1)
  {
    var db' := Nacked(Buried(db, t, reason, up).db, t.id, false, up').db;
    if up(0) {
      assert db'.dlq[|db.dlq|].id == t.id;
    }
  }

  /** A retried task survives its re-Enqueue exactly when it was not the RPUSH alone that
      failed: the clean-up DEL removes the only copy of the data. */
  lemma RetryKeepsTask(db: Db, t: Task, up: Network)
    requires t.id in db.data && forall i :: 0 <= i < |db.dlq| ==> db.dlq[i].id != t.id
    ensures Kept(Enqueued(db, t, up).db, t.id) <==> !(up(0) && !up(1) && up(2))
  {
  }

  /** After a failed attempt the task is still stored or dead-lettered unless, for a retry,
      the RPUSH alone failed, and for a burial, the RPUSH failed and the later DEL did not. */
  lemma FailureKeepsTask(m: Memory, t: Task, message: string, up: Network)
    requires t.id in m.db.data && t.id.text != "" && forall i :: 0 <= i < |m.db.dlq| ==> m.db.dlq[i].id != t.id
    ensures Kept(AfterTaskFailure(m, t, message, up).db, t.id) <==>
      if ShouldRetry(t) then !(up(0) && !up(1) && up(2)) else up(0) || !up(BURIAL_SPAN + 1)
  {
    var t' := AfterFailure(t, message);
    if ShouldRetry(t) {
      RetryKeepsTask(m.db, t', up);
    } else {
      BurialKeepsTask(m.db, t', ExhaustedReason(t'), up, After(up, BURIAL_SPAN));
    }
  }

  /** m' treats the queue and the counters as `sound` does. */
  predicate SameButStorage(m': Memory, sound: Memory) {
    && m'.db == sound.db && m'.processed == sound.processed
    && m'.failed == sound.failed && m'.retried == sound.retried
  }

  lemma FaultsAfterFailure(m: Memory, t: Task, message: string, up: Network, saves: Network)
    ensures var m', sound := AfterTaskFailure(m, t, message, up, saves), AfterTaskFailure(m, t, message, up);
      && SameButStorage(m', sound) && m'.results == sound.results == m.results
      && m'.store == (if saves(2) then sound.store else m.store)
      && t.id in sound.store && sound.store == m.store[t.id := sound.store[t.id]]
  {
  }

  lemma FaultsAfterExecution(m: Memory, t: Task, v: Verdict, up: Network, saves: Network)
    ensures var m', sound := AfterExecution(m, t, v, up, saves), AfterExecution(m, t, v, up);
      && SameButStorage(m', sound) && m'.results == (if saves(1) then sound.results else m.results)
      && m'.store == (if saves(2) then sound.store else m.store)
      && t.id in sound.store && sound.store == m.store[t.id := sound.store[t.id]]
  {
    if v.err.Some? {
      var m1 := m.(results := Saved(m.results, v.saved), failed := m.failed + 1);
      FaultsAfterFailure(m1, t, v.err.value, up, saves);
      FaultsAfterFailure(m1.(results := m.results), t, v.err.value, up, saves);
    }
  }

  /** Failing storage writes change nothing but storage: whatever `saves` says, a poll treats the
      queue and the counters as with sound storage; the result is stored if and only if its own
      write got through, and if the final save did, the record is the one sound storage has. */
  lemma StorageFaultsStayInStorage(m: Memory, t: Task, handlers: set<string>, returned: HandlerReturn, late: bool,
                                   up: Network, saves: Network)
    ensures var m', sound := AfterTask(m, t, handlers, returned, late, up, saves),
                             AfterTask(m, t, handlers, returned, late, up);
      && SameButStorage(m', sound) && m'.results == (if saves(1) then sound.results else m.results)
      && (saves(2) ==> m'.store == sound.store)
      && (!saves(2) ==> m'.store == (if saves(0) then m.store[t.id := Started(t)] else m.store))
  {
    var v := Verdicted(Started(t), handlers, returned, late);
    var m0 := m.(store := m.store[t.id := Started(t)]);
    FaultsAfterExecution(m0, Started(t), v, up, saves);
    FaultsAfterExecution(m, Started(t), v, up, saves);
    StoreBeforeIsOverwritten(m, m0, Started(t), v, up);
  }

  lemma StoreBeforeIsOverwritten(m: Memory, m0: Memory, t: Task, v: Verdict, up: Network)
    requires m0 == m.(store := m.store[t.id := t])
    ensures AfterExecution(m0, t, v, up) == AfterExecution(m, t, v, up)
  {
    FaultsAfterExecution(m0, t, v, up, SOUND_STORAGE);
    FaultsAfterExecution(m, t, v, up, SOUND_STORAGE);
    var last := AfterExecution(m, t, v, up).store[t.id];
    assert m.store[t.id := t][t.id := last] == m.store[t.id := last];
  }
}
