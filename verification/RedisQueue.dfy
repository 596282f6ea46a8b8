/** RedisQueue (internal/queue/redis.go): each call is a sequence of Redis commands, any
    of which may fail. `up(n)` says whether the n-th command of the call gets through;
    a failed command has no effect. `bad` holds the identifiers whose stored bytes do not
    decode to a task. */
module RedisQueue {
  import opened Tasks
  import opened Redis

  datatype Reply<T> = Ok(value: T) | Down

  function When(up: bool, done: Db, skipped: Db): Db { if up then done else skipped }

  // --------------------------------------------------- the calls as functions

  datatype Push = Push(db: Db, ok: bool)

  /** SET, RPUSH, INCR; a failed RPUSH is followed by DEL. */
  function Enqueued(db: Db, t: Task, up: Network): Push {
    if !up(0) then Push(db, false)
    else
      var stored := SetTask(db, t);
      if !up(1) then Push(When(up(2), DelTask(stored, t.id), stored), false)
      else
        var pushed := RPush(stored, t.priority, t.id);
        Push(When(up(2), IncrTotal(pushed), pushed), true)
  }

  datatype Pull = Pull(db: Db, got: Reply<Option<Task>>)

  /** Dequeue from list p downwards, with c commands already sent. */
  function DequeuedFrom(db: Db, p: int, up: Network, c: nat, bad: set<TaskId> := {}): Pull
    requires -1 <= p < 4
    decreases p + 1
  {
    if p < 0 then Pull(db, Ok(None))
    else if !up(c) then Pull(db, Down)
    else if db.lists[p] == [] then DequeuedFrom(db, p - 1, up, c + 1, bad)
    else
      var id := db.lists[p][0];
      var popped := LPop(db, p);
      if !up(c + 1) then Pull(When(up(c + 2), LPush(popped, p, id), popped), Down)
      else if id !in db.data then DequeuedFrom(popped, p - 1, up, c + 2, bad)
      else if id in bad then Pull(When(up(c + 2), DelTask(popped, id), popped), Down)
      else Pull(When(up(c + 2), SetProcessing(popped, id), popped), Ok(Some(db.data[id])))
  }

  function Dequeued(db: Db, up: Network, bad: set<TaskId> := {}): Pull { DequeuedFrom(db, 3, up, 0, bad) }

  /** Peek from list p downwards. */
  function PeekedFrom(db: Db, p: int, up: Network, c: nat, bad: set<TaskId> := {}): Reply<Option<Task>>
    requires -1 <= p < 4
    decreases p + 1
  {
    if p < 0 then Ok(None)
    else if !up(c) then Down
    else if db.lists[p] == [] then PeekedFrom(db, p - 1, up, c + 1, bad)
    else if !up(c + 1) then Down
    else if db.lists[p][0] !in db.data then PeekedFrom(db, p - 1, up, c + 2, bad)
    else if db.lists[p][0] in bad then Down
    else Ok(Some(db.data[db.lists[p][0]]))
  }

  function Peeked(db: Db, up: Network, bad: set<TaskId> := {}): Reply<Option<Task>> { PeekedFrom(db, 3, up, 0, bad) }

  /** DEL, DEL, INCR; every error is ignored. */
  function Acked(db: Db, id: TaskId, up: Network): Db {
    var db1 := When(up(0), DelProcessing(db, id), db);
    var db2 := When(up(1), DelTask(db1, id), db1);
    When(up(2), IncrCompleted(db2), db2)
  }

  function Nacked(db: Db, id: TaskId, requeue: bool, up: Network, bad: set<TaskId> := {}): Push {
    var db1 := When(up(0), DelProcessing(db, id), db);
    if !requeue then
      var db2 := When(up(1), DelTask(db1, id), db1);
      Push(When(up(2), IncrFailed(db2), db2), true)
    else if !up(1) || id !in db1.data || id in bad || !up(2) then Push(db1, false)
    else Push(RPush(db1, db1.data[id].priority, id), true)
  }

  function Buried(db: Db, t: Task, reason: string, up: Network): Push {
    var t' := DeadLettered(t, reason);
    if !up(0) then Push(db, false)
    else
      var db1 := PushDlq(db, t');
      var db2 := When(up(1), SetDlqMeta(db1, t', reason), db1);
      Push(When(up(2), IncrDead(db2), db2), true)
  }

  function Purged(db: Db): Db {
    db.(lists := [[], [], [], []], data := map[], processing := {})
  }

  /** What a SCAN with a DEL per key achieves: the keys deleted, and whether it got to its end. */
  datatype Scan = Scan(deleted: set<TaskId>, complete: bool)

  /** DEL of the lists in the order given, from the n-th on, up to the first that fails. */
  function ListsPurged(lists: Lists, order: seq<Priority>, up: Network, n: nat): Lists
    decreases |order| - n
  {
    if n >= |order| || !up(n) then lists else ListsPurged(lists[order[n] := []], order, up, n + 1)
  }

  predicate AllUp(up: Network, n: nat) { forall i: nat :: i < n ==> up(i) }

  /** Lists first, then data, then processing keys; each part only if the one before succeeded. */
  function PurgedBy(db: Db, order: seq<Priority>, up: Network, data: Scan, processing: Scan): Push {
    var db1 := db.(lists := ListsPurged(db.lists, order, up, 0));
    if !AllUp(up, |order|) then Push(db1, false)
    else
      var db2 := db1.(data := db1.data - data.deleted);
      if !data.complete then Push(db2, false)
      else Push(db2.(processing := db2.processing - processing.deleted), processing.complete)
  }

  // ------------------------------------------------------------------ the class

  class Queue {
    var db: Db

    constructor (contents: Db)
      ensures db == contents
    {
      db := contents;
    }

    method Enqueue(t: Task, up: Network) returns (ok: bool)
      modifies this
      ensures Push(db, ok) == Enqueued(old(db), t, up)
      ensures ok <==> up(0) && up(1)
      ensures ok ==> db.lists == old(db).lists[t.priority := old(db).lists[t.priority] + [t.id]]
      ensures ok ==> t.id in db.data && db.data[t.id] == t && db.total == old(db).total + (if up(2) then 1 else 0)
      ensures !ok ==> db == old(db).(data := db.data)
    {
      if !up(0) { return false; }
      db := SetTask(db, t);
      if !up(1) {
        if up(2) { db := DelTask(db, t.id); }
        return false;
      }
      db := RPush(db, t.priority, t.id);
      if up(2) { db := IncrTotal(db); }
      return true;
    }

    method Dequeue(up: Network, bad: set<TaskId> := {}) returns (r: Reply<Option<Task>>)
      modifies this
      ensures Pull(db, r) == Dequeued(old(db), up, bad)
    {
      var c := 0;
      for p := 4 downto 0
        invariant Dequeued(old(db), up, bad) == DequeuedFrom(db, p - 1, up, c, bad)
      {
        if !up(c) { return Down; }
        if db.lists[p] == [] {
          c := c + 1;
          continue;
        }
        var id := db.lists[p][0];
        db := LPop(db, p);
        if !up(c + 1) {
          if up(c + 2) { db := LPush(db, p, id); }
          return Down;
        }
        if id !in db.data {
          c := c + 2;
          continue;
        }
        if id in bad {
          if up(c + 2) { db := DelTask(db, id); }
          return Down;
        }
        var t := db.data[id];
        if up(c + 2) { db := SetProcessing(db, id); }
        return Ok(Some(t));
      }
      return Ok(None);
    }

    method Peek(up: Network, bad: set<TaskId> := {}) returns (r: Reply<Option<Task>>)
      ensures r == Peeked(db, up, bad)
    {
      var c := 0;
      for p := 4 downto 0
        invariant Peeked(db, up, bad) == PeekedFrom(db, p - 1, up, c, bad)
      {
        if !up(c) { return Down; }
        if db.lists[p] == [] {
          c := c + 1;
          continue;
        }
        if !up(c + 1) { return Down; }
        var id := db.lists[p][0];
        if id !in db.data {
          c := c + 2;
          continue;
        }
        if id in bad { return Down; }
        return Ok(Some(db.data[id]));
      }
      return Ok(None);
    }

    method Ack(id: TaskId, up: Network) returns (ok: bool)
      modifies this
      ensures ok <==> id.text != ""
      ensures db == if ok then Acked(old(db), id, up) else old(db)
      ensures ok ==> (id in db.data <==> id in old(db).data && !up(1))
      ensures ok ==> (id in db.processing <==> id in old(db).processing && !up(0))
      ensures ok ==> db.lists == old(db).lists && db.completed == old(db).completed + (if up(2) then 1 else 0)
    {
      if id.text == "" { return false; }
      if up(0) { db := DelProcessing(db, id); }
      if up(1) { db := DelTask(db, id); }
      if up(2) { db := IncrCompleted(db); }
      return true;
    }

    method Nack(id: TaskId, requeue: bool, up: Network, bad: set<TaskId> := {}) returns (ok: bool)
      modifies this
      ensures id.text == "" ==> !ok && db == old(db)
      ensures id.text != "" ==> Push(db, ok) == Nacked(old(db), id, requeue, up, bad)
      ensures id.text != "" ==> (id in db.processing <==> id in old(db).processing && !up(0))
      ensures id.text != "" && !requeue ==>
        && ok && db.lists == old(db).lists && (id in db.data <==> id in old(db).data && !up(1))
        && db.failed == old(db).failed + (if up(2) then 1 else 0)
      ensures id.text != "" && requeue ==>
        && (ok <==> up(1) && id in old(db).data && id !in bad && up(2)) && db.data == old(db).data
        && (!ok ==> db.lists == old(db).lists)
        && (ok ==> var p := db.data[id].priority; db.lists == old(db).lists[p := old(db).lists[p] + [id]])
    {
      if id.text == "" { return false; }
      if up(0) { db := DelProcessing(db, id); }
      if !requeue {
        if up(1) { db := DelTask(db, id); }
        if up(2) { db := IncrFailed(db); }
        return true;
      }
      if !up(1) || id !in db.data { return false; }
      if id in bad { return false; }
      var t := db.data[id];
      if !up(2) { return false; }
      db := RPush(db, t.priority, id);
      return true;
    }

    method EnqueueDLQ(t: Task, reason: string, up: Network) returns (ok: bool)
      modifies this
      ensures Push(db, ok) == Buried(old(db), t, reason, up)
      ensures ok <==> up(0)
      ensures !ok ==> db == old(db)
      ensures ok ==> |db.dlq| == |old(db).dlq| + 1 && db.dlq[..|old(db).dlq|] == old(db).dlq
      ensures ok ==> var letter := db.dlq[|old(db).dlq|];
        && SameJob(letter, t) && letter.state == DeadLetter && letter.retryCount == t.retryCount
        && letter.error == (if reason == "" then t.error else reason)
      ensures ok && up(1) ==> t.id in db.dlqMeta && db.dlqMeta[t.id] == DlqMeta(reason, t.retryCount)
      ensures ok ==> db.dead == old(db).dead + (if up(2) then 1 else 0)
    {
      var t' := DeadLettered(t, reason);
      if !up(0) { return false; }
      db := PushDlq(db, t');
      if up(1) { db := SetDlqMeta(db, t', reason); }
      if up(2) { db := IncrDead(db); }
      return true;
    }

    method Size(up: Network) returns (r: Reply<nat>)
      ensures r == if AllUp(up, 4) then Ok(QueueSize(db)) else Down
    {
      var total := 0;
      for p := 0 to 4
        invariant AllUp(up, p)
        invariant total == (if p > 0 then |db.lists[0]| else 0) + (if p > 1 then |db.lists[1]| else 0)
                           + (if p > 2 then |db.lists[2]| else 0) + (if p > 3 then |db.lists[3]| else 0)
      {
        if !up(p) { return Down; }
        total := total + |db.lists[p]|;
      }
      return Ok(total);
    }

    /** `order` is the order in which the keys of the four lists are visited. */
    method Purge(order: seq<Priority>, up: Network, data: Scan, processing: Scan) returns (ok: bool)
      modifies this
      ensures Push(db, ok) == PurgedBy(old(db), order, up, data, processing)
    {
      ok := PurgeLists(order, up);
      if !ok { return false; }
      PurgeData(data.deleted);
      if !data.complete { return false; }
      PurgeProcessing(processing.deleted);
      return processing.complete;
    }

    method PurgeLists(order: seq<Priority>, up: Network) returns (ok: bool)
      modifies this
      ensures db == old(db).(lists := ListsPurged(old(db).lists, order, up, 0)) && ok == AllUp(up, |order|)
    {
      for i := 0 to |order|
        invariant db == old(db).(lists := db.lists) && AllUp(up, i)
        invariant ListsPurged(old(db).lists, order, up, 0) == ListsPurged(db.lists, order, up, i)
      {
        if !up(i) { return false; }
        db := db.(lists := db.lists[order[i] := []]);
      }
      return true;
    }

    method PurgeData(deleted: set<TaskId>)
      modifies this
      ensures db == old(db).(data := old(db).data - deleted)
    {
      var todo := deleted;
      while todo != {}
        invariant todo <= deleted && db == old(db).(data := old(db).data - (deleted - todo))
        decreases |todo|
      {
        var id :| id in todo;
        db, todo := DelTask(db, id), todo - {id};
      }
    }

    method PurgeProcessing(deleted: set<TaskId>)
      modifies this
      ensures db == old(db).(processing := old(db).processing - deleted)
    {
      var todo := deleted;
      while todo != {}
        invariant todo <= deleted && db == old(db).(processing := old(db).processing - (deleted - todo))
        decreases |todo|
      {
        var id :| id in todo;
        db, todo := DelProcessing(db, id), todo - {id};
      }
    }
  }
}
