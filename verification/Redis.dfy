/** The Redis server as internal/queue/redis.go uses it: one list per priority, the
    task data, the processing keys, the dead letter list and the statistics.
    Every function below is one Redis command, which the server runs atomically. */
module Redis {
  import opened Tasks

  type Lists = l: seq<seq<TaskId>> | |l| == 4 witness [[], [], [], []]

  datatype DlqMeta = DlqMeta(reason: string, retryCount: int)

  datatype Db = Db(
    lists: Lists,
    data: map<TaskId, Task>,
    processing: set<TaskId>,
    dlq: seq<Task>,
    dlqMeta: map<TaskId, DlqMeta>,
    total: nat,
    completed: nat,
    failed: nat,
    dead: nat)

  /** For the n-th command of a call, whether it gets through. */
  type Network = nat -> bool

  const EMPTY_DB := Db([[], [], [], []], map[], {}, [], map[], 0, 0, 0, 0)

  function SetTask(db: Db, t: Task): Db { db.(data := db.data[t.id := t]) }

  function DelTask(db: Db, id: TaskId): Db { db.(data := db.data - {id}) }

  function RPush(db: Db, p: Priority, id: TaskId): Db {
    db.(lists := db.lists[p := db.lists[p] + [id]])
  }

  function LPush(db: Db, p: Priority, id: TaskId): Db {
    db.(lists := db.lists[p := [id] + db.lists[p]])
  }

  function LPop(db: Db, p: Priority): Db
    requires db.lists[p] != []
  {
    db.(lists := db.lists[p := db.lists[p][1..]])
  }

  function SetProcessing(db: Db, id: TaskId): Db { db.(processing := db.processing + {id}) }

  function DelProcessing(db: Db, id: TaskId): Db { db.(processing := db.processing - {id}) }

  function PushDlq(db: Db, t: Task): Db { db.(dlq := db.dlq + [t]) }

  function SetDlqMeta(db: Db, t: Task, reason: string): Db {
    db.(dlqMeta := db.dlqMeta[t.id := DlqMeta(reason, t.retryCount)])
  }

  function IncrTotal(db: Db): Db { db.(total := db.total + 1) }

  function IncrCompleted(db: Db): Db { db.(completed := db.completed + 1) }

  function IncrFailed(db: Db): Db { db.(failed := db.failed + 1) }

  function IncrDead(db: Db): Db { db.(dead := db.dead + 1) }

  function QueueSize(db: Db): nat {
    |db.lists[0]| + |db.lists[1]| + |db.lists[2]| + |db.lists[3]|
  }
}
