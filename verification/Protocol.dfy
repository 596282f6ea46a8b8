/** The queue/worker protocol as a state machine over single Redis commands.

    Any number of processes interleave. A process is a submitting client or a worker;
    each step of a process is one Redis command together with the in-memory work that
    follows it. A process may crash between any two commands. */
module Protocol {
  import opened Tasks
  import opened Redis
  import opened Handlers

  /** Where a process that holds a task stands in pollAndExecute, Enqueue, EnqueueDLQ,
      Ack or Nack. The name says which command comes next. */
  datatype Stage =
    | MarkProcessing
    | SaveStarted
    | Execute
    | SaveSuccess(saved: Option<Result>)
    | SaveCompleted
    | AckProcessing
    | AckData
    | AckStat
    | SaveFailure(saved: Option<Result>, message: string)
    | SaveFailed
    | Sleep
    | EnqueueSet
    | EnqueuePush
    | DlqPush
    | DlqDescribe
    | DlqStat
    | NackProcessing
    | NackData
    | NackStat

  datatype Pc =
    | Idle
    | Poll(p: Priority)
    | Popped(p: Priority, id: TaskId)
    | Busy(stage: Stage, t: Task)
    | CountEnqueued

  /** `sawEmpty` records the lists this Dequeue call has found empty. */
  datatype Proc = Proc(
    pc: Pc,
    crashed: bool,
    processed: nat,
    failed: nat,
    retried: nat,
    sawEmpty: set<int>)

  const NEW_PROC := Proc(Idle, false, 0, 0, 0, {})

  datatype Place = Queued | Owned(k: nat) | Done | Dead

  /** The history of one submitted task; `naps` lists the retry counts for which a worker
      slept RetryDelay before the next attempt, `last` what the last attempt met. No step
      reads the history, nor `log`, the order of submission. */
  datatype Track = Track(
    task: Task,
    place: Place,
    attempts: nat,
    pops: nat,
    naps: seq<int>,
    ok: bool,
    dlqAt: Option<nat>,
    last: Option<Tried>)

  datatype World = World(
    db: Db,
    handlers: set<string>,
    store: map<TaskId, Task>,
    results: map<TaskId, Result>,
    procs: seq<Proc>,
    track: map<TaskId, Track>,
    log: seq<TaskId>)

  function Initial(handlers: set<string>): World {
    World(EMPTY_DB, handlers, map[], map[], [], map[], [])
  }

  // ---------------------------------------------------------------- steps

  datatype Action =
    | Spawn
    | Submit(k: nat, t: Task)
    | Step(k: nat, returned: HandlerReturn, late: bool)
    | Crash(k: nat)
    | ExpireProcessing(id: TaskId)

  predicate Live(w: World, k: nat) {
    k < |w.procs| && !w.procs[k].crashed
  }

  /** A client submits under a fresh, non-empty identifier. */
  predicate Enabled(w: World, a: Action) {
    match a
    case Spawn => true
    case Submit(k, t) =>
      Live(w, k) && w.procs[k].pc == Idle && t.id !in w.track && t.id.text != ""
    case Step(k, _, _) => Live(w, k)
    case Crash(k) => Live(w, k)
    case ExpireProcessing(_) => true
  }

  function SetProc(w: World, k: nat, proc: Proc): World
    requires k < |w.procs|
  {
    w.(procs := w.procs[k := proc])
  }

  function Goto(w: World, k: nat, pc: Pc): World
    requires k < |w.procs|
  {
    SetProc(w, k, w.procs[k].(pc := pc))
  }

  function SetTrack(w: World, id: TaskId, tr: Track): World {
    w.(track := w.track[id := tr])
  }

  function TrackOf(w: World, id: TaskId): Track {
    if id in w.track then w.track[id]
    else Track(Task(id, "", "", 0, Pending, 0, 0, ""), Queued, 0, 0, [], false, None, None)
  }

  function NextList(p: Priority): Pc {
    if p == 0 then Idle else Poll(p - 1)
  }

  function BeginSubmit(w: World, k: nat, t: Task): World
    requires k < |w.procs|
  {
    var w1 := SetTrack(w.(db := SetTask(w.db, t)), t.id, Track(t, Owned(k), 0, 0, [], false, None, None));
    Goto(w1.(log := w1.log + [t.id]), k, Busy(EnqueuePush, t))
  }

  /** LPOP of one list. */
  function PollStep(w: World, k: nat, p: Priority): World
    requires k < |w.procs|
  {
    if w.db.lists[p] == [] then
      SetProc(w, k, w.procs[k].(pc := NextList(p), sawEmpty := w.procs[k].sawEmpty + {p}))
    else
      var id := w.db.lists[p][0];
      var tr := TrackOf(w, id);
      Goto(SetTrack(w.(db := LPop(w.db, p)), id, tr.(place := Owned(k), pops := tr.pops + 1)),
           k, Popped(p, id))
  }

  /** GET of the popped task; an identifier without data is skipped. */
  function FetchStep(w: World, k: nat, p: Priority, id: TaskId): World
    requires k < |w.procs|
  {
    if id in w.db.data then Goto(w, k, Busy(MarkProcessing, w.db.data[id]))
    else Goto(w, k, NextList(p))
  }

  function SaveTask(w: World, t: Task): World { w.(store := w.store[t.id := t]) }

  function SaveResult(w: World, r: Option<Result>): World {
    if r.Some? then w.(results := w.results[r.value.taskId := r.value]) else w
  }

  function ExecuteStep(w: World, k: nat, t: Task, returned: HandlerReturn, late: bool): World
    requires k < |w.procs|
  {
    var a := if t.kind in w.handlers then AnswerOf(t, returned) else NoHandler(t);
    AfterAttempt(w, k, t, ExecuteVerdict(t, a, late), Tried(returned, late))
  }

  function AfterAttempt(w: World, k: nat, t: Task, v: Verdict, tried: Tried): World
    requires k < |w.procs|
  {
    var tr := TrackOf(w, t.id);
    var w1 := SetTrack(w, t.id, tr.(attempts := tr.attempts + 1, ok := v.err.None?, last := Some(tried)));
    if v.err.Some? then Goto(w1, k, Busy(SaveFailure(v.saved, v.err.value), t))
    else Goto(w1, k, Busy(SaveSuccess(v.saved), Finished(t)))
  }

  function BeginTask(w: World, k: nat, t: Task): World
    requires k < |w.procs|
  {
    Goto(w.(db := SetProcessing(w.db, t.id)), k, Busy(SaveStarted, Started(t)))
  }

  function RecordSuccess(w: World, k: nat, t: Task, r: Option<Result>): World
    requires k < |w.procs|
  {
    SetProc(SaveResult(w, r), k,
            w.procs[k].(pc := Busy(SaveCompleted, Finished(t)), processed := w.procs[k].processed + 1))
  }

  function FinishAck(w: World, k: nat, t: Task): World
    requires k < |w.procs|
  {
    Goto(SetTrack(w.(db := IncrCompleted(w.db)), t.id, TrackOf(w, t.id).(place := Done)), k, Idle)
  }

  function RecordFailure(w: World, k: nat, t: Task, r: Option<Result>, message: string): World
    requires k < |w.procs|
  {
    SetProc(SaveResult(w, r), k,
            w.procs[k].(pc := Busy(SaveFailed, AfterFailure(t, message)), failed := w.procs[k].failed + 1))
  }

  function DecideRetry(w: World, k: nat, t: Task): World
    requires k < |w.procs|
  {
    if t.state == Retrying then
      SetProc(SaveTask(w, t), k, w.procs[k].(pc := Busy(Sleep, t), retried := w.procs[k].retried + 1))
    else
      Goto(SaveTask(w, t), k, Busy(DlqPush, t))
  }

  function Nap(w: World, k: nat, t: Task): World
    requires k < |w.procs|
  {
    var tr := TrackOf(w, t.id);
    Goto(SetTrack(w, t.id, tr.(naps := tr.naps + [t.retryCount])), k, Busy(EnqueueSet, t))
  }

  function PushTask(w: World, k: nat, t: Task): World
    requires k < |w.procs|
  {
    Goto(SetTrack(w.(db := RPush(w.db, t.priority, t.id)), t.id, TrackOf(w, t.id).(place := Queued)),
         k, CountEnqueued)
  }

  function PushDeadLetter(w: World, k: nat, t: Task): World
    requires k < |w.procs|
  {
    Goto(SetTrack(w.(db := PushDlq(w.db, t)), t.id, TrackOf(w, t.id).(dlqAt := Some(|w.db.dlq|))),
         k, Busy(DlqDescribe, t))
  }

  function FinishNack(w: World, k: nat, t: Task): World
    requires k < |w.procs|
  {
    Goto(SetTrack(w.(db := IncrFailed(w.db)), t.id, TrackOf(w, t.id).(place := Dead)), k, Idle)
  }

  function BusyStep(w: World, k: nat, s: Stage, t: Task, returned: HandlerReturn, late: bool): World
    requires k < |w.procs|
  {
    match s
    case MarkProcessing => BeginTask(w, k, t)
    case SaveStarted => Goto(SaveTask(w, t), k, Busy(Execute, t))
    case Execute => ExecuteStep(w, k, t, returned, late)
    case SaveSuccess(r) => RecordSuccess(w, k, t, r)
    case SaveCompleted => Goto(SaveTask(w, t), k, Busy(AckProcessing, t))
    case AckProcessing => Goto(w.(db := DelProcessing(w.db, t.id)), k, Busy(AckData, t))
    case AckData => Goto(w.(db := DelTask(w.db, t.id)), k, Busy(AckStat, t))
    case AckStat => FinishAck(w, k, t)
    case SaveFailure(r, message) => RecordFailure(w, k, t, r, message)
    case SaveFailed => DecideRetry(w, k, t)
    case Sleep => Nap(w, k, t)
    case EnqueueSet => Goto(w.(db := SetTask(w.db, t)), k, Busy(EnqueuePush, t))
    case EnqueuePush => PushTask(w, k, t)
    case DlqPush => PushDeadLetter(w, k, DeadLettered(t, ExhaustedReason(t)))
    case DlqDescribe => Goto(w.(db := SetDlqMeta(w.db, t, t.error)), k, Busy(DlqStat, t))
    case DlqStat => Goto(w.(db := IncrDead(w.db)), k, Busy(NackProcessing, t))
    case NackProcessing => Goto(w.(db := DelProcessing(w.db, t.id)), k, Busy(NackData, t))
    case NackData => Goto(w.(db := DelTask(w.db, t.id)), k, Busy(NackStat, t))
    case NackStat => FinishNack(w, k, t)
  }

  function ProcStep(w: World, k: nat, returned: HandlerReturn, late: bool): World
    requires k < |w.procs|
  {
    match w.procs[k].pc
    case Idle => SetProc(w, k, w.procs[k].(pc := Poll(3), sawEmpty := {}))
    case Poll(p) => PollStep(w, k, p)
    case Popped(p, id) => FetchStep(w, k, p, id)
    case Busy(s, t) => BusyStep(w, k, s, t, returned, late)
    case CountEnqueued => Goto(w.(db := IncrTotal(w.db)), k, Idle)
  }

  function Apply(w: World, a: Action): World
    requires Enabled(w, a)
  {
    match a
    case Spawn => w.(procs := w.procs + [NEW_PROC])
    case Submit(k, t) => BeginSubmit(w, k, t)
    case Step(k, returned, late) => ProcStep(w, k, returned, late)
    case Crash(k) => SetProc(w, k, w.procs[k].(crashed := true))
    case ExpireProcessing(id) => w.(db := DelProcessing(w.db, id))
  }

  // ----------------------------------------------------------------- runs

  predicate Legal(w: World, actions: seq<Action>)
    decreases |actions|
  {
    actions == [] || (Enabled(w, actions[0]) && Legal(Apply(w, actions[0]), actions[1..]))
  }

  function Run(w: World, actions: seq<Action>): World
    requires Legal(w, actions)
    decreases |actions|
  {
    if actions == [] then w else Run(Apply(w, actions[0]), actions[1..])
  }
}
