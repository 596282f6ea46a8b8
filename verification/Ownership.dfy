/** Who has each task. The invariant of the protocol and the safety theorems it gives:
    exclusive ownership, no loss under crashes, bounded attempts. */
module Ownership {
  import opened Tasks
  import opened Redis
  import opened Handlers
  import opened Protocol

  // ------------------------------------------------------------ invariant

  ghost predicate NoDup(s: seq<TaskId>) {
    forall i, j :: 0 <= i < j < |s| ==> s[i] != s[j]
  }

  ghost predicate Holds(pc: Pc, id: TaskId) {
    (pc.Popped? && pc.id == id) || (pc.Busy? && pc.t.id == id)
  }

  /** t is a copy of the tracked task, waiting for its next attempt. */
  ghost predicate Fresh(tr: Track, t: Task) {
    && SameJob(tr.task, t) && !tr.ok && tr.dlqAt.None?
    && tr.attempts == t.retryCount - tr.task.retryCount
    && (tr.attempts == 0 || t.retryCount <= t.maxRetries)
    && |tr.naps| == t.retryCount - tr.task.retryCount
  }

  /** t has just been attempted and its counter has not moved yet. */
  ghost predicate Attempted(tr: Track, t: Task) {
    && SameJob(tr.task, t) && tr.dlqAt.None?
    && 1 <= tr.attempts == t.retryCount - tr.task.retryCount + 1
    && (tr.attempts == 1 || t.retryCount <= t.maxRetries)
    && |tr.naps| == t.retryCount - tr.task.retryCount
    && tr.pops == tr.attempts
  }

  /** t has failed and MarkFailed has decided what comes next. */
  ghost predicate Judged(tr: Track, t: Task) {
    && SameJob(tr.task, t) && !tr.ok
    && 1 <= tr.attempts == t.retryCount - tr.task.retryCount
    && (tr.attempts == 1 || t.retryCount <= t.maxRetries + 1)
    && |tr.naps| == t.retryCount - 1 - tr.task.retryCount
    && tr.pops == tr.attempts
    && (if t.retryCount <= t.maxRetries then t.state == Retrying else t.state == DeadLetter)
  }

  ghost predicate Trying(tr: Track, t: Task) {
    Fresh(tr, t) && tr.pops == tr.attempts + 1
  }

  ghost predicate Won(tr: Track, t: Task) {
    Attempted(tr, t) && tr.ok && t.state == Completed
  }

  ghost predicate Buried(tr: Track, t: Task) {
    Judged(tr, t) && tr.dlqAt.Some? && t.state == DeadLetter
  }

  ghost predicate StageOk(tr: Track, s: Stage, t: Task) {
    match s
    case MarkProcessing => Trying(tr, t)
    case SaveStarted => Trying(tr, t) && t.state == Processing
    case Execute => Trying(tr, t) && t.state == Processing
    case SaveSuccess(_) => Won(tr, t)
    case SaveCompleted => Won(tr, t)
    case AckProcessing => Won(tr, t)
    case AckData => Won(tr, t)
    case AckStat => Won(tr, t)
    case SaveFailure(_, _) => Attempted(tr, t) && !tr.ok
    case SaveFailed => Judged(tr, t) && tr.dlqAt.None?
    case Sleep => Judged(tr, t) && tr.dlqAt.None? && t.state == Retrying
    case EnqueueSet => Fresh(tr, t) && tr.pops == tr.attempts
    case EnqueuePush => Fresh(tr, t) && tr.pops == tr.attempts
    case DlqPush => Judged(tr, t) && tr.dlqAt.None? && t.state == DeadLetter
    case DlqDescribe => Buried(tr, t)
    case DlqStat => Buried(tr, t)
    case NackProcessing => Buried(tr, t)
    case NackData => Buried(tr, t)
    case NackStat => Buried(tr, t)
  }

  ghost predicate DataGone(s: Stage) { s.AckStat? || s.NackStat? }

  ghost predicate ProcessingGone(s: Stage) { s.AckData? || s.AckStat? || s.NackData? || s.NackStat? }

  ghost predicate SawHigherEmpty(proc: Proc, p: int) {
    forall q :: p < q < 4 ==> q in proc.sawEmpty
  }

  /** What the holder of a task knows at stage s. */
  ghost predicate HolderOk(w: World, k: nat, s: Stage, t: Task)
    requires k < |w.procs|
  {
    && t.id in w.track && w.track[t.id].place == Owned(k)
    && StageOk(w.track[t.id], s, t)
    && (t.id in w.db.data <==> !DataGone(s))
    && (ProcessingGone(s) ==> t.id !in w.db.processing)
    && (s.EnqueuePush? ==> w.db.data[t.id] == t)
    && (s.MarkProcessing? ==> SawHigherEmpty(w.procs[k], t.priority))
  }

  ghost predicate ProcOk(w: World, k: nat)
    requires k < |w.procs|
  {
    match w.procs[k].pc
    case Idle => true
    case CountEnqueued => true
    case Poll(p) => SawHigherEmpty(w.procs[k], p)
    case Popped(p, id) =>
      && id in w.track && w.track[id].place == Owned(k) && w.track[id].task.priority == p
      && id in w.db.data && Fresh(w.track[id], w.db.data[id])
      && w.track[id].pops == w.track[id].attempts + 1
      && SawHigherEmpty(w.procs[k], p)
    case Busy(s, t) => HolderOk(w, k, s, t)
  }

  ghost predicate IdOk(w: World, id: TaskId)
    requires id in w.track
  {
    var tr := w.track[id];
    && tr.task.id == id
    && (tr.dlqAt.Some? ==> tr.dlqAt.value < |w.db.dlq| && w.db.dlq[tr.dlqAt.value].id == id)
    && match tr.place
       case Queued =>
         && id in w.db.lists[tr.task.priority] && id in w.db.data
         && Fresh(tr, w.db.data[id]) && tr.pops == tr.attempts
       case Owned(k) => k < |w.procs| && Holds(w.procs[k].pc, id)
       case Done =>
         tr.ok && tr.dlqAt.None? && id !in w.db.data && id !in w.db.processing
         && tr.pops == tr.attempts <= Budget(tr.task)
       case Dead =>
         !tr.ok && tr.dlqAt.Some? && id !in w.db.data && id !in w.db.processing
         && tr.pops == tr.attempts == Budget(tr.task)
         && |tr.naps| == FinalRetryCount(tr.task) - 1 - tr.task.retryCount
  }

  ghost predicate ListOk(w: World, p: Priority) {
    && NoDup(w.db.lists[p])
    && forall i :: 0 <= i < |w.db.lists[p]| ==>
         var id := w.db.lists[p][i];
         id in w.track && w.track[id].place == Queued && w.track[id].task.priority == p
  }

  ghost predicate DlqEntryOk(w: World, i: nat)
    requires i < |w.db.dlq|
  {
    var t := w.db.dlq[i];
    && t.id in w.track && w.track[t.id].dlqAt == Some(i)
    && SameJob(w.track[t.id].task, t) && t.state == DeadLetter
    && t.retryCount == FinalRetryCount(w.track[t.id].task)
  }

  ghost predicate ListsOk(w: World) { forall p: Priority :: ListOk(w, p) }

  ghost predicate ProcsOk(w: World) { forall k: nat :: k < |w.procs| ==> ProcOk(w, k) }

  ghost predicate IdsOk(w: World) { forall id :: id in w.track ==> IdOk(w, id) }

  ghost predicate DlqOk(w: World) { forall i: nat :: i < |w.db.dlq| ==> DlqEntryOk(w, i) }

  ghost predicate DataOk(w: World) {
    && (forall id :: id in w.db.data ==> id in w.track && SameJob(w.track[id].task, w.db.data[id]))
    && (forall id :: id in w.db.processing ==> id in w.db.data)
  }

  ghost predicate Inv(w: World) {
    ListsOk(w) && ProcsOk(w) && IdsOk(w) && DlqOk(w) && DataOk(w)
  }

  // -------------------------------------------- steps that leave the lists

  /** w' differs from w at most in process k and in what concerns task id. */
  ghost predicate Local(w: World, w': World, k: nat, id: TaskId) {
    && |w.procs| == |w'.procs| && k < |w.procs|
    && (forall j: nat :: j < |w.procs| && j != k ==> w'.procs[j] == w.procs[j])
    && w'.track.Keys == w.track.Keys + {id}
    && (forall x :: x in w.track && x != id ==> w'.track[x] == w.track[x])
    && (forall x :: x != id ==> (x in w'.db.data <==> x in w.db.data))
    && (forall x :: x in w.db.data && x != id ==> w'.db.data[x] == w.db.data[x])
    && (forall x :: x != id ==> (x in w'.db.processing <==> x in w.db.processing))
  }

  lemma OthersKeepTheirTasks(w: World, w': World, k: nat, id: TaskId)
    requires Inv(w) && Local(w, w', k, id)
    requires id in w.track ==> w.track[id].place == Owned(k) || w.track[id].place == Queued
    ensures forall j: nat :: j < |w.procs| && j != k ==> ProcOk(w', j)
  {
    forall j: nat | j < |w.procs| && j != k
      ensures ProcOk(w', j)
    {
      assert ProcOk(w, j);
    }
  }

  lemma OtherIdsStay(w: World, w': World, k: nat, id: TaskId)
    requires Inv(w) && Local(w, w', k, id)
    requires w.procs[k].pc.Popped? || w.procs[k].pc.Busy? ==> Holds(w.procs[k].pc, id)
    requires w.db.dlq <= w'.db.dlq
    requires forall p: Priority, x :: x != id && x in w.db.lists[p] ==> x in w'.db.lists[p]
    ensures forall x :: x in w.track && x != id ==> IdOk(w', x)
  {
  }

  /** A step of the holder of id that leaves the lists alone. */
  ghost predicate HolderMove(w: World, w': World, k: nat, id: TaskId) {
    && Local(w, w', k, id)
    && w'.db.lists == w.db.lists && w.db.dlq <= w'.db.dlq
    && id in w.track && id in w'.track
    && w'.track[id].task == w.track[id].task && w'.track[id].place != Queued
    && (w'.track[id].dlqAt == w.track[id].dlqAt || w.track[id].dlqAt.None?)
    && ProcOk(w', k) && IdOk(w', id)
    && (id in w'.db.processing ==> id in w'.db.data)
    && (id in w'.db.data ==> SameJob(w'.track[id].task, w'.db.data[id]))
    && (forall i: nat :: |w.db.dlq| <= i < |w'.db.dlq| ==> DlqEntryOk(w', i))
  }

  lemma HolderMoveKeepsInv(w: World, w': World, k: nat, id: TaskId)
    requires Inv(w) && HolderMove(w, w', k, id)
    requires w.track[id].place == Owned(k) && Holds(w.procs[k].pc, id)
    ensures Inv(w')
  {
    OthersKeepTheirTasks(w, w', k, id);
    OtherIdsStay(w, w', k, id);
    forall p: Priority ensures ListOk(w', p) {
      assert ListOk(w, p);
    }
    forall i: nat | i < |w'.db.dlq| ensures DlqEntryOk(w', i) {
      if i < |w.db.dlq| {
        assert DlqEntryOk(w, i);
      }
    }
  }

  // ------------------------------------------------------ one step at a time

  lemma FetchKeepsInv(w: World, k: nat, p: Priority, id: TaskId)
    requires Inv(w) && k < |w.procs| && w.procs[k].pc == Popped(p, id)
    ensures Inv(FetchStep(w, k, p, id))
  {
    assert ProcOk(w, k);
    assert IdOk(w, id);
    HolderMoveKeepsInv(w, FetchStep(w, k, p, id), k, id);
  }

  /** Process k is about to run stage s on t; everything the step relies on. */
  ghost predicate Ready(w: World, k: nat, s: Stage, t: Task) {
    && k < |w.procs| && w.procs[k].pc == Busy(s, t) && HolderOk(w, k, s, t) && IdOk(w, t.id)
    && (t.id in w.db.processing ==> t.id in w.db.data)
    && (t.id in w.db.data ==> SameJob(w.track[t.id].task, w.db.data[t.id]))
  }

  lemma BeginMoves(w: World, k: nat, t: Task)
    requires Ready(w, k, MarkProcessing, t)
    ensures HolderMove(w, BeginTask(w, k, t), k, t.id)
  {
  }

  lemma SaveStartedMoves(w: World, k: nat, t: Task)
    requires Ready(w, k, SaveStarted, t)
    ensures HolderMove(w, Goto(SaveTask(w, t), k, Busy(Execute, t)), k, t.id)
  {
  }

  lemma ExecuteMoves(w: World, k: nat, t: Task, returned: HandlerReturn, late: bool)
    requires Ready(w, k, Execute, t)
    ensures HolderMove(w, ExecuteStep(w, k, t, returned, late), k, t.id)
  {
    var a := if t.kind in w.handlers then AnswerOf(t, returned) else NoHandler(t);
    AttemptMoves(w, k, t, ExecuteVerdict(t, a, late), Tried(returned, late));
  }

  lemma AttemptMoves(w: World, k: nat, t: Task, v: Verdict, tried: Tried)
    requires Ready(w, k, Execute, t)
    ensures HolderMove(w, AfterAttempt(w, k, t, v, tried), k, t.id)
  {
    var w' := AfterAttempt(w, k, t, v, tried);
    if v.err.None? {
      assert Won(w'.track[t.id], Finished(t));
    } else {
      assert Attempted(w'.track[t.id], t);
    }
  }

  lemma SuccessMoves(w: World, k: nat, t: Task, r: Option<Result>)
    requires Ready(w, k, SaveSuccess(r), t)
    ensures HolderMove(w, RecordSuccess(w, k, t, r), k, t.id)
  {
  }

  lemma SaveCompletedMoves(w: World, k: nat, t: Task)
    requires Ready(w, k, SaveCompleted, t)
    ensures HolderMove(w, Goto(SaveTask(w, t), k, Busy(AckProcessing, t)), k, t.id)
  {
  }

  lemma DropProcessingMoves(w: World, k: nat, t: Task, s: Stage, s': Stage)
    requires Ready(w, k, s, t)
    requires (s.AckProcessing? && s'.AckData?) || (s.NackProcessing? && s'.NackData?)
    ensures HolderMove(w, Goto(w.(db := DelProcessing(w.db, t.id)), k, Busy(s', t)), k, t.id)
  {
  }

  lemma DropDataMoves(w: World, k: nat, t: Task, s: Stage, s': Stage)
    requires Ready(w, k, s, t)
    requires (s.AckData? && s'.AckStat?) || (s.NackData? && s'.NackStat?)
    ensures HolderMove(w, Goto(w.(db := DelTask(w.db, t.id)), k, Busy(s', t)), k, t.id)
  {
  }

  lemma FinishAckMoves(w: World, k: nat, t: Task)
    requires Ready(w, k, AckStat, t)
    ensures HolderMove(w, FinishAck(w, k, t), k, t.id)
  {
  }

  lemma FinishNackMoves(w: World, k: nat, t: Task)
    requires Ready(w, k, NackStat, t)
    ensures HolderMove(w, FinishNack(w, k, t), k, t.id)
  {
  }

  lemma FailureMoves(w: World, k: nat, t: Task, r: Option<Result>, message: string)
    requires Ready(w, k, SaveFailure(r, message), t)
    ensures HolderMove(w, RecordFailure(w, k, t, r, message), k, t.id)
  {
  }

  lemma RetryMoves(w: World, k: nat, t: Task)
    requires Ready(w, k, SaveFailed, t) && t.state == Retrying
    ensures HolderMove(w, DecideRetry(w, k, t), k, t.id)
  {
  }

  lemma GiveUpMoves(w: World, k: nat, t: Task)
    requires Ready(w, k, SaveFailed, t) && t.state != Retrying
    ensures HolderMove(w, DecideRetry(w, k, t), k, t.id)
  {
  }

  lemma NapMoves(w: World, k: nat, t: Task)
    requires Ready(w, k, Sleep, t)
    ensures HolderMove(w, Nap(w, k, t), k, t.id)
  {
  }

  lemma EnqueueSetMoves(w: World, k: nat, t: Task)
    requires Ready(w, k, EnqueueSet, t)
    ensures HolderMove(w, Goto(w.(db := SetTask(w.db, t)), k, Busy(EnqueuePush, t)), k, t.id)
  {
  }

  lemma DescribeMoves(w: World, k: nat, t: Task)
    requires Ready(w, k, DlqDescribe, t)
    ensures HolderMove(w, Goto(w.(db := SetDlqMeta(w.db, t, t.error)), k, Busy(DlqStat, t)), k, t.id)
  {
  }

  lemma DlqStatMoves(w: World, k: nat, t: Task)
    requires Ready(w, k, DlqStat, t)
    ensures HolderMove(w, Goto(w.(db := IncrDead(w.db)), k, Busy(NackProcessing, t)), k, t.id)
  {
  }

  /** The worker pushes t', the copy of the exhausted task t that carries the reason. */
  lemma DeadLetterMoves(w: World, k: nat, t: Task, t': Task)
    requires Ready(w, k, DlqPush, t)
    requires SameJob(t, t') && t'.state == DeadLetter && t'.retryCount == t.retryCount
    ensures HolderMove(w, PushDeadLetter(w, k, t'), k, t.id)
  {
    var w' := PushDeadLetter(w, k, t');
    assert Buried(w'.track[t.id], t');
  }

  ghost predicate AttemptStage(s: Stage) {
    s.MarkProcessing? || s.SaveStarted? || s.Execute? || s.SaveSuccess? || s.SaveCompleted?
    || s.AckProcessing? || s.AckData? || s.AckStat?
  }

  lemma AttemptStageMoves(w: World, k: nat, s: Stage, t: Task, returned: HandlerReturn, late: bool)
    requires Ready(w, k, s, t) && AttemptStage(s)
    ensures HolderMove(w, BusyStep(w, k, s, t, returned, late), k, t.id)
  {
    match s
    case MarkProcessing => BeginMoves(w, k, t);
    case SaveStarted => SaveStartedMoves(w, k, t);
    case Execute => ExecuteMoves(w, k, t, returned, late);
    case SaveSuccess(r) => SuccessMoves(w, k, t, r);
    case SaveCompleted => SaveCompletedMoves(w, k, t);
    case AckProcessing => DropProcessingMoves(w, k, t, s, AckData);
    case AckData => DropDataMoves(w, k, t, s, AckStat);
    case AckStat => FinishAckMoves(w, k, t);
  }

  ghost predicate RetryStage(s: Stage) {
    s.SaveFailure? || s.SaveFailed? || s.Sleep? || s.EnqueueSet?
  }

  lemma RetryStageMoves(w: World, k: nat, s: Stage, t: Task, returned: HandlerReturn, late: bool)
    requires Ready(w, k, s, t) && RetryStage(s)
    ensures HolderMove(w, BusyStep(w, k, s, t, returned, late), k, t.id)
  {
    match s
    case SaveFailure(r, message) => FailureMoves(w, k, t, r, message);
    case SaveFailed => if t.state == Retrying { RetryMoves(w, k, t); } else { GiveUpMoves(w, k, t); }
    case Sleep => NapMoves(w, k, t);
    case EnqueueSet => EnqueueSetMoves(w, k, t);
  }

  lemma BurialStageMoves(w: World, k: nat, s: Stage, t: Task, returned: HandlerReturn, late: bool)
    requires Ready(w, k, s, t) && !AttemptStage(s) && !RetryStage(s) && !s.EnqueuePush?
    ensures HolderMove(w, BusyStep(w, k, s, t, returned, late), k, t.id)
  {
    match s
    case DlqPush => DeadLetterMoves(w, k, t, DeadLettered(t, ExhaustedReason(t)));
    case DlqDescribe => DescribeMoves(w, k, t);
    case DlqStat => DlqStatMoves(w, k, t);
    case NackProcessing => DropProcessingMoves(w, k, t, s, NackData);
    case NackData => DropDataMoves(w, k, t, s, NackStat);
    case NackStat => FinishNackMoves(w, k, t);
  }

  lemma PushKeepsLists(w: World, k: nat, t: Task)
    requires ListsOk(w) && Ready(w, k, EnqueuePush, t)
    ensures ListsOk(PushTask(w, k, t))
    ensures t.id in PushTask(w, k, t).db.lists[t.priority]
    ensures forall p: Priority, x :: x in w.db.lists[p] ==> x in PushTask(w, k, t).db.lists[p]
  {
    var w' := PushTask(w, k, t);
    forall p: Priority ensures ListOk(w', p) {
      assert ListOk(w, p);
      assert t.id !in w.db.lists[p];
    }
    assert w'.db.lists[t.priority][|w.db.lists[t.priority]|] == t.id;
  }

  lemma PushIsLocal(w: World, k: nat, t: Task)
    requires Ready(w, k, EnqueuePush, t)
    requires t.id in PushTask(w, k, t).db.lists[t.priority]
    ensures var w' := PushTask(w, k, t); Local(w, w', k, t.id) && ProcOk(w', k) && IdOk(w', t.id)
  {
  }

  /** RPUSH: the task leaves the hands of process k and joins the end of its list. */
  lemma PushKeepsInv(w: World, k: nat, t: Task)
    requires Inv(w) && Ready(w, k, EnqueuePush, t)
    ensures Inv(PushTask(w, k, t))
  {
    var w' := PushTask(w, k, t);
    PushKeepsLists(w, k, t);
    PushIsLocal(w, k, t);
    OthersKeepTheirTasks(w, w', k, t.id);
    OtherIdsStay(w, w', k, t.id);
    forall i: nat | i < |w'.db.dlq| ensures DlqEntryOk(w', i) {
      assert DlqEntryOk(w, i);
    }
  }

  lemma PopKeepsLists(w: World, k: nat, p: Priority)
    requires ListsOk(w) && k < |w.procs| && w.db.lists[p] != []
    ensures ListsOk(PollStep(w, k, p))
    ensures forall q: Priority, x :: x != w.db.lists[p][0] && x in w.db.lists[q] ==> x in PollStep(w, k, p).db.lists[q]
  {
    var w' := PollStep(w, k, p);
    var id := w.db.lists[p][0];
    forall q: Priority ensures ListOk(w', q) {
      assert ListOk(w, q) && ListOk(w, p);
    }
    forall q: Priority, x | x != id && x in w.db.lists[q] ensures x in w'.db.lists[q] {
      var i :| 0 <= i < |w.db.lists[q]| && w.db.lists[q][i] == x;
      if q == p {
        assert w'.db.lists[q][i - 1] == x;
      }
    }
  }

  lemma PopIsLocal(w: World, k: nat, p: Priority)
    requires k < |w.procs| && w.procs[k].pc == Poll(p) && w.db.lists[p] != []
    requires ListOk(w, p) && ProcOk(w, k) && IdOk(w, w.db.lists[p][0])
    ensures var w' := PollStep(w, k, p); var id := w.db.lists[p][0];
      && Local(w, w', k, id) && ProcOk(w', k) && IdOk(w', id) && w'.track[id].task == w.track[id].task
  {
  }

  /** LPOP: the head of a list moves into the hands of process k. */
  lemma PopKeepsInv(w: World, k: nat, p: Priority)
    requires Inv(w) && k < |w.procs| && w.procs[k].pc == Poll(p) && w.db.lists[p] != []
    ensures Inv(PollStep(w, k, p))
  {
    var w' := PollStep(w, k, p);
    var id := w.db.lists[p][0];
    assert ListOk(w, p) && ProcOk(w, k);
    assert id in w.track && IdOk(w, id);
    PopKeepsLists(w, k, p);
    PopIsLocal(w, k, p);
    OthersKeepTheirTasks(w, w', k, id);
    OtherIdsStay(w, w', k, id);
    forall i: nat | i < |w'.db.dlq| ensures DlqEntryOk(w', i) {
      assert DlqEntryOk(w, i);
    }
  }

  /** A step that moves only process k, which holds nothing before or after. */
  lemma EmptyHandedStepKeepsInv(w: World, w': World, k: nat)
    requires Inv(w) && k < |w.procs|
    requires !w.procs[k].pc.Popped? && !w.procs[k].pc.Busy?
    requires |w'.procs| == |w.procs| && w'.procs == w.procs[k := w'.procs[k]] && w'.track == w.track
    requires w'.db.lists == w.db.lists && w'.db.data == w.db.data && w'.db.dlq == w.db.dlq
    requires w'.db.processing <= w.db.processing
    requires ProcOk(w', k)
    ensures Inv(w')
  {
    forall j: nat | j < |w.procs| && j != k ensures ProcOk(w', j) {
      assert ProcOk(w, j);
    }
    forall x | x in w.track ensures IdOk(w', x) {
      assert IdOk(w, x);
    }
    forall q: Priority ensures ListOk(w', q) {
      assert ListOk(w, q);
    }
    forall i: nat | i < |w'.db.dlq| ensures DlqEntryOk(w', i) {
      assert DlqEntryOk(w, i);
    }
  }

  lemma SubmitIsLocal(w: World, k: nat, t: Task)
    requires Enabled(w, Submit(k, t)) && t.id !in w.db.data && t.id !in w.db.processing
    ensures var w' := BeginSubmit(w, k, t); Local(w, w', k, t.id) && ProcOk(w', k) && IdOk(w', t.id)
  {
  }

  lemma SubmitKeepsInv(w: World, k: nat, t: Task)
    requires Inv(w) && Enabled(w, Submit(k, t))
    ensures Inv(BeginSubmit(w, k, t))
  {
    var w' := BeginSubmit(w, k, t);
    SubmitIsLocal(w, k, t);
    OthersKeepTheirTasks(w, w', k, t.id);
    OtherIdsStay(w, w', k, t.id);
    SubmitKeepsLists(w, k, t);
  }

  lemma SubmitKeepsLists(w: World, k: nat, t: Task)
    requires ListsOk(w) && DlqOk(w) && Enabled(w, Submit(k, t))
    ensures ListsOk(BeginSubmit(w, k, t)) && DlqOk(BeginSubmit(w, k, t))
  {
    var w' := BeginSubmit(w, k, t);
    forall q: Priority ensures ListOk(w', q) {
      assert ListOk(w, q);
    }
    forall i: nat | i < |w'.db.dlq| ensures DlqEntryOk(w', i) {
      assert DlqEntryOk(w, i);
    }
  }

  /** Spawning, crashing and the expiry of a processing key touch no task. */
  lemma EnvironmentKeepsInv(w: World, a: Action)
    requires Inv(w) && Enabled(w, a) && (a.Spawn? || a.Crash? || a.ExpireProcessing?)
    ensures Inv(Apply(w, a))
  {
    EnvironmentKeepsHolders(w, a);
    var w' := Apply(w, a);
    forall q: Priority ensures ListOk(w', q) {
      assert ListOk(w, q);
    }
    forall i: nat | i < |w'.db.dlq| ensures DlqEntryOk(w', i) {
      assert DlqEntryOk(w, i);
    }
  }

  lemma EnvironmentKeepsHolders(w: World, a: Action)
    requires ProcsOk(w) && IdsOk(w) && Enabled(w, a) && (a.Spawn? || a.Crash? || a.ExpireProcessing?)
    ensures ProcsOk(Apply(w, a)) && IdsOk(Apply(w, a))
  {
    var w' := Apply(w, a);
    forall j: nat | j < |w'.procs| ensures ProcOk(w', j) {
      if j < |w.procs| {
        assert ProcOk(w, j);
      }
    }
    forall x | x in w.track ensures IdOk(w', x) {
      assert IdOk(w, x);
    }
  }

  lemma BusyStepKeepsInv(w: World, k: nat, s: Stage, t: Task, returned: HandlerReturn, late: bool)
    requires Inv(w) && k < |w.procs| && w.procs[k].pc == Busy(s, t)
    ensures Inv(BusyStep(w, k, s, t, returned, late))
  {
    assert ProcOk(w, k);
    assert IdOk(w, t.id);
    assert Ready(w, k, s, t);
    if s.EnqueuePush? {
      PushKeepsInv(w, k, t);
    } else {
      if AttemptStage(s) {
        AttemptStageMoves(w, k, s, t, returned, late);
      } else if RetryStage(s) {
        RetryStageMoves(w, k, s, t, returned, late);
      } else {
        BurialStageMoves(w, k, s, t, returned, late);
      }
      HolderMoveKeepsInv(w, BusyStep(w, k, s, t, returned, late), k, t.id);
    }
  }

  lemma ProcStepKeepsInv(w: World, k: nat, returned: HandlerReturn, late: bool)
    requires Inv(w) && k < |w.procs|
    ensures Inv(ProcStep(w, k, returned, late))
  {
    var w' := ProcStep(w, k, returned, late);
    assert ProcOk(w, k);
    match w.procs[k].pc
    case Idle => EmptyHandedStepKeepsInv(w, w', k);
    case Poll(p) =>
      if w.db.lists[p] == [] {
        EmptyHandedStepKeepsInv(w, w', k);
      } else {
        PopKeepsInv(w, k, p);
      }
    case Popped(p, id) => FetchKeepsInv(w, k, p, id);
    case CountEnqueued => EmptyHandedStepKeepsInv(w, w', k);
    case Busy(s, t) => BusyStepKeepsInv(w, k, s, t, returned, late);
  }

  lemma ActionKeepsInv(w: World, a: Action)
    requires Inv(w) && Enabled(w, a)
    ensures Inv(Apply(w, a))
  {
    match a
    case Submit(k, t) => SubmitKeepsInv(w, k, t);
    case Step(k, returned, late) => ProcStepKeepsInv(w, k, returned, late);
    case Spawn => EnvironmentKeepsInv(w, a);
    case Crash(_) => EnvironmentKeepsInv(w, a);
    case ExpireProcessing(_) => EnvironmentKeepsInv(w, a);
  }

  lemma {:induction false} RunKeepsInv(w: World, actions: seq<Action>)
    requires Inv(w) && Legal(w, actions)
    ensures Inv(Run(w, actions))
    decreases |actions|
  {
    if actions != [] {
      ActionKeepsInv(w, actions[0]);
      RunKeepsInv(Apply(w, actions[0]), actions[1..]);
    }
  }

  lemma InitialInv(handlers: set<string>)
    ensures Inv(Initial(handlers))
  {
  }

  lemma {:induction false} ReachableInv(handlers: set<string>, actions: seq<Action>)
    requires Legal(Initial(handlers), actions)
    ensures Inv(Run(Initial(handlers), actions))
  {
    InitialInv(handlers);
    RunKeepsInv(Initial(handlers), actions);
  }
}
