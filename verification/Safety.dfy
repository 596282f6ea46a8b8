/** What every run of the protocol guarantees, whatever the number of processes, the
    interleaving of their commands, the handlers' behaviour and the crashes. */
module Safety {
  import opened Tasks
  import opened Redis
  import opened Handlers
  import opened Protocol
  import opened Ownership

  ghost predicate Reachable(w: World) {
    exists handlers: set<string>, actions: seq<Action> ::
      Legal(Initial(handlers), actions) && w == Run(Initial(handlers), actions)
  }

  lemma {:induction false} ReachableHasInv(w: World)
    requires Reachable(w)
    ensures Inv(w)
  {
    var handlers, actions :| Legal(Initial(handlers), actions) && w == Run(Initial(handlers), actions);
    ReachableInv(handlers, actions);
  }

  ghost predicate Listed(db: Db, id: TaskId) {
    exists p: Priority :: id in db.lists[p]
  }

  ghost predicate IsDeadLettered(db: Db, id: TaskId) {
    exists i: nat :: i < |db.dlq| && db.dlq[i].id == id
  }

  /** No loss under crashes: a submitted task still has its data, unchanged in everything
      but its bookkeeping, or its handler has succeeded, or it is in the dead letter list. */
  lemma NoLoss(w: World, id: TaskId)
    requires Reachable(w) && id in w.track
    ensures || (id in w.db.data && SameJob(w.track[id].task, w.db.data[id]))
            || w.track[id].ok
            || IsDeadLettered(w.db, id)
  {
    ReachableHasInv(w);
    assert IdOk(w, id);
    match w.track[id].place
    case Owned(k) => assert ProcOk(w, k);
    case _ =>
  }

  lemma BusyStepDeletes(w: World, k: nat, s: Stage, t: Task, returned: HandlerReturn, late: bool)
    requires k < |w.procs|
    ensures var d, d' := w.db.data.Keys, BusyStep(w, k, s, t, returned, late).db.data.Keys;
      if s.AckData? || s.NackData? then d' == d - {t.id} else d <= d'
  {
    match s
    case MarkProcessing =>
    case SaveStarted =>
    case Execute =>
    case SaveSuccess(_) =>
    case SaveCompleted =>
    case AckProcessing =>
    case AckData =>
    case AckStat =>
    case SaveFailure(_, _) =>
    case SaveFailed =>
    case Sleep =>
    case EnqueueSet =>
    case EnqueuePush =>
    case DlqPush =>
    case DlqDescribe =>
    case DlqStat =>
    case NackProcessing =>
    case NackData =>
    case NackStat =>
  }

  lemma OnlyAckAndNackDelete(w: World, a: Action, id: TaskId)
    requires Enabled(w, a) && id in w.db.data && id !in Apply(w, a).db.data
    ensures a.Step? && w.procs[a.k].pc.Busy? && w.procs[a.k].pc.t.id == id
    ensures w.procs[a.k].pc.stage.AckData? || w.procs[a.k].pc.stage.NackData?
  {
    if a.Step? && w.procs[a.k].pc.Busy? {
      BusyStepDeletes(w, a.k, w.procs[a.k].pc.stage, w.procs[a.k].pc.t, a.returned, a.late);
    }
  }

  /** Data is deleted only after the handler has succeeded or the task is dead-lettered. */
  lemma DeletionIsLate(w: World, a: Action, id: TaskId)
    requires Reachable(w) && Enabled(w, a)
    requires id in w.db.data && id !in Apply(w, a).db.data
    ensures id in w.track && (w.track[id].ok || IsDeadLettered(w.db, id))
  {
    OnlyAckAndNackDelete(w, a, id);
    ReachableHasInv(w);
    assert ProcOk(w, a.k);
    assert IdOk(w, id);
  }

  lemma ListedIsQueued(w: World, id: TaskId)
    requires ListsOk(w) && Listed(w.db, id)
    ensures id in w.track && w.track[id].place == Queued
  {
    var p: Priority :| id in w.db.lists[p];
    assert ListOk(w, p);
  }

  /** Every identifier has one place: at most once in the four lists, held by at most one
      process, at most once dead-lettered, and never in two of these roles at a time. */
  lemma ExclusiveOwnership(w: World)
    requires Reachable(w)
    ensures forall p: Priority, q: Priority, i, j ::
      0 <= i < |w.db.lists[p]| && 0 <= j < |w.db.lists[q]| && w.db.lists[p][i] == w.db.lists[q][j]
      ==> p == q && i == j
    ensures forall k, j, id ::
      0 <= k < |w.procs| && 0 <= j < |w.procs| && Holds(w.procs[k].pc, id) && Holds(w.procs[j].pc, id) ==> k == j
    ensures forall k, id :: 0 <= k < |w.procs| && Holds(w.procs[k].pc, id) ==> !Listed(w.db, id)
    ensures forall i, j :: 0 <= i < |w.db.dlq| && 0 <= j < |w.db.dlq| && w.db.dlq[i].id == w.db.dlq[j].id ==> i == j
    ensures forall i :: 0 <= i < |w.db.dlq| ==> !Listed(w.db, w.db.dlq[i].id)
  {
    ReachableHasInv(w);
    forall p: Priority, q: Priority, i, j | 0 <= i < |w.db.lists[p]| && 0 <= j < |w.db.lists[q]|
      && w.db.lists[p][i] == w.db.lists[q][j]
      ensures p == q && i == j
    {
      assert ListOk(w, p) && ListOk(w, q);
    }
    forall k, j, id | 0 <= k < |w.procs| && 0 <= j < |w.procs| && Holds(w.procs[k].pc, id) && Holds(w.procs[j].pc, id)
      ensures k == j
    {
      assert ProcOk(w, k) && ProcOk(w, j);
    }
    forall k, id | 0 <= k < |w.procs| && Holds(w.procs[k].pc, id)
      ensures !Listed(w.db, id)
    {
      assert ProcOk(w, k);
      if Listed(w.db, id) { ListedIsQueued(w, id); }
    }
    DeadLettersAreUnique(w);
  }

  lemma DeadLettersAreUnique(w: World)
    requires Inv(w)
    ensures forall i, j :: 0 <= i < |w.db.dlq| && 0 <= j < |w.db.dlq| && w.db.dlq[i].id == w.db.dlq[j].id ==> i == j
    ensures forall i :: 0 <= i < |w.db.dlq| ==> !Listed(w.db, w.db.dlq[i].id)
  {
    forall i | 0 <= i < |w.db.dlq|
      ensures w.db.dlq[i].id in w.track && w.track[w.db.dlq[i].id].dlqAt == Some(i) && !Listed(w.db, w.db.dlq[i].id)
    {
      assert DlqEntryOk(w, i);
      var id := w.db.dlq[i].id;
      assert IdOk(w, id);
      if Listed(w.db, id) { ListedIsQueued(w, id); }
    }
  }

  /** A listed identifier has its data, filed under that list's priority. */
  lemma ListedHasData(w: World, p: Priority, i: nat)
    requires Reachable(w) && i < |w.db.lists[p]|
    ensures var id := w.db.lists[p][i]; id in w.db.data && w.db.data[id].id == id && w.db.data[id].priority == p
  {
    ReachableHasInv(w);
    assert ListOk(w, p);
    assert IdOk(w, w.db.lists[p][i]);
  }

  /** Dequeue's "data not found, skip" branch is never taken, and when Dequeue hands out a
      task it has found every list of higher priority empty during that call. */
  lemma DequeueIsSound(w: World, k: nat)
    requires Reachable(w) && k < |w.procs|
    ensures w.procs[k].pc.Popped? ==> w.procs[k].pc.id in w.db.data
    ensures w.procs[k].pc.Popped? ==> forall q :: w.procs[k].pc.p < q < 4 ==> q in w.procs[k].sawEmpty
    ensures w.procs[k].pc.Busy? && w.procs[k].pc.stage.MarkProcessing? ==>
      forall q :: w.procs[k].pc.t.priority < q < 4 ==> q in w.procs[k].sawEmpty
  {
    ReachableHasInv(w);
    assert ProcOk(w, k);
  }

  /** A task whose data is kept but which is in no list is in the hands of one process;
      so without crashes no task is ever stranded. */
  lemma UnlistedHasHolder(w: World, id: TaskId)
    requires Reachable(w) && id in w.db.data && !Listed(w.db, id)
    ensures exists k: nat :: k < |w.procs| && Holds(w.procs[k].pc, id)
  {
    ReachableHasInv(w);
    assert id in w.track && IdOk(w, id);
    assert w.track[id].place.Owned?;
  }

  ghost predicate Quiet(w: World) {
    && (forall k :: 0 <= k < |w.procs| ==> !w.procs[k].crashed && (w.procs[k].pc.Idle? || w.procs[k].pc.Poll?))
    && (forall p: Priority :: w.db.lists[p] == [])
  }

  /** When the lists are empty and no process is working or crashed, every submitted task
      has succeeded or is in the dead letter list, and nothing is left behind. */
  lemma DrainedMeansSettled(w: World)
    requires Reachable(w) && Quiet(w)
    ensures forall id :: id in w.track ==> (w.track[id].ok <==> !IsDeadLettered(w.db, id))
    ensures w.db.data == map[] && w.db.processing == {}
  {
    ReachableHasInv(w);
    QuietIsSettled(w);
  }

  lemma QuietIsSettled(w: World)
    requires Inv(w) && Quiet(w)
    ensures forall id :: id in w.track ==> (w.track[id].ok <==> !IsDeadLettered(w.db, id))
    ensures w.db.data == map[] && w.db.processing == {}
  {
    forall id | id in w.track
      ensures id !in w.db.data && (w.track[id].ok <==> !IsDeadLettered(w.db, id))
    {
      assert IdOk(w, id);
      forall i: nat | i < |w.db.dlq| && w.db.dlq[i].id == id ensures w.track[id].dlqAt == Some(i) {
        assert DlqEntryOk(w, i);
      }
    }
  }

  /** A process about to execute a task holds one whose handler has not succeeded yet. */
  lemma OnlyUnfinishedExecute(w: World, k: nat)
    requires Reachable(w) && k < |w.procs| && w.procs[k].pc.Busy? && w.procs[k].pc.stage.Execute?
    ensures var id := w.procs[k].pc.t.id; id in w.track && !w.track[id].ok
  {
    ReachableHasInv(w);
    assert ProcOk(w, k);
  }

  /** At most one successful execution: once the handler of a task has succeeded, no step
      executes the task again, whatever crashes. */
  lemma SuccessIsFinal(w: World, a: Action, id: TaskId)
    requires Reachable(w) && Enabled(w, a) && id in w.track && w.track[id].ok
    ensures var w' := Apply(w, a);
      id in w'.track && w'.track[id].ok && w'.track[id].attempts == w.track[id].attempts
  {
    ReachableHasInv(w);
    if a.Step? && w.procs[a.k].pc.Busy? {
      BusySuccessIsFinal(w, a.k, a.returned, a.late, id);
    } else if a.Step? && w.procs[a.k].pc.Poll? {
      assert ListOk(w, w.procs[a.k].pc.p);
      PopJudgesNothing(w, a.k, w.procs[a.k].pc.p, id);
    } else {
      assert a.Submit? || Apply(w, a).track == w.track;
    }
  }

  lemma PopJudgesNothing(w: World, k: nat, p: Priority, id: TaskId)
    requires k < |w.procs| && id in w.track
    ensures var w' := PollStep(w, k, p);
      id in w'.track && w'.track[id].ok == w.track[id].ok && w'.track[id].attempts == w.track[id].attempts
  {
  }

  lemma BusySuccessIsFinal(w: World, k: nat, returned: HandlerReturn, late: bool, id: TaskId)
    requires Reachable(w) && k < |w.procs| && w.procs[k].pc.Busy? && id in w.track && w.track[id].ok
    ensures var w' := BusyStep(w, k, w.procs[k].pc.stage, w.procs[k].pc.t, returned, late);
      id in w'.track && w'.track[id].ok && w'.track[id].attempts == w.track[id].attempts
  {
    var s, t := w.procs[k].pc.stage, w.procs[k].pc.t;
    ReachableHasInv(w);
    assert ProcOk(w, k);
    BusyStepTracks(w, k, s, t, returned, late);
    if t.id == id {
      if s.Execute? { OnlyUnfinishedExecute(w, k); }
      OnlyExecuteJudges(w, k, s, t, returned, late);
    }
  }

  lemma OnlyExecuteJudges(w: World, k: nat, s: Stage, t: Task, returned: HandlerReturn, late: bool)
    requires k < |w.procs| && t.id in w.track && !s.Execute?
    ensures var w' := BusyStep(w, k, s, t, returned, late);
      t.id in w'.track && w'.track[t.id].ok == w.track[t.id].ok
  {
    match s
    case MarkProcessing =>
    case SaveStarted =>
    case SaveSuccess(_) =>
    case SaveCompleted =>
    case AckProcessing =>
    case AckData =>
    case AckStat =>
    case SaveFailure(_, _) =>
    case SaveFailed =>
    case Sleep =>
    case EnqueueSet =>
    case EnqueuePush =>
    case DlqPush =>
    case DlqDescribe =>
    case DlqStat =>
    case NackProcessing =>
    case NackData =>
    case NackStat =>
  }

  lemma AttemptsWithinBudget(w: World, id: TaskId)
    requires Inv(w) && id in w.track
    ensures w.track[id].attempts <= w.track[id].pops <= Budget(w.track[id].task)
  {
    assert IdOk(w, id);
    match w.track[id].place
    case Owned(k) => assert ProcOk(w, k);
    case _ =>
  }

  /** A task is executed, and dequeued, at most as often as its retry budget allows: for
      RetryCount 0 and MaxRetries m >= 0 that is m + 1 times. */
  lemma BoundedAttempts(w: World, id: TaskId)
    requires Reachable(w) && id in w.track
    ensures w.track[id].attempts <= w.track[id].pops <= Budget(w.track[id].task)
  {
    ReachableHasInv(w);
    AttemptsWithinBudget(w, id);
  }

  /** A dead letter has used its whole budget and carries the final retry count: for
      RetryCount 0 and MaxRetries m >= 0, m + 1 attempts and m naps. */
  lemma DeadLetterIsExhausted(w: World, i: nat)
    requires Reachable(w) && i < |w.db.dlq|
    ensures var t := w.db.dlq[i];
      && t.id in w.track && SameJob(w.track[t.id].task, t) && t.state == DeadLetter && !w.track[t.id].ok
      && t.retryCount == FinalRetryCount(w.track[t.id].task)
      && w.track[t.id].attempts == Budget(w.track[t.id].task)
      && |w.track[t.id].naps| == Budget(w.track[t.id].task) - 1
  {
    ReachableHasInv(w);
    assert DlqEntryOk(w, i);
    var id := w.db.dlq[i].id;
    assert IdOk(w, id);
    match w.track[id].place
    case Owned(k) => assert ProcOk(w, k);
    case _ =>
  }

  /** A processing key never outlives the task data it points at. */
  lemma ProcessingHasData(w: World, id: TaskId)
    requires Reachable(w) && id in w.db.processing
    ensures id in w.db.data
  {
    ReachableHasInv(w);
  }

  // ------------------------------------------- what a step adds to a history

  /** The history of the held task after stage s, apart from its place and outcome. */
  ghost predicate TrackMoves(tr: Track, tr': Track, s: Stage, t: Task) {
    && tr'.task == tr.task && tr'.pops == tr.pops
    && tr'.attempts == tr.attempts + (if s.Execute? then 1 else 0)
    && tr'.naps == (if s.Sleep? then tr.naps + [t.retryCount] else tr.naps)
    && (!s.Execute? ==> tr'.last == tr.last)
  }

  /** Stage s of process k rewrites the history of t and of no other task. */
  ghost predicate TracksOnly(w: World, w': World, s: Stage, t: Task)
    requires t.id in w.track
  {
    && t.id in w'.track && w'.track == w.track[t.id := w'.track[t.id]] && w'.log == w.log
    && TrackMoves(w.track[t.id], w'.track[t.id], s, t)
  }

  lemma AttemptTracks(w: World, k: nat, s: Stage, t: Task, returned: HandlerReturn, late: bool)
    requires k < |w.procs| && t.id in w.track && AttemptStage(s)
    ensures TracksOnly(w, BusyStep(w, k, s, t, returned, late), s, t)
  {
    match s
    case MarkProcessing =>
    case SaveStarted =>
    case Execute =>
    case SaveSuccess(_) =>
    case SaveCompleted =>
    case AckProcessing =>
    case AckData =>
    case AckStat =>
  }

  lemma RetryTracks(w: World, k: nat, s: Stage, t: Task, returned: HandlerReturn, late: bool)
    requires k < |w.procs| && t.id in w.track && (RetryStage(s) || s.EnqueuePush?)
    ensures TracksOnly(w, BusyStep(w, k, s, t, returned, late), s, t)
  {
  }

  lemma BurialTracks(w: World, k: nat, s: Stage, t: Task, returned: HandlerReturn, late: bool)
    requires k < |w.procs| && t.id in w.track && !AttemptStage(s) && !RetryStage(s) && !s.EnqueuePush?
    ensures TracksOnly(w, BusyStep(w, k, s, t, returned, late), s, t)
  {
  }

  lemma BusyStepTracks(w: World, k: nat, s: Stage, t: Task, returned: HandlerReturn, late: bool)
    requires k < |w.procs| && t.id in w.track
    ensures TracksOnly(w, BusyStep(w, k, s, t, returned, late), s, t)
  {
    if AttemptStage(s) {
      AttemptTracks(w, k, s, t, returned, late);
    } else if RetryStage(s) || s.EnqueuePush? {
      RetryTracks(w, k, s, t, returned, late);
    } else {
      BurialTracks(w, k, s, t, returned, late);
    }
  }
}
