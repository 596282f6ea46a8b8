/** What the system says about a task is what its handler said: the output of a completed
    task, the error a retried task carries, the reason and the metadata of a dead letter. */
module Reports {
  import opened Tasks
  import opened Redis
  import opened Handlers
  import opened Protocol
  import opened Ownership
  import opened Safety
  import opened Outcomes

  // --------------------------------------------------------- the last attempt

  /** The error of the last attempt, if there was one and it failed. */
  function LastError(w: World, tr: Track): Option<string> {
    if tr.last.None? then None else AttemptError(tr.task.kind, tr.task.kind in w.handlers, tr.last.value)
  }

  function LastResult(w: World, tr: Track): Option<Result> {
    if tr.last.None? then None else AttemptResult(tr.task.id, tr.task.kind in w.handlers, tr.last.value)
  }

  ghost predicate Succeeded(w: World, tr: Track) { tr.last.Some? && LastError(w, tr).None? }

  ghost predicate FailedWith(w: World, tr: Track, message: string) {
    tr.last.Some? && LastError(w, tr) == Some(message)
  }

  /** The result of the last attempt, if it left one, is the stored one. */
  ghost predicate ResultSaved(w: World, tr: Track) {
    LastResult(w, tr).Some? ==> tr.task.id in w.results && w.results[tr.task.id] == LastResult(w, tr).value
  }

  ghost predicate SavedAs(w: World, tr: Track, t: Task) {
    tr.task.id in w.store && w.store[tr.task.id] == t
  }

  ghost predicate SavedRunning(w: World, tr: Track) {
    && tr.task.id in w.store && SameJob(tr.task, w.store[tr.task.id])
    && w.store[tr.task.id].state == Processing
  }

  /** A task tried before carries its last error, in the queue and in storage. */
  ghost predicate Carries(w: World, tr: Track, t: Task) { tr.attempts > 0 ==> FailedWith(w, tr, t.error) }

  ghost predicate Retried(w: World, tr: Track, t: Task) {
    tr.attempts > 0 ==>
      FailedWith(w, tr, t.error) && ResultSaved(w, tr) && SavedAs(w, tr, t) && t.state == Retrying
  }

  /** The exhaustion text for the submitted limit and the last error. */
  function Reason(w: World, tr: Track): string {
    var last := LastError(w, tr);
    ExhaustedReason(tr.task.(error := if last.Some? then last.value else ""))
  }

  ghost predicate Buried(w: World, tr: Track) {
    && LastError(w, tr).Some? && ResultSaved(w, tr)
    && tr.task.id in w.store && w.store[tr.task.id].state == DeadLetter
    && w.store[tr.task.id].error == LastError(w, tr).value
  }

  ghost predicate StageReported(w: World, tr: Track, s: Stage, t: Task) {
    match s
    case MarkProcessing => Carries(w, tr, t)
    case SaveStarted => Carries(w, tr, t)
    case Execute => SavedAs(w, tr, t)
    case SaveSuccess(r) => Succeeded(w, tr) && r == LastResult(w, tr) && SavedRunning(w, tr)
    case SaveCompleted => Succeeded(w, tr) && ResultSaved(w, tr) && SavedRunning(w, tr)
    case AckProcessing => Succeeded(w, tr) && ResultSaved(w, tr) && SavedAs(w, tr, t)
    case AckData => Succeeded(w, tr) && ResultSaved(w, tr) && SavedAs(w, tr, t)
    case AckStat => Succeeded(w, tr) && ResultSaved(w, tr) && SavedAs(w, tr, t)
    case SaveFailure(r, message) => FailedWith(w, tr, message) && r == LastResult(w, tr) && SavedRunning(w, tr)
    case SaveFailed => FailedWith(w, tr, t.error) && ResultSaved(w, tr) && SavedRunning(w, tr)
    case Sleep => Retried(w, tr, t)
    case EnqueueSet => Retried(w, tr, t)
    case EnqueuePush => Retried(w, tr, t)
    case DlqPush => FailedWith(w, tr, t.error) && ResultSaved(w, tr) && SavedAs(w, tr, t)
    case DlqDescribe =>
      && Buried(w, tr) && t.error == Reason(w, tr)
      && tr.dlqAt.Some? && tr.dlqAt.value < |w.db.dlq| && w.db.dlq[tr.dlqAt.value] == t
    case _ => Buried(w, tr) && tr.task.id in w.db.dlqMeta
  }

  /** The dead letter of the task and its metadata say why. */
  ghost predicate LetterOk(w: World, tr: Track) {
    match tr.dlqAt
    case None => tr.task.id !in w.db.dlqMeta
    case Some(i) =>
      && i < |w.db.dlq| && LastError(w, tr).Some? && w.db.dlq[i].error == Reason(w, tr)
      && (tr.task.id in w.db.dlqMeta ==>
            w.db.dlqMeta[tr.task.id] == DlqMeta(w.db.dlq[i].error, w.db.dlq[i].retryCount))
  }

  ghost predicate PlaceReported(w: World, tr: Track) {
    match tr.place
    case Queued => tr.task.id in w.db.data && Retried(w, tr, w.db.data[tr.task.id])
    case Owned(k) =>
      && k < |w.procs|
      && (if w.procs[k].pc.Busy? then StageReported(w, tr, w.procs[k].pc.stage, w.procs[k].pc.t)
          else tr.task.id in w.db.data && Retried(w, tr, w.db.data[tr.task.id]))
    case Done =>
      && Succeeded(w, tr) && ResultSaved(w, tr)
      && tr.task.id in w.store && w.store[tr.task.id].state == Completed
    case Dead => Buried(w, tr) && tr.task.id in w.db.dlqMeta
  }

  ghost predicate IdReported(w: World, id: TaskId)
    requires id in w.track
  {
    w.track[id].task.id == id && LetterOk(w, w.track[id]) && PlaceReported(w, w.track[id])
  }

  ghost predicate ReportInv(w: World) {
    && (forall id :: id in w.track ==> IdReported(w, id))
    && (forall id :: id in w.db.dlqMeta ==> id in w.track)
  }

  // ------------------------------------------------------------- one task moves

  /** Only task id is concerned. */
  ghost predicate ReportLocal(w: World, w': World, id: TaskId) {
    && StoreLocal(w, w', id) && w.db.dlq <= w'.db.dlq
    && (forall x :: x in w'.db.dlqMeta ==> x == id || (x in w.db.dlqMeta && w'.db.dlqMeta[x] == w.db.dlqMeta[x]))
    && (forall x :: x in w.db.dlqMeta && x != id ==> x in w'.db.dlqMeta)
  }

  /** What concerns the task of tr, other than the process that may hold it, is the same. */
  ghost predicate SameReports(w: World, w': World, tr: Track) {
    var id := tr.task.id;
    && w'.handlers == w.handlers && w.db.dlq <= w'.db.dlq
    && (id in w'.store <==> id in w.store) && (id in w.store ==> w'.store[id] == w.store[id])
    && (id in w'.results <==> id in w.results) && (id in w.results ==> w'.results[id] == w.results[id])
    && (id in w'.db.data <==> id in w.db.data) && (id in w.db.data ==> w'.db.data[id] == w.db.data[id])
    && (id in w'.db.dlqMeta <==> id in w.db.dlqMeta)
    && (id in w.db.dlqMeta ==> w'.db.dlqMeta[id] == w.db.dlqMeta[id])
  }

  lemma SameStage(w: World, w': World, tr: Track, s: Stage, t: Task)
    requires SameReports(w, w', tr) && StageReported(w, tr, s, t)
    ensures StageReported(w', tr, s, t)
  {
  }

  lemma SamePlace(w: World, w': World, tr: Track)
    requires SameReports(w, w', tr) && PlaceReported(w, tr)
    requires tr.place.Owned? ==> tr.place.k < |w'.procs| && w'.procs[tr.place.k].pc == w.procs[tr.place.k].pc
    ensures PlaceReported(w', tr)
  {
    if tr.place.Owned? && w.procs[tr.place.k].pc.Busy? {
      SameStage(w, w', tr, w.procs[tr.place.k].pc.stage, w.procs[tr.place.k].pc.t);
    }
  }

  lemma SameLetter(w: World, w': World, tr: Track)
    requires SameReports(w, w', tr) && LetterOk(w, tr)
    ensures LetterOk(w', tr)
  {
  }

  lemma ReportFrameAt(w: World, w': World, k: nat, id: TaskId, x: TaskId)
    requires Local(w, w', k, id) && ReportLocal(w, w', id)
    requires w.procs[k].pc.Popped? || w.procs[k].pc.Busy? ==> Holds(w.procs[k].pc, id)
    requires x in w.track && x != id && IdReported(w, x) && IdOk(w, x)
    ensures IdReported(w', x)
  {
    var tr := w.track[x];
    assert w'.track[x] == tr && SameReports(w, w', tr);
    SameLetter(w, w', tr);
    SamePlace(w, w', tr);
  }

  lemma ReportFrame(w: World, w': World, k: nat, id: TaskId)
    requires Inv(w) && ReportInv(w) && Local(w, w', k, id) && ReportLocal(w, w', id)
    requires w.procs[k].pc.Popped? || w.procs[k].pc.Busy? ==> Holds(w.procs[k].pc, id)
    requires IdReported(w', id)
    ensures ReportInv(w')
  {
    forall x | x in w'.track && x != id
      ensures IdReported(w', x)
    {
      ReportFrameAt(w, w', k, id, x);
    }
  }

  /** Process k is about to run stage s on t, and all reports on it are right. */
  ghost predicate ReadyToReport(w: World, k: nat, s: Stage, t: Task) {
    && k < |w.procs| && w.procs[k].pc == Busy(s, t)
    && t.id in w.track && w.track[t.id].place == Owned(k)
    && StageOk(w.track[t.id], s, t) && IdReported(w, t.id)
  }

  ghost predicate Reported(w: World, w': World, id: TaskId) {
    ReportLocal(w, w', id) && id in w'.track && IdReported(w', id)
  }

  lemma StartReports(w: World, k: nat, s: Stage, t: Task, returned: HandlerReturn, late: bool)
    requires ReadyToReport(w, k, s, t) && (s.MarkProcessing? || s.SaveStarted?)
    ensures Reported(w, BusyStep(w, k, s, t, returned, late), t.id)
  {
  }

  lemma VerdictReports(w: World, k: nat, t: Task, tried: Tried)
    requires ReadyToReport(w, k, Execute, t)
    ensures var handled := t.kind in w.handlers;
      var v := Verdict(AttemptResult(t.id, handled, tried), AttemptError(t.kind, handled, tried));
      Reported(w, AfterAttempt(w, k, t, v, tried), t.id)
  {
  }

  lemma ExecuteReports(w: World, k: nat, t: Task, returned: HandlerReturn, late: bool)
    requires ReadyToReport(w, k, Execute, t)
    ensures Reported(w, ExecuteStep(w, k, t, returned, late), t.id)
  {
    VerdictOfAttempt(t, t.kind in w.handlers, Tried(returned, late));
    VerdictReports(w, k, t, Tried(returned, late));
  }

  lemma SuccessReports(w: World, k: nat, t: Task, r: Option<Result>)
    requires ReadyToReport(w, k, SaveSuccess(r), t)
    ensures Reported(w, RecordSuccess(w, k, t, r), t.id)
  {
  }

  lemma AckReports(w: World, k: nat, s: Stage, t: Task, returned: HandlerReturn, late: bool)
    requires ReadyToReport(w, k, s, t) && (s.SaveCompleted? || s.AckProcessing? || s.AckData? || s.AckStat?)
    ensures Reported(w, BusyStep(w, k, s, t, returned, late), t.id)
  {
  }

  lemma FailureReports(w: World, k: nat, t: Task, r: Option<Result>, message: string)
    requires ReadyToReport(w, k, SaveFailure(r, message), t)
    ensures Reported(w, RecordFailure(w, k, t, r, message), t.id)
  {
  }

  lemma DecisionReports(w: World, k: nat, t: Task)
    requires ReadyToReport(w, k, SaveFailed, t)
    ensures Reported(w, DecideRetry(w, k, t), t.id)
  {
    if t.state == Retrying { RetryReports(w, k, t); } else { ExhaustReports(w, k, t); }
  }

  lemma RetryReports(w: World, k: nat, t: Task)
    requires ReadyToReport(w, k, SaveFailed, t) && t.state == Retrying
    ensures Reported(w, DecideRetry(w, k, t), t.id)
  {
  }

  lemma ExhaustReports(w: World, k: nat, t: Task)
    requires ReadyToReport(w, k, SaveFailed, t) && t.state != Retrying
    ensures Reported(w, DecideRetry(w, k, t), t.id)
  {
  }

  lemma RequeueReports(w: World, k: nat, s: Stage, t: Task, returned: HandlerReturn, late: bool)
    requires ReadyToReport(w, k, s, t) && (s.Sleep? || s.EnqueueSet?)
    ensures Reported(w, BusyStep(w, k, s, t, returned, late), t.id)
  {
  }

  lemma PushReports(w: World, k: nat, t: Task)
    requires ReadyToReport(w, k, EnqueuePush, t) && t.id in w.db.data && w.db.data[t.id] == t
    ensures Reported(w, PushTask(w, k, t), t.id)
  {
  }

  lemma LetterReports(w: World, k: nat, t: Task)
    requires ReadyToReport(w, k, DlqPush, t)
    ensures Reported(w, PushDeadLetter(w, k, DeadLettered(t, ExhaustedReason(t))), t.id)
  {
    assert ExhaustedReason(t)[0] == 'E';
    assert ExhaustedReason(t) == Reason(w, w.track[t.id]);
  }

  lemma DescribeReports(w: World, k: nat, t: Task)
    requires ReadyToReport(w, k, DlqDescribe, t)
    ensures Reported(w, Goto(w.(db := SetDlqMeta(w.db, t, t.error)), k, Busy(DlqStat, t)), t.id)
  {
  }

  lemma NackReports(w: World, k: nat, s: Stage, t: Task, returned: HandlerReturn, late: bool)
    requires ReadyToReport(w, k, s, t) && (s.DlqStat? || s.NackProcessing? || s.NackData?)
    ensures Reported(w, BusyStep(w, k, s, t, returned, late), t.id)
  {
    var w' := BusyStep(w, k, s, t, returned, late);
    BurialGoesOn(w, w', k, s, t, if s.DlqStat? then NackProcessing else if s.NackData? then NackStat else NackData);
  }

  /** A step of the burial that touches neither storage nor dead letters. */
  lemma BurialGoesOn(w: World, w': World, k: nat, s: Stage, t: Task, s': Stage)
    requires ReadyToReport(w, k, s, t) && (s.DlqStat? || s.NackProcessing? || s.NackData?)
    requires w'.track == w.track && w'.handlers == w.handlers && w'.store == w.store && w'.results == w.results
    requires w'.db.dlq == w.db.dlq && w'.db.dlqMeta == w.db.dlqMeta
    requires k < |w'.procs| && w'.procs[k].pc == Busy(s', t) && (s'.NackProcessing? || s'.NackData? || s'.NackStat?)
    ensures Reported(w, w', t.id)
  {
  }

  lemma FinishReports(w: World, k: nat, t: Task)
    requires ReadyToReport(w, k, NackStat, t)
    ensures Reported(w, FinishNack(w, k, t), t.id)
  {
  }

  lemma AttemptStageReports(w: World, k: nat, s: Stage, t: Task, returned: HandlerReturn, late: bool)
    requires ReadyToReport(w, k, s, t) && AttemptStage(s)
    ensures Reported(w, BusyStep(w, k, s, t, returned, late), t.id)
  {
    match s
    case MarkProcessing => StartReports(w, k, s, t, returned, late);
    case SaveStarted => StartReports(w, k, s, t, returned, late);
    case Execute => ExecuteReports(w, k, t, returned, late);
    case SaveSuccess(r) => SuccessReports(w, k, t, r);
    case SaveCompleted => AckReports(w, k, s, t, returned, late);
    case AckProcessing => AckReports(w, k, s, t, returned, late);
    case AckData => AckReports(w, k, s, t, returned, late);
    case AckStat => AckReports(w, k, s, t, returned, late);
  }

  lemma RetryStageReports(w: World, k: nat, s: Stage, t: Task, returned: HandlerReturn, late: bool)
    requires ReadyToReport(w, k, s, t) && (RetryStage(s) || s.EnqueuePush?)
    requires s.EnqueuePush? ==> t.id in w.db.data && w.db.data[t.id] == t
    ensures Reported(w, BusyStep(w, k, s, t, returned, late), t.id)
  {
    match s
    case SaveFailure(r, message) => FailureReports(w, k, t, r, message);
    case SaveFailed => DecisionReports(w, k, t);
    case Sleep => RequeueReports(w, k, s, t, returned, late);
    case EnqueueSet => RequeueReports(w, k, s, t, returned, late);
    case EnqueuePush => PushReports(w, k, t);
  }

  lemma BurialStageReports(w: World, k: nat, s: Stage, t: Task, returned: HandlerReturn, late: bool)
    requires ReadyToReport(w, k, s, t) && !AttemptStage(s) && !RetryStage(s) && !s.EnqueuePush?
    ensures Reported(w, BusyStep(w, k, s, t, returned, late), t.id)
  {
    match s
    case DlqPush => LetterReports(w, k, t);
    case DlqDescribe => DescribeReports(w, k, t);
    case DlqStat => NackReports(w, k, s, t, returned, late);
    case NackProcessing => NackReports(w, k, s, t, returned, late);
    case NackData => NackReports(w, k, s, t, returned, late);
    case NackStat => FinishReports(w, k, t);
  }

  lemma BusyStepReports(w: World, k: nat, s: Stage, t: Task, returned: HandlerReturn, late: bool)
    requires ReadyToReport(w, k, s, t) && (s.EnqueuePush? ==> t.id in w.db.data && w.db.data[t.id] == t)
    ensures Reported(w, BusyStep(w, k, s, t, returned, late), t.id)
  {
    if AttemptStage(s) {
      AttemptStageReports(w, k, s, t, returned, late);
    } else if RetryStage(s) || s.EnqueuePush? {
      RetryStageReports(w, k, s, t, returned, late);
    } else {
      BurialStageReports(w, k, s, t, returned, late);
    }
  }

  lemma BusyStepKeepsReports(w: World, k: nat, s: Stage, t: Task, returned: HandlerReturn, late: bool)
    requires Inv(w) && ReportInv(w) && k < |w.procs| && w.procs[k].pc == Busy(s, t)
    ensures ReportInv(BusyStep(w, k, s, t, returned, late))
  {
    assert ProcOk(w, k);
    assert IdReported(w, t.id);
    BusyStepIsLocal(w, k, s, t, returned, late);
    BusyStepReports(w, k, s, t, returned, late);
    ReportFrame(w, BusyStep(w, k, s, t, returned, late), k, t.id);
  }

  // ------------------------------------------------------------ the other steps

  lemma PopReports(w: World, k: nat, p: Priority)
    requires k < |w.procs| && w.db.lists[p] != [] && w.db.lists[p][0] in w.track
    requires IdReported(w, w.db.lists[p][0]) && w.track[w.db.lists[p][0]].place == Queued
    ensures Reported(w, PollStep(w, k, p), w.db.lists[p][0])
  {
  }

  lemma PopKeepsReports(w: World, k: nat, p: Priority)
    requires Inv(w) && ReportInv(w) && k < |w.procs| && w.procs[k].pc == Poll(p) && w.db.lists[p] != []
    ensures ReportInv(PollStep(w, k, p))
  {
    var id := w.db.lists[p][0];
    assert ListOk(w, p) && ProcOk(w, k);
    assert IdOk(w, id) && IdReported(w, id);
    PopIsLocal(w, k, p);
    PopReports(w, k, p);
    ReportFrame(w, PollStep(w, k, p), k, id);
  }

  lemma FetchReports(w: World, k: nat, p: Priority, id: TaskId)
    requires k < |w.procs| && w.procs[k].pc == Popped(p, id) && id in w.db.data
    requires id in w.track && w.track[id].place == Owned(k) && IdReported(w, id)
    ensures var w' := FetchStep(w, k, p, id); Local(w, w', k, id) && Reported(w, w', id)
  {
  }

  lemma FetchKeepsReports(w: World, k: nat, p: Priority, id: TaskId)
    requires Inv(w) && ReportInv(w) && k < |w.procs| && w.procs[k].pc == Popped(p, id)
    ensures ReportInv(FetchStep(w, k, p, id))
  {
    assert ProcOk(w, k);
    assert IdReported(w, id);
    FetchReports(w, k, p, id);
    ReportFrame(w, FetchStep(w, k, p, id), k, id);
  }

  lemma SubmitKeepsReports(w: World, k: nat, t: Task)
    requires Inv(w) && ReportInv(w) && Enabled(w, Submit(k, t))
    ensures ReportInv(BeginSubmit(w, k, t))
  {
    SubmitIsLocal(w, k, t);
    ReportFrame(w, BeginSubmit(w, k, t), k, t.id);
  }

  /** A step that no task is concerned by. */
  lemma PlainKeepsReports(w: World, w': World)
    requires Inv(w) && ReportInv(w) && w'.track == w.track && w'.handlers == w.handlers
    requires w'.store == w.store && w'.results == w.results
    requires w'.db.data == w.db.data && w'.db.dlq == w.db.dlq && w'.db.dlqMeta == w.db.dlqMeta
    requires |w'.procs| >= |w.procs|
    requires forall j: nat :: j < |w.procs| && (w.procs[j].pc.Popped? || w.procs[j].pc.Busy?) ==>
      w'.procs[j].pc == w.procs[j].pc
    ensures ReportInv(w')
  {
    forall id | id in w'.track
      ensures IdReported(w', id)
    {
      assert IdReported(w, id) && IdOk(w, id);
      SameLetter(w, w', w.track[id]);
      SamePlace(w, w', w.track[id]);
    }
  }

  lemma QuietStepKeepsReports(w: World, k: nat, returned: HandlerReturn, late: bool)
    requires Inv(w) && ReportInv(w) && k < |w.procs| && !w.procs[k].pc.Busy? && !w.procs[k].pc.Popped?
    requires w.procs[k].pc.Poll? ==> w.db.lists[w.procs[k].pc.p] == []
    ensures ReportInv(ProcStep(w, k, returned, late))
  {
    PlainKeepsReports(w, ProcStep(w, k, returned, late));
  }

  lemma StepKeepsReports(w: World, k: nat, returned: HandlerReturn, late: bool)
    requires Inv(w) && ReportInv(w) && k < |w.procs|
    ensures ReportInv(ProcStep(w, k, returned, late))
  {
    var pc := w.procs[k].pc;
    if pc.Busy? {
      BusyStepKeepsReports(w, k, pc.stage, pc.t, returned, late);
    } else if pc.Popped? {
      FetchKeepsReports(w, k, pc.p, pc.id);
    } else if pc.Poll? && w.db.lists[pc.p] != [] {
      PopKeepsReports(w, k, pc.p);
    } else {
      QuietStepKeepsReports(w, k, returned, late);
    }
  }

  lemma ActionKeepsReports(w: World, a: Action)
    requires Inv(w) && ReportInv(w) && Enabled(w, a)
    ensures ReportInv(Apply(w, a))
  {
    if a.Submit? {
      SubmitKeepsReports(w, a.k, a.t);
    } else if a.Step? {
      StepKeepsReports(w, a.k, a.returned, a.late);
    } else {
      PlainKeepsReports(w, Apply(w, a));
    }
  }

  lemma {:induction false} RunKeepsReports(w: World, actions: seq<Action>)
    requires Inv(w) && ReportInv(w) && Legal(w, actions)
    ensures ReportInv(Run(w, actions))
    decreases |actions|
  {
    if actions != [] {
      ActionKeepsInv(w, actions[0]);
      ActionKeepsReports(w, actions[0]);
      RunKeepsReports(Apply(w, actions[0]), actions[1..]);
    }
  }

  lemma {:induction false} ReachableReports(w: World)
    requires Reachable(w)
    ensures Inv(w) && ReportInv(w)
  {
    var handlers, actions :| Legal(Initial(handlers), actions) && w == Run(Initial(handlers), actions);
    InitialInv(handlers);
    RunKeepsInv(Initial(handlers), actions);
    RunKeepsReports(Initial(handlers), actions);
  }

  // ---------------------------------------------------------------- main results

  /** A task stored as completed has been executed by a registered handler, and the stored
      result holds the very output its last execution returned. */
  lemma CompletedHasItsOutput(w: World, id: TaskId)
    requires Reachable(w) && id in w.store && w.store[id].state == Completed
    ensures id in w.track && w.track[id].task.kind in w.handlers
    ensures var last := w.track[id].last;
      && last.Some? && last.value.returned.Output?
      && id in w.results && w.results[id] == Result(id, true, last.value.returned.bytes, "")
  {
    ReachableReports(w);
    TerminalAgreement(w, id);
    var tr := w.track[id];
    assert IdReported(w, id) && IdOk(w, id);
    if tr.place.Owned? { assert ProcOk(w, tr.place.k); }
    assert Succeeded(w, tr) && ResultSaved(w, tr);
  }

  /** A dead letter names the submitted limit and the error of the last attempt: the timeout if
      the deadline had passed, otherwise the handler's own message, or that there is no handler.
      Its metadata, once written, repeats reason and retry count. */
  lemma DeadLetterNamesItsError(w: World, i: nat)
    requires Reachable(w) && i < |w.db.dlq|
    ensures var t := w.db.dlq[i];
      && t.id in w.track && w.track[t.id].last.Some?
      && var tr := w.track[t.id]; var last := tr.last.value; var handled := tr.task.kind in w.handlers;
         && (handled ==> !last.returned.Output?)
         && t.error == ExhaustedReason(tr.task.(error := if last.late then TIMED_OUT
              else if handled then last.returned.message else NoHandlerText(tr.task.kind)))
         && (t.id in w.db.dlqMeta ==> w.db.dlqMeta[t.id] == DlqMeta(t.error, t.retryCount))
         && (tr.place == Dead ==> t.id in w.db.dlqMeta)
  {
    ReachableReports(w);
    assert DlqEntryOk(w, i);
    assert IdReported(w, w.db.dlq[i].id);
  }

  /** While a handler runs, storage shows the task as processing. */
  lemma StoredWhileRunning(w: World, k: nat)
    requires Reachable(w) && k < |w.procs| && w.procs[k].pc.Busy? && w.procs[k].pc.stage.Execute?
    ensures var t := w.procs[k].pc.t; t.id in w.store && w.store[t.id] == t && t.state == Processing
  {
    ReachableReports(w);
    assert ProcOk(w, k);
    assert IdReported(w, w.procs[k].pc.t.id);
  }

  /** A task waiting for a retry carries its last error, in the queue and in storage alike. */
  lemma WaitingCarriesItsError(w: World, p: Priority, i: nat)
    requires Reachable(w) && i < |w.db.lists[p]|
    ensures var id := w.db.lists[p][i];
      && id in w.track && id in w.db.data
      && (w.track[id].attempts > 0 ==>
            && LastError(w, w.track[id]) == Some(w.db.data[id].error)
            && id in w.store && w.store[id] == w.db.data[id] && w.store[id].state == Retrying)
  {
    ReachableReports(w);
    assert ListOk(w, p);
    var id := w.db.lists[p][i];
    assert IdReported(w, id) && IdOk(w, id);
  }
}
