/** What storage says about a task agrees with what happened to it, and once it says
    completed or dead_letter nothing changes it again. Also: how long a task waited. */
module Outcomes {
  import opened Tasks
  import opened Handlers
  import opened Backoff
  import opened Protocol
  import opened Ownership
  import opened Safety

  // ------------------------------------------------------- terminal agreement

  /** Storage has no final word on the task yet. */
  ghost predicate Open(w: World, id: TaskId) {
    id in w.store ==> w.store[id].state == Processing || w.store[id].state == Retrying
  }

  ghost predicate StoredAs(w: World, id: TaskId, state: State) {
    id in w.store && w.store[id].state == state
  }

  ghost predicate ResultIs(w: World, id: TaskId, success: bool) {
    id in w.results && w.results[id].success == success && w.results[id].taskId == id
  }

  ghost predicate FailureStored(w: World, id: TaskId, kind: string) {
    kind in w.handlers ==> ResultIs(w, id, false)
  }

  ghost predicate StageStored(w: World, s: Stage, t: Task) {
    match s
    case SaveSuccess(r) => Open(w, t.id) && r.Some? && r.value.taskId == t.id && r.value.success
    case SaveCompleted => Open(w, t.id) && ResultIs(w, t.id, true)
    case AckProcessing => StoredAs(w, t.id, Completed) && ResultIs(w, t.id, true)
    case AckData => StoredAs(w, t.id, Completed) && ResultIs(w, t.id, true)
    case AckStat => StoredAs(w, t.id, Completed) && ResultIs(w, t.id, true)
    case SaveFailure(r, _) =>
      Open(w, t.id) && (r.Some? ==> r.value.taskId == t.id && !r.value.success) && (t.kind in w.handlers ==> r.Some?)
    case SaveFailed => Open(w, t.id) && FailureStored(w, t.id, t.kind)
    case DlqPush => StoredAs(w, t.id, DeadLetter) && FailureStored(w, t.id, t.kind)
    case DlqDescribe => StoredAs(w, t.id, DeadLetter) && FailureStored(w, t.id, t.kind)
    case DlqStat => StoredAs(w, t.id, DeadLetter) && FailureStored(w, t.id, t.kind)
    case NackProcessing => StoredAs(w, t.id, DeadLetter) && FailureStored(w, t.id, t.kind)
    case NackData => StoredAs(w, t.id, DeadLetter) && FailureStored(w, t.id, t.kind)
    case NackStat => StoredAs(w, t.id, DeadLetter) && FailureStored(w, t.id, t.kind)
    case _ => Open(w, t.id)
  }

  ghost predicate IdStored(w: World, id: TaskId)
    requires id in w.track
  {
    var tr := w.track[id];
    match tr.place
    case Queued => Open(w, id)
    case Owned(k) =>
      && k < |w.procs|
      && (if w.procs[k].pc.Busy? then StageStored(w, w.procs[k].pc.stage, w.procs[k].pc.t) else Open(w, id))
    case Done => StoredAs(w, id, Completed) && ResultIs(w, id, true)
    case Dead => StoredAs(w, id, DeadLetter) && FailureStored(w, id, tr.task.kind)
  }

  ghost predicate StoreInv(w: World) {
    && (forall id :: id in w.track ==> IdStored(w, id))
    && (forall id :: id in w.store ==> id in w.track)
    && (forall id :: id in w.results ==> id in w.track)
  }

  /** Only task id is concerned, in storage as in the queue. */
  ghost predicate StoreLocal(w: World, w': World, id: TaskId) {
    && w'.handlers == w.handlers
    && (forall x :: x in w'.store ==> x == id || (x in w.store && w'.store[x] == w.store[x]))
    && (forall x :: x in w.store && x != id ==> x in w'.store)
    && (forall x :: x in w'.results ==> x == id || (x in w.results && w'.results[x] == w.results[x]))
    && (forall x :: x in w.results && x != id ==> x in w'.results)
  }

  lemma StoreFrameAt(w: World, w': World, k: nat, id: TaskId, x: TaskId)
    requires Local(w, w', k, id) && StoreLocal(w, w', id)
    requires w.procs[k].pc.Popped? || w.procs[k].pc.Busy? ==> Holds(w.procs[k].pc, id)
    requires x in w.track && x != id && IdStored(w, x) && IdOk(w, x)
    ensures IdStored(w', x)
  {
  }

  lemma StoreFrame(w: World, w': World, k: nat, id: TaskId)
    requires Inv(w) && StoreInv(w) && Local(w, w', k, id) && StoreLocal(w, w', id)
    requires w.procs[k].pc.Popped? || w.procs[k].pc.Busy? ==> Holds(w.procs[k].pc, id)
    requires IdStored(w', id)
    ensures StoreInv(w')
  {
    forall x | x in w'.track && x != id
      ensures IdStored(w', x)
    {
      StoreFrameAt(w, w', k, id, x);
    }
  }

  /** Process k holds t at stage s, and storage is where stage s expects it. */
  ghost predicate ReadyToStore(w: World, k: nat, s: Stage, t: Task) {
    && k < |w.procs| && w.procs[k].pc == Busy(s, t)
    && t.id in w.track && w.track[t.id].place == Owned(k)
    && StageOk(w.track[t.id], s, t) && StageStored(w, s, t)
  }

  ghost predicate Stores(w: World, w': World, id: TaskId) {
    StoreLocal(w, w', id) && id in w'.track && IdStored(w', id)
  }

  lemma VerdictStores(w: World, k: nat, t: Task, v: Verdict, tried: Tried)
    requires ReadyToStore(w, k, Execute, t)
    requires v.err.None? ==> v.saved.Some?
    requires v.saved.Some? ==> v.saved.value.taskId == t.id && (v.saved.value.success <==> v.err.None?)
    requires v.err.Some? && t.kind in w.handlers ==> v.saved.Some?
    ensures Stores(w, AfterAttempt(w, k, t, v, tried), t.id)
  {
  }

  lemma ExecuteStores(w: World, k: nat, t: Task, returned: HandlerReturn, late: bool)
    requires ReadyToStore(w, k, Execute, t)
    ensures Stores(w, ExecuteStep(w, k, t, returned, late), t.id)
  {
    var a := if t.kind in w.handlers then AnswerOf(t, returned) else NoHandler(t);
    VerdictStores(w, k, t, ExecuteVerdict(t, a, late), Tried(returned, late));
  }

  lemma StartStores(w: World, k: nat, s: Stage, t: Task, returned: HandlerReturn, late: bool)
    requires ReadyToStore(w, k, s, t)
    requires s.MarkProcessing? || s.SaveStarted?
    ensures Stores(w, BusyStep(w, k, s, t, returned, late), t.id)
  {
  }

  lemma SuccessStores(w: World, k: nat, s: Stage, t: Task, returned: HandlerReturn, late: bool)
    requires ReadyToStore(w, k, s, t)
    requires s.SaveSuccess? || s.SaveCompleted? || s.AckProcessing? || s.AckData? || s.AckStat?
    ensures Stores(w, BusyStep(w, k, s, t, returned, late), t.id)
  {
  }

  lemma RecordStores(w: World, k: nat, t: Task, r: Option<Result>, message: string)
    requires ReadyToStore(w, k, SaveFailure(r, message), t)
    ensures Stores(w, RecordFailure(w, k, t, r, message), t.id)
  {
  }

  lemma DecisionStores(w: World, k: nat, t: Task)
    requires ReadyToStore(w, k, SaveFailed, t)
    ensures Stores(w, DecideRetry(w, k, t), t.id)
  {
    if t.state == Retrying { RetryStores(w, k, t); }
  }

  lemma RetryStores(w: World, k: nat, t: Task)
    requires ReadyToStore(w, k, SaveFailed, t) && t.state == Retrying
    ensures Stores(w, DecideRetry(w, k, t), t.id)
  {
  }

  lemma RequeueStores(w: World, k: nat, s: Stage, t: Task, returned: HandlerReturn, late: bool)
    requires ReadyToStore(w, k, s, t)
    requires s.Sleep? || s.EnqueueSet? || s.EnqueuePush?
    ensures Stores(w, BusyStep(w, k, s, t, returned, late), t.id)
  {
  }

  lemma DlqStores(w: World, k: nat, s: Stage, t: Task, returned: HandlerReturn, late: bool)
    requires ReadyToStore(w, k, s, t)
    requires s.DlqPush? || s.DlqDescribe? || s.DlqStat?
    ensures Stores(w, BusyStep(w, k, s, t, returned, late), t.id)
  {
  }

  lemma NackStores(w: World, k: nat, s: Stage, t: Task, returned: HandlerReturn, late: bool)
    requires ReadyToStore(w, k, s, t)
    requires s.NackProcessing? || s.NackData? || s.NackStat?
    ensures Stores(w, BusyStep(w, k, s, t, returned, late), t.id)
  {
  }

  lemma BusyStepStores(w: World, k: nat, s: Stage, t: Task, returned: HandlerReturn, late: bool)
    requires ReadyToStore(w, k, s, t)
    ensures Stores(w, BusyStep(w, k, s, t, returned, late), t.id)
  {
    if s.MarkProcessing? || s.SaveStarted? {
      StartStores(w, k, s, t, returned, late);
    } else if s.Execute? {
      ExecuteStores(w, k, t, returned, late);
    } else if AttemptStage(s) {
      SuccessStores(w, k, s, t, returned, late);
    } else if s.SaveFailure? || s.SaveFailed? {
      if s.SaveFailed? { DecisionStores(w, k, t); } else { RecordStores(w, k, t, s.saved, s.message); }
    } else if s.Sleep? || s.EnqueueSet? || s.EnqueuePush? {
      RequeueStores(w, k, s, t, returned, late);
    } else if s.DlqPush? || s.DlqDescribe? || s.DlqStat? {
      DlqStores(w, k, s, t, returned, late);
    } else {
      NackStores(w, k, s, t, returned, late);
    }
  }

  lemma BusyStepIsLocal(w: World, k: nat, s: Stage, t: Task, returned: HandlerReturn, late: bool)
    requires Inv(w) && k < |w.procs| && w.procs[k].pc == Busy(s, t)
    ensures Local(w, BusyStep(w, k, s, t, returned, late), k, t.id)
  {
    assert ProcOk(w, k);
    assert IdOk(w, t.id);
    assert Ready(w, k, s, t);
    if s.EnqueuePush? {
      PushKeepsLists(w, k, t);
      PushIsLocal(w, k, t);
    } else if AttemptStage(s) {
      AttemptStageMoves(w, k, s, t, returned, late);
    } else if RetryStage(s) {
      RetryStageMoves(w, k, s, t, returned, late);
    } else {
      BurialStageMoves(w, k, s, t, returned, late);
    }
  }

  lemma BusyStepKeepsStore(w: World, k: nat, s: Stage, t: Task, returned: HandlerReturn, late: bool)
    requires Inv(w) && StoreInv(w) && k < |w.procs| && w.procs[k].pc == Busy(s, t)
    ensures StoreInv(BusyStep(w, k, s, t, returned, late))
  {
    assert ProcOk(w, k);
    assert IdStored(w, t.id);
    BusyStepIsLocal(w, k, s, t, returned, late);
    BusyStepStores(w, k, s, t, returned, late);
    StoreFrame(w, BusyStep(w, k, s, t, returned, late), k, t.id);
  }

  /** Task x is where it was, or has just been popped by a process. */
  ghost predicate StaysOrPopped(w: World, w': World, x: TaskId)
    requires x in w.track && x in w'.track
  {
    && w'.track[x].task == w.track[x].task
    && (|| w'.track[x].place == w.track[x].place
        || (&& w.track[x].place == Queued && w'.track[x].place.Owned?
            && w'.track[x].place.k < |w'.procs| && !w'.procs[w'.track[x].place.k].pc.Busy?))
  }

  /** Process j keeps its stage, or has just fetched the task it popped. */
  ghost predicate StaysOrFetched(before: Proc, after: Proc) {
    && (before.pc.Busy? ==> after.pc == before.pc)
    && (after.pc.Busy? && !before.pc.Busy? ==>
          before.pc.Popped? && after.pc.stage.MarkProcessing? && after.pc.t.id == before.pc.id)
  }

  /** Storage is untouched and no busy process moves. */
  lemma OtherStepKeepsStore(w: World, w': World)
    requires Inv(w) && StoreInv(w)
    requires w'.store == w.store && w'.results == w.results && w'.handlers == w.handlers
    requires w'.track.Keys == w.track.Keys && |w'.procs| >= |w.procs|
    requires forall x :: x in w.track ==> StaysOrPopped(w, w', x)
    requires forall j :: 0 <= j < |w.procs| ==> StaysOrFetched(w.procs[j], w'.procs[j])
    ensures StoreInv(w')
  {
    forall x | x in w'.track
      ensures IdStored(w', x)
    {
      assert IdStored(w, x) && IdOk(w, x);
    }
  }

  lemma PollKeepsStore(w: World, k: nat, p: Priority)
    requires Inv(w) && StoreInv(w) && k < |w.procs| && w.procs[k].pc == Poll(p)
    ensures StoreInv(PollStep(w, k, p))
  {
    assert ListOk(w, p);
    OtherStepKeepsStore(w, PollStep(w, k, p));
  }

  lemma StepKeepsStore(w: World, k: nat, returned: HandlerReturn, late: bool)
    requires Inv(w) && StoreInv(w) && k < |w.procs|
    ensures StoreInv(ProcStep(w, k, returned, late))
  {
    var w' := ProcStep(w, k, returned, late);
    assert ProcOk(w, k);
    match w.procs[k].pc
    case Busy(s, t) => BusyStepKeepsStore(w, k, s, t, returned, late);
    case Poll(p) => PollKeepsStore(w, k, p);
    case Popped(p, id) => assert IdOk(w, id); OtherStepKeepsStore(w, w');
    case Idle => OtherStepKeepsStore(w, w');
    case CountEnqueued => OtherStepKeepsStore(w, w');
  }

  lemma SubmitKeepsStore(w: World, k: nat, t: Task)
    requires Inv(w) && StoreInv(w) && Enabled(w, Submit(k, t))
    ensures StoreInv(BeginSubmit(w, k, t))
  {
    SubmitIsLocal(w, k, t);
    StoreFrame(w, BeginSubmit(w, k, t), k, t.id);
  }

  lemma ActionKeepsStore(w: World, a: Action)
    requires Inv(w) && StoreInv(w) && Enabled(w, a)
    ensures StoreInv(Apply(w, a))
  {
    match a
    case Submit(k, t) => SubmitKeepsStore(w, k, t);
    case Step(k, returned, late) => StepKeepsStore(w, k, returned, late);
    case Spawn => OtherStepKeepsStore(w, Apply(w, a));
    case Crash(_) => OtherStepKeepsStore(w, Apply(w, a));
    case ExpireProcessing(_) => OtherStepKeepsStore(w, Apply(w, a));
  }

  lemma {:induction false} RunKeepsStore(w: World, actions: seq<Action>)
    requires Inv(w) && StoreInv(w) && Legal(w, actions)
    ensures StoreInv(Run(w, actions))
    decreases |actions|
  {
    if actions != [] {
      ActionKeepsInv(w, actions[0]);
      ActionKeepsStore(w, actions[0]);
      RunKeepsStore(Apply(w, actions[0]), actions[1..]);
    }
  }

  lemma {:induction false} ReachableStore(w: World)
    requires Reachable(w)
    ensures Inv(w) && StoreInv(w)
  {
    var handlers, actions :| Legal(Initial(handlers), actions) && w == Run(Initial(handlers), actions);
    InitialInv(handlers);
    RunKeepsInv(Initial(handlers), actions);
    RunKeepsStore(Initial(handlers), actions);
  }

  ghost predicate Agreed(w: World, id: TaskId)
    requires id in w.store && id in w.track
  {
    && (w.store[id].state == Completed ==> ResultIs(w, id, true) && w.track[id].ok)
    && (w.store[id].state == DeadLetter ==> FailureStored(w, id, w.track[id].task.kind) && !w.track[id].ok)
    && w.store[id].state != Failed && w.store[id].state != Pending
  }

  lemma HeldAgreed(w: World, id: TaskId, k: nat)
    requires id in w.store && id in w.track && w.track[id].place == Owned(k) && k < |w.procs|
    requires IdStored(w, id) && ProcOk(w, k) && Holds(w.procs[k].pc, id)
    ensures Agreed(w, id)
  {
  }

  /** A task stored as completed has a stored successful result; one stored as dead_letter
      whose kind has a handler has a stored failing result; no task is stored as failed. */
  lemma TerminalAgreement(w: World, id: TaskId)
    requires Reachable(w) && id in w.store
    ensures id in w.track
    ensures w.store[id].state == Completed ==> ResultIs(w, id, true) && w.track[id].ok
    ensures w.store[id].state == DeadLetter && w.track[id].task.kind in w.handlers ==> ResultIs(w, id, false)
    ensures w.store[id].state == DeadLetter ==> !w.track[id].ok
    ensures w.store[id].state != Failed && w.store[id].state != Pending
  {
    ReachableStore(w);
    assert IdStored(w, id) && IdOk(w, id);
    if w.track[id].place.Owned? {
      assert ProcOk(w, w.track[id].place.k);
      HeldAgreed(w, id, w.track[id].place.k);
    }
    assert Agreed(w, id);
  }

  /** Which stages write to storage: those at which storage is still open. */
  lemma BusyStepStoresOnly(w: World, k: nat, s: Stage, t: Task, returned: HandlerReturn, late: bool)
    requires ReadyToStore(w, k, s, t)
    ensures var w' := BusyStep(w, k, s, t, returned, late);
      || (w'.store == w.store && w'.results == w.results)
      || (Open(w, t.id) && StoreLocal(w, w', t.id))
  {
    BusyStepStores(w, k, s, t, returned, late);
    match s
    case MarkProcessing =>
    case SaveStarted =>
    case Execute =>
    case SaveSuccess(_) =>
    case SaveCompleted =>
    case AckProcessing =>
    case AckData =>
    case AckStat =>
    case SaveFailure(_, _) =>
    case SaveFailed =>
    case Sleep =>
    case EnqueueSet =>
    case EnqueuePush =>
    case DlqPush =>
    case DlqDescribe =>
    case DlqStat =>
    case NackProcessing =>
    case NackData =>
    case NackStat =>
  }

  lemma OnlyBusyProcessesStore(w: World, a: Action)
    requires Enabled(w, a) && !(a.Step? && w.procs[a.k].pc.Busy?)
    ensures Apply(w, a).store == w.store && Apply(w, a).results == w.results
  {
  }

  lemma BusyStepKeepsTerminal(w: World, k: nat, s: Stage, t: Task, returned: HandlerReturn, late: bool, id: TaskId)
    requires ReadyToStore(w, k, s, t) && id in w.store
    requires w.store[id].state == Completed || w.store[id].state == DeadLetter
    ensures Unchanged(w, BusyStep(w, k, s, t, returned, late), id)
  {
    BusyStepStoresOnly(w, k, s, t, returned, late);
  }

  /** The record and the result of the task are as before. */
  ghost predicate Unchanged(w: World, w': World, id: TaskId) {
    && (id in w.store <==> id in w'.store) && (id in w.store ==> w'.store[id] == w.store[id])
    && (id in w.results <==> id in w'.results) && (id in w.results ==> w'.results[id] == w.results[id])
  }

  /** completed and dead_letter are absorbing: no later step rewrites the record or its result. */
  lemma TerminalIsAbsorbing(w: World, a: Action, id: TaskId)
    requires Reachable(w) && Enabled(w, a) && id in w.store
    requires w.store[id].state == Completed || w.store[id].state == DeadLetter
    ensures Unchanged(w, Apply(w, a), id)
  {
    ReachableStore(w);
    if a.Step? && w.procs[a.k].pc.Busy? {
      var s, t := w.procs[a.k].pc.stage, w.procs[a.k].pc.t;
      assert ProcOk(w, a.k);
      assert IdStored(w, t.id);
      BusyStepKeepsTerminal(w, a.k, s, t, a.returned, a.late, id);
    } else {
      OnlyBusyProcessesStore(w, a);
    }
  }

  // ------------------------------------------------------------------- waiting

  /** [from + 1, ..., upTo] */
  function CountUp(from: int, upTo: int): seq<int>
    decreases upTo - from
  {
    if upTo <= from then [] else CountUp(from, upTo - 1) + [upTo]
  }

  /** The naps of a task are those for its successive retry counts, none left out or repeated. */
  ghost predicate NapsOk(w: World) {
    forall id :: id in w.track ==> NapsOf(w.track[id])
  }

  predicate NapsOf(tr: Track) {
    tr.naps == CountUp(tr.task.retryCount, tr.task.retryCount + |tr.naps|)
  }

  lemma {:induction false} NextNap(tr: Track, tr': Track, s: Stage, t: Task)
    requires TrackMoves(tr, tr', s, t) && StageOk(tr, s, t) && NapsOf(tr)
    ensures NapsOf(tr')
  {
  }

  lemma {:induction false} TrackKeepsNaps(w: World, w': World, s: Stage, t: Task)
    requires NapsOk(w) && t.id in w.track && StageOk(w.track[t.id], s, t) && TracksOnly(w, w', s, t)
    ensures NapsOk(w')
  {
    NextNap(w.track[t.id], w'.track[t.id], s, t);
  }

  lemma {:induction false} BusyStepKeepsNaps(w: World, k: nat, s: Stage, t: Task, returned: HandlerReturn, late: bool)
    requires NapsOk(w) && k < |w.procs| && t.id in w.track && StageOk(w.track[t.id], s, t)
    ensures NapsOk(BusyStep(w, k, s, t, returned, late))
  {
    BusyStepTracks(w, k, s, t, returned, late);
    TrackKeepsNaps(w, BusyStep(w, k, s, t, returned, late), s, t);
  }

  lemma {:induction false} PollKeepsNaps(w: World, k: nat, p: Priority)
    requires ListOk(w, p) && NapsOk(w) && k < |w.procs|
    ensures NapsOk(PollStep(w, k, p))
  {
    var w' := PollStep(w, k, p);
    forall id | id in w'.track ensures NapsOf(w'.track[id]) {
      assert id in w.track && w'.track[id].task == w.track[id].task && w'.track[id].naps == w.track[id].naps;
    }
  }

  /** Every other step leaves the histories alone; a new submission has slept nothing. */
  lemma {:induction false} OtherActionKeepsNaps(w: World, a: Action)
    requires NapsOk(w) && Enabled(w, a) && !(a.Step? && (w.procs[a.k].pc.Busy? || w.procs[a.k].pc.Poll?))
    ensures NapsOk(Apply(w, a))
  {
    assert a.Submit? || Apply(w, a).track == w.track;
  }

  lemma {:induction false} BusyActionKeepsNaps(w: World, a: Action)
    requires ProcsOk(w) && NapsOk(w) && Enabled(w, a) && a.Step? && w.procs[a.k].pc.Busy?
    ensures NapsOk(Apply(w, a))
  {
    assert ProcOk(w, a.k);
    BusyStepKeepsNaps(w, a.k, w.procs[a.k].pc.stage, w.procs[a.k].pc.t, a.returned, a.late);
  }

  lemma {:induction false} ActionKeepsNaps(w: World, a: Action)
    requires Inv(w) && NapsOk(w) && Enabled(w, a)
    ensures NapsOk(Apply(w, a))
  {
    if a.Step? && w.procs[a.k].pc.Busy? {
      BusyActionKeepsNaps(w, a);
    } else if a.Step? && w.procs[a.k].pc.Poll? {
      assert ListOk(w, w.procs[a.k].pc.p);
      PollKeepsNaps(w, a.k, w.procs[a.k].pc.p);
    } else {
      OtherActionKeepsNaps(w, a);
    }
  }

  lemma {:induction false} RunKeepsNaps(w: World, actions: seq<Action>)
    requires Inv(w) && NapsOk(w) && Legal(w, actions)
    ensures NapsOk(Run(w, actions))
    decreases |actions|
  {
    if actions != [] {
      ActionKeepsInv(w, actions[0]);
      ActionKeepsNaps(w, actions[0]);
      RunKeepsNaps(Apply(w, actions[0]), actions[1..]);
    }
  }

  function TotalSlept(naps: seq<int>): int {
    if naps == [] then 0 else TotalSlept(naps[..|naps| - 1]) + RetryDelay(naps[|naps| - 1])
  }

  lemma {:induction false} SleptCountUp(from: int, upTo: int)
    ensures TotalSlept(CountUp(from, upTo)) == SleepSum(from, upTo)
    decreases upTo - from
  {
    if upTo > from {
      SleptCountUp(from, upTo - 1);
      assert CountUp(from, upTo)[..|CountUp(from, upTo)| - 1] == CountUp(from, upTo - 1);
    }
  }

  /** A task submitted with RetryCount 0 and 0 <= m <= 33 retries that ends up dead-lettered
      has made its workers sleep 2^(m+1) - 2 seconds for m <= 8, 510 + 300 (m - 8) beyond. */
  lemma {:induction false} DeadLetterWaited(w: World, i: nat)
    requires Reachable(w) && i < |w.db.dlq|
    ensures var t := w.db.dlq[i]; t.id in w.track
    ensures var t := w.db.dlq[i]; var m := t.maxRetries;
      w.track[t.id].task.retryCount == 0 && 0 <= m <= 33 ==>
        TotalSlept(w.track[t.id].naps) == SECOND * (if m <= 8 then Pow2(m + 1) - 2 else 510 + 300 * (m - 8))
  {
    DeadLetterIsExhausted(w, i);
    ReachableNaps(w);
    var t := w.db.dlq[i];
    if w.track[t.id].task.retryCount == 0 && 0 <= t.maxRetries <= 33 {
      assert |w.track[t.id].naps| == t.maxRetries;
      WaitOf(w.track[t.id].naps, t.maxRetries);
    }
  }

  lemma {:induction false} WaitOf(naps: seq<int>, m: nat)
    requires m <= 33 && naps == CountUp(0, m)
    ensures TotalSlept(naps) == SECOND * (if m <= 8 then Pow2(m + 1) - 2 else 510 + 300 * (m - 8))
  {
    SleptCountUp(0, m);
    TotalBackoff(m);
  }

  lemma {:induction false} ReachableNaps(w: World)
    requires Reachable(w)
    ensures NapsOk(w)
  {
    var handlers, actions :| Legal(Initial(handlers), actions) && w == Run(Initial(handlers), actions);
    InitialInv(handlers);
    RunKeepsNaps(Initial(handlers), actions);
  }
}
