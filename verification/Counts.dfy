/** Conservation: the statistics keys, the worker counters and the list lengths balance
    after every single command, with each process accounting for the call it is in. */
module Counts {
  import opened Tasks
  import opened Redis
  import opened Handlers
  import opened Protocol
  import opened Ownership
  import opened Safety

  function Sum(f: Proc -> int, procs: seq<Proc>): int {
    if procs == [] then 0 else Sum(f, procs[..|procs| - 1]) + f(procs[|procs| - 1])
  }

  lemma {:induction false} SumUpdate(f: Proc -> int, procs: seq<Proc>, k: nat, proc: Proc)
    requires k < |procs|
    ensures Sum(f, procs[k := proc]) == Sum(f, procs) - f(procs[k]) + f(proc)
  {
    var last := |procs| - 1;
    if k == last {
      assert procs[k := proc][..last] == procs[..last];
    } else {
      assert procs[k := proc][..last] == procs[..last][k := proc];
      SumUpdate(f, procs[..last], k, proc);
    }
  }

  lemma {:induction false} SumAgree(f: Proc -> int, g: Proc -> int, procs: seq<Proc>)
    requires forall i :: 0 <= i < |procs| ==> f(procs[i]) == g(procs[i])
    ensures Sum(f, procs) == Sum(g, procs)
  {
    if procs != [] {
      SumAgree(f, g, procs[..|procs| - 1]);
    }
  }

  function Bit(b: bool): int { if b then 1 else 0 }

  /** +1 while the process has a task that "total" counts and no other counter does yet,
      -1 between RPUSH and the INCR of "total". */
  function InHand(pc: Pc): int {
    match pc
    case Idle => 0
    case Poll(_) => 0
    case Popped(_, _) => 1
    case CountEnqueued => -1
    case Busy(s, _) =>
      Bit(!(s.Sleep? || s.EnqueueSet? || s.EnqueuePush? || s.NackProcessing? || s.NackData? || s.NackStat?))
  }

  function Owing(proc: Proc): int { proc.retried + InHand(proc.pc) }

  function Nacking(proc: Proc): int {
    Bit(proc.pc.Busy? && (proc.pc.stage.NackProcessing? || proc.pc.stage.NackData? || proc.pc.stage.NackStat?))
  }

  function Acked(proc: Proc): int {
    proc.processed - Bit(proc.pc.Busy? && (proc.pc.stage.SaveCompleted? || proc.pc.stage.AckProcessing?
                                           || proc.pc.stage.AckData? || proc.pc.stage.AckStat?))
  }

  function GivenUp(proc: Proc): int {
    proc.failed - proc.retried
    - Bit(proc.pc.Busy? && (proc.pc.stage.SaveFailed? || proc.pc.stage.DlqPush?
                            || proc.pc.stage.DlqDescribe? || proc.pc.stage.DlqStat?))
  }

  function Describing(proc: Proc): int {
    Bit(proc.pc.Busy? && (proc.pc.stage.DlqDescribe? || proc.pc.stage.DlqStat?))
  }

  function Holding(proc: Proc): int { Bit(proc.pc.Busy? || proc.pc.Popped?) }

  ghost predicate Books(w: World) {
    && w.db.total == QueueSize(w.db) + w.db.completed + w.db.dead + Sum(Owing, w.procs)
    && w.db.dead == w.db.failed + Sum(Nacking, w.procs)
    && w.db.completed == Sum(Acked, w.procs)
    && w.db.dead == Sum(GivenUp, w.procs)
    && |w.db.dlq| == w.db.dead + Sum(Describing, w.procs)
    && Settled(w.db) + Sum(Holding, w.procs) == |w.track|
  }

  /** Tasks that are in a list or finished. */
  function Settled(db: Db): int { QueueSize(db) + db.completed + db.failed }

  /** One process moves from `before` to `after`: each book changes by what it posts. */
  ghost predicate Posted(db: Db, db': Db, before: Proc, after: Proc) {
    && db'.total - QueueSize(db') - db'.completed - db'.dead - Owing(after)
       == db.total - QueueSize(db) - db.completed - db.dead - Owing(before)
    && db'.dead - db'.failed - Nacking(after) == db.dead - db.failed - Nacking(before)
    && db'.completed - Acked(after) == db.completed - Acked(before)
    && db'.dead - GivenUp(after) == db.dead - GivenUp(before)
    && |db'.dlq| - db'.dead - Describing(after) == |db.dlq| - db.dead - Describing(before)
  }

  lemma {:induction false} PostingKeepsBooks(w: World, w': World, k: nat)
    requires Books(w) && k < |w.procs| == |w'.procs|
    requires w'.procs == w.procs[k := w'.procs[k]]
    requires Posted(w.db, w'.db, w.procs[k], w'.procs[k])
    requires Settled(w'.db) + Holding(w'.procs[k]) - |w'.track| == Settled(w.db) + Holding(w.procs[k]) - |w.track|
    ensures Books(w')
  {
    SumUpdate(Owing, w.procs, k, w'.procs[k]);
    SumUpdate(Nacking, w.procs, k, w'.procs[k]);
    SumUpdate(Acked, w.procs, k, w'.procs[k]);
    SumUpdate(GivenUp, w.procs, k, w'.procs[k]);
    SumUpdate(Describing, w.procs, k, w'.procs[k]);
    SumUpdate(Holding, w.procs, k, w'.procs[k]);
  }

  lemma SameKeysSameSize<K, V>(m: map<K, V>, m': map<K, V>)
    requires m.Keys == m'.Keys
    ensures |m| == |m'|
  {
  }

  /** The step of process k posts its change to every book. */
  ghost predicate Posts(w: World, w': World, k: nat)
    requires k < |w.procs|
  {
    && |w'.procs| == |w.procs| && w'.procs == w.procs[k := w'.procs[k]]
    && Posted(w.db, w'.db, w.procs[k], w'.procs[k])
    && Settled(w'.db) + Holding(w'.procs[k]) == Settled(w.db) + Holding(w.procs[k])
  }

  lemma StartPosts(w: World, k: nat, s: Stage, t: Task, returned: HandlerReturn, late: bool)
    requires k < |w.procs| && w.procs[k].pc == Busy(s, t) && (s.MarkProcessing? || s.SaveStarted?)
    ensures Posts(w, BusyStep(w, k, s, t, returned, late), k)
  {
    match s
    case MarkProcessing =>
    case SaveStarted =>
  }

  lemma WinPosts(w: World, k: nat, t: Task, v: Verdict, tried: Tried)
    requires k < |w.procs| && w.procs[k].pc == Busy(Execute, t) && v.err.None?
    ensures Posts(w, AfterAttempt(w, k, t, v, tried), k)
  {
  }

  lemma LosePosts(w: World, k: nat, t: Task, v: Verdict, tried: Tried)
    requires k < |w.procs| && w.procs[k].pc == Busy(Execute, t) && v.err.Some?
    ensures Posts(w, AfterAttempt(w, k, t, v, tried), k)
  {
  }

  lemma AttemptPosts(w: World, k: nat, t: Task, v: Verdict, tried: Tried)
    requires k < |w.procs| && w.procs[k].pc == Busy(Execute, t)
    ensures Posts(w, AfterAttempt(w, k, t, v, tried), k)
  {
    if v.err.None? { WinPosts(w, k, t, v, tried); } else { LosePosts(w, k, t, v, tried); }
  }

  lemma SuccessPosts(w: World, k: nat, s: Stage, t: Task, returned: HandlerReturn, late: bool)
    requires k < |w.procs| && w.procs[k].pc == Busy(s, t) && (s.SaveSuccess? || s.SaveCompleted?)
    ensures Posts(w, BusyStep(w, k, s, t, returned, late), k)
  {
    match s
    case SaveSuccess(_) =>
    case SaveCompleted =>
  }

  lemma AckPosts(w: World, k: nat, s: Stage, t: Task, returned: HandlerReturn, late: bool)
    requires k < |w.procs| && w.procs[k].pc == Busy(s, t) && (s.AckProcessing? || s.AckData? || s.AckStat?)
    ensures Posts(w, BusyStep(w, k, s, t, returned, late), k)
  {
    match s
    case AckProcessing =>
    case AckData =>
    case AckStat =>
  }

  lemma FailurePosts(w: World, k: nat, t: Task, r: Option<Result>, message: string)
    requires k < |w.procs| && w.procs[k].pc == Busy(SaveFailure(r, message), t)
    ensures Posts(w, RecordFailure(w, k, t, r, message), k)
  {
  }

  lemma DecisionPosts(w: World, k: nat, t: Task)
    requires k < |w.procs| && w.procs[k].pc == Busy(SaveFailed, t)
    ensures Posts(w, DecideRetry(w, k, t), k)
  {
    if t.state == Retrying {
    } else {
    }
  }

  lemma RetryPosts(w: World, k: nat, s: Stage, t: Task, returned: HandlerReturn, late: bool)
    requires k < |w.procs| && w.procs[k].pc == Busy(s, t) && (s.Sleep? || s.EnqueueSet? || s.EnqueuePush?)
    ensures Posts(w, BusyStep(w, k, s, t, returned, late), k)
  {
    match s
    case Sleep =>
    case EnqueueSet =>
    case EnqueuePush =>
  }

  lemma DlqPushPosts(w: World, k: nat, t: Task)
    requires k < |w.procs| && w.procs[k].pc.Busy? && w.procs[k].pc.stage.DlqPush?
    ensures Posts(w, PushDeadLetter(w, k, t), k)
  {
  }

  lemma DlqPosts(w: World, k: nat, s: Stage, t: Task, returned: HandlerReturn, late: bool)
    requires k < |w.procs| && w.procs[k].pc == Busy(s, t) && (s.DlqDescribe? || s.DlqStat?)
    ensures Posts(w, BusyStep(w, k, s, t, returned, late), k)
  {
    match s
    case DlqDescribe =>
    case DlqStat =>
  }

  lemma NackPosts(w: World, k: nat, s: Stage, t: Task, returned: HandlerReturn, late: bool)
    requires k < |w.procs| && w.procs[k].pc == Busy(s, t) && (s.NackProcessing? || s.NackData? || s.NackStat?)
    ensures Posts(w, BusyStep(w, k, s, t, returned, late), k)
  {
    match s
    case NackProcessing =>
    case NackData =>
    case NackStat =>
  }

  lemma BusyStepPosts(w: World, k: nat, s: Stage, t: Task, returned: HandlerReturn, late: bool)
    requires k < |w.procs| && w.procs[k].pc == Busy(s, t)
    ensures Posts(w, BusyStep(w, k, s, t, returned, late), k)
  {
    match s
    case MarkProcessing => StartPosts(w, k, s, t, returned, late);
    case SaveStarted => StartPosts(w, k, s, t, returned, late);
    case Execute =>
      var a := if t.kind in w.handlers then AnswerOf(t, returned) else NoHandler(t);
      AttemptPosts(w, k, t, ExecuteVerdict(t, a, late), Tried(returned, late));
    case SaveSuccess(_) => SuccessPosts(w, k, s, t, returned, late);
    case SaveCompleted => SuccessPosts(w, k, s, t, returned, late);
    case AckProcessing => AckPosts(w, k, s, t, returned, late);
    case AckData => AckPosts(w, k, s, t, returned, late);
    case AckStat => AckPosts(w, k, s, t, returned, late);
    case SaveFailure(r, message) => FailurePosts(w, k, t, r, message);
    case SaveFailed => DecisionPosts(w, k, t);
    case Sleep => RetryPosts(w, k, s, t, returned, late);
    case EnqueueSet => RetryPosts(w, k, s, t, returned, late);
    case EnqueuePush => RetryPosts(w, k, s, t, returned, late);
    case DlqPush => DlqPushPosts(w, k, DeadLettered(t, ExhaustedReason(t)));
    case DlqDescribe => DlqPosts(w, k, s, t, returned, late);
    case DlqStat => DlqPosts(w, k, s, t, returned, late);
    case NackProcessing => NackPosts(w, k, s, t, returned, late);
    case NackData => NackPosts(w, k, s, t, returned, late);
    case NackStat => NackPosts(w, k, s, t, returned, late);
  }

  lemma PollPosts(w: World, k: nat, p: Priority)
    requires ListOk(w, p) && k < |w.procs| && w.procs[k].pc == Poll(p)
    ensures var w' := PollStep(w, k, p); w'.track.Keys == w.track.Keys && Posts(w, w', k)
  {
  }

  lemma FetchPosts(w: World, k: nat, p: Priority, id: TaskId)
    requires k < |w.procs| && w.procs[k].pc == Popped(p, id) && id in w.db.data
    ensures Posts(w, FetchStep(w, k, p, id), k)
  {
  }

  lemma CountPosts(w: World, k: nat)
    requires k < |w.procs| && w.procs[k].pc.CountEnqueued?
    ensures Posts(w, Goto(w.(db := IncrTotal(w.db)), k, Idle), k)
  {
  }

  lemma StepPosts(w: World, k: nat, returned: HandlerReturn, late: bool)
    requires Inv(w) && k < |w.procs|
    ensures Posts(w, ProcStep(w, k, returned, late), k)
  {
    assert ProcOk(w, k);
    match w.procs[k].pc
    case Idle =>
    case Poll(p) =>
      assert ListOk(w, p);
      PollPosts(w, k, p);
    case Popped(p, id) => FetchPosts(w, k, p, id);
    case CountEnqueued => CountPosts(w, k);
    case Busy(s, t) => BusyStepPosts(w, k, s, t, returned, late);
  }

  lemma BusyStepKeepsKeys(w: World, k: nat, s: Stage, t: Task, returned: HandlerReturn, late: bool)
    requires k < |w.procs| && t.id in w.track
    ensures BusyStep(w, k, s, t, returned, late).track.Keys == w.track.Keys
  {
    BusyStepTracks(w, k, s, t, returned, late);
  }

  lemma StepKeepsKeys(w: World, k: nat, returned: HandlerReturn, late: bool)
    requires Inv(w) && k < |w.procs|
    ensures ProcStep(w, k, returned, late).track.Keys == w.track.Keys
  {
    assert ProcOk(w, k);
    match w.procs[k].pc
    case Idle =>
    case Poll(p) => assert ListOk(w, p);
    case Popped(p, id) =>
    case CountEnqueued =>
    case Busy(s, t) => BusyStepKeepsKeys(w, k, s, t, returned, late);
  }

  lemma {:induction false} SpawnKeepsOwing(procs: seq<Proc>)
    ensures Sum(Owing, procs + [NEW_PROC]) == Sum(Owing, procs)
  {
  }

  lemma {:induction false} SpawnKeepsNacking(procs: seq<Proc>)
    ensures Sum(Nacking, procs + [NEW_PROC]) == Sum(Nacking, procs)
  {
  }

  lemma {:induction false} SpawnKeepsAcked(procs: seq<Proc>)
    ensures Sum(Acked, procs + [NEW_PROC]) == Sum(Acked, procs)
  {
  }

  lemma {:induction false} SpawnKeepsGivenUp(procs: seq<Proc>)
    ensures Sum(GivenUp, procs + [NEW_PROC]) == Sum(GivenUp, procs)
  {
  }

  lemma {:induction false} SpawnKeepsDescribing(procs: seq<Proc>)
    ensures Sum(Describing, procs + [NEW_PROC]) == Sum(Describing, procs)
  {
  }

  lemma {:induction false} SpawnKeepsHolding(procs: seq<Proc>)
    ensures Sum(Holding, procs + [NEW_PROC]) == Sum(Holding, procs)
  {
  }

  lemma {:induction false} SpawnKeepsBooks(w: World)
    requires Books(w)
    ensures Books(w.(procs := w.procs + [NEW_PROC]))
  {
    SpawnKeepsOwing(w.procs);
    SpawnKeepsNacking(w.procs);
    SpawnKeepsAcked(w.procs);
    SpawnKeepsGivenUp(w.procs);
    SpawnKeepsDescribing(w.procs);
    SpawnKeepsHolding(w.procs);
  }

  lemma {:induction false} SubmitKeepsBooks(w: World, k: nat, t: Task)
    requires Books(w) && Enabled(w, Submit(k, t))
    ensures Books(BeginSubmit(w, k, t))
  {
    var w' := BeginSubmit(w, k, t);
    assert w'.track.Keys == w.track.Keys + {t.id};
    assert |w'.track| == |w.track| + 1;
    PostingKeepsBooks(w, w', k);
  }

  lemma {:induction false} StepKeepsBooks(w: World, k: nat, returned: HandlerReturn, late: bool)
    requires Inv(w) && Books(w) && k < |w.procs|
    ensures Books(ProcStep(w, k, returned, late))
  {
    var w' := ProcStep(w, k, returned, late);
    StepPosts(w, k, returned, late);
    StepKeepsKeys(w, k, returned, late);
    SameKeysSameSize(w.track, w'.track);
    PostingKeepsBooks(w, w', k);
  }

  lemma {:induction false} ActionKeepsBooks(w: World, a: Action)
    requires Inv(w) && Books(w) && Enabled(w, a)
    ensures Books(Apply(w, a))
  {
    match a
    case Spawn => SpawnKeepsBooks(w);
    case Submit(k, t) => SubmitKeepsBooks(w, k, t);
    case Step(k, returned, late) => StepKeepsBooks(w, k, returned, late);
    case Crash(k) => PostingKeepsBooks(w, Apply(w, a), k);
    case ExpireProcessing(_) =>
  }

  lemma {:induction false} RunKeepsBooks(w: World, actions: seq<Action>)
    requires Inv(w) && Books(w) && Legal(w, actions)
    ensures Books(Run(w, actions))
    decreases |actions|
  {
    if actions != [] {
      ActionKeepsInv(w, actions[0]);
      ActionKeepsBooks(w, actions[0]);
      RunKeepsBooks(Apply(w, actions[0]), actions[1..]);
    }
  }

  /** No call of the queue or the worker is in progress. */
  ghost predicate BetweenCalls(w: World) {
    forall k :: 0 <= k < |w.procs| ==> w.procs[k].pc.Idle? || w.procs[k].pc.Poll?
  }

  function Processed(proc: Proc): int { proc.processed }

  function FailedAttempts(proc: Proc): int { proc.failed }

  function Retried(proc: Proc): int { proc.retried }

  /** Whenever no call is in progress the counters balance exactly, for any number of
      workers and any interleaving that led there. */
  lemma {:induction false} Conservation(w: World)
    requires Reachable(w) && BetweenCalls(w)
    ensures w.db.total == QueueSize(w.db) + w.db.completed + w.db.dead + Sum(Retried, w.procs)
    ensures w.db.failed == w.db.dead == |w.db.dlq|
    ensures Sum(Processed, w.procs) == w.db.completed
    ensures Sum(FailedAttempts, w.procs) == Sum(Retried, w.procs) + w.db.dead
    ensures |w.track| == QueueSize(w.db) + w.db.completed + w.db.dead
  {
    ReachableBooks(w);
    QuietSums(w.procs);
  }

  lemma {:induction false} ReachableBooks(w: World)
    requires Reachable(w)
    ensures Books(w)
  {
    var handlers, actions :| Legal(Initial(handlers), actions) && w == Run(Initial(handlers), actions);
    InitialInv(handlers);
    RunKeepsBooks(Initial(handlers), actions);
  }

  lemma {:induction false} QuietSums(procs: seq<Proc>)
    requires forall k :: 0 <= k < |procs| ==> procs[k].pc.Idle? || procs[k].pc.Poll?
    ensures Sum(Owing, procs) == Sum(Retried, procs) && Sum(Acked, procs) == Sum(Processed, procs)
    ensures Sum(Nacking, procs) == Sum(Describing, procs) == Sum(Holding, procs) == 0
    ensures Sum(GivenUp, procs) == Sum(FailedAttempts, procs) - Sum(Retried, procs)
  {
    SumAgree(Owing, Retried, procs);
    SumAgree(Acked, Processed, procs);
    SumAgree(Nacking, Nothing, procs);
    SumAgree(Describing, Nothing, procs);
    SumAgree(Holding, Nothing, procs);
    SumAgree(GivenUp, Difference, procs);
    SumOfNothing(procs);
    SumOfDifference(procs);
  }

  function Nothing(proc: Proc): int { 0 }

  function Difference(proc: Proc): int { proc.failed - proc.retried }

  lemma {:induction false} SumOfNothing(procs: seq<Proc>)
    ensures Sum(Nothing, procs) == 0
  {
    if procs != [] { SumOfNothing(procs[..|procs| - 1]); }
  }

  lemma {:induction false} SumOfDifference(procs: seq<Proc>)
    ensures Sum(Difference, procs) == Sum(FailedAttempts, procs) - Sum(Retried, procs)
  {
    if procs != [] { SumOfDifference(procs[..|procs| - 1]); }
  }
}
