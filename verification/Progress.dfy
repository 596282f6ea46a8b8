/** Termination: every working step brings the system closer to being drained, so a
    finite set of submissions costs a bounded number of steps and of dequeues,
    whatever the interleaving, the handlers and the crashes. */
module Progress {
  import opened Tasks
  import opened Redis
  import opened Handlers
  import opened Protocol
  import opened Ownership
  import opened Safety
  import opened Counts

  // ------------------------------------------------- sums over the submissions

  ghost predicate LogOk(w: World) {
    NoDup(w.log) && (forall id :: id in w.log <==> id in w.track)
  }

  ghost function SumLog(f: Track -> int, log: seq<TaskId>, track: map<TaskId, Track>): int
    requires forall i :: 0 <= i < |log| ==> log[i] in track
  {
    if log == [] then 0
    else SumLog(f, log[..|log| - 1], track) + f(track[log[|log| - 1]])
  }

  lemma {:induction false} SumLogSame(f: Track -> int, log: seq<TaskId>, m: map<TaskId, Track>, m': map<TaskId, Track>)
    requires forall i :: 0 <= i < |log| ==> log[i] in m && log[i] in m' && f(m[log[i]]) == f(m'[log[i]])
    ensures SumLog(f, log, m) == SumLog(f, log, m')
  {
    if log != [] { SumLogSame(f, log[..|log| - 1], m, m'); }
  }

  /** One entry of the log moves by d. */
  lemma {:induction false} SumLogBump(f: Track -> int, log: seq<TaskId>, m: map<TaskId, Track>, m': map<TaskId, Track>,
                                      id: TaskId, d: int)
    requires NoDup(log) && id in log
    requires forall i :: 0 <= i < |log| ==> log[i] in m && log[i] in m'
    requires forall i :: 0 <= i < |log| && log[i] != id ==> f(m[log[i]]) == f(m'[log[i]])
    requires f(m'[id]) == f(m[id]) + d
    ensures SumLog(f, log, m') == SumLog(f, log, m) + d
  {
    var last := |log| - 1;
    if log[last] == id {
      SumLogSame(f, log[..last], m, m');
    } else {
      assert id in log[..last];
      SumLogBump(f, log[..last], m, m', id, d);
    }
  }

  lemma {:induction false} SumLogAtMost(f: Track -> int, g: Track -> int, log: seq<TaskId>, m: map<TaskId, Track>)
    requires forall i :: 0 <= i < |log| ==> log[i] in m && f(m[log[i]]) <= g(m[log[i]])
    ensures SumLog(f, log, m) <= SumLog(g, log, m)
  {
    if log != [] { SumLogAtMost(f, g, log[..|log| - 1], m); }
  }

  function Zero(tr: Track): int { 0 }

  function Pops(tr: Track): int { tr.pops }

  function Allowance(tr: Track): int { Budget(tr.task) }

  function Slack(tr: Track): int { Budget(tr.task) - tr.attempts }

  lemma {:induction false} SumLogZero(log: seq<TaskId>, m: map<TaskId, Track>)
    requires forall i :: 0 <= i < |log| ==> log[i] in m
    ensures SumLog(Zero, log, m) == 0
  {
    if log != [] { SumLogZero(log[..|log| - 1], m); }
  }

  lemma {:induction false} SumLogSubmit(f: Track -> int, log: seq<TaskId>, m: map<TaskId, Track>, id: TaskId, tr: Track)
    requires forall i :: 0 <= i < |log| ==> log[i] in m && log[i] != id
    ensures SumLog(f, log + [id], m[id := tr]) == SumLog(f, log, m) + f(tr)
  {
    var m' := m[id := tr];
    assert (log + [id])[..|log|] == log;
    SumLogSame(f, log, m, m');
  }

  // ---------------------------------------------------------------- the rank

  /** Steps left before the process is idle again, were the current attempt to fail. */
  function StageRank(s: Stage): nat {
    match s
    case MarkProcessing => 3
    case SaveStarted => 2
    case Execute => 1
    case SaveSuccess(_) => 5
    case SaveCompleted => 4
    case AckProcessing => 3
    case AckData => 2
    case AckStat => 1
    case SaveFailure(_, _) => 16
    case SaveFailed => 15
    case Sleep => 14
    case EnqueueSet => 13
    case EnqueuePush => 12
    case DlqPush => 14
    case DlqDescribe => 13
    case DlqStat => 12
    case NackProcessing => 11
    case NackData => 10
    case NackStat => 9
  }

  function PcRank(proc: Proc): int {
    match proc.pc
    case Idle => 0
    case Poll(_) => 0
    case Popped(_, _) => 4
    case CountEnqueued => 1
    case Busy(s, _) => StageRank(s)
  }

  const ATTEMPT_COST := 17

  /** What is still to be done: the attempts left, the calls in progress, the lists. */
  ghost function Rank(w: World): int
    requires LogOk(w)
  {
    ATTEMPT_COST * SumLog(Slack, w.log, w.track) + Sum(PcRank, w.procs) + 5 * QueueSize(w.db)
  }

  predicate Popping(w: World, a: Action)
    requires Enabled(w, a)
  {
    a.Step? && w.procs[a.k].pc.Poll? && w.db.lists[w.procs[a.k].pc.p] != []
  }

  /** A step other than looking at an empty list. */
  predicate Working(w: World, a: Action)
    requires Enabled(w, a)
  {
    a.Step? && (Popping(w, a) || w.procs[a.k].pc.Popped? || w.procs[a.k].pc.Busy? || w.procs[a.k].pc.CountEnqueued?)
  }

  // ---------------------------------------------------- what a step does to it

  /** The histories after a step of process k: at most one pop or one attempt is added. */
  ghost predicate Adds(w: World, w': World, id: TaskId, pops: int, attempts: int) {
    && w'.track.Keys == w.track.Keys && w'.log == w.log
    && (forall x :: x in w.track ==> w'.track[x].task == w.track[x].task)
    && (forall x :: x in w.track && x != id ==>
          w'.track[x].pops == w.track[x].pops && w'.track[x].attempts == w.track[x].attempts)
    && (id in w.track ==>
          w'.track[id].pops == w.track[id].pops + pops && w'.track[id].attempts == w.track[id].attempts + attempts)
  }

  lemma BusyStepAdds(w: World, k: nat, s: Stage, t: Task, returned: HandlerReturn, late: bool)
    requires k < |w.procs| && t.id in w.track
    ensures Adds(w, BusyStep(w, k, s, t, returned, late), t.id, 0, Bit(s.Execute?))
  {
    BusyStepTracks(w, k, s, t, returned, late);
  }

  /** Process k steps: its rank and the list lengths drop, unless an attempt pays for it. */
  ghost predicate Descends(w: World, w': World, k: nat, paid: int)
    requires k < |w.procs|
  {
    && |w'.procs| == |w.procs| && w'.procs == w.procs[k := w'.procs[k]]
    && PcRank(w'.procs[k]) + 5 * QueueSize(w'.db) < PcRank(w.procs[k]) + 5 * QueueSize(w.db) + ATTEMPT_COST * paid
  }

  lemma VerdictDescends(w: World, k: nat, t: Task, v: Verdict, tried: Tried)
    requires k < |w.procs| && w.procs[k].pc == Busy(Execute, t)
    ensures Descends(w, AfterAttempt(w, k, t, v, tried), k, 1)
  {
  }

  lemma ExecuteDescends(w: World, k: nat, t: Task, returned: HandlerReturn, late: bool)
    requires k < |w.procs| && w.procs[k].pc == Busy(Execute, t)
    ensures Descends(w, ExecuteStep(w, k, t, returned, late), k, 1)
  {
    var a := if t.kind in w.handlers then AnswerOf(t, returned) else NoHandler(t);
    VerdictDescends(w, k, t, ExecuteVerdict(t, a, late), Tried(returned, late));
  }

  lemma AttemptDescends(w: World, k: nat, s: Stage, t: Task, returned: HandlerReturn, late: bool)
    requires k < |w.procs| && w.procs[k].pc == Busy(s, t) && AttemptStage(s)
    ensures Descends(w, BusyStep(w, k, s, t, returned, late), k, Bit(s.Execute?))
  {
    match s
    case MarkProcessing =>
    case SaveStarted =>
    case Execute => ExecuteDescends(w, k, t, returned, late);
    case SaveSuccess(_) =>
    case SaveCompleted =>
    case AckProcessing =>
    case AckData =>
    case AckStat =>
  }

  lemma RetryDescends(w: World, k: nat, s: Stage, t: Task, returned: HandlerReturn, late: bool)
    requires k < |w.procs| && w.procs[k].pc == Busy(s, t) && (RetryStage(s) || s.EnqueuePush?)
    ensures Descends(w, BusyStep(w, k, s, t, returned, late), k, Bit(s.Execute?))
  {
    match s
    case SaveFailure(_, _) =>
    case SaveFailed =>
    case Sleep =>
    case EnqueueSet =>
    case EnqueuePush =>
  }

  lemma DlqDescends(w: World, k: nat, s: Stage, t: Task, returned: HandlerReturn, late: bool)
    requires k < |w.procs| && w.procs[k].pc == Busy(s, t) && (s.DlqPush? || s.DlqDescribe? || s.DlqStat?)
    ensures Descends(w, BusyStep(w, k, s, t, returned, late), k, 0)
  {
    if s.DlqPush? { LetterDescends(w, k, t, DeadLettered(t, ExhaustedReason(t))); }
  }

  lemma LetterDescends(w: World, k: nat, t: Task, letter: Task)
    requires k < |w.procs| && w.procs[k].pc == Busy(DlqPush, t)
    ensures Descends(w, PushDeadLetter(w, k, letter), k, 0)
  {
  }

  lemma NackDescends(w: World, k: nat, s: Stage, t: Task, returned: HandlerReturn, late: bool)
    requires k < |w.procs| && w.procs[k].pc == Busy(s, t) && (s.NackProcessing? || s.NackData? || s.NackStat?)
    ensures Descends(w, BusyStep(w, k, s, t, returned, late), k, 0)
  {
  }

  lemma BusyStepDescends(w: World, k: nat, s: Stage, t: Task, returned: HandlerReturn, late: bool)
    requires k < |w.procs| && w.procs[k].pc == Busy(s, t)
    ensures Descends(w, BusyStep(w, k, s, t, returned, late), k, Bit(s.Execute?))
  {
    if AttemptStage(s) {
      AttemptDescends(w, k, s, t, returned, late);
    } else if RetryStage(s) || s.EnqueuePush? {
      RetryDescends(w, k, s, t, returned, late);
    } else if s.DlqPush? || s.DlqDescribe? || s.DlqStat? {
      DlqDescends(w, k, s, t, returned, late);
    } else {
      NackDescends(w, k, s, t, returned, late);
    }
  }

  lemma PopDescends(w: World, k: nat, p: Priority)
    requires k < |w.procs| && w.procs[k].pc == Poll(p) && w.db.lists[p] != [] && w.db.lists[p][0] in w.track
    ensures Descends(w, PollStep(w, k, p), k, 0)
    ensures Adds(w, PollStep(w, k, p), w.db.lists[p][0], 1, 0)
  {
  }

  lemma {:induction false} RankAfter(w: World, w': World, k: nat, id: TaskId, pops: int, attempts: int)
    requires LogOk(w) && k < |w.procs| && id in w.track
    requires Adds(w, w', id, pops, attempts) && Descends(w, w', k, attempts)
    ensures LogOk(w') && Rank(w') < Rank(w)
    ensures SumLog(Pops, w'.log, w'.track) == SumLog(Pops, w.log, w.track) + pops
    ensures SumLog(Allowance, w'.log, w'.track) == SumLog(Allowance, w.log, w.track)
  {
    SumLogBump(Slack, w.log, w.track, w'.track, id, -attempts);
    SumUpdate(PcRank, w.procs, k, w'.procs[k]);
    SumLogBump(Pops, w.log, w.track, w'.track, id, pops);
    SumLogSame(Allowance, w.log, w.track, w'.track);
  }

  /** w' follows w without touching any history; process k may have moved. */
  lemma {:induction false} RankKept(w: World, w': World, k: nat)
    requires LogOk(w) && k < |w.procs| == |w'.procs| && w'.procs == w.procs[k := w'.procs[k]]
    requires w'.track == w.track && w'.log == w.log && w'.db.lists == w.db.lists
    ensures LogOk(w') && Rank(w') == Rank(w) - PcRank(w.procs[k]) + PcRank(w'.procs[k])
  {
    SumUpdate(PcRank, w.procs, k, w'.procs[k]);
  }

  ghost function TotalPops(w: World): int
    requires LogOk(w)
  {
    SumLog(Pops, w.log, w.track)
  }

  ghost function TotalAllowance(w: World): int
    requires LogOk(w)
  {
    SumLog(Allowance, w.log, w.track)
  }

  /** The rank falls with every working step, and dequeues are counted. */
  ghost predicate Ranks(w: World, w': World, working: bool, popping: bool)
    requires LogOk(w)
  {
    && LogOk(w')
    && (if working then Rank(w') < Rank(w) else Rank(w') == Rank(w))
    && TotalPops(w') == TotalPops(w) + Bit(popping)
    && TotalAllowance(w') == TotalAllowance(w)
  }

  lemma {:induction false} PollRank(w: World, k: nat, p: Priority)
    requires Inv(w) && LogOk(w) && k < |w.procs| && w.procs[k].pc == Poll(p)
    ensures Ranks(w, PollStep(w, k, p), w.db.lists[p] != [], w.db.lists[p] != [])
  {
    if w.db.lists[p] == [] {
      RankKept(w, PollStep(w, k, p), k);
    } else {
      assert ListOk(w, p);
      PopDescends(w, k, p);
      RankAfter(w, PollStep(w, k, p), k, w.db.lists[p][0], 1, 0);
    }
  }

  lemma {:induction false} BusyRank(w: World, k: nat, s: Stage, t: Task, returned: HandlerReturn, late: bool)
    requires LogOk(w) && k < |w.procs| && w.procs[k].pc == Busy(s, t) && t.id in w.track
    ensures Ranks(w, BusyStep(w, k, s, t, returned, late), true, false)
  {
    BusyStepAdds(w, k, s, t, returned, late);
    BusyStepDescends(w, k, s, t, returned, late);
    RankAfter(w, BusyStep(w, k, s, t, returned, late), k, t.id, 0, Bit(s.Execute?));
  }

  /** A step of process k that touches no history and no list. */
  lemma {:induction false} PlainRank(w: World, w': World, k: nat)
    requires LogOk(w) && k < |w.procs| == |w'.procs| && w'.procs == w.procs[k := w'.procs[k]]
    requires w'.track == w.track && w'.log == w.log && w'.db.lists == w.db.lists
    ensures PcRank(w'.procs[k]) < PcRank(w.procs[k]) ==> Ranks(w, w', true, false)
    ensures PcRank(w'.procs[k]) == PcRank(w.procs[k]) ==> Ranks(w, w', false, false)
  {
    RankKept(w, w', k);
  }

  lemma PlainStep(w: World, k: nat, returned: HandlerReturn, late: bool)
    requires k < |w.procs| && !w.procs[k].pc.Busy? && !w.procs[k].pc.Poll?
    ensures var w' := ProcStep(w, k, returned, late);
      && |w'.procs| == |w.procs| && w'.procs == w.procs[k := w'.procs[k]]
      && w'.track == w.track && w'.log == w.log && w'.db.lists == w.db.lists
      && (if w.procs[k].pc.Idle? then PcRank(w'.procs[k]) == PcRank(w.procs[k])
          else PcRank(w'.procs[k]) < PcRank(w.procs[k]))
  {
  }

  lemma {:induction false} StepRank(w: World, k: nat, returned: HandlerReturn, late: bool)
    requires Inv(w) && LogOk(w) && Enabled(w, Step(k, returned, late))
    ensures var a := Step(k, returned, late);
      Ranks(w, ProcStep(w, k, returned, late), Working(w, a), Popping(w, a))
  {
    var pc := w.procs[k].pc;
    if pc.Busy? {
      assert ProcOk(w, k);
      BusyRank(w, k, pc.stage, pc.t, returned, late);
    } else if pc.Poll? {
      PollRank(w, k, pc.p);
    } else {
      PlainStep(w, k, returned, late);
      PlainRank(w, ProcStep(w, k, returned, late), k);
    }
  }

  lemma SubmittedIsLogged(w: World, k: nat, t: Task)
    requires LogOk(w) && Enabled(w, Submit(k, t))
    ensures LogOk(BeginSubmit(w, k, t))
  {
  }

  lemma {:induction false} SubmitSum(f: Track -> int, w: World, k: nat, t: Task)
    requires LogOk(w) && Enabled(w, Submit(k, t)) && LogOk(BeginSubmit(w, k, t))
    ensures var w' := BeginSubmit(w, k, t);
      SumLog(f, w'.log, w'.track) == SumLog(f, w.log, w.track) + f(w'.track[t.id])
  {
    SumLogSubmit(f, w.log, w.track, t.id, Track(t, Owned(k), 0, 0, [], false, None, None));
  }

  lemma {:induction false} SubmitTotals(w: World, k: nat, t: Task)
    requires LogOk(w) && Enabled(w, Submit(k, t))
    ensures var w' := BeginSubmit(w, k, t);
      && LogOk(w')
      && SumLog(Slack, w'.log, w'.track) == SumLog(Slack, w.log, w.track) + Budget(t)
      && TotalPops(w') == TotalPops(w) && TotalAllowance(w') == TotalAllowance(w) + Budget(t)
  {
    SubmittedIsLogged(w, k, t);
    SubmitSum(Slack, w, k, t);
    SubmitSum(Pops, w, k, t);
    SubmitSum(Allowance, w, k, t);
  }

  lemma {:induction false} SubmitPcRank(w: World, k: nat, t: Task)
    requires Enabled(w, Submit(k, t))
    ensures var w' := BeginSubmit(w, k, t);
      Sum(PcRank, w'.procs) == Sum(PcRank, w.procs) + 12 && QueueSize(w'.db) == QueueSize(w.db)
  {
    SumUpdate(PcRank, w.procs, k, BeginSubmit(w, k, t).procs[k]);
  }

  lemma {:induction false} SubmitRank(w: World, k: nat, t: Task)
    requires LogOk(w) && Enabled(w, Submit(k, t))
    ensures var w' := BeginSubmit(w, k, t);
      && LogOk(w') && Rank(w') == Rank(w) + ATTEMPT_COST * Budget(t) + 12
      && TotalPops(w') == TotalPops(w) && TotalAllowance(w') == TotalAllowance(w) + Budget(t)
  {
    SubmitTotals(w, k, t);
    SubmitPcRank(w, k, t);
  }

  lemma {:induction false} SpawnKeepsPcRank(procs: seq<Proc>)
    ensures Sum(PcRank, procs + [NEW_PROC]) == Sum(PcRank, procs)
  {
  }

  lemma {:induction false} SpawnRank(w: World)
    requires LogOk(w)
    ensures var w' := w.(procs := w.procs + [NEW_PROC]); LogOk(w') && Rank(w') == Rank(w)
  {
    var w' := w.(procs := w.procs + [NEW_PROC]);
    assert w'.log == w.log && w'.track == w.track && w'.db == w.db;
    SpawnKeepsPcRank(w.procs);
    assert Sum(PcRank, w'.procs) == Sum(PcRank, w.procs);
    assert SumLog(Slack, w'.log, w'.track) == SumLog(Slack, w.log, w.track);
  }

  /** The most working steps that the submissions in a run can cause. */
  function WorkAllowance(actions: seq<Action>): nat {
    if actions == [] then 0
    else (if actions[0].Submit? then ATTEMPT_COST * Budget(actions[0].t) + 12 else 0) + WorkAllowance(actions[1..])
  }

  /** The sum of (MaxRetries + 1) over the submissions, in the common case. */
  function AttemptAllowance(actions: seq<Action>): nat {
    if actions == [] then 0
    else (if actions[0].Submit? then Budget(actions[0].t) else 0) + AttemptAllowance(actions[1..])
  }

  function CountWorking(w: World, actions: seq<Action>): nat
    requires Legal(w, actions)
    decreases |actions|
  {
    if actions == [] then 0
    else (if Working(w, actions[0]) then 1 else 0) + CountWorking(Apply(w, actions[0]), actions[1..])
  }

  function CountDequeues(w: World, actions: seq<Action>): nat
    requires Legal(w, actions)
    decreases |actions|
  {
    if actions == [] then 0
    else (if Popping(w, actions[0]) then 1 else 0) + CountDequeues(Apply(w, actions[0]), actions[1..])
  }

  lemma {:induction false} ActionRank(w: World, a: Action)
    requires Inv(w) && LogOk(w) && Enabled(w, a)
    ensures var w' := Apply(w, a);
      && LogOk(w')
      && Rank(w') + Bit(Working(w, a)) <= Rank(w) + WorkAllowance([a])
      && TotalPops(w') == TotalPops(w) + Bit(Popping(w, a))
      && TotalAllowance(w') == TotalAllowance(w) + AttemptAllowance([a])
  {
    match a
    case Spawn => SpawnRank(w);
    case Submit(k, t) => SubmitRank(w, k, t);
    case Step(k, returned, late) => StepRank(w, k, returned, late);
    case Crash(k) => RankKept(w, Apply(w, a), k);
    case ExpireProcessing(_) =>
  }

  lemma {:induction false} RunRank(w: World, actions: seq<Action>)
    requires Inv(w) && LogOk(w) && Legal(w, actions)
    ensures var w' := Run(w, actions);
      && Inv(w') && LogOk(w')
      && Rank(w') + CountWorking(w, actions) <= Rank(w) + WorkAllowance(actions)
      && TotalPops(w') == TotalPops(w) + CountDequeues(w, actions)
      && TotalAllowance(w') == TotalAllowance(w) + AttemptAllowance(actions)
    decreases |actions|
  {
    if actions != [] {
      ActionKeepsInv(w, actions[0]);
      ActionRank(w, actions[0]);
      RunRank(Apply(w, actions[0]), actions[1..]);
    }
  }

  lemma {:induction false} RankIsNatural(w: World)
    requires Inv(w) && LogOk(w)
    ensures Rank(w) >= 0
    ensures TotalPops(w) <= TotalAllowance(w)
  {
    forall i | 0 <= i < |w.log|
      ensures w.log[i] in w.track
      ensures w.track[w.log[i]].attempts <= w.track[w.log[i]].pops <= Budget(w.track[w.log[i]].task)
    {
      AttemptsWithinBudget(w, w.log[i]);
    }
    SumLogAtMost(Zero, Slack, w.log, w.track);
    SumLogZero(w.log, w.track);
    SumLogAtMost(Pops, Allowance, w.log, w.track);
    PcRanksAreNatural(w.procs);
  }

  lemma {:induction false} PcRanksAreNatural(procs: seq<Proc>)
    ensures Sum(PcRank, procs) >= 0
  {
    if procs != [] { PcRanksAreNatural(procs[..|procs| - 1]); }
  }

  /** In every run the working steps, and the dequeues, are bounded by the submissions alone. */
  lemma {:induction false} RunsAreBounded(handlers: set<string>, actions: seq<Action>)
    requires Legal(Initial(handlers), actions)
    ensures CountWorking(Initial(handlers), actions) <= WorkAllowance(actions)
    ensures CountDequeues(Initial(handlers), actions) <= AttemptAllowance(actions)
  {
    InitialInv(handlers);
    RunRank(Initial(handlers), actions);
    RankIsNatural(Run(Initial(handlers), actions));
  }
}
