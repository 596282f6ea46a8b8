/** Liveness: under every fair schedule of the live processes, whatever the handlers do and
    whichever processes crash before or meanwhile, the queue drains. */
module Drain {
  import opened Tasks
  import opened Handlers
  import opened Protocol
  import opened Ownership
  import opened Safety
  import opened Counts
  import opened Progress

  /** Nothing is listed and every live process is between calls. */
  ghost predicate Calm(w: World) {
    && (forall p: Priority :: w.db.lists[p] == [])
    && (forall k :: 0 <= k < |w.procs| && !w.procs[k].crashed ==> Looking(w.procs[k].pc))
  }

  predicate Looking(pc: Pc) { pc.Idle? || pc.Poll? }

  predicate NoSubmissions(actions: seq<Action>) {
    forall i :: 0 <= i < |actions| ==> !actions[i].Submit?
  }

  /** How many steps process k takes. */
  function Turns(actions: seq<Action>, k: nat): nat {
    if actions == [] then 0
    else (if actions[0].Step? && actions[0].k == k then 1 else 0) + Turns(actions[1..], k)
  }

  /** One look at each list and one start of a Dequeue. */
  const LAP := 5

  /** A round of a schedule: nothing is submitted, and every process that lives to its end gets
      a full lap of steps. Others may crash, processes may start and processing keys expire. */
  ghost predicate FairRound(w: World, actions: seq<Action>) {
    && Legal(w, actions) && NoSubmissions(actions)
    && (forall k: nat :: k < |w.procs| && Live(Run(w, actions), k) ==> Turns(actions, k) >= LAP)
  }

  ghost predicate FairRounds(w: World, rounds: seq<seq<Action>>)
    decreases |rounds|
  {
    rounds == [] || (FairRound(w, rounds[0]) && FairRounds(Run(w, rounds[0]), rounds[1..]))
  }

  ghost function RunRounds(w: World, rounds: seq<seq<Action>>): World
    requires FairRounds(w, rounds)
    decreases |rounds|
  {
    if rounds == [] then w else RunRounds(Run(w, rounds[0]), rounds[1..])
  }

  // ------------------------------------------------------- a round without work

  /** The lists that n fruitless steps from pc look at. */
  function Seen(pc: Pc, n: nat): set<int>
    decreases n
  {
    if n == 0 || !Looking(pc) then {}
    else if pc.Idle? then Seen(Poll(3), n - 1)
    else {pc.p} + Seen(NextList(pc.p), n - 1)
  }

  lemma {:induction false} SeenGrows(pc: Pc, m: nat, n: nat)
    requires m <= n
    ensures Seen(pc, m) <= Seen(pc, n)
    decreases n
  {
    if m > 0 && pc.Idle? {
      SeenGrows(Poll(3), m - 1, n - 1);
    } else if m > 0 && pc.Poll? {
      SeenGrows(NextList(pc.p), m - 1, n - 1);
    }
  }

  /** From wherever a process stands, a lap looks at all four lists. */
  lemma LapSeesAll(pc: Pc, n: nat)
    requires Looking(pc) && n >= LAP
    ensures forall p: Priority :: p in Seen(pc, n)
  {
    SeenGrows(pc, LAP, n);
    forall p: Priority ensures p in Seen(pc, LAP) {
      assert Seen(Idle, 4) == Seen(Poll(3), 3);
      assert Seen(Idle, 3) == Seen(Poll(3), 2);
      assert Seen(Idle, 2) == Seen(Poll(3), 1);
    }
  }

  /** Process j steps without doing any work: it only moves on to its next look. */
  lemma FruitlessStep(w: World, j: nat, returned: HandlerReturn, late: bool)
    requires Live(w, j) && !Working(w, Step(j, returned, late))
    ensures Looking(w.procs[j].pc)
    ensures var w' := Apply(w, Step(j, returned, late));
      && w'.db == w.db && |w'.procs| == |w.procs| && w'.procs == w.procs[j := w'.procs[j]] && !w'.procs[j].crashed
      && w'.procs[j].pc == (if w.procs[j].pc.Idle? then Poll(3) else NextList(w.procs[j].pc.p))
    ensures w.procs[j].pc.Poll? ==> w.db.lists[w.procs[j].pc.p] == []
  {
  }

  /** An action other than a submission that does no work, as process k sees it. */
  lemma FruitlessAction(w: World, a: Action, k: nat)
    requires Enabled(w, a) && !a.Submit? && !Working(w, a) && k < |w.procs|
    ensures var w' := Apply(w, a);
      && w'.db.lists == w.db.lists && |w'.procs| == |w.procs| + (if a.Spawn? then 1 else 0)
      && (w.procs[k].crashed ==> w'.procs[k].crashed)
      && (a.Step? && a.k == k ==>
            && Looking(w.procs[k].pc) && (w.procs[k].pc.Poll? ==> w.db.lists[w.procs[k].pc.p] == [])
            && w'.procs[k].pc == (if w.procs[k].pc.Idle? then Poll(3) else NextList(w.procs[k].pc.p)))
      && (!(a.Step? && a.k == k) ==> w'.procs[k].pc == w.procs[k].pc)
  {
    if a.Step? { FruitlessStep(w, a.k, a.returned, a.late); }
  }

  lemma {:induction false} FruitlessRound(w: World, actions: seq<Action>, k: nat)
    requires Legal(w, actions) && NoSubmissions(actions) && CountWorking(w, actions) == 0 && k < |w.procs|
    ensures var w' := Run(w, actions);
      && w'.db.lists == w.db.lists && |w'.procs| >= |w.procs| && (w.procs[k].crashed ==> w'.procs[k].crashed)
      && (Turns(actions, k) > 0 ==> Looking(w.procs[k].pc))
      && (Looking(w.procs[k].pc) ==> Looking(w'.procs[k].pc))
    ensures forall p: Priority :: p in Seen(w.procs[k].pc, Turns(actions, k)) ==> w.db.lists[p] == []
    decreases |actions|
  {
    if actions != [] {
      FruitlessAction(w, actions[0], k);
      FruitlessRound(Apply(w, actions[0]), actions[1..], k);
    }
  }

  /** Processes that start meanwhile have only looked as well. */
  lemma {:induction false} NewcomersLook(w: World, actions: seq<Action>, j: nat)
    requires Legal(w, actions) && NoSubmissions(actions) && CountWorking(w, actions) == 0 && w.procs != []
    requires |w.procs| <= j < |Run(w, actions).procs|
    ensures Looking(Run(w, actions).procs[j].pc)
    decreases |actions|
  {
    if actions != [] {
      var w1 := Apply(w, actions[0]);
      FruitlessAction(w, actions[0], 0);
      if j < |w1.procs| {
        FruitlessRound(w1, actions[1..], j);
      } else {
        NewcomersLook(w1, actions[1..], j);
      }
    }
  }

  /** A fair round in which nobody works leaves the system calm. */
  lemma {:induction false} FruitlessMeansCalm(w: World, actions: seq<Action>, k: nat)
    requires FairRound(w, actions) && CountWorking(w, actions) == 0 && k < |w.procs| && Live(Run(w, actions), k)
    ensures Calm(Run(w, actions))
  {
    var w' := Run(w, actions);
    forall j: nat | Live(w', j) ensures Looking(w'.procs[j].pc) {
      if j < |w.procs| {
        FruitlessRound(w, actions, j);
      } else {
        NewcomersLook(w, actions, j);
      }
    }
    FruitlessRound(w, actions, k);
    LapSeesAll(w.procs[k].pc, Turns(actions, k));
  }

  lemma CalmAction(w: World, a: Action)
    requires Calm(w) && Enabled(w, a) && !a.Submit?
    ensures Calm(Apply(w, a)) && !Working(w, a)
  {
  }

  lemma {:induction false} CalmStays(w: World, actions: seq<Action>)
    requires Calm(w) && Legal(w, actions) && NoSubmissions(actions)
    ensures Calm(Run(w, actions))
    decreases |actions|
  {
    if actions != [] {
      CalmAction(w, actions[0]);
      CalmStays(Apply(w, actions[0]), actions[1..]);
    }
  }

  // ---------------------------------------------------------------- fair runs

  lemma {:induction false} NoSubmissionsNoWork(actions: seq<Action>)
    requires NoSubmissions(actions)
    ensures WorkAllowance(actions) == 0
  {
    if actions != [] { NoSubmissionsNoWork(actions[1..]); }
  }

  /** Processes only join, a crash is for good, and nothing is submitted. */
  ghost predicate SameCast(w: World, w': World) {
    && |w'.procs| >= |w.procs| && w'.track.Keys == w.track.Keys
    && (forall k :: 0 <= k < |w.procs| && w.procs[k].crashed ==> w'.procs[k].crashed)
  }

  lemma ActionKeepsCast(w: World, a: Action)
    requires Inv(w) && Enabled(w, a) && !a.Submit?
    ensures SameCast(w, Apply(w, a))
  {
    if a.Step? { OneStepKeepsCast(w, a.k, a.returned, a.late); }
  }

  lemma {:induction false} RunKeepsCast(w: World, actions: seq<Action>)
    requires Inv(w) && Legal(w, actions) && NoSubmissions(actions)
    ensures SameCast(w, Run(w, actions))
    decreases |actions|
  {
    if actions != [] {
      ActionKeepsInv(w, actions[0]);
      ActionKeepsCast(w, actions[0]);
      RunKeepsCast(Apply(w, actions[0]), actions[1..]);
    }
  }

  lemma {:induction false} RoundsKeepCast(w: World, rounds: seq<seq<Action>>)
    requires Inv(w) && FairRounds(w, rounds)
    ensures Inv(RunRounds(w, rounds)) && SameCast(w, RunRounds(w, rounds))
    decreases |rounds|
  {
    if rounds != [] {
      RunKeepsInv(w, rounds[0]);
      RunKeepsCast(w, rounds[0]);
      RoundsKeepCast(Run(w, rounds[0]), rounds[1..]);
    }
  }

  lemma BusyStepCrashesNobody(w: World, k: nat, s: Stage, t: Task, returned: HandlerReturn, late: bool)
    requires k < |w.procs|
    ensures var w' := BusyStep(w, k, s, t, returned, late);
      |w'.procs| == |w.procs| && w'.procs[k].crashed == w.procs[k].crashed
  {
    match s
    case MarkProcessing =>
    case SaveStarted =>
    case Execute =>
    case SaveSuccess(_) =>
    case SaveCompleted =>
    case AckProcessing =>
    case AckData =>
    case AckStat =>
    case SaveFailure(_, _) =>
    case SaveFailed =>
    case Sleep =>
    case EnqueueSet =>
    case EnqueuePush =>
    case DlqPush =>
    case DlqDescribe =>
    case DlqStat =>
    case NackProcessing =>
    case NackData =>
    case NackStat =>
  }

  lemma OneStepKeepsCast(w: World, k: nat, returned: HandlerReturn, late: bool)
    requires Inv(w) && k < |w.procs|
    ensures var w' := ProcStep(w, k, returned, late);
      && |w'.procs| == |w.procs| && (forall j :: 0 <= j < |w.procs| ==> w'.procs[j].crashed == w.procs[j].crashed)
      && w'.track.Keys == w.track.Keys
  {
    StepKeepsKeys(w, k, returned, late);
    match w.procs[k].pc
    case Idle =>
    case Poll(_) =>
    case Popped(_, _) =>
    case CountEnqueued =>
    case Busy(s, t) =>
      BusyStepCrashesNobody(w, k, s, t, returned, late);
      BusyStepDescends(w, k, s, t, returned, late);
  }

  /** Each fair round does some work or leaves the system calm, so the rank runs out. */
  lemma {:induction false} RoundsDrain(w: World, rounds: seq<seq<Action>>, k: nat)
    requires Inv(w) && LogOk(w) && FairRounds(w, rounds) && k < |w.procs| && Live(RunRounds(w, rounds), k)
    requires Calm(w) || |rounds| > Rank(w)
    ensures Calm(RunRounds(w, rounds))
    decreases |rounds|
  {
    RankIsNatural(w);
    if rounds != [] {
      var w1 := Run(w, rounds[0]);
      RunRank(w, rounds[0]);
      NoSubmissionsNoWork(rounds[0]);
      RunKeepsCast(w, rounds[0]);
      RoundsKeepCast(w1, rounds[1..]);
      if Calm(w) {
        CalmStays(w, rounds[0]);
      } else if CountWorking(w, rounds[0]) == 0 {
        FruitlessMeansCalm(w, rounds[0], k);
      }
      RoundsDrain(w1, rounds[1..], k);
    }
  }

  /** A process that crashed with the task in its hands. */
  ghost predicate Stranded(w: World, id: TaskId) {
    exists k :: 0 <= k < |w.procs| && w.procs[k].crashed && Holds(w.procs[k].pc, id)
  }

  lemma CalmTask(w: World, id: TaskId)
    requires Inv(w) && Calm(w) && id in w.track
    ensures w.track[id].ok || IsDeadLettered(w.db, id) || (Stranded(w, id) && id in w.db.data)
  {
    assert IdOk(w, id);
    match w.track[id].place
    case Owned(k) => assert ProcOk(w, k);
    case _ =>
  }

  /** After any run, every fair schedule drains the queue within a number of rounds fixed by
      the submissions alone, though processes crash and start and processing keys expire
      before and meanwhile, as long as one process lives. Every task submitted has then
      succeeded, is dead-lettered, or is stuck, with its data, in the hands of a process that
      crashed; if none crashed nothing is stuck. */
  lemma {:induction false} FairRunsDrain(handlers: set<string>, before: seq<Action>, rounds: seq<seq<Action>>, k: nat)
    requires Legal(Initial(handlers), before) && FairRounds(Run(Initial(handlers), before), rounds)
    requires k < |Run(Initial(handlers), before).procs| && Live(RunRounds(Run(Initial(handlers), before), rounds), k)
    requires |rounds| > WorkAllowance(before)
    ensures var w := Run(Initial(handlers), before); var w' := RunRounds(w, rounds);
      && Calm(w') && w'.track.Keys == w.track.Keys
      && (forall id :: id in w.track ==>
            w'.track[id].ok || IsDeadLettered(w'.db, id) || (Stranded(w', id) && id in w'.db.data))
      && ((forall j :: 0 <= j < |w'.procs| ==> !w'.procs[j].crashed) ==>
            forall id :: id in w.track ==> (w'.track[id].ok <==> !IsDeadLettered(w'.db, id)))
  {
    InitialInv(handlers);
    var w := Run(Initial(handlers), before);
    RunRank(Initial(handlers), before);
    RoundsKeepCast(w, rounds);
    RoundsDrain(w, rounds, k);
    var w' := RunRounds(w, rounds);
    forall id | id in w.track
      ensures w'.track[id].ok || IsDeadLettered(w'.db, id) || (Stranded(w', id) && id in w'.db.data)
    {
      CalmTask(w', id);
    }
    if forall j :: 0 <= j < |w'.procs| ==> !w'.procs[j].crashed {
      QuietIsSettled(w');
    }
  }
}
