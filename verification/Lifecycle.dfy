/** Start, run, Stop and Shutdown of a worker (internal/worker/worker.go:76-132, 353-397)
    as interleaved steps, for a worker that is started once. */
module Lifecycle {

  /** Start: set `running`, then WaitGroup.Add, then launch the run loop and return. */
  datatype StartPc = Unstarted | Marked | Added | StartReturned

  /** The run loop; its deferred calls clear `running` and then call WaitGroup.Done. */
  datatype LoopPc = NotLaunched | Looping | Leaving | Cleared | Gone

  /** A Stop or Shutdown call. Only Shutdown gives up waiting. */
  datatype CallPc = Entered | PastCheck | Waiting | Refused | GaveUp | ReturnedNil

  datatype Call = Call(pc: CallPc, canGiveUp: bool)

  datatype State = State(
    start: StartPc,
    running: bool,
    waitGroup: int,
    closes: nat,
    cancelled: bool,
    loop: LoopPc,
    calls: seq<Call>)

  const FRESH := State(Unstarted, false, 0, 0, false, NotLaunched, [])

  datatype Action =
    | StartStep
    | Cancel
    | LoopStep
    | NewCall(canGiveUp: bool)
    | CallStep(j: nat)
    | GiveUp(j: nat)

  predicate Enabled(s: State, a: Action) {
    match a
    case StartStep => s.start != StartReturned
    case Cancel => true
    case LoopStep => s.loop != NotLaunched && s.loop != Gone && (s.loop == Looping ==> s.cancelled || s.closes > 0)
    case NewCall(_) => true
    case CallStep(j) =>
      && j < |s.calls| && s.calls[j].pc in {Entered, PastCheck, Waiting}
      && (s.calls[j].pc == Waiting ==> s.waitGroup == 0)
    case GiveUp(j) => j < |s.calls| && s.calls[j].pc == Waiting && s.calls[j].canGiveUp
  }

  function SetCall(s: State, j: nat, pc: CallPc): State
    requires j < |s.calls|
  {
    s.(calls := s.calls[j := s.calls[j].(pc := pc)])
  }

  function Apply(s: State, a: Action): State
    requires Enabled(s, a)
  {
    match a
    case StartStep =>
      (match s.start
       case Unstarted => s.(start := Marked, running := true)
       case Marked => s.(start := Added, waitGroup := s.waitGroup + 1)
       case Added => s.(start := StartReturned, loop := Looping)
       case StartReturned => s)
    case Cancel => s.(cancelled := true)
    case LoopStep =>
      (match s.loop
       case Looping => s.(loop := Leaving)
       case Leaving => s.(loop := Cleared, running := false)
       case Cleared => s.(loop := Gone, waitGroup := s.waitGroup - 1)
       case _ => s)
    case NewCall(canGiveUp) => s.(calls := s.calls + [Call(Entered, canGiveUp)])
    case CallStep(j) =>
      (match s.calls[j].pc
       case Entered =>
         if s.running then SetCall(s.(running := false), j, PastCheck) else SetCall(s, j, Refused)
       case PastCheck => SetCall(s.(closes := s.closes + 1), j, Waiting)
       case Waiting => SetCall(s, j, ReturnedNil)
       case _ => s)
    case GiveUp(j) => SetCall(s, j, GaveUp)
  }

  predicate Legal(s: State, actions: seq<Action>)
    decreases |actions|
  {
    actions == [] || (Enabled(s, actions[0]) && Legal(Apply(s, actions[0]), actions[1..]))
  }

  function Run(s: State, actions: seq<Action>): State
    requires Legal(s, actions)
    decreases |actions|
  {
    if actions == [] then s else Run(Apply(s, actions[0]), actions[1..])
  }

  /** Every Stop or Shutdown is called after Start has returned. */
  predicate CallsAfterStart(s: State, actions: seq<Action>)
    requires Legal(s, actions)
    decreases |actions|
  {
    actions == [] ||
    ((actions[0].NewCall? ==> s.start == StartReturned) && CallsAfterStart(Apply(s, actions[0]), actions[1..]))
  }

  predicate Passed(pc: CallPc) { pc in {PastCheck, Waiting, GaveUp, ReturnedNil} }

  predicate Closed(pc: CallPc) { pc in {Waiting, GaveUp, ReturnedNil} }

  /** `winner` is the one call that found the worker running, if any. */
  ghost predicate Inv(s: State, winner: int) {
    && (forall j :: 0 <= j < |s.calls| && Passed(s.calls[j].pc) ==> j == winner)
    && (winner == -1 || (0 <= winner < |s.calls| && Passed(s.calls[winner].pc) && !s.running))
    && s.closes == (if winner != -1 && Closed(s.calls[winner].pc) then 1 else 0)
    && (s.start == Unstarted ==> winner == -1 && !s.running)
    && (s.start != StartReturned <==> s.loop == NotLaunched)
    && s.waitGroup == (if s.start == Added || s.loop in {Looping, Leaving, Cleared} then 1 else 0)
  }

  /** The extra fact that calls after Start give: a call that has returned nil found the
      run loop gone. */
  ghost predicate NilMeansGone(s: State) {
    && (s.start != StartReturned ==> s.calls == [])
    && (forall j :: 0 <= j < |s.calls| && s.calls[j].pc == ReturnedNil ==> s.loop == Gone)
  }

  lemma CallKeepsInv(s: State, j: nat, winner: int) returns (winner': int)
    requires Inv(s, winner) && Enabled(s, CallStep(j))
    ensures Inv(Apply(s, CallStep(j)), winner')
    ensures NilMeansGone(s) ==> NilMeansGone(Apply(s, CallStep(j)))
  {
    winner' := if s.calls[j].pc == Entered && s.running then j else winner;
  }

  lemma OtherKeepsInv(s: State, a: Action, winner: int)
    requires Inv(s, winner) && Enabled(s, a) && !a.CallStep?
    ensures Inv(Apply(s, a), winner)
    ensures NilMeansGone(s) && (a.NewCall? ==> s.start == StartReturned) ==> NilMeansGone(Apply(s, a))
  {
  }

  lemma ActionKeepsInv(s: State, a: Action, winner: int) returns (winner': int)
    requires Inv(s, winner) && Enabled(s, a)
    ensures Inv(Apply(s, a), winner')
    ensures NilMeansGone(s) && (a.NewCall? ==> s.start == StartReturned) ==> NilMeansGone(Apply(s, a))
  {
    if a.CallStep? {
      winner' := CallKeepsInv(s, a.j, winner);
    } else {
      winner' := winner;
      OtherKeepsInv(s, a, winner);
    }
  }

  lemma {:induction false} RunKeepsInv(s: State, actions: seq<Action>, winner: int) returns (winner': int)
    requires Inv(s, winner) && Legal(s, actions)
    ensures Inv(Run(s, actions), winner')
    ensures NilMeansGone(s) && CallsAfterStart(s, actions) ==> NilMeansGone(Run(s, actions))
    decreases |actions|
  {
    winner' := winner;
    if actions != [] {
      var next := ActionKeepsInv(s, actions[0], winner);
      winner' := RunKeepsInv(Apply(s, actions[0]), actions[1..], next);
    }
  }

  /** In every run the shutdown channel is closed at most once, at most one call gets past
      the running check, and the WaitGroup never goes negative. */
  lemma {:induction false} AtMostOneClose(actions: seq<Action>)
    requires Legal(FRESH, actions)
    ensures var s := Run(FRESH, actions);
      && s.closes <= 1 && s.waitGroup >= 0
      && forall i, j ::
           0 <= i < |s.calls| && 0 <= j < |s.calls| && Passed(s.calls[i].pc) && Passed(s.calls[j].pc) ==> i == j
  {
    var _ := RunKeepsInv(FRESH, actions, -1);
  }

  /** If every call is made after Start returned, a nil return means the loop has exited. */
  lemma {:induction false} NilReturnMeansExited(actions: seq<Action>, j: nat)
    requires Legal(FRESH, actions) && CallsAfterStart(FRESH, actions)
    requires j < |Run(FRESH, actions).calls| && Run(FRESH, actions).calls[j].pc == ReturnedNil
    ensures Run(FRESH, actions).loop == Gone
  {
    var _ := RunKeepsInv(FRESH, actions, -1);
  }

  /** With calls at any time: a call about to return nil finds the run loop gone if and only
      if Start has returned by then. */
  lemma {:induction false} NilReturnIsSound(actions: seq<Action>, j: nat)
    requires Legal(FRESH, actions) && Enabled(Run(FRESH, actions), CallStep(j))
    requires Run(FRESH, actions).calls[j].pc == Waiting
    ensures Run(FRESH, actions).loop == Gone <==> Run(FRESH, actions).start == StartReturned
  {
    var _ := RunKeepsInv(FRESH, actions, -1);
  }

  /** It can come too soon: a Stop that slips in between `running = true` and
      WaitGroup.Add waits for nothing, returns nil, and the loop is launched afterwards. */
  lemma EarlyStopReturnsTooSoon()
    ensures var actions := [StartStep, NewCall(false), CallStep(0), CallStep(0), CallStep(0), StartStep, StartStep];
      && Legal(FRESH, actions) && !CallsAfterStart(FRESH, actions)
      && Run(FRESH, actions).calls[0].pc == ReturnedNil && Run(FRESH, actions).loop == Looping
  {
  }
}
