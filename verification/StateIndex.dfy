/** RedisStorage (internal/storage/redis_store.go): task records and, beside them, one set
    of identifiers per state. Each call is several Redis commands. */
module StateIndex {
  import opened Tasks
  import Redis

  type Network = Redis.Network

  /** `index` holds (s, id) when id is a member of the set of state s. */
  datatype Store = Store(
    records: map<TaskId, Task>,
    index: set<(State, TaskId)>,
    results: set<TaskId>)

  const EMPTY_STORE := Store(map[], {}, {})

  /** Records are filed under the identifier they carry. */
  ghost predicate Keyed(s: Store) {
    forall id :: id in s.records ==> s.records[id].id == id
  }

  ghost predicate Complete(s: Store) {
    forall id :: id in s.records ==> (s.records[id].state, id) in s.index
  }

  ghost predicate Exact(s: Store) {
    forall state: State, id: TaskId :: (state, id) in s.index <==> id in s.records && s.records[id].state == state
  }

  function Recorded(s: Store, t: Task): Store { s.(records := s.records[t.id := t]) }

  function Indexed(s: Store, state: State, id: TaskId): Store { s.(index := s.index + {(state, id)}) }

  function Unindexed(s: Store, state: State, id: TaskId): Store { s.(index := s.index - {(state, id)}) }

  function Unrecorded(s: Store, id: TaskId): Store { s.(records := s.records - {id}) }

  // -------------------------------------------------- calls without interference

  function Saved(s: Store, t: Task): Store { Indexed(Recorded(s, t), t.state, t.id) }

  function Updated(s: Store, id: TaskId, state: State): Store {
    if id !in s.records then s
    else Saved(Unindexed(s, s.records[id].state, id), s.records[id].(state := state))
  }

  function Deleted(s: Store, id: TaskId): Store {
    if id !in s.records then s
    else
      var s1 := Unrecorded(Unindexed(s, s.records[id].state, id), id);
      s1.(results := s1.results - {id})
  }

  function Members(s: Store, state: State): set<TaskId> {
    set pair | pair in s.index && pair.0 == state :: pair.1
  }

  // -------------------------------------------------- calls with failing commands

  datatype Outcome = Outcome(store: Store, ok: bool)

  /** SET and SADD, numbered from c. */
  function SavedBy(s: Store, t: Task, up: Network, c: nat): Outcome {
    if t.id.text == "" || !up(c) then Outcome(s, false)
    else if !up(c + 1) then Outcome(Recorded(s, t), false)
    else Outcome(Saved(s, t), true)
  }

  /** GET succeeds and what it returns decodes. */
  predicate Readable(s: Store, id: TaskId, up: Network, bad: set<TaskId>) {
    id.text != "" && up(0) && id in s.records && id !in bad
  }

  /** GET, SREM (whose error is ignored), SET, SADD. */
  function UpdatedBy(s: Store, id: TaskId, state: State, up: Network, bad: set<TaskId>): Outcome {
    if !Readable(s, id, up, bad) then Outcome(s, false)
    else
      var s1 := if up(1) then Unindexed(s, s.records[id].state, id) else s;
      SavedBy(s1, s.records[id].(state := state), up, 2)
  }

  /** GET, SREM, DEL, DEL of the result; only the first DEL and the GET report their errors. */
  function DeletedBy(s: Store, id: TaskId, up: Network, bad: set<TaskId>): Outcome {
    if !Readable(s, id, up, bad) then Outcome(s, false)
    else
      var s1 := if up(1) then Unindexed(s, s.records[id].state, id) else s;
      if !up(2) then Outcome(s1, false)
      else
        var s2 := Unrecorded(s1, id);
        Outcome(if up(3) then s2.(results := s2.results - {id}) else s2, true)
  }

  class Storage {
    var s: Store

    constructor ()
      ensures s == EMPTY_STORE
    {
      s := EMPTY_STORE;
    }

    method SaveTask(t: Task, up: Network, c: nat := 0) returns (ok: bool)
      modifies this
      ensures Outcome(s, ok) == SavedBy(old(s), t, up, c)
    {
      if t.id.text == "" { return false; }
      if !up(c) { return false; }
      s := Recorded(s, t);
      if !up(c + 1) { return false; }
      s := Indexed(s, t.state, t.id);
      return true;
    }

    method GetTask(id: TaskId, up: Network, bad: set<TaskId>) returns (r: Option<Task>)
      ensures r.Some? <==> id.text != "" && up(0) && id in s.records && id !in bad
      ensures r.Some? ==> r.value == s.records[id]
    {
      if id.text == "" || !up(0) || id !in s.records || id in bad { return None; }
      return Some(s.records[id]);
    }

    method UpdateTaskState(id: TaskId, state: State, up: Network, bad: set<TaskId>) returns (ok: bool)
      modifies this
      ensures Outcome(s, ok) == UpdatedBy(old(s), id, state, up, bad)
    {
      var found := GetTask(id, up, bad);
      if found.None? { return false; }
      if up(1) { s := Unindexed(s, found.value.state, id); }
      ok := SaveTask(found.value.(state := state), up, 2);
    }

    method DeleteTask(id: TaskId, up: Network, bad: set<TaskId>) returns (ok: bool)
      modifies this
      ensures Outcome(s, ok) == DeletedBy(old(s), id, up, bad)
    {
      var found := GetTask(id, up, bad);
      if found.None? { return false; }
      if up(1) { s := Unindexed(s, found.value.state, id); }
      if !up(2) { return false; }
      s := Unrecorded(s, id);
      if up(3) { s := s.(results := s.results - {id}); }
      return true;
    }

    /** `picked` is what the server answers: all members, or a random choice of `limit` of
        them; `lost` are those of them that cannot be read. The records of the others that
        still exist come back, each once. */
    method GetTasksByState(state: State, limit: int, up: bool, picked: set<TaskId>, lost: set<TaskId>)
      returns (r: Option<seq<Task>>)
      requires Keyed(s) && picked <= Members(s, state)
      requires limit <= 0 ==> picked == Members(s, state)
      requires limit > 0 ==> |picked| == if limit < |Members(s, state)| then limit else |Members(s, state)|
      ensures r.Some? <==> up
      ensures up ==> forall id :: id in picked - lost && id in s.records && id.text != "" ==> s.records[id] in r.value
      ensures up ==> forall t :: t in r.value ==> t.id in picked - lost && t.id in s.records && t == s.records[t.id]
      ensures up ==> forall i, j :: 0 <= i < j < |r.value| ==> r.value[i].id != r.value[j].id
      ensures up && limit <= 0 && lost == {} && Complete(s) ==>
        forall id :: id in s.records && id.text != "" && s.records[id].state == state ==> s.records[id] in r.value
      ensures up && Exact(s) ==> forall t :: t in r.value ==> t.state == state
    {
      if !up { return None; }
      var tasks: seq<Task> := [];
      var todo := picked;
      while todo != {}
        invariant todo <= picked
        invariant forall id ::
          id in picked - lost && id !in todo && id in s.records && id.text != "" ==> s.records[id] in tasks
        invariant forall t :: t in tasks ==> t.id in picked - lost - todo && t.id in s.records && t == s.records[t.id]
        invariant forall i, j :: 0 <= i < j < |tasks| ==> tasks[i].id != tasks[j].id
        decreases |todo|
      {
        var id :| id in todo;
        todo := todo - {id};
        var found := GetTask(id, (n: nat) => true, lost);
        if found.Some? {
          tasks := tasks + [found.value];
        }
      }
      MembersOfComplete(s, state);
      MembersOfExact(s, state);
      return Some(tasks);
    }
  }

  lemma MembersOfExact(s: Store, state: State)
    ensures Exact(s) ==> forall id :: id in Members(s, state) ==> id in s.records && s.records[id].state == state
  {
  }

  // ------------------------------------------------------------ what is read back

  /** The record of id is as before. */
  predicate SameRecord(s: Store, s': Store, id: TaskId) {
    (id in s'.records <==> id in s.records) && (id in s.records ==> s'.records[id] == s.records[id])
  }

  /** What SaveTask reports as saved, GetTask reads back, under its state and every other state
      it was under before; a SaveTask that failed leaves the old record or the new one, and no
      other record is touched. */
  lemma SavedReadsBack(s: Store, t: Task, up: Network, id: TaskId)
    ensures var r := SavedBy(s, t, up, 0);
      && (r.ok <==> t.id.text != "" && up(0) && up(1))
      && (r.ok ==> t.id in r.store.records && r.store.records[t.id] == t && t.id in Members(r.store, t.state))
      && (!r.ok ==> SameRecord(s, r.store, t.id) || (t.id in r.store.records && r.store.records[t.id] == t))
      && (id != t.id ==> SameRecord(s, r.store, id)) && r.store.results == s.results
      && s.index <= r.store.index <= s.index + {(t.state, t.id)}
  {
    var r := SavedBy(s, t, up, 0);
    assert r.ok ==> (t.state, t.id) in r.store.index;
  }

  /** What UpdateTaskState reports as updated has its state changed and nothing else. */
  lemma UpdatedReadsBack(s: Store, id: TaskId, state: State, up: Network, bad: set<TaskId>, other: TaskId)
    requires Keyed(s)
    ensures var r := UpdatedBy(s, id, state, up, bad);
      && (r.ok ==> id in s.records && id in r.store.records && r.store.records[id] == s.records[id].(state := state))
      && (r.ok ==> id in Members(r.store, state))
      && (r.ok && up(1) && s.records[id].state != state ==> id !in Members(r.store, s.records[id].state))
      && (r.ok || SameRecord(s, r.store, id)
          || (id in s.records && id in r.store.records && r.store.records[id] == s.records[id].(state := state)))
      && (other != id ==> SameRecord(s, r.store, other)) && r.store.results == s.results
  {
    var r := UpdatedBy(s, id, state, up, bad);
    assert r.ok ==> (state, id) in r.store.index;
  }

  /** What DeleteTask reports as deleted is gone, with its index entry and its result when those
      commands got through; one that failed keeps the record. */
  lemma DeletedIsGone(s: Store, id: TaskId, up: Network, bad: set<TaskId>, other: TaskId)
    ensures var r := DeletedBy(s, id, up, bad);
      && (r.ok ==> id in s.records && id !in r.store.records)
      && (r.ok && up(1) ==> id !in Members(r.store, s.records[id].state))
      && (r.ok && up(3) ==> id !in r.store.results)
      && (!r.ok ==> SameRecord(s, r.store, id) && r.store.results == s.results)
      && (other != id ==> SameRecord(s, r.store, other) && (other in r.store.results <==> other in s.results))
  {
  }

  /** When every command gets through, these are the calls without faults. */
  lemma WithoutFaults(s: Store, t: Task, id: TaskId, state: State, up: Network)
    requires Keyed(s) && (forall n: nat :: up(n)) && t.id.text != "" && id.text != ""
    ensures SavedBy(s, t, up, 0) == Outcome(Saved(s, t), true)
    ensures UpdatedBy(s, id, state, up, {}) == Outcome(Updated(s, id, state), id in s.records)
    ensures DeletedBy(s, id, up, {}) == Outcome(Deleted(s, id), id in s.records)
  {
  }

  /** A SaveTask keeps the index complete unless its SET got through and its SADD did not,
      with the task not yet in that set. */
  lemma SaveKeepsComplete(s: Store, t: Task, up: Network)
    requires Complete(s) && t.id.text != ""
    ensures Complete(SavedBy(s, t, up, 0).store) <==> !up(0) || up(1) || (t.state, t.id) in s.index
  {
    if up(0) && !up(1) {
      assert t.id in SavedBy(s, t, up, 0).store.records;
    }
  }

  /** An UpdateTaskState that found the task keeps the index complete if and only if, when its
      SET failed, its SREM failed as well, and otherwise its SADD got through or the task is
      in the new set already and stays there. */
  lemma UpdateKeepsComplete(s: Store, id: TaskId, state: State, up: Network, bad: set<TaskId>)
    requires Complete(s) && Keyed(s) && Readable(s, id, up, bad)
    ensures Complete(UpdatedBy(s, id, state, up, bad).store) <==>
      if !up(2) then !up(1)
      else up(3) || ((state, id) in s.index && !(up(1) && s.records[id].state == state))
  {
    var s' := UpdatedBy(s, id, state, up, bad).store;
    assert id in s'.records;
    assert (s.records[id].state, id) in s.index;
  }

  /** A DeleteTask that found the task keeps it complete unless it took the task out of the
      index and then failed to delete it. */
  lemma DeleteKeepsComplete(s: Store, id: TaskId, up: Network, bad: set<TaskId>)
    requires Complete(s) && Readable(s, id, up, bad)
    ensures Complete(DeletedBy(s, id, up, bad).store) <==> up(2) || !up(1)
  {
    var s' := DeletedBy(s, id, up, bad).store;
    if !up(2) && up(1) {
      assert id in s'.records;
    }
  }

  lemma MembersOfComplete(s: Store, state: State)
    ensures Complete(s) ==> forall id :: id in s.records && s.records[id].state == state ==> id in Members(s, state)
  {
  }

  // ------------------------------------------------------------- exactness

  /** SaveTask adds to the new state's set and never leaves the old one: on an exact index
      it stays exact exactly when the task is new or keeps its state. */
  lemma SaveKeepsExact(s: Store, t: Task)
    requires Exact(s)
    ensures Exact(Saved(s, t)) <==> t.id !in s.records || s.records[t.id].state == t.state
  {
    var s' := Saved(s, t);
    if t.id in s.records && s.records[t.id].state != t.state {
      assert (s.records[t.id].state, t.id) in s'.index;
    }
  }

  lemma UpdateKeepsExact(s: Store, id: TaskId, state: State)
    requires Exact(s) && Keyed(s)
    ensures Exact(Updated(s, id, state))
  {
  }

  lemma DeleteKeepsExact(s: Store, id: TaskId)
    requires Exact(s)
    ensures Exact(Deleted(s, id))
  {
  }

  /** An expired record leaves its index entry behind. */
  lemma ExpiryKeepsExact(s: Store, id: TaskId)
    requires Exact(s)
    ensures Exact(Unrecorded(s, id)) <==> id !in s.records
  {
    if id in s.records {
      assert (s.records[id].state, id) in s.index;
    }
  }

  datatype Op = SaveOp(t: Task) | UpdateOp(id: TaskId, state: State) | DeleteOp(id: TaskId)

  function CallAlone(s: Store, op: Op): Store {
    match op
    case SaveOp(t) => Saved(s, t)
    case UpdateOp(id, state) => Updated(s, id, state)
    case DeleteOp(id) => Deleted(s, id)
  }

  function CallsAlone(s: Store, ops: seq<Op>): Store
    decreases |ops|
  {
    if ops == [] then s else CallsAlone(CallAlone(s, ops[0]), ops[1..])
  }

  /** No call saves a stored task into another state. */
  predicate NeverMovesBySave(s: Store, ops: seq<Op>)
    decreases |ops|
  {
    ops == [] ||
    (&& (ops[0].SaveOp? && ops[0].t.id in s.records ==> s.records[ops[0].t.id].state == ops[0].t.state)
     && NeverMovesBySave(CallAlone(s, ops[0]), ops[1..]))
  }

  lemma {:induction false} SequentialHistoryIsExact(s: Store, ops: seq<Op>)
    requires Exact(s) && Keyed(s)
    requires NeverMovesBySave(s, ops)
    ensures Exact(CallsAlone(s, ops))
    decreases |ops|
  {
    if ops != [] {
      match ops[0] {
        case SaveOp(t) => SaveKeepsExact(s, t);
        case UpdateOp(id, state) => UpdateKeepsExact(s, id, state);
        case DeleteOp(id) => DeleteKeepsExact(s, id);
      }
      SequentialHistoryIsExact(CallAlone(s, ops[0]), ops[1..]);
    }
  }

  /** The worker's own saves, processing and then completed, leave the task listed under both. */
  lemma WorkerPathIsNotExact(s: Store, t: Task)
    requires Exact(s) && t.id !in s.records
    ensures var s' := Saved(Saved(s, Started(t)), Finished(t));
      Complete(s') && t.id in Members(s', Processing) && t.id in Members(s', Completed) && !Exact(s')
  {
  }

  // ----------------------------------------- calls interleaved command by command

  /** What a call does next. */
  datatype Pc =
    | Begin(op: Op)
    | RemoveForUpdate(t: Task, state: State)
    | RemoveForDelete(t: Task)
    | Write(t: Task)
    | Add(t: Task)
    | Erase(id: TaskId)
    | EraseResult(id: TaskId)
    | Over

  datatype System = System(s: Store, calls: seq<Pc>)

  datatype Action =
    | Call(op: Op)
    | Step(j: nat)
    | ExpireRecord(id: TaskId)
    | SaveResult(id: TaskId)
    | ExpireResult(id: TaskId)

  predicate Enabled(y: System, a: Action) {
    a.Step? ==> a.j < |y.calls|
  }

  datatype After = After(s: Store, pc: Pc)

  /** One command of a call. */
  function Command(s: Store, pc: Pc): After {
    match pc
    case Begin(op) =>
      (match op
       case SaveOp(t) => After(Recorded(s, t), Add(t))
       case UpdateOp(id, state) =>
         if id in s.records then After(s, RemoveForUpdate(s.records[id], state)) else After(s, Over)
       case DeleteOp(id) =>
         if id in s.records then After(s, RemoveForDelete(s.records[id])) else After(s, Over))
    case RemoveForUpdate(t, state) => After(Unindexed(s, t.state, t.id), Write(t.(state := state)))
    case RemoveForDelete(t) => After(Unindexed(s, t.state, t.id), Erase(t.id))
    case Write(t) => After(Recorded(s, t), Add(t))
    case Add(t) => After(Indexed(s, t.state, t.id), Over)
    case Erase(id) => After(Unrecorded(s, id), EraseResult(id))
    case EraseResult(id) => After(s.(results := s.results - {id}), Over)
    case Over => After(s, Over)
  }

  function CommandsLeft(pc: Pc): nat {
    match pc
    case Begin(_) => 4
    case RemoveForUpdate(_, _) => 3
    case RemoveForDelete(_) => 3
    case Write(_) => 2
    case Erase(_) => 2
    case Add(_) => 1
    case EraseResult(_) => 1
    case Over => 0
  }

  /** The rest of a call with nobody else moving. */
  function Undisturbed(s: Store, pc: Pc): Store
    decreases CommandsLeft(pc)
  {
    if pc == Over then s else Undisturbed(Command(s, pc).s, Command(s, pc).pc)
  }

  /** Command by command, an undisturbed call does what the sequential method does. */
  lemma UndisturbedIsAlone(s: Store, op: Op)
    requires Keyed(s)
    ensures Undisturbed(s, Begin(op)) == CallAlone(s, op)
  {
    var r1 := Command(s, Begin(op));
    var r2 := Command(r1.s, r1.pc);
    var r3 := Command(r2.s, r2.pc);
    var r4 := Command(r3.s, r3.pc);
    assert Undisturbed(r3.s, r3.pc) == r4.s;
    assert Undisturbed(r2.s, r2.pc) == Undisturbed(r3.s, r3.pc);
  }

  function Apply(y: System, a: Action): System
    requires Enabled(y, a)
  {
    match a
    case Call(op) => y.(calls := y.calls + [Begin(op)])
    case Step(j) => var r := Command(y.s, y.calls[j]); System(r.s, y.calls[j := r.pc])
    case ExpireRecord(id) => y.(s := Unrecorded(y.s, id))
    case SaveResult(id) => y.(s := y.s.(results := y.s.results + {id}))
    case ExpireResult(id) => y.(s := y.s.(results := y.s.results - {id}))
  }

  predicate Legal(y: System, actions: seq<Action>)
    decreases |actions|
  {
    actions == [] || (Enabled(y, actions[0]) && Legal(Apply(y, actions[0]), actions[1..]))
  }

  function Run(y: System, actions: seq<Action>): System
    requires Legal(y, actions)
    decreases |actions|
  {
    if actions == [] then y else Run(Apply(y, actions[0]), actions[1..])
  }

  /** The call still has to write, erase or index this record. */
  predicate Owes(pc: Pc, id: TaskId, state: State) {
    match pc
    case Write(t) => t.id == id
    case Erase(x) => x == id
    case Add(t) => t.id == id && t.state == state
    case _ => false
  }

  /** A stored task is in the set of its state, or some half-done call on it will see to it. */
  ghost predicate Covered(y: System, id: TaskId)
    requires id in y.s.records
  {
    || (y.s.records[id].state, id) in y.s.index
    || exists j :: 0 <= j < |y.calls| && Owes(y.calls[j], id, y.s.records[id].state)
  }

  ghost predicate Inv(y: System) {
    forall id :: id in y.s.records ==> Covered(y, id)
  }

  lemma StepCovers(y: System, j: nat, id: TaskId)
    requires Inv(y) && j < |y.calls| && id in Apply(y, Step(j)).s.records
    ensures Covered(Apply(y, Step(j)), id)
  {
    var y' := Apply(y, Step(j));
    if id in y.s.records && y'.s.records[id] == y.s.records[id] {
      assert Covered(y, id);
      if (y.s.records[id].state, id) !in y.s.index {
        var i :| 0 <= i < |y.calls| && Owes(y.calls[i], id, y.s.records[id].state);
        if i != j {
          assert Owes(y'.calls[i], id, y'.s.records[id].state);
        } else {
          assert y.calls[i].Add? || Owes(y'.calls[i], id, y'.s.records[id].state);
        }
      } else if (y'.s.records[id].state, id) !in y'.s.index {
        assert Owes(y'.calls[j], id, y'.s.records[id].state);
      }
    } else {
      assert Owes(y'.calls[j], id, y'.s.records[id].state);
    }
  }

  lemma ActionKeepsInv(y: System, a: Action)
    requires Inv(y) && Enabled(y, a)
    ensures Inv(Apply(y, a))
  {
    var y' := Apply(y, a);
    forall id | id in y'.s.records
      ensures Covered(y', id)
    {
      if a.Step? {
        StepCovers(y, a.j, id);
      } else {
        assert Covered(y, id);
        if (y.s.records[id].state, id) !in y.s.index {
          var i :| 0 <= i < |y.calls| && Owes(y.calls[i], id, y.s.records[id].state);
          assert y'.calls[i] == y.calls[i];
        }
      }
    }
  }

  lemma {:induction false} RunKeepsInv(y: System, actions: seq<Action>)
    requires Inv(y) && Legal(y, actions)
    ensures Inv(Run(y, actions))
    decreases |actions|
  {
    if actions != [] {
      ActionKeepsInv(y, actions[0]);
      RunKeepsInv(Apply(y, actions[0]), actions[1..]);
    }
  }

  const START := System(EMPTY_STORE, [])

  /** In every interleaving a stored task missing from its state's set has a half-done call. */
  lemma {:induction false} MissingMeansHalfDone(actions: seq<Action>, id: TaskId)
    requires Legal(START, actions)
    ensures var y := Run(START, actions);
      id in y.s.records && (y.s.records[id].state, id) !in y.s.index ==>
        exists j :: 0 <= j < |y.calls| && Owes(y.calls[j], id, y.s.records[id].state)
  {
    RunKeepsInv(START, actions);
    var y := Run(START, actions);
    if id in y.s.records {
      assert Covered(y, id);
    }
  }

  /** Whenever no call is half done, the index is complete. */
  lemma {:induction false} QuietIndexIsComplete(actions: seq<Action>)
    requires Legal(START, actions)
    requires forall j :: 0 <= j < |Run(START, actions).calls| ==> Run(START, actions).calls[j] == Over
    ensures Complete(Run(START, actions).s)
  {
    var y := Run(START, actions);
    forall id | id in y.s.records ensures (y.s.records[id].state, id) in y.s.index {
      MissingMeansHalfDone(actions, id);
    }
  }
}
