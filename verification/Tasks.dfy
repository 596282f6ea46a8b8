/** Tasks: the record that travels through the queue, its lifecycle transitions
    (internal/task/task.go) and the retry accounting that follows from them. */
module Tasks {

  datatype Option<+T> = None | Some(value: T)

  /** A task identifier. The text is only ever compared, never taken apart. */
  datatype TaskId = TaskId(text: string)

  /** Low = 0, Normal = 1, High = 2, Critical = 3. */
  type Priority = p: int | 0 <= p < 4 witness 0

  datatype State = Pending | Processing | Completed | Failed | Retrying | DeadLetter

  datatype Task = Task(
    id: TaskId,
    kind: string,
    payload: string,
    priority: Priority,
    state: State,
    maxRetries: int,
    retryCount: int,
    error: string)

  /** The part of a task that no attempt may change. */
  predicate SameJob(a: Task, b: Task) {
    && a.id == b.id && a.kind == b.kind && a.payload == b.payload
    && a.priority == b.priority && a.maxRetries == b.maxRetries
  }

  function Started(t: Task): Task { t.(state := Processing) }

  function Finished(t: Task): Task { t.(state := Completed) }

  predicate ShouldRetry(t: Task) { t.retryCount < t.maxRetries }

  /** MarkFailed: the retry decision is taken before the counter moves. */
  function AfterFailure(t: Task, message: string): Task {
    t.(error := message,
       retryCount := t.retryCount + 1,
       state := if ShouldRetry(t) then Retrying else DeadLetter)
  }

  function Decimal(n: nat): string {
    if n < 10 then [('0' as int + n) as char] else Decimal(n / 10) + Decimal(n % 10)
  }

  function DecimalValue(s: string): int {
    if s == "" then 0 else 10 * DecimalValue(s[..|s| - 1]) + (s[|s| - 1] as int - '0' as int)
  }

  /** The decimal text of a number reads back as the number, one digit per character. */
  lemma {:induction false} DecimalReadsBack(n: nat)
    ensures Decimal(n) != "" && DecimalValue(Decimal(n)) == n
    ensures forall i :: 0 <= i < |Decimal(n)| ==> '0' <= Decimal(n)[i] <= '9'
  {
    if n >= 10 {
      DecimalReadsBack(n / 10);
      assert Decimal(n)[..|Decimal(n)| - 1] == Decimal(n / 10);
    }
  }

  function LimitText(limit: int): string {
    if limit < 0 then "-" + Decimal(-limit) else Decimal(limit)
  }

  /** The reason handleTaskFailure gives to EnqueueDLQ. */
  function ExhaustedReason(t: Task): string {
    "Exceeded max retries (" + (LimitText(t.maxRetries) + ("). Last error: " + t.error))
  }

  lemma LimitReadsBack(limit: int)
    ensures var s := LimitText(limit);
      s != "" && ')' !in s && limit == (if s[0] == '-' then -DecimalValue(s[1..]) else DecimalValue(s))
  {
    DecimalReadsBack(if limit < 0 then -limit else limit);
    if limit < 0 { assert LimitText(limit)[1..] == Decimal(-limit); }
  }

  /** Where the first closing parenthesis stands. */
  function Closing(s: string): nat {
    if s == "" || s[0] == ')' then 0 else 1 + Closing(s[1..])
  }

  lemma {:induction false} ClosingAfter(x: string, rest: string)
    requires ')' !in x && rest != "" && rest[0] == ')'
    ensures Closing(x + rest) == |x|
  {
    if x == "" {
      assert x + rest == rest;
    } else {
      assert (x + rest)[1..] == x[1..] + rest;
      ClosingAfter(x[1..], rest);
    }
  }

  /** From the reason of a dead letter its retry limit and its last error can be told. */
  lemma ReasonIsUnambiguous(a: Task, b: Task)
    requires ExhaustedReason(a) == ExhaustedReason(b)
    ensures a.maxRetries == b.maxRetries && a.error == b.error
  {
    var head, middle := "Exceeded max retries (", "). Last error: ";
    var x, y := LimitText(a.maxRetries), LimitText(b.maxRetries);
    var p, q := x + (middle + a.error), y + (middle + b.error);
    assert p == ExhaustedReason(a)[|head|..] && q == ExhaustedReason(b)[|head|..];
    LimitReadsBack(a.maxRetries);
    LimitReadsBack(b.maxRetries);
    ClosingAfter(x, middle + a.error);
    ClosingAfter(y, middle + b.error);
    assert x == p[..|x|] && y == q[..|y|];
    assert a.error == p[|x| + |middle|..] && b.error == q[|y| + |middle|..];
  }

  /** The task as EnqueueDLQ serialises it; an empty reason keeps the old error. */
  function DeadLettered(t: Task, reason: string): Task {
    t.(state := DeadLetter, error := if reason == "" then t.error else reason)
  }

  /** How many executions a task may still get, counting the next one. */
  function Budget(t: Task): nat {
    if t.retryCount < t.maxRetries then t.maxRetries - t.retryCount + 1 else 1
  }

  /** The retry count a task carries once its budget is spent. */
  function FinalRetryCount(t: Task): int {
    (if t.retryCount < t.maxRetries then t.maxRetries else t.retryCount) + 1
  }

  /** A task whose successive attempts fail with these messages. */
  function AfterFailures(t: Task, messages: seq<string>): Task {
    if messages == [] then t
    else AfterFailure(AfterFailures(t, messages[..|messages| - 1]), messages[|messages| - 1])
  }

  /** A task that always fails is retried on every attempt but the last of its budget, and only
      that last attempt sends it to the dead letter state. It carries the last error. */
  lemma {:induction false} FailingRun(t: Task, messages: seq<string>)
    ensures var t', n := AfterFailures(t, messages), |messages|;
      && SameJob(t', t) && t'.retryCount == t.retryCount + n
      && (0 < n < Budget(t) ==> t'.state == Retrying)
      && (n >= Budget(t) ==> t'.state == DeadLetter)
      && (n == Budget(t) ==> t'.retryCount == FinalRetryCount(t))
      && t'.error == (if n == 0 then t.error else messages[n - 1])
  {
    if messages != [] {
      FailingRun(t, messages[..|messages| - 1]);
    }
  }

  /** The task as the worker holds it: an object its methods update in place. */
  class TaskObject {
    var value: Task

    constructor (t: Task)
      ensures value == t
    {
      value := t;
    }

    method MarkStarted()
      modifies this
      ensures value == Started(old(value)) == old(value).(state := Processing)
    {
      value := value.(state := Processing);
    }

    method MarkCompleted()
      modifies this
      ensures value == Finished(old(value)) == old(value).(state := Completed)
    {
      value := value.(state := Completed);
    }

    method MarkFailed(message: string)
      modifies this
      ensures value == AfterFailure(old(value), message)
      ensures SameJob(value, old(value)) && value.error == message && value.retryCount == old(value).retryCount + 1
      ensures value.state == if old(value).retryCount < value.maxRetries then Retrying else DeadLetter
    {
      value := value.(error := message);
      var shouldRetry := value.retryCount < value.maxRetries;
      value := value.(retryCount := value.retryCount + 1);
      if shouldRetry {
        value := value.(state := Retrying);
      } else {
        value := value.(state := DeadLetter);
      }
    }
  }
}
