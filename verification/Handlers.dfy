/** Handler registry (internal/task/handler.go) and the worker's executeTask
    (internal/worker/worker.go:272-350), which turns the registry's answer into the
    stored result and the error that drives the retry logic. */
module Handlers {
  import opened Tasks

  /** What a registered handler can do with a payload. */
  datatype HandlerReturn =
    | Output(bytes: string)
    | Error(message: string)
    | Unmarshalable(message: string)

  datatype Result = Result(taskId: TaskId, success: bool, output: string, error: string)

  /** Execute returns a result, an error, or both. */
  datatype Answer = Answer(result: Option<Result>, err: Option<string>)

  /** What executeTask leaves behind: the result it saves and the error it returns. */
  datatype Verdict = Verdict(saved: Option<Result>, err: Option<string>)

  class Registry {
    var handlers: map<string, string -> HandlerReturn>

    constructor ()
      ensures handlers == map[]
    {
      handlers := map[];
    }

    method Register(kind: string, handler: string -> HandlerReturn) returns (ok: bool)
      modifies this
      ensures ok <==> kind !in old(handlers)
      ensures handlers == if ok then old(handlers)[kind := handler] else old(handlers)
    {
      if kind in handlers {
        return false;
      }
      handlers := handlers[kind := handler];
      return true;
    }

    /** The handler of the task's kind is called on its payload, and what it returns decides. */
    method Execute(t: Task) returns (a: Answer)
      ensures a == Answered(handlers, t)
      ensures t.kind !in handlers ==> a.result.None? && a.err == Some(NoHandlerText(t.kind))
      ensures t.kind in handlers ==> a.result.Some? && a.result.value.taskId == t.id
      ensures t.kind in handlers ==>
        match handlers[t.kind](t.payload)
        case Output(bytes) => a.err.None? && a.result.value.success && a.result.value.output == bytes
        case Error(message) => a.err == Some(message) && !a.result.value.success && a.result.value.error == message
        case Unmarshalable(message) => a.err == Some(message) && !a.result.value.success
    {
      if t.kind !in handlers {
        return NoHandler(t);
      }
      var returned := handlers[t.kind](t.payload);
      match returned {
        case Error(message) =>
          a := Answer(Some(Result(t.id, false, "", message)), Some(message));
        case Unmarshalable(message) =>
          a := Answer(Some(Result(t.id, false, "", "failed to marshal output: " + message)), Some(message));
        case Output(bytes) =>
          a := Answer(Some(Result(t.id, true, bytes, "")), None);
      }
    }
  }

  function NoHandlerText(kind: string): string { "no handler registered for task type '" + kind + "'" }

  function NoHandler(t: Task): Answer {
    Answer(None, Some(NoHandlerText(t.kind)))
  }

  function Answered(handlers: map<string, string -> HandlerReturn>, t: Task): Answer {
    if t.kind in handlers then AnswerOf(t, handlers[t.kind](t.payload)) else NoHandler(t)
  }

  function AnswerOf(t: Task, returned: HandlerReturn): Answer {
    match returned
    case Error(message) => Answer(Some(Result(t.id, false, "", message)), Some(message))
    case Unmarshalable(message) =>
      Answer(Some(Result(t.id, false, "", "failed to marshal output: " + message)), Some(message))
    case Output(bytes) => Answer(Some(Result(t.id, true, bytes, "")), None)
  }

  const TIMED_OUT := "task timed out"

  /** executeTask after the registry has answered; `late` says the deadline has passed.
      The last branch is the "result not successful but no error" check. */
  function ExecuteVerdict(t: Task, a: Answer, late: bool): Verdict {
    if a.err.Some? then
      if late then Verdict(Some(Result(t.id, false, "", TIMED_OUT)), Some(TIMED_OUT))
      else Verdict(a.result, a.err)
    else if a.result.Some? && !a.result.value.success then
      Verdict(a.result, Some("task execution failed: " + a.result.value.error))
    else
      Verdict(a.result, None)
  }

  // ---------------------------------------------- what an attempt comes to

  /** What one attempt met: the handler's return, and whether the deadline had passed. */
  datatype Tried = Tried(returned: HandlerReturn, late: bool)

  /** The error of an attempt at a task of this kind, if it failed. */
  function AttemptError(kind: string, handled: bool, tried: Tried): Option<string> {
    if handled && tried.returned.Output? then None
    else if tried.late then Some(TIMED_OUT)
    else if !handled then Some(NoHandlerText(kind))
    else Some(tried.returned.message)
  }

  /** The result an attempt leaves in storage. */
  function AttemptResult(id: TaskId, handled: bool, tried: Tried): Option<Result> {
    if handled && tried.returned.Output? then Some(Result(id, true, tried.returned.bytes, ""))
    else if tried.late then Some(Result(id, false, "", TIMED_OUT))
    else if !handled then None
    else if tried.returned.Error? then Some(Result(id, false, "", tried.returned.message))
    else Some(Result(id, false, "", "failed to marshal output: " + tried.returned.message))
  }

  /** executeTask reports exactly that. */
  lemma VerdictOfAttempt(t: Task, handled: bool, tried: Tried)
    ensures ExecuteVerdict(t, if handled then AnswerOf(t, tried.returned) else NoHandler(t), tried.late) ==
      Verdict(AttemptResult(t.id, handled, tried), AttemptError(t.kind, handled, tried))
  {
  }

  /** For every registry, task and deadline: the returned error decides everything.
      No error means a saved successful result of this task; an error means a saved
      failing result, unless the kind has no handler and the deadline has not passed.
      So the "not successful but no error" branch is never taken. */
  lemma VerdictFollowsError(handlers: map<string, string -> HandlerReturn>, t: Task, late: bool)
    ensures var a := Answered(handlers, t); var v := ExecuteVerdict(t, a, late);
      && (v.err.None? <==> a.err.None?)
      && (v.err.None? ==> v.saved.Some? && v.saved.value.success)
      && (v.err.Some? ==> (v.saved.None? <==> t.kind !in handlers && !late))
      && (v.saved.Some? ==> v.saved.value.taskId == t.id && (v.saved.value.success <==> v.err.None?))
      && !(a.err.None? && a.result.Some? && !a.result.value.success)
  {
  }

  /** Which error, and which output: a task fails exactly if its kind has no handler or its
      handler, called on the payload, returns no usable output. The error is then the timeout
      if the deadline has passed, and otherwise the handler's own message, or says that there is
      no handler. A successful result carries the handler's output. */
  lemma VerdictNamesTheError(handlers: map<string, string -> HandlerReturn>, t: Task, late: bool)
    ensures var v := ExecuteVerdict(t, Answered(handlers, t), late);
      if t.kind !in handlers then v.err == Some(if late then TIMED_OUT else NoHandlerText(t.kind))
      else match handlers[t.kind](t.payload)
        case Output(bytes) => v.err.None? && v.saved.Some? && v.saved.value.output == bytes
        case Error(message) =>
          && v.err == Some(if late then TIMED_OUT else message)
          && v.saved.Some? && v.saved.value.error == v.err.value && v.saved.value.output == ""
        case Unmarshalable(message) =>
          && v.err == Some(if late then TIMED_OUT else message)
          && v.saved.Some? && v.saved.value.output == ""
  {
  }

  /** So a failure is reported as a timeout if and only if the deadline has passed, as long as
      no handler fails with that very text itself. */
  lemma TimeoutMeansLate(handlers: map<string, string -> HandlerReturn>, t: Task, late: bool)
    requires t.kind in handlers ==> var r := handlers[t.kind](t.payload); !r.Output? ==> r.message != TIMED_OUT
    ensures var v := ExecuteVerdict(t, Answered(handlers, t), late);
      v.err.Some? ==> (v.err.value == TIMED_OUT <==> late)
  {
    assert NoHandlerText(t.kind)[0] == 'n';
    VerdictNamesTheError(handlers, t, late);
  }
}
