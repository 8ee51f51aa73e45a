/** The legacy Celery task-status adapter: given a task id and what the queue
    reports for it (a state string and the stored result), it builds the
    status envelope returned to a polling client and the HTTP status code.
    The queue lookup itself and the JSON rendering are outside the model: the
    observed record is an input, the envelope is a value. */
module V1CeleryTask {
  import opened Results
  import opened PyValues

  const SUCCESS := "SUCCESS"
  const FAILURE := "FAILURE"
  const PENDING := "PENDING"
  const STARTED := "STARTED"
  /** Custom state some workers report while running. */
  const PROGRESS := "PROGRESS"

  /** Key of the wrapper a list-returning backend is parsed into. */
  const RootKey := "__root__"
  const StatusCodeKey := "status_code"

  const HttpOk := 200
  const HttpInternalError := 500

  const CompleteMessage := "Task complete!"
  const FailedMessage := "Task failed!"
  const PendingMessage := "Task pending."
  const StartedMessage := "Task started."
  const ErrorPrefix := "Unable to retrieve celery task result, traceback: "

  /** The fixed state-to-message table; states outside it get no message. */
  const Messages: map<string, string> :=
    map[SUCCESS := CompleteMessage, FAILURE := FailedMessage,
        PENDING := PendingMessage, STARTED := StartedMessage]

  /** A queue state, closed over the states the adapter distinguishes. */
  datatype QueueState = Pending | Started | Progress | Success | Failure | Other(name: string) {

    /** The state string the queue uses for this state. */
    function Name(): string {
      match this
      case Pending => PENDING
      case Started => STARTED
      case Progress => PROGRESS
      case Success => SUCCESS
      case Failure => FAILURE
      case Other(name) => name
    }

    /** An `Other` state never carries one of the distinguished names. */
    predicate Valid() {
      Other? ==> name !in {PENDING, STARTED, PROGRESS, SUCCESS, FAILURE}
    }
  }

  /** Reads a state string reported by the queue. */
  function Classify(state: string): (t: QueueState)
    ensures t.Valid()
    ensures t.Name() == state
  {
    if state == PENDING then Pending
    else if state == STARTED then Started
    else if state == PROGRESS then Progress
    else if state == SUCCESS then Success
    else if state == FAILURE then Failure
    else Other(state)
  }

  /** Naming a valid state and reading the name back gives the state again. */
  lemma ClassifyName(t: QueueState)
    requires t.Valid()
    ensures Classify(t.Name()) == t
  {
  }

  /** What the queue reports for one task id: an unknown id is reported as
      `PENDING` with no result, exactly like a task not yet picked up. */
  datatype TaskRecord = TaskRecord(state: string, result: Value)

  /** The status envelope; `output` and `error` are optional keys. `percent`
      and `message` are values because a progress report stores them as found. */
  datatype Envelope = Envelope(
    taskId: string,
    state: string,
    complete: bool,
    failed: bool,
    percent: Value,
    message: Value,
    output: Option<Value>,
    error: Option<string>)

  /** The envelope together with the HTTP status code of the response. */
  datatype Reply = Reply(envelope: Envelope, httpStatus: int)

  /** `MESSAGES.get(state, "")`. */
  function MessageFor(state: string): (m: string)
    ensures m != "" <==> Classify(state) in {Success, Failure, Pending, Started}
    ensures Classify(state) == Failure ==> m == FailedMessage
    ensures Classify(state) == Success ==> m == CompleteMessage
    ensures Classify(state) == Pending ==> m == PendingMessage
    ensures Classify(state) == Started ==> m == StartedMessage
  {
    if state in Messages then Messages[state] else ""
  }

  /** The envelope before any state-specific branch runs. */
  function BaseEnvelope(taskId: string, state: string): (e: Envelope)
    ensures e.taskId == taskId && e.state == state
    ensures e.complete <==> Classify(state) == Success
    ensures e.failed <==> Classify(state) == Failure
    ensures e.percent == VInt(1) <==> e.complete
    ensures e.percent == VInt(0) <==> !e.complete
    ensures e.message == VStr(MessageFor(state))
    ensures e.output.None? && e.error.None?
  {
    var complete := state == SUCCESS;
    Envelope(
      taskId, state, complete, state == FAILURE,
      VInt(if complete then 1 else 0), VStr(MessageFor(state)), None, None)
  }

  /** The success payload with a `__root__` wrapper taken off: a dict holding
      the key is replaced by that entry, anything else in which the key is
      found (a list holding the string, a str containing it) raises, and a
      value the key is not found in passes through unchanged. */
  function UnwrapRoot(payload: Value): (r: Result<Value, PyError>)
    ensures payload.VDict? && RootKey in payload.entries ==> r == Ok(payload.entries[RootKey])
    ensures payload.VDict? && RootKey !in payload.entries ==> r == Ok(payload)
    ensures payload.VList? ==> (r.Ok? <==> VStr(RootKey) !in payload.items)
    ensures payload.VStr? ==> (r.Ok? <==> !exists i :: OccursAt(RootKey, payload.s, i))
    ensures r.Ok? && !payload.VDict? ==> r.value == payload
    ensures !(payload.VDict? || payload.VList? || payload.VStr?) ==> r.Err?
  {
    var hasRoot :- Contains(payload, RootKey);
    if hasRoot then Subscript(payload, RootKey) else Ok(payload)
  }

  /** How a branch of the translator ended: normally, with the envelope and
      the HTTP status, or by raising, with the envelope as it stood then. */
  datatype Branch = Finished(envelope: Envelope, httpStatus: int) | Raised(envelope: Envelope)

  /** The `SUCCESS` branch: unwrap, store the output, then override the
      outward state when the output's own `status_code` is not 200. */
  function SuccessBranch(base: Envelope, payload: Value): (b: Branch)
    ensures b.Finished? ==> b.httpStatus == HttpOk
    ensures b.envelope.taskId == base.taskId && b.envelope.complete == base.complete
    ensures b.envelope.percent == base.percent && b.envelope.error == base.error
    ensures b.envelope.output ==
              if UnwrapRoot(payload).Ok? then Some(UnwrapRoot(payload).value) else base.output
    ensures b.Finished? <==>
              UnwrapRoot(payload).Ok? && Subscript(UnwrapRoot(payload).value, StatusCodeKey).Ok?
    ensures b.Finished? ==>
              var code := Subscript(UnwrapRoot(payload).value, StatusCodeKey).value;
              if EqualsInt(code, 200) then
                b.envelope.state == base.state && b.envelope.failed == base.failed
                && b.envelope.message == base.message
              else
                b.envelope.state == FAILURE && b.envelope.failed
                && b.envelope.message == VStr(FailedMessage)
    ensures b.Raised? ==> b.envelope == base.(output := b.envelope.output)
  {
    match UnwrapRoot(payload)
    case Err(_) => Raised(base)
    case Ok(output) =>
      var stored := base.(output := Some(output));
      match Subscript(output, StatusCodeKey)
      case Err(_) => Raised(stored)
      case Ok(code) =>
        if EqualsInt(code, 200) then Finished(stored, HttpOk)
        else Finished(stored.(state := FAILURE, failed := true, message := VStr(FailedMessage)), HttpOk)
  }

  /** The `PROGRESS` branch: percent and message are read with `.get`, so a
      missing entry becomes `None` and a non-dict result raises. */
  function ProgressBranch(base: Envelope, payload: Value): (b: Branch)
    ensures b.Finished? <==> payload.VDict?
    ensures b.Finished? ==> b.httpStatus == HttpOk
    ensures b.Finished? ==>
              b.envelope == base.(percent := Get(payload, "percent").value,
                                  message := Get(payload, "message").value)
    ensures b.Raised? ==> b.envelope == base
  {
    match Get(payload, "percent")
    case Err(_) => Raised(base)
    case Ok(percent) =>
      var withPercent := base.(percent := percent);
      match Get(payload, "message")
      case Err(_) => Raised(withPercent)
      case Ok(message) => Finished(withPercent.(message := message), HttpOk)
  }

  /** The `error` text of a reply whose processing raised; the traceback
      itself is opaque. */
  function ErrorText(trace: string): (t: string)
    ensures |t| == |ErrorPrefix| + |trace|
    ensures t[..|ErrorPrefix|] == ErrorPrefix && t[|ErrorPrefix|..] == trace
  {
    ErrorPrefix + trace
  }

  /** The whole adapter: base envelope, one branch per state, and the
      catch-all that adds `error` and forces HTTP 500. `show` is Python's
      `str` applied to a failed task's stored exception, `trace` the
      traceback text of whatever was raised. Reading the stored result and
      applying `str` to it are taken never to raise. */
  function Translate(taskId: string, record: TaskRecord, show: Value -> string, trace: string): (r: Reply)
    ensures r.envelope.taskId == taskId
    ensures r.envelope.complete <==> record.state == SUCCESS
    ensures r.envelope.failed <==> r.envelope.state == FAILURE
    ensures r.envelope.state == record.state || (record.state == SUCCESS && r.envelope.state == FAILURE)
    ensures r.httpStatus == HttpOk || r.httpStatus == HttpInternalError
    ensures r.httpStatus == HttpInternalError <==> (record.state == FAILURE || r.envelope.error.Some?)
    ensures r.envelope.error.Some? ==> r.envelope.error.value == ErrorText(trace)
    ensures r.envelope.complete ==> r.envelope.percent == VInt(1)
    ensures record.state != PROGRESS ==> (r.envelope.percent == VInt(1) <==> r.envelope.complete)
    ensures r.envelope.error.Some? ==> record.state in {SUCCESS, PROGRESS}
  {
    var base := BaseEnvelope(taskId, record.state);
    var branch :=
      match Classify(record.state)
      case Success => SuccessBranch(base, record.result)
      case Failure => Finished(base.(output := Some(VStr(show(record.result)))), HttpInternalError)
      case Progress => ProgressBranch(base, record.result)
      case _ => Finished(base, HttpOk);
    match branch
    case Finished(envelope, status) => Reply(envelope, status)
    case Raised(envelope) => Reply(envelope.(error := Some(ErrorText(trace))), HttpInternalError)
  }

  /** A queue-level success whose unwrapped output reports status 200 is
      presented as complete, not failed, with that output and HTTP 200. */
  lemma SuccessReply(taskId: string, payload: Value, show: Value -> string, trace: string,
                     output: Value, code: Value)
    requires UnwrapRoot(payload) == Ok(output)
    requires Subscript(output, StatusCodeKey) == Ok(code) && EqualsInt(code, 200)
    ensures Translate(taskId, TaskRecord(SUCCESS, payload), show, trace)
            == Reply(Envelope(taskId, SUCCESS, true, false, VInt(1), VStr(CompleteMessage),
                              Some(output), None), HttpOk)
  {
  }

  /** A queue-level success whose output carries any other status code is
      overridden to a failure, yet stays complete, at percent 1, with HTTP 200. */
  lemma BusinessFailureOverride(taskId: string, payload: Value, show: Value -> string, trace: string,
                                output: Value, code: Value)
    requires UnwrapRoot(payload) == Ok(output)
    requires Subscript(output, StatusCodeKey) == Ok(code) && !EqualsInt(code, 200)
    ensures Translate(taskId, TaskRecord(SUCCESS, payload), show, trace)
            == Reply(Envelope(taskId, FAILURE, true, true, VInt(1), VStr(FailedMessage),
                              Some(output), None), HttpOk)
  {
  }

  /** The output is stored before its `status_code` is read, so a missing or
      unreadable status code yields an envelope with both `output` and `error`. */
  lemma OutputKeptBesideError(taskId: string, payload: Value, show: Value -> string, trace: string,
                              output: Value)
    requires UnwrapRoot(payload) == Ok(output)
    requires Subscript(output, StatusCodeKey).Err?
    ensures Translate(taskId, TaskRecord(SUCCESS, payload), show, trace)
            == Reply(Envelope(taskId, SUCCESS, true, false, VInt(1), VStr(CompleteMessage),
                              Some(output), Some(ErrorText(trace))), HttpInternalError)
  {
  }

  /** A success payload that cannot be unwrapped raises before anything is
      stored: the reply has `error` and no `output`. */
  lemma UnwrapFailureReply(taskId: string, payload: Value, show: Value -> string, trace: string)
    requires UnwrapRoot(payload).Err?
    ensures Translate(taskId, TaskRecord(SUCCESS, payload), show, trace)
            == Reply(Envelope(taskId, SUCCESS, true, false, VInt(1), VStr(CompleteMessage),
                              None, Some(ErrorText(trace))), HttpInternalError)
  {
  }

  /** A queue-level failure reports the stringified exception as `output`,
      with HTTP 500 and no `error`. */
  lemma FailureReply(taskId: string, payload: Value, show: Value -> string, trace: string)
    ensures Translate(taskId, TaskRecord(FAILURE, payload), show, trace)
            == Reply(Envelope(taskId, FAILURE, false, true, VInt(0), VStr(FailedMessage),
                              Some(VStr(show(payload))), None), HttpInternalError)
  {
  }

  /** A progress report copies `percent` and `message` verbatim from a dict
      result (`None` where an entry is missing); a non-dict result raises. */
  lemma ProgressReply(taskId: string, payload: Value, show: Value -> string, trace: string)
    ensures var r := Translate(taskId, TaskRecord(PROGRESS, payload), show, trace);
            if payload.VDict? then
              var percent := if "percent" in payload.entries then payload.entries["percent"] else VNone;
              var message := if "message" in payload.entries then payload.entries["message"] else VNone;
              r == Reply(Envelope(taskId, PROGRESS, false, false, percent, message, None, None), HttpOk)
            else
              r == Reply(Envelope(taskId, PROGRESS, false, false, VInt(0), VStr(""),
                                  None, Some(ErrorText(trace))), HttpInternalError)
  {
  }

  /** Because progress is copied verbatim, an unfinished task may report
      percent 1: "percent is 1 exactly when complete" fails for `PROGRESS`. */
  lemma ProgressMayReportFullPercent(taskId: string, show: Value -> string, trace: string)
    ensures var r := Translate(taskId, TaskRecord(PROGRESS, VDict(map["percent" := VInt(1)])), show, trace);
            r.envelope.percent == VInt(1) && !r.envelope.complete
  {
  }

  /** Pending, started and unrecognised states get the base envelope alone:
      no output, no error, percent 0, HTTP 200, whatever the stored result. */
  lemma QuietStateReply(taskId: string, record: TaskRecord, show: Value -> string, trace: string)
    requires Classify(record.state) !in {Success, Failure, Progress}
    ensures Translate(taskId, record, show, trace)
            == Reply(Envelope(taskId, record.state, false, false, VInt(0),
                              VStr(MessageFor(record.state)), None, None), HttpOk)
  {
  }

  /** An id the queue does not know is reported as `PENDING` with no result,
      and so gets exactly the reply of a task still waiting in the queue. */
  lemma UnknownTaskLooksPending(taskId: string, waiting: Value, show: Value -> string, trace: string)
    ensures Translate(taskId, TaskRecord(PENDING, VNone), show, trace)
            == Translate(taskId, TaskRecord(PENDING, waiting), show, trace)
            == Reply(Envelope(taskId, PENDING, false, false, VInt(0), VStr(PendingMessage),
                              None, None), HttpOk)
  {
  }

  /** A success result wrapped as `{"__root__": [...]}` is unwrapped to the
      bare list, which is stored and then subscripted with a str key: the
      reply always carries `error` and HTTP 500, beside the list as output. */
  lemma RootListEndsInError(taskId: string, items: seq<Value>, show: Value -> string, trace: string)
    ensures var r := Translate(taskId, TaskRecord(SUCCESS, VDict(map[RootKey := VList(items)])), show, trace);
            && r.envelope.output == Some(VList(items))
            && r.envelope.error == Some(ErrorText(trace))
            && r.httpStatus == HttpInternalError
  {
  }
}
