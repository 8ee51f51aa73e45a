/** How a synchronous response looks once it travels the asynchronous path:
    a worker stores the response's dict form as the task result, and the
    status adapter reports it. The worker itself is not part of this model;
    these lemmas take its stored result as given. */
module SyncAsyncAgreement {
  import opened Results
  import opened PyValues
  import opened V1CeleryTask
  import opened ForwardGraph2Smiles

  /** A successful synchronous response, stored by the queue, is reported
      complete and not failed, with the response itself as `output`. */
  lemma QueuedSyncResponseReportsComplete(
    taskId: string, predictionUrl: string, input: ForwardInput,
    post: (string, Value) -> Result<Value, string>, response: ForwardResponse,
    show: Value -> string, trace: string)
    requires CallSync(predictionUrl, input, post) == Ok(response)
    ensures Translate(taskId, TaskRecord(SUCCESS, EncodeResponse(response)), show, trace)
            == Reply(Envelope(taskId, SUCCESS, true, false, VInt(1), VStr(CompleteMessage),
                              Some(EncodeResponse(response)), None), HttpOk)
  {
  }

  /** A stored response whose status code is not 200 is reported failed but
      still complete, and still with HTTP 200. */
  lemma QueuedBusinessFailureKeepsHttpOk(
    taskId: string, response: ForwardResponse, show: Value -> string, trace: string)
    requires response.statusCode != 200
    ensures var r := Translate(taskId, TaskRecord(SUCCESS, EncodeResponse(response)), show, trace);
            r.httpStatus == HttpOk && r.envelope.state == FAILURE
            && r.envelope.failed && r.envelope.complete
            && r.envelope.output == Some(EncodeResponse(response))
  {
  }
}
