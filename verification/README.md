# Celery task status and Graph2SMILES forward wrapper — a Dafny model

This project models two pieces of the ASKCOS v2 request-dispatch layer.

* The **legacy Celery task-status adapter** (`V1CeleryTask`). A client polls it with a task id. The adapter reads the state string and stored result that the task queue reports for that id, and renders a status envelope: `task_id`, `state`, `complete`, `failed`, `percent`, `message`, and optionally `output` and `error`. It also picks the HTTP status of the response. In the model, the queue's answer is an input (`TaskRecord`) and `Translate` is a pure total function from `(taskId, record)` to `(envelope, httpStatus)`. The Python operations the adapter applies to the stored result inside its `try` block are partial: `in`, `[...]` and `.get`. Each one returns a `Result`, and an `Err` routes to the catch-all branch that adds `error` and forces HTTP 500. Two other steps inside the same `try` are taken never to raise: reading the stored result from the queue, and `str()` of a failed task's result (see "## Left out").
* The **Graph2SMILES forward-prediction wrapper** (`ForwardGraph2Smiles`). It covers the `model_name` domain and its default, and the backend endpoint that the model name selects. `call_sync` is modelled as `call_raw` followed by `convert_output_to_response`. The module also models what `call_async` hands to the task queue. The HTTP post (together with `response.json()`) and the queue submission are function parameters.

`PyValues` models the Python values the queue returns (decoded JSON, or a stored exception) and the exact semantics of the few operations the adapter applies to them. `SyncAsyncAgreement` links the two modules: it shows what the adapter reports when a worker stores a synchronous response as a task result.

## Model

| member | source | states |
|---|---|---|
| PyValues.SubstringFrom | adapters/v1_celery_task.py:57 | For two strings, `in` is true exactly when the needle occurs at some index of the haystack at or after the start position. |
| PyValues.Contains | adapters/v1_celery_task.py:57 | `"__root__" in output` succeeds exactly on a dict, a list or a str, and raises TypeError on anything else. On a dict it tests the keys. On a list it tests for an element equal to the string. On a str it tests for a substring occurrence. |
| PyValues.Subscript | adapters/v1_celery_task.py:62 | `output[key]` succeeds exactly on a dict that holds the key, and then returns that entry. A dict without the key raises KeyError; any other value raises TypeError. |
| PyValues.Get | adapters/v1_celery_task.py:71-72 | `.get(key)` succeeds exactly on a dict. It agrees with subscripting when the key is present and gives `None` when it is absent. Any other value raises AttributeError. |
| PyValues.EqualsInt | adapters/v1_celery_task.py:62 | `v == 200` can only hold for a bool, int or float. A bool compares as 0 or 1, so it never equals 200. An int or a float compares by numeric value. |
| V1CeleryTask.Classify | adapters/v1_celery_task.py:44-49 | Every state string maps to a valid state (a distinguished one, or `Other`), and naming that state gives back the original string. |
| V1CeleryTask.ClassifyName | adapters/v1_celery_task.py:44-49 | Classifying the name of a valid state gives back that state. |
| V1CeleryTask.MessageFor | adapters/v1_celery_task.py:9-14 | The message is non-empty exactly for SUCCESS, FAILURE, PENDING and STARTED, so PROGRESS and every other state get `""`. SUCCESS gets "Task complete!", FAILURE "Task failed!", PENDING "Task pending." and STARTED "Task started.". |
| V1CeleryTask.BaseEnvelope | adapters/v1_celery_task.py:45-52 | The task id and state are echoed. `complete` holds exactly on SUCCESS and `failed` exactly on FAILURE. `percent` is 1 when complete and 0 otherwise. The message comes from the table. There is no output and no error. |
| V1CeleryTask.UnwrapRoot | adapters/v1_celery_task.py:56-58 | A dict with `__root__` is replaced by that entry, and a dict without it passes unchanged. A list or str in which `__root__` is found raises; one in which it is not found passes unchanged. Any other value raises. |
| V1CeleryTask.SuccessBranch | adapters/v1_celery_task.py:55-65 | `complete`, `percent`, the task id and `error` are never changed. `output` is set exactly when unwrapping succeeds. The branch finishes normally exactly when the unwrapped output has a readable `status_code`, and then with HTTP 200. A status code other than 200 overrides the envelope to state FAILURE, failed, "Task failed!". A raise leaves the base envelope, plus `output` if it was already stored. |
| V1CeleryTask.ProgressBranch | adapters/v1_celery_task.py:69-72 | On a dict result, the branch finishes with percent and message taken from `.get` and HTTP 200. On any other result it raises with the base envelope unchanged. |
| V1CeleryTask.ErrorText | adapters/v1_celery_task.py:73-76 | The error text is the fixed prefix followed by the opaque traceback. |
| V1CeleryTask.Translate | adapters/v1_celery_task.py:40-76 | Over all inputs: the task id is echoed, and `complete` holds exactly when the queue state is SUCCESS. `failed` holds exactly when the reported state is FAILURE. The reported state differs from the queue state only on a SUCCESS overridden to FAILURE. HTTP is 200 or 500, and it is 500 exactly on a queue FAILURE or when `error` is present. `error` can only arise on SUCCESS or PROGRESS, given that reading the stored result and `str()` never raise. A complete task always has percent 1. Outside PROGRESS, percent is 1 exactly when the task is complete. |
| V1CeleryTask.SuccessReply | adapters/v1_celery_task.py:55-65 | A SUCCESS whose unwrapped output has status code 200 yields the complete, non-failed envelope with that output and HTTP 200. |
| V1CeleryTask.BusinessFailureOverride | adapters/v1_celery_task.py:61-65 | A SUCCESS whose output carries any other status code yields state FAILURE, failed and "Task failed!". The envelope is still complete with percent 1, and HTTP stays 200. |
| V1CeleryTask.OutputKeptBesideError | adapters/v1_celery_task.py:59-62 | When the status code cannot be read, the already-stored output appears together with `error`, with HTTP 500. |
| V1CeleryTask.UnwrapFailureReply | adapters/v1_celery_task.py:56-58 | A SUCCESS payload that cannot be unwrapped yields `error`, no output and HTTP 500. |
| V1CeleryTask.FailureReply | adapters/v1_celery_task.py:66-68 | A FAILURE yields the stringified result as output, failed, percent 0, no error and HTTP 500. |
| V1CeleryTask.ProgressReply | adapters/v1_celery_task.py:69-72 | PROGRESS copies `percent` and `message` verbatim from a dict result, with `None` for a missing entry. The envelope is neither complete nor failed, and HTTP is 200. A non-dict result yields `error` and HTTP 500. |
| V1CeleryTask.ProgressMayReportFullPercent | adapters/v1_celery_task.py:69-72 | A progress report may carry percent 1 while the task is not complete. |
| V1CeleryTask.QuietStateReply | adapters/v1_celery_task.py:45-53 | PENDING, STARTED and unrecognised states get the base envelope whatever the stored result: no output, no error, percent 0, HTTP 200. |
| V1CeleryTask.RootListEndsInError | adapters/v1_celery_task.py:55-62 | A SUCCESS result `{"__root__": [...]}` is unwrapped to the bare list, which is stored as output. Subscripting that list with `"status_code"` then raises, so the reply always carries `error` and HTTP 500. |
| V1CeleryTask.UnknownTaskLooksPending | adapters/v1_celery_task.py:39-42 | An unknown id, which the queue reports as PENDING with no result, gets the same reply as a waiting task. |
| ForwardGraph2Smiles.ParseModelName | wrappers/forward/graph2smiles.py:9 | Exactly "pistachio_23Q2" and "cas" are accepted, and an accepted name is returned as given. |
| ForwardGraph2Smiles.ModelNameRoundTrip | wrappers/forward/graph2smiles.py:9 | Every model's name is accepted back as that model. |
| ForwardGraph2Smiles.MakeInput | wrappers/forward/graph2smiles.py:8-10 | An omitted model name defaults to pistachio_23Q2. A given name is accepted exactly when it is one of the two literals, and is otherwise rejected with that name. The SMILES list is kept. |
| ForwardGraph2Smiles.DecodeStrings | wrappers/forward/graph2smiles.py:14 | A list of strings is rejected exactly when some element is not a string. Otherwise the result keeps length, order and elements. |
| ForwardGraph2Smiles.DecodeScores | wrappers/forward/graph2smiles.py:15 | A list of floats is rejected exactly when some element is not numeric. Otherwise each element's numeric value is kept in order. |
| ForwardGraph2Smiles.DecodeResult | wrappers/forward/graph2smiles.py:13-15 | A value is accepted as a result record exactly when it is a dict whose `products` and `scores` entries are lists that the string and score decoders accept. Other keys are ignored. The record holds exactly those decoded lists. |
| ForwardGraph2Smiles.DecodeResults | wrappers/forward/graph2smiles.py:18-19 | The root list is rejected exactly when some element is not a valid result record. Otherwise the decoded list has the same length, and each element is the decoding of the element at the same index. |
| ForwardGraph2Smiles.DecodeOutput | wrappers/forward/graph2smiles.py:46 | Wrapping the backend's JSON as a root succeeds exactly on a list of valid records. The root list then has the same length, and each element is the decoding of the JSON element at the same index. |
| ForwardGraph2Smiles.ResultsRoundTrip | wrappers/forward/graph2smiles.py:45-46 | Decoding the JSON form of any list of results gives back that list. |
| ForwardGraph2Smiles.InputToDict | wrappers/forward/graph2smiles.py:37-38 | The dict has exactly the keys `model_name` and `smiles`, and `model_name` holds the model's name. Reading the dict back gives the request, so nothing is lost. |
| ForwardGraph2Smiles.EndpointFor | wrappers/forward/graph2smiles.py:38-41 | The endpoint is the prediction URL, a `/`, then a last segment that validates back to the request's model. |
| ForwardGraph2Smiles.EndpointsDistinguishModels | wrappers/forward/graph2smiles.py:41 | Under one prediction URL, different models get different endpoints. |
| ForwardGraph2Smiles.CallRaw | wrappers/forward/graph2smiles.py:36-48 | The request's dict is posted to the endpoint of the request's model. A post failure is reported as BackendUnavailable with its reason. A reply that does not parse as a root-wrapped list of results is reported as BackendProtocolError. A reply that parses gives exactly the parsed output. |
| ForwardGraph2Smiles.ConvertOutputToResponse | wrappers/forward/graph2smiles.py:67-77 | Status is 200 and the message is empty. The result is the root list with the same length, order and elements, and taking it back out gives the output. |
| ForwardGraph2Smiles.ConvertIsOnto | wrappers/forward/graph2smiles.py:70-75 | Every response with status 200 and an empty message is the shaping of its own result list. |
| ForwardGraph2Smiles.CallSync | wrappers/forward/graph2smiles.py:50-54 | The call fails exactly when the raw call fails, with the same error. On success it has status 200, an empty message and the raw call's output as result. |
| ForwardGraph2Smiles.SyncRoundTrip | wrappers/forward/graph2smiles.py:45-54 | If the backend answers with the JSON form of a list `xs`, the synchronous response is status 200, an empty message and result `xs`. |
| ForwardGraph2Smiles.SubmissionFor | wrappers/forward/graph2smiles.py:58-59 | The task gets exactly two arguments: the wrapper's name, then a dict with exactly the keys `model_name` and `smiles` that reads back to the request. The priority is passed through. |
| ForwardGraph2Smiles.CallAsync | wrappers/forward/graph2smiles.py:56-62 | The returned id is the one the queue assigns to a submission that has exactly two arguments: the wrapper's name, then a dict with exactly the keys `model_name` and `smiles` that reads back to the request. The submission carries the given priority. |
| ForwardGraph2Smiles.AsyncDefaultPriority | wrappers/forward/graph2smiles.py:56 | Without a priority, the submission goes out at priority 0. |
| ForwardGraph2Smiles.EncodeResponse | wrappers/forward/graph2smiles.py:70-74 | The dict form of a response has exactly the keys `status_code`, `message` and `result`. It holds the status code and the message, and its `result` list decodes back to the response's results. |
| SyncAsyncAgreement.QueuedSyncResponseReportsComplete | adapters/v1_celery_task.py:55-65 | A successful synchronous response, once stored as a task's result, is reported as complete and not failed, with that response as output and HTTP 200. |
| SyncAsyncAgreement.QueuedBusinessFailureKeepsHttpOk | adapters/v1_celery_task.py:61-65 | A stored response with a status code other than 200 is reported as failed but complete, still with HTTP 200. |

## Behaviour of the code worth knowing

The model follows the code in each case below.

* A business failure (a SUCCESS task whose output has a status code other than 200) is still answered with HTTP 200, not 500. See `BusinessFailureOverride`.
* A progress report's percent is copied verbatim. So "percent is 1 exactly when complete" holds only outside PROGRESS. See `Translate` and `ProgressMayReportFullPercent`.
* `complete` is true exactly when the queue's state is SUCCESS. This is not always the reported `state` field: after a business-failure override, `complete` is still true while `state` is FAILURE.
* The `__root__` unwrap tests `"__root__" in output`, which also matches a list element or a substring, not only a dict key. See `UnwrapRoot`.
* A SUCCESS result wrapped as `{"__root__": [...]}` always ends with `error` and HTTP 500. The unwrapped list has no `status_code` to read. See `RootListEndsInError`.

## Left out

- Querying the queue (`AsyncResult`): the observed state and result are inputs.
- Rendering the reply (`Response`, `json.dumps`): the model returns the envelope and the status code as values. A `json.dumps` failure outside the `try` block is not modelled.
- Traceback text: it is a parameter, `trace`.
- `str()` of a failed task's stored exception: it is a parameter, `show`.
- Reading `result.result` from the queue, and `str()` of a failed task's result, are taken never to raise. An `error` on a FAILURE record, or one caused by a queue backend failure, is therefore not modelled.
- `ForwardGraph2Smiles.CallRaw`: the HTTP session, the timeout setting and `response.json()` are folded into the `post` parameter. Any exception they raise is one `Err`.
- `ForwardGraph2Smiles.CallAsync`: the Celery submission is the `enqueue` parameter.
- `retrieve`, `register_wrapper`, `register_adapter`, `BaseWrapper` and `BaseResponse`: their source is not part of this model. The registry and the path prefixes are therefore not modelled. The wrapper's `self.name`, passed as the first task argument, is assumed to be the name given to `register_wrapper` (`forward_graph2smiles`).
- The worker that runs a submitted task is not part of this model. `SyncAsyncAgreement` assumes the worker stores the response's dict form (`EncodeResponse`).
- ForwardGraph2Smiles.DecodeResults: validation is strict. An element that pydantic would coerce (a numeric string or a bool as a score, a number as a product) is rejected here. Camel-case aliases are not modelled either.
- ForwardGraph2Smiles.DecodeScores: a float is an exact real. Rounding, NaN and infinities are not modelled, and no arithmetic is done on scores or on a reported percent.
- The Celery states RETRY, REVOKED and RECEIVED need no cases of their own: they fall under `Other`, as in the code.
- `tests/wrappers/reaction_classification/reaction_classification_default_test.py` is a live HTTP integration test with sleeps and polling. It has no logic to model.
