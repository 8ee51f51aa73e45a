/** The forward-prediction wrapper for the Graph2SMILES backend: the input's
    model-name domain, the endpoint it selects, the synchronous call as a
    backend round trip followed by response shaping, and the arguments of an
    asynchronous submission. The HTTP post (with `response.json()`) and the
    queue submission are parameters of the operations that use them. */
module ForwardGraph2Smiles {
  import opened Results
  import opened PyValues

  /** Name the wrapper is registered under; also the first task argument. */
  const WrapperName := "forward_graph2smiles"
  const ModelNameKey := "model_name"
  const SmilesKey := "smiles"
  const ProductsKey := "products"
  const ScoresKey := "scores"
  const DefaultPriority := 0

  /** The two backend models a request may select. */
  datatype ModelName = Pistachio23Q2 | Cas {

    function Name(): string {
      match this
      case Pistachio23Q2 => "pistachio_23Q2"
      case Cas => "cas"
    }
  }

  /** The model used when a request does not name one. */
  const DefaultModelName := Pistachio23Q2

  /** Validation of a `model_name` string against the two allowed literals. */
  function ParseModelName(s: string): (m: Option<ModelName>)
    ensures m.Some? <==> (s == "pistachio_23Q2" || s == "cas")
    ensures m.Some? ==> m.value.Name() == s
  {
    if s == Pistachio23Q2.Name() then Some(Pistachio23Q2)
    else if s == Cas.Name() then Some(Cas)
    else None
  }

  /** Every model name is accepted back by validation. */
  lemma ModelNameRoundTrip(m: ModelName)
    ensures ParseModelName(m.Name()) == Some(m)
  {
  }

  /** A validated request. */
  datatype ForwardInput = ForwardInput(modelName: ModelName, smiles: seq<string>)

  /** A field outside its declared domain. */
  datatype ValidationError = InvalidModelName(given: string)

  /** Building a request from its fields: an omitted model name takes the
      default, a given one must be one of the two literals. */
  function MakeInput(modelName: Option<string>, smiles: seq<string>): (r: Result<ForwardInput, ValidationError>)
    ensures modelName.None? ==> r == Ok(ForwardInput(DefaultModelName, smiles))
    ensures modelName.Some? ==>
              (r.Ok? <==> modelName.value == "pistachio_23Q2" || modelName.value == "cas")
    ensures modelName.Some? && r.Ok? ==> r.value.modelName.Name() == modelName.value
    ensures r.Ok? ==> r.value.smiles == smiles
    ensures r.Err? ==> r.error == InvalidModelName(modelName.value)
  {
    match modelName
    case None => Ok(ForwardInput(DefaultModelName, smiles))
    case Some(s) =>
      match ParseModelName(s)
      case None => Err(InvalidModelName(s))
      case Some(m) => Ok(ForwardInput(m, smiles))
  }

  /** One prediction: candidate products and their scores. */
  datatype ForwardResult = ForwardResult(products: seq<string>, scores: seq<real>)

  /** The backend's output: a bare list, held under a root wrapper. */
  datatype ForwardOutput = ForwardOutput(root: seq<ForwardResult>)

  /** The uniform response envelope of a call. */
  datatype ForwardResponse = ForwardResponse(statusCode: int, message: string, result: seq<ForwardResult>)

  /** Why a call to the backend did not produce an output. */
  datatype CallError =
    | BackendUnavailable(reason: string)   // the post or its JSON decoding raised
    | BackendProtocolError                 // the JSON is not a list of results

  // ---------------------------------------------------------------------------
  // JSON forms of the records above, and the strict decoders that read them back.
  // ---------------------------------------------------------------------------

  function EncodeStrings(xs: seq<string>): seq<Value>
  {
    seq(|xs|, k requires 0 <= k < |xs| => VStr(xs[k]))
  }

  /** Reads a list of strings; any element that is not a string rejects it. */
  function DecodeStrings(vs: seq<Value>): (r: Option<seq<string>>)
    ensures r.None? <==> exists k :: 0 <= k < |vs| && !vs[k].VStr?
    ensures r.Some? ==> |r.value| == |vs| && forall k :: 0 <= k < |vs| ==> vs[k] == VStr(r.value[k])
  {
    if |vs| == 0 then Some([])
    else if !vs[0].VStr? then None
    else
      match DecodeStrings(vs[1..])
      case None => None
      case Some(rest) => Some([vs[0].s] + rest)
  }

  function EncodeScores(xs: seq<real>): seq<Value>
  {
    seq(|xs|, k requires 0 <= k < |xs| => VFloat(xs[k]))
  }

  /** The float a score element stands for: ints are widened, floats kept. */
  function ScoreOf(v: Value): Option<real>
  {
    match v
    case VInt(i) => Some(i as real)
    case VFloat(f) => Some(f)
    case _ => None
  }

  /** Reads a list of scores; any non-numeric element rejects it. */
  function DecodeScores(vs: seq<Value>): (r: Option<seq<real>>)
    ensures r.None? <==> exists k :: 0 <= k < |vs| && ScoreOf(vs[k]).None?
    ensures r.Some? ==> |r.value| == |vs| && forall k :: 0 <= k < |vs| ==> ScoreOf(vs[k]) == Some(r.value[k])
  {
    if |vs| == 0 then Some([])
    else
      match ScoreOf(vs[0])
      case None => None
      case Some(x) =>
        match DecodeScores(vs[1..])
        case None => None
        case Some(rest) => Some([x] + rest)
  }

  function EncodeResult(x: ForwardResult): Value
  {
    VDict(map[ProductsKey := VList(EncodeStrings(x.products)),
              ScoresKey := VList(EncodeScores(x.scores))])
  }

  /** Reads one result record; keys other than the two fields are ignored. */
  function DecodeResult(v: Value): (r: Option<ForwardResult>)
    ensures r.Some? <==>
              && v.VDict? && ProductsKey in v.entries && ScoresKey in v.entries
              && v.entries[ProductsKey].VList? && v.entries[ScoresKey].VList?
              && DecodeStrings(v.entries[ProductsKey].items).Some?
              && DecodeScores(v.entries[ScoresKey].items).Some?
    ensures r.Some? ==>
              && Some(r.value.products) == DecodeStrings(v.entries[ProductsKey].items)
              && Some(r.value.scores) == DecodeScores(v.entries[ScoresKey].items)
  {
    if !v.VDict? || ProductsKey !in v.entries || ScoresKey !in v.entries then None
    else
      var products := v.entries[ProductsKey];
      var scores := v.entries[ScoresKey];
      if !products.VList? || !scores.VList? then None
      else
        match (DecodeStrings(products.items), DecodeScores(scores.items))
        case (Some(ps), Some(ss)) => Some(ForwardResult(ps, ss))
        case _ => None
  }

  function EncodeResults(xs: seq<ForwardResult>): seq<Value>
  {
    seq(|xs|, k requires 0 <= k < |xs| => EncodeResult(xs[k]))
  }

  /** Reads the list of results; one malformed element rejects the whole list. */
  function DecodeResults(vs: seq<Value>): (r: Option<seq<ForwardResult>>)
    ensures r.None? <==> exists k :: 0 <= k < |vs| && DecodeResult(vs[k]).None?
    ensures r.Some? ==>
              |r.value| == |vs| && forall k :: 0 <= k < |vs| ==> DecodeResult(vs[k]) == Some(r.value[k])
  {
    if |vs| == 0 then Some([])
    else
      match DecodeResult(vs[0])
      case None => None
      case Some(x) =>
        match DecodeResults(vs[1..])
        case None => None
        case Some(rest) => Some([x] + rest)
  }

  /** Parsing the backend's JSON into the root-wrapped output. */
  function DecodeOutput(body: Value): (r: Option<ForwardOutput>)
    ensures r.Some? <==> body.VList? && DecodeResults(body.items).Some?
    ensures r.Some? ==> |r.value.root| == |body.items|
    ensures r.Some? ==>
              forall k :: 0 <= k < |body.items| ==> DecodeResult(body.items[k]) == Some(r.value.root[k])
  {
    if !body.VList? then None
    else
      match DecodeResults(body.items)
      case None => None
      case Some(xs) => Some(ForwardOutput(xs))
  }

  lemma {:induction false} StringsRoundTrip(xs: seq<string>)
    ensures DecodeStrings(EncodeStrings(xs)) == Some(xs)
  {
    var r := DecodeStrings(EncodeStrings(xs));
    assert r.Some?;
    assert r.value == xs;
  }

  lemma {:induction false} ScoresRoundTrip(xs: seq<real>)
    ensures DecodeScores(EncodeScores(xs)) == Some(xs)
  {
    var r := DecodeScores(EncodeScores(xs));
    assert r.Some?;
    assert r.value == xs;
  }

  lemma ResultRoundTrip(x: ForwardResult)
    ensures DecodeResult(EncodeResult(x)) == Some(x)
  {
    StringsRoundTrip(x.products);
    ScoresRoundTrip(x.scores);
  }

  /** Decoding the JSON form of a list of results gives the same list back,
      element for element and in order. */
  lemma {:induction false} ResultsRoundTrip(xs: seq<ForwardResult>)
    ensures DecodeResults(EncodeResults(xs)) == Some(xs)
  {
    forall k | 0 <= k < |xs| {
      ResultRoundTrip(xs[k]);
    }
    var r := DecodeResults(EncodeResults(xs));
    assert r.Some?;
    assert r.value == xs;
  }

  // ---------------------------------------------------------------------------
  // The wrapper's operations.
  // ---------------------------------------------------------------------------

  /** The request as a plain dict, keyed by field name. */
  function InputToDict(input: ForwardInput): (d: Value)
    ensures d.VDict? && d.entries.Keys == {ModelNameKey, SmilesKey}
    ensures d.entries[ModelNameKey] == VStr(input.modelName.Name())
    ensures InputFromDict(d) == Some(input)
  {
    StringsRoundTrip(input.smiles);
    VDict(map[ModelNameKey := VStr(input.modelName.Name()),
              SmilesKey := VList(EncodeStrings(input.smiles))])
  }

  /** Reads a request back from its dict form: the inverse of `InputToDict`. */
  function InputFromDict(d: Value): Option<ForwardInput>
  {
    if !d.VDict? || ModelNameKey !in d.entries || SmilesKey !in d.entries then None
    else
      var name := d.entries[ModelNameKey];
      var smiles := d.entries[SmilesKey];
      if !name.VStr? || !smiles.VList? then None
      else
        match (ParseModelName(name.s), DecodeStrings(smiles.items))
        case (Some(m), Some(xs)) => Some(ForwardInput(m, xs))
        case _ => None
  }

  /** The backend endpoint: the prediction URL followed by one path segment
      naming the model, so the segment alone tells which model is called. */
  function EndpointFor(predictionUrl: string, model: ModelName): (url: string)
    ensures |url| > |predictionUrl| + 1
    ensures url[..|predictionUrl|] == predictionUrl && url[|predictionUrl|] == '/'
    ensures ParseModelName(url[|predictionUrl| + 1..]) == Some(model)
  {
    ModelNameRoundTrip(model);
    predictionUrl + "/" + model.Name()
  }

  /** Endpoints for different models under one prediction URL differ. */
  lemma EndpointsDistinguishModels(predictionUrl: string, m1: ModelName, m2: ModelName)
    requires EndpointFor(predictionUrl, m1) == EndpointFor(predictionUrl, m2)
    ensures m1 == m2
  {
  }

  /** `call_raw`: post the request's dict to the endpoint its model name
      selects and parse the JSON reply as a root-wrapped list of results.
      `post` stands for the HTTP session post followed by `response.json()`;
      `Err` is anything raised there. */
  function CallRaw(predictionUrl: string, input: ForwardInput,
                   post: (string, Value) -> Result<Value, string>): (r: Result<ForwardOutput, CallError>)
    ensures var reply := post(EndpointFor(predictionUrl, input.modelName), InputToDict(input));
            && (reply.Err? ==> r == Err(BackendUnavailable(reply.error)))
            && (reply.Ok? ==> (r.Ok? <==> DecodeOutput(reply.value).Some?))
            && (reply.Ok? && DecodeOutput(reply.value).None? ==> r == Err(BackendProtocolError))
            && (r.Ok? ==> Some(r.value) == DecodeOutput(reply.value))
            && (r.Ok? ==> |r.value.root| == |reply.value.items|)
  {
    var body := InputToDict(input);
    var modelName := body.entries[ModelNameKey].s;
    assert modelName == input.modelName.Name();
    match post(predictionUrl + "/" + modelName, body)
    case Err(reason) => Err(BackendUnavailable(reason))
    case Ok(json) =>
      match DecodeOutput(json)
      case None => Err(BackendProtocolError)
      case Some(output) => Ok(output)
  }

  /** Reading the result list back out of a response. */
  function ResponseToOutput(response: ForwardResponse): ForwardOutput
  {
    ForwardOutput(response.result)
  }

  /** `convert_output_to_response`: status 200, empty message, and the root
      list as the result. Taking the result back out gives the output again. */
  function ConvertOutputToResponse(output: ForwardOutput): (r: ForwardResponse)
    ensures r.statusCode == 200 && r.message == ""
    ensures |r.result| == |output.root|
    ensures forall k :: 0 <= k < |output.root| ==> r.result[k] == output.root[k]
    ensures ResponseToOutput(r) == output
  {
    ForwardResponse(200, "", output.root)
  }

  /** Every response with status 200 and an empty message is the shaping of
      exactly one output. */
  lemma ConvertIsOnto(response: ForwardResponse)
    requires response.statusCode == 200 && response.message == ""
    ensures ConvertOutputToResponse(ResponseToOutput(response)) == response
  {
  }

  /** `call_sync`: the raw call followed by response shaping; a failure of the
      raw call is passed on unchanged. */
  function CallSync(predictionUrl: string, input: ForwardInput,
                    post: (string, Value) -> Result<Value, string>): (r: Result<ForwardResponse, CallError>)
    ensures var raw := CallRaw(predictionUrl, input, post);
            && (raw.Err? <==> r.Err?)
            && (r.Err? ==> r.error == raw.error)
            && (r.Ok? ==> r.value.statusCode == 200 && r.value.message == ""
                          && ResponseToOutput(r.value) == raw.value)
  {
    var output :- CallRaw(predictionUrl, input, post);
    Ok(ConvertOutputToResponse(output))
  }

  /** When the backend answers with the JSON form of a list of results, the
      synchronous call returns exactly that list under status 200. */
  lemma SyncRoundTrip(predictionUrl: string, input: ForwardInput,
                      post: (string, Value) -> Result<Value, string>, xs: seq<ForwardResult>)
    requires post(EndpointFor(predictionUrl, input.modelName), InputToDict(input)) == Ok(VList(EncodeResults(xs)))
    ensures CallSync(predictionUrl, input, post) == Ok(ForwardResponse(200, "", xs))
  {
    ResultsRoundTrip(xs);
  }

  /** What `call_async` hands to the task queue. */
  datatype Submission = Submission(args: seq<Value>, priority: int)

  /** The submission for a request: the wrapper's name and the request's dict
      as the two task arguments, with the given priority. The dict determines
      the request, so the worker receives it without loss. */
  function SubmissionFor(input: ForwardInput, priority: int): (s: Submission)
    ensures |s.args| == 2 && s.args[0] == VStr(WrapperName)
    ensures s.args[1].VDict? && s.args[1].entries.Keys == {ModelNameKey, SmilesKey}
    ensures InputFromDict(s.args[1]) == Some(input)
    ensures s.priority == priority
  {
    Submission([VStr(WrapperName), InputToDict(input)], priority)
  }

  /** `call_async`: submit and return the queue's task id at once; the
      priority defaults to 0. `enqueue` stands for the queue submission. */
  function CallAsync(input: ForwardInput, enqueue: Submission -> string,
                     priority: int := DefaultPriority): (taskId: string)
    ensures exists s: Submission ::
              && taskId == enqueue(s)
              && |s.args| == 2 && s.args[0] == VStr(WrapperName)
              && s.args[1].VDict? && s.args[1].entries.Keys == {ModelNameKey, SmilesKey}
              && InputFromDict(s.args[1]) == Some(input)
              && s.priority == priority
  {
    var s := SubmissionFor(input, priority);
    enqueue(s)
  }

  /** Leaving out the priority submits at priority 0. */
  lemma AsyncDefaultPriority(input: ForwardInput, enqueue: Submission -> string)
    ensures CallAsync(input, enqueue) == CallAsync(input, enqueue, 0)
    ensures CallAsync(input, enqueue) == enqueue(Submission([VStr(WrapperName), InputToDict(input)], 0))
  {
  }

  /** The dict form of a response, as a worker returns it to the queue. */
  function EncodeResponse(response: ForwardResponse): (v: Value)
    ensures v.VDict? && v.entries.Keys == {"status_code", "message", "result"}
    ensures v.entries["status_code"] == VInt(response.statusCode)
    ensures v.entries["message"] == VStr(response.message)
    ensures v.entries["result"].VList? && DecodeResults(v.entries["result"].items) == Some(response.result)
  {
    ResultsRoundTrip(response.result);
    VDict(map["status_code" := VInt(response.statusCode),
              "message" := VStr(response.message),
              "result" := VList(EncodeResults(response.result))])
  }
}
