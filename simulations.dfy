/**
 * The simulation endpoints (cw3/app/routers/simulations.py): run a simulation
 * against the mock provider, list its models, look one model up by id.
 * Each endpoint's `except` clauses are a pure mapping from what was raised
 * in its `try` block to the HTTP error it answers with.
 */
module Simulations {
  import opened Wrappers
  import opened DecimalFormat
  import opened Models
  import opened Dependencies

  // ---------------------------------------------------------------------------
  // Error mapping
  // ---------------------------------------------------------------------------

  /** What a `try` block can raise: an HTTP exception, or any other exception with its text. */
  datatype Raised = HttpRaised(error: ErrorResponse) | OtherRaised(message: string)

  const BadRequest: int := 400
  const NotFound: int := 404
  const InternalServerError: int := 500

  const BadCapacityDetail: string := "Количество серверов должно быть положительным числом"
  const RunFailurePrefix: string := "Внутренняя ошибка при выполнении симуляции: "
  const ListFailurePrefix: string := "Не удалось получить список моделей: "
  const LookupFailurePrefix: string := "Ошибка при поиске модели: "

  function NotFoundDetail(modelId: string): string {
    "Модель с ID " + modelId + " не найдена"
  }

  /** A 500 whose detail is `prefix` followed by the exception's text. */
  function InternalError(prefix: string, message: string): (e: ErrorResponse)
    ensures e.statusCode == 500
    ensures |e.detail| == |prefix| + |message|
    ensures e.detail[..|prefix|] == prefix && e.detail[|prefix|..] == message
  {
    ErrorResponse(prefix + message, InternalServerError)
  }

  /** The original message can be recovered from a 500's detail: different failures stay apart. */
  lemma InternalErrorKeepsMessage(prefix: string, m1: string, m2: string)
    requires InternalError(prefix, m1) == InternalError(prefix, m2)
    ensures m1 == m2
  {
  }

  /**
   * `run_simulation`'s handlers: an HTTPException is re-raised unchanged,
   * anything else becomes a 500 carrying the original message.
   */
  function RunSimulationFailure(raised: Raised): (e: ErrorResponse)
    ensures raised.HttpRaised? ==> e == raised.error
    ensures raised.OtherRaised? ==> e == InternalError(RunFailurePrefix, raised.message)
  {
    match raised
    case HttpRaised(error) => error
    case OtherRaised(message) => InternalError(RunFailurePrefix, message)
  }

  /** `get_model_by_id`'s handlers: the same shape with their own prefix. */
  function LookupFailure(raised: Raised): (e: ErrorResponse)
    ensures raised.HttpRaised? ==> e == raised.error
    ensures raised.OtherRaised? ==> e == InternalError(LookupFailurePrefix, raised.message)
  {
    match raised
    case HttpRaised(error) => error
    case OtherRaised(message) => InternalError(LookupFailurePrefix, message)
  }

  /** The text `str(e)` of an HTTP exception: its status code, a colon and its detail. */
  function HttpExceptionText(error: ErrorResponse): string {
    StatusText(error.statusCode) + ": " + error.detail
  }

  function StatusText(code: int): string {
    if code >= 0 then Decimal(code) else "-" + Decimal(-code)
  }

  /**
   * `get_models` has a single `except Exception`: every failure, an HTTP
   * exception included, becomes a 500 carrying the exception's text.
   */
  function ListModelsFailure(raised: Raised): (e: ErrorResponse)
    ensures e.statusCode == 500
    ensures raised.OtherRaised? ==> e == InternalError(ListFailurePrefix, raised.message)
    ensures raised.HttpRaised? ==> e == InternalError(ListFailurePrefix, HttpExceptionText(raised.error))
  {
    match raised
    case HttpRaised(error) => InternalError(ListFailurePrefix, HttpExceptionText(error))
    case OtherRaised(message) => InternalError(ListFailurePrefix, message)
  }

  // ---------------------------------------------------------------------------
  // POST /simulations/run
  // ---------------------------------------------------------------------------

  /**
   * What `run_simulation` answers for `request` on a client that has already
   * created `counter` simulations, at time `now`.
   */
  function RunSimulationOutcome(request: SimulationRequest, counter: nat, now: Timestamp)
    : (outcome: HttpOutcome<SimulationResponse>)
    ensures outcome.Ok? <==> 0 < request.serverCapacity && !FloatOverflows(request.serverCapacity)
    ensures request.serverCapacity <= 0 ==> outcome == Err(ErrorResponse(BadCapacityDetail, 400))
    ensures 0 < request.serverCapacity && FloatOverflows(request.serverCapacity) ==>
      outcome == Err(InternalError(RunFailurePrefix, FloatOverflowMessage))
    ensures outcome.Ok? ==>
      var r := outcome.response;
      && ParseSimulationId(r.simulationId) == Some(counter + 1)
      && r.serverCapacity == request.serverCapacity
      && r.meanQueueSize == MeanQueueSize(request.serverCapacity) >= 0.0
      && r.serverUtilization == Utilization(request.serverCapacity) <= 100.0
      && r.rawOutputs.Keys == {MeanQueueSizeKey, UtilizationKey}
      && r.rawOutputs[MeanQueueSizeKey] == r.meanQueueSize
      && r.rawOutputs[UtilizationKey] == r.serverUtilization
      && r.status == "completed"
      && r.timestamp == Some(now)
  {
    var c := request.serverCapacity;
    if c <= 0 then
      Err(RunSimulationFailure(HttpRaised(ErrorResponse(BadCapacityDetail, BadRequest))))
    else if FloatOverflows(c) then
      Err(RunSimulationFailure(OtherRaised(FloatOverflowMessage)))
    else
      SimulationIdRoundTrip(counter + 1);
      var outputs := NewOutputs(c);
      Ok(SimulationResponse(
        SimulationId(counter + 1), c,
        outputs.Value(MeanQueueSizeKey), outputs.Value(UtilizationKey),
        outputs.GetRawOutputs(), "completed", Some(now)))
  }

  /** The client calls a successful guard leads to, in the order they are made. */
  function RunCalls(request: SimulationRequest): (calls: seq<ClientCall>)
    ensures |calls| == 3
  {
    [ LatestVersionCall(request.modelName),
      InputsCall(NewModelVersion("latest", request.modelName), request.experimentName),
      SimulationCall(map[ServerCapacityInput := request.serverCapacity]) ]
  }

  lemma AppendThree(log: seq<ClientCall>, a: ClientCall, b: ClientCall, c: ClientCall)
    ensures log + [a] + [b] + [c] == log + [a, b, c]
  {
  }

  /**
   * `run_simulation`: the capacity guard comes first and leaves the client
   * untouched; then the client is asked, in order, for the model version, a
   * fresh input set (whose "Server capacity" is set to the request's before
   * the simulation is created), a new simulation and its outputs, from which
   * the two named metrics are read. A capacity with no float still creates
   * the simulation before the run raises.
   */
  method RunSimulation(request: SimulationRequest, client: MockCloudClient, now: Timestamp)
    returns (outcome: HttpOutcome<SimulationResponse>)
    modifies client
    ensures outcome == RunSimulationOutcome(request, old(client.simulationCounter), now)
    ensures request.serverCapacity <= 0 ==> unchanged(client)
    ensures request.serverCapacity > 0 ==>
      client.simulationCounter == old(client.simulationCounter) + 1 &&
      client.calls == old(client.calls) + RunCalls(request)
    ensures outcome.Ok? ==> outcome.response.simulationId == SimulationId(client.simulationCounter)
  {
    if request.serverCapacity <= 0 {
      outcome := Err(RunSimulationFailure(HttpRaised(ErrorResponse(BadCapacityDetail, BadRequest))));
      return;
    }
    var c := request.serverCapacity;
    ghost var before := client.calls;
    var version := client.GetLatestModelVersion(request.modelName);
    var inputs := client.CreateInputsFromExperiment(version, request.experimentName);
    inputs.SetInput(ServerCapacityInput, c);
    var simulation := client.CreateSimulation(inputs);
    AppendThree(before, RunCalls(request)[0], RunCalls(request)[1], RunCalls(request)[2]);
    assert client.calls == before + RunCalls(request);
    var run := simulation.GetOutputsAndRunIfAbsent();
    if run.Failure? {
      assert FloatOverflows(c);
      outcome := Err(RunSimulationFailure(OtherRaised(run.message)));
      return;
    }
    var outputs := run.value;
    assert outputs == NewOutputs(c);
    var meanQueueSize := outputs.Value(MeanQueueSizeKey);
    var serverUtilization := outputs.Value(UtilizationKey);
    outcome := Ok(SimulationResponse(
      simulation.id, c, meanQueueSize, serverUtilization,
      outputs.GetRawOutputs(), "completed", Some(now)));
    assert outcome == RunSimulationOutcome(request, old(client.simulationCounter), now);
  }

  /**
   * The endpoint as served: `Depends(get_cloud_client)` injects a new client
   * per request, so a successful run is always simulation "sim_0001".
   */
  method RunSimulationEndpoint(request: SimulationRequest, now: Timestamp)
    returns (outcome: HttpOutcome<SimulationResponse>)
    ensures outcome == RunSimulationOutcome(request, 0, now)
    ensures outcome.Ok? <==> request.serverCapacity > 0 && !FloatOverflows(request.serverCapacity)
    ensures outcome.Ok? ==> outcome.response.simulationId == "sim_0001"
  {
    var client := GetCloudClient();
    outcome := RunSimulation(request, client, now);
    FirstSimulationIds();
  }

  /**
   * Five servers, with the experiment named "Baseline" as the earlier
   * gateway's request record defaults it: a queue of 2.5 at 90 percent
   * utilization on simulation "sim_0001".
   */
  lemma FiveServerScenario(now: Timestamp)
    ensures var outcome := RunSimulationOutcome(
              SimulationRequest(5, "Service System Demo", "Baseline"), 0, now);
      && outcome.Ok?
      && outcome.response.simulationId == "sim_0001"
      && outcome.response.meanQueueSize == 2.5
      && outcome.response.serverUtilization == 90.0
  {
  }

  // ---------------------------------------------------------------------------
  // GET /simulations/models
  // ---------------------------------------------------------------------------

  /** One listing entry: version detail only when asked for and when a latest version exists. */
  function ToModelInfo(m: MockModel, includeVersions: bool): (info: ModelInfo)
    ensures info.id == m.id && info.name == m.name
    ensures info.latestVersionId.None? <==> m.latestVersion.None?
    ensures m.latestVersion.Some? ==> info.latestVersionId == Some(m.latestVersion.value.id)
    ensures info.versionName.Some? <==> includeVersions && m.latestVersion.Some?
    ensures info.versionNumber.Some? <==> includeVersions && m.latestVersion.Some?
    ensures info.versionName.Some? ==> info.versionName.value == m.latestVersion.value.name
    ensures info.versionNumber.Some? ==> info.versionNumber.value == m.latestVersion.value.number
  {
    var info := ModelInfo(m.id, m.name,
      if m.latestVersion.Some? then Some(m.latestVersion.value.id) else None);
    if includeVersions && m.latestVersion.Some? then
      info.(versionName := Some(m.latestVersion.value.name),
            versionNumber := Some(m.latestVersion.value.number))
    else info
  }

  /** The listing as a value: entry i describes model i. */
  function ListModelInfos(models: seq<MockModel>, includeVersions: bool): (infos: seq<ModelInfo>)
    ensures |infos| == |models|
    ensures forall i :: 0 <= i < |models| ==> infos[i] == ToModelInfo(models[i], includeVersions)
  {
    seq(|models|, i requires 0 <= i < |models| => ToModelInfo(models[i], includeVersions))
  }

  /**
   * `get_models`: one entry per provider model, in the provider's order.
   * The mock provider never raises, so the answer is always a listing.
   */
  method GetModels(client: MockCloudClient, includeVersions: bool)
    returns (outcome: HttpOutcome<seq<ModelInfo>>)
    ensures outcome == Ok(ListModelInfos(client.GetModels(), includeVersions))
  {
    var models := client.GetModels();
    var result: seq<ModelInfo> := [];
    for i := 0 to |models|
      invariant |result| == i
      invariant forall j :: 0 <= j < i ==> result[j] == ToModelInfo(models[j], includeVersions)
    {
      var model := models[i];
      var info := ModelInfo(model.id, model.name,
        if model.latestVersion.Some? then Some(model.latestVersion.value.id) else None);
      if includeVersions && model.latestVersion.Some? {
        info := info.(versionName := Some(model.latestVersion.value.name),
                      versionNumber := Some(model.latestVersion.value.number));
      }
      result := result + [info];
    }
    assert result == ListModelInfos(models, includeVersions);
    outcome := Ok(result);
  }

  // ---------------------------------------------------------------------------
  // GET /simulations/models/{model_id}
  // ---------------------------------------------------------------------------

  /** The index of the first model whose id is `modelId`, if any. */
  function FirstMatch(models: seq<MockModel>, modelId: string): (k: Option<nat>)
    ensures k.Some? ==> k.value < |models| && models[k.value].id == modelId
    ensures k.Some? ==> forall j :: 0 <= j < k.value ==> models[j].id != modelId
    ensures k.None? <==> forall j :: 0 <= j < |models| ==> models[j].id != modelId
  {
    if models == [] then None
    else if models[0].id == modelId then Some(0)
    else
      match FirstMatch(models[1..], modelId)
      case None => None
      case Some(k) => Some(k + 1)
  }

  /** A found model is described with every version field its latest version has. */
  function DetailedModelInfo(m: MockModel): (info: ModelInfo)
    ensures info == ToModelInfo(m, true)
  {
    ModelInfo(m.id, m.name,
      if m.latestVersion.Some? then Some(m.latestVersion.value.id) else None,
      if m.latestVersion.Some? then Some(m.latestVersion.value.name) else None,
      if m.latestVersion.Some? then Some(m.latestVersion.value.number) else None)
  }

  /** What `get_model_by_id` answers over the listing `models`. */
  function LookupModel(models: seq<MockModel>, modelId: string): (outcome: HttpOutcome<ModelInfo>)
    ensures outcome.Ok? <==> exists j :: 0 <= j < |models| && models[j].id == modelId
    ensures outcome.Err? ==> outcome.error == ErrorResponse(NotFoundDetail(modelId), 404)
    ensures outcome.Ok? ==> outcome.response.id == modelId
    ensures outcome.Ok? ==> exists k ::
      && 0 <= k < |models|
      && models[k].id == modelId
      && (forall j :: 0 <= j < k ==> models[j].id != modelId)
      && outcome.response == ToModelInfo(models[k], true)
  {
    match FirstMatch(models, modelId)
    case Some(k) => Ok(DetailedModelInfo(models[k]))
    case None => Err(LookupFailure(HttpRaised(ErrorResponse(NotFoundDetail(modelId), NotFound))))
  }

  /**
   * `get_model_by_id`: a linear scan that answers the first model with the
   * requested id; the 404 raised when none matches passes through unchanged.
   */
  method GetModelById(client: MockCloudClient, modelId: string) returns (outcome: HttpOutcome<ModelInfo>)
    ensures outcome == LookupModel(client.GetModels(), modelId)
  {
    var models := client.GetModels();
    for i := 0 to |models|
      invariant forall j :: 0 <= j < i ==> models[j].id != modelId
    {
      if models[i].id == modelId {
        outcome := Ok(DetailedModelInfo(models[i]));
        return;
      }
    }
    outcome := Err(LookupFailure(HttpRaised(ErrorResponse(NotFoundDetail(modelId), NotFound))));
  }

  /**
   * Lookup agrees with listing: over a listing with distinct ids, looking up
   * the i-th listed id answers exactly the i-th entry of the detailed listing.
   */
  lemma LookupAgreesWithListing(models: seq<MockModel>, i: nat)
    requires DistinctIds(models) && i < |models|
    ensures LookupModel(models, models[i].id) == Ok(ListModelInfos(models, true)[i])
  {
  }

  /** Against the mock catalogue, "model_2" is found with its version detail. */
  lemma CatalogueFindsModel2()
    ensures LookupModel(Catalogue(), "model_2") == Ok(ModelInfo(
      "model_2", "Manufacturing Line Demo", Some("version_model_2"), Some("Manufacturing Line Demo"), Some(1)))
  {
    var models := Catalogue();
    assert models[0].id == "model_1" != "model_2";
    assert FirstMatch(models, "model_2") == Some(1) by {
      assert models[1..][0].id == "model_2";
    }
    assert "version_" + "model_2" == "version_model_2";
  }

  /** Against the mock catalogue, an id it does not list is a 404 naming that id. */
  lemma CatalogueMissesModel4()
    ensures LookupModel(Catalogue(), "model_4") == Err(ErrorResponse(NotFoundDetail("model_4"), 404))
  {
  }
}
