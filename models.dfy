/**
 * The request and response records of the simulation API (cw3/app/models.py).
 * Field defaults are datatype-constructor defaults; pydantic's validation of
 * an incoming body (required field, `gt=0`, defaults) is `ParseSimulationRequest`.
 */
module Models {
  import opened Wrappers

  /** A creation time supplied by the caller (`datetime.now()` is not modelled). */
  type Timestamp = string

  const DefaultModelName: string := "Service System Demo"
  const DefaultExperimentName: string := "Simulation"

  datatype SimulationRequest = SimulationRequest(
    serverCapacity: int,
    modelName: string := DefaultModelName,
    experimentName: string := DefaultExperimentName)

  /** The `gt=0` constraint on `server_capacity`. */
  predicate ValidRequest(r: SimulationRequest) {
    r.serverCapacity > 0
  }

  datatype SimulationResponse = SimulationResponse(
    simulationId: string,
    serverCapacity: int,
    meanQueueSize: real,
    serverUtilization: real,
    rawOutputs: map<string, real>,
    status: string,
    timestamp: Option<Timestamp> := None)

  datatype ModelInfo = ModelInfo(
    id: string,
    name: string,
    latestVersionId: Option<string> := None,
    versionName: Option<string> := None,
    versionNumber: Option<int> := None)

  datatype ErrorResponse = ErrorResponse(detail: string, statusCode: int)

  /** What an endpoint answers: a response record, or an HTTP error. */
  datatype HttpOutcome<+T> = Ok(response: T) | Err(error: ErrorResponse)

  /**
   * Validation of a request body whose fields may be missing: the capacity
   * is required and must be positive, the two names fall back to their
   * defaults. `None` stands for pydantic's rejection of the body.
   */
  function ParseSimulationRequest(
    serverCapacity: Option<int>, modelName: Option<string>, experimentName: Option<string>
  ): (r: Option<SimulationRequest>)
    ensures r.Some? <==> serverCapacity.Some? && serverCapacity.value > 0
    ensures r.Some? ==> ValidRequest(r.value) && r.value.serverCapacity == serverCapacity.value
    ensures r.Some? && modelName.None? ==> r.value.modelName == "Service System Demo"
    ensures r.Some? && modelName.Some? ==> r.value.modelName == modelName.value
    ensures r.Some? && experimentName.None? ==> r.value.experimentName == "Simulation"
    ensures r.Some? && experimentName.Some? ==> r.value.experimentName == experimentName.value
  {
    match serverCapacity
    case None => None
    case Some(c) =>
      if c <= 0 then None
      else Some(SimulationRequest(
        c, modelName.GetOr(DefaultModelName), experimentName.GetOr(DefaultExperimentName)))
  }

  /** Records built from their required fields alone carry the declared defaults. */
  lemma RecordDefaults(c: int, simulationId: string, q: real, u: real, raw: map<string, real>,
                       status: string, id: string, name: string)
    ensures SimulationRequest(c).modelName == "Service System Demo"
    ensures SimulationRequest(c).experimentName == "Simulation"
    ensures SimulationResponse(simulationId, c, q, u, raw, status).timestamp == None
    ensures ModelInfo(id, name).latestVersionId == None
    ensures ModelInfo(id, name).versionName == None
    ensures ModelInfo(id, name).versionNumber == None
  {
  }
}
