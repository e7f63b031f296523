/**
 * The in-repository mock of the simulation provider (cw3/app/dependencies.py):
 * a fixed catalogue of three models, an input-parameter dictionary updated in
 * place, a closed-form output bag, and a client that numbers the simulations
 * it creates.
 */
module Dependencies {
  import opened Wrappers
  import opened DecimalFormat

  // ---------------------------------------------------------------------------
  // Models and versions (values: never changed after construction)
  // ---------------------------------------------------------------------------

  datatype MockModelVersion = MockModelVersion(id: string, name: string, number: int)

  datatype MockModel = MockModel(id: string, name: string, latestVersion: Option<MockModelVersion>)

  /** `MockModelVersion(model_id, name)`: the id is the model id behind "version_". */
  function NewModelVersion(modelId: string, name: string): (v: MockModelVersion)
    ensures |v.id| == 8 + |modelId| && v.id[..8] == "version_" && v.id[8..] == modelId
    ensures v.name == name && v.number == 1
  {
    MockModelVersion("version_" + modelId, name, 1)
  }

  /** `MockModel(model_id, name)`: every mock model has a latest version. */
  function NewModel(modelId: string, name: string): (m: MockModel)
    ensures m.id == modelId && m.name == name
    ensures m.latestVersion == Some(NewModelVersion(modelId, name))
  {
    MockModel(modelId, name, Some(NewModelVersion(modelId, name)))
  }

  /** Different model ids give different version ids. */
  lemma VersionIdInjective(m1: string, n1: string, m2: string, n2: string)
    requires NewModelVersion(m1, n1).id == NewModelVersion(m2, n2).id
    ensures m1 == m2
  {
  }

  /** The three demo models, in the order the client lists them. */
  function Catalogue(): seq<MockModel> {
    [ NewModel("model_1", "Service System Demo"),
      NewModel("model_2", "Manufacturing Line Demo"),
      NewModel("model_3", "Supply Chain Demo") ]
  }

  predicate DistinctIds(models: seq<MockModel>) {
    forall i, j :: 0 <= i < j < |models| ==> models[i].id != models[j].id
  }

  lemma CatalogueContents()
    ensures |Catalogue()| == 3
    ensures Catalogue()[0].id == "model_1" && Catalogue()[0].name == "Service System Demo"
    ensures Catalogue()[1].id == "model_2" && Catalogue()[1].name == "Manufacturing Line Demo"
    ensures Catalogue()[2].id == "model_3" && Catalogue()[2].name == "Supply Chain Demo"
    ensures forall i :: 0 <= i < 3 ==>
      Catalogue()[i].latestVersion == Some(MockModelVersion(
        "version_" + Catalogue()[i].id, Catalogue()[i].name, 1))
    ensures DistinctIds(Catalogue())
  {
  }

  // ---------------------------------------------------------------------------
  // Inputs: a dictionary updated in place
  // ---------------------------------------------------------------------------

  const ServerCapacityInput: string := "Server capacity"

  class MockInputs {
    var params: map<string, int>

    /** Inputs start empty. */
    constructor ()
      ensures params == map[]
    {
      params := map[];
    }

    /** `set_input`: binds `name` to `value` and leaves every other entry alone. */
    method SetInput(name: string, value: int)
      modifies this
      ensures params == old(params)[name := value]
      ensures name in params && params[name] == value
      ensures params.Keys == old(params.Keys) + {name}
      ensures forall k :: k in old(params) && k != name ==> params[k] == old(params)[k]
    {
      params := params[name := value];
    }
  }

  // ---------------------------------------------------------------------------
  // Outputs: the closed-form bag computed from the server capacity
  // ---------------------------------------------------------------------------

  const MeanQueueSizeKey: string := "Mean queue size|Mean queue size"
  const UtilizationKey: string := "Utilization|Server utilization"

  /** `max(0, 10 - c * 1.5)`: the mean queue size never goes below zero. */
  function MeanQueueSize(c: int): (q: real)
    ensures q >= 0.0 && q >= 10.0 - 1.5 * c as real
    ensures q == 0.0 || q == 10.0 - 1.5 * c as real
  {
    if 0.0 >= 10.0 - c as real * 1.5 then 0.0 else 10.0 - c as real * 1.5
  }

  /** `min(100, 50 + c * 8)`: the utilization never goes above 100 percent. */
  function Utilization(c: int): (u: real)
    ensures u <= 100.0 && u <= 50.0 + 8.0 * c as real
    ensures u == 100.0 || u == 50.0 + 8.0 * c as real
  {
    if 100.0 <= 50.0 + c as real * 8.0 then 100.0 else 50.0 + c as real * 8.0
  }

  /** From seven servers up the queue is empty and the servers saturate. */
  lemma Saturation(c: int)
    ensures MeanQueueSize(c) == 0.0 <==> c >= 7
    ensures Utilization(c) == 100.0 <==> c >= 7
  {
  }

  /** More servers never lengthen the queue nor lower the utilization. */
  lemma Monotone(c: int, d: int)
    requires c <= d
    ensures MeanQueueSize(d) <= MeanQueueSize(c)
    ensures Utilization(c) <= Utilization(d)
  {
  }

  datatype MockOutputs = MockOutputs(serverCapacity: int, data: map<string, real>) {

    /** `value(key)`: the stored metric, 0.0 for a key the bag does not hold. */
    function Value(key: string): (v: real)
      ensures key in data ==> v == data[key]
      ensures key !in data ==> v == 0.0
    {
      if key in data then data[key] else 0.0
    }

    /** `get_raw_outputs()`: the bag itself. */
    function GetRawOutputs(): (raw: map<string, real>)
      ensures raw == data
    {
      data
    }
  }

  /** The bag `MockOutputs(server_capacity)` builds when the capacity has a float. */
  function NewOutputs(c: int): (o: MockOutputs)
    ensures o.serverCapacity == c
    ensures o.data.Keys == {MeanQueueSizeKey, UtilizationKey}
    ensures o.data[MeanQueueSizeKey] == MeanQueueSize(c)
    ensures o.data[UtilizationKey] == Utilization(c)
  {
    MockOutputs(c, map[MeanQueueSizeKey := MeanQueueSize(c), UtilizationKey := Utilization(c)])
  }

  /**
   * `server_capacity * 1.5` converts the integer to a float first. Python
   * refuses when the integer's magnitude reaches 2^1024 - 2^970, the point
   * halfway between the largest double (2^1024 - 2^971) and 2^1024, since
   * that rounds up to 2^1024; it raises `OverflowError` with this text.
   */
  const FloatOverflowBound: int := 179769313486231580793728971405303415079934132710037826936173778980444968292764750946649017977587207096330286416692887910946555547851940402630657488671505820681908902000708383676273854845817711531764475730270069855571366959622842914819860834936475292719074168444365510704342711559699508093042880177904174497792
  const FloatOverflowMessage: string := "int too large to convert to float"

  predicate FloatOverflows(c: int) {
    c >= FloatOverflowBound || c <= -FloatOverflowBound
  }

  /**
   * `MockOutputs(server_capacity)` as a call: it raises at the mean-queue
   * line for a capacity that has no float, and otherwise builds the bag.
   */
  function ConstructOutputs(c: int): (r: Result<MockOutputs>)
    ensures r.Failure? <==> FloatOverflows(c)
    ensures r.Failure? ==> r.message == FloatOverflowMessage
    ensures r.Success? ==> r.value == NewOutputs(c)
  {
    if FloatOverflows(c) then Failure(FloatOverflowMessage) else Success(NewOutputs(c))
  }

  /** Every capacity of at most 308 decimal digits converts: only astronomically large ones raise. */
  lemma ModestCapacitiesConstruct(c: int)
    requires -100000000000000000000000000000000000000000000000000000000000000000000000000000000000000000000000000000000000000000000000000000000000000000000000000000000000000000000000000000000000000000000000000000000000000000000000000000000000000000000000000000000000000000000000000000000000000000000000000000000000000000000 <= c <= 100000000000000000000000000000000000000000000000000000000000000000000000000000000000000000000000000000000000000000000000000000000000000000000000000000000000000000000000000000000000000000000000000000000000000000000000000000000000000000000000000000000000000000000000000000000000000000000000000000000000000000000
    ensures ConstructOutputs(c).Success?
  {
  }

  /** The two named metrics read back their formulas; every other key reads 0.0. */
  lemma OutputValues(c: int, key: string)
    ensures NewOutputs(c).Value(MeanQueueSizeKey) == MeanQueueSize(c) >= 0.0
    ensures NewOutputs(c).Value(UtilizationKey) == Utilization(c) <= 100.0
    ensures key != MeanQueueSizeKey && key != UtilizationKey ==> NewOutputs(c).Value(key) == 0.0
    ensures NewOutputs(c).GetRawOutputs() == NewOutputs(c).data
  {
  }

  /** The capacity a run reads from its inputs: "Server capacity", or 1 when unset. */
  function CapacityOf(params: map<string, int>): (c: int)
    ensures ServerCapacityInput in params ==> c == params[ServerCapacityInput]
    ensures ServerCapacityInput !in params ==> c == 1
  {
    if ServerCapacityInput in params then params[ServerCapacityInput] else 1
  }

  // ---------------------------------------------------------------------------
  // Simulations and their identifiers
  // ---------------------------------------------------------------------------

  const SimulationIdPrefix: string := "sim_"

  /** `f"sim_{n:04d}"`. */
  function SimulationId(n: nat): (id: string)
    ensures |id| >= 8 && id[..4] == "sim_" && AllDigits(id[4..])
  {
    SimulationIdPrefix + FormatZeroPadded(n, 4)
  }

  /** Partner of `SimulationId`: reads the counter back out of an identifier. */
  function ParseSimulationId(id: string): (n: Option<nat>)
    ensures n.Some? <==> |id| > 4 && id[..4] == "sim_" && AllDigits(id[4..])
  {
    if |id| > 4 && id[..4] == SimulationIdPrefix && AllDigits(id[4..])
    then Some(ParseDecimal(id[4..]))
    else None
  }

  lemma SimulationIdRoundTrip(n: nat)
    ensures ParseSimulationId(SimulationId(n)) == Some(n)
  {
    var id := SimulationId(n);
    assert id[4..] == FormatZeroPadded(n, 4);
    FormatRoundTrip(n, 4);
  }

  /** Identifiers of different counter values differ. */
  lemma SimulationIdInjective(m: nat, n: nat)
    requires m != n
    ensures SimulationId(m) != SimulationId(n)
  {
    SimulationIdRoundTrip(m);
    SimulationIdRoundTrip(n);
  }

  /** Up to 9999 simulations the identifier is "sim_" and exactly four digits. */
  lemma SimulationIdWidth(n: nat)
    requires n < 10000
    ensures |SimulationId(n)| == 8
  {
    assert Pow10(4) == 10000;
    FormatWidth(n, 4);
  }

  lemma FirstSimulationIds()
    ensures SimulationId(1) == "sim_0001"
    ensures SimulationId(2) == "sim_0002"
  {
  }

  class MockSimulation {
    const id: string
    const inputs: MockInputs

    constructor (id: string, inputs: MockInputs)
      ensures this.id == id && this.inputs == inputs
    {
      this.id := id;
      this.inputs := inputs;
    }

    /**
     * `get_outputs_and_run_if_absent()`: runs the closed-form model on the
     * capacity currently held by the (shared, mutable) inputs, raising as
     * `MockOutputs` does for a capacity that has no float.
     */
    function GetOutputsAndRunIfAbsent(): (o: Result<MockOutputs>)
      reads inputs
      ensures o.Success? ==> o.value == NewOutputs(CapacityOf(inputs.params))
      ensures o.Failure? <==> FloatOverflows(CapacityOf(inputs.params))
      ensures o.Failure? ==> o.message == FloatOverflowMessage
    {
      ConstructOutputs(CapacityOf(inputs.params))
    }
  }

  /**
   * The client's calls in the order they were made, as a ghost log. A
   * simulation call records the parameters its inputs held at creation.
   */
  datatype ClientCall =
    | LatestVersionCall(modelName: string)
    | InputsCall(version: MockModelVersion, experimentName: string)
    | SimulationCall(params: map<string, int>)

  // ---------------------------------------------------------------------------
  // The client
  // ---------------------------------------------------------------------------

  class MockCloudClient {
    const apiKey: string
    var simulationCounter: nat
    ghost var calls: seq<ClientCall>

    /** A new client has created no simulations yet. */
    constructor (apiKey: string)
      ensures this.apiKey == apiKey && simulationCounter == 0 && calls == []
    {
      this.apiKey := apiKey;
      simulationCounter := 0;
      calls := [];
    }

    /** `get_models()`: the fixed catalogue, whatever the client's state. */
    function GetModels(): (models: seq<MockModel>)
      ensures models == Catalogue()
    {
      Catalogue()
    }

    /** `get_latest_model_version(name)`: accepts any name, never fails. */
    method GetLatestModelVersion(modelName: string) returns (v: MockModelVersion)
      modifies this
      ensures v.id == "version_latest" && v.name == modelName && v.number == 1
      ensures v == NewModelVersion("latest", modelName)
      ensures simulationCounter == old(simulationCounter)
      ensures calls == old(calls) + [LatestVersionCall(modelName)]
    {
      v := NewModelVersion("latest", modelName);
      calls := calls + [LatestVersionCall(modelName)];
    }

    /** `create_inputs_from_experiment(version, name)`: a fresh, empty input set. */
    method CreateInputsFromExperiment(version: MockModelVersion, experimentName: string)
      returns (inputs: MockInputs)
      modifies this
      ensures fresh(inputs) && inputs.params == map[]
      ensures simulationCounter == old(simulationCounter)
      ensures calls == old(calls) + [InputsCall(version, experimentName)]
    {
      inputs := new MockInputs();
      calls := calls + [InputsCall(version, experimentName)];
    }

    /**
     * `create_simulation(inputs)`: advances the counter by one and names the
     * simulation after the new count; the simulation shares `inputs`.
     */
    method CreateSimulation(inputs: MockInputs) returns (sim: MockSimulation)
      modifies this
      ensures simulationCounter == old(simulationCounter) + 1
      ensures fresh(sim) && sim.inputs == inputs
      ensures sim.id == SimulationId(simulationCounter)
      ensures calls == old(calls) + [SimulationCall(inputs.params)]
    {
      simulationCounter := simulationCounter + 1;
      sim := new MockSimulation(SimulationId(simulationCounter), inputs);
      calls := calls + [SimulationCall(inputs.params)];
    }
  }

  /** `get_cloud_client()`: a brand-new demo client on every call. */
  method GetCloudClient() returns (client: MockCloudClient)
    ensures fresh(client)
    ensures client.apiKey == "DEMO_KEY" && client.simulationCounter == 0 && client.calls == []
  {
    client := new MockCloudClient("DEMO_KEY");
  }

  /**
   * Two simulations created through one freshly injected client: they are
   * "sim_0001" and "sim_0002", and so are distinct.
   */
  method FreshClientSimulationIds() returns (first: string, second: string)
    ensures first == "sim_0001" && second == "sim_0002"
    ensures first != second
  {
    var client := GetCloudClient();
    var version := client.GetLatestModelVersion("Service System Demo");
    var inputs := client.CreateInputsFromExperiment(version, "Simulation");
    var sim1 := client.CreateSimulation(inputs);
    assert sim1.id == SimulationId(1);
    var sim2 := client.CreateSimulation(inputs);
    assert sim2.id == SimulationId(2);
    FirstSimulationIds();
    first, second := sim1.id, sim2.id;
    assert first[7] != second[7];
  }
}
