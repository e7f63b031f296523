# Simulation gateway (cw3) with its mock provider, in Dafny

This project models the cw3 simulation gateway of the repository. The gateway is an HTTP API in
front of a simulation provider. In cw3 the provider is an in-repository mock.

- **The mock provider** (`Dependencies`):
  - a fixed catalogue of three models, each with a latest version;
  - an input-parameter dictionary (`MockInputs`, a class whose `params` map is updated in place);
  - a closed-form output bag: mean queue size `max(0, 10 - 1.5c)` and utilization `min(100, 50 + 8c)`, with lookups that fall back to 0.0;
  - a client (`MockCloudClient`, a class) that owns a simulation counter. It names each new simulation `sim_` plus the counter zero-padded to four digits.
  - `get_cloud_client` builds a new client on every call.
- **The request/response records** (`Models`): `SimulationRequest` with its `server_capacity > 0` constraint and defaults, `SimulationResponse`, `ModelInfo`, `ErrorResponse`, and an outcome type `Ok(response) | Err(error)` for HTTP answers.
- **The endpoints** (`Simulations`):
  - `run_simulation`: a capacity guard answering 400, then a fixed sequence of client calls, and an error mapping in which an HTTP exception passes through and anything else becomes a 500 carrying the original message;
  - `get_models`: a loop building one `ModelInfo` per provider model, with version detail only on request;
  - `get_model_by_id`: a linear search answering the first match or a 404.
- **The identifier format** (`DecimalFormat`): Python's `:04d` number format, with a decimal parser as its partner. Together they prove that simulation identifiers round-trip and are therefore pairwise distinct.

The formulas are over `real`, which is exact. The values they take are multiples of 0.5.

Files: `wrappers.dfy` (Option, Result), `decimal_format.dfy`, `models.dfy`, `dependencies.dfy`, `simulations.dfy`.

## Model

| member | source | states |
|---|---|---|
| `Models.ParseSimulationRequest` | cw3/app/models.py:16-28 | a body is accepted exactly when `server_capacity` is present and > 0; an accepted request keeps the capacity; a missing model name defaults to "Service System Demo" and a missing experiment name to "Simulation" |
| `Models.RecordDefaults` | cw3/app/models.py:21-76 | a request built from its capacity alone has the two default names; a response without a timestamp has `timestamp == None`; a `ModelInfo` built from id and name has all three version fields `None` |
| `DecimalFormat.FormatZeroPadded` | cw3/app/dependencies.py:101 | the `:04d` format is all digits, has the number's decimal digits at its end, is padded on the left with '0' only, and is as wide as the larger of the width and the digit count (never truncated) |
| `DecimalFormat.ParseDecimalOfDecimal` | cw3/app/dependencies.py:101 | parsing the decimal spelling of n gives n |
| `DecimalFormat.ParseIgnoresLeadingZeros` | cw3/app/dependencies.py:101 | leading zeros do not change the parsed value |
| `DecimalFormat.FormatRoundTrip` | cw3/app/dependencies.py:101 | parsing a zero-padded number gives the number back, at any width |
| `DecimalFormat.FormatInjective` | cw3/app/dependencies.py:101 | two numbers with the same zero-padded spelling are equal |
| `DecimalFormat.DecimalLength` | cw3/app/dependencies.py:101 | a number below 10^k has at most k decimal digits |
| `DecimalFormat.FormatWidth` | cw3/app/dependencies.py:101 | below 10^width the padded format is exactly `width` characters |
| `Dependencies.NewModelVersion` | cw3/app/dependencies.py:10-15 | a version's id is "version_" followed by the model id; its name is the given name and its number is 1 |
| `Dependencies.NewModel` | cw3/app/dependencies.py:18-23 | a mock model keeps its id and name and always has a latest version built from them |
| `Dependencies.VersionIdInjective` | cw3/app/dependencies.py:13 | different model ids give different version ids |
| `Dependencies.CatalogueContents` | cw3/app/dependencies.py:80-86 | the catalogue has exactly three models, `model_1`, `model_2`, `model_3` in that order, with their names; each has latest version ("version_" + id, its name, 1); the ids are distinct |
| `Dependencies.MockInputs.constructor` | cw3/app/dependencies.py:28-29 | a new input set is empty |
| `Dependencies.MockInputs.SetInput` | cw3/app/dependencies.py:31-33 | after `set_input(name, v)` the map is the old one with `name` bound to `v`: `params[name] == v`, the key set gains `name` and nothing else, every other entry keeps its value |
| `Dependencies.MeanQueueSize` | cw3/app/dependencies.py:43 | the mean queue size is at least 0 and at least 10 - 1.5c, and equals one of them (the maximum) |
| `Dependencies.Utilization` | cw3/app/dependencies.py:44 | the utilization is at most 100 and at most 50 + 8c, and equals one of them (the minimum) |
| `Dependencies.Saturation` | cw3/app/dependencies.py:43-44 | the queue is empty exactly when c >= 7, and the utilization is 100 exactly when c >= 7 |
| `Dependencies.Monotone` | cw3/app/dependencies.py:43-44 | more servers never lengthen the queue and never lower the utilization |
| `Dependencies.MockOutputs.Value` | cw3/app/dependencies.py:47-49 | `value(key)` is the stored metric for a key in the bag and 0.0 for any other key |
| `Dependencies.MockOutputs.GetRawOutputs` | cw3/app/dependencies.py:51-53 | the raw outputs are the bag itself |
| `Dependencies.NewOutputs` | cw3/app/dependencies.py:39-45 | the bag holds exactly the two metric keys, bound to the mean-queue and utilization formulas of the capacity |
| `Dependencies.ConstructOutputs` | cw3/app/dependencies.py:39-45 | building the outputs raises `OverflowError` ("int too large to convert to float") exactly when the capacity's magnitude is at least 2^1024 - 2^970, where `server_capacity * 1.5` has no float; otherwise it gives the formula bag |
| `Dependencies.ModestCapacitiesConstruct` | cw3/app/dependencies.py:43 | every capacity of magnitude at most 10^308 builds its outputs without raising |
| `Dependencies.OutputValues` | cw3/app/dependencies.py:42-53 | reading the two named metrics gives their formulas (queue >= 0, utilization <= 100); any other key reads 0.0; the raw outputs are the bag |
| `Dependencies.CapacityOf` | cw3/app/dependencies.py:65 | a run reads "Server capacity" from the inputs, and 1 when it is unset |
| `Dependencies.MockSimulation.constructor` | cw3/app/dependencies.py:58-60 | a simulation keeps its id and shares (does not copy) its input set |
| `Dependencies.MockSimulation.GetOutputsAndRunIfAbsent` | cw3/app/dependencies.py:62-66 | the run raises exactly when the capacity currently in the shared inputs has no float, with the overflow message; otherwise the outputs are that capacity's formula bag |
| `Dependencies.SimulationId` | cw3/app/dependencies.py:101 | an id starts with "sim_" followed by at least four digits |
| `Dependencies.ParseSimulationId` | cw3/app/dependencies.py:101 | an id parses exactly when it is "sim_" followed by one or more digits |
| `Dependencies.SimulationIdRoundTrip` | cw3/app/dependencies.py:101 | parsing `SimulationId(n)` gives back n |
| `Dependencies.SimulationIdInjective` | cw3/app/dependencies.py:98-103 | different counter values give different ids, so the ids of one client are pairwise distinct |
| `Dependencies.SimulationIdWidth` | cw3/app/dependencies.py:101 | up to 9999 the id is exactly 8 characters: "sim_" and four digits |
| `Dependencies.FirstSimulationIds` | cw3/app/dependencies.py:100-101 | counters 1 and 2 give "sim_0001" and "sim_0002" |
| `Dependencies.MockCloudClient.constructor` | cw3/app/dependencies.py:75-78 | a new client keeps its API key, starts its counter at 0 and has made no calls |
| `Dependencies.MockCloudClient.GetModels` | cw3/app/dependencies.py:80-86 | the client lists the fixed catalogue whatever its state |
| `Dependencies.MockCloudClient.GetLatestModelVersion` | cw3/app/dependencies.py:88-91 | for any name, the latest version is `MockModelVersion("latest", name)`: id "version_latest", that name and number 1; the counter is unchanged and the call is appended to the client's call log |
| `Dependencies.MockCloudClient.CreateInputsFromExperiment` | cw3/app/dependencies.py:93-96 | every call gives a new, empty input set; the counter is unchanged and the call, with its version and experiment name, is appended to the call log |
| `Dependencies.MockCloudClient.CreateSimulation` | cw3/app/dependencies.py:98-103 | the counter grows by exactly 1; the new simulation shares the given inputs; its id is `SimulationId` of the new counter; the call is appended to the call log with the parameters the inputs hold at creation |
| `Dependencies.GetCloudClient` | cw3/app/dependencies.py:106-115 | every call gives a new client with key "DEMO_KEY", counter 0 and an empty call log |
| `Dependencies.FreshClientSimulationIds` | cw3/app/dependencies.py:75-115 | the first two simulations of a freshly injected client are "sim_0001" and "sim_0002", which differ |
| `Simulations.InternalError` | cw3/app/routers/simulations.py:137-143 | a 500 whose detail is the fixed prefix followed by the exception's text |
| `Simulations.InternalErrorKeepsMessage` | cw3/app/routers/simulations.py:140-143 | two 500s with the same prefix and detail come from the same message |
| `Simulations.RunSimulationFailure` | cw3/app/routers/simulations.py:133-143 | in `run_simulation` an HTTP exception is re-raised unchanged; any other exception becomes a 500 with the run-failure prefix and the original message |
| `Simulations.LookupFailure` | cw3/app/routers/simulations.py:270-278 | in `get_model_by_id` an HTTP exception (the 404) is re-raised unchanged; any other exception becomes a 500 with the lookup-failure prefix |
| `Simulations.ListModelsFailure` | cw3/app/routers/simulations.py:205-210 | in `get_models` every exception, an HTTP exception included, becomes a 500: the list-failure prefix followed by the exception's text (for an HTTP exception, `"<status>: <detail>"`) |
| `Simulations.RunSimulationOutcome` | cw3/app/routers/simulations.py:81-143 | the answer is a success exactly when 0 < capacity and the capacity has a float; capacity <= 0 is the 400 with its fixed detail; a positive capacity of magnitude 2^1024 - 2^970 or more is the 500 with the run-failure prefix and the overflow message; on success the id parses to the next counter value, the capacity is echoed, the metrics are the formulas (queue >= 0, utilization <= 100) and equal the raw bag's two entries, the bag has exactly those two keys, the status is "completed" and the timestamp is the given time |
| `Simulations.RunSimulation` | cw3/app/routers/simulations.py:50-143 | the answer is `RunSimulationOutcome` for the client's counter before the call; with capacity <= 0 the client is left untouched (no client call is made); otherwise the counter grows by 1 and exactly three client calls are appended to its log, in this order: the latest version of the request's model, inputs from that version for the request's experiment, and a simulation whose inputs held exactly `{"Server capacity": c}` when it was created; a successful response carries the new simulation's id |
| `Simulations.RunSimulationEndpoint` | cw3/app/routers/simulations.py:50-53 | with a freshly injected client the answer is a success exactly when capacity > 0 and has a float, and a successful run is always "sim_0001" |
| `Simulations.FiveServerScenario` | cw3/app/routers/simulations.py:114-131 | five servers, with the experiment "Baseline" that cw2's request record defaults to (cw2/app/models.py:7), on a fresh client give "sim_0001" with mean queue size 2.5 and utilization 90.0 |
| `Simulations.ToModelInfo` | cw3/app/routers/simulations.py:187-198 | an entry keeps the model's id and name; `latest_version_id` is None exactly when the model has no latest version; `version_name`/`version_number` are set exactly when versions were asked for and a latest version exists, and then hold its name and number |
| `Simulations.GetModels` | cw3/app/routers/simulations.py:156-210 | the listing succeeds and is `ListModelInfos` of the provider's models: one entry per model, in the provider's order |
| `Simulations.ListModelInfos` | cw3/app/routers/simulations.py:183-203 | the listing as a value: same length as the models, entry i describes model i |
| `Simulations.FirstMatch` | cw3/app/routers/simulations.py:252-253 | the index found holds the requested id and no earlier model has it; nothing is found exactly when no model has it |
| `Simulations.DetailedModelInfo` | cw3/app/routers/simulations.py:255-261 | a found model is described as the listing describes it with versions requested |
| `Simulations.LookupModel` | cw3/app/routers/simulations.py:245-278 | the lookup succeeds exactly when some model has the id, and then answers the entry with versions (`ToModelInfo(m, true)`) of the first model m with that id; otherwise it is the 404 with the "not found" detail naming the id |
| `Simulations.GetModelById` | cw3/app/routers/simulations.py:224-278 | the linear scan answers `LookupModel` over the client's models: the first id match, or the 404 passed through unchanged |
| `Simulations.LookupAgreesWithListing` | cw3/app/routers/simulations.py:249-261 | over models with distinct ids, looking up the i-th id answers exactly the i-th entry of the listing with versions |
| `Simulations.CatalogueFindsModel2` | cw3/app/routers/simulations.py:249-261 | against the mock catalogue, "model_2" is found with version id "version_model_2", version name "Manufacturing Line Demo" and number 1 |
| `Simulations.CatalogueMissesModel4` | cw3/app/routers/simulations.py:263-268 | against the mock catalogue, "model_4" is the 404 whose detail names "model_4" |

## Left out

- `cw2/app/routers/simulations.py` and `hw1/main.py` are not part of this model. They pass requests through to an external cloud client whose behaviour cannot be seen. cw2 repeats cw3's flow without the capacity check and maps every failure, whatever its kind, to a 500 with its own prefix.
- `cw4/main.py` and `cw4/schemas.py` (the item CRUD service) are not part of this model. Their store logic lives in files that are not part of the repository's shown code.
- `cw3/app/main.py` and `cw2/app/main.py` are not part of this model. They hold application wiring, middleware and logging setup. `cw2/app/models.py` is the earlier request record; it is not modelled beyond the contrast below.
- The `/simulations/health` endpoint and `get_current_user` are not modelled. They return fixed payloads and the current time.
- Logging, `async` and Swagger metadata are not modelled.
- `datetime.now()` becomes the `now` parameter.
- `Depends(get_cloud_client)` is modelled as the explicit `GetCloudClient` call in `RunSimulationEndpoint`.
- Pydantic's own 422 rejection is modelled only as `ParseSimulationRequest` returning `None`. `RunSimulation` accepts any request, so its defensive 400 branch stays reachable.
- The real provider's semantics are not modelled: authentication, run-if-absent caching, and missing-key behaviour.
- Request concurrency is not modelled. Each request gets its own client, so no state is shared between requests.
- Dependencies.MockInputs.SetInput: values are integers. The source accepts any value, but the router only ever stores the integer capacity.
- Dependencies.MeanQueueSize: the metrics are exact reals. Python returns the int `0` from `max(0, …)` and an int from `min(100, 50 + c*8)`, so the raw bag can hold ints beside floats. For the capacities the router lets through the reals agree with Python's floats: below 7 every value is a multiple of 0.5, and from 7 up the queue is 0 and the utilization an integer. Float rounding of `10 - c * 1.5` for negative capacities beyond -2^52, which no endpoint passes, is not modelled.
- Dependencies.MockOutputs.GetRawOutputs: Python hands out the same dictionary object. The model hands out its value. Nothing changes the bag afterwards, so no caller can tell the difference.
- Simulations.RunSimulationFailure: with the mock provider the only exception a run can meet is the float overflow. The other 500 branches are modelled as error-mapping functions, exercised by the 400 and 404 passthroughs and the overflow, not by a failing provider.
- Simulations.ListModelsFailure: the text `str(e)` of an HTTP exception, `"<status>: <detail>"`, comes from the web framework, which is not part of this model.
- Dependencies.ConstructOutputs: whether the request parser admits integers as large as 2^1024 belongs to the parsing library, which is not part of this model; the model lets them through to the run.
- Simulations.RunSimulation: the call log is ghost state on the client. It records the client's calls, not `set_input` on the inputs or `get_outputs_and_run_if_absent` on the simulation; those two show through the parameters recorded at creation and through the outputs.
- cw2's request record defaults `server_capacity` to 8 and `experiment_name` to "Baseline" (cw2/app/models.py:5-7). This model follows cw3's record (cw3/app/models.py:16-28): the capacity is required and the experiment defaults to "Simulation".
