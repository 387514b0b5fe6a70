# Service controller of the swirl console, modelled in Dafny

This project models the core of the service controller of swirl, a web console for Docker Swarm.
The controller does three things that can be stated precisely:

- **Sampling planner.** It picks the Prometheus query step from the requested chart window.
- **Time-series normalizer.** It reshapes the CPU and memory range-query matrices into chart datasets.
- **Lifecycle coordinator.** It runs the create, update, scale, rollback and batch delete handlers.
  Each handler calls the Docker orchestrator and appends an audit event when the call succeeds.

Files:

- `planner.dfy` (module `SamplingPlanner`): the step chosen for a window.
  Durations are integer nanoseconds, as Go's `time.Duration` is.
- `normalizer.dfy` (module `Normalizer`): the nested reshaping loops as a method.
  The metrics handler is a method that takes the metrics backend and the clock as parameters.
- `coordinator.dfy` (module `Coordinator`): the class `ServiceController`.
  - It holds the audit log (`events`) and the trace of orchestration calls with their answers (`trace`).
  - Its invariant `Valid()` says the log is exactly one `(action, name)` record per successful call, in call order.
  - The orchestrator is a function from the calls made so far and the new call to an optional error.
    The registry store, request binding and the spec normalizer are parameters too.
- `strings.dfy` (module `Strings`): `strings.Split` on a one-character separator, with the `Join` that inverts it.
- `strconv.dfy` (module `Strconv`): `strconv.Atoi` on a 64-bit platform, the decimal formatting it inverts, and the `uint64(...)` conversion.
  These are the Go standard-library calls the handlers depend on.
- `outcomes.dfy` (module `Outcomes`): `Option` and `Result`.

Three behaviours of the code are worth stating plainly:

- **A negative scale count is not refused.** `strconv.Atoi` accepts `"-1"`, and `uint64(count)` turns it into 2^64−1 replicas. See `Strconv.MinusOneWraps`.
- **Registry errors.** A registry lookup error is wrapped as "load registry info failed". A missing record is reported as "can't load registry info". These are `RegistryLoadFailed` and `RegistryMissing`.
- **Where names come from.** Scale and rollback take the service name from the form field `name`, not from the path. Update takes it from the path.

## Model

| member | source | states |
|---|---|---|
| `SamplingPlanner.Step` | controller/service.go:322-333 | the step is always one of 1, 2, 3, 5 or 10 minutes |
| `SamplingPlanner.StepFollowsPolicy` | controller/service.go:322-333 | the if/else chain equals the policy table (24h→10m, 12h→5m, 6h→3m, 3h→2m) read top-down, first match wins, with 1m as the fallback |
| `SamplingPlanner.StepBands` | controller/service.go:322-333 | each band with inclusive lower bounds: ≥24h gives 10m, [12h,24h) gives 5m, [6h,12h) gives 3m, [3h,6h) gives 2m, below 3h gives 1m |
| `SamplingPlanner.StepMonotone` | controller/service.go:322-333 | a longer window never gets a smaller step |
| `SamplingPlanner.StepBoundsSamples` | controller/service.go:322-333 | below one day a window holds fewer than 288 steps, and below three hours fewer than 180 |
| `SamplingPlanner.DefaultStep` | controller/service.go:321-333 | the default one-hour window is sampled every minute |
| `Normalizer.MemoryValue` | controller/service.go:393 | dividing by 1024 twice is undone by multiplying by 1048576 (exact conversion to mebibytes) |
| `Normalizer.ValueExamples` | controller/service.go:365-393 | 1048576 bytes chart as 1.0, 0 as 0, and a CPU value of 42.5 stays 42.5 |
| `Normalizer.ReshapeMatrix` | controller/service.go:359-372 | one dataset per stream in backend order, named by its label, one point per sample in order, timestamps unchanged, values passed through the conversion (the same loop serves lines 385-398) |
| `Normalizer.ReshapedUnique` | controller/service.go:359-372 | the reshaping relation fixes the output completely |
| `Normalizer.ReshapedPreservesCount` | controller/service.go:364-370 | the datasets hold exactly as many points as the matrix holds samples |
| `Normalizer.ServiceMetrics` | controller/service.go:320-409 | a setup error issues no query. The CPU query is issued over [now−period, now] with `Step(period)`, and its failure ends the request with no memory query. A memory failure gives no output. Otherwise the result maps exactly `cpu` and `memory` to the reshaped CPU matrix (values unchanged) and memory matrix (values in MiB) |
| `Strings.Split` | controller/service.go:140 | the names are as many as the commas plus one, and no name contains a comma |
| `Strings.JoinSplit` | controller/service.go:140 | splitting loses nothing: re-joining with commas gives the form value back |
| `Strings.SplitJoin` | controller/service.go:140 | comma-free names joined with commas split back into the same names |
| `Strings.SplitExamples` | controller/service.go:140 | an empty form value is one empty name, `a,b,c` is three names in order, and a trailing comma adds an empty name |
| `Strconv.Atoi` | controller/service.go:258 | a parsed count lies in the signed 64-bit range, the empty string is a syntax error, and an error carries the rejected text |
| `Strconv.ScanUintDecides` | controller/service.go:258 | the digit scan overflows exactly when the leading run of digits spells more than 2^64−1; otherwise it fails at a following non-digit, or yields the value of the whole string |
| `Strconv.AtoiDecides` | controller/service.go:258-261 | after an optional sign, an empty rest is a syntax error. An overflowing leading run of digits is a range error, checked before any following non-digit, which is a syntax error. A value outside the signed 64-bit range is a range error. Anything else parses to its signed value |
| `Strconv.AtoiOverflowFirst` | controller/service.go:258-261 | digits spelling 2^64 or more are a range error whatever follows them |
| `Strconv.OverflowBeforeNonDigitExample` | controller/service.go:258-261 | `99999999999999999999x` is a range error, not a syntax error |
| `Strconv.AtoiFormatInt` | controller/service.go:258 | parsing the decimal spelling of any integer gives it back when it fits in 64 bits, and is a range error otherwise |
| `Strconv.AtoiRejectsNonDigit` | controller/service.go:258-261 | a character that is neither a digit nor a leading sign makes the count a syntax error (e.g. `abc`), provided the digits before it do not exceed 2^64−1 |
| `Strconv.ToUint64` | controller/service.go:263 | `uint64(count)` is below 2^64, keeps non-negative values and adds 2^64 to negative ones |
| `Strconv.MinusOneWraps` | controller/service.go:258-263 | the count `-1` parses and is sent as 2^64−1 replicas |
| `Coordinator.AuditOfAppend` | controller/service.go:205-207 | a successful call adds its one record to the audit, a failed call adds nothing |
| `Coordinator.AuditOfBounded` | controller/service.go:205-207 | the audit never holds more records than calls were made |
| `Coordinator.AuditOfFailures` | controller/service.go:263-266 | calls that all failed leave no audit record |
| `Coordinator.CreateSpec` | controller/service.go:192-203 | the spec can be sent iff no registry is named or the named registry's record is found. With no registry it is unchanged. With one, the image becomes `url + "/" + image` and the credentials are attached. A lookup error and a missing record are distinct errors |
| `Coordinator.CreateSpecKeepsImage` | controller/service.go:201 | the rewritten image is the registry URL, a slash, then the original image, so the original can be read back |
| `Coordinator.CreateSpecExample` | controller/service.go:201 | registry `r1` at `reg.example.com` turns `nginx` into `reg.example.com/nginx` |
| `Coordinator.UpdateSpecForcesName` | controller/service.go:244-246 | with a name-keeping normalizer, the updated spec is named after the path whatever the body said |
| `Coordinator.ServiceController.InvokeAudited` | controller/service.go:263-266 | one orchestration call is appended to the trace with its answer, and its record is appended to the log iff it succeeded |
| `Coordinator.ServiceController.Delete` | controller/service.go:139-148 | names are removed in order. Each removal is answered given the calls before it. Every removal but possibly the last succeeded. If all succeed, the log gains one Delete record per name in order. Otherwise the first failure is reported, the log gains records only for the names before it, and later names are never tried |
| `Coordinator.ServiceController.Create` | controller/service.go:184-209 | a bind error or an unresolved registry makes no call and no record. Otherwise the rewritten spec is created, and one Create record is appended iff the call succeeded |
| `Coordinator.ServiceController.Update` | controller/service.go:241-254 | a bind error makes no call and no record. Otherwise the body renamed after the path and normalized is sent, and one Update record is appended iff the call succeeded |
| `Coordinator.ServiceController.Scale` | controller/service.go:256-268 | an unparsable count fails before any call or record. A parsed count is sent as `uint64(count)`, and one Scale record is appended iff the call succeeded |
| `Coordinator.ServiceController.Rollback` | controller/service.go:270-277 | exactly one rollback call, with no check of its own. Its error is reported as it came, and one Rollback record is appended iff it succeeded |

## Left out

- HTTP routing, the struct-tag route table (controller/service.go:26-63), `ctx.Bind`, template rendering and the JSON/ajax responses are framework glue.
  - Binding is an input that is either the bound spec or the bind error.
  - A failure is reported as `Failure(error)`. The code returns some errors directly and reports others through `ajaxResult`; the model does not distinguish the two. The direct returns are: create's bind error and both registry errors (controller/service.go:188, 196, 198), and scale's count parse error (controller/service.go:260).
- The read-only handlers (`serviceList`, `serviceDetail`, `serviceRaw`, `serviceLogs`, `serviceNew`, `serviceEdit`, `serviceStats`, `servicePermEdit`) only fetch and render.
- `permUpdate` (the `service.perm.update` handler, controller/service.go:39, 59) writes permissions. It is out of scope: its body is not part of this model.
- Docker, the registry store, the settings store and the event store are foreign calls. They become oracle parameters and an in-memory append. The event store is assumed to accept every record.
- The acting user (`ctx.User()`) stored with each event is not part of the modelled record.
- `Normalize` and `GetEncodedAuth` are not part of this model. The normalizer is an arbitrary function parameter, and the encoded credentials are a field of the registry record.
- `ServiceInfo` carries only name, image, registry and credentials. The other spec fields are passed through by code that is not part of this model.
- Coordinator.UpdateSpecForcesName: states that the sent name equals the path only for a normalizer that keeps names, because what `Normalize` does is not part of this model. `ServiceController.Update` itself states the sent spec as the normalizer applied to the renamed body.
- Prometheus client construction, the PromQL text, `time.Now()` and the `value.(pm.Matrix)` assertion are left out.
  - The clock is a parameter.
  - A query is identified by its metric, service, window and step.
  - The backend answers with a matrix or an error.
  - Loading the settings and building the client are folded into one optional setup error.
- Parsing of the `time` parameter (`cast.ToDuration`) is not modelled. The handler receives the parsed window, or nothing, in which case it uses one hour.
- Sample values are `real`. IEEE rounding is not modelled; dividing by a power of two is exact in both.
- Go leaves nil slices where the model has empty sequences, and the JSON encoder writes them as `null` instead of `[]`. This happens in two places:
  - an empty matrix gives a nil dataset list (`"cpu": null`);
  - a stream with no samples gives a dataset whose `ds.Data` is nil (`"data": null`).
- `strings.Split` is modelled for a one-character separator, the only one the handler uses. `strconv.Atoi` reads characters where Go reads bytes, which accepts and rejects the same strings with the same error kind.
- The commented-out start-time query (controller/service.go:400-403) is dead code.
