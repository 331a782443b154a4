# Health-check aggregation engine and circuit breaker, in Dafny

This project models the core of an API health monitor:

- **Circuit** (`circuit_breaker.dfy`) models the circuit breaker that wraps a dependency call. It has three states, CLOSED, OPEN and HALF_OPEN. It keeps a failure counter, a last-failure timestamp and a failure threshold, and reopens lazily once the reset timeout has passed.
  - The class `CircuitBreaker` keeps the source's mutable fields.
  - Its methods `Fire`, `Reset` and `RecordFailure` are proved equal to the pure transition functions `AfterFire`, `AfterReset` and `AfterFailure`.
  - The lemmas over those functions state the transition table and the invariant that every completed call keeps. The lemmas over `Run` cover whole sequences of calls.
- **Health** (`health_service.dfy`) models the health service:
  - the check registry, an insertion-ordered map keyed by name, with the defaults filled in by `||`;
  - the five default checks;
  - the single-check executor, which turns success, a thrown error or the timeout into a uniform report;
  - the aggregator, which folds the reports into `healthy`/`degraded`/`unhealthy`, counts them and decides whether to raise the alert;
  - the readiness probe, which runs the critical checks only;
  - the liveness probe;
  - the database check. It goes through a circuit breaker owned by the service. Every health or readiness run that includes it fires that breaker, and the breaker's state carries over from one run to the next.
- **HealthRoutes** (`health_routes.dfy`) models the decision rules of the HTTP layer:
  - the status codes of the detailed and readiness endpoints;
  - the `app_health_status` gauge;
  - the validation of the Discord webhook URL by the configuration endpoint.
- **Wrappers** (`wrappers.dfy`) holds `Option`, which stands for a property the source leaves `undefined` or `null`.

Inputs that come from outside the core become parameters:
- **Clock.** The breaker takes `now` for the `Date.now()` reading that `fire` compares against `lastFailureTime`. A failed action carries its own `failedAt`, the later reading that `recordFailure` stores.
- **Check functions.** A check function is not run. The winner of its race against its timeout — `Ok(result)`, `Threw(message)` or `TimedOut` — is supplied per check name by `outcomes`.
- **Database check.** The database check is modelled, not supplied. It fires the service's breaker at `now`. The input `ping` is the outcome of the wrapped ping. For this check, `outcomes` says only whether the timeout won the race.
- **Concurrency.** `Promise.allSettled` and `Promise.all` over the checks become an ordered pass in registry order.
- **System snapshot.** The `SystemInfo` snapshot of detailed mode is the parameter `system`.

In these places the model follows the code:
- A report's status is whatever non-empty status the check returned, so it is not restricted to `healthy`/`unhealthy`. Such a status is counted as neither healthy nor unhealthy (`CountsBounded`).
- A failed check's report carries an `error` field and no `details` (`Body.Error`).
- The open-circuit and timeout errors are plain errors, identified only by their messages.
- In the source, the database breaker is a local variable captured by the check's closure. Here it is the `dbBreaker` field of the service, because the two have the same lifetime.

## Model

| member | source | states |
|---|---|---|
| Circuit.AfterFire | src/utils/circuitBreaker.js:15-33 | specification of one `fire`: the guard, then a reset on success or a recorded failure on error; its properties are the lemmas below |
| Circuit.AfterReset | src/utils/circuitBreaker.js:35-41 | specification of `reset`: CLOSED with count 0, last failure time kept |
| Circuit.AfterFailure | src/utils/circuitBreaker.js:43-50 | specification of `recordFailure`: one more failure at the given time; OPEN when HALF_OPEN or at the threshold |
| Circuit.Admission | src/utils/circuitBreaker.js:16-23 | specification of the guard of `fire`: an OPEN breaker past its reset timeout turns HALF_OPEN and runs; an unexpired one rejects; any other state runs unchanged (`RejectedWhileOpen`, `TrialAfterTimeout`) |
| Circuit.ConfigOf | src/utils/circuitBreaker.js:9-10 | specification of the constructor's configuration: both options defaulted by `OrDefault` (`NewBreakerIsClosed`) |
| Circuit.OrDefault | src/utils/circuitBreaker.js:9-10 | a missing option and the falsy 0 both give the fallback; any other value is kept |
| Circuit.NewBreakerIsClosed | src/utils/circuitBreaker.js:5-13 | a new breaker is CLOSED with no failures; the threshold defaults to 3 and the reset timeout to 10000 ms unless a non-zero option is given; the initial state satisfies the breaker invariant |
| Circuit.CircuitBreaker.constructor | src/utils/circuitBreaker.js:5-13 | the configuration is the defaulted options and the state is the initial one, which satisfies the invariant |
| Circuit.RejectedWhileOpen | src/utils/circuitBreaker.js:16-22 | while OPEN and at most `resetTimeout` after the last failure, `fire` does not invoke the action, throws the "Circuit <name> is OPEN" error and changes nothing |
| Circuit.TrialAfterTimeout | src/utils/circuitBreaker.js:16-33 | strictly after the reset timeout an OPEN breaker invokes the action as a trial; success closes it with a zero count; failure reopens it with one more failure at the failure's time |
| Circuit.SuccessCloses | src/utils/circuitBreaker.js:25-41 | any invoked action that succeeds returns its value, closes the breaker, zeroes the count and keeps the last failure time |
| Circuit.FailureRecorded | src/utils/circuitBreaker.js:29-50 | any invoked action that fails rethrows its error and adds exactly one failure at its time; the breaker is OPEN afterwards iff the call was a trial or the count reached the threshold, otherwise it is CLOSED |
| Circuit.FireKeepsConsistent | src/utils/circuitBreaker.js:15-50 | one call, whatever its outcome, preserves the invariant: never HALF_OPEN after a call, OPEN only with a recorded failure, and CLOSED only below a positive threshold |
| Circuit.NeverHalfOpenAfterRun | src/utils/circuitBreaker.js:15-50 | after any non-empty sequence of calls the breaker is not HALF_OPEN |
| Circuit.RunKeepsConsistent | src/utils/circuitBreaker.js:15-50 | every sequence of calls preserves the invariant |
| Circuit.FailuresCountUp | src/utils/circuitBreaker.js:43-50 | consecutive failures from CLOSED count up one by one; the breaker stays CLOSED below the threshold, is OPEN exactly when the count reaches it, and holds the last failure's time |
| Circuit.ThresholdFailuresOpen | src/utils/circuitBreaker.js:43-50 | a new breaker is OPEN after k failures, for every k up to the threshold, iff k equals the threshold |
| Circuit.OpenAbsorbsEarlyCalls | src/utils/circuitBreaker.js:16-22 | any number of calls made while OPEN and before the timeout leave the state exactly as it was |
| Circuit.RunAppend | src/utils/circuitBreaker.js:15-33 | a sequence of calls followed by one more is that call applied to the state the sequence left |
| Circuit.CircuitBreaker.Fire | src/utils/circuitBreaker.js:15-33 | the new fields and the returned or thrown result are those of `AfterFire`; `invoked` tells whether the action ran; the invariant is preserved; the state is never HALF_OPEN on return |
| Circuit.CircuitBreaker.Reset | src/utils/circuitBreaker.js:35-41 | the state becomes CLOSED and the count 0; the last failure time is unchanged; the breaker's invariant is preserved |
| Circuit.CircuitBreaker.RecordFailure | src/utils/circuitBreaker.js:43-50 | the count grows by one and the time is recorded; the breaker opens when it was HALF_OPEN or the count reaches the threshold; the breaker's invariant is preserved |
| Health.Define | src/services/healthService.js:44-51 | the stored definition keeps the name and the check; the timeout is 5000 unless a non-zero one is given; the check is critical only when `critical` is true; the description is "Health check for <name>" unless a non-empty one is given |
| Health.Register | src/services/healthService.js:44-53 | specification of `registerCheck` on the registry: `Map.set` of the defaulted definition; a new key goes at the end of the order; its properties are `RegisterProperties` |
| Health.RegisterProperties | src/services/healthService.js:44-53 | registering keeps the registry well formed (distinct keys, key order equal to the key set, each definition under its own name); the new definition is stored under its name and every other entry is unchanged; a new name is appended at the end of the key order; re-registering keeps the size and the order (last write wins) |
| Health.RegisterNewName | src/services/healthService.js:44-53 | a name not yet registered is appended to the key order and added to the key set |
| Health.HealthService.RegisterCheck | src/services/healthService.js:44-53 | the service's map and key order become those of `Register` on the old ones; the registry invariant is preserved |
| Health.Ordered | src/services/healthService.js:157-159 | the entries in key order: one per key, the i-th being the definition of the i-th key |
| Health.SetupDefaultChecks | src/services/healthService.js:56-108 | specification of `setupDefaultChecks`: the five registrations with the source's options, in order; its properties are the `Default…` lemmas |
| Health.DefaultRegistryWellFormed | src/services/healthService.js:56-108 | the registry built by `setupDefaultChecks` is well formed |
| Health.DefaultRegistryOrder | src/services/healthService.js:56-108 | the default checks are registered as application, disk, memory, database and redis, each once |
| Health.DefaultDefinitions | src/services/healthService.js:56-108 | each default check is stored under its own name with a 5000 ms timeout and its description; application and database are critical; disk, memory and redis are not |
| Health.DefaultMapInOrder | src/services/healthService.js:56-108 | reading the default map in the default order gives the five default definitions |
| Health.DefaultRegistry | src/services/healthService.js:56-108 | the default registry is well formed, in order, with the definitions above |
| Health.HealthService.constructor | src/services/healthService.js:7-108 | a new service holds exactly the default registry, in order; its database breaker is fresh, named "Database", uses the default configuration and is CLOSED |
| Health.HealthService.Entries | src/services/healthService.js:157-159 | iterating the registry yields one definition per key, in insertion order, each named by its key |
| Health.StatusOf | src/services/healthService.js:124 | specification of `result.status \|\| "healthy"`: a missing or empty status gives "healthy" (`UnhealthyReport`) |
| Health.DetailsOf | src/services/healthService.js:126 | specification of `result.details \|\| result`: a present details object, even an empty one, is kept; otherwise the whole result (`ExecuteCheck`) |
| Health.ExecuteCheck | src/services/healthService.js:111-148 | the report copies the name, the description and the criticality; it carries an error iff the race did not succeed; on success the status is the result's non-empty status or "healthy" and the details are the result's details or the whole result; a thrown error gives "unhealthy" with its message; a timeout gives "unhealthy" with "Health check timeout" |
| Health.UnhealthyReport | src/services/healthService.js:122-146 | a report is "unhealthy" iff the check threw, timed out, or returned the status "unhealthy"; a result without a status is "healthy" |
| Health.RunChecks | src/services/healthService.js:157-161 | exactly one report per check, in registry order, each the executor's report for that check's outcome |
| Health.DatabaseRace | src/services/healthService.js:99-119 | specification of the database check's race: the breaker is fired and its new state kept; a timeout wins over the ping; otherwise a returned ping is a healthy result and a breaker error is thrown |
| Health.RunWithBreaker | src/services/healthService.js:157-161 | specification of one run: one report per check in registry order, with the breaker state passed from one database check to the next |
| Health.RunStep | src/services/healthService.js:157-159 | one more check extends the run by exactly that check's report and its effect on the breaker |
| Health.RunReports | src/services/healthService.js:157-161 | each report of a run names its check and copies its description and criticality; a check other than the database check reports its given outcome |
| Health.BreakerFiresPerDatabaseCheck | src/services/healthService.js:99-101 | a run leaves the breaker as a sequence of `fire` calls would, one per database check in order |
| Health.BreakerStaysConsistent | src/services/healthService.js:99-101 | a run preserves the breaker's invariant |
| Health.RunPrefix | src/services/healthService.js:157-161 | the reports of a prefix of the checks are a prefix of the reports |
| Health.DatabaseReport | src/services/healthService.js:99-101 | the database check's report is its race against the breaker in the state the earlier database checks of the run left it in |
| Health.NoDatabaseCheck | src/services/healthService.js:157-161 | without a database check, a run is exactly `RunChecks` over the given outcomes and leaves the breaker unchanged |
| Health.DefaultRunFiresOnce | src/services/healthService.js:93-102 | a run over the default checks fires the breaker exactly once, for `database`, from the state the run found it in |
| Health.HealthService.ExecuteAll | src/services/healthService.js:157-159 | the loop that launches `executeCheck` per entry in order produces exactly the reports and breaker state of `RunWithBreaker`; the breaker invariant is preserved |
| Health.Absorb | src/services/healthService.js:170-176 | specification of one step of the fold: an unhealthy critical report makes the status "unhealthy"; an unhealthy non-critical one turns only "healthy" into "degraded" (`FoldStep`, `OverallStatus`) |
| Health.Overall | src/services/healthService.js:163-177 | specification of the folded status: `Absorb` over the reports from left to right, starting from "healthy" (`OverallStatus`) |
| Health.CriticalFailures | src/services/healthService.js:170-173 | specification of the critical-failure counter: the number of unhealthy critical reports (`CriticalFailuresExist`) |
| Health.CountStatus | src/services/healthService.js:212-213 | specification of the `filter(...).length` counts: the number of reports with a given status (`CountsBounded`) |
| Health.FoldStep | src/services/healthService.js:163-177 | folding one more report is one more step of the status fold and adds one critical failure exactly when that report is an unhealthy critical one |
| Health.FoldReports | src/services/healthService.js:163-177 | the loop collects every report; the overall status and the critical-failure count it computes equal `Overall` and `CriticalFailures`; the status is "unhealthy" iff the count is positive |
| Health.CriticalFailuresExist | src/services/healthService.js:170-177 | the critical-failure count is positive iff some critical report is unhealthy |
| Health.OverallStatus | src/services/healthService.js:163-177 | the folded status `Overall`, whatever the order of the reports: "unhealthy" iff some critical report is unhealthy; otherwise "degraded" iff some non-critical one is unhealthy; otherwise "healthy" |
| Health.CountsBounded | src/services/healthService.js:210-215 | the healthy and unhealthy counts together do not exceed the total; the critical failures are among the unhealthy reports |
| Health.Summarize | src/services/healthService.js:206-221 | specification of the response: the folded status, the counts, and `system`/`details` only when detailed; its properties are `SummaryProperties` |
| Health.AlertTriggered | src/services/healthService.js:199 | the alert condition: status "unhealthy" and at least one critical failure |
| Health.PostsAlert | src/services/healthService.js:16-17 | `sendAlert` posts only when a non-empty webhook URL is configured |
| Health.SummaryProperties | src/services/healthService.js:199-221 | the response counts every report; the status is "unhealthy" iff there is a critical failure and "healthy" iff no report is unhealthy; the alert fires iff there is a critical failure; `system` and `details` are present iff detailed, and `details` is then the reports |
| Health.HealthService.GetHealthStatus | src/services/healthService.js:151-230 | the response is the summary of the reports of `RunWithBreaker` over the registered checks in registry order; the breaker ends in that run's state, which is a sequence of `fire` calls, one per database check; `total` is the number of registered checks; the status is "unhealthy" iff there are critical failures; the alert is raised iff the status is unhealthy; the service and breaker invariants are preserved |
| Health.CriticalOnly | src/services/healthService.js:241-243 | the filtered checks are exactly the critical ones among the registered checks |
| Health.CriticalOnlyCounts | src/services/healthService.js:241-243 | each critical check occurs in the filtered list as often as in the registry, and no other check occurs |
| Health.CriticalOnlyAppend | src/services/healthService.js:241-243 | filtering distributes over concatenation, so the critical checks keep their registry order |
| Health.CriticalPosition | src/services/healthService.js:241-243 | a critical check sits in the filtered list right after the critical checks registered before it |
| Health.CriticalOnlyWithoutDatabase | src/services/healthService.js:241-243 | a registry without a database check has no database check among its critical checks |
| Health.ReadinessFrom | src/services/healthService.js:245-259 | "ready" without a check list when there is no critical check; otherwise "not_ready" iff some report is unhealthy, with every check's (name, status) in order |
| Health.ReadinessOf | src/services/healthService.js:240-260 | readiness with every outcome given: `ReadinessFrom` of running the critical checks only |
| Health.CriticalFailureSeen | src/services/healthService.js:240-260 | a critical failure among all the checks shows up when only the critical checks are run |
| Health.CriticalFailureFound | src/services/healthService.js:240-260 | an unhealthy report among the critical checks is a critical failure of the full run |
| Health.ReadinessAgreesWithHealth | src/services/healthService.js:240-260 | readiness is "ready" or "not_ready"; it is "not_ready" iff some critical check is unhealthy, that is iff the aggregate status with the same outcomes is "unhealthy"; with no critical check it is "ready" without a check list |
| Health.HealthService.GetReadinessStatus | src/services/healthService.js:240-260 | the response is `ReadinessFrom` of running the critical checks through the breaker, which ends in that run's state; with no critical check it is "ready" and the breaker is untouched; with no database check it equals `ReadinessOf`, which `ReadinessAgreesWithHealth` relates to the aggregate; the invariants are preserved |
| Health.HealthService.GetLivenessStatus | src/services/healthService.js:232-238 | liveness is always "alive" |
| Health.HealthService.DatabaseCheck | src/services/healthService.js:99-101 | the database check fires the service's breaker, whose new state is that of `AfterFire`; a returned ping becomes a healthy result with the ping as its details, and a breaker error becomes the check's thrown error; the breaker invariant is preserved |
| HealthRoutes.DetailedStatusCode | src/routes/health.js:32 | the detailed endpoint answers 200 iff the status is "healthy" or "degraded", and 503 otherwise |
| HealthRoutes.ReadinessStatusCode | src/routes/health.js:64 | the readiness endpoint answers 200 iff the status is "ready", and 503 otherwise |
| HealthRoutes.HealthGauge | src/routes/health.js:80 | the gauge is 1 iff the status is "healthy", and 0 otherwise |
| HealthRoutes.DetailedCodeTracksCriticalFailures | src/routes/health.js:29-38 | the detailed endpoint answers 503 iff some critical check is unhealthy, iff the reported critical-failure count is positive |
| HealthRoutes.GaugeTracksAnyFailure | src/routes/health.js:73-80 | the gauge is 1 iff no check is unhealthy, so a degraded system reports 0 |
| HealthRoutes.ReadinessCodeAgreesWithDetailed | src/routes/health.js:61-65 | with the same check outcomes, the readiness endpoint and the detailed endpoint give the same status code |
| HealthRoutes.AcceptsWebhookUrl | src/routes/health.js:104 | an accepted URL is present and starts with "https://discord.com/api/webhooks/"; every present URL with that prefix is accepted |
| HealthRoutes.AcceptedWebhookIsPosted | src/services/healthService.js:16-17 | a webhook URL the configuration endpoint accepts is one `sendAlert` posts to; a missing URL is neither accepted nor posted to |
| HealthRoutes.Environment.constructor | src/services/healthService.js:16 | the environment holds the webhook URL the process starts with (`process.env.DISCORD_WEBHOOK_URL`) |
| HealthRoutes.Environment.ConfigureWebhook | src/routes/health.js:101-113 | an accepted URL replaces the stored webhook with the answer 200; any other URL leaves it unchanged with the answer 400 |

## Left out

- Logging (`Logger`) is left out: it has no effect on the state or the results.
- Timestamps, measured durations and the uptime strings of reports and responses are left out: they are clock readings with no bearing on any decision.
- The wrapped breaker action, the check functions, `setTimeout` and the race are not executed. Their results are inputs (`Outcome`, `RaceOutcome`). The stored `timeout` is kept, but which side wins the race is part of the input.
- Concurrency is left out: checks run concurrently, and losers of the timeout race are abandoned. The models are sequential. One consequence of the source's `await` is not captured: while a HALF_OPEN trial is pending, a second `fire` also passes the guard, which checks only for OPEN.
- The `rejected` branch of `getHealthStatus` ("Check execution failed") is left out, and so is the rejection of `getReadinessStatus`'s `Promise.all`. In the model every `Threw` carries a message, so `executeCheck` always returns a report. In the source, a check that rejects with `undefined` or `null` makes `error.message` throw inside the `catch`, and `executeCheck` itself rejects; that nullish rejection is not modelled.
- One run uses a single `now` and a single `ping` outcome for every database check it contains. The breaker's new state is applied within the run even when the timeout wins. In the source, the abandoned ping would update the breaker later.
- A registry with several database checks fires the breaker once per check, in registry order, each call completing before the next. In the source their guards run in that order, but their completions may interleave.
- A check that resolves to a primitive value (for example `async () => "ok"`) is left out, because `CheckResult` represents objects only. The source reports such a check as "healthy" with the value itself as its details. A check that resolves to `undefined` or `null` needs no separate case: reading `.status` then throws inside the `try`, and the `catch` reports the TypeError's message, which is the outcome `Threw(message)`.
- The check bodies of the application, disk, memory and redis defaults are left out: they become outcomes, including the memory check's floating-point 80% test over `process.memoryUsage`. The database check body is modelled (`DatabaseCheck`).
- The `fetch` to the webhook, its JSON payload and its error handling in `sendAlert` are left out as network I/O. Only the alert decision (`AlertTriggered`) and the skip on a missing URL (`PostsAlert`) are modelled.
- The `SystemInfo` snapshot of detailed mode is the parameter `system`.
- A non-numeric or NaN option for the breaker or for `registerCheck` is left out. So is a non-boolean `critical`. The types rule them out.
- The webhook endpoint with a missing body or a truthy non-string `url` is left out. In the source, the destructuring of a missing body, or `url.startsWith` on such a `url`, raises a TypeError. A falsy `url` (`0`, `false`, `null`) fails the `!url` test and gets 400, as `None` and `""` do here. The model takes an optional string.
- The `/health` and `/live` routes are left out: they only answer 200 with the liveness body. The response bodies and headers of every route are left out.
- The uptime and memory lines of `/metrics` are left out. Only the `app_health_status` gauge decision is modelled.
- Health.HealthService.GetHealthStatus: the timestamp and duration fields of the response are left out, as above.
