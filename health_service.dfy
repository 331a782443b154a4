/** The health-check registry, the single-check executor and the aggregator of
    `src/services/healthService.js`.

    A check function is not run: what racing it against its timeout produced is
    an input, `Ok(result)`, `Threw(message)` or `TimedOut`, supplied per check
    name by the `outcomes` parameter. `Promise.allSettled` over the registry
    becomes a sequential pass over the checks in registry order. */
module Health {
  import opened Wrappers
  import opened Circuit

  /** An open-ended key/value object (a check's `details`, a system snapshot). */
  type Fields = map<string, string>

  /** What a check function resolves to. `status` and `details` are `None` when
      the object has no such property. */
  datatype CheckResult = CheckResult(status: Option<string>, details: Option<Fields>, fields: Fields)

  /** The winner of the race between a check and its timeout. */
  datatype RaceOutcome = Ok(result: CheckResult) | Threw(message: string) | TimedOut

  /** The check functions the service registers; `Custom` stands for any other. */
  datatype Probe = ApplicationProbe | DiskProbe | MemoryProbe | DatabaseProbe | RedisProbe | Custom(id: nat)

  datatype CheckDefinition = CheckDefinition(
    name: string, check: Probe, timeout: int, critical: bool, description: string)

  /** The options of `registerCheck`; a missing option is `None`. */
  datatype CheckOptions = CheckOptions(timeout: Option<int>, critical: Option<bool>, description: Option<string>)

  /** A report carries either `details` (the result's own details, or the whole
      result when it has none) or an `error` message. */
  datatype Body = Details(fields: Fields) | WholeResult(result: CheckResult) | Error(message: string)

  datatype Report = Report(name: string, status: string, description: string, body: Body, critical: bool)

  datatype Counts = Counts(total: nat, healthy: nat, unhealthy: nat, criticalFailures: nat)

  /** The response of `getHealthStatus`; `system` and `details` are present only
      in detailed mode. */
  datatype HealthResponse = HealthResponse(
    status: string, checks: Counts, system: Option<Fields>, details: Option<seq<Report>>)

  datatype Liveness = Liveness(status: string)

  /** The response of `getReadinessStatus`; `criticalChecks` (name, status)
      is absent when no check is critical. */
  datatype Readiness = Readiness(status: string, criticalChecks: Option<seq<(string, string)>>)

  const DefaultTimeout := 5000
  const TimeoutMessage := "Health check timeout"
  const DefaultCheckNames := ["application", "disk", "memory", "database", "redis"]

  /** The checks `setupDefaultChecks` registers, in registration order. */
  const DefaultChecks := [
    CheckDefinition("application", ApplicationProbe, 5000, true, "Application basic health"),
    CheckDefinition("disk", DiskProbe, 5000, false, "Monitoreo de almacenamiento"),
    CheckDefinition("memory", MemoryProbe, 5000, false, "Memory usage monitoring"),
    CheckDefinition("database", DatabaseProbe, 5000, true, "Primary PostgreSQL Database"),
    CheckDefinition("redis", RedisProbe, 5000, false, "Redis Cache Layer")]

  const DefaultMap := map[
    "application" := DefaultChecks[0], "disk" := DefaultChecks[1], "memory" := DefaultChecks[2],
    "database" := DefaultChecks[3], "redis" := DefaultChecks[4]]

  // ---------------------------------------------------------------------------
  // Registration

  /** The definition `registerCheck` stores, with the defaults filled in
      (`||` treats 0 and the empty string as missing). */
  function Define(name: string, check: Probe, options: CheckOptions): (d: CheckDefinition)
    ensures d.name == name && d.check == check
    ensures d.timeout == (if options.timeout == None || options.timeout == Some(0) then 5000
                          else options.timeout.value)
    ensures d.critical <==> options.critical == Some(true)
    ensures d.description == (if options.description == None || options.description == Some("")
                              then "Health check for " + name else options.description.value)
  {
    CheckDefinition(
      name, check,
      if options.timeout.Some? && options.timeout.value != 0 then options.timeout.value else DefaultTimeout,
      options.critical == Some(true),
      if options.description.Some? && options.description.value != "" then options.description.value
      else "Health check for " + name)
  }

  /** The registry: the definitions by name, and the names in insertion order
      (the iteration order of a JavaScript `Map`). */
  datatype Registry = Registry(checks: map<string, CheckDefinition>, order: seq<string>)

  const EmptyRegistry := Registry(map[], [])

  /** The registry's invariant: the key order lists each key once, and every
      definition is stored under its own name. */
  ghost predicate WellFormed(reg: Registry) {
    && Distinct(reg.order)
    && (forall n :: n in reg.checks <==> n in reg.order)
    && (forall n :: n in reg.checks ==> reg.checks[n].name == n)
  }

  /** No key occurs twice. */
  ghost predicate Distinct(order: seq<string>) {
    |order| == 0 || (order[0] !in order[1..] && Distinct(order[1..]))
  }

  lemma {:induction false} DistinctAppend(order: seq<string>, name: string)
    requires Distinct(order) && name !in order
    ensures Distinct(order + [name])
  {
    if |order| > 0 {
      assert (order + [name])[1..] == order[1..] + [name];
      DistinctAppend(order[1..], name);
    }
  }

  /** `registerCheck` on the registry: `Map.set` adds a new key at the end and
      leaves an existing key where it is. */
  function Register(reg: Registry, name: string, check: Probe, options: CheckOptions): Registry {
    Registry(reg.checks[name := Define(name, check, options)],
             if name in reg.checks then reg.order else reg.order + [name])
  }

  /** Registering keeps the invariant, stores the new definition under its name,
      leaves every other definition alone, and grows the registry by one entry
      only for a new name; re-registering keeps the size and the key order. */
  lemma RegisterProperties(reg: Registry, name: string, check: Probe, options: CheckOptions)
    requires WellFormed(reg)
    ensures var r := Register(reg, name, check, options);
      && WellFormed(r)
      && name in r.checks && r.checks[name] == Define(name, check, options)
      && (forall n :: n in reg.checks && n != name ==> n in r.checks && r.checks[n] == reg.checks[n])
      && |r.order| == |reg.order| + (if name in reg.checks then 0 else 1)
      && (name in reg.checks ==> r.order == reg.order)
      && (name !in reg.checks ==> r.order[..|reg.order|] == reg.order && r.order[|reg.order|] == name)
  {
    if name !in reg.checks {
      DistinctAppend(reg.order, name);
      assert (reg.order + [name])[..|reg.order|] == reg.order;
    }
  }

  /** `setupDefaultChecks`, as registrations into `reg`. */
  function SetupDefaultChecks(reg: Registry): Registry {
    var r1 := Register(reg, "application", ApplicationProbe, CheckOptions(None, Some(true), Some("Application basic health")));
    var r2 := Register(r1, "disk", DiskProbe, CheckOptions(None, None, Some("Monitoreo de almacenamiento")));
    var r3 := Register(r2, "memory", MemoryProbe, CheckOptions(None, None, Some("Memory usage monitoring")));
    var r4 := Register(r3, "database", DatabaseProbe, CheckOptions(None, Some(true), Some("Primary PostgreSQL Database")));
    Register(r4, "redis", RedisProbe, CheckOptions(None, Some(false), Some("Redis Cache Layer")))
  }
  /** The definitions in key order. */
  function Ordered(checks: map<string, CheckDefinition>, order: seq<string>): (defs: seq<CheckDefinition>)
    requires forall i :: 0 <= i < |order| ==> order[i] in checks
    ensures |defs| == |order|
    ensures forall i :: 0 <= i < |order| ==> defs[i] == checks[order[i]]
  {
    if |order| == 0 then [] else [checks[order[0]]] + Ordered(checks, order[1..])
  }

  /** The registry `setupDefaultChecks` builds from an empty one is well formed. */
  lemma DefaultRegistryWellFormed()
    ensures WellFormed(SetupDefaultChecks(EmptyRegistry))
  {
    var r1 := Register(EmptyRegistry, "application", ApplicationProbe, CheckOptions(None, Some(true), Some("Application basic health")));
    var r2 := Register(r1, "disk", DiskProbe, CheckOptions(None, None, Some("Monitoreo de almacenamiento")));
    var r3 := Register(r2, "memory", MemoryProbe, CheckOptions(None, None, Some("Memory usage monitoring")));
    var r4 := Register(r3, "database", DatabaseProbe, CheckOptions(None, Some(true), Some("Primary PostgreSQL Database")));
    RegisterProperties(EmptyRegistry, "application", ApplicationProbe, CheckOptions(None, Some(true), Some("Application basic health")));
    RegisterProperties(r1, "disk", DiskProbe, CheckOptions(None, None, Some("Monitoreo de almacenamiento")));
    RegisterProperties(r2, "memory", MemoryProbe, CheckOptions(None, None, Some("Memory usage monitoring")));
    RegisterProperties(r3, "database", DatabaseProbe, CheckOptions(None, Some(true), Some("Primary PostgreSQL Database")));
    RegisterProperties(r4, "redis", RedisProbe, CheckOptions(None, Some(false), Some("Redis Cache Layer")));
  }

  /** Registering a name that is not yet present appends it to the key order. */
  lemma RegisterNewName(reg: Registry, name: string, check: Probe, options: CheckOptions)
    requires name !in reg.checks
    ensures Register(reg, name, check, options).order == reg.order + [name]
    ensures Register(reg, name, check, options).checks.Keys == reg.checks.Keys + {name}
  {
  }

  /** `setupDefaultChecks` registers five distinct names, in this order. */
  lemma DefaultRegistryOrder()
    ensures SetupDefaultChecks(EmptyRegistry).order == DefaultCheckNames
  {
    var o1 := CheckOptions(None, Some(true), Some("Application basic health"));
    var o2 := CheckOptions(None, None, Some("Monitoreo de almacenamiento"));
    var o3 := CheckOptions(None, None, Some("Memory usage monitoring"));
    var o4 := CheckOptions(None, Some(true), Some("Primary PostgreSQL Database"));
    var o5 := CheckOptions(None, Some(false), Some("Redis Cache Layer"));
    var r1 := Register(EmptyRegistry, "application", ApplicationProbe, o1);
    var r2 := Register(r1, "disk", DiskProbe, o2);
    var r3 := Register(r2, "memory", MemoryProbe, o3);
    var r4 := Register(r3, "database", DatabaseProbe, o4);
    var r5 := Register(r4, "redis", RedisProbe, o5);
    RegisterNewName(EmptyRegistry, "application", ApplicationProbe, o1);
    assert r1.checks.Keys == {"application"};
    RegisterNewName(r1, "disk", DiskProbe, o2);
    assert r2.checks.Keys == {"application", "disk"};
    RegisterNewName(r2, "memory", MemoryProbe, o3);
    assert r3.checks.Keys == {"application", "disk", "memory"};
    RegisterNewName(r3, "database", DatabaseProbe, o4);
    assert r4.checks.Keys == {"application", "disk", "memory", "database"};
    RegisterNewName(r4, "redis", RedisProbe, o5);
    assert r5.order == [] + ["application"] + ["disk"] + ["memory"] + ["database"] + ["redis"];
  }

  /** Each default check is stored under its own name. */
  lemma DefaultDefinitions()
    ensures SetupDefaultChecks(EmptyRegistry).checks == DefaultMap
  {
  }

  /** The default map, read in the default order, gives the default checks. */
  lemma DefaultMapInOrder()
    ensures Ordered(DefaultMap, DefaultCheckNames) == DefaultChecks
  {
    var defs := Ordered(DefaultMap, DefaultCheckNames);
    assert defs[0] == DefaultChecks[0];
    assert defs[1] == DefaultChecks[1];
    assert defs[2] == DefaultChecks[2];
    assert defs[3] == DefaultChecks[3];
    assert defs[4] == DefaultChecks[4];
  }

  /** The checks `setupDefaultChecks` registers, in order, with their
      criticality, timeouts and descriptions. */
  lemma DefaultRegistry()
    ensures WellFormed(SetupDefaultChecks(EmptyRegistry))
    ensures SetupDefaultChecks(EmptyRegistry).order == DefaultCheckNames
    ensures Ordered(SetupDefaultChecks(EmptyRegistry).checks, DefaultCheckNames) == DefaultChecks
  {
    DefaultRegistryWellFormed();
    DefaultRegistryOrder();
    DefaultDefinitions();
    DefaultMapInOrder();
  }

  // ---------------------------------------------------------------------------
  // Executing one check

  /** `result.status || "healthy"`. */
  function StatusOf(result: CheckResult): string {
    if result.status.Some? && result.status.value != "" then result.status.value else "healthy"
  }

  /** `result.details || result`: an object, even an empty one, is truthy. */
  function DetailsOf(result: CheckResult): Body {
    if result.details.Some? then Details(result.details.value) else WholeResult(result)
  }

  /** The error message of a failed race. */
  function FailureMessage(outcome: RaceOutcome): string
    requires !outcome.Ok?
  {
    if outcome.Threw? then outcome.message else TimeoutMessage
  }

  /** `executeCheck`: turns the outcome of one check into a report; it never fails. */
  function ExecuteCheck(name: string, def: CheckDefinition, outcome: RaceOutcome): (r: Report)
    ensures r.name == name && r.description == def.description && r.critical == def.critical
    ensures r.body.Error? <==> !outcome.Ok?
    ensures outcome.Ok? ==> r.status == StatusOf(outcome.result) && r.body == DetailsOf(outcome.result)
    ensures outcome.Threw? ==> r.status == "unhealthy" && r.body == Error(outcome.message)
    ensures outcome.TimedOut? ==> r.status == "unhealthy" && r.body == Error("Health check timeout")
  {
    match outcome
    case Ok(result) => Report(name, StatusOf(result), def.description, DetailsOf(result), def.critical)
    case _ => Report(name, "unhealthy", def.description, Error(FailureMessage(outcome)), def.critical)
  }

  /** A report is unhealthy exactly when the check threw, timed out, or itself
      resolved to status "unhealthy". */
  lemma UnhealthyReport(name: string, def: CheckDefinition, outcome: RaceOutcome)
    ensures ExecuteCheck(name, def, outcome).status == "unhealthy" <==>
            !outcome.Ok? || outcome.result.status == Some("unhealthy")
    ensures outcome.Ok? && outcome.result.status.None? ==> ExecuteCheck(name, def, outcome).status == "healthy"
  {
  }

  /** Every check of `defs`, run in order against `outcomes`. */
  function RunChecks(defs: seq<CheckDefinition>, outcomes: string -> RaceOutcome): (reports: seq<Report>)
    ensures |reports| == |defs|
    ensures forall i :: 0 <= i < |defs| ==>
      reports[i] == ExecuteCheck(defs[i].name, defs[i], outcomes(defs[i].name))
  {
    if |defs| == 0 then []
    else [ExecuteCheck(defs[0].name, defs[0], outcomes(defs[0].name))] + RunChecks(defs[1..], outcomes)
  }

  // ---------------------------------------------------------------------------
  // Runs through the database breaker

  /** The race of the database check whose breaker is in state `s`: the check
      fires the breaker at `now` with the ping's outcome; the breaker's new
      state is kept even when the timeout wins the race. */
  function DatabaseRace(cfg: Config, s: Snapshot, now: int, ping: Outcome<Fields>, race: RaceOutcome): (RaceOutcome, Snapshot) {
    var (t, fired) := AfterFire(cfg, s, now, ping);
    (if race.TimedOut? then TimedOut
     else if fired.Returned? then Ok(CheckResult(Some("healthy"), Some(fired.value), map[]))
     else Threw(fired.message),
     t)
  }

  /** Every check of `defs` in order; a database check fires the breaker, whose
      state passes from one database check to the next. Any other check's
      outcome is given by `outcomes`; for a database check `outcomes` only says
      whether the timeout won. */
  function RunWithBreaker(cfg: Config, s: Snapshot, defs: seq<CheckDefinition>, now: int, ping: Outcome<Fields>,
                          outcomes: string -> RaceOutcome): (r: (seq<Report>, Snapshot))
    ensures |r.0| == |defs|
    decreases |defs|
  {
    if |defs| == 0 then ([], s)
    else
      var (reports, t) := RunWithBreaker(cfg, s, defs[..|defs| - 1], now, ping, outcomes);
      var d := defs[|defs| - 1];
      var (o, u) := if d.check == DatabaseProbe then DatabaseRace(cfg, t, now, ping, outcomes(d.name))
                    else (outcomes(d.name), t);
      (reports + [ExecuteCheck(d.name, d, o)], u)
  }

  /** Some check of `defs` is the database check. */
  predicate HasDatabaseCheck(defs: seq<CheckDefinition>) {
    exists i :: 0 <= i < |defs| && defs[i].check == DatabaseProbe
  }

  /** One more check extends the run by that check's report. */
  lemma RunStep(cfg: Config, s: Snapshot, defs: seq<CheckDefinition>, i: nat, now: int,
                ping: Outcome<Fields>, outcomes: string -> RaceOutcome)
    requires i < |defs|
    ensures var (reports, t) := RunWithBreaker(cfg, s, defs[..i], now, ping, outcomes);
      var d := defs[i];
      var (o, u) := if d.check == DatabaseProbe then DatabaseRace(cfg, t, now, ping, outcomes(d.name))
                    else (outcomes(d.name), t);
      RunWithBreaker(cfg, s, defs[..i + 1], now, ping, outcomes) == (reports + [ExecuteCheck(d.name, d, o)], u)
  {
    assert defs[..i + 1][..i] == defs[..i];
  }

  /** Every report names its check and copies its description and criticality;
      a check other than the database check reports its given outcome. */
  lemma {:induction false} RunReports(cfg: Config, s: Snapshot, defs: seq<CheckDefinition>, now: int,
                                      ping: Outcome<Fields>, outcomes: string -> RaceOutcome)
    ensures var r := RunWithBreaker(cfg, s, defs, now, ping, outcomes).0;
      forall i :: 0 <= i < |defs| ==>
        && r[i].name == defs[i].name && r[i].description == defs[i].description && r[i].critical == defs[i].critical
        && (defs[i].check != DatabaseProbe ==> r[i] == ExecuteCheck(defs[i].name, defs[i], outcomes(defs[i].name)))
    decreases |defs|
  {
    if |defs| > 0 {
      var init := defs[..|defs| - 1];
      RunReports(cfg, s, init, now, ping, outcomes);
      var r := RunWithBreaker(cfg, s, defs, now, ping, outcomes).0;
      var ri := RunWithBreaker(cfg, s, init, now, ping, outcomes).0;
      assert r[..|init|] == ri;
      forall i | 0 <= i < |init|
        ensures r[i] == ri[i] && defs[i] == init[i]
      {
        assert r[..|init|][i] == r[i];
      }
    }
  }

  /** One breaker call per database check of `defs`, in order. */
  function DatabaseCalls(defs: seq<CheckDefinition>, now: int, ping: Outcome<Fields>): seq<Call<Fields>> {
    if |defs| == 0 then []
    else DatabaseCalls(defs[..|defs| - 1], now, ping)
         + (if defs[|defs| - 1].check == DatabaseProbe then [Call(now, ping)] else [])
  }

  /** A run leaves the breaker as that many calls to `fire` would. */
  lemma {:induction false} BreakerFiresPerDatabaseCheck(cfg: Config, s: Snapshot, defs: seq<CheckDefinition>, now: int,
                                                        ping: Outcome<Fields>, outcomes: string -> RaceOutcome)
    ensures RunWithBreaker(cfg, s, defs, now, ping, outcomes).1 == Run(cfg, s, DatabaseCalls(defs, now, ping))
    decreases |defs|
  {
    if |defs| > 0 {
      var init := defs[..|defs| - 1];
      BreakerFiresPerDatabaseCheck(cfg, s, init, now, ping, outcomes);
      if defs[|defs| - 1].check == DatabaseProbe {
        RunAppend(cfg, s, DatabaseCalls(init, now, ping), Call(now, ping));
      } else {
        assert DatabaseCalls(defs, now, ping) == DatabaseCalls(init, now, ping);
      }
    }
  }

  /** A run preserves the breaker's invariant. */
  lemma BreakerStaysConsistent(cfg: Config, s: Snapshot, defs: seq<CheckDefinition>, now: int,
                               ping: Outcome<Fields>, outcomes: string -> RaceOutcome)
    requires Consistent(cfg, s)
    ensures Consistent(cfg, RunWithBreaker(cfg, s, defs, now, ping, outcomes).1)
  {
    BreakerFiresPerDatabaseCheck(cfg, s, defs, now, ping, outcomes);
    RunKeepsConsistent(cfg, s, DatabaseCalls(defs, now, ping));
  }

  /** The reports of a prefix of the checks are a prefix of the reports. */
  lemma {:induction false} RunPrefix(cfg: Config, s: Snapshot, defs: seq<CheckDefinition>, j: nat, now: int,
                                     ping: Outcome<Fields>, outcomes: string -> RaceOutcome)
    requires j <= |defs|
    ensures RunWithBreaker(cfg, s, defs[..j], now, ping, outcomes).0 == RunWithBreaker(cfg, s, defs, now, ping, outcomes).0[..j]
    decreases |defs|
  {
    if j == |defs| {
      assert defs[..j] == defs;
    } else {
      var init := defs[..|defs| - 1];
      RunPrefix(cfg, s, init, j, now, ping, outcomes);
      assert init[..j] == defs[..j];
    }
  }

  /** The report of a database check is its race against the breaker in the
      state the earlier database checks of the run left it in. */
  lemma DatabaseReport(cfg: Config, s: Snapshot, defs: seq<CheckDefinition>, i: nat, now: int,
                       ping: Outcome<Fields>, outcomes: string -> RaceOutcome)
    requires i < |defs| && defs[i].check == DatabaseProbe
    ensures RunWithBreaker(cfg, s, defs, now, ping, outcomes).0[i] ==
      ExecuteCheck(defs[i].name, defs[i],
                   DatabaseRace(cfg, Run(cfg, s, DatabaseCalls(defs[..i], now, ping)), now, ping, outcomes(defs[i].name)).0)
  {
    var pre := defs[..i + 1];
    RunPrefix(cfg, s, defs, i + 1, now, ping, outcomes);
    assert pre[..i] == defs[..i] && pre[i] == defs[i];
    BreakerFiresPerDatabaseCheck(cfg, s, defs[..i], now, ping, outcomes);
  }

  /** Without a database check, a run is `RunChecks` and leaves the breaker alone. */
  lemma {:induction false} NoDatabaseCheck(cfg: Config, s: Snapshot, defs: seq<CheckDefinition>, now: int,
                                           ping: Outcome<Fields>, outcomes: string -> RaceOutcome)
    requires !HasDatabaseCheck(defs)
    ensures RunWithBreaker(cfg, s, defs, now, ping, outcomes) == (RunChecks(defs, outcomes), s)
    decreases |defs|
  {
    RunReports(cfg, s, defs, now, ping, outcomes);
    var r := RunWithBreaker(cfg, s, defs, now, ping, outcomes);
    assert r.0 == RunChecks(defs, outcomes);
    if |defs| > 0 {
      var init := defs[..|defs| - 1];
      NoDatabaseCheck(cfg, s, init, now, ping, outcomes);
    }
  }

  /** The critical checks of a registry without a database check include none. */
  lemma CriticalOnlyWithoutDatabase(defs: seq<CheckDefinition>)
    requires !HasDatabaseCheck(defs)
    ensures !HasDatabaseCheck(CriticalOnly(defs))
  {
  }

  /** A run of the default checks fires the breaker exactly once, for the
      `database` check, which sees the breaker as the run found it. */
  lemma DefaultRunFiresOnce(cfg: Config, s: Snapshot, now: int, ping: Outcome<Fields>, outcomes: string -> RaceOutcome)
    ensures DatabaseCalls(DefaultChecks, now, ping) == [Call(now, ping)]
    ensures RunWithBreaker(cfg, s, DefaultChecks, now, ping, outcomes).1 == AfterFire(cfg, s, now, ping).0
    ensures RunWithBreaker(cfg, s, DefaultChecks, now, ping, outcomes).0[3] ==
      ExecuteCheck("database", DefaultChecks[3], DatabaseRace(cfg, s, now, ping, outcomes("database")).0)
  {
    var d := DefaultChecks;
    assert d[..0] == [];
    assert d[..1][..0] == d[..0] && d[..2][..1] == d[..1] && d[..3][..2] == d[..2];
    assert d[..4][..3] == d[..3] && d[..5][..4] == d[..4] && d[..5] == d;
    assert DatabaseCalls(d[..1], now, ping) == [];
    assert DatabaseCalls(d[..2], now, ping) == [];
    assert DatabaseCalls(d[..3], now, ping) == [];
    assert DatabaseCalls(d[..4], now, ping) == [Call(now, ping)];
    assert DatabaseCalls(d, now, ping) == [Call(now, ping)];
    BreakerFiresPerDatabaseCheck(cfg, s, d, now, ping, outcomes);
    assert [Call(now, ping)][1..] == [];
    DatabaseReport(cfg, s, d, 3, now, ping, outcomes);
  }

  // ---------------------------------------------------------------------------
  // Folding the reports

  predicate Unhealthy(r: Report) {
    r.status == "unhealthy"
  }

  /** One step of the fold: a critical failure makes the status unhealthy, a
      non-critical one downgrades only a healthy status to degraded. */
  function Absorb(status: string, r: Report): string {
    if Unhealthy(r) then
      (if r.critical then "unhealthy" else if status == "healthy" then "degraded" else status)
    else status
  }

  /** The overall status after folding the reports from left to right. */
  function Overall(reports: seq<Report>): string {
    if |reports| == 0 then "healthy"
    else Absorb(Overall(reports[..|reports| - 1]), reports[|reports| - 1])
  }

  /** The number of critical reports that are unhealthy. */
  function CriticalFailures(reports: seq<Report>): nat {
    if |reports| == 0 then 0
    else CriticalFailures(reports[..|reports| - 1])
         + (if reports[|reports| - 1].critical && Unhealthy(reports[|reports| - 1]) then 1 else 0)
  }

  /** The number of reports with the given status. */
  function CountStatus(reports: seq<Report>, status: string): nat {
    if |reports| == 0 then 0
    else CountStatus(reports[..|reports| - 1], status) + (if reports[|reports| - 1].status == status then 1 else 0)
  }

  predicate HasCriticalFailure(reports: seq<Report>) {
    exists i :: 0 <= i < |reports| && reports[i].critical && Unhealthy(reports[i])
  }

  predicate HasNonCriticalFailure(reports: seq<Report>) {
    exists i :: 0 <= i < |reports| && !reports[i].critical && Unhealthy(reports[i])
  }

  lemma PrefixStep<T>(s: seq<T>, i: nat)
    requires i < |s|
    ensures s[..i + 1] == s[..i] + [s[i]]
  {
  }

  /** Folding one more report is one more step of `Absorb` and counts one more
      critical failure exactly when the report is one. */
  lemma FoldStep(results: seq<Report>, r: Report)
    ensures Overall(results + [r]) == Absorb(Overall(results), r)
    ensures CriticalFailures(results + [r]) == CriticalFailures(results) + (if r.critical && Unhealthy(r) then 1 else 0)
  {
    assert (results + [r])[..|results|] == results;
  }

  /** The `forEach` of `getHealthStatus` over the settled reports: collects them
      and folds the overall status and the critical-failure count. */
  method FoldReports(reports: seq<Report>) returns (results: seq<Report>, overallStatus: string, criticalFailures: nat)
    ensures results == reports
    ensures overallStatus == Overall(reports) && criticalFailures == CriticalFailures(reports)
    ensures overallStatus == "unhealthy" <==> criticalFailures > 0
  {
    results := [];
    overallStatus := "healthy";
    criticalFailures := 0;
    var i := 0;
    while i < |reports|
      invariant 0 <= i <= |reports|
      invariant results == reports[..i]
      invariant overallStatus == Overall(results)
      invariant criticalFailures == CriticalFailures(results)
    {
      var checkResult := reports[i];
      FoldStep(results, checkResult);
      PrefixStep(reports, i);
      results := results + [checkResult];
      if checkResult.status == "unhealthy" {
        if checkResult.critical {
          criticalFailures := criticalFailures + 1;
          overallStatus := "unhealthy";
        } else if overallStatus == "healthy" {
          overallStatus := "degraded";
        }
      }
      i := i + 1;
    }
    assert results == reports;
    OverallStatus(reports);
    CriticalFailuresExist(reports);
  }

  /** The response built from the reports of one aggregation run. */
  function Summarize(reports: seq<Report>, detailed: bool, system: Fields): HealthResponse {
    HealthResponse(
      Overall(reports),
      Counts(|reports|, CountStatus(reports, "healthy"), CountStatus(reports, "unhealthy"), CriticalFailures(reports)),
      if detailed then Some(system) else None,
      if detailed then Some(reports) else None)
  }

  /** The alert condition of `getHealthStatus`. */
  predicate AlertTriggered(resp: HealthResponse) {
    resp.status == "unhealthy" && resp.checks.criticalFailures > 0
  }

  /** `sendAlert` posts to the webhook only when one is configured (a missing or
      empty URL is skipped). */
  predicate PostsAlert(webhookUrl: Option<string>) {
    webhookUrl.Some? && webhookUrl.value != ""
  }

  lemma {:induction false} CriticalFailuresExist(reports: seq<Report>)
    ensures CriticalFailures(reports) > 0 <==> HasCriticalFailure(reports)
  {
    if |reports| > 0 {
      var init := reports[..|reports| - 1];
      var last := reports[|reports| - 1];
      CriticalFailuresExist(init);
      if HasCriticalFailure(init) {
        var i :| 0 <= i < |init| && init[i].critical && Unhealthy(init[i]);
        assert reports[i] == init[i];
      }
      if HasCriticalFailure(reports) {
        var i :| 0 <= i < |reports| && reports[i].critical && Unhealthy(reports[i]);
        if i < |init| {
          assert init[i] == reports[i];
        }
      }
    }
  }

  /** The fold's result does not depend on the order of the reports:
      "unhealthy" iff some critical report is unhealthy, otherwise "degraded" iff
      some non-critical report is unhealthy, otherwise "healthy". */
  lemma {:induction false} OverallStatus(reports: seq<Report>)
    ensures Overall(reports) == "unhealthy" <==> HasCriticalFailure(reports)
    ensures Overall(reports) == "degraded" <==> !HasCriticalFailure(reports) && HasNonCriticalFailure(reports)
    ensures Overall(reports) == "healthy" <==> !HasCriticalFailure(reports) && !HasNonCriticalFailure(reports)
  {
    if |reports| > 0 {
      var init := reports[..|reports| - 1];
      var last := reports[|reports| - 1];
      OverallStatus(init);
      assert last == reports[|reports| - 1];
      assert HasCriticalFailure(reports) <==> HasCriticalFailure(init) || (last.critical && Unhealthy(last)) by {
        if HasCriticalFailure(init) {
          var i :| 0 <= i < |init| && init[i].critical && Unhealthy(init[i]);
          assert reports[i] == init[i];
        }
        if HasCriticalFailure(reports) {
          var i :| 0 <= i < |reports| && reports[i].critical && Unhealthy(reports[i]);
          if i < |init| { assert init[i] == reports[i]; }
        }
      }
      assert HasNonCriticalFailure(reports) <==> HasNonCriticalFailure(init) || (!last.critical && Unhealthy(last)) by {
        if HasNonCriticalFailure(init) {
          var i :| 0 <= i < |init| && !init[i].critical && Unhealthy(init[i]);
          assert reports[i] == init[i];
        }
        if HasNonCriticalFailure(reports) {
          var i :| 0 <= i < |reports| && !reports[i].critical && Unhealthy(reports[i]);
          if i < |init| { assert init[i] == reports[i]; }
        }
      }
    }
  }

  /** Statuses other than "healthy" and "unhealthy" are in neither count, and every
      critical failure is one of the unhealthy reports. */
  lemma {:induction false} CountsBounded(reports: seq<Report>)
    ensures CountStatus(reports, "healthy") + CountStatus(reports, "unhealthy") <= |reports|
    ensures CriticalFailures(reports) <= CountStatus(reports, "unhealthy")
  {
    if |reports| > 0 {
      CountsBounded(reports[..|reports| - 1]);
    }
  }

  /** What one aggregation run reports, as the source promises it. */
  lemma SummaryProperties(reports: seq<Report>, detailed: bool, system: Fields)
    ensures var resp := Summarize(reports, detailed, system);
      && resp.checks.total == |reports|
      && resp.checks.healthy + resp.checks.unhealthy <= resp.checks.total
      && (resp.status == "unhealthy" <==> resp.checks.criticalFailures > 0)
      && (resp.status == "degraded" <==> resp.checks.criticalFailures == 0 && HasNonCriticalFailure(reports))
      && (resp.status == "healthy" <==> forall i :: 0 <= i < |reports| ==> !Unhealthy(reports[i]))
      && (AlertTriggered(resp) <==> resp.checks.criticalFailures > 0)
      && (resp.system.Some? <==> detailed) && (resp.details.Some? <==> detailed)
      && (detailed ==> resp.details == Some(reports))
  {
    OverallStatus(reports);
    CriticalFailuresExist(reports);
    CountsBounded(reports);
  }

  // ---------------------------------------------------------------------------
  // Readiness and liveness

  /** The critical definitions, in order (`filter` on `critical`). */
  function CriticalOnly(defs: seq<CheckDefinition>): (c: seq<CheckDefinition>)
    ensures forall i :: 0 <= i < |c| ==> c[i] in defs && c[i].critical
    ensures forall i :: 0 <= i < |defs| && defs[i].critical ==> defs[i] in c
  {
    if |defs| == 0 then []
    else (if defs[0].critical then [defs[0]] else []) + CriticalOnly(defs[1..])
  }

  /** Each critical check occurs in the filtered list as often as in `defs`,
      and no other check occurs in it. */
  lemma {:induction false} CriticalOnlyCounts(defs: seq<CheckDefinition>)
    ensures forall d :: multiset(CriticalOnly(defs))[d] == (if d.critical then multiset(defs)[d] else 0)
    decreases |defs|
  {
    if |defs| > 0 {
      CriticalOnlyCounts(defs[1..]);
      assert defs == [defs[0]] + defs[1..];
      assert multiset(defs) == multiset([defs[0]]) + multiset(defs[1..]);
    }
  }

  /** Filtering distributes over concatenation, so the critical checks keep
      their registry order. */
  lemma {:induction false} CriticalOnlyAppend(a: seq<CheckDefinition>, b: seq<CheckDefinition>)
    ensures CriticalOnly(a + b) == CriticalOnly(a) + CriticalOnly(b)
    decreases |a|
  {
    if |a| > 0 {
      var head := if a[0].critical then [a[0]] else [];
      assert (a + b)[0] == a[0];
      assert (a + b)[1..] == a[1..] + b;
      assert CriticalOnly(a + b) == head + CriticalOnly(a[1..] + b);
      assert CriticalOnly(a) == head + CriticalOnly(a[1..]);
      CriticalOnlyAppend(a[1..], b);
      assert head + (CriticalOnly(a[1..]) + CriticalOnly(b)) == (head + CriticalOnly(a[1..])) + CriticalOnly(b);
    } else {
      assert a + b == b;
    }
  }

  predicate AnyUnhealthy(reports: seq<Report>) {
    exists i :: 0 <= i < |reports| && Unhealthy(reports[i])
  }

  /** The readiness response built from the reports of the critical checks:
      "ready" without a check list when there is no critical check, otherwise
      "not_ready" iff some report is unhealthy, with every (name, status). */
  function ReadinessFrom(results: seq<Report>): (r: Readiness)
    ensures r.status == "ready" || r.status == "not_ready"
    ensures r.status == "not_ready" <==> AnyUnhealthy(results)
    ensures r.criticalChecks.None? <==> |results| == 0
    ensures r.criticalChecks.Some? ==>
      && |r.criticalChecks.value| == |results|
      && forall i :: 0 <= i < |results| ==> r.criticalChecks.value[i] == (results[i].name, results[i].status)
  {
    if |results| == 0 then Readiness("ready", None)
    else
      Readiness(if AnyUnhealthy(results) then "not_ready" else "ready",
                Some(seq(|results|, i requires 0 <= i < |results| => (results[i].name, results[i].status))))
  }

  /** `getReadinessStatus` with every check's outcome given: runs only the
      critical checks. */
  function ReadinessOf(defs: seq<CheckDefinition>, outcomes: string -> RaceOutcome): Readiness {
    ReadinessFrom(RunChecks(CriticalOnly(defs), outcomes))
  }

  /** A critical check sits in the filtered list after the critical checks
      registered before it. */
  lemma CriticalPosition(defs: seq<CheckDefinition>, i: nat)
    requires i < |defs| && defs[i].critical
    ensures |CriticalOnly(defs[..i])| < |CriticalOnly(defs)|
    ensures CriticalOnly(defs)[|CriticalOnly(defs[..i])|] == defs[i]
  {
    var d := defs[i];
    assert defs == defs[..i] + ([d] + defs[i + 1..]);
    CriticalOnlyAppend(defs[..i], [d] + defs[i + 1..]);
    CriticalOnlyAppend([d], defs[i + 1..]);
    assert CriticalOnly([d]) == [d];
  }

  /** A critical failure among all the reports shows up among the reports of the
      critical checks alone. */
  lemma CriticalFailureSeen(defs: seq<CheckDefinition>, outcomes: string -> RaceOutcome)
    requires HasCriticalFailure(RunChecks(defs, outcomes))
    ensures AnyUnhealthy(RunChecks(CriticalOnly(defs), outcomes))
  {
    var all := RunChecks(defs, outcomes);
    var critical := CriticalOnly(defs);
    var i :| 0 <= i < |all| && all[i].critical && Unhealthy(all[i]);
    var d := defs[i];
    CriticalPosition(defs, i);
    var j := |CriticalOnly(defs[..i])|;
    var results := RunChecks(critical, outcomes);
    assert results[j] == ExecuteCheck(d.name, d, outcomes(d.name)) == all[i];
    assert Unhealthy(results[j]);
  }

  /** An unhealthy report of a critical check is a critical failure among all
      the reports. */
  lemma CriticalFailureFound(defs: seq<CheckDefinition>, outcomes: string -> RaceOutcome)
    requires AnyUnhealthy(RunChecks(CriticalOnly(defs), outcomes))
    ensures HasCriticalFailure(RunChecks(defs, outcomes))
  {
    var critical := CriticalOnly(defs);
    var results := RunChecks(critical, outcomes);
    var j :| 0 <= j < |results| && Unhealthy(results[j]);
    assert critical[j] in defs;
    var i :| 0 <= i < |defs| && defs[i] == critical[j];
    assert RunChecks(defs, outcomes)[i] == results[j];
  }

  /** Readiness fails exactly when, with the same outcomes, some critical check
      is unhealthy, that is when the aggregate status would be "unhealthy". */
  lemma ReadinessAgreesWithHealth(defs: seq<CheckDefinition>, outcomes: string -> RaceOutcome)
    ensures ReadinessOf(defs, outcomes).status == "ready" || ReadinessOf(defs, outcomes).status == "not_ready"
    ensures ReadinessOf(defs, outcomes).status == "not_ready" <==> HasCriticalFailure(RunChecks(defs, outcomes))
    ensures ReadinessOf(defs, outcomes).status == "not_ready" <==> Overall(RunChecks(defs, outcomes)) == "unhealthy"
    ensures (forall i :: 0 <= i < |defs| ==> !defs[i].critical) ==> ReadinessOf(defs, outcomes) == Readiness("ready", None)
  {
    if HasCriticalFailure(RunChecks(defs, outcomes)) {
      CriticalFailureSeen(defs, outcomes);
    }
    if AnyUnhealthy(RunChecks(CriticalOnly(defs), outcomes)) {
      CriticalFailureFound(defs, outcomes);
    }
    OverallStatus(RunChecks(defs, outcomes));
    var critical := CriticalOnly(defs);
    if |critical| == 0 {
      assert !HasCriticalFailure(RunChecks(defs, outcomes));
    }
  }

  // ---------------------------------------------------------------------------
  // The service

  class HealthService {
    var checks: map<string, CheckDefinition>
    /** The keys of `checks` in insertion order (JavaScript `Map` iteration order). */
    var order: seq<string>
    /** The breaker the database check goes through; it lives as long as the service. */
    const dbBreaker: CircuitBreaker

    /** The registry's invariant. */
    ghost predicate RegistryValid()
      reads this
    {
      WellFormed(Registry(checks, order))
    }

    /** The registry's invariant and the database breaker's. */
    ghost predicate Valid()
      reads this, dbBreaker
    {
      RegistryValid() && dbBreaker.Valid()
    }

    function Entries(): (defs: seq<CheckDefinition>)
      reads this
      requires RegistryValid()
      ensures |defs| == |order|
      ensures forall i :: 0 <= i < |order| ==> defs[i] == checks[order[i]] && defs[i].name == order[i]
    {
      Ordered(checks, order)
    }

    /** The constructor, which runs `setupDefaultChecks`. */
    constructor ()
      ensures Registry(checks, order) == SetupDefaultChecks(EmptyRegistry)
      ensures Valid()
      ensures order == DefaultCheckNames && Entries() == DefaultChecks
      ensures fresh(dbBreaker)
      ensures dbBreaker.Cfg() == Config("Database", 3, 10000) && dbBreaker.Current() == Initial()
    {
      dbBreaker := new CircuitBreaker("Database", Options(None, None));
      checks := map[];
      order := [];
      new;
      RegisterCheck("application", ApplicationProbe, CheckOptions(None, Some(true), Some("Application basic health")));
      RegisterCheck("disk", DiskProbe, CheckOptions(None, None, Some("Monitoreo de almacenamiento")));
      RegisterCheck("memory", MemoryProbe, CheckOptions(None, None, Some("Memory usage monitoring")));
      RegisterCheck("database", DatabaseProbe, CheckOptions(None, Some(true), Some("Primary PostgreSQL Database")));
      RegisterCheck("redis", RedisProbe, CheckOptions(None, Some(false), Some("Redis Cache Layer")));
      DefaultRegistry();
    }

    /** `registerCheck`: inserts or overwrites the definition for `name`. */
    method RegisterCheck(name: string, check: Probe, options: CheckOptions)
      modifies this
      ensures Registry(checks, order) == Register(old(Registry(checks, order)), name, check, options)
      ensures old(RegistryValid()) ==> RegistryValid()
    {
      if RegistryValid() {
        RegisterProperties(Registry(checks, order), name, check, options);
      }
      if name !in checks {
        order := order + [name];
      }
      checks := checks[name := Define(name, check, options)];
    }

    /** `executeCheck` over every entry of `defs`, launched in order; the
        database check fires the breaker. */
    method ExecuteAll(defs: seq<CheckDefinition>, now: int, ping: Outcome<Fields>, outcomes: string -> RaceOutcome)
      returns (reports: seq<Report>)
      modifies dbBreaker
      ensures (reports, dbBreaker.Current()) ==
              RunWithBreaker(dbBreaker.Cfg(), old(dbBreaker.Current()), defs, now, ping, outcomes)
      ensures old(dbBreaker.Valid()) ==> dbBreaker.Valid()
    {
      reports := [];
      var i := 0;
      while i < |defs|
        invariant 0 <= i <= |defs|
        invariant (reports, dbBreaker.Current()) ==
                  RunWithBreaker(dbBreaker.Cfg(), old(dbBreaker.Current()), defs[..i], now, ping, outcomes)
      {
        var d := defs[i];
        RunStep(dbBreaker.Cfg(), old(dbBreaker.Current()), defs, i, now, ping, outcomes);
        var outcome: RaceOutcome;
        if d.check == DatabaseProbe {
          var checked := DatabaseCheck(now, ping);
          outcome := if outcomes(d.name).TimedOut? then TimedOut else checked;
        } else {
          outcome := outcomes(d.name);
        }
        reports := reports + [ExecuteCheck(d.name, d, outcome)];
        i := i + 1;
      }
      assert defs[..i] == defs;
      if old(dbBreaker.Valid()) {
        BreakerStaysConsistent(dbBreaker.Cfg(), old(dbBreaker.Current()), defs, now, ping, outcomes);
      }
    }

    /** `getHealthStatus`: runs every check, folds the reports into the overall
        status and the counts, and decides whether to alert. */
    method GetHealthStatus(detailed: bool, now: int, ping: Outcome<Fields>, outcomes: string -> RaceOutcome, system: Fields)
      returns (resp: HealthResponse, alert: bool)
      requires RegistryValid()
      modifies dbBreaker
      ensures var (reports, t) := RunWithBreaker(dbBreaker.Cfg(), old(dbBreaker.Current()), Entries(), now, ping, outcomes);
        resp == Summarize(reports, detailed, system) && dbBreaker.Current() == t
      ensures dbBreaker.Current() == Run(dbBreaker.Cfg(), old(dbBreaker.Current()), DatabaseCalls(Entries(), now, ping))
      ensures resp.checks.total == |order|
      ensures resp.status == "unhealthy" <==> resp.checks.criticalFailures > 0
      ensures alert <==> resp.status == "unhealthy"
      ensures alert == AlertTriggered(resp)
      ensures old(Valid()) ==> Valid()
    {
      var reports := ExecuteAll(Entries(), now, ping, outcomes);
      var results, overallStatus, criticalFailures := FoldReports(reports);
      alert := overallStatus == "unhealthy" && criticalFailures > 0;
      resp := HealthResponse(
        overallStatus,
        Counts(|results|, CountStatus(results, "healthy"), CountStatus(results, "unhealthy"), criticalFailures),
        if detailed then Some(system) else None,
        if detailed then Some(results) else None);
      SummaryProperties(results, detailed, system);
      BreakerFiresPerDatabaseCheck(dbBreaker.Cfg(), old(dbBreaker.Current()), Entries(), now, ping, outcomes);
    }

    /** `getLivenessStatus`: runs no check and is always alive. */
    function GetLivenessStatus(): (r: Liveness)
      ensures r.status == "alive"
    {
      Liveness("alive")
    }

    /** `getReadinessStatus`: runs the critical checks only, or none at all when
        no check is critical. */
    method GetReadinessStatus(now: int, ping: Outcome<Fields>, outcomes: string -> RaceOutcome) returns (r: Readiness)
      requires RegistryValid()
      modifies dbBreaker
      ensures var (reports, t) := RunWithBreaker(dbBreaker.Cfg(), old(dbBreaker.Current()), CriticalOnly(Entries()), now, ping, outcomes);
        r == ReadinessFrom(reports) && dbBreaker.Current() == t
      ensures r.status == "ready" || r.status == "not_ready"
      ensures CriticalOnly(Entries()) == [] ==> r == Readiness("ready", None) && dbBreaker.Current() == old(dbBreaker.Current())
      ensures !HasDatabaseCheck(Entries()) ==>
        r == ReadinessOf(Entries(), outcomes) && dbBreaker.Current() == old(dbBreaker.Current())
      ensures old(Valid()) ==> Valid()
    {
      var critical := CriticalOnly(Entries());
      if |critical| == 0 {
        r := Readiness("ready", None);
        return;
      }
      var results := ExecuteAll(critical, now, ping, outcomes);
      r := ReadinessFrom(results);
      if !HasDatabaseCheck(Entries()) {
        CriticalOnlyWithoutDatabase(Entries());
        NoDatabaseCheck(dbBreaker.Cfg(), old(dbBreaker.Current()), critical, now, ping, outcomes);
      }
    }

    /** The registered `database` check: a ping through the breaker, wrapped as
        `{status: "healthy", details: <ping result>}`; a breaker error (open
        circuit or failed ping) becomes the check's thrown error. */
    method DatabaseCheck(now: int, ping: Outcome<Fields>) returns (outcome: RaceOutcome)
      modifies dbBreaker
      ensures var (s, fired) := AfterFire(dbBreaker.Cfg(), old(dbBreaker.Current()), now, ping);
        && dbBreaker.Current() == s
        && outcome == (if fired.Returned? then Ok(CheckResult(Some("healthy"), Some(fired.value), map[]))
                       else Threw(fired.message))
      ensures old(dbBreaker.Valid()) ==> dbBreaker.Valid()
    {
      var fired, _ := dbBreaker.Fire(now, ping);
      if fired.Returned? {
        outcome := Ok(CheckResult(Some("healthy"), Some(fired.value), map[]));
      } else {
        outcome := Threw(fired.message);
      }
    }
  }
}
