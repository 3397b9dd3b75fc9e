/** The `/health-checks` handler of src/app.js: a report built field by field from the
    driver's `readyState` and the environment, and the status code chosen from it. */
module HealthChecks {
  import opened Basics
  import opened Strings
  import opened Database

  /** Reading `mongoose.connection.readyState`: a state number, or an exception. */
  datatype Probe = ReadyState(n: int) | Throws(message: string)

  /** `checks.database`: status, message and state. */
  datatype DatabaseCheck = DatabaseCheck(status: string, message: string, state: string)

  /** `checks.environment`: status, message and the missing variable names. */
  datatype EnvironmentCheck = EnvironmentCheck(status: string, message: string, missing: seq<string>)

  /** The parts of the report the handler decides; timestamps, uptime, memory figures, the
      version and the `api` entry are constants or readings of the process. */
  datatype Report = Report(status: string, database: DatabaseCheck, environment: EnvironmentCheck)

  /** The variables the service cannot run without, in the order they are reported. */
  const RequiredEnvVars: seq<string> := [MongoUriKey, JwtSecretKey]

  /** The database entry: connected is "ok", connecting is a "warning", anything else and an
      exception are an "error". */
  function DatabaseCheckFor(probe: Probe): (c: DatabaseCheck)
    ensures c.status == "ok" <==> probe == ReadyState(1)
    ensures c.status == "warning" <==> probe == ReadyState(2)
    ensures c.status == "error" <==> probe != ReadyState(1) && probe != ReadyState(2)
    ensures probe.Throws? ==> c == DatabaseCheck("error", probe.message, "error")
  {
    match probe
    case Throws(m) => DatabaseCheck("error", m, "error")
    case ReadyState(n) =>
      if n == 1 then DatabaseCheck("ok", "Database connected", "connected")
      else if n == 2 then DatabaseCheck("warning", "Database connecting", "connecting")
      else DatabaseCheck("error", "Database not connected", "disconnected")
  }

  /** `keys.filter((key) => !process.env[key])`: the keys that are unset or empty, in order. */
  function MissingOf(env: map<string, string>, keys: seq<string>): (r: seq<string>)
    ensures |r| <= |keys|
    ensures forall k :: k in r <==> k in keys && !EnvSet(env, k)
  {
    if keys == [] then []
    else (if EnvSet(env, keys[0]) then [] else [keys[0]]) + MissingOf(env, keys[1..])
  }

  /** The missing required variables: `MONGODB_URI` before `JWT_SECRET`, each exactly when unset. */
  lemma MissingRequired(env: map<string, string>)
    ensures MissingOf(env, RequiredEnvVars)
         == (if EnvSet(env, MongoUriKey) then [] else [MongoUriKey]) + (if EnvSet(env, JwtSecretKey) then [] else [JwtSecretKey])
  {
    assert RequiredEnvVars[1..] == [JwtSecretKey];
    assert RequiredEnvVars[1..][1..] == [];
  }

  /** The status code chosen from the overall status, as written: 200 for "ok" and for
      "degraded", 503 for anything else. */
  function StatusCodeFor(status: string): (code: int)
    ensures code == 503 <==> status != "ok" && status != "degraded"
  {
    if status == "ok" then 200 else if status == "degraded" then 200 else 503
  }

  /** `GET /health-checks`: the report starts "ok"; a database "error" degrades it; missing
      variables degrade it when it is still "ok"; a connecting database degrades nothing. The
      overall status is only ever "ok" or "degraded", so the answer is always 200 and the 503
      branch cannot be taken. */
  method HealthChecks(probe: Probe, env: map<string, string>) returns (statusCode: int, report: Report)
    ensures report.database == DatabaseCheckFor(probe)
    ensures report.environment.missing == MissingOf(env, RequiredEnvVars)
    ensures report.environment.status == (if MissingOf(env, RequiredEnvVars) == [] then "ok" else "warning")
    ensures report.status == "degraded" <==> DatabaseCheckFor(probe).status == "error" || MissingOf(env, RequiredEnvVars) != []
    ensures report.status == "ok" || report.status == "degraded"
    ensures statusCode == 200
  {
    var status := "ok";
    var database := DatabaseCheck("unknown", "Checking database connection...", "");
    match probe {
      case Throws(m) =>
        database := DatabaseCheck("error", m, "error");
        status := "degraded";
      case ReadyState(n) =>
        if n == 1 {
          database := DatabaseCheck("ok", "Database connected", "connected");
        } else if n == 2 {
          database := DatabaseCheck("warning", "Database connecting", "connecting");
        } else {
          database := DatabaseCheck("error", "Database not connected", "disconnected");
          status := "degraded";
        }
    }
    var missing := MissingOf(env, RequiredEnvVars);
    var environment;
    if |missing| > 0 {
      environment := EnvironmentCheck("warning", "Missing environment variables: " + Join(missing, ", "), missing);
      if status == "ok" {
        status := "degraded";
      }
    } else {
      environment := EnvironmentCheck("ok", "All required environment variables are set", []);
    }
    statusCode := StatusCodeFor(status);
    report := Report(status, database, environment);
  }
}
