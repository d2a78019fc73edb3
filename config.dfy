/** The backend's configuration record and its construction from the
    process environment. The environment is a parameter: a map from
    variable name to value, where an unset variable has no entry. */
module BackendConfig {
  import opened Wrappers

  /** The five settings, as the strings the environment holds: no numeric
      conversion takes place, whatever the field annotations say. */
  datatype Config = Config(
    minOrderWait: string, maxOrderWait: string, brokerUrl: string,
    brokerUsername: string, brokerPassword: string)

  datatype EnvironmentError = EnvironmentError(message: string)

  type Environment = map<string, string>

  const MIN_ORDER_WAIT_SECS: string := "MIN_ORDER_WAIT_SECS"
  const MAX_ORDER_WAIT_SECS: string := "MAX_ORDER_WAIT_SECS"
  const MQTT_BROKER_URL: string := "MQTT_BROKER_URL"
  const MQTT_BROKER_USERNAME: string := "MQTT_BROKER_USERNAME"
  const MQTT_BROKER_PASSWORD: string := "MQTT_BROKER_PASSWORD"

  /** The variables read, in the order their values fill the record. */
  const RequiredVariables: seq<string> :=
    [MIN_ORDER_WAIT_SECS, MAX_ORDER_WAIT_SECS, MQTT_BROKER_URL, MQTT_BROKER_USERNAME, MQTT_BROKER_PASSWORD]

  const NOT_ALL_DEFINED: string :=
    "Not all environment variables are defined. See `.env.example` for required variables."

  /** `os.getenv(name)`. */
  function GetEnv(env: Environment, name: string): Option<string> {
    if name in env then Some(env[name]) else None
  }

  /** Python truthiness of an optional string: `None` and `""` are false. */
  predicate Truthy(value: Option<string>) {
    value.Some? && value.value != ""
  }

  /** Python's `all` over a list of optional strings. */
  function All(values: seq<Option<string>>): (r: bool)
    ensures r <==> forall i :: 0 <= i < |values| ==> Truthy(values[i])
  {
    values == [] || (Truthy(values[0]) && All(values[1..]))
  }

  /** The list of values looked up, in the order of `RequiredVariables`. */
  function EnvVars(env: Environment): seq<Option<string>> {
    [ GetEnv(env, MIN_ORDER_WAIT_SECS),
      GetEnv(env, MAX_ORDER_WAIT_SECS),
      GetEnv(env, MQTT_BROKER_URL),
      GetEnv(env, MQTT_BROKER_USERNAME),
      GetEnv(env, MQTT_BROKER_PASSWORD) ]
  }

  /** A variable that is set to a non-empty value. */
  predicate Defined(env: Environment, name: string) {
    name in env && env[name] != ""
  }

  /** Every one of the five variables is set and non-empty. */
  predicate AllDefined(env: Environment) {
    && Defined(env, MIN_ORDER_WAIT_SECS)
    && Defined(env, MAX_ORDER_WAIT_SECS)
    && Defined(env, MQTT_BROKER_URL)
    && Defined(env, MQTT_BROKER_USERNAME)
    && Defined(env, MQTT_BROKER_PASSWORD)
  }

  /** Succeeds exactly when all five variables are set and non-empty, and
      then passes their values positionally into the record. */
  function GetConfigFromEnv(env: Environment): (r: Result<Config, EnvironmentError>)
    ensures r.Success? <==> AllDefined(env)
    ensures r.Success? ==> r.value == Config(
      env[MIN_ORDER_WAIT_SECS], env[MAX_ORDER_WAIT_SECS], env[MQTT_BROKER_URL],
      env[MQTT_BROKER_USERNAME], env[MQTT_BROKER_PASSWORD])
    ensures r.Failure? ==> r.error == EnvironmentError(NOT_ALL_DEFINED)
  {
    var envVars := EnvVars(env);
    if !All(envVars) then Failure(EnvironmentError(NOT_ALL_DEFINED))
    else
      assert forall i :: 0 <= i < 5 ==> Truthy(envVars[i]);
      Success(Config(envVars[0].value, envVars[1].value, envVars[2].value, envVars[3].value, envVars[4].value))
  }

  /** Each of the five is required, username and password included: one
      variable unset or empty is enough to fail. */
  lemma EachVariableRequired(env: Environment, name: string)
    requires name in RequiredVariables && !Defined(env, name)
    ensures GetConfigFromEnv(env).Failure?
  {
    assert name == MIN_ORDER_WAIT_SECS || name == MAX_ORDER_WAIT_SECS || name == MQTT_BROKER_URL
      || name == MQTT_BROKER_USERNAME || name == MQTT_BROKER_PASSWORD;
  }

  /** Whether construction succeeds depends only on which of the five
      variables are set and non-empty, not on their values or on any other
      variable. */
  lemma PresenceOnly(env1: Environment, env2: Environment)
    requires forall name :: name in RequiredVariables ==> (Defined(env1, name) <==> Defined(env2, name))
    ensures GetConfigFromEnv(env1).Success? <==> GetConfigFromEnv(env2).Success?
  {
    assert forall i :: 0 <= i < |RequiredVariables| ==> RequiredVariables[i] in RequiredVariables;
    assert RequiredVariables[0] == MIN_ORDER_WAIT_SECS && RequiredVariables[4] == MQTT_BROKER_PASSWORD;
  }

  /** Neither a range check nor a numeric parse takes place: a minimum wait
      above the maximum is accepted, and so are waits that are not numbers;
      both are kept verbatim. */
  lemma NoRangeCheck(url: string, user: string, password: string)
    requires url != "" && user != "" && password != ""
    ensures GetConfigFromEnv(map[
      MIN_ORDER_WAIT_SECS := "10", MAX_ORDER_WAIT_SECS := "2",
      MQTT_BROKER_URL := url, MQTT_BROKER_USERNAME := user, MQTT_BROKER_PASSWORD := password])
      == Success(Config("10", "2", url, user, password))
    ensures GetConfigFromEnv(map[
      MIN_ORDER_WAIT_SECS := "ten", MAX_ORDER_WAIT_SECS := "two",
      MQTT_BROKER_URL := url, MQTT_BROKER_USERNAME := user, MQTT_BROKER_PASSWORD := password])
      == Success(Config("ten", "two", url, user, password))
  {
  }
}
