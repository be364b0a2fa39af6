/** The process-wide configuration of the `config` package: three values read
    from the environment with fallbacks, and a base URL that is a constant.
    The environment is a map from variable name to value; a name that is not
    a key is an unset variable. */
module Config {

  type Env = map<string, string>

  const ApiKeyVar := "ALPHAVANTAGE_API_KEY"
  const VersionVar := "API_DEFAULT_VERSION"
  const PortVar := "PORT"
  const BaseURL := "https://www.alphavantage.co/query"

  datatype Settings = Settings(
    alphaVantageAPIKey: string,
    alphaVantageBaseURL: string,
    defaultAPIVersion: string,
    port: string)

  /** `os.LookupEnv` with a fallback: a variable that is set wins, even when
      its value is the empty string. */
  function GetEnvWithDefault(env: Env, key: string, defaultValue: string): (r: string)
    ensures key in env ==> r == env[key]
    ensures key !in env ==> r == defaultValue
  {
    if key in env then env[key] else defaultValue
  }

  /** The value the singleton is initialised with. */
  function Resolve(env: Env): (s: Settings)
    ensures s.alphaVantageBaseURL == BaseURL
    ensures s.alphaVantageAPIKey == (if ApiKeyVar in env then env[ApiKeyVar] else "demo")
    ensures s.defaultAPIVersion == (if VersionVar in env then env[VersionVar] else "1.0")
    ensures s.port == (if PortVar in env then env[PortVar] else "8080")
  {
    Settings(
      GetEnvWithDefault(env, ApiKeyVar, "demo"),
      BaseURL,
      GetEnvWithDefault(env, VersionVar, "1.0"),
      GetEnvWithDefault(env, PortVar, "8080"))
  }

  /** With none of the three variables set, every setting is its default. */
  lemma DefaultsWhenUnset(env: Env)
    requires ApiKeyVar !in env && VersionVar !in env && PortVar !in env
    ensures Resolve(env) == Settings("demo", "https://www.alphavantage.co/query", "1.0", "8080")
  {
  }

  /** The base URL never depends on the environment, and no variable other
      than the three named ones influences the settings. */
  lemma ResolveDependsOnlyOnThreeVariables(env1: Env, env2: Env)
    requires forall v :: v in {ApiKeyVar, VersionVar, PortVar} ==>
      (v in env1 <==> v in env2) && (v in env1 ==> env1[v] == env2[v])
    ensures Resolve(env1) == Resolve(env2)
    ensures Resolve(env1).alphaVantageBaseURL == Resolve(env2).alphaVantageBaseURL == BaseURL
  {
    assert ApiKeyVar in {ApiKeyVar, VersionVar, PortVar};
    assert VersionVar in {ApiKeyVar, VersionVar, PortVar};
    assert PortVar in {ApiKeyVar, VersionVar, PortVar};
  }

  /** The package-level `config` variable together with its `sync.Once` guard,
      in a single-threaded reading. */
  class ConfigStore {
    var initialized: bool
    var config: Settings

    /** Program start: the guard has not fired yet. */
    constructor ()
      ensures !initialized
    {
      initialized := false;
      config := Settings("", "", "", "");
    }

    /** `GetConfig`: the first call resolves the settings from the environment
        it sees; every later call returns that same value, whatever the
        environment has become. */
    method GetConfig(env: Env) returns (c: Settings)
      modifies this
      ensures initialized
      ensures old(initialized) ==> c == old(config) && config == old(config)
      ensures !old(initialized) ==> c == Resolve(env) && config == c
    {
      if !initialized {
        config := Resolve(env);
        initialized := true;
      }
      c := config;
    }
  }

  /** Two calls on a fresh store, with environments that may differ, both
      see the settings of the first environment. */
  method GetConfigTwice(env1: Env, env2: Env) returns (c1: Settings, c2: Settings)
    ensures c1 == c2 == Resolve(env1)
  {
    var store := new ConfigStore();
    c1 := store.GetConfig(env1);
    c2 := store.GetConfig(env2);
  }
}
