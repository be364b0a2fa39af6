/** The configuration of the `api` package: an API key and a response version,
    read from the environment with fallbacks and kept after the first call. */
module ApiConfig {

  import Config

  datatype Settings = Settings(alphaVantageAPIKey: string, defaultVersion: string)

  /** `getEnvWithDefault` of this package: a set variable wins, even when it
      is empty. */
  function GetEnvWithDefault(env: Config.Env, key: string, defaultValue: string): (r: string)
    ensures key in env ==> r == env[key]
    ensures key !in env ==> r == defaultValue
  {
    if key in env then env[key] else defaultValue
  }

  function Resolve(env: Config.Env): (s: Settings)
    ensures s.alphaVantageAPIKey == (if Config.ApiKeyVar in env then env[Config.ApiKeyVar] else "demo")
    ensures s.defaultVersion == (if Config.VersionVar in env then env[Config.VersionVar] else "1.0")
  {
    Settings(GetEnvWithDefault(env, Config.ApiKeyVar, "demo"),
             GetEnvWithDefault(env, Config.VersionVar, "1.0"))
  }

  /** Only ALPHAVANTAGE_API_KEY and API_DEFAULT_VERSION influence the settings. */
  lemma ResolveDependsOnlyOnTwoVariables(env: Config.Env, name: string, value: string)
    requires name != Config.ApiKeyVar && name != Config.VersionVar
    ensures Resolve(env[name := value]) == Resolve(env)
    ensures Resolve(env - {name}) == Resolve(env)
  {
  }

  /** A variable set to the empty string is not replaced by the default. */
  lemma EmptyValueWins(env: Config.Env)
    requires Config.ApiKeyVar in env && env[Config.ApiKeyVar] == ""
    ensures Resolve(env).alphaVantageAPIKey == ""
  {
  }

  class ConfigStore {
    var initialized: bool
    var config: Settings

    constructor ()
      ensures !initialized
    {
      initialized := false;
      config := Settings("", "");
    }

    /** `GetConfig`: initialise once, then return the same settings on every call. */
    method GetConfig(env: Config.Env) returns (c: Settings)
      modifies this
      ensures initialized
      ensures old(initialized) ==> c == old(config) && config == old(config)
      ensures !old(initialized) ==> c == Resolve(env) && config == c
    {
      if !initialized {
        config := Resolve(env);
        initialized := true;
      }
      c := config;
    }
  }

  method GetConfigTwice(env1: Config.Env, env2: Config.Env) returns (c1: Settings, c2: Settings)
    ensures c1 == c2 == Resolve(env1)
  {
    var store := new ConfigStore();
    c1 := store.GetConfig(env1);
    c2 := store.GetConfig(env2);
  }
}
