/** stock: a self-contained time-series client with its own copy of the
    query rules, a hard-coded base URL, an API key read straight from the
    environment, and a request function that does not look for upstream
    errors. */
module StockTimeSeries {

  import Config
  import opened Wrappers
  import opened JsonValue
  import Http
  import opened TimeSeriesQuery

  /** `getAPIKeyFromEnv`: `os.Getenv` cannot tell unset from empty, so both
      fall back to "demo". */
  function GetAPIKeyFromEnv(env: Config.Env): (key: string)
    ensures key != ""
    ensures Config.ApiKeyVar in env && env[Config.ApiKeyVar] != "" ==> key == env[Config.ApiKeyVar]
    ensures (Config.ApiKeyVar !in env || env[Config.ApiKeyVar] == "") ==> key == "demo"
  {
    var apiKey := if Config.ApiKeyVar in env then env[Config.ApiKeyVar] else "";
    if apiKey == "" then "demo" else apiKey
  }

  /** Unlike the `config` package, a variable set to "" does not win here. */
  lemma EmptyKeyDiffersFromConfig(env: Config.Env)
    requires Config.ApiKeyVar in env && env[Config.ApiKeyVar] == ""
    ensures GetAPIKeyFromEnv(env) == "demo"
    ensures Config.Resolve(env).alphaVantageAPIKey == ""
  {
  }

  /** `buildRequestURL`, a verbatim copy of `common.BuildRequestURL`. */
  method BuildRequestURL(parsed: Result<Http.Url, string>, params: map<string, string>)
    returns (r: Result<Http.Url, string>)
    ensures parsed.Err? ==> r == Err(parsed.error)
    ensures parsed.Ok? ==> r.Ok? && r.value.location == parsed.value.location
    ensures parsed.Ok? ==> r.value.query.Keys == parsed.value.query.Keys + params.Keys
    ensures parsed.Ok? ==> forall k :: k in params ==> r.value.query[k] == [params[k]]
    ensures parsed.Ok? ==> forall k :: k in parsed.value.query && k !in params ==>
      r.value.query[k] == parsed.value.query[k]
  {
    r := Http.BuildRequestURL(parsed, params);
  }

  /** `MakeAPIRequest` of this package: no "Error Message" check, so an
      upstream error payload comes back as a success. */
  method MakeAPIRequest(parsed: Result<Http.Url, string>, params: map<string, string>, outcome: Http.Outcome)
    returns (sent: Option<Http.Url>, r: Result<JsonObject, string>)
    ensures parsed.Err? ==> sent == None && r == Err(parsed.error)
    ensures parsed.Ok? ==> sent.Some? && sent.value.location == parsed.value.location
    ensures parsed.Ok? ==> sent.value.query.Keys == parsed.value.query.Keys + params.Keys
    ensures parsed.Ok? ==> forall k :: k in params ==> sent.value.query[k] == [params[k]]
    ensures parsed.Ok? ==> forall k :: k in parsed.value.query && k !in params ==>
      sent.value.query[k] == parsed.value.query[k]
    ensures parsed.Ok? && outcome.TransportFailed? ==> r == Err(outcome.cause)
    ensures parsed.Ok? && outcome.DecodeFailed? ==> r == Err(outcome.cause)
    ensures parsed.Ok? && outcome.Decoded? ==> r == Ok(outcome.body)
  {
    var url := BuildRequestURL(parsed, params);
    if url.Err? {
      return None, Err(url.error);
    }
    sent := Some(url.value);
    match outcome {
      case TransportFailed(e) => r := Err(e);
      case DecodeFailed(e) => r := Err(e);
      case Decoded(body) => r := Ok(body);
    }
  }

  /** The query-map construction of `GetTimeSeries` (a copy of the other two). */
  method BuildQuery(p: Params, apiKey: string) returns (q: map<string, string>)
    ensures Conforms(p, apiKey, q)
    ensures q == QueryMap(p, apiKey)
  {
    q := map["function" := p.fn, "symbol" := p.symbol, "apikey" := apiKey];
    if p.interval != "" && p.fn == "TIME_SERIES_INTRADAY" {
      q := q["interval" := p.interval];
    }
    if p.outputSize != "" {
      q := q["outputsize" := p.outputSize];
    }
    if p.dataType != "" {
      q := q["datatype" := p.dataType];
    }
    assert BeforeIntraday(p, apiKey, q);
    if p.fn == "TIME_SERIES_INTRADAY" {
      if p.month != "" {
        q := q["month" := p.month];
      }
      if !p.adjusted {
        q := q["adjusted" := "false"];
      }
      if p.extendedHours {
        q := q["extended_hours" := "true"];
      } else {
        q := q["extended_hours" := "false"];
      }
    }
    ConformsIsQueryMap(p, apiKey, q);
  }

  /** `GetTimeSeries`: the key comes from the environment, the base URL is the
      literal one (it parses to `Http.AlphaVantageBase`), and the decoded
      payload is returned even when it is an upstream error. */
  method GetTimeSeries(p: Params, env: Config.Env, outcome: Http.Outcome)
    returns (q: map<string, string>, sent: Http.Url, r: Result<JsonObject, string>)
    ensures q == QueryMap(p, GetAPIKeyFromEnv(env))
    ensures sent.location == "https://www.alphavantage.co/query"
    ensures sent.query.Keys == q.Keys
    ensures forall k :: k in q ==> sent.query[k] == [q[k]]
    ensures outcome.TransportFailed? ==> r == Err(outcome.cause)
    ensures outcome.DecodeFailed? ==> r == Err(outcome.cause)
    ensures outcome.Decoded? ==> r == Ok(outcome.body)
  {
    var apiKey := GetAPIKeyFromEnv(env);
    q := BuildQuery(p, apiKey);
    var url;
    url, r := MakeAPIRequest(Ok(Http.AlphaVantageBase), q, outcome);
    sent := url.value;
  }
}
