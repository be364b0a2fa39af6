/** api/alphavantage/timeseries: `GetTimeSeries` builds the query and returns
    the shared client's result unchanged. */
module ApiTimeSeries {

  import Config
  import opened Wrappers
  import opened JsonValue
  import Http
  import opened TimeSeriesQuery

  /** The query-map construction of `GetTimeSeries` (a copy of the other two). */
  method BuildQuery(p: Params, cfg: Config.Settings) returns (q: map<string, string>)
    ensures Conforms(p, cfg.alphaVantageAPIKey, q)
    ensures q == QueryMap(p, cfg.alphaVantageAPIKey)
  {
    q := map["function" := p.fn, "symbol" := p.symbol, "apikey" := cfg.alphaVantageAPIKey];
    if p.interval != "" && p.fn == "TIME_SERIES_INTRADAY" {
      q := q["interval" := p.interval];
    }
    if p.outputSize != "" {
      q := q["outputsize" := p.outputSize];
    }
    if p.dataType != "" {
      q := q["datatype" := p.dataType];
    }
    assert BeforeIntraday(p, cfg.alphaVantageAPIKey, q);
    if p.fn == "TIME_SERIES_INTRADAY" {
      if p.month != "" {
        q := q["month" := p.month];
      }
      if !p.adjusted {
        q := q["adjusted" := "false"];
      }
      if p.extendedHours {
        q := q["extended_hours" := "true"];
      } else {
        q := q["extended_hours" := "false"];
      }
    }
    ConformsIsQueryMap(p, cfg.alphaVantageAPIKey, q);
  }

  /** `GetTimeSeries`: `parsedBase` is what `url.Parse` made of the configured
      base URL and `outcome` what the round trip produced. Every client error,
      an upstream "Error Message" included, is returned as it is, with no
      data; on success the decoded payload is the data. `sent` is the URL
      the request went to: the base URL with `q` merged into its query. */
  method GetTimeSeries(p: Params, cfg: Config.Settings, parsedBase: Result<Http.Url, string>, outcome: Http.Outcome)
    returns (q: map<string, string>, sent: Option<Http.Url>, r: Result<JsonObject, string>)
    ensures Conforms(p, cfg.alphaVantageAPIKey, q)
    ensures parsedBase.Err? ==> sent == None
    ensures parsedBase.Ok? ==> sent.Some? && sent.value.location == parsedBase.value.location
    ensures parsedBase.Ok? ==> sent.value.query.Keys == parsedBase.value.query.Keys + q.Keys
    ensures parsedBase.Ok? ==> forall k :: k in q ==> sent.value.query[k] == [q[k]]
    ensures parsedBase.Err? ==> r == Err(parsedBase.error)
    ensures parsedBase.Ok? ==> r == Http.Response(outcome)
    ensures parsedBase.Ok? && outcome.Decoded? && "Error Message" in outcome.body ==>
      (outcome.body["Error Message"].JStr? ==> r == Err("API error: " + outcome.body["Error Message"].s))
  {
    q := BuildQuery(p, cfg);
    var resp;
    sent, resp := Http.MakeAPIRequest(parsedBase, q, outcome);
    if resp.Err? {
      return q, sent, Err(resp.error);
    }
    r := Ok(resp.value);
  }
}
