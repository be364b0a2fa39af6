/** alphavantage/timeseries: the query its `GetTimeSeries` sends. The request
    itself goes through `common.GetAPIRequest` and a struct decode, neither of
    which is part of this model. */
module AlphaTimeSeries {

  import Config
  import opened TimeSeriesQuery

  /** The query-map construction of `GetTimeSeries`: the three fixed entries,
      then the conditional inserts in source order. */
  method BuildQuery(p: Params, cfg: Config.Settings) returns (q: map<string, string>)
    ensures Conforms(p, cfg.alphaVantageAPIKey, q)
    ensures q == QueryMap(p, cfg.alphaVantageAPIKey)
  {
    q := map["function" := p.fn, "symbol" := p.symbol, "apikey" := cfg.alphaVantageAPIKey];
    if p.interval != "" && p.fn == "TIME_SERIES_INTRADAY" {
      q := q["interval" := p.interval];
    }
    if p.outputSize != "" {
      q := q["outputsize" := p.outputSize];
    }
    if p.dataType != "" {
      q := q["datatype" := p.dataType];
    }
    assert BeforeIntraday(p, cfg.alphaVantageAPIKey, q);
    if p.fn == "TIME_SERIES_INTRADAY" {
      if p.month != "" {
        q := q["month" := p.month];
      }
      if !p.adjusted {
        q := q["adjusted" := "false"];
      }
      if p.extendedHours {
        q := q["extended_hours" := "true"];
      } else {
        q := q["extended_hours" := "false"];
      }
    }
    ConformsIsQueryMap(p, cfg.alphaVantageAPIKey, q);
  }
}
