/** api: the two time-series routes. The query string is a map from name to
    its first value; the upstream round trip is an input. Handlers return an
    outcome instead of writing to a gin context, and the timestamp is left
    out. */
module TimeSeriesHandlers {

  import opened Wrappers
  import opened JsonValue
  import Config
  import ApiConfig
  import Http
  import TimeSeriesQuery
  import StockTimeSeries
  import opened GinQuery

  /** `TimeSeriesResponse`, without its timestamp. */
  datatype Envelope = Envelope(version: string, symbol: string, interval: string, data: JsonObject)

  datatype Outcome = Success(status: int, envelope: Envelope) | Failure(status: int, error: string)

  /** `strconv.ParseBool`, a fixed table; any other text is an error. */
  function ParseBool(s: string): (r: Option<bool>)
    ensures r == Some(true) <==> s in {"1", "t", "T", "TRUE", "true", "True"}
    ensures r == Some(false) <==> s in {"0", "f", "F", "FALSE", "false", "False"}
  {
    if s in {"1", "t", "T", "TRUE", "true", "True"} then Some(true)
    else if s in {"0", "f", "F", "FALSE", "false", "False"} then Some(false)
    else None
  }

  /** The api package's own `TimeSeriesParams` (same fields as the stock one). */
  datatype RouteParams = RouteParams(
    fn: string,
    symbol: string,
    interval: string,
    outputSize: string,
    dataType: string,
    extendedHours: bool,
    adjusted: bool,
    month: string)

  /** The field copy at the start of `getTimeSeriesData`. */
  function ToStockParams(p: RouteParams): (s: TimeSeriesQuery.Params)
    ensures s.fn == p.fn && s.symbol == p.symbol && s.interval == p.interval
    ensures s.outputSize == p.outputSize && s.dataType == p.dataType
    ensures s.adjusted == p.adjusted && s.extendedHours == p.extendedHours && s.month == p.month
  {
    TimeSeriesQuery.Params(p.fn, p.symbol, p.interval, p.outputSize, p.dataType,
                           p.adjusted, p.extendedHours, p.month)
  }

  /** The struct literal of `GetTimeSeriesForSymbol`: no interval, and the
      two bool fields keep their zero value false. */
  function SymbolRouteParams(symbol: string, query: Query): (p: RouteParams)
    ensures p.symbol == symbol && p.interval == "" && p.month == ""
    ensures !p.adjusted && !p.extendedHours
    ensures "function" !in query ==> p.fn == "TIME_SERIES_DAILY"
    ensures "outputsize" !in query ==> p.outputSize == "compact"
    ensures "datatype" !in query ==> p.dataType == "json"
  {
    RouteParams(DefaultQuery(query, "function", "TIME_SERIES_DAILY"), symbol, "",
                DefaultQuery(query, "outputsize", "compact"),
                DefaultQuery(query, "datatype", "json"), false, false, "")
  }

  /** The parameters of `GetTimeSeriesWithInterval`, assigned as the handler
      does: intraday forced, extended_hours taken only when it parses,
      adjusted true unless a parseable value says otherwise. */
  method IntervalRouteParams(symbol: string, interval: string, query: Query) returns (p: RouteParams)
    ensures p.fn == TimeSeriesQuery.Intraday && p.symbol == symbol && p.interval == interval
    ensures p.outputSize == DefaultQuery(query, "outputsize", "compact")
    ensures p.dataType == DefaultQuery(query, "datatype", "json")
    ensures p.month == DefaultQuery(query, "month", "")
    ensures p.extendedHours <==> "extended_hours" in query && ParseBool(query["extended_hours"]) == Some(true)
    ensures !p.adjusted <==> "adjusted" in query && ParseBool(query["adjusted"]) == Some(false)
  {
    p := RouteParams("TIME_SERIES_INTRADAY", symbol, interval,
                     DefaultQuery(query, "outputsize", "compact"),
                     DefaultQuery(query, "datatype", "json"), false, false, "");
    var extendedHours := ParseBool(DefaultQuery(query, "extended_hours", "false"));
    if extendedHours.Some? {
      p := p.(extendedHours := extendedHours.value);
    }
    var adjusted := true;
    if "adjusted" in query {
      var parsedAdjusted := ParseBool(query["adjusted"]);
      if parsedAdjusted.Some? {
        adjusted := parsedAdjusted.value;
      }
    }
    p := p.(adjusted := adjusted);
    var month := DefaultQuery(query, "month", "");
    if month != "" {
      p := p.(month := month);
    }
  }

  /** `getTimeSeriesData`: copy the fields and call the stock client. */
  method GetTimeSeriesData(p: RouteParams, env: Config.Env, outcome: Http.Outcome)
    returns (q: map<string, string>, r: Result<JsonObject, string>)
    ensures TimeSeriesQuery.Conforms(ToStockParams(p), StockTimeSeries.GetAPIKeyFromEnv(env), q)
    ensures outcome.Decoded? ==> r == Ok(outcome.body)
    ensures !outcome.Decoded? ==> r.Err? && r.error == outcome.cause
  {
    var sent;
    q, sent, r := StockTimeSeries.GetTimeSeries(ToStockParams(p), env, outcome);
  }

  /** `GetTimeSeriesForSymbol`. With no query at all the upstream call is a
      compact JSON daily series. Asking for the intraday function here sends
      "adjusted=false" (the bool was never set) and no interval. */
  method GetTimeSeriesForSymbol(symbol: string, query: Query, cfg: ApiConfig.Settings,
                                env: Config.Env, outcome: Http.Outcome)
    returns (q: map<string, string>, out: Outcome)
    ensures "symbol" in q && q["symbol"] == symbol
    ensures TimeSeriesQuery.Conforms(ToStockParams(SymbolRouteParams(symbol, query)),
      StockTimeSeries.GetAPIKeyFromEnv(env), q)
    ensures query == map[] ==> q == map["function" := "TIME_SERIES_DAILY", "symbol" := symbol,
      "apikey" := StockTimeSeries.GetAPIKeyFromEnv(env), "outputsize" := "compact", "datatype" := "json"]
    ensures DefaultQuery(query, "function", "TIME_SERIES_DAILY") == TimeSeriesQuery.Intraday ==>
      "interval" !in q && "adjusted" in q && q["adjusted"] == "false"
      && "extended_hours" in q && q["extended_hours"] == "false"
    ensures outcome.Decoded? ==> out == Success(200, Envelope(cfg.defaultVersion, symbol, "", outcome.body))
    ensures !outcome.Decoded? ==> out == Failure(500, outcome.cause)
  {
    var params := SymbolRouteParams(symbol, query);
    var data;
    q, data := GetTimeSeriesData(params, env, outcome);
    if data.Err? {
      return q, Failure(500, data.error);
    }
    out := Success(200, Envelope(cfg.defaultVersion, symbol, "", data.value));
    if query == map[] {
      TimeSeriesQuery.ConformsUnique(ToStockParams(params), StockTimeSeries.GetAPIKeyFromEnv(env), q,
        map["function" := "TIME_SERIES_DAILY", "symbol" := symbol,
            "apikey" := StockTimeSeries.GetAPIKeyFromEnv(env), "outputsize" := "compact", "datatype" := "json"]);
    }
  }

  /** `GetTimeSeriesWithInterval`. The function is always intraday, whatever
      the query says; "adjusted" reaches upstream only when the query gives a
      parseable false; the envelope echoes the path symbol and interval. */
  method GetTimeSeriesWithInterval(symbol: string, interval: string, query: Query,
                                   cfg: ApiConfig.Settings, env: Config.Env, outcome: Http.Outcome)
    returns (q: map<string, string>, out: Outcome)
    ensures "function" in q && q["function"] == TimeSeriesQuery.Intraday
    ensures "symbol" in q && q["symbol"] == symbol
    ensures "apikey" in q && q["apikey"] == StockTimeSeries.GetAPIKeyFromEnv(env)
    ensures "interval" in q <==> interval != ""
    ensures "interval" in q ==> q["interval"] == interval
    ensures "outputsize" in q <==> DefaultQuery(query, "outputsize", "compact") != ""
    ensures "outputsize" in q ==> q["outputsize"] == DefaultQuery(query, "outputsize", "compact")
    ensures "datatype" in q <==> DefaultQuery(query, "datatype", "json") != ""
    ensures "datatype" in q ==> q["datatype"] == DefaultQuery(query, "datatype", "json")
    ensures "month" in q <==> DefaultQuery(query, "month", "") != ""
    ensures "month" in q ==> q["month"] == DefaultQuery(query, "month", "")
    ensures q.Keys <= TimeSeriesQuery.AllKeys
    ensures "extended_hours" in q
    ensures q["extended_hours"] == "true" <==>
      "extended_hours" in query && ParseBool(query["extended_hours"]) == Some(true)
    ensures q["extended_hours"] ==
      (if "extended_hours" in query && ParseBool(query["extended_hours"]) == Some(true) then "true" else "false")
    ensures "adjusted" in q <==> "adjusted" in query && ParseBool(query["adjusted"]) == Some(false)
    ensures "adjusted" in q ==> q["adjusted"] == "false"
    ensures outcome.Decoded? ==> out == Success(200, Envelope(cfg.defaultVersion, symbol, interval, outcome.body))
    ensures !outcome.Decoded? ==> out == Failure(500, outcome.cause)
  {
    var params := IntervalRouteParams(symbol, interval, query);
    var data;
    q, data := GetTimeSeriesData(params, env, outcome);
    if data.Err? {
      return q, Failure(500, data.error);
    }
    out := Success(200, Envelope(cfg.defaultVersion, symbol, interval, data.value));
  }
}
