/** alphavantage: the news-sentiment route. Query names map to their first
    value; the feed the adapter would return is an input. */
module NewsHandlers {

  import opened Wrappers
  import Config
  import Decimal
  import News
  import opened GinQuery

  /** `NewsAndSentimentResponse` without its timestamp. */
  datatype Envelope<D> = Envelope(version: string, data: D)

  datatype Outcome<D> = Success(status: int, envelope: Envelope<D>) | Failure(status: int, error: string)

  /** The parameter record the handler builds: text parameters verbatim, and
      limit set only from a non-empty text that `Atoi` accepts; otherwise it
      keeps the zero value. */
  method ExtractParams(query: Query) returns (p: News.Params)
    ensures p.tickers == QueryValue(query, "tickers") && p.topics == QueryValue(query, "topics")
    ensures p.timeFrom == QueryValue(query, "time_from") && p.timeTo == QueryValue(query, "time_to")
    ensures p.sort == QueryValue(query, "sort")
    ensures Decimal.Atoi(QueryValue(query, "limit")).Some? ==> p.limit == Decimal.Atoi(QueryValue(query, "limit")).value
    ensures Decimal.Atoi(QueryValue(query, "limit")).None? ==> p.limit == 0
  {
    p := News.Params(QueryValue(query, "tickers"), QueryValue(query, "topics"),
                     QueryValue(query, "time_from"), QueryValue(query, "time_to"),
                     QueryValue(query, "sort"), 0);
    var limitStr := QueryValue(query, "limit");
    if limitStr != "" {
      var limit := Decimal.Atoi(limitStr);
      if limit.Some? {
        p := p.(limit := limit.value);
      }
    }
  }

  /** `GetNewsAndSentiment`. A "limit" reaches upstream only when the query's
      limit parses to a positive number, and then with the same value; zero,
      negative and unparseable limits are dropped. */
  method GetNewsAndSentiment<D>(query: Query, cfg: Config.Settings, fetched: Result<D, string>)
    returns (q: map<string, string>, out: Outcome<D>)
    ensures "function" in q && q["function"] == "NEWS_SENTIMENT"
    ensures "apikey" in q && q["apikey"] == cfg.alphaVantageAPIKey
    ensures q.Keys <= News.AllKeys
    ensures "limit" in q <==> (var n := Decimal.Atoi(QueryValue(query, "limit")); n.Some? && n.value > 0)
    ensures "limit" in q ==> Decimal.Atoi(q["limit"]) == Decimal.Atoi(QueryValue(query, "limit"))
    ensures forall k :: k in {"tickers", "topics", "time_from", "time_to", "sort"} ==>
      (k in q <==> QueryValue(query, k) != "") && (k in q ==> q[k] == query[k])
    ensures fetched.Ok? ==> out == Success(200, Envelope("1.0", fetched.value))
    ensures fetched.Err? ==> out == Failure(500, fetched.error)
  {
    var params := ExtractParams(query);
    var data;
    q, data := News.GetNewsAndSentiment(params, cfg, fetched);
    News.LimitRoundTrip(params, cfg.alphaVantageAPIKey, q);
    if data.Err? {
      return q, Failure(500, data.error);
    }
    out := Success(200, Envelope("1.0", data.value));
  }
}
