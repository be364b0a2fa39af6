/** alphavantage/news: the query `GetNewsAndSentiment` sends. Fetching and
    decoding the feed go through `common.GetAPIRequest` and a struct decode,
    which are not part of this model; their result is an input. */
module News {

  import opened Wrappers
  import Config
  import Decimal

  datatype Params = Params(
    tickers: string,
    topics: string,
    timeFrom: string,
    timeTo: string,
    sort: string,
    limit: int)

  const AllKeys: set<string> :=
    {"function", "apikey", "tickers", "topics", "time_from", "time_to", "sort", "limit"}

  /** The query rules: "function" is always NEWS_SENTIMENT and "apikey" is
      always sent; each text field is sent, verbatim, exactly when it is not
      empty; "limit" is sent, in decimal, exactly when it is positive. No
      range or enumeration is checked; there is never a "symbol". */
  ghost predicate Conforms(p: Params, apiKey: string, q: map<string, string>) {
    && q.Keys <= AllKeys
    && "function" in q && q["function"] == "NEWS_SENTIMENT"
    && "apikey" in q && q["apikey"] == apiKey
    && ("tickers" in q <==> p.tickers != "") && ("tickers" in q ==> q["tickers"] == p.tickers)
    && ("topics" in q <==> p.topics != "") && ("topics" in q ==> q["topics"] == p.topics)
    && ("time_from" in q <==> p.timeFrom != "") && ("time_from" in q ==> q["time_from"] == p.timeFrom)
    && ("time_to" in q <==> p.timeTo != "") && ("time_to" in q ==> q["time_to"] == p.timeTo)
    && ("sort" in q <==> p.sort != "") && ("sort" in q ==> q["sort"] == p.sort)
    && ("limit" in q <==> p.limit > 0) && ("limit" in q ==> q["limit"] == Decimal.Itoa(p.limit))
  }

  lemma ConformsUnique(p: Params, apiKey: string, q1: map<string, string>, q2: map<string, string>)
    requires Conforms(p, apiKey, q1) && Conforms(p, apiKey, q2)
    ensures q1 == q2
  {
    forall k | k in q1
      ensures k in q2 && q1[k] == q2[k]
    {
      assert k in AllKeys;
    }
    forall k | k in q2
      ensures k in q1
    {
      assert k in AllKeys;
    }
  }

  /** The query-map construction of `GetNewsAndSentiment`. */
  method BuildQuery(p: Params, apiKey: string) returns (q: map<string, string>)
    ensures Conforms(p, apiKey, q)
    ensures "symbol" !in q
  {
    q := map["function" := "NEWS_SENTIMENT", "apikey" := apiKey];
    if p.tickers != "" {
      q := q["tickers" := p.tickers];
    }
    if p.topics != "" {
      q := q["topics" := p.topics];
    }
    if p.timeFrom != "" {
      q := q["time_from" := p.timeFrom];
    }
    if p.timeTo != "" {
      q := q["time_to" := p.timeTo];
    }
    if p.sort != "" {
      q := q["sort" := p.sort];
    }
    if p.limit > 0 {
      q := q["limit" := Decimal.Itoa(p.limit)];
    }
  }

  /** The "limit" that reaches upstream reads back as the record's limit. */
  lemma LimitRoundTrip(p: Params, apiKey: string, q: map<string, string>)
    requires Conforms(p, apiKey, q) && p.limit <= Decimal.MaxInt64
    ensures "limit" in q ==> Decimal.Atoi(q["limit"]) == Some(p.limit)
  {
    if "limit" in q {
      Decimal.AtoiItoa(p.limit);
    }
  }

  /** Values beyond the documented maximum are passed through: 5000 is sent
      as "5000". */
  lemma NoLimitValidation(p: Params, apiKey: string, q: map<string, string>)
    requires Conforms(p, apiKey, q) && p.limit == 5000
    ensures q["limit"] == "5000"
  {
    assert Decimal.NatText(5) == "5";
    assert Decimal.NatText(50) == "50";
    assert Decimal.NatText(500) == "500";
    assert Decimal.NatText(5000) == "5000";
  }

  /** `GetNewsAndSentiment`: the query, and the fetched-and-decoded feed
      returned as it came (`fetched` is that result). */
  method GetNewsAndSentiment<D>(p: Params, cfg: Config.Settings, fetched: Result<D, string>)
    returns (q: map<string, string>, r: Result<D, string>)
    ensures Conforms(p, cfg.alphaVantageAPIKey, q)
    ensures r == fetched
  {
    q := BuildQuery(p, cfg.alphaVantageAPIKey);
    r := fetched;
  }
}
